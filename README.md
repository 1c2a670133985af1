# sawmill event core, modelled in Dafny

This project models two parts of sawmill's event core. The first is the event
model of package `event`: eight severity levels and their names, construction
of an event, and the call stack an event may carry. The stack is trimmed of the
library's own frames, and each frame gets a short function name. The second is
the filter handler of package `handler/filter`: it forwards an event to a sink
only when all registered predicates accept it and its level lies within
optional inclusive bounds. With duplicate suppression on, it holds back repeats
of the last forwarded message. When a different message arrives, it releases
one roll-up event that carries the number of repeats.

Files:

- `wrappers.dfy`: `Option`, standing for Go's nil pointers and unset settings.
- `go_strings.dfy`: what `strings.HasPrefix`, `path.Base` and
  `strings.SplitN(s, ".", 2)[1]` compute, the three library calls the event
  model depends on.
- `event.dfy`: levels, `StackFrame`, `Event`, and stack trimming. It has the
  method `NewEvent` with the scan loop, and `FrameStack` with the loop that fills
  the frame array.
- `filter.dfy`: the specification of the filter as functions. `Accepts` is the
  gate, `Next` handles one event and `Run` a sequence of them. Lemmas about them
  follow. Then come the classes `CaptureHandler` (the test sink) and
  `FilterHandler`. Each `FilterHandler` method is proved to do what `Next`
  specifies. Its invariant `Valid` says the remembered message is that of the
  last event forwarded.
- `filter_test.dfy`: the Go tests as client methods. Each one promises what its
  test asserts.

The filter's implementation file, handler/filter/filter.go, is not part of this
model. `FilterHandler` is built to meet the assertions of
handler/filter/filter_test.go, and it is proved against them.

Runtime services become inputs:

- The captured stack is a sequence of `Caller` records: a program counter and,
  when `runtime.FuncForPC` resolves it, the file, line and function name.
- The clock reading is `now`.
- The library root `RepoPath` is the parameter `repoPath`.
- The field flattener `deStruct` is a function parameter.
- The test's caller name is a parameter.

Notes on what the code does, where it departs from what its comments or its
callers suggest:

- The doc comment on `RepoPath` (event/event.go:23-24) says the first frame not
  in the root is taken as the top of the trace. The model follows the code
  instead. When every captured frame lies under the library root, the trimming scan
  never breaks, so every frame is kept, the library's own included. A frame from
  outside the root is therefore not guaranteed. `KeptCallers` states this case
  and `AllInsideRootKeptWhole` proves it for every such stack.
- The program counters are captured into a buffer of 100 slots before trimming,
  not after. `Captured` keeps the first 100, counted from the innermost frame.
  So a trimmed stack can have fewer than 100 frames even when more user frames
  exist.
- The tests construct events with `event.New`, while event/event.go defines
  `NewEvent`. The model uses `NewEvent`, whose parameters are the same.
- The scan asks `FileLine` of every caller it inspects without checking that
  `FuncForPC` resolved it (event/event.go:133-134), whereas `newStackFrame`
  checks (event/event.go:89-92). An unresolved caller in the scanned part would
  be a nil dereference. `NewEvent` therefore requires that every inspected
  caller resolves (`ScanResolves`).

## Model

| member | source | states |
|---|---|---|
| `Events.LevelString` | event/event.go:54-67 | For ordinals 0..7 the result is an entry of the fixed eight-name table, and each named level constant gets its own name. The precondition excludes every other ordinal, which makes Go panic. |
| `Events.LevelOrder` | event/event.go:41-52 | Debug is 0 and Emergency is 7, and the levels increase from Debug to Emergency. Each alias equals its canonical level: Dbg, Warn, Err, Crit, Alrt, Emerg. |
| `Events.LevelStringInjective` | event/event.go:54-63 | Distinct named levels have distinct names. |
| `Events.Captured` | event/event.go:129-131 | runtime.Callers into a 100-slot buffer gives a prefix of the stack of at most 100 entries. That prefix is the whole stack when the stack fits. |
| `Events.FirstOutside` | event/event.go:132-139 | The scan's stopping index: every earlier caller resolves to a file under the root, and the caller at the index does not. The index is the length when no caller is outside the root. |
| `GoStrings.HasPrefix` | event/event.go:134 | strings.HasPrefix: the string begins with the prefix. |
| `Events.InRepo` | event/event.go:133-134 | The caller resolves and its file begins with the library root. |
| `Events.ScanResolves` | event/event.go:132-134 | Every caller the scan inspects resolves: those up to and including the first one outside the root. This is what the unguarded FileLine call demands. |
| `Events.KeptCallers` | event/event.go:132-139 | The kept callers are a suffix of the captured ones, and every dropped leading caller is under the root. The first kept caller is outside the root whenever any caller is. When none is, nothing is dropped. |
| `Events.ScanStopsAt` | event/event.go:132-139 | A scan that breaks at index i leaves exactly the kept callers. |
| `Events.KeptCallersIdempotent` | event/event.go:132-139 | Trimming an already trimmed stack changes nothing. |
| `Events.AllInsideRootKeptWhole` | event/event.go:132-139 | For every stack whose frames all lie under the root, the stack is kept whole. |
| `GoStrings.TrimTrailingSlashes` | event/event.go:99 | path.Base's first step: the result is a prefix without a trailing '/', and only '/' characters were removed. |
| `GoStrings.AfterLastSlash` | event/event.go:99 | The result is the suffix after the last '/' and contains no '/'. |
| `GoStrings.Base` | event/event.go:99 | path.Base: "." for the empty path, otherwise a non-empty element without '/'. The result is "/" exactly when the path is non-empty and all slashes. For a path without a trailing slash, the element is a suffix that starts the path or follows a '/'. |
| `GoStrings.BaseOfPlainName` | event/event.go:99 | A non-empty name without '/', such as "main.main", is its own base. |
| `GoStrings.BaseIgnoresTrailingSlash` | event/event.go:99 | Appending a '/' to a non-empty path leaves its base unchanged. |
| `GoStrings.AfterFirst` | event/event.go:99 | SplitN(s, sep, 2)[1], defined only when s contains sep: the suffix right after the first sep. |
| `GoStrings.AfterFirstSplits` | event/event.go:99 | The text before the first separator, the separator and the result put back together give the input. |
| `Events.ShortName` | event/event.go:99 | Func is what follows the first '.' of the base name. It requires a '.' in that base name. |
| `Events.AfterLastSlashOfLeaf` | event/event.go:99 | The text after the last '/' of `dir/leaf` is leaf. |
| `Events.BaseOfLeaf` | event/event.go:99 | path.Base of `dir/leaf` is leaf. |
| `Events.AfterFirstOfPrefixed` | event/event.go:99 | Splitting "pkg.rest" at its first '.' gives rest when pkg has no '.'. |
| `Events.ShortNameOfQualified` | event/event.go:93-100 | For a qualified name "dir/pkg.rest", Func is rest. The package is cut and a method receiver stays. |
| `Events.ShortNameOfUnqualified` | event/event.go:93-100 | For a name without a directory, "pkg.rest" such as "main.main", Func is rest. |
| `Events.ShortNameOfDottedElement` | event/event.go:93-100 | The split is at the first '.' of the last element, so "dir/pkg.v2.fn" gives "v2.fn". For example, "gopkg.in/yaml.v2.Unmarshal" gives "v2.Unmarshal". |
| `Events.NewStackFrame` | event/event.go:88-101 | The frame is nil exactly when FuncForPC does not resolve the counter. Otherwise it holds the pc, file, line and full name unchanged, with Func as the short name. |
| `Events.FrameStack` | event/event.go:140-143 | One slot per kept caller, in the same order. Slot i holds caller i's frame, or nil. |
| `Events.NewEvent` | event/event.go:124-159 | Requires, when a stack is asked for, that every scanned caller resolves and that every kept caller has a short name (Go panics otherwise). Id, level and message are stored unchanged, the time is the given clock reading, and Fields and FlatFields are the flattener's results. With no capture requested, the stack is empty. Otherwise it has one frame per kept caller, in order. The stack never has more than 100 entries. |
| `Filter.Accepts` | handler/filter/filter_test.go:49-194 | An event passes when every registered predicate accepts it and its level lies within whichever inclusive bounds are set. |
| `Filter.Rollup` | handler/filter/filter_test.go:211-218 | The roll-up carries the message "duplicates of last log event suppressed", the id of the latest suppressed repeat, and the count under "count" in FlatFields. |
| `Filter.Next` | handler/filter/filter_test.go:37-221 | A rejected event changes nothing. Without dedup, an accepted event is forwarded alone. Under dedup, an accepted event becomes the remembered one, and nothing is forwarded exactly when it repeats the remembered message. A repeat adds one to the held count. A differing message resets the count to 0, and it releases a roll-up exactly when the count was positive. Anything forwarded ends with the event itself. At most two events go out, and when two do, the first is the roll-up of the held repeats. |
| `Filter.Run` | handler/filter/filter_test.go:196-221 | Without dedup the memory is unchanged. At most two events go out per event handled, and each is either one of the handled events or a roll-up. |
| `Filter.RunAppend` | handler/filter/filter_test.go:196-209 | Handling xs then ys in one go is handling xs, then ys from the state xs left. The outputs are concatenated. |
| `Filter.RunOne` | handler/filter/filter_test.go:37-47 | Handling a one-event sequence is one step. |
| `Filter.UnconfiguredForwardsAll` | handler/filter/filter_test.go:37-47 | A filter with no predicates, bounds or dedup forwards every event unchanged and in order, and remembers nothing. |
| `Filter.RejectedIsDropped` | handler/filter/filter_test.go:49-60 | An event that some registered predicate rejects reaches nothing and leaves the dedup memory unchanged. |
| `Filter.AcceptedIsForwarded` | handler/filter/filter_test.go:62-74 | Without dedup, an accepted event is forwarded alone and unchanged. |
| `Filter.AddPredicateIsConjunction` | handler/filter/filter_test.go:76-88 | After one more predicate is registered, an event passes exactly when it passed before and the new predicate accepts it (logical AND). |
| `Filter.BoundsAreInclusive` | handler/filter/filter_test.go:90-194 | With only bounds set, an event passes exactly when min <= level and level <= max, each bound counting only when set. |
| `Filter.RepeatsAreHeld` | handler/filter/filter_test.go:199-205 | Under dedup, repeats of the remembered message forward nothing. Each one adds one to the held count and becomes the remembered event. |
| `Filter.RunThenDifferent` | handler/filter/filter_test.go:196-221 | From an empty memory, a run of one message followed by a different message forwards three things in order. First comes the run's first event. If repeats were held, one roll-up follows, carrying their number and the last one's id. The new event comes last. |
| `Filter.DedupScenario` | handler/filter/filter_test.go:196-221 | A, A, A with Id 123, then B forwards exactly A, then the roll-up with message "duplicates of last log event suppressed", count 2 and Id 123, then B. |
| `Filter.CaptureHandler.constructor` | handler/filter/filter_test.go:13-15 | A new capture sink holds no events. |
| `Filter.CaptureHandler.Event` | handler/filter/filter_test.go:17-20 | The event is appended at the end of the list, and no error is returned. |
| `Filter.FilterHandler.constructor` | handler/filter/filter_test.go:38-39 | New wraps the given sink with no predicates, no bounds, no dedup and an empty memory. |
| `Filter.FilterHandler.Filter` | handler/filter/filter_test.go:53 | The predicate is appended after those already registered. |
| `Filter.FilterHandler.LevelMin` | handler/filter/filter_test.go:94 | The lower bound is set to the level. |
| `Filter.FilterHandler.LevelMax` | handler/filter/filter_test.go:129 | The upper bound is set to the level. |
| `Filter.FilterHandler.Dedup` | handler/filter/filter_test.go:199 | Duplicate suppression is on. |
| `Filter.FilterHandler.Event` | handler/filter/filter_test.go:37-221 | The sink receives exactly what `Next` forwards, and the memory becomes Next's. The invariant holds afterwards: the remembered message is that of the last forwarded event. The result is nil. |
| `FilterTest.MakeEvent` | handler/filter/filter_test.go:22-35 | The counter advances by one with uint64 wrap-around, and the event takes the new count as its Id. The message is "testing <caller>()", the level is the given one, the time is the clock reading, Fields and FlatFields are the flattener's results for {"test": caller}, and there is no stack. |
| `FilterTest.TestEvent` | handler/filter/filter_test.go:37-47 | The sink receives exactly the event itself. |
| `FilterTest.TestFilterReject` | handler/filter/filter_test.go:49-60 | The sink receives nothing. |
| `FilterTest.TestFilterAllow` | handler/filter/filter_test.go:62-74 | The sink receives exactly the event itself. |
| `FilterTest.TestFilterAllowReject` | handler/filter/filter_test.go:76-88 | The sink receives nothing. |
| `FilterTest.LevelTable` | handler/filter/filter_test.go:109-122 | The sink is emptied before each of the eight levels. Afterwards it holds exactly that level's event when the level is within the bounds, and nothing otherwise. |
| `FilterTest.TestLevelMin` | handler/filter/filter_test.go:90-123 | With LevelMin(Notice), exactly Notice through Emergency get through, unchanged. |
| `FilterTest.TestLevelMax` | handler/filter/filter_test.go:125-158 | With LevelMax(Notice), exactly Debug through Notice get through, unchanged. |
| `FilterTest.TestLevelMinMax` | handler/filter/filter_test.go:160-194 | With Notice..Critical, Notice, Warning, Error and Critical each deliver the test event itself, unchanged, and the other levels deliver nothing. |
| `FilterTest.DedupSequence` | handler/filter/filter_test.go:199-209 | On a filter with dedup on, the test's call sequence leaves the sink holding A, the roll-up for two repeats with Id 123, and B. |
| `FilterTest.TestDedup` | handler/filter/filter_test.go:196-221 | Exactly three events arrive. The first has the first message. The second has message "duplicates of last log event suppressed", FlatFields["count"] = 2 and Id 123. The third has the first message plus " 2". |

## Left out

- The `Hook` interface and `HookIOWriter` in hook/hook.go are left out. The
  writer formats events into an output stream, which is I/O. A filter's sink is
  always the capture sink, so a filter nested as another filter's sink is not
  modelled.
- `StackFrame.Source` is left out because it reads source files.
- `time.Now` is left out: the time is a given opaque value.
- `runtime.Callers`, `runtime.FuncForPC`, `FileLine` and `runtime.Caller` are
  replaced by the `Caller` records and the caller-name parameter. The nil
  dereference of an unresolved caller in the scan is not modelled as a failure.
  `NewEvent` excludes it by precondition.
- `deStruct` (the field flattener) is not part of this model. It is a function
  parameter, and `Fields` and `FlatFields` are whatever it returns.
- `init`'s derivation of `RepoPath` from the source file's own path is left
  out. The root is a parameter.
- The program counter is an unbounded natural number, not a `uintptr`, and
  line numbers are unbounded integers. Neither is computed on.
- Pointer aliasing is not modelled. Go hands `*Event` pointers around, so the
  dedup test's `testEvent1.Id = 123` also changes the event the sink already
  holds. Events here are values, so the first received event keeps its original
  id. This is why the test compares only messages there.
- The roll-up's level, time and `Fields` are not pinned by the tests. The model
  takes the level and time from the latest suppressed event, sets `Fields` to a
  record holding only the count, and gives the roll-up no stack.
- Sink errors are not modelled, because the capture sink never fails. Which
  error a filter returns when the sink fails on a roll-up is therefore not
  stated.
- Locking and concurrent use of one filter are left out. The tests are
  single-threaded.
