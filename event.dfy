/**
 * The event model of package `event`: severity levels and their names, stack
 * frames, and the construction of an event with an optional trimmed call stack.
 *
 * Runtime services are inputs here: the program counters that runtime.Callers
 * reports, together with what runtime.FuncForPC resolves for each, are a
 * sequence of `Caller` records; the clock reading is `now`; the library root
 * `RepoPath` is the parameter `repoPath`; and the field flattener `deStruct`
 * is the function parameter of the same name.
 */
module Events {
  import opened Wrappers
  import opened GoStrings

  /** The capacity of the program-counter buffer handed to runtime.Callers. */
  const StackMaxDepth: nat := 100

  newtype Uint64 = x: int | 0 <= x < 0x1_0000_0000_0000_0000

  /** `type Level int32`: any 32-bit value is a Level; eight of them are named. */
  newtype Level = x: int | -0x8000_0000 <= x < 0x8000_0000

  const Debug: Level := 0
  const Info: Level := 1
  const Notice: Level := 2
  const Warning: Level := 3
  const Error: Level := 4
  const Critical: Level := 5
  const Alert: Level := 6
  const Emergency: Level := 7

  const Dbg: Level := Debug
  const Warn: Level := Warning
  const Err: Level := Error
  const Crit: Level := Critical
  const Alrt: Level := Alert
  const Emerg: Level := Emergency

  /** `levelNames`: a fixed table of exactly eight names, indexed by ordinal. */
  const LevelNames: seq<string> :=
    ["Debug", "Info", "Notice", "Warning", "Error", "Critical", "Alert", "Emergency"]

  /** A level the name table covers; indexing outside it is a Go panic. */
  predicate Named(l: Level)
  {
    0 <= l < 8
  }

  /** `Level.String`: the table entry of the level's ordinal. */
  function LevelString(l: Level): (name: string)
    requires Named(l)
    ensures name in LevelNames
    ensures l == Debug ==> name == "Debug"
    ensures l == Info ==> name == "Info"
    ensures l == Notice ==> name == "Notice"
    ensures l == Warning ==> name == "Warning"
    ensures l == Error ==> name == "Error"
    ensures l == Critical ==> name == "Critical"
    ensures l == Alert ==> name == "Alert"
    ensures l == Emergency ==> name == "Emergency"
  {
    LevelNames[l as int]
  }

  /** The severity order of the named levels, and each alias is its canonical level. */
  lemma LevelOrder()
    ensures Debug == 0 && Emergency == 7
    ensures Debug < Info < Notice < Warning < Error < Critical < Alert < Emergency
    ensures Dbg == Debug && Warn == Warning && Err == Error
    ensures Crit == Critical && Alrt == Alert && Emerg == Emergency
  {
  }

  /** Distinct named levels have distinct names, so a name identifies its level. */
  lemma LevelStringInjective(a: Level, b: Level)
    requires Named(a) && Named(b) && a != b
    ensures LevelString(a) != LevelString(b)
  {
  }

  /** Field payloads as the flattener sees them: scalars and keyed records. */
  datatype Value = Nil | Int(i: int) | Str(s: string) | Record(entries: map<string, Value>)

  /** What the flattener returns: a deep copy and the flat path-to-value map. */
  datatype Flattened = Flattened(copy: Value, flat: map<string, Value>)

  /** Opaque capture timestamp. */
  type Time = int

  datatype StackFrame = StackFrame(PC: nat, File: string, Line: int, Function: string, Func: string)

  datatype Event = Event(
    Id: Uint64,
    Level: Level,
    Time: Time,
    Message: string,
    Fields: Value,
    FlatFields: map<string, Value>,
    Stack: seq<Option<StackFrame>>)

  /** What runtime.FuncForPC and FileLine report for a resolvable program counter. */
  datatype FuncInfo = FuncInfo(file: string, line: int, name: string)

  /** One program counter of the captured stack; `fn` is None where FuncForPC gives nil. */
  datatype Caller = Caller(pc: nat, fn: Option<FuncInfo>)

  /**
   * The caller resolves and its source file lies under the library root. The
   * scan asks FileLine of the FuncForPC result without a nil check, so NewEvent
   * requires every caller it inspects to resolve (ScanResolves); an unresolved
   * caller is never asked about there.
   */
  predicate InRepo(c: Caller, repoPath: string)
  {
    c.fn.Some? && HasPrefix(c.fn.value.file, repoPath)
  }

  /** runtime.Callers into a buffer of StackMaxDepth slots keeps the innermost frames only. */
  function Captured(raw: seq<Caller>): (callers: seq<Caller>)
    ensures |callers| <= StackMaxDepth && |callers| <= |raw|
    ensures callers == raw[..|callers|]
    ensures |raw| <= StackMaxDepth ==> callers == raw
    ensures |raw| > StackMaxDepth ==> |callers| == StackMaxDepth
  {
    if |raw| <= StackMaxDepth then raw else raw[..StackMaxDepth]
  }

  /** The index of the first caller outside the library root, or |callers| if none is. */
  function FirstOutside(callers: seq<Caller>, repoPath: string): (k: nat)
    ensures k <= |callers|
    ensures forall j :: 0 <= j < k ==> InRepo(callers[j], repoPath)
    ensures k < |callers| ==> !InRepo(callers[k], repoPath)
  {
    if callers == [] || !InRepo(callers[0], repoPath) then 0
    else 1 + FirstOutside(callers[1..], repoPath)
  }

  /**
   * Every caller the trimming scan inspects resolves: those up to and including
   * the first one outside the library root (all of them when none is outside).
   */
  predicate ScanResolves(callers: seq<Caller>, repoPath: string)
  {
    forall j :: 0 <= j < |callers| && j <= FirstOutside(callers, repoPath) ==> callers[j].fn.Some?
  }

  /**
   * The callers NewEvent keeps: everything from the first caller outside the
   * library root on. When every caller is inside the root the scan never
   * breaks, and all of them are kept.
   */
  function KeptCallers(callers: seq<Caller>, repoPath: string): (kept: seq<Caller>)
    ensures |kept| <= |callers| && kept == callers[|callers| - |kept|..]
    ensures forall j :: 0 <= j < |callers| - |kept| ==> InRepo(callers[j], repoPath)
    ensures (forall j :: 0 <= j < |callers| ==> InRepo(callers[j], repoPath)) ==> kept == callers
    ensures (exists j :: 0 <= j < |callers| && !InRepo(callers[j], repoPath)) ==>
              kept != [] && !InRepo(kept[0], repoPath)
  {
    var k := FirstOutside(callers, repoPath);
    if k == |callers| then callers else callers[k..]
  }

  /** Trimming an already trimmed stack changes nothing. */
  lemma KeptCallersIdempotent(callers: seq<Caller>, repoPath: string)
    ensures KeptCallers(KeptCallers(callers, repoPath), repoPath) == KeptCallers(callers, repoPath)
  {
    var kept := KeptCallers(callers, repoPath);
    if kept != [] && !InRepo(kept[0], repoPath) {
      assert FirstOutside(kept, repoPath) == 0;
    }
  }

  /** A frame can be built for the caller: its short name exists. */
  predicate HasShortName(c: Caller)
  {
    c.fn.Some? ==> '.' in Base(c.fn.value.name)
  }

  /** A frame can be built for every caller of the sequence. */
  predicate AllHaveShortNames(callers: seq<Caller>)
  {
    forall i :: 0 <= i < |callers| ==> HasShortName(callers[i])
  }

  /**
   * The short function name: what follows the first '.' of the base name (the
   * text after the last '/'), so the package is cut and a receiver stays.
   */
  function ShortName(name: string): (short: string)
    requires '.' in Base(name)
    ensures FollowsFirst(Base(name), '.', short)
  {
    AfterFirst(Base(name), '.')
  }

  /**
   * newStackFrame: nil when the program counter does not resolve; otherwise a
   * frame with the resolved file, line and full name, and the short name.
   */
  function NewStackFrame(c: Caller): (frame: Option<StackFrame>)
    requires HasShortName(c)
    ensures frame.None? <==> c.fn.None?
    ensures frame.Some? ==>
              && frame.value.PC == c.pc && frame.value.File == c.fn.value.file
              && frame.value.Line == c.fn.value.line && frame.value.Function == c.fn.value.name
              && frame.value.Func == ShortName(c.fn.value.name)
  {
    match c.fn
    case None => None
    case Some(info) => Some(StackFrame(c.pc, info.file, info.line, info.name, ShortName(info.name)))
  }

  /** The scan that stops at index `i` leaves exactly the kept callers. */
  lemma ScanStopsAt(scanned: seq<Caller>, repoPath: string, i: nat)
    requires i < |scanned| && !InRepo(scanned[i], repoPath)
    requires forall j :: 0 <= j < i ==> InRepo(scanned[j], repoPath)
    ensures KeptCallers(scanned, repoPath) == scanned[i..]
  {
    assert FirstOutside(scanned, repoPath) == i;
  }

  /** The frame array of NewEvent: one slot per kept caller, filled in order. */
  method FrameStack(callers: seq<Caller>) returns (stack: seq<Option<StackFrame>>)
    requires AllHaveShortNames(callers)
    ensures |stack| == |callers|
    ensures forall i :: 0 <= i < |callers| ==> stack[i] == NewStackFrame(callers[i])
  {
    var frames := new Option<StackFrame>[|callers|];
    for i := 0 to |callers|
      invariant forall j :: 0 <= j < i ==> frames[j] == NewStackFrame(callers[j])
    {
      frames[i] := NewStackFrame(callers[i]);
    }
    stack := frames[..];
  }

  /**
   * NewEvent: copies id, level and message, stamps the time, stores the
   * flattener's copy and flat map, and, when asked, records one frame per kept
   * caller, in order.
   */
  method NewEvent(id: Uint64, level: Level, message: string, fields: Value, getStack: bool,
                  now: Time, repoPath: string, raw: seq<Caller>, deStruct: Value -> Flattened)
    returns (e: Event)
    requires getStack ==> ScanResolves(Captured(raw), repoPath)
    requires getStack ==> AllHaveShortNames(KeptCallers(Captured(raw), repoPath))
    ensures e.Id == id && e.Level == level && e.Message == message && e.Time == now
    ensures e.Fields == deStruct(fields).copy && e.FlatFields == deStruct(fields).flat
    ensures !getStack ==> e.Stack == []
    ensures getStack ==>
              var kept := KeptCallers(Captured(raw), repoPath);
              |e.Stack| == |kept| && forall i :: 0 <= i < |kept| ==> e.Stack[i] == NewStackFrame(kept[i])
    ensures |e.Stack| <= StackMaxDepth
  {
    var stack: seq<Option<StackFrame>> := [];
    if getStack {
      var callers := Captured(raw);
      var scanned := callers;
      for i := 0 to |scanned|
        invariant callers == scanned
        invariant forall j :: 0 <= j < i ==> InRepo(scanned[j], repoPath)
      {
        assert i <= FirstOutside(scanned, repoPath);
        var file := scanned[i].fn.value.file;
        if HasPrefix(file, repoPath) {
          continue;
        }
        callers := scanned[i..];
        ScanStopsAt(scanned, repoPath, i);
        break;
      }
      assert callers == KeptCallers(scanned, repoPath);
      stack := FrameStack(callers);
    }
    var flattened := deStruct(fields);
    e := Event(id, level, now, message, flattened.copy, flattened.flat, stack);
  }

  /**
   * A stack whose every frame lies inside the library root is kept whole: the
   * scan never breaks, so the library's own frames stay on the event.
   */
  lemma AllInsideRootKeptWhole(callers: seq<Caller>, repoPath: string)
    requires forall j :: 0 <= j < |callers| ==> InRepo(callers[j], repoPath)
    ensures KeptCallers(callers, repoPath) == callers
  {
  }

  /** The text after the last '/' of `dir + "/" + leaf` is `leaf` when `leaf` has no '/'. */
  lemma {:induction false} AfterLastSlashOfLeaf(dir: string, leaf: string)
    requires '/' !in leaf
    ensures AfterLastSlash(dir + "/" + leaf) == leaf
  {
    if leaf != [] {
      var init := leaf[..|leaf| - 1];
      assert (dir + "/" + leaf)[..|dir + "/" + leaf| - 1] == dir + "/" + init;
      AfterLastSlashOfLeaf(dir, init);
      assert init + [leaf[|leaf| - 1]] == leaf;
    } else {
      assert (dir + "/" + leaf)[|dir + "/" + leaf| - 1] == '/';
    }
  }

  /** path.Base of `dir + "/" + leaf` is `leaf` when `leaf` is a non-empty name without '/'. */
  lemma BaseOfLeaf(dir: string, leaf: string)
    requires '/' !in leaf && leaf != []
    ensures Base(dir + "/" + leaf) == leaf
  {
    var name := dir + "/" + leaf;
    assert name[|name| - 1] == leaf[|leaf| - 1];
    assert TrimTrailingSlashes(name) == name;
    AfterLastSlashOfLeaf(dir, leaf);
  }

  /** Splitting "pkg.rest" at its first '.' gives `rest` when `pkg` has no '.'. */
  lemma {:induction false} AfterFirstOfPrefixed(pkg: string, rest: string)
    requires '.' !in pkg
    ensures '.' in pkg + "." + rest && AfterFirst(pkg + "." + rest, '.') == rest
  {
    var s := pkg + "." + rest;
    assert s[|pkg|] == '.';
    if pkg != [] {
      assert s[1..] == pkg[1..] + "." + rest;
      AfterFirstOfPrefixed(pkg[1..], rest);
    } else {
      assert s[1..] == rest;
    }
  }

  /**
   * A qualified Go function name "dir/pkg.rest" has short name `rest`: only the
   * package is cut, a method receiver such as "(*StackFrame)." stays.
   */
  lemma ShortNameOfQualified(dir: string, pkg: string, rest: string)
    requires '/' !in pkg && '/' !in rest && '.' !in pkg
    ensures var name := dir + "/" + pkg + "." + rest;
            '.' in Base(name) && ShortName(name) == rest
  {
    var leaf := pkg + "." + rest;
    assert dir + "/" + pkg + "." + rest == dir + "/" + leaf;
    assert '/' !in leaf by {
      assert forall i :: 0 <= i < |leaf| ==> leaf[i] == (if i < |pkg| then pkg[i] else if i == |pkg| then '.' else rest[i - |pkg| - 1]);
    }
    BaseOfLeaf(dir, leaf);
    AfterFirstOfPrefixed(pkg, rest);
  }

  /** A name without a directory, such as "main.main" or "runtime.goexit", has short name `rest`. */
  lemma ShortNameOfUnqualified(pkg: string, rest: string)
    requires '/' !in pkg && '/' !in rest && '.' !in pkg
    ensures '.' in Base(pkg + "." + rest) && ShortName(pkg + "." + rest) == rest
  {
    var leaf := pkg + "." + rest;
    assert '/' !in leaf by {
      assert forall i :: 0 <= i < |leaf| ==> leaf[i] == (if i < |pkg| then pkg[i] else if i == |pkg| then '.' else rest[i - |pkg| - 1]);
    }
    BaseOfPlainName(leaf);
    AfterFirstOfPrefixed(pkg, rest);
  }

  /**
   * The split is at the first '.' of the last path element, so a dotted package
   * element such as "yaml.v2" in "gopkg.in/yaml.v2.Unmarshal" loses only "yaml":
   * the short name is "v2.Unmarshal".
   */
  lemma ShortNameOfDottedElement(dir: string, pkg: string, version: string, fn: string)
    requires '/' !in pkg && '/' !in version && '/' !in fn && '.' !in pkg
    ensures var name := dir + "/" + pkg + "." + version + "." + fn;
            '.' in Base(name) && ShortName(name) == version + "." + fn
  {
    var rest := version + "." + fn;
    assert '/' !in rest by {
      assert forall i :: 0 <= i < |rest| ==> rest[i] == (if i < |version| then version[i] else if i == |version| then '.' else fn[i - |version| - 1]);
    }
    assert dir + "/" + pkg + "." + version + "." + fn == dir + "/" + pkg + "." + rest;
    ShortNameOfQualified(dir, pkg, rest);
  }
}
