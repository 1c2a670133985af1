/**
 * The filter handler and the capture sink its tests use.
 *
 * A filter wraps one sink. It forwards an event only when every registered
 * predicate accepts it and its level lies within the optional inclusive bounds.
 * With duplicate suppression on, repeats of the last forwarded message are held
 * back and counted; the next differing message first releases one roll-up event
 * carrying the count and the id of the latest suppressed event.
 *
 * The pure part (Config, DedupState, Next, Run) is the specification; the
 * classes below are proved to follow it call by call.
 */
module Filter {
  import opened Wrappers
  import opened Events

  const DupMessage: string := "duplicates of last log event suppressed"

  /** The filter's settings: predicates in registration order, the bounds, and dedup. */
  datatype Config = Config(
    predicates: seq<Event -> bool>,
    levelMin: Option<Level>,
    levelMax: Option<Level>,
    dedup: bool)

  /** A filter as New leaves it: nothing registered, no bounds, no dedup. */
  const Unconfigured: Config := Config([], None, None, false)

  /**
   * Duplicate-suppression memory: the last event seen with the current message
   * (the last forwarded one, or the latest suppressed repeat of it) and how
   * many repeats are being held back.
   */
  datatype DedupState = DedupState(last: Option<Event>, count: nat)

  const NoHistory: DedupState := DedupState(None, 0)

  /** The outcome of handling events: the new memory and what reached the sink, in order. */
  datatype Outcome = Outcome(state: DedupState, out: seq<Event>)

  /** Every predicate accepts, and the level lies within the set bounds. */
  predicate Accepts(c: Config, e: Event)
  {
    && (forall i :: 0 <= i < |c.predicates| ==> c.predicates[i](e))
    && (c.levelMin.Some? ==> c.levelMin.value <= e.Level)
    && (c.levelMax.Some? ==> e.Level <= c.levelMax.value)
  }

  /** The roll-up notice for `count` suppressed repeats whose latest was `last`. */
  function Rollup(last: Event, count: nat): (r: Event)
    ensures r.Message == DupMessage && r.Id == last.Id
    ensures "count" in r.FlatFields && r.FlatFields["count"] == Int(count)
  {
    Event(last.Id, last.Level, last.Time, DupMessage,
          Record(map["count" := Int(count)]), map["count" := Int(count)], [])
  }

  /**
   * Handling one event. A rejected event changes nothing; an accepted one is
   * always the last thing forwarded unless it repeats the remembered message
   * under dedup, and at most one roll-up goes before it.
   */
  function Next(c: Config, s: DedupState, e: Event): (o: Outcome)
    ensures !Accepts(c, e) ==> o == Outcome(s, [])
    ensures Accepts(c, e) && !c.dedup ==> o == Outcome(s, [e])
    ensures Accepts(c, e) && c.dedup ==> o.state.last == Some(e)
    ensures Accepts(c, e) ==>
              (o.out == [] <==> c.dedup && s.last.Some? && s.last.value.Message == e.Message)
    ensures o.out != [] ==> o.out[|o.out| - 1] == e
    ensures |o.out| <= 2
    ensures |o.out| == 2 ==> s.last.Some? && s.count > 0 && o.out[0] == Rollup(s.last.value, s.count)
    ensures Accepts(c, e) && c.dedup && s.last.Some? && s.last.value.Message == e.Message ==>
              o.state.count == s.count + 1
    ensures Accepts(c, e) && c.dedup && s.last.Some? && s.last.value.Message != e.Message ==>
              o.state.count == 0 && (|o.out| == 2 <==> s.count > 0)
  {
    if !Accepts(c, e) then Outcome(s, [])
    else if !c.dedup then Outcome(s, [e])
    else match s.last
      case None => Outcome(DedupState(Some(e), 0), [e])
      case Some(prev) =>
        if prev.Message == e.Message then Outcome(DedupState(Some(e), s.count + 1), [])
        else Outcome(DedupState(Some(e), 0),
                     (if s.count > 0 then [Rollup(prev, s.count)] else []) + [e])
  }

  /**
   * Handling a sequence of events one after the other. Without dedup the memory
   * is untouched; everything forwarded is one of the events handled or a roll-up.
   */
  function Run(c: Config, s: DedupState, es: seq<Event>): (o: Outcome)
    ensures !c.dedup ==> o.state == s
    ensures |o.out| <= 2 * |es|
    ensures forall i :: 0 <= i < |o.out| ==> o.out[i] in es || o.out[i].Message == DupMessage
    decreases es
  {
    if es == [] then Outcome(s, [])
    else
      var first := Next(c, s, es[0]);
      var rest := Run(c, first.state, es[1..]);
      Outcome(rest.state, first.out + rest.out)
  }

  /** Handling `xs + ys` is handling `xs`, then `ys` from where `xs` left off. */
  lemma {:induction false} RunAppend(c: Config, s: DedupState, xs: seq<Event>, ys: seq<Event>)
    ensures var a := Run(c, s, xs); var b := Run(c, a.state, ys);
            Run(c, s, xs + ys) == Outcome(b.state, a.out + b.out)
    decreases xs
  {
    if xs == [] {
      assert xs + ys == ys;
    } else {
      assert (xs + ys)[0] == xs[0];
      assert (xs + ys)[1..] == xs[1..] + ys;
      RunAppend(c, Next(c, s, xs[0]).state, xs[1..], ys);
    }
  }

  /** Handling a single event is one step of `Next`. */
  lemma RunOne(c: Config, s: DedupState, e: Event)
    ensures Run(c, s, [e]) == Next(c, s, e)
  {
    assert [e][1..] == [];
    assert Run(c, Next(c, s, e).state, []) == Outcome(Next(c, s, e).state, []);
    assert Next(c, s, e).out + [] == Next(c, s, e).out;
  }

  /** The unconfigured filter forwards every event unchanged, in order, and remembers nothing. */
  lemma {:induction false} UnconfiguredForwardsAll(s: DedupState, es: seq<Event>)
    ensures Run(Unconfigured, s, es) == Outcome(s, es)
    decreases es
  {
    if es != [] {
      UnconfiguredForwardsAll(s, es[1..]);
      assert [es[0]] + es[1..] == es;
    }
  }

  /** A rejected event reaches nothing and leaves the memory as it was. */
  lemma RejectedIsDropped(c: Config, s: DedupState, e: Event)
    requires exists i :: 0 <= i < |c.predicates| && !c.predicates[i](e)
    ensures Next(c, s, e) == Outcome(s, [])
  {
  }

  /** Without dedup, an accepted event is forwarded unchanged, alone. */
  lemma AcceptedIsForwarded(c: Config, s: DedupState, e: Event)
    requires Accepts(c, e) && !c.dedup
    ensures Next(c, s, e) == Outcome(s, [e])
  {
  }

  /** Registering one more predicate narrows acceptance to those it also accepts. */
  lemma AddPredicateIsConjunction(c: Config, p: Event -> bool, e: Event)
    ensures Accepts(c.(predicates := c.predicates + [p]), e) <==> Accepts(c, e) && p(e)
  {
    var c' := c.(predicates := c.predicates + [p]);
    if Accepts(c, e) && p(e) {
      forall i | 0 <= i < |c'.predicates| ensures c'.predicates[i](e) {
        if i < |c.predicates| { assert c'.predicates[i] == c.predicates[i]; }
      }
    }
    if Accepts(c', e) {
      assert c'.predicates[|c.predicates|] == p;
      forall i | 0 <= i < |c.predicates| ensures c.predicates[i](e) {
        assert c'.predicates[i] == c.predicates[i];
      }
    }
  }

  /** With only bounds set, an event passes exactly when min <= level <= max (each bound if set). */
  lemma BoundsAreInclusive(min: Option<Level>, max: Option<Level>, e: Event)
    ensures Accepts(Config([], min, max, false), e) <==>
              (min.None? || min.value <= e.Level) && (max.None? || e.Level <= max.value)
  {
  }

  /** While the same message keeps arriving, nothing is forwarded and the count grows. */
  lemma {:induction false} RepeatsAreHeld(c: Config, prev: Event, count: nat, run: seq<Event>)
    requires c.dedup
    requires forall i :: 0 <= i < |run| ==> Accepts(c, run[i]) && run[i].Message == prev.Message
    ensures Run(c, DedupState(Some(prev), count), run)
            == Outcome(DedupState(Some(if run == [] then prev else run[|run| - 1]), count + |run|), [])
    decreases run
  {
    if run != [] {
      var rest := run[1..];
      assert forall i :: 0 <= i < |rest| ==> rest[i] == run[i + 1];
      RepeatsAreHeld(c, run[0], count + 1, rest);
    }
  }

  /**
   * A run of events with one message followed by a differing event, from an
   * empty memory: the first of the run is forwarded, then (if repeats were held)
   * one roll-up with their number and the id of the last of them, then the new event.
   */
  lemma RunThenDifferent(c: Config, run: seq<Event>, d: Event)
    requires c.dedup && run != []
    requires forall i :: 0 <= i < |run| ==> Accepts(c, run[i]) && run[i].Message == run[0].Message
    requires Accepts(c, d) && d.Message != run[0].Message
    ensures Run(c, NoHistory, run + [d]).out
            == [run[0]] + (if |run| > 1 then [Rollup(run[|run| - 1], |run| - 1)] else []) + [d]
  {
    var rest := run[1..];
    var last := run[|run| - 1];
    assert forall i :: 0 <= i < |rest| ==> rest[i] == run[i + 1];
    RepeatsAreHeld(c, run[0], 0, rest);
    assert Run(c, DedupState(Some(run[0]), 0), rest)
           == Outcome(DedupState(Some(last), |run| - 1), []);
    RunOne(c, NoHistory, run[0]);
    assert run == [run[0]] + rest;
    RunAppend(c, NoHistory, [run[0]], rest);
    var held := Run(c, NoHistory, run);
    assert held == Outcome(DedupState(Some(last), |run| - 1), [run[0]]);
    RunOne(c, held.state, d);
    assert Run(c, held.state, [d]).out == (if |run| > 1 then [Rollup(last, |run| - 1)] else []) + [d];
    RunAppend(c, NoHistory, run, [d]);
  }

  /**
   * The dedup test's sequence: A, A, A with Id 123, then B with message A's + " 2"
   * yields exactly A, the roll-up with count 2 and Id 123, and B.
   */
  lemma DedupScenario(a: Event, b: Event)
    requires b.Message == a.Message + " 2"
    ensures var a123 := a.(Id := 123);
            var out := Run(Config([], None, None, true), NoHistory, [a, a, a123, b]).out;
            && out == [a, Rollup(a123, 2), b]
            && out[1].Message == DupMessage && out[1].FlatFields["count"] == Int(2) && out[1].Id == 123
  {
    var c := Config([], None, None, true);
    var a123 := a.(Id := 123);
    assert |b.Message| != |a.Message|;
    assert [a, a, a123, b] == [a, a, a123] + [b];
    RunThenDifferent(c, [a, a, a123], b);
  }

  /** The test sink: it appends each event it receives to `events`. */
  class CaptureHandler {
    var events: seq<Event>

    constructor ()
      ensures events == []
    {
      events := [];
    }

    /** Receives one event; it never fails (None is Go's nil error). */
    method Event(e: Event) returns (err: Option<string>)
      modifies this
      ensures events == old(events) + [e]
      ensures err == None
    {
      events := events + [e];
      err := None;
    }
  }

  /** A filter wrapping a capture sink; configured in place, stateful under dedup. */
  class FilterHandler {
    const sink: CaptureHandler
    var predicates: seq<Event -> bool>
    var levelMin: Option<Level>
    var levelMax: Option<Level>
    var dedup: bool
    var lastEvent: Option<Event>
    var dupCount: nat
    /** Everything this filter has handed to its sink, in order. */
    ghost var forwarded: seq<Event>

    /** The settings, as the specification sees them. */
    function Settings(): Config
      reads this
    {
      Config(predicates, levelMin, levelMax, dedup)
    }

    /** The dedup memory, as the specification sees it. */
    function Memory(): DedupState
      reads this
    {
      DedupState(lastEvent, dupCount)
    }

    /**
     * The memory is empty until dedup is on, a held count implies a remembered
     * event, and the remembered message is that of the last event forwarded.
     */
    ghost predicate Valid()
      reads this
    {
      && (!dedup ==> lastEvent.None? && dupCount == 0)
      && (dupCount > 0 ==> lastEvent.Some?)
      && (lastEvent.Some? ==>
            forwarded != [] && forwarded[|forwarded| - 1].Message == lastEvent.value.Message)
    }

    /** filter.New: a filter forwarding to `sink`, nothing configured. */
    constructor (sink: CaptureHandler)
      ensures this.sink == sink && Valid()
      ensures predicates == [] && levelMin == None && levelMax == None && !dedup
      ensures Memory() == NoHistory && forwarded == []
    {
      this.sink := sink;
      predicates := [];
      levelMin := None;
      levelMax := None;
      dedup := false;
      lastEvent := None;
      dupCount := 0;
      forwarded := [];
    }

    /** Registers one more predicate, evaluated after those already registered. */
    method Filter(p: Event -> bool)
      requires Valid()
      modifies this`predicates
      ensures Valid()
      ensures predicates == old(predicates) + [p]
    {
      predicates := predicates + [p];
    }

    /** Sets (or replaces) the inclusive lower level bound. */
    method LevelMin(l: Level)
      requires Valid()
      modifies this`levelMin
      ensures Valid() && levelMin == Some(l)
    {
      levelMin := Some(l);
    }

    /** Sets (or replaces) the inclusive upper level bound. */
    method LevelMax(l: Level)
      requires Valid()
      modifies this`levelMax
      ensures Valid() && levelMax == Some(l)
    {
      levelMax := Some(l);
    }

    /** Turns duplicate suppression on. */
    method Dedup()
      requires Valid()
      modifies this`dedup
      ensures Valid() && dedup
    {
      dedup := true;
    }

    /**
     * Handles one event: predicates in order, then the bounds, then dedup, then
     * the sink. What reaches the sink and the new memory are those of `Next`.
     */
    method Event(e: Event) returns (err: Option<string>)
      requires Valid()
      modifies this`lastEvent, this`dupCount, this`forwarded, sink
      ensures Valid()
      ensures Memory() == Next(Settings(), old(Memory()), e).state
      ensures sink.events == old(sink.events) + Next(Settings(), old(Memory()), e).out
      ensures forwarded == old(forwarded) + Next(Settings(), old(Memory()), e).out
      ensures err == None
    {
      err := None;
      for i := 0 to |predicates|
        invariant forall j :: 0 <= j < i ==> predicates[j](e)
      {
        if !predicates[i](e) {
          return;
        }
      }
      if levelMin.Some? && e.Level < levelMin.value {
        return;
      }
      if levelMax.Some? && e.Level > levelMax.value {
        return;
      }
      if dedup {
        if lastEvent.Some? && lastEvent.value.Message == e.Message {
          lastEvent := Some(e);
          dupCount := dupCount + 1;
          return;
        }
        if dupCount > 0 {
          var rollup := Rollup(lastEvent.value, dupCount);
          var _ := sink.Event(rollup);
          forwarded := forwarded + [rollup];
        }
        lastEvent := Some(e);
        dupCount := 0;
      }
      err := sink.Event(e);
      forwarded := forwarded + [e];
    }
  }
}
