/**
 * The filter tests as client programs: each method builds a capture sink and a
 * filter, drives them the way the Go test does, and promises what the test
 * asserts about the events the sink received.
 */
module FilterTest {
  import opened Wrappers
  import opened Events
  import opened Filter

  const MaxUint64: Uint64 := 0xFFFF_FFFF_FFFF_FFFF

  /**
   * makeEvent: bumps the event counter (a Go uint64, so it wraps to 0) and builds
   * an event without a stack whose message names the calling test function.
   * The caller's name, which the test gets from the runtime, is a parameter.
   */
  method MakeEvent(counter: Uint64, level: Level, callerName: string, now: Time,
                   deStruct: Value -> Flattened)
    returns (e: Event, next: Uint64)
    ensures next as int == (counter as int + 1) % 0x1_0000_0000_0000_0000
    ensures e.Id == next && e.Level == level && e.Stack == []
    ensures e.Message == "testing " + callerName + "()"
    ensures e.Time == now
    ensures e.Fields == deStruct(Record(map["test" := Str(callerName)])).copy
    ensures e.FlatFields == deStruct(Record(map["test" := Str(callerName)])).flat
  {
    next := if counter == MaxUint64 then 0 else counter + 1;
    var message := "testing " + callerName + "()";
    var data := Record(map["test" := Str(callerName)]);
    e := NewEvent(next, level, message, data, false, now, "", [], deStruct);
  }

  /** TestEvent: an unconfigured filter hands the event itself to the sink. */
  method TestEvent(logEvent: Event) returns (events: seq<Event>)
    ensures events == [logEvent]
  {
    var ch := new CaptureHandler();
    var filter := new FilterHandler(ch);
    var _ := filter.Event(logEvent);
    events := ch.events;
  }

  /** TestFilter_reject: one rejecting predicate, nothing reaches the sink. */
  method TestFilterReject(logEvent: Event) returns (events: seq<Event>)
    ensures events == []
  {
    var ch := new CaptureHandler();
    var filter := new FilterHandler(ch);
    filter.Filter(e => false);
    assert !filter.predicates[|filter.predicates| - 1](logEvent);
    var _ := filter.Event(logEvent);
    events := ch.events;
  }

  /** TestFilter_allow: one accepting predicate, the event itself reaches the sink. */
  method TestFilterAllow(logEvent: Event) returns (events: seq<Event>)
    ensures events == [logEvent]
  {
    var ch := new CaptureHandler();
    var filter := new FilterHandler(ch);
    filter.Filter(e => true);
    var _ := filter.Event(logEvent);
    events := ch.events;
  }

  /** TestFilter_allowReject: an accepting and a rejecting predicate, nothing reaches the sink. */
  method TestFilterAllowReject(logEvent: Event) returns (events: seq<Event>)
    ensures events == []
  {
    var ch := new CaptureHandler();
    var filter := new FilterHandler(ch);
    filter.Filter(e => true);
    filter.Filter(e => false);
    assert !filter.predicates[|filter.predicates| - 1](logEvent);
    var _ := filter.Event(logEvent);
    events := ch.events;
  }

  /** The level lies within the bounds that are set. */
  predicate Within(min: Option<Level>, max: Option<Level>, l: Level)
  {
    (min.None? || min.value <= l) && (max.None? || l <= max.value)
  }

  /**
   * The table loop shared by the level tests: one filter with the given bounds,
   * the sink emptied before each of the eight levels, and what the sink holds
   * afterwards recorded per level.
   */
  method LevelTable(min: Option<Level>, max: Option<Level>, base: Event)
    returns (received: seq<seq<Event>>)
    ensures |received| == 8
    ensures forall l :: 0 <= l < 8 ==>
              received[l] == if Within(min, max, l as Level) then [base.(Level := l as Level)] else []
  {
    var ch := new CaptureHandler();
    var filter := new FilterHandler(ch);
    if min.Some? {
      filter.LevelMin(min.value);
    }
    if max.Some? {
      filter.LevelMax(max.value);
    }
    received := [];
    for l := 0 to 8
      invariant filter.Valid() && filter.sink == ch
      invariant |filter.predicates| == 0 && !filter.dedup
      invariant filter.levelMin == min && filter.levelMax == max
      invariant |received| == l
      invariant forall k :: 0 <= k < l ==>
                  received[k] == if Within(min, max, k as Level) then [base.(Level := k as Level)] else []
    {
      ch.events := [];
      var testEvent := base.(Level := l as Level);
      var _ := filter.Event(testEvent);
      received := received + [ch.events];
    }
  }

  /** TestLevelMin: with LevelMin(Notice), exactly Notice and above get through, unchanged. */
  method TestLevelMin(base: Event) returns (received: seq<seq<Event>>)
    ensures |received| == 8
    ensures forall l :: 0 <= l < 8 ==>
              received[l] == if Notice <= l as Level then [base.(Level := l as Level)] else []
  {
    received := LevelTable(Some(Notice), None, base);
  }

  /** TestLevelMax: with LevelMax(Notice), exactly Notice and below get through, unchanged. */
  method TestLevelMax(base: Event) returns (received: seq<seq<Event>>)
    ensures |received| == 8
    ensures forall l :: 0 <= l < 8 ==>
              received[l] == if l as Level <= Notice then [base.(Level := l as Level)] else []
  {
    received := LevelTable(None, Some(Notice), base);
  }

  /** TestLevelMinMax: with Notice..Critical, exactly Notice, Warning, Error and Critical get through. */
  method TestLevelMinMax(base: Event) returns (received: seq<seq<Event>>)
    ensures |received| == 8
    ensures forall l :: 0 <= l < 8 ==>
              received[l] == if Notice <= l as Level <= Critical then [base.(Level := l as Level)] else []
    ensures forall l :: 0 <= l < 8 ==>
              (received[l] != [] <==> l as Level in {Notice, Warning, Error, Critical})
  {
    received := LevelTable(Some(Notice), Some(Critical), base);
  }

  /**
   * The call sequence of the dedup test on a fresh filter with Dedup on: `a`
   * twice, `a` with Id 123, then `b` with another message. The sink ends with
   * `a`, the roll-up of the two held repeats, and `b`.
   */
  method DedupSequence(a: Event, b: Event) returns (events: seq<Event>)
    requires b.Message != a.Message
    ensures events == [a, Rollup(a.(Id := 123), 2), b]
  {
    var ch := new CaptureHandler();
    var filter := new FilterHandler(ch);
    filter.Dedup();
    assert filter.Settings() == Config([], None, None, true);

    var testEvent1 := a;
    var _ := filter.Event(testEvent1);
    assert ch.events == [a] && filter.Memory() == DedupState(Some(a), 0);
    var _ := filter.Event(testEvent1);
    assert ch.events == [a] && filter.Memory() == DedupState(Some(a), 1);
    testEvent1 := testEvent1.(Id := 123);
    var _ := filter.Event(testEvent1);
    assert ch.events == [a] && filter.Memory() == DedupState(Some(testEvent1), 2);
    var _ := filter.Event(b);
    events := ch.events;
  }

  /**
   * TestDedup: the first event twice, again with Id 123, then a second event
   * whose message has " 2" appended. The sink receives the first event, the
   * roll-up with count 2 and Id 123, and the second event.
   */
  method TestDedup(counter: Uint64, callerName: string, now: Time, deStruct: Value -> Flattened)
    returns (events: seq<Event>)
    ensures |events| == 3
    ensures events[0].Message == "testing " + callerName + "()"
    ensures events[1].Message == DupMessage
    ensures "count" in events[1].FlatFields && events[1].FlatFields["count"] == Int(2)
    ensures events[1].Id == 123
    ensures events[2].Message == events[0].Message + " 2"
  {
    var testEvent1, c1 := MakeEvent(counter, Notice, callerName, now, deStruct);
    var testEvent2, c2 := MakeEvent(c1, Notice, callerName, now, deStruct);
    testEvent2 := testEvent2.(Message := testEvent2.Message + " 2");
    assert |testEvent2.Message| != |testEvent1.Message|;
    events := DedupSequence(testEvent1, testEvent2);
  }
}
