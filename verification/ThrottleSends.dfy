/** What the throttle promises about the sends themselves: as far apart as their stamps,
    less the time a broadcast had been under way.

    Modelled on src/orchestrator/api/websocket.py, `broadcast_to_run`.  */
module ThrottleSends {
  import opened Throttle

  /** The client's sends since it was last forgotten. */
  function Sends(log: seq<Event>, c: Client): seq<Event> {
    if log == [] then []
    else
      var before, e := Sends(log[..|log| - 1], c), log[|log| - 1];
      if e.client != c then before else if e.Sent? then before + [e] else []
  }

  lemma SendsOneMore(log: seq<Event>, e: Event, c: Client)
    ensures Sends(log + [e], c)
         == if e.client != c then Sends(log, c) else if e.Sent? then Sends(log, c) + [e] else []
  {
    assert (log + [e])[..|log|] == log;
  }

  /** The stamps are those of the sends, one for one. */
  lemma {:induction false} StampsOfSends(log: seq<Event>, c: Client)
    ensures |Stamps(log, c)| == |Sends(log, c)|
    ensures forall k ::
      0 <= k < |Sends(log, c)| ==> Sends(log, c)[k].Sent? && Sends(log, c)[k].stamp == Stamps(log, c)[k]
    ensures forall e :: e in Sends(log, c) ==> e in log
  {
    if log != [] {
      StampsOfSends(log[..|log| - 1], c);
      assert log == log[..|log| - 1] + [log[|log| - 1]];
    }
  }

  // ---------------------------------------------------------------------------
  // Stamps are taken before sends, and time goes on
  // ---------------------------------------------------------------------------

  predicate Dated(e: Event, clock: int) {
    e.Sent? ==> e.stamp <= e.at <= clock
  }

  predicate NotAfter(d: Event, e: Event) {
    d.Sent? && e.Sent? ==> d.at <= e.at
  }

  /** Later sends are not earlier in time. */
  predicate InOrder(log: seq<Event>) {
    forall j, k :: 0 <= j < k < |log| ==> NotAfter(log[j], log[k])
  }

  ghost predicate Timely(s: State) {
    && (forall t :: t in s.tasks ==> s.tasks[t].now <= s.clock)
    && (forall k :: 0 <= k < |s.log| ==> Dated(s.log[k], s.clock))
    && InOrder(s.log)
  }

  lemma TimelyLog(s: State, t: State, e: Event)
    requires Timely(s) && t.log == s.log + [e] && Dated(e, s.clock) && t.clock == s.clock
    requires e.Sent? ==> e.at == s.clock
    requires forall k :: k in t.tasks ==> t.tasks[k].now <= t.clock
    ensures Timely(t)
  {
    forall k | 0 <= k < |t.log| ensures Dated(t.log[k], t.clock) {
      if k < |s.log| { assert t.log[k] == s.log[k]; }
    }
    forall d | d in s.log ensures NotAfter(d, e) {
      SendIsDated(s, d);
    }
    InOrderOneMore(s.log, e);
  }

  lemma InOrderOneMore(log: seq<Event>, e: Event)
    requires InOrder(log) && forall d :: d in log ==> NotAfter(d, e)
    ensures InOrder(log + [e])
  {
    forall j, k | 0 <= j < k < |log| + 1 ensures NotAfter((log + [e])[j], (log + [e])[k]) {
      assert (log + [e])[j] == log[j] && log[j] in log;
      if k < |log| { assert (log + [e])[k] == log[k]; }
    }
  }

  lemma SendIsDated(s: State, e: Event)
    requires Timely(s) && e in s.log
    ensures Dated(e, s.clock)
  {
    var i :| 0 <= i < |s.log| && s.log[i] == e;
  }

  lemma {:induction false} SendsAreInOrder(log: seq<Event>, c: Client)
    requires InOrder(log)
    ensures InOrder(Sends(log, c))
  {
    if log != [] {
      var before, e := log[..|log| - 1], log[|log| - 1];
      SendsAreInOrder(before, c);
      StampsOfSends(before, c);
      forall d | d in Sends(before, c) ensures NotAfter(d, e) {
        var j :| 0 <= j < |before| && before[j] == d;
        assert log[j] == d;
      }
      InOrderOneMore(Sends(before, c), e);
    }
  }

  lemma DisconnectedIsTimely(s: State, run: RunId, c: Client)
    requires Timely(s)
    ensures Timely(Disconnected(s, run, c))
  {
    DisconnectedTables(s, run, c);
    assert Disconnected(s, run, c).tasks == s.tasks;
    TimelyLog(s, Disconnected(s, run, c), Forgot(c));
  }

  lemma {:induction false} DisconnectedAllIsTimely(s: State, run: RunId, dead: seq<Client>)
    requires Timely(s)
    ensures Timely(DisconnectedAll(s, run, dead))
    ensures DisconnectedAll(s, run, dead).clock == s.clock && DisconnectedAll(s, run, dead).tasks == s.tasks
    decreases dead
  {
    if dead != [] {
      DisconnectedIsTimely(s, run, dead[0]);
      DisconnectedAllIsTimely(Disconnected(s, run, dead[0]), run, dead[1..]);
    }
  }

  lemma VisitedIsTimely(interval: int, s: State, task: Task, delivered: bool)
    requires Timely(s) && task in s.tasks && s.tasks[task].index < |Subscribers(s, s.tasks[task].list)|
    ensures Timely(Visited(interval, s, task, delivered))
  {
    var next, b := Visited(interval, s, task, delivered), s.tasks[task];
    if next.log != s.log {
      TimelyLog(s, next, Sent(Subscribers(s, b.list)[b.index], b.now, s.clock));
    }
  }

  lemma StepIsTimely(interval: int, s: State, step: Step)
    requires Timely(s) && Enabled(s, step)
    ensures Timely(Next(interval, s, step))
  {
    match step
    case Disconnect(run, c) => DisconnectedIsTimely(s, run, c);
    case Visit(task, delivered) => VisitedIsTimely(interval, s, task, delivered);
    case Finish(task) =>
      DisconnectedAllIsTimely(s, s.tasks[task].run, s.tasks[task].dead);
      assert Next(interval, s, step).tasks == s.tasks - {task};
    case Tick(time) => TickIsTimely(s, time);
    case _ =>
  }

  lemma TickIsTimely(s: State, time: int)
    requires Timely(s) && time >= s.clock
    ensures Timely(s.(clock := time))
  {
    var next := s.(clock := time);
    forall k | 0 <= k < |next.log| ensures Dated(next.log[k], time) {
      assert Dated(s.log[k], s.clock);
    }
  }

  lemma {:induction false} RunIsTimely(interval: int, s: State, steps: seq<Step>)
    requires Timely(s) && CanRun(interval, s, steps)
    ensures Timely(After(interval, s, steps))
    decreases steps
  {
    if steps != [] {
      StepIsTimely(interval, s, steps[0]);
      RunIsTimely(interval, Next(interval, s, steps[0]), steps[1..]);
    }
  }

  // ---------------------------------------------------------------------------
  // Sends are spaced, up to the lag
  // ---------------------------------------------------------------------------

  /** How long the broadcast had been under way when it sent. */
  function Lag(e: Event): int
    requires e.Sent?
  {
    e.at - e.stamp
  }

  /** From one send to the next it is at least the interval, less the lag of the first. */
  ghost predicate SpacedUpToLag(interval: int, sends: seq<Event>) {
    && (forall k :: 0 <= k < |sends| ==> sends[k].Sent? && Lag(sends[k]) >= 0)
    && forall k :: 0 <= k < |sends| - 1 ==> sends[k + 1].at - sends[k].at >= interval - Lag(sends[k])
  }

  lemma SpacedSends(interval: int, s: State, c: Client)
    requires Inv(interval, s) && Timely(s)
    ensures SpacedUpToLag(interval, Sends(s.log, c))
  {
    var sends, stamps := Sends(s.log, c), Stamps(s.log, c);
    StampsOfSends(s.log, c);
    assert InvFor(interval, s, c);
    forall k | 0 <= k < |sends| ensures Lag(sends[k]) >= 0 {
      SendIsDated(s, sends[k]);
    }
    forall k | 0 <= k < |sends| - 1 ensures sends[k + 1].at - sends[k].at >= interval - Lag(sends[k]) {
      assert stamps[k + 1] - stamps[k] >= (k + 1 - k) * interval;
      assert Lag(sends[k + 1]) >= 0;
    }
  }

  /** However broadcasts interleave, from one send to a client to its next it is at least
      the interval, less the time the first one's broadcast had been under way. */
  lemma SendsAreSpaced(interval: int, steps: seq<Step>, c: Client)
    requires CanRun(interval, START, steps)
    ensures SpacedUpToLag(interval, Sends(After(interval, START, steps).log, c))
  {
    assert Inv(interval, START) && Timely(START);
    StampsRise(interval, START, steps, c);
    RunIsTimely(interval, START, steps);
    SpacedSends(interval, After(interval, START, steps), c);
  }

  // ---------------------------------------------------------------------------
  // No more can be said of how far sends are apart
  // ---------------------------------------------------------------------------

  /** No broadcast waited longer than `lag` before it sent to the client. */
  ghost predicate Lags(interval: int, steps: seq<Step>, c: Client, lag: int)
    requires CanRun(interval, START, steps)
  {
    LagAtMost(Sends(After(interval, START, steps).log, c), lag)
  }

  /** From one send to the client to the next it is at least `gap`. */
  ghost predicate Apart(interval: int, steps: seq<Step>, c: Client, gap: int)
    requires CanRun(interval, START, steps)
  {
    ApartBy(Sends(After(interval, START, steps).log, c), gap)
  }

  predicate AtLeast(gap: int, d: Event, e: Event) {
    d.Sent? && e.Sent? && e.at - d.at >= gap
  }

  ghost predicate ApartBy(sends: seq<Event>, gap: int) {
    forall j, k :: 0 <= j && k == j + 1 < |sends| ==> AtLeast(gap, sends[j], sends[k])
  }

  /** What is left of the interval. */
  function Least(interval: int, lag: int): int {
    if lag < interval then interval - lag else 0
  }

  lemma SendsApart(interval: int, lag: nat, steps: seq<Step>, c: Client)
    requires CanRun(interval, START, steps) && Lags(interval, steps, c, lag)
    ensures Apart(interval, steps, c, Least(interval, lag))
  {
    var t := After(interval, START, steps);
    var sends := Sends(t.log, c);
    SendsAreSpaced(interval, steps, c);
    RunIsTimely(interval, START, steps);
    SendsAreInOrder(t.log, c);
    forall j, k | 0 <= j && k == j + 1 < |sends|
      ensures AtLeast(Least(interval, lag), sends[j], sends[k])
    {
      assert NotAfter(sends[j], sends[k]) && Lag(sends[j]) <= lag;
    }
  }

  /** With lags up to `lag`, what holds of all sends to all clients in all interleavings is that
      they are apart by what that leaves of the interval, and no more. */
  lemma SendsApartExactly(interval: int, lag: nat, gap: int)
    requires interval > 0
    ensures
      (forall steps, c ::
        CanRun(interval, START, steps) && Lags(interval, steps, c, lag) ==> Apart(interval, steps, c, gap))
      <==> gap <= Least(interval, lag)
  {
    if gap <= Least(interval, lag) {
      forall steps, c | CanRun(interval, START, steps) && Lags(interval, steps, c, lag)
        ensures Apart(interval, steps, c, gap)
      {
        SendsApart(interval, lag, steps, c);
        WiderApart(Sends(After(interval, START, steps).log, c), Least(interval, lag), gap);
      }
    } else {
      var short := if lag < interval then lag else interval;
      var steps := LaggingRun(interval, interval, short);
      SendsOfTwo(interval, interval, short);
      var sends := Sends(After(interval, START, steps).log, 2);
      assert Lags(interval, steps, 2, lag);
      assert !AtLeast(gap, sends[0], sends[1]);
      assert !Apart(interval, steps, 2, gap);
    }
  }

  lemma WiderApart(sends: seq<Event>, gap: int, less: int)
    requires ApartBy(sends, gap) && less <= gap
    ensures ApartBy(sends, less)
  {
  }

  /** Two broadcasts to two clients, the first of which waits between its sends. */
  function LaggingLog(interval: int, now: int, lag: int): seq<Event> {
    [Sent(1, now, now), Sent(2, now, now + lag), Sent(1, now + interval, now + interval),
      Sent(2, now + interval, now + interval)]
  }

  lemma SendsOfTwo(interval: int, now: int, lag: int)
    ensures Sends(LaggingLog(interval, now, lag), 2)
      == [Sent(2, now, now + lag), Sent(2, now + interval, now + interval)]
  {
    var a, b := Sent(1, now, now), Sent(2, now, now + lag);
    var c, d := Sent(1, now + interval, now + interval), Sent(2, now + interval, now + interval);
    SendsOneMore([], a, 2);
    SendsOneMore([a], b, 2);
    SendsOneMore([a, b], c, 2);
    SendsOneMore([a, b, c], d, 2);
    assert [] + [a] == [a] && [a] + [b] == [a, b] && [a, b] + [c] == [a, b, c] && [a, b, c] + [d] == [a, b, c, d];
  }

  /** The second client's stamps are an interval apart, its sends only what the lag leaves. */
  lemma LaggingRun(interval: int, now: int, lag: int) returns (steps: seq<Step>)
    requires now >= interval > 0 && 0 <= lag <= interval
    ensures CanRun(interval, START, steps) && After(interval, START, steps).log == LaggingLog(interval, now, lag)
  {
    var s1 := Next(interval, START, Tick(now));
    var s2 := Next(interval, s1, Connect("a", 1));
    assert s2.lists == [[1]];
    var s3 := Next(interval, s2, Connect("a", 2));
    assert s2.connections == map["a" := 0] && [1] + [2] == [1, 2];
    assert s3.lists == [[1, 2]] && s3.connections == map["a" := 0];
    var s4 := Next(interval, s3, Begin(1, "a"));
    var s5 := Next(interval, s4, Visit(1, true));
    assert s5.log == [Sent(1, now, now)];
    var t, rest := LateSend(interval, now, lag, s5);
    LeadsOn(interval, s4, Visit(1, true), rest, t);
    steps := [Visit(1, true)] + rest;
    LeadsOn(interval, s3, Begin(1, "a"), steps, t);
    steps := [Begin(1, "a")] + steps;
    LeadsOn(interval, s2, Connect("a", 2), steps, t);
    steps := [Connect("a", 2)] + steps;
    LeadsOn(interval, s1, Connect("a", 1), steps, t);
    steps := [Connect("a", 1)] + steps;
    LeadsOn(interval, START, Tick(now), steps, t);
    steps := [Tick(now)] + steps;
  }

  lemma LateSend(interval: int, now: int, lag: int, s: State) returns (t: State, steps: seq<Step>)
    requires now >= interval > 0 && 0 <= lag <= interval
    requires s.clock == now && s.log == [Sent(1, now, now)] && s.lastSend == map[1 := now]
    requires s.lists == [[1, 2]] && s.connections == map["a" := 0]
    requires s.tasks == map[1 := Broadcast("a", now, 0, 1, [])]
    ensures Leads(interval, s, steps, t) && t.log == LaggingLog(interval, now, lag)
  {
    var s1 := Next(interval, s, Tick(now + lag));
    var s2 := Next(interval, s1, Visit(1, true));
    assert s2.lastSend == map[1 := now, 2 := now];
    var rest;
    t, rest := SecondBroadcast(interval, now, lag, s2);
    LeadsOn(interval, s1, Visit(1, true), rest, t);
    steps := [Visit(1, true)] + rest;
    LeadsOn(interval, s, Tick(now + lag), steps, t);
    steps := [Tick(now + lag)] + steps;
  }

  lemma SecondBroadcast(interval: int, now: int, lag: int, s: State) returns (t: State, steps: seq<Step>)
    requires now >= interval > 0 && 0 <= lag <= interval && s.clock == now + lag
    requires s.log == [Sent(1, now, now), Sent(2, now, now + lag)] && s.lastSend == map[1 := now, 2 := now]
    requires s.lists == [[1, 2]] && s.connections == map["a" := 0]
    requires s.tasks == map[1 := Broadcast("a", now, 0, 2, [])]
    ensures Leads(interval, s, steps, t) && t.log == LaggingLog(interval, now, lag)
  {
    var later := now + interval;
    var s1 := Next(interval, s, Tick(later));
    var s2 := Next(interval, s1, Begin(2, "a"));
    var s3 := Next(interval, s2, Visit(2, true));
    assert s3.tasks[2] == Broadcast("a", later, 0, 1, []) && s3.lastSend == map[1 := later, 2 := now];
    t := Next(interval, s3, Visit(2, true));
    LeadsOn(interval, s3, Visit(2, true), [], t);
    LeadsOn(interval, s2, Visit(2, true), [Visit(2, true)] + [], t);
    steps := [Visit(2, true)] + ([Visit(2, true)] + []);
    LeadsOn(interval, s1, Begin(2, "a"), steps, t);
    steps := [Begin(2, "a")] + steps;
    LeadsOn(interval, s, Tick(later), steps, t);
    steps := [Tick(later)] + steps;
  }

  // ---------------------------------------------------------------------------
  // Sends in a window
  // ---------------------------------------------------------------------------

  function SentInWindow(sends: seq<Event>, from: int, length: int): nat {
    if sends == [] then 0
    else
      (if sends[0].Sent? && from <= sends[0].at <= from + length then 1 else 0) + SentInWindow(sends[1..], from, length)
  }

  predicate LagAtMost(sends: seq<Event>, lag: int) {
    forall k :: 0 <= k < |sends| ==> sends[k].Sent? && 0 <= Lag(sends[k]) <= lag
  }

  function StampsOf(sends: seq<Event>): seq<int> {
    if sends == [] then [] else [if sends[0].Sent? then sends[0].stamp else 0] + StampsOf(sends[1..])
  }

  /** A send in the window was stamped in the window or at most the lag before it. */
  lemma {:induction false} StampsInWiderWindow(sends: seq<Event>, from: int, length: int, lag: int)
    requires LagAtMost(sends, lag)
    ensures SentInWindow(sends, from, length) <= InWindow(StampsOf(sends), from - lag, length + lag)
  {
    if sends != [] {
      assert forall k :: 0 <= k < |sends[1..]| ==> sends[1..][k] == sends[k + 1];
      StampsInWiderWindow(sends[1..], from, length, lag);
      assert StampsOf(sends)[1..] == StampsOf(sends[1..]);
      assert 0 <= Lag(sends[0]) <= lag;
    }
  }

  lemma WindowOfSends(interval: int, sends: seq<Event>, from: int, length: nat, lag: nat)
    requires interval > 0 && LagAtMost(sends, lag) && Spaced(interval, StampsOf(sends))
    ensures SentInWindow(sends, from, length) <= (length + lag) / interval + 1
  {
    StampsInWiderWindow(sends, from, length, lag);
    WindowFrom(interval, StampsOf(sends), from - lag, length + lag);
    QuotientBound(InWindow(StampsOf(sends), from - lag, length + lag), interval, length + lag);
  }

  lemma {:induction false} StampsOfIs(sends: seq<Event>, stamps: seq<int>)
    requires |sends| == |stamps| && forall k :: 0 <= k < |sends| ==> sends[k].Sent? && sends[k].stamp == stamps[k]
    ensures StampsOf(sends) == stamps
  {
    if sends != [] {
      assert forall k :: 0 <= k < |sends[1..]| ==> sends[1..][k] == sends[k + 1] && stamps[1..][k] == stamps[k + 1];
      StampsOfIs(sends[1..], stamps[1..]);
      assert stamps == [stamps[0]] + stamps[1..];
    }
  }

  /** If no broadcast waits longer than `lag` before it sends to the client, any window of a
      given length holds at most (length + lag) / interval + 1 sends to it. */
  lemma SendBound(interval: int, steps: seq<Step>, c: Client, from: int, length: nat, lag: nat)
    requires interval > 0 && CanRun(interval, START, steps)
    requires LagAtMost(Sends(After(interval, START, steps).log, c), lag)
    ensures SentInWindow(Sends(After(interval, START, steps).log, c), from, length) <= (length + lag) / interval + 1
  {
    var log := After(interval, START, steps).log;
    assert Inv(interval, START);
    StampsRise(interval, START, steps, c);
    StampsOfSends(log, c);
    StampsOfIs(Sends(log, c), Stamps(log, c));
    WindowOfSends(interval, Sends(log, c), from, length, lag);
  }
}
