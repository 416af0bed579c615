/** When the throttle forgets a client, and so what a subscriber of one run can count on
    from connecting to disconnecting.

    Modelled on src/orchestrator/api/websocket.py, `connect`, `disconnect` and
    `broadcast_to_run`.  */
module ThrottleSubscriptions {
  import opened Throttle
  import opened ThrottleSends

  // ---------------------------------------------------------------------------
  // The steps that forget
  // ---------------------------------------------------------------------------

  /** The client is disconnected, or a broadcast ends that could not send to it. */
  predicate Forgets(s: State, step: Step, c: Client) {
    match step
    case Disconnect(_, d) => d == c
    case Finish(task) => task in s.tasks && c in s.tasks[task].dead
    case _ => false
  }

  /** Some event since `from` is the client's being forgotten. */
  predicate ForgottenSince(log: seq<Event>, from: nat, c: Client) {
    exists k :: from <= k < |log| && log[k] == Forgot(c)
  }

  lemma {:induction false} DisconnectedAllForgets(s: State, run: RunId, dead: seq<Client>, c: Client)
    ensures var log := DisconnectedAll(s, run, dead).log;
      s.log <= log && (ForgottenSince(log, |s.log|, c) <==> c in dead)
      && forall k :: |s.log| <= k < |log| ==> log[k].Forgot?
    decreases dead
  {
    if dead != [] {
      var next := Disconnected(s, run, dead[0]);
      DisconnectedTables(s, run, dead[0]);
      DisconnectedAllForgets(next, run, dead[1..], c);
      LaterOrHere(DisconnectedAll(s, run, dead).log, |s.log|, c);
      assert DisconnectedAll(s, run, dead).log[|s.log|] == next.log[|s.log|] == Forgot(dead[0]);
    }
  }

  lemma LaterOrHere(log: seq<Event>, from: nat, c: Client)
    requires from < |log|
    ensures ForgottenSince(log, from, c) <==> log[from] == Forgot(c) || ForgottenSince(log, from + 1, c)
  {
  }

  /** A step forgets a client exactly if it disconnects it, from any run, or ends a
      broadcast that could not send to it. */
  lemma ForgottenExactly(interval: int, s: State, step: Step, c: Client)
    requires Enabled(s, step)
    ensures s.log <= Next(interval, s, step).log
    ensures ForgottenSince(Next(interval, s, step).log, |s.log|, c) <==> Forgets(s, step, c)
  {
    match step
    case Disconnect(run, d) =>
      DisconnectedTables(s, run, d);
      LaterOrHere(Next(interval, s, step).log, |s.log|, c);
    case Finish(task) => DisconnectedAllForgets(s, s.tasks[task].run, s.tasks[task].dead, c);
    case _ =>
  }

  /** A broadcast counts a client as dead exactly when a send to it fails. */
  lemma DeadExactly(interval: int, s: State, step: Step, task: Task, c: Client)
    requires Enabled(s, step) && task in s.tasks && task in Next(interval, s, step).tasks && c !in s.tasks[task].dead
    ensures c in Next(interval, s, step).tasks[task].dead
       <==> step == Visit(task, false) && Next(interval, s, step).log == s.log + [Sent(c, s.tasks[task].now, s.clock)]
  {
    match step
    case Finish(other) => KeepsTasks(s, s.tasks[other].run, s.tasks[other].dead);
    case Visit(other, delivered) => if other == task { VisitDead(interval, s, task, delivered, c); }
    case _ =>
  }

  lemma VisitDead(interval: int, s: State, task: Task, delivered: bool, c: Client)
    requires Enabled(s, Visit(task, delivered)) && c !in s.tasks[task].dead
    ensures var next := Visited(interval, s, task, delivered);
      task in next.tasks
      && (c in next.tasks[task].dead <==> !delivered && next.log == s.log + [Sent(c, s.tasks[task].now, s.clock)])
  {
    var next, b := Visited(interval, s, task, delivered), s.tasks[task];
    var sent, mine := Sent(Subscribers(s, b.list)[b.index], b.now, s.clock), Sent(c, b.now, s.clock);
    assert (s.log + [sent])[|s.log|] == sent && (s.log + [mine])[|s.log|] == mine;
    assert |s.log + [mine]| == |s.log| + 1;
  }

  lemma {:induction false} KeepsTasks(s: State, run: RunId, dead: seq<Client>)
    ensures DisconnectedAll(s, run, dead).tasks == s.tasks
    decreases dead
  {
    if dead != [] { KeepsTasks(Disconnected(s, run, dead[0]), run, dead[1..]); }
  }

  // ---------------------------------------------------------------------------
  // A client on one run
  // ---------------------------------------------------------------------------

  /** The client is only ever connected to and disconnected from that run. */
  predicate OnlyRun(step: Step, c: Client, run: RunId) {
    match step
    case Connect(r, d) => d == c ==> r == run
    case Disconnect(r, d) => d == c ==> r == run
    case _ => true
  }

  predicate OnList(s: State, run: RunId, c: Client) {
    run in s.connections && c in Subscribers(s, s.connections[run])
  }

  /** Runs have lists of their own, and a broadcast that walks a list that is still some
      run's walks its own run's. */
  ghost predicate OwnLists(s: State) {
    && (forall r :: r in s.connections ==> s.connections[r] < |s.lists|)
    && (forall t :: t in s.tasks ==> s.tasks[t].list < |s.lists|)
    && (forall q, r :: q in s.connections && r in s.connections && s.connections[q] == s.connections[r] ==> q == r)
    && forall t, r :: t in s.tasks && r in s.connections && s.connections[r] == s.tasks[t].list ==> r == s.tasks[t].run
  }

  /** The client is on lists of its run only, walked or not, and dead in broadcasts of it
      only. */
  ghost predicate OnOneRun(s: State, c: Client, run: RunId) {
    && (forall r :: r in s.connections && c in Subscribers(s, s.connections[r]) ==> r == run)
    && (forall t :: t in s.tasks && c in Subscribers(s, s.tasks[t].list) ==> s.tasks[t].run == run)
    && forall t :: t in s.tasks && c in s.tasks[t].dead ==> s.tasks[t].run == run
  }

  /** A new list in the place of a run's. */
  lemma NewListOwn(s: State, next: State, r: RunId, list: seq<Client>)
    requires OwnLists(s) && next.lists == s.lists + [list] && next.tasks == s.tasks
    requires next.connections == s.connections[r := |s.lists|]
    ensures OwnLists(next)
  {
  }

  lemma NewListOnOneRun(s: State, next: State, r: RunId, list: seq<Client>, c: Client, run: RunId)
    requires OwnLists(s) && OnOneRun(s, c, run) && next.lists == s.lists + [list] && next.tasks == s.tasks
    requires next.connections == s.connections[r := |s.lists|] && (c in list ==> r == run)
    ensures OnOneRun(next, c, run)
  {
    forall q | q in next.connections && c in Subscribers(next, next.connections[q]) ensures q == run {
      if q != r { assert Subscribers(next, s.connections[q]) == Subscribers(s, s.connections[q]); }
    }
    forall t | t in next.tasks && c in Subscribers(next, next.tasks[t].list) ensures next.tasks[t].run == run {
      assert Subscribers(next, s.tasks[t].list) == Subscribers(s, s.tasks[t].list);
    }
  }

  /** One more client on a run's list. */
  lemma GrownOnOneRun(s: State, next: State, r: RunId, d: Client, c: Client, run: RunId)
    requires OwnLists(s) && OnOneRun(s, c, run) && (d == c ==> r == run) && r in s.connections
    requires var l := s.connections[r]; l < |s.lists| && next.lists == s.lists[l := s.lists[l] + [d]]
    requires next.connections == s.connections && next.tasks == s.tasks
    ensures OnOneRun(next, c, run)
  {
    forall q | q in next.connections && c in Subscribers(next, next.connections[q]) ensures q == run {
      GrownList(s, next, r, d, c, s.connections[q]);
    }
    forall t | t in next.tasks && c in Subscribers(next, next.tasks[t].list) ensures next.tasks[t].run == run {
      GrownList(s, next, r, d, c, s.tasks[t].list);
    }
  }

  lemma GrownList(s: State, next: State, r: RunId, d: Client, c: Client, list: nat)
    requires r in s.connections && list < |s.lists|
    requires var l := s.connections[r]; l < |s.lists| && next.lists == s.lists[l := s.lists[l] + [d]]
    ensures c in Subscribers(next, list) ==> c in Subscribers(s, list) || (list == s.connections[r] && c == d)
  {
  }

  lemma ConnectKeepsLists(s: State, r: RunId, d: Client, c: Client, run: RunId)
    requires OwnLists(s) && OnOneRun(s, c, run) && (d == c ==> r == run)
    ensures OwnLists(Connected(s, r, d)) && OnOneRun(Connected(s, r, d), c, run)
  {
    var next := Connected(s, r, d);
    if r in s.connections {
      GrownOnOneRun(s, next, r, d, c, run);
      SameTable(s, next);
    } else {
      NewListOwn(s, next, r, [d]);
      NewListOnOneRun(s, next, r, [d], c, run);
    }
  }

  lemma SameTable(s: State, next: State)
    requires OwnLists(s) && |next.lists| == |s.lists| && next.connections == s.connections && next.tasks == s.tasks
    ensures OwnLists(next)
  {
  }

  /** A run without subscribers any more. */
  lemma FewerRuns(s: State, next: State, r: RunId, c: Client, run: RunId)
    requires OwnLists(s) && OnOneRun(s, c, run)
    requires next.lists == s.lists && next.tasks == s.tasks && next.connections == s.connections - {r}
    ensures OwnLists(next) && OnOneRun(next, c, run)
  {
  }

  lemma DisconnectKeepsLists(s: State, r: RunId, d: Client, c: Client, run: RunId)
    requires OwnLists(s) && OnOneRun(s, c, run)
    ensures OwnLists(Disconnected(s, r, d)) && OnOneRun(Disconnected(s, r, d), c, run)
  {
    var next := Disconnected(s, r, d);
    if r !in s.connections {
      assert s.connections - {r} == s.connections;
      FewerRuns(s, next, r, c, run);
    } else {
      var rest := Without(Subscribers(s, s.connections[r]), d);
      if rest == [] {
        FewerRuns(s, next, r, c, run);
      } else {
        NewListOwn(s, next, r, rest);
        NewListOnOneRun(s, next, r, rest, c, run);
      }
    }
  }

  /** Off a list, a client stays off it while others are disconnected; and it is off its run's
      list once it is disconnected from it. */
  lemma DisconnectLeavesOff(s: State, r: RunId, d: Client, c: Client, run: RunId)
    requires OwnLists(s)
    ensures !OnList(s, run, c) || (r == run && d == c) ==> !OnList(Disconnected(s, r, d), run, c)
  {
    var next := Disconnected(s, r, d);
    if run in next.connections && r != run {
      assert Subscribers(next, next.connections[run]) == Subscribers(s, s.connections[run]);
    }
  }

  lemma {:induction false} DisconnectAllKeepsLists(s: State, r: RunId, dead: seq<Client>, c: Client, run: RunId)
    requires OwnLists(s) && OnOneRun(s, c, run)
    ensures OwnLists(DisconnectedAll(s, r, dead)) && OnOneRun(DisconnectedAll(s, r, dead), c, run)
    ensures !OnList(s, run, c) ==> !OnList(DisconnectedAll(s, r, dead), run, c)
    ensures r == run && c in dead ==> !OnList(DisconnectedAll(s, r, dead), run, c)
    decreases dead
  {
    if dead != [] {
      DisconnectKeepsLists(s, r, dead[0], c, run);
      DisconnectLeavesOff(s, r, dead[0], c, run);
      DisconnectAllKeepsLists(Disconnected(s, r, dead[0]), r, dead[1..], c, run);
    }
  }

  /** A broadcast begins or moves on. */
  lemma PutTaskOwn(s: State, next: State, task: Task, b: Broadcast)
    requires OwnLists(s) && next.lists == s.lists && next.connections == s.connections
      && next.tasks == s.tasks[task := b]
    requires b.list < |s.lists| && forall r :: r in s.connections && s.connections[r] == b.list ==> r == b.run
    ensures OwnLists(next)
  {
  }

  lemma PutTaskOnOneRun(s: State, next: State, task: Task, b: Broadcast, c: Client, run: RunId)
    requires OnOneRun(s, c, run)
    requires next.lists == s.lists && next.connections == s.connections && next.tasks == s.tasks[task := b]
    requires c in Subscribers(s, b.list) || c in b.dead ==> b.run == run
    ensures OnOneRun(next, c, run)
  {
    assert forall l: nat :: Subscribers(next, l) == Subscribers(s, l);
  }

  lemma VisitKeepsLists(interval: int, s: State, task: Task, delivered: bool, c: Client, run: RunId)
    requires OwnLists(s) && OnOneRun(s, c, run) && Enabled(s, Visit(task, delivered))
    ensures OwnLists(Visited(interval, s, task, delivered)) && OnOneRun(Visited(interval, s, task, delivered), c, run)
  {
    var next := Visited(interval, s, task, delivered);
    var was, b := s.tasks[task], next.tasks[task];
    assert next.tasks == s.tasks[task := b] && b.run == was.run && b.list == was.list;
    assert Subscribers(s, was.list)[was.index] in Subscribers(s, was.list);
    PutTaskOwn(s, next, task, b);
    PutTaskOnOneRun(s, next, task, b, c, run);
  }

  lemma FinishKeepsLists(interval: int, s: State, task: Task, c: Client, run: RunId)
    requires OwnLists(s) && OnOneRun(s, c, run) && Enabled(s, Finish(task))
    ensures var next := Next(interval, s, Finish(task));
      OwnLists(next) && OnOneRun(next, c, run) && (c in s.tasks[task].dead ==> !OnList(next, run, c))
  {
    var b := s.tasks[task];
    DisconnectAllKeepsLists(s, b.run, b.dead, c, run);
    FewerTasks(DisconnectedAll(s, b.run, b.dead), task, c, run);
    KeepsTasks(s, b.run, b.dead);
  }

  lemma FewerTasks(s: State, task: Task, c: Client, run: RunId)
    requires OwnLists(s) && OnOneRun(s, c, run)
    ensures var next := s.(tasks := s.tasks - {task});
      OwnLists(next) && OnOneRun(next, c, run) && (OnList(next, run, c) <==> OnList(s, run, c))
  {
  }

  lemma StepKeepsLists(interval: int, s: State, step: Step, c: Client, run: RunId)
    requires OwnLists(s) && OnOneRun(s, c, run) && Enabled(s, step) && OnlyRun(step, c, run)
    ensures OwnLists(Next(interval, s, step)) && OnOneRun(Next(interval, s, step), c, run)
    ensures Forgets(s, step, c) ==> !OnList(Next(interval, s, step), run, c)
  {
    match step
    case Tick(_) =>
    case Connect(r, d) => ConnectKeepsLists(s, r, d, c, run);
    case Disconnect(r, d) =>
      DisconnectKeepsLists(s, r, d, c, run);
      DisconnectLeavesOff(s, r, d, c, run);
    case Begin(task, r) => BeginKeepsLists(interval, s, task, r, c, run);
    case Visit(task, delivered) => VisitKeepsLists(interval, s, task, delivered, c, run);
    case Finish(task) => FinishKeepsLists(interval, s, task, c, run);
  }

  lemma BeginKeepsLists(interval: int, s: State, task: Task, r: RunId, c: Client, run: RunId)
    requires OwnLists(s) && OnOneRun(s, c, run) && Enabled(s, Begin(task, r))
    ensures OwnLists(Next(interval, s, Begin(task, r))) && OnOneRun(Next(interval, s, Begin(task, r)), c, run)
  {
    if r in s.connections {
      var b := Broadcast(r, s.clock, s.connections[r], 0, []);
      PutTaskOwn(s, Next(interval, s, Begin(task, r)), task, b);
      PutTaskOnOneRun(s, Next(interval, s, Begin(task, r)), task, b, c, run);
    }
  }

  // ---------------------------------------------------------------------------
  // From connecting to disconnecting
  // ---------------------------------------------------------------------------

  /** The client is on its run's list now and after each of the steps. */
  predicate StaysOn(interval: int, s: State, steps: seq<Step>, c: Client, run: RunId)
    requires CanRun(interval, s, steps)
    decreases steps
  {
    OnList(s, run, c) && (steps == [] || StaysOn(interval, Next(interval, s, steps[0]), steps[1..], c, run))
  }

  predicate AllOnlyRun(steps: seq<Step>, c: Client, run: RunId) {
    forall k :: 0 <= k < |steps| ==> OnlyRun(steps[k], c, run)
  }

  /** While a client of one run is on its list, it is not forgotten. */
  lemma {:induction false} SubscribedIsRemembered(interval: int, s: State, steps: seq<Step>, c: Client, run: RunId)
    requires OwnLists(s) && OnOneRun(s, c, run) && CanRun(interval, s, steps)
    requires AllOnlyRun(steps, c, run) && StaysOn(interval, s, steps, c, run)
    ensures s.log <= After(interval, s, steps).log
    ensures !ForgottenSince(After(interval, s, steps).log, |s.log|, c)
    decreases steps
  {
    if steps != [] {
      var next := Next(interval, s, steps[0]);
      StepKeepsLists(interval, s, steps[0], c, run);
      ForgottenExactly(interval, s, steps[0], c);
      assert forall k :: 0 <= k < |steps[1..]| ==> steps[1..][k] == steps[k + 1];
      SubscribedIsRemembered(interval, next, steps[1..], c, run);
      NotForgottenOn(s.log, next.log, After(interval, s, steps).log, c);
    }
  }

  lemma NotForgottenOn(a: seq<Event>, b: seq<Event>, d: seq<Event>, c: Client)
    requires a <= b <= d && !ForgottenSince(b, |a|, c) && !ForgottenSince(d, |b|, c)
    ensures !ForgottenSince(d, |a|, c)
  {
    assert forall k :: |a| <= k < |b| ==> d[k] == b[k];
  }

  /** The sends to a client in a stretch of the log. */
  function SentTo(log: seq<Event>, from: nat, c: Client): seq<Event>
    requires from <= |log|
    decreases |log| - from
  {
    if from == |log| then []
    else (if log[from].Sent? && log[from].client == c then [log[from]] else []) + SentTo(log, from + 1, c)
  }

  lemma {:induction false} SendsFrom(log: seq<Event>, from: nat, c: Client)
    requires from <= |log| && !ForgottenSince(log, from, c)
    ensures Sends(log, c) == Sends(log[..from], c) + SentTo(log, from, c)
    decreases |log| - from
  {
    if from == |log| {
      assert log[..from] == log;
    } else {
      var e := log[from];
      assert e != Forgot(c);
      SendsFrom(log, from + 1, c);
      assert log[..from + 1] == log[..from] + [e];
      SendsOneMore(log[..from], e, c);
      var here := if e.Sent? && e.client == c then [e] else [];
      assert Sends(log[..from + 1], c) == Sends(log[..from], c) + here;
      assert Sends(log[..from], c) + here + SentTo(log, from + 1, c)
        == Sends(log[..from], c) + (here + SentTo(log, from + 1, c));
    }
  }

  lemma {:induction false} RunKeepsLists(interval: int, s: State, steps: seq<Step>, c: Client, run: RunId)
    requires OwnLists(s) && OnOneRun(s, c, run) && CanRun(interval, s, steps) && AllOnlyRun(steps, c, run)
    ensures OwnLists(After(interval, s, steps)) && OnOneRun(After(interval, s, steps), c, run)
    decreases steps
  {
    if steps != [] {
      StepKeepsLists(interval, s, steps[0], c, run);
      assert forall k :: 0 <= k < |steps[1..]| ==> steps[1..][k] == steps[k + 1];
      RunKeepsLists(interval, Next(interval, s, steps[0]), steps[1..], c, run);
    }
  }

  /** What a suffix of spaced stamps is. */
  lemma SpacedSuffix(interval: int, stamps: seq<int>, from: nat)
    requires from <= |stamps| && Spaced(interval, stamps)
    ensures Spaced(interval, stamps[from..])
  {
    var rest := stamps[from..];
    forall i, j | 0 <= i < j < |rest| ensures rest[j] - rest[i] >= (j - i) * interval {
      assert stamps[from + j] - stamps[from + i] >= (from + j - (from + i)) * interval;
    }
  }

  lemma SuffixStamps(interval: int, all: seq<Event>, first: seq<Event>, rest: seq<Event>, stamps: seq<int>)
    requires all == first + rest && Spaced(interval, stamps) && |stamps| == |all|
    requires forall k :: 0 <= k < |all| ==> all[k].Sent? && all[k].stamp == stamps[k]
    ensures Spaced(interval, StampsOf(rest))
  {
    SpacedSuffix(interval, stamps, |first|);
    var later := stamps[|first|..];
    forall k | 0 <= k < |rest| ensures rest[k].Sent? && rest[k].stamp == later[k] {
      assert all[|first| + k] == rest[k];
    }
    StampsOfIs(rest, later);
  }

  /** Whatever happened before: as long as a client of one run is subscribed to it, any window
      of a given length holds at most (length + lag) / interval + 1 sends to it, the lag
      being how long a broadcast may wait before it sends. */
  lemma UpdatesPerWindow(
    interval: int, before: seq<Step>, during: seq<Step>, c: Client, run: RunId, from: int, length: nat, lag: nat)
    requires interval > 0 && CanRun(interval, START, before) && CanRun(interval, After(interval, START, before), during)
    requires AllOnlyRun(before, c, run) && AllOnlyRun(during, c, run)
    requires StaysOn(interval, After(interval, START, before), during, c, run)
    ensures var s, t := After(interval, START, before), After(interval, After(interval, START, before), during);
      s.log <= t.log
      && (LagAtMost(SentTo(t.log, |s.log|, c), lag)
          ==> SentInWindow(SentTo(t.log, |s.log|, c), from, length) <= (length + lag) / interval + 1)
  {
    var s := After(interval, START, before);
    var t := After(interval, s, during);
    assert Inv(interval, START);
    RunKeepsLists(interval, START, before, c, run);
    SubscribedIsRemembered(interval, s, during, c, run);
    StampsRise(interval, START, before, c);
    StampsRise(interval, s, during, c);
    SentAreSpaced(interval, s.log, t.log, c);
    if LagAtMost(SentTo(t.log, |s.log|, c), lag) {
      WindowOfSends(interval, SentTo(t.log, |s.log|, c), from, length, lag);
    }
  }

  lemma SentAreSpaced(interval: int, before: seq<Event>, log: seq<Event>, c: Client)
    requires before <= log && !ForgottenSince(log, |before|, c) && Spaced(interval, Stamps(log, c))
    ensures Spaced(interval, StampsOf(SentTo(log, |before|, c)))
  {
    SendsFrom(log, |before|, c);
    StampsOfSends(log, c);
    SuffixStamps(interval, Sends(log, c), Sends(log[..|before|], c), SentTo(log, |before|, c), Stamps(log, c));
  }
}
