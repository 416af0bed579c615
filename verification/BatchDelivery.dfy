/** Batches sent through the throttle: which of them reach every subscriber.

    Modelled on src/orchestrator/api/websocket.py, `BatchingConnectionManager` on top of
    `ConnectionManager`.  The two machines share a clock, a batch that is taken begins a
    broadcast of the throttle, and a timer goes off no earlier than its window after it was
    made.  */
module BatchDelivery {
  import opened Common
  import B = Batching
  import T = Throttle
  import opened ThrottleSubscriptions

  type RunId = string
  type Client = nat

  /** `born` tells when a timer was made, `lastBatch` when a run's last batch was taken, and
      `proper` which timers went off while they were their run's own. */
  datatype System = System(
    batching: B.State,
    sends: T.State,
    born: map<B.TimerId, int>,
    lastBatch: map<RunId, int>,
    proper: set<B.TimerId>)

  datatype Step =
    | Tick(time: int)
    | Connect(run: RunId, client: Client)
    | Disconnect(run: RunId, client: Client)
    | Visit(task: T.Task, delivered: bool)
    | Finish(task: T.Task)
    | Batching(step: B.Step)

  /** The broadcast of the batch that a timer, or a flush, has taken. */
  function TimerTask(t: B.TimerId): T.Task {
    2 * t
  }

  function FlushTask(f: B.FlushId): T.Task {
    2 * f + 1
  }

  function Sending(step: Step): T.Step
    requires !step.Batching?
  {
    match step
    case Tick(time) => T.Tick(time)
    case Connect(run, c) => T.Connect(run, c)
    case Disconnect(run, c) => T.Disconnect(run, c)
    case Visit(task, delivered) => T.Visit(task, delivered)
    case Finish(task) => T.Finish(task)
  }

  ghost predicate Enabled(window: int, s: System, step: Step) {
    if !step.Batching? then T.Enabled(s.sends, Sending(step))
    else
      && B.Enabled(s.batching, step.step)
      && match step.step
         case Fire(t) => t in s.born && s.sends.clock >= s.born[t] + window && TimerTask(t) !in s.sends.tasks
         case TimerSent(t) => TimerTask(t) !in s.sends.tasks
         case Take(f) => FlushTask(f) !in s.sends.tasks
         case FlushSent(f) => FlushTask(f) !in s.sends.tasks
         case Disconnect(_, _) => false
         case _ => true
  }

  /** A batch is taken: its broadcast begins. */
  function Taken(interval: int, s: System, run: RunId, task: T.Task): System
    requires task !in s.sends.tasks
  {
    s.(sends := T.Next(interval, s.sends, T.Begin(task, run)), lastBatch := s.lastBatch[run := s.sends.clock])
  }

  /** The timer is its run's own. */
  predicate IsOwn(b: B.State, run: RunId, t: B.TimerId) {
    run in b.timerOf && b.timerOf[run] == t
  }

  /** With nobody left on the run, its batch is dropped. */
  function Emptied(s: System, run: RunId): System {
    if run in s.sends.connections then s else s.(batching := B.Abandoned(s.batching, run))
  }

  function BatchingNext(interval: int, s: System, step: B.Step): System
    requires step.Fire? ==> TimerTask(step.timer) !in s.sends.tasks
    requires step.Take? ==> FlushTask(step.flush) !in s.sends.tasks
  {
    var next := s.(batching := B.Next(s.batching, step));
    match step
    case Broadcast(run, _, t) => if B.Running(s.batching, run) then next else next.(born := s.born[t := s.sends.clock])
    case Fire(t) =>
      var run := B.TimerAt(s.batching, t);
      if run.Live? && B.Buffer(s.batching, run.run) != [] then
        Taken(interval, next, run.run, TimerTask(t)).(
          proper := if IsOwn(s.batching, run.run, t) then s.proper + {t} else s.proper)
      else next
    case Take(f) =>
      var flush := B.FlushAt(s.batching, f);
      if flush.Taking? && B.Buffer(s.batching, flush.run) != [] then Taken(interval, next, flush.run, FlushTask(f))
        else next
    case _ => next
  }

  ghost function Next(window: int, interval: int, s: System, step: Step): System
    requires Enabled(window, s, step)
  {
    match step
    case Batching(b) => BatchingNext(interval, s, b)
    case Disconnect(run, _) => Emptied(s.(sends := T.Next(interval, s.sends, Sending(step))), run)
    case Finish(task) =>
      var next := s.(sends := T.Next(interval, s.sends, Sending(step)));
      if s.sends.tasks[task].dead == [] then next else Emptied(next, s.sends.tasks[task].run)
    case _ => s.(sends := T.Next(interval, s.sends, Sending(step)))
  }

  const START := System(B.START, T.START, map[], map[], {})

  ghost predicate CanRun(window: int, interval: int, s: System, steps: seq<Step>)
    decreases steps
  {
    steps == [] || (Enabled(window, s, steps[0])
      && CanRun(window, interval, Next(window, interval, s, steps[0]), steps[1..]))
  }

  ghost function After(window: int, interval: int, s: System, steps: seq<Step>): System
    requires CanRun(window, interval, s, steps)
    decreases steps
  {
    if steps == [] then s else After(window, interval, Next(window, interval, s, steps[0]), steps[1..])
  }

  /** The client is only ever connected to and disconnected from that run. */
  predicate Only(step: Step, c: Client, run: RunId) {
    !step.Batching? ==> OnlyRun(Sending(step), c, run)
  }

  // ---------------------------------------------------------------------------
  // What holds of the throttle
  // ---------------------------------------------------------------------------

  /** A send to the client with that stamp. */
  ghost predicate Has(log: seq<T.Event>, c: Client, stamp: int) {
    exists k :: 0 <= k < |log| && log[k].Sent? && log[k].client == c && log[k].stamp == stamp
  }

  /** The client's stamp, and the times of the run's broadcasts, are at most `last`; and the
      stamp is that of a send. */
  ghost predicate Below(s: T.State, c: Client, run: RunId, last: int) {
    && (c in s.lastSend ==> s.lastSend[c] <= last && Has(s.log, c, s.lastSend[c]))
    && forall q :: q in s.tasks && s.tasks[q].run == run ==> s.tasks[q].now <= last
  }

  /** The broadcast is a window later than all others of its run and than the client's stamp,
      unless that is its own; and the client has been sent to wherever it was passed. */
  ghost predicate Reaches(window: int, s: T.State, c: Client, run: RunId, task: T.Task) {
    && task in s.tasks
    && var b := s.tasks[task];
       && b.run == run && b.now >= window && b.index <= |T.Subscribers(s, b.list)|
       && (c in s.lastSend ==> s.lastSend[c] == b.now || s.lastSend[c] <= b.now - window)
       && (forall q :: q in s.tasks && q != task && s.tasks[q].run == run ==> s.tasks[q].now <= b.now - window)
       && forall k :: 0 <= k < b.index && T.Subscribers(s, b.list)[k] == c ==> Has(s.log, c, b.now)
  }

  lemma HasStays(log: seq<T.Event>, more: seq<T.Event>, c: Client, stamp: int)
    requires Has(log, c, stamp)
    ensures Has(log + more, c, stamp)
  {
    var k :| 0 <= k < |log| && log[k].Sent? && log[k].client == c && log[k].stamp == stamp;
    assert (log + more)[k] == log[k];
  }

  lemma HasLast(log: seq<T.Event>, c: Client, stamp: int, at: int)
    ensures Has(log + [T.Sent(c, stamp, at)], c, stamp)
  {
    assert (log + [T.Sent(c, stamp, at)])[|log|] == T.Sent(c, stamp, at);
  }

  /** Nothing but the clock, lists, and stamps that are forgotten changes. */
  ghost predicate Quiet(s: T.State, next: T.State) {
    && next.tasks == s.tasks && s.log <= next.log
    && (forall d :: d in next.lastSend ==> d in s.lastSend && next.lastSend[d] == s.lastSend[d])
    && |s.lists| <= |next.lists| && forall l :: 0 <= l < |s.lists| ==> s.lists[l] <= next.lists[l]
  }

  lemma QuietKeepsHas(s: T.State, next: T.State, c: Client, stamp: int)
    requires Quiet(s, next) && Has(s.log, c, stamp)
    ensures Has(next.log, c, stamp)
  {
    HasStays(s.log, next.log[|s.log|..], c, stamp);
    assert s.log + next.log[|s.log|..] == next.log;
  }

  lemma QuietKeepsBelow(s: T.State, next: T.State, c: Client, run: RunId, last: int)
    requires Quiet(s, next) && Below(s, c, run, last)
    ensures Below(next, c, run, last)
  {
    if c in next.lastSend { QuietKeepsHas(s, next, c, s.lastSend[c]); }
  }

  lemma QuietKeepsReaches(window: int, s: T.State, next: T.State, c: Client, run: RunId, task: T.Task)
    requires Quiet(s, next) && Reaches(window, s, c, run, task) && s.tasks[task].list < |s.lists|
    ensures Reaches(window, next, c, run, task)
  {
    var b := s.tasks[task];
    assert s.lists[b.list] <= next.lists[b.list];
    forall k | 0 <= k < b.index && T.Subscribers(next, b.list)[k] == c
      ensures Has(next.log, c, b.now)
    {
      assert T.Subscribers(s, b.list)[k] == c;
      QuietKeepsHas(s, next, c, b.now);
    }
  }

  lemma QuietTwice(s: T.State, mid: T.State, next: T.State)
    requires Quiet(s, mid) && Quiet(mid, next)
    ensures Quiet(s, next)
  {
    forall l | 0 <= l < |s.lists|
      ensures s.lists[l] <= next.lists[l]
    {
      assert s.lists[l] <= mid.lists[l] && mid.lists[l] <= next.lists[l];
    }
  }

  lemma DisconnectIsQuiet(s: T.State, run: RunId, c: Client)
    ensures Quiet(s, T.Disconnected(s, run, c))
  {
  }

  lemma {:induction false} DisconnectAllIsQuiet(s: T.State, run: RunId, dead: seq<Client>)
    ensures Quiet(s, T.DisconnectedAll(s, run, dead))
    decreases dead
  {
    if dead != [] {
      var mid := T.Disconnected(s, run, dead[0]);
      DisconnectIsQuiet(s, run, dead[0]);
      DisconnectAllIsQuiet(mid, run, dead[1..]);
      QuietTwice(s, mid, T.DisconnectedAll(s, run, dead));
    }
  }

  lemma ConnectIsQuiet(s: T.State, run: RunId, c: Client)
    ensures Quiet(s, T.Connected(s, run, c))
  {
  }

  // ---------------------------------------------------------------------------
  // Visits
  // ---------------------------------------------------------------------------

  lemma VisitKeepsBelow(interval: int, s: T.State, task: T.Task, delivered: bool, c: Client, run: RunId, last: int)
    requires Below(s, c, run, last) && T.Enabled(s, T.Visit(task, delivered)) && OnOneRun(s, c, run)
    ensures Below(T.Visited(interval, s, task, delivered), c, run, last)
  {
    var next, b := T.Visited(interval, s, task, delivered), s.tasks[task];
    var d := T.Subscribers(s, b.list)[b.index];
    assert d in T.Subscribers(s, b.list);
    if next.log != s.log {
      HasLast(s.log, d, b.now, s.clock);
      if c in s.lastSend { HasStays(s.log, [T.Sent(d, b.now, s.clock)], c, s.lastSend[c]); }
    }
  }

  /** Another broadcast's visit leaves the stamp a window behind, or alone. */
  lemma OtherVisitKeepsReaches(
    window: int, interval: int, s: T.State, task: T.Task, delivered: bool, c: Client, run: RunId, mine: T.Task)
    requires Reaches(window, s, c, run, mine) && task != mine
    requires T.Enabled(s, T.Visit(task, delivered)) && OnOneRun(s, c, run)
    ensures Reaches(window, T.Visited(interval, s, task, delivered), c, run, mine)
  {
    var next, b, m := T.Visited(interval, s, task, delivered), s.tasks[task], s.tasks[mine];
    var d := T.Subscribers(s, b.list)[b.index];
    assert d in T.Subscribers(s, b.list);
    assert next.tasks[mine] == m && next.lists == s.lists;
    forall k | 0 <= k < m.index && T.Subscribers(next, m.list)[k] == c
      ensures Has(next.log, c, m.now)
    {
      assert T.Subscribers(s, m.list)[k] == c;
      if next.log != s.log { HasStays(s.log, [T.Sent(d, b.now, s.clock)], c, m.now); }
    }
  }

  /** A client the broadcast comes to is sent to, unless it has been already. */
  lemma VisitSends(window: int, interval: int, s: T.State, task: T.Task, delivered: bool, c: Client, run: RunId)
    requires window >= interval && Reaches(window, s, c, run, task) && T.Enabled(s, T.Visit(task, delivered))
    requires c in s.lastSend ==> Has(s.log, c, s.lastSend[c])
    requires T.Subscribers(s, s.tasks[task].list)[s.tasks[task].index] == c
    ensures Has(T.Visited(interval, s, task, delivered).log, c, s.tasks[task].now)
  {
    var b := s.tasks[task];
    if c in s.lastSend && s.lastSend[c] == b.now {
      HasStays(s.log, [T.Sent(c, b.now, s.clock)], c, b.now);
    } else {
      HasLast(s.log, c, b.now, s.clock);
    }
  }

  lemma VisitKeepsReaches(window: int, interval: int, s: T.State, task: T.Task, delivered: bool, c: Client, run: RunId)
    requires window >= interval && Reaches(window, s, c, run, task) && T.Enabled(s, T.Visit(task, delivered))
    requires c in s.lastSend ==> Has(s.log, c, s.lastSend[c])
    ensures Reaches(window, T.Visited(interval, s, task, delivered), c, run, task)
  {
    var next, b := T.Visited(interval, s, task, delivered), s.tasks[task];
    var d := T.Subscribers(s, b.list)[b.index];
    if d == c { VisitSends(window, interval, s, task, delivered, c, run); }
    forall k | 0 <= k <= b.index && T.Subscribers(next, b.list)[k] == c
      ensures Has(next.log, c, b.now)
    {
      assert T.Subscribers(s, b.list)[k] == c;
      if k < b.index && next.log != s.log { HasStays(s.log, [T.Sent(d, b.now, s.clock)], c, b.now); }
    }
  }

  // ---------------------------------------------------------------------------
  // The whole system
  // ---------------------------------------------------------------------------

  function Last(s: System, run: RunId): int {
    if run in s.lastBatch then s.lastBatch[run] else 0
  }

  /** A run's own timer was made after its last batch was taken. */
  ghost predicate EntryIsNew(s: System, run: RunId) {
    run in s.batching.timerOf ==>
      s.batching.timerOf[run] in s.born && s.born[s.batching.timerOf[run]] >= Last(s, run)
  }

  /** A timer whose batch is being sent has the lock. */
  ghost predicate Locked(s: System) {
    && (forall t: B.TimerId :: B.TimerAt(s.batching, t).Sending? ==> s.batching.holder == Some(t))
    && (forall t: B.TimerId :: TimerTask(t) in s.sends.tasks ==> B.TimerAt(s.batching, t).Sending?)
    && forall t :: t in s.proper ==> Spent(s.batching, t)
  }

  predicate Spent(b: B.State, t: B.TimerId) {
    t in b.timers && (b.timers[t].Sending? || b.timers[t].Done?)
  }

  ghost predicate Delivers(window: int, s: System, c: Client, run: RunId, t: B.TimerId) {
    t in s.proper && TimerTask(t) in s.sends.tasks && s.sends.tasks[TimerTask(t)].run == run
    ==> Reaches(window, s.sends, c, run, TimerTask(t))
  }

  /** Nothing sent to the client, and no broadcast of its run, is younger than the run's last
      batch; its own timer is. */
  ghost predicate Settled(s: System, c: Client, run: RunId) {
    && 0 <= Last(s, run) <= s.sends.clock
    && OwnLists(s.sends) && OnOneRun(s.sends, c, run)
    && Below(s.sends, c, run, Last(s, run)) && EntryIsNew(s, run)
  }

  ghost predicate Inv(window: int, s: System, c: Client, run: RunId) {
    Settled(s, c, run) && Locked(s) && forall t :: Delivers(window, s, c, run, t)
  }

  // ---------------------------------------------------------------------------
  // Steps of the throttle
  // ---------------------------------------------------------------------------

  lemma SendingKeepsBelow(interval: int, s: T.State, step: T.Step, c: Client, run: RunId, last: int)
    requires T.Enabled(s, step) && !step.Begin? && Below(s, c, run, last) && OnOneRun(s, c, run)
    ensures Below(T.Next(interval, s, step), c, run, last)
  {
    if step.Visit? {
      VisitKeepsBelow(interval, s, step.task, step.delivered, c, run, last);
    } else if step.Finish? {
      var b := s.tasks[step.task];
      DisconnectAllIsQuiet(s, b.run, b.dead);
      QuietKeepsBelow(s, T.DisconnectedAll(s, b.run, b.dead), c, run, last);
    } else {
      SimpleIsQuiet(interval, s, step);
      QuietKeepsBelow(s, T.Next(interval, s, step), c, run, last);
    }
  }

  lemma SimpleIsQuiet(interval: int, s: T.State, step: T.Step)
    requires T.Enabled(s, step) && (step.Tick? || step.Connect? || step.Disconnect?)
    ensures Quiet(s, T.Next(interval, s, step))
  {
    if step.Connect? { ConnectIsQuiet(s, step.run, step.client); }
    if step.Disconnect? { DisconnectIsQuiet(s, step.run, step.client); }
  }

  lemma SendingKeepsReaches(window: int, interval: int, s: T.State, step: T.Step, c: Client, run: RunId, mine: T.Task)
    requires window >= interval && T.Enabled(s, step) && !step.Begin? && step != T.Finish(mine)
    requires Reaches(window, s, c, run, mine) && OwnLists(s) && OnOneRun(s, c, run)
    requires c in s.lastSend ==> Has(s.log, c, s.lastSend[c])
    ensures Reaches(window, T.Next(interval, s, step), c, run, mine)
  {
    if step == T.Visit(mine, true) || step == T.Visit(mine, false) {
      VisitKeepsReaches(window, interval, s, mine, step.delivered, c, run);
    } else if step.Visit? {
      OtherVisitKeepsReaches(window, interval, s, step.task, step.delivered, c, run, mine);
    } else if step.Finish? {
      var b := s.tasks[step.task];
      DisconnectAllIsQuiet(s, b.run, b.dead);
      QuietKeepsReaches(window, s, T.DisconnectedAll(s, b.run, b.dead), c, run, mine);
      FewerKeepReaches(window, T.DisconnectedAll(s, b.run, b.dead), c, run, mine, step.task);
    } else {
      SimpleIsQuiet(interval, s, step);
      QuietKeepsReaches(window, s, T.Next(interval, s, step), c, run, mine);
    }
  }

  lemma FewerKeepReaches(window: int, s: T.State, c: Client, run: RunId, mine: T.Task, task: T.Task)
    requires Reaches(window, s, c, run, mine) && task != mine
    ensures Reaches(window, s.(tasks := s.tasks - {task}), c, run, mine)
  {
    var next, b := s.(tasks := s.tasks - {task}), s.tasks[mine];
    forall k | 0 <= k < b.index && T.Subscribers(next, b.list)[k] == c
      ensures Has(next.log, c, b.now)
    {
      assert T.Subscribers(s, b.list)[k] == c;
    }
  }

  /** No new broadcast, and those there are keep their runs. */
  lemma SendingKeepsTasks(interval: int, s: T.State, step: T.Step, q: T.Task)
    requires T.Enabled(s, step) && !step.Begin? && q in T.Next(interval, s, step).tasks
    ensures q in s.tasks && T.Next(interval, s, step).tasks[q].run == s.tasks[q].run && step != T.Finish(q)
  {
    if step.Finish? { KeepsTasks(s, s.tasks[step.task].run, s.tasks[step.task].dead); }
  }

  lemma SendingKeepsClock(interval: int, s: T.State, step: T.Step)
    requires T.Enabled(s, step)
    ensures T.Next(interval, s, step).clock >= s.clock
  {
    if step.Finish? { ClockStays(s, s.tasks[step.task].run, s.tasks[step.task].dead); }
  }

  lemma {:induction false} ClockStays(s: T.State, run: RunId, dead: seq<Client>)
    ensures T.DisconnectedAll(s, run, dead).clock == s.clock
    decreases dead
  {
    if dead != [] { ClockStays(T.Disconnected(s, run, dead[0]), run, dead[1..]); }
  }

  /** A run that is empty loses its timer at most. */
  lemma EmptiedKeeps(window: int, s: System, r: RunId, c: Client, run: RunId)
    requires Inv(window, s, c, run)
    ensures Inv(window, Emptied(s, r), c, run)
  {
    var next := Emptied(s, r);
    assert next.sends == s.sends && next.proper == s.proper && Last(next, run) == Last(s, run);
    AbandonedTimers(s.batching, r);
    forall t ensures Delivers(window, next, c, run, t) { assert Delivers(window, s, c, run, t); }
  }

  lemma AbandonedTimers(s: B.State, r: RunId)
    ensures var next := B.Abandoned(s, r);
      && next.holder == s.holder && next.timerOf == s.timerOf - {r}
      && (forall t :: B.TimerAt(next, t).Sending? <==> B.TimerAt(s, t).Sending?)
      && forall t :: Spent(s, t) ==> Spent(next, t)
  {
  }

  lemma SendingKeepsInv(window: int, interval: int, s: System, step: Step, c: Client, run: RunId)
    requires window >= interval && !step.Batching? && Only(step, c, run)
    requires Inv(window, s, c, run) && T.Enabled(s.sends, Sending(step))
    ensures Inv(window, s.(sends := T.Next(interval, s.sends, Sending(step))), c, run)
  {
    var act := Sending(step);
    var next := s.(sends := T.Next(interval, s.sends, act));
    StepKeepsLists(interval, s.sends, act, c, run);
    SendingKeepsBelow(interval, s.sends, act, c, run, Last(s, run));
    SendingKeepsClock(interval, s.sends, act);
    forall t | TimerTask(t) in next.sends.tasks
      ensures B.TimerAt(s.batching, t).Sending?
    {
      SendingKeepsTasks(interval, s.sends, act, TimerTask(t));
    }
    forall t
      ensures Delivers(window, next, c, run, t)
    {
      if t in next.proper && TimerTask(t) in next.sends.tasks && next.sends.tasks[TimerTask(t)].run == run {
        SendingKeepsTasks(interval, s.sends, act, TimerTask(t));
        assert Delivers(window, s, c, run, t);
        SendingKeepsReaches(window, interval, s.sends, act, c, run, TimerTask(t));
      }
    }
  }

  // ---------------------------------------------------------------------------
  // Steps of the batching
  // ---------------------------------------------------------------------------

  /** Entries and the lock are what they were, and so is what the lock depends on. */
  ghost predicate SameTimers(s: B.State, next: B.State) {
    && next.timerOf == s.timerOf && next.holder == s.holder
    && (forall t :: B.TimerAt(next, t).Sending? <==> B.TimerAt(s, t).Sending?)
    && forall t :: Spent(s, t) ==> Spent(next, t)
  }

  lemma OtherStepsKeepTimers(s: B.State, step: B.Step)
    requires B.Enabled(s, step) && !step.Fire? && !step.Take? && !step.Broadcast? && !step.Disconnect?
      && !step.TimerSent?
    ensures SameTimers(s, B.Next(s, step))
  {
    if step.Choose? {
      ChoosingKeepsTimers(s, step.flush, B.FlushAt(s, step.flush).queue);
    } else if step.EndCancelled? {
      EndingKeepsTimers(s, step.timer);
    } else {
      assert B.Next(s, step).timers == s.timers;
    }
  }

  lemma EndingKeepsTimers(s: B.State, t: B.TimerId)
    requires B.TimerAt(s, t).Cancelled?
    ensures SameTimers(s, s.(timers := s.timers[t := B.Done]))
  {
  }

  lemma CancelKeepsTimers(s: B.State, t: B.TimerId)
    ensures SameTimers(s, B.Cancel(s, t))
  {
  }

  lemma ChoosingKeepsTimers(s: B.State, f: B.FlushId, queue: seq<RunId>)
    ensures SameTimers(s, B.Chosen(s, f, queue))
  {
    if queue != [] && B.Running(s, queue[0]) { CancelKeepsTimers(s, s.timerOf[queue[0]]); }
  }

  lemma SameSends(window: int, s: System, next: System, c: Client, run: RunId)
    requires Inv(window, s, c, run)
    requires next.sends == s.sends && next.lastBatch == s.lastBatch && next.proper == s.proper
    requires EntryIsNew(next, run) && Locked(next)
    ensures Inv(window, next, c, run)
  {
    forall t ensures Delivers(window, next, c, run, t) { assert Delivers(window, s, c, run, t); }
  }

  /** A new timer is live, and the run's own. */
  lemma AcceptedTimers(s: B.State, r: RunId, event: B.Event, t: B.TimerId)
    requires t !in s.timers
    ensures var next := B.Accept(s, r, event, t);
      && next.holder == s.holder && next.timerOf == (if B.Running(s, r) then s.timerOf else s.timerOf[r := t])
      && (forall u :: B.TimerAt(next, u).Sending? <==> B.TimerAt(s, u).Sending?)
      && forall u :: Spent(s, u) ==> Spent(next, u)
  {
  }

  lemma BroadcastKeepsInv(window: int, interval: int, s: System, step: B.Step, c: Client, run: RunId)
    requires Inv(window, s, c, run) && B.Enabled(s.batching, step) && step.Broadcast?
    ensures Inv(window, BatchingNext(interval, s, step), c, run)
  {
    var next := BatchingNext(interval, s, step);
    AcceptedTimers(s.batching, step.run, step.event, step.newTimer);
    assert Locked(next);
    SameSends(window, s, next, c, run);
  }

  lemma SentKeepsInv(window: int, interval: int, s: System, t: B.TimerId, c: Client, run: RunId)
    requires Inv(window, s, c, run) && B.Enabled(s.batching, B.TimerSent(t)) && TimerTask(t) !in s.sends.tasks
    ensures Inv(window, BatchingNext(interval, s, B.TimerSent(t)), c, run)
  {
    var next := BatchingNext(interval, s, B.TimerSent(t));
    forall u
      ensures !B.TimerAt(next.batching, u).Sending? && TimerTask(u) !in next.sends.tasks
    {
      if B.TimerAt(s.batching, u).Sending? { assert s.batching.holder == Some(t); }
    }
    SameSends(window, s, next, c, run);
  }

  /** No batch of a timer is being sent when another batch is taken. */
  lemma Unlocked(s: System, t: B.TimerId)
    requires Locked(s) && s.batching.holder == None
    ensures TimerTask(t) !in s.sends.tasks && !B.TimerAt(s.batching, t).Sending?
  {
  }

  lemma TakenKeepsBelow(interval: int, s: T.State, task: T.Task, r: RunId, c: Client, run: RunId, last: int)
    requires task !in s.tasks && Below(s, c, run, last) && last <= s.clock
    ensures Below(T.Next(interval, s, T.Begin(task, r)), c, run, if r == run then s.clock else last)
  {
  }

  lemma TakenReaches(window: int, interval: int, s: T.State, task: T.Task, c: Client, run: RunId, last: int)
    requires task !in s.tasks && run in s.connections && Below(s, c, run, last) && 0 <= last <= s.clock - window
    ensures Reaches(window, T.Next(interval, s, T.Begin(task, run)), c, run, task)
  {
  }

  /** The timers and the lock after a timer goes off. */
  lemma FiredTimers(s: B.State, t: B.TimerId, r: RunId)
    requires B.TimerAt(s, t) == B.Live(r) && B.Buffer(s, r) != []
    ensures var next := B.Fired(s, t, r);
      && next.holder == Some(t) && next.timerOf == s.timerOf - {r} && B.TimerAt(next, t).Sending? && Spent(next, t)
      && (forall u :: u != t ==> B.TimerAt(next, u) == B.TimerAt(s, u))
      && forall u :: Spent(s, u) ==> Spent(next, u)
  {
  }

  lemma TakenIsSettled(interval: int, s: System, next: System, task: T.Task, r: RunId, c: Client, run: RunId)
    requires Settled(s, c, run) && task !in s.sends.tasks
    requires next.sends == T.Next(interval, s.sends, T.Begin(task, r))
      && next.lastBatch == s.lastBatch[r := s.sends.clock]
    requires next.batching.timerOf == s.batching.timerOf - {r} && next.born == s.born
    ensures Settled(next, c, run)
  {
    BeginKeepsLists(interval, s.sends, task, r, c, run);
    TakenKeepsBelow(interval, s.sends, task, r, c, run, Last(s, run));
  }

  lemma FireKeepsInv(window: int, interval: int, s: System, t: B.TimerId, c: Client, run: RunId)
    requires Inv(window, s, c, run) && Enabled(window, s, Batching(B.Fire(t)))
    ensures Inv(window, BatchingNext(interval, s, B.Fire(t)), c, run)
  {
    var next, r := BatchingNext(interval, s, B.Fire(t)), B.TimerAt(s.batching, t).run;
    if B.Buffer(s.batching, r) == [] {
      IdleFireKeepsLocked(s, next, t, r);
      SameSends(window, s, next, c, run);
    } else {
      FiredTimers(s.batching, t, r);
      TakenIsSettled(interval, s, next, TimerTask(t), r, c, run);
      FireKeepsLocked(interval, s, next, t, r);
      forall u
        ensures Delivers(window, next, c, run, u)
      {
        FireDelivers(window, interval, s, next, t, r, c, run, u);
      }
    }
  }

  lemma IdleFireKeepsLocked(s: System, next: System, t: B.TimerId, r: RunId)
    requires Locked(s) && B.TimerAt(s.batching, t) == B.Live(r) && B.Buffer(s.batching, r) == []
    requires next == s.(batching := B.Fired(s.batching, t, r))
    ensures Locked(next)
  {
  }

  lemma FireKeepsLocked(interval: int, s: System, next: System, t: B.TimerId, r: RunId)
    requires Locked(s) && s.batching.holder == None && B.TimerAt(s.batching, t) == B.Live(r)
    requires B.Buffer(s.batching, r) != [] && next.batching == B.Fired(s.batching, t, r)
      && TimerTask(t) !in s.sends.tasks
    requires next.sends == T.Next(interval, s.sends, T.Begin(TimerTask(t), r)) && next.proper <= s.proper + {t}
    ensures Locked(next)
  {
    FiredTimers(s.batching, t, r);
    forall u: B.TimerId
      ensures u != t ==> !B.TimerAt(next.batching, u).Sending? && TimerTask(u) !in next.sends.tasks
    {
      Unlocked(s, u);
    }
  }

  lemma FireDelivers(
    window: int, interval: int, s: System, next: System, t: B.TimerId, r: RunId, c: Client, run: RunId, u: B.TimerId)
    requires Settled(s, c, run) && Locked(s) && s.batching.holder == None && B.TimerAt(s.batching, t) == B.Live(r)
    requires t in s.born && s.sends.clock >= s.born[t] + window && TimerTask(t) !in s.sends.tasks
    requires next.sends == T.Next(interval, s.sends, T.Begin(TimerTask(t), r))
    requires next.proper == if IsOwn(s.batching, r, t) then s.proper + {t} else s.proper
    ensures Delivers(window, next, c, run, u)
  {
    if u in next.proper && TimerTask(u) in next.sends.tasks && next.sends.tasks[TimerTask(u)].run == run {
      Unlocked(s, u);
      assert u == t && r == run && !Spent(s.batching, t) && t !in s.proper;
      TakenReaches(window, interval, s.sends, TimerTask(t), c, run, Last(s, run));
    }
  }

  lemma TookTimers(s: B.State, f: B.FlushId)
    requires B.FlushAt(s, f).Taking?
    ensures var next, r := B.Next(s, B.Take(f)), B.FlushAt(s, f).run;
      && next.timers == s.timers && next.holder == s.holder
      && next.timerOf == if B.Buffer(s, r) == [] then s.timerOf else s.timerOf - {r}
  {
  }

  lemma TakeKeepsInv(window: int, interval: int, s: System, f: B.FlushId, c: Client, run: RunId)
    requires Inv(window, s, c, run) && Enabled(window, s, Batching(B.Take(f)))
    ensures Inv(window, BatchingNext(interval, s, B.Take(f)), c, run)
  {
    var next, r := BatchingNext(interval, s, B.Take(f)), B.FlushAt(s.batching, f).run;
    TookTimers(s.batching, f);
    if B.Buffer(s.batching, r) == [] {
      assert next.sends == s.sends && next.born == s.born;
      SameTimersLocked(s, next);
      SameSends(window, s, next, c, run);
    } else {
      TakenIsSettled(interval, s, next, FlushTask(f), r, c, run);
      NoTimerTasks(interval, s, next, f, r);
      TakeKeepsLocked(s, next);
    }
  }

  lemma SameTimersLocked(s: System, next: System)
    requires Locked(s) && next.batching.timers == s.batching.timers && next.batching.holder == s.batching.holder
    requires next.proper == s.proper && next.sends == s.sends
    ensures Locked(next)
  {
    forall u: B.TimerId
      ensures B.TimerAt(next.batching, u) == B.TimerAt(s.batching, u)
      ensures Spent(s.batching, u) ==> Spent(next.batching, u)
    {
    }
  }

  lemma NoTimerTasks(interval: int, s: System, next: System, f: B.FlushId, r: RunId)
    requires Locked(s) && s.batching.holder == None && FlushTask(f) !in s.sends.tasks
    requires next.sends == T.Next(interval, s.sends, T.Begin(FlushTask(f), r))
    ensures forall u :: TimerTask(u) !in next.sends.tasks
  {
    forall u
      ensures TimerTask(u) !in next.sends.tasks
    {
      Unlocked(s, u);
      assert TimerTask(u) != FlushTask(f);
    }
  }

  lemma TakeKeepsLocked(s: System, next: System)
    requires Locked(s) && next.batching.timers == s.batching.timers && next.batching.holder == s.batching.holder
    requires next.proper == s.proper && forall u :: TimerTask(u) !in next.sends.tasks
    ensures Locked(next)
  {
    forall u: B.TimerId
      ensures B.TimerAt(next.batching, u) == B.TimerAt(s.batching, u)
      ensures Spent(s.batching, u) ==> Spent(next.batching, u)
    {
    }
  }

  lemma BatchingKeepsInv(window: int, interval: int, s: System, step: B.Step, c: Client, run: RunId)
    requires Inv(window, s, c, run) && Enabled(window, s, Batching(step))
    ensures Inv(window, BatchingNext(interval, s, step), c, run)
  {
    if step.Broadcast? {
      BroadcastKeepsInv(window, interval, s, step, c, run);
    } else if step.Fire? {
      FireKeepsInv(window, interval, s, step.timer, c, run);
    } else if step.Take? {
      TakeKeepsInv(window, interval, s, step.flush, c, run);
    } else if step.TimerSent? {
      SentKeepsInv(window, interval, s, step.timer, c, run);
    } else {
      OtherKeepsInv(window, interval, s, step, c, run);
    }
  }

  lemma OtherKeepsInv(window: int, interval: int, s: System, step: B.Step, c: Client, run: RunId)
    requires Inv(window, s, c, run) && B.Enabled(s.batching, step)
    requires !step.Fire? && !step.Take? && !step.Broadcast? && !step.Disconnect? && !step.TimerSent?
    ensures Inv(window, BatchingNext(interval, s, step), c, run)
  {
    OtherStepsKeepTimers(s.batching, step);
    SameSends(window, s, BatchingNext(interval, s, step), c, run);
  }

  lemma StepKeepsInv(window: int, interval: int, s: System, step: Step, c: Client, run: RunId)
    requires window >= interval && Inv(window, s, c, run) && Enabled(window, s, step) && Only(step, c, run)
    ensures Inv(window, Next(window, interval, s, step), c, run)
  {
    if step.Batching? {
      BatchingKeepsInv(window, interval, s, step.step, c, run);
    } else {
      SendingKeepsInv(window, interval, s, step, c, run);
      var sent := s.(sends := T.Next(interval, s.sends, Sending(step)));
      if step.Disconnect? { EmptiedKeeps(window, sent, step.run, c, run); }
      if step.Finish? { EmptiedKeeps(window, sent, s.sends.tasks[step.task].run, c, run); }
    }
  }

  lemma {:induction false} RunKeepsInv(window: int, interval: int, s: System, steps: seq<Step>, c: Client, run: RunId)
    requires window >= interval && Inv(window, s, c, run) && CanRun(window, interval, s, steps)
    requires forall k :: 0 <= k < |steps| ==> Only(steps[k], c, run)
    ensures Inv(window, After(window, interval, s, steps), c, run)
    decreases steps
  {
    if steps != [] {
      StepKeepsInv(window, interval, s, steps[0], c, run);
      assert forall k :: 0 <= k < |steps[1..]| ==> steps[1..][k] == steps[k + 1];
      RunKeepsInv(window, interval, Next(window, interval, s, steps[0]), steps[1..], c, run);
    }
  }

  /** The broadcast of a batch is over with its list, and a client on it was sent the batch. */
  ghost predicate WasSent(s: System, task: T.Task, c: Client) {
    task in s.sends.tasks ==> Has(s.sends.log, c, s.sends.tasks[task].now)
  }

  /** A batch that a timer takes while it is its run's own reaches every subscriber of that run
      alone, whatever timers that lost their run and flushes send meanwhile, if the window is no
      shorter than the interval: when its broadcast is over, the client has been sent to with
      the broadcast's stamp. */
  lemma OwnBatchesReachAll(window: int, interval: int, steps: seq<Step>, t: B.TimerId, c: Client, run: RunId)
    requires window >= interval && CanRun(window, interval, START, steps)
    requires forall k :: 0 <= k < |steps| ==> Only(steps[k], c, run)
    requires var s := After(window, interval, START, steps);
      t in s.proper && Ends(s, TimerTask(t), c, run)
    ensures WasSent(After(window, interval, START, steps), TimerTask(t), c)
  {
    assert Inv(window, START, c, run);
    RunKeepsInv(window, interval, START, steps, c, run);
    ReachedAtEnd(window, After(window, interval, START, steps), t, c, run);
  }

  /** The run's broadcast has come to the end of its list, and the client is on it. */
  ghost predicate Ends(s: System, task: T.Task, c: Client, run: RunId) {
    && T.Enabled(s.sends, T.Finish(task))
    && s.sends.tasks[task].run == run && c in T.Subscribers(s.sends, s.sends.tasks[task].list)
  }

  lemma ReachedAtEnd(window: int, s: System, t: B.TimerId, c: Client, run: RunId)
    requires Inv(window, s, c, run) && t in s.proper && Ends(s, TimerTask(t), c, run)
    ensures WasSent(s, TimerTask(t), c)
  {
    assert Delivers(window, s, c, run, t);
    var list := T.Subscribers(s.sends, s.sends.tasks[TimerTask(t)].list);
    var k :| 0 <= k < |list| && list[k] == c;
  }

  // ---------------------------------------------------------------------------
  // A timer that lost its run
  // ---------------------------------------------------------------------------

  /** The steps of a run with one client on run "a". */
  function Move(window: int, k: nat): Step {
    match k
    case 0 => Connect("a", 1)
    case 1 => Batching(B.Broadcast("a", "e1", 1))
    case 2 => Batching(B.StartFlush(0))
    case 3 => Batching(B.Snapshot(0, ["a"]))
    case 4 => Batching(B.Choose(0))
    case 5 => Batching(B.EndCancelled(1))
    case 6 => Batching(B.Broadcast("a", "e2", 2))
    case 7 => Tick(window)
    case 8 => Batching(B.Resume(0))
    case 9 => Batching(B.Take(0))
    case 10 => Visit(1, true)
    case 11 => Finish(1)
    case 12 => Batching(B.Broadcast("a", "e3", 3))
    case 13 => Tick(window + 1)
    case 14 => Batching(B.Fire(2))
    case _ => Visit(4, true)
  }

  const LIVE_A: B.Timer := B.Live("a")
  const FIRST: B.Settlement := B.Batch("a", ["e1", "e2"])
  const SECOND: B.Settlement := B.Batch("a", ["e3"])

  const ONE := B.State(map["a" := ["e1"]], map["a" := 1], map[1 := LIVE_A], map[], None, map["a" := ["e1"]], [])
  const STARTED := B.State(
    map["a" := ["e1"]], map["a" := 1], map[1 := LIVE_A], map[0 := B.Starting], None, map["a" := ["e1"]], [])
  const CHOOSING := B.State(
    map["a" := ["e1"]], map["a" := 1], map[1 := LIVE_A], map[0 := B.Choosing(["a"])], None, map["a" := ["e1"]], [])
  const WAITING := B.State(
    map["a" := ["e1"]], map["a" := 1], map[1 := B.Cancelled("a")], map[0 := B.Awaiting("a", 1, [])], None,
    map["a" := ["e1"]], [])
  const OVER := B.State(
    map["a" := ["e1"]], map["a" := 1], map[1 := B.Done], map[0 := B.Awaiting("a", 1, [])], None, map["a" := ["e1"]], [])
  const TWO := B.State(
    map["a" := ["e1", "e2"]], map["a" := 2], map[1 := B.Done, 2 := LIVE_A], map[0 := B.Awaiting("a", 1, [])], None,
    map["a" := ["e1", "e2"]], [])
  const TAKING := B.State(
    map["a" := ["e1", "e2"]], map["a" := 2], map[1 := B.Done, 2 := LIVE_A], map[0 := B.Taking("a", [])], None,
    map["a" := ["e1", "e2"]], [])
  const FLUSHED := B.State(
    map["a" := []], map[], map[1 := B.Done, 2 := LIVE_A], map[0 := B.SendingBatch("a", [])], None,
    map["a" := ["e1", "e2"]], [FIRST])
  const THREE := B.State(
    map["a" := ["e3"]], map["a" := 3], map[1 := B.Done, 2 := LIVE_A, 3 := LIVE_A],
    map[0 := B.SendingBatch("a", [])], None, map["a" := ["e1", "e2", "e3"]], [FIRST])
  const FIRED := B.State(
    map["a" := []], map[], map[1 := B.Done, 2 := B.Sending("a"), 3 := LIVE_A],
    map[0 := B.SendingBatch("a", [])], Some(2), map["a" := ["e1", "e2", "e3"]], [FIRST, SECOND])

  /** What they lead to: flush 0 cancels timer 1 and waits for it, timer 2 is made meanwhile, the
      flush takes all that is buffered and the entry of timer 2 with it; so timer 3 is made for the
      next event, and timer 2 takes it a tick after the flush. */
  function Batched(k: nat): B.State {
    if k < 2 then B.START else if k == 2 then ONE else if k == 3 then STARTED else if k == 4 then CHOOSING
    else if k == 5 then WAITING else if k == 6 then OVER else if k <= 8 then TWO else if k == 9 then TAKING
    else if k <= 12 then FLUSHED else if k <= 14 then THREE else FIRED
  }

  function Sends(window: int, k: nat): T.State {
    var begun := T.State(0, [[1]], map["a" := 0], map[], map[], []);
    var first, last := T.Broadcast("a", window, 0, 0, []), T.Broadcast("a", window + 1, 0, 0, []);
    var sent := T.State(window, [[1]], map["a" := 0], map[1 := window], map[], [T.Sent(1, window, window)]);
    if k == 0 then T.START
    else if k <= 7 then begun
    else if k <= 9 then begun.(clock := window)
    else if k == 10 then begun.(clock := window, tasks := map[1 := first])
    else if k == 11 then sent.(tasks := map[1 := first.(index := 1)])
    else if k <= 13 then sent
    else if k == 14 then sent.(clock := window + 1)
    else if k == 15 then sent.(clock := window + 1, tasks := map[4 := last])
    else sent.(clock := window + 1, tasks := map[4 := last.(index := 1)])
  }

  function Told(window: int, k: nat): System {
    System(
      Batched(k), Sends(window, k),
      if k < 2 then map[] else if k < 7 then map[1 := 0] else if k < 13 then map[1 := 0, 2 := 0]
      else map[1 := 0, 2 := 0, 3 := window],
      if k < 10 then map[] else if k < 15 then map["a" := window] else map["a" := window + 1],
      {})
  }

  ghost predicate Tells(window: int, interval: int, k: nat) {
    Enabled(window, Told(window, k), Move(window, k))
    && Next(window, interval, Told(window, k), Move(window, k)) == Told(window, k + 1)
  }

  lemma SnapsFirst()
    ensures B.Enabled(STARTED, B.Snapshot(0, ["a"])) && B.Next(STARTED, B.Snapshot(0, ["a"])) == CHOOSING
  {
  }

  lemma ChoosesFirst()
    ensures B.Enabled(CHOOSING, B.Choose(0)) && B.Next(CHOOSING, B.Choose(0)) == WAITING
  {
    assert ["a"][1..] == [];
  }

  lemma ResumesFirst()
    ensures B.Enabled(TWO, B.Resume(0)) && B.Next(TWO, B.Resume(0)) == TAKING
  {
  }

  lemma AcceptsSecond()
    ensures B.Enabled(OVER, B.Broadcast("a", "e2", 2)) && B.Accept(OVER, "a", "e2", 2) == TWO && !B.Running(OVER, "a")
  {
    assert ["e1"] + ["e2"] == ["e1", "e2"];
    AcceptsNew(OVER, "a", "e2", 2, ["e1", "e2"], ["e1", "e2"]);
  }

  lemma TakesFirst()
    ensures B.Enabled(TAKING, B.Take(0)) && B.Taken(TAKING, 0, "a", []) == FLUSHED
  {
    assert [] + [FIRST] == [FIRST];
  }

  lemma AcceptsThird()
    ensures B.Enabled(FLUSHED, B.Broadcast("a", "e3", 3)) && B.Accept(FLUSHED, "a", "e3", 3) == THREE
    ensures !B.Running(FLUSHED, "a")
  {
    assert [] + ["e3"] == ["e3"] && ["e1", "e2"] + ["e3"] == ["e1", "e2", "e3"];
    AcceptsNew(FLUSHED, "a", "e3", 3, ["e3"], ["e1", "e2", "e3"]);
  }

  lemma AcceptsNew(s: B.State, r: RunId, event: B.Event, t: B.TimerId, buffer: seq<B.Event>, accepted: seq<B.Event>)
    requires !B.Running(s, r) && B.Buffer(s, r) + [event] == buffer && B.Accepted(s, r) + [event] == accepted
    ensures B.Accept(s, r, event, t)
      == s.(buffers := s.buffers[r := buffer], accepted := s.accepted[r := accepted],
            timerOf := s.timerOf[r := t], timers := s.timers[t := B.Live(r)])
  {
  }

  lemma FiresSecond()
    ensures B.Enabled(THREE, B.Fire(2)) && B.Fired(THREE, 2, "a") == FIRED
    ensures B.TimerAt(THREE, 2) == LIVE_A && B.Buffer(THREE, "a") == ["e3"] && THREE.timerOf["a"] == 3
  {
    assert [FIRST] + [SECOND] == [FIRST, SECOND];
  }

  lemma BeginsFirst(window: int, interval: int)
    ensures T.Next(interval, Sends(window, 9), T.Begin(1, "a")) == Sends(window, 10)
  {
  }

  lemma TicksOnce(window: int, interval: int)
    ensures T.Enabled(Sends(window, 13), T.Tick(window + 1))
    ensures T.Next(interval, Sends(window, 13), T.Tick(window + 1)) == Sends(window, 14)
  {
  }

  lemma BeginsSecond(window: int, interval: int)
    ensures T.Next(interval, Sends(window, 14), T.Begin(4, "a")) == Sends(window, 15)
  {
  }

  lemma VisitsNobody(window: int, interval: int)
    requires interval >= 2
    ensures T.Enabled(Sends(window, 15), T.Visit(4, true))
    ensures T.Next(interval, Sends(window, 15), T.Visit(4, true)) == Sends(window, 16)
  {
  }

  lemma Tells0(window: int, interval: int)
    requires window >= interval >= 2
    ensures Tells(window, interval, 0)
  {
    assert [] + [[1]] == [[1]];
  }

  lemma Tells1(window: int, interval: int)
    requires window >= interval >= 2
    ensures Tells(window, interval, 1)
  {
    assert [] + ["e1"] == ["e1"];
  }

  lemma Tells2(window: int, interval: int)
    requires window >= interval >= 2
    ensures Tells(window, interval, 2)
  {
  }

  lemma Tells3(window: int, interval: int)
    requires window >= interval >= 2
    ensures Tells(window, interval, 3)
  {
    SnapsFirst();
  }

  lemma Tells4(window: int, interval: int)
    requires window >= interval >= 2
    ensures Tells(window, interval, 4)
  {
    ChoosesFirst();
  }

  lemma Tells5(window: int, interval: int)
    requires window >= interval >= 2
    ensures Tells(window, interval, 5)
  {
  }

  lemma Tells6(window: int, interval: int)
    requires window >= interval >= 2
    ensures Tells(window, interval, 6)
  {
    AcceptsSecond();
  }

  lemma Tells7(window: int, interval: int)
    requires window >= interval >= 2
    ensures Tells(window, interval, 7)
  {
  }

  lemma Tells8(window: int, interval: int)
    requires window >= interval >= 2
    ensures Tells(window, interval, 8)
  {
    ResumesFirst();
  }

  lemma Tells9(window: int, interval: int)
    requires window >= interval >= 2
    ensures Tells(window, interval, 9)
  {
    TakesFirst();
    BeginsFirst(window, interval);
  }

  lemma Tells10(window: int, interval: int)
    requires window >= interval >= 2
    ensures Tells(window, interval, 10)
  {
    assert [] + [T.Sent(1, window, window)] == [T.Sent(1, window, window)];
  }

  lemma Tells11(window: int, interval: int)
    requires window >= interval >= 2
    ensures Tells(window, interval, 11)
  {
  }

  lemma Tells12(window: int, interval: int)
    requires window >= interval >= 2
    ensures Tells(window, interval, 12)
  {
    AcceptsThird();
  }

  lemma Tells13(window: int, interval: int)
    requires window >= interval >= 2
    ensures Tells(window, interval, 13)
  {
    TicksOnce(window, interval);
  }

  lemma Tells14(window: int, interval: int)
    requires window >= interval >= 2
    ensures Tells(window, interval, 14)
  {
    FiresSecond();
    BeginsSecond(window, interval);
  }

  lemma Tells15(window: int, interval: int)
    requires window >= interval >= 2
    ensures Tells(window, interval, 15)
  {
    VisitsNobody(window, interval);
  }

  lemma TellsOn(window: int, interval: int, k: nat)
    requires window >= interval >= 2 && k < 16
    ensures Tells(window, interval, k)
  {
    match k
    case 0 => Tells0(window, interval);
    case 1 => Tells1(window, interval);
    case 2 => Tells2(window, interval);
    case 3 => Tells3(window, interval);
    case 4 => Tells4(window, interval);
    case 5 => Tells5(window, interval);
    case 6 => Tells6(window, interval);
    case 7 => Tells7(window, interval);
    case 8 => Tells8(window, interval);
    case 9 => Tells9(window, interval);
    case 10 => Tells10(window, interval);
    case 11 => Tells11(window, interval);
    case 12 => Tells12(window, interval);
    case 13 => Tells13(window, interval);
    case 14 => Tells14(window, interval);
    case _ => Tells15(window, interval);
  }

  lemma {:induction false} Story(window: int, interval: int, from: nat) returns (steps: seq<Step>)
    requires window >= interval >= 2 && from <= 16
    ensures CanRun(window, interval, Told(window, from), steps)
    ensures After(window, interval, Told(window, from), steps) == Told(window, 16)
    ensures forall k :: 0 <= k < |steps| ==> Only(steps[k], 1, "a")
    decreases 16 - from
  {
    steps := [];
    if from < 16 {
      TellsOn(window, interval, from);
      var rest := Story(window, interval, from + 1);
      steps := [Move(window, from)] + rest;
      assert steps[0] == Move(window, from) && steps[1..] == rest;
      OnlyRunA(window, from);
    }
  }

  lemma OnlyRunA(window: int, k: nat)
    ensures Only(Move(window, k), 1, "a")
  {
  }

  /** The batch of a timer that lost its run can be dropped whole: its broadcast is over, its
      events have left the buffer, and the run's only client was not sent to. */
  lemma OrphanedBatchIsLost(window: int, interval: int) returns (steps: seq<Step>)
    requires window >= interval >= 2
    ensures CanRun(window, interval, START, steps) && forall k :: 0 <= k < |steps| ==> Only(steps[k], 1, "a")
    ensures var s := After(window, interval, START, steps);
      && s.batching.settled == [B.Batch("a", ["e1", "e2"]), B.Batch("a", ["e3"])] && 2 !in s.proper
      && Ends(s, TimerTask(2), 1, "a") && !WasSent(s, TimerTask(2), 1)
  {
    steps := Story(window, interval, 0);
    assert Told(window, 0) == START;
    assert T.Subscribers(Sends(window, 16), 0) == [1] && 1 in [1];
  }
}
