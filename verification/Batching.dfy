/** Batched broadcasts: buffers, timers, flushes and disconnects, in every interleaving.

    Modelled on src/orchestrator/api/websocket.py, `BatchingConnectionManager`.  A step is
    what happens between two awaits.  The only await under the buffer lock is the send at
    the end of a timer's flush, so nobody else's section under the lock is ever seen half
    done.  */
module Batching {
  import opened Common

  type RunId = string
  type Event = string
  type TimerId = nat
  type FlushId = nat

  datatype Timer = Live(run: RunId) | Cancelled(run: RunId) | Sending(run: RunId) | Done

  /** Where a `flush_all` is: `Awaiting` a timer it cancelled, `Taking` a run's events when
      it gets the lock, and so on. */
  datatype Flush =
    | Starting
    | Choosing(queue: seq<RunId>)
    | Awaiting(run: RunId, timer: TimerId, queue: seq<RunId>)
    | Taking(run: RunId, queue: seq<RunId>)
    | SendingBatch(run: RunId, queue: seq<RunId>)
    | Over

  /** What became of accepted events. */
  datatype Settlement = Batch(run: RunId, events: seq<Event>) | Discarded(run: RunId, events: seq<Event>)

  datatype State = State(
    buffers: map<RunId, seq<Event>>,
    timerOf: map<RunId, TimerId>,
    timers: map<TimerId, Timer>,
    flushes: map<FlushId, Flush>,
    holder: Option<TimerId>,
    accepted: map<RunId, seq<Event>>,
    settled: seq<Settlement>)

  datatype Step =
    | Broadcast(run: RunId, event: Event, newTimer: TimerId)
    | Fire(timer: TimerId)
    | TimerSent(timer: TimerId)
    | EndCancelled(timer: TimerId)
    | StartFlush(flush: FlushId)
    | Snapshot(flush: FlushId, order: seq<RunId>)
    | Choose(flush: FlushId)
    | Resume(flush: FlushId)
    | Take(flush: FlushId)
    | FlushSent(flush: FlushId)
    | Disconnect(run: RunId, last: bool)

  function Buffer(s: State, run: RunId): seq<Event> {
    if run in s.buffers then s.buffers[run] else []
  }

  function TimerAt(s: State, t: TimerId): Timer {
    if t in s.timers then s.timers[t] else Done
  }

  function FlushAt(s: State, f: FlushId): Flush {
    if f in s.flushes then s.flushes[f] else Over
  }

  predicate Running(s: State, run: RunId) {
    run in s.timerOf && TimerAt(s, s.timerOf[run]) != Done
  }

  ghost predicate Enabled(s: State, step: Step) {
    match step
    case Broadcast(run, event, newTimer) => s.holder == None && newTimer !in s.timers
    case Fire(t) => s.holder == None && TimerAt(s, t).Live?
    case TimerSent(t) => TimerAt(s, t).Sending?
    case EndCancelled(t) => TimerAt(s, t).Cancelled?
    case StartFlush(f) => f !in s.flushes
    case Snapshot(f, order) =>
      && s.holder == None && FlushAt(s, f).Starting?
      && (forall r :: r in order <==> r in s.buffers) && (forall i, j :: 0 <= i < j < |order| ==> order[i] != order[j])
    case Choose(f) => FlushAt(s, f).Choosing?
    case Resume(f) => FlushAt(s, f).Awaiting? && TimerAt(s, FlushAt(s, f).timer) == Done
    case Take(f) => s.holder == None && FlushAt(s, f).Taking?
    case FlushSent(f) => FlushAt(s, f).SendingBatch?
    case Disconnect(_, _) => true
  }

  // ---------------------------------------------------------------------------
  // Steps
  // ---------------------------------------------------------------------------

  function Accept(s: State, run: RunId, event: Event, newTimer: TimerId): State {
    var buffered := s.(
      buffers := s.buffers[run := Buffer(s, run) + [event]],
      accepted := s.accepted[run := Accepted(s, run) + [event]]);
    if Running(s, run) then buffered
    else buffered.(timerOf := s.timerOf[run := newTimer], timers := s.timers[newTimer := Live(run)])
  }

  function Accepted(s: State, run: RunId): seq<Event> {
    if run in s.accepted then s.accepted[run] else []
  }

  /** All of a run's events leave the buffer as one batch, and the run's timer entry goes,
      whoever's it is. */
  function TakeBatch(s: State, run: RunId): State {
    s.(buffers := s.buffers[run := []],
       timerOf := s.timerOf - {run},
       settled := s.settled + [Batch(run, Buffer(s, run))])
  }

  function Fired(s: State, t: TimerId, run: RunId): State {
    if Buffer(s, run) == [] then s.(timers := s.timers[t := Done])
    else TakeBatch(s, run).(timers := s.timers[t := Sending(run)], holder := Some(t))
  }

  /** Cancelling marks a timer that has not gone off; it ends when it next runs. */
  function Cancel(s: State, t: TimerId): State {
    if TimerAt(s, t).Live? then s.(timers := s.timers[t := Cancelled(TimerAt(s, t).run)]) else s
  }

  function Proceed(s: State, f: FlushId, phase: Flush): State {
    s.(flushes := s.flushes[f := phase])
  }

  function Chosen(s: State, f: FlushId, queue: seq<RunId>): State {
    if queue == [] then Proceed(s, f, Over)
    else
      var run := queue[0];
      if Running(s, run) then Proceed(Cancel(s, s.timerOf[run]), f, Awaiting(run, s.timerOf[run], queue[1..]))
      else Proceed(s, f, Taking(run, queue[1..]))
  }

  function Taken(s: State, f: FlushId, run: RunId, queue: seq<RunId>): State {
    if Buffer(s, run) == [] then Proceed(s, f, Choosing(queue))
    else Proceed(TakeBatch(s, run), f, SendingBatch(run, queue))
  }

  /** When nobody is left on a run, its timer is cancelled and its events are dropped. */
  function Abandoned(s: State, run: RunId): State {
    var cancelled := if run in s.timerOf then Cancel(s, s.timerOf[run]) else s;
    cancelled.(
      timerOf := s.timerOf - {run},
      buffers := s.buffers - {run},
      settled := if run in s.buffers then s.settled + [Discarded(run, s.buffers[run])] else s.settled)
  }

  function Next(s: State, step: Step): State {
    match step
    case Broadcast(run, event, newTimer) => Accept(s, run, event, newTimer)
    case Fire(t) => if TimerAt(s, t).Live? then Fired(s, t, TimerAt(s, t).run) else s
    case TimerSent(t) => s.(timers := s.timers[t := Done], holder := None)
    case EndCancelled(t) => s.(timers := s.timers[t := Done])
    case StartFlush(f) => Proceed(s, f, Starting)
    case Snapshot(f, order) => Proceed(s, f, Choosing(order))
    case Choose(f) => if FlushAt(s, f).Choosing? then Chosen(s, f, FlushAt(s, f).queue) else s
    case Resume(f) => if FlushAt(s, f).Awaiting? then Proceed(s, f, Taking(FlushAt(s, f).run, FlushAt(s, f).queue))
      else s
    case Take(f) => if FlushAt(s, f).Taking? then Taken(s, f, FlushAt(s, f).run, FlushAt(s, f).queue) else s
    case FlushSent(f) => if FlushAt(s, f).SendingBatch? then Proceed(s, f, Choosing(FlushAt(s, f).queue)) else s
    case Disconnect(run, last) => if last then Abandoned(s, run) else s
  }

  ghost predicate CanRun(s: State, steps: seq<Step>)
    decreases steps
  {
    steps == [] || (Enabled(s, steps[0]) && CanRun(Next(s, steps[0]), steps[1..]))
  }

  function After(s: State, steps: seq<Step>): State
    decreases steps
  {
    if steps == [] then s else After(Next(s, steps[0]), steps[1..])
  }

  const START := State(map[], map[], map[], map[], None, map[], [])

  // ---------------------------------------------------------------------------
  // Every accepted event is settled once or still buffered
  // ---------------------------------------------------------------------------

  function SettledFor(settled: seq<Settlement>, run: RunId): seq<Event> {
    if settled == [] then []
    else
      var last := settled[|settled| - 1];
      SettledFor(settled[..|settled| - 1], run) + (if last.run == run then last.events else [])
  }

  predicate Conserved(s: State, run: RunId) {
    Accepted(s, run) == SettledFor(s.settled, run) + Buffer(s, run)
  }

  lemma SettledOneMore(settled: seq<Settlement>, last: Settlement, run: RunId)
    ensures SettledFor(settled + [last], run)
      == SettledFor(settled, run) + (if last.run == run then last.events else [])
  {
    assert (settled + [last])[..|settled|] == settled;
  }

  lemma AcceptConserves(s: State, to: RunId, event: Event, newTimer: TimerId, run: RunId)
    requires Conserved(s, run)
    ensures Conserved(Accept(s, to, event, newTimer), run)
  {
    Associate(SettledFor(s.settled, run), Buffer(s, run), [event]);
  }

  lemma TakeConserves(s: State, from: RunId, run: RunId)
    requires Conserved(s, run)
    ensures Conserved(TakeBatch(s, from), run)
  {
    var next, last := TakeBatch(s, from), Batch(from, Buffer(s, from));
    SettledOneMore(s.settled, last, run);
    assert Accepted(next, run) == Accepted(s, run);
    assert SettledFor(next.settled, run) == SettledFor(s.settled, run) + (if from == run then Buffer(s, run) else []);
    assert SettledFor(s.settled, run) + Buffer(s, run) + [] == SettledFor(s.settled, run) + Buffer(s, run);
    assert SettledFor(s.settled, run) + [] == SettledFor(s.settled, run);
  }

  lemma AbandonConserves(s: State, from: RunId, run: RunId)
    requires Conserved(s, run)
    ensures Conserved(Abandoned(s, from), run)
  {
    var next := Abandoned(s, from);
    assert Accepted(next, run) == Accepted(s, run);
    if from in s.buffers {
      SettledOneMore(s.settled, Discarded(from, s.buffers[from]), run);
      assert SettledFor(s.settled, run) + Buffer(s, run) + [] == SettledFor(s.settled, run) + Buffer(s, run);
      assert SettledFor(s.settled, run) + [] == SettledFor(s.settled, run);
    }
  }

  lemma Untouched(s: State, t: State, run: RunId)
    requires Conserved(s, run) && t.settled == s.settled && t.buffers == s.buffers && t.accepted == s.accepted
    ensures Conserved(t, run)
  {
  }

  lemma FiredConserves(s: State, t: TimerId, from: RunId, run: RunId)
    requires Conserved(s, run)
    ensures Conserved(Fired(s, t, from), run)
  {
    TakeConserves(s, from, run);
    Untouched(if Buffer(s, from) == [] then s else TakeBatch(s, from), Fired(s, t, from), run);
  }

  lemma TakenConserves(s: State, f: FlushId, from: RunId, queue: seq<RunId>, run: RunId)
    requires Conserved(s, run)
    ensures Conserved(Taken(s, f, from, queue), run)
  {
    TakeConserves(s, from, run);
    Untouched(if Buffer(s, from) == [] then s else TakeBatch(s, from), Taken(s, f, from, queue), run);
  }

  lemma ChosenConserves(s: State, f: FlushId, queue: seq<RunId>, run: RunId)
    requires Conserved(s, run)
    ensures Conserved(Chosen(s, f, queue), run)
  {
    Untouched(s, Chosen(s, f, queue), run);
  }

  lemma StepConserves(s: State, step: Step, run: RunId)
    requires Conserved(s, run) && Enabled(s, step)
    ensures Conserved(Next(s, step), run)
  {
    match step
    case Broadcast(to, event, newTimer) => AcceptConserves(s, to, event, newTimer, run);
    case Fire(t) => FiredConserves(s, t, TimerAt(s, t).run, run);
    case Take(f) => TakenConserves(s, f, FlushAt(s, f).run, FlushAt(s, f).queue, run);
    case Disconnect(from, last) => AbandonConserves(s, from, run);
    case Choose(f) => ChosenConserves(s, f, FlushAt(s, f).queue, run);
    case _ => Untouched(s, Next(s, step), run);
  }

  /** In every interleaving, a run's accepted events are, in order and each once, those in
      its batches and discards so far and then those in its buffer. */
  lemma {:induction false} EventsAreConserved(s: State, steps: seq<Step>, run: RunId)
    requires Conserved(s, run) && CanRun(s, steps)
    ensures Conserved(After(s, steps), run)
    decreases steps
  {
    if steps != [] {
      StepConserves(s, steps[0], run);
      EventsAreConserved(Next(s, steps[0]), steps[1..], run);
    }
  }

  // ---------------------------------------------------------------------------
  // A buffer that is not empty will be taken
  // ---------------------------------------------------------------------------

  /** This flush has the run next. */
  predicate Pending(flush: Flush, run: RunId) {
    (flush.Awaiting? || flush.Taking?) && flush.run == run
  }

  ghost predicate Guarded(s: State, run: RunId) {
    || (exists t :: TimerAt(s, t) == Live(run))
    || (exists f :: Pending(FlushAt(s, f), run))
  }

  /** This flush waits for that timer. */
  predicate Waits(s: State, f: FlushId, run: RunId, t: TimerId) {
    FlushAt(s, f).Awaiting? && FlushAt(s, f).run == run && FlushAt(s, f).timer == t
  }

  /** The timer of a run's entry is live or over, or cancelled by a flush that waits for it. */
  ghost predicate EntryIsSound(s: State, run: RunId) {
    run in s.timerOf ==>
      var t := s.timerOf[run];
      t in s.timers
      && (s.timers[t] == Live(run) || s.timers[t] == Done
          || (s.timers[t] == Cancelled(run) && exists f :: Waits(s, f, run, t)))
  }

  predicate Ended(s: State, t: TimerId) {
    t in s.timers && (s.timers[t].Cancelled? || s.timers[t].Done?)
  }

  predicate FlushIsSound(s: State, f: FlushId) {
    FlushAt(s, f).Awaiting? ==> Ended(s, FlushAt(s, f).timer)
  }

  ghost predicate Inv(s: State) {
    && (forall run :: Buffer(s, run) != [] ==> Guarded(s, run))
    && (forall run :: EntryIsSound(s, run))
    && (forall f :: FlushIsSound(s, f))
    && (s.holder.Some? ==> TimerAt(s, s.holder.value).Sending?)
  }

  /** A step that leaves the entry's timer alone, or ends it, and the flushes that wait. */
  lemma EntryStays(s: State, next: State, run: RunId)
    requires EntryIsSound(s, run)
    requires run in next.timerOf ==> run in s.timerOf && next.timerOf[run] == s.timerOf[run]
    requires run in next.timerOf ==>
      var t := next.timerOf[run];
      && t in next.timers && (TimerAt(next, t) == TimerAt(s, t) || TimerAt(next, t) == Done)
      && (TimerAt(next, t) != Done ==> forall f :: Waits(s, f, run, t) ==> FlushAt(next, f) == FlushAt(s, f))
    ensures EntryIsSound(next, run)
  {
    if run in next.timerOf && TimerAt(next, next.timerOf[run]) == Cancelled(run) {
      var f :| Waits(s, f, run, s.timerOf[run]);
      assert Waits(next, f, run, s.timerOf[run]);
    }
  }

  lemma ChooseKeepsEntry(s: State, f: FlushId, run: RunId)
    requires Inv(s) && FlushAt(s, f).Choosing?
    ensures EntryIsSound(Chosen(s, f, FlushAt(s, f).queue), run)
  {
    var queue := FlushAt(s, f).queue;
    var next := Chosen(s, f, queue);
    assert EntryIsSound(s, run);
    if queue != [] {
      assert EntryIsSound(s, queue[0]);
      if queue[0] == run && Running(s, run) {
        assert Waits(next, f, run, s.timerOf[run]);
      } else {
        EntryStays(s, next, run);
      }
    } else {
      EntryStays(s, next, run);
    }
  }

  lemma DisconnectKeepsEntry(s: State, from: RunId, run: RunId)
    requires Inv(s)
    ensures EntryIsSound(Abandoned(s, from), run)
  {
    assert EntryIsSound(s, run) && EntryIsSound(s, from);
    EntryStays(s, Abandoned(s, from), run);
  }

  lemma StepKeepsEntries(s: State, step: Step, run: RunId)
    requires Inv(s) && Enabled(s, step)
    ensures EntryIsSound(Next(s, step), run)
  {
    assert EntryIsSound(s, run);
    match step
    case Choose(f) => ChooseKeepsEntry(s, f, run);
    case Disconnect(from, last) => if last { DisconnectKeepsEntry(s, from, run); }
    case Fire(t) => FireKeepsEntry(s, t, run);
    case Broadcast(to, event, newTimer) => BroadcastKeepsEntry(s, to, event, newTimer, run);
    case _ => EntryStays(s, Next(s, step), run);
  }

  lemma FireKeepsEntry(s: State, t: TimerId, run: RunId)
    requires Inv(s) && TimerAt(s, t).Live?
    ensures EntryIsSound(Fired(s, t, TimerAt(s, t).run), run)
  {
    assert EntryIsSound(s, run);
    EntryStays(s, Fired(s, t, TimerAt(s, t).run), run);
  }

  lemma BroadcastKeepsEntry(s: State, to: RunId, event: Event, newTimer: TimerId, run: RunId)
    requires Inv(s) && newTimer !in s.timers
    ensures EntryIsSound(Accept(s, to, event, newTimer), run)
  {
    assert EntryIsSound(s, run);
    if to == run && !Running(s, run) {
    } else {
      EntryStays(s, Accept(s, to, event, newTimer), run);
    }
  }

  lemma CancelKeepsEnded(s: State, u: TimerId, t: TimerId)
    requires Ended(s, t)
    ensures Ended(Cancel(s, u), t)
  {
  }

  lemma ChosenKeepsEnded(s: State, f: FlushId, queue: seq<RunId>, t: TimerId)
    requires Ended(s, t)
    ensures Ended(Chosen(s, f, queue), t)
  {
    if queue != [] && Running(s, queue[0]) { CancelKeepsEnded(s, s.timerOf[queue[0]], t); }
  }

  lemma AbandonedKeepsEnded(s: State, run: RunId, t: TimerId)
    requires Ended(s, t)
    ensures Ended(Abandoned(s, run), t)
  {
    if run in s.timerOf { CancelKeepsEnded(s, s.timerOf[run], t); }
  }

  /** A timer that was cancelled or is over stays so. */
  lemma EndedStays(s: State, step: Step, t: TimerId)
    requires Enabled(s, step) && Ended(s, t)
    ensures Ended(Next(s, step), t)
  {
    match step
    case Choose(f) => ChosenKeepsEnded(s, f, FlushAt(s, f).queue, t);
    case Disconnect(run, _) => AbandonedKeepsEnded(s, run, t);
    case _ =>
  }

  lemma StepKeepsFlushes(s: State, step: Step, f: FlushId)
    requires Inv(s) && Enabled(s, step)
    ensures FlushIsSound(Next(s, step), f)
  {
    assert FlushIsSound(s, f);
    if step.Choose? && step.flush == f {
      ChosenIsSound(s, f);
    } else if FlushAt(Next(s, step), f).Awaiting? {
      assert FlushAt(Next(s, step), f) == FlushAt(s, f);
      EndedStays(s, step, FlushAt(s, f).timer);
    }
  }

  lemma ChosenIsSound(s: State, f: FlushId)
    requires Inv(s) && FlushAt(s, f).Choosing?
    ensures FlushIsSound(Chosen(s, f, FlushAt(s, f).queue), f)
  {
    if FlushAt(s, f).queue != [] { assert EntryIsSound(s, FlushAt(s, f).queue[0]); }
  }

  /** What was in a run's buffer is still there, unless all of it was taken or dropped. */
  lemma OnlyBroadcastsFill(s: State, step: Step, run: RunId)
    requires Buffer(Next(s, step), run) != [] && !(step.Broadcast? && step.run == run)
    ensures Buffer(s, run) == Buffer(Next(s, step), run)
  {
  }

  lemma LiveTimerStays(s: State, step: Step, run: RunId, t: TimerId)
    requires Inv(s) && Enabled(s, step) && Buffer(Next(s, step), run) != [] && Buffer(s, run) != []
    requires TimerAt(s, t) == Live(run)
    ensures Guarded(Next(s, step), run)
  {
    var next := Next(s, step);
    if step.Disconnect? { assert EntryIsSound(s, step.run); }
    if TimerAt(next, t) != Live(run) {
      var first := FlushAt(s, step.flush).queue[0];
      assert EntryIsSound(s, first);
      assert Pending(FlushAt(next, step.flush), run);
    }
  }

  lemma PendingFlushStays(s: State, step: Step, run: RunId, f: FlushId)
    requires Enabled(s, step) && Buffer(Next(s, step), run) != [] && Buffer(s, run) != []
    requires Pending(FlushAt(s, f), run)
    ensures Pending(FlushAt(Next(s, step), f), run)
  {
  }

  lemma StepKeepsGuards(s: State, step: Step, run: RunId)
    requires Inv(s) && Enabled(s, step) && Buffer(Next(s, step), run) != []
    ensures Guarded(Next(s, step), run)
  {
    if step.Broadcast? && step.run == run {
      assert EntryIsSound(s, run);
      BroadcastGuards(s, run, step.event, step.newTimer);
    } else {
      OnlyBroadcastsFill(s, step, run);
      assert Guarded(s, run);
      if t :| TimerAt(s, t) == Live(run) {
        LiveTimerStays(s, step, run, t);
      } else {
        var f :| Pending(FlushAt(s, f), run);
        PendingFlushStays(s, step, run, f);
      }
    }
  }

  lemma BroadcastGuards(s: State, run: RunId, event: Event, newTimer: TimerId)
    requires EntryIsSound(s, run) && newTimer !in s.timers
    ensures Guarded(Accept(s, run, event, newTimer), run)
  {
    var next := Accept(s, run, event, newTimer);
    if !Running(s, run) {
      assert TimerAt(next, newTimer) == Live(run);
    } else if TimerAt(s, s.timerOf[run]) == Live(run) {
      assert TimerAt(next, s.timerOf[run]) == Live(run);
    } else {
      var f :| Waits(s, f, run, s.timerOf[run]);
      assert Pending(FlushAt(next, f), run);
    }
  }

  lemma StepKeepsInv(s: State, step: Step)
    requires Inv(s) && Enabled(s, step)
    ensures Inv(Next(s, step))
  {
    var next := Next(s, step);
    forall run | Buffer(next, run) != [] ensures Guarded(next, run) { StepKeepsGuards(s, step, run); }
    forall run ensures EntryIsSound(next, run) { StepKeepsEntries(s, step, run); }
    forall f ensures FlushIsSound(next, f) { StepKeepsFlushes(s, step, f); }
    StepKeepsHolder(s, step);
  }

  lemma StepKeepsHolder(s: State, step: Step)
    requires Inv(s) && Enabled(s, step)
    ensures Next(s, step).holder.Some? ==> TimerAt(Next(s, step), Next(s, step).holder.value).Sending?
  {
    if step.Choose? {
      var queue := FlushAt(s, step.flush).queue;
      if queue != [] && Running(s, queue[0]) { CancelKeepsHolder(s, s.timerOf[queue[0]]); }
    } else if step.Disconnect? {
      if step.run in s.timerOf { CancelKeepsHolder(s, s.timerOf[step.run]); }
    }
  }

  lemma CancelKeepsHolder(s: State, t: TimerId)
    requires s.holder.Some? ==> TimerAt(s, s.holder.value).Sending?
    ensures Cancel(s, t).holder == s.holder && (s.holder.Some? ==> TimerAt(Cancel(s, t), s.holder.value).Sending?)
  {
  }

  /** In every interleaving, a run whose buffer is not empty has a live timer or a flush
      that takes it next, even when its timer's entry was lost to another flush. */
  lemma {:induction false} BuffersAreGuarded(s: State, steps: seq<Step>, run: RunId)
    requires Inv(s) && CanRun(s, steps)
    ensures Inv(After(s, steps))
    ensures Buffer(After(s, steps), run) != [] ==> Guarded(After(s, steps), run)
    decreases steps
  {
    if steps != [] {
      StepKeepsInv(s, steps[0]);
      BuffersAreGuarded(Next(s, steps[0]), steps[1..], run);
    }
  }

  lemma StartIsSound(run: RunId)
    ensures Inv(START) && Conserved(START, run)
  {
  }

  // ---------------------------------------------------------------------------
  // And it can be taken
  // ---------------------------------------------------------------------------

  /** From here, these steps put all that is buffered for the run into one batch. */
  ghost predicate Delivers(s: State, steps: seq<Step>, run: RunId) {
    CanRun(s, steps) && After(s, steps).settled == s.settled + [Batch(run, Buffer(s, run))]
  }

  lemma DeliversLater(s: State, step: Step, rest: seq<Step>, run: RunId)
    requires Enabled(s, step) && Delivers(Next(s, step), rest, run)
    requires Next(s, step).settled == s.settled && Buffer(Next(s, step), run) == Buffer(s, run)
    ensures Delivers(s, [step] + rest, run)
  {
    assert ([step] + rest)[1..] == rest;
  }

  lemma DeliversNow(s: State, step: Step, run: RunId)
    requires Enabled(s, step) && Next(s, step).settled == s.settled + [Batch(run, Buffer(s, run))]
    ensures Delivers(s, [step], run)
  {
    assert [step][1..] == [];
  }

  lemma UnlockedDelivers(s: State, run: RunId) returns (steps: seq<Step>)
    requires Inv(s) && s.holder == None && Buffer(s, run) != []
    ensures Delivers(s, steps, run)
  {
    assert Guarded(s, run);
    if t :| TimerAt(s, t) == Live(run) {
      steps := [Fire(t)];
      DeliversNow(s, Fire(t), run);
    } else {
      var f :| Pending(FlushAt(s, f), run);
      assert FlushIsSound(s, f);
      steps := FlushDelivers(s, run, f);
    }
  }

  lemma FlushDelivers(s: State, run: RunId, f: FlushId) returns (steps: seq<Step>)
    requires s.holder == None && Buffer(s, run) != [] && Pending(FlushAt(s, f), run) && FlushIsSound(s, f)
    ensures Delivers(s, steps, run)
    decreases FlushAt(s, f).Awaiting? && TimerAt(s, FlushAt(s, f).timer).Cancelled?
  {
    if FlushAt(s, f).Taking? {
      steps := [Take(f)];
      DeliversNow(s, Take(f), run);
      return;
    }
    var t := FlushAt(s, f).timer;
    if s.timers[t].Done? {
      DeliversNow(Next(s, Resume(f)), Take(f), run);
      DeliversLater(s, Resume(f), [Take(f)], run);
      steps := [Resume(f)] + [Take(f)];
    } else {
      var ended := Next(s, EndCancelled(t));
      var rest := FlushDelivers(ended, run, f);
      DeliversLater(s, EndCancelled(t), rest, run);
      steps := [EndCancelled(t)] + rest;
    }
  }

  /** No event is ever stuck: from every reachable state, what is buffered for a run can
      still go out as one batch without any further event arriving. */
  lemma NothingIsStuck(past: seq<Step>, run: RunId) returns (steps: seq<Step>)
    requires CanRun(START, past) && Buffer(After(START, past), run) != []
    ensures Delivers(After(START, past), steps, run)
  {
    var s := After(START, past);
    StartIsSound(run);
    BuffersAreGuarded(START, past, run);
    if s.holder.Some? {
      var sent := TimerSent(s.holder.value);
      StepKeepsInv(s, sent);
      var rest := UnlockedDelivers(Next(s, sent), run);
      DeliversLater(s, sent, rest, run);
      steps := [sent] + rest;
    } else {
      steps := UnlockedDelivers(s, run);
    }
  }
}
