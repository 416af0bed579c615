/** What becomes of accepted events, in every interleaving: only a disconnect that leaves
    nobody on a run drops any, and a `flush_all` that is over has left none behind.

    Modelled on src/orchestrator/api/websocket.py, `BatchingConnectionManager`.  */
module BatchOutcomes {
  import opened Batching
  import opened Common

  // ---------------------------------------------------------------------------
  // Discards
  // ---------------------------------------------------------------------------

  /** A step settles at most once, and discards only if it is a last disconnect. */
  lemma StepSettles(s: State, step: Step)
    ensures s.settled <= Next(s, step).settled && |Next(s, step).settled| <= |s.settled| + 1
    ensures |Next(s, step).settled| > |s.settled| && Next(s, step).settled[|s.settled|].Discarded?
      ==> step == Disconnect(Next(s, step).settled[|s.settled|].run, true)
  {
    match step
    case Fire(t) => if TimerAt(s, t).Live? { FiredSettles(s, t, TimerAt(s, t).run); }
    case Choose(f) => if FlushAt(s, f).Choosing? { ChosenSettles(s, f, FlushAt(s, f).queue); }
    case Take(f) => if FlushAt(s, f).Taking? { TakenSettles(s, f, FlushAt(s, f).run, FlushAt(s, f).queue); }
    case _ =>
  }

  lemma FiredSettles(s: State, t: TimerId, run: RunId)
    ensures Fired(s, t, run).settled == s.settled
      || Fired(s, t, run).settled == s.settled + [Batch(run, Buffer(s, run))]
  {
  }

  lemma ChosenSettles(s: State, f: FlushId, queue: seq<RunId>)
    ensures Chosen(s, f, queue).settled == s.settled
  {
  }

  lemma TakenSettles(s: State, f: FlushId, run: RunId, queue: seq<RunId>)
    ensures Taken(s, f, run, queue).settled == s.settled
      || Taken(s, f, run, queue).settled == s.settled + [Batch(run, Buffer(s, run))]
  {
  }

  /** Every discard stems from a disconnect that left nobody on that run. */
  lemma {:induction false} DiscardsStemFromLastDisconnects(s: State, steps: seq<Step>, i: nat)
    requires |s.settled| <= i < |After(s, steps).settled| && After(s, steps).settled[i].Discarded?
    ensures Disconnect(After(s, steps).settled[i].run, true) in steps
    decreases steps
  {
    if steps != [] {
      var next := Next(s, steps[0]);
      StepSettles(s, steps[0]);
      SettledStays(next, steps[1..]);
      AfterFirst(s, steps);
      if i < |next.settled| {
        FirstDiscards(s.settled, next.settled, After(s, steps).settled, i, steps);
      } else {
        DiscardsStemFromLastDisconnects(next, steps[1..], i);
      }
    }
  }

  lemma AfterFirst(s: State, steps: seq<Step>)
    requires steps != []
    ensures After(s, steps) == After(Next(s, steps[0]), steps[1..])
  {
  }

  lemma FirstDiscards(was: seq<Settlement>, next: seq<Settlement>, after: seq<Settlement>, i: nat, steps: seq<Step>)
    requires steps != [] && next <= after && |was| <= i < |next| <= |was| + 1 && after[i].Discarded?
    requires next[|was|].Discarded? ==> steps[0] == Disconnect(next[|was|].run, true)
    ensures Disconnect(after[i].run, true) in steps
  {
    assert after[i] == next[i];
  }

  lemma {:induction false} SettledStays(s: State, steps: seq<Step>)
    ensures s.settled <= After(s, steps).settled
    decreases steps
  {
    if steps != [] {
      StepSettles(s, steps[0]);
      SettledStays(Next(s, steps[0]), steps[1..]);
    }
  }

  /** The events of a run's batches. */
  function Batched(settled: seq<Settlement>, run: RunId): seq<Event> {
    if settled == [] then []
    else
      var last := settled[|settled| - 1];
      Batched(settled[..|settled| - 1], run) + (if last == Batch(run, last.events) then last.events else [])
  }

  lemma {:induction false} AllInBatches(settled: seq<Settlement>, run: RunId)
    requires forall i :: 0 <= i < |settled| && settled[i].Discarded? ==> settled[i].run != run
    ensures Batched(settled, run) == SettledFor(settled, run)
  {
    if settled != [] { AllInBatches(settled[..|settled| - 1], run); }
  }

  /** As long as a run is never left by its last client, all its accepted events are, in
      order and each once, in its batches or still in its buffer. */
  lemma NothingIsLostWhileSomebodyStays(steps: seq<Step>, run: RunId)
    requires CanRun(START, steps) && Disconnect(run, true) !in steps
    ensures
      var s := After(START, steps);
      Accepted(s, run) == Batched(s.settled, run) + Buffer(s, run)
  {
    var s := After(START, steps);
    EventsAreConserved(START, steps, run);
    forall i | 0 <= i < |s.settled| && s.settled[i].Discarded?
      ensures s.settled[i].run != run
    {
      DiscardsStemFromLastDisconnects(START, steps, i);
    }
    AllInBatches(s.settled, run);
  }

  /** The steps without the disconnects that leave somebody. */
  function WithoutOthers(steps: seq<Step>): seq<Step> {
    if steps == [] then []
    else (if steps[0].Disconnect? && !steps[0].last then [] else [steps[0]]) + WithoutOthers(steps[1..])
  }

  /** A disconnect that leaves somebody on the run changes nothing, ever: without all of
      these the same steps lead to the same state. */
  lemma {:induction false} OtherDisconnectsChangeNothing(s: State, steps: seq<Step>)
    ensures After(s, WithoutOthers(steps)) == After(s, steps)
    decreases steps
  {
    if steps != [] {
      OtherDisconnectsChangeNothing(Next(s, steps[0]), steps[1..]);
      var rest := WithoutOthers(steps[1..]);
      if steps[0].Disconnect? && !steps[0].last {
        assert WithoutOthers(steps) == [] + rest == rest;
      } else {
        assert WithoutOthers(steps) == [steps[0]] + rest;
        assert ([steps[0]] + rest)[1..] == rest;
      }
    }
  }

  // ---------------------------------------------------------------------------
  // Flushes
  // ---------------------------------------------------------------------------

  /** The flush has yet to take what is buffered for the run. */
  predicate StillToTake(flush: Flush, run: RunId) {
    match flush
    case Choosing(queue) => run in queue
    case Awaiting(r, _, queue) => r == run || run in queue
    case Taking(r, queue) => r == run || run in queue
    case SendingBatch(_, queue) => run in queue
    case _ => false
  }

  /** The first `n` events of the run are settled, or will be before the flush is over. */
  predicate Promised(s: State, f: FlushId, run: RunId, n: nat) {
    n <= |SettledFor(s.settled, run)| || StillToTake(FlushAt(s, f), run)
  }

  lemma StepKeepsSettled(s: State, step: Step, run: RunId)
    ensures SettledFor(s.settled, run) <= SettledFor(Next(s, step).settled, run)
  {
    var next := Next(s, step);
    StepSettles(s, step);
    if |next.settled| > |s.settled| {
      assert next.settled == s.settled + [next.settled[|s.settled|]];
      SettledOneMore(s.settled, next.settled[|s.settled|], run);
    } else {
      assert next.settled == s.settled;
    }
  }

  lemma StepKeepsAccepted(s: State, step: Step, run: RunId)
    ensures Accepted(s, run) <= Accepted(Next(s, step), run)
  {
  }

  lemma StepKeepsPromise(s: State, step: Step, f: FlushId, run: RunId, n: nat)
    requires Enabled(s, step) && Conserved(s, run) && n <= |Accepted(s, run)|
    requires Promised(s, f, run, n) && f in s.flushes && !FlushAt(s, f).Starting?
    ensures Promised(Next(s, step), f, run, n) && f in Next(s, step).flushes && !FlushAt(Next(s, step), f).Starting?
  {
    FlushStays(s, step, f);
    StepKeepsSettled(s, step, run);
    if StillToTake(FlushAt(s, f), run) && Moves(step, f) { MoveKeepsPromise(s, step, f, run, n); }
  }

  /** A step of this flush. */
  predicate Moves(step: Step, f: FlushId) {
    match step
    case Choose(g) => g == f
    case Resume(g) => g == f
    case Take(g) => g == f
    case FlushSent(g) => g == f
    case _ => false
  }

  lemma FlushStays(s: State, step: Step, f: FlushId)
    requires Enabled(s, step) && f in s.flushes && !FlushAt(s, f).Starting?
    ensures f in Next(s, step).flushes && !FlushAt(Next(s, step), f).Starting?
    ensures !Moves(step, f) ==> FlushAt(Next(s, step), f) == FlushAt(s, f)
  {
    match step
    case Broadcast(_, _, _) => OthersKeepFlushes(s, step);
    case Fire(_) => OthersKeepFlushes(s, step);
    case TimerSent(_) => OthersKeepFlushes(s, step);
    case EndCancelled(_) => OthersKeepFlushes(s, step);
    case Disconnect(_, _) => OthersKeepFlushes(s, step);
    case Choose(g) => ChosenChangesOne(s, g, FlushAt(s, g).queue, f);
    case Take(g) => TakenChangesOne(s, g, FlushAt(s, g).run, FlushAt(s, g).queue, f);
    case _ =>
  }

  lemma OthersKeepFlushes(s: State, step: Step)
    requires step.Broadcast? || step.Fire? || step.TimerSent? || step.EndCancelled? || step.Disconnect?
    ensures Next(s, step).flushes == s.flushes
  {
  }

  lemma ChosenChangesOne(s: State, g: FlushId, queue: seq<RunId>, f: FlushId)
    requires f in s.flushes
    ensures var next := Chosen(s, g, queue);
      && f in next.flushes
      && (f != g ==> next.flushes[f] == s.flushes[f])
      && (f == g ==> !next.flushes[f].Starting?)
  {
  }

  lemma TakenChangesOne(s: State, g: FlushId, run: RunId, queue: seq<RunId>, f: FlushId)
    requires f in s.flushes
    ensures var next := Taken(s, g, run, queue);
      && f in next.flushes
      && (f != g ==> next.flushes[f] == s.flushes[f])
      && (f == g ==> !next.flushes[f].Starting?)
  {
  }

  lemma MoveKeepsPromise(s: State, step: Step, f: FlushId, run: RunId, n: nat)
    requires Enabled(s, step) && Conserved(s, run) && n <= |Accepted(s, run)|
    requires StillToTake(FlushAt(s, f), run) && Moves(step, f)
    ensures Promised(Next(s, step), f, run, n)
  {
    match step
    case Choose(_) => ChosenKeepsPromise(s, f, FlushAt(s, f).queue, run);
    case Resume(_) =>
    case Take(_) => TakenKeepsPromise(s, f, run, n);
    case FlushSent(_) =>
  }

  lemma ChosenKeepsPromise(s: State, f: FlushId, queue: seq<RunId>, run: RunId)
    requires run in queue
    ensures StillToTake(FlushAt(Chosen(s, f, queue), f), run)
  {
  }

  lemma TakenKeepsPromise(s: State, f: FlushId, run: RunId, n: nat)
    requires FlushAt(s, f).Taking? && StillToTake(FlushAt(s, f), run)
    requires Conserved(s, run) && n <= |Accepted(s, run)|
    ensures Promised(Taken(s, f, FlushAt(s, f).run, FlushAt(s, f).queue), f, run, n)
  {
    var r, queue := FlushAt(s, f).run, FlushAt(s, f).queue;
    if r == run && Buffer(s, run) != [] { SettledOneMore(s.settled, Batch(run, Buffer(s, run)), run); }
  }

  lemma {:induction false} StepsKeepPromise(s: State, steps: seq<Step>, f: FlushId, run: RunId, n: nat)
    requires CanRun(s, steps) && Conserved(s, run) && n <= |Accepted(s, run)|
    requires Promised(s, f, run, n) && f in s.flushes && !FlushAt(s, f).Starting?
    ensures Promised(After(s, steps), f, run, n)
    decreases steps
  {
    if steps != [] {
      StepKeepsPromise(s, steps[0], f, run, n);
      StepConserves(s, steps[0], run);
      StepKeepsAccepted(s, steps[0], run);
      StepsKeepPromise(Next(s, steps[0]), steps[1..], f, run, n);
    }
  }

  lemma {:induction false} AcceptedStays(s: State, steps: seq<Step>, run: RunId)
    ensures Accepted(s, run) <= Accepted(After(s, steps), run)
    decreases steps
  {
    if steps != [] {
      StepKeepsAccepted(s, steps[0], run);
      AcceptedStays(Next(s, steps[0]), steps[1..], run);
    }
  }

  /** Once a `flush_all` is over, whatever happened meanwhile, every event that had been
      accepted for any run when it looked is settled. */
  lemma FlushLeavesNothingBehind(s: State, f: FlushId, order: seq<RunId>, steps: seq<Step>, run: RunId)
    requires Conserved(s, run) && Enabled(s, Snapshot(f, order)) && CanRun(Next(s, Snapshot(f, order)), steps)
    requires FlushAt(After(Next(s, Snapshot(f, order)), steps), f) == Over
    ensures Accepted(s, run) <= SettledFor(After(Next(s, Snapshot(f, order)), steps).settled, run)
  {
    var next := Next(s, Snapshot(f, order));
    var n := |Accepted(s, run)|;
    assert run in order <==> run in s.buffers;
    StepConserves(s, Snapshot(f, order), run);
    StepsKeepPromise(next, steps, f, run, n);
    AcceptedStays(next, steps, run);
    EventsAreConserved(next, steps, run);
  }
}
