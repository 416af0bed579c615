/** The batching manager in the form it runs: each method is what happens between two
    awaits, and does what the step machine does.

    Modelled on src/orchestrator/api/websocket.py, `BatchingConnectionManager`.  */
module BatchingManager {
  import opened Common
  import opened Batching

  class BatchingConnectionManager {
    var eventBuffers: map<RunId, seq<Event>>
    var timerTasks: map<RunId, TimerId>
    /** The asyncio tasks behind the entries, and the calls of `flush_all` that are under way. */
    var timers: map<TimerId, Timer>
    var flushes: map<FlushId, Flush>
    var holder: Option<TimerId>
    var accepted: map<RunId, seq<Event>>
    var settled: seq<Settlement>

    constructor ()
      ensures View() == START && Inv(View())
    {
      eventBuffers, timerTasks, timers, flushes := map[], map[], map[], map[];
      holder, accepted, settled := None, map[], [];
      new;
      StartIsSound("");
    }

    function View(): State
      reads this
    {
      State(eventBuffers, timerTasks, timers, flushes, holder, accepted, settled)
    }

    /** The section under the lock: buffer the event, and see that a timer runs. */
    method BroadcastToRun(run: RunId, event: Event, newTimer: TimerId)
      requires Inv(View()) && Enabled(View(), Broadcast(run, event, newTimer))
      modifies this
      ensures View() == Next(old(View()), Broadcast(run, event, newTimer)) && Inv(View())
      ensures Buffer(View(), run) == Buffer(old(View()), run) + [event] && settled == old(settled)
      ensures forall r :: r != run ==> Buffer(View(), r) == Buffer(old(View()), r)
      ensures
        if old(Running(View(), run)) then timerTasks == old(timerTasks) && timers == old(timers)
        else timerTasks == old(timerTasks)[run := newTimer] && timers == old(timers)[newTimer := Live(run)]
    {
      StepKeepsInv(View(), Broadcast(run, event, newTimer));
      AppendEvent(run, event);
      if run !in timerTasks || timerTasks[run] !in timers || timers[timerTasks[run]].Done? {
        timerTasks := timerTasks[run := newTimer];
        timers := timers[newTimer := Live(run)];
      }
    }

    method AppendEvent(run: RunId, event: Event)
      modifies this`eventBuffers, this`accepted
      ensures eventBuffers == old(eventBuffers)[run := Buffer(old(View()), run) + [event]]
      ensures accepted == old(accepted)[run := Accepted(old(View()), run) + [event]]
    {
      accepted := accepted[run := (if run in accepted then accepted[run] else []) + [event]];
      if run !in eventBuffers {
        eventBuffers := eventBuffers[run := []];
      }
      eventBuffers := eventBuffers[run := eventBuffers[run] + [event]];
    }

    /** After its sleep, when it gets the lock: take everything, or end. */
    method FlushAfterWindow(t: TimerId) returns (batch: seq<Event>)
      requires Inv(View()) && Enabled(View(), Fire(t))
      modifies this
      ensures View() == Next(old(View()), Fire(t)) && Inv(View())
      ensures batch == Buffer(old(View()), TimerAt(old(View()), t).run)
      ensures
        var run := TimerAt(old(View()), t).run;
        && (forall r :: r != run ==> Buffer(View(), r) == Buffer(old(View()), r))
        && if batch == [] then settled == old(settled) && timerTasks == old(timerTasks)
           else settled == old(settled) + [Batch(run, batch)] && Buffer(View(), run) == [] && run !in timerTasks
    {
      StepKeepsInv(View(), Fire(t));
      var run := timers[t].run;
      batch := if run in eventBuffers then eventBuffers[run] else [];
      if batch == [] {
        timers := timers[t := Done];
        return;
      }
      eventBuffers := eventBuffers[run := []];
      if run in timerTasks {
        timerTasks := timerTasks - {run};
      } else {
        assert timerTasks - {run} == timerTasks;
      }
      settled := settled + [Batch(run, batch)];
      timers, holder := timers[t := Sending(run)], Some(t);
    }

    /** The batch is out, and the lock free again. */
    method FinishSending(t: TimerId)
      requires Inv(View()) && Enabled(View(), TimerSent(t))
      modifies this
      ensures View() == Next(old(View()), TimerSent(t)) && Inv(View())
    {
      StepKeepsInv(View(), TimerSent(t));
      timers, holder := timers[t := Done], None;
    }

    /** The next run of a `flush_all`: cancel its timer, if it has one that is not over. */
    method CancelPending(f: FlushId)
      requires Inv(View()) && Enabled(View(), Choose(f))
      modifies this
      ensures View() == Next(old(View()), Choose(f)) && Inv(View())
      ensures eventBuffers == old(eventBuffers) && settled == old(settled) && timerTasks == old(timerTasks)
    {
      StepKeepsInv(View(), Choose(f));
      var queue := flushes[f].queue;
      if queue == [] {
        flushes := flushes[f := Over];
        return;
      }
      var run := queue[0];
      if run in timerTasks && timerTasks[run] in timers && !timers[timerTasks[run]].Done? {
        CancelTimer(timerTasks[run]);
        flushes := flushes[f := Awaiting(run, timerTasks[run], queue[1..])];
      } else {
        flushes := flushes[f := Taking(run, queue[1..])];
      }
    }

    method CancelTimer(t: TimerId)
      modifies this`timers
      ensures View() == Cancel(old(View()), t)
    {
      if t in timers && timers[t].Live? {
        timers := timers[t := Cancelled(timers[t].run)];
      }
    }

    /** The section of a `flush_all` under the lock: take the run's events, and the timer
        entry with them. */
    method TakePending(f: FlushId) returns (batch: seq<Event>)
      requires Inv(View()) && Enabled(View(), Take(f))
      modifies this
      ensures View() == Next(old(View()), Take(f)) && Inv(View())
      ensures batch == Buffer(old(View()), FlushAt(old(View()), f).run)
      ensures
        var run := FlushAt(old(View()), f).run;
        && (forall r :: r != run ==> Buffer(View(), r) == Buffer(old(View()), r))
        && if batch == [] then settled == old(settled) && timerTasks == old(timerTasks)
           else settled == old(settled) + [Batch(run, batch)] && Buffer(View(), run) == [] && run !in timerTasks
    {
      StepKeepsInv(View(), Take(f));
      var run, queue := flushes[f].run, flushes[f].queue;
      batch := if run in eventBuffers then eventBuffers[run] else [];
      if batch == [] {
        flushes := flushes[f := Choosing(queue)];
        return;
      }
      eventBuffers := eventBuffers[run := []];
      if run in timerTasks {
        timerTasks := timerTasks - {run};
      } else {
        assert timerTasks - {run} == timerTasks;
      }
      settled := settled + [Batch(run, batch)];
      flushes := flushes[f := SendingBatch(run, queue)];
    }

    /** `last`: whether nobody is left on the run once the client is off its list.  If
        somebody is, nothing changes. */
    method DisconnectFrom(run: RunId, last: bool)
      requires Inv(View())
      modifies this
      ensures View() == Next(old(View()), Disconnect(run, last)) && Inv(View())
      ensures !last ==> View() == old(View())
      ensures last ==>
        && run !in eventBuffers && run !in timerTasks
        && settled == old(settled) + if run in old(eventBuffers) then [Discarded(run, old(eventBuffers[run]))] else []
      ensures last && run in old(timerTasks) ==> !TimerAt(View(), old(timerTasks[run])).Live?
      ensures forall r :: r != run ==>
        Buffer(View(), r) == Buffer(old(View()), r) && (r in timerTasks <==> r in old(timerTasks))
    {
      StepKeepsInv(View(), Disconnect(run, last));
      if last { CleanUp(run); }
    }

    /** Nobody is left: the timer is cancelled if it is not over, and its entry and the
        buffer go. */
    method CleanUp(run: RunId)
      modifies this
      ensures View() == Abandoned(old(View()), run)
      ensures timerTasks == old(timerTasks) - {run} && eventBuffers == old(eventBuffers) - {run}
      ensures settled
        == old(settled) + if run in old(eventBuffers) then [Discarded(run, old(eventBuffers[run]))] else []
      ensures run in old(timerTasks) ==> !TimerAt(View(), old(timerTasks[run])).Live?
    {
      if run in timerTasks {
        CancelTimer(timerTasks[run]);
        timerTasks := timerTasks - {run};
      } else {
        assert timerTasks - {run} == timerTasks;
      }
      if run in eventBuffers {
        settled := settled + [Discarded(run, eventBuffers[run])];
        eventBuffers := eventBuffers - {run};
      } else {
        assert eventBuffers - {run} == eventBuffers;
      }
    }
  }
}
