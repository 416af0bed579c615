/** What the protocol's participants get done when nobody is in their way: a publisher
    publishes, and the collectors remove what nothing refers to, and only that.

    Modelled on src/orchestrator/artifacts/gc.py and src/orchestrator/artifacts/coordination.py.  */
module ArtifactProgress {
  import opened Common
  import opened ArtifactProtocol

  /** These steps are a run, and lead there. */
  ghost predicate Leads(projects: Run -> Project, w: World, steps: seq<Step>, t: World) {
    CanRun(projects, w, steps) && After(w, steps) == t
  }

  lemma LeadsNowhere(projects: Run -> Project, w: World)
    ensures Leads(projects, w, [], w)
  {
  }

  lemma LeadsOn(projects: Run -> Project, w: World, step: Step, rest: seq<Step>, t: World)
    requires Enabled(projects, w, step) && Leads(projects, Next(w, step), rest, t)
    ensures Leads(projects, w, [step] + rest, t)
  {
    assert ([step] + rest)[1..] == rest;
  }

  /** The lock is free, the process is idle again, and nothing else has changed but blobs
      and references. */
  predicate Settled(w: World, p: Process, t: World) {
    t.lock == None && t.deleted == w.deleted && t.jobs == w.jobs[p := Idle]
  }

  /** A publisher that gets the lock puts a blob and persists its reference.  A blob that is
      there and intact keeps its modification time. */
  lemma PublishersPublish(projects: Run -> Project, w: World, p: Process, run: Run, h: Hash, time: int, intact: bool)
    returns (t: World)
    requires w.lock == None && JobOf(w, p).Idle?
    ensures Leads(
      projects, w, [Publish(p, run)] + ([Put(p, h, time, intact)] + ([Persist(p, {h})] + ([Finish(p)] + []))), t)
    ensures Settled(w, p, t) && t.refs == w.refs[run := RefsOf(w, run) + {h}]
    ensures t.blobs == if h in w.blobs && intact then w.blobs else w.blobs[h := time]
  {
    var w1 := Next(w, Publish(p, run));
    var w2 := Next(w1, Put(p, h, time, intact));
    var w3 := Next(w2, Persist(p, {h}));
    t := Next(w3, Finish(p));
    assert t.jobs == w.jobs[p := Idle];
    LeadsNowhere(projects, t);
    LeadsOn(projects, w3, Finish(p), [], t);
    LeadsOn(projects, w2, Persist(p, {h}), [Finish(p)] + [], t);
    LeadsOn(projects, w1, Put(p, h, time, intact), [Persist(p, {h})] + ([Finish(p)] + []), t);
    LeadsOn(projects, w, Publish(p, run), [Put(p, h, time, intact)] + ([Persist(p, {h})] + ([Finish(p)] + [])), t);
  }

  /** A collector that marks under the lock removes a blob that is old enough and that its
      marks do not have, and nothing else. */
  lemma CollectorsCollect(projects: Run -> Project, w: World, p: Process, h: Hash, cutoff: int, marks: set<Hash>)
    returns (t: World)
    requires w.lock == None && JobOf(w, p).Idle? && MarksAll(w, marks)
    requires h in w.blobs && w.blobs[h] < cutoff && h !in marks
    ensures Leads(
      projects, w, [CollectAfterMark(p, cutoff)] + ([LoadEvents(p, marks)] + ([Unlink(p, h)] + ([Finish(p)] + []))), t)
    ensures Settled(w, p, t) && t.refs == w.refs && t.blobs == w.blobs - {h}
  {
    var w1 := Next(w, CollectAfterMark(p, cutoff));
    SameRefsSameMarks(w, w1, marks);
    var w2 := Next(w1, LoadEvents(p, marks));
    var w3 := Next(w2, Unlink(p, h));
    t := Next(w3, Finish(p));
    assert t.jobs == w.jobs[p := Idle];
    LeadsNowhere(projects, t);
    LeadsOn(projects, w3, Finish(p), [], t);
    LeadsOn(projects, w2, Unlink(p, h), [Finish(p)] + [], t);
    LeadsOn(projects, w1, LoadEvents(p, marks), [Unlink(p, h)] + ([Finish(p)] + []), t);
    LeadsOn(
      projects, w, CollectAfterMark(p, cutoff), [LoadEvents(p, marks)] + ([Unlink(p, h)] + ([Finish(p)] + [])), t);
  }

  lemma SameRefsSameMarks(w: World, v: World, marks: set<Hash>)
    requires v.refs == w.refs && v.deleted == w.deleted && MarksAll(w, marks)
    ensures MarksAll(v, marks)
  {
    forall h | Referenced(v, h)
      ensures h in marks
    {
      assert Referenced(w, h);
    }
  }

  /** After a run is deleted, its collector removes a blob that is old enough and that no
      other run of the project refers to, and nothing else. */
  lemma DeletedRunsAreCollected(projects: Run -> Project, w: World, p: Process, run: Run, h: Hash, cutoff: int)
    returns (t: World)
    requires w.lock == None && JobOf(w, p).Idle? && run in w.deleted
    requires h in w.blobs && w.blobs[h] < cutoff && !Retained(projects, w, h, run)
    ensures Leads(
      projects, w,
      [CollectAfterDelete(p, run, cutoff)] + ([Probe(p, h)] + ([UnlinkCondemned(p)] + ([Finish(p)] + []))), t)
    ensures Settled(w, p, t) && t.refs == w.refs && t.blobs == w.blobs - {h}
  {
    var w1 := Next(w, CollectAfterDelete(p, run, cutoff));
    SameRefsSameProbe(projects, w, w1, h, run);
    var w2 := Next(w1, Probe(p, h));
    var w3 := Next(w2, UnlinkCondemned(p));
    t := Next(w3, Finish(p));
    assert t.jobs == w.jobs[p := Idle];
    LeadsNowhere(projects, t);
    LeadsOn(projects, w3, Finish(p), [], t);
    LeadsOn(projects, w2, UnlinkCondemned(p), [Finish(p)] + [], t);
    LeadsOn(projects, w1, Probe(p, h), [UnlinkCondemned(p)] + ([Finish(p)] + []), t);
    LeadsOn(
      projects, w, CollectAfterDelete(p, run, cutoff), [Probe(p, h)] + ([UnlinkCondemned(p)] + ([Finish(p)] + [])), t);
  }

  lemma SameRefsSameProbe(projects: Run -> Project, w: World, v: World, h: Hash, run: Run)
    requires v.refs == w.refs && v.deleted == w.deleted && !Retained(projects, w, h, run)
    ensures !Retained(projects, v, h, run)
  {
  }

  /** Whoever crashes in the middle of it, the lock is free at once for the next. */
  lemma CrashFreesTheLock(projects: Run -> Project, w: World, p: Process, q: Process, run: Run)
    requires Holds(w, p) && JobOf(w, q).Idle?
    ensures CanRun(projects, w, [Crash(p), Publish(q, run)])
    ensures Holds(After(w, [Crash(p), Publish(q, run)]), q)
  {
    var w1 := Next(w, Crash(p));
    var t := Next(w1, Publish(q, run));
    LeadsNowhere(projects, t);
    LeadsOn(projects, w1, Publish(q, run), [], t);
    LeadsOn(projects, w, Crash(p), [Publish(q, run)] + [], t);
    assert [Crash(p)] + ([Publish(q, run)] + []) == [Crash(p), Publish(q, run)];
  }
}
