/** Where the protocol's guarantee ends: marks taken before the lock, and a root that two
    projects share.

    Modelled on src/orchestrator/artifacts/gc.py, `collect` and `collect_after_delete`.  */
module ArtifactProtocolLimits {
  import opened Common
  import opened ArtifactProtocol

  /** The probe, just after a deletion: it misses a reference exactly if some surviving run
      of another project makes it. */
  lemma ProbeMissesExactly(projects: Run -> Project, w: World, h: Hash, deletedRun: Run)
    requires deletedRun in w.deleted && !Retained(projects, w, h, deletedRun)
    ensures Referenced(w, h)
       <==> exists r :: r in w.refs && r !in w.deleted && h in w.refs[r] && projects(r) != projects(deletedRun)
  {
  }

  lemma {:induction false} AfterOneMore(w: World, steps: seq<Step>, s: Step)
    ensures After(w, steps + [s]) == Next(After(w, steps), s)
    decreases steps
  {
    if steps == [] {
      assert [] + [s] == [s] && [s][1..] == [];
    } else {
      AfterOneMore(Next(w, steps[0]), steps[1..], s);
      assert (steps + [s])[1..] == steps[1..] + [s];
    }
  }

  lemma {:induction false} CanRunOneMore(
    projects: Run -> Project, w: World, steps: seq<Step>, s: Step)
    requires CanRun(projects, w, steps) && Enabled(projects, After(w, steps), s)
    ensures CanRun(projects, w, steps + [s])
    decreases steps
  {
    if steps == [] {
      assert [] + [s] == [s] && [s][1..] == [];
    } else {
      CanRunOneMore(projects, Next(w, steps[0]), steps[1..], s);
      assert (steps + [s])[1..] == steps[1..] + [s] && (steps + [s])[0] == steps[0];
    }
  }

  /** One more step of a run from the empty world. */
  lemma Extend(projects: Run -> Project, steps: seq<Step>, w: World, s: Step)
    requires CanRun(projects, EMPTY, steps) && After(EMPTY, steps) == w && Enabled(projects, w, s)
    ensures CanRun(projects, EMPTY, steps + [s]) && After(EMPTY, steps + [s]) == Next(w, s)
  {
    CanRunOneMore(projects, EMPTY, steps, s);
    AfterOneMore(EMPTY, steps, s);
  }

  /** Where a story stands that processes 1 and 2 are in. */
  ghost predicate Stands(
    projects: Run -> Project, steps: seq<Step>, w: World,
    lock: Option<Process>, first: Job, second: Job, blobs: map<Hash, int>, refs: map<Run, set<Hash>>, deleted: set<Run>)
  {
    && CanRun(projects, EMPTY, steps) && After(EMPTY, steps) == w
    && w.lock == lock && JobOf(w, 1) == first && JobOf(w, 2) == second
    && w.blobs == blobs && w.refs == refs && w.deleted == deleted
  }

  /** A publisher puts a new blob. */
  lemma NewBlob(projects: Run -> Project, h: Hash, run: Run) returns (steps: seq<Step>, w: World)
    ensures Stands(projects, steps, w, Some(1), Publishing(run, {h}), Idle, map[h := 0], map[], {})
    ensures Disciplined(steps)
  {
    var publish, put := Publish(1, run), Put(1, h, 0, false);
    assert After(EMPTY, []) == EMPTY && CanRun(projects, EMPTY, []);
    Extend(projects, [], EMPTY, publish);
    var begun := Next(EMPTY, publish);
    Extend(projects, [] + [publish], begun, put);
    steps, w := [] + [publish] + [put], Next(begun, put);
    assert {} + {h} == {h};
  }

  /** A publisher puts a blob that is there already, and persists a reference to it. */
  lemma Reuse(projects: Run -> Project, before: seq<Step>, start: World, h: Hash, run: Run, second: Job)
    returns (steps: seq<Step>, w: World)
    requires Stands(projects, before, start, None, Idle, second, map[h := 0], map[], {})
    ensures Stands(projects, steps, w, Some(1), Publishing(run, {h}), second, map[h := 0], map[run := {h}], {})
  {
    var publish, put, persist := Publish(1, run), Put(1, h, 9, true), Persist(1, {h});
    Extend(projects, before, start, publish);
    var begun := Next(start, publish);
    Extend(projects, before + [publish], begun, put);
    var reused := Next(begun, put);
    assert {} + {h} == {h};
    Extend(projects, before + [publish] + [put], reused, persist);
    steps, w := before + [publish] + [put] + [persist], Next(reused, persist);
  }

  /** A publisher that crashed left an old blob behind; a collector has marked, but not yet
      taken the lock; another publisher reuses the blob. */
  lemma ReusedBlob(projects: Run -> Project, h: Hash, run: Run) returns (steps: seq<Step>, w: World)
    ensures Stands(projects, steps, w, None, Idle, MarkedEarly({}), map[h := 0], map[run := {h}], {})
  {
    steps, w := NewBlob(projects, h, run);
    Extend(projects, steps, w, Crash(1));
    var crashed := Next(w, Crash(1));
    Extend(projects, steps + [Crash(1)], crashed, MarkEarly(2, {}));
    steps, w := Reuse(projects, steps + [Crash(1)] + [MarkEarly(2, {})], Next(crashed, MarkEarly(2, {})), h, run,
      MarkedEarly({}));
    Extend(projects, steps, w, Finish(1));
    steps, w := steps + [Finish(1)], Next(w, Finish(1));
  }

  /** Marking before the lock can lose a blob that an event refers to, however long the
      grace period: `now` is any time after it, counted from the first put. */
  lemma EarlyMarksDangle(projects: Run -> Project, h: Hash, run: Run, grace: nat, now: nat)
    requires now > grace
    ensures exists steps :: CanRun(projects, EMPTY, steps) && !NoDangling(After(EMPTY, steps))
  {
    var steps, w := ReusedBlob(projects, h, run);
    var collect, unlink := CollectMarked(2, now - grace), Unlink(2, h);
    Extend(projects, steps, w, collect);
    var w1 := Next(w, collect);
    Extend(projects, steps + [collect], w1, unlink);
    var lost := Next(w1, unlink);
    assert lost.refs[run] == {h} && run !in lost.deleted;
    assert Referenced(lost, h) && h !in lost.blobs;
  }

  /** So can a root shared by two projects, when a run of one of them is deleted. */
  lemma SharedRootDangles(projects: Run -> Project, h: Hash, kept: Run, gone: Run)
    requires projects(kept) != projects(gone)
    ensures exists steps :: CanRun(projects, EMPTY, steps) && Disciplined(steps) && !NoDangling(After(EMPTY, steps))
  {
    var steps, w := NewBlob(projects, h, kept);
    Extend(projects, steps, w, Persist(1, {h}));
    var persisted := Next(w, Persist(1, {h}));
    Extend(projects, steps + [Persist(1, {h})], persisted, Finish(1));
    var before, start := steps + [Persist(1, {h})] + [Finish(1)], Next(persisted, Finish(1));
    assert {} + {h} == {h} && Disciplined(before);
    var condemned, doomed := Condemned(projects, before, start, h, kept, gone);
    Extend(projects, condemned, doomed, UnlinkCondemned(2));
    var lost := Next(doomed, UnlinkCondemned(2));
    assert lost.refs[kept] == {h} && kept !in lost.deleted;
    assert Referenced(lost, h) && h !in lost.blobs;
    assert Disciplined(condemned + [UnlinkCondemned(2)]);
  }

  /** So the protocol is safe exactly for a root of one project. */
  lemma SafeExactlyForOneProject(projects: Run -> Project)
    ensures
      (forall steps :: CanRun(projects, EMPTY, steps) && Disciplined(steps) ==> NoDangling(After(EMPTY, steps)))
      <==> OneProject(projects)
  {
    if OneProject(projects) {
      forall steps | CanRun(projects, EMPTY, steps) && Disciplined(steps)
        ensures NoDangling(After(EMPTY, steps))
      {
        NeverDanglesFromEmpty(projects, steps);
      }
    } else {
      var kept, gone :| projects(kept) != projects(gone);
      SharedRootDangles(projects, "", kept, gone);
    }
  }

  lemma Condemned(projects: Run -> Project, before: seq<Step>, w: World, h: Hash, kept: Run, gone: Run)
    returns (steps: seq<Step>, doomed: World)
    requires projects(kept) != projects(gone) && Disciplined(before)
    requires Stands(projects, before, w, None, Idle, Idle, map[h := 0], map[kept := {h}], {})
    ensures Stands(projects, steps, doomed, Some(2), Idle, Probing(gone, 1, Some(h)), map[h := 0], map[kept := {h}],
      {gone})
    ensures Disciplined(steps)
  {
    var delete, collect, probe := DeleteRun(gone), CollectAfterDelete(2, gone, 1), Probe(2, h);
    Extend(projects, before, w, delete);
    var w1 := Next(w, delete);
    Extend(projects, before + [delete], w1, collect);
    var w2 := Next(w1, collect);
    Extend(projects, before + [delete] + [collect], w2, probe);
    steps, doomed := before + [delete] + [collect] + [probe], Next(w2, probe);
  }
}
