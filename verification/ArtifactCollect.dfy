/** When `collect`, which marks before it takes the lock, is safe.

    Modelled on src/orchestrator/artifacts/gc.py, `collect` and `_sweep_sync`.  */
module ArtifactCollect {
  import opened ArtifactProtocol
  import opened ArtifactSweep

  /** The blobs the sweep of an early marker may remove. */
  predicate OldUnmarked(w: World, retained: set<Hash>, cutoff: int, h: Hash) {
    h in w.blobs && h !in retained && w.blobs[h] < cutoff
  }

  lemma LateMarkDangles(projects: Run -> Project, w: World, p: Process, retained: set<Hash>, cutoff: int, h: Hash)
    requires Holds(w, p) && JobOf(w, p) == Sweeping(retained, cutoff) && Referenced(w, h)
    requires OldUnmarked(w, retained, cutoff, h)
    ensures CanRun(projects, w, [Unlink(p, h)]) && AllInTime(w, [Unlink(p, h)])
    ensures !NoDangling(After(w, [Unlink(p, h)]))
  {
    var step := Unlink(p, h);
    assert [step][1..] == [] && After(w, [step]) == Next(w, step);
    assert Referenced(Next(w, step), h);
  }

  /** Taking the lock with early marks is safe, whatever any process does from then on,
      exactly if the marks at that moment cover all references to blobs older than the
      cutoff. */
  lemma CollectIsSafeExactly(projects: Run -> Project, w: World, p: Process, cutoff: int)
    requires OneProject(projects) && Inv(w) && Enabled(projects, w, CollectMarked(p, cutoff))
    ensures var started := Next(w, CollectMarked(p, cutoff));
      (forall steps :: CanRun(projects, started, steps) && AllInTime(started, steps)
        ==> NoDangling(After(started, steps)))
      <==> MarksOld(w, JobOf(w, p).retained, cutoff)
  {
    var collect := CollectMarked(p, cutoff);
    var started := Next(w, collect);
    if MarksOld(w, JobOf(w, p).retained, cutoff) {
      StepKeepsInv(projects, w, collect);
      forall steps | CanRun(projects, started, steps) && AllInTime(started, steps)
        ensures NoDangling(After(started, steps))
      {
        NoReferenceDanglesInTime(projects, started, steps);
      }
    } else {
      var retained := JobOf(w, p).retained;
      var h :| Referenced(w, h) && h in w.blobs && w.blobs[h] < cutoff && h !in retained;
      SameReferences(w, started, h);
      assert JobOf(started, p) == Sweeping(retained, cutoff);
      LateMarkDangles(projects, started, p, retained, cutoff, h);
    }
  }

  /** A list of all the blobs the sweep removes, each once. */
  ghost predicate ListsOldUnmarked(w: World, p: Process, cutoff: int, hs: seq<Hash>)
    requires JobOf(w, p).MarkedEarly?
  {
    && (forall i, j :: 0 <= i < j < |hs| ==> hs[i] != hs[j])
    && forall h :: h in hs <==> OldUnmarked(w, JobOf(w, p).retained, cutoff, h)
  }

  /** The whole of `collect` from there on, taking the lock and removing every old unmarked
      blob in whatever order, is a run; and it leaves no reference dangling exactly if the
      marks were in time. */
  lemma WholeCollectIsSafeExactly(projects: Run -> Project, w: World, p: Process, cutoff: int, hs: seq<Hash>)
    requires NoDangling(w) && Enabled(projects, w, CollectMarked(p, cutoff)) && ListsOldUnmarked(w, p, cutoff, hs)
    ensures var steps := [CollectMarked(p, cutoff)] + Unlinks(p, hs);
      && CanRun(projects, w, steps)
      && (NoDangling(After(w, steps)) <==> MarksOld(w, JobOf(w, p).retained, cutoff))
  {
    var collect, retained := CollectMarked(p, cutoff), JobOf(w, p).retained;
    var started, steps := Next(w, collect), [collect] + Unlinks(p, hs);
    assert steps[1..] == Unlinks(p, hs);
    SweepIsARun(projects, started, p, hs);
    var swept := started.(blobs := started.blobs - (set h | h in hs));
    assert After(w, steps) == swept;
    forall h ensures Referenced(swept, h) <==> Referenced(w, h) { SameReferences(w, swept, h); }
    if !MarksOld(w, retained, cutoff) {
      var h :| Referenced(w, h) && OldUnmarked(w, retained, cutoff, h);
      assert h in hs && h !in swept.blobs;
    }
  }

  lemma SameReferences(w: World, v: World, h: Hash)
    requires v.refs == w.refs && v.deleted == w.deleted
    ensures Referenced(v, h) <==> Referenced(w, h)
  {
  }
}
