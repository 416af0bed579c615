/** Publication and collection under one exclusive lock, in every interleaving.

    Modelled on src/orchestrator/artifacts/gc.py, src/orchestrator/artifacts/coordination.py
    and the way src/orchestrator/graph_runtime/dispatch.py holds the lock from putting a
    blob to persisting the event that refers to it.  */
module ArtifactProtocol {
  import opened Common

  type Hash = string
  type Run = nat
  type Process = nat
  type Project = string

  /** What a process is in the middle of.  All but `Idle` and `MarkedEarly` hold the lock. */
  datatype Job =
    | Idle
    | Publishing(run: Run, placed: set<Hash>)
    | Loading(cutoff: int)
    | Sweeping(retained: set<Hash>, cutoff: int)
    | Probing(deletedRun: Run, cutoff: int, condemned: Option<Hash>)
    | MarkedEarly(retained: set<Hash>)

  /** `blobs` gives modification times; `refs` what the persisted events of a run refer to. */
  datatype World = World(
    lock: Option<Process>,
    jobs: map<Process, Job>,
    blobs: map<Hash, int>,
    refs: map<Run, set<Hash>>,
    deleted: set<Run>)

  datatype Step =
    | Publish(p: Process, run: Run)
    | Put(p: Process, h: Hash, time: int, intact: bool)
    | Persist(p: Process, hs: set<Hash>)
    | Finish(p: Process)
    | Crash(p: Process)
    | DeleteRun(run: Run)
    | CollectAfterMark(p: Process, cutoff: int)
    | LoadEvents(p: Process, marks: set<Hash>)
    | Unlink(p: Process, h: Hash)
    | CollectAfterDelete(p: Process, run: Run, cutoff: int)
    | Probe(p: Process, h: Hash)
    | UnlinkCondemned(p: Process)
    | MarkEarly(p: Process, marks: set<Hash>)
    | CollectMarked(p: Process, cutoff: int)

  function JobOf(w: World, p: Process): Job {
    if p in w.jobs then w.jobs[p] else Idle
  }

  function RefsOf(w: World, r: Run): set<Hash> {
    if r in w.refs then w.refs[r] else {}
  }

  /** Some event of a run that is not deleted refers to the blob. */
  ghost predicate Referenced(w: World, h: Hash) {
    exists r :: r in w.refs && r !in w.deleted && h in w.refs[r]
  }

  /** What the marks must cover: `marks` are the references in the surviving runs' events. */
  ghost predicate MarksAll(w: World, marks: set<Hash>) {
    forall h :: Referenced(w, h) ==> h in marks
  }

  /** What a sweep needs of its marks: they cover all references to blobs older than the
      cutoff. */
  ghost predicate MarksOld(w: World, marks: set<Hash>, cutoff: int) {
    forall h :: Referenced(w, h) && h in w.blobs && w.blobs[h] < cutoff ==> h in marks
  }

  /** The database probe: a reference by another run of the same project that is still
      among the runs. */
  ghost predicate Retained(projects: Run -> Project, w: World, h: Hash, deletedRun: Run) {
    exists r :: r in w.refs && r !in w.deleted && r != deletedRun && projects(r) == projects(deletedRun)
      && h in w.refs[r]
  }

  predicate Holds(w: World, p: Process) {
    w.lock == Some(p)
  }

  ghost predicate Enabled(projects: Run -> Project, w: World, s: Step) {
    match s
    case Publish(p, run) => w.lock == None && JobOf(w, p) == Idle
    case Put(p, h, _, _) => Holds(w, p) && JobOf(w, p).Publishing?
    case Persist(p, hs) => Holds(w, p) && JobOf(w, p).Publishing? && hs <= JobOf(w, p).placed
    case Finish(p) => Holds(w, p) && (JobOf(w, p).Probing? ==> JobOf(w, p).condemned == None)
    case Crash(p) => true
    case DeleteRun(run) => true
    case CollectAfterMark(p, _) => w.lock == None && JobOf(w, p) == Idle
    case LoadEvents(p, marks) => Holds(w, p) && JobOf(w, p).Loading? && MarksAll(w, marks)
    case Unlink(p, h) =>
      && Holds(w, p) && JobOf(w, p).Sweeping?
      && h in w.blobs && h !in JobOf(w, p).retained && w.blobs[h] < JobOf(w, p).cutoff
    case CollectAfterDelete(p, run, _) => w.lock == None && JobOf(w, p) == Idle && run in w.deleted
    case Probe(p, h) =>
      && Holds(w, p) && JobOf(w, p).Probing? && JobOf(w, p).condemned == None
      && h in w.blobs && w.blobs[h] < JobOf(w, p).cutoff
      && !Retained(projects, w, h, JobOf(w, p).deletedRun)
    case UnlinkCondemned(p) => Holds(w, p) && JobOf(w, p).Probing? && JobOf(w, p).condemned.Some?
    case MarkEarly(p, marks) => JobOf(w, p) == Idle && MarksAll(w, marks)
    case CollectMarked(p, _) => w.lock == None && JobOf(w, p).MarkedEarly?
  }

  function Become(w: World, p: Process, job: Job): World {
    w.(jobs := w.jobs[p := job])
  }

  function Take(w: World, p: Process, job: Job): World {
    Become(w, p, job).(lock := Some(p))
  }

  /** Ending in any way, a crash included, frees the lock. */
  function Leave(w: World, p: Process): World {
    Become(w, p, Idle).(lock := if Holds(w, p) then None else w.lock)
  }

  function Next(w: World, s: Step): World {
    match s
    case Publish(p, run) => Take(w, p, Publishing(run, {}))
    case Put(p, h, time, intact) =>
      // An intact blob is reused as it is, modification time included.
      var placed := w.(blobs := if h in w.blobs && intact then w.blobs else w.blobs[h := time]);
      if JobOf(w, p).Publishing? then Become(placed, p, Publishing(JobOf(w, p).run, JobOf(w, p).placed + {h})) else w
    case Persist(p, hs) =>
      if JobOf(w, p).Publishing? then w.(refs := w.refs[JobOf(w, p).run := RefsOf(w, JobOf(w, p).run) + hs]) else w
    case Finish(p) => Leave(w, p)
    case Crash(p) => Leave(w, p)
    case DeleteRun(run) => w.(deleted := w.deleted + {run})
    case CollectAfterMark(p, cutoff) => Take(w, p, Loading(cutoff))
    case LoadEvents(p, marks) => if JobOf(w, p).Loading? then Become(w, p, Sweeping(marks, JobOf(w, p).cutoff)) else w
    case Unlink(p, h) => w.(blobs := w.blobs - {h})
    case CollectAfterDelete(p, run, cutoff) => Take(w, p, Probing(run, cutoff, None))
    case Probe(p, h) => if JobOf(w, p).Probing? then Become(w, p, JobOf(w, p).(condemned := Some(h))) else w
    case UnlinkCondemned(p) =>
      if JobOf(w, p).Probing? && JobOf(w, p).condemned.Some?
      then Become(w.(blobs := w.blobs - {JobOf(w, p).condemned.value}), p, JobOf(w, p).(condemned := None))
      else w
    case MarkEarly(p, marks) => Become(w, p, MarkedEarly(marks))
    case CollectMarked(p, cutoff) =>
      if JobOf(w, p).MarkedEarly? then Take(w, p, Sweeping(JobOf(w, p).retained, cutoff)) else w
  }

  // ---------------------------------------------------------------------------
  // Runs
  // ---------------------------------------------------------------------------

  ghost predicate CanRun(projects: Run -> Project, w: World, steps: seq<Step>)
    decreases steps
  {
    steps == [] || (Enabled(projects, w, steps[0]) && CanRun(projects, Next(w, steps[0]), steps[1..]))
  }

  function After(w: World, steps: seq<Step>): World
    decreases steps
  {
    if steps == [] then w else After(Next(w, steps[0]), steps[1..])
  }

  /** Collectors that mark under the lock. */
  predicate Disciplined(steps: seq<Step>) {
    forall s :: s in steps ==> !s.CollectMarked?
  }

  /** Marks that were taken before the lock still do when the lock is taken. */
  ghost predicate InTime(w: World, s: Step) {
    s.CollectMarked? && JobOf(w, s.p).MarkedEarly? ==> MarksOld(w, JobOf(w, s.p).retained, s.cutoff)
  }

  ghost predicate AllInTime(w: World, steps: seq<Step>)
    decreases steps
  {
    steps == [] || (InTime(w, steps[0]) && AllInTime(Next(w, steps[0]), steps[1..]))
  }

  const EMPTY := World(None, map[], map[], map[], {})

  // ---------------------------------------------------------------------------
  // No dangling reference
  // ---------------------------------------------------------------------------

  ghost predicate NoDangling(w: World) {
    forall h :: Referenced(w, h) ==> h in w.blobs
  }

  /** What a process in the middle of something may rely on. */
  ghost predicate JobIsSound(w: World, p: Process) {
    var job := JobOf(w, p);
    && (job.Publishing? || job.Loading? || job.Sweeping? || job.Probing? ==> Holds(w, p))
    && (job.Publishing? ==> forall h :: h in job.placed ==> h in w.blobs)
    && (job.Sweeping? ==> MarksOld(w, job.retained, job.cutoff))
    && (job.Probing? && job.condemned.Some? ==> !Referenced(w, job.condemned.value))
    && (job.Probing? ==> job.deletedRun in w.deleted)
  }

  ghost predicate Inv(w: World) {
    NoDangling(w) && forall p :: JobIsSound(w, p)
  }

  /** All runs that keep blobs under this root belong to one project. */
  ghost predicate OneProject(projects: Run -> Project) {
    forall r, s :: projects(r) == projects(s)
  }

  /** Nobody else is in the middle of anything that a step by the lock holder could upset. */
  lemma OthersAreIdle(w: World, p: Process, q: Process)
    requires JobIsSound(w, q) && p != q && (w.lock == None || Holds(w, p))
    ensures JobOf(w, q).Idle? || JobOf(w, q).MarkedEarly?
  {
  }

  lemma {:induction false} StepKeepsInv(projects: Run -> Project, w: World, s: Step)
    requires Inv(w) && Enabled(projects, w, s) && OneProject(projects) && InTime(w, s)
    ensures Inv(Next(w, s))
  {
    StepKeepsBlobs(projects, w, s);
    forall q ensures JobIsSound(Next(w, s), q) {
      assert JobIsSound(w, q);
      StepKeepsJob(projects, w, s, q);
    }
  }

  lemma StepKeepsBlobs(projects: Run -> Project, w: World, s: Step)
    requires Inv(w) && Enabled(projects, w, s) && OneProject(projects) && InTime(w, s)
    ensures NoDangling(Next(w, s))
  {
    if !s.DeleteRun? && !s.Crash? { assert s.Publish? || JobIsSound(w, s.p); }
    forall h | Referenced(Next(w, s), h) ensures h in Next(w, s).blobs {
      ReferenceIsNew(w, s, h);
    }
  }

  /** References only come from persisting what was placed. */
  lemma ReferenceIsNew(w: World, s: Step, h: Hash)
    requires Referenced(Next(w, s), h)
    ensures Referenced(w, h) || (s.Persist? && JobOf(w, s.p).Publishing? && h in s.hs)
  {
    var next := Next(w, s);
    var r :| r in next.refs && r !in next.deleted && h in next.refs[r];
    if s.Persist? {
      if r in w.refs && h in w.refs[r] { assert Referenced(w, h); }
    } else {
      assert next.refs == w.refs && r !in w.deleted;
      assert Referenced(w, h);
    }
  }

  lemma StepKeepsJob(projects: Run -> Project, w: World, s: Step, q: Process)
    requires JobIsSound(w, q) && Enabled(projects, w, s) && OneProject(projects) && InTime(w, s)
    ensures JobIsSound(Next(w, s), q)
  {
    var next := Next(w, s);
    forall h | Referenced(next, h) && !s.Persist? ensures Referenced(w, h) {
      ReferenceIsNew(w, s, h);
    }
    if s.Probe? && s.p == q && JobOf(w, q).Probing? {
      UnretainedIsUnreferenced(projects, w, s.h, JobOf(w, q).deletedRun);
    }
  }

  /** The probe sees every reference there is: a deleted run has none that counts. */
  lemma UnretainedIsUnreferenced(projects: Run -> Project, w: World, h: Hash, deletedRun: Run)
    requires OneProject(projects) && deletedRun in w.deleted && !Retained(projects, w, h, deletedRun)
    ensures !Referenced(w, h)
  {
  }

  /** In every interleaving of publishers, run deletions, crashes and collectors, whatever
      their cutoffs, every referenced hash has its blob, as long as early marks are in time. */
  lemma {:induction false} NoReferenceDanglesInTime(projects: Run -> Project, w: World, steps: seq<Step>)
    requires OneProject(projects) && Inv(w) && CanRun(projects, w, steps) && AllInTime(w, steps)
    ensures Inv(After(w, steps)) && NoDangling(After(w, steps))
    decreases steps
  {
    if steps != [] {
      StepKeepsInv(projects, w, steps[0]);
      NoReferenceDanglesInTime(projects, Next(w, steps[0]), steps[1..]);
    }
  }

  lemma {:induction false} DisciplinedIsInTime(w: World, steps: seq<Step>)
    requires Disciplined(steps)
    ensures AllInTime(w, steps)
    decreases steps
  {
    if steps != [] {
      assert steps[0] in steps;
      DisciplinedIsInTime(Next(w, steps[0]), steps[1..]);
    }
  }

  /** So nothing has to be assumed of collectors that mark under the lock. */
  lemma NoReferenceDangles(projects: Run -> Project, w: World, steps: seq<Step>)
    requires OneProject(projects) && Inv(w) && CanRun(projects, w, steps) && Disciplined(steps)
    ensures Inv(After(w, steps)) && NoDangling(After(w, steps))
  {
    DisciplinedIsInTime(w, steps);
    NoReferenceDanglesInTime(projects, w, steps);
  }

  lemma EmptyIsSound()
    ensures Inv(EMPTY)
  {
  }

  lemma NeverDanglesFromEmpty(projects: Run -> Project, steps: seq<Step>)
    requires OneProject(projects) && CanRun(projects, EMPTY, steps) && Disciplined(steps)
    ensures NoDangling(After(EMPTY, steps))
  {
    EmptyIsSound();
    NoReferenceDangles(projects, EMPTY, steps);
  }
}
