/** What the flow analysis promises about whole programs, why imports must not be
    guarded for it, and where a single pass over a loop is not enough. */
module FlowGuarantees {
  import opened Common
  import opened FlowAnalysis
  import opened FlowSoundness

  // ---------------------------------------------------------------------------
  // Programs without loops
  // ---------------------------------------------------------------------------

  predicate LoopFreeBlock(ss: seq<Stmt>)
    decreases ss
  {
    forall i :: 0 <= i < |ss| ==> LoopFree(ss[i])
  }

  predicate LoopFree(stmt: Stmt)
    decreases stmt
  {
    match stmt
    case Loop(_, _, _) => false
    case If(_, body, orelse) => LoopFreeBlock(body) && LoopFreeBlock(orelse)
    case With(_, body) => LoopFreeBlock(body)
    case Try(body, handlers, orelse, finalbody) =>
      && LoopFreeBlock(body) && LoopFreeBlock(orelse) && LoopFreeBlock(finalbody)
      && forall i :: 0 <= i < |handlers| ==> LoopFreeBlock(handlers[i].body)
    case _ => true
  }

  lemma {:induction false} LoopFreeIsStable(ss: seq<Stmt>, s: State)
    requires LoopFreeBlock(ss)
    ensures StableBlock(ss, s)
    decreases ss, 2
  {
    LoopFreeIsStableFrom(ss, NO_OUTCOMES.(normal := [s]));
  }

  lemma {:induction false} LoopFreeIsStableFrom(ss: seq<Stmt>, result: Outcomes)
    requires LoopFreeBlock(ss)
    ensures StableFrom(ss, result)
    decreases ss, 1
  {
    if ss != [] {
      forall i | 0 <= i < |result.normal|
        ensures StableStmt(ss[0], result.normal[i])
      {
        LoopFreeStmtIsStable(ss[0], result.normal[i]);
      }
      LoopFreeIsStableFrom(ss[1..], Advance(ss[0], result));
    }
  }

  lemma {:induction false} LoopFreeIsStableEach(ss: seq<Stmt>, states: seq<State>)
    requires LoopFreeBlock(ss)
    ensures StableEach(ss, states)
    decreases ss, 3
  {
    forall i | 0 <= i < |states|
      ensures StableBlock(ss, states[i])
    {
      LoopFreeIsStable(ss, states[i]);
    }
  }

  lemma {:induction false} LoopFreeStmtIsStable(stmt: Stmt, s: State)
    requires LoopFree(stmt)
    ensures StableStmt(stmt, s)
    decreases stmt, 5
  {
    match stmt
    case If(_, body, orelse) =>
      LoopFreeIsStable(body, s);
      LoopFreeIsStable(orelse, s);
    case With(items, body) => LoopFreeIsStable(body, EnterItems(items, false, s).inside);
    case Try(body, handlers, orelse, finalbody) =>
      var tried := EvalBlock(body, s);
      var joined := TryBeforeFinally(stmt, s);
      LoopFreeIsStable(body, s);
      LoopFreeIsStableEach(orelse, tried.normal);
      forall i | 0 <= i < |handlers|
        ensures StableHandler(handlers[i], tried.raised)
      {
        LoopFreeHandlerIsStable(handlers[i], tried.raised);
      }
      LoopFreeIsStableEach(finalbody, joined.normal);
      LoopFreeIsStableEach(finalbody, joined.raised);
      LoopFreeIsStableEach(finalbody, joined.returned);
      LoopFreeIsStableEach(finalbody, joined.broken);
      LoopFreeIsStableEach(finalbody, joined.continued);
    case _ =>
  }

  lemma {:induction false} LoopFreeHandlerIsStable(h: Handler, raised: seq<State>)
    requires LoopFreeBlock(h.body)
    ensures StableHandler(h, raised)
    decreases h, 4
  {
    forall i | 0 <= i < |raised|
      ensures StableBlock(h.body, ClearTarget(h.name, raised[i]))
    {
      LoopFreeIsStable(h.body, ClearTarget(h.name, raised[i]));
    }
  }

  /** Without loops no hypothesis on the analysis is left: every ending of every run,
      other than a failing import's, is covered by the analyser's state of that kind. */
  lemma LoopFreeSound(ss: seq<Stmt>, s: State, env: Env, k: Kind, env': Env)
    requires LoopFreeBlock(ss) && TrackedBlock(ss)
    requires Covers(s, env) && RunsBlock(ss, env, k, env') && k != ImportFailed
    ensures Accounted(EvalBlock(ss, s), k, env')
  {
    LoopFreeIsStable(ss, s);
    BlockSound(ss, s, env, k, env');
  }

  // ---------------------------------------------------------------------------
  // The guard fails closed
  // ---------------------------------------------------------------------------

  /** A module in which some run sees the expression at `pos` evaluate to a
      projection has a fact recorded there. */
  lemma NoProjectionGoesUnrecorded(program: seq<Stmt>, pos: nat, env: Env)
    requires TrackedBlock(program)
    requires LoopFreeBlock(program) || StableBlock(program, EMPTY_STATE)
    requires RunsBlock(program, map[], Probe(pos), env)
    ensures pos in EvalBlock(program, EMPTY_STATE).facts
  {
    if LoopFreeBlock(program) { LoopFreeIsStable(program, EMPTY_STATE); }
    BlockSound(program, EMPTY_STATE, map[], Probe(pos), env);
  }

  // ---------------------------------------------------------------------------
  // Handlers of a failing import are not looked at
  // ---------------------------------------------------------------------------

  const PRODUCER: Origin := "orchestrator.graph.build_projection"

  predicate ImportsOnly(ss: seq<Stmt>) {
    forall i :: 0 <= i < |ss| ==> ss[i].Import?
  }

  lemma {:induction false} CollectEmpty(os: seq<Outcomes>, k: Kind)
    requires forall i :: 0 <= i < |os| ==> StatesOf(os[i], k) == []
    ensures Collect(os, k) == []
  {
    if os != [] { CollectEmpty(os[1..], k); }
  }

  lemma {:induction false} CollectNoFacts(os: seq<Outcomes>)
    requires forall i :: 0 <= i < |os| ==> os[i].facts == map[]
    ensures CollectFacts(os) == map[]
  {
    if os != [] { CollectNoFacts(os[1..]); }
  }

  lemma {:induction false} ImportsNeverRaise(ss: seq<Stmt>, result: Outcomes)
    requires ImportsOnly(ss) && result.raised == []
    ensures EvalFrom(ss, result).raised == []
    decreases |ss|
  {
    if ss == [] {
      CollectEmpty([result], Raised);
    } else {
      var os := EvalEachStmt(ss[0], result.normal);
      forall i | 0 <= i < |os|
        ensures StatesOf(os[i], Raised) == []
      {
        assert os[i] == EvalStmt(ss[0], result.normal[i]);
      }
      CollectEmpty(os, Raised);
      ImportsNeverRaise(ss[1..], Advance(ss[0], result));
    }
  }

  lemma {:induction false} NothingToHandle(handlers: seq<Handler>)
    ensures EvalHandlers(handlers, []) == []
  {
    if handlers != [] { NothingToHandle(handlers[1..]); }
  }

  /** The handlers of a `try` whose body only imports might as well not be there. */
  lemma ImportHandlersAreIgnored(t: Stmt, s: State)
    requires t.Try? && ImportsOnly(t.body)
    ensures EvalTry(t, s) == EvalTry(t.(handlers := []), s)
  {
    ImportsNeverRaise(t.body, NO_OUTCOMES.(normal := [s]));
    NothingToHandle(t.handlers);
    assert TryBeforeFinally(t, s) == TryBeforeFinally(t.(handlers := []), s);
  }

  /** No fact comes of `stmt`. */
  ghost predicate Silent(stmt: Stmt) {
    forall s :: EvalStmt(stmt, s).facts == map[]
  }

  lemma {:induction false} SilentFrom(ss: seq<Stmt>, result: Outcomes)
    requires result.facts == map[] && forall i :: 0 <= i < |ss| ==> Silent(ss[i])
    ensures EvalFrom(ss, result).facts == map[]
    decreases |ss|
  {
    if ss == [] {
      CollectNoFacts([result]);
    } else {
      var os := EvalEachStmt(ss[0], result.normal);
      assert Silent(ss[0]);
      forall i | 0 <= i < |os|
        ensures os[i].facts == map[]
      {
        assert os[i] == EvalStmt(ss[0], result.normal[i]);
      }
      CollectNoFacts(os);
      SilentFrom(ss[1..], Advance(ss[0], result));
    }
  }

  lemma SilentBlock(ss: seq<Stmt>, s: State)
    requires forall i :: 0 <= i < |ss| ==> Silent(ss[i])
    ensures EvalBlock(ss, s).facts == map[]
  {
    SilentFrom(ss, NO_OUTCOMES.(normal := [s]));
  }

  lemma ImportsAreSilent(ss: seq<Stmt>, s: State)
    requires ImportsOnly(ss)
    ensures EvalBlock(ss, s).facts == map[]
  {
    forall i | 0 <= i < |ss|
      ensures Silent(ss[i])
    {
      assert ss[i].Import?;
    }
    SilentBlock(ss, s);
  }

  lemma {:induction false} TriedImportsAreSilent(t: Stmt)
    requires t.Try? && ImportsOnly(t.body) && t.orelse == [] && t.finalbody == []
    ensures Silent(t)
  {
    forall s
      ensures EvalStmt(t, s).facts == map[]
    {
      TriedImportsAreSilentFrom(t, s);
    }
  }

  lemma TriedImportsAreSilentFrom(t: Stmt, s: State)
    requires t.Try? && ImportsOnly(t.body) && t.orelse == [] && t.finalbody == []
    ensures EvalTry(t, s).facts == map[]
  {
    var bare := t.(handlers := []);
    var tried := EvalBlock(t.body, s);
    ImportHandlersAreIgnored(t, s);
    ImportsAreSilent(t.body, s);
    var each := EvalEach([], tried.normal);
    forall i | 0 <= i < |each|
      ensures each[i].facts == map[]
    {
      ImportsAreSilent([], tried.normal[i]);
    }
    var unmatched := NO_OUTCOMES.(raised := tried.raised);
    var passed := NO_OUTCOMES.(returned := tried.returned, broken := tried.broken, continued := tried.continued);
    JoinsWithoutFacts(NO_OUTCOMES.(facts := tried.facts), each, EvalHandlers([], tried.raised), unmatched, passed);
    assert bare.handlers == [] && EvalTry(bare, s) == TryBeforeFinally(bare, s);
  }

  lemma JoinsWithoutFacts(seen: Outcomes, each: seq<Outcomes>, handled: seq<Outcomes>, unmatched: Outcomes,
    passed: Outcomes)
    requires seen.facts == map[] && handled == [] && unmatched.facts == map[] && passed.facts == map[]
    requires forall i :: 0 <= i < |each| ==> each[i].facts == map[]
    ensures JoinOutcomes([seen] + each + handled + [unmatched] + [passed]).facts == map[]
  {
    CollectNoFacts([seen] + each + handled + [unmatched] + [passed]);
  }

  /** Some run of `stmt` sees the expression at `pos` evaluate to a projection. */
  ghost predicate Sees(stmt: Stmt, env: Env, pos: nat) {
    exists env' :: RunsStmt(stmt, env, Probe(pos), env')
  }

  ghost predicate HandlersSee(handlers: seq<Handler>, env: Env, pos: nat) {
    exists env' :: RunsHandlers(handlers, env, Probe(pos), env')
  }

  /** A step: nothing is recorded of `try: from m import x` with handlers, so all that a run
      sees is recorded exactly if no handler, run on the failed import, sees a projection. */
  lemma TriedImportIsCoveredExactly(t: Stmt, s: State, env: Env)
    requires t.Try? && |t.body| == 1 && t.body[0].Import? && t.orelse == [] && t.finalbody == []
    ensures
      (forall pos :: Sees(t, env, pos) ==> pos in EvalStmt(t, s).facts)
      <==> (forall pos :: !HandlersSee(t.handlers, env, pos))
  {
    TriedImportsAreSilentFrom(t, s);
    assert EvalStmt(t, s).facts == map[];
    forall pos
      ensures Sees(t, env, pos) <==> HandlersSee(t.handlers, env, pos)
    {
      SeesAsHandlersSee(t, env, pos);
    }
  }

  lemma SeesAsHandlersSee(t: Stmt, env: Env, pos: nat)
    requires t.Try? && |t.body| == 1 && t.body[0].Import? && t.orelse == [] && t.finalbody == []
    ensures Sees(t, env, pos) <==> HandlersSee(t.handlers, env, pos)
  {
    if env' :| RunsStmt(t, env, Probe(pos), env') { HandlersSeeWhatTrySees(t, env, pos, env'); }
    if env' :| RunsHandlers(t.handlers, env, Probe(pos), env') { HandlersSeeWhatTrySees(t, env, pos, env'); }
  }

  lemma HandlersSeeWhatTrySees(t: Stmt, env: Env, pos: nat, env': Env)
    requires t.Try? && |t.body| == 1 && t.body[0].Import? && t.orelse == [] && t.finalbody == []
    ensures RunsStmt(t, env, Probe(pos), env') <==> RunsHandlers(t.handlers, env, Probe(pos), env')
  {
    var k := Probe(pos);
    assert RunsStmt(t.body[0], env, ImportFailed, env);
    assert RunsBlock(t.body, env, ImportFailed, env);
    if RunsHandlers(t.handlers, env, k, env') {
      assert RunsGuarded(t, env, k, env');
    }
    if RunsStmt(t, env, k, env') {
      var pending, last := BeforeFinally(t, env, k, env');
      EmptyFinally(t, pending, last, k, env');
      var k1, mid := AfterBody(t, env, k, env');
      OneImport(t.body, env, k1, mid);
    }
  }

  lemma EmptyFinally(t: Stmt, pending: Kind, mid: Env, k: Kind, env': Env)
    requires t.Try? && t.finalbody == []
    requires if pending.Probe? then k == pending && env' == mid else RunsFinally(t.finalbody, pending, mid, k, env')
    ensures pending == k && mid == env'
  {
  }

  lemma OneImport(ss: seq<Stmt>, env: Env, k: Kind, env': Env)
    requires |ss| == 1 && ss[0].Import? && RunsBlock(ss, env, k, env')
    ensures k == Normal || (k == ImportFailed && env' == env)
  {
    var k1, mid := FirstStep(ss, env, k, env');
    if k1 == Normal { assert ss[1..] == []; }
  }

  lemma EndsAtOnce(ss: seq<Stmt>, env: Env, k: Kind, env': Env)
    requires ss != [] && k != Normal && RunsStmt(ss[0], env, k, env')
    ensures RunsBlock(ss, env, k, env')
  {
  }

  /** from m import f; try: import absent; except: f() */
  const FALLBACK: seq<Stmt> := [
    Import("f", PRODUCER),
    Try([Import("absent", "absent")], [Handler(None, [Evaluate(Call(1, Load(0, "f"), []))])], [], [])]

  /** A projection made where an import has failed is seen by a run and not recorded. */
  lemma FallbackGoesUnrecorded() returns (env: Env)
    ensures RunsBlock(FALLBACK, map[], Probe(1), env)
    ensures 1 !in EvalBlock(FALLBACK, EMPTY_STATE).facts
  {
    var t := FALLBACK[1];
    var call := Call(1, Load(0, "f"), []);
    env := map["f" := Imported(PRODUCER)];
    assert PRODUCER in PROJECTION_FUNCTIONS && Called(Imported(PRODUCER)) == Projection;
    assert CanBe(Load(0, "f"), env, Imported(PRODUCER));
    assert CanBe(call, env, Projection);
    assert RunsStmt(Evaluate(call), env, Probe(1), env);
    EndsAtOnce([Evaluate(call)], env, Probe(1), env);
    assert RunsBlock(t.handlers[0].body, Bind(t.handlers[0].name, Plain, env), Probe(1), env);
    assert RunsHandler(t.handlers[0], env, Probe(1), env);
    assert RunsHandlers(t.handlers, env, Probe(1), env);
    HandlersSeeWhatTrySees(t, env, 1, env);
    assert RunsStmt(FALLBACK[0], map[], Normal, env);
    assert FALLBACK[1..] == [t];
    EndsAtOnce([t], env, Probe(1), env);
    TriedImportsAreSilent(t);
    SilentBlock(FALLBACK, EMPTY_STATE);
  }

  // ---------------------------------------------------------------------------
  // One pass over a loop is not always enough
  // ---------------------------------------------------------------------------

  /** `o` neither breaks nor continues, and ends normally without an alias `n`. */
  ghost predicate Absent(o: Outcomes, n: Name) {
    AbsentFrom(o.normal, n) && o.broken == [] && o.continued == []
  }

  ghost predicate AbsentFrom(states: seq<State>, n: Name) {
    forall s :: s in states ==> n !in s.aliases
  }

  lemma {:induction false} CollectAbsent(os: seq<Outcomes>, n: Name)
    requires forall i :: 0 <= i < |os| ==> Absent(os[i], n)
    ensures AbsentFrom(Collect(os, Normal), n)
  {
    if os != [] {
      assert Absent(os[0], n);
      CollectAbsent(os[1..], n);
    }
  }

  lemma JoinAbsent(os: seq<Outcomes>, n: Name)
    requires forall i :: 0 <= i < |os| ==> Absent(os[i], n)
    ensures Absent(JoinOutcomes(os), n)
  {
    CollectAbsent(os, n);
    MergeAbsent(Collect(os, Normal), n);
    CollectEmpty(os, Broken);
    CollectEmpty(os, Continued);
  }

  lemma MergeAbsent(states: seq<State>, n: Name)
    requires AbsentFrom(states, n)
    ensures AbsentFrom(JoinKind(states), n)
  {
    assert forall i :: 0 <= i < |states| ==> states[i] in states;
  }

  lemma AssignAbsent(a: Stmt, s: State, n: Name)
    requires a.Assign? && n !in AssignValue(a.target, a.value, s).aliases
    ensures Absent(EvalStmt(a, s), n)
  {
    var bound := AssignValue(a.target, a.value, s);
    var pair := NO_OUTCOMES.(normal := [bound], raised := [bound]);
    JoinAbsent([pair], n);
    var inner := JoinOutcomes([pair]);
    JoinAbsent([NO_OUTCOMES.(normal := inner.normal, raised := [s] + inner.raised, facts := Records(a.value, s))], n);
  }

  lemma AdvanceAbsent(a: Stmt, result: Outcomes, n: Name)
    requires result.broken == [] && result.continued == []
    requires forall s :: s in result.normal ==> Absent(EvalStmt(a, s), n)
    ensures Absent(Advance(a, result), n)
  {
    EachAbsent(a, result.normal, n);
    JoinAbsent(EvalEachStmt(a, result.normal), n);
    PileAbsent(result, JoinOutcomes(EvalEachStmt(a, result.normal)), n);
  }

  lemma EachAbsent(a: Stmt, states: seq<State>, n: Name)
    requires forall s :: s in states ==> Absent(EvalStmt(a, s), n)
    ensures forall i :: 0 <= i < |states| ==> Absent(EvalEachStmt(a, states)[i], n)
  {
    forall i | 0 <= i < |states|
      ensures Absent(EvalEachStmt(a, states)[i], n)
    {
      assert states[i] in states && EvalEachStmt(a, states)[i] == EvalStmt(a, states[i]);
    }
  }

  lemma PileAbsent(result: Outcomes, transferred: Outcomes, n: Name)
    requires result.broken == [] && result.continued == [] && Absent(transferred, n)
    ensures Absent(Pile(result, transferred), n)
  {
  }

  /** Two assignments, neither of which gives `n` an alias. */
  lemma TwoAssignmentsAbsent(a: Stmt, b: Stmt, s: State, n: Name)
    requires a.Assign? && b.Assign? && n != b.target && n !in s.aliases
    requires n !in AssignValue(a.target, a.value, s).aliases
    ensures Absent(EvalBlock([a, b], s), n)
  {
    var start := NO_OUTCOMES.(normal := [s]);
    AssignAbsent(a, s, n);
    AdvanceAbsent(a, start, n);
    OtherAssignmentAbsent(b, Advance(a, start), n);
    JoinAbsent([Advance(b, Advance(a, start))], n);
    TwoSteps(a, b, start);
  }

  lemma OtherAssignmentAbsent(b: Stmt, result: Outcomes, n: Name)
    requires b.Assign? && n != b.target && Absent(result, n)
    ensures Absent(Advance(b, result), n)
  {
    forall t | t in result.normal
      ensures Absent(EvalStmt(b, t), n)
    {
      AssignAbsent(b, t, n);
    }
    AdvanceAbsent(b, result, n);
  }

  lemma TwoSteps(a: Stmt, b: Stmt, start: Outcomes)
    ensures EvalFrom([a, b], start) == JoinOutcomes([Advance(b, Advance(a, start))])
  {
    assert [a, b][1..] == [b] && [b][1..] == [];
    assert EvalFrom([b], Advance(a, start)) == EvalFrom([], Advance(b, Advance(a, start)));
  }

  lemma LoopAbsent(loop: Stmt, s: State, n: Name)
    requires loop.Loop? && loop.orelse == [] && n !in s.aliases
    requires Absent(EvalBlock(loop.body, s), n)
    ensures Absent(EvalStmt(loop, s), n)
  {
    PassAbsent(loop.head, loop.body, s, n);
    ExitAbsent(LoopPass(loop.head, loop.body, s), n);
    LoopLeaves(loop, s);
  }

  lemma LoopLeaves(loop: Stmt, s: State)
    requires loop.Loop? && loop.orelse == []
    ensures EvalStmt(loop, s) == LoopExit([], LoopPass(loop.head, loop.body, s))
  {
    LoopIs(loop.head, loop.body, loop.orelse, s);
  }

  lemma PassAbsent(head: Expr, body: seq<Stmt>, s: State, n: Name)
    requires n !in s.aliases && Absent(EvalBlock(body, s), n)
    ensures Absent(LoopPass(head, body, s), n)
  {
    var once := EvalBlock(body, s);
    JoinAbsent([NO_OUTCOMES.(normal := [s], raised := [s], facts := Records(head, s)),
                once.(normal := [s] + once.normal + once.continued, continued := [])], n);
  }

  lemma ExitAbsent(joined: Outcomes, n: Name)
    requires Absent(joined, n)
    ensures Absent(LoopExit([], joined), n)
  {
    JoinAbsent([joined.(normal := joined.normal + joined.broken, broken := [])], n);
  }

  /** y = x; x = f() */
  ghost predicate Carries(a: Stmt, b: Stmt) {
    && a.Assign? && a.target == "y" && a.value.Load? && a.value.id == "x"
    && b.Assign? && b.target == "x" && b.value.Call? && b.value.args == []
    && b.value.fn.Load? && b.value.fn.id == "f"
  }

  lemma OneRound(a: Stmt, b: Stmt, env: Env, x: Value)
    requires Carries(a, b)
    requires "x" in env && env["x"] == x && "f" in env && env["f"] == Imported(PRODUCER)
    ensures RunsBlock([a, b], env, Normal, env["y" := x]["x" := Projection])
  {
    var mid := env["y" := x];
    var last := mid["x" := Projection];
    assert CanBe(a.value, env, x);
    assert RunsStmt(a, env, Normal, mid);
    assert PRODUCER in PROJECTION_FUNCTIONS && Called(Imported(PRODUCER)) == Projection;
    assert CanBe(b.value.fn, mid, Imported(PRODUCER));
    assert CanBe(b.value, mid, Projection);
    assert RunsStmt(b, mid, Normal, last);
    assert [a, b][1..] == [b] && [b][1..] == [];
    assert RunsBlock([], last, Normal, last);
    RunsOn([b], mid, last, last);
    RunsOn([a, b], env, mid, last);
  }

  lemma RunsOn(ss: seq<Stmt>, env: Env, mid: Env, last: Env)
    requires ss != [] && RunsStmt(ss[0], env, Normal, mid) && RunsBlock(ss[1..], mid, Normal, last)
    ensures RunsBlock(ss, env, Normal, last)
  {
  }

  lemma TwoRounds(loop: Stmt, env: Env, env1: Env, env2: Env)
    requires loop.Loop? && loop.orelse == []
    requires RunsBlock(loop.body, env, Normal, env1) && RunsBlock(loop.body, env1, Normal, env2)
    ensures RunsStmt(loop, env, Normal, env2)
  {
    assert RunsBlock(loop.orelse, env2, Normal, env2);
    assert RunsLoop(loop, 0, env2, Normal, env2);
    assert RunsLoop(loop, 1, env1, Normal, env2);
    assert RunsLoop(loop, 2, env, Normal, env2);
  }

  /** A fact carried from one round of a loop to the next is lost: in
      `while ...: y = x; x = f()` with `f` a producer, `y` may end up a projection, and
      the analysis says it is none. */
  lemma SinglePassLosesCarriedProjection(loop: Stmt, a: Stmt, b: Stmt, s: State, env: Env) returns (end: Env)
    requires loop.Loop? && loop.body == [a, b] && loop.orelse == [] && Carries(a, b)
    requires Covers(s, env) && "x" !in s.aliases && "y" !in s.aliases
    requires "x" in env && "f" in env && env["f"] == Imported(PRODUCER)
    ensures RunsStmt(loop, env, Normal, end)
    ensures !Accounted(EvalStmt(loop, s), Normal, end)
  {
    var env1 := env["y" := env["x"]]["x" := Projection];
    end := env1["y" := Projection]["x" := Projection];
    OneRound(a, b, env, env["x"]);
    OneRound(a, b, env1, Projection);
    TwoRounds(loop, env, env1, end);
    TwoAssignmentsAbsent(a, b, s, "y");
    LoopAbsent(loop, s, "y");
    assert end["y"] == Projection;
  }
}
