/** A fallback for a failed import: `try: from m import x` with handlers, none of which the
    analysis looks at.  What is missed is what it would find from the entry state, and for
    handlers that only evaluate something it can be told from their text.

    Modelled on scripts/graph_projection_boundary_provenance.py, `_evaluate_statement`.  */
module FlowFallbacks {
  import opened Common
  import opened FlowAnalysis
  import opened FlowSoundness
  import opened FlowGuarantees

  predicate TriesImport(t: Stmt) {
    t.Try? && |t.body| == 1 && t.body[0].Import? && t.orelse == [] && t.finalbody == []
  }

  predicate TrackedHandlers(handlers: seq<Handler>, s: State) {
    forall i :: 0 <= i < |handlers| ==> TrackedBlock(handlers[i].body) && StableHandler(handlers[i], [s])
  }

  /** Every projection a run of `t` sees is one that the handlers, analysed from the state `t`
      starts in, would have recorded. */
  lemma MissedIsWhatHandlersRecord(t: Stmt, s: State, env: Env, pos: nat)
    requires TriesImport(t) && TrackedHandlers(t.handlers, s) && Covers(s, env) && Sees(t, env, pos)
    ensures pos in CollectFacts(EvalHandlers(t.handlers, [s]))
  {
    SeesAsHandlersSee(t, env, pos);
    var env' :| RunsHandlers(t.handlers, env, Probe(pos), env');
    assert Covers([s][0], env);
    var o := HandlersSound(t.handlers, [s], env, Probe(pos), env');
    CollectCovers(EvalHandlers(t.handlers, [s]), o, Probe(pos), env');
  }

  /** So nothing is missed if that analysis finds nothing. */
  lemma SilentHandlersMissNothing(t: Stmt, s: State, env: Env)
    requires TriesImport(t) && TrackedHandlers(t.handlers, s) && Covers(s, env)
    requires forall i :: 0 <= i < |EvalHandlers(t.handlers, [s])| ==> EvalHandlers(t.handlers, [s])[i].facts == map[]
    ensures forall pos :: !Sees(t, env, pos)
  {
    CollectNoFacts(EvalHandlers(t.handlers, [s]));
    forall pos
      ensures !Sees(t, env, pos)
    {
      if Sees(t, env, pos) { MissedIsWhatHandlersRecord(t, s, env, pos); }
    }
  }

  // ---------------------------------------------------------------------------
  // Handlers that evaluate an expression
  // ---------------------------------------------------------------------------

  /** Some node of `e` may yield a projection. */
  predicate HoldsProjectable(e: Expr)
    decreases e
  {
    match e
    case Load(_, _) => true
    case Access(_, base) => CanProject(e) || HoldsProjectable(base)
    case Call(_, fn, args) =>
      CanProject(e) || HoldsProjectable(fn) || exists i :: 0 <= i < |args| && HoldsProjectable(args[i])
    case Opaque(parts) => exists i :: 0 <= i < |parts| && HoldsProjectable(parts[i])
    case IfExp(test, a, b) => HoldsProjectable(test) || HoldsProjectable(a) || HoldsProjectable(b)
    case BoolOp(a, b) => HoldsProjectable(a) || HoldsProjectable(b)
  }

  lemma {:induction false} ObservedIsProjectable(e: Expr, env: Env, pos: nat)
    requires Observes(e, env, pos)
    ensures HoldsProjectable(e)
    decreases e
  {
    if CanBe(e, env, Projection) { CannotProject(e, env, Projection); }
    match e
    case Load(_, _) =>
    case Access(_, base) => if Observes(base, env, pos) { ObservedIsProjectable(base, env, pos); }
    case Call(_, fn, args) =>
      if Observes(fn, env, pos) { ObservedIsProjectable(fn, env, pos); }
      if i :| 0 <= i < |args| && Observes(args[i], env, pos) { ObservedIsProjectable(args[i], env, pos); }
    case Opaque(parts) =>
      var i :| 0 <= i < |parts| && Observes(parts[i], env, pos);
      ObservedIsProjectable(parts[i], env, pos);
    case IfExp(test, a, b) =>
      if Observes(test, env, pos) { ObservedIsProjectable(test, env, pos); }
      if Observes(a, env, pos) { ObservedIsProjectable(a, env, pos); }
      if Observes(b, env, pos) { ObservedIsProjectable(b, env, pos); }
    case BoolOp(a, b) =>
      if Observes(a, env, pos) { ObservedIsProjectable(a, env, pos); }
      if Observes(b, env, pos) { ObservedIsProjectable(b, env, pos); }
  }

  /** A single binding under which a run sees a node that may yield a projection. */
  lemma {:induction false} ObservationWitness(e: Expr) returns (x: Name, v: Value, pos: nat)
    requires HoldsProjectable(e)
    ensures Observes(e, map[x := v], pos)
    decreases e
  {
    if (e.Load? || e.Access? || e.Call?) && CanProject(e) {
      x, v := ProjectWitness(e);
      pos := e.pos;
    } else {
      match e
      case Access(_, base) => x, v, pos := ObservationWitness(base);
      case Call(_, fn, args) =>
        if HoldsProjectable(fn) {
          x, v, pos := ObservationWitness(fn);
        } else {
          var i :| 0 <= i < |args| && HoldsProjectable(args[i]);
          x, v, pos := ObservationWitness(args[i]);
        }
      case Opaque(parts) =>
        var i :| 0 <= i < |parts| && HoldsProjectable(parts[i]);
        x, v, pos := ObservationWitness(parts[i]);
      case IfExp(test, a, b) =>
        if HoldsProjectable(test) {
          x, v, pos := ObservationWitness(test);
        } else if HoldsProjectable(a) {
          x, v, pos := ObservationWitness(a);
        } else {
          x, v, pos := ObservationWitness(b);
        }
      case BoolOp(a, b) =>
        if HoldsProjectable(a) { x, v, pos := ObservationWitness(a); } else { x, v, pos := ObservationWitness(b); }
    }
  }

  /** except: e */
  predicate Evaluates(h: Handler) {
    h.name == None && |h.body| == 1 && h.body[0].Evaluate?
  }

  ghost predicate Watches(h: Handler, env: Env, pos: nat) {
    Evaluates(h) && Observes(h.body[0].value, env, pos)
  }

  /** Some node of what the handler evaluates may yield a projection. */
  predicate MayProject(h: Handler) {
    Evaluates(h) && HoldsProjectable(h.body[0].value)
  }

  lemma WatchingRuns(h: Handler, env: Env, pos: nat)
    requires Watches(h, env, pos)
    ensures RunsHandler(h, env, Probe(pos), env)
  {
    EndsAtOnce(h.body, env, Probe(pos), env);
    assert RunsBlock(h.body, Bind(h.name, Plain, env), Probe(pos), env) && env == Unbind(h.name, env);
  }

  lemma RunWatches(h: Handler, env: Env, pos: nat, env': Env)
    requires Evaluates(h) && RunsHandler(h, env, Probe(pos), env')
    ensures Watches(h, env, pos)
  {
    var k := Probe(pos);
    var mid: Env :| RunsBlock(h.body, Bind(h.name, Plain, env), k, mid) && env' == Unbind(h.name, mid);
    var k1, end := FirstStep(h.body, env, k, mid);
    assert h.body[1..] == [];
    assert k1 == k;
  }

  lemma {:induction false} HandlersSeeExactly(handlers: seq<Handler>, env: Env, pos: nat)
    requires forall i :: 0 <= i < |handlers| ==> Evaluates(handlers[i])
    ensures HandlersSee(handlers, env, pos)
       <==> exists i :: 0 <= i < |handlers| && Watches(handlers[i], env, pos)
    decreases |handlers|
  {
    if handlers != [] {
      HandlersSeeExactly(handlers[1..], env, pos);
      FirstHandlerSees(handlers, env, pos);
      assert forall i :: 0 < i < |handlers| ==> handlers[i] == handlers[1..][i - 1];
    }
  }

  lemma FirstHandlerSees(handlers: seq<Handler>, env: Env, pos: nat)
    requires handlers != [] && Evaluates(handlers[0])
    ensures HandlersSee(handlers, env, pos)
       <==> Watches(handlers[0], env, pos) || HandlersSee(handlers[1..], env, pos)
  {
    var k := Probe(pos);
    if env' :| RunsHandlers(handlers, env, k, env') {
      if RunsHandler(handlers[0], env, k, env') {
        RunWatches(handlers[0], env, pos, env');
      } else {
        assert RunsHandlers(handlers[1..], env, k, env');
      }
    }
    if Watches(handlers[0], env, pos) {
      WatchingRuns(handlers[0], env, pos);
      assert RunsHandlers(handlers, env, k, env) && HandlersSee(handlers, env, pos);
    }
    if env' :| RunsHandlers(handlers[1..], env, k, env') {
      assert RunsHandlers(handlers, env, k, env') && HandlersSee(handlers, env, pos);
    }
  }

  /** From some state, some covered run sees a projection that has no fact. */
  ghost predicate Misses(t: Stmt) {
    exists s: State, env: Env, pos: nat :: Covers(s, env) && Sees(t, env, pos) && pos !in EvalStmt(t, s).facts
  }

  /** For handlers that evaluate an expression, that is so exactly if some node of one of them
      may yield a projection. */
  lemma FallbackIsMissedExactly(t: Stmt)
    requires TriesImport(t) && forall i :: 0 <= i < |t.handlers| ==> Evaluates(t.handlers[i])
    ensures Misses(t) <==> exists i :: 0 <= i < |t.handlers| && MayProject(t.handlers[i])
  {
    if s: State, env: Env, pos: nat :| Covers(s, env) && Sees(t, env, pos) && pos !in EvalStmt(t, s).facts {
      SeenIsProjectable(t, env, pos);
    }
    if i :| 0 <= i < |t.handlers| && MayProject(t.handlers[i]) {
      ProjectableIsMissed(t, i);
    }
  }

  lemma SeenIsProjectable(t: Stmt, env: Env, pos: nat)
    requires TriesImport(t) && forall i :: 0 <= i < |t.handlers| ==> Evaluates(t.handlers[i])
    requires Sees(t, env, pos)
    ensures exists i :: 0 <= i < |t.handlers| && MayProject(t.handlers[i])
  {
    SeesAsHandlersSee(t, env, pos);
    HandlersSeeExactly(t.handlers, env, pos);
    var i :| 0 <= i < |t.handlers| && Watches(t.handlers[i], env, pos);
    ObservedIsProjectable(t.handlers[i].body[0].value, env, pos);
    assert MayProject(t.handlers[i]);
  }

  lemma ProjectableIsMissed(t: Stmt, i: nat)
    requires TriesImport(t) && forall i :: 0 <= i < |t.handlers| ==> Evaluates(t.handlers[i])
    requires i < |t.handlers| && MayProject(t.handlers[i])
    ensures Misses(t)
  {
    var x, v, pos := ObservationWitness(t.handlers[i].body[0].value);
    var s, env := Knowing(x, v), map[x := v];
    assert Watches(t.handlers[i], env, pos);
    HandlersSeeExactly(t.handlers, env, pos);
    SeesAsHandlersSee(t, env, pos);
    TriedImportsAreSilentFrom(t, s);
    KnowingCovers(x, v);
    assert Covers(s, env) && Sees(t, env, pos) && pos !in EvalStmt(t, s).facts;
  }

  lemma KnowingCovers(x: Name, v: Value)
    ensures Covers(Knowing(x, v), map[x := v])
  {
  }
}
