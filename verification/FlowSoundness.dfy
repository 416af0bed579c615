/** What programs really do, and the proof that the flow analysis covers it.

    Any evaluation and any import may raise, any test may go either way, handlers may
    or may not match and context managers may or may not swallow an exception.  */
module FlowSoundness {
  import opened Common
  import opened FlowAnalysis

  // ---------------------------------------------------------------------------
  // Concrete semantics
  // ---------------------------------------------------------------------------

  datatype Value = Projection | Imported(origin: Origin) | Plain

  type Env = map<Name, Value>

  /** A part of a projection still carries it. */
  function Accessed(base: Value): Value {
    if base == Projection then Projection else Plain
  }

  function Called(fn: Value): Value {
    if fn.Imported? && fn.origin in PROJECTION_FUNCTIONS then Projection else Plain
  }

  /** The values `e` may evaluate to. */
  ghost predicate CanBe(e: Expr, env: Env, v: Value) {
    match e
    case Load(_, id) => id in env && env[id] == v
    case Access(_, base) => exists w :: CanBe(base, env, w) && v == Accessed(w)
    case Call(_, fn, _) => exists w :: CanBe(fn, env, w) && v == Called(w)
    case Opaque(_) => v == Plain
    case IfExp(_, a, b) => CanBe(a, env, v) || CanBe(b, env, v)
    case BoolOp(a, b) => CanBe(a, env, v) || CanBe(b, env, v)
  }

  /** Some evaluation of `e` has the node recorded under `pos` yield a projection. */
  ghost predicate Observes(e: Expr, env: Env, pos: nat)
    decreases e
  {
    match e
    case Load(p, _) => p == pos && CanBe(e, env, Projection)
    case Access(p, base) => Observes(base, env, pos) || (p == pos && CanBe(e, env, Projection))
    case Call(p, fn, args) =>
      || Observes(fn, env, pos)
      || (exists i :: 0 <= i < |args| && Observes(args[i], env, pos))
      || (p == pos && CanBe(e, env, Projection))
    case Opaque(parts) => exists i :: 0 <= i < |parts| && Observes(parts[i], env, pos)
    case IfExp(test, a, b) => Observes(test, env, pos) || Observes(a, env, pos) || Observes(b, env, pos)
    case BoolOp(a, b) => Observes(a, env, pos) || Observes(b, env, pos)
  }

  /** Evaluation of `e` cut short, by an exception or by an observation. */
  ghost predicate Interrupted(e: Expr, env: Env, k: Kind) {
    k == Raised || (k.Probe? && Observes(e, env, k.pos))
  }

  function Bind(target: Option<Name>, v: Value, env: Env): Env {
    match target
    case Some(name) => env[name := v]
    case None => env
  }

  function Unbind(target: Option<Name>, env: Env): Env {
    match target
    case Some(name) => env - {name}
    case None => env
  }

  ghost predicate RunsBlock(ss: seq<Stmt>, env: Env, k: Kind, env': Env)
    decreases ss, 0
  {
    if ss == [] then k == Normal && env' == env
    else exists k1: Kind, mid: Env ::
      && RunsStmt(ss[0], env, k1, mid)
      && (if k1 == Normal then RunsBlock(ss[1..], mid, k, env') else k == k1 && env' == mid)
  }

  ghost predicate RunsStmt(stmt: Stmt, env: Env, k: Kind, env': Env)
    decreases stmt, 5
  {
    match stmt
    case Import(name, origin) =>
      (k == Normal && env' == env[name := Imported(origin)]) || (k == ImportFailed && env' == env)
    case Assign(target, value) =>
      || (Interrupted(value, env, k) && env' == env)
      || ((k == Normal || k == Raised) && exists v: Value :: CanBe(value, env, v) && env' == env[target := v])
    case Delete(_, name) => (k == Raised && env' == env) || (k == Normal && name in env && env' == env - {name})
    case Evaluate(value) => (k == Normal || Interrupted(value, env, k)) && env' == env
    case Return(result) =>
      env' == env && (k == Returned || (result.Some? && Interrupted(result.value, env, k)))
    case Raise(exc) =>
      env' == env && (k == Raised || (exc.Some? && Interrupted(exc.value, env, k)))
    case Break => k == Broken && env' == env
    case Continue => k == Continued && env' == env
    case If(test, body, orelse) =>
      (Interrupted(test, env, k) && env' == env) || RunsBlock(body, env, k, env') || RunsBlock(orelse, env, k, env')
    case Loop(_, _, _) => exists n: nat :: RunsLoop(stmt, n, env, k, env')
    case With(items, body) => RunsWith(stmt, 0, env, k, env')
    case Try(_, _, _, finalbody) =>
      exists pending: Kind, mid: Env ::
        && RunsGuarded(stmt, env, pending, mid)
        && if pending.Probe? then k == pending && env' == mid else RunsFinally(finalbody, pending, mid, k, env')
  }

  /** `n` full rounds of the loop, then the last one. */
  ghost predicate RunsLoop(loop: Stmt, n: nat, env: Env, k: Kind, env': Env)
    requires loop.Loop?
    decreases loop, 1, n
  {
    if n == 0 then
      || (Interrupted(loop.head, env, k) && env' == env)
      || RunsBlock(loop.orelse, env, k, env')
      || (k != Normal && k != Continued && k != Broken && RunsBlock(loop.body, env, k, env'))
      || (k == Normal && RunsBlock(loop.body, env, Broken, env'))
    else
      exists k1: Kind, mid: Env ::
        && (k1 == Normal || k1 == Continued)
        && RunsBlock(loop.body, env, k1, mid)
        && RunsLoop(loop, n - 1, mid, k, env')
  }

  /** `with` from item `i` on.  A context manager returns itself on entry, and any
      manager entered before may swallow an exception. */
  ghost predicate RunsWith(w: Stmt, i: nat, env: Env, k: Kind, env': Env)
    requires w.With? && i <= |w.items|
    decreases w, 1, |w.items| - i
  {
    if i == |w.items| then
      || RunsBlock(w.body, env, k, env')
      || (i > 0 && k == Normal && (RunsBlock(w.body, env, Raised, env') || RunsBlock(w.body, env, ImportFailed, env')))
    else
      var item := w.items[i];
      || (Interrupted(item.context, env, k) && env' == env)
      || (i > 0 && k == Normal && env' == env)
      || exists v: Value ::
        && CanBe(item.context, env, v)
        && var bound := Bind(item.target, v, env);
           || (env' == bound && (k == Raised || (i > 0 && k == Normal)))
           || RunsWith(w, i + 1, bound, k, env')
  }

  /** Body, then `else` or a handler: everything before `finally`. */
  ghost predicate RunsGuarded(t: Stmt, env: Env, k: Kind, env': Env)
    requires t.Try?
    decreases t, 2
  {
    exists k1: Kind, mid: Env ::
      && RunsBlock(t.body, env, k1, mid)
      && (if k1 == Normal then RunsBlock(t.orelse, mid, k, env')
          else (k == k1 && env' == mid)
               || ((k1 == Raised || k1 == ImportFailed) && RunsHandlers(t.handlers, mid, k, env')))
  }

  ghost predicate RunsHandlers(handlers: seq<Handler>, env: Env, k: Kind, env': Env)
    decreases handlers, 1
  {
    && handlers != []
    && (RunsHandler(handlers[0], env, k, env') || RunsHandlers(handlers[1..], env, k, env'))
  }

  /** The handler's name is bound to the exception and deleted on the way out. */
  ghost predicate RunsHandler(h: Handler, env: Env, k: Kind, env': Env)
    decreases h, 1
  {
    exists mid: Env :: RunsBlock(h.body, Bind(h.name, Plain, env), k, mid) && env' == Unbind(h.name, mid)
  }

  ghost predicate RunsFinally(finalbody: seq<Stmt>, pending: Kind, env: Env, k: Kind, env': Env)
    decreases finalbody, 1
  {
    exists k1: Kind :: RunsBlock(finalbody, env, k1, env') && k == (if k1 == Normal then pending else k1)
  }

  // ---------------------------------------------------------------------------
  // Coverage
  // ---------------------------------------------------------------------------

  /** The claims of `s` about name `x` hold of its value `v`. */
  ghost predicate CoversValue(s: State, x: Name, v: Value) {
    && (v == Projection ==> x in s.aliases)
    && (x in s.aliases && s.aliases[x] == Definite ==> v == Projection)
    && (v.Imported? && v.origin in PROJECTION_FUNCTIONS ==> x in s.origins && v.origin in s.origins[x])
    && (x in s.origins && s.origins[x] <= PROJECTION_FUNCTIONS && x !in s.possibleOrigins ==>
          v.Imported? && v.origin in s.origins[x])
  }

  ghost predicate Covers(s: State, env: Env) {
    forall x :: x in env ==> CoversValue(s, x, env[x])
  }

  ghost predicate CoveredBySome(states: seq<State>, env: Env) {
    exists i :: 0 <= i < |states| && Covers(states[i], env)
  }

  /** A run that ended as `k` in `env` is accounted for. */
  ghost predicate Accounted(o: Outcomes, k: Kind, env: Env) {
    if k.Probe? then k.pos in o.facts else CoveredBySome(StatesOf(o, k), env)
  }

  ghost predicate Agrees(c: Option<Certainty>, v: Value) {
    && (v == Projection ==> c.Some?)
    && (c == Some(Definite) ==> v == Projection)
  }

  // ---------------------------------------------------------------------------
  // Values: exactly which expressions the analysis follows
  // ---------------------------------------------------------------------------

  /** `e` may evaluate to an imported function. */
  predicate CanImport(e: Expr) {
    match e
    case Load(_, _) => true
    case IfExp(_, a, b) => CanImport(a) || CanImport(b)
    case BoolOp(a, b) => CanImport(a) || CanImport(b)
    case _ => false
  }

  /** `e` may evaluate to a projection. */
  predicate CanProject(e: Expr) {
    match e
    case Load(_, _) => true
    case Call(_, fn, _) => CanImport(fn)
    case Access(_, base) => CanProject(base)
    case Opaque(_) => false
    case IfExp(_, a, b) => CanProject(a) || CanProject(b)
    case BoolOp(a, b) => CanProject(a) || CanProject(b)
  }

  /** `e` is followed even though the analysis has forgotten the name `except`. */
  predicate FollowedWithout(e: Expr, except: Option<Name>) {
    match e
    case Load(_, id) => Some(id) != except
    case Call(_, fn, _) => (fn.Load? && Some(fn.id) != except) || !CanImport(fn)
    case Access(_, base) => FollowedWithout(base, except)
    case Opaque(_) => true
    case IfExp(_, a, b) => !CanProject(a) && !CanProject(b)
    case BoolOp(a, b) => !CanProject(a) && !CanProject(b)
  }

  /** Every node of `e` is followed. */
  predicate Followed(e: Expr)
    decreases e
  {
    && FollowedWithout(e, None)
    && match e
       case Load(_, _) => true
       case Call(_, fn, args) => Followed(fn) && forall i :: 0 <= i < |args| ==> Followed(args[i])
       case Access(_, base) => Followed(base)
       case Opaque(parts) => forall i :: 0 <= i < |parts| ==> Followed(parts[i])
       case IfExp(test, a, b) => Followed(test) && Followed(a) && Followed(b)
       case BoolOp(a, b) => Followed(a) && Followed(b)
  }

  lemma {:induction false} CannotProject(e: Expr, env: Env, v: Value)
    requires CanBe(e, env, v)
    ensures v == Projection ==> CanProject(e)
    ensures v.Imported? ==> CanImport(e)
  {
    match e
    case Load(_, _) =>
    case Call(_, fn, _) =>
      var w :| CanBe(fn, env, w) && v == Called(w);
      CannotProject(fn, env, w);
    case Access(_, base) =>
      var w :| CanBe(base, env, w) && v == Accessed(w);
      CannotProject(base, env, w);
    case Opaque(_) =>
    case IfExp(_, a, b) => if CanBe(a, env, v) { CannotProject(a, env, v); } else { CannotProject(b, env, v); }
    case BoolOp(a, b) => if CanBe(a, env, v) { CannotProject(a, env, v); } else { CannotProject(b, env, v); }
  }

  /** The claim about a followed expression is right, in a state that has nothing to
      say about the name `except`. */
  lemma {:induction false} CertaintyAgrees(e: Expr, except: Option<Name>, s: State, env: Env, v: Value)
    requires FollowedWithout(e, except)
    requires forall x :: x in env && Some(x) != except ==> CoversValue(s, x, env[x])
    requires except.Some? ==> except.value !in s.aliases && except.value !in s.origins
    requires CanBe(e, env, v)
    ensures Agrees(CertaintyOf(e, s), v)
  {
    match e
    case Load(_, id) =>
    case Access(_, base) =>
      var w :| CanBe(base, env, w) && v == Accessed(w);
      CertaintyAgrees(base, except, s, env, w);
    case Call(_, fn, _) =>
      var w :| CanBe(fn, env, w) && v == Called(w);
      CannotProject(fn, env, w);
      if fn.Load? {
        assert CoversValue(s, fn.id, w);
        CallAgrees(e, s, w);
      } else {
        assert OriginOf(fn, s) * PROJECTION_FUNCTIONS == {};
      }
    case Opaque(_) =>
    case IfExp(_, _, _) => CannotProject(e, env, v);
    case BoolOp(_, _) => CannotProject(e, env, v);
  }

  /** The call of a name. */
  lemma CallAgrees(e: Expr, s: State, w: Value)
    requires e.Call? && e.fn.Load? && CoversValue(s, e.fn.id, w)
    ensures Agrees(CertaintyOf(e, s), Called(w))
  {
    var origin := OriginOf(e.fn, s);
    if Called(w) == Projection {
      assert w.origin in origin * PROJECTION_FUNCTIONS;
    }
    if CertaintyOf(e, s) == Some(Definite) {
      assert e.fn.id in s.origins;
    }
  }

  /** A state that covers the one binding of `x` to `v` and claims nothing else. */
  function Knowing(x: Name, v: Value): State {
    match v
    case Projection => State(map[x := Definite], map[], {})
    case Imported(o) => State(map[], map[x := {o}], {})
    case Plain => EMPTY_STATE
  }

  /** A single binding under which `e` evaluates to an imported function. */
  lemma {:induction false} ImportWitness(e: Expr, o: Origin) returns (x: Name)
    requires CanImport(e)
    ensures CanBe(e, map[x := Imported(o)], Imported(o))
  {
    match e
    case Load(_, id) => x := id;
    case IfExp(_, a, b) => if CanImport(a) { x := ImportWitness(a, o); } else { x := ImportWitness(b, o); }
    case BoolOp(a, b) => if CanImport(a) { x := ImportWitness(a, o); } else { x := ImportWitness(b, o); }
  }

  /** A single binding under which `e` evaluates to a projection. */
  lemma {:induction false} ProjectWitness(e: Expr) returns (x: Name, v: Value)
    requires CanProject(e)
    ensures CanBe(e, map[x := v], Projection)
  {
    match e
    case Load(_, id) => x, v := id, Projection;
    case Call(_, fn, _) =>
      var o :| o in PROJECTION_FUNCTIONS;
      x := ImportWitness(fn, o);
      v := Imported(o);
      assert CanBe(fn, map[x := v], v) && Projection == Called(v);
    case Access(_, base) =>
      x, v := ProjectWitness(base);
      assert CanBe(base, map[x := v], Projection) && Projection == Accessed(Projection);
    case IfExp(_, a, b) => if CanProject(a) { x, v := ProjectWitness(a); } else { x, v := ProjectWitness(b); }
    case BoolOp(a, b) => if CanProject(a) { x, v := ProjectWitness(a); } else { x, v := ProjectWitness(b); }
  }

  /** An expression that is not followed has an evaluation to a projection that the
      analysis takes for something else. */
  lemma {:induction false} MissedWitness(e: Expr, target: Name) returns (x: Name, v: Value)
    requires !FollowedWithout(e, Some(target))
    ensures CanBe(e, map[x := v], Projection)
    ensures CertaintyOf(e, Clear(target, Knowing(x, v))) == None
  {
    match e
    case Load(_, id) => x, v := ProjectWitness(e);
    case Call(_, fn, _) =>
      x, v := ProjectWitness(e);
      var w :| CanBe(fn, map[x := v], w) && Projection == Called(w);
    case Access(_, base) =>
      x, v := MissedWitness(base, target);
      assert CanBe(base, map[x := v], Projection) && Projection == Accessed(Projection);
    case IfExp(_, _, _) => x, v := ProjectWitness(e);
    case BoolOp(_, _) => x, v := ProjectWitness(e);
  }

  lemma {:induction false} ImportableIsProjectable(e: Expr)
    requires CanImport(e)
    ensures CanProject(e)
  {
    match e
    case Load(_, _) =>
    case IfExp(_, a, b) => if CanImport(a) { ImportableIsProjectable(a); } else { ImportableIsProjectable(b); }
    case BoolOp(a, b) => if CanImport(a) { ImportableIsProjectable(a); } else { ImportableIsProjectable(b); }
  }

  lemma ImportIsLoad(e: Expr, except: Option<Name>)
    requires FollowedWithout(e, except) && CanImport(e)
    ensures e.Load?
  {
    match e
    case Load(_, _) =>
    case IfExp(_, a, b) => if CanImport(a) { ImportableIsProjectable(a); } else { ImportableIsProjectable(b); }
    case BoolOp(a, b) => if CanImport(a) { ImportableIsProjectable(a); } else { ImportableIsProjectable(b); }
  }

  ghost predicate AssignmentIsSound(target: Name, value: Expr) {
    forall s: State, env: Env, v: Value ::
      Covers(s, env) && CanBe(value, env, v) ==> Covers(AssignValue(target, value, s), env[target := v])
  }

  lemma AssignCovers(target: Name, value: Expr, s: State, env: Env, v: Value)
    requires FollowedWithout(value, Some(target))
    requires Covers(s, env) && CanBe(value, env, v)
    ensures Covers(AssignValue(target, value, s), env[target := v])
  {
    var cleared := Clear(target, s);
    CertaintyAgrees(value, Some(target), cleared, env, v);
    CannotProject(value, env, v);
    if CanImport(value) { ImportIsLoad(value, Some(target)); }
    var s' := AssignValue(target, value, s);
    assert CoversValue(s', target, v);
    forall x | x in env && x != target
      ensures CoversValue(s', x, env[x])
    {
    }
  }

  /** An assignment keeps the abstract state right for all programs around it exactly
      if its value is followed once the target has been forgotten. */
  lemma AssignmentIsSoundExactly(target: Name, value: Expr)
    ensures AssignmentIsSound(target, value) <==> FollowedWithout(value, Some(target))
  {
    if FollowedWithout(value, Some(target)) {
      forall s: State, env: Env, v: Value | Covers(s, env) && CanBe(value, env, v)
        ensures Covers(AssignValue(target, value, s), env[target := v])
      {
        AssignCovers(target, value, s, env, v);
      }
    } else {
      var x, v := MissedWitness(value, target);
      var s, env := Knowing(x, v), map[x := v];
      assert Covers(s, env) && CanBe(value, env, Projection);
      var s' := AssignValue(target, value, s);
      assert !CoversValue(s', target, env[target := Projection][target]);
      assert !Covers(s', env[target := Projection]);
    }
  }

  /** No node of a followed expression evaluates to a projection unrecorded. */
  lemma {:induction false} ObservationsRecorded(e: Expr, s: State, env: Env, pos: nat)
    requires Followed(e) && Covers(s, env) && Observes(e, env, pos)
    ensures pos in Records(e, s)
    decreases e, 1
  {
    if (e.Load? || e.Access? || e.Call?) && e.pos == pos && CanBe(e, env, Projection) {
      CertaintyAgreesHere(e, s, env);
    }
    match e
    case Load(_, _) =>
    case Access(_, base) => if Observes(base, env, pos) { ObservationsRecorded(base, s, env, pos); }
    case Call(_, fn, args) =>
      if Observes(fn, env, pos) { ObservationsRecorded(fn, s, env, pos); }
      if i :| 0 <= i < |args| && Observes(args[i], env, pos) { PartObserved(args, i, s, env, pos); }
    case Opaque(parts) =>
      var i :| 0 <= i < |parts| && Observes(parts[i], env, pos);
      PartObserved(parts, i, s, env, pos);
    case IfExp(test, a, b) =>
      if Observes(test, env, pos) { ObservationsRecorded(test, s, env, pos); }
      if Observes(a, env, pos) { ObservationsRecorded(a, s, env, pos); }
      if Observes(b, env, pos) { ObservationsRecorded(b, s, env, pos); }
    case BoolOp(a, b) =>
      if Observes(a, env, pos) { ObservationsRecorded(a, s, env, pos); }
      if Observes(b, env, pos) { ObservationsRecorded(b, s, env, pos); }
  }

  lemma {:induction false} PartObserved(es: seq<Expr>, i: nat, s: State, env: Env, pos: nat)
    requires i < |es| && Observes(es[i], env, pos)
    requires forall j :: 0 <= j < |es| ==> Followed(es[j])
    requires Covers(s, env)
    ensures pos in RecordsAll(es, s)
    decreases es, 0
  {
    if i == 0 { ObservationsRecorded(es[0], s, env, pos); } else { PartObserved(es[1..], i - 1, s, env, pos); }
  }

  lemma CertaintyAgreesHere(e: Expr, s: State, env: Env)
    requires Followed(e) && Covers(s, env) && CanBe(e, env, Projection)
    ensures CertaintyOf(e, s).Some?
  {
    CertaintyAgrees(e, None, s, env, Projection);
  }

  // ---------------------------------------------------------------------------
  // Joins cover what they join
  // ---------------------------------------------------------------------------

  lemma MergeCovers(branches: seq<State>, i: nat, env: Env)
    requires i < |branches| && Covers(branches[i], env)
    ensures Covers(Merge(branches), env)
  {
    var m := Merge(branches);
    forall x | x in env
      ensures CoversValue(m, x, env[x])
    {
      assert CoversValue(branches[i], x, env[x]);
      if x in branches[i].aliases { assert x in m.aliases; }
      if x in branches[i].origins {
        assert x in m.origins;
        assert branches[i].origins[x] <= m.origins[x];
      }
    }
  }

  lemma JoinKindCovers(states: seq<State>, env: Env)
    requires CoveredBySome(states, env)
    ensures CoveredBySome(JoinKind(states), env)
  {
    var i :| 0 <= i < |states| && Covers(states[i], env);
    MergeCovers(states, i, env);
    assert Covers(JoinKind(states)[0], env);
  }

  lemma CoveredByConcat(a: seq<State>, b: seq<State>, env: Env)
    ensures CoveredBySome(a + b, env) <==> CoveredBySome(a, env) || CoveredBySome(b, env)
  {
    if i :| 0 <= i < |a| && Covers(a[i], env) { assert Covers((a + b)[i], env); }
    if i :| 0 <= i < |b| && Covers(b[i], env) { assert Covers((a + b)[|a| + i], env); }
  }

  lemma {:induction false} CollectCovers(os: seq<Outcomes>, o: Outcomes, k: Kind, env: Env)
    requires o in os && Accounted(o, k, env)
    ensures if k.Probe? then k.pos in CollectFacts(os) else CoveredBySome(Collect(os, k), env)
  {
    if !k.Probe? { CoveredByConcat(StatesOf(os[0], k), Collect(os[1..], k), env); }
    if os[0] != o { CollectCovers(os[1..], o, k, env); }
  }

  /** Whatever one of several outcomes accounts for, their join accounts for. */
  lemma JoinAccounts(os: seq<Outcomes>, o: Outcomes, k: Kind, env: Env)
    requires o in os && Accounted(o, k, env)
    ensures Accounted(JoinOutcomes(os), k, env)
  {
    CollectCovers(os, o, k, env);
    if !k.Probe? {
      JoinKindCovers(Collect(os, k), env);
      JoinedStates(os, k);
    }
  }

  lemma JoinedStates(os: seq<Outcomes>, k: Kind)
    requires !k.Probe? && k != ImportFailed
    ensures StatesOf(JoinOutcomes(os), k) == JoinKind(Collect(os, k))
  {
  }

  // ---------------------------------------------------------------------------
  // Hypotheses on programs
  // ---------------------------------------------------------------------------

  predicate TrackedBlock(ss: seq<Stmt>)
    decreases ss
  {
    forall i :: 0 <= i < |ss| ==> TrackedStmt(ss[i])
  }

  predicate FollowedOptional(e: Option<Expr>) {
    e.Some? ==> Followed(e.value)
  }

  predicate NoImports(ss: seq<Stmt>)
    decreases ss
  {
    forall i :: 0 <= i < |ss| ==> NoImport(ss[i])
  }

  /** There is no import in `stmt`, however deep. */
  predicate NoImport(stmt: Stmt)
    decreases stmt
  {
    match stmt
    case Import(_, _) => false
    case If(_, body, orelse) => NoImports(body) && NoImports(orelse)
    case Loop(_, body, orelse) => NoImports(body) && NoImports(orelse)
    case With(_, body) => NoImports(body)
    case Try(body, handlers, orelse, finalbody) =>
      && NoImports(body) && NoImports(orelse) && NoImports(finalbody)
      && forall i :: 0 <= i < |handlers| ==> NoImports(handlers[i].body)
    case _ => true
  }

  /** No import stands where something would go on running after it has failed: under
      a context manager, before a handler or before `finally`. */
  predicate ImportsUnguarded(stmt: Stmt) {
    match stmt
    case With(_, body) => NoImports(body)
    case Try(body, handlers, orelse, finalbody) =>
      && NoImports(body)
      && (finalbody != [] ==> NoImports(orelse) && forall i :: 0 <= i < |handlers| ==> NoImports(handlers[i].body))
    case _ => true
  }

  /** All expressions are followed, and so is every value bound to a name; no import
      is guarded. */
  predicate TrackedStmt(stmt: Stmt)
    decreases stmt
  {
    && ImportsUnguarded(stmt)
    && match stmt
    case Assign(target, value) => Followed(value) && FollowedWithout(value, Some(target))
    case Evaluate(value) => Followed(value)
    case Return(result) => FollowedOptional(result)
    case Raise(exc) => FollowedOptional(exc)
    case If(test, body, orelse) => Followed(test) && TrackedBlock(body) && TrackedBlock(orelse)
    case Loop(head, body, orelse) => Followed(head) && TrackedBlock(body) && TrackedBlock(orelse)
    case With(items, body) => (forall i :: 0 <= i < |items| ==> TrackedItem(items[i])) && TrackedBlock(body)
    case Try(body, handlers, orelse, finalbody) =>
      && TrackedBlock(body) && TrackedBlock(orelse) && TrackedBlock(finalbody)
      && forall i :: 0 <= i < |handlers| ==> TrackedBlock(handlers[i].body)
    case _ => true
  }

  predicate TrackedItem(item: Item) {
    Followed(item.context) && (item.target.Some? ==> FollowedWithout(item.context, item.target))
  }

  predicate StableBlock(ss: seq<Stmt>, s: State)
    decreases ss, 2
  {
    StableFrom(ss, NO_OUTCOMES.(normal := [s]))
  }

  predicate StableFrom(ss: seq<Stmt>, result: Outcomes)
    decreases ss, 1
  {
    ss == [] || (StableEachStmt(ss[0], result.normal) && StableFrom(ss[1..], Advance(ss[0], result)))
  }

  predicate StableEachStmt(stmt: Stmt, states: seq<State>)
    decreases stmt, 6
  {
    forall i :: 0 <= i < |states| ==> StableStmt(stmt, states[i])
  }

  predicate StableEach(ss: seq<Stmt>, states: seq<State>)
    decreases ss, 3
  {
    forall i :: 0 <= i < |states| ==> StableBlock(ss, states[i])
  }

  /** Wherever the analysis meets a loop, a second pass from the loop's own joined
      exit adds nothing to the first. */
  predicate StableStmt(stmt: Stmt, s: State)
    decreases stmt, 5
  {
    match stmt
    case If(_, body, orelse) => StableBlock(body, s) && StableBlock(orelse, s)
    case Loop(head, body, orelse) =>
      var once := LoopPass(head, body, s);
      var again := LoopPass(head, body, JoinStates(once.normal));
      && AddsNothing(once, again)
      && StableBlock(body, JoinStates(once.normal))
      && StableEach(orelse, once.normal)
    case With(items, body) => StableBlock(body, EnterItems(items, false, s).inside)
    case Try(body, handlers, orelse, finalbody) =>
      var tried := EvalBlock(body, s);
      var joined := TryBeforeFinally(stmt, s);
      && StableBlock(body, s)
      && StableEach(orelse, tried.normal)
      && (forall i :: 0 <= i < |handlers| ==> StableHandler(handlers[i], tried.raised))
      && StableEach(finalbody, joined.normal) && StableEach(finalbody, joined.raised)
      && StableEach(finalbody, joined.returned) && StableEach(finalbody, joined.broken)
      && StableEach(finalbody, joined.continued)
    case _ => true
  }

  predicate StableHandler(h: Handler, raised: seq<State>)
    decreases h, 4
  {
    forall i :: 0 <= i < |raised| ==> StableBlock(h.body, ClearTarget(h.name, raised[i]))
  }

  predicate AddsNothingTo(states: seq<State>, more: seq<State>) {
    JoinKind(states + more) == states
  }

  predicate AddsNothing(o: Outcomes, more: Outcomes) {
    && AddsNothingTo(o.normal, more.normal)
    && AddsNothingTo(o.raised, more.raised)
    && AddsNothingTo(o.returned, more.returned)
    && AddsNothingTo(o.broken, more.broken)
    && AddsNothingTo(o.continued, more.continued)
    && more.facts.Keys <= o.facts.Keys
  }

  lemma AddsNothingAccounts(o: Outcomes, more: Outcomes, k: Kind, env: Env)
    requires AddsNothing(o, more) && Accounted(more, k, env)
    ensures Accounted(o, k, env)
  {
    if !k.Probe? {
      var a, b := StatesOf(o, k), StatesOf(more, k);
      CoveredByConcat(a, b, env);
      JoinKindCovers(a + b, env);
    }
  }

  // ---------------------------------------------------------------------------
  // Runs taken apart
  // ---------------------------------------------------------------------------

  lemma FirstStep(ss: seq<Stmt>, env: Env, k: Kind, env': Env) returns (k1: Kind, mid: Env)
    requires ss != [] && RunsBlock(ss, env, k, env')
    ensures RunsStmt(ss[0], env, k1, mid)
    ensures if k1 == Normal then RunsBlock(ss[1..], mid, k, env') else k == k1 && env' == mid
  {
    k1, mid :|
      && RunsStmt(ss[0], env, k1, mid)
      && (if k1 == Normal then RunsBlock(ss[1..], mid, k, env') else k == k1 && env' == mid);
  }

  lemma FirstRound(loop: Stmt, n: nat, env: Env, k: Kind, env': Env) returns (k1: Kind, mid: Env)
    requires loop.Loop? && n > 0 && RunsLoop(loop, n, env, k, env')
    ensures (k1 == Normal || k1 == Continued) && RunsBlock(loop.body, env, k1, mid)
      && RunsLoop(loop, n - 1, mid, k, env')
  {
    k1, mid :|
      && (k1 == Normal || k1 == Continued)
      && RunsBlock(loop.body, env, k1, mid)
      && RunsLoop(loop, n - 1, mid, k, env');
  }

  lemma BeforeFinally(t: Stmt, env: Env, k: Kind, env': Env) returns (pending: Kind, mid: Env)
    requires t.Try? && RunsStmt(t, env, k, env')
    ensures RunsGuarded(t, env, pending, mid)
    ensures if pending.Probe? then k == pending && env' == mid else RunsFinally(t.finalbody, pending, mid, k, env')
  {
    pending, mid :|
      && RunsGuarded(t, env, pending, mid)
      && if pending.Probe? then k == pending && env' == mid else RunsFinally(t.finalbody, pending, mid, k, env');
  }

  lemma AfterBody(t: Stmt, env: Env, k: Kind, env': Env) returns (k1: Kind, mid: Env)
    requires t.Try? && RunsGuarded(t, env, k, env')
    ensures RunsBlock(t.body, env, k1, mid)
    ensures
      if k1 == Normal then RunsBlock(t.orelse, mid, k, env')
      else (k == k1 && env' == mid) || ((k1 == Raised || k1 == ImportFailed) && RunsHandlers(t.handlers, mid, k, env'))
  {
    k1, mid :|
      && RunsBlock(t.body, env, k1, mid)
      && (if k1 == Normal then RunsBlock(t.orelse, mid, k, env')
          else (k == k1 && env' == mid)
               || ((k1 == Raised || k1 == ImportFailed) && RunsHandlers(t.handlers, mid, k, env')));
  }

  // ---------------------------------------------------------------------------
  // Where there is no import, none fails
  // ---------------------------------------------------------------------------

  lemma {:induction false} NeverFails(ss: seq<Stmt>, env: Env, env': Env)
    requires NoImports(ss)
    ensures !RunsBlock(ss, env, ImportFailed, env')
    decreases ss, 0
  {
    if ss != [] && RunsBlock(ss, env, ImportFailed, env') {
      var k1, mid := FirstStep(ss, env, ImportFailed, env');
      if k1 == Normal { NeverFails(ss[1..], mid, env'); } else { StmtNeverFails(ss[0], env, env'); }
    }
  }

  lemma {:induction false} StmtNeverFails(stmt: Stmt, env: Env, env': Env)
    requires NoImport(stmt)
    ensures !RunsStmt(stmt, env, ImportFailed, env')
    decreases stmt, 5
  {
    match stmt
    case If(_, body, orelse) =>
      NeverFails(body, env, env');
      NeverFails(orelse, env, env');
    case Loop(_, _, _) =>
      if n: nat :| RunsLoop(stmt, n, env, ImportFailed, env') { LoopNeverFails(stmt, n, env, env'); }
    case With(_, _) => WithNeverFails(stmt, 0, env, env');
    case Try(_, _, _, _) => TryNeverFails(stmt, env, env');
    case _ =>
  }

  lemma {:induction false} LoopNeverFails(loop: Stmt, n: nat, env: Env, env': Env)
    requires loop.Loop? && NoImport(loop)
    ensures !RunsLoop(loop, n, env, ImportFailed, env')
    decreases loop, 1, n
  {
    if n == 0 {
      NeverFails(loop.body, env, env');
      NeverFails(loop.orelse, env, env');
    } else if RunsLoop(loop, n, env, ImportFailed, env') {
      var _, mid := FirstRound(loop, n, env, ImportFailed, env');
      LoopNeverFails(loop, n - 1, mid, env');
    }
  }

  lemma {:induction false} WithNeverFails(w: Stmt, i: nat, env: Env, env': Env)
    requires w.With? && i <= |w.items| && NoImport(w)
    ensures !RunsWith(w, i, env, ImportFailed, env')
    decreases w, 1, |w.items| - i
  {
    if i == |w.items| {
      NeverFails(w.body, env, env');
    } else if RunsWith(w, i, env, ImportFailed, env') {
      var v: Value :| RunsWith(w, i + 1, Bind(w.items[i].target, v, env), ImportFailed, env');
      WithNeverFails(w, i + 1, Bind(w.items[i].target, v, env), env');
    }
  }

  lemma {:induction false} TryNeverFails(t: Stmt, env: Env, env': Env)
    requires t.Try? && NoImport(t)
    ensures !RunsStmt(t, env, ImportFailed, env')
    decreases t, 4
  {
    if RunsStmt(t, env, ImportFailed, env') {
      var pending, mid := BeforeFinally(t, env, ImportFailed, env');
      NeverFails(t.finalbody, mid, env');
      GuardedNeverFails(t, env, mid);
    }
  }

  lemma {:induction false} GuardedNeverFails(t: Stmt, env: Env, env': Env)
    requires t.Try? && NoImports(t.body) && NoImports(t.orelse)
    requires forall i :: 0 <= i < |t.handlers| ==> NoImports(t.handlers[i].body)
    ensures !RunsGuarded(t, env, ImportFailed, env')
    decreases t, 3
  {
    if RunsGuarded(t, env, ImportFailed, env') {
      var k1, mid := AfterBody(t, env, ImportFailed, env');
      NeverFails(t.body, env, mid);
      NeverFails(t.orelse, mid, env');
      HandlersNeverFail(t.handlers, mid, env');
    }
  }

  lemma {:induction false} HandlersNeverFail(handlers: seq<Handler>, env: Env, env': Env)
    requires forall i :: 0 <= i < |handlers| ==> NoImports(handlers[i].body)
    ensures !RunsHandlers(handlers, env, ImportFailed, env')
    decreases handlers, 3
  {
    if RunsHandlers(handlers, env, ImportFailed, env') {
      if RunsHandler(handlers[0], env, ImportFailed, env') {
        var h := handlers[0];
        var mid: Env :| RunsBlock(h.body, Bind(h.name, Plain, env), ImportFailed, mid) && env' == Unbind(h.name, mid);
        NeverFails(h.body, Bind(h.name, Plain, env), mid);
      } else {
        HandlersNeverFail(handlers[1..], env, env');
      }
    }
  }

  // ---------------------------------------------------------------------------
  // Soundness
  // ---------------------------------------------------------------------------

  lemma InterruptedAccounted(e: Expr, s: State, env: Env, k: Kind)
    requires Followed(e) && Covers(s, env) && Interrupted(e, env, k)
    ensures Accounted(EvalExpr(e, s), k, env)
  {
    if k.Probe? { ObservationsRecorded(e, s, env, k.pos); } else { assert Covers(EvalExpr(e, s).raised[0], env); }
  }

  lemma ClearCovers(target: Option<Name>, s: State, env: Env)
    requires Covers(s, env)
    ensures Covers(ClearTarget(target, s), Bind(target, Plain, env))
    ensures Covers(ClearTarget(target, s), Unbind(target, env))
  {
    forall x | x in Bind(target, Plain, env)
      ensures CoversValue(ClearTarget(target, s), x, Bind(target, Plain, env)[x])
    {
      assert x in env ==> CoversValue(s, x, env[x]);
    }
  }

  lemma BindTargetCovers(item: Item, s: State, env: Env, v: Value)
    requires TrackedItem(item) && Covers(s, env) && CanBe(item.context, env, v)
    ensures Covers(BindTarget(item.target, item.context, s), Bind(item.target, v, env))
  {
    if item.target.Some? { AssignCovers(item.target.value, item.context, s, env, v); }
  }

  lemma PossibleCovers(s: State, env: Env)
    requires Covers(s, env)
    ensures Covers(PossibleState(s), env)
  {
    forall x | x in env
      ensures CoversValue(PossibleState(s), x, env[x])
    {
      assert CoversValue(s, x, env[x]);
    }
  }

  /** Fewer bindings are covered by the same state. */
  lemma UnboundCovers(s: State, env: Env, target: Option<Name>)
    requires Covers(s, env)
    ensures Covers(s, Unbind(target, env))
  {
    forall x | x in Unbind(target, env)
      ensures CoversValue(s, x, Unbind(target, env)[x])
    {
      assert CoversValue(s, x, env[x]);
    }
  }

  lemma UnboundAccounted(o: Outcomes, k: Kind, env: Env, target: Option<Name>)
    requires Accounted(o, k, env)
    ensures Accounted(o, k, Unbind(target, env))
  {
    if !k.Probe? {
      var states := StatesOf(o, k);
      var i :| 0 <= i < |states| && Covers(states[i], env);
      UnboundCovers(states[i], env, target);
    }
  }

  /** What piles up stays accounted for while the rest of the block is analysed. */
  lemma {:induction false} PiledStays(ss: seq<Stmt>, result: Outcomes, k: Kind, env: Env)
    requires k != Normal && Accounted(result, k, env)
    ensures Accounted(EvalFrom(ss, result), k, env)
    decreases |ss|
  {
    if ss == [] {
      JoinAccounts([result], result, k, env);
    } else {
      var next := Advance(ss[0], result);
      if !k.Probe? {
        var i :| 0 <= i < |StatesOf(result, k)| && Covers(StatesOf(result, k)[i], env);
        assert StatesOf(next, k)[i] == StatesOf(result, k)[i];
      }
      PiledStays(ss[1..], next, k, env);
    }
  }

  /** Every run of a block from a covered environment is accounted for. */
  lemma {:induction false} BlockSound(ss: seq<Stmt>, s: State, env: Env, k: Kind, env': Env)
    requires TrackedBlock(ss) && StableBlock(ss, s)
    requires Covers(s, env) && RunsBlock(ss, env, k, env') && k != ImportFailed
    ensures Accounted(EvalBlock(ss, s), k, env')
    decreases ss, 1
  {
    var start := NO_OUTCOMES.(normal := [s]);
    assert Covers(start.normal[0], env);
    FromSound(ss, start, env, k, env');
  }

  lemma {:induction false} FromSound(ss: seq<Stmt>, result: Outcomes, env: Env, k: Kind, env': Env)
    requires TrackedBlock(ss) && StableFrom(ss, result)
    requires CoveredBySome(result.normal, env) && RunsBlock(ss, env, k, env') && k != ImportFailed
    ensures Accounted(EvalFrom(ss, result), k, env')
    decreases ss, 0
  {
    if ss == [] {
      JoinAccounts([result], result, Normal, env');
    } else {
      var k1, mid := FirstStep(ss, env, k, env');
      AdvanceSound(ss[0], result, env, k1, mid);
      if k1 == Normal {
        FromSound(ss[1..], Advance(ss[0], result), mid, k, env');
      } else {
        PiledStays(ss[1..], Advance(ss[0], result), k1, mid);
      }
    }
  }

  lemma {:induction false} AdvanceSound(stmt: Stmt, result: Outcomes, env: Env, k: Kind, env': Env)
    requires TrackedStmt(stmt) && StableEachStmt(stmt, result.normal)
    requires CoveredBySome(result.normal, env) && RunsStmt(stmt, env, k, env') && k != ImportFailed
    ensures Accounted(Advance(stmt, result), k, env')
    decreases stmt, 6
  {
    var i :| 0 <= i < |result.normal| && Covers(result.normal[i], env);
    StmtSound(stmt, result.normal[i], env, k, env');
    AdvanceAccounts(stmt, result, i, k, env');
  }

  lemma AdvanceAccounts(stmt: Stmt, result: Outcomes, i: nat, k: Kind, env: Env)
    requires i < |result.normal| && Accounted(EvalStmt(stmt, result.normal[i]), k, env)
    ensures Accounted(Advance(stmt, result), k, env)
  {
    var following := EvalEachStmt(stmt, result.normal);
    JoinAccounts(following, following[i], k, env);
    PileAccounts(result, JoinOutcomes(following), k, env);
  }

  lemma PileAccounts(result: Outcomes, transferred: Outcomes, k: Kind, env: Env)
    requires Accounted(transferred, k, env)
    ensures Accounted(Pile(result, transferred), k, env)
  {
    if !k.Probe? { CoveredByConcat(StatesOf(result, k), StatesOf(transferred, k), env); }
  }

  /** A block started in each of several states, one of which covers the environment. */
  lemma {:induction false} EachSound(ss: seq<Stmt>, states: seq<State>, env: Env, k: Kind, env': Env)
    returns (o: Outcomes)
    requires TrackedBlock(ss) && StableEach(ss, states)
    requires CoveredBySome(states, env) && RunsBlock(ss, env, k, env') && k != ImportFailed
    ensures o in EvalEach(ss, states) && Accounted(o, k, env')
    decreases ss, 2
  {
    var i :| 0 <= i < |states| && Covers(states[i], env);
    o := EvalEach(ss, states)[i];
    BlockSound(ss, states[i], env, k, env');
  }

  lemma {:induction false} StmtSound(stmt: Stmt, s: State, env: Env, k: Kind, env': Env)
    requires TrackedStmt(stmt) && StableStmt(stmt, s)
    requires Covers(s, env) && RunsStmt(stmt, env, k, env') && k != ImportFailed
    ensures Accounted(EvalStmt(stmt, s), k, env')
    decreases stmt, 5
  {
    match stmt
    case Import(name, origin) => ImportSound(name, origin, s, env);
    case Assign(target, value) => AssignSound(target, value, s, env, k, env');
    case Delete(pos, name) => DeleteSound(pos, name, s, env, k, env');
    case Evaluate(value) =>
      if k == Normal {
        assert Covers(EvalExpr(value, s).normal[0], env);
      } else {
        InterruptedAccounted(value, s, env, k);
      }
    case Return(result) => LeaveSound(stmt, result, s, env, k);
    case Raise(exc) => LeaveSound(stmt, exc, s, env, k);
    case Break => assert Covers(EvalStmt(stmt, s).broken[0], env');
    case Continue => assert Covers(EvalStmt(stmt, s).continued[0], env');
    case If(test, body, orelse) => IfSound(stmt, s, env, k, env');
    case Loop(head, body, orelse) =>
      LoopStmtSound(stmt, s, env, k, env');
    case With(items, body) => WithSound(stmt, s, env, k, env');
    case Try(_, _, _, _) => TryStmtSound(stmt, s, env, k, env');
  }

  lemma {:induction false} LoopStmtSound(loop: Stmt, s: State, env: Env, k: Kind, env': Env)
    requires loop.Loop? && TrackedStmt(loop) && StableStmt(loop, s)
    requires Covers(s, env) && RunsStmt(loop, env, k, env') && k != ImportFailed
    ensures Accounted(EvalStmt(loop, s), k, env')
    decreases loop, 3
  {
    var n: nat :| RunsLoop(loop, n, env, k, env');
    PassCoversEntry(loop.head, loop.body, s, env);
    var pass := LoopPass(loop.head, loop.body, s).normal;
    forall from: Env, k1: Kind, mid: Env
      | CoveredBySome(pass, from) && (k1 == Normal || k1 == Continued) && RunsBlock(loop.body, from, k1, mid)
      ensures CoveredBySome(pass, mid)
    {
      RoundCovers(loop, s, from, k1, mid);
    }
    var last := LoopSound(loop, n, pass, env, k, env');
    LastRoundSound(loop, s, last, k, env');
  }

  lemma {:induction false} TryStmtSound(t: Stmt, s: State, env: Env, k: Kind, env': Env)
    requires t.Try? && TrackedStmt(t) && StableStmt(t, s)
    requires Covers(s, env) && RunsStmt(t, env, k, env') && k != ImportFailed
    ensures Accounted(EvalStmt(t, s), k, env')
    decreases t, 4
  {
    var pending, mid := BeforeFinally(t, env, k, env');
    if pending == ImportFailed { GuardedNeverFails(t, env, mid); }
    GuardedSound(t, s, env, pending, mid);
    if !pending.Probe? { FinallyIsStable(t, s, pending); }
    FinallySound(t, s, pending, mid, k, env');
  }

  lemma {:induction false} IfSound(stmt: Stmt, s: State, env: Env, k: Kind, env': Env)
    requires stmt.If? && TrackedStmt(stmt) && StableStmt(stmt, s)
    requires Covers(s, env) && RunsStmt(stmt, env, k, env') && k != ImportFailed
    ensures Accounted(EvalIf(stmt, s), k, env')
    decreases stmt, 4
  {
    var tested := NO_OUTCOMES.(raised := [s], facts := Records(stmt.test, s));
    var branches := [tested, EvalBlock(stmt.body, s), EvalBlock(stmt.orelse, s)];
    if Interrupted(stmt.test, env, k) && env' == env {
      InterruptedAccounted(stmt.test, s, env, k);
      JoinAccounts(branches, tested, k, env');
    } else if RunsBlock(stmt.body, env, k, env') {
      BlockSound(stmt.body, s, env, k, env');
      JoinAccounts(branches, branches[1], k, env');
    } else {
      BlockSound(stmt.orelse, s, env, k, env');
      JoinAccounts(branches, branches[2], k, env');
    }
  }

  lemma PassCoversEntry(head: Expr, body: seq<Stmt>, s: State, env: Env)
    requires Covers(s, env)
    ensures CoveredBySome(LoopPass(head, body, s).normal, env)
  {
    var zero := NO_OUTCOMES.(normal := [s], raised := [s], facts := Records(head, s));
    var once := EvalBlock(body, s);
    assert Covers(zero.normal[0], env);
    JoinAccounts([zero, once.(normal := [s] + once.normal + once.continued, continued := [])], zero, Normal, env);
  }

  lemma ImportSound(name: Name, origin: Origin, s: State, env: Env)
    requires Covers(s, env)
    ensures Accounted(EvalStmt(Import(name, origin), s), Normal, env[name := Imported(origin)])
  {
    var s', env' := BindImport(name, origin, s), env[name := Imported(origin)];
    forall x | x in env'
      ensures CoversValue(s', x, env'[x])
    {
      assert x != name ==> CoversValue(s, x, env[x]);
    }
    assert Covers(EvalStmt(Import(name, origin), s).normal[0], env');
  }

  lemma AssignSound(target: Name, value: Expr, s: State, env: Env, k: Kind, env': Env)
    requires Followed(value) && FollowedWithout(value, Some(target))
    requires Covers(s, env) && RunsStmt(Assign(target, value), env, k, env')
    ensures Accounted(EvalAssign(target, value, s), k, env')
  {
    var bound := AssignValue(target, value, s);
    var pair := NO_OUTCOMES.(normal := [bound], raised := [bound]);
    var inner := JoinOutcomes([pair]);
    var o := NO_OUTCOMES.(normal := inner.normal, raised := [s] + inner.raised, facts := Records(value, s));
    if Interrupted(value, env, k) && env' == env {
      InterruptedAccounted(value, s, env, k);
      if k == Raised { assert Covers(o.raised[0], env'); }
    } else {
      var v: Value :| CanBe(value, env, v) && env' == env[target := v];
      AssignCovers(target, value, s, env, v);
      assert Covers(StatesOf(pair, k)[0], env');
      JoinAccounts([pair], pair, k, env');
      CoveredByConcat([s], inner.raised, env');
    }
    JoinAccounts([o], o, k, env');
  }

  lemma DeleteSound(pos: nat, name: Name, s: State, env: Env, k: Kind, env': Env)
    requires Covers(s, env) && RunsStmt(Delete(pos, name), env, k, env')
    ensures Accounted(EvalDelete(pos, name, s), k, env')
  {
    var o := EvalExpr(Load(pos, name), s).(normal := [Clear(name, s)]);
    if k == Raised {
      assert Covers(o.raised[0], env');
    } else {
      ClearCovers(Some(name), s, env);
      assert Covers(o.normal[0], env');
    }
    JoinAccounts([NO_OUTCOMES, o], o, k, env');
  }

  /** Return and raise. */
  lemma LeaveSound(stmt: Stmt, value: Option<Expr>, s: State, env: Env, k: Kind)
    requires stmt == Return(value) || stmt == Raise(value)
    requires FollowedOptional(value) && Covers(s, env) && RunsStmt(stmt, env, k, env)
    ensures Accounted(EvalStmt(stmt, s), k, env)
  {
    var o := EvalStmt(stmt, s);
    if value.Some? && Interrupted(value.value, env, k) {
      InterruptedAccounted(value.value, s, env, k);
      if k == Raised { assert Covers(o.raised[0], env); }
    } else {
      assert Covers(StatesOf(o, k)[0], env);
    }
  }

  /** Loops: every round, and so the last, starts covered by the loop's joined exit. */
  lemma {:induction false} LoopSound(loop: Stmt, n: nat, pass: seq<State>, env: Env, k: Kind, env': Env)
    returns (last: Env)
    requires loop.Loop? && Stays(loop, pass)
    requires CoveredBySome(pass, env) && RunsLoop(loop, n, env, k, env')
    ensures CoveredBySome(pass, last) && RunsLoop(loop, 0, last, k, env')
    decreases n
  {
    if n == 0 {
      last := env;
    } else {
      var k1, mid := FirstRound(loop, n, env, k, env');
      assert CoveredBySome(pass, mid);
      last := LoopSound(loop, n - 1, pass, mid, k, env');
    }
  }

  /** A round of the body leads from covered environments to covered environments. */
  ghost predicate Stays(loop: Stmt, pass: seq<State>)
    requires loop.Loop?
  {
    forall env: Env, k1: Kind, mid: Env ::
      CoveredBySome(pass, env) && (k1 == Normal || k1 == Continued) && RunsBlock(loop.body, env, k1, mid)
      ==> CoveredBySome(pass, mid)
  }

  lemma {:induction false} RoundCovers(loop: Stmt, s: State, env: Env, k1: Kind, mid: Env)
    requires loop.Loop? && TrackedStmt(loop) && StableStmt(loop, s)
    requires CoveredBySome(LoopPass(loop.head, loop.body, s).normal, env)
    requires (k1 == Normal || k1 == Continued) && RunsBlock(loop.body, env, k1, mid)
    ensures CoveredBySome(LoopPass(loop.head, loop.body, s).normal, mid)
    decreases loop, 1
  {
    RoundSound(loop, s, env, k1, mid);
    assert StatesOf(LoopPass(loop.head, loop.body, s), Normal) == LoopPass(loop.head, loop.body, s).normal;
  }

  lemma {:induction false} LastRoundSound(loop: Stmt, s: State, env: Env, k: Kind, env': Env)
    requires loop.Loop? && TrackedStmt(loop) && StableStmt(loop, s)
    requires CoveredBySome(LoopPass(loop.head, loop.body, s).normal, env)
    requires RunsLoop(loop, 0, env, k, env') && k != ImportFailed
    ensures Accounted(LoopExit(loop.orelse, LoopPass(loop.head, loop.body, s)), k, env')
    decreases loop, 1
  {
    if RunsBlock(loop.orelse, env, k, env') {
      ElseSound(loop.orelse, LoopPass(loop.head, loop.body, s), env, k, env');
    } else {
      var k' := if Interrupted(loop.head, env, k) && env' == env then k else if k == Normal then Broken else k;
      RoundSound(loop, s, env, k', env');
      LoopLeaveSound(loop, s, k', env');
    }
  }

  /** One round, from anywhere the loop's joined exit covers, stays within what the
      first pass found. */
  lemma {:induction false} RoundSound(loop: Stmt, s: State, env: Env, k: Kind, env': Env)
    requires loop.Loop? && TrackedStmt(loop) && StableStmt(loop, s)
    requires CoveredBySome(LoopPass(loop.head, loop.body, s).normal, env)
    requires k != ImportFailed
    requires RunsBlock(loop.body, env, k, env') || (Interrupted(loop.head, env, k) && env' == env)
    ensures Accounted(LoopPass(loop.head, loop.body, s), if k == Continued then Normal else k, env')
    decreases loop, 0
  {
    var head := JoinStates(LoopPass(loop.head, loop.body, s).normal);
    JoinKindCovers(LoopPass(loop.head, loop.body, s).normal, env);
    assert Covers(JoinKind(LoopPass(loop.head, loop.body, s).normal)[0], env);
    if RunsBlock(loop.body, env, k, env') {
      BlockSound(loop.body, head, env, k, env');
      BodyPassAccounts(loop.head, loop.body, head, k, env');
    } else {
      InterruptedAccounted(loop.head, head, env, k);
      HeadPassAccounts(loop.head, loop.body, head, k, env');
    }
    AddsNothingAccounts(
      LoopPass(loop.head, loop.body, s), LoopPass(loop.head, loop.body, head),
      if k == Continued then Normal else k, env');
  }

  /** A pass over the loop accounts for what its body does ... */
  lemma BodyPassAccounts(head: Expr, body: seq<Stmt>, s: State, k: Kind, env: Env)
    requires Accounted(EvalBlock(body, s), k, env)
    ensures Accounted(LoopPass(head, body, s), if k == Continued then Normal else k, env)
  {
    var entry := NO_OUTCOMES.(normal := [s], raised := [s], facts := Records(head, s));
    var once := EvalBlock(body, s);
    var merged := once.(normal := [s] + once.normal + once.continued, continued := []);
    CoveredByConcat([s] + once.normal, once.continued, env);
    CoveredByConcat([s], once.normal, env);
    JoinAccounts([entry, merged], merged, if k == Continued then Normal else k, env);
  }

  /** ... and for its test. */
  lemma HeadPassAccounts(head: Expr, body: seq<Stmt>, s: State, k: Kind, env: Env)
    requires k != Continued && Accounted(EvalExpr(head, s), k, env)
    ensures Accounted(LoopPass(head, body, s), k, env)
  {
    var entry := NO_OUTCOMES.(normal := [s], raised := [s], facts := Records(head, s));
    var once := EvalBlock(body, s);
    JoinAccounts([entry, once.(normal := [s] + once.normal + once.continued, continued := [])], entry, k, env);
  }

  /** Leaving the loop without `else`. */
  lemma LoopLeaveSound(loop: Stmt, s: State, k: Kind, env: Env)
    requires loop.Loop? && k != Normal && k != Continued
    requires Accounted(LoopPass(loop.head, loop.body, s), k, env)
    ensures Accounted(LoopExit(loop.orelse, LoopPass(loop.head, loop.body, s)), if k == Broken then Normal else k, env)
  {
    var joined := LoopPass(loop.head, loop.body, s);
    var k' := if k == Broken then Normal else k;
    if loop.orelse == [] {
      var o := joined.(normal := joined.normal + joined.broken, broken := []);
      CoveredByConcat(joined.normal, joined.broken, env);
      JoinAccounts([o], o, k', env);
      assert LoopExit(loop.orelse, joined) == JoinOutcomes([o]);
    } else {
      var o := joined.(normal := joined.broken, broken := []);
      JoinAccounts([o] + EvalEach(loop.orelse, joined.normal), o, k', env);
      assert LoopExit(loop.orelse, joined) == JoinOutcomes([o] + EvalEach(loop.orelse, joined.normal));
    }
  }

  /** The test fails and `else` runs. */
  lemma {:induction false} ElseSound(orelse: seq<Stmt>, joined: Outcomes, env: Env, k: Kind, env': Env)
    requires TrackedBlock(orelse) && StableEach(orelse, joined.normal)
    requires CoveredBySome(joined.normal, env) && RunsBlock(orelse, env, k, env') && k != ImportFailed
    ensures Accounted(LoopExit(orelse, joined), k, env')
    decreases orelse, 3
  {
    if orelse == [] {
      var o := joined.(normal := joined.normal + joined.broken, broken := []);
      CoveredByConcat(joined.normal, joined.broken, env);
      JoinAccounts([o], o, Normal, env);
      assert LoopExit(orelse, joined) == JoinOutcomes([o]);
    } else {
      var e := EachSound(orelse, joined.normal, env, k, env');
      JoinAccounts([joined.(normal := joined.broken, broken := [])] + EvalEach(orelse, joined.normal), e, k, env');
    }
  }

  /** The body of a `with` ends as `k`, or a manager swallows its exception. */
  ghost predicate EndsBody(body: seq<Stmt>, env: Env, k: Kind, env': Env) {
    || RunsBlock(body, env, k, env')
    || (k == Normal && (RunsBlock(body, env, Raised, env') || RunsBlock(body, env, ImportFailed, env')))
  }

  /** A `with` run either ends while the managers are entered or runs the body from a
      covered environment. */
  lemma {:induction false} EntrySound(w: Stmt, i: nat, s: State, env: Env, k: Kind, env': Env) returns (mid: Env)
    requires w.With? && i <= |w.items| && TrackedStmt(w)
    requires Covers(s, env) && RunsWith(w, i, env, k, env')
    ensures var e := EnterItems(w.items[i..], i > 0, s);
      || (k == Raised && CoveredBySome(e.raised, env'))
      || (k == Normal && CoveredBySome(e.suppressed, env'))
      || (k.Probe? && k.pos in e.facts)
      || (Covers(e.inside, mid) && EndsBody(w.body, mid, k, env'))
    decreases |w.items| - i, 1
  {
    mid := env;
    if i < |w.items| {
      var item := w.items[i];
      var bound := BindTarget(item.target, item.context, s);
      assert w.items[i..][0] == item && w.items[i..][1..] == w.items[i + 1..];
      var e := EnterItems(w.items[i..], i > 0, s);
      PossibleCovers(s, env);
      if Interrupted(item.context, env, k) && env' == env {
        InterruptedAccounted(item.context, s, env, k);
        if k == Raised { assert Covers(e.raised[0], env'); }
      } else if i > 0 && k == Normal && env' == env {
        assert Covers(e.suppressed[0], env');
      } else {
        mid := BoundSound(w, i, s, env, k, env');
      }
    }
  }

  /** An item whose context manager was evaluated and bound. */
  lemma {:induction false} BoundSound(w: Stmt, i: nat, s: State, env: Env, k: Kind, env': Env) returns (mid: Env)
    requires w.With? && i < |w.items| && TrackedStmt(w) && Covers(s, env)
    requires exists v: Value ::
      CanBe(w.items[i].context, env, v) && AfterItem(w, i, Bind(w.items[i].target, v, env), k, env')
    ensures var e := EnterItems(w.items[i..], i > 0, s);
      || (k == Raised && CoveredBySome(e.raised, env'))
      || (k == Normal && CoveredBySome(e.suppressed, env'))
      || (k.Probe? && k.pos in e.facts)
      || (Covers(e.inside, mid) && EndsBody(w.body, mid, k, env'))
    decreases |w.items| - i, 0
  {
    mid := env;
    var item := w.items[i];
    var bound := BindTarget(item.target, item.context, s);
    var e := EnterItems(w.items[i..], i > 0, s);
    assert w.items[i..][0] == item && w.items[i..][1..] == w.items[i + 1..];
    var v: Value :| CanBe(item.context, env, v) && AfterItem(w, i, Bind(item.target, v, env), k, env');
    var here := Bind(item.target, v, env);
    BindTargetCovers(item, s, env, v);
    PossibleCovers(bound, here);
    if env' == here && k == Raised {
      assert Covers(e.raised[1], env');
    } else if env' == here && i > 0 && k == Normal {
      assert Covers(e.suppressed[1], env');
    } else {
      MergeCovers([bound], 0, here);
      mid := EntrySound(w, i + 1, JoinStates([bound]), here, k, env');
      EnteredDeeper(w.items[i..], i > 0, s, k, env');
    }
  }

  /** What may follow once item `i` is bound. */
  ghost predicate AfterItem(w: Stmt, i: nat, here: Env, k: Kind, env': Env)
    requires w.With? && i < |w.items|
  {
    (env' == here && (k == Raised || (i > 0 && k == Normal))) || RunsWith(w, i + 1, here, k, env')
  }

  lemma EnteredDeeper(items: seq<Item>, entered: bool, s: State, k: Kind, env: Env)
    requires items != []
    ensures
      var e := EnterItems(items, entered, s);
      var rest := EnterItems(items[1..], true, JoinStates([BindTarget(items[0].target, items[0].context, s)]));
      && e.inside == rest.inside
      && (CoveredBySome(rest.raised, env) ==> CoveredBySome(e.raised, env))
      && (CoveredBySome(rest.suppressed, env) ==> CoveredBySome(e.suppressed, env))
      && rest.facts.Keys <= e.facts.Keys
  {
    var bound := BindTarget(items[0].target, items[0].context, s);
    var rest := EnterItems(items[1..], true, JoinStates([bound]));
    CoveredByConcat([s, bound], rest.raised, env);
    CoveredByConcat(if entered then [PossibleState(s), PossibleState(bound)] else [], rest.suppressed, env);
  }

  lemma {:induction false} WithSound(w: Stmt, s: State, env: Env, k: Kind, env': Env)
    requires w.With? && TrackedStmt(w) && StableStmt(w, s)
    requires Covers(s, env) && RunsWith(w, 0, env, k, env') && k != ImportFailed
    ensures Accounted(EvalWith(w, s), k, env')
    decreases w, 4
  {
    var entry := EnterItems(w.items, false, s);
    var inside := EvalBlock(w.body, entry.inside);
    var first := NO_OUTCOMES.(raised := entry.raised + inside.raised,
                              normal := entry.suppressed + PossibleStates(inside.raised),
                              facts := entry.facts);
    assert w.items[0..] == w.items;
    var mid := EntrySound(w, 0, s, env, k, env');
    CoveredByConcat(entry.raised, inside.raised, env');
    CoveredByConcat(entry.suppressed, PossibleStates(inside.raised), env');
    NeverFails(w.body, mid, env');
    if Covers(entry.inside, mid) && RunsBlock(w.body, mid, k, env') {
      BlockSound(w.body, entry.inside, mid, k, env');
      JoinAccounts([first, inside], inside, k, env');
    } else if Covers(entry.inside, mid) && k == Normal && RunsBlock(w.body, mid, Raised, env') {
      BlockSound(w.body, entry.inside, mid, Raised, env');
      var i :| 0 <= i < |inside.raised| && Covers(inside.raised[i], env');
      PossibleCovers(inside.raised[i], env');
      assert Covers(PossibleStates(inside.raised)[i], env');
      JoinAccounts([first, inside], first, k, env');
    } else {
      JoinAccounts([first, inside], first, k, env');
    }
  }

  lemma {:induction false} GuardedSound(t: Stmt, s: State, env: Env, k: Kind, env': Env)
    requires t.Try? && TrackedStmt(t) && StableStmt(t, s)
    requires Covers(s, env) && RunsGuarded(t, env, k, env') && k != ImportFailed
    ensures Accounted(TryBeforeFinally(t, s), k, env')
    decreases t, 3
  {
    var k1, mid := AfterBody(t, env, k, env');
    NeverFails(t.body, env, mid);
    BlockSound(t.body, s, env, k1, mid);
    var tried := EvalBlock(t.body, s);
    var seen := NO_OUTCOMES.(facts := tried.facts);
    var unmatched := NO_OUTCOMES.(raised := tried.raised);
    var passed := NO_OUTCOMES.(returned := tried.returned, broken := tried.broken, continued := tried.continued);
    var os := [seen] + EvalEach(t.orelse, tried.normal) + EvalHandlers(t.handlers, tried.raised) + [unmatched]
      + [passed];
    var o := if k1.Probe? then seen else if k1 == Raised then unmatched else passed;
    if k1 == Normal {
      o := EachSound(t.orelse, tried.normal, mid, k, env');
    } else if k1 == Raised && !(k == Raised && env' == mid) {
      o := HandlersSound(t.handlers, tried.raised, mid, k, env');
    }
    JoinAccounts(os, o, k, env');
  }

  lemma {:induction false} HandlersSound(handlers: seq<Handler>, raised: seq<State>, env: Env, k: Kind, env': Env)
    returns (o: Outcomes)
    requires forall i :: 0 <= i < |handlers| ==> TrackedBlock(handlers[i].body) && StableHandler(handlers[i], raised)
    requires CoveredBySome(raised, env) && RunsHandlers(handlers, env, k, env') && k != ImportFailed
    ensures o in EvalHandlers(handlers, raised) && Accounted(o, k, env')
    decreases handlers, 3
  {
    var h := handlers[0];
    if RunsHandler(h, env, k, env') {
      var i :| 0 <= i < |raised| && Covers(raised[i], env);
      var mid: Env :| RunsBlock(h.body, Bind(h.name, Plain, env), k, mid) && env' == Unbind(h.name, mid);
      ClearCovers(h.name, raised[i], env);
      o := EvalHandler(h, raised)[i];
      BlockSound(h.body, ClearTarget(h.name, raised[i]), Bind(h.name, Plain, env), k, mid);
      UnboundAccounted(o, k, mid, h.name);
    } else {
      o := HandlersSound(handlers[1..], raised, env, k, env');
    }
  }

  /** The hypotheses on the program and the analysis, for `finally`. */
  lemma FinallyIsStable(t: Stmt, s: State, pending: Kind)
    requires t.Try? && TrackedStmt(t) && StableStmt(t, s) && !pending.Probe? && pending != ImportFailed
    ensures TrackedBlock(t.finalbody) && StableEach(t.finalbody, StatesOf(TryBeforeFinally(t, s), pending))
  {
  }

  lemma {:induction false} FinallySound(t: Stmt, s: State, pending: Kind, env: Env, k: Kind, env': Env)
    requires t.Try? && TrackedBlock(t.finalbody)
    requires !pending.Probe? && pending != ImportFailed
      ==> StableEach(t.finalbody, StatesOf(TryBeforeFinally(t, s), pending))
    requires Accounted(TryBeforeFinally(t, s), pending, env)
    requires if pending.Probe? then k == pending && env' == env else RunsFinally(t.finalbody, pending, env, k, env')
    requires k != ImportFailed
    ensures Accounted(EvalTry(t, s), k, env')
    decreases t, 2
  {
    if t.finalbody == [] {
      if !pending.Probe? { NothingFinally(pending, env, k, env'); }
    } else {
      FinallyAllSound(t.finalbody, TryBeforeFinally(t, s), pending, env, k, env');
    }
  }

  lemma NothingFinally(pending: Kind, env: Env, k: Kind, env': Env)
    requires RunsFinally([], pending, env, k, env')
    ensures k == pending && env' == env
  {
  }

  lemma {:induction false} FinallyAllSound(
    finalbody: seq<Stmt>, joined: Outcomes, pending: Kind, env: Env, k: Kind, env': Env)
    requires TrackedBlock(finalbody) && Accounted(joined, pending, env) && k != ImportFailed
    requires !pending.Probe? && pending != ImportFailed ==> StableEach(finalbody, StatesOf(joined, pending))
    requires if pending.Probe? then k == pending && env' == env else RunsFinally(finalbody, pending, env, k, env')
    ensures Accounted(JoinOutcomes(FinallyAll(finalbody, joined)), k, env')
    decreases finalbody, 5
  {
    var o := NO_OUTCOMES.(facts := joined.facts);
    if !pending.Probe? {
      o := ResumedSound(finalbody, StatesOf(joined, pending), pending, env, k, env');
      AmongFinally(finalbody, joined, pending, o);
    }
    JoinAccounts(FinallyAll(finalbody, joined), o, k, env');
  }

  lemma AmongFinally(finalbody: seq<Stmt>, joined: Outcomes, pending: Kind, o: Outcomes)
    requires !pending.Probe? && pending != ImportFailed
      && o in FinallyFor(finalbody, pending, StatesOf(joined, pending))
    ensures o in FinallyAll(finalbody, joined)
  {
  }

  /** `finally`, started in each of the states of one way out. */
  lemma {:induction false} ResumedSound(finalbody: seq<Stmt>, states: seq<State>, pending: Kind, env: Env, k: Kind,
    env': Env)
    returns (o: Outcomes)
    requires TrackedBlock(finalbody) && StableEach(finalbody, states) && !pending.Probe? && pending != ImportFailed
    requires CoveredBySome(states, env) && RunsFinally(finalbody, pending, env, k, env') && k != ImportFailed
    ensures o in FinallyFor(finalbody, pending, states) && Accounted(o, k, env')
    decreases finalbody, 4
  {
    var i :| 0 <= i < |states| && Covers(states[i], env);
    var k1: Kind :| RunsBlock(finalbody, env, k1, env') && k == (if k1 == Normal then pending else k1);
    BlockSound(finalbody, states[i], env, k1, env');
    ResumeSound(pending, EvalBlock(finalbody, states[i]), k1, env');
    o := FinallyFor(finalbody, pending, states)[i];
  }

  lemma ResumeSound(pending: Kind, final: Outcomes, k: Kind, env: Env)
    requires !pending.Probe? && pending != ImportFailed && Accounted(final, k, env)
    ensures Accounted(Resume(pending, final), if k == Normal then pending else k, env)
  {
    CoveredByConcat(final.raised, if pending == Raised then final.normal else [], env);
    CoveredByConcat(final.returned, if pending == Returned then final.normal else [], env);
    CoveredByConcat(final.broken, if pending == Broken then final.normal else [], env);
    CoveredByConcat(final.continued, if pending == Continued then final.normal else [], env);
  }
}
