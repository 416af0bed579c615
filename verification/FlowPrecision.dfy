/** How precise the flow analysis is: merging loses nothing.

    Forwards, with all its merges, the analysis of a statement says exactly what claims
    carried backwards along single control paths say: which names may hold a projection,
    which may hold something else, and which expressions get a fact.

    Modelled on scripts/graph_projection_boundary_provenance.py.  */
module FlowPrecision {
  import opened Common
  import opened FlowAnalysis
  import opened FlowClaims

  /** The answer of `o` to `q` is what one of `claims` about `s` makes it. */
  predicate Precise(o: Outcomes, s: State, q: Query, claims: set<Claim>) {
    Agrees(q, Shown(o, q), HoldsOne(s, claims))
  }

  predicate PreciseMany(os: seq<Outcomes>, s: State, q: Query, claims: set<Claim>) {
    Agrees(q, SomeShown(os, q), HoldsOne(s, claims))
  }

  // ---------------------------------------------------------------------------
  // Putting outcomes together
  // ---------------------------------------------------------------------------

  lemma JoinPrecise(os: seq<Outcomes>, s: State, q: Query, claims: set<Claim>)
    requires PreciseMany(os, s, q, claims)
    ensures Precise(JoinOutcomes(os), s, q, claims)
  {
    JoinShows(os, q);
  }

  lemma ConcatPrecise(a: seq<Outcomes>, b: seq<Outcomes>, s: State, q: Query, x: set<Claim>, y: set<Claim>)
    requires PreciseMany(a, s, q, x) && PreciseMany(b, s, q, y)
    ensures PreciseMany(a + b, s, q, x + y)
  {
    ConcatShown(a, b, q);
    UnionHolds(s, x, y);
  }

  lemma OnePrecise(o: Outcomes, s: State, q: Query, claims: set<Claim>)
    requires Precise(o, s, q, claims)
    ensures PreciseMany([o], s, q, claims)
  {
    OneShown(o, q);
  }

  lemma TwoPrecise(a: Outcomes, b: Outcomes, s: State, q: Query, x: set<Claim>, y: set<Claim>)
    requires Precise(a, s, q, x) && Precise(b, s, q, y)
    ensures PreciseMany([a, b], s, q, x + y)
  {
    OnePrecise(a, s, q, x);
    OnePrecise(b, s, q, y);
    ConcatPrecise([a], [b], s, q, x, y);
    assert [a, b] == [a] + [b];
  }

  /** Outcomes from several states, each answering as `claims` say. */
  lemma AllAgree(os: seq<Outcomes>, states: seq<State>, claims: set<Claim>, q: Query)
    requires |os| == |states| && forall i :: 0 <= i < |os| ==> Precise(os[i], states[i], q, claims)
    ensures Agrees(q, SomeShown(os, q), SomeHoldsOne(states, claims))
  {
    if i :| 0 <= i < |os| && Shown(os[i], q) {
      assert Precise(os[i], states[i], q, claims);
      assert HoldsOne(states[i], claims);
    }
    if i :| 0 <= i < |states| && HoldsOne(states[i], claims) {
      assert Precise(os[i], states[i], q, claims);
      if SharpQuery(q) { assert Shown(os[i], q); }
    }
  }

  /** What `states` make of `later` is what `s` makes of `earlier`. */
  predicate Traced(states: seq<State>, later: set<Claim>, s: State, earlier: set<Claim>) {
    && (SomeHoldsOne(states, later) ==> HoldsOne(s, earlier))
    && (AllSharp(later) ==> (HoldsOne(s, earlier) ==> SomeHoldsOne(states, later)))
  }

  /** One thing after another. */
  lemma ThenPrecise(os: seq<Outcomes>, states: seq<State>, s: State, q: Query, later: set<Claim>, earlier: set<Claim>)
    requires Agrees(q, SomeShown(os, q), SomeHoldsOne(states, later))
    requires Traced(states, later, s, earlier)
    requires SharpQuery(q) ==> AllSharp(later)
    ensures PreciseMany(os, s, q, earlier)
  {
  }

  lemma SomeClaimHolds(states: seq<State>, claims: set<Claim>)
    ensures SomeHoldsOne(states, claims) <==> exists m :: m in claims && SomeHolds(states, m)
  {
    if SomeHoldsOne(states, claims) {
      var i :| 0 <= i < |states| && HoldsOne(states[i], claims);
      var m :| m in claims && Holds(states[i], m);
      assert SomeHolds(states, m);
    }
    if m :| m in claims && SomeHolds(states, m) {
      var i :| 0 <= i < |states| && Holds(states[i], m);
      assert HoldsOne(states[i], claims);
    }
  }

  // ---------------------------------------------------------------------------
  // Blocks
  // ---------------------------------------------------------------------------

  /** A block says of any state it ends in, and of any fact, exactly what claims carried
      back through it say of the state it starts in. */
  lemma {:induction false} BlockIsExact(ss: seq<Stmt>, s: State, q: Query)
    ensures Precise(EvalBlock(ss, s), s, q, BeforeBlock(ss, q))
    decreases ss, 2
  {
    var start := NO_OUTCOMES.(normal := [s]);
    FromIsExact(ss, start, q);
    NothingYet(s, q, BeforeBlock(ss, q));
  }

  lemma NothingYet(s: State, q: Query, claims: set<Claim>)
    ensures SomeHoldsOne([s], claims) <==> HoldsOne(s, claims)
    ensures !Asks(q, Normal) ==> !Shown(NO_OUTCOMES.(normal := [s]), q)
  {
    if HoldsOne(s, claims) { assert HoldsOne([s][0], claims); }
  }

  /** What has piled up so far answers `q`, or what is still to come does. */
  predicate SoFar(result: Outcomes, q: Query, claims: set<Claim>) {
    (!Asks(q, Normal) && Shown(result, q)) || SomeHoldsOne(result.normal, claims)
  }

  lemma {:induction false} FromIsExact(ss: seq<Stmt>, result: Outcomes, q: Query)
    ensures Agrees(q, Shown(EvalFrom(ss, result), q), SoFar(result, q, BeforeBlock(ss, q)))
    decreases ss, 1
  {
    if ss == [] {
      JoinShows([result], q);
      OneShown(result, q);
      EndOfBlock(result, q);
    } else {
      var next := Advance(ss[0], result);
      FromIsExact(ss[1..], next, q);
      AdvanceIsExact(ss[0], result, q, BeforeBlock(ss[1..], q));
      AgreesChain(q, Shown(EvalFrom(ss, result), q), SoFar(next, q, BeforeBlock(ss[1..], q)),
                  SoFar(result, q, BeforeBlock(ss, q)));
    }
  }

  lemma AgreesChain(q: Query, a: bool, b: bool, c: bool)
    requires Agrees(q, a, b) && Agrees(q, b, c)
    ensures Agrees(q, a, c)
  {
  }

  lemma EndOfBlock(result: Outcomes, q: Query)
    ensures Shown(result, q) <==> SoFar(result, q, BeforeBlock([], q))
  {
    SomeClaimHolds(result.normal, BeforeBlock([], q));
    if Asks(q, Normal) {
      assert q.claim in BeforeBlock([], q);
    }
  }

  lemma {:induction false} AdvanceIsExact(stmt: Stmt, result: Outcomes, q: Query, later: set<Claim>)
    requires SharpQuery(q) ==> AllSharp(later)
    ensures Agrees(q, SoFar(Advance(stmt, result), q, later),
                   SoFar(result, q, (if Asks(q, Normal) then {} else Before(stmt, q)) + BeforeEach(stmt, later)))
    decreases stmt, 7
  {
    var transferred := JoinOutcomes(EvalEachStmt(stmt, result.normal));
    EachStmtIsExact(stmt, result.normal, q);
    JoinShows(EvalEachStmt(stmt, result.normal), q);
    EachStmtTraced(stmt, result.normal, later);
    if !Asks(q, Normal) { PileShows(result, transferred, q); }
    SomeUnionHolds(result.normal, if Asks(q, Normal) then {} else Before(stmt, q), BeforeEach(stmt, later));
  }

  lemma SomeUnionHolds(states: seq<State>, a: set<Claim>, b: set<Claim>)
    ensures SomeHoldsOne(states, a + b) <==> SomeHoldsOne(states, a) || SomeHoldsOne(states, b)
  {
    forall i | 0 <= i < |states|
      ensures HoldsOne(states[i], a + b) <==> HoldsOne(states[i], a) || HoldsOne(states[i], b)
    {
      UnionHolds(states[i], a, b);
    }
  }

  lemma PileShows(result: Outcomes, transferred: Outcomes, q: Query)
    requires !Asks(q, Normal)
    ensures Agrees(q, Shown(Pile(result, transferred), q), Shown(result, q) || Shown(transferred, q))
  {
    if q.Ends? { ConcatHolds(StatesOf(result, q.kind), StatesOf(transferred, q.kind), q.claim); }
  }

  lemma {:induction false} EachStmtIsExact(stmt: Stmt, states: seq<State>, q: Query)
    ensures Agrees(q, SomeShown(EvalEachStmt(stmt, states), q), SomeHoldsOne(states, Before(stmt, q)))
    decreases stmt, 6, 0
  {
    var os := EvalEachStmt(stmt, states);
    forall i | 0 <= i < |states|
      ensures Precise(os[i], states[i], q, Before(stmt, q))
    {
      StatementIsExact(stmt, states[i], q);
    }
    AllAgree(os, states, Before(stmt, q), q);
  }

  lemma {:induction false} NormalIsExact(stmt: Stmt, states: seq<State>, c: Claim)
    ensures Agrees(Ends(Normal, c), SomeHolds(JoinOutcomes(EvalEachStmt(stmt, states)).normal, c),
                   SomeHoldsOne(states, Before(stmt, Ends(Normal, c))))
    decreases stmt, 6, 1
  {
    EachStmtIsExact(stmt, states, Ends(Normal, c));
    JoinShows(EvalEachStmt(stmt, states), Ends(Normal, c));
  }

  lemma {:induction false} EachStmtTraced(stmt: Stmt, states: seq<State>, later: set<Claim>)
    ensures var normal := JoinOutcomes(EvalEachStmt(stmt, states)).normal;
      && (SomeHoldsOne(normal, later) ==> SomeHoldsOne(states, BeforeEach(stmt, later)))
      && (AllSharp(later) ==> (SomeHoldsOne(states, BeforeEach(stmt, later)) ==> SomeHoldsOne(normal, later)))
    decreases stmt, 6, 2
  {
    var normal := JoinOutcomes(EvalEachStmt(stmt, states)).normal;
    SomeClaimHolds(normal, later);
    if m :| m in later && SomeHolds(normal, m) {
      NormalIsExact(stmt, states, m);
      GatheredForward(stmt, states, later, m);
    }
    if AllSharp(later) && SomeHoldsOne(states, BeforeEach(stmt, later)) {
      var m := GatheredBack(stmt, states, later);
      NormalIsExact(stmt, states, m);
    }
  }

  lemma GatheredForward(stmt: Stmt, states: seq<State>, later: set<Claim>, m: Claim)
    requires m in later && SomeHoldsOne(states, Before(stmt, Ends(Normal, m)))
    ensures SomeHoldsOne(states, BeforeEach(stmt, later))
  {
    var i :| 0 <= i < |states| && HoldsOne(states[i], Before(stmt, Ends(Normal, m)));
    var c :| c in Before(stmt, Ends(Normal, m)) && Holds(states[i], c);
    assert c in BeforeEach(stmt, later);
    assert HoldsOne(states[i], BeforeEach(stmt, later));
  }

  lemma GatheredBack(stmt: Stmt, states: seq<State>, later: set<Claim>) returns (m: Claim)
    requires SomeHoldsOne(states, BeforeEach(stmt, later))
    ensures m in later && SomeHoldsOne(states, Before(stmt, Ends(Normal, m)))
  {
    var i :| 0 <= i < |states| && HoldsOne(states[i], BeforeEach(stmt, later));
    var c :| c in BeforeEach(stmt, later) && Holds(states[i], c);
    m :| m in later && c in Before(stmt, Ends(Normal, m));
    assert HoldsOne(states[i], Before(stmt, Ends(Normal, m)));
  }

  lemma {:induction false} BlockTraced(ss: seq<Stmt>, s: State, k: Kind, later: set<Claim>)
    ensures Traced(StatesOf(EvalBlock(ss, s), k), later, s, BeforeBlockEach(ss, k, later))
    decreases ss, 3
  {
    var states := StatesOf(EvalBlock(ss, s), k);
    SomeClaimHolds(states, later);
    if m :| m in later && SomeHolds(states, m) {
      BlockIsExact(ss, s, Ends(k, m));
      var c :| c in BeforeBlock(ss, Ends(k, m)) && Holds(s, c);
      assert c in BeforeBlockEach(ss, k, later);
    }
    if AllSharp(later) && HoldsOne(s, BeforeBlockEach(ss, k, later)) {
      var c :| c in BeforeBlockEach(ss, k, later) && Holds(s, c);
      var m :| m in later && c in BeforeBlock(ss, Ends(k, m));
      BlockIsExact(ss, s, Ends(k, m));
      assert SomeHolds(states, m);
    }
  }

  lemma {:induction false} EachIsExact(ss: seq<Stmt>, states: seq<State>, q: Query)
    ensures Agrees(q, SomeShown(EvalEach(ss, states), q), SomeHoldsOne(states, BeforeBlock(ss, q)))
    decreases ss, 3
  {
    var os := EvalEach(ss, states);
    forall i | 0 <= i < |states|
      ensures Precise(os[i], states[i], q, BeforeBlock(ss, q))
    {
      BlockIsExact(ss, states[i], q);
    }
    AllAgree(os, states, BeforeBlock(ss, q), q);
  }

  // ---------------------------------------------------------------------------
  // Statements
  // ---------------------------------------------------------------------------

  /** A statement, started in any state, answers every question about what it leads to
      exactly as the claims carried back through it; what is certain, no more often. */
  lemma {:induction false} StatementIsExact(stmt: Stmt, s: State, q: Query)
    ensures Precise(EvalStmt(stmt, s), s, q, Before(stmt, q))
    decreases stmt, 5
  {
    match stmt
    case If(_, _, _) =>
      IfIs(stmt, s);
      BeforeIfIs(stmt, q);
      IfIsExact(stmt, s, q);
    case Loop(_, _, _) =>
      LoopIs(stmt.head, stmt.body, stmt.orelse, s);
      BeforeLoopIs(stmt, q);
      LoopIsExact(stmt, s, q);
    case With(_, _) =>
      WithIs(stmt, s);
      BeforeWithIs(stmt, q);
      WithIsExact(stmt, s, q);
    case Try(_, _, _, _) =>
      TryIs(stmt, s);
      BeforeTryIs(stmt, q);
      TryIsExact(stmt, s, q);
    case _ => SimpleIsExact(stmt, s, q);
  }

  lemma SimpleIsExact(stmt: Stmt, s: State, q: Query)
    requires !stmt.If? && !stmt.Loop? && !stmt.With? && !stmt.Try?
    ensures Precise(EvalStmt(stmt, s), s, q, Before(stmt, q))
  {
    match stmt
    case Assign(target, value) => AssignmentIsExact(target, value, s, q);
    case Delete(pos, name) => DeleteIsExact(pos, name, s, q);
    case Import(name, origin) => ImportStmtIsExact(name, origin, s, q);
    case Evaluate(value) => EvalIsExact(value, s, q);
    case Return(result) => ReturnIsExact(result, s, q);
    case Raise(exc) => RaiseIsExact(exc, s, q);
    case Break => JumpIsExact(stmt, s, q);
    case Continue => JumpIsExact(stmt, s, q);
  }

  lemma OnlyOne(s: State, c: Claim)
    ensures SomeHolds([s], c) <==> Holds(s, c)
  {
    if Holds(s, c) { assert Holds([s][0], c); }
  }

  lemma TwoHold(a: State, b: State, c: Claim)
    ensures SomeHolds([a, b], c) <==> Holds(a, c) || Holds(b, c)
  {
    if Holds(a, c) { assert Holds([a, b][0], c); }
    if Holds(b, c) { assert Holds([a, b][1], c); }
  }

  lemma ImportStmtIsExact(name: Name, origin: Origin, s: State, q: Query)
    ensures Precise(NO_OUTCOMES.(normal := [BindImport(name, origin, s)]), s, q, Before(Import(name, origin), q))
  {
    if Asks(q, Normal) {
      OnlyOne(BindImport(name, origin, s), q.claim);
      ImportIsExact(name, origin, s, q.claim);
    }
  }

  lemma JumpIsExact(stmt: Stmt, s: State, q: Query)
    requires stmt.Break? || stmt.Continue?
    ensures Precise(EvalStmt(stmt, s), s, q, Before(stmt, q))
  {
    if q.Ends? {
      OnlyOne(s, q.claim);
      OneHolds(s, q.claim);
    }
  }

  /** An evaluation as far as it raises or is observed. */
  lemma CutIsExact(e: Expr, s: State, q: Query)
    ensures Precise(NO_OUTCOMES.(raised := [s], facts := Records(e, s)), s, q, BeforeCut(e, q))
  {
    if q.Ends? {
      OnlyOne(s, q.claim);
      OneHolds(s, q.claim);
    } else {
      RecordsIsExact(e, s, q);
    }
  }

  lemma EvalIsExact(e: Expr, s: State, q: Query)
    ensures Precise(EvalExpr(e, s), s, q, BeforeEval(e, q))
  {
    if Asks(q, Normal) {
      OnlyOne(s, q.claim);
      OneHolds(s, q.claim);
    } else {
      CutIsExact(e, s, q);
    }
  }

  lemma ReturnIsExact(result: Option<Expr>, s: State, q: Query)
    ensures Precise(EvalReturn(result, s), s, q, Before(Return(result), q))
  {
    if q.Ends? {
      OnlyOne(s, q.claim);
      OneHolds(s, q.claim);
    } else if result.Some? {
      CutIsExact(result.value, s, q);
    }
  }

  lemma RaiseIsExact(exc: Option<Expr>, s: State, q: Query)
    ensures Precise(EvalRaise(exc, s), s, q, Before(Raise(exc), q))
  {
    if q.Ends? {
      OnlyOne(s, q.claim);
      TwoHold(s, s, q.claim);
      OneHolds(s, q.claim);
      assert [s] + [s] == [s, s] && [] + [s] == [s];
    } else if exc.Some? {
      CutIsExact(exc.value, s, q);
    }
  }

  lemma DeleteIsExact(pos: nat, name: Name, s: State, q: Query)
    ensures Precise(EvalDelete(pos, name, s), s, q, Before(Delete(pos, name), q))
  {
    var o := EvalExpr(Load(pos, name), s).(normal := [Clear(name, s)]);
    if Asks(q, Normal) {
      OnlyOne(Clear(name, s), q.claim);
      ClearIsExact(name, s, q.claim);
    } else {
      CutIsExact(Load(pos, name), s, q);
    }
    assert Precise(o, s, q, Before(Delete(pos, name), q));
    assert !Shown(NO_OUTCOMES, q);
    TwoPrecise(NO_OUTCOMES, o, s, q, {}, Before(Delete(pos, name), q));
    assert {} + Before(Delete(pos, name), q) == Before(Delete(pos, name), q);
    JoinPrecise([NO_OUTCOMES, o], s, q, Before(Delete(pos, name), q));
  }

  lemma AssignmentIsExact(target: Name, value: Expr, s: State, q: Query)
    ensures Precise(EvalAssign(target, value, s), s, q, Before(Assign(target, value), q))
  {
    var bound := AssignValue(target, value, s);
    var inner := JoinOutcomes([NO_OUTCOMES.(normal := [bound], raised := [bound])]);
    var outer := NO_OUTCOMES.(normal := inner.normal, raised := [s] + inner.raised, facts := Records(value, s));
    var x := BeforeCut(value, q);
    var y := if Asks(q, Normal) || Asks(q, Raised) then BeforeAssign(target, value, q.claim) else {};
    CutIsExact(value, s, q);
    if Asks(q, Normal) || Asks(q, Raised) {
      BoundIsExact(bound, q);
      AssignIsExact(target, value, s, q.claim);
    }
    OuterShown(inner, s, Records(value, s), q);
    UnionHolds(s, x, y);
    JoinOneShows(outer, q);
  }

  lemma JoinOneShows(o: Outcomes, q: Query)
    ensures Agrees(q, Shown(JoinOutcomes([o]), q), Shown(o, q))
  {
    JoinShows([o], q);
    OneShown(o, q);
  }

  lemma BoundIsExact(bound: State, q: Query)
    requires Asks(q, Normal) || Asks(q, Raised)
    ensures Agrees(q, Shown(JoinOutcomes([NO_OUTCOMES.(normal := [bound], raised := [bound])]), q),
                   Holds(bound, q.claim))
  {
    JoinOneShows(NO_OUTCOMES.(normal := [bound], raised := [bound]), q);
    OnlyOne(bound, q.claim);
  }

  /** An assignment leads to what binding leads to; it may also raise before. */
  lemma OuterShown(inner: Outcomes, s: State, facts: Facts, q: Query)
    ensures
      var outer := NO_OUTCOMES.(normal := inner.normal, raised := [s] + inner.raised, facts := facts);
      var cut := NO_OUTCOMES.(raised := [s], facts := facts);
      Shown(outer, q) <==> Shown(cut, q) || ((Asks(q, Normal) || Asks(q, Raised)) && Shown(inner, q))
  {
    if Asks(q, Raised) { ConcatHolds([s], inner.raised, q.claim); }
  }

  lemma {:induction false} IfIsExact(stmt: Stmt, s: State, q: Query)
    requires stmt.If?
    ensures Precise(EvalIf(stmt, s), s, q, BeforeIf(stmt, q))
    decreases stmt, 4
  {
    var test := NO_OUTCOMES.(raised := [s], facts := Records(stmt.test, s));
    CutIsExact(stmt.test, s, q);
    BlockIsExact(stmt.body, s, q);
    BlockIsExact(stmt.orelse, s, q);
    ThreePrecise(test, EvalBlock(stmt.body, s), EvalBlock(stmt.orelse, s), s, q,
                 BeforeCut(stmt.test, q), BeforeBlock(stmt.body, q), BeforeBlock(stmt.orelse, q));
  }

  lemma ThreePrecise(a: Outcomes, b: Outcomes, c: Outcomes, s: State, q: Query,
                     x: set<Claim>, y: set<Claim>, z: set<Claim>)
    requires Precise(a, s, q, x) && Precise(b, s, q, y) && Precise(c, s, q, z)
    ensures Precise(JoinOutcomes([a, b, c]), s, q, x + y + z)
  {
    TwoPrecise(a, b, s, q, x, y);
    OnePrecise(c, s, q, z);
    ConcatPrecise([a, b], [c], s, q, x + y, z);
    assert [a, b, c] == [a, b] + [c];
    JoinPrecise([a, b, c], s, q, x + y + z);
  }

  // ---------------------------------------------------------------------------
  // Loops
  // ---------------------------------------------------------------------------

  lemma {:induction false} PassIsExact(head: Expr, body: seq<Stmt>, s: State, q: Query)
    ensures Precise(LoopPass(head, body, s), s, q, BeforePass(head, body, q))
    decreases body, 3
  {
    var once := EvalBlock(body, s);
    var x := if Asks(q, Continued) then {} else BeforeBlock(body, q);
    var y := if Asks(q, Normal) then BeforeBlock(body, Ends(Continued, q.claim)) else {};
    BlockIsExact(body, s, q);
    if Asks(q, Normal) { BlockIsExact(body, s, Ends(Continued, q.claim)); }
    EvalIsExact(head, s, q);
    UnionHolds(s, x, y);
    PassJoins(head, once, s, q, x + y);
    BeforePassIs(head, body, q, x, y);
  }

  lemma BeforePassIs(head: Expr, body: seq<Stmt>, q: Query, x: set<Claim>, y: set<Claim>)
    requires x == if Asks(q, Continued) then {} else BeforeBlock(body, q)
    requires y == if Asks(q, Normal) then BeforeBlock(body, Ends(Continued, q.claim)) else {}
    ensures BeforePass(head, body, q) == BeforeEval(head, q) + (x + y)
  {
  }

  /** What the body does, with the ways that reach the end of the round made one. */
  predicate RoundShown(once: Outcomes, q: Query) {
    (!Asks(q, Continued) && Shown(once, q)) || (Asks(q, Normal) && Shown(once, Ends(Continued, q.claim)))
  }

  lemma PassJoins(head: Expr, once: Outcomes, s: State, q: Query, claims: set<Claim>)
    requires Precise(EvalExpr(head, s), s, q, BeforeEval(head, q))
    requires Agrees(q, RoundShown(once, q), HoldsOne(s, claims))
    ensures Precise(JoinOutcomes([
        EvalExpr(head, s), once.(normal := [s] + once.normal + once.continued, continued := [])]), s, q,
      BeforeEval(head, q) + claims)
  {
    var merged := once.(normal := [s] + once.normal + once.continued, continued := []);
    if Asks(q, Normal) {
      ConcatHolds([s] + once.normal, once.continued, q.claim);
      ConcatHolds([s], once.normal, q.claim);
      OnlyOne(s, q.claim);
      OneHolds(s, q.claim);
      UnionHolds(s, { q.claim }, claims);
      TwoPrecise(EvalExpr(head, s), merged, s, q, { q.claim }, { q.claim } + claims);
      assert { q.claim } + ({ q.claim } + claims) == { q.claim } + claims;
    } else {
      TwoPrecise(EvalExpr(head, s), merged, s, q, BeforeEval(head, q), claims);
    }
    JoinPrecise([EvalExpr(head, s), merged], s, q, BeforeEval(head, q) + claims);
  }

  lemma {:induction false} PassTraced(head: Expr, body: seq<Stmt>, s: State, later: set<Claim>)
    ensures Traced(LoopPass(head, body, s).normal, later, s, BeforePasses(head, body, later))
    decreases body, 4
  {
    var states := LoopPass(head, body, s).normal;
    SomeClaimHolds(states, later);
    if m :| m in later && SomeHolds(states, m) {
      PassIsExact(head, body, s, Ends(Normal, m));
      var c :| c in BeforePass(head, body, Ends(Normal, m)) && Holds(s, c);
      assert c in BeforePasses(head, body, later);
    }
    if AllSharp(later) && HoldsOne(s, BeforePasses(head, body, later)) {
      var c :| c in BeforePasses(head, body, later) && Holds(s, c);
      var m :| m in later && c in BeforePass(head, body, Ends(Normal, m));
      PassIsExact(head, body, s, Ends(Normal, m));
      assert SomeHolds(states, m);
    }
  }

  /** What leaves the loop without going through `else`. */
  predicate LeavingShown(joined: Outcomes, q: Query) {
    if Asks(q, Normal) then Shown(joined, Ends(Broken, q.claim)) else !Asks(q, Broken) && Shown(joined, q)
  }

  lemma {:induction false} LeavingIsExact(head: Expr, body: seq<Stmt>, s: State, q: Query)
    ensures Agrees(q, LeavingShown(LoopPass(head, body, s), q), HoldsOne(s, BeforeLeaving(head, body, q)))
    decreases body, 5
  {
    if Asks(q, Normal) {
      PassIsExact(head, body, s, Ends(Broken, q.claim));
    } else if !Asks(q, Broken) {
      PassIsExact(head, body, s, q);
    }
  }

  lemma {:induction false} LoopIsExact(loop: Stmt, s: State, q: Query)
    requires loop.Loop?
    ensures Precise(EvalLoop(loop, s), s, q, BeforeLoop(loop, q))
    decreases loop, 4
  {
    var joined := LoopPass(loop.head, loop.body, s);
    LeavingIsExact(loop.head, loop.body, s, q);
    PassTraced(loop.head, loop.body, s, BeforeBlock(loop.orelse, q));
    ExitIsExact(loop.orelse, joined, s, q, BeforeLeaving(loop.head, loop.body, q),
                BeforePasses(loop.head, loop.body, BeforeBlock(loop.orelse, q)));
  }

  lemma {:induction false} ExitIsExact(orelse: seq<Stmt>, joined: Outcomes, s: State, q: Query,
                                       leaving: set<Claim>, passing: set<Claim>)
    requires Agrees(q, LeavingShown(joined, q), HoldsOne(s, leaving))
    requires Traced(joined.normal, BeforeBlock(orelse, q), s, passing)
    ensures Precise(LoopExit(orelse, joined), s, q, leaving + passing)
    decreases orelse, 4
  {
    if orelse == [] {
      var o := joined.(normal := joined.normal + joined.broken, broken := []);
      if Asks(q, Normal) { ConcatHolds(joined.normal, joined.broken, q.claim); }
      SomeClaimHolds(joined.normal, BeforeBlock(orelse, q));
      if Asks(q, Normal) { assert q.claim in BeforeBlock(orelse, q); }
      UnionHolds(s, leaving, passing);
      OnePrecise(o, s, q, leaving + passing);
      JoinPrecise([o], s, q, leaving + passing);
    } else {
      var o := joined.(normal := joined.broken, broken := []);
      assert Precise(o, s, q, leaving);
      OnePrecise(o, s, q, leaving);
      EachIsExact(orelse, joined.normal, q);
      ThenPrecise(EvalEach(orelse, joined.normal), joined.normal, s, q, BeforeBlock(orelse, q), passing);
      ConcatPrecise([o], EvalEach(orelse, joined.normal), s, q, leaving, passing);
      JoinPrecise([o] + EvalEach(orelse, joined.normal), s, q, leaving + passing);
    }
  }

  // ---------------------------------------------------------------------------
  // `with`
  // ---------------------------------------------------------------------------

  /** What entering the managers adds to what the body does. */
  function EntryOutcomes(entry: Entry, inside: Outcomes): Outcomes {
    NO_OUTCOMES.(raised := entry.raised + inside.raised,
                 normal := entry.suppressed + PossibleStates(inside.raised),
                 facts := entry.facts)
  }

  lemma {:induction false} WithIsExact(w: Stmt, s: State, q: Query)
    requires w.With?
    ensures Precise(EvalWith(w, s), s, q, BeforeWith(w, q))
    decreases w, 4
  {
    var entry := EnterItems(w.items, false, s);
    var inside := EvalBlock(w.body, entry.inside);
    ItemsIsExact(w.items, false, w.body, s, q);
    JoinPrecise([EntryOutcomes(entry, inside), inside], s, q, BeforeItems(w.items, false, w.body, q));
  }

  lemma {:induction false} ItemsIsExact(items: seq<Item>, entered: bool, body: seq<Stmt>, s: State, q: Query)
    ensures
      var entry := EnterItems(items, entered, s);
      var inside := EvalBlock(body, entry.inside);
      PreciseMany([EntryOutcomes(entry, inside), inside], s, q, BeforeItems(items, entered, body, q))
    decreases body, 4, |items| + 1
  {
    if items == [] {
      BodyIsExact(body, s, q);
    } else {
      var item := items[0];
      var bound := BindTarget(item.target, item.context, s);
      var rest := EnterItems(items[1..], true, JoinStates([bound]));
      var inside := EvalBlock(body, rest.inside);
      var later := BeforeItems(items[1..], true, body, q);
      ItemsIsExact(items[1..], true, body, JoinStates([bound]), q);
      BoundTraced(item, s, later);
      EntryIsExact(item, entered, s, q);
      DeeperShown(item, entered, s, rest, inside, q);
      UnionHolds(s, BeforeEntry(item, entered, q), BeforeTargets(item.target, item.context, later));
    }
  }

  lemma {:induction false} BodyIsExact(body: seq<Stmt>, s: State, q: Query)
    ensures
      var inside := EvalBlock(body, s);
      PreciseMany([EntryOutcomes(Entry(s, [], [], map[]), inside), inside], s, q, BeforeItems([], false, body, q))
    decreases body, 4, 0
  {
    var inside := EvalBlock(body, s);
    var swallowed := if Asks(q, Normal) then BeforeBlockEach(body, Raised, BeforeWeakening(q.claim)) else {};
    BlockIsExact(body, s, q);
    BodyShown(Entry(s, [], [], map[]), inside, q);
    if Asks(q, Normal) {
      BlockTraced(body, s, Raised, BeforeWeakening(q.claim));
      WeakenedShow(inside.raised, q.claim);
    }
    UnionHolds(s, BeforeBlock(body, q), swallowed);
  }

  /** Nothing was entered: the body, or what it raises swallowed. */
  lemma BodyShown(entry: Entry, inside: Outcomes, q: Query)
    requires entry.raised == [] && entry.suppressed == [] && entry.facts == map[]
    ensures SomeShown([EntryOutcomes(entry, inside), inside], q) <==>
      Shown(inside, q) || (Asks(q, Normal) && SomeHolds(PossibleStates(inside.raised), q.claim))
  {
    TwoShown(EntryOutcomes(entry, inside), inside, q);
    assert EntryOutcomes(entry, inside).normal == PossibleStates(inside.raised);
    assert EntryOutcomes(entry, inside).raised == inside.raised;
  }

  lemma WeakenedShow(states: seq<State>, c: Claim)
    ensures SomeHolds(PossibleStates(states), c) <==> SomeHoldsOne(states, BeforeWeakening(c))
  {
    forall i | 0 <= i < |states|
      ensures Holds(PossibleStates(states)[i], c) <==> HoldsOne(states[i], BeforeWeakening(c))
    {
      WeakeningIsExact(states[i], c);
    }
  }

  lemma BoundTraced(item: Item, s: State, later: set<Claim>)
    ensures var t := JoinStates([BindTarget(item.target, item.context, s)]);
      && (HoldsOne(t, later) ==> HoldsOne(s, BeforeTargets(item.target, item.context, later)))
      && (AllSharp(later) ==> (HoldsOne(s, BeforeTargets(item.target, item.context, later)) ==> HoldsOne(t, later)))
  {
    var bound := BindTarget(item.target, item.context, s);
    TargetsIsExact(item.target, item.context, s, later);
    if m :| m in later && Holds(Merge([bound]), m) {
      MergeShows([bound], m);
      OnlyOne(bound, m);
    }
    if m :| m in later && Holds(bound, m) && AllSharp(later) {
      MergeIsExact([bound], m);
      OnlyOne(bound, m);
    }
  }

  /** What entering one manager leads to. */
  predicate EntryShown(item: Item, entered: bool, s: State, q: Query) {
    var bound := BindTarget(item.target, item.context, s);
    || (Asks(q, Raised) && (Holds(s, q.claim) || Holds(bound, q.claim)))
    || (Asks(q, Normal) && entered && (Holds(PossibleState(s), q.claim) || Holds(PossibleState(bound), q.claim)))
    || Noted(Records(item.context, s), q)
  }

  lemma EntryIsExact(item: Item, entered: bool, s: State, q: Query)
    ensures Agrees(q, EntryShown(item, entered, s, q), HoldsOne(s, BeforeEntry(item, entered, q)))
  {
    var bound := BindTarget(item.target, item.context, s);
    var x := BeforeCut(item.context, q);
    var y := if Asks(q, Raised) then BeforeTarget(item.target, item.context, q.claim) else {};
    var z := if entered && Asks(q, Normal)
             then BeforeWeakening(q.claim) + BeforeTargets(item.target, item.context, BeforeWeakening(q.claim)) else {};
    CutIsExact(item.context, s, q);
    UnionHolds(s, x + y, z);
    UnionHolds(s, x, y);
    if q.Ends? {
      OnlyOne(s, q.claim);
      TargetIsExact(item.target, item.context, s, q.claim);
      WeakeningIsExact(s, q.claim);
      WeakeningIsExact(bound, q.claim);
      TargetsIsExact(item.target, item.context, s, BeforeWeakening(q.claim));
      UnionHolds(s, BeforeWeakening(q.claim), BeforeTargets(item.target, item.context, BeforeWeakening(q.claim)));
    }
  }

  lemma DeeperShown(item: Item, entered: bool, s: State, rest: Entry, inside: Outcomes, q: Query)
    ensures
      var bound := BindTarget(item.target, item.context, s);
      var entry := Entry(rest.inside,
                         [s, bound] + rest.raised,
                         (if entered then [PossibleState(s), PossibleState(bound)] else []) + rest.suppressed,
                         Records(item.context, s) + rest.facts);
      Agrees(q, SomeShown([EntryOutcomes(entry, inside), inside], q),
             EntryShown(item, entered, s, q) || SomeShown([EntryOutcomes(rest, inside), inside], q))
  {
    var bound := BindTarget(item.target, item.context, s);
    var weak := if entered then [PossibleState(s), PossibleState(bound)] else [];
    var entry := Entry(rest.inside, [s, bound] + rest.raised, weak + rest.suppressed,
                       Records(item.context, s) + rest.facts);
    TwoShown(EntryOutcomes(entry, inside), inside, q);
    TwoShown(EntryOutcomes(rest, inside), inside, q);
    if q.Ends? {
      MoreHolds([s, bound], rest.raised, inside.raised, q.claim);
      MoreHolds(weak, rest.suppressed, PossibleStates(inside.raised), q.claim);
      TwoHold(s, bound, q.claim);
      TwoHold(PossibleState(s), PossibleState(bound), q.claim);
    } else {
      NotedUnion(Records(item.context, s), rest.facts, q);
    }
  }

  lemma MoreHolds(a: seq<State>, b: seq<State>, c: seq<State>, claim: Claim)
    ensures SomeHolds((a + b) + c, claim) <==> SomeHolds(a, claim) || SomeHolds(b + c, claim)
  {
    Associate(a, b, c);
    ConcatHolds(a, b + c, claim);
  }

  lemma TwoShown(a: Outcomes, b: Outcomes, q: Query)
    ensures SomeShown([a, b], q) <==> Shown(a, q) || Shown(b, q)
  {
    OneShown(a, q);
    OneShown(b, q);
    ConcatShown([a], [b], q);
    assert [a, b] == [a] + [b];
  }

  // ---------------------------------------------------------------------------
  // `try`
  // ---------------------------------------------------------------------------

  lemma {:induction false} HandlerIsExact(h: Handler, raised: seq<State>, q: Query)
    ensures Agrees(q, SomeShown(EvalHandler(h, raised), q), SomeHoldsOne(raised, BeforeHandler(h, q)))
    decreases h, 4
  {
    var os := EvalHandler(h, raised);
    forall i | 0 <= i < |raised|
      ensures Precise(os[i], raised[i], q, BeforeHandler(h, q))
    {
      BlockIsExact(h.body, ClearTarget(h.name, raised[i]), q);
      HandlerTraced(h, raised[i], q);
    }
    AllAgree(os, raised, BeforeHandler(h, q), q);
  }

  lemma HandlerTraced(h: Handler, s: State, q: Query)
    ensures HoldsOne(ClearTarget(h.name, s), BeforeBlock(h.body, q)) <==> HoldsOne(s, BeforeHandler(h, q))
  {
    var t := ClearTarget(h.name, s);
    if m :| m in BeforeBlock(h.body, q) && Holds(t, m) {
      ClearTargetIsExact(h.name, s, m);
      var c :| c in BeforeClearTarget(h.name, m) && Holds(s, c);
      assert c in BeforeHandler(h, q);
    }
    if c :| c in BeforeHandler(h, q) && Holds(s, c) {
      var m :| m in BeforeBlock(h.body, q) && c in BeforeClearTarget(h.name, m);
      ClearTargetIsExact(h.name, s, m);
    }
  }

  lemma {:induction false} HandlersIsExact(handlers: seq<Handler>, raised: seq<State>, q: Query)
    ensures Agrees(q, SomeShown(EvalHandlers(handlers, raised), q), SomeHoldsOne(raised, BeforeHandlers(handlers, q)))
    decreases handlers, 4
  {
    if handlers != [] {
      HandlerIsExact(handlers[0], raised, q);
      HandlersIsExact(handlers[1..], raised, q);
      ConcatShown(EvalHandler(handlers[0], raised), EvalHandlers(handlers[1..], raised), q);
      SomeUnionHolds(raised, BeforeHandler(handlers[0], q), BeforeHandlers(handlers[1..], q));
    }
  }

  lemma {:induction false} GuardedIsExact(t: Stmt, s: State, q: Query)
    requires t.Try?
    ensures Precise(TryBeforeFinally(t, s), s, q, BeforeGuarded(t, q))
    decreases t, 3, 0
  {
    var tried := EvalBlock(t.body, s);
    var a, b := EvalEach(t.orelse, tried.normal), EvalHandlers(t.handlers, tried.raised);
    BlockIsExact(t.body, s, q);
    BlockTraced(t.body, s, Normal, BeforeBlock(t.orelse, q));
    EachIsExact(t.orelse, tried.normal, q);
    ThenPrecise(a, tried.normal, s, q, BeforeBlock(t.orelse, q),
                BeforeBlockEach(t.body, Normal, BeforeBlock(t.orelse, q)));
    BlockTraced(t.body, s, Raised, BeforeHandlers(t.handlers, q));
    HandlersIsExact(t.handlers, tried.raised, q);
    ThenPrecise(b, tried.raised, s, q, BeforeHandlers(t.handlers, q),
                BeforeBlockEach(t.body, Raised, BeforeHandlers(t.handlers, q)));
    GuardedJoins(tried, a, b, s, q, if Asks(q, Normal) then {} else BeforeBlock(t.body, q),
                 BeforeBlockEach(t.body, Normal, BeforeBlock(t.orelse, q)),
                 BeforeBlockEach(t.body, Raised, BeforeHandlers(t.handlers, q)));
  }

  lemma GuardedJoins(tried: Outcomes, a: seq<Outcomes>, b: seq<Outcomes>, s: State, q: Query,
                     x: set<Claim>, y: set<Claim>, z: set<Claim>)
    requires Agrees(q, !Asks(q, Normal) && Shown(tried, q), HoldsOne(s, x))
    requires PreciseMany(a, s, q, y) && PreciseMany(b, s, q, z)
    ensures Precise(JoinOutcomes(
        [NO_OUTCOMES.(facts := tried.facts)] + a + b + [NO_OUTCOMES.(raised := tried.raised)]
        + [NO_OUTCOMES.(returned := tried.returned, broken := tried.broken, continued := tried.continued)]), s, q,
      x + y + z)
  {
    var seen := NO_OUTCOMES.(facts := tried.facts);
    var unmatched := NO_OUTCOMES.(raised := tried.raised);
    var passed := NO_OUTCOMES.(returned := tried.returned, broken := tried.broken, continued := tried.continued);
    FiveShown(seen, a, b, unmatched, passed, q);
    JoinShows([seen] + a + b + [unmatched] + [passed], q);
    UnionHolds(s, x + y, z);
    UnionHolds(s, x, y);
    GuardedShown(tried, q);
  }

  lemma GuardedShown(tried: Outcomes, q: Query)
    ensures
      || Shown(NO_OUTCOMES.(facts := tried.facts), q)
      || Shown(NO_OUTCOMES.(raised := tried.raised), q)
      || Shown(NO_OUTCOMES.(returned := tried.returned, broken := tried.broken, continued := tried.continued), q)
      <==> !Asks(q, Normal) && Shown(tried, q)
  {
  }

  lemma FiveShown(a: Outcomes, b: seq<Outcomes>, c: seq<Outcomes>, d: Outcomes, e: Outcomes, q: Query)
    ensures SomeShown([a] + b + c + [d] + [e], q) <==>
      Shown(a, q) || SomeShown(b, q) || SomeShown(c, q) || Shown(d, q) || Shown(e, q)
  {
    ConcatShown([a] + b + c + [d], [e], q);
    ConcatShown([a] + b + c, [d], q);
    ConcatShown([a] + b, c, q);
    ConcatShown([a], b, q);
    OneShown(a, q);
    OneShown(d, q);
    OneShown(e, q);
  }

  lemma ResumeShows(pending: Kind, final: Outcomes, q: Query)
    requires pending in PENDING
    ensures Shown(Resume(pending, final), q) <==>
      (!Asks(q, Normal) && Shown(final, q)) || (Asks(q, pending) && Shown(final, Ends(Normal, q.claim)))
  {
    if q.Ends? && q.kind in PENDING && q.kind != Normal {
      ConcatHolds(StatesOf(final, q.kind), if pending == q.kind then final.normal else [], q.claim);
    }
  }

  lemma {:induction false} ResumedIsExact(finalbody: seq<Stmt>, pending: Kind, states: seq<State>, q: Query)
    requires pending in PENDING
    ensures Agrees(q, SomeShown(FinallyFor(finalbody, pending, states), q),
                   SomeHoldsOne(states, BeforeFinally(finalbody, pending, q)))
    decreases finalbody, 4
  {
    var os := FinallyFor(finalbody, pending, states);
    forall i | 0 <= i < |states|
      ensures Precise(os[i], states[i], q, BeforeFinally(finalbody, pending, q))
    {
      BlockIsExact(finalbody, states[i], q);
      if q.Ends? { BlockIsExact(finalbody, states[i], Ends(Normal, q.claim)); }
      ResumeShows(pending, EvalBlock(finalbody, states[i]), q);
      UnionHolds(states[i], if Asks(q, Normal) then {} else BeforeBlock(finalbody, q),
                 if Asks(q, pending) then BeforeBlock(finalbody, Ends(Normal, q.claim)) else {});
    }
    AllAgree(os, states, BeforeFinally(finalbody, pending, q), q);
  }

  lemma FinallyShows(finalbody: seq<Stmt>, joined: Outcomes, q: Query)
    ensures SomeShown(FinallyAll(finalbody, joined), q) <==>
      || (!q.Ends? && Shown(joined, q))
      || SomeShown(FinallyFor(finalbody, Normal, joined.normal), q)
      || SomeShown(FinallyFor(finalbody, Raised, joined.raised), q)
      || SomeShown(FinallyFor(finalbody, Returned, joined.returned), q)
      || SomeShown(FinallyFor(finalbody, Broken, joined.broken), q)
      || SomeShown(FinallyFor(finalbody, Continued, joined.continued), q)
  {
    var seen := NO_OUTCOMES.(facts := joined.facts);
    var a, b := FinallyFor(finalbody, Normal, joined.normal), FinallyFor(finalbody, Raised, joined.raised);
    var c, d := FinallyFor(finalbody, Returned, joined.returned), FinallyFor(finalbody, Broken, joined.broken);
    var e := FinallyFor(finalbody, Continued, joined.continued);
    ConcatShown([seen] + a + b + c + d, e, q);
    ConcatShown([seen] + a + b + c, d, q);
    ConcatShown([seen] + a + b, c, q);
    ConcatShown([seen] + a, b, q);
    ConcatShown([seen], a, q);
    OneShown(seen, q);
  }

  /** `finally` with `p` pending answers as `claims` about the state before `try` say. */
  predicate Resumed(finalbody: seq<Stmt>, joined: Outcomes, p: Kind, s: State, q: Query, claims: set<Claim>) {
    PreciseMany(FinallyFor(finalbody, p, StatesOf(joined, p)), s, q, claims)
  }

  lemma {:induction false} PendingIsExact(t: Stmt, s: State, p: Kind, q: Query)
    requires t.Try? && p in PENDING
    ensures Resumed(t.finalbody, TryBeforeFinally(t, s), p, s, q, BeforePending(t, p, q))
    decreases t, 4, 0, 0
  {
    var states := StatesOf(TryBeforeFinally(t, s), p);
    ResumedIsExact(t.finalbody, p, states, q);
    PendingTraced(t, s, p, BeforeFinally(t.finalbody, p, q));
    ThenPrecise(FinallyFor(t.finalbody, p, states), states, s, q, BeforeFinally(t.finalbody, p, q),
                BeforePending(t, p, q));
  }

  lemma {:induction false} PendingTraced(t: Stmt, s: State, p: Kind, later: set<Claim>)
    requires t.Try?
    ensures Traced(StatesOf(TryBeforeFinally(t, s), p), later, s, BeforeGuardedEach(t, p, later))
    decreases t, 3, 1
  {
    var states := StatesOf(TryBeforeFinally(t, s), p);
    SomeClaimHolds(states, later);
    if m :| m in later && SomeHolds(states, m) {
      GuardedIsExact(t, s, Ends(p, m));
      var c :| c in BeforeGuarded(t, Ends(p, m)) && Holds(s, c);
      assert c in BeforeGuardedEach(t, p, later);
    }
    if AllSharp(later) && HoldsOne(s, BeforeGuardedEach(t, p, later)) {
      var c :| c in BeforeGuardedEach(t, p, later) && Holds(s, c);
      var m :| m in later && c in BeforeGuarded(t, Ends(p, m));
      GuardedIsExact(t, s, Ends(p, m));
      assert SomeHolds(states, m);
    }
  }

  /** Without a `finally` block what is pending just goes on. */
  lemma NothingPending(t: Stmt, p: Kind, q: Query)
    requires t.Try? && t.finalbody == [] && p in PENDING
    ensures BeforePending(t, p, q) == if Asks(q, p) then BeforeGuarded(t, q) else {}
  {
    NothingFinally(p, q);
    if Asks(q, p) {
      assert q.claim in BeforeFinally([], p, q);
      assert q == Ends(p, q.claim);
    }
  }

  lemma NothingFinally(p: Kind, q: Query)
    requires p in PENDING
    ensures BeforeFinally([], p, q) == if Asks(q, p) then { q.claim } else {}
  {
  }

  lemma NoFinally(t: Stmt, q: Query)
    requires t.Try? && t.finalbody == []
    ensures BeforeTry(t, q) == if q.Ends? && q.kind !in PENDING then {} else BeforeGuarded(t, q)
  {
    NothingPending(t, Normal, q);
    NothingPending(t, Raised, q);
    NothingPending(t, Returned, q);
    NothingPending(t, Broken, q);
    NothingPending(t, Continued, q);
  }

  lemma {:induction false} TryIsExact(t: Stmt, s: State, q: Query)
    requires t.Try?
    ensures Precise(EvalTry(t, s), s, q, BeforeTry(t, q))
    decreases t, 4, 1
  {
    if t.finalbody == [] {
      NoFinally(t, q);
      GuardedIsExact(t, s, q);
    } else {
      FinallyIsExact(t, s, q);
    }
  }

  lemma {:induction false} FinallyIsExact(t: Stmt, s: State, q: Query)
    requires t.Try?
    ensures Precise(JoinOutcomes(FinallyAll(t.finalbody, TryBeforeFinally(t, s))), s, q, BeforeTry(t, q))
    decreases t, 4, 0, 2
  {
    var joined := TryBeforeFinally(t, s);
    var x := if q.Ends? then {} else BeforeGuarded(t, q);
    GuardedIsExact(t, s, q);
    PendingAreExact(t, s, q);
    FinallyJoins(t.finalbody, joined, s, q, x,
                 BeforePending(t, Normal, q), BeforePending(t, Raised, q), BeforePending(t, Returned, q),
                 BeforePending(t, Broken, q), BeforePending(t, Continued, q));
  }

  lemma {:induction false} PendingAreExact(t: Stmt, s: State, q: Query)
    requires t.Try?
    ensures var joined := TryBeforeFinally(t, s);
      && Resumed(t.finalbody, joined, Normal, s, q, BeforePending(t, Normal, q))
      && Resumed(t.finalbody, joined, Raised, s, q, BeforePending(t, Raised, q))
      && Resumed(t.finalbody, joined, Returned, s, q, BeforePending(t, Returned, q))
      && Resumed(t.finalbody, joined, Broken, s, q, BeforePending(t, Broken, q))
      && Resumed(t.finalbody, joined, Continued, s, q, BeforePending(t, Continued, q))
    decreases t, 4, 0, 1
  {
    PendingIsExact(t, s, Normal, q);
    PendingIsExact(t, s, Raised, q);
    PendingIsExact(t, s, Returned, q);
    PendingIsExact(t, s, Broken, q);
    PendingIsExact(t, s, Continued, q);
  }

  lemma FinallyJoins(finalbody: seq<Stmt>, joined: Outcomes, s: State, q: Query, x: set<Claim>,
                     a: set<Claim>, b: set<Claim>, c: set<Claim>, d: set<Claim>, e: set<Claim>)
    requires Agrees(q, !q.Ends? && Shown(joined, q), HoldsOne(s, x))
    requires Resumed(finalbody, joined, Normal, s, q, a)
    requires Resumed(finalbody, joined, Raised, s, q, b)
    requires Resumed(finalbody, joined, Returned, s, q, c)
    requires Resumed(finalbody, joined, Broken, s, q, d)
    requires Resumed(finalbody, joined, Continued, s, q, e)
    ensures Precise(JoinOutcomes(FinallyAll(finalbody, joined)), s, q, x + a + b + c + d + e)
  {
    FinallyShows(finalbody, joined, q);
    SixHold(s, x, a, b, c, d, e);
    JoinPrecise(FinallyAll(finalbody, joined), s, q, x + a + b + c + d + e);
  }

  lemma SixHold(s: State, a: set<Claim>, b: set<Claim>, c: set<Claim>, d: set<Claim>, e: set<Claim>, f: set<Claim>)
    ensures HoldsOne(s, a + b + c + d + e + f) <==>
      HoldsOne(s, a) || HoldsOne(s, b) || HoldsOne(s, c) || HoldsOne(s, d) || HoldsOne(s, e) || HoldsOne(s, f)
  {
    UnionHolds(s, a + b + c + d + e, f);
    UnionHolds(s, a + b + c + d, e);
    UnionHolds(s, a + b + c, d);
    UnionHolds(s, a + b, c);
    UnionHolds(s, a, b);
  }

  // ---------------------------------------------------------------------------
  // What a block says in the end
  // ---------------------------------------------------------------------------

  /** In the join of all states a block ends in as `k`, a name may hold a projection
      exactly if it may at the end of some path, and is certain to exactly if on none it
      may hold anything else. */
  lemma MergingLosesNothing(ss: seq<Stmt>, s: State, k: Kind, name: Name)
    requires StatesOf(EvalBlock(ss, s), k) != []
    ensures
      var joined := JoinStates(StatesOf(EvalBlock(ss, s), k));
      && (name in joined.aliases <==> HoldsOne(s, BeforeBlock(ss, Ends(k, MayHold(name)))))
      && (name in joined.aliases && joined.aliases[name] == Definite <==>
            !HoldsOne(s, BeforeBlock(ss, Ends(k, MayNotHold(name)))))
  {
    var states := StatesOf(EvalBlock(ss, s), k);
    MergeIsExact(states, MayHold(name));
    MergeIsExact(states, MayNotHold(name));
    BlockIsExact(ss, s, Ends(k, MayHold(name)));
    BlockIsExact(ss, s, Ends(k, MayNotHold(name)));
  }

  /** There is a fact at `pos` exactly if on some path a node there may yield a
      projection.  Its certainty is one that some path gives it; so it is definite if no
      path leaves a doubt. */
  lemma FactsAreExact(ss: seq<Stmt>, s: State, pos: nat)
    ensures
      var facts := EvalBlock(ss, s).facts;
      && (pos in facts <==> HoldsOne(s, BeforeBlock(ss, Fact(pos))))
      && (pos in facts ==> HoldsOne(s, BeforeBlock(ss, FactIs(pos, facts[pos]))))
  {
    var facts := EvalBlock(ss, s).facts;
    BlockIsExact(ss, s, Fact(pos));
    if pos in facts { BlockIsExact(ss, s, FactIs(pos, facts[pos])); }
  }
}
