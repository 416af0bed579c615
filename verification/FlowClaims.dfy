/** What can be claimed of the states of the flow analysis, one name at a time, and how
    claims are carried backwards: from a question about what a statement leads to, to the
    claims about the state before it from which alone the answer can be yes.

    Nothing is merged on the way back: a claim is followed along single control paths.
    What merging and binding do to a state is exactly what is said here of claims.

    Modelled on scripts/graph_projection_boundary_provenance.py.  */
module FlowClaims {
  import opened Common
  import opened FlowAnalysis

  // ---------------------------------------------------------------------------
  // Claims and questions
  // ---------------------------------------------------------------------------

  /** What can be claimed of a state, about one name.  `Reached` claims nothing. */
  datatype Claim =
    | Reached
    | MayHold(name: Name)                         // a projection
    | MayNotHold(name: Name)                      // something else
    | MustHold(name: Name)                        // nothing else
    | MayStandFor(name: Name, origin: Origin)     // an imported function that yields projections
    | MayNotStandFor(name: Name)                  // something else than such a function
    | MustStandFor(name: Name)                    // nothing else

  predicate Holds(s: State, c: Claim) {
    match c
    case Reached => true
    case MayHold(n) => n in s.aliases
    case MayNotHold(n) => !(n in s.aliases && s.aliases[n] == Definite)
    case MustHold(n) => n in s.aliases && s.aliases[n] == Definite
    case MayStandFor(n, o) => o in PROJECTION_FUNCTIONS && n in s.origins && o in s.origins[n]
    case MayNotStandFor(n) => !(n in s.origins && s.origins[n] <= PROJECTION_FUNCTIONS && n !in s.possibleOrigins)
    case MustStandFor(n) => n in s.origins && s.origins[n] <= PROJECTION_FUNCTIONS && n !in s.possibleOrigins
  }

  predicate About(c: Claim, name: Name) {
    !c.Reached? && c.name == name
  }

  /** Claims that survive a merge exactly if one of the merged states makes them. */
  predicate Sharp(c: Claim) {
    !c.MustHold? && !c.MustStandFor?
  }

  predicate AllSharp(claims: set<Claim>) {
    forall c :: c in claims ==> Sharp(c)
  }

  /** What can be asked of the outcomes of a statement. */
  datatype Query =
    | Ends(kind: Kind, claim: Claim)              // some state of a kind makes a claim
    | Fact(pos: nat)                              // there is a fact
    | FactIs(pos: nat, certainty: Certainty)      // with a certainty

  predicate SharpQuery(q: Query) {
    match q
    case Ends(_, c) => Sharp(c)
    case Fact(_) => true
    case FactIs(_, _) => false
  }

  predicate Shown(o: Outcomes, q: Query) {
    match q
    case Ends(k, c) => SomeHolds(StatesOf(o, k), c)
    case Fact(pos) => pos in o.facts
    case FactIs(pos, v) => pos in o.facts && o.facts[pos] == v
  }

  predicate SomeHolds(states: seq<State>, c: Claim) {
    exists i :: 0 <= i < |states| && Holds(states[i], c)
  }

  predicate SomeShown(os: seq<Outcomes>, q: Query) {
    exists i :: 0 <= i < |os| && Shown(os[i], q)
  }

  predicate HoldsOne(s: State, claims: set<Claim>) {
    exists c :: c in claims && Holds(s, c)
  }

  /** One of `states` makes one of `claims`. */
  predicate SomeHoldsOne(states: seq<State>, claims: set<Claim>) {
    exists i :: 0 <= i < |states| && HoldsOne(states[i], claims)
  }

  /** An answer, and what it is to be: the same if the question is sharp, else no more. */
  predicate Agrees(q: Query, answer: bool, expected: bool) {
    (answer ==> expected) && (SharpQuery(q) ==> (expected ==> answer))
  }

  // ---------------------------------------------------------------------------
  // Backwards through expressions and bindings
  // ---------------------------------------------------------------------------

  datatype Ask = May | MayNot | Must

  /** From which claims it follows that the value of `e` may be, may not be, or must be
      a projection. */
  function Sources(e: Expr, ask: Ask): (r: set<Claim>)
    ensures !ask.Must? ==> AllSharp(r)
  {
    match e
    case Load(_, id) => { match ask case May => MayHold(id) case MayNot => MayNotHold(id) case Must => MustHold(id) }
    case Access(_, base) => Sources(base, ask)
    case Call(_, fn, _) => if fn.Load? then CallSources(fn.id, ask) else NoSources(ask)
    case Opaque(_) => NoSources(ask)
    case IfExp(_, _, _) => NoSources(ask)
    case BoolOp(_, _) => NoSources(ask)
  }

  function CallSources(fn: Name, ask: Ask): (r: set<Claim>)
    ensures !ask.Must? ==> AllSharp(r)
  {
    match ask
    case May => set o | o in PROJECTION_FUNCTIONS :: MayStandFor(fn, o)
    case MayNot => { MayNotStandFor(fn) }
    case Must => { MustStandFor(fn) }
  }

  /** A value that is not followed counts as no projection. */
  function NoSources(ask: Ask): (r: set<Claim>)
    ensures AllSharp(r)
  {
    if ask == MayNot then { Reached } else {}
  }

  /** From which claims it follows that a node at `pos` is seen to be what is asked. */
  function Seen(e: Expr, pos: nat, ask: Ask): (r: set<Claim>)
    ensures !ask.Must? ==> AllSharp(r)
    decreases e, 1
  {
    match e
    case Load(p, _) => SeenHere(e, p, pos, ask)
    case Access(p, base) => Seen(base, pos, ask) + SeenHere(e, p, pos, ask)
    case Call(p, fn, args) => Seen(fn, pos, ask) + SeenAmong(args, pos, ask) + SeenHere(e, p, pos, ask)
    case Opaque(parts) => SeenAmong(parts, pos, ask)
    case IfExp(test, a, b) => Seen(test, pos, ask) + Seen(a, pos, ask) + Seen(b, pos, ask)
    case BoolOp(a, b) => Seen(a, pos, ask) + Seen(b, pos, ask)
  }

  function SeenHere(e: Expr, here: nat, pos: nat, ask: Ask): (r: set<Claim>)
    ensures !ask.Must? ==> AllSharp(r)
  {
    if here == pos then Sources(e, ask) else {}
  }

  function SeenAmong(es: seq<Expr>, pos: nat, ask: Ask): (r: set<Claim>)
    ensures !ask.Must? ==> AllSharp(r)
    decreases es, 0
  {
    if es == [] then {} else Seen(es[0], pos, ask) + SeenAmong(es[1..], pos, ask)
  }

  /** Forgetting a name. */
  function BeforeClear(name: Name, c: Claim): (r: set<Claim>)
    ensures Sharp(c) ==> AllSharp(r)
  {
    if !About(c, name) then { c }
    else if c.MayNotHold? || c.MayNotStandFor? then { Reached }
    else {}
  }

  function BeforeClears(name: Name, claims: set<Claim>): (r: set<Claim>)
    ensures AllSharp(claims) ==> AllSharp(r)
  {
    set m, c | m in claims && c in BeforeClear(name, m) :: c
  }

  function BeforeClearTarget(target: Option<Name>, c: Claim): (r: set<Claim>)
    ensures Sharp(c) ==> AllSharp(r)
  {
    match target
    case Some(name) => BeforeClear(name, c)
    case None => { c }
  }

  /** Binding a name to a value: what it holds is what the value is without the name. */
  function BeforeAssign(target: Name, value: Expr, c: Claim): (r: set<Claim>)
    ensures Sharp(c) ==> AllSharp(r)
  {
    if !About(c, target) then { c }
    else
      match c
      case MayHold(_) => BeforeClears(target, Sources(value, May))
      case MayNotHold(_) => BeforeClears(target, Sources(value, MayNot))
      case MustHold(_) => BeforeClears(target, Sources(value, Must))
      case MayStandFor(_, o) => if value.Load? then BeforeClear(target, MayStandFor(value.id, o)) else {}
      case MayNotStandFor(_) => if value.Load? then BeforeClear(target, MayNotStandFor(value.id)) else { Reached }
      case MustStandFor(_) => if value.Load? then BeforeClear(target, MustStandFor(value.id)) else {}
  }

  function BeforeTarget(target: Option<Name>, value: Expr, c: Claim): (r: set<Claim>)
    ensures Sharp(c) ==> AllSharp(r)
  {
    match target
    case Some(name) => BeforeAssign(name, value, c)
    case None => { c }
  }

  function BeforeTargets(target: Option<Name>, value: Expr, claims: set<Claim>): (r: set<Claim>)
    ensures AllSharp(claims) ==> AllSharp(r)
  {
    set m, c | m in claims && c in BeforeTarget(target, value, m) :: c
  }

  function BeforeImport(name: Name, origin: Origin, c: Claim): (r: set<Claim>)
    ensures Sharp(c) ==> AllSharp(r)
  {
    var produces := origin in PROJECTION_FUNCTIONS;
    if !About(c, name) then { c }
    else if c.MayNotHold? || (c.MayNotStandFor? && !produces) || (c.MustStandFor? && produces)
            || (c.MayStandFor? && produces && c.origin == origin) then { Reached }
    else {}
  }

  /** An exception that a context manager may have swallowed: nothing is certain. */
  function BeforeWeakening(c: Claim): (r: set<Claim>)
    ensures Sharp(c) ==> AllSharp(r)
  {
    if c.MayNotHold? || c.MayNotStandFor? then { Reached }
    else if c.MustHold? || c.MustStandFor? then {}
    else { c }
  }

  // ---------------------------------------------------------------------------
  // Backwards through statements
  // ---------------------------------------------------------------------------

  predicate Asks(q: Query, k: Kind) {
    q.Ends? && q.kind == k
  }

  /** An evaluation that is observed or raises. */
  function BeforeCut(e: Expr, q: Query): (r: set<Claim>)
    ensures SharpQuery(q) ==> AllSharp(r)
  {
    match q
    case Ends(k, c) => if k == Raised then { c } else {}
    case Fact(pos) => Seen(e, pos, May)
    case FactIs(pos, v) => Seen(e, pos, if v == Definite then Must else MayNot)
  }

  function BeforeCutOptional(e: Option<Expr>, q: Query): (r: set<Claim>)
    ensures SharpQuery(q) ==> AllSharp(r)
  {
    if e.Some? then BeforeCut(e.value, q) else {}
  }

  /** An evaluation that also may end normally. */
  function BeforeEval(e: Expr, q: Query): (r: set<Claim>)
    ensures SharpQuery(q) ==> AllSharp(r)
  {
    if Asks(q, Normal) then { q.claim } else BeforeCut(e, q)
  }

  function BeforeBlock(ss: seq<Stmt>, q: Query): (r: set<Claim>)
    ensures SharpQuery(q) ==> AllSharp(r)
    decreases ss, 2
  {
    if ss == [] then if Asks(q, Normal) then { q.claim } else {}
    else (if Asks(q, Normal) then {} else Before(ss[0], q)) + BeforeEach(ss[0], BeforeBlock(ss[1..], q))
  }

  /** A statement that ends normally where one of `claims` holds. */
  function BeforeEach(stmt: Stmt, claims: set<Claim>): (r: set<Claim>)
    ensures AllSharp(claims) ==> AllSharp(r)
    decreases stmt, 6
  {
    set m, c | m in claims && c in Before(stmt, Ends(Normal, m)) :: c
  }

  /** A block that ends as `k` where one of `claims` holds. */
  function BeforeBlockEach(ss: seq<Stmt>, k: Kind, claims: set<Claim>): (r: set<Claim>)
    ensures AllSharp(claims) ==> AllSharp(r)
    decreases ss, 3
  {
    set m, c | m in claims && c in BeforeBlock(ss, Ends(k, m)) :: c
  }

  /** The claims about the state before `stmt` from any one of which the answer to `q`
      after it is yes. */
  function Before(stmt: Stmt, q: Query): (r: set<Claim>)
    ensures SharpQuery(q) ==> AllSharp(r)
    decreases stmt, 5
  {
    match stmt
    case Import(name, origin) => if Asks(q, Normal) then BeforeImport(name, origin, q.claim) else {}
    case Assign(target, value) =>
      BeforeCut(value, q)
      + if Asks(q, Normal) || Asks(q, Raised) then BeforeAssign(target, value, q.claim) else {}
    case Delete(pos, name) => if Asks(q, Normal) then BeforeClear(name, q.claim) else BeforeCut(Load(pos, name), q)
    case Evaluate(value) => BeforeEval(value, q)
    case Return(result) => if Asks(q, Returned) then { q.claim } else BeforeCutOptional(result, q)
    case Raise(exc) => if Asks(q, Raised) then { q.claim } else BeforeCutOptional(exc, q)
    case Break => if Asks(q, Broken) then { q.claim } else {}
    case Continue => if Asks(q, Continued) then { q.claim } else {}
    case If(_, _, _) => BeforeIf(stmt, q)
    case Loop(_, _, _) => BeforeLoop(stmt, q)
    case With(_, _) => BeforeWith(stmt, q)
    case Try(_, _, _, _) => BeforeTry(stmt, q)
  }

  function BeforeIf(stmt: Stmt, q: Query): (r: set<Claim>)
    requires stmt.If?
    ensures SharpQuery(q) ==> AllSharp(r)
    decreases stmt, 4
  {
    BeforeCut(stmt.test, q) + BeforeBlock(stmt.body, q) + BeforeBlock(stmt.orelse, q)
  }

  /** A loop is taken to run its body once at most; a `break` skips `else`. */
  function BeforeLoop(loop: Stmt, q: Query): (r: set<Claim>)
    requires loop.Loop?
    ensures SharpQuery(q) ==> AllSharp(r)
    decreases loop, 4
  {
    BeforeLeaving(loop.head, loop.body, q) + BeforePasses(loop.head, loop.body, BeforeBlock(loop.orelse, q))
  }

  function BeforeLeaving(head: Expr, body: seq<Stmt>, q: Query): (r: set<Claim>)
    ensures SharpQuery(q) ==> AllSharp(r)
    decreases body, 5
  {
    if Asks(q, Normal) then BeforePass(head, body, Ends(Broken, q.claim))
    else if Asks(q, Broken) then {}
    else BeforePass(head, body, q)
  }

  /** The test, and the body or not; `continue` and the end of the body both reach the end of the round. */
  function BeforePass(head: Expr, body: seq<Stmt>, q: Query): (r: set<Claim>)
    ensures SharpQuery(q) ==> AllSharp(r)
    decreases body, 3
  {
    BeforeEval(head, q)
    + (if Asks(q, Continued) then {} else BeforeBlock(body, q))
    + (if Asks(q, Normal) then BeforeBlock(body, Ends(Continued, q.claim)) else {})
  }

  function BeforePasses(head: Expr, body: seq<Stmt>, claims: set<Claim>): (r: set<Claim>)
    ensures AllSharp(claims) ==> AllSharp(r)
    decreases body, 4
  {
    set m, c | m in claims && c in BeforePass(head, body, Ends(Normal, m)) :: c
  }

  function BeforeWith(w: Stmt, q: Query): (r: set<Claim>)
    requires w.With?
    ensures SharpQuery(q) ==> AllSharp(r)
    decreases w, 4
  {
    BeforeItems(w.items, false, w.body, q)
  }

  /** `with`, from some item on.  Each manager entered may swallow what is raised later. */
  function BeforeItems(items: seq<Item>, entered: bool, body: seq<Stmt>, q: Query): (r: set<Claim>)
    ensures SharpQuery(q) ==> AllSharp(r)
    decreases body, 4, |items|
  {
    if items == [] then
      BeforeBlock(body, q)
      + if Asks(q, Normal) then BeforeBlockEach(body, Raised, BeforeWeakening(q.claim)) else {}
    else
      BeforeEntry(items[0], entered, q)
      + BeforeTargets(items[0].target, items[0].context, BeforeItems(items[1..], true, body, q))
  }

  /** An item that raises, before or after its target is bound. */
  function BeforeEntry(item: Item, entered: bool, q: Query): (r: set<Claim>)
    ensures SharpQuery(q) ==> AllSharp(r)
  {
    BeforeCut(item.context, q)
    + (if Asks(q, Raised) then BeforeTarget(item.target, item.context, q.claim) else {})
    + (if entered && Asks(q, Normal)
       then BeforeWeakening(q.claim) + BeforeTargets(item.target, item.context, BeforeWeakening(q.claim))
       else {})
  }

  const PENDING: set<Kind> := { Normal, Raised, Returned, Broken, Continued }

  function BeforeTry(t: Stmt, q: Query): (r: set<Claim>)
    requires t.Try?
    ensures SharpQuery(q) ==> AllSharp(r)
    decreases t, 4
  {
    (if q.Ends? then {} else BeforeGuarded(t, q))
    + BeforePending(t, Normal, q) + BeforePending(t, Raised, q) + BeforePending(t, Returned, q)
    + BeforePending(t, Broken, q) + BeforePending(t, Continued, q)
  }

  /** From which claims `finally` is reached with `pending`, and makes the answer yes. */
  function BeforePending(t: Stmt, pending: Kind, q: Query): (r: set<Claim>)
    requires t.Try?
    ensures SharpQuery(q) ==> AllSharp(r)
    decreases t, 3, 2
  {
    BeforeGuardedEach(t, pending, BeforeFinally(t.finalbody, pending, q))
  }

  function BeforeGuardedEach(t: Stmt, k: Kind, claims: set<Claim>): (r: set<Claim>)
    requires t.Try?
    ensures AllSharp(claims) ==> AllSharp(r)
    decreases t, 3, 1
  {
    set m, c | m in claims && c in BeforeGuarded(t, Ends(k, m)) :: c
  }

  /** `finally` with `pending` to be resumed once it ends normally. */
  function BeforeFinally(finalbody: seq<Stmt>, pending: Kind, q: Query): (r: set<Claim>)
    ensures SharpQuery(q) ==> AllSharp(r)
    decreases finalbody, 3
  {
    (if Asks(q, Normal) then {} else BeforeBlock(finalbody, q))
    + (if Asks(q, pending) then BeforeBlock(finalbody, Ends(Normal, q.claim)) else {})
  }

  /** Body, `else` and handlers.  Whatever the body raises any handler may catch, or none. */
  function BeforeGuarded(t: Stmt, q: Query): (r: set<Claim>)
    requires t.Try?
    ensures SharpQuery(q) ==> AllSharp(r)
    decreases t, 3, 0
  {
    (if Asks(q, Normal) then {} else BeforeBlock(t.body, q))
    + BeforeBlockEach(t.body, Normal, BeforeBlock(t.orelse, q))
    + BeforeBlockEach(t.body, Raised, BeforeHandlers(t.handlers, q))
  }

  function BeforeHandlers(handlers: seq<Handler>, q: Query): (r: set<Claim>)
    ensures SharpQuery(q) ==> AllSharp(r)
    decreases handlers, 4
  {
    if handlers == [] then {} else BeforeHandler(handlers[0], q) + BeforeHandlers(handlers[1..], q)
  }

  /** The handler's name is forgotten. */
  function BeforeHandler(h: Handler, q: Query): (r: set<Claim>)
    ensures SharpQuery(q) ==> AllSharp(r)
    decreases h, 4
  {
    set m, c | m in BeforeBlock(h.body, q) && c in BeforeClearTarget(h.name, m) :: c
  }

  // ---------------------------------------------------------------------------
  // Merging
  // ---------------------------------------------------------------------------

  lemma UnionHolds(s: State, a: set<Claim>, b: set<Claim>)
    ensures HoldsOne(s, a + b) <==> HoldsOne(s, a) || HoldsOne(s, b)
  {
    if HoldsOne(s, a) {
      var c :| c in a && Holds(s, c);
      assert c in a + b;
    }
    if HoldsOne(s, b) {
      var c :| c in b && Holds(s, c);
      assert c in a + b;
    }
  }

  lemma OneHolds(s: State, c: Claim)
    ensures HoldsOne(s, { c }) <==> Holds(s, c)
  {
    if Holds(s, c) { assert c in { c }; }
  }

  /** A merged state makes a claim exactly if one of the states merged makes it: what
      may be, may be in one of them, and what is certain is certain in all of them. */
  lemma MergeIsExact(branches: seq<State>, c: Claim)
    requires branches != [] && Sharp(c)
    ensures Holds(Merge(branches), c) <==> SomeHolds(branches, c)
  {
    match c
    case Reached => assert Holds(branches[0], c);
    case MayHold(n) => AliasMerged(branches, n);
    case MayNotHold(n) => DoubtMerged(branches, n);
    case MayStandFor(n, o) => OriginMerged(branches, n, o);
    case MayNotStandFor(n) => OriginDoubtMerged(branches, n);
  }

  lemma AliasMerged(branches: seq<State>, n: Name)
    ensures n in Merge(branches).aliases <==> SomeHolds(branches, MayHold(n))
  {
    if i :| 0 <= i < |branches| && n in branches[i].aliases { assert Holds(branches[i], MayHold(n)); }
  }

  lemma DoubtMerged(branches: seq<State>, n: Name)
    requires branches != []
    ensures Holds(Merge(branches), MayNotHold(n)) <==> SomeHolds(branches, MayNotHold(n))
  {
    if n in AliasNames(branches) {
      if i :| 0 <= i < |branches| && !(n in branches[i].aliases && branches[i].aliases[n] == Definite) {
        assert Holds(branches[i], MayNotHold(n));
      }
    } else {
      assert n !in branches[0].aliases;
      assert Holds(branches[0], MayNotHold(n));
    }
  }

  lemma OriginMerged(branches: seq<State>, n: Name, o: Origin)
    ensures Holds(Merge(branches), MayStandFor(n, o)) <==> SomeHolds(branches, MayStandFor(n, o))
  {
    if Holds(Merge(branches), MayStandFor(n, o)) {
      var i :| 0 <= i < |branches| && n in branches[i].origins && o in branches[i].origins[n];
      assert Holds(branches[i], MayStandFor(n, o));
    }
    if i :| 0 <= i < |branches| && Holds(branches[i], MayStandFor(n, o)) {
      assert n in OriginNames(branches) && o in MergedCandidates(branches, n);
    }
  }

  lemma OriginDoubtMerged(branches: seq<State>, n: Name)
    requires branches != []
    ensures Holds(Merge(branches), MayNotStandFor(n)) <==> SomeHolds(branches, MayNotStandFor(n))
  {
    var m := Merge(branches);
    if Holds(m, MayNotStandFor(n)) {
      if n !in m.origins {
        assert n !in branches[0].origins;
        assert Holds(branches[0], MayNotStandFor(n));
      } else if n in m.possibleOrigins {
        var i :| 0 <= i < |branches| && (n in branches[i].possibleOrigins || n !in branches[i].origins);
        assert Holds(branches[i], MayNotStandFor(n));
      } else {
        var o :| o in m.origins[n] && o !in PROJECTION_FUNCTIONS;
        var i :| 0 <= i < |branches| && n in branches[i].origins && o in branches[i].origins[n];
        assert Holds(branches[i], MayNotStandFor(n));
      }
    }
    if i :| 0 <= i < |branches| && Holds(branches[i], MayNotStandFor(n)) {
      if n in branches[i].origins {
        assert branches[i].origins[n] <= MergedCandidates(branches, n);
        if n in branches[i].possibleOrigins { assert MergedPossible(branches, n); }
      } else {
        assert MergedPossible(branches, n);
      }
    }
  }

  /** Also what is certain of a merged state is so of one of those merged. */
  lemma MergeShows(branches: seq<State>, c: Claim)
    requires branches != [] && Holds(Merge(branches), c)
    ensures SomeHolds(branches, c)
  {
    if Sharp(c) {
      MergeIsExact(branches, c);
    } else if c.MustHold? {
      DoubtMerged(branches, c.name);
      assert !Holds(branches[0], MayNotHold(c.name));
      assert Holds(branches[0], c);
    } else {
      OriginDoubtMerged(branches, c.name);
      assert !Holds(branches[0], MayNotStandFor(c.name));
      assert Holds(branches[0], c);
    }
  }

  lemma {:induction false} CollectHolds(os: seq<Outcomes>, k: Kind, c: Claim)
    ensures SomeHolds(Collect(os, k), c) <==> SomeShown(os, Ends(k, c))
  {
    if os != [] {
      CollectHolds(os[1..], k, c);
      ConcatHolds(StatesOf(os[0], k), Collect(os[1..], k), c);
      assert os == [os[0]] + os[1..];
      ConcatShown([os[0]], os[1..], Ends(k, c));
      OneShown(os[0], Ends(k, c));
    }
  }

  lemma ConcatHolds(a: seq<State>, b: seq<State>, c: Claim)
    ensures SomeHolds(a + b, c) <==> SomeHolds(a, c) || SomeHolds(b, c)
  {
    if i :| 0 <= i < |a| && Holds(a[i], c) { assert Holds((a + b)[i], c); }
    if i :| 0 <= i < |b| && Holds(b[i], c) { assert Holds((a + b)[|a| + i], c); }
  }

  lemma ConcatShown(a: seq<Outcomes>, b: seq<Outcomes>, q: Query)
    ensures SomeShown(a + b, q) <==> SomeShown(a, q) || SomeShown(b, q)
  {
    if i :| 0 <= i < |a| && Shown(a[i], q) { assert Shown((a + b)[i], q); }
    if i :| 0 <= i < |b| && Shown(b[i], q) { assert Shown((a + b)[|a| + i], q); }
  }

  lemma OneShown(o: Outcomes, q: Query)
    ensures SomeShown([o], q) <==> Shown(o, q)
  {
    if Shown(o, q) { assert Shown([o][0], q); }
  }

  lemma {:induction false} CollectFactsShow(os: seq<Outcomes>, pos: nat)
    ensures pos in CollectFacts(os) <==> SomeShown(os, Fact(pos))
    ensures pos in CollectFacts(os) ==> SomeShown(os, FactIs(pos, CollectFacts(os)[pos]))
  {
    if os != [] {
      CollectFactsShow(os[1..], pos);
      assert os == [os[0]] + os[1..];
      ConcatShown([os[0]], os[1..], Fact(pos));
      OneShown(os[0], Fact(pos));
      if pos in CollectFacts(os) {
        var q := FactIs(pos, CollectFacts(os)[pos]);
        ConcatShown([os[0]], os[1..], q);
        OneShown(os[0], q);
      }
    }
  }

  lemma JoinHolds(states: seq<State>, c: Claim)
    ensures SomeHolds(JoinKind(states), c) ==> SomeHolds(states, c)
    ensures Sharp(c) ==> (SomeHolds(states, c) ==> SomeHolds(JoinKind(states), c))
  {
    if states != [] {
      if SomeHolds(JoinKind(states), c) { MergeShows(states, c); }
      if Sharp(c) {
        MergeIsExact(states, c);
        if SomeHolds(states, c) { assert Holds(JoinKind(states)[0], c); }
      }
    }
  }

  lemma JoinShows(os: seq<Outcomes>, q: Query)
    ensures Agrees(q, Shown(JoinOutcomes(os), q), SomeShown(os, q))
  {
    match q
    case Ends(k, c) =>
      CollectHolds(os, k, c);
      JoinHolds(Collect(os, k), c);
      JoinedKind(os, k);
    case Fact(pos) => CollectFactsShow(os, pos);
    case FactIs(pos, _) => CollectFactsShow(os, pos);
  }

  lemma JoinedKind(os: seq<Outcomes>, k: Kind)
    ensures StatesOf(JoinOutcomes(os), k) == JoinKind(Collect(os, k))
  {
    if k.Probe? || k == ImportFailed { NothingCollected(os, k); }
  }

  lemma {:induction false} NothingCollected(os: seq<Outcomes>, k: Kind)
    requires k.Probe? || k == ImportFailed
    ensures Collect(os, k) == []
  {
    if os != [] { NothingCollected(os[1..], k); }
  }

  // ---------------------------------------------------------------------------
  // Expressions and bindings
  // ---------------------------------------------------------------------------

  lemma ClearIsExact(name: Name, s: State, c: Claim)
    ensures Holds(Clear(name, s), c) <==> HoldsOne(s, BeforeClear(name, c))
  {
    if About(c, name) {
      if c.MayNotHold? || c.MayNotStandFor? { OneHolds(s, Reached); }
    } else {
      OneHolds(s, c);
    }
  }

  lemma ClearsIsExact(name: Name, s: State, claims: set<Claim>)
    ensures HoldsOne(Clear(name, s), claims) <==> HoldsOne(s, BeforeClears(name, claims))
  {
    if HoldsOne(Clear(name, s), claims) {
      var m :| m in claims && Holds(Clear(name, s), m);
      ClearIsExact(name, s, m);
      var c :| c in BeforeClear(name, m) && Holds(s, c);
      assert c in BeforeClears(name, claims);
    }
    if HoldsOne(s, BeforeClears(name, claims)) {
      var c :| c in BeforeClears(name, claims) && Holds(s, c);
      var m :| m in claims && c in BeforeClear(name, m);
      ClearIsExact(name, s, m);
    }
  }

  predicate Answers(c: Option<Certainty>, ask: Ask) {
    match ask
    case May => c.Some?
    case MayNot => c != Some(Definite)
    case Must => c == Some(Definite)
  }

  /** The certainty of an expression is what its sources say. */
  lemma {:induction false} CertaintyIsExact(e: Expr, s: State, ask: Ask)
    ensures Answers(CertaintyOf(e, s), ask) <==> HoldsOne(s, Sources(e, ask))
  {
    match e
    case Load(_, id) =>
      OneHolds(s, match ask case May => MayHold(id) case MayNot => MayNotHold(id) case Must => MustHold(id));
    case Access(_, base) => CertaintyIsExact(base, s, ask);
    case Call(_, fn, _) => if fn.Load? { CallIsExact(e, s, ask); } else { OneHolds(s, Reached); }
    case _ => OneHolds(s, Reached);
  }

  lemma CallIsExact(e: Expr, s: State, ask: Ask)
    requires e.Call? && e.fn.Load?
    ensures Answers(CertaintyOf(e, s), ask) <==> HoldsOne(s, CallSources(e.fn.id, ask))
  {
    var f := e.fn.id;
    OneHolds(s, MayNotStandFor(f));
    OneHolds(s, MustStandFor(f));
    CallMayProduce(f, s);
    if f in s.origins && s.origins[f] <= PROJECTION_FUNCTIONS {
      var o :| o in s.origins[f];
      assert o in s.origins[f] * PROJECTION_FUNCTIONS;
    }
  }

  lemma CallMayProduce(f: Name, s: State)
    ensures HoldsOne(s, CallSources(f, May)) <==> f in s.origins && s.origins[f] * PROJECTION_FUNCTIONS != {}
  {
    if HoldsOne(s, CallSources(f, May)) {
      var c :| c in CallSources(f, May) && Holds(s, c);
      assert c.origin in s.origins[f] * PROJECTION_FUNCTIONS;
    }
    if f in s.origins && s.origins[f] * PROJECTION_FUNCTIONS != {} {
      var o :| o in s.origins[f] * PROJECTION_FUNCTIONS;
      assert MayStandFor(f, o) in CallSources(f, May) && Holds(s, MayStandFor(f, o));
    }
  }

  /** The answer `q` gets from facts alone. */
  predicate Noted(facts: Facts, q: Query) {
    match q
    case Ends(_, _) => false
    case Fact(pos) => pos in facts
    case FactIs(pos, v) => pos in facts && facts[pos] == v
  }

  lemma NotedUnion(a: Facts, b: Facts, q: Query)
    ensures Agrees(q, Noted(a + b, q), Noted(a, q) || Noted(b, q))
  {
  }

  lemma NoteIsExact(e: Expr, here: nat, s: State, q: Query)
    requires q.Fact? || q.FactIs?
    ensures Agrees(q, Noted(Note(here, CertaintyOf(e, s)), q), HoldsOne(s, SeenHere(e, here, q.pos, AskOf(q))))
  {
    CertaintyIsExact(e, s, AskOf(q));
  }

  function AskOf(q: Query): Ask {
    if q.FactIs? then (if q.certainty == Definite then Must else MayNot) else May
  }

  /** The facts recorded for an expression are those its claims account for. */
  lemma {:induction false} RecordsIsExact(e: Expr, s: State, q: Query)
    requires q.Fact? || q.FactIs?
    ensures Agrees(q, Noted(Records(e, s), q), HoldsOne(s, Seen(e, q.pos, AskOf(q))))
    decreases e, 1
  {
    var pos, ask := q.pos, AskOf(q);
    match e
    case Load(p, _) => NoteIsExact(e, p, s, q);
    case Access(p, base) =>
      RecordsIsExact(base, s, q);
      NoteIsExact(e, p, s, q);
      BothNoted(Records(base, s), Note(p, CertaintyOf(e, s)), s, Seen(base, pos, ask), SeenHere(e, p, pos, ask), q);
    case Call(p, fn, args) =>
      RecordsIsExact(fn, s, q);
      RecordsAllIsExact(args, s, q);
      NoteIsExact(e, p, s, q);
      BothNoted(Records(fn, s), RecordsAll(args, s), s, Seen(fn, pos, ask), SeenAmong(args, pos, ask), q);
      BothNoted(Records(fn, s) + RecordsAll(args, s), Note(p, CertaintyOf(e, s)), s,
                Seen(fn, pos, ask) + SeenAmong(args, pos, ask), SeenHere(e, p, pos, ask), q);
    case Opaque(parts) => RecordsAllIsExact(parts, s, q);
    case IfExp(test, a, b) =>
      RecordsIsExact(test, s, q);
      RecordsIsExact(a, s, q);
      RecordsIsExact(b, s, q);
      BothNoted(Records(test, s), Records(a, s), s, Seen(test, pos, ask), Seen(a, pos, ask), q);
      BothNoted(Records(test, s) + Records(a, s), Records(b, s), s,
                Seen(test, pos, ask) + Seen(a, pos, ask), Seen(b, pos, ask), q);
    case BoolOp(a, b) =>
      RecordsIsExact(a, s, q);
      RecordsIsExact(b, s, q);
      BothNoted(Records(a, s), Records(b, s), s, Seen(a, pos, ask), Seen(b, pos, ask), q);
  }

  lemma BothNoted(a: Facts, b: Facts, s: State, x: set<Claim>, y: set<Claim>, q: Query)
    requires Agrees(q, Noted(a, q), HoldsOne(s, x)) && Agrees(q, Noted(b, q), HoldsOne(s, y))
    ensures Agrees(q, Noted(a + b, q), HoldsOne(s, x + y))
  {
    NotedUnion(a, b, q);
    UnionHolds(s, x, y);
  }

  lemma {:induction false} RecordsAllIsExact(es: seq<Expr>, s: State, q: Query)
    requires q.Fact? || q.FactIs?
    ensures Agrees(q, Noted(RecordsAll(es, s), q), HoldsOne(s, SeenAmong(es, q.pos, AskOf(q))))
    decreases es, 0
  {
    if es != [] {
      RecordsIsExact(es[0], s, q);
      RecordsAllIsExact(es[1..], s, q);
      BothNoted(Records(es[0], s), RecordsAll(es[1..], s), s,
                Seen(es[0], q.pos, AskOf(q)), SeenAmong(es[1..], q.pos, AskOf(q)), q);
    }
  }

  /** What binding a name to a value does to a claim. */
  lemma AssignIsExact(target: Name, value: Expr, s: State, c: Claim)
    ensures Holds(AssignValue(target, value, s), c) <==> HoldsOne(s, BeforeAssign(target, value, c))
  {
    if !About(c, target) {
      AssignKeepsOthers(target, value, s, c);
      OneHolds(s, c);
    } else if c.MayHold? || c.MayNotHold? || c.MustHold? {
      var ask := if c.MayHold? then May else if c.MayNotHold? then MayNot else Must;
      CertaintyIsExact(value, Clear(target, s), ask);
      ClearsIsExact(target, s, Sources(value, ask));
    } else if value.Load? {
      var d :=
        if c.MayStandFor? then MayStandFor(value.id, c.origin)
        else if c.MayNotStandFor? then MayNotStandFor(value.id)
        else MustStandFor(value.id);
      LoadStandsFor(target, value, s, c, d);
      ClearIsExact(target, s, d);
    } else {
      NothingStandsFor(target, value, s, c);
      OneHolds(s, Reached);
    }
  }

  lemma AssignKeepsOthers(target: Name, value: Expr, s: State, c: Claim)
    requires !About(c, target)
    ensures Holds(AssignValue(target, value, s), c) <==> Holds(s, c)
  {
  }

  lemma LoadStandsFor(target: Name, value: Expr, s: State, c: Claim, d: Claim)
    requires value.Load? && About(c, target) && About(d, value.id)
    requires
      || (c.MayStandFor? && d.MayStandFor? && c.origin == d.origin)
      || (c.MayNotStandFor? && d.MayNotStandFor?)
      || (c.MustStandFor? && d.MustStandFor?)
    ensures Holds(AssignValue(target, value, s), c) <==> Holds(Clear(target, s), d)
  {
    UnknownIsNone();
  }

  lemma UnknownIsNone()
    ensures UNKNOWN_ORIGIN !in PROJECTION_FUNCTIONS
  {
    assert |UNKNOWN_ORIGIN| == 9;
  }

  lemma NothingStandsFor(target: Name, value: Expr, s: State, c: Claim)
    requires !value.Load? && About(c, target) && (c.MayStandFor? || c.MayNotStandFor? || c.MustStandFor?)
    ensures Holds(AssignValue(target, value, s), c) <==> c.MayNotStandFor?
  {
    UnknownIsNone();
  }

  lemma TargetIsExact(target: Option<Name>, value: Expr, s: State, c: Claim)
    ensures Holds(BindTarget(target, value, s), c) <==> HoldsOne(s, BeforeTarget(target, value, c))
  {
    match target
    case Some(name) => AssignIsExact(name, value, s, c);
    case None => OneHolds(s, c);
  }

  lemma TargetsIsExact(target: Option<Name>, value: Expr, s: State, claims: set<Claim>)
    ensures HoldsOne(BindTarget(target, value, s), claims) <==> HoldsOne(s, BeforeTargets(target, value, claims))
  {
    var bound := BindTarget(target, value, s);
    if HoldsOne(bound, claims) {
      var m :| m in claims && Holds(bound, m);
      TargetIsExact(target, value, s, m);
      var c :| c in BeforeTarget(target, value, m) && Holds(s, c);
      assert c in BeforeTargets(target, value, claims);
    }
    if HoldsOne(s, BeforeTargets(target, value, claims)) {
      var c :| c in BeforeTargets(target, value, claims) && Holds(s, c);
      var m :| m in claims && c in BeforeTarget(target, value, m);
      TargetIsExact(target, value, s, m);
    }
  }

  lemma ClearTargetIsExact(target: Option<Name>, s: State, c: Claim)
    ensures Holds(ClearTarget(target, s), c) <==> HoldsOne(s, BeforeClearTarget(target, c))
  {
    match target
    case Some(name) => ClearIsExact(name, s, c);
    case None => OneHolds(s, c);
  }

  lemma ImportIsExact(name: Name, origin: Origin, s: State, c: Claim)
    ensures Holds(BindImport(name, origin, s), c) <==> HoldsOne(s, BeforeImport(name, origin, c))
  {
    OneHolds(s, Reached);
    OneHolds(s, c);
  }

  /** Once an exception may have been swallowed, nothing is certain; what may be stays. */
  lemma WeakeningIsExact(s: State, c: Claim)
    ensures Holds(PossibleState(s), c) <==> HoldsOne(s, BeforeWeakening(c))
  {
    OneHolds(s, Reached);
    OneHolds(s, c);
  }

  // ---------------------------------------------------------------------------
  // Statements with statements in them
  // ---------------------------------------------------------------------------

  lemma BeforeIfIs(stmt: Stmt, q: Query)
    requires stmt.If?
    ensures Before(stmt, q) == BeforeIf(stmt, q)
  {
  }

  lemma BeforeLoopIs(stmt: Stmt, q: Query)
    requires stmt.Loop?
    ensures Before(stmt, q) == BeforeLoop(stmt, q)
  {
  }

  lemma BeforeWithIs(stmt: Stmt, q: Query)
    requires stmt.With?
    ensures Before(stmt, q) == BeforeWith(stmt, q)
  {
  }

  lemma BeforeTryIs(stmt: Stmt, q: Query)
    requires stmt.Try?
    ensures Before(stmt, q) == BeforeTry(stmt, q)
  {
  }
}
