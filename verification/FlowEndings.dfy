/** Which ways out a statement has, told from control flow alone, and the proof that
    the flow analysis emits states for just these.  What cannot be reached changes
    nothing in its result.

    Modelled on scripts/graph_projection_boundary_provenance.py.  */
module FlowEndings {
  import opened Common
  import opened FlowAnalysis
  import opened FlowSoundness

  const KINDS: set<Kind> := { Normal, Raised, Returned, Broken, Continued }

  predicate CanEndBlock(ss: seq<Stmt>, k: Kind)
    decreases ss, 0
  {
    if ss == [] then k == Normal
    else (k != Normal && CanEnd(ss[0], k)) || (CanEnd(ss[0], Normal) && CanEndBlock(ss[1..], k))
  }

  /** `stmt` can end as `k`: any evaluation may raise, any test may go either way, and
      whatever is entered by `with` may swallow an exception. */
  predicate CanEnd(stmt: Stmt, k: Kind)
    decreases stmt, 5
  {
    match stmt
    case Import(_, _) => k == Normal
    case Assign(_, _) => k == Normal || k == Raised
    case Delete(_, _) => k == Normal || k == Raised
    case Evaluate(_) => k == Normal || k == Raised
    case Return(result) => k == Returned || (k == Raised && result.Some?)
    case Raise(_) => k == Raised
    case Break => k == Broken
    case Continue => k == Continued
    case If(_, body, orelse) => k == Raised || CanEndBlock(body, k) || CanEndBlock(orelse, k)
    case Loop(_, body, orelse) =>
      || k == Raised
      || CanEndBlock(orelse, k)
      || (k == Normal && CanEndBlock(body, Broken))
      || (k == Returned && CanEndBlock(body, Returned))
    case With(items, body) =>
      || CanEndBlock(body, k)
      || (k == Raised && items != [])
      || (k == Normal && (|items| > 1 || CanEndBlock(body, Raised)))
    case Try(_, _, _, finalbody) =>
      || (CanEndBlock(finalbody, Normal) && CanEndGuarded(stmt, k))
      || (k != Normal && CanEndBlock(finalbody, k))
  }

  /** A `try` as far as its `finally`. */
  predicate CanEndGuarded(t: Stmt, k: Kind)
    requires t.Try?
    decreases t, 4
  {
    || (k != Normal && CanEndBlock(t.body, k))
    || (CanEndBlock(t.body, Normal) && CanEndBlock(t.orelse, k))
    || (CanEndBlock(t.body, Raised) && CanEndHandlers(t.handlers, k))
  }

  predicate CanEndHandlers(handlers: seq<Handler>, k: Kind)
    decreases handlers, 3
  {
    exists i :: 0 <= i < |handlers| && CanEndBlock(handlers[i].body, k)
  }

  // ---------------------------------------------------------------------------
  // The analysis emits states for just these
  // ---------------------------------------------------------------------------

  predicate Emits(o: Outcomes, k: Kind) {
    StatesOf(o, k) != []
  }

  predicate SomeEmits(os: seq<Outcomes>, k: Kind) {
    exists i :: 0 <= i < |os| && Emits(os[i], k)
  }

  lemma {:induction false} CollectEmits(os: seq<Outcomes>, k: Kind)
    ensures Collect(os, k) != [] <==> SomeEmits(os, k)
  {
    if os != [] {
      CollectEmits(os[1..], k);
      if i :| 0 <= i < |os[1..]| && Emits(os[1..][i], k) { assert Emits(os[i + 1], k); }
      if i :| 0 <= i < |os| && Emits(os[i], k) {
        if i > 0 { assert Emits(os[1..][i - 1], k); }
      }
    }
  }

  lemma JoinEmits(os: seq<Outcomes>, k: Kind)
    ensures Emits(JoinOutcomes(os), k) <==> SomeEmits(os, k)
  {
    CollectEmits(os, k);
  }

  lemma ConcatEmits(a: seq<Outcomes>, b: seq<Outcomes>, k: Kind)
    ensures SomeEmits(a + b, k) <==> SomeEmits(a, k) || SomeEmits(b, k)
  {
    if i :| 0 <= i < |a| && Emits(a[i], k) { assert Emits((a + b)[i], k); }
    if i :| 0 <= i < |b| && Emits(b[i], k) { assert Emits((a + b)[|a| + i], k); }
  }

  lemma OneEmits(o: Outcomes, k: Kind)
    ensures SomeEmits([o], k) <==> Emits(o, k)
  {
    if Emits(o, k) { assert Emits([o][0], k); }
  }

  lemma JoinOne(o: Outcomes, k: Kind)
    ensures Emits(JoinOutcomes([o]), k) <==> Emits(o, k)
  {
    JoinEmits([o], k);
    OneEmits(o, k);
  }

  lemma JoinTwo(a: Outcomes, b: Outcomes, k: Kind)
    ensures Emits(JoinOutcomes([a, b]), k) <==> Emits(a, k) || Emits(b, k)
  {
    assert [a, b] == [a] + [b];
    JoinEmits([a, b], k);
    ConcatEmits([a], [b], k);
    OneEmits(a, k);
    OneEmits(b, k);
  }

  lemma JoinThree(a: Outcomes, b: Outcomes, c: Outcomes, k: Kind)
    ensures Emits(JoinOutcomes([a, b, c]), k) <==> Emits(a, k) || Emits(b, k) || Emits(c, k)
  {
    assert [a, b, c] == [a] + [b] + [c];
    JoinEmits([a, b, c], k);
    ConcatEmits([a] + [b], [c], k);
    ConcatEmits([a], [b], k);
    OneEmits(a, k);
    OneEmits(b, k);
    OneEmits(c, k);
  }

  /** A block emits states of a kind exactly if it can end so. */
  lemma {:induction false} BlockEndsExactly(ss: seq<Stmt>, s: State, k: Kind)
    ensures StatesOf(EvalBlock(ss, s), k) != [] <==> CanEndBlock(ss, k)
    decreases ss, 2
  {
    FromEndsExactly(ss, NO_OUTCOMES.(normal := [s]), k);
  }

  lemma {:induction false} FromEndsExactly(ss: seq<Stmt>, result: Outcomes, k: Kind)
    ensures Emits(EvalFrom(ss, result), k) <==>
      (k != Normal && Emits(result, k)) || (Emits(result, Normal) && CanEndBlock(ss, k))
    decreases ss, 1
  {
    if ss == [] {
      JoinEmits([result], k);
      OneEmits(result, k);
    } else {
      AdvanceEmits(ss[0], result, k);
      AdvanceEmits(ss[0], result, Normal);
      FromEndsExactly(ss[1..], Advance(ss[0], result), k);
    }
  }

  lemma {:induction false} AdvanceEmits(stmt: Stmt, result: Outcomes, k: Kind)
    ensures Emits(Advance(stmt, result), k) <==>
      (k != Normal && Emits(result, k)) || (Emits(result, Normal) && CanEnd(stmt, k))
    decreases stmt, 7
  {
    EachStmtEmits(stmt, result.normal, k);
    PileEmits(result, JoinOutcomes(EvalEachStmt(stmt, result.normal)), k);
  }

  lemma PileEmits(result: Outcomes, transferred: Outcomes, k: Kind)
    ensures Emits(Pile(result, transferred), k) <==> (k != Normal && Emits(result, k)) || Emits(transferred, k)
  {
  }

  lemma {:induction false} EachStmtEmits(stmt: Stmt, states: seq<State>, k: Kind)
    ensures Emits(JoinOutcomes(EvalEachStmt(stmt, states)), k) <==> states != [] && CanEnd(stmt, k)
    decreases stmt, 6
  {
    var os := EvalEachStmt(stmt, states);
    forall i | 0 <= i < |states|
      ensures Emits(os[i], k) <==> CanEnd(stmt, k)
    {
      EndsExactly(stmt, states[i], k);
    }
    AllEmit(os, CanEnd(stmt, k), k);
    JoinEmits(os, k);
  }

  lemma AllEmit(os: seq<Outcomes>, so: bool, k: Kind)
    requires forall i :: 0 <= i < |os| ==> (Emits(os[i], k) <==> so)
    ensures SomeEmits(os, k) <==> os != [] && so
  {
    if os != [] { assert Emits(os[0], k) <==> so; }
  }

  lemma {:induction false} EachEmits(ss: seq<Stmt>, states: seq<State>, k: Kind)
    ensures SomeEmits(EvalEach(ss, states), k) <==> states != [] && CanEndBlock(ss, k)
    decreases ss, 3
  {
    var os := EvalEach(ss, states);
    forall i | 0 <= i < |states|
      ensures Emits(os[i], k) <==> CanEndBlock(ss, k)
    {
      BlockEndsExactly(ss, states[i], k);
    }
    AllEmit(os, CanEndBlock(ss, k), k);
  }

  /** From whatever state, the analysis of a statement emits states of a kind exactly
      if the statement can end so. */
  lemma {:induction false} EndsExactly(stmt: Stmt, s: State, k: Kind)
    ensures StatesOf(EvalStmt(stmt, s), k) != [] <==> CanEnd(stmt, k)
    decreases stmt, 5
  {
    match stmt
    case Assign(target, value) => AssignEmits(target, value, s, k);
    case Delete(pos, name) => DeleteEmits(pos, name, s, k);
    case If(_, _, _) => IfEmits(stmt, s, k);
    case Loop(_, _, _) => LoopEmits(stmt, s, k);
    case With(_, _) => WithEmits(stmt, s, k);
    case Try(_, _, _, _) => TryEmits(stmt, s, k);
    case _ => SimpleEmits(stmt, s, k);
  }

  lemma SimpleEmits(stmt: Stmt, s: State, k: Kind)
    requires
      || stmt.Import? || stmt.Evaluate? || stmt.Return? || stmt.Raise? || stmt.Break? || stmt.Continue?
    ensures Emits(EvalStmt(stmt, s), k) <==> CanEnd(stmt, k)
  {
  }

  lemma AssignEmits(target: Name, value: Expr, s: State, k: Kind)
    ensures Emits(EvalAssign(target, value, s), k) <==> k == Normal || k == Raised
  {
    var bound := AssignValue(target, value, s);
    var inner := JoinOutcomes([NO_OUTCOMES.(normal := [bound], raised := [bound])]);
    BoundEmits(bound);
    BothEmit(inner.normal, [s] + inner.raised, Records(value, s), k);
  }

  lemma BoundEmits(bound: State)
    ensures JoinOutcomes([NO_OUTCOMES.(normal := [bound], raised := [bound])]).normal != []
  {
    JoinOne(NO_OUTCOMES.(normal := [bound], raised := [bound]), Normal);
  }

  lemma BothEmit(normal: seq<State>, raised: seq<State>, facts: Facts, k: Kind)
    requires normal != [] && raised != []
    ensures Emits(JoinOutcomes([NO_OUTCOMES.(normal := normal, raised := raised, facts := facts)]), k)
      <==> k == Normal || k == Raised
  {
    JoinOne(NO_OUTCOMES.(normal := normal, raised := raised, facts := facts), k);
  }

  lemma DeleteEmits(pos: nat, name: Name, s: State, k: Kind)
    ensures Emits(EvalDelete(pos, name, s), k) <==> k == Normal || k == Raised
  {
    var o := EvalExpr(Load(pos, name), s).(normal := [Clear(name, s)]);
    JoinTwo(NO_OUTCOMES, o, k);
  }

  lemma IfCanEnd(stmt: Stmt, k: Kind)
    requires stmt.If?
    ensures CanEnd(stmt, k) <==> k == Raised || CanEndBlock(stmt.body, k) || CanEndBlock(stmt.orelse, k)
  {
  }

  lemma {:induction false} IfEmits(stmt: Stmt, s: State, k: Kind)
    requires stmt.If?
    ensures Emits(EvalIf(stmt, s), k) <==> CanEnd(stmt, k)
    decreases stmt, 4
  {
    BlockEndsExactly(stmt.body, s, k);
    BlockEndsExactly(stmt.orelse, s, k);
    IfJoins(s, Records(stmt.test, s), EvalBlock(stmt.body, s), EvalBlock(stmt.orelse, s), k);
    IfCanEnd(stmt, k);
  }

  lemma IfJoins(s: State, facts: Facts, a: Outcomes, b: Outcomes, k: Kind)
    ensures Emits(JoinOutcomes([NO_OUTCOMES.(raised := [s], facts := facts), a, b]), k) <==>
      k == Raised || Emits(a, k) || Emits(b, k)
  {
    JoinThree(NO_OUTCOMES.(raised := [s], facts := facts), a, b, k);
  }

  lemma {:induction false} PassEmits(head: Expr, body: seq<Stmt>, s: State, k: Kind)
    ensures Emits(LoopPass(head, body, s), k) <==>
      k == Normal || k == Raised || (k != Continued && CanEndBlock(body, k))
    decreases body, 3
  {
    BlockEndsExactly(body, s, k);
    PassJoins(head, EvalBlock(body, s), s, k);
  }

  lemma PassJoins(head: Expr, once: Outcomes, s: State, k: Kind)
    ensures
      Emits(JoinOutcomes([
        NO_OUTCOMES.(normal := [s], raised := [s], facts := Records(head, s)),
        once.(normal := [s] + once.normal + once.continued, continued := [])]), k)
      <==> k == Normal || k == Raised || (k != Continued && Emits(once, k))
  {
    JoinTwo(
      NO_OUTCOMES.(normal := [s], raised := [s], facts := Records(head, s)),
      once.(normal := [s] + once.normal + once.continued, continued := []), k);
  }

  lemma {:induction false} ExitEmits(orelse: seq<Stmt>, joined: Outcomes, k: Kind)
    ensures Emits(LoopExit(orelse, joined), k) <==>
      || (k != Normal && k != Broken && Emits(joined, k))
      || (k == Normal && Emits(joined, Broken))
      || (Emits(joined, Normal) && CanEndBlock(orelse, k))
    decreases orelse, 4
  {
    if orelse == [] {
      JoinOne(joined.(normal := joined.normal + joined.broken, broken := []), k);
    } else {
      EachEmits(orelse, joined.normal, k);
      ExitJoins(joined, EvalEach(orelse, joined.normal), k);
    }
  }

  lemma ExitJoins(joined: Outcomes, os: seq<Outcomes>, k: Kind)
    ensures Emits(JoinOutcomes([joined.(normal := joined.broken, broken := [])] + os), k) <==>
      (k != Normal && k != Broken && Emits(joined, k)) || (k == Normal && Emits(joined, Broken)) || SomeEmits(os, k)
  {
    var o := joined.(normal := joined.broken, broken := []);
    JoinEmits([o] + os, k);
    ConcatEmits([o], os, k);
    OneEmits(o, k);
  }

  lemma LoopCanEnd(loop: Stmt, k: Kind)
    requires loop.Loop?
    ensures CanEnd(loop, k) <==>
      || k == Raised
      || CanEndBlock(loop.orelse, k)
      || (k == Normal && CanEndBlock(loop.body, Broken))
      || (k == Returned && CanEndBlock(loop.body, Returned))
  {
  }

  lemma {:induction false} LoopEmits(loop: Stmt, s: State, k: Kind)
    requires loop.Loop?
    ensures Emits(EvalLoop(loop, s), k) <==> CanEnd(loop, k)
    decreases loop, 4
  {
    var joined := LoopPass(loop.head, loop.body, s);
    PassEmits(loop.head, loop.body, s, k);
    PassEmits(loop.head, loop.body, s, Normal);
    PassEmits(loop.head, loop.body, s, Broken);
    ExitEmits(loop.orelse, joined, k);
    LoopCanEnd(loop, k);
  }

  lemma {:induction false} EntryEmits(items: seq<Item>, entered: bool, s: State)
    ensures EnterItems(items, entered, s).raised != [] <==> items != []
    ensures EnterItems(items, entered, s).suppressed != [] <==> |items| > 1 || (entered && items != [])
  {
    if items != [] {
      EntryEmits(items[1..], true, JoinStates([BindTarget(items[0].target, items[0].context, s)]));
    }
  }

  lemma WithJoins(entry: Entry, inside: Outcomes, k: Kind)
    ensures
      var first := NO_OUTCOMES.(raised := entry.raised + inside.raised,
                                normal := entry.suppressed + PossibleStates(inside.raised),
                                facts := entry.facts);
      Emits(JoinOutcomes([first, inside]), k) <==>
        || Emits(inside, k)
        || (k == Raised && entry.raised != [])
        || (k == Normal && (entry.suppressed != [] || Emits(inside, Raised)))
  {
    var first := NO_OUTCOMES.(raised := entry.raised + inside.raised,
                              normal := entry.suppressed + PossibleStates(inside.raised),
                              facts := entry.facts);
    JoinTwo(first, inside, k);
  }

  lemma WithCanEnd(w: Stmt, k: Kind)
    requires w.With?
    ensures CanEnd(w, k) <==>
      || CanEndBlock(w.body, k)
      || (k == Raised && w.items != [])
      || (k == Normal && (|w.items| > 1 || CanEndBlock(w.body, Raised)))
  {
  }

  lemma {:induction false} WithEmits(w: Stmt, s: State, k: Kind)
    requires w.With?
    ensures Emits(EvalWith(w, s), k) <==> CanEnd(w, k)
    decreases w, 4
  {
    var entry := EnterItems(w.items, false, s);
    EntryEmits(w.items, false, s);
    BlockEndsExactly(w.body, entry.inside, k);
    BlockEndsExactly(w.body, entry.inside, Raised);
    WithJoins(entry, EvalBlock(w.body, entry.inside), k);
    WithCanEnd(w, k);
  }

  lemma {:induction false} HandlersEmit(handlers: seq<Handler>, raised: seq<State>, k: Kind)
    ensures SomeEmits(EvalHandlers(handlers, raised), k) <==> raised != [] && CanEndHandlers(handlers, k)
    decreases handlers, 4
  {
    if handlers != [] {
      var h, rest := handlers[0], handlers[1..];
      HandlerEmits(h, raised, k);
      HandlersEmit(rest, raised, k);
      ConcatEmits(EvalHandler(h, raised), EvalHandlers(rest, raised), k);
      if i :| 0 <= i < |rest| && CanEndBlock(rest[i].body, k) { assert CanEndBlock(handlers[i + 1].body, k); }
      if i :| 0 <= i < |handlers| && CanEndBlock(handlers[i].body, k) {
        if i > 0 { assert CanEndBlock(rest[i - 1].body, k); }
      }
    }
  }

  lemma {:induction false} HandlerEmits(h: Handler, raised: seq<State>, k: Kind)
    ensures SomeEmits(EvalHandler(h, raised), k) <==> raised != [] && CanEndBlock(h.body, k)
    decreases h, 4
  {
    var os := EvalHandler(h, raised);
    forall i | 0 <= i < |raised|
      ensures Emits(os[i], k) <==> CanEndBlock(h.body, k)
    {
      BlockEndsExactly(h.body, ClearTarget(h.name, raised[i]), k);
    }
    AllEmit(os, CanEndBlock(h.body, k), k);
  }

  lemma {:induction false} GuardedEmits(t: Stmt, s: State, k: Kind)
    requires t.Try?
    ensures Emits(TryBeforeFinally(t, s), k) <==> CanEndGuarded(t, k)
    decreases t, 3
  {
    var tried := EvalBlock(t.body, s);
    BlockEndsExactly(t.body, s, k);
    BlockEndsExactly(t.body, s, Normal);
    BlockEndsExactly(t.body, s, Raised);
    EachEmits(t.orelse, tried.normal, k);
    HandlersEmit(t.handlers, tried.raised, k);
    GuardedJoins(tried, EvalEach(t.orelse, tried.normal), EvalHandlers(t.handlers, tried.raised), k);
  }

  lemma GuardedJoins(tried: Outcomes, a: seq<Outcomes>, b: seq<Outcomes>, k: Kind)
    ensures
      Emits(JoinOutcomes(
        [NO_OUTCOMES.(facts := tried.facts)] + a + b + [NO_OUTCOMES.(raised := tried.raised)]
        + [NO_OUTCOMES.(returned := tried.returned, broken := tried.broken, continued := tried.continued)]), k) <==>
      (k != Normal && Emits(tried, k)) || SomeEmits(a, k) || SomeEmits(b, k)
  {
    var seen := NO_OUTCOMES.(facts := tried.facts);
    var unmatched := NO_OUTCOMES.(raised := tried.raised);
    var passed := NO_OUTCOMES.(returned := tried.returned, broken := tried.broken, continued := tried.continued);
    JoinSix([], [seen], a, b, [unmatched], [passed], k);
    assert [] + [seen] == [seen];
    OneEmits(seen, k);
    OneEmits(unmatched, k);
    OneEmits(passed, k);
  }

  lemma ResumeEmits(pending: Kind, final: Outcomes, k: Kind)
    requires pending in KINDS
    ensures Emits(Resume(pending, final), k) <==>
      (k != Normal && Emits(final, k)) || (k == pending && Emits(final, Normal))
  {
  }

  lemma {:induction false} ResumedEmits(finalbody: seq<Stmt>, pending: Kind, states: seq<State>, k: Kind)
    requires pending in KINDS
    ensures SomeEmits(FinallyFor(finalbody, pending, states), k) <==>
      Leaves(states, CanEndBlock(finalbody, Normal), CanEndBlock(finalbody, k), pending, k)
    decreases finalbody, 4
  {
    var os := FinallyFor(finalbody, pending, states);
    forall i | 0 <= i < |states|
      ensures Emits(os[i], k) <==>
        (k != Normal && CanEndBlock(finalbody, k)) || (k == pending && CanEndBlock(finalbody, Normal))
    {
      BlockEndsExactly(finalbody, states[i], k);
      BlockEndsExactly(finalbody, states[i], Normal);
      ResumeEmits(pending, EvalBlock(finalbody, states[i]), k);
    }
    AllEmit(os, (k != Normal && CanEndBlock(finalbody, k)) || (k == pending && CanEndBlock(finalbody, Normal)), k);
  }

  /** Something pending, and a `finally` block that can end normally or as `k`, lead out as `k`. */
  predicate Leaves(states: seq<State>, normally: bool, so: bool, pending: Kind, k: Kind) {
    states != [] && ((k != Normal && so) || (k == pending && normally))
  }

  predicate SomeLeaves(joined: Outcomes, normally: bool, so: bool, k: Kind) {
    || Leaves(joined.normal, normally, so, Normal, k)
    || Leaves(joined.raised, normally, so, Raised, k)
    || Leaves(joined.returned, normally, so, Returned, k)
    || Leaves(joined.broken, normally, so, Broken, k)
    || Leaves(joined.continued, normally, so, Continued, k)
  }

  lemma {:induction false} FinallyEmits(finalbody: seq<Stmt>, joined: Outcomes, k: Kind)
    ensures Emits(JoinOutcomes(FinallyAll(finalbody, joined)), k) <==>
      SomeLeaves(joined, CanEndBlock(finalbody, Normal), CanEndBlock(finalbody, k), k)
    decreases finalbody, 5
  {
    var seen := [NO_OUTCOMES.(facts := joined.facts)];
    OneEmits(seen[0], k);
    ResumedEmits(finalbody, Normal, joined.normal, k);
    ResumedEmits(finalbody, Raised, joined.raised, k);
    ResumedEmits(finalbody, Returned, joined.returned, k);
    ResumedEmits(finalbody, Broken, joined.broken, k);
    ResumedEmits(finalbody, Continued, joined.continued, k);
    JoinSix(
      seen, FinallyFor(finalbody, Normal, joined.normal), FinallyFor(finalbody, Raised, joined.raised),
      FinallyFor(finalbody, Returned, joined.returned), FinallyFor(finalbody, Broken, joined.broken),
      FinallyFor(finalbody, Continued, joined.continued), k);
  }

  lemma JoinSix(a: seq<Outcomes>, b: seq<Outcomes>, c: seq<Outcomes>, d: seq<Outcomes>, e: seq<Outcomes>,
                f: seq<Outcomes>, k: Kind)
    ensures Emits(JoinOutcomes(a + b + c + d + e + f), k) <==>
      SomeEmits(a, k) || SomeEmits(b, k) || SomeEmits(c, k) || SomeEmits(d, k) || SomeEmits(e, k) || SomeEmits(f, k)
  {
    JoinEmits(a + b + c + d + e + f, k);
    ConcatEmits(a + b + c + d + e, f, k);
    ConcatEmits(a + b + c + d, e, k);
    ConcatEmits(a + b + c, d, k);
    ConcatEmits(a + b, c, k);
    ConcatEmits(a, b, k);
  }

  lemma TryCanEnd(t: Stmt, k: Kind)
    requires t.Try?
    ensures CanEnd(t, k) <==>
      || (CanEndBlock(t.finalbody, Normal) && CanEndGuarded(t, k))
      || (k != Normal && CanEndBlock(t.finalbody, k))
  {
  }

  lemma {:induction false} TryEmits(t: Stmt, s: State, k: Kind)
    requires t.Try?
    ensures Emits(EvalTry(t, s), k) <==> CanEnd(t, k)
    decreases t, 4
  {
    var joined := TryBeforeFinally(t, s);
    GuardedEmits(t, s, k);
    TryCanEnd(t, k);
    if t.finalbody != [] {
      FinallyEmits(t.finalbody, joined, k);
      BlockEndsExactly(t.finalbody, s, k);
      var pending := GuardedEnds(t);
      GuardedEmits(t, s, pending);
      SomethingLeaves(joined, CanEndBlock(t.finalbody, Normal), CanEndBlock(t.finalbody, k), pending, k);
    }
  }

  lemma SomethingLeaves(joined: Outcomes, normally: bool, so: bool, pending: Kind, k: Kind)
    requires pending in KINDS && Emits(joined, pending)
    ensures SomeLeaves(joined, normally, so, k) <==> (normally && Emits(joined, k)) || (k != Normal && so)
  {
  }

  // ---------------------------------------------------------------------------
  // Something always ends
  // ---------------------------------------------------------------------------

  lemma {:induction false} BlockEnds(ss: seq<Stmt>) returns (k: Kind)
    ensures k in KINDS && CanEndBlock(ss, k)
    decreases ss, 0
  {
    if ss == [] {
      k := Normal;
    } else {
      k := StmtEnds(ss[0]);
      if k == Normal { k := BlockEnds(ss[1..]); }
    }
  }

  lemma {:induction false} StmtEnds(stmt: Stmt) returns (k: Kind)
    ensures k in KINDS && CanEnd(stmt, k)
    decreases stmt, 5
  {
    match stmt
    case Return(_) => k := Returned;
    case Break => k := Broken;
    case Continue => k := Continued;
    case With(_, body) => k := BlockEnds(body);
    case Try(_, _, _, finalbody) =>
      k := BlockEnds(finalbody);
      if k == Normal { k := GuardedEnds(stmt); }
    case Import(_, _) => k := Normal;
    case _ => k := Raised;
  }

  lemma {:induction false} GuardedEnds(t: Stmt) returns (k: Kind)
    requires t.Try?
    ensures k in KINDS && CanEndGuarded(t, k)
    decreases t, 4
  {
    k := BlockEnds(t.body);
    if k == Normal { k := BlockEnds(t.orelse); }
  }

  // ---------------------------------------------------------------------------
  // What cannot be reached changes nothing
  // ---------------------------------------------------------------------------

  /** What stands behind statements that cannot end normally is ignored: it adds
      neither states nor facts. */
  lemma UnreachableIsIgnored(ss: seq<Stmt>, rest: seq<Stmt>, s: State)
    requires !CanEndBlock(ss, Normal)
    ensures EvalBlock(ss + rest, s) == EvalBlock(ss, s)
  {
    RestIsIgnored(ss, rest, NO_OUTCOMES.(normal := [s]));
  }

  lemma {:induction false} RestIsIgnored(ss: seq<Stmt>, rest: seq<Stmt>, result: Outcomes)
    requires result.normal == [] || !CanEndBlock(ss, Normal)
    ensures EvalFrom(ss + rest, result) == EvalFrom(ss, result)
    decreases |ss|
  {
    if ss == [] {
      assert ss + rest == rest;
      NothingFollows(rest, result);
    } else {
      assert (ss + rest)[0] == ss[0] && (ss + rest)[1..] == ss[1..] + rest;
      AdvanceEmits(ss[0], result, Normal);
      RestIsIgnored(ss[1..], rest, Advance(ss[0], result));
    }
  }

  lemma {:induction false} NothingFollows(ss: seq<Stmt>, result: Outcomes)
    requires result.normal == []
    ensures EvalFrom(ss, result) == JoinOutcomes([result])
    decreases |ss|
  {
    if ss != [] {
      NothingPiles(ss[0], result);
      NothingFollows(ss[1..], result);
    }
  }

  lemma NothingPiles(stmt: Stmt, result: Outcomes)
    requires result.normal == []
    ensures Advance(stmt, result) == result
  {
    assert EvalEachStmt(stmt, result.normal) == [];
    assert JoinOutcomes([]) == NO_OUTCOMES;
  }

  /** Whatever follows a `return`, there is neither a state nor a fact from it. */
  lemma ReturnIsTheEnd(result: Option<Expr>, rest: seq<Stmt>, s: State)
    ensures EvalBlock([Return(result)] + rest, s) == EvalBlock([Return(result)], s)
    ensures EvalBlock([Return(result)] + rest, s).normal == []
  {
    UnreachableIsIgnored([Return(result)], rest, s);
    BlockEndsExactly([Return(result)], s, Normal);
  }

  // ---------------------------------------------------------------------------
  // Runs end as they can
  // ---------------------------------------------------------------------------

  predicate UnguardedBlock(ss: seq<Stmt>)
    decreases ss
  {
    forall i :: 0 <= i < |ss| ==> UnguardedStmt(ss[i])
  }

  /** At no depth does an import stand where something would go on running after it
      has failed. */
  predicate UnguardedStmt(stmt: Stmt)
    decreases stmt
  {
    && ImportsUnguarded(stmt)
    && match stmt
       case If(_, body, orelse) => UnguardedBlock(body) && UnguardedBlock(orelse)
       case Loop(_, body, orelse) => UnguardedBlock(body) && UnguardedBlock(orelse)
       case With(_, body) => UnguardedBlock(body)
       case Try(body, handlers, orelse, finalbody) =>
         && UnguardedBlock(body) && UnguardedBlock(orelse) && UnguardedBlock(finalbody)
         && forall i :: 0 <= i < |handlers| ==> UnguardedBlock(handlers[i].body)
       case _ => true
  }

  /** However a block with unguarded imports is run, unless an import fails it ends in
      a way it can end. */
  lemma {:induction false} BlockRunsAsItCan(ss: seq<Stmt>, env: Env, k: Kind, env': Env)
    requires UnguardedBlock(ss) && k in KINDS && RunsBlock(ss, env, k, env')
    ensures CanEndBlock(ss, k)
    decreases ss, 0
  {
    if ss != [] {
      var k1, mid := FirstStep(ss, env, k, env');
      RunsAsItCan(ss[0], env, k1, mid);
      if k1 == Normal { BlockRunsAsItCan(ss[1..], mid, k, env'); }
    }
  }

  lemma {:induction false} RunsAsItCan(stmt: Stmt, env: Env, k: Kind, env': Env)
    requires UnguardedStmt(stmt) && k in KINDS && RunsStmt(stmt, env, k, env')
    ensures CanEnd(stmt, k)
    decreases stmt, 5
  {
    match stmt
    case If(_, body, orelse) =>
      if RunsBlock(body, env, k, env') { BlockRunsAsItCan(body, env, k, env'); }
      if RunsBlock(orelse, env, k, env') { BlockRunsAsItCan(orelse, env, k, env'); }
    case Loop(_, _, _) =>
      var n: nat :| RunsLoop(stmt, n, env, k, env');
      LoopRunsAsItCan(stmt, n, env, k, env');
    case With(_, _) => WithRunsAsItCan(stmt, 0, env, k, env');
    case Try(_, _, _, _) => TryRunsAsItCan(stmt, env, k, env');
    case _ =>
  }

  lemma {:induction false} LoopRunsAsItCan(loop: Stmt, n: nat, env: Env, k: Kind, env': Env)
    requires loop.Loop? && UnguardedStmt(loop) && k in KINDS && RunsLoop(loop, n, env, k, env')
    ensures CanEnd(loop, k)
    decreases loop, 1, n
  {
    if n > 0 {
      var _, mid := FirstRound(loop, n, env, k, env');
      LoopRunsAsItCan(loop, n - 1, mid, k, env');
    } else {
      LoopCanEnd(loop, k);
      if RunsBlock(loop.orelse, env, k, env') {
        BlockRunsAsItCan(loop.orelse, env, k, env');
      } else if k == Normal {
        BlockRunsAsItCan(loop.body, env, Broken, env');
      } else if k != Raised {
        BlockRunsAsItCan(loop.body, env, k, env');
      }
    }
  }

  lemma {:induction false} WithRunsAsItCan(w: Stmt, i: nat, env: Env, k: Kind, env': Env)
    requires w.With? && UnguardedStmt(w) && i <= |w.items| && k in KINDS && RunsWith(w, i, env, k, env')
    ensures CanEnd(w, k)
    decreases w, 1, |w.items| - i
  {
    WithCanEnd(w, k);
    if i == |w.items| {
      NeverFails(w.body, env, env');
      if RunsBlock(w.body, env, k, env') {
        BlockRunsAsItCan(w.body, env, k, env');
      } else {
        BlockRunsAsItCan(w.body, env, Raised, env');
      }
    } else if k != Raised && !(i > 0 && k == Normal) {
      var v: Value :| RunsWith(w, i + 1, Bind(w.items[i].target, v, env), k, env');
      WithRunsAsItCan(w, i + 1, Bind(w.items[i].target, v, env), k, env');
    }
  }

  lemma {:induction false} TryRunsAsItCan(t: Stmt, env: Env, k: Kind, env': Env)
    requires t.Try? && UnguardedStmt(t) && k in KINDS && RunsStmt(t, env, k, env')
    ensures CanEnd(t, k)
    decreases t, 4
  {
    var pending, mid := BeforeFinally(t, env, k, env');
    var k1: Kind :| RunsBlock(t.finalbody, mid, k1, env') && k == (if k1 == Normal then pending else k1);
    BlockRunsAsItCan(t.finalbody, mid, k1, env');
    TryCanEnd(t, k);
    if k1 == Normal { GuardedRunsAsItCan(t, env, pending, mid); }
  }

  lemma {:induction false} GuardedRunsAsItCan(t: Stmt, env: Env, k: Kind, env': Env)
    requires t.Try? && UnguardedStmt(t) && k in KINDS && RunsGuarded(t, env, k, env')
    ensures CanEndGuarded(t, k)
    decreases t, 3
  {
    var k1, mid := AfterBody(t, env, k, env');
    NeverFails(t.body, env, mid);
    BlockRunsAsItCan(t.body, env, k1, mid);
    if k1 == Normal {
      BlockRunsAsItCan(t.orelse, mid, k, env');
    } else if k1 == Raised && !(k == Raised && env' == mid) {
      HandlersRunAsTheyCan(t.handlers, mid, k, env');
    }
  }

  lemma {:induction false} HandlersRunAsTheyCan(handlers: seq<Handler>, env: Env, k: Kind, env': Env)
    requires forall i :: 0 <= i < |handlers| ==> UnguardedBlock(handlers[i].body)
    requires k in KINDS && RunsHandlers(handlers, env, k, env')
    ensures CanEndHandlers(handlers, k)
    decreases handlers, 3
  {
    var h, rest := handlers[0], handlers[1..];
    if RunsHandler(h, env, k, env') {
      var mid: Env :| RunsBlock(h.body, Bind(h.name, Plain, env), k, mid) && env' == Unbind(h.name, mid);
      BlockRunsAsItCan(h.body, Bind(h.name, Plain, env), k, mid);
      assert CanEndBlock(handlers[0].body, k);
    } else {
      HandlersRunAsTheyCan(rest, env, k, env');
      var i :| 0 <= i < |rest| && CanEndBlock(rest[i].body, k);
      assert CanEndBlock(handlers[i + 1].body, k);
    }
  }
}
