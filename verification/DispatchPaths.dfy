/** What the walk over a function's statements finds, told with sets of event types in
    place of symbolic constraints: the outcomes of statements, the event types credited
    to a function, and the helpers it hands the event to.

    Modelled on scripts/check_graph_projection_boundaries.py.  */
module DispatchPaths {
  import opened Common
  import opened EventDispatch

  type Types = iset<string>

  ghost const ALL: Types := iset t: string | true

  ghost function Admitted(c: Constraint): Types {
    iset t | Admits(c, t)
  }

  ghost function Named(test: Test): Types {
    iset t | t in TestValues(test)
  }

  // ---------------------------------------------------------------------------
  // Outcomes
  // ---------------------------------------------------------------------------

  /** The statements may end as `o` for event types among `types`, each statement taken by
      itself. */
  ghost predicate MayEnd(ss: seq<Stmt>, types: Types, o: Outcome)
    decreases ss, 0
  {
    if ss == [] then o == Fallthrough
    else
      || (o != Fallthrough && StatementMayEnd(ss[0], types, o))
      || (StatementMayEnd(ss[0], types, Fallthrough) && MayEnd(ss[1..], types, o))
  }

  ghost predicate StatementMayEnd(stmt: Stmt, types: Types, o: Outcome)
    decreases stmt, 1
  {
    match stmt
    case Return(success, _) => o == if success then Success else Failure
    case Raise => o == Failure
    case If(test, body, orelse) =>
      if test.Constant? then MayEnd(if test.truth then body else orelse, types, o)
      else if TestValues(test) == {} then MayEnd(body, types, o) || MayEnd(orelse, types, o)
      else
        || (types * Named(test) != iset{} && MayEnd(body, types * Named(test), o))
        || (types - Named(test) != iset{} && MayEnd(orelse, types - Named(test), o))
    case _ => o == Fallthrough
  }

  ghost predicate SurelySucceeds(ss: seq<Stmt>, types: Types) {
    MayEnd(ss, types, Success) && !MayEnd(ss, types, Failure) && !MayEnd(ss, types, Fallthrough)
  }

  /** The symbolic constraints are no less exact than the sets they stand for: the
      computed outcomes are those the event types admitted allow. */
  lemma {:induction false} OutcomesAreExact(ss: seq<Stmt>, c: Constraint, o: Outcome)
    ensures o in DispatchOutcomes(ss, c) <==> MayEnd(ss, Admitted(c), o)
    decreases ss, 1
  {
    OutcomesFromIsExact(ss, c, {Fallthrough}, o);
  }

  lemma {:induction false} OutcomesFromIsExact(ss: seq<Stmt>, c: Constraint, outcomes: set<Outcome>, o: Outcome)
    ensures o in OutcomesFrom(ss, c, outcomes) <==>
      (o in outcomes && o != Fallthrough) || (Fallthrough in outcomes && MayEnd(ss, Admitted(c), o))
    decreases ss, 0
  {
    if ss != [] && Fallthrough in outcomes {
      StatementOutcomesAreExact(ss[0], c, o);
      StatementOutcomesAreExact(ss[0], c, Fallthrough);
      OutcomesFromIsExact(ss[1..], c, outcomes - {Fallthrough} + StatementOutcomes(ss[0], c), o);
    }
  }

  lemma {:induction false} StatementOutcomesAreExact(stmt: Stmt, c: Constraint, o: Outcome)
    ensures o in StatementOutcomes(stmt, c) <==> StatementMayEnd(stmt, Admitted(c), o)
    decreases stmt, 2
  {
    if stmt.If? {
      var test, values := stmt.test, TestValues(stmt.test);
      if test.Constant? || values == {} {
        OutcomesAreExact(stmt.body, c, o);
        OutcomesAreExact(stmt.orelse, c, o);
      } else {
        NarrowingIsExact(c, test);
        SomeLeft(c, test);
        OutcomesAreExact(stmt.body, Constrained(c, values), o);
        OutcomesAreExact(stmt.orelse, Excluding(c, values), o);
      }
    }
  }

  lemma NarrowingIsExact(c: Constraint, test: Test)
    ensures Admitted(Constrained(c, TestValues(test))) == Admitted(c) * Named(test)
    ensures Admitted(Excluding(c, TestValues(test))) == Admitted(c) - Named(test)
  {
    forall t: string
      ensures Admits(Constrained(c, TestValues(test)), t) <==> t in Admitted(c) * Named(test)
      ensures Admits(Excluding(c, TestValues(test)), t) <==> t in Admitted(c) - Named(test)
    {
      ConstraintsAreExact(c, TestValues(test), t);
    }
  }

  /** What decides whether a branch can be taken at all. */
  lemma SomeLeft(c: Constraint, test: Test)
    ensures Matching(TestValues(test), c) != {} <==> Admitted(c) * Named(test) != iset{}
    ensures (c.included.None? || c.included.value - c.excluded - TestValues(test) != {})
      <==> Admitted(c) - Named(test) != iset{}
  {
    var values := TestValues(test);
    if t :| t in Matching(values, c) { assert t in Admitted(c) * Named(test); }
    if t :| t in Admitted(c) * Named(test) { assert t in Matching(values, c); }
    if c.included.None? {
      var t := Unnamed(c.excluded + values);
      assert t in Admitted(c) - Named(test);
    } else {
      if t :| t in c.included.value - c.excluded - values { assert t in Admitted(c) - Named(test); }
      if t :| t in Admitted(c) - Named(test) { assert t in c.included.value - c.excluded - values; }
    }
  }

  lemma AlwaysDispatchesExactly(ss: seq<Stmt>, c: Constraint)
    ensures AlwaysDispatches(ss, c) <==> SurelySucceeds(ss, Admitted(c))
  {
    var outcomes := DispatchOutcomes(ss, c);
    OutcomesAreExact(ss, c, Success);
    OutcomesAreExact(ss, c, Failure);
    OutcomesAreExact(ss, c, Fallthrough);
    if SurelySucceeds(ss, Admitted(c)) {
      forall o | o in outcomes
        ensures o == Success
      {
        assert o == Success || o == Failure || o == Fallthrough;
      }
    }
  }

  lemma AnyAdmitsAll()
    ensures Admitted(ANY) == ALL
  {
  }

  // ---------------------------------------------------------------------------
  // Event types credited, and helpers handed the event
  // ---------------------------------------------------------------------------

  /** The event types left to a branch. */
  ghost function InBranch(stmt: Stmt, inBody: bool, types: Types): Types
    requires stmt.If?
  {
    if stmt.test.Constant? || TestValues(stmt.test) == {} then types
    else if inBody then types * Named(stmt.test)
    else types - Named(stmt.test)
  }

  /** The branch is looked at. */
  predicate Looked(stmt: Stmt, inBody: bool)
    requires stmt.If?
  {
    stmt.test.Constant? ==> stmt.test.truth == inBody
  }

  /** The test names event types, all of which the body surely handles. */
  ghost predicate BodyHandles(stmt: Stmt, types: Types)
    requires stmt.If?
  {
    TestValues(stmt.test) != {} && SurelySucceeds(stmt.body, types * Named(stmt.test))
  }

  /** Nothing behind the statement is looked at. */
  ghost predicate Final(stmt: Stmt, types: Types) {
    match stmt
    case Return(_, _) => true
    case Raise => true
    case If(_, _, _) => SurelySucceeds([stmt], types)
    case _ => false
  }

  /** The event types left behind the statement: not those its body surely handles. */
  ghost function Left(stmt: Stmt, types: Types): Types {
    if stmt.If? && BodyHandles(stmt, types) then types - Named(stmt.test) else types
  }

  /** `t` is one of the types that the body of some branch surely handles. */
  ghost predicate Credits(ss: seq<Stmt>, types: Types, t: string)
    decreases ss, 0
  {
    && ss != []
    && (StatementCredits(ss[0], types, t)
        || (!Final(ss[0], types) && Credits(ss[1..], Left(ss[0], types), t)))
  }

  ghost predicate StatementCredits(stmt: Stmt, types: Types, t: string)
    decreases stmt, 1
  {
    && stmt.If?
    && (|| (BodyHandles(stmt, types) && t in types * Named(stmt.test))
        || (Looked(stmt, true) && Credits(stmt.body, InBranch(stmt, true, types), t))
        || (Looked(stmt, false) && Credits(stmt.orelse, InBranch(stmt, false, types), t)))
  }

  /** The event is handed to helper `h`, in a returned value, when just `later` are left. */
  ghost predicate Hands(ss: seq<Stmt>, types: Types, h: string, later: Types)
    decreases ss, 0
  {
    && ss != []
    && (StatementHands(ss[0], ss[1..], types, h, later)
        || (!Final(ss[0], types) && Hands(ss[1..], Left(ss[0], types), h, later)))
  }

  ghost predicate StatementHands(stmt: Stmt, next: seq<Stmt>, types: Types, h: string, later: Types)
    decreases stmt, 1
  {
    match stmt
    case Return(_, calls) => h in calls && later == types
    case Assign(names, calls) => h in calls && later == types && Returned(names, next)
    case If(_, body, orelse) =>
      || (Looked(stmt, true) && Hands(body, InBranch(stmt, true, types), h, later))
      || (Looked(stmt, false) && Hands(orelse, InBranch(stmt, false, types), h, later))
    case _ => false
  }

  /** If what was assigned to one of `names` is not None, the next statement surely returns. */
  ghost predicate Returned(names: set<string>, next: seq<Stmt>) {
    && next != [] && next[0].If? && next[0].test.NotNone? && next[0].test.name in names
    && SurelySucceeds(next[0].body, ALL)
  }

  ghost predicate Calls(v: Visit, h: string, types: Types) {
    exists c :: Call(h, c) in v.calls && Admitted(c) == types
  }

  lemma BodyHandlesExactly(stmt: Stmt, c: Constraint)
    requires stmt.If?
    ensures TestValues(stmt.test) != {} && BodyAlwaysDispatches(stmt, c) <==> BodyHandles(stmt, Admitted(c))
  {
    if TestValues(stmt.test) != {} {
      NarrowingIsExact(c, stmt.test);
      AlwaysDispatchesExactly(stmt.body, BodyConstraint(stmt, c));
    }
  }

  lemma StopsExactly(stmt: Stmt, c: Constraint)
    ensures Stops(stmt, c) <==> Final(stmt, Admitted(c))
  {
    if stmt.If? {
      AlwaysDispatchesExactly([stmt], c);
      if stmt.test.Constant? {
        AlwaysDispatchesExactly(Selected(stmt), c);
        Alone(stmt, Admitted(c), Success);
        Alone(stmt, Admitted(c), Failure);
        Alone(stmt, Admitted(c), Fallthrough);
      }
    }
  }

  lemma Alone(stmt: Stmt, types: Types, o: Outcome)
    ensures MayEnd([stmt], types, o) <==> StatementMayEnd(stmt, types, o)
  {
    assert [stmt][1..] == [];
  }

  lemma NarrowedExactly(stmt: Stmt, c: Constraint)
    ensures Admitted(Narrowed(stmt, c)) == Left(stmt, Admitted(c))
  {
    if stmt.If? {
      BodyHandlesExactly(stmt, c);
      NarrowingIsExact(c, stmt.test);
    }
  }

  lemma BranchExactly(stmt: Stmt, c: Constraint)
    requires stmt.If? && !stmt.test.Constant?
    ensures Admitted(BodyConstraint(stmt, c)) == InBranch(stmt, true, Admitted(c))
    ensures Admitted(ElseConstraint(stmt, c)) == InBranch(stmt, false, Admitted(c))
  {
    NarrowingIsExact(c, stmt.test);
  }

  /** The event types the walk reports are those credited. */
  lemma {:induction false} ReportsAreExact(ss: seq<Stmt>, c: Constraint, t: string)
    ensures t in VisitAll(ss, c).reported <==> Credits(ss, Admitted(c), t)
    decreases ss, 0
  {
    if ss != [] {
      StatementReportsAreExact(ss[0], c, ss[1..], t);
      StopsExactly(ss[0], c);
      NarrowedExactly(ss[0], c);
      ReportsAreExact(ss[1..], Narrowed(ss[0], c), t);
    }
  }

  lemma {:induction false} StatementReportsAreExact(stmt: Stmt, c: Constraint, next: seq<Stmt>, t: string)
    ensures t in VisitOne(stmt, c, next).reported <==> StatementCredits(stmt, Admitted(c), t)
    decreases stmt, 1
  {
    if stmt.If? {
      BodyHandlesExactly(stmt, c);
      if stmt.test.Constant? {
        ReportsAreExact(Selected(stmt), c, t);
      } else {
        ConstraintsAreExact(c, TestValues(stmt.test), t);
        BranchExactly(stmt, c);
        ReportsAreExact(stmt.body, BodyConstraint(stmt, c), t);
        ReportsAreExact(stmt.orelse, ElseConstraint(stmt, c), t);
      }
    }
  }

  lemma JoinCalls(a: Visit, b: Visit, h: string, types: Types)
    ensures Calls(Join(a, b), h, types) <==> Calls(a, h, types) || Calls(b, h, types)
  {
    if c :| Call(h, c) in a.calls && Admitted(c) == types { assert Call(h, c) in Join(a, b).calls; }
    if c :| Call(h, c) in b.calls && Admitted(c) == types { assert Call(h, c) in Join(a, b).calls; }
  }

  lemma ListedCalls(calls: seq<string>, c: Constraint, h: string, types: Types)
    ensures Calls(Visit({}, CallsTo(calls, c)), h, types) <==> h in calls && types == Admitted(c)
  {
    if h in calls { assert Call(h, c) in CallsTo(calls, c); }
  }

  /** The helpers the walk goes on to, and for which event types, are those the event is
      handed to. */
  lemma {:induction false} CallsAreExact(ss: seq<Stmt>, c: Constraint, h: string, types: Types)
    ensures Calls(VisitAll(ss, c), h, types) <==> Hands(ss, Admitted(c), h, types)
    decreases ss, 0
  {
    if ss != [] {
      var one, rest := VisitOne(ss[0], c, ss[1..]), VisitAll(ss[1..], Narrowed(ss[0], c));
      StatementCallsAreExact(ss[0], c, ss[1..], h, types);
      StopsExactly(ss[0], c);
      NarrowedExactly(ss[0], c);
      CallsAreExact(ss[1..], Narrowed(ss[0], c), h, types);
      JoinCalls(one, rest, h, types);
    }
  }

  lemma {:induction false} StatementCallsAreExact(stmt: Stmt, c: Constraint, next: seq<Stmt>, h: string, types: Types)
    ensures Calls(VisitOne(stmt, c, next), h, types) <==> StatementHands(stmt, next, Admitted(c), h, types)
    decreases stmt, 1
  {
    match stmt
    case Return(_, calls) => ListedCalls(calls, c, h, types);
    case Assign(names, calls) =>
      ListedCalls(calls, c, h, types);
      ReturnedExactly(names, next);
    case If(_, _, _) => IfCallsAreExact(stmt, c, next, h, types);
    case _ =>
  }

  lemma ReturnedExactly(names: set<string>, next: seq<Stmt>)
    ensures ReturnsWhatWasAssigned(names, next) <==> Returned(names, next)
  {
    if next != [] && next[0].If? {
      AnyAdmitsAll();
      AlwaysDispatchesExactly(next[0].body, ANY);
    }
  }

  lemma {:induction false} IfCallsAreExact(stmt: Stmt, c: Constraint, next: seq<Stmt>, h: string, types: Types)
    requires stmt.If?
    ensures Calls(VisitOne(stmt, c, next), h, types) <==> StatementHands(stmt, next, Admitted(c), h, types)
    decreases stmt, 0
  {
    if stmt.test.Constant? {
      CallsAreExact(Selected(stmt), c, h, types);
    } else {
      var here := Visit(if BodyAlwaysDispatches(stmt, c) then Matching(TestValues(stmt.test), c) else {}, {});
      var a, b := VisitAll(stmt.body, BodyConstraint(stmt, c)), VisitAll(stmt.orelse, ElseConstraint(stmt, c));
      BranchExactly(stmt, c);
      CallsAreExact(stmt.body, BodyConstraint(stmt, c), h, types);
      CallsAreExact(stmt.orelse, ElseConstraint(stmt, c), h, types);
      JoinCalls(here, Join(a, b), h, types);
      JoinCalls(a, b, h, types);
    }
  }
}
