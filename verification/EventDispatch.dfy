/** Which event types does `reduce_event` handle?  A symbolic analysis of the ways a
    statement list can end, under a constraint on the event type, and a memoised walk
    over the helpers that are handed the event.

    Modelled on scripts/check_graph_projection_boundaries.py.  */
module EventDispatch {
  import opened Common

  /** Elements of the literal tuple or set an event type is compared with. */
  datatype Element = Literal(value: string) | Dynamic

  datatype Test =
    | Constant(truth: bool)
    | OneOf(elements: seq<Element>)   // event.event_type == ... / in (...)
    | NotNone(name: string)           // name is not None
    | Opaque

  /** `calls` are the helpers that the statement's value passes the event to. */
  datatype Stmt =
    | Return(success: bool, calls: seq<string>)
    | Raise
    | If(test: Test, body: seq<Stmt>, orelse: seq<Stmt>)
    | Assign(names: set<string>, calls: seq<string>)
    | Definition
    | Other

  // ---------------------------------------------------------------------------
  // Constraints
  // ---------------------------------------------------------------------------

  /** `included` None admits every event type. */
  datatype Constraint = Constraint(included: Option<set<string>>, excluded: set<string>)

  const ANY := Constraint(None, {})

  predicate Admits(c: Constraint, t: string) {
    (c.included.Some? ==> t in c.included.value) && t !in c.excluded
  }

  function Matching(values: set<string>, c: Constraint): set<string> {
    var matched := values - c.excluded;
    if c.included.None? then matched else matched * c.included.value
  }

  function Constrained(c: Constraint, values: set<string>): Constraint {
    var available := if c.included.None? then values else c.included.value * values;
    Constraint(Some(available - c.excluded), {})
  }

  function Excluding(c: Constraint, values: set<string>): Constraint {
    if c.included.None? then Constraint(None, c.excluded + values)
    else Constraint(Some(c.included.value - values), c.excluded)
  }

  /** Constraining and excluding are exact intersection and difference. */
  lemma ConstraintsAreExact(c: Constraint, values: set<string>, t: string)
    ensures Admits(Constrained(c, values), t) <==> Admits(c, t) && t in values
    ensures Admits(Excluding(c, values), t) <==> Admits(c, t) && t !in values
    ensures t in Matching(values, c) <==> Admits(c, t) && t in values
  {
  }

  // ---------------------------------------------------------------------------
  // The analysis
  // ---------------------------------------------------------------------------

  datatype Outcome = Success | Failure | Fallthrough

  /** The event types a test names; none if it is not a test of the event type. */
  function TestValues(test: Test): set<string> {
    if test.OneOf? then set e | e in test.elements && e.Literal? :: e.value else {}
  }

  function DispatchOutcomes(ss: seq<Stmt>, c: Constraint): set<Outcome>
    decreases ss, 1
  {
    OutcomesFrom(ss, c, {Fallthrough})
  }

  function OutcomesFrom(ss: seq<Stmt>, c: Constraint, outcomes: set<Outcome>): set<Outcome>
    decreases ss, 0
  {
    if ss == [] || Fallthrough !in outcomes then outcomes
    else OutcomesFrom(ss[1..], c, outcomes - {Fallthrough} + StatementOutcomes(ss[0], c))
  }

  function StatementOutcomes(stmt: Stmt, c: Constraint): set<Outcome>
    decreases stmt, 2
  {
    match stmt
    case Return(success, _) => if success then {Success} else {Failure}
    case Raise => {Failure}
    case If(test, body, orelse) =>
      if test.Constant? then DispatchOutcomes(if test.truth then body else orelse, c)
      else
        var values := TestValues(test);
        if values == {} then DispatchOutcomes(body, c) + DispatchOutcomes(orelse, c)
        else
          (if Matching(values, c) != {} then DispatchOutcomes(body, Constrained(c, values)) else {})
          + (if c.included.None? || c.included.value - c.excluded - values != {}
             then DispatchOutcomes(orelse, Excluding(c, values)) else {})
    case _ => {Fallthrough}
  }

  predicate AlwaysDispatches(ss: seq<Stmt>, c: Constraint) {
    DispatchOutcomes(ss, c) == {Success}
  }

  /** The loop over the statements, left as soon as nothing falls through. */
  method ComputeOutcomes(ss: seq<Stmt>, c: Constraint) returns (outcomes: set<Outcome>)
    ensures outcomes == DispatchOutcomes(ss, c)
  {
    outcomes := {Fallthrough};
    var i := 0;
    while i < |ss|
      invariant 0 <= i <= |ss|
      invariant OutcomesFrom(ss[i..], c, outcomes) == DispatchOutcomes(ss, c)
    {
      if Fallthrough !in outcomes {
        break;
      }
      var terminal := outcomes - {Fallthrough};
      assert ss[i..][0] == ss[i] && ss[i..][1..] == ss[i + 1..];
      outcomes := terminal + StatementOutcomes(ss[i], c);
      i := i + 1;
    }
  }

  // ---------------------------------------------------------------------------
  // What statements really do
  // ---------------------------------------------------------------------------

  /** The test may come out as `b` for an event of type `t`. */
  predicate MayBe(test: Test, t: string, b: bool) {
    match test
    case Constant(truth) => b == truth
    case OneOf(elements) =>
      if Literal(t) in elements then b else if Dynamic in elements then true else !b
    case _ => true
  }

  /** The ways a run of the statements can end for an event of type `t`. */
  function Ends(ss: seq<Stmt>, t: string): set<Outcome>
    decreases ss, 0
  {
    if ss == [] then {Fallthrough}
    else
      var first := StatementEnds(ss[0], t);
      first - {Fallthrough} + (if Fallthrough in first then Ends(ss[1..], t) else {})
  }

  function StatementEnds(stmt: Stmt, t: string): set<Outcome>
    decreases stmt, 1
  {
    match stmt
    case Return(success, _) => if success then {Success} else {Failure}
    case Raise => {Failure}
    case If(test, body, orelse) =>
      (if MayBe(test, t, true) then Ends(body, t) else {}) + (if MayBe(test, t, false) then Ends(orelse, t) else {})
    case _ => {Fallthrough}
  }

  /** A test that names event types must not compare with anything else. */
  predicate OnlyLiterals(test: Test) {
    TestValues(test) != {} ==> Dynamic !in test.elements
  }

  predicate LiteralBlock(ss: seq<Stmt>)
    decreases ss, 0
  {
    forall i :: 0 <= i < |ss| ==> LiteralStmt(ss[i])
  }

  predicate LiteralStmt(stmt: Stmt)
    decreases stmt, 1
  {
    stmt.If? ==> OnlyLiterals(stmt.test) && LiteralBlock(stmt.body) && LiteralBlock(stmt.orelse)
  }

  /** Reading the tested values off the literals is right exactly for tests whose
      elements are all literals, or none. */
  lemma OnlyLiteralsExactly(test: Test)
    requires TestValues(test) != {}
    ensures (forall t :: MayBe(test, t, true) ==> t in TestValues(test)) <==> OnlyLiterals(test)
  {
    if !OnlyLiterals(test) {
      var t := Unnamed(TestValues(test));
      assert MayBe(test, t, true);
    }
  }

  /** Some string is not in a given finite set. */
  lemma Unnamed(values: set<string>) returns (t: string)
    ensures t !in values
  {
    t := "";
    var seen := {};
    while t in values
      invariant seen <= values && forall s :: s in seen ==> |s| < |t|
      decreases |values - seen|
    {
      assert t !in seen;
      assert values - seen == (values - (seen + {t})) + {t};
      seen := seen + {t};
      t := t + "x";
    }
  }

  // ---------------------------------------------------------------------------
  // Soundness of the outcomes
  // ---------------------------------------------------------------------------

  lemma {:induction false} TerminalStays(ss: seq<Stmt>, c: Constraint, outcomes: set<Outcome>)
    ensures outcomes - {Fallthrough} <= OutcomesFrom(ss, c, outcomes)
    decreases ss
  {
    if ss != [] && Fallthrough in outcomes {
      TerminalStays(ss[1..], c, outcomes - {Fallthrough} + StatementOutcomes(ss[0], c));
    }
  }

  /** Every way a run can end, for any event type the constraint admits, is among the
      computed outcomes. */
  lemma {:induction false} OutcomesSound(ss: seq<Stmt>, c: Constraint, t: string)
    requires LiteralBlock(ss) && Admits(c, t)
    ensures Ends(ss, t) <= DispatchOutcomes(ss, c)
    decreases ss, 1
  {
    OutcomesFromSound(ss, c, t, {Fallthrough});
  }

  lemma {:induction false} OutcomesFromSound(ss: seq<Stmt>, c: Constraint, t: string, outcomes: set<Outcome>)
    requires LiteralBlock(ss) && Admits(c, t) && Fallthrough in outcomes
    ensures Ends(ss, t) <= OutcomesFrom(ss, c, outcomes)
    decreases ss, 0
  {
    if ss != [] {
      StatementSound(ss[0], c, t);
      var next := outcomes - {Fallthrough} + StatementOutcomes(ss[0], c);
      TerminalStays(ss[1..], c, next);
      if Fallthrough in StatementEnds(ss[0], t) { OutcomesFromSound(ss[1..], c, t, next); }
    }
  }

  lemma {:induction false} StatementSound(stmt: Stmt, c: Constraint, t: string)
    requires LiteralStmt(stmt) && Admits(c, t)
    ensures StatementEnds(stmt, t) <= StatementOutcomes(stmt, c)
    decreases stmt, 2
  {
    if stmt.If? {
      var values := TestValues(stmt.test);
      ConstraintsAreExact(c, values, t);
      if MayBe(stmt.test, t, true) {
        OutcomesSound(stmt.body, if values == {} then c else Constrained(c, values), t);
      }
      if MayBe(stmt.test, t, false) {
        OutcomesSound(stmt.orelse, if values == {} then c else Excluding(c, values), t);
        assert values != {} && c.included.Some? ==> t in c.included.value - c.excluded - values;
      }
    }
  }

  lemma {:induction false} RunsEnd(ss: seq<Stmt>, t: string)
    ensures Ends(ss, t) != {}
    decreases ss, 0
  {
    if ss != [] {
      StatementRunsEnd(ss[0], t);
      RunsEnd(ss[1..], t);
      var o :| o in StatementEnds(ss[0], t);
      if o != Fallthrough { assert o in Ends(ss, t); }
    }
  }

  lemma {:induction false} StatementRunsEnd(stmt: Stmt, t: string)
    ensures StatementEnds(stmt, t) != {}
    decreases stmt, 1
  {
    if stmt.If? {
      RunsEnd(stmt.body, t);
      RunsEnd(stmt.orelse, t);
      assert MayBe(stmt.test, t, true) || MayBe(stmt.test, t, false);
    }
  }

  /** A list that always dispatches returns successfully on every path. */
  lemma AlwaysDispatchesMeansSuccess(ss: seq<Stmt>, c: Constraint, t: string)
    requires LiteralBlock(ss) && AlwaysDispatches(ss, c) && Admits(c, t)
    ensures Ends(ss, t) == {Success}
  {
    OutcomesSound(ss, c, t);
    RunsEnd(ss, t);
  }

  // ---------------------------------------------------------------------------
  // The walk over one function
  // ---------------------------------------------------------------------------

  datatype Call = Call(helper: string, constraint: Constraint)

  /** The event types reported by a walk and the helper calls it makes. */
  datatype Visit = Visit(reported: set<string>, calls: set<Call>)

  const NOTHING := Visit({}, {})

  function Join(a: Visit, b: Visit): Visit {
    Visit(a.reported + b.reported, a.calls + b.calls)
  }

  function CallsTo(helpers: seq<string>, c: Constraint): set<Call> {
    set h | h in helpers :: Call(h, c)
  }

  function BodyConstraint(stmt: Stmt, c: Constraint): Constraint
    requires stmt.If?
  {
    var values := TestValues(stmt.test);
    if values == {} then c else Constrained(c, values)
  }

  function ElseConstraint(stmt: Stmt, c: Constraint): Constraint
    requires stmt.If?
  {
    var values := TestValues(stmt.test);
    if values == {} then c else Excluding(c, values)
  }

  predicate BodyAlwaysDispatches(stmt: Stmt, c: Constraint)
    requires stmt.If?
  {
    TestValues(stmt.test) != {} && AlwaysDispatches(stmt.body, BodyConstraint(stmt, c))
  }

  function Selected(stmt: Stmt): seq<Stmt>
    requires stmt.If? && stmt.test.Constant?
  {
    if stmt.test.truth then stmt.body else stmt.orelse
  }

  /** What the walk finds in one statement, `next` being the statements after it. */
  function VisitOne(stmt: Stmt, c: Constraint, next: seq<Stmt>): Visit
    decreases stmt, 1
  {
    match stmt
    case If(test, body, orelse) =>
      if test.Constant? then VisitAll(Selected(stmt), c)
      else
        Join(Visit(if BodyAlwaysDispatches(stmt, c) then Matching(TestValues(test), c) else {}, {}),
             Join(VisitAll(body, BodyConstraint(stmt, c)), VisitAll(orelse, ElseConstraint(stmt, c))))
    case Return(_, calls) => Visit({}, CallsTo(calls, c))
    case Assign(names, calls) => if ReturnsWhatWasAssigned(names, next) then Visit({}, CallsTo(calls, c)) else NOTHING
    case _ => NOTHING
  }

  /** The next statement returns one of the names if it is not None. */
  predicate ReturnsWhatWasAssigned(names: set<string>, next: seq<Stmt>) {
    next != [] && next[0].If? && next[0].test.NotNone? && next[0].test.name in names
    && AlwaysDispatches(next[0].body, ANY)
  }

  /** No statement after this one is looked at. */
  predicate Stops(stmt: Stmt, c: Constraint) {
    match stmt
    case If(test, _, _) =>
      if test.Constant? then AlwaysDispatches(Selected(stmt), c) else AlwaysDispatches([stmt], c)
    case Return(_, _) => true
    case Raise => true
    case _ => false
  }

  /** The constraint the next statement is looked at under. */
  function Narrowed(stmt: Stmt, c: Constraint): Constraint {
    if stmt.If? && !stmt.test.Constant? && BodyAlwaysDispatches(stmt, c) then ElseConstraint(stmt, c) else c
  }

  function VisitAll(ss: seq<Stmt>, c: Constraint): Visit
    decreases ss, 0
  {
    if ss == [] then NOTHING
    else if Stops(ss[0], c) then VisitOne(ss[0], c, ss[1..])
    else Join(VisitOne(ss[0], c, ss[1..]), VisitAll(ss[1..], Narrowed(ss[0], c)))
  }

  // ---------------------------------------------------------------------------
  // Reported event types are real
  // ---------------------------------------------------------------------------

  /** No way through these statements fails, and no test is empty. */
  predicate NeverFails(ss: seq<Stmt>)
    decreases ss, 0
  {
    forall i :: 0 <= i < |ss| ==> StatementNeverFails(ss[i])
  }

  predicate StatementNeverFails(stmt: Stmt)
    decreases stmt, 1
  {
    match stmt
    case Return(success, _) => success
    case Raise => false
    case If(test, body, orelse) => test != OneOf([]) && NeverFails(body) && NeverFails(orelse)
    case _ => true
  }

  /** Failing returns and raises only as the last statement of the function. */
  predicate FailsOnlyAtEnd(ss: seq<Stmt>) {
    ss == []
    || (NeverFails(ss[..|ss| - 1])
      && (StatementNeverFails(ss[|ss| - 1]) || ss[|ss| - 1] == Raise || ss[|ss| - 1].Return?))
  }

  /** The computed outcomes hold the end of some run, for each admitted event type. */
  lemma {:induction false} SomeRunIsFound(ss: seq<Stmt>, c: Constraint, t: string) returns (o: Outcome)
    requires Admits(c, t)
    ensures o in Ends(ss, t) && o in DispatchOutcomes(ss, c)
    decreases ss, 1
  {
    o := SomeRunIsFoundFrom(ss, c, t, {Fallthrough});
  }

  lemma {:induction false} SomeRunIsFoundFrom(ss: seq<Stmt>, c: Constraint, t: string, outcomes: set<Outcome>)
    returns (o: Outcome)
    requires Admits(c, t) && Fallthrough in outcomes
    ensures o in Ends(ss, t) && o in OutcomesFrom(ss, c, outcomes)
    decreases ss, 0
  {
    o := Fallthrough;
    if ss != [] {
      var next := outcomes - {Fallthrough} + StatementOutcomes(ss[0], c);
      o := SomeStatementRunIsFound(ss[0], c, t);
      TerminalStays(ss[1..], c, next);
      if o == Fallthrough { o := SomeRunIsFoundFrom(ss[1..], c, t, next); }
    }
  }

  lemma {:induction false} SomeStatementRunIsFound(stmt: Stmt, c: Constraint, t: string) returns (o: Outcome)
    requires Admits(c, t)
    ensures o in StatementEnds(stmt, t) && o in StatementOutcomes(stmt, c)
    decreases stmt, 2
  {
    if stmt.If? {
      var values := TestValues(stmt.test);
      ConstraintsAreExact(c, values, t);
      if MayBe(stmt.test, t, true) && (values == {} || t in values) {
        o := SomeRunIsFound(stmt.body, BodyConstraint(stmt, c), t);
      } else {
        assert values != {} && c.included.Some? ==> t in c.included.value - c.excluded - values;
        o := SomeRunIsFound(stmt.orelse, ElseConstraint(stmt, c), t);
      }
    } else {
      StatementRunsEnd(stmt, t);
      o :| o in StatementEnds(stmt, t);
    }
  }

  lemma {:induction false} NeverFailsMeansNoFailure(ss: seq<Stmt>, t: string)
    requires NeverFails(ss)
    ensures Failure !in Ends(ss, t)
    decreases ss, 0
  {
    if ss != [] {
      StatementNeverFailsMeansNoFailure(ss[0], t);
      NeverFailsMeansNoFailure(ss[1..], t);
    }
  }

  lemma {:induction false} StatementNeverFailsMeansNoFailure(stmt: Stmt, t: string)
    requires StatementNeverFails(stmt)
    ensures Failure !in StatementEnds(stmt, t)
    decreases stmt, 1
  {
    if stmt.If? {
      NeverFailsMeansNoFailure(stmt.body, t);
      NeverFailsMeansNoFailure(stmt.orelse, t);
    }
  }

  /** Every event type reported within a function has a run of that function that
      returns successfully. */
  lemma {:induction false} ReportedIsReal(ss: seq<Stmt>, c: Constraint, t: string)
    requires FailsOnlyAtEnd(ss) && t in VisitAll(ss, c).reported
    ensures Admits(c, t) && Success in Ends(ss, t)
    decreases ss, 0
  {
    var stmt, rest := ss[0], ss[1..];
    var last := ss[|ss| - 1];
    assert StatementNeverFails(stmt) || stmt == Raise || stmt.Return?;
    if t in VisitOne(stmt, c, rest).reported {
      ReportedInOneIsReal(stmt, c, rest, t);
    } else {
      assert rest != [];
      assert ss[..|ss| - 1][0] == stmt;
      assert rest[..|rest| - 1] == ss[..|ss| - 1][1..];
      ReportedIsReal(rest, Narrowed(stmt, c), t);
      if stmt.If? { ConstraintsAreExact(c, TestValues(stmt.test), t); }
      StatementRunsEnd(stmt, t);
      StatementNeverFailsMeansNoFailure(stmt, t);
      var o :| o in StatementEnds(stmt, t);
      assert o == Success || o == Fallthrough;
    }
  }

  lemma {:induction false} ReportedInOneIsReal(stmt: Stmt, c: Constraint, next: seq<Stmt>, t: string)
    requires StatementNeverFails(stmt) || stmt == Raise || stmt.Return?
    requires t in VisitOne(stmt, c, next).reported
    ensures Admits(c, t) && Success in StatementEnds(stmt, t)
    decreases stmt, 1
  {
    if stmt.test.Constant? {
      NeverFailsToEnd(Selected(stmt));
      ReportedIsReal(Selected(stmt), c, t);
    } else {
      var values := TestValues(stmt.test);
      ConstraintsAreExact(c, values, t);
      if BodyAlwaysDispatches(stmt, c) && t in Matching(values, c) {
        var o := SomeRunIsFound(stmt.body, BodyConstraint(stmt, c), t);
        assert MayBe(stmt.test, t, true);
      } else if t in VisitAll(stmt.body, BodyConstraint(stmt, c)).reported {
        NeverFailsToEnd(stmt.body);
        ReportedIsReal(stmt.body, BodyConstraint(stmt, c), t);
        if values == {} { UnnamedTestMayBeTrue(stmt.test, t); }
        assert MayBe(stmt.test, t, true);
      } else {
        NeverFailsToEnd(stmt.orelse);
        ReportedIsReal(stmt.orelse, ElseConstraint(stmt, c), t);
        assert MayBe(stmt.test, t, false);
      }
    }
  }

  lemma NeverFailsToEnd(ss: seq<Stmt>)
    requires NeverFails(ss)
    ensures FailsOnlyAtEnd(ss)
  {
  }

  lemma UnnamedTestMayBeTrue(test: Test, t: string)
    requires TestValues(test) == {} && test != OneOf([]) && !test.Constant?
    ensures MayBe(test, t, true)
  {
    if test.OneOf? && test.elements[0].Literal? { LiteralIsNamed(test, test.elements[0]); }
  }

  lemma LiteralIsNamed(test: Test, e: Element)
    requires test.OneOf? && e in test.elements && e.Literal?
    ensures e.value in TestValues(test)
  {
  }

  const ON_A := OneOf([Literal("a")])

  const EARLY_FAILURE: seq<Stmt> := [If(ON_A, [Return(false, [])], []), If(ON_A, [Return(true, [])], [])]

  /** With a failing return in front, the walk reports an event type no run handles:
      if event.event_type == "a": return None
      if event.event_type == "a": return x  */
  lemma EarlyFailureIsMisreported()
    ensures "a" in VisitAll(EARLY_FAILURE, ANY).reported && Ends(EARLY_FAILURE, "a") == {Failure}
  {
    EarlyFailureIsReported();
    assert Ends([Return(false, [])], "a") == {Failure};
    assert StatementEnds(EARLY_FAILURE[0], "a") == {Failure};
  }

  lemma EarlyFailureIsReported()
    ensures "a" in VisitAll(EARLY_FAILURE, ANY).reported
  {
    var last := EARLY_FAILURE[1];
    assert ON_A.elements[0] == Literal("a") && "a" in TestValues(ON_A);
    assert AlwaysDispatches([Return(true, [])], Constrained(ANY, TestValues(ON_A)));
    assert BodyAlwaysDispatches(last, ANY) && "a" in Matching(TestValues(ON_A), ANY);
    assert "a" in VisitOne(last, ANY, []).reported;
    assert "a" in VisitAll([last], ANY).reported;
    assert EARLY_FAILURE[1..] == [last];
  }
}
