/** Exactly when a reported event type is real: the branch that reports it, and what stands
    in front of it, in its own block and in the blocks around it.

    Modelled on scripts/check_graph_projection_boundaries.py, `visit_statements`.  */
module DispatchReports {
  import opened EventDispatch

  /** A branch of a statement list: the body of the `i`-th statement, or a branch within the
      body or the `else` of the `i`-th. */
  datatype Place = Here(i: nat) | Inside(i: nat, inBody: bool, rest: Place)

  function Branch(stmt: Stmt, inBody: bool): seq<Stmt>
    requires stmt.If?
  {
    if inBody then stmt.body else stmt.orelse
  }

  function BranchConstraint(stmt: Stmt, c: Constraint, inBody: bool): Constraint
    requires stmt.If?
  {
    if stmt.test.Constant? then c else if inBody then BodyConstraint(stmt, c) else ElseConstraint(stmt, c)
  }

  /** The walk over `ss` under `c` reports `t` for the branch at `place`. */
  predicate Reports(ss: seq<Stmt>, c: Constraint, place: Place, t: string)
    decreases ss, 0
  {
    && ss != []
    && if place.i > 0 then !Stops(ss[0], c) && Reports(ss[1..], Narrowed(ss[0], c), place.(i := place.i - 1), t)
       else StatementReports(ss[0], c, place, t)
  }

  predicate StatementReports(stmt: Stmt, c: Constraint, place: Place, t: string)
    decreases stmt, 1
  {
    && stmt.If?
    && match place
       case Here(_) => !stmt.test.Constant? && BodyAlwaysDispatches(stmt, c) && t in Matching(TestValues(stmt.test), c)
       case Inside(_, inBody, rest) =>
         && (stmt.test.Constant? ==> stmt.test.truth == inBody)
         && Reports(Branch(stmt, inBody), BranchConstraint(stmt, c, inBody), rest, t)
  }

  // ---------------------------------------------------------------------------
  // Every report has a place
  // ---------------------------------------------------------------------------

  lemma {:induction false} PlacesReport(ss: seq<Stmt>, c: Constraint, place: Place, t: string)
    requires Reports(ss, c, place, t)
    ensures t in VisitAll(ss, c).reported && Admits(c, t)
    decreases ss, 0
  {
    if place.i > 0 {
      PlacesReport(ss[1..], Narrowed(ss[0], c), place.(i := place.i - 1), t);
      NarrowedAdmits(ss[0], c, t);
    } else {
      StatementPlacesReport(ss[0], c, ss[1..], place, t);
    }
  }

  lemma NarrowedAdmits(stmt: Stmt, c: Constraint, t: string)
    requires Admits(Narrowed(stmt, c), t)
    ensures Admits(c, t)
  {
    if stmt.If? { ConstraintsAreExact(c, TestValues(stmt.test), t); }
  }

  lemma {:induction false} StatementPlacesReport(stmt: Stmt, c: Constraint, next: seq<Stmt>, place: Place, t: string)
    requires StatementReports(stmt, c, place, t)
    ensures t in VisitOne(stmt, c, next).reported && Admits(c, t)
    decreases stmt, 1
  {
    ConstraintsAreExact(c, TestValues(stmt.test), t);
    if place.Inside? {
      PlacesReport(Branch(stmt, place.inBody), BranchConstraint(stmt, c, place.inBody), place.rest, t);
    }
  }

  lemma {:induction false} ReportsHavePlaces(ss: seq<Stmt>, c: Constraint, t: string) returns (place: Place)
    requires t in VisitAll(ss, c).reported
    ensures Reports(ss, c, place, t)
    decreases ss, 0
  {
    if t in VisitOne(ss[0], c, ss[1..]).reported {
      place := StatementReportsHavePlaces(ss[0], c, ss[1..], t);
    } else {
      place := ReportsHavePlaces(ss[1..], Narrowed(ss[0], c), t);
      place := place.(i := place.i + 1);
    }
  }

  lemma {:induction false} StatementReportsHavePlaces(stmt: Stmt, c: Constraint, next: seq<Stmt>, t: string)
    returns (place: Place)
    requires t in VisitOne(stmt, c, next).reported
    ensures place.i == 0 && StatementReports(stmt, c, place, t)
    decreases stmt, 1
  {
    if stmt.test.Constant? {
      var rest := ReportsHavePlaces(Selected(stmt), c, t);
      place := Inside(0, stmt.test.truth, rest);
    } else if BodyAlwaysDispatches(stmt, c) && t in Matching(TestValues(stmt.test), c) {
      place := Here(0);
    } else if t in VisitAll(stmt.body, BodyConstraint(stmt, c)).reported {
      var rest := ReportsHavePlaces(stmt.body, BodyConstraint(stmt, c), t);
      place := Inside(0, true, rest);
    } else {
      var rest := ReportsHavePlaces(stmt.orelse, ElseConstraint(stmt, c), t);
      place := Inside(0, false, rest);
    }
  }

  predicate ReportedAt(ss: seq<Stmt>, c: Constraint, place: Place, t: string) {
    Reports(ss, c, place, t)
  }

  /** An event type is reported exactly if it is reported for some branch. */
  lemma ReportedExactly(ss: seq<Stmt>, c: Constraint, t: string)
    ensures t in VisitAll(ss, c).reported <==> exists place :: ReportedAt(ss, c, place, t)
  {
    if t in VisitAll(ss, c).reported {
      var place := ReportsHavePlaces(ss, c, t);
      assert ReportedAt(ss, c, place, t);
    } else if place :| ReportedAt(ss, c, place, t) {
      PlacesReport(ss, c, place, t);
      assert false;
    }
  }

  // ---------------------------------------------------------------------------
  // When a report is real
  // ---------------------------------------------------------------------------

  /** Some run succeeds: on the way to the branch, in it if it can be reached, or on another
      way past it.  In its own block only what stands in front of the branch matters. */
  predicate Real(ss: seq<Stmt>, place: Place, t: string)
    requires place.i < |ss| && (place.Inside? ==> ss[place.i].If?)
    decreases ss
  {
    var before := Ends(ss[..place.i], t);
    match place
    case Here(_) => before != {Failure}
    case Inside(i, inBody, rest) =>
      || Success in before
      || (Fallthrough in before
          && (RealInside(ss[i], inBody, rest, t)
              || (MayBe(ss[i].test, t, !inBody) && Success in Ends(Branch(ss[i], !inBody), t))
              || (Fallthrough in StatementEnds(ss[i], t) && Success in Ends(ss[i + 1..], t))))
  }

  predicate RealInside(stmt: Stmt, inBody: bool, rest: Place, t: string)
    requires stmt.If?
    decreases stmt
  {
    var branch := Branch(stmt, inBody);
    && MayBe(stmt.test, t, inBody) && rest.i < |branch| && (rest.Inside? ==> branch[rest.i].If?)
    && Real(branch, rest, t)
  }

  lemma {:induction false} EndsAppend(a: seq<Stmt>, b: seq<Stmt>, t: string)
    ensures Ends(a + b, t) == Ends(a, t) - {Fallthrough} + (if Fallthrough in Ends(a, t) then Ends(b, t) else {})
    decreases a
  {
    if a == [] {
      assert a + b == b;
    } else {
      assert (a + b)[0] == a[0] && (a + b)[1..] == a[1..] + b;
      EndsAppend(a[1..], b, t);
    }
  }

  /** The ways to end, told from the i-th statement. */
  lemma EndsAt(ss: seq<Stmt>, i: nat, t: string)
    requires i < |ss|
    ensures var before, here := Ends(ss[..i], t), StatementEnds(ss[i], t);
      Success in Ends(ss, t)
      <==> Success in before
           || (Fallthrough in before && (Success in here || (Fallthrough in here && Success in Ends(ss[i + 1..], t))))
  {
    assert ss == ss[..i] + ss[i..];
    EndsAppend(ss[..i], ss[i..], t);
    assert ss[i..][0] == ss[i] && ss[i..][1..] == ss[i + 1..];
  }

  /** The walk comes to the i-th statement under some constraint. */
  lemma {:induction false} ReportsAt(ss: seq<Stmt>, c: Constraint, place: Place, t: string) returns (at: Constraint)
    requires Reports(ss, c, place, t)
    ensures place.i < |ss| && StatementReports(ss[place.i], at, place, t)
    decreases ss
  {
    at := c;
    if place.i > 0 {
      at := ReportsAt(ss[1..], Narrowed(ss[0], c), place.(i := place.i - 1), t);
      SamePlace(ss[place.i], at, place.(i := place.i - 1), place, t);
    }
  }

  lemma SamePlace(stmt: Stmt, c: Constraint, a: Place, b: Place, t: string)
    requires StatementReports(stmt, c, a, t) && b == a.(i := b.i)
    ensures StatementReports(stmt, c, b, t)
  {
  }

  /** A branch that always dispatches and is reported for `t` has a successful run for it. */
  lemma ReportedBranchSucceeds(stmt: Stmt, c: Constraint, place: Place, t: string)
    requires StatementReports(stmt, c, place, t) && place.Here?
    ensures Success in StatementEnds(stmt, t)
  {
    ConstraintsAreExact(c, TestValues(stmt.test), t);
    var o := SomeRunIsFound(stmt.body, BodyConstraint(stmt, c), t);
    assert MayBe(stmt.test, t, true);
  }

  /** A reported event type has a run that returns successfully exactly if, in the blocks
      around the branch that reports it, some way leads past what could fail. */
  lemma {:induction false} ReportIsRealExactly(ss: seq<Stmt>, c: Constraint, place: Place, t: string)
    requires Reports(ss, c, place, t)
    ensures place.i < |ss| && ss[place.i].If?
    ensures Success in Ends(ss, t) <==> Real(ss, place, t)
    decreases place
  {
    var at := ReportsAt(ss, c, place, t);
    EndsAt(ss, place.i, t);
    if place.Here? {
      ReportedBranchSucceeds(ss[place.i], at, place, t);
      BeforeBranch(ss, place.i, t);
    } else {
      InsideIsRealExactly(ss[place.i], at, place, t);
    }
  }

  /** Something comes out of the statements in front. */
  lemma BeforeBranch(ss: seq<Stmt>, i: nat, t: string)
    requires i < |ss|
    ensures Success in Ends(ss[..i], t) || Fallthrough in Ends(ss[..i], t) <==> Ends(ss[..i], t) != {Failure}
  {
    RunsEnd(ss[..i], t);
    var o :| o in Ends(ss[..i], t);
    assert o == Success || o == Failure || o == Fallthrough;
    if Success !in Ends(ss[..i], t) && Fallthrough !in Ends(ss[..i], t) {
      OnlyFailure(Ends(ss[..i], t));
    }
  }

  lemma OnlyFailure(outcomes: set<Outcome>)
    requires outcomes != {} && Success !in outcomes && Fallthrough !in outcomes
    ensures outcomes == {Failure}
  {
    forall o | o in outcomes ensures o == Failure {
      match o
      case Success =>
      case Failure =>
      case Fallthrough =>
    }
    var o :| o in outcomes;
  }

  lemma {:induction false} InsideIsRealExactly(stmt: Stmt, c: Constraint, place: Place, t: string)
    requires place.Inside? && StatementReports(stmt, c, place, t)
    ensures Success in StatementEnds(stmt, t)
       <==> RealInside(stmt, place.inBody, place.rest, t)
            || (MayBe(stmt.test, t, !place.inBody) && Success in Ends(Branch(stmt, !place.inBody), t))
    decreases place, 0
  {
    ReportIsRealExactly(Branch(stmt, place.inBody), BranchConstraint(stmt, c, place.inBody), place.rest, t);
  }

  /** For a branch of the function itself: exactly if what stands in front of it does not
      surely fail. */
  lemma TopReportIsRealExactly(ss: seq<Stmt>, c: Constraint, i: nat, t: string)
    requires Reports(ss, c, Here(i), t)
    ensures i < |ss| && (Success in Ends(ss, t) <==> Ends(ss[..i], t) != {Failure})
  {
    ReportIsRealExactly(ss, c, Here(i), t);
  }

  /** Nothing in front of the branch, in its block or around it, surely fails or is passed by. */
  predicate Open(ss: seq<Stmt>, place: Place, t: string)
    requires place.i < |ss| && (place.Inside? ==> ss[place.i].If?)
    decreases ss
  {
    && Ends(ss[..place.i], t) != {Failure}
    && (place.Inside? ==> OpenInside(ss[place.i], place.inBody, place.rest, t))
  }

  predicate OpenInside(stmt: Stmt, inBody: bool, rest: Place, t: string)
    requires stmt.If?
    decreases stmt
  {
    var branch := Branch(stmt, inBody);
    && MayBe(stmt.test, t, inBody) && rest.i < |branch| && (rest.Inside? ==> branch[rest.i].If?)
    && Open(branch, rest, t)
  }

  /** That is enough, whatever the other ways do. */
  lemma {:induction false} OpenIsReal(ss: seq<Stmt>, place: Place, t: string)
    requires place.i < |ss| && (place.Inside? ==> ss[place.i].If?) && Open(ss, place, t)
    ensures Real(ss, place, t)
    decreases place
  {
    BeforeBranch(ss, place.i, t);
    if place.Inside? { OpenIsReal(Branch(ss[place.i], place.inBody), place.rest, t); }
  }
}
