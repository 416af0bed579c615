/** The walk over helper functions.  A pair of function and constraint is visited once,
    whatever calls lead to it, and the calls may be mutually recursive.

    Modelled on scripts/check_graph_projection_boundaries.py, `visit_function`.  */
module DispatchWalk {
  import opened Common
  import opened EventDispatch

  type Program = map<string, seq<Stmt>>

  const ROOT := Call("reduce_event", ANY)

  function Found(program: Program, call: Call): Visit {
    if call.helper in program then VisitAll(program[call.helper], call.constraint) else NOTHING
  }

  /** `visited` has all the calls to functions that are defined. */
  predicate Has(program: Program, visited: set<Call>, calls: set<Call>) {
    forall c :: c in calls && c.helper in program ==> c in visited
  }

  function ReportedBy(program: Program, calls: set<Call>): set<string> {
    set c, t | c in calls && t in Found(program, c).reported :: t
  }

  // ---------------------------------------------------------------------------
  // Only finitely many calls can arise
  // ---------------------------------------------------------------------------

  function BlockLiterals(ss: seq<Stmt>): set<string>
    decreases ss, 0
  {
    if ss == [] then {} else StmtLiterals(ss[0]) + BlockLiterals(ss[1..])
  }

  function StmtLiterals(stmt: Stmt): set<string>
    decreases stmt, 1
  {
    if stmt.If? then TestValues(stmt.test) + BlockLiterals(stmt.body) + BlockLiterals(stmt.orelse) else {}
  }

  function ProgramLiterals(program: Program): set<string> {
    set f, t | f in program && t in BlockLiterals(program[f]) :: t
  }

  function Powerset(s: set<string>): set<set<string>> {
    set p | p <= s
  }

  /** Every call of a defined function under a constraint made of the program's own
      event types. */
  function Universe(program: Program): set<Call> {
    var literals := ProgramLiterals(program);
    (set f, i, e | f in program && i in Powerset(literals) && e in Powerset(literals) ::
      Call(f, Constraint(Some(i), e)))
    + (set f, e | f in program && e in Powerset(literals) :: Call(f, Constraint(None, e)))
  }

  predicate Within(c: Constraint, literals: set<string>) {
    (c.included.Some? ==> c.included.value <= literals) && c.excluded <= literals
  }

  lemma UniverseIsWithin(program: Program, call: Call)
    ensures call in Universe(program) <==> call.helper in program && Within(call.constraint, ProgramLiterals(program))
  {
    var literals, c := ProgramLiterals(program), call.constraint;
    if call.helper in program && Within(c, literals) {
      assert c.excluded in Powerset(literals);
      if c.included.Some? { assert c.included.value in Powerset(literals); }
    }
  }

  /** A walk stays within the literals it starts with and the ones it sees. */
  lemma {:induction false} CallsStayWithin(ss: seq<Stmt>, c: Constraint, literals: set<string>, call: Call)
    requires Within(c, literals) && BlockLiterals(ss) <= literals
    requires call in VisitAll(ss, c).calls
    ensures Within(call.constraint, literals)
    decreases ss, 0
  {
    if call in VisitOne(ss[0], c, ss[1..]).calls {
      CallsOfOneStayWithin(ss[0], c, ss[1..], literals, call);
    } else {
      CallsStayWithin(ss[1..], Narrowed(ss[0], c), literals, call);
    }
  }

  lemma {:induction false} CallsOfOneStayWithin(stmt: Stmt, c: Constraint, next: seq<Stmt>, literals: set<string>,
    call: Call)
    requires Within(c, literals) && StmtLiterals(stmt) <= literals
    requires call in VisitOne(stmt, c, next).calls
    ensures Within(call.constraint, literals)
    decreases stmt, 1
  {
    if stmt.If? {
      if stmt.test.Constant? {
        CallsStayWithin(Selected(stmt), c, literals, call);
      } else if call in VisitAll(stmt.body, BodyConstraint(stmt, c)).calls {
        CallsStayWithin(stmt.body, BodyConstraint(stmt, c), literals, call);
      } else {
        CallsStayWithin(stmt.orelse, ElseConstraint(stmt, c), literals, call);
      }
    }
  }

  // ---------------------------------------------------------------------------
  // Reachable calls
  // ---------------------------------------------------------------------------

  /** `calls` has `reduce_event` and is closed under calling. */
  ghost predicate Closed(program: Program, calls: set<Call>) {
    && Has(program, calls, {ROOT})
    && forall c :: c in calls ==> Has(program, calls, Found(program, c).calls)
  }

  lemma UniverseIsClosed(program: Program)
    ensures Closed(program, Universe(program))
  {
    UniverseIsWithin(program, ROOT);
    forall c, d | c in Universe(program) && d in Found(program, c).calls && d.helper in program
      ensures d in Universe(program)
    {
      UniverseIsWithin(program, c);
      UniverseIsWithin(program, d);
      assert BlockLiterals(program[c.helper]) <= ProgramLiterals(program);
      CallsStayWithin(program[c.helper], c.constraint, ProgramLiterals(program), d);
    }
  }

  /** The calls reachable from `reduce_event`: those in every closed set. */
  ghost function Reachable(program: Program): set<Call> {
    set c | c in Universe(program) && forall s: set<Call> :: Closed(program, s) ==> c in s
  }

  lemma ReachableIsLeastClosed(program: Program)
    ensures Closed(program, Reachable(program))
    ensures forall s: set<Call> :: Closed(program, s) ==> Reachable(program) <= s
  {
    UniverseIsClosed(program);
    forall c, d | c in Reachable(program) && d in Found(program, c).calls && d.helper in program
      ensures d in Reachable(program)
    {
      forall s: set<Call> | Closed(program, s)
        ensures d in s
      {
        assert c in s;
      }
    }
  }

  lemma OneFewer(bound: set<Call>, visited: set<Call>, call: Call)
    requires call in bound && call !in visited
    ensures |bound - (visited + {call})| < |bound - visited|
  {
    assert bound - visited == (bound - (visited + {call})) + {call};
  }

  /** One statement of the loop: what it finds and what is left to find. */
  lemma VisitStep(ss: seq<Stmt>, i: nat, c: Constraint)
    requires i < |ss|
    ensures
      var one := VisitOne(ss[i], c, ss[i + 1..]);
      VisitAll(ss[i..], c)
      == if Stops(ss[i], c) then one else Join(one, VisitAll(ss[i + 1..], Narrowed(ss[i], c)))
  {
    assert ss[i..][0] == ss[i] && ss[i..][1..] == ss[i + 1..];
  }

  /** What a stretch of statements asks for has all been visited and reported. */
  predicate Done(program: Program, visited: set<Call>, dispatched: set<string>, v: Visit) {
    Has(program, visited, v.calls) && v.reported <= dispatched
  }

  lemma DoneTogether(
    program: Program, visited: set<Call>, dispatched: set<string>, later: set<Call>, more: set<string>, a: Visit,
      b: Visit)
    requires Done(program, visited, dispatched, a) && visited <= later && dispatched <= more
    requires Done(program, later, more, b)
    ensures Done(program, later, more, Join(a, b))
  {
  }

  /** It stays within the bound and within what the function walked has to report. */
  predicate Allowed(program: Program, bound: set<Call>, within: Call, v: Visit) {
    Has(program, bound, v.calls) && v.reported <= Found(program, within).reported
  }

  lemma AllowedParts(program: Program, bound: set<Call>, within: Call, a: Visit, b: Visit)
    requires Allowed(program, bound, within, Join(a, b))
    ensures Allowed(program, bound, within, a) && Allowed(program, bound, within, b)
  {
  }

  lemma JoinAssociates(a: Visit, b: Visit, c: Visit)
    ensures Join(a, Join(b, c)) == Join(Join(a, b), c)
  {
  }

  lemma NothingLeft(a: Visit)
    ensures Join(a, NOTHING) == a
  {
  }

  // ---------------------------------------------------------------------------
  // The walk
  // ---------------------------------------------------------------------------

  class Walk {
    const program: Program

    /** A set of calls the walk must not leave. */
    ghost const bound: set<Call>

    var dispatched: set<string>
    var visited: set<Call>

    /** The calls whose functions have been entered and not yet left. */
    ghost var active: set<Call>

    constructor (program: Program, ghost bound: set<Call>)
      requires Closed(program, bound)
      ensures this.program == program && this.bound == bound
      ensures dispatched == {} && visited == {} && active == {} && Valid()
    {
      this.program, this.bound := program, bound;
      dispatched, visited, active := {}, {}, {};
    }

    /** A call that has been left is settled, and only visited functions have reported
        anything. */
    ghost predicate Valid()
      reads this
    {
      && active <= visited <= bound && Closed(program, bound)
      && (forall c :: c in visited && c !in active ==> Settled(c))
      && (forall t :: t in dispatched ==> Reported(t))
    }

    ghost predicate Settled(c: Call)
      reads this
    {
      Has(program, visited, Found(program, c).calls) && Found(program, c).reported <= dispatched
    }

    ghost predicate Reported(t: string)
      reads this
    {
      exists c :: c in visited && t in Found(program, c).reported
    }

    ghost function Unvisited(): nat
      reads this
    {
      |bound - visited|
    }

    method VisitFunction(call: Call)
      requires Valid() && Has(program, bound, {call})
      modifies this
      ensures Valid() && active == old(active)
      ensures old(visited) <= visited && old(dispatched) <= dispatched && Unvisited() <= old(Unvisited())
      ensures Has(program, visited, {call})
      decreases Unvisited(), 0
    {
      if call in visited || call.helper !in program {
        return;
      }
      Enter(call);
      VisitStatements(program[call.helper], call.constraint, call);
      Leave(call);
    }

    method Leave(ghost call: Call)
      requires Valid() && call in active && Done(program, visited, dispatched, Found(program, call))
      modifies this`active
      ensures Valid() && active == old(active) - {call}
    {
      active := active - {call};
      assert Settled(call);
    }

    method Enter(call: Call)
      requires Valid() && Has(program, bound, {call}) && call !in visited && call.helper in program
      modifies this`visited, this`active
      ensures Valid() && visited == old(visited) + {call} && active == old(active) + {call}
      ensures Unvisited() < old(Unvisited()) && call !in old(active)
      ensures Allowed(program, bound, call, VisitAll(program[call.helper], call.constraint))
      ensures Found(program, call) == VisitAll(program[call.helper], call.constraint)
    {
      OneFewer(bound, visited, call);
      visited, active := visited + {call}, active + {call};
      assert Found(program, call) == VisitAll(program[call.helper], call.constraint);
      assert Has(program, bound, Found(program, call).calls);
    }

    method VisitHelpers(helpers: seq<string>, c: Constraint)
      requires Valid() && Has(program, bound, CallsTo(helpers, c))
      modifies this
      ensures Valid() && active == old(active)
      ensures old(visited) <= visited && old(dispatched) <= dispatched && Unvisited() <= old(Unvisited())
      ensures Has(program, visited, CallsTo(helpers, c))
      decreases Unvisited(), 1
    {
      var i := 0;
      while i < |helpers|
        invariant 0 <= i <= |helpers|
        invariant Valid() && active == old(active)
        invariant old(visited) <= visited && old(dispatched) <= dispatched && Unvisited() <= old(Unvisited())
        invariant forall j :: 0 <= j < i && helpers[j] in program ==> Call(helpers[j], c) in visited
      {
        assert Call(helpers[i], c) in CallsTo(helpers, c);
        VisitFunction(Call(helpers[i], c));
        i := i + 1;
      }
    }

    method Report(types: set<string>, ghost within: Call)
      requires Valid() && within in visited && types <= Found(program, within).reported
      modifies this`dispatched
      ensures Valid() && dispatched == old(dispatched) + types
    {
      dispatched := dispatched + types;
      assert forall t :: t in types ==> Reported(t);
      assert forall t :: t in old(dispatched) ==> old(Reported(t)) && Reported(t);
    }

    /** `within` is the call being walked. */
    method VisitStatements(ss: seq<Stmt>, c: Constraint, ghost within: Call)
      requires Valid() && within in visited && Allowed(program, bound, within, VisitAll(ss, c))
      modifies this
      ensures Valid() && active == old(active)
      ensures old(visited) <= visited && old(dispatched) <= dispatched && Unvisited() <= old(Unvisited())
      ensures Done(program, visited, dispatched, VisitAll(ss, c))
      decreases Unvisited(), 2, ss, 1
    {
      var current := c;
      var i := 0;
      ghost var sofar := NOTHING;
      assert ss[0..] == ss;
      while i < |ss|
        invariant 0 <= i <= |ss|
        invariant Valid() && active == old(active)
        invariant old(visited) <= visited && old(dispatched) <= dispatched && Unvisited() <= old(Unvisited())
        invariant Done(program, visited, dispatched, sofar)
        invariant Join(sofar, VisitAll(ss[i..], current)) == VisitAll(ss, c)
        invariant Allowed(program, bound, within, VisitAll(ss[i..], current))
      {
        VisitNext(ss, i, current, within, sofar, VisitAll(ss, c));
        if Stops(ss[i], current) {
          return;
        }
        sofar, current := Join(sofar, VisitOne(ss[i], current, ss[i + 1..])), Narrowed(ss[i], current);
        i := i + 1;
      }
    }

    /** One round of the loop; `sofar` has been visited, and makes `all` with what is left. */
    method VisitNext(ss: seq<Stmt>, i: nat, current: Constraint, ghost within: Call, ghost sofar: Visit,
      ghost all: Visit)
      requires i < |ss| && Valid() && within in visited
      requires Done(program, visited, dispatched, sofar) && Join(sofar, VisitAll(ss[i..], current)) == all
      requires Allowed(program, bound, within, VisitAll(ss[i..], current))
      modifies this
      ensures Valid() && active == old(active)
      ensures old(visited) <= visited && old(dispatched) <= dispatched && Unvisited() <= old(Unvisited())
      ensures var after := Join(sofar, VisitOne(ss[i], current, ss[i + 1..]));
        && Done(program, visited, dispatched, after)
        && if Stops(ss[i], current) then after == all
           else Join(after, VisitAll(ss[i + 1..], Narrowed(ss[i], current))) == all
      ensures !Stops(ss[i], current)
        ==> Allowed(program, bound, within, VisitAll(ss[i + 1..], Narrowed(ss[i], current)))
      decreases Unvisited(), 2, ss, 0
    {
      ghost var v, d, one := visited, dispatched, VisitOne(ss[i], current, ss[i + 1..]);
      ghost var rest := if Stops(ss[i], current) then NOTHING else VisitAll(ss[i + 1..], Narrowed(ss[i], current));
      VisitStep(ss, i, current);
      NothingLeft(one);
      AllowedParts(program, bound, within, one, rest);
      VisitStatement(ss[i], current, ss[i + 1..], within);
      DoneTogether(program, v, d, visited, dispatched, sofar, one);
      JoinAssociates(sofar, one, rest);
    }

    method VisitStatement(stmt: Stmt, c: Constraint, next: seq<Stmt>, ghost within: Call)
      requires Valid() && within in visited && Allowed(program, bound, within, VisitOne(stmt, c, next))
      modifies this
      ensures Valid() && active == old(active)
      ensures old(visited) <= visited && old(dispatched) <= dispatched && Unvisited() <= old(Unvisited())
      ensures Done(program, visited, dispatched, VisitOne(stmt, c, next))
      decreases Unvisited(), 2, stmt, 1
    {
      match stmt {
        case If(test, body, orelse) =>
          if test.Constant? {
            VisitStatements(Selected(stmt), c, within);
          } else {
            VisitBranches(stmt, c, next, within);
          }
        case Return(_, calls) => VisitHelpers(calls, c);
        case Assign(names, calls) =>
          if ReturnsWhatWasAssigned(names, next) {
            VisitHelpers(calls, c);
          }
        case _ =>
      }
    }

    method VisitBranches(stmt: Stmt, c: Constraint, next: seq<Stmt>, ghost within: Call)
      requires stmt.If? && !stmt.test.Constant?
      requires Valid() && within in visited && Allowed(program, bound, within, VisitOne(stmt, c, next))
      modifies this
      ensures Valid() && active == old(active)
      ensures old(visited) <= visited && old(dispatched) <= dispatched && Unvisited() <= old(Unvisited())
      ensures Done(program, visited, dispatched, VisitOne(stmt, c, next))
      decreases Unvisited(), 2, stmt, 0
    {
      ghost var here := Visit(if BodyAlwaysDispatches(stmt, c) then Matching(TestValues(stmt.test), c) else {}, {});
      ghost var then_ := VisitAll(stmt.body, BodyConstraint(stmt, c));
      ghost var else_ := VisitAll(stmt.orelse, ElseConstraint(stmt, c));
      AllowedParts(program, bound, within, here, Join(then_, else_));
      AllowedParts(program, bound, within, then_, else_);
      if BodyAlwaysDispatches(stmt, c) {
        Report(Matching(TestValues(stmt.test), c), within);
      }
      ghost var v0, d0 := visited, dispatched;
      VisitStatements(stmt.body, BodyConstraint(stmt, c), within);
      ghost var v1, d1 := visited, dispatched;
      VisitStatements(stmt.orelse, ElseConstraint(stmt, c), within);
      DoneTogether(program, v1, d1, visited, dispatched, then_, else_);
      DoneTogether(program, v0, d0, visited, dispatched, here, Join(then_, else_));
    }
  }
}
