/** Chains of helpers from `reduce_event`: the walk reports exactly what is credited along
    them, and so whatever event type a real run hands on to a branch that handles it.

    Modelled on scripts/check_graph_projection_boundaries.py, `visit_function`.  */
module DispatchChains {
  import opened EventDispatch
  import opened DispatchPaths
  import opened DispatchWalk

  // ---------------------------------------------------------------------------
  // Chains
  // ---------------------------------------------------------------------------

  /** A helper, and the event types it is handed. */
  datatype Station = Station(helper: string, types: Types)

  ghost predicate Chain(program: Program, path: seq<Station>) {
    && path != [] && path[0] == Station("reduce_event", ALL)
    && (forall i :: 0 <= i < |path| ==> path[i].helper in program)
    && (forall i :: 0 < i < |path| ==> Leads(program, path[i - 1], path[i]))
  }

  ghost predicate Leads(program: Program, a: Station, b: Station) {
    a.helper in program && Hands(program[a.helper], a.types, b.helper, b.types)
  }

  /** Some chain ends at `station`. */
  ghost predicate Arrives(program: Program, station: Station) {
    exists path :: Chain(program, path) && path[|path| - 1] == station
  }

  ghost function StationOf(call: Call): Station {
    Station(call.helper, Admitted(call.constraint))
  }

  lemma RootArrives(program: Program)
    requires ROOT.helper in program
    ensures Arrives(program, StationOf(ROOT))
  {
    AnyAdmitsAll();
    var path := [StationOf(ROOT)];
    assert Chain(program, path) && path[|path| - 1] == StationOf(ROOT);
  }

  lemma NextArrives(program: Program, call: Call, next: Call)
    requires call.helper in program && next.helper in program && next in Found(program, call).calls
    requires Arrives(program, StationOf(call))
    ensures Arrives(program, StationOf(next))
  {
    var a, b := StationOf(call), StationOf(next);
    var path :| Chain(program, path) && path[|path| - 1] == a;
    CallsAreExact(program[call.helper], call.constraint, next.helper, b.types);
    assert next == Call(next.helper, next.constraint);
    assert Leads(program, a, b);
    var longer := path + [b];
    assert Chain(program, longer) && longer[|longer| - 1] == b;
  }

  ghost function Arrived(program: Program): set<Call> {
    set c | c in Universe(program) && c.helper in program && Arrives(program, StationOf(c))
  }

  lemma ArrivedIsClosed(program: Program)
    ensures Closed(program, Arrived(program))
  {
    UniverseIsClosed(program);
    if ROOT.helper in program { RootArrives(program); }
    forall c, d | c in Arrived(program) && d in Found(program, c).calls && d.helper in program
      ensures d in Arrived(program)
    {
      CalledArrives(program, c, d);
    }
  }

  lemma CalledArrives(program: Program, c: Call, d: Call)
    requires Closed(program, Universe(program))
    requires c in Arrived(program) && d in Found(program, c).calls && d.helper in program
    ensures d in Arrived(program)
  {
    NextArrives(program, c, d);
  }

  /** A call is reachable only if some chain arrives at it. */
  lemma ReachableArrives(program: Program, call: Call)
    requires call in Reachable(program)
    ensures call.helper in program && Arrives(program, StationOf(call))
  {
    ArrivedIsClosed(program);
    ReachableIsLeastClosed(program);
    assert call in Arrived(program);
  }

  /** Wherever a chain goes, a reachable call stands for it. */
  lemma {:induction false} ChainIsReached(program: Program, path: seq<Station>, i: nat) returns (call: Call)
    requires Chain(program, path) && i < |path|
    ensures call in Reachable(program) && StationOf(call) == path[i]
    decreases i
  {
    ReachableIsLeastClosed(program);
    if i == 0 {
      AnyAdmitsAll();
      call := ROOT;
    } else {
      var before := ChainIsReached(program, path, i - 1);
      assert Leads(program, path[i - 1], path[i]);
      call := LedTo(program, before, path[i]);
    }
  }

  lemma LedTo(program: Program, before: Call, station: Station) returns (call: Call)
    requires before in Reachable(program) && Leads(program, StationOf(before), station) && station.helper in program
    ensures call in Reachable(program) && StationOf(call) == station
  {
    ReachableIsLeastClosed(program);
    CallsAreExact(program[before.helper], before.constraint, station.helper, station.types);
    var c :| Call(station.helper, c) in Found(program, before).calls && Admitted(c) == station.types;
    call := Call(station.helper, c);
  }

  ghost predicate CreditedAlong(program: Program, path: seq<Station>, t: string) {
    && Chain(program, path)
    && var last := path[|path| - 1];
       Credits(program[last.helper], last.types, t)
  }

  /** The walk reports an event type exactly if it is credited to the last helper of some
      chain from `reduce_event`. */
  lemma ReportedAlongChains(program: Program, t: string)
    ensures t in ReportedBy(program, Reachable(program)) <==> exists path :: CreditedAlong(program, path, t)
  {
    if t in ReportedBy(program, Reachable(program)) {
      var path := ReportIsCredited(program, t);
      assert CreditedAlong(program, path, t);
    }
    if path :| CreditedAlong(program, path, t) { CreditIsReported(program, path, t); }
  }

  lemma ReportIsCredited(program: Program, t: string) returns (path: seq<Station>)
    requires t in ReportedBy(program, Reachable(program))
    ensures CreditedAlong(program, path, t)
  {
    var call :| call in Reachable(program) && t in Found(program, call).reported;
    ReachableArrives(program, call);
    ReportsAreExact(program[call.helper], call.constraint, t);
    path :| Chain(program, path) && path[|path| - 1] == StationOf(call);
  }

  lemma CreditIsReported(program: Program, path: seq<Station>, t: string)
    requires CreditedAlong(program, path, t)
    ensures t in ReportedBy(program, Reachable(program))
  {
    var call := ChainIsReached(program, path, |path| - 1);
    ReportsAreExact(program[call.helper], call.constraint, t);
    assert t in Found(program, call).reported;
  }

  // ---------------------------------------------------------------------------
  // Real runs
  // ---------------------------------------------------------------------------

  /** A run for event type `t` reaches a statement that hands the event to helper `h` and
      returns what it gives. */
  ghost predicate RunHands(ss: seq<Stmt>, t: string, h: string)
    decreases ss, 0
  {
    && ss != []
    && (StatementRunHands(ss[0], ss[1..], t, h) || (Fallthrough in StatementEnds(ss[0], t) && RunHands(ss[1..], t, h)))
  }

  ghost predicate StatementRunHands(stmt: Stmt, next: seq<Stmt>, t: string, h: string)
    decreases stmt, 1
  {
    match stmt
    case Return(_, calls) => h in calls
    case Assign(names, calls) => h in calls && Returned(names, next)
    case If(test, body, orelse) =>
      || (MayBe(test, t, true) && RunHands(body, t, h))
      || (MayBe(test, t, false) && RunHands(orelse, t, h))
    case _ => false
  }

  /** A run for `t` reaches a branch whose test names `t`, and whose body surely succeeds
      for all event types the test names. */
  ghost predicate RunHandles(ss: seq<Stmt>, t: string)
    decreases ss, 0
  {
    && ss != []
    && (StatementRunHandles(ss[0], t) || (Fallthrough in StatementEnds(ss[0], t) && RunHandles(ss[1..], t)))
  }

  ghost predicate StatementRunHandles(stmt: Stmt, t: string)
    decreases stmt, 1
  {
    && stmt.If?
    && (|| (t in TestValues(stmt.test) && SurelySucceeds(stmt.body, Named(stmt.test)))
        || (MayBe(stmt.test, t, true) && RunHandles(stmt.body, t))
        || (MayBe(stmt.test, t, false) && RunHandles(stmt.orelse, t)))
  }

  lemma {:induction false} RunsMayEnd(ss: seq<Stmt>, types: Types, t: string, o: Outcome)
    requires LiteralBlock(ss) && t in types && o in Ends(ss, t)
    ensures MayEnd(ss, types, o)
    decreases ss, 0
  {
    if ss != [] {
      if o in StatementEnds(ss[0], t) && o != Fallthrough {
        StatementRunsMayEnd(ss[0], types, t, o);
      } else {
        StatementRunsMayEnd(ss[0], types, t, Fallthrough);
        RunsMayEnd(ss[1..], types, t, o);
      }
    }
  }

  lemma BranchHas(stmt: Stmt, inBody: bool, types: Types, t: string)
    requires stmt.If? && OnlyLiterals(stmt.test) && t in types && MayBe(stmt.test, t, inBody)
    ensures t in InBranch(stmt, inBody, types) && Looked(stmt, inBody)
  {
  }

  lemma {:induction false} StatementRunsMayEnd(stmt: Stmt, types: Types, t: string, o: Outcome)
    requires LiteralStmt(stmt) && t in types && o in StatementEnds(stmt, t)
    ensures StatementMayEnd(stmt, types, o)
    decreases stmt, 1
  {
    if stmt.If? {
      if MayBe(stmt.test, t, true) && o in Ends(stmt.body, t) {
        BranchHas(stmt, true, types, t);
        RunsMayEnd(stmt.body, InBranch(stmt, true, types), t, o);
      } else {
        BranchHas(stmt, false, types, t);
        RunsMayEnd(stmt.orelse, InBranch(stmt, false, types), t, o);
      }
    }
  }

  /** What surely succeeds for some event types succeeds in every run for one of them. */
  lemma SureRunsSucceed(ss: seq<Stmt>, types: Types, t: string)
    requires LiteralBlock(ss) && t in types && SurelySucceeds(ss, types)
    ensures Ends(ss, t) == {Success}
  {
    forall o | o in Ends(ss, t)
      ensures o == Success
    {
      RunsMayEnd(ss, types, t, o);
    }
    RunsEnd(ss, t);
  }

  /** A run that goes on behind a statement is followed. */
  lemma RunIsFollowed(stmt: Stmt, types: Types, t: string)
    requires LiteralStmt(stmt) && t in types && Fallthrough in StatementEnds(stmt, t)
    ensures !Final(stmt, types) && t in Left(stmt, types)
  {
    if stmt.If? {
      assert Ends([stmt], t) == StatementEnds(stmt, t);
      if SurelySucceeds([stmt], types) { SureRunsSucceed([stmt], types, t); }
      if BodyHandles(stmt, types) && t in Named(stmt.test) {
        SureRunsSucceed(stmt.body, types * Named(stmt.test), t);
      }
    }
  }

  /** A run that hands the event to a helper is one of those the walk goes on with. */
  lemma {:induction false} RunIsHandedOn(ss: seq<Stmt>, types: Types, t: string, h: string) returns (later: Types)
    requires LiteralBlock(ss) && t in types && RunHands(ss, t, h)
    ensures t in later && Hands(ss, types, h, later)
    decreases ss, 0
  {
    if StatementRunHands(ss[0], ss[1..], t, h) {
      later := StatementRunIsHandedOn(ss[0], ss[1..], types, t, h);
    } else {
      RunIsFollowed(ss[0], types, t);
      later := RunIsHandedOn(ss[1..], Left(ss[0], types), t, h);
    }
  }

  lemma {:induction false} StatementRunIsHandedOn(stmt: Stmt, next: seq<Stmt>, types: Types, t: string, h: string)
    returns (later: Types)
    requires LiteralStmt(stmt) && t in types && StatementRunHands(stmt, next, t, h)
    ensures t in later && StatementHands(stmt, next, types, h, later)
    decreases stmt, 1
  {
    later := types;
    if stmt.If? {
      if MayBe(stmt.test, t, true) && RunHands(stmt.body, t, h) {
        BranchHas(stmt, true, types, t);
        later := RunIsHandedOn(stmt.body, InBranch(stmt, true, types), t, h);
      } else {
        BranchHas(stmt, false, types, t);
        later := RunIsHandedOn(stmt.orelse, InBranch(stmt, false, types), t, h);
      }
    }
  }

  lemma {:induction false} FewerMayEnd(ss: seq<Stmt>, fewer: Types, types: Types, o: Outcome)
    requires fewer <= types && MayEnd(ss, fewer, o)
    ensures MayEnd(ss, types, o)
    decreases ss, 0
  {
    if ss != [] {
      if o != Fallthrough && StatementMayEnd(ss[0], fewer, o) {
        FewerStatementMayEnd(ss[0], fewer, types, o);
      } else {
        FewerStatementMayEnd(ss[0], fewer, types, Fallthrough);
        FewerMayEnd(ss[1..], fewer, types, o);
      }
    }
  }

  lemma {:induction false} FewerStatementMayEnd(stmt: Stmt, fewer: Types, types: Types, o: Outcome)
    requires fewer <= types && StatementMayEnd(stmt, fewer, o)
    ensures StatementMayEnd(stmt, types, o)
    decreases stmt, 1
  {
    if stmt.If? {
      var named := Named(stmt.test);
      if stmt.test.Constant? {
        FewerMayEnd(if stmt.test.truth then stmt.body else stmt.orelse, fewer, types, o);
      } else if TestValues(stmt.test) == {} {
        if MayEnd(stmt.body, fewer, o) { FewerMayEnd(stmt.body, fewer, types, o); }
        if MayEnd(stmt.orelse, fewer, o) { FewerMayEnd(stmt.orelse, fewer, types, o); }
      } else if fewer * named != iset{} && MayEnd(stmt.body, fewer * named, o) {
        FewerMayEnd(stmt.body, fewer * named, types * named, o);
        MoreLeft(fewer * named, types * named);
      } else {
        FewerMayEnd(stmt.orelse, fewer - named, types - named, o);
        MoreLeft(fewer - named, types - named);
      }
    }
  }

  lemma MoreLeft(fewer: Types, types: Types)
    requires fewer <= types && fewer != iset{}
    ensures types != iset{}
  {
    var t :| t in fewer;
    assert t in types;
  }

  /** A branch that surely handles all event types its test names handles those left. */
  lemma NamedIsHandled(stmt: Stmt, types: Types, t: string)
    requires stmt.If? && LiteralStmt(stmt) && t in types && t in TestValues(stmt.test)
    requires SurelySucceeds(stmt.body, Named(stmt.test))
    ensures BodyHandles(stmt, types) && t in types * Named(stmt.test)
  {
    var left := types * Named(stmt.test);
    if MayEnd(stmt.body, left, Failure) { FewerMayEnd(stmt.body, left, Named(stmt.test), Failure); }
    if MayEnd(stmt.body, left, Fallthrough) { FewerMayEnd(stmt.body, left, Named(stmt.test), Fallthrough); }
    SureRunsSucceed(stmt.body, Named(stmt.test), t);
    RunsMayEnd(stmt.body, left, t, Success);
  }

  /** A run that reaches a branch that handles its event type is credited. */
  lemma {:induction false} HandledIsCredited(ss: seq<Stmt>, types: Types, t: string)
    requires LiteralBlock(ss) && t in types && RunHandles(ss, t)
    ensures Credits(ss, types, t)
    decreases ss, 0
  {
    if StatementRunHandles(ss[0], t) {
      StatementHandledIsCredited(ss[0], types, t);
    } else {
      RunIsFollowed(ss[0], types, t);
      HandledIsCredited(ss[1..], Left(ss[0], types), t);
    }
  }

  lemma {:induction false} StatementHandledIsCredited(stmt: Stmt, types: Types, t: string)
    requires LiteralStmt(stmt) && t in types && StatementRunHandles(stmt, t)
    ensures StatementCredits(stmt, types, t)
    decreases stmt, 1
  {
    if t in TestValues(stmt.test) && SurelySucceeds(stmt.body, Named(stmt.test)) {
      NamedIsHandled(stmt, types, t);
    } else if MayBe(stmt.test, t, true) && RunHandles(stmt.body, t) {
      BranchHas(stmt, true, types, t);
      HandledIsCredited(stmt.body, InBranch(stmt, true, types), t);
    } else {
      BranchHas(stmt, false, types, t);
      HandledIsCredited(stmt.orelse, InBranch(stmt, false, types), t);
    }
  }

  // ---------------------------------------------------------------------------
  // Runs through several functions
  // ---------------------------------------------------------------------------

  predicate LiteralProgram(program: Program) {
    forall f :: f in program ==> LiteralBlock(program[f])
  }

  /** From `reduce_event` on, runs for `t` hand the event from each of these functions to
      the next. */
  ghost predicate RunChain(program: Program, helpers: seq<string>, t: string) {
    && helpers != [] && helpers[0] == "reduce_event"
    && (forall i :: 0 <= i < |helpers| ==> helpers[i] in program)
    && (forall i :: 0 < i < |helpers| ==> RunLeads(program, helpers[i - 1], helpers[i], t))
  }

  ghost predicate RunLeads(program: Program, f: string, h: string, t: string) {
    f in program && RunHands(program[f], t, h)
  }

  lemma {:induction false} RunChainIsReached(program: Program, helpers: seq<string>, t: string, i: nat)
    returns (call: Call)
    requires LiteralProgram(program) && RunChain(program, helpers, t) && i < |helpers|
    ensures call in Reachable(program) && call.helper == helpers[i] && Admits(call.constraint, t)
    decreases i
  {
    ReachableIsLeastClosed(program);
    if i == 0 {
      call := ROOT;
    } else {
      var before := RunChainIsReached(program, helpers, t, i - 1);
      assert RunLeads(program, helpers[i - 1], helpers[i], t);
      call := RunLedTo(program, before, helpers[i], t);
    }
  }

  /** One step of it: the walk goes on to the helper, for `t` among others. */
  lemma RunLedTo(program: Program, before: Call, h: string, t: string) returns (call: Call)
    requires before in Reachable(program) && Admits(before.constraint, t) && h in program
    requires RunLeads(program, before.helper, h, t) && LiteralBlock(program[before.helper])
    ensures call in Reachable(program) && call.helper == h && Admits(call.constraint, t)
  {
    var types := Admitted(before.constraint);
    var later := RunIsHandedOn(program[before.helper], types, t, h);
    call := LedTo(program, before, Station(h, later));
    assert Admitted(call.constraint) == later;
  }

  /** Whatever event type runs hand on, helper by helper, to a branch that handles it is
      reported. */
  lemma HandledIsReported(program: Program, helpers: seq<string>, t: string)
    requires LiteralProgram(program) && RunChain(program, helpers, t)
    requires RunHandles(program[helpers[|helpers| - 1]], t)
    ensures t in ReportedBy(program, Reachable(program))
  {
    var call := RunChainIsReached(program, helpers, t, |helpers| - 1);
    var ss := program[call.helper];
    HandledIsCredited(ss, Admitted(call.constraint), t);
    ReportsAreExact(ss, call.constraint, t);
    assert t in Found(program, call).reported;
  }

  // ---------------------------------------------------------------------------
  // The whole analysis
  // ---------------------------------------------------------------------------

  /** The memo set costs nothing: what the walk reports is the union over all calls
      reachable from `reduce_event`, which is what is credited along chains of helpers. */
  method ProjectionEventDispatchTypes(program: Program) returns (dispatched: set<string>)
    ensures dispatched == ReportedBy(program, Reachable(program))
    ensures forall t :: t in dispatched <==> exists path :: CreditedAlong(program, path, t)
  {
    ReachableIsLeastClosed(program);
    var walk := new Walk(program, Reachable(program));
    walk.VisitFunction(ROOT);
    assert Closed(program, walk.visited);
    dispatched := walk.dispatched;
    forall t: string
      ensures t in dispatched <==> exists path :: CreditedAlong(program, path, t)
    {
      ReportedAlongChains(program, t);
    }
  }
}
