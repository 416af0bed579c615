/** The forward analysis that follows graph projections through a Python program.

    Abstract states say of each name whether it may hold a projection and which
    imported functions it may stand for.  One transfer function per statement emits
    the states of each way control can leave the statement.

    Modelled on scripts/graph_projection_boundary_provenance.py.  */
module FlowAnalysis {
  import opened Common

  type Name = string
  type Origin = string

  const UNKNOWN_ORIGIN: Origin := "<unknown>"

  /** The imported functions whose calls yield a projection. */
  const PROJECTION_FUNCTIONS: set<Origin> :=
    { "orchestrator.graph.initial_projection",
      "orchestrator.graph.build_projection",
      "orchestrator.graph.reduce_event",
      "orchestrator.graph_runtime.controller.rebuild_projection" }

  // ---------------------------------------------------------------------------
  // Programs
  // ---------------------------------------------------------------------------

  /** Expressions without bindings.  `pos` is the source position under which the
      collector records a fact about the node. */
  datatype Expr =
    | Load(pos: nat, id: Name)
    | Call(pos: nat, fn: Expr, args: seq<Expr>)
    | Access(pos: nat, base: Expr)                     // attribute, subscript, await
    | Opaque(parts: seq<Expr>)                         // operators, constants, ...
    | IfExp(test: Expr, onTrue: Expr, onFalse: Expr)
    | BoolOp(left: Expr, right: Expr)

  datatype Item = Item(context: Expr, target: Option<Name>)

  datatype Handler = Handler(name: Option<Name>, body: seq<Stmt>)

  datatype Stmt =
    | Import(name: Name, origin: Origin)               // from m import n as name
    | Assign(target: Name, value: Expr)
    | Delete(pos: nat, name: Name)
    | Evaluate(value: Expr)
    | Return(result: Option<Expr>)
    | Raise(exc: Option<Expr>)
    | Break
    | Continue
    | If(test: Expr, body: seq<Stmt>, orelse: seq<Stmt>)
    | Loop(head: Expr, body: seq<Stmt>, orelse: seq<Stmt>)
    | With(items: seq<Item>, body: seq<Stmt>)
    | Try(body: seq<Stmt>, handlers: seq<Handler>, orelse: seq<Stmt>, finalbody: seq<Stmt>)

  // ---------------------------------------------------------------------------
  // Abstract states
  // ---------------------------------------------------------------------------

  datatype Certainty = Definite | Possible

  type Candidates = s: set<Origin> | s != {} witness {"<unknown>"}

  datatype State = State(
    aliases: map<Name, Certainty>,
    origins: map<Name, Candidates>,
    possibleOrigins: set<Name>)

  const EMPTY_STATE := State(map[], map[], {})

  function Clear(name: Name, s: State): State {
    State(s.aliases - {name}, s.origins - {name}, s.possibleOrigins - {name})
  }

  function OriginOf(e: Expr, s: State): set<Origin> {
    if e.Load? && e.id in s.origins then s.origins[e.id] else {}
  }

  function OriginIsPossible(e: Expr, s: State): bool {
    e.Load? && e.id in s.possibleOrigins
  }

  /** What the analysis claims about the value of `e`; None is "not a projection". */
  function CertaintyOf(e: Expr, s: State): Option<Certainty> {
    match e
    case Load(_, id) => if id in s.aliases then Some(s.aliases[id]) else None
    case Access(_, base) => CertaintyOf(base, s)
    case Call(_, fn, _) =>
      var origin := OriginOf(fn, s);
      if origin * PROJECTION_FUNCTIONS == {} then None
      else if origin <= PROJECTION_FUNCTIONS && !OriginIsPossible(fn, s) then Some(Definite)
      else Some(Possible)
    case Opaque(_) => None
    case IfExp(_, _, _) => None
    case BoolOp(_, _) => None
  }

  /** Binding `name` forgets the old binding first and only then looks at the value. */
  function SetAlias(name: Name, value: Expr, s: State): State {
    var cleared := Clear(name, s);
    match CertaintyOf(value, cleared)
    case Some(c) => cleared.(aliases := cleared.aliases[name := c])
    case None => cleared
  }

  function AssignValue(name: Name, value: Expr, s: State): State {
    var aliased := SetAlias(name, value, s);
    var origin := OriginOf(value, aliased);
    if origin == {} then
      aliased.(origins := aliased.origins[name := {UNKNOWN_ORIGIN}])
    else
      State(aliased.aliases, aliased.origins[name := origin],
            if OriginIsPossible(value, aliased) then aliased.possibleOrigins + {name} else aliased.possibleOrigins)
  }

  function BindImport(name: Name, origin: Origin, s: State): State {
    var cleared := Clear(name, s);
    if origin in PROJECTION_FUNCTIONS
    then cleared.(origins := cleared.origins[name := {origin}])
    else cleared
  }

  function BindTarget(target: Option<Name>, value: Expr, s: State): State {
    match target
    case Some(name) => AssignValue(name, value, s)
    case None => s
  }

  function ClearTarget(target: Option<Name>, s: State): State {
    match target
    case Some(name) => Clear(name, s)
    case None => s
  }

  /** The state after an exception that some context manager may have swallowed. */
  function PossibleState(s: State): State {
    State(map name | name in s.aliases :: Possible, s.origins, s.origins.Keys)
  }

  // ---------------------------------------------------------------------------
  // Joins
  // ---------------------------------------------------------------------------

  function AliasNames(branches: seq<State>): set<Name> {
    set i, n | 0 <= i < |branches| && n in branches[i].aliases :: n
  }

  function OriginNames(branches: seq<State>): set<Name> {
    set i, n | 0 <= i < |branches| && n in branches[i].origins :: n
  }

  function MergedCertainty(branches: seq<State>, name: Name): Certainty {
    if forall i :: 0 <= i < |branches| ==> name in branches[i].aliases && branches[i].aliases[name] == Definite
    then Definite else Possible
  }

  function MergedCandidates(branches: seq<State>, name: Name): set<Origin> {
    set i, o | 0 <= i < |branches| && name in branches[i].origins && o in branches[i].origins[name] :: o
  }

  predicate MergedPossible(branches: seq<State>, name: Name) {
    exists i :: 0 <= i < |branches| && (name in branches[i].possibleOrigins || name !in branches[i].origins)
  }

  lemma CandidatesNonEmpty(branches: seq<State>, name: Name)
    requires name in OriginNames(branches)
    ensures MergedCandidates(branches, name) != {}
  {
    var i :| 0 <= i < |branches| && name in branches[i].origins;
    var o :| o in branches[i].origins[name];
    assert o in MergedCandidates(branches, name);
  }

  function Merge(branches: seq<State>): State {
    State(
      map n | n in AliasNames(branches) :: MergedCertainty(branches, n),
      map n | n in OriginNames(branches) :: (CandidatesNonEmpty(branches, n); MergedCandidates(branches, n)),
      set n | n in OriginNames(branches) && MergedPossible(branches, n))
  }

  function JoinStates(states: seq<State>): State {
    if states == [] then EMPTY_STATE else Merge(states)
  }

  type Facts = map<nat, Certainty>

  /** One list of states for each way to leave a statement, and the facts recorded
      on the way.  A later fact about a position replaces an earlier one. */
  datatype Outcomes = Outcomes(
    normal: seq<State>,
    raised: seq<State>,
    returned: seq<State>,
    broken: seq<State>,
    continued: seq<State>,
    facts: Facts)

  const NO_OUTCOMES := Outcomes([], [], [], [], [], map[])

  /** How a statement ends.  `Probe(p)` is a run observed at the moment the
      expression at `p` has evaluated to a projection.  `ImportFailed` is an exception
      that comes from an import, which the analysis takes never to raise. */
  datatype Kind = Normal | Raised | Returned | Broken | Continued | Probe(pos: nat) | ImportFailed

  function StatesOf(o: Outcomes, k: Kind): seq<State> {
    match k
    case Normal => o.normal
    case Raised => o.raised
    case Returned => o.returned
    case Broken => o.broken
    case Continued => o.continued
    case Probe(_) => []
    case ImportFailed => []
  }

  function Collect(os: seq<Outcomes>, k: Kind): seq<State> {
    if os == [] then [] else StatesOf(os[0], k) + Collect(os[1..], k)
  }

  function CollectFacts(os: seq<Outcomes>): Facts {
    if os == [] then map[] else os[0].facts + CollectFacts(os[1..])
  }

  function JoinKind(states: seq<State>): seq<State> {
    if states == [] then [] else [JoinStates(states)]
  }

  function JoinOutcomes(os: seq<Outcomes>): Outcomes {
    Outcomes(
      JoinKind(Collect(os, Normal)),
      JoinKind(Collect(os, Raised)),
      JoinKind(Collect(os, Returned)),
      JoinKind(Collect(os, Broken)),
      JoinKind(Collect(os, Continued)),
      CollectFacts(os))
  }

  // ---------------------------------------------------------------------------
  // Transfer functions
  // ---------------------------------------------------------------------------

  function Note(pos: nat, c: Option<Certainty>): Facts {
    if c.Some? then map[pos := c.value] else map[]
  }

  /** The facts recorded while `e` is evaluated, children first. */
  function Records(e: Expr, s: State): Facts
    decreases e, 1
  {
    match e
    case Load(pos, _) => Note(pos, CertaintyOf(e, s))
    case Access(pos, base) => Records(base, s) + Note(pos, CertaintyOf(e, s))
    case Call(pos, fn, args) => Records(fn, s) + RecordsAll(args, s) + Note(pos, CertaintyOf(e, s))
    case Opaque(parts) => RecordsAll(parts, s)
    case IfExp(test, a, b) => Records(test, s) + Records(a, s) + Records(b, s)
    case BoolOp(a, b) => Records(a, s) + Records(b, s)
  }

  function RecordsAll(es: seq<Expr>, s: State): Facts
    decreases es, 0
  {
    if es == [] then map[] else Records(es[0], s) + RecordsAll(es[1..], s)
  }

  /** Without bindings an expression ends in the state it started in, normally or not. */
  function EvalExpr(e: Expr, s: State): Outcomes {
    NO_OUTCOMES.(normal := [s], raised := [s], facts := Records(e, s))
  }

  function EvalOptional(e: Option<Expr>, s: State): Outcomes {
    match e
    case Some(x) => EvalExpr(x, s)
    case None => NO_OUTCOMES.(normal := [s])
  }

  function EvalBlock(ss: seq<Stmt>, s: State): Outcomes
    decreases ss, 2
  {
    EvalFrom(ss, NO_OUTCOMES.(normal := [s]))
  }

  /** The statement loop: each statement starts where the previous ended normally,
      the other endings pile up. */
  function EvalFrom(ss: seq<Stmt>, result: Outcomes): Outcomes
    decreases ss, 1
  {
    if ss == [] then JoinOutcomes([result]) else EvalFrom(ss[1..], Advance(ss[0], result))
  }

  function Advance(stmt: Stmt, result: Outcomes): Outcomes
    decreases stmt, 7
  {
    Pile(result, JoinOutcomes(EvalEachStmt(stmt, result.normal)))
  }

  function EvalEachStmt(stmt: Stmt, states: seq<State>): seq<Outcomes>
    decreases stmt, 6
  {
    seq(|states|, i requires 0 <= i < |states| => EvalStmt(stmt, states[i]))
  }

  function Pile(result: Outcomes, transferred: Outcomes): Outcomes {
    Outcomes(
      transferred.normal,
      result.raised + transferred.raised,
      result.returned + transferred.returned,
      result.broken + transferred.broken,
      result.continued + transferred.continued,
      result.facts + transferred.facts)
  }

  /** Every block of the sequence `states`, started separately. */
  function EvalEach(ss: seq<Stmt>, states: seq<State>): seq<Outcomes>
    decreases ss, 3
  {
    seq(|states|, i requires 0 <= i < |states| => EvalBlock(ss, states[i]))
  }

  function EvalStmt(stmt: Stmt, s: State): Outcomes
    decreases stmt, 5
  {
    match stmt
    case Import(name, origin) => NO_OUTCOMES.(normal := [BindImport(name, origin, s)])
    case Assign(target, value) => EvalAssign(target, value, s)
    case Delete(pos, name) => EvalDelete(pos, name, s)
    case Evaluate(value) => EvalExpr(value, s)
    case Return(result) => EvalReturn(result, s)
    case Raise(exc) => EvalRaise(exc, s)
    case Break => NO_OUTCOMES.(broken := [s])
    case Continue => NO_OUTCOMES.(continued := [s])
    case If(_, _, _) => EvalIf(stmt, s)
    case Loop(_, _, _) => EvalLoop(stmt, s)
    case With(_, _) => EvalWith(stmt, s)
    case Try(_, _, _, _) => EvalTry(stmt, s)
  }

  function EvalAssign(target: Name, value: Expr, s: State): Outcomes {
    var bound := AssignValue(target, value, s);
    var inner := JoinOutcomes([NO_OUTCOMES.(normal := [bound], raised := [bound])]);
    JoinOutcomes([NO_OUTCOMES.(normal := inner.normal, raised := [s] + inner.raised, facts := Records(value, s))])
  }

  function EvalDelete(pos: nat, name: Name, s: State): Outcomes {
    JoinOutcomes([NO_OUTCOMES, EvalExpr(Load(pos, name), s).(normal := [Clear(name, s)])])
  }

  function EvalReturn(result: Option<Expr>, s: State): Outcomes {
    var value := EvalOptional(result, s);
    NO_OUTCOMES.(raised := value.raised, returned := value.normal, facts := value.facts)
  }

  function EvalRaise(exc: Option<Expr>, s: State): Outcomes {
    var value := EvalOptional(exc, s);
    NO_OUTCOMES.(raised := value.raised + value.normal, facts := value.facts)
  }

  function EvalIf(stmt: Stmt, s: State): Outcomes
    requires stmt.If?
    decreases stmt, 4
  {
    JoinOutcomes([
      NO_OUTCOMES.(raised := [s], facts := Records(stmt.test, s)),
      EvalBlock(stmt.body, s),
      EvalBlock(stmt.orelse, s)])
  }

  function EvalLoop(loop: Stmt, s: State): Outcomes
    requires loop.Loop?
    decreases loop, 4
  {
    LoopExit(loop.orelse, LoopPass(loop.head, loop.body, s))
  }

  function EvalWith(w: Stmt, s: State): Outcomes
    requires w.With?
    decreases w, 4
  {
    var entry := EnterItems(w.items, false, s);
    var inside := EvalBlock(w.body, entry.inside);
    JoinOutcomes([
      NO_OUTCOMES.(raised := entry.raised + inside.raised,
                   normal := entry.suppressed + PossibleStates(inside.raised),
                   facts := entry.facts),
      inside])
  }

  function EvalTry(t: Stmt, s: State): Outcomes
    requires t.Try?
    decreases t, 4
  {
    var joined := TryBeforeFinally(t, s);
    if t.finalbody == [] then joined else JoinOutcomes(FinallyAll(t.finalbody, joined))
  }

  function LoopPass(head: Expr, body: seq<Stmt>, s: State): Outcomes
    decreases body, 3
  {
    var once := EvalBlock(body, s);
    JoinOutcomes([
      NO_OUTCOMES.(normal := [s], raised := [s], facts := Records(head, s)),
      once.(normal := [s] + once.normal + once.continued, continued := [])])
  }

  function LoopExit(orelse: seq<Stmt>, joined: Outcomes): Outcomes
    decreases orelse, 4
  {
    if orelse == [] then
      JoinOutcomes([joined.(normal := joined.normal + joined.broken, broken := [])])
    else
      JoinOutcomes([joined.(normal := joined.broken, broken := [])] + EvalEach(orelse, joined.normal))
  }

  datatype Entry = Entry(inside: State, raised: seq<State>, suppressed: seq<State>, facts: Facts)

  /** Entering the context managers one after another.  Once one is entered, it may
      swallow what a later one raises. */
  function EnterItems(items: seq<Item>, entered: bool, s: State): Entry {
    if items == [] then Entry(s, [], [], map[])
    else
      var bound := BindTarget(items[0].target, items[0].context, s);
      var rest := EnterItems(items[1..], true, JoinStates([bound]));
      Entry(rest.inside,
            [s, bound] + rest.raised,
            (if entered then [PossibleState(s), PossibleState(bound)] else []) + rest.suppressed,
            Records(items[0].context, s) + rest.facts)
  }

  function PossibleStates(states: seq<State>): seq<State> {
    seq(|states|, i requires 0 <= i < |states| => PossibleState(states[i]))
  }

  /** Body, `else` and handlers.  Any handler may catch what the body raised, and so
      may none. */
  function TryBeforeFinally(t: Stmt, s: State): Outcomes
    requires t.Try?
    decreases t, 3
  {
    var tried := EvalBlock(t.body, s);
    JoinOutcomes(
      [NO_OUTCOMES.(facts := tried.facts)]
      + EvalEach(t.orelse, tried.normal)
      + EvalHandlers(t.handlers, tried.raised)
      + [NO_OUTCOMES.(raised := tried.raised)]
      + [NO_OUTCOMES.(returned := tried.returned, broken := tried.broken, continued := tried.continued)])
  }

  function EvalHandlers(handlers: seq<Handler>, raised: seq<State>): seq<Outcomes>
    decreases handlers, 4
  {
    if handlers == [] then []
    else EvalHandler(handlers[0], raised) + EvalHandlers(handlers[1..], raised)
  }

  function EvalHandler(h: Handler, raised: seq<State>): seq<Outcomes>
    decreases h, 4
  {
    seq(|raised|, i requires 0 <= i < |raised| => EvalBlock(h.body, ClearTarget(h.name, raised[i])))
  }

  /** `finally` runs once for each pending way out; ending normally it lets the
      pending way out continue, any other ending replaces it. */
  function FinallyAll(finalbody: seq<Stmt>, joined: Outcomes): seq<Outcomes>
    decreases finalbody, 5
  {
    [NO_OUTCOMES.(facts := joined.facts)]
    + FinallyFor(finalbody, Normal, joined.normal)
    + FinallyFor(finalbody, Raised, joined.raised)
    + FinallyFor(finalbody, Returned, joined.returned)
    + FinallyFor(finalbody, Broken, joined.broken)
    + FinallyFor(finalbody, Continued, joined.continued)
  }

  function FinallyFor(finalbody: seq<Stmt>, pending: Kind, states: seq<State>): seq<Outcomes>
    decreases finalbody, 4
  {
    seq(|states|, i requires 0 <= i < |states| => Resume(pending, EvalBlock(finalbody, states[i])))
  }

  function Resume(pending: Kind, final: Outcomes): Outcomes {
    Outcomes(
      if pending == Normal then final.normal else [],
      final.raised + (if pending == Raised then final.normal else []),
      final.returned + (if pending == Returned then final.normal else []),
      final.broken + (if pending == Broken then final.normal else []),
      final.continued + (if pending == Continued then final.normal else []),
      final.facts)
  }

  // ---------------------------------------------------------------------------
  // Statements with statements in them
  // ---------------------------------------------------------------------------

  lemma IfIs(stmt: Stmt, s: State)
    requires stmt.If?
    ensures EvalStmt(stmt, s) == EvalIf(stmt, s)
  {
  }

  lemma LoopIs(head: Expr, body: seq<Stmt>, orelse: seq<Stmt>, s: State)
    ensures EvalStmt(Loop(head, body, orelse), s) == EvalLoop(Loop(head, body, orelse), s)
  {
  }

  lemma WithIs(w: Stmt, s: State)
    requires w.With?
    ensures EvalStmt(w, s) == EvalWith(w, s)
  {
  }

  lemma TryIs(t: Stmt, s: State)
    requires t.Try?
    ensures EvalStmt(t, s) == EvalTry(t, s)
  {
  }
}
