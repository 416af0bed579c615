/** The evaluation of statements, with its loops over states, items, handlers and ways
    out, and one dictionary of facts that all of it writes to.  Every method is proved to
    compute its function in FlowAnalysis and to add exactly the facts recorded on the way.

    Modelled on scripts/graph_projection_boundary_provenance.py, `_evaluate_block` and
    `_evaluate_statement`.  */
module FlowEvaluator {
  import opened Common
  import opened FlowAnalysis
  import opened FlowCollector

  lemma {:induction false} CollectedFactsAppend(os: seq<Outcomes>, more: seq<Outcomes>)
    ensures CollectFacts(os + more) == CollectFacts(os) + CollectFacts(more)
  {
    if os == [] {
      assert os + more == more;
    } else {
      CollectedFactsAppend(os[1..], more);
      assert (os + more)[1..] == os[1..] + more;
      FactsAssociate(os[0].facts, CollectFacts(os[1..]), CollectFacts(more));
    }
  }

  lemma FactsOfOne(o: Outcomes)
    ensures CollectFacts([o]) == o.facts
  {
    assert [o][1..] == [];
  }

  lemma FactsOfSecond(o: Outcomes)
    ensures CollectFacts([NO_OUTCOMES, o]) == o.facts
  {
    FactsOfOne(NO_OUTCOMES);
    FactsOfOne(o);
    CollectedFactsAppend([NO_OUTCOMES], [o]);
    assert [NO_OUTCOMES] + [o] == [NO_OUTCOMES, o];
  }

  /** One more outcome, and its facts. */
  lemma OneMoreOutcome(before: Facts, os: seq<Outcomes>, o: Outcomes)
    ensures before + CollectFacts(os) + o.facts == before + CollectFacts(os + [o])
  {
    CollectedFactsAppend(os, [o]);
    FactsOfOne(o);
    FactsAssociate(before, CollectFacts(os), o.facts);
  }

  lemma MoreOutcomes(before: Facts, os: seq<Outcomes>, more: seq<Outcomes>)
    ensures before + CollectFacts(os) + CollectFacts(more) == before + CollectFacts(os + more)
  {
    CollectedFactsAppend(os, more);
    FactsAssociate(before, CollectFacts(os), CollectFacts(more));
  }

  lemma NoMoreFacts(os: seq<Outcomes>, a: Outcomes, b: Outcomes)
    requires a.facts == map[] && b.facts == map[]
    ensures CollectFacts(os + [a] + [b]) == CollectFacts(os)
  {
    CollectedFactsAppend(os, [a]);
    CollectedFactsAppend(os + [a], [b]);
    FactsOfOne(a);
    FactsOfOne(b);
  }

  lemma FactsOfThree(before: Facts, a: Outcomes, b: Outcomes, c: Outcomes)
    ensures before + a.facts + b.facts + c.facts == before + CollectFacts([a, b, c])
  {
    FactsOfOne(a);
    OneMoreOutcome(before, [a], b);
    OneMoreOutcome(before, [a] + [b], c);
    assert [a] + [b] + [c] == [a, b, c];
  }

  function Each(f: State -> Outcomes, states: seq<State>): seq<Outcomes> {
    seq(|states|, i requires 0 <= i < |states| => f(states[i]))
  }

  lemma OneMoreOfEach(f: State -> Outcomes, states: seq<State>, i: nat)
    requires i < |states|
    ensures Each(f, states[..i + 1]) == Each(f, states[..i]) + [f(states[i])]
  {
  }

  function StatementFrom(stmt: Stmt): State -> Outcomes {
    s => EvalStmt(stmt, s)
  }

  lemma InEachIsEach(stmt: Stmt, states: seq<State>)
    ensures EvalEachStmt(stmt, states) == Each(StatementFrom(stmt), states)
  {
  }

  lemma InEachOneMore(stmt: Stmt, states: seq<State>, i: nat)
    requires i < |states|
    ensures EvalEachStmt(stmt, states[..i + 1]) == EvalEachStmt(stmt, states[..i]) + [EvalStmt(stmt, states[i])]
  {
    InEachIsEach(stmt, states[..i]);
    InEachIsEach(stmt, states[..i + 1]);
    OneMoreOfEach(StatementFrom(stmt), states, i);
  }

  function BlockFrom(ss: seq<Stmt>): State -> Outcomes {
    s => EvalBlock(ss, s)
  }

  lemma BlocksAreEach(ss: seq<Stmt>, states: seq<State>)
    ensures EvalEach(ss, states) == Each(BlockFrom(ss), states)
  {
  }

  lemma EachOneMore(ss: seq<Stmt>, states: seq<State>, i: nat)
    requires i < |states|
    ensures EvalEach(ss, states[..i + 1]) == EvalEach(ss, states[..i]) + [EvalBlock(ss, states[i])]
  {
    BlocksAreEach(ss, states[..i]);
    BlocksAreEach(ss, states[..i + 1]);
    OneMoreOfEach(BlockFrom(ss), states, i);
  }

  function HandlerFrom(h: Handler): State -> Outcomes {
    s => EvalBlock(h.body, ClearTarget(h.name, s))
  }

  lemma HandlerIsEach(h: Handler, raised: seq<State>)
    ensures EvalHandler(h, raised) == Each(HandlerFrom(h), raised)
  {
  }

  lemma HandlerOneMore(h: Handler, raised: seq<State>, i: nat)
    requires i < |raised|
    ensures EvalHandler(h, raised[..i + 1])
      == EvalHandler(h, raised[..i]) + [EvalBlock(h.body, ClearTarget(h.name, raised[i]))]
  {
    HandlerIsEach(h, raised[..i]);
    HandlerIsEach(h, raised[..i + 1]);
    OneMoreOfEach(HandlerFrom(h), raised, i);
  }

  function Finisher(finalbody: seq<Stmt>, pending: Kind): State -> Outcomes {
    s => Resume(pending, EvalBlock(finalbody, s))
  }

  lemma FinallyIsEach(finalbody: seq<Stmt>, pending: Kind, states: seq<State>)
    ensures FinallyFor(finalbody, pending, states) == Each(Finisher(finalbody, pending), states)
  {
  }

  lemma FinallyOneMore(finalbody: seq<Stmt>, pending: Kind, states: seq<State>, i: nat)
    requires i < |states|
    ensures FinallyFor(finalbody, pending, states[..i + 1])
         == FinallyFor(finalbody, pending, states[..i]) + [Resume(pending, EvalBlock(finalbody, states[i]))]
  {
    FinallyIsEach(finalbody, pending, states[..i]);
    FinallyIsEach(finalbody, pending, states[..i + 1]);
    OneMoreOfEach(Finisher(finalbody, pending), states, i);
  }

  class Evaluator {
    const collector: Collector

    constructor ()
      ensures fresh(collector) && Facts() == map[]
    {
      collector := new Collector();
    }

    function Facts(): Facts
      reads collector
    {
      collector.facts
    }

    // -------------------------------------------------------------------------
    // Blocks
    // -------------------------------------------------------------------------

    method EvaluateBlock(ss: seq<Stmt>, s: State) returns (o: Outcomes)
      modifies collector
      ensures o == EvalBlock(ss, s) && Facts() == old(Facts()) + o.facts
      decreases ss, 2
    {
      var result := NO_OUTCOMES.(normal := [s]);
      var i := 0;
      assert ss[0..] == ss;
      while i < |ss|
        invariant 0 <= i <= |ss|
        invariant EvalFrom(ss[i..], result) == EvalBlock(ss, s)
        invariant Facts() == old(Facts()) + result.facts
      {
        var following := EvaluateInEach(ss[i], result.normal);
        var transferred := JoinOutcomes(following);
        assert ss[i..][0] == ss[i] && ss[i..][1..] == ss[i + 1..];
        FactsAssociate(old(Facts()), result.facts, transferred.facts);
        result := Pile(result, transferred);
        i := i + 1;
      }
      FactsOfOne(result);
      o := JoinOutcomes([result]);
    }

    /** One statement, from each of the states it may start in. */
    method EvaluateInEach(stmt: Stmt, states: seq<State>) returns (following: seq<Outcomes>)
      modifies collector
      ensures following == EvalEachStmt(stmt, states) && Facts() == old(Facts()) + CollectFacts(following)
      decreases stmt, 6
    {
      following := [];
      for i := 0 to |states|
        invariant following == EvalEachStmt(stmt, states[..i])
        invariant Facts() == old(Facts()) + CollectFacts(following)
      {
        var o := EvaluateStatement(stmt, states[i]);
        InEachOneMore(stmt, states, i);
        OneMoreOutcome(old(Facts()), following, o);
        following := following + [o];
      }
      assert states[..|states|] == states;
    }

    /** One block, from each of the states. */
    method EvaluateEach(ss: seq<Stmt>, states: seq<State>) returns (os: seq<Outcomes>)
      modifies collector
      ensures os == EvalEach(ss, states) && Facts() == old(Facts()) + CollectFacts(os)
      decreases ss, 3
    {
      os := [];
      for i := 0 to |states|
        invariant os == EvalEach(ss, states[..i])
        invariant Facts() == old(Facts()) + CollectFacts(os)
      {
        var o := EvaluateBlock(ss, states[i]);
        EachOneMore(ss, states, i);
        OneMoreOutcome(old(Facts()), os, o);
        os := os + [o];
      }
      assert states[..|states|] == states;
    }

    // -------------------------------------------------------------------------
    // Statements
    // -------------------------------------------------------------------------

    method EvaluateStatement(stmt: Stmt, s: State) returns (o: Outcomes)
      modifies collector
      ensures o == EvalStmt(stmt, s) && Facts() == old(Facts()) + o.facts
      decreases stmt, 5
    {
      match stmt {
        case If(_, _, _) => o := EvaluateIf(stmt, s);
        case Loop(_, _, _) => o := EvaluateLoop(stmt, s);
        case With(_, _) => o := EvaluateWith(stmt, s);
        case Try(_, _, _, _) => o := EvaluateTry(stmt, s);
        case _ => o := EvaluateSimple(stmt, s);
      }
    }

    /** Statements with no statements in them. */
    method EvaluateSimple(stmt: Stmt, s: State) returns (o: Outcomes)
      requires !stmt.If? && !stmt.Loop? && !stmt.With? && !stmt.Try?
      modifies collector
      ensures o == EvalStmt(stmt, s) && Facts() == old(Facts()) + o.facts
    {
      match stmt {
        case Assign(_, _) => o := EvaluateAssignment(stmt, s);
        case Delete(_, _) => o := EvaluateDeletion(stmt, s);
        case Evaluate(value) => o := EvaluateExpression(Some(value), s);
        case Return(_) => o := EvaluateReturn(stmt, s);
        case Raise(_) => o := EvaluateRaise(stmt, s);
        case Import(name, origin) => o := NO_OUTCOMES.(normal := [BindImport(name, origin, s)]);
        case Break => o := NO_OUTCOMES.(broken := [s]);
        case Continue => o := NO_OUTCOMES.(continued := [s]);
      }
    }

    method EvaluateReturn(stmt: Stmt, s: State) returns (o: Outcomes)
      requires stmt.Return?
      modifies collector
      ensures o == EvalReturn(stmt.result, s) && Facts() == old(Facts()) + o.facts
    {
      var value := EvaluateExpression(stmt.result, s);
      o := NO_OUTCOMES.(raised := value.raised, returned := value.normal, facts := value.facts);
    }

    method EvaluateRaise(stmt: Stmt, s: State) returns (o: Outcomes)
      requires stmt.Raise?
      modifies collector
      ensures o == EvalRaise(stmt.exc, s) && Facts() == old(Facts()) + o.facts
    {
      var value := EvaluateExpression(stmt.exc, s);
      o := NO_OUTCOMES.(raised := value.raised + value.normal, facts := value.facts);
    }

    method EvaluateExpression(e: Option<Expr>, s: State) returns (o: Outcomes)
      modifies collector
      ensures o == EvalOptional(e, s) && Facts() == old(Facts()) + o.facts
    {
      if e.None? { return NO_OUTCOMES.(normal := [s]); }
      collector.RecordExpression(e.value, s);
      o := NO_OUTCOMES.(normal := [s], raised := [s], facts := Records(e.value, s));
    }

    method EvaluateAssignment(stmt: Stmt, s: State) returns (o: Outcomes)
      requires stmt.Assign?
      modifies collector
      ensures o == EvalAssign(stmt.target, stmt.value, s) && Facts() == old(Facts()) + o.facts
    {
      var value := EvaluateExpression(Some(stmt.value), s);
      var bound := AssignValue(stmt.target, stmt.value, s);
      var inner := JoinOutcomes([NO_OUTCOMES.(normal := [bound], raised := [bound])]);
      var all := NO_OUTCOMES.(normal := inner.normal, raised := value.raised + inner.raised, facts := value.facts);
      FactsOfOne(all);
      o := JoinOutcomes([all]);
    }

    method EvaluateDeletion(stmt: Stmt, s: State) returns (o: Outcomes)
      requires stmt.Delete?
      modifies collector
      ensures o == EvalDelete(stmt.pos, stmt.name, s) && Facts() == old(Facts()) + o.facts
    {
      var evaluated := EvaluateExpression(Some(Load(stmt.pos, stmt.name)), s);
      evaluated := evaluated.(normal := [Clear(stmt.name, s)]);
      FactsOfSecond(evaluated);
      o := JoinOutcomes([NO_OUTCOMES, evaluated]);
    }

    method EvaluateIf(stmt: Stmt, s: State) returns (o: Outcomes)
      requires stmt.If?
      modifies collector
      ensures o == EvalStmt(stmt, s) && Facts() == old(Facts()) + o.facts
      decreases stmt, 4
    {
      var test := EvaluateExpression(Some(stmt.test), s);
      var tested := NO_OUTCOMES.(raised := test.raised, facts := test.facts);
      var taken := EvaluateBlock(stmt.body, s);
      var other := EvaluateBlock(stmt.orelse, s);
      FactsOfThree(old(Facts()), tested, taken, other);
      o := JoinOutcomes([tested, taken, other]);
      IfIs(stmt, s);
    }

    /** The body once, then `else` from everything that reaches it. */
    method EvaluateLoop(loop: Stmt, s: State) returns (o: Outcomes)
      requires loop.Loop?
      modifies collector
      ensures o == EvalStmt(loop, s) && Facts() == old(Facts()) + o.facts
      decreases loop, 4
    {
      var joined := EvaluatePass(loop.head, loop.body, s);
      o := EvaluateExit(loop.orelse, joined, old(Facts()));
      LoopIs(loop.head, loop.body, loop.orelse, s);
    }

    method EvaluatePass(head: Expr, body: seq<Stmt>, s: State) returns (joined: Outcomes)
      modifies collector
      ensures joined == LoopPass(head, body, s) && Facts() == old(Facts()) + joined.facts
      decreases body, 3
    {
      var test := EvaluateExpression(Some(head), s);
      var branches := [test];
      FactsOfOne(test);
      var once := EvaluateBlock(body, s);
      var round := once.(normal := [s] + once.normal + once.continued, continued := []);
      OneMoreOutcome(old(Facts()), branches, round);
      assert branches + [round] == [test, round];
      joined := JoinOutcomes([test, round]);
    }

    method EvaluateExit(orelse: seq<Stmt>, joined: Outcomes, ghost before: Facts) returns (o: Outcomes)
      requires Facts() == before + joined.facts
      modifies collector
      ensures o == LoopExit(orelse, joined) && Facts() == before + o.facts
      decreases orelse, 4
    {
      if orelse == [] {
        var all := joined.(normal := joined.normal + joined.broken, broken := []);
        FactsOfOne(all);
        o := JoinOutcomes([all]);
      } else {
        var out := joined.(normal := joined.broken, broken := []);
        FactsOfOne(out);
        var others := EvaluateEach(orelse, joined.normal);
        MoreOutcomes(before, [out], others);
        o := JoinOutcomes([out] + others);
      }
    }

    // -------------------------------------------------------------------------
    // With
    // -------------------------------------------------------------------------

    method EvaluateWith(w: Stmt, s: State) returns (o: Outcomes)
      requires w.With?
      modifies collector
      ensures o == EvalStmt(w, s) && Facts() == old(Facts()) + o.facts
      decreases w, 4
    {
      var entry := Enter(w.items, s);
      var body := EvaluateBlock(w.body, entry.inside);
      var first := NO_OUTCOMES.(raised := entry.raised + body.raised,
                                normal := entry.suppressed + PossibleStates(body.raised),
                                facts := entry.facts);
      FactsOfOne(first);
      OneMoreOutcome(old(Facts()), [first], body);
      assert [first] + [body] == [first, body];
      o := JoinOutcomes([first, body]);
      WithIs(w, s);
    }

    /** The loop over the context managers; `entered` counts those that may swallow. */
    method Enter(items: seq<Item>, s: State) returns (entry: Entry)
      modifies collector
      ensures entry == EnterItems(items, false, s) && Facts() == old(Facts()) + entry.facts
    {
      entry := Entry(s, [], [], map[]);
      var i := 0;
      assert items[0..] == items;
      AfterNothing(s, EnterItems(items, false, s));
      while i < |items|
        invariant 0 <= i <= |items|
        invariant EnterItems(items, false, s) == After(entry, EnterItems(items[i..], i > 0, entry.inside))
        invariant Facts() == old(Facts()) + entry.facts
      {
        var context := EvaluateExpression(Some(items[i].context), entry.inside);
        EnterOne(items, i, entry);
        FactsAssociate(old(Facts()), entry.facts, context.facts);
        entry := EnteredOne(items[i], i > 0, entry);
        i := i + 1;
      }
      NothingAfter(entry);
    }

    // -------------------------------------------------------------------------
    // Try
    // -------------------------------------------------------------------------

    method EvaluateTry(t: Stmt, s: State) returns (o: Outcomes)
      requires t.Try?
      modifies collector
      ensures o == EvalStmt(t, s) && Facts() == old(Facts()) + o.facts
      decreases t, 4
    {
      var joined := EvaluateGuarded(t, s);
      TryIs(t, s);
      if t.finalbody == [] { return joined; }
      var os := EvaluateFinally(t.finalbody, joined, old(Facts()));
      o := JoinOutcomes(os);
    }

    method EvaluateGuarded(t: Stmt, s: State) returns (joined: Outcomes)
      requires t.Try?
      modifies collector
      ensures joined == TryBeforeFinally(t, s) && Facts() == old(Facts()) + joined.facts
      decreases t, 3
    {
      var tried := EvaluateBlock(t.body, s);
      var os := EvaluateCaught(t, tried, old(Facts()));
      var unmatched := NO_OUTCOMES.(raised := tried.raised);
      var away := NO_OUTCOMES.(returned := tried.returned, broken := tried.broken, continued := tried.continued);
      NoMoreFacts(os, unmatched, away);
      joined := JoinOutcomes(os + [unmatched] + [away]);
    }

    /** What follows the body: `else`, and the handlers. */
    method EvaluateCaught(t: Stmt, tried: Outcomes, ghost before: Facts) returns (os: seq<Outcomes>)
      requires t.Try? && Facts() == before + tried.facts
      modifies collector
      ensures os == [NO_OUTCOMES.(facts := tried.facts)] + EvalEach(t.orelse, tried.normal)
        + EvalHandlers(t.handlers, tried.raised)
      ensures Facts() == before + CollectFacts(os)
      decreases t, 2
    {
      os := [NO_OUTCOMES.(facts := tried.facts)];
      FactsOfOne(os[0]);
      var others := EvaluateEach(t.orelse, tried.normal);
      MoreOutcomes(before, os, others);
      os := os + others;
      var handled := EvaluateHandlers(t.handlers, tried.raised);
      MoreOutcomes(before, os, handled);
      os := os + handled;
    }

    /** Every handler, from every state the body may have raised in. */
    method EvaluateHandlers(handlers: seq<Handler>, raised: seq<State>) returns (os: seq<Outcomes>)
      modifies collector
      ensures os == EvalHandlers(handlers, raised) && Facts() == old(Facts()) + CollectFacts(os)
      decreases handlers, 4
    {
      os := [];
      var i := 0;
      assert handlers[0..] == handlers;
      while i < |handlers|
        invariant 0 <= i <= |handlers|
        invariant os + EvalHandlers(handlers[i..], raised) == EvalHandlers(handlers, raised)
        invariant Facts() == old(Facts()) + CollectFacts(os)
      {
        assert handlers[i..][0] == handlers[i] && handlers[i..][1..] == handlers[i + 1..];
        var more := EvaluateHandler(handlers[i], raised);
        MoreOutcomes(old(Facts()), os, more);
        Associate(os, more, EvalHandlers(handlers[i + 1..], raised));
        os := os + more;
        i := i + 1;
      }
    }

    method EvaluateHandler(h: Handler, raised: seq<State>) returns (os: seq<Outcomes>)
      modifies collector
      ensures os == EvalHandler(h, raised) && Facts() == old(Facts()) + CollectFacts(os)
      decreases h, 4
    {
      os := [];
      for i := 0 to |raised|
        invariant os == EvalHandler(h, raised[..i])
        invariant Facts() == old(Facts()) + CollectFacts(os)
      {
        var o := EvaluateBlock(h.body, ClearTarget(h.name, raised[i]));
        HandlerOneMore(h, raised, i);
        OneMoreOutcome(old(Facts()), os, o);
        os := os + [o];
      }
      assert raised[..|raised|] == raised;
    }

    /** `finally`, for each way out in turn. */
    method EvaluateFinally(finalbody: seq<Stmt>, joined: Outcomes, ghost before: Facts) returns (os: seq<Outcomes>)
      requires Facts() == before + joined.facts
      modifies collector
      ensures os == FinallyAll(finalbody, joined) && Facts() == before + CollectFacts(os)
      decreases finalbody, 5
    {
      os := [NO_OUTCOMES.(facts := joined.facts)];
      FactsOfOne(os[0]);
      var more := EvaluateFinallyFor(finalbody, Normal, joined.normal);
      MoreOutcomes(before, os, more);
      os := os + more;
      more := EvaluateFinallyFor(finalbody, Raised, joined.raised);
      MoreOutcomes(before, os, more);
      os := os + more;
      more := EvaluateFinallyFor(finalbody, Returned, joined.returned);
      MoreOutcomes(before, os, more);
      os := os + more;
      more := EvaluateFinallyFor(finalbody, Broken, joined.broken);
      MoreOutcomes(before, os, more);
      os := os + more;
      more := EvaluateFinallyFor(finalbody, Continued, joined.continued);
      MoreOutcomes(before, os, more);
      os := os + more;
    }

    method EvaluateFinallyFor(finalbody: seq<Stmt>, pending: Kind, states: seq<State>) returns (os: seq<Outcomes>)
      modifies collector
      ensures os == FinallyFor(finalbody, pending, states) && Facts() == old(Facts()) + CollectFacts(os)
      decreases finalbody, 4
    {
      os := [];
      for i := 0 to |states|
        invariant os == FinallyFor(finalbody, pending, states[..i])
        invariant Facts() == old(Facts()) + CollectFacts(os)
      {
        var final := EvaluateBlock(finalbody, states[i]);
        FinallyOneMore(finalbody, pending, states, i);
        OneMoreOutcome(old(Facts()), os, Resume(pending, final));
        os := os + [Resume(pending, final)];
      }
      assert states[..|states|] == states;
    }
  }

  // ---------------------------------------------------------------------------
  // Entering items from the left
  // ---------------------------------------------------------------------------

  /** What was raised and swallowed before, and then the rest. */
  function After(entry: Entry, rest: Entry): Entry {
    Entry(rest.inside, entry.raised + rest.raised, entry.suppressed + rest.suppressed, entry.facts + rest.facts)
  }

  lemma AfterNothing(s: State, rest: Entry)
    ensures After(Entry(s, [], [], map[]), rest) == rest
  {
    assert [] + rest.raised == rest.raised && [] + rest.suppressed == rest.suppressed;
    assert map[] + rest.facts == rest.facts;
  }

  lemma NothingAfter(entry: Entry)
    ensures After(entry, Entry(entry.inside, [], [], map[])) == entry
  {
    assert entry.raised + [] == entry.raised && entry.suppressed + [] == entry.suppressed;
    assert entry.facts + map[] == entry.facts;
  }

  function EnteredOne(item: Item, entered: bool, entry: Entry): Entry {
    var s := entry.inside;
    var bound := BindTarget(item.target, item.context, s);
    Entry(JoinStates([bound]),
          entry.raised + [s, bound],
          entry.suppressed + (if entered then [PossibleState(s), PossibleState(bound)] else []),
          entry.facts + Records(item.context, s))
  }

  lemma EnterOne(items: seq<Item>, i: nat, entry: Entry)
    requires i < |items|
    ensures After(entry, EnterItems(items[i..], i > 0, entry.inside))
         == After(EnteredOne(items[i], i > 0, entry),
                  EnterItems(items[i + 1..], true, EnteredOne(items[i], i > 0, entry).inside))
  {
    var s, item := entry.inside, items[i];
    var bound := BindTarget(item.target, item.context, s);
    var rest := EnterItems(items[i + 1..], true, JoinStates([bound]));
    var swallowed := if i > 0 then [PossibleState(s), PossibleState(bound)] else [];
    assert items[i..][0] == item && items[i..][1..] == items[i + 1..];
    Associate(entry.raised, [s, bound], rest.raised);
    Associate(entry.suppressed, swallowed, rest.suppressed);
    FactsAssociate(entry.facts, Records(item.context, s), rest.facts);
  }
}
