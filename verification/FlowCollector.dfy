/** The collector's states, whose maps are updated in place, the joins that correct a
    copy name by name, and the dictionary of facts.  Each is proved to compute its
    function in FlowAnalysis.

    Modelled on scripts/graph_projection_boundary_provenance.py.  */
module FlowCollector {
  import opened Common
  import opened FlowAnalysis

  class FlowState {
    var aliases: map<Name, Certainty>
    var origins: map<Name, Candidates>
    var possibleOrigins: set<Name>

    function Value(): State
      reads this
    {
      State(aliases, origins, possibleOrigins)
    }

    constructor (s: State)
      ensures Value() == s
    {
      aliases, origins, possibleOrigins := s.aliases, s.origins, s.possibleOrigins;
    }

    method Copy() returns (c: FlowState)
      ensures fresh(c) && c.Value() == Value()
    {
      c := new FlowState(State(aliases, origins, possibleOrigins));
    }

    method Forget(name: Name)
      modifies this
      ensures Value() == Clear(name, old(Value()))
    {
      origins := origins - {name};
      possibleOrigins := possibleOrigins - {name};
      aliases := aliases - {name};
    }

    method Alias(name: Name, value: Expr)
      modifies this
      ensures Value() == SetAlias(name, value, old(Value()))
    {
      Forget(name);
      match CertaintyOf(value, Value()) {
        case Some(c) => aliases := aliases[name := c];
        case None =>
      }
    }

    method Assign(name: Name, value: Expr)
      modifies this
      ensures Value() == AssignValue(name, value, old(Value()))
    {
      Alias(name, value);
      var origin := OriginOf(value, Value());
      if origin != {} {
        var possible := OriginIsPossible(value, Value());
        origins := origins[name := origin];
        if possible {
          possibleOrigins := possibleOrigins + {name};
        }
      } else {
        origins := origins[name := {UNKNOWN_ORIGIN}];
      }
    }

    /** The copy a swallowed exception leaves behind. */
    method Weakened() returns (c: FlowState)
      ensures fresh(c) && c.Value() == PossibleState(Value())
    {
      c := Copy();
      c.aliases := map name | name in aliases :: Possible;
      c.possibleOrigins := origins.Keys;
    }

    method Import(name: Name, origin: Origin)
      modifies this
      ensures Value() == BindImport(name, origin, old(Value()))
    {
      Forget(name);
      if origin in PROJECTION_FUNCTIONS {
        origins := origins[name := {origin}];
      }
    }
  }

  function Values(states: seq<FlowState>): (vs: seq<State>)
    reads states
    ensures |vs| == |states|
  {
    seq(|states|, i requires 0 <= i < |states| reads states => states[i].Value())
  }

  /** The merged state is a copy of the first branch, corrected name by name. */
  method MergeStates(branches: seq<FlowState>) returns (merged: FlowState)
    requires branches != []
    ensures fresh(merged) && merged.Value() == Merge(Values(branches))
  {
    var values := Values(branches);
    merged := branches[0].Copy();
    assert merged.Value() == values[0];
    MergeAliases(values, merged);
    MergeOrigins(values, merged);
  }

  method MergeAliases(values: seq<State>, merged: FlowState)
    requires values != [] && merged.aliases == values[0].aliases
    modifies merged`aliases
    ensures merged.aliases == Merge(values).aliases
  {
    var names := AliasNames(values);
    var todo := names;
    while todo != {}
      invariant todo <= names && merged.aliases.Keys <= names
      invariant forall n :: n in names - todo ==> n in merged.aliases && merged.aliases[n] == MergedCertainty(values, n)
      decreases todo
    {
      var name :| name in todo;
      merged.aliases := merged.aliases[name := MergedCertainty(values, name)];
      todo := todo - {name};
    }
  }

  method MergeOrigins(values: seq<State>, merged: FlowState)
    modifies merged`origins, merged`possibleOrigins
    ensures merged.origins == Merge(values).origins
    ensures merged.possibleOrigins == Merge(values).possibleOrigins
  {
    merged.origins, merged.possibleOrigins := map[], {};
    var keys := OriginNames(values);
    var todo := keys;
    while todo != {}
      invariant todo <= keys && CandidatesUpTo(values, keys - todo, merged.origins)
      invariant merged.possibleOrigins == PossibleAmong(values, keys - todo)
      decreases todo
    {
      var key :| key in todo;
      CandidatesNonEmpty(values, key);
      var candidates: Candidates := MergedCandidates(values, key);
      var possible := MergedPossible(values, key);
      PossibleGrows(values, keys - todo, key);
      CandidatesGrow(values, keys - todo, merged.origins, key);
      assert keys - (todo - {key}) == keys - todo + {key};
      merged.origins := merged.origins[key := candidates];
      if possible {
        merged.possibleOrigins := merged.possibleOrigins + {key};
      }
      todo := todo - {key};
    }
    assert keys - todo == keys;
    AllMerged(values, merged.origins, merged.possibleOrigins);
  }

  /** The names in `done` have all their candidates. */
  ghost predicate CandidatesUpTo(values: seq<State>, done: set<Name>, origins: map<Name, Candidates>) {
    origins.Keys == done && forall n :: n in origins ==> origins[n] == MergedCandidates(values, n)
  }

  ghost function PossibleAmong(values: seq<State>, done: set<Name>): set<Name> {
    set n | n in done && MergedPossible(values, n)
  }

  lemma CandidatesGrow(values: seq<State>, done: set<Name>, origins: map<Name, Candidates>, name: Name)
    requires CandidatesUpTo(values, done, origins) && name in OriginNames(values)
    ensures MergedCandidates(values, name) != {}
    ensures CandidatesUpTo(values, done + {name}, origins[name := MergedCandidates(values, name)])
  {
    CandidatesNonEmpty(values, name);
  }

  lemma AllMerged(values: seq<State>, origins: map<Name, Candidates>, possible: set<Name>)
    requires CandidatesUpTo(values, OriginNames(values), origins)
    requires possible == PossibleAmong(values, OriginNames(values))
    ensures origins == Merge(values).origins && possible == Merge(values).possibleOrigins
  {
  }

  lemma PossibleGrows(values: seq<State>, done: set<Name>, name: Name)
    ensures PossibleAmong(values, done + {name})
         == PossibleAmong(values, done) + (if MergedPossible(values, name) then {name} else {})
  {
  }

  method JoinObjects(states: seq<FlowState>) returns (joined: FlowState)
    ensures fresh(joined) && joined.Value() == JoinStates(Values(states))
  {
    if states == [] {
      joined := new FlowState(EMPTY_STATE);
    } else {
      joined := MergeStates(states);
    }
  }

  lemma FactsAssociate(f: Facts, a: Facts, b: Facts)
    ensures (f + a) + b == f + (a + b)
  {
  }

  class Collector {
    var facts: Facts

    constructor ()
      ensures facts == map[]
    {
      facts := map[];
    }

    method Record(pos: nat, c: Option<Certainty>)
      modifies this
      ensures facts == old(facts) + Note(pos, c)
    {
      if c.Some? {
        facts := facts[pos := c.value];
      }
    }

    method RecordExpression(e: Expr, s: State)
      modifies this
      ensures facts == old(facts) + Records(e, s)
      decreases e, 1
    {
      ghost var before := facts;
      match e {
        case Load(pos, _) => Record(pos, CertaintyOf(e, s));
        case Access(pos, base) =>
          RecordExpression(base, s);
          Record(pos, CertaintyOf(e, s));
          FactsAssociate(before, Records(base, s), Note(pos, CertaintyOf(e, s)));
        case Call(pos, fn, args) =>
          RecordExpression(fn, s);
          RecordExpressions(args, s);
          Record(pos, CertaintyOf(e, s));
          FactsAssociate(before, Records(fn, s), RecordsAll(args, s));
          FactsAssociate(before, Records(fn, s) + RecordsAll(args, s), Note(pos, CertaintyOf(e, s)));
        case Opaque(parts) => RecordExpressions(parts, s);
        case IfExp(test, a, b) =>
          RecordExpression(test, s);
          RecordExpression(a, s);
          RecordExpression(b, s);
          FactsAssociate(before, Records(test, s), Records(a, s));
          FactsAssociate(before, Records(test, s) + Records(a, s), Records(b, s));
        case BoolOp(a, b) =>
          RecordExpression(a, s);
          RecordExpression(b, s);
          FactsAssociate(before, Records(a, s), Records(b, s));
      }
    }

    method RecordExpressions(es: seq<Expr>, s: State)
      modifies this
      ensures facts == old(facts) + RecordsAll(es, s)
      decreases es, 0
    {
      if es != [] {
        ghost var before := facts;
        RecordExpression(es[0], s);
        RecordExpressions(es[1..], s);
        FactsAssociate(before, Records(es[0], s), RecordsAll(es[1..], s));
      }
    }
  }
}
