/** Is everything a projection model can hold immutable?  A depth-first walk over the
    annotations of a type graph with cycles, which turns back at models and aliases
    that are active on the current path.

    Modelled on scripts/check_graph_projection_boundaries.py,
    `projection_annotation_violations`, for graphs without generic aliases.  */
module AnnotationWalk {
  import opened Common

  datatype Annotation =
    | Scalar
    | Ellipsis
    | Alias(name: string)
    | Annotated(base: Annotation)
    | Union(members: seq<Annotation>)
    | Collection(members: seq<Annotation>)   // tuple, frozenset
    | FrozenMap(arguments: seq<Annotation>)
    | LiteralValues(scalar: bool)
    | Record
    | Model(name: string)
    | Unknown

  datatype Field = Field(name: string, annotation: Annotation)

  datatype ModelType = ModelType(frozen: bool, fields: seq<Field>)

  datatype Types = Types(aliases: map<string, Annotation>, models: map<string, ModelType>)

  datatype Violation = Violation(path: string, annotation: Annotation)

  function FieldPath(path: string, name: string): string {
    if path == "" then name else path + "." + name
  }

  /** The annotation is a violation by itself. */
  predicate Mutable(t: Types, a: Annotation) {
    match a
    case FrozenMap(arguments) => |arguments| != 2
    case LiteralValues(scalar) => !scalar
    case Model(name) => name !in t.models || !t.models[name].frozen
    case Alias(name) => name !in t.aliases
    case Ellipsis => true
    case Unknown => true
    case _ => false
  }

  function Report(t: Types, a: Annotation, path: string): seq<Violation> {
    if Mutable(t, a) then [Violation(path, a)] else []
  }

  // ---------------------------------------------------------------------------
  // The walk
  // ---------------------------------------------------------------------------

  function Inactive(t: Types, models: set<string>, aliases: set<string>): nat {
    |t.models.Keys - models| + |t.aliases.Keys - aliases|
  }

  lemma Activate(t: Types, models: set<string>, aliases: set<string>, name: string)
    ensures name in t.models && name !in models ==> Inactive(t, models + {name}, aliases) < Inactive(t, models, aliases)
    ensures name in t.aliases && name !in aliases
      ==> Inactive(t, models, aliases + {name}) < Inactive(t, models, aliases)
  {
    OneFewer(t.models.Keys, models, name);
    OneFewer(t.aliases.Keys, aliases, name);
  }

  lemma OneFewer(all: set<string>, active: set<string>, name: string)
    ensures |all - (active + {name})| <= |all - active|
    ensures name in all && name !in active ==> |all - (active + {name})| < |all - active|
  {
    var rest := all - (active + {name});
    if name in all && name !in active {
      assert all - active == rest + {name};
    } else {
      assert all - active == rest;
    }
  }

  function Visit(t: Types, a: Annotation, path: string, models: set<string>, aliases: set<string>): seq<Violation>
    decreases Inactive(t, models, aliases), a, 1
  {
    match a
    case Alias(name) =>
      if name !in t.aliases then Report(t, a, path)
      else if name in aliases then []
      else
        Activate(t, models, aliases, name);
        Visit(t, t.aliases[name], path, models, aliases + {name})
    case Annotated(base) => Visit(t, base, path, models, aliases)
    case Union(members) => VisitMembers(t, members, path, models, aliases, false)
    case Collection(members) => VisitMembers(t, members, path, models, aliases, true)
    case FrozenMap(arguments) =>
      if |arguments| != 2 then Report(t, a, path)
      else
        Visit(t, arguments[0], path + ".key", models, aliases)
        + Visit(t, arguments[1], path + ".value", models, aliases)
    case Model(name) =>
      Report(t, a, path) +
      if name !in t.models || name in models then []
      else
        Activate(t, models, aliases, name);
        VisitFields(t, t.models[name].fields, path, models + {name}, aliases)
    case _ => Report(t, a, path)
  }

  function VisitMembers(
    t: Types, members: seq<Annotation>, path: string, models: set<string>, aliases: set<string>, skipEllipsis: bool)
    : seq<Violation>
    decreases Inactive(t, models, aliases), members, 0
  {
    if members == [] then []
    else
      (if skipEllipsis && members[0].Ellipsis? then [] else Visit(t, members[0], path, models, aliases))
      + VisitMembers(t, members[1..], path, models, aliases, skipEllipsis)
  }

  function VisitFields(t: Types, fields: seq<Field>, path: string, models: set<string>,
    aliases: set<string>): seq<Violation>
    decreases Inactive(t, models, aliases), fields, 0
  {
    if fields == [] then []
    else
      Visit(t, fields[0].annotation, FieldPath(path, fields[0].name), models, aliases)
      + VisitFields(t, fields[1..], path, models, aliases)
  }

  function AnnotationViolations(t: Types, root: Annotation): seq<Violation> {
    Visit(t, root, "", {}, {})
  }

  // ---------------------------------------------------------------------------
  // Reachability
  // ---------------------------------------------------------------------------

  /** An annotation at the path by which it is reached. */
  datatype Place = Place(annotation: Annotation, path: string)

  function MemberPlaces(members: seq<Annotation>, path: string, skipEllipsis: bool): seq<Place> {
    if members == [] then []
    else
      (if skipEllipsis && members[0].Ellipsis? then [] else [Place(members[0], path)])
      + MemberPlaces(members[1..], path, skipEllipsis)
  }

  function FieldPlaces(fields: seq<Field>, path: string): seq<Place> {
    if fields == [] then []
    else [Place(fields[0].annotation, FieldPath(path, fields[0].name))] + FieldPlaces(fields[1..], path)
  }

  /** The places one step away, cycles or not. */
  function Steps(t: Types, p: Place): seq<Place> {
    match p.annotation
    case Alias(name) => if name in t.aliases then [Place(t.aliases[name], p.path)] else []
    case Annotated(base) => [Place(base, p.path)]
    case Union(members) => MemberPlaces(members, p.path, false)
    case Collection(members) => MemberPlaces(members, p.path, true)
    case FrozenMap(arguments) =>
      if |arguments| == 2 then [Place(arguments[0], p.path + ".key"), Place(arguments[1], p.path + ".value")] else []
    case Model(name) => if name in t.models then FieldPlaces(t.models[name].fields, p.path) else []
    case _ => []
  }

  predicate IsTrail(t: Types, trail: seq<Place>) {
    trail != [] && (|trail| > 1 ==> trail[1] in Steps(t, trail[0]) && IsTrail(t, trail[1..]))
  }

  ghost predicate Reaches(t: Types, from: Place, to: Place) {
    exists trail :: IsTrail(t, trail) && trail[0] == from && trail[|trail| - 1] == to
  }

  lemma ReachesHere(t: Types, p: Place)
    ensures Reaches(t, p, p)
  {
    assert IsTrail(t, [p]) && [p][0] == p;
  }

  lemma ReachesOn(t: Types, p: Place, q: Place, r: Place)
    requires q in Steps(t, p) && Reaches(t, q, r)
    ensures Reaches(t, p, r)
  {
    var trail :| IsTrail(t, trail) && trail[0] == q && trail[|trail| - 1] == r;
    assert ([p] + trail)[1..] == trail;
    assert IsTrail(t, [p] + trail) && ([p] + trail)[0] == p;
  }

  // ---------------------------------------------------------------------------
  // Everything reported is there
  // ---------------------------------------------------------------------------

  lemma {:induction false} ReportedIsReached(
    t: Types, a: Annotation, path: string, models: set<string>, aliases: set<string>, v: Violation)
    requires v in Visit(t, a, path, models, aliases)
    ensures Mutable(t, v.annotation) && Reaches(t, Place(a, path), Place(v.annotation, v.path))
    decreases Inactive(t, models, aliases), a, 2
  {
    if v in Report(t, a, path) {
      ReachesHere(t, Place(a, path));
    } else {
      var q := PartIsReached(t, a, path, models, aliases, v);
      ReachesOn(t, Place(a, path), q, Place(v.annotation, v.path));
    }
  }

  /** What is not reported for the annotation itself is reached from a part of it. */
  lemma {:induction false} PartIsReached(
    t: Types, a: Annotation, path: string, models: set<string>, aliases: set<string>, v: Violation) returns (q: Place)
    requires v in Visit(t, a, path, models, aliases) && v !in Report(t, a, path)
    ensures q in Steps(t, Place(a, path))
    ensures Mutable(t, v.annotation) && Reaches(t, q, Place(v.annotation, v.path))
    decreases Inactive(t, models, aliases), a, 1
  {
    match a
    case Alias(name) =>
      Activate(t, models, aliases, name);
      q := Place(t.aliases[name], path);
      ReportedIsReached(t, t.aliases[name], path, models, aliases + {name}, v);
    case Annotated(base) =>
      q := Place(base, path);
      ReportedIsReached(t, base, path, models, aliases, v);
    case Union(members) => q := MemberIsReached(t, members, path, models, aliases, false, v);
    case Collection(members) => q := MemberIsReached(t, members, path, models, aliases, true, v);
    case FrozenMap(arguments) => q := ArgumentIsReached(t, a, path, models, aliases, v);
    case Model(name) =>
      Activate(t, models, aliases, name);
      q := FieldIsReached(t, t.models[name].fields, path, models + {name}, aliases, v);
  }

  lemma {:induction false} ArgumentIsReached(
    t: Types, a: Annotation, path: string, models: set<string>, aliases: set<string>, v: Violation) returns (q: Place)
    requires a.FrozenMap? && |a.arguments| == 2 && v in Visit(t, a, path, models, aliases)
    ensures q in Steps(t, Place(a, path))
    ensures Mutable(t, v.annotation) && Reaches(t, q, Place(v.annotation, v.path))
    decreases Inactive(t, models, aliases), a, 0
  {
    var key, value := Place(a.arguments[0], path + ".key"), Place(a.arguments[1], path + ".value");
    if v in Visit(t, key.annotation, key.path, models, aliases) {
      q := key;
      ReportedIsReached(t, key.annotation, key.path, models, aliases, v);
    } else {
      q := value;
      ReportedIsReached(t, value.annotation, value.path, models, aliases, v);
    }
  }

  lemma {:induction false} MemberIsReached(
    t: Types, members: seq<Annotation>, path: string, models: set<string>, aliases: set<string>, skip: bool,
      v: Violation)
    returns (q: Place)
    requires v in VisitMembers(t, members, path, models, aliases, skip)
    ensures q in MemberPlaces(members, path, skip)
    ensures Mutable(t, v.annotation) && Reaches(t, q, Place(v.annotation, v.path))
    decreases Inactive(t, models, aliases), members, 0
  {
    if v in VisitMembers(t, members[1..], path, models, aliases, skip) {
      q := MemberIsReached(t, members[1..], path, models, aliases, skip, v);
    } else {
      q := Place(members[0], path);
      ReportedIsReached(t, members[0], path, models, aliases, v);
    }
  }

  lemma {:induction false} FieldIsReached(
    t: Types, fields: seq<Field>, path: string, models: set<string>, aliases: set<string>, v: Violation)
    returns (q: Place)
    requires v in VisitFields(t, fields, path, models, aliases)
    ensures q in FieldPlaces(fields, path)
    ensures Mutable(t, v.annotation) && Reaches(t, q, Place(v.annotation, v.path))
    decreases Inactive(t, models, aliases), fields, 0
  {
    var first := Place(fields[0].annotation, FieldPath(path, fields[0].name));
    if v in VisitFields(t, fields[1..], path, models, aliases) {
      q := FieldIsReached(t, fields[1..], path, models, aliases, v);
    } else {
      q := first;
      ReportedIsReached(t, first.annotation, first.path, models, aliases, v);
    }
  }

  // ---------------------------------------------------------------------------
  // Everything mutable is reported
  // ---------------------------------------------------------------------------

  function AnnotationsOf(places: seq<Place>): seq<Annotation> {
    seq(|places|, i requires 0 <= i < |places| => places[i].annotation)
  }

  /** The annotations one step away, whatever the path. */
  function Next(t: Types, a: Annotation): seq<Annotation> {
    AnnotationsOf(Steps(t, Place(a, "")))
  }

  lemma AnnotationsOfMore(first: Place, rest: seq<Place>)
    ensures AnnotationsOf([first] + rest) == [first.annotation] + AnnotationsOf(rest)
  {
  }

  lemma {:induction false} MembersWhateverPath(members: seq<Annotation>, p: string, q: string, skip: bool)
    ensures AnnotationsOf(MemberPlaces(members, p, skip)) == AnnotationsOf(MemberPlaces(members, q, skip))
  {
    if members != [] {
      MembersWhateverPath(members[1..], p, q, skip);
      var restP, restQ := MemberPlaces(members[1..], p, skip), MemberPlaces(members[1..], q, skip);
      if !(skip && members[0].Ellipsis?) {
        AnnotationsOfMore(Place(members[0], p), restP);
        AnnotationsOfMore(Place(members[0], q), restQ);
      } else {
        assert [] + restP == restP && [] + restQ == restQ;
      }
    }
  }

  lemma {:induction false} FieldsWhateverPath(fields: seq<Field>, path: string)
    ensures |FieldPlaces(fields, path)| == |fields|
    ensures forall i :: 0 <= i < |fields| ==> FieldPlaces(fields, path)[i].annotation == fields[i].annotation
  {
    if fields != [] { FieldsWhateverPath(fields[1..], path); }
  }

  lemma NextWhateverPath(t: Types, p: Place)
    ensures AnnotationsOf(Steps(t, p)) == Next(t, p.annotation)
  {
    match p.annotation
    case Union(members) => MembersWhateverPath(members, p.path, "", false);
    case Collection(members) => MembersWhateverPath(members, p.path, "", true);
    case Model(name) =>
      if name in t.models {
        FieldsWhateverPath(t.models[name].fields, p.path);
        FieldsWhateverPath(t.models[name].fields, "");
      }
    case _ =>
  }

  predicate IsPath(t: Types, path: seq<Annotation>) {
    path != [] && (|path| > 1 ==> path[1] in Next(t, path[0]) && IsPath(t, path[1..]))
  }

  lemma {:induction false} TrailIsPath(t: Types, trail: seq<Place>)
    requires IsTrail(t, trail)
    ensures IsPath(t, AnnotationsOf(trail))
  {
    if |trail| > 1 {
      TrailIsPath(t, trail[1..]);
      assert AnnotationsOf(trail)[1..] == AnnotationsOf(trail[1..]);
      NextWhateverPath(t, trail[0]);
      var j :| 0 <= j < |Steps(t, trail[0])| && Steps(t, trail[0])[j] == trail[1];
      assert AnnotationsOf(Steps(t, trail[0]))[j] == AnnotationsOf(trail)[1];
    }
  }

  /** The path avoids what is active. */
  predicate Avoids(path: seq<Annotation>, models: set<string>, aliases: set<string>) {
    forall a :: a in path ==> (a.Model? ==> a.name !in models) && (a.Alias? ==> a.name !in aliases)
  }

  lemma {:induction false} MemberIsReported(
    t: Types, members: seq<Annotation>, path: string, models: set<string>, aliases: set<string>, skip: bool,
      a: Annotation)
    requires a in AnnotationsOf(MemberPlaces(members, "", skip))
    ensures forall v ::
      v in Visit(t, a, path, models, aliases) ==> v in VisitMembers(t, members, path, models, aliases, skip)
  {
    var first: seq<Place> := if skip && members[0].Ellipsis? then [] else [Place(members[0], "")];
    var rest := MemberPlaces(members[1..], "", skip);
    if first == [] || members[0] != a {
      var i :| 0 <= i < |first + rest| && (first + rest)[i].annotation == a;
      assert AnnotationsOf(rest)[i - |first|] == a;
      MemberIsReported(t, members[1..], path, models, aliases, skip, a);
    }
  }

  lemma {:induction false} FieldIsReported(
    t: Types, fields: seq<Field>, i: nat, path: string, models: set<string>, aliases: set<string>)
    requires i < |fields|
    ensures forall v :: v in Visit(t, fields[i].annotation, FieldPath(path, fields[i].name), models, aliases)
                        ==> v in VisitFields(t, fields, path, models, aliases)
  {
    if i > 0 { FieldIsReported(t, fields[1..], i - 1, path, models, aliases); }
  }

  /** A mutable annotation at the end of a path is reported, although the walk turns
      back at active models and aliases: the path after its last visit to one avoids it. */
  lemma {:induction false} MutableIsReported(
    t: Types, trail: seq<Annotation>, path: string, models: set<string>, aliases: set<string>) returns (v: Violation)
    requires IsPath(t, trail) && Avoids(trail, models, aliases) && Mutable(t, trail[|trail| - 1])
    ensures v in Visit(t, trail[0], path, models, aliases) && v.annotation == trail[|trail| - 1]
    decreases |trail|
  {
    var a := trail[0];
    v := Violation(path, a);
    var rest := AfterLast(t, trail, a, models, aliases);
    if rest != [] {
      var q, ms, names := PartReports(t, a, rest[0], path, models, aliases);
      v := MutableIsReported(t, rest, q, ms, names);
    }
  }

  /** What follows the last visit to an annotation on a path. */
  lemma {:induction false} AfterLast(
    t: Types, trail: seq<Annotation>, a: Annotation, models: set<string>, aliases: set<string>)
      returns (rest: seq<Annotation>)
    requires IsPath(t, trail) && Avoids(trail, models, aliases) && a in trail
    ensures |rest| < |trail| && a !in rest && Avoids(rest, models, aliases)
    ensures rest == [] ==> trail[|trail| - 1] == a
    ensures rest != [] ==> IsPath(t, rest) && rest[|rest| - 1] == trail[|trail| - 1] && rest[0] in Next(t, a)
    decreases |trail|
  {
    rest := trail[1..];
    assert trail == [trail[0]] + rest;
    if a in rest { rest := AfterLast(t, rest, a, models, aliases); }
  }

  /** An annotation that is not active hands on what a part of it reports. */
  lemma PartReports(t: Types, a: Annotation, part: Annotation, path: string, models: set<string>, aliases: set<string>)
    returns (q: string, ms: set<string>, names: set<string>)
    requires part in Next(t, a) && (a.Model? ==> a.name !in models) && (a.Alias? ==> a.name !in aliases)
    ensures ms == (if a.Model? then models + {a.name} else models)
    ensures names == (if a.Alias? then aliases + {a.name} else aliases)
    ensures forall v :: v in Visit(t, part, q, ms, names) ==> v in Visit(t, a, path, models, aliases)
  {
    q, ms, names := path, models, aliases;
    match a
    case Alias(name) => names := aliases + {name};
    case Annotated(base) =>
    case Union(members) => MemberIsReported(t, members, path, models, aliases, false, part);
    case Collection(members) => MemberIsReported(t, members, path, models, aliases, true, part);
    case FrozenMap(arguments) => q := path + if part == arguments[0] then ".key" else ".value";
    case Model(name) =>
      var fields := t.models[name].fields;
      FieldsWhateverPath(fields, "");
      var i :| 0 <= i < |fields| && fields[i].annotation == part;
      q, ms := FieldPath(path, fields[i].name), models + {name};
      FieldIsReported(t, fields, i, path, ms, aliases);
  }

  /** The walk reports exactly the mutable annotations that can be reached, and reports
      them at paths that lead to them. */
  lemma WalkIsExact(t: Types, root: Annotation, a: Annotation)
    ensures (exists path :: Violation(path, a) in AnnotationViolations(t, root))
       <==> Mutable(t, a) && exists path :: Reaches(t, Place(root, ""), Place(a, path))
  {
    if path :| Violation(path, a) in AnnotationViolations(t, root) {
      ReportedIsReached(t, root, "", {}, {}, Violation(path, a));
    }
    if path :| Mutable(t, a) && Reaches(t, Place(root, ""), Place(a, path)) {
      var trail :| IsTrail(t, trail) && trail[0] == Place(root, "") && trail[|trail| - 1] == Place(a, path);
      TrailIsPath(t, trail);
      var v := MutableIsReported(t, AnnotationsOf(trail), "", {}, {});
      assert v == Violation(v.path, a);
    }
  }

  /** Nothing is reported exactly if nothing mutable can be reached. */
  lemma NothingReportedExactly(t: Types, root: Annotation)
    ensures AnnotationViolations(t, root) == []
       <==> forall a, path :: Reaches(t, Place(root, ""), Place(a, path)) ==> !Mutable(t, a)
  {
    var all := AnnotationViolations(t, root);
    if all != [] {
      assert Violation(all[0].path, all[0].annotation) in all;
      WalkIsExact(t, root, all[0].annotation);
    }
    forall a, path | Reaches(t, Place(root, ""), Place(a, path)) && Mutable(t, a)
      ensures all != []
    {
      WalkIsExact(t, root, a);
    }
  }

  // ---------------------------------------------------------------------------
  // The walk in place
  // ---------------------------------------------------------------------------

  /** The walk as it runs: one list of violations, one set of active aliases that every
      visit restores. */
  class Walker {
    const types: Types
    var violations: seq<Violation>
    var activeAliases: set<string>

    constructor (types: Types)
      ensures this.types == types && violations == [] && activeAliases == {}
    {
      this.types := types;
      violations, activeAliases := [], {};
    }

    method ReportIfMutable(a: Annotation, path: string)
      modifies this`violations
      ensures violations == old(violations) + Report(types, a, path)
    {
      if Mutable(types, a) {
        violations := violations + [Violation(path, a)];
      }
    }

    method Walk(a: Annotation, path: string, models: set<string>)
      modifies this
      ensures activeAliases == old(activeAliases)
      ensures violations == old(violations) + Visit(types, a, path, models, old(activeAliases))
      decreases Inactive(types, models, activeAliases), a, 2
    {
      match a {
        case Alias(_) => WalkAlias(a, path, models);
        case Annotated(base) => Walk(base, path, models);
        case Union(members) => WalkMembers(members, path, models, false);
        case Collection(members) => WalkMembers(members, path, models, true);
        case FrozenMap(_) => WalkMap(a, path, models);
        case Model(_) => WalkModel(a, path, models);
        case _ => ReportIfMutable(a, path);
      }
    }

    method WalkAlias(a: Annotation, path: string, models: set<string>)
      requires a.Alias?
      modifies this
      ensures activeAliases == old(activeAliases)
      ensures violations == old(violations) + Visit(types, a, path, models, old(activeAliases))
      decreases Inactive(types, models, activeAliases), a, 1
    {
      if a.name !in types.aliases {
        ReportIfMutable(a, path);
      } else if a.name !in activeAliases {
        Activate(types, models, activeAliases, a.name);
        activeAliases := activeAliases + {a.name};
        Walk(types.aliases[a.name], path, models);
        activeAliases := activeAliases - {a.name};
      }
    }

    method WalkMap(a: Annotation, path: string, models: set<string>)
      requires a.FrozenMap?
      modifies this
      ensures activeAliases == old(activeAliases)
      ensures violations == old(violations) + Visit(types, a, path, models, old(activeAliases))
      decreases Inactive(types, models, activeAliases), a, 1
    {
      if |a.arguments| != 2 {
        ReportIfMutable(a, path);
      } else {
        ghost var before := violations;
        Walk(a.arguments[0], path + ".key", models);
        Walk(a.arguments[1], path + ".value", models);
        Associate(before, Visit(types, a.arguments[0], path + ".key", models, activeAliases),
                 Visit(types, a.arguments[1], path + ".value", models, activeAliases));
      }
    }

    method WalkModel(a: Annotation, path: string, models: set<string>)
      requires a.Model?
      modifies this
      ensures activeAliases == old(activeAliases)
      ensures violations == old(violations) + Visit(types, a, path, models, old(activeAliases))
      decreases Inactive(types, models, activeAliases), a, 1
    {
      ghost var before := violations;
      ReportIfMutable(a, path);
      if a.name !in types.models || a.name in models {
        assert Report(types, a, path) + [] == Report(types, a, path);
      } else {
        var fields := types.models[a.name].fields;
        Activate(types, models, activeAliases, a.name);
        WalkFields(fields, path, models + {a.name});
        Associate(before, Report(types, a, path), VisitFields(types, fields, path, models + {a.name}, activeAliases));
      }
    }

    method WalkMembers(members: seq<Annotation>, path: string, models: set<string>, skipEllipsis: bool)
      modifies this
      ensures activeAliases == old(activeAliases)
      ensures violations == old(violations)
        + VisitMembers(types, members, path, models, old(activeAliases), skipEllipsis)
      decreases Inactive(types, models, activeAliases), members, 0
    {
      ghost var goal := violations + VisitMembers(types, members, path, models, activeAliases, skipEllipsis);
      var i := 0;
      while i < |members|
        invariant 0 <= i <= |members| && activeAliases == old(activeAliases)
        invariant violations + VisitMembers(types, members[i..], path, models, activeAliases, skipEllipsis) == goal
      {
        assert members[i..][0] == members[i] && members[i..][1..] == members[i + 1..];
        ghost var before, rest := violations,
          VisitMembers(types, members[i + 1..], path, models, activeAliases, skipEllipsis);
        if !(skipEllipsis && members[i].Ellipsis?) {
          Walk(members[i], path, models);
          Associate(before, Visit(types, members[i], path, models, activeAliases), rest);
        } else {
          assert [] + rest == rest;
        }
        i := i + 1;
      }
    }

    method WalkFields(fields: seq<Field>, path: string, models: set<string>)
      modifies this
      ensures activeAliases == old(activeAliases)
      ensures violations == old(violations) + VisitFields(types, fields, path, models, old(activeAliases))
      decreases Inactive(types, models, activeAliases), fields, 0
    {
      ghost var goal := violations + VisitFields(types, fields, path, models, activeAliases);
      var i := 0;
      while i < |fields|
        invariant 0 <= i <= |fields| && activeAliases == old(activeAliases)
        invariant violations + VisitFields(types, fields[i..], path, models, activeAliases) == goal
      {
        assert fields[i..][0] == fields[i] && fields[i..][1..] == fields[i + 1..];
        ghost var before := violations;
        Walk(fields[i].annotation, FieldPath(path, fields[i].name), models);
        Associate(before, Visit(types, fields[i].annotation, FieldPath(path, fields[i].name), models, activeAliases),
                 VisitFields(types, fields[i + 1..], path, models, activeAliases));
        i := i + 1;
      }
    }
  }

  method ProjectionAnnotationViolations(types: Types, root: Annotation) returns (violations: seq<Violation>)
    ensures violations == AnnotationViolations(types, root)
  {
    var walker := new Walker(types);
    walker.Walk(root, "", {});
    violations := walker.violations;
  }
}
