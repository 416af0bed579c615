/** Sanitizing a JSON value, with a log of what was changed and where.

    Modelled on scripts/export_sanitized_graph_fixture.py, `_sanitize`.  */
module Sanitizer {
  import opened Common
  import HomeNames
  import opened JsonPointers

  datatype Member = Member(key: string, value: Value)

  /** A value as the JSON reader gives it; `Other` is a number, a truth value or null. */
  datatype Value = Object(members: seq<Member>) | Array(items: seq<Value>) | Text(text: string) | Other(other: int)

  /** A change: the event it is in, where, and both texts (the log has their digests and
      byte lengths). */
  datatype Change = Change(position: int, pointer: string, source: string, exported: string)

  // ---------------------------------------------------------------------------
  // Children and paths
  // ---------------------------------------------------------------------------

  function Arity(v: Value): nat {
    match v
    case Object(members) => |members|
    case Array(items) => |items|
    case _ => 0
  }

  function Child(v: Value, i: nat): Value
    requires i < Arity(v)
  {
    if v.Object? then v.members[i].value else v.items[i]
  }

  function Key(v: Value, i: nat): string
    requires i < Arity(v)
  {
    if v.Object? then v.members[i].key else Decimal(i)
  }

  /** The keys of an object are distinct, all the way down. */
  predicate Valid(v: Value)
    decreases v
  {
    && (v.Object? ==> forall i, j :: 0 <= i < j < |v.members| ==> v.members[i].key != v.members[j].key)
    && forall i :: 0 <= i < Arity(v) ==> Valid(Child(v, i))
  }

  lemma KeysDiffer(v: Value, i: nat, j: nat)
    requires Valid(v) && i < Arity(v) && j < Arity(v) && Key(v, i) == Key(v, j)
    ensures i == j
  {
    if v.Array? { DecimalsDiffer(i, j); }
  }

  /** The value is reached from the root by that path. */
  ghost predicate Reaches(v: Value, path: seq<string>, leaf: Value)
    decreases path
  {
    if path == [] then v == leaf
    else exists i :: 0 <= i < Arity(v) && Key(v, i) == path[0] && Reaches(Child(v, i), path[1..], leaf)
  }

  /** A path leads to one value at most. */
  lemma {:induction false} ReachesOne(v: Value, path: seq<string>, a: Value, b: Value)
    requires Valid(v) && Reaches(v, path, a) && Reaches(v, path, b)
    ensures a == b
    decreases path
  {
    if path != [] {
      var i :| 0 <= i < Arity(v) && Key(v, i) == path[0] && Reaches(Child(v, i), path[1..], a);
      var j :| 0 <= j < Arity(v) && Key(v, j) == path[0] && Reaches(Child(v, j), path[1..], b);
      KeysDiffer(v, i, j);
      ReachesOne(Child(v, i), path[1..], a, b);
    }
  }

  // ---------------------------------------------------------------------------
  // Sanitizing
  // ---------------------------------------------------------------------------

  function Clean(v: Value): Value
    decreases v
  {
    match v
    case Object(members) =>
      Object(seq(|members|, i requires 0 <= i < |members| => Member(members[i].key, Clean(members[i].value))))
    case Array(items) => Array(seq(|items|, i requires 0 <= i < |items| => Clean(items[i])))
    case Text(text) => Text(HomeNames.Clean(text))
    case Other(other) => v
  }

  /** A text that changes, and the path to it. */
  datatype Site = Site(path: seq<string>, text: string)

  /** The sites below a value that is itself at `path`, in the order of the walk. */
  function Sites(v: Value, path: seq<string>): seq<Site>
    decreases v, 1, 0
  {
    if v.Text? then (if HomeNames.Clean(v.text) == v.text then [] else [Site(path, v.text)])
    else if v.Other? then []
    else SitesFrom(v, 0, path)
  }

  function SitesFrom(v: Value, i: nat, path: seq<string>): seq<Site>
    requires i <= Arity(v)
    decreases v, 0, Arity(v) - i
  {
    if i == Arity(v) then []
    else Sites(Child(v, i), path + [Key(v, i)]) + SitesFrom(v, i + 1, path)
  }

  function LogOf(position: int, site: Site): Change {
    Change(position, Pointer(site.path), site.text, HomeNames.Clean(site.text))
  }

  function Log(position: int, sites: seq<Site>): (log: seq<Change>)
    ensures |log| == |sites| && forall k :: 0 <= k < |log| ==> log[k] == LogOf(position, sites[k])
  {
    seq(|sites|, k requires 0 <= k < |sites| => LogOf(position, sites[k]))
  }

  lemma LogAppend(position: int, a: seq<Site>, b: seq<Site>)
    ensures Log(position, a + b) == Log(position, a) + Log(position, b)
  {
  }

  // ---------------------------------------------------------------------------
  // The shape stays, and only texts change
  // ---------------------------------------------------------------------------

  lemma CleanChild(v: Value, i: nat)
    requires i < Arity(v)
    ensures Arity(Clean(v)) == Arity(v) && Key(Clean(v), i) == Key(v, i) && Child(Clean(v), i) == Clean(Child(v, i))
  {
  }

  lemma CleanArity(v: Value)
    ensures Arity(Clean(v)) == Arity(v)
  {
  }

  /** The path led to something whose clean form this is. */
  ghost predicate WasThere(v: Value, path: seq<string>, after: Value) {
    exists before :: Reaches(v, path, before) && Clean(before) == after
  }

  lemma {:induction false} CleanBelow(v: Value, path: seq<string>, after: Value)
    ensures Reaches(Clean(v), path, after) <==> WasThere(v, path, after)
    decreases path
  {
    CleanArity(v);
    if path == [] {
      assert Reaches(v, path, v);
    } else {
      forall i | 0 <= i < Arity(v)
        ensures Key(Clean(v), i) == Key(v, i) && Child(Clean(v), i) == Clean(Child(v, i))
        ensures Reaches(Child(Clean(v), i), path[1..], after)
           <==> WasThere(Child(v, i), path[1..], after)
      {
        CleanChild(v, i);
        CleanBelow(Child(v, i), path[1..], after);
      }
      ReachesStep(v, path, after);
    }
  }

  function KeysOf(members: seq<Member>): (keys: seq<string>)
    ensures |keys| == |members| && forall i :: 0 <= i < |keys| ==> keys[i] == members[i].key
  {
    seq(|members|, i requires 0 <= i < |members| => members[i].key)
  }

  /** What may stand at a path after, given what stood there before: an object with the same
      keys in the same order, an array of the same length, the text with its user names
      replaced, or the same number, truth value or null. */
  predicate Alike(before: Value, after: Value) {
    match before
    case Object(members) => after.Object? && KeysOf(after.members) == KeysOf(members)
    case Array(items) => after.Array? && |after.items| == |items|
    case Text(text) => after == Text(HomeNames.Clean(text))
    case Other(_) => after == before
  }

  lemma CleanIsAlike(v: Value)
    ensures Alike(v, Clean(v))
  {
    if v.Object? { assert KeysOf(Clean(v).members) == KeysOf(v.members); }
  }

  /** The path led to something like this ... */
  ghost predicate LedToAlike(v: Value, path: seq<string>, after: Value) {
    exists before :: Reaches(v, path, before) && Alike(before, after)
  }

  /** ... and leads to it still. */
  ghost predicate LeadsToAlike(v: Value, path: seq<string>, before: Value) {
    exists after :: Reaches(v, path, after) && Alike(before, after)
  }

  /** Exactly the same paths lead somewhere, and at each the shape stays, and all but user
      names in texts. */
  lemma ShapeStays(v: Value, path: seq<string>)
    ensures forall after :: Reaches(Clean(v), path, after) ==> LedToAlike(v, path, after)
    ensures forall before :: Reaches(v, path, before) ==> LeadsToAlike(Clean(v), path, before)
  {
    forall after | Reaches(Clean(v), path, after)
      ensures LedToAlike(v, path, after)
    {
      CleanBelow(v, path, after);
      var before :| Reaches(v, path, before) && Clean(before) == after;
      CleanIsAlike(before);
    }
    forall before | Reaches(v, path, before)
      ensures LeadsToAlike(Clean(v), path, before)
    {
      CleanBelow(v, path, Clean(before));
      assert WasThere(v, path, Clean(before));
      CleanIsAlike(before);
    }
  }

  /** So, keys being distinct, what a path leads to before and after are alike. */
  lemma AlikeEverywhere(v: Value, path: seq<string>, before: Value, after: Value)
    requires Valid(v) && Reaches(v, path, before) && Reaches(Clean(v), path, after)
    ensures Alike(before, after)
  {
    CleanBelow(v, path, after);
    var was := FoundThere(v, path, after);
    ReachesOne(v, path, was, before);
    CleanIsAlike(was);
  }

  lemma FoundThere(v: Value, path: seq<string>, after: Value) returns (was: Value)
    requires WasThere(v, path, after)
    ensures Reaches(v, path, was) && Clean(was) == after
  {
    was :| Reaches(v, path, was) && Clean(was) == after;
  }

  /** A number, truth value or null stands where it stood, and nowhere else. */
  lemma OthersStay(v: Value, path: seq<string>, n: int)
    ensures Reaches(Clean(v), path, Other(n)) <==> Reaches(v, path, Other(n))
  {
    CleanBelow(v, path, Other(n));
    if Reaches(v, path, Other(n)) { assert Clean(Other(n)) == Other(n) && WasThere(v, path, Other(n)); }
    if before :| Reaches(v, path, before) && Clean(before) == Other(n) {
      CleanIsAlike(before);
      assert before == Other(n);
    }
  }

  lemma ReachesStep(v: Value, path: seq<string>, after: Value)
    requires path != [] && Arity(Clean(v)) == Arity(v)
    requires forall i :: 0 <= i < Arity(v) ==> Key(Clean(v), i) == Key(v, i)
    requires forall i :: 0 <= i < Arity(v) ==>
      (Reaches(Child(Clean(v), i), path[1..], after)
       <==> WasThere(Child(v, i), path[1..], after))
    ensures Reaches(Clean(v), path, after) <==> WasThere(v, path, after)
  {
    if Reaches(Clean(v), path, after) {
      var i :| 0 <= i < Arity(v) && Key(Clean(v), i) == path[0] && Reaches(Child(Clean(v), i), path[1..], after);
      var before :| Reaches(Child(v, i), path[1..], before) && Clean(before) == after;
      assert Key(v, i) == path[0] && Reaches(v, path, before) && WasThere(v, path, after);
    }
    forall before | Reaches(v, path, before) && Clean(before) == after ensures Reaches(Clean(v), path, after) {
      var i :| 0 <= i < Arity(v) && Key(v, i) == path[0] && Reaches(Child(v, i), path[1..], before);
      assert Key(Clean(v), i) == path[0] && Reaches(Child(Clean(v), i), path[1..], after);
    }
  }

  /** Sanitizing what is sanitized changes nothing. */
  lemma {:induction false} CleanTwice(v: Value)
    ensures Clean(Clean(v)) == Clean(v)
    decreases v
  {
    match v
    case Object(members) =>
      forall i | 0 <= i < |members| ensures Clean(Clean(members[i].value)) == Clean(members[i].value) {
        CleanTwice(members[i].value);
      }
      assert Clean(Clean(v)).members == Clean(v).members;
    case Array(items) =>
      forall i | 0 <= i < |items| ensures Clean(Clean(items[i])) == Clean(items[i]) {
        CleanTwice(items[i]);
      }
      assert Clean(Clean(v)).items == Clean(v).items;
    case Text(text) => HomeNames.CleanTwice(text);
    case Other(_) =>
  }

  // ---------------------------------------------------------------------------
  // The log names exactly what changed
  // ---------------------------------------------------------------------------

  /** The site is below `path`, and the text there is one that changes. */
  ghost predicate IsSite(v: Value, path: seq<string>, site: Site) {
    && path <= site.path && Reaches(v, site.path[|path|..], Text(site.text))
    && HomeNames.Clean(site.text) != site.text
  }

  lemma {:induction false} SitesAreChanged(v: Value, path: seq<string>, site: Site)
    requires site in Sites(v, path)
    ensures IsSite(v, path, site)
    decreases v, 1, 0
  {
    if v.Text? {
      assert site.path[|path|..] == [];
    } else {
      SitesFromAreChanged(v, 0, path, site);
    }
  }

  lemma {:induction false} SitesFromAreChanged(v: Value, i: nat, path: seq<string>, site: Site)
    requires i <= Arity(v) && site in SitesFrom(v, i, path)
    ensures IsSite(v, path, site) && exists m :: i <= m < Arity(v) && path + [Key(v, m)] <= site.path
    decreases v, 0, Arity(v) - i
  {
    var here := path + [Key(v, i)];
    if site in Sites(Child(v, i), here) {
      SitesAreChanged(Child(v, i), here, site);
      var sub := site.path[|path|..];
      assert sub[0] == site.path[|path|] == here[|path|] && sub[1..] == site.path[|here|..];
      assert Reaches(v, sub, Text(site.text));
      assert path == here[..|path|];
    } else {
      SitesFromAreChanged(v, i + 1, path, site);
    }
  }

  lemma FirstKey(v: Value, path: seq<string>, leaf: Value) returns (i: nat)
    requires path != [] && Reaches(v, path, leaf)
    ensures i < Arity(v) && Key(v, i) == path[0] && Reaches(Child(v, i), path[1..], leaf)
  {
    i :| 0 <= i < Arity(v) && Key(v, i) == path[0] && Reaches(Child(v, i), path[1..], leaf);
  }

  /** Every text that changes is a site. */
  lemma {:induction false} ChangesAreSites(v: Value, path: seq<string>, sub: seq<string>, text: string)
    requires Reaches(v, sub, Text(text)) && HomeNames.Clean(text) != text
    ensures Site(path + sub, text) in Sites(v, path)
    decreases v
  {
    if sub == [] {
      assert path + sub == path;
    } else {
      var i := FirstKey(v, sub, Text(text));
      ChangesAreSites(Child(v, i), path + [Key(v, i)], sub[1..], text);
      KeyThenRest(path, sub);
      InSitesFrom(v, 0, i, path, Site(path + sub, text));
    }
  }

  lemma KeyThenRest(path: seq<string>, sub: seq<string>)
    requires sub != []
    ensures path + [sub[0]] + sub[1..] == path + sub
  {
  }

  lemma {:induction false} InSitesFrom(v: Value, i: nat, m: nat, path: seq<string>, site: Site)
    requires i <= m < Arity(v) && site in Sites(Child(v, m), path + [Key(v, m)])
    ensures site in SitesFrom(v, i, path)
    decreases m - i
  {
    if i < m {
      InSitesFrom(v, i + 1, m, path, site);
      InLaterSites(v, i, path, site);
    } else {
      InFirstSites(v, i, path, site);
    }
  }

  lemma InFirstSites(v: Value, i: nat, path: seq<string>, site: Site)
    requires i < Arity(v) && site in Sites(Child(v, i), path + [Key(v, i)])
    ensures site in SitesFrom(v, i, path)
  {
    InEither(Sites(Child(v, i), path + [Key(v, i)]), SitesFrom(v, i + 1, path), site);
  }

  lemma InLaterSites(v: Value, i: nat, path: seq<string>, site: Site)
    requires i < Arity(v) && site in SitesFrom(v, i + 1, path)
    ensures site in SitesFrom(v, i, path)
  {
    InEither(Sites(Child(v, i), path + [Key(v, i)]), SitesFrom(v, i + 1, path), site);
  }

  lemma InEither(a: seq<Site>, b: seq<Site>, site: Site)
    ensures site in a + b <==> site in a || site in b
  {
  }

  predicate DistinctPaths(sites: seq<Site>) {
    forall j, k :: 0 <= j < k < |sites| ==> sites[j].path != sites[k].path
  }

  lemma {:induction false} SitesAreDistinct(v: Value, path: seq<string>)
    requires Valid(v)
    ensures DistinctPaths(Sites(v, path))
    decreases v, 1, 0
  {
    if !v.Text? && !v.Other? { SitesFromAreDistinct(v, 0, path); }
  }

  lemma {:induction false} SitesFromAreDistinct(v: Value, i: nat, path: seq<string>)
    requires Valid(v) && i <= Arity(v)
    ensures DistinctPaths(SitesFrom(v, i, path))
    decreases v, 0, Arity(v) - i
  {
    if i < Arity(v) {
      var here := path + [Key(v, i)];
      var first, rest := Sites(Child(v, i), here), SitesFrom(v, i + 1, path);
      SitesAreDistinct(Child(v, i), here);
      SitesFromAreDistinct(v, i + 1, path);
      forall a, b | a in first && b in rest ensures a.path != b.path {
        SitesAreChanged(Child(v, i), here, a);
        SitesFromAreChanged(v, i + 1, path, b);
        var m :| i + 1 <= m < Arity(v) && path + [Key(v, m)] <= b.path;
        assert a.path[|path|] == here[|path|] == Key(v, i)
          && b.path[|path|] == (path + [Key(v, m)])[|path|] == Key(v, m);
        if Key(v, i) == Key(v, m) { KeysDiffer(v, i, m); }
      }
      DistinctTogether(first, rest);
    }
  }

  lemma DistinctTogether(a: seq<Site>, b: seq<Site>)
    requires DistinctPaths(a) && DistinctPaths(b) && forall x, y :: x in a && y in b ==> x.path != y.path
    ensures DistinctPaths(a + b)
  {
  }

  /** The first path comes first where the two part. */
  ghost predicate Precedes(v: Value, a: seq<string>, b: seq<string>)
    decreases a
  {
    && a != [] && b != []
    && exists i, j ::
      && 0 <= i <= j < Arity(v) && Key(v, i) == a[0] && Key(v, j) == b[0]
      && (i < j || Precedes(Child(v, i), a[1..], b[1..]))
  }

  ghost predicate InOrder(v: Value, path: seq<string>, sites: seq<Site>) {
    && (forall k :: 0 <= k < |sites| ==> path <= sites[k].path)
    && (forall j, k :: 0 <= j < k < |sites| ==> Precedes(v, sites[j].path[|path|..], sites[k].path[|path|..]))
  }

  /** Sites come in the order in which a reader meets them. */
  lemma {:induction false} SitesAreInOrder(v: Value, path: seq<string>)
    ensures InOrder(v, path, Sites(v, path))
    decreases v, 1, 0
  {
    if v.Object? || v.Array? { SitesFromAreInOrder(v, 0, path); }
  }

  lemma {:induction false} SitesFromAreInOrder(v: Value, i: nat, path: seq<string>)
    requires i <= Arity(v)
    ensures InOrder(v, path, SitesFrom(v, i, path))
    decreases v, 0, Arity(v) - i
  {
    if i < Arity(v) {
      var here := path + [Key(v, i)];
      var first, rest := Sites(Child(v, i), here), SitesFrom(v, i + 1, path);
      SitesAreInOrder(Child(v, i), here);
      SitesFromAreInOrder(v, i + 1, path);
      forall k | 0 <= k < |first|
        ensures path <= first[k].path
      {
        assert here <= first[k].path;
        assert path == here[..|path|];
      }
      forall j, k | 0 <= j < k < |first|
        ensures Precedes(v, first[j].path[|path|..], first[k].path[|path|..])
      {
        PrecedesBelow(v, i, path, first[j].path, first[k].path);
      }
      forall j, k | 0 <= j < |first| && 0 <= k < |rest|
        ensures Precedes(v, first[j].path[|path|..], rest[k].path[|path|..])
      {
        PrecedesLater(v, i, path, first[j].path, rest[k]);
      }
      OrderedTogether(v, path, first, rest);
    }
  }

  lemma PrecedesBelow(v: Value, i: nat, path: seq<string>, a: seq<string>, b: seq<string>)
    requires i < Arity(v) && path + [Key(v, i)] <= a && path + [Key(v, i)] <= b
    requires Precedes(Child(v, i), a[|path| + 1..], b[|path| + 1..])
    ensures Precedes(v, a[|path|..], b[|path|..])
  {
    var here := path + [Key(v, i)];
    assert a[|path|] == here[|path|] && b[|path|] == here[|path|];
    assert a[|path|..][1..] == a[|path| + 1..] && b[|path|..][1..] == b[|path| + 1..];
  }

  lemma PrecedesLater(v: Value, i: nat, path: seq<string>, a: seq<string>, site: Site)
    requires i < Arity(v) && path + [Key(v, i)] <= a && site in SitesFrom(v, i + 1, path)
    ensures path <= site.path && Precedes(v, a[|path|..], site.path[|path|..])
  {
    SitesFromAreChanged(v, i + 1, path, site);
    var m :| i + 1 <= m < Arity(v) && path + [Key(v, m)] <= site.path;
    FirstOf(path, Key(v, i), a);
    FirstOf(path, Key(v, m), site.path);
    PrecedesAt(v, i, m, a[|path|..], site.path[|path|..]);
  }

  lemma FirstOf(path: seq<string>, key: string, a: seq<string>)
    requires path + [key] <= a
    ensures path <= a && a[|path|..] != [] && a[|path|..][0] == key
  {
    assert a[|path|] == (path + [key])[|path|];
    assert path == (path + [key])[..|path|];
  }

  lemma PrecedesAt(v: Value, i: nat, m: nat, a: seq<string>, b: seq<string>)
    requires i < m < Arity(v) && a != [] && b != [] && a[0] == Key(v, i) && b[0] == Key(v, m)
    ensures Precedes(v, a, b)
  {
  }

  lemma OrderedTogether(v: Value, path: seq<string>, a: seq<Site>, b: seq<Site>)
    requires forall k :: 0 <= k < |a| ==> path <= a[k].path
    requires forall j, k :: 0 <= j < k < |a| ==> Precedes(v, a[j].path[|path|..], a[k].path[|path|..])
    requires InOrder(v, path, b)
    requires forall j, k :: 0 <= j < |a| && 0 <= k < |b| ==> Precedes(v, a[j].path[|path|..], b[k].path[|path|..])
    ensures InOrder(v, path, a + b)
  {
  }

  /** For any value but a lone text, so for every event: each entry's pointer reads back as the path of a text
      that changed, from and to the texts it gives; every text that changed has an entry;
      and no two entries have the same pointer. */
  lemma LogIsExact(v: Value, position: int)
    requires Valid(v) && !v.Text?
    ensures var log := Log(position, Sites(v, []));
      && (forall k :: 0 <= k < |log| ==>
            && Reaches(v, Decode(log[k].pointer), Text(log[k].source))
            && Reaches(Clean(v), Decode(log[k].pointer), Text(log[k].exported))
            && log[k].source != log[k].exported)
      && (forall path, text :: Reaches(v, path, Text(text)) && HomeNames.Clean(text) != text ==>
            Change(position, Pointer(path), text, HomeNames.Clean(text)) in log)
      && (forall j, k :: 0 <= j < k < |log| ==> log[j].pointer != log[k].pointer)
  {
    var sites := Sites(v, []);
    forall k | 0 <= k < |sites|
      ensures EntryIsRight(v, position, sites[k])
    {
      EntriesAreRight(v, position, sites[k]);
    }
    forall path, text | Reaches(v, path, Text(text)) && HomeNames.Clean(text) != text
      ensures Change(position, Pointer(path), text, HomeNames.Clean(text)) in Log(position, sites)
    {
      ChangeIsLogged(v, position, path, text);
    }
    PointersAreDistinct(v, position);
  }

  lemma ChangeIsLogged(v: Value, position: int, path: seq<string>, text: string)
    requires Reaches(v, path, Text(text)) && HomeNames.Clean(text) != text
    ensures Change(position, Pointer(path), text, HomeNames.Clean(text)) in Log(position, Sites(v, []))
  {
    var sites := Sites(v, []);
    ChangesAreSites(v, [], path, text);
    assert [] + path == path;
    var k :| 0 <= k < |sites| && sites[k] == Site(path, text);
    assert Log(position, sites)[k] == LogOf(position, sites[k]);
  }

  lemma PointersAreDistinct(v: Value, position: int)
    requires Valid(v) && !v.Text?
    ensures var sites := Sites(v, []);
      forall j, k :: 0 <= j < k < |sites| ==> Pointer(sites[j].path) != Pointer(sites[k].path)
  {
    var sites := Sites(v, []);
    SitesAreDistinct(v, []);
    forall j, k | 0 <= j < k < |sites|
      ensures Pointer(sites[j].path) != Pointer(sites[k].path)
    {
      EntriesAreRight(v, position, sites[j]);
      EntriesAreRight(v, position, sites[k]);
      PointersDiffer(sites[j].path, sites[k].path);
    }
  }

  ghost predicate EntryIsRight(v: Value, position: int, site: Site) {
    var c := LogOf(position, site);
    && site.path != []
    && Reaches(v, Decode(c.pointer), Text(c.source)) && Reaches(Clean(v), Decode(c.pointer), Text(c.exported))
    && c.source != c.exported
  }

  lemma EntriesAreRight(v: Value, position: int, site: Site)
    requires !v.Text? && site in Sites(v, [])
    ensures EntryIsRight(v, position, site)
  {
    SitesAreChanged(v, [], site);
    assert site.path[0..] == site.path;
    assert site.path != [];
    DecodeOfPointer(site.path);
    CleanBelow(v, site.path, Text(HomeNames.Clean(site.text)));
    assert Clean(Text(site.text)) == Text(HomeNames.Clean(site.text));
  }

  /** Nothing is logged exactly if nothing changed. */
  lemma {:induction false} UnloggedExactly(v: Value, path: seq<string>)
    ensures Sites(v, path) == [] <==> Clean(v) == v
    decreases v, 1, 0
  {
    if v.Object? || v.Array? {
      UnloggedFrom(v, 0, path);
      SameExactly(v);
    }
  }

  /** The children from the i-th on come out as they were. */
  predicate SameFrom(v: Value, i: nat) {
    forall k :: i <= k < Arity(v) ==> Clean(Child(v, k)) == Child(v, k)
  }

  lemma SameFromNext(v: Value, i: nat)
    requires i < Arity(v)
    ensures SameFrom(v, i) <==> Clean(Child(v, i)) == Child(v, i) && SameFrom(v, i + 1)
  {
  }

  lemma {:induction false} UnloggedFrom(v: Value, i: nat, path: seq<string>)
    requires i <= Arity(v)
    ensures SitesFrom(v, i, path) == [] <==> SameFrom(v, i)
    decreases v, 0, Arity(v) - i
  {
    if i < Arity(v) {
      UnloggedExactly(Child(v, i), path + [Key(v, i)]);
      UnloggedFrom(v, i + 1, path);
      SameFromNext(v, i);
    }
  }

  /** A value stays the same exactly if all its children do. */
  lemma SameExactly(v: Value)
    requires v.Object? || v.Array?
    ensures Clean(v) == v <==> SameFrom(v, 0)
  {
    CleanArity(v);
    forall k | 0 <= k < Arity(v)
      ensures Child(Clean(v), k) == Clean(Child(v, k)) && Key(Clean(v), k) == Key(v, k)
    {
      CleanChild(v, k);
    }
    if SameFrom(v, 0) {
      if v.Object? {
        forall k | 0 <= k < |v.members|
          ensures Clean(v).members[k] == v.members[k]
        {
          assert Clean(Child(v, k)) == Child(v, k);
        }
        assert Clean(v).members == v.members;
      } else {
        forall k | 0 <= k < |v.items|
          ensures Clean(v).items[k] == v.items[k]
        {
          assert Clean(Child(v, k)) == Child(v, k);
        }
        assert Clean(v).items == v.items;
      }
    }
  }

  /** The one text a pointer of the log does not lead to: a root that is itself a text. */
  lemma RootTextIsMisplaced(text: string, position: int)
    requires HomeNames.Clean(text) != text
    ensures Log(position, Sites(Text(text), [])) == [Change(position, "/", text, HomeNames.Clean(text))]
    ensures forall leaf :: !Reaches(Text(text), Decode("/"), leaf)
  {
    assert Pointer([]) == "/";
    assert Decode("/") != [];
  }

  // ---------------------------------------------------------------------------
  // The recursion with its growing outputs
  // ---------------------------------------------------------------------------

  method Sanitize(value: Value, position: int, path: seq<string>) returns (output: Value, changes: seq<Change>)
    ensures output == Clean(value) && changes == Log(position, Sites(value, path))
    ensures changes == [] <==> output == value
    decreases value, 1
  {
    UnloggedExactly(value, path);
    changes := [];
    match value {
      case Object(_) => output, changes := SanitizeObject(value, position, path);
      case Array(_) => output, changes := SanitizeArray(value, position, path);
      case Text(text) =>
        var clean := HomeNames.Clean(text);
        if clean == text { return value, []; }
        output, changes := Text(clean), [Change(position, Pointer(path), text, clean)];
      case Other(_) =>
        output := value;
    }
  }

  predicate MembersDone(members: seq<Member>, done: seq<Member>) {
    |done| <= |members| && forall k :: 0 <= k < |done| ==> done[k] == Member(members[k].key, Clean(members[k].value))
  }

  lemma AllMembersDone(value: Value, done: seq<Member>)
    requires value.Object? && MembersDone(value.members, done) && |done| == |value.members|
    ensures Object(done) == Clean(value)
  {
    assert done == Clean(value).members;
  }

  method SanitizeObject(value: Value, position: int, path: seq<string>) returns (output: Value, changes: seq<Change>)
    requires value.Object?
    ensures output == Clean(value) && changes == Log(position, Sites(value, path))
    decreases value, 0
  {
    var members := value.members;
    var done: seq<Member> := [];
    changes := [];
    var i := 0;
    while i < |members|
      invariant 0 <= i <= |members| && |done| == i && MembersDone(members, done)
      invariant changes + Log(position, SitesFrom(value, i, path)) == Log(position, SitesFrom(value, 0, path))
    {
      var clean, nested := Sanitize(members[i].value, position, path + [members[i].key]);
      NextLog(value, i, position, path, changes);
      done, changes := done + [Member(members[i].key, clean)], changes + nested;
      i := i + 1;
    }
    output := Object(done);
    AllMembersDone(value, done);
  }

  method SanitizeArray(value: Value, position: int, path: seq<string>) returns (output: Value, changes: seq<Change>)
    requires value.Array?
    ensures output == Clean(value) && changes == Log(position, Sites(value, path))
    decreases value, 0
  {
    var items := value.items;
    var done: seq<Value> := [];
    changes := [];
    var i := 0;
    while i < |items|
      invariant 0 <= i <= |items| && |done| == i
      invariant CleanUpTo(items, done)
      invariant changes + Log(position, SitesFrom(value, i, path)) == Log(position, SitesFrom(value, 0, path))
    {
      var clean, nested := Sanitize(items[i], position, path + [Decimal(i)]);
      NextLog(value, i, position, path, changes);
      CleanOneMore(items, done, clean);
      done, changes := done + [clean], changes + nested;
      i := i + 1;
    }
    output := Array(done);
    AllItemsClean(value, done);
  }

  ghost predicate CleanUpTo(items: seq<Value>, done: seq<Value>) {
    |done| <= |items| && forall k :: 0 <= k < |done| ==> done[k] == Clean(items[k])
  }

  lemma CleanOneMore(items: seq<Value>, done: seq<Value>, clean: Value)
    requires CleanUpTo(items, done) && |done| < |items| && clean == Clean(items[|done|])
    ensures CleanUpTo(items, done + [clean])
  {
  }

  lemma AllItemsClean(value: Value, done: seq<Value>)
    requires value.Array? && |done| == |value.items| && CleanUpTo(value.items, done)
    ensures Clean(value) == Array(done)
  {
    assert done == Clean(value).items;
  }

  lemma NextLog(v: Value, i: nat, position: int, path: seq<string>, sofar: seq<Change>)
    requires i < Arity(v)
    ensures sofar + Log(position, SitesFrom(v, i, path))
         == (sofar + Log(position, Sites(Child(v, i), path + [Key(v, i)]))) + Log(position, SitesFrom(v, i + 1, path))
  {
    var here, rest := Sites(Child(v, i), path + [Key(v, i)]), SitesFrom(v, i + 1, path);
    LogAppend(position, here, rest);
    Associate(sofar, Log(position, here), Log(position, rest));
  }
}
