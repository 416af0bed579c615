/** The parser with its stack of open sections, and the rule it follows: a heading
    belongs under the nearest heading before it that is strictly shallower.

    Modelled on routines/idea-to-plan-scoped/scripts/extract_ctx.py, `parse_document`.  */
module OutlineParser {
  import opened Outline

  // ---------------------------------------------------------------------------
  // The nearest shallower heading
  // ---------------------------------------------------------------------------

  function Levels(es: seq<Entry>): (levels: seq<nat>)
    ensures |levels| == |es|
  {
    seq(|es|, i requires 0 <= i < |es| => es[i].Depth())
  }

  /** The last of the first `k` headings that is shallower than `level`, or -1. */
  function NearestLower(levels: seq<nat>, k: nat, level: nat): (p: int)
    requires k <= |levels|
    ensures -1 <= p < k
    ensures p >= 0 ==> levels[p] < level
    ensures forall j :: p < j < k ==> levels[j] >= level
  {
    if k == 0 then -1 else if levels[k - 1] < level then k - 1 else NearestLower(levels, k - 1, level)
  }

  function ParentOf(levels: seq<nat>, j: nat): int
    requires j < |levels|
  {
    NearestLower(levels, j, levels[j])
  }

  /** The parent, in preorder, of each section of a forest that starts at position `at`
      under `parent`. */
  function Parents(forest: seq<Section>, at: nat, parent: int): seq<int> {
    if forest == [] then []
    else
      [parent] + Parents(forest[0].children, at + 1, at)
      + Parents(forest[1..], at + 1 + |Preorder(forest[0].children)|, parent)
  }

  /** A stretch of headings whose parents are `parent` or within the stretch. */
  predicate SelfContained(levels: seq<nat>, lo: nat, hi: nat, parent: int)
    requires lo <= hi <= |levels|
  {
    forall j :: lo <= j < hi ==> ParentOf(levels, j) == parent || lo <= ParentOf(levels, j) < j
  }

  /** No heading after the stretch has its parent in it. */
  predicate Finished(levels: seq<nat>, lo: nat, hi: nat)
    requires lo <= hi <= |levels|
  {
    forall j :: hi <= j < |levels| ==> !(lo <= ParentOf(levels, j) < hi)
  }

  /** `k` ends the section of heading `lo`: what is in between is deeper. */
  predicate EndsSection(levels: seq<nat>, lo: nat, k: nat, hi: nat)
    requires lo < k <= hi <= |levels|
  {
    (forall j :: lo < j < k ==> levels[j] > levels[lo]) && (k < hi ==> levels[k] <= levels[lo])
  }

  lemma ExtentEndsSection(es: seq<Entry>, lo: nat, k: nat, hi: nat)
    requires lo < k <= hi <= |es| && k == lo + Extent(es[lo..hi])
    ensures EndsSection(Levels(es), lo, k, hi)
  {
    var stretch := es[lo..hi];
    assert forall j :: lo < j < k ==> stretch[j - lo] == es[j];
    if k < hi { assert stretch[k - lo] == es[k]; }
  }

  lemma ParentInside(levels: seq<nat>, lo: nat, k: nat, hi: nat, j: nat)
    requires lo < k <= hi <= |levels| && EndsSection(levels, lo, k, hi) && lo < j < k
    ensures lo <= ParentOf(levels, j) < j
  {
  }

  lemma ParentOutside(levels: seq<nat>, lo: nat, k: nat, hi: nat, j: nat)
    requires lo < k < hi <= |levels| && EndsSection(levels, lo, k, hi) && k <= j < |levels|
    ensures !(lo <= ParentOf(levels, j) < k)
  {
  }

  /** Taking off the first section of a stretch leaves two stretches. */
  lemma SectionParts(levels: seq<nat>, lo: nat, k: nat, hi: nat, parent: int)
    requires lo < k <= hi <= |levels| && EndsSection(levels, lo, k, hi)
    requires SelfContained(levels, lo, hi, parent) && parent < lo
    ensures ParentOf(levels, lo) == parent
    ensures SelfContained(levels, lo + 1, k, lo) && SelfContained(levels, k, hi, parent)
    ensures forall j :: k <= j < hi ==> ParentOf(levels, j) != lo
  {
    forall j | lo < j < k ensures ParentOf(levels, j) == lo || lo + 1 <= ParentOf(levels, j) < j {
      ParentInside(levels, lo, k, hi, j);
    }
    forall j | k <= j < hi ensures !(lo <= ParentOf(levels, j) < k) { ParentOutside(levels, lo, k, hi, j); }
  }

  lemma FinishedParts(levels: seq<nat>, lo: nat, k: nat, hi: nat)
    requires lo < k <= hi <= |levels| && EndsSection(levels, lo, k, hi) && Finished(levels, lo, hi)
    ensures Finished(levels, lo + 1, k) && Finished(levels, k, hi)
    ensures forall j :: k <= j < |levels| ==> ParentOf(levels, j) != lo
  {
    forall j | k <= j < |levels| ensures !(lo <= ParentOf(levels, j) < k) {
      if k < hi { ParentOutside(levels, lo, k, hi, j); }
    }
  }

  lemma FirstSection(es: seq<Entry>, lo: nat, hi: nat, parent: int) returns (k: nat)
    requires lo < hi <= |es| && SelfContained(Levels(es), lo, hi, parent)
    requires parent < lo
    ensures lo < k <= hi && k == lo + Extent(es[lo..hi])
    ensures ParentOf(Levels(es), lo) == parent
    ensures SelfContained(Levels(es), lo + 1, k, lo)
    ensures SelfContained(Levels(es), k, hi, parent)
    ensures Finished(Levels(es), lo, hi) ==> Finished(Levels(es), lo + 1, k) && Finished(Levels(es), k, hi)
    ensures forall j :: k <= j < hi ==> ParentOf(Levels(es), j) != lo
    ensures Finished(Levels(es), lo, hi) ==> forall j :: k <= j < |es| ==> ParentOf(Levels(es), j) != lo
  {
    k := lo + Extent(es[lo..hi]);
    ExtentEndsSection(es, lo, k, hi);
    SectionParts(Levels(es), lo, k, hi, parent);
    if Finished(Levels(es), lo, hi) { FinishedParts(Levels(es), lo, k, hi); }
  }

  function ParentsIn(levels: seq<nat>, lo: nat, hi: nat): seq<int>
    requires lo <= hi <= |levels|
  {
    seq(hi - lo, i requires 0 <= i < hi - lo => ParentOf(levels, lo + i))
  }

  lemma ParentsInSplit(levels: seq<nat>, lo: nat, k: nat, hi: nat)
    requires lo < k <= hi <= |levels|
    ensures ParentsIn(levels, lo, hi)
      == [ParentOf(levels, lo)] + ParentsIn(levels, lo + 1, k) + ParentsIn(levels, k, hi)
  {
  }

  /** The built forest follows the rule. */
  lemma {:induction false} BuildFollowsRule(es: seq<Entry>, lo: nat, hi: nat, parent: int)
    requires lo <= hi <= |es| && parent < lo && SelfContained(Levels(es), lo, hi, parent)
    ensures Parents(Build(es[lo..hi]), lo, parent) == ParentsIn(Levels(es), lo, hi)
    decreases hi - lo
  {
    if lo < hi {
      var k := FirstSection(es, lo, hi, parent);
      BuildFollowsRule(es, lo + 1, k, lo);
      BuildFollowsRule(es, k, hi, parent);
      StretchParents(es, lo, k, hi, parent);
      ParentsInSplit(Levels(es), lo, k, hi);
    }
  }

  lemma ParentsOfFirst(forest: seq<Section>, first: Section, rest: seq<Section>, at: nat, k: nat, parent: int)
    requires forest == [first] + rest && k == at + 1 + |Preorder(first.children)|
    ensures Parents(forest, at, parent) == [parent] + Parents(first.children, at + 1, at) + Parents(rest, k, parent)
  {
    assert forest[1..] == rest;
  }

  lemma StretchParents(es: seq<Entry>, lo: nat, k: nat, hi: nat, parent: int)
    requires lo < k <= hi <= |es| && k == lo + Extent(es[lo..hi])
    ensures Parents(Build(es[lo..hi]), lo, parent)
         == [parent] + Parents(Build(es[lo + 1..k]), lo + 1, lo) + Parents(Build(es[k..hi]), k, parent)
  {
    var forest, inner, outer := Build(es[lo..hi]), Build(es[lo + 1..k]), Build(es[k..hi]);
    StretchBuilds(es, lo, k, hi);
    PreorderOfBuild(es[lo + 1..k]);
    ParentsOfFirst(forest, Section(es[lo].raw, es[lo].body, inner), outer, lo, k, parent);
  }

  lemma SliceOfSlice<T>(a: seq<T>, lo: nat, k: nat, hi: nat)
    requires lo < k <= hi <= |a|
    ensures a[lo..hi][1..k - lo] == a[lo + 1..k] && a[lo..hi][k - lo..] == a[k..hi] && a[lo..hi][0] == a[lo]
  {
    var part := a[lo..hi];
    assert forall j :: 0 <= j < |part| ==> part[j] == a[lo + j];
  }

  lemma StretchBuilds(es: seq<Entry>, lo: nat, k: nat, hi: nat)
    requires lo < k <= hi <= |es| && k == lo + Extent(es[lo..hi])
    ensures Build(es[lo..hi]) == [Section(es[lo].raw, es[lo].body, Build(es[lo + 1..k]))] + Build(es[k..hi])
  {
    SliceOfSlice(es, lo, k, hi);
    BuildOfPartsNamed(es[lo..hi], k - lo, es[lo], es[lo + 1..k], es[k..hi]);
  }

  lemma BuildOfPartsNamed(es: seq<Entry>, n: nat, head: Entry, inner: seq<Entry>, outer: seq<Entry>)
    requires es != [] && n == Extent(es) && es[0] == head && es[1..n] == inner && es[n..] == outer
    ensures Build(es) == [Section(head.raw, head.body, Build(inner))] + Build(outer)
  {
    BuildOfParts(es, n);
  }

  /** In every parsed document the parent of a heading is the nearest heading before it
      that is strictly shallower, and a heading is a root exactly if there is none. */
  lemma ParsedParents(lines: seq<string>)
    ensures var es := Split(lines).entries;
      Parents(Parse(lines).roots, 0, -1) == seq(|es|, j requires 0 <= j < |es| => ParentOf(Levels(es), j))
  {
    var es := Split(lines).entries;
    assert es[0..|es|] == es;
    BuildFollowsRule(es, 0, |es|, -1);
  }

  // ---------------------------------------------------------------------------
  // Children, and the chain of open sections
  // ---------------------------------------------------------------------------

  /** The headings from `lo` to `hi` whose parent is `parent`. */
  function KidsIn(levels: seq<nat>, lo: nat, hi: nat, parent: int): (kids: seq<nat>)
    requires lo <= hi <= |levels|
    ensures forall k :: 0 <= k < |kids| ==> lo <= kids[k] < hi
    decreases hi - lo
  {
    if lo == hi then []
    else (if ParentOf(levels, lo) == parent then [lo] else []) + KidsIn(levels, lo + 1, hi, parent)
  }

  lemma {:induction false} KidsSplit(levels: seq<nat>, lo: nat, k: nat, hi: nat, parent: int)
    requires lo <= k <= hi <= |levels|
    ensures KidsIn(levels, lo, hi, parent) == KidsIn(levels, lo, k, parent) + KidsIn(levels, k, hi, parent)
    decreases hi - lo
  {
    if lo < k { KidsSplit(levels, lo + 1, k, hi, parent); }
  }

  lemma {:induction false} NoKids(levels: seq<nat>, lo: nat, hi: nat, parent: int)
    requires lo <= hi <= |levels| && forall j :: lo <= j < hi ==> ParentOf(levels, j) != parent
    ensures KidsIn(levels, lo, hi, parent) == []
    decreases hi - lo
  {
    if lo < hi { NoKids(levels, lo + 1, hi, parent); }
  }

  lemma {:induction false} NearestInPrefix(levels: seq<nat>, more: seq<nat>, k: nat, level: nat)
    requires k <= |levels|
    ensures NearestLower(levels + more, k, level) == NearestLower(levels, k, level)
  {
    if k > 0 { NearestInPrefix(levels, more, k - 1, level); }
  }

  /** A new heading is a child of its own parent only. */
  lemma KidsOfMore(levels: seq<nat>, level: nat, parent: int)
    ensures var n := |levels|;
      KidsIn(levels + [level], 0, n + 1, parent)
      == KidsIn(levels, 0, n, parent) + if NearestLower(levels, n, level) == parent then [n] else []
  {
    var n := |levels|;
    KidsSplit(levels + [level], 0, n, n + 1, parent);
    NearestInPrefix(levels, [level], n, level);
    KidsInPrefix(levels, [level], 0, n, parent);
    assert KidsIn(levels + [level], n + 1, n + 1, parent) == [];
  }

  lemma {:induction false} KidsInPrefix(levels: seq<nat>, more: seq<nat>, lo: nat, hi: nat, parent: int)
    requires lo <= hi <= |levels|
    ensures KidsIn(levels + more, lo, hi, parent) == KidsIn(levels, lo, hi, parent)
    decreases hi - lo
  {
    if lo < hi {
      NearestInPrefix(levels, more, lo, levels[lo]);
      KidsInPrefix(levels, more, lo + 1, hi, parent);
    }
  }

  /** A heading with its ancestors, outermost first: the sections open after it. */
  function Chain(levels: seq<nat>, k: int): (chain: seq<nat>)
    requires -1 <= k < |levels|
    ensures forall i :: 0 <= i < |chain| ==> chain[i] <= k
    ensures k >= 0 ==> chain != [] && chain[|chain| - 1] == k
    decreases k
  {
    if k == -1 then [] else Chain(levels, ParentOf(levels, k)) + [k]
  }

  lemma {:induction false} ChainInPrefix(levels: seq<nat>, more: seq<nat>, k: int)
    requires -1 <= k < |levels|
    ensures Chain(levels + more, k) == Chain(levels, k)
    decreases k
  {
    if k >= 0 {
      NearestInPrefix(levels, more, k, levels[k]);
      ChainInPrefix(levels, more, ParentOf(levels, k));
    }
  }

  /** Everything between a heading and its parent is at least as deep as the heading. */
  lemma {:induction false} SkipToParent(levels: seq<nat>, k: nat, level: nat)
    requires k < |levels| && levels[k] >= level
    ensures NearestLower(levels, k + 1, level) == NearestLower(levels, ParentOf(levels, k) + 1, level)
  {
    SkipDeeper(levels, ParentOf(levels, k) + 1, k + 1, level);
  }

  lemma {:induction false} SkipDeeper(levels: seq<nat>, lo: nat, hi: nat, level: nat)
    requires lo <= hi <= |levels| && forall j :: lo <= j < hi ==> levels[j] >= level
    ensures NearestLower(levels, hi, level) == NearestLower(levels, lo, level)
    decreases hi - lo
  {
    if lo < hi { SkipDeeper(levels, lo, hi - 1, level); }
  }

  /** The children in a stretch are its first heading and those after its section; the
      first heading's own children are those within its section. */
  lemma KidsOfStretch(levels: seq<nat>, lo: nat, k: nat, hi: nat, parent: int)
    requires lo < k <= hi <= |levels| && parent < lo && ParentOf(levels, lo) == parent
    requires SelfContained(levels, lo + 1, k, lo)
    requires forall j :: k <= j < |levels| ==> ParentOf(levels, j) != lo
    ensures KidsIn(levels, lo, hi, parent) == [lo] + KidsIn(levels, k, hi, parent)
    ensures KidsIn(levels, 0, |levels|, lo) == KidsIn(levels, lo + 1, k, lo)
  {
    KidsSplit(levels, lo + 1, k, hi, parent);
    NoKids(levels, lo + 1, k, parent);
    assert [] + KidsIn(levels, k, hi, parent) == KidsIn(levels, k, hi, parent);
    KidsWithin(levels, lo, k);
  }

  lemma KidsWithin(levels: seq<nat>, lo: nat, k: nat)
    requires lo < k <= |levels| && forall j :: k <= j < |levels| ==> ParentOf(levels, j) != lo
    ensures KidsIn(levels, 0, |levels|, lo) == KidsIn(levels, lo + 1, k, lo)
  {
    var kids := KidsIn(levels, lo + 1, k, lo);
    KidsSplit(levels, 0, lo + 1, |levels|, lo);
    KidsSplit(levels, lo + 1, k, |levels|, lo);
    NoKids(levels, 0, lo + 1, lo);
    NoKids(levels, k, |levels|, lo);
    assert [] + (kids + []) == kids;
  }

  // ---------------------------------------------------------------------------
  // The parser's state, by position
  // ---------------------------------------------------------------------------

  /** Sections by their position in the document: the children of each, the roots and
      the stack of open ones. */
  datatype Table = Table(doc: Document, kids: seq<seq<nat>>, roots: seq<nat>, stack: seq<nat>)

  const EMPTY_TABLE := Table(Document([], []), [], [], [])

  predicate InRange(t: Table) {
    var n := |t.doc.entries|;
    && |t.kids| == n
    && (forall i, k :: 0 <= i < n && 0 <= k < |t.kids[i]| ==> t.kids[i][k] < n)
    && (forall k :: 0 <= k < |t.roots| ==> t.roots[k] < n)
    && (forall k :: 0 <= k < |t.stack| ==> t.stack[k] < n)
    && (if n == 0 then t.stack == [] else t.stack != [] && t.stack[|t.stack| - 1] == n - 1)
  }

  function Close(es: seq<Entry>, stack: seq<nat>, level: nat): (open: seq<nat>)
    requires forall k :: 0 <= k < |stack| ==> stack[k] < |es|
    ensures open <= stack
  {
    if stack == [] || es[stack[|stack| - 1]].Depth() < level then stack else Close(es, stack[..|stack| - 1], level)
  }

  function AddHeading(t: Table, line: string): Table
    requires InRange(t)
  {
    var n, open := |t.doc.entries|, Close(t.doc.entries, t.stack, Level(line));
    if open == [] then Table(AddLine(t.doc, line), t.kids + [[]], t.roots + [n], [n])
    else
      var p := open[|open| - 1];
      Table(AddLine(t.doc, line), t.kids[p := t.kids[p] + [n]] + [[]], t.roots, open + [n])
  }

  function AddToTable(t: Table, line: string): (t': Table)
    requires InRange(t)
    ensures InRange(t')
  {
    if Level(line) > 0 then AddHeading(t, line) else t.(doc := AddLine(t.doc, line))
  }

  function TableOf(lines: seq<string>): (t: Table)
    ensures InRange(t) && t.doc == Split(lines)
  {
    if lines == [] then EMPTY_TABLE else AddToTable(TableOf(lines[..|lines| - 1]), lines[|lines| - 1])
  }

  predicate KidsFollow(levels: seq<nat>, kids: seq<seq<nat>>) {
    |kids| == |levels| && forall i :: 0 <= i < |kids| ==> kids[i] == KidsIn(levels, 0, |levels|, i)
  }

  /** Children lists, roots and stack follow the rule. */
  predicate Rule(levels: seq<nat>, kids: seq<seq<nat>>, roots: seq<nat>, stack: seq<nat>) {
    && KidsFollow(levels, kids)
    && roots == KidsIn(levels, 0, |levels|, -1)
    && stack == Chain(levels, |levels| - 1)
  }

  predicate FollowsRule(t: Table) {
    Rule(Levels(t.doc.entries), t.kids, t.roots, t.stack)
  }

  /** Closing what is not shallower leaves the chain of the nearest shallower heading. */
  lemma {:induction false} CloseFindsParent(es: seq<Entry>, k: int, level: nat)
    requires -1 <= k < |es|
    ensures Close(es, Chain(Levels(es), k), level) == Chain(Levels(es), NearestLower(Levels(es), k + 1, level))
    decreases k
  {
    var levels := Levels(es);
    if k >= 0 && levels[k] >= level {
      SkipToParent(levels, k, level);
      assert Chain(levels, k)[..|Chain(levels, k)| - 1] == Chain(levels, ParentOf(levels, k));
      CloseFindsParent(es, ParentOf(levels, k), level);
    }
  }

  /** A new heading: it joins the children of its parent, if it has one, and has none. */
  function Grown(kids: seq<seq<nat>>, p: int, n: nat): (grown: seq<seq<nat>>)
    requires p < |kids|
    ensures |grown| == |kids| + 1
  {
    (if p < 0 then kids else kids[p := kids[p] + [n]]) + [[]]
  }

  /** The children lists, heading by heading. */
  function AllKids(levels: seq<nat>): (kids: seq<seq<nat>>)
    ensures |kids| == |levels|
  {
    if levels == [] then []
    else
      var n := |levels| - 1;
      Grown(AllKids(levels[..n]), NearestLower(levels[..n], n, levels[n]), n)
  }

  lemma AllKidsOneMore(levels: seq<nat>, level: nat)
    ensures AllKids(levels + [level]) == Grown(AllKids(levels), NearestLower(levels, |levels|, level), |levels|)
  {
    assert (levels + [level])[..|levels|] == levels;
  }

  lemma GrownAt(kids: seq<seq<nat>>, p: int, n: nat, i: nat)
    requires p < |kids| == n && i <= n
    ensures Grown(kids, p, n)[i] == if i == n then [] else if i == p then kids[i] + [n] else kids[i]
  {
  }

  /** They are what the rule says. */
  lemma {:induction false} AllKidsAt(levels: seq<nat>, i: nat)
    requires i < |levels|
    ensures AllKids(levels)[i] == KidsIn(levels, 0, |levels|, i)
    decreases |levels|
  {
    var n := |levels| - 1;
    if i < n { AllKidsAt(levels[..n], i); }
    AllKidsOfMoreAt(levels[..n], levels[n], i);
    assert levels == levels[..n] + [levels[n]];
  }

  lemma AllKidsOfMoreAt(levels: seq<nat>, level: nat, i: nat)
    requires i <= |levels| && (i < |levels| ==> AllKids(levels)[i] == KidsIn(levels, 0, |levels|, i))
    ensures AllKids(levels + [level])[i] == KidsIn(levels + [level], 0, |levels| + 1, i)
  {
    AllKidsOneMore(levels, level);
    GrownAt(AllKids(levels), NearestLower(levels, |levels|, level), |levels|, i);
    KidsOneMore(levels, level, i);
  }

  lemma KidsOneMore(levels: seq<nat>, level: nat, i: nat)
    requires i <= |levels|
    ensures KidsIn(levels + [level], 0, |levels| + 1, i)
         == if i == |levels| then []
            else if i == NearestLower(levels, |levels|, level) then KidsIn(levels, 0, |levels|, i) + [|levels|]
            else KidsIn(levels, 0, |levels|, i)
  {
    if i == |levels| {
      HeadingHasNoKids(levels, level);
    } else if i == NearestLower(levels, |levels|, level) {
      KidsOfParent(levels, level);
    } else {
      KidsOfOther(levels, level, i);
    }
  }

  lemma HeadingHasNoKids(levels: seq<nat>, level: nat)
    ensures KidsIn(levels + [level], 0, |levels| + 1, |levels|) == []
  {
    KidsOfMore(levels, level, |levels|);
    NoKids(levels, 0, |levels|, |levels|);
  }

  lemma KidsOfParent(levels: seq<nat>, level: nat)
    ensures var p := NearestLower(levels, |levels|, level);
      KidsIn(levels + [level], 0, |levels| + 1, p) == KidsIn(levels, 0, |levels|, p) + [|levels|]
  {
    KidsOfMore(levels, level, NearestLower(levels, |levels|, level));
  }

  lemma KidsOfOther(levels: seq<nat>, level: nat, i: int)
    requires i != NearestLower(levels, |levels|, level)
    ensures KidsIn(levels + [level], 0, |levels| + 1, i) == KidsIn(levels, 0, |levels|, i)
  {
    KidsOfMore(levels, level, i);
    assert KidsIn(levels, 0, |levels|, i) + [] == KidsIn(levels, 0, |levels|, i);
  }

  lemma HeadingExtendsChain(levels: seq<nat>, level: nat)
    ensures Chain(levels + [level], |levels|) == Chain(levels, NearestLower(levels, |levels|, level)) + [|levels|]
  {
    NearestInPrefix(levels, [level], |levels|, level);
    ChainInPrefix(levels, [level], NearestLower(levels, |levels|, level));
  }

  lemma ChainEnds(levels: seq<nat>, p: int)
    requires -1 <= p < |levels|
    ensures var chain := Chain(levels, p);
      if p < 0 then chain == [] else chain != [] && chain[|chain| - 1] == p
  {
  }

  lemma HeadingLevels(es: seq<Entry>, line: string)
    ensures Levels(es + [Entry(line, [])]) == Levels(es) + [Level(line)]
  {
  }

  /** The table as it grows. */
  predicate Tabled(t: Table) {
    var levels := Levels(t.doc.entries);
    && t.kids == AllKids(levels)
    && t.roots == KidsIn(levels, 0, |levels|, -1)
    && t.stack == Chain(levels, |levels| - 1)
  }

  lemma HeadingKeepsTable(t: Table, line: string)
    requires InRange(t) && Tabled(t) && Level(line) > 0
    ensures Tabled(AddHeading(t, line))
  {
    var levels, level := Levels(t.doc.entries), Level(line);
    var p := NearestLower(levels, |levels|, level);
    HeadingGoes(t, line, levels, p);
    TableOneHeadingMore(levels, level, p, t.kids, t.roots);
  }

  /** Where the heading goes: under the nearest one of a lower level. */
  lemma HeadingGoes(t: Table, line: string, levels: seq<nat>, p: int)
    requires InRange(t) && Level(line) > 0 && levels == Levels(t.doc.entries)
    requires t.stack == Chain(levels, |levels| - 1) && p == NearestLower(levels, |levels|, Level(line))
    ensures var t' := AddHeading(t, line);
      && Levels(t'.doc.entries) == levels + [Level(line)] && p < |t.kids| && t'.kids == Grown(t.kids, p, |levels|)
      && t'.roots == (if p < 0 then t.roots + [|levels|] else t.roots) && t'.stack == Chain(levels, p) + [|levels|]
  {
    CloseFindsParent(t.doc.entries, |levels| - 1, Level(line));
    ChainEnds(levels, p);
    AddedHeading(t, line, Chain(levels, p), p);
    HeadingLevels(t.doc.entries, line);
  }

  lemma TableOneHeadingMore(levels: seq<nat>, level: nat, p: int, kids: seq<seq<nat>>, roots: seq<nat>)
    requires p == NearestLower(levels, |levels|, level)
    requires kids == AllKids(levels) && roots == KidsIn(levels, 0, |levels|, -1)
    ensures Grown(kids, p, |levels|) == AllKids(levels + [level])
    ensures (if p < 0 then roots + [|levels|] else roots) == KidsIn(levels + [level], 0, |levels| + 1, -1)
    ensures Chain(levels, p) + [|levels|] == Chain(levels + [level], |levels|)
  {
    AllKidsOneMore(levels, level);
    RootsOneMore(levels, level);
    HeadingExtendsChain(levels, level);
  }

  lemma RootsOneMore(levels: seq<nat>, level: nat)
    ensures KidsIn(levels + [level], 0, |levels| + 1, -1)
         == if NearestLower(levels, |levels|, level) < 0 then KidsIn(levels, 0, |levels|, -1) + [|levels|]
            else KidsIn(levels, 0, |levels|, -1)
  {
    if NearestLower(levels, |levels|, level) < 0 {
      KidsOfParent(levels, level);
    } else {
      KidsOfOther(levels, level, -1);
    }
  }

  /** The parent is the last of the open headings that are left. */
  lemma AddedHeading(t: Table, line: string, open: seq<nat>, p: int)
    requires InRange(t) && Level(line) > 0 && Close(t.doc.entries, t.stack, Level(line)) == open
    requires p >= -1 && if p < 0 then open == [] else open != [] && open[|open| - 1] == p
    ensures var t', n := AddHeading(t, line), |t.doc.entries|;
      && t'.doc.entries == t.doc.entries + [Entry(line, [])] && -1 <= p < |t.kids| && t'.kids == Grown(t.kids, p, n)
      && t'.roots == (if p < 0 then t.roots + [n] else t.roots) && t'.stack == open + [n]
  {
  }

  lemma {:induction false} TableIsTabled(lines: seq<string>)
    ensures Tabled(TableOf(lines))
  {
    if lines != [] {
      var t, line := TableOf(lines[..|lines| - 1]), lines[|lines| - 1];
      TableIsTabled(lines[..|lines| - 1]);
      if Level(line) > 0 {
        HeadingKeepsTable(t, line);
      } else {
        assert Levels(AddLine(t.doc, line).entries) == Levels(t.doc.entries);
      }
    }
  }

  /** After every line, children lists, roots and stack are what the rule says. */
  lemma TableFollowsRule(lines: seq<string>)
    ensures FollowsRule(TableOf(lines))
  {
    TableIsTabled(lines);
    AllKidsFollow(Levels(TableOf(lines).doc.entries));
  }

  lemma AllKidsFollow(levels: seq<nat>)
    ensures KidsFollow(levels, AllKids(levels))
  {
    forall i | 0 <= i < |levels|
      ensures AllKids(levels)[i] == KidsIn(levels, 0, |levels|, i)
    {
      AllKidsAt(levels, i);
    }
  }

  // ---------------------------------------------------------------------------
  // The parser
  // ---------------------------------------------------------------------------

  class Node {
    const level: nat
    const raw: string
    var body: seq<string>
    var children: seq<Node>

    constructor (level: nat, raw: string)
      ensures this.level == level && this.raw == raw && body == [] && children == []
    {
      this.level, this.raw := level, raw;
      body, children := [], [];
    }
  }

  /** The nodes, with all that hangs below them, are the sections of the forest. */
  ghost predicate Represents(nodes: seq<Node>, forest: seq<Section>, objects: set<Node>)
    reads objects
    decreases forest
  {
    if forest == [] then nodes == []
    else
      && nodes != [] && nodes[0] in objects
      && nodes[0].raw == forest[0].raw && nodes[0].level == forest[0].Depth() && nodes[0].body == forest[0].body
      && Represents(nodes[0].children, forest[0].children, objects)
      && Represents(nodes[1..], forest[1..], objects)
  }

  /** `nodes` are the created nodes at the given positions. */
  ghost predicate At(nodes: seq<Node>, positions: seq<nat>, created: seq<Node>) {
    && |nodes| == |positions|
    && forall k :: 0 <= k < |nodes| ==> positions[k] < |created| && nodes[k] == created[positions[k]]
  }

  ghost predicate Holds(node: Node, e: Entry, kids: seq<nat>, created: seq<Node>)
    reads node
  {
    node.raw == e.raw && node.level == e.Depth() && node.body == e.body && At(node.children, kids, created)
  }

  ghost predicate Distinct(nodes: seq<Node>) {
    forall i, j :: 0 <= i < j < |nodes| ==> nodes[i] != nodes[j]
  }

  /** The objects hold what the table says. */
  ghost predicate Holding(t: Table, created: seq<Node>)
    reads created
  {
    && |created| == |t.doc.entries| == |t.kids| && Distinct(created)
    && forall i :: 0 <= i < |created| ==> Holds(created[i], t.doc.entries[i], t.kids[i], created)
  }

  ghost predicate Leveled(created: seq<Node>, es: seq<Entry>) {
    |created| == |es| && forall i :: 0 <= i < |created| ==> created[i].level == es[i].Depth()
  }

  lemma HoldingIsLeveled(t: Table, created: seq<Node>)
    requires Holding(t, created)
    ensures Leveled(created, t.doc.entries)
  {
    forall i | 0 <= i < |created|
      ensures created[i].level == t.doc.entries[i].Depth()
    {
      assert Holds(created[i], t.doc.entries[i], t.kids[i], created);
    }
  }

  method CloseSections(stack: seq<Node>, level: nat, ghost es: seq<Entry>, ghost was: seq<nat>,
    ghost created: seq<Node>)
    returns (open: seq<Node>)
    requires At(stack, was, created) && Leveled(created, es)
    ensures At(open, Close(es, was, level), created)
  {
    open := stack;
    ghost var positions := was;
    while open != [] && open[|open| - 1].level >= level
      invariant At(open, positions, created)
      invariant Close(es, positions, level) == Close(es, was, level)
    {
      open := open[..|open| - 1];
      positions := positions[..|positions| - 1];
    }
  }

  /** A heading: close what is not above it, hang it under what is left, open it. */
  method OpenSection(
    line: string, roots: seq<Node>, stack: seq<Node>, ghost t: Table, ghost created: seq<Node>,
      ghost objects: set<Node>)
    returns (roots': seq<Node>, stack': seq<Node>, node: Node)
    requires InRange(t) && Holding(t, created) && At(stack, t.stack, created) && At(roots, t.roots, created)
    requires Level(line) > 0 && forall n :: n in created ==> n in objects
    modifies objects
    ensures fresh(node) && Holding(AddHeading(t, line), created + [node])
    ensures At(stack', AddHeading(t, line).stack, created + [node])
    ensures At(roots', AddHeading(t, line).roots, created + [node])
  {
    node := new Node(Level(line), line);
    HoldingIsLeveled(t, created);
    var open := CloseSections(stack, Level(line), t.doc.entries, t.stack, created);
    Attach(line, open, node, t, created, objects);
    roots' := if open == [] then roots + [node] else roots;
    stack' := open + [node];
  }

  lemma MoreCreated(nodes: seq<Node>, positions: seq<nat>, created: seq<Node>, node: Node)
    requires At(nodes, positions, created)
    ensures At(nodes, positions, created + [node])
  {
  }

  lemma ChildJoins(nodes: seq<Node>, positions: seq<nat>, created: seq<Node>, node: Node)
    requires At(nodes, positions, created)
    ensures At(nodes + [node], positions + [|created|], created + [node])
  {
  }

  method Attach(
    line: string, open: seq<Node>, node: Node, ghost t: Table, ghost created: seq<Node>, ghost objects: set<Node>)
    requires InRange(t) && Holding(t, created) && At(open, Close(t.doc.entries, t.stack, Level(line)), created)
    requires Level(line) > 0 && forall n :: n in created ==> n in objects
    requires Holds(node, Entry(line, []), [], created) && node !in objects
    modifies objects
    ensures Holding(AddHeading(t, line), created + [node])
  {
    ghost var more, t', positions := created + [node], AddHeading(t, line), Close(t.doc.entries, t.stack, Level(line));
    if open != [] {
      var parent := open[|open| - 1];
      ChildJoins(parent.children, t.kids[positions[|open| - 1]], created, node);
      parent.children := parent.children + [node];
    }
    forall i | 0 <= i < |created| ensures Holds(created[i], t'.doc.entries[i], t'.kids[i], more) {
      if open == [] || i != positions[|open| - 1] {
        assert created[i].children == old(created[i].children);
        MoreCreated(created[i].children, t.kids[i], created, node);
      }
    }
  }

  /** A line of text goes to the innermost open section. */
  method AddText(
    line: string, preamble: seq<string>, stack: seq<Node>, ghost t: Table, ghost created: seq<Node>,
      ghost objects: set<Node>)
    returns (preamble': seq<string>)
    requires InRange(t) && Holding(t, created) && At(stack, t.stack, created) && preamble == t.doc.preamble
    requires Level(line) == 0 && forall n :: n in created ==> n in objects
    modifies objects
    ensures preamble' == AddToTable(t, line).doc.preamble && Holding(AddToTable(t, line), created)
  {
    preamble' := preamble;
    if stack != [] {
      stack[|stack| - 1].body := stack[|stack| - 1].body + [line];
    } else {
      preamble' := preamble + [line];
    }
  }

  // ---------------------------------------------------------------------------
  // The nodes are the forest
  // ---------------------------------------------------------------------------

  lemma {:induction false} HoldingRepresents(
    t: Table, created: seq<Node>, nodes: seq<Node>, lo: nat, hi: nat, parent: int, objects: set<Node>)
    requires Holding(t, created) && FollowsRule(t) && (forall n :: n in created ==> n in objects)
    requires lo <= hi <= |created| && parent < lo
    requires SelfContained(Levels(t.doc.entries), lo, hi, parent) && Finished(Levels(t.doc.entries), lo, hi)
    requires At(nodes, KidsIn(Levels(t.doc.entries), lo, hi, parent), created)
    ensures Represents(nodes, Build(t.doc.entries[lo..hi]), objects)
    decreases hi - lo
  {
    var es := t.doc.entries;
    if lo == hi {
      assert es[lo..hi] == [];
    } else {
      var k := FirstSection(es, lo, hi, parent);
      StretchNodes(t, created, nodes, lo, k, hi, parent);
      HoldingRepresents(t, created, created[lo].children, lo + 1, k, lo, objects);
      HoldingRepresents(t, created, nodes[1..], k, hi, parent, objects);
      StretchBuilds(es, lo, k, hi);
      RepresentsFirst(nodes, es[lo], Build(es[lo + 1..k]), Build(es[k..hi]), objects);
    }
  }

  lemma StretchNodes(t: Table, created: seq<Node>, nodes: seq<Node>, lo: nat, k: nat, hi: nat, parent: int)
    requires Holding(t, created) && FollowsRule(t) && lo < k <= hi <= |created|
    requires parent < lo && ParentOf(Levels(t.doc.entries), lo) == parent
    requires SelfContained(Levels(t.doc.entries), lo + 1, k, lo)
    requires forall j :: k <= j < |created| ==> ParentOf(Levels(t.doc.entries), j) != lo
    requires At(nodes, KidsIn(Levels(t.doc.entries), lo, hi, parent), created)
    ensures nodes != [] && nodes[0] == created[lo] && Holds(nodes[0], t.doc.entries[lo], t.kids[lo], created)
    ensures At(nodes[0].children, KidsIn(Levels(t.doc.entries), lo + 1, k, lo), created)
    ensures At(nodes[1..], KidsIn(Levels(t.doc.entries), k, hi, parent), created)
  {
    var levels := Levels(t.doc.entries);
    KidsOfStretch(levels, lo, k, hi, parent);
    AtFirst(nodes, lo, KidsIn(levels, k, hi, parent), created);
    assert Holds(created[lo], t.doc.entries[lo], t.kids[lo], created);
    KidsOf(levels, t.kids, t.roots, t.stack, lo);
  }

  lemma KidsOf(levels: seq<nat>, kids: seq<seq<nat>>, roots: seq<nat>, stack: seq<nat>, i: nat)
    requires Rule(levels, kids, roots, stack) && i < |levels|
    ensures kids[i] == KidsIn(levels, 0, |levels|, i)
  {
  }

  lemma AtFirst(nodes: seq<Node>, i: nat, rest: seq<nat>, created: seq<Node>)
    requires At(nodes, [i] + rest, created)
    ensures i < |created| && nodes != [] && nodes[0] == created[i] && At(nodes[1..], rest, created)
  {
    assert ([i] + rest)[0] == i;
    assert forall k :: 0 <= k < |rest| ==> ([i] + rest)[k + 1] == rest[k];
  }

  lemma RepresentsFirst(nodes: seq<Node>, e: Entry, inner: seq<Section>, outer: seq<Section>, objects: set<Node>)
    requires nodes != [] && nodes[0] in objects
    requires nodes[0].raw == e.raw && nodes[0].level == e.Depth() && nodes[0].body == e.body
    requires Represents(nodes[0].children, inner, objects) && Represents(nodes[1..], outer, objects)
    ensures Represents(nodes, [Section(e.raw, e.body, inner)] + outer, objects)
  {
    var forest := [Section(e.raw, e.body, inner)] + outer;
    assert forest[1..] == outer;
  }

  lemma TableRepresents(lines: seq<string>, created: seq<Node>, roots: seq<Node>, objects: set<Node>)
    requires Holding(TableOf(lines), created) && At(roots, TableOf(lines).roots, created)
    requires forall n :: n in created ==> n in objects
    ensures Represents(roots, Parse(lines).roots, objects)
  {
    var t := TableOf(lines);
    TableFollowsRule(lines);
    assert t.doc.entries[0..|created|] == t.doc.entries;
    HoldingRepresents(t, created, roots, 0, |created|, -1, objects);
  }

  method ReadLine(
    line: string, preamble: seq<string>, roots: seq<Node>, stack: seq<Node>, ghost t: Table, ghost created: seq<Node>,
    ghost objects: set<Node>)
    returns (preamble': seq<string>, roots': seq<Node>, stack': seq<Node>, ghost created': seq<Node>)
    requires InRange(t) && Holding(t, created) && At(stack, t.stack, created) && At(roots, t.roots, created)
    requires preamble == t.doc.preamble && forall n :: n in created ==> n in objects
    modifies objects
    ensures var t' := AddToTable(t, line);
      && Holding(t', created') && At(stack', t'.stack, created') && At(roots', t'.roots, created')
      && preamble' == t'.doc.preamble
    ensures forall n :: n in created' ==> n in objects || fresh(n)
  {
    preamble', roots', stack', created' := preamble, roots, stack, created;
    if Level(line) > 0 {
      var node;
      roots', stack', node := OpenSection(line, roots, stack, t, created, objects);
      created' := created + [node];
    } else {
      preamble' := AddText(line, preamble, stack, t, created, objects);
    }
  }

  lemma TableOneMore(lines: seq<string>, k: nat)
    requires k < |lines|
    ensures TableOf(lines[..k + 1]) == AddToTable(TableOf(lines[..k]), lines[k])
  {
    assert lines[..k + 1][..k] == lines[..k];
  }

  /** The parser with its stack computes the built forest. */
  method ParseDocument(lines: seq<string>)
    returns (preamble: seq<string>, roots: seq<Node>, ghost objects: set<Node>)
    ensures preamble == Parse(lines).preamble
    ensures Represents(roots, Parse(lines).roots, objects) && fresh(objects)
  {
    preamble, roots, objects := [], [], {};
    var stack: seq<Node> := [];
    ghost var created: seq<Node> := [];
    ghost var t := EMPTY_TABLE;
    var k := 0;
    while k < |lines|
      invariant 0 <= k <= |lines| && t == TableOf(lines[..k])
      invariant Holding(t, created) && At(stack, t.stack, created) && At(roots, t.roots, created)
      invariant preamble == t.doc.preamble
      invariant fresh(objects) && forall n :: n in created ==> n in objects
    {
      TableOneMore(lines, k);
      preamble, roots, stack, created := ReadLine(lines[k], preamble, roots, stack, t, created, objects);
      t := AddToTable(t, lines[k]);
      objects := set n | n in created;
      k := k + 1;
    }
    assert lines[..k] == lines;
    TableRepresents(lines, created, roots, objects);
  }
}
