/** What ends up in a packet, heading by heading: the same answer without trees.  The tag
    that counts for a heading is the nearest one on it or above it.

    Modelled on routines/idea-to-plan-scoped/scripts/extract_ctx.py, `_resolve`,
    `_extract` and `_collect_uncovered`.  */
module PacketContents {
  import opened Common
  import opened Outline
  import opened OutlineParser
  import opened ContextPacket

  // ---------------------------------------------------------------------------
  // The flat rule
  // ---------------------------------------------------------------------------

  /** The tag of heading `i` or of its nearest tagged ancestor. */
  function NearestTag(r: Reader, es: seq<Entry>, i: int): Option<Steps>
    requires -1 <= i < |es|
    decreases i
  {
    if i == -1 then None
    else if r.tag(es[i].raw).Some? then r.tag(es[i].raw)
    else NearestTag(r, es, ParentOf(Levels(es), i))
  }

  /** A tag counts for all steps or for those it names, unless it says for none. */
  predicate Included(r: Reader, es: seq<Entry>, i: nat, step: string)
    requires i < |es|
  {
    match NearestTag(r, es, i)
    case Some(steps) => "NONE" !in steps && ("ALL" in steps || step in steps)
    case None => false
  }

  /** The section of heading `i` ends before the next heading that is not deeper. */
  function SectionEnd(es: seq<Entry>, i: nat): (k: nat)
    requires i < |es|
    ensures i < k <= |es|
  {
    i + Extent(es[i..])
  }

  predicate AnyIncluded(r: Reader, es: seq<Entry>, lo: nat, hi: nat, step: string)
    requires lo <= hi <= |es|
  {
    exists j :: lo <= j < hi && Included(r, es, j, step)
  }

  /** The lines heading `i` contributes: all its own, its heading as a breadcrumb, or none. */
  function Contribution(r: Reader, es: seq<Entry>, i: nat, step: string): seq<string>
    requires i < |es|
  {
    if Included(r, es, i, step) then [r.clean(es[i].raw)] + es[i].body
    else if AnyIncluded(r, es, i, SectionEnd(es, i), step) then [r.clean(es[i].raw)]
    else []
  }

  /** What the members of a stretch give, one after another. */
  function Gather(give: int -> seq<string>, lo: int, hi: int): seq<string>
    requires lo <= hi
    decreases hi - lo
  {
    if lo == hi then [] else give(lo) + Gather(give, lo + 1, hi)
  }

  lemma {:induction false} GatherSplit(give: int -> seq<string>, lo: int, k: int, hi: int)
    requires lo <= k <= hi
    ensures Gather(give, lo, hi) == Gather(give, lo, k) + Gather(give, k, hi)
    decreases hi - lo
  {
    if lo < k {
      GatherSplit(give, lo + 1, k, hi);
      Associate(give(lo), Gather(give, lo + 1, k), Gather(give, k, hi));
    } else {
      assert Gather(give, lo, k) == [];
    }
  }

  lemma GatherParts(give: int -> seq<string>, lo: int, k: int, hi: int)
    requires lo < k <= hi
    ensures Gather(give, lo, hi) == give(lo) + Gather(give, lo + 1, k) + Gather(give, k, hi)
  {
    GatherSplit(give, lo + 1, k, hi);
    Associate(give(lo), Gather(give, lo + 1, k), Gather(give, k, hi));
  }

  function Contributor(r: Reader, es: seq<Entry>, step: string): int -> seq<string> {
    i => if 0 <= i < |es| then Contribution(r, es, i, step) else []
  }

  function Contributions(r: Reader, es: seq<Entry>, lo: nat, hi: nat, step: string): seq<string>
    requires lo <= hi <= |es|
  {
    Gather(Contributor(r, es, step), lo, hi)
  }

  // ---------------------------------------------------------------------------
  // Extraction is the flat rule
  // ---------------------------------------------------------------------------

  function TagAbove(r: Reader, es: seq<Entry>, parent: int): Steps
    requires -1 <= parent < |es|
  {
    Resolve(NearestTag(r, es, parent), {})
  }

  lemma EndsWithin(es: seq<Entry>, lo: nat, hi: nat, k: nat, parent: int)
    requires lo < hi <= |es| && k == lo + Extent(es[lo..hi])
    requires Finished(Levels(es), lo, hi) && ParentOf(Levels(es), lo) == parent && parent < lo
    requires hi < |es| ==> es[hi].Depth() <= es[lo].Depth()
    ensures SectionEnd(es, lo) == k
  {
    var stretch, rest, n := es[lo..hi], es[lo..], k - lo;
    assert forall j :: 1 <= j < n ==> rest[j] == stretch[j];
    if k < hi { assert rest[n] == stretch[n]; }
    ExtentIs(rest, n);
  }

  /** A stretch ends with the document or at a heading no deeper than any in it. */
  predicate Bounded(es: seq<Entry>, lo: nat, hi: nat)
    requires lo <= hi <= |es|
  {
    hi < |es| ==> forall j :: lo <= j < hi ==> es[hi].Depth() <= es[j].Depth()
  }

  lemma {:induction false} PruneIsFlat(r: Reader, es: seq<Entry>, lo: nat, hi: nat, parent: int, step: string)
    requires lo <= hi <= |es| && -1 <= parent < lo
    requires SelfContained(Levels(es), lo, hi, parent) && Finished(Levels(es), lo, hi) && Bounded(es, lo, hi)
    ensures var pruned := Prune(r, Build(es[lo..hi]), step, TagAbove(r, es, parent));
      && ForestLines(pruned) == Contributions(r, es, lo, hi, step)
      && (pruned == [] <==> !AnyIncluded(r, es, lo, hi, step))
    decreases hi - lo
  {
    if lo < hi {
      var k := FirstSection(es, lo, hi, parent);
      BoundedParts(es, lo, k, hi);
      PruneIsFlat(r, es, lo + 1, k, lo, step);
      PruneIsFlat(r, es, k, hi, parent, step);
      StretchBuilds(es, lo, k, hi);
      EndsWithin(es, lo, hi, k, parent);
      GatherSplit(Contributor(r, es, step), lo + 1, k, hi);
      FirstIsFlat(r, es, lo, k, parent, step, Build(es[lo + 1..k]), Build(es[k..hi]));
      AnyIncludedSplit(r, es, lo, k, hi, step);
      Associate(Contribution(r, es, lo, step), Contributions(r, es, lo + 1, k, step),
        Contributions(r, es, k, hi, step));
    }
  }

  lemma AnyIncludedSplit(r: Reader, es: seq<Entry>, lo: nat, k: nat, hi: nat, step: string)
    requires lo < k <= hi <= |es|
    ensures AnyIncluded(r, es, lo, hi, step)
       <==> Included(r, es, lo, step) || AnyIncluded(r, es, lo + 1, k, step) || AnyIncluded(r, es, k, hi, step)
  {
  }

  lemma BoundedParts(es: seq<Entry>, lo: nat, k: nat, hi: nat)
    requires lo < k <= hi <= |es| && k == lo + Extent(es[lo..hi]) && Bounded(es, lo, hi)
    ensures Bounded(es, lo + 1, k) && Bounded(es, k, hi)
  {
    var stretch := es[lo..hi];
    if k < hi {
      assert es[k] == stretch[k - lo];
      assert forall j :: lo < j < k ==> es[j] == stretch[j - lo];
    }
  }

  lemma FirstIsFlat(
    r: Reader, es: seq<Entry>, i: nat, k: nat, parent: int, step: string, inner: seq<Section>, outer: seq<Section>)
    requires i < k <= |es| && ParentOf(Levels(es), i) == parent && SectionEnd(es, i) == k
    requires var kids := Prune(r, inner, step, TagAbove(r, es, i));
      ForestLines(kids) == Contributions(r, es, i + 1, k, step) && (kids == [] <==> !AnyIncluded(r, es, i + 1, k, step))
    ensures var all := [Section(es[i].raw, es[i].body, inner)] + outer;
      var rest := Prune(r, outer, step, TagAbove(r, es, parent));
      var pruned := Prune(r, all, step, TagAbove(r, es, parent));
      && ForestLines(pruned) == Contribution(r, es, i, step) + Contributions(r, es, i + 1, k, step) + ForestLines(rest)
      && (pruned == [] <==> !Included(r, es, i, step) && !AnyIncluded(r, es, i + 1, k, step) && rest == [])
  {
    var node := Section(es[i].raw, es[i].body, inner);
    var kids := Prune(r, inner, step, TagAbove(r, es, i));
    assert Resolve(r.tag(node.raw), TagAbove(r, es, parent)) == TagAbove(r, es, i);
    PruneSplits(r, node, outer, step, TagAbove(r, es, parent));
    ForestLinesAppend(PruneOne(r, node, step, TagAbove(r, es, i)), Prune(r, outer, step, TagAbove(r, es, parent)));
    OneIsFlat(r, es, i, k, step, inner, kids);
  }

  /** What is left of one section whose own steps are `effective`. */
  function PruneOne(r: Reader, node: Section, step: string, effective: Steps): seq<Section> {
    var kids := Prune(r, node.children, step, effective);
    if Matches(effective, step) then [Section(r.clean(node.raw), node.body, kids)]
    else if kids != [] then [Section(r.clean(node.raw), [], kids)]
    else []
  }

  lemma PruneSplits(r: Reader, node: Section, outer: seq<Section>, step: string, inherited: Steps)
    ensures Prune(r, [node] + outer, step, inherited)
         == PruneOne(r, node, step, Resolve(r.tag(node.raw), inherited)) + Prune(r, outer, step, inherited)
  {
    assert ([node] + outer)[0] == node && ([node] + outer)[1..] == outer;
  }

  lemma OneIsFlat(r: Reader, es: seq<Entry>, i: nat, k: nat, step: string, inner: seq<Section>, kids: seq<Section>)
    requires i < k <= |es| && SectionEnd(es, i) == k && kids == Prune(r, inner, step, TagAbove(r, es, i))
    requires ForestLines(kids) == Contributions(r, es, i + 1, k, step)
      && (kids == [] <==> !AnyIncluded(r, es, i + 1, k, step))
    ensures var one := PruneOne(r, Section(es[i].raw, es[i].body, inner), step, TagAbove(r, es, i));
      && ForestLines(one) == Contribution(r, es, i, step) + Contributions(r, es, i + 1, k, step)
      && (one == [] <==> !Included(r, es, i, step) && !AnyIncluded(r, es, i + 1, k, step))
  {
    var body := if Included(r, es, i, step) then es[i].body else [];
    var kept := Section(r.clean(es[i].raw), body, kids);
    ForestLinesOfOne(kept);
    assert AnyIncluded(r, es, i, k, step) <==> Included(r, es, i, step) || AnyIncluded(r, es, i + 1, k, step);
    assert [kept.raw] + [] == [kept.raw];
  }

  /** Blank lines aside, a packet is its header and then, in document order, the body of
      every heading whose nearest tag matches and the heading of every section with such
      a heading in it. */
  lemma PacketIsFlatFilter(r: Reader, header: seq<string>, source: seq<string>, step: string)
    ensures var es := Split(source).entries;
      NonBlank(Packet(r, header, Parse(source).roots, step))
      == NonBlank(header) + NonBlank(Contributions(r, es, 0, |es|, step))
  {
    var es := Split(source).entries;
    assert es[0..|es|] == es;
    PruneIsFlat(r, es, 0, |es|, -1, step);
    PartsPrintPruned(r, header, Build(es), step, {});
  }

  // ---------------------------------------------------------------------------
  // No silent loss
  // ---------------------------------------------------------------------------

  predicate Blank(line: string) {
    forall c :: c in line ==> IsSpace(c)
  }

  predicate HasContent(body: seq<string>) {
    exists l :: l in body && !Blank(l)
  }

  /** How a heading is reported: trimmed on the right and cut. */
  function Reported(raw: string): string {
    var trimmed := TrimRight(raw);
    if |trimmed| > 120 then trimmed[..120] else trimmed
  }

  /** The report for one heading, if there is one. */
  function Report(raw: string, body: seq<string>, covered: bool): seq<string> {
    if !covered && HasContent(body) then [Reported(raw)] else []
  }

  /** Headings with content that have no tag, of their own or above. */
  function CollectUncovered(r: Reader, nodes: seq<Section>, covered: bool): seq<string>
    decreases nodes
  {
    if nodes == [] then []
    else
      var here := r.tag(nodes[0].raw).Some? || covered;
      Report(nodes[0].raw, nodes[0].body, here)
      + CollectUncovered(r, nodes[0].children, here)
      + CollectUncovered(r, nodes[1..], covered)
  }

  function UncoveredHere(r: Reader, es: seq<Entry>): int -> seq<string> {
    i => if 0 <= i < |es| then Report(es[i].raw, es[i].body, NearestTag(r, es, i).Some?) else []
  }

  function Uncovered(r: Reader, es: seq<Entry>, lo: nat, hi: nat): seq<string>
    requires lo <= hi <= |es|
  {
    Gather(UncoveredHere(r, es), lo, hi)
  }

  lemma {:induction false} CollectUncoveredIsFlat(r: Reader, es: seq<Entry>, lo: nat, hi: nat, parent: int)
    requires lo <= hi <= |es| && -1 <= parent < lo && SelfContained(Levels(es), lo, hi, parent)
    ensures CollectUncovered(r, Build(es[lo..hi]), NearestTag(r, es, parent).Some?) == Uncovered(r, es, lo, hi)
    decreases hi - lo
  {
    if lo < hi {
      var k := FirstSection(es, lo, hi, parent);
      CollectUncoveredIsFlat(r, es, lo + 1, k, lo);
      CollectUncoveredIsFlat(r, es, k, hi, parent);
      StretchBuilds(es, lo, k, hi);
      UncoveredParts(r, es, lo, k, hi);
      FirstUncovered(r, es, lo, parent, Build(es[lo + 1..k]), Build(es[k..hi]));
    }
  }

  lemma UncoveredParts(r: Reader, es: seq<Entry>, lo: nat, k: nat, hi: nat)
    requires lo < k <= hi <= |es|
    ensures Uncovered(r, es, lo, hi) == UncoveredHere(r, es)(lo) + Uncovered(r, es, lo + 1, k) + Uncovered(r, es, k, hi)
  {
    GatherParts(UncoveredHere(r, es), lo, k, hi);
  }

  lemma FirstUncovered(r: Reader, es: seq<Entry>, i: nat, parent: int, inner: seq<Section>, outer: seq<Section>)
    requires i < |es| && ParentOf(Levels(es), i) == parent
    ensures CollectUncovered(r, [Section(es[i].raw, es[i].body, inner)] + outer, NearestTag(r, es, parent).Some?)
         == UncoveredHere(r, es)(i)
            + CollectUncovered(r, inner, NearestTag(r, es, i).Some?)
            + CollectUncovered(r, outer, NearestTag(r, es, parent).Some?)
  {
    var first, above := Section(es[i].raw, es[i].body, inner), NearestTag(r, es, parent).Some?;
    assert NearestTag(r, es, i).Some? == (r.tag(first.raw).Some? || above);
    CollectFirst(r, first, outer, above);
  }

  lemma CollectFirst(r: Reader, first: Section, rest: seq<Section>, covered: bool)
    ensures var here := r.tag(first.raw).Some? || covered;
      CollectUncovered(r, [first] + rest, covered)
      == Report(first.raw, first.body, here) + CollectUncovered(r, first.children, here)
        + CollectUncovered(r, rest, covered)
  {
    assert ([first] + rest)[1..] == rest;
  }

  /** Every heading with content has a tag on it or above it. */
  predicate AllCovered(r: Reader, es: seq<Entry>, lo: nat, hi: nat)
    requires lo <= hi <= |es|
  {
    forall i :: lo <= i < hi && HasContent(es[i].body) ==> NearestTag(r, es, i).Some?
  }

  lemma {:induction false} GatherEmpty(give: int -> seq<string>, lo: int, hi: int)
    requires lo <= hi
    ensures Gather(give, lo, hi) == [] <==> forall i :: lo <= i < hi ==> give(i) == []
    decreases hi - lo
  {
    if lo < hi { GatherEmpty(give, lo + 1, hi); }
  }

  lemma NoReport(r: Reader, es: seq<Entry>, i: int)
    requires 0 <= i < |es|
    ensures UncoveredHere(r, es)(i) == [] <==> (HasContent(es[i].body) ==> NearestTag(r, es, i).Some?)
  {
  }

  lemma UncoveredEmpty(r: Reader, es: seq<Entry>, lo: nat, hi: nat)
    requires lo <= hi <= |es|
    ensures Uncovered(r, es, lo, hi) == [] <==> AllCovered(r, es, lo, hi)
  {
    GatherEmpty(UncoveredHere(r, es), lo, hi);
    forall i | lo <= i < hi
      ensures UncoveredHere(r, es)(i) == [] <==> (HasContent(es[i].body) ==> NearestTag(r, es, i).Some?)
    {
      NoReport(r, es, i);
    }
  }

  lemma WholeIsFlat(r: Reader, es: seq<Entry>)
    ensures CollectUncovered(r, Build(es), false) == Uncovered(r, es, 0, |es|)
  {
    assert es[0..|es|] == es;
    CollectUncoveredIsFlat(r, es, 0, |es|, -1);
  }

  /** Validation passes exactly if every heading with content has a tag on it or above it,
      so that every packet keeps or drops that content by an explicit tag. */
  lemma NoSilentLoss(r: Reader, source: seq<string>)
    ensures var es := Split(source).entries;
      CollectUncovered(r, Parse(source).roots, false) == [] <==> AllCovered(r, es, 0, |es|)
  {
    var es := Split(source).entries;
    WholeIsFlat(r, es);
    UncoveredEmpty(r, es, 0, |es|);
  }
}
