/** Cutting a document down to the sections tagged for one step, with bare headings as
    breadcrumbs above them.

    Modelled on routines/idea-to-plan-scoped/scripts/extract_ctx.py, `_extract`,
    `write_doc_packet` and `_collect_uncovered`.  */
module ContextPacket {
  import opened Common
  import opened Outline

  const STEP_ALL := "ALL"
  const STEP_NONE := "NONE"

  type Steps = set<string>

  /** The two regular expressions: the step tag of a heading, and the heading without
      its tag comment. */
  datatype Reader = Reader(tag: string -> Option<Steps>, clean: string -> string)

  function Resolve(own: Option<Steps>, inherited: Steps): Steps {
    if own.Some? then own.value else inherited
  }

  predicate Matches(effective: Steps, step: string) {
    STEP_NONE !in effective && (STEP_ALL in effective || step in effective)
  }

  // ---------------------------------------------------------------------------
  // Extraction
  // ---------------------------------------------------------------------------

  /** A part that is not empty goes in behind a blank line, which is added only where
      there is none. */
  function AppendPart(out: seq<string>, part: seq<string>): (longer: seq<string>)
    ensures out <= longer && (part == [] ==> longer == out)
    ensures part != [] ==>
      var before := |longer| - |part|;
      && before >= |out| && longer[before..] == part
      && (before > 0 ==> longer[before - 1] == "")
      && (out == [] || out[|out| - 1] == "" ==> before == |out|) && before <= |out| + 1
  {
    if part == [] then out
    else out + (if out != [] && out[|out| - 1] != "" then [""] else []) + part
  }

  function AppendParts(out: seq<string>, parts: seq<seq<string>>): seq<string>
    decreases parts
  {
    if parts == [] then out else AppendParts(AppendPart(out, parts[0]), parts[1..])
  }

  predicate AnyPart(parts: seq<seq<string>>) {
    parts != [] && (parts[0] != [] || AnyPart(parts[1..]))
  }

  function Extract(r: Reader, node: Section, step: string, inherited: Steps): seq<string>
    decreases node, 1
  {
    var effective := Resolve(r.tag(node.raw), inherited);
    var parts := ExtractEach(r, node.children, step, effective);
    if Matches(effective, step) then AppendParts([r.clean(node.raw)] + node.body, parts)
    else if AnyPart(parts) then AppendParts([r.clean(node.raw)], parts)
    else []
  }

  function ExtractEach(r: Reader, nodes: seq<Section>, step: string, inherited: Steps): (parts: seq<seq<string>>)
    ensures |parts| == |nodes|
    decreases nodes, 0
  {
    if nodes == [] then []
    else [Extract(r, nodes[0], step, inherited)] + ExtractEach(r, nodes[1..], step, inherited)
  }

  /** The packet: its header, and after it what the roots have for the step. */
  function Packet(r: Reader, header: seq<string>, roots: seq<Section>, step: string): seq<string> {
    AppendParts(header, ExtractEach(r, roots, step, {}))
  }

  /** The forest the packet should show: sections of the step in full, and above them
      their ancestors' headings. */
  function Prune(r: Reader, nodes: seq<Section>, step: string, inherited: Steps): seq<Section>
    decreases nodes
  {
    if nodes == [] then []
    else
      var node := nodes[0];
      var effective := Resolve(r.tag(node.raw), inherited);
      var kids := Prune(r, node.children, step, effective);
      (if Matches(effective, step) then [Section(r.clean(node.raw), node.body, kids)]
       else if kids != [] then [Section(r.clean(node.raw), [], kids)]
       else [])
      + Prune(r, nodes[1..], step, inherited)
  }

  // ---------------------------------------------------------------------------
  // Blank lines aside, a packet prints the pruned forest
  // ---------------------------------------------------------------------------

  function NonBlank(lines: seq<string>): seq<string> {
    if lines == [] then [] else if lines[0] == "" then NonBlank(lines[1..]) else [lines[0]] + NonBlank(lines[1..])
  }

  lemma {:induction false} NonBlankAppend(a: seq<string>, b: seq<string>)
    ensures NonBlank(a + b) == NonBlank(a) + NonBlank(b)
  {
    if a == [] {
      assert a + b == b;
    } else {
      var first := if a[0] == "" then [] else [a[0]];
      NonBlankAppend(a[1..], b);
      assert (a + b)[0] == a[0] && (a + b)[1..] == a[1..] + b;
      assert NonBlank(a) == first + NonBlank(a[1..]) && NonBlank(a + b) == first + NonBlank(a[1..] + b);
      Associate(first, NonBlank(a[1..]), NonBlank(b));
    }
  }

  lemma NonBlankPart(out: seq<string>, part: seq<string>)
    ensures NonBlank(AppendPart(out, part)) == NonBlank(out) + NonBlank(part)
  {
    if part != [] {
      var gap := if out != [] && out[|out| - 1] != "" then [""] else [];
      assert NonBlank(gap) == [];
      NonBlankAcrossGap(out, gap, part);
    }
  }

  lemma NonBlankAcrossGap(out: seq<string>, gap: seq<string>, part: seq<string>)
    requires NonBlank(gap) == []
    ensures NonBlank(out + gap + part) == NonBlank(out) + NonBlank(part)
  {
    NonBlankAppend(out, gap);
    NonBlankAppend(out + gap, part);
    assert NonBlank(out) + [] == NonBlank(out);
  }

  /** The lines of a forest in order. */
  function ForestLines(forest: seq<Section>): seq<string> {
    EntryLines(Preorder(forest))
  }

  lemma {:induction false} PreorderAppend(a: seq<Section>, b: seq<Section>)
    ensures Preorder(a + b) == Preorder(a) + Preorder(b)
  {
    if a == [] {
      assert a + b == b;
    } else {
      var first := [Entry(a[0].raw, a[0].body)] + Preorder(a[0].children);
      PreorderAppend(a[1..], b);
      assert (a + b)[0] == a[0] && (a + b)[1..] == a[1..] + b;
      assert Preorder(a) == first + Preorder(a[1..]) && Preorder(a + b) == first + Preorder(a[1..] + b);
      Associate(first, Preorder(a[1..]), Preorder(b));
    }
  }

  lemma ForestLinesAppend(a: seq<Section>, b: seq<Section>)
    ensures ForestLines(a + b) == ForestLines(a) + ForestLines(b)
  {
    PreorderAppend(a, b);
    EntryLinesAppend(Preorder(a), Preorder(b));
  }

  lemma ForestLinesOfOne(s: Section)
    ensures ForestLines([s]) == [s.raw] + s.body + ForestLines(s.children)
  {
    var head := Entry(s.raw, s.body);
    assert [s][1..] == [];
    assert Preorder([s]) == [head] + Preorder(s.children);
    EntryLinesAppend([head], Preorder(s.children));
    assert [head][1..] == [] && EntryLines([head]) == head.Lines();
  }

  lemma {:induction false} ExtractPrintsPruned(r: Reader, node: Section, step: string, inherited: Steps)
    ensures NonBlank(Extract(r, node, step, inherited)) == NonBlank(ForestLines(Prune(r, [node], step, inherited)))
    ensures Extract(r, node, step, inherited) == [] <==> Prune(r, [node], step, inherited) == []
    decreases node, 1
  {
    var effective := Resolve(r.tag(node.raw), inherited);
    var kids := Prune(r, node.children, step, effective);
    var parts := ExtractEach(r, node.children, step, effective);
    var body := if Matches(effective, step) then node.body else [];
    var heading := [r.clean(node.raw)];
    PartsPrintPruned(r, heading + body, node.children, step, effective);
    assert [node][1..] == [];
    assert heading + [] == heading;
    if Matches(effective, step) || kids != [] {
      var kept := Section(r.clean(node.raw), body, kids);
      assert Prune(r, [node], step, inherited) == [kept];
      ForestLinesOfOne(kept);
      NonBlankAppend(heading + body, ForestLines(kids));
    }
  }

  lemma {:induction false} PartsPrintPruned(
    r: Reader, out: seq<string>, nodes: seq<Section>, step: string, inherited: Steps)
    ensures NonBlank(AppendParts(out, ExtractEach(r, nodes, step, inherited)))
         == NonBlank(out) + NonBlank(ForestLines(Prune(r, nodes, step, inherited)))
    ensures AnyPart(ExtractEach(r, nodes, step, inherited)) <==> Prune(r, nodes, step, inherited) != []
    ensures |AppendParts(out, ExtractEach(r, nodes, step, inherited))| >= |out|
    decreases nodes, 0
  {
    if nodes == [] {
      assert NonBlank(out) + [] == NonBlank(out);
    } else {
      var part := Extract(r, nodes[0], step, inherited);
      var first, rest := Prune(r, [nodes[0]], step, inherited), Prune(r, nodes[1..], step, inherited);
      ExtractPrintsPruned(r, nodes[0], step, inherited);
      PartsPrintPruned(r, AppendPart(out, part), nodes[1..], step, inherited);
      PruneFirst(r, nodes, step, inherited);
      FirstPartPrints(out, part, first, rest);
      var parts := ExtractEach(r, nodes, step, inherited);
      assert parts[0] == part && parts[1..] == ExtractEach(r, nodes[1..], step, inherited);
    }
  }

  lemma PruneFirst(r: Reader, nodes: seq<Section>, step: string, inherited: Steps)
    requires nodes != []
    ensures Prune(r, nodes, step, inherited)
      == Prune(r, [nodes[0]], step, inherited) + Prune(r, nodes[1..], step, inherited)
  {
    assert [nodes[0]][1..] == [];
  }

  lemma FirstPartPrints(out: seq<string>, part: seq<string>, first: seq<Section>, rest: seq<Section>)
    requires NonBlank(part) == NonBlank(ForestLines(first))
    ensures NonBlank(AppendPart(out, part)) + NonBlank(ForestLines(rest))
      == NonBlank(out) + NonBlank(ForestLines(first + rest))
  {
    NonBlankPart(out, part);
    NonBlankForest(first, rest);
    Associate(NonBlank(out), NonBlank(part), NonBlank(ForestLines(rest)));
  }

  lemma NonBlankForest(first: seq<Section>, rest: seq<Section>)
    ensures NonBlank(ForestLines(first + rest)) == NonBlank(ForestLines(first)) + NonBlank(ForestLines(rest))
  {
    ForestLinesAppend(first, rest);
    NonBlankAppend(ForestLines(first), ForestLines(rest));
  }

  // ---------------------------------------------------------------------------
  // Packets keep nesting
  // ---------------------------------------------------------------------------

  function StripEntries(es: seq<Entry>): (stripped: seq<Entry>)
    ensures |stripped| == |es|
  {
    seq(|es|, i requires 0 <= i < |es| => Entry(es[i].raw, NonBlank(es[i].body)))
  }

  function StripForest(forest: seq<Section>): seq<Section> {
    if forest == [] then []
    else [Section(forest[0].raw, NonBlank(forest[0].body), StripForest(forest[0].children))] + StripForest(forest[1..])
  }

  function StripDocument(d: Document): Document {
    Document(NonBlank(d.preamble), StripEntries(d.entries))
  }

  lemma StripAddLine(d: Document, line: string)
    ensures StripDocument(AddLine(d, line)) == if line == "" then StripDocument(d) else AddLine(StripDocument(d), line)
  {
    assert NonBlank([line]) == if line == "" then [] else [line];
    var es := d.entries;
    if Level(line) > 0 {
      assert StripEntries(es + [Entry(line, [])]) == StripEntries(es) + [Entry(line, [])];
    } else if es == [] {
      NonBlankAppend(d.preamble, [line]);
    } else {
      var n := |es| - 1;
      NonBlankAppend(es[n].body, [line]);
      assert StripEntries(AddLine(d, line).entries)
          == StripEntries(es)[n := Entry(es[n].raw, NonBlank(es[n].body) + NonBlank([line]))];
      if line == "" { assert NonBlank(es[n].body) + [] == NonBlank(es[n].body); }
    }
  }

  /** Dropping blank lines first or last makes no difference. */
  lemma {:induction false} StripSplit(lines: seq<string>)
    ensures Split(NonBlank(lines)) == StripDocument(Split(lines))
  {
    if lines == [] {
      assert StripEntries([]) == [];
    } else {
      var front, line := lines[..|lines| - 1], lines[|lines| - 1];
      StripSplit(front);
      StripAddLine(Split(front), line);
      NonBlankAppend(front, [line]);
      assert lines == front + [line] && NonBlank([line]) == if line == "" then [] else [line];
      SplitAppend(NonBlank(front), NonBlank([line]));
    }
  }

  lemma {:induction false} StripExtent(es: seq<Entry>, k: nat)
    requires 1 <= k <= |es|
    ensures Extent(StripEntries(es), k) == Extent(es, k)
    decreases |es| - k
  {
    if k < |es| && es[k].Depth() > es[0].Depth() { StripExtent(es, k + 1); }
  }

  lemma StripSlices(es: seq<Entry>, n: nat)
    requires 1 <= n <= |es|
    ensures StripEntries(es)[1..n] == StripEntries(es[1..n]) && StripEntries(es)[n..] == StripEntries(es[n..])
  {
  }

  lemma StripFirst(first: Section, rest: seq<Section>)
    ensures StripForest([first] + rest)
         == [Section(first.raw, NonBlank(first.body), StripForest(first.children))] + StripForest(rest)
  {
    assert ([first] + rest)[1..] == rest;
  }

  lemma {:induction false} StripBuild(es: seq<Entry>)
    ensures Build(StripEntries(es)) == StripForest(Build(es))
    decreases |es|
  {
    if es != [] {
      var n, stripped := Extent(es), StripEntries(es);
      StripExtent(es, 1);
      StripBuild(es[1..n]);
      StripBuild(es[n..]);
      StripSlices(es, n);
      BuildOfParts(es, n);
      BuildOfParts(stripped, n);
      StripFirst(Section(es[0].raw, es[0].body, Build(es[1..n])), Build(es[n..]));
    }
  }

  /** Every heading the packet keeps is, without its tag, a heading of the same level. */
  predicate HeadingsStay(r: Reader, nodes: seq<Section>, step: string, inherited: Steps)
    decreases nodes
  {
    nodes == []
    || (var effective := Resolve(r.tag(nodes[0].raw), inherited);
        && (Prune(r, [nodes[0]], step, inherited) != [] ==> Level(r.clean(nodes[0].raw)) == nodes[0].Depth())
        && HeadingsStay(r, nodes[0].children, step, effective)
        && HeadingsStay(r, nodes[1..], step, inherited))
  }

  lemma {:induction false} PruneIsWellNested(r: Reader, nodes: seq<Section>, step: string, inherited: Steps, above: nat)
    requires WellNested(nodes, above) && HeadingsStay(r, nodes, step, inherited)
    ensures WellNested(Prune(r, nodes, step, inherited), above)
    ensures Prune(r, nodes, step, inherited) != [] ==> Prune(r, nodes, step, inherited)[0].Depth() <= nodes[0].Depth()
    decreases nodes
  {
    if nodes != [] {
      var node := nodes[0];
      var effective := Resolve(r.tag(node.raw), inherited);
      PruneIsWellNested(r, node.children, step, effective, node.Depth());
      PruneIsWellNested(r, nodes[1..], step, inherited, above);
      var first, rest := Prune(r, [node], step, inherited), Prune(r, nodes[1..], step, inherited);
      PruneFirst(r, nodes, step, inherited);
      if first == [] {
        assert first + rest == rest;
      } else {
        var kids := Prune(r, node.children, step, effective);
        assert [node][1..] == [];
        assert first == [Section(r.clean(node.raw), if Matches(effective, step) then node.body else [], kids)];
        assert (first + rest)[1..] == rest;
      }
    }
  }

  predicate PlainBodies(es: seq<Entry>) {
    forall k :: 0 <= k < |es| ==> NoHeadings(es[k].body)
  }

  lemma PlainBodiesAppend(a: seq<Entry>, b: seq<Entry>)
    ensures PlainBodies(a + b) <==> PlainBodies(a) && PlainBodies(b)
  {
    assert forall k :: 0 <= k < |a| ==> (a + b)[k] == a[k];
    assert forall k :: 0 <= k < |b| ==> (a + b)[|a| + k] == b[k];
  }

  /** The bodies of a forest, section by section. */
  lemma PlainForest(first: Section, rest: seq<Section>)
    ensures PlainBodies(Preorder([first] + rest))
       <==> NoHeadings(first.body) && PlainBodies(Preorder(first.children)) && PlainBodies(Preorder(rest))
  {
    var head := [Entry(first.raw, first.body)];
    PreorderOfFirst(first, rest);
    PlainBodiesAppend(head + Preorder(first.children), Preorder(rest));
    PlainBodiesAppend(head, Preorder(first.children));
    assert head[0].body == first.body;
  }

  /** Pruning puts no line into a body that was not in one. */
  lemma {:induction false} PruneKeepsBodies(r: Reader, nodes: seq<Section>, step: string, inherited: Steps)
    requires PlainBodies(Preorder(nodes))
    ensures PlainBodies(Preorder(Prune(r, nodes, step, inherited)))
    decreases nodes
  {
    if nodes != [] {
      var node, rest := nodes[0], nodes[1..];
      var effective := Resolve(r.tag(node.raw), inherited);
      assert nodes == [node] + rest;
      PlainForest(node, rest);
      PruneKeepsBodies(r, node.children, step, effective);
      PruneKeepsBodies(r, rest, step, inherited);
      KeptBodies(r, node, rest, step, inherited);
    }
  }

  lemma KeptBodies(r: Reader, node: Section, rest: seq<Section>, step: string, inherited: Steps)
    requires var effective := Resolve(r.tag(node.raw), inherited);
      NoHeadings(node.body) && PlainBodies(Preorder(Prune(r, node.children, step, effective)))
    requires PlainBodies(Preorder(Prune(r, rest, step, inherited)))
    ensures PlainBodies(Preorder(Prune(r, [node] + rest, step, inherited)))
  {
    var effective := Resolve(r.tag(node.raw), inherited);
    var kids := Prune(r, node.children, step, effective);
    var later := Prune(r, rest, step, inherited);
    var kept := Section(r.clean(node.raw), if Matches(effective, step) then node.body else [], kids);
    assert ([node] + rest)[1..] == rest;
    if Matches(effective, step) || kids != [] {
      assert Prune(r, [node] + rest, step, inherited) == [kept] + later;
      PlainForest(kept, later);
    } else {
      assert Prune(r, [node] + rest, step, inherited) == [] + later == later;
    }
  }

  /** Nesting is a matter of the headings alone. */
  lemma {:induction false} StripKeepsNesting(forest: seq<Section>, above: nat)
    ensures WellNested(StripForest(forest), above) <==> WellNested(forest, above)
    decreases forest
  {
    if forest != [] {
      var first, rest := forest[0], forest[1..];
      StripKeepsNesting(first.children, first.Depth());
      StripKeepsNesting(rest, above);
      StripHeads(forest);
    }
  }

  lemma StripHeads(forest: seq<Section>)
    requires forest != []
    ensures var stripped := StripForest(forest);
      && stripped != [] && stripped[0].raw == forest[0].raw
      && stripped[0].children == StripForest(forest[0].children) && stripped[1..] == StripForest(forest[1..])
      && |stripped| == 1 + |StripForest(forest[1..])|
      && (|forest| > 1 <==> |stripped| > 1) && (|forest| > 1 ==> stripped[1].raw == forest[1].raw)
  {
  }

  lemma NestedIsValid(forest: seq<Section>)
    requires WellNested(forest, 0) && PlainBodies(Preorder(forest))
    ensures ValidEntries(Preorder(forest))
  {
    PreorderIsDeeper(forest, 0);
  }

  /** Blank lines aside, the packet splits like the printed pruned forest. */
  lemma PacketSplits(r: Reader, roots: seq<Section>, step: string)
    ensures var pruned := Prune(r, roots, step, {});
      && StripForest(Parse(Packet(r, [], roots, step)).roots) == StripForest(Parse(ForestLines(pruned)).roots)
      && NonBlank(Parse(Packet(r, [], roots, step)).preamble) == NonBlank(Parse(ForestLines(pruned)).preamble)
  {
    var packet, lines := Packet(r, [], roots, step), ForestLines(Prune(r, roots, step, {}));
    PartsPrintPruned(r, [], roots, step, {});
    assert NonBlank([]) + NonBlank(lines) == NonBlank(lines);
    StripSplit(packet);
    StripSplit(lines);
    StripBuild(Split(packet).entries);
    StripBuild(Split(lines).entries);
  }

  lemma PrintedPrunedParses(pruned: seq<Section>)
    requires WellNested(pruned, 0) && PlainBodies(Preorder(pruned))
    ensures Parse(ForestLines(pruned)) == Outline([], pruned)
  {
    NestedIsValid(pruned);
    ParseOfPrint(Outline([], pruned));
    assert Print(Outline([], pruned)) == ForestLines(pruned);
  }

  /** Parsing the extracted lines again puts every heading that survived under the
      parent it had exactly if the headings, without their tags, are still nested: then,
      blank lines aside, what is parsed is the pruned forest. */
  lemma PacketsKeepNestingExactly(r: Reader, roots: seq<Section>, step: string)
    requires ValidEntries(Preorder(roots))
    ensures var parsed, pruned := Parse(Packet(r, [], roots, step)), Prune(r, roots, step, {});
      && (StripForest(parsed.roots) == StripForest(pruned) <==> WellNested(pruned, 0))
      && (WellNested(pruned, 0) ==> NonBlank(parsed.preamble) == [])
  {
    var pruned, packet := Prune(r, roots, step, {}), Packet(r, [], roots, step);
    PacketSplits(r, roots, step);
    PruneKeepsBodies(r, roots, step, {});
    if WellNested(pruned, 0) {
      PrintedPrunedParses(pruned);
    } else {
      PrintOfParse(packet);
      StripKeepsNesting(Parse(packet).roots, 0);
      StripKeepsNesting(pruned, 0);
    }
  }

  /** So nesting is kept whenever every kept heading keeps its level. */
  lemma PacketsKeepNesting(r: Reader, roots: seq<Section>, step: string)
    requires ValidEntries(Preorder(roots)) && WellNested(roots, 0)
    requires HeadingsStay(r, roots, step, {})
    ensures StripForest(Parse(Packet(r, [], roots, step)).roots) == StripForest(Prune(r, roots, step, {}))
    ensures NonBlank(Parse(Packet(r, [], roots, step)).preamble) == []
  {
    PruneIsWellNested(r, roots, step, {}, 0);
    PacketsKeepNestingExactly(r, roots, step);
  }
}
