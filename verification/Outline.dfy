/** Markdown outlines: a document is a preamble and a forest of sections.

    Modelled on routines/idea-to-plan-scoped/scripts/extract_ctx.py, `parse_document`.  */
module Outline {
  import opened Common

  // ---------------------------------------------------------------------------
  // Lines and headings
  // ---------------------------------------------------------------------------

  function TrimRight(s: string): string {
    if s != "" && IsSpace(s[|s| - 1]) then TrimRight(s[..|s| - 1]) else s
  }

  /** The white space at the end goes, and nothing else. */
  lemma {:induction false} TrimmedExactly(s: string)
    ensures TrimRight(s) <= s && (TrimRight(s) != "" ==> !IsSpace(TrimRight(s)[|TrimRight(s)| - 1]))
    ensures forall k :: |TrimRight(s)| <= k < |s| ==> IsSpace(s[k])
  {
    if s != "" && IsSpace(s[|s| - 1]) { TrimmedExactly(s[..|s| - 1]); }
  }

  function Hashes(line: string): (n: nat)
    ensures n <= |line|
  {
    if line == "" || line[0] != '#' then 0 else 1 + Hashes(line[1..])
  }

  /** One to six hashes and a space make a heading; 0 is no heading. */
  function Level(line: string): nat {
    var n := Hashes(line);
    if 1 <= n <= 6 && n < |line| && IsSpace(line[n]) then n else 0
  }

  lemma {:induction false} HashesAre(line: string, n: nat)
    requires n <= |line| && (forall k :: 0 <= k < n ==> line[k] == '#') && (n < |line| ==> line[n] != '#')
    ensures Hashes(line) == n
  {
    if n > 0 { HashesAre(line[1..], n - 1); }
  }

  lemma {:induction false} HashesStand(line: string)
    ensures forall k :: 0 <= k < Hashes(line) ==> line[k] == '#'
    ensures Hashes(line) < |line| ==> line[Hashes(line)] != '#'
  {
    if line != "" && line[0] == '#' { HashesStand(line[1..]); }
  }

  /** A heading of level n: n hashes, one to six, with white space behind them. */
  lemma LevelExactly(line: string, n: nat)
    requires n > 0
    ensures Level(line) == n
       <==> n <= 6 && n < |line| && (forall k :: 0 <= k < n ==> line[k] == '#') && IsSpace(line[n])
  {
    HashesStand(line);
    if n < |line| && (forall k :: 0 <= k < n ==> line[k] == '#') && IsSpace(line[n]) { HashesAre(line, n); }
  }

  /** A heading with the lines up to the next one. */
  datatype Entry = Entry(raw: string, body: seq<string>)
  {
    function Depth(): nat { Level(raw) }
    function Lines(): seq<string> { [raw] + body }
  }

  datatype Section = Section(raw: string, body: seq<string>, children: seq<Section>)
  {
    function Depth(): nat { Level(raw) }
  }

  // ---------------------------------------------------------------------------
  // Documents as flat lists of entries
  // ---------------------------------------------------------------------------

  datatype Document = Document(preamble: seq<string>, entries: seq<Entry>)

  function AddLine(d: Document, line: string): Document {
    if Level(line) > 0 then d.(entries := d.entries + [Entry(line, [])])
    else if d.entries == [] then d.(preamble := d.preamble + [line])
    else
      var last := d.entries[|d.entries| - 1];
      d.(entries := d.entries[|d.entries| - 1 := last.(body := last.body + [line])])
  }

  function Split(lines: seq<string>): Document {
    if lines == [] then Document([], []) else AddLine(Split(lines[..|lines| - 1]), lines[|lines| - 1])
  }

  function EntryLines(es: seq<Entry>): seq<string> {
    if es == [] then [] else es[0].Lines() + EntryLines(es[1..])
  }

  lemma {:induction false} EntryLinesAppend(a: seq<Entry>, b: seq<Entry>)
    ensures EntryLines(a + b) == EntryLines(a) + EntryLines(b)
  {
    if a == [] {
      assert a + b == b;
    } else {
      EntryLinesAppend(a[1..], b);
      assert (a + b)[1..] == a[1..] + b;
    }
  }

  predicate NoHeadings(lines: seq<string>) {
    forall l :: l in lines ==> Level(l) == 0
  }

  predicate ValidEntries(es: seq<Entry>) {
    forall e :: e in es ==> e.Depth() > 0 && NoHeadings(e.body)
  }

  function LinesOf(d: Document): seq<string> {
    d.preamble + EntryLines(d.entries)
  }

  predicate ValidDocument(d: Document) {
    NoHeadings(d.preamble) && ValidEntries(d.entries)
  }

  /** One more line of body, or of preamble. */
  function Extend(d: Document, lines: seq<string>): Document {
    if d.entries == [] then d.(preamble := d.preamble + lines)
    else
      var n := |d.entries| - 1;
      d.(entries := d.entries[..n] + [Entry(d.entries[n].raw, d.entries[n].body + lines)])
  }

  lemma AddLineExtends(d: Document, line: string)
    requires Level(line) == 0
    ensures AddLine(d, line) == Extend(d, [line])
  {
  }

  lemma ExtendKeepsLines(d: Document, lines: seq<string>)
    ensures LinesOf(Extend(d, lines)) == LinesOf(d) + lines
  {
    if d.entries != [] {
      var n := |d.entries| - 1;
      var last := Entry(d.entries[n].raw, d.entries[n].body + lines);
      assert d.entries == d.entries[..n] + [d.entries[n]];
      EntryLinesAppend(d.entries[..n], [d.entries[n]]);
      EntryLinesAppend(d.entries[..n], [last]);
      assert EntryLines([last]) == last.Lines() && EntryLines([d.entries[n]]) == d.entries[n].Lines();
      assert last.Lines() == d.entries[n].Lines() + lines;
    }
  }

  lemma AddLineKeepsLines(d: Document, line: string)
    requires ValidDocument(d)
    ensures LinesOf(AddLine(d, line)) == LinesOf(d) + [line] && ValidDocument(AddLine(d, line))
  {
    if Level(line) > 0 {
      EntryLinesAppend(d.entries, [Entry(line, [])]);
      assert EntryLines([Entry(line, [])]) == [line];
    } else {
      AddLineExtends(d, line);
      ExtendKeepsLines(d, [line]);
    }
  }

  /** Splitting loses no line and puts headings nowhere but at the head of an entry. */
  lemma {:induction false} SplitKeepsLines(lines: seq<string>)
    ensures LinesOf(Split(lines)) == lines && ValidDocument(Split(lines))
  {
    if lines != [] {
      SplitKeepsLines(lines[..|lines| - 1]);
      AddLineKeepsLines(Split(lines[..|lines| - 1]), lines[|lines| - 1]);
    }
  }

  lemma {:induction false} SplitAppend(a: seq<string>, b: seq<string>)
    ensures Split(a + b) == AddLines(Split(a), b)
  {
    if b == [] {
      assert a + b == a;
    } else {
      SplitAppend(a, b[..|b| - 1]);
      assert (a + b)[..|a + b| - 1] == a + b[..|b| - 1];
    }
  }

  function AddLines(d: Document, lines: seq<string>): Document {
    if lines == [] then d else AddLine(AddLines(d, lines[..|lines| - 1]), lines[|lines| - 1])
  }

  lemma ExtendTwice(d: Document, a: seq<string>, b: seq<string>)
    ensures Extend(Extend(d, a), b) == Extend(d, a + b)
  {
    assert d.preamble + a + b == d.preamble + (a + b);
    if d.entries != [] {
      var body := d.entries[|d.entries| - 1].body;
      assert body + a + b == body + (a + b);
    }
  }

  lemma {:induction false} AddBody(d: Document, lines: seq<string>)
    requires NoHeadings(lines)
    ensures AddLines(d, lines) == Extend(d, lines)
  {
    if lines == [] {
      assert d.preamble + [] == d.preamble;
      if d.entries != [] {
        var n := |d.entries| - 1;
        assert d.entries[n].body + [] == d.entries[n].body && d.entries == d.entries[..n] + [d.entries[n]];
      }
    } else {
      var front, line := lines[..|lines| - 1], lines[|lines| - 1];
      AddBody(d, front);
      AddLineExtends(Extend(d, front), line);
      ExtendTwice(d, front, [line]);
      assert front + [line] == lines;
    }
  }

  lemma AddEntry(d: Document, e: Entry)
    requires e.Depth() > 0 && NoHeadings(e.body)
    ensures AddLines(d, e.Lines()) == d.(entries := d.entries + [e])
  {
    var start := d.(entries := d.entries + [Entry(e.raw, [])]);
    AddLinesAppend(d, [e.raw], e.body);
    assert [e.raw][..0] == [];
    assert AddLines(d, [e.raw]) == start;
    AddBody(start, e.body);
    assert [] + e.body == e.body;
  }

  lemma {:induction false} AddLinesAppend(d: Document, a: seq<string>, b: seq<string>)
    ensures AddLines(d, a + b) == AddLines(AddLines(d, a), b)
  {
    if b == [] {
      assert a + b == a;
    } else {
      AddLinesAppend(d, a, b[..|b| - 1]);
      assert (a + b)[..|a + b| - 1] == a + b[..|b| - 1];
    }
  }

  lemma {:induction false} AddEntries(d: Document, es: seq<Entry>)
    requires ValidEntries(es)
    ensures AddLines(d, EntryLines(es)) == d.(entries := d.entries + es)
    decreases es
  {
    if es == [] {
      assert d.entries + es == d.entries;
    } else {
      var next := d.(entries := d.entries + [es[0]]);
      AddLinesAppend(d, es[0].Lines(), EntryLines(es[1..]));
      AddEntry(d, es[0]);
      AddEntries(next, es[1..]);
      FirstAndRest(d.entries, es);
    }
  }

  lemma FirstAndRest<T>(a: seq<T>, b: seq<T>)
    requires b != []
    ensures a + [b[0]] + b[1..] == a + b
  {
  }

  /** Splitting the lines of any valid document gives that document back. */
  lemma SplitOfLines(preamble: seq<string>, es: seq<Entry>)
    requires NoHeadings(preamble) && ValidEntries(es)
    ensures Split(preamble + EntryLines(es)) == Document(preamble, es)
  {
    SplitOfText(preamble);
    SplitAppend(preamble, EntryLines(es));
    AddEntries(Document(preamble, []), es);
  }

  lemma SplitOfText(preamble: seq<string>)
    requires NoHeadings(preamble)
    ensures Split(preamble) == Document(preamble, [])
  {
    SplitAppend([], preamble);
    assert [] + preamble == preamble;
    AddBody(Document([], []), preamble);
  }

  // ---------------------------------------------------------------------------
  // Forests
  // ---------------------------------------------------------------------------

  /** The first entry's section reaches up to the next heading that is not deeper. */
  function Extent(es: seq<Entry>, k: nat := 1): (n: nat)
    requires 1 <= k <= |es|
    ensures k <= n <= |es|
    ensures forall j :: k <= j < n ==> es[j].Depth() > es[0].Depth()
    ensures n < |es| ==> es[n].Depth() <= es[0].Depth()
    decreases |es| - k
  {
    if k == |es| || es[k].Depth() <= es[0].Depth() then k else Extent(es, k + 1)
  }

  function Build(es: seq<Entry>): seq<Section>
    decreases |es|
  {
    if es == [] then []
    else
      var n := Extent(es);
      [Section(es[0].raw, es[0].body, Build(es[1..n]))] + Build(es[n..])
  }

  lemma BuildOfParts(es: seq<Entry>, n: nat)
    requires es != [] && n == Extent(es)
    ensures Build(es) == [Section(es[0].raw, es[0].body, Build(es[1..n]))] + Build(es[n..])
  {
  }

  function Preorder(forest: seq<Section>): seq<Entry> {
    if forest == [] then []
    else [Entry(forest[0].raw, forest[0].body)] + Preorder(forest[0].children) + Preorder(forest[1..])
  }

  /** Children are deeper than their parent, and no sibling is deeper than the one
      before it. */
  predicate WellNested(forest: seq<Section>, above: nat)
    decreases forest
  {
    forest == []
    || (&& forest[0].Depth() > above
        && WellNested(forest[0].children, forest[0].Depth())
        && (|forest| > 1 ==> forest[1].Depth() <= forest[0].Depth())
        && WellNested(forest[1..], above))
  }

  lemma {:induction false} PreorderOfBuild(es: seq<Entry>)
    ensures Preorder(Build(es)) == es
    decreases |es|
  {
    if es != [] {
      var n := Extent(es);
      PreorderOfBuild(es[1..n]);
      PreorderOfBuild(es[n..]);
      PreorderOfFirst(Section(es[0].raw, es[0].body, Build(es[1..n])), Build(es[n..]));
      Thirds(es, n);
      assert Entry(es[0].raw, es[0].body) == es[0];
    }
  }

  lemma PreorderOfFirst(first: Section, rest: seq<Section>)
    ensures Preorder([first] + rest) == [Entry(first.raw, first.body)] + Preorder(first.children) + Preorder(rest)
  {
    assert ([first] + rest)[1..] == rest;
  }

  lemma Thirds<T>(a: seq<T>, n: nat)
    requires 1 <= n <= |a|
    ensures a == [a[0]] + a[1..n] + a[n..]
  {
  }

  lemma {:induction false} BuildIsWellNested(es: seq<Entry>, above: nat)
    requires forall e :: e in es ==> e.Depth() > above
    ensures WellNested(Build(es), above)
    ensures es != [] ==> Build(es) != [] && Build(es)[0].raw == es[0].raw
    decreases |es|
  {
    if es != [] {
      var n := Extent(es);
      BuildIsWellNested(es[1..n], es[0].Depth());
      BuildIsWellNested(es[n..], above);
    }
  }

  /** Everything below is deeper. */
  lemma {:induction false} PreorderIsDeeper(forest: seq<Section>, above: nat)
    requires WellNested(forest, above)
    ensures forall e :: e in Preorder(forest) ==> e.Depth() > above
  {
    if forest != [] {
      PreorderIsDeeper(forest[0].children, forest[0].Depth());
      PreorderIsDeeper(forest[1..], above);
    }
  }

  lemma ExtentIs(es: seq<Entry>, n: nat)
    requires 1 <= n <= |es|
    requires forall j :: 1 <= j < n ==> es[j].Depth() > es[0].Depth()
    requires n < |es| ==> es[n].Depth() <= es[0].Depth()
    ensures Extent(es) == n
  {
  }

  /** Building from the preorder of a well-nested forest gives the forest back. */
  lemma {:induction false} BuildOfPreorder(forest: seq<Section>, above: nat)
    requires WellNested(forest, above)
    ensures Build(Preorder(forest)) == forest
    decreases forest
  {
    if forest != [] {
      var f, rest := forest[0], forest[1..];
      var head, inner, outer := Entry(f.raw, f.body), Preorder(f.children), Preorder(rest);
      PreorderIsDeeper(f.children, f.Depth());
      ExtentOfParts(head, inner, outer);
      PreorderOfFirst(f, rest);
      assert forest == [f] + rest;
      BuildOfParts([head] + inner + outer, 1 + |inner|);
      BuildOfPreorder(f.children, f.Depth());
      BuildOfPreorder(rest, above);
    }
  }

  /** A heading, deeper ones, and then one that is not deeper. */
  lemma ExtentOfParts(head: Entry, inner: seq<Entry>, outer: seq<Entry>)
    requires forall e :: e in inner ==> e.Depth() > head.Depth()
    requires outer != [] ==> outer[0].Depth() <= head.Depth()
    ensures var es, n := [head] + inner + outer, 1 + |inner|;
      Extent(es) == n && es[1..n] == inner && es[n..] == outer && es[0] == head
  {
    var es, n := [head] + inner + outer, 1 + |inner|;
    assert forall j :: 1 <= j < n ==> es[j] == inner[j - 1];
    if outer != [] { assert es[n] == outer[0]; }
    ExtentIs(es, n);
  }

  // ---------------------------------------------------------------------------
  // Parsing and printing
  // ---------------------------------------------------------------------------

  datatype Outline = Outline(preamble: seq<string>, roots: seq<Section>)

  function Parse(lines: seq<string>): Outline {
    var d := Split(lines);
    Outline(d.preamble, Build(d.entries))
  }

  function Print(o: Outline): seq<string> {
    o.preamble + EntryLines(Preorder(o.roots))
  }

  predicate ValidOutline(o: Outline) {
    NoHeadings(o.preamble) && ValidEntries(Preorder(o.roots)) && WellNested(o.roots, 0)
  }

  /** Printing what was parsed gives the very lines back. */
  lemma PrintOfParse(lines: seq<string>)
    ensures Print(Parse(lines)) == lines && ValidOutline(Parse(lines))
  {
    SplitKeepsLines(lines);
    PreorderOfBuild(Split(lines).entries);
    BuildIsWellNested(Split(lines).entries, 0);
  }

  /** Parsing what was printed gives the very outline back. */
  lemma ParseOfPrint(o: Outline)
    requires ValidOutline(o)
    ensures Parse(Print(o)) == o
  {
    SplitOfLines(o.preamble, Preorder(o.roots));
    BuildOfPreorder(o.roots, 0);
  }
}
