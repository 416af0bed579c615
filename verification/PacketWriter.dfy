/** The loops that extract a packet and collect untagged headings, over growing lists.

    Modelled on routines/idea-to-plan-scoped/scripts/extract_ctx.py, `_extract`,
    `_collect_uncovered` and `write_doc_packet`.  */
module PacketWriter {
  import opened Common
  import opened Outline
  import opened ContextPacket
  import opened PacketContents

  function NonEmpty(parts: seq<seq<string>>): (kept: seq<seq<string>>)
    ensures forall k :: 0 <= k < |kept| ==> kept[k] != []
  {
    if parts == [] then [] else (if parts[0] != [] then [parts[0]] else []) + NonEmpty(parts[1..])
  }

  lemma {:induction false} NonEmptyParts(out: seq<string>, parts: seq<seq<string>>)
    ensures AppendParts(out, NonEmpty(parts)) == AppendParts(out, parts)
    ensures AnyPart(parts) <==> NonEmpty(parts) != []
    decreases parts
  {
    if parts != [] {
      NonEmptyParts(AppendPart(out, parts[0]), parts[1..]);
      if parts[0] != [] {
        assert NonEmpty(parts)[0] == parts[0] && NonEmpty(parts)[1..] == NonEmpty(parts[1..]);
      } else {
        assert NonEmpty(parts) == NonEmpty(parts[1..]);
      }
    }
  }

  lemma EachFrom(r: Reader, nodes: seq<Section>, i: nat, step: string, effective: Steps)
    requires i < |nodes|
    ensures ExtractEach(r, nodes[i..], step, effective)
         == [Extract(r, nodes[i], step, effective)] + ExtractEach(r, nodes[i + 1..], step, effective)
  {
    assert nodes[i..][0] == nodes[i] && nodes[i..][1..] == nodes[i + 1..];
  }

  /** A part goes in after a blank line, unless one is there already. */
  method Append(out: seq<string>, part: seq<string>) returns (longer: seq<string>)
    requires part != []
    ensures longer == AppendPart(out, part)
  {
    longer := out;
    if longer != [] && longer[|longer| - 1] != "" {
      longer := longer + [""];
    } else {
      assert out + [] == out;
    }
    longer := longer + part;
  }

  method ExtractSection(r: Reader, node: Section, step: string, inherited: Steps) returns (out: seq<string>)
    ensures out == Extract(r, node, step, inherited)
    decreases node, 1
  {
    var effective := Resolve(r.tag(node.raw), inherited);
    if Matches(effective, step) {
      out := [r.clean(node.raw)] + node.body;
      out := ExtractChildren(r, node.children, step, effective, out);
      return;
    }
    out := ExtractAround(r, node, step, effective);
  }

  /** A section left out shows as a bare heading if something below it is in. */
  method ExtractAround(r: Reader, node: Section, step: string, effective: Steps) returns (out: seq<string>)
    ensures var parts := ExtractEach(r, node.children, step, effective);
      out == if AnyPart(parts) then AppendParts([r.clean(node.raw)], parts) else []
    decreases node, 0
  {
    var parts := ExtractParts(r, node.children, step, effective);
    NonEmptyParts([r.clean(node.raw)], ExtractEach(r, node.children, step, effective));
    if parts == [] { return []; }
    out := AppendAll([r.clean(node.raw)], parts);
  }

  /** The loop of an included section: whatever a child has goes straight into the list. */
  method ExtractChildren(r: Reader, nodes: seq<Section>, step: string, effective: Steps, start: seq<string>)
    returns (out: seq<string>)
    ensures out == AppendParts(start, ExtractEach(r, nodes, step, effective))
    decreases nodes, 0
  {
    out := start;
    var i := 0;
    while i < |nodes|
      invariant 0 <= i <= |nodes|
      invariant AppendParts(out, ExtractEach(r, nodes[i..], step, effective))
             == AppendParts(start, ExtractEach(r, nodes, step, effective))
    {
      var part := ExtractSection(r, nodes[i], step, effective);
      NextPart(r, nodes, i, step, effective, out);
      if part != [] { out := Append(out, part); }
      i := i + 1;
    }
  }

  lemma FirstPart(out: seq<string>, part: seq<string>, rest: seq<seq<string>>)
    ensures AppendParts(out, [part] + rest) == AppendParts(AppendPart(out, part), rest)
  {
    assert ([part] + rest)[1..] == rest;
  }

  lemma NextPart(r: Reader, nodes: seq<Section>, i: nat, step: string, effective: Steps, out: seq<string>)
    requires i < |nodes|
    ensures AppendParts(out, ExtractEach(r, nodes[i..], step, effective))
         == AppendParts(AppendPart(out, Extract(r, nodes[i], step, effective)),
           ExtractEach(r, nodes[i + 1..], step, effective))
  {
    EachFrom(r, nodes, i, step, effective);
    FirstPart(out, Extract(r, nodes[i], step, effective), ExtractEach(r, nodes[i + 1..], step, effective));
  }

  /** The loop of a section left out: the children's parts are collected first. */
  method ExtractParts(r: Reader, nodes: seq<Section>, step: string, effective: Steps) returns (parts: seq<seq<string>>)
    ensures parts == NonEmpty(ExtractEach(r, nodes, step, effective))
    decreases nodes, 0
  {
    parts := [];
    var i := 0;
    while i < |nodes|
      invariant 0 <= i <= |nodes|
      invariant parts + NonEmpty(ExtractEach(r, nodes[i..], step, effective))
             == NonEmpty(ExtractEach(r, nodes, step, effective))
    {
      EachFrom(r, nodes, i, step, effective);
      var part := ExtractSection(r, nodes[i], step, effective);
      var rest := ExtractEach(r, nodes[i + 1..], step, effective);
      assert ([part] + rest)[1..] == rest;
      Associate(parts, if part != [] then [part] else [], NonEmpty(rest));
      assert parts + [] == parts;
      if part != [] { parts := parts + [part]; }
      i := i + 1;
    }
  }

  method AppendAll(start: seq<string>, parts: seq<seq<string>>) returns (out: seq<string>)
    requires forall k :: 0 <= k < |parts| ==> parts[k] != []
    ensures out == AppendParts(start, parts)
  {
    out := start;
    var i := 0;
    while i < |parts|
      invariant 0 <= i <= |parts|
      invariant AppendParts(out, parts[i..]) == AppendParts(start, parts)
    {
      assert parts[i..][0] == parts[i] && parts[i..][1..] == parts[i + 1..];
      out := Append(out, parts[i]);
      i := i + 1;
    }
  }

  /** The preamble without its blank lines at the end. */
  function Trimmed(preamble: seq<string>): (kept: seq<string>)
    ensures kept <= preamble && (kept != [] ==> !Blank(kept[|kept| - 1]))
    ensures forall k :: |kept| <= k < |preamble| ==> Blank(preamble[k])
  {
    if preamble != [] && Blank(preamble[|preamble| - 1]) then Trimmed(preamble[..|preamble| - 1]) else preamble
  }

  /** Title, blank line, and a preamble if there is one. */
  function Header(title: string, preamble: seq<string>): (lines: seq<string>)
    ensures |lines| >= 2 && lines[0] == title && lines[1] == "" && lines[|lines| - 1] == ""
    ensures preamble != [] ==> |lines| >= 3 && lines[2..|lines| - 1] == Trimmed(preamble)
  {
    [title, ""] + if preamble == [] then [] else Trimmed(preamble) + [""]
  }

  method WriteHeader(title: string, preamble: seq<string>) returns (lines: seq<string>)
    ensures lines == Header(title, preamble)
  {
    lines := [title, ""];
    if preamble != [] {
      var left := preamble;
      while left != [] && Blank(left[|left| - 1])
        invariant Trimmed(left) == Trimmed(preamble)
        decreases |left|
      {
        left := left[..|left| - 1];
      }
      Associate([title, ""], left, [""]);
      lines := lines + left;
      lines := lines + [""];
    } else {
      assert lines + [] == lines;
    }
  }

  /** The root has something for the step, and is shown in full or as a breadcrumb. */
  predicate IsShown(r: Reader, root: Section, step: string, inFull: bool) {
    Extract(r, root, step, {}) != [] && Matches(Resolve(r.tag(root.raw), {}), step) == inFull
  }

  /** Of the first `n` roots those the packet shows in full, or those it shows as
      breadcrumbs only. */
  function ShownRoots(r: Reader, roots: seq<Section>, n: nat, step: string, inFull: bool): set<nat>
    requires n <= |roots|
  {
    set i: nat | i < n && IsShown(r, roots[i], step, inFull)
  }

  lemma CountsOneMore(counted: set<nat>, n: nat, more: bool)
    requires n !in counted
    ensures |counted + if more then {n} else {}| == |counted| + if more then 1 else 0
  {
    if more { assert (counted + {n}) - {n} == counted; } else { assert counted + {} == counted; }
  }

  lemma OneRootMore(r: Reader, roots: seq<Section>, n: nat, step: string, inFull: bool)
    requires n < |roots|
    ensures ShownRoots(r, roots, n + 1, step, inFull)
      == ShownRoots(r, roots, n, step, inFull) + if IsShown(r, roots[n], step, inFull) then {n} else {}
    ensures n !in ShownRoots(r, roots, n, step, inFull)
  {
  }

  lemma NoRoots(r: Reader, roots: seq<Section>, step: string, inFull: bool)
    ensures ShownRoots(r, roots, 0, step, inFull) == {}
  {
  }

  method Count(r: Reader, roots: seq<Section>, i: nat, step: string, part: seq<string>, full: nat, crumbs: nat)
    returns (full': nat, crumbs': nat)
    requires i < |roots| && part == Extract(r, roots[i], step, {})
    requires full == |ShownRoots(r, roots, i, step, true)| && crumbs == |ShownRoots(r, roots, i, step, false)|
    ensures full' == |ShownRoots(r, roots, i + 1, step, true)|
    ensures crumbs' == |ShownRoots(r, roots, i + 1, step, false)|
  {
    var inFull := Matches(Resolve(r.tag(roots[i].raw), {}), step);
    full', crumbs' := full, crumbs;
    if part != [] {
      if inFull { full' := full + 1; } else { crumbs' := crumbs + 1; }
    }
    OneRootMore(r, roots, i, step, true);
    OneRootMore(r, roots, i, step, false);
    CountsOneMore(ShownRoots(r, roots, i, step, true), i, part != [] && inFull);
    CountsOneMore(ShownRoots(r, roots, i, step, false), i, part != [] && !inFull);
  }

  /** A packet: its header, then what each root has for the step. */
  method WritePacket(r: Reader, title: string, preamble: seq<string>, roots: seq<Section>, step: string)
    returns (lines: seq<string>, full: nat, crumbs: nat)
    ensures lines == Packet(r, Header(title, preamble), roots, step)
    ensures full == |ShownRoots(r, roots, |roots|, step, true)|
    ensures crumbs == |ShownRoots(r, roots, |roots|, step, false)|
  {
    lines := WriteHeader(title, preamble);
    ghost var header := lines;
    full, crumbs := 0, 0;
    NoRoots(r, roots, step, true);
    NoRoots(r, roots, step, false);
    var i := 0;
    assert roots[0..] == roots;
    while i < |roots|
      invariant 0 <= i <= |roots|
      invariant AppendParts(lines, ExtractEach(r, roots[i..], step, {})) == Packet(r, header, roots, step)
      invariant full == |ShownRoots(r, roots, i, step, true)| && crumbs == |ShownRoots(r, roots, i, step, false)|
    {
      var part := ExtractSection(r, roots[i], step, {});
      NextPart(r, roots, i, step, {}, lines);
      full, crumbs := Count(r, roots, i, step, part, full, crumbs);
      if part != [] { lines := Append(lines, part); }
      i := i + 1;
    }
  }

  method Uncovered(r: Reader, nodes: seq<Section>, covered: bool) returns (errors: seq<string>)
    ensures errors == CollectUncovered(r, nodes, covered)
    decreases nodes
  {
    errors := [];
    var i := 0;
    while i < |nodes|
      invariant 0 <= i <= |nodes|
      invariant errors + CollectUncovered(r, nodes[i..], covered) == CollectUncovered(r, nodes, covered)
    {
      var here := r.tag(nodes[i].raw).Some? || covered;
      var mine := [];
      if !here {
        var content := ContentIn(nodes[i].body);
        if content { mine := [Reported(nodes[i].raw)]; }
      }
      var below := Uncovered(r, nodes[i].children, here);
      NextReport(r, nodes, i, covered, errors);
      errors := errors + (mine + below);
      i := i + 1;
    }
  }

  lemma NextReport(r: Reader, nodes: seq<Section>, i: nat, covered: bool, errors: seq<string>)
    requires i < |nodes|
    ensures var here := r.tag(nodes[i].raw).Some? || covered;
      errors + CollectUncovered(r, nodes[i..], covered)
      == errors + (Report(nodes[i].raw, nodes[i].body, here) + CollectUncovered(r, nodes[i].children, here))
         + CollectUncovered(r, nodes[i + 1..], covered)
  {
    var here := r.tag(nodes[i].raw).Some? || covered;
    assert nodes[i..] == [nodes[i]] + nodes[i + 1..];
    CollectFirst(r, nodes[i], nodes[i + 1..], covered);
    Associate(errors, Report(nodes[i].raw, nodes[i].body, here) + CollectUncovered(r, nodes[i].children, here),
              CollectUncovered(r, nodes[i + 1..], covered));
  }

  method ContentIn(body: seq<string>) returns (found: bool)
    ensures found == HasContent(body)
  {
    found := false;
    for i := 0 to |body|
      invariant found <==> HasContent(body[..i])
    {
      assert body[..i + 1] == body[..i] + [body[i]];
      if !Blank(body[i]) { found := true; }
    }
    assert body[..|body|] == body;
  }
}
