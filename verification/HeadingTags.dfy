/** The two regular expressions of a heading line written out: the steps its tag names, and
    the heading without the tag; and headings that do not survive the removal.

    Modelled on routines/idea-to-plan-scoped/scripts/extract_ctx.py, `STEP_TAG_RE`,
    `clean_heading` and `_parse_steps_tag`.  */
module HeadingTags {
  import opened Common
  import opened Outline
  import opened ContextPacket

  // ---------------------------------------------------------------------------
  // Finding a tag comment
  // ---------------------------------------------------------------------------

  function SkipSpaces(s: string, i: nat): (j: nat)
    requires i <= |s|
    ensures i <= j <= |s| && (j < |s| ==> !IsSpace(s[j]))
    decreases |s| - i
  {
    if i < |s| && IsSpace(s[i]) then SkipSpaces(s, i + 1) else i
  }

  /** `<!--` stands at `i`. */
  predicate Opens(s: string, i: nat) {
    i + 4 <= |s| && s[i] == '<' && s[i + 1] == '!' && s[i + 2] == '-' && s[i + 3] == '-'
  }

  /** `steps:` stands at `i`. */
  predicate SaysSteps(s: string, i: nat) {
    && i + 6 <= |s| && s[i] == 's' && s[i + 1] == 't' && s[i + 2] == 'e'
    && s[i + 3] == 'p' && s[i + 4] == 's' && s[i + 5] == ':'
  }

  function NextGreater(s: string, i: nat): (j: nat)
    requires i <= |s|
    ensures i <= j <= |s|
    decreases |s| - i
  {
    if i < |s| && s[i] != '>' then NextGreater(s, i + 1) else i
  }

  /** After an opening that stands at `i`, the text of the tag begins. */
  function TextStart(s: string, i: nat): (start: Option<nat>)
    requires i <= |s|
    ensures start.Some? ==> i < start.value <= |s|
  {
    if !Opens(s, i) then None
    else
      var word := SkipSpaces(s, i + 4);
      if SaysSteps(s, word) then Some(word + 6) else None
  }

  /** The text has no `>` and at least one character; the comment ends with `-->`. */
  function CommentEnd(s: string, i: nat): (end: Option<nat>)
    requires i <= |s|
    ensures end.Some? ==> TextStart(s, i).Some? && TextStart(s, i).value + 4 <= end.value <= |s|
  {
    match TextStart(s, i)
    case None => None
    case Some(start) =>
      var g := NextGreater(s, start);
      if g < |s| && start + 3 <= g && s[g - 2] == '-' && s[g - 1] == '-' then Some(g + 1) else None
  }

  /** Every tag comment goes, and the spaces before it. */
  function RemoveTags(s: string, i: nat): string
    requires i <= |s|
    decreases |s| - i
  {
    if i == |s| then ""
    else
      match CommentEnd(s, SkipSpaces(s, i))
      case Some(end) => RemoveTags(s, end)
      case None => [s[i]] + RemoveTags(s, i + 1)
  }

  function TrimLeft(s: string): string {
    if s != "" && IsSpace(s[0]) then TrimLeft(s[1..]) else s
  }

  function CleanHeading(raw: string): string {
    TrimRight(RemoveTags(raw, 0))
  }

  /** The text of the first tag. */
  function TagText(s: string, i: nat): Option<string>
    requires i <= |s|
    decreases |s| - i
  {
    if i == |s| then None
    else
      match CommentEnd(s, i)
      case Some(end) => Some(s[TextStart(s, i).value..end - 3])
      case None => TagText(s, i + 1)
  }

  function Comma(s: string): (n: nat)
    ensures n <= |s|
  {
    if s == "" || s[0] == ',' then 0 else 1 + Comma(s[1..])
  }

  function UpperCase(s: string): string {
    if s == "" then "" else [if 'a' <= s[0] <= 'z' then s[0] - ' ' else s[0]] + UpperCase(s[1..])
  }

  /** The tokens between commas, trimmed, in upper case, without empty ones. */
  function Tokens(s: string): set<string>
    decreases |s|
  {
    var n := Comma(s);
    var token := UpperCase(TrimRight(TrimLeft(s[..n])));
    (if token == "" then {} else {token}) + (if n < |s| then Tokens(s[n + 1..]) else {})
  }

  function StepsOf(raw: string): Option<Steps> {
    match TagText(raw, 0)
    case None => None
    case Some(text) => Some(Tokens(text))
  }

  const READER := Reader(StepsOf, CleanHeading)

  // ---------------------------------------------------------------------------
  // A heading with a tag right after its hashes
  // ---------------------------------------------------------------------------

  predicate AllHashes(s: string) {
    forall k :: 0 <= k < |s| ==> s[k] == '#'
  }

  const OPENING := " <!-- steps:"

  function Tagged(hashes: string, text: string, rest: string): string {
    hashes + OPENING + text + "-->" + rest
  }

  /** In `raw` a tag stands at `n`, after a space: its text from `n + 12` up to `m`. */
  predicate TagStands(raw: string, n: nat, m: nat) {
    && n + 12 < m && m + 3 <= |raw|
    && raw[n] == ' ' && Opens(raw, n + 1) && raw[n + 5] == ' ' && SaysSteps(raw, n + 6)
    && (forall k :: n + 12 <= k < m ==> raw[k] != '>')
    && raw[m] == '-' && raw[m + 1] == '-' && raw[m + 2] == '>'
  }

  lemma OpeningStands(raw: string, n: nat)
    requires n + 12 <= |raw| && forall k :: 0 <= k < 12 ==> raw[n + k] == OPENING[k]
    ensures raw[n] == ' ' && Opens(raw, n + 1) && raw[n + 5] == ' ' && SaysSteps(raw, n + 6)
  {
    assert OPENING == [' ', '<', '!', '-', '-', ' ', 's', 't', 'e', 'p', 's', ':'];
    assert raw[n + 0] == OPENING[0] && raw[n + 1] == OPENING[1] && raw[n + 2] == OPENING[2] && raw[n + 3] == OPENING[3];
    assert raw[n + 4] == OPENING[4] && raw[n + 5] == OPENING[5] && raw[n + 6] == OPENING[6] && raw[n + 7] == OPENING[7];
    assert raw[n + 8] == OPENING[8] && raw[n + 9] == OPENING[9] && raw[n + 10] == OPENING[10]
      && raw[n + 11] == OPENING[11];
  }

  /** Five parts, one after another. */
  lemma PartsByPosition(a: string, b: string, c: string, d: string, e: string)
    ensures var raw, n, m, z := a + b + c + d + e, |a|, |a| + |b| + |c|, |a| + |b| + |c| + |d|;
      && |raw| == z + |e| && raw[..n] == a && raw[n + |b|..m] == c && raw[z..] == e
      && (forall k :: 0 <= k < |b| ==> raw[n + k] == b[k])
      && (forall k :: 0 <= k < |d| ==> raw[m + k] == d[k])
  {
  }

  lemma TaggedParts(hashes: string, text: string, rest: string)
    requires text != "" && '>' !in text
    ensures var raw, n, m := Tagged(hashes, text, rest), |hashes|, |hashes| + 12 + |text|;
      && TagStands(raw, n, m) && raw[..n] == hashes && raw[n + 12..m] == text && raw[m + 3..] == rest
  {
    var raw, n, m := Tagged(hashes, text, rest), |hashes|, |hashes| + 12 + |text|;
    assert |OPENING| == 12 && |"-->"| == 3;
    PartsByPosition(hashes, OPENING, text, "-->", rest);
    OpeningStands(raw, n);
    assert raw[m + 0] == '-' && raw[m + 1] == '-' && raw[m + 2] == '>';
    NoGreaterInside(raw, n + 12, m, text);
  }

  lemma NoGreaterInside(raw: string, i: nat, m: nat, text: string)
    requires i <= m <= |raw| && raw[i..m] == text && '>' !in text
    ensures forall k :: i <= k < m ==> raw[k] != '>'
  {
    forall k | i <= k < m ensures raw[k] != '>' {
      assert raw[k] == raw[i..m][k - i];
    }
  }

  lemma {:induction false} NextGreaterIs(s: string, i: nat, j: nat)
    requires i <= j < |s| && s[j] == '>' && forall k :: i <= k < j ==> s[k] != '>'
    ensures NextGreater(s, i) == j
    decreases j - i
  {
    if i < j { NextGreaterIs(s, i + 1, j); }
  }

  lemma SkipOne(s: string, i: nat)
    requires i + 1 < |s| && IsSpace(s[i]) && !IsSpace(s[i + 1])
    ensures SkipSpaces(s, i) == i + 1
  {
    assert SkipSpaces(s, i + 1) == i + 1;
  }

  lemma TagIsFound(raw: string, n: nat, m: nat)
    requires TagStands(raw, n, m)
    ensures TextStart(raw, n + 1) == Some(n + 12) && CommentEnd(raw, n + 1) == Some(m + 3)
    ensures SkipSpaces(raw, n) == n + 1
  {
    assert IsSpace(' ') && !IsSpace('<') && !IsSpace('s');
    SkipOne(raw, n);
    SkipOne(raw, n + 5);
    NextGreaterIs(raw, n + 12, m + 2);
  }

  /** A character that no tag starts at, spaces included, is copied. */
  lemma CopyOne(raw: string, i: nat)
    requires i < |raw| && (SkipSpaces(raw, i) < |raw| ==> raw[SkipSpaces(raw, i)] != '<')
    ensures RemoveTags(raw, i) == [raw[i]] + RemoveTags(raw, i + 1)
  {
  }

  lemma PassOne(raw: string, i: nat)
    requires i < |raw| && raw[i] != '<'
    ensures TagText(raw, i) == TagText(raw, i + 1)
  {
  }

  /** Hashes are copied. */
  lemma {:induction false} HashesStay(raw: string, i: nat, n: nat)
    requires i <= n <= |raw| && forall k :: i <= k < n ==> raw[k] == '#'
    ensures RemoveTags(raw, i) == raw[i..n] + RemoveTags(raw, n)
    ensures TagText(raw, i) == TagText(raw, n)
    decreases n - i
  {
    if i < n {
      assert raw[i] == '#' && !IsSpace('#') && SkipSpaces(raw, i) == i;
      CopyOne(raw, i);
      PassOne(raw, i);
      HashesStay(raw, i + 1, n);
      SliceHead(raw, i, n);
      Associate([raw[i]], raw[i + 1..n], RemoveTags(raw, n));
    } else {
      assert raw[i..n] == "" && "" + RemoveTags(raw, n) == RemoveTags(raw, n);
    }
  }

  lemma SliceHead(s: string, i: nat, n: nat)
    requires i < n <= |s|
    ensures s[i..n] == [s[i]] + s[i + 1..n]
  {
  }

  /** Without a `<` there is no tag to remove. */
  lemma {:induction false} PlainStays(raw: string, i: nat)
    requires i <= |raw| && forall k :: i <= k < |raw| ==> raw[k] != '<'
    ensures RemoveTags(raw, i) == raw[i..|raw|] && TagText(raw, i) == None
    decreases |raw| - i
  {
    if i < |raw| {
      CopyOne(raw, i);
      PassOne(raw, i);
      PlainStays(raw, i + 1);
      SliceHead(raw, i, |raw|);
    }
  }

  lemma TagRemoved(raw: string, n: nat, m: nat)
    requires TagStands(raw, n, m)
    ensures RemoveTags(raw, n) == RemoveTags(raw, m + 3)
  {
    TagIsFound(raw, n, m);
  }

  lemma TagRead(raw: string, n: nat, m: nat)
    requires TagStands(raw, n, m)
    ensures TagText(raw, n) == Some(raw[n + 12..m])
  {
    PassOne(raw, n);
    TagIsFound(raw, n, m);
  }

  lemma HashesThenTag(raw: string, n: nat, m: nat)
    requires TagStands(raw, n, m) && forall k :: 0 <= k < n ==> raw[k] == '#'
    ensures TagText(raw, 0) == Some(raw[n + 12..m])
  {
    HashesStay(raw, 0, n);
    TagRead(raw, n, m);
  }

  lemma PlainTail(raw: string, i: nat, rest: string)
    requires i <= |raw| && raw[i..] == rest && '<' !in rest
    ensures RemoveTags(raw, i) == rest
  {
    NoAngleBehind(raw, i, rest);
    PlainStays(raw, i);
    assert raw[i..|raw|] == rest;
  }

  lemma TagGoes(raw: string, n: nat, hashes: string, rest: string)
    requires n <= |raw| && raw[0..n] == hashes && AllHashes(hashes) && RemoveTags(raw, n) == rest
    ensures RemoveTags(raw, 0) == hashes + rest
  {
    assert forall k :: 0 <= k < n ==> raw[k] == raw[0..n][k];
    HashesStay(raw, 0, n);
  }

  lemma TaggedText(hashes: string, text: string, rest: string)
    requires AllHashes(hashes) && text != "" && '>' !in text
    ensures TagText(Tagged(hashes, text, rest), 0) == Some(text)
  {
    TaggedParts(hashes, text, rest);
    HashesInFront(Tagged(hashes, text, rest), hashes);
    HashesThenTag(Tagged(hashes, text, rest), |hashes|, |hashes| + 12 + |text|);
  }

  lemma HashesInFront(raw: string, hashes: string)
    requires AllHashes(hashes) && |hashes| <= |raw| && raw[..|hashes|] == hashes
    ensures forall k :: 0 <= k < |hashes| ==> raw[k] == '#'
  {
    assert forall k :: 0 <= k < |hashes| ==> raw[k] == raw[..|hashes|][k];
  }

  lemma NoAngleBehind(raw: string, i: nat, rest: string)
    requires i <= |raw| && raw[i..] == rest && '<' !in rest
    ensures forall k :: i <= k < |raw| ==> raw[k] != '<'
  {
    forall k | i <= k < |raw| ensures raw[k] != '<' {
      assert raw[k] == raw[i..][k - i];
    }
  }

  lemma TaggedTail(hashes: string, text: string, rest: string)
    requires text != "" && '>' !in text && '<' !in rest
    ensures var raw, m := Tagged(hashes, text, rest), |hashes| + 12 + |text|;
      m + 3 <= |raw| && RemoveTags(raw, m + 3) == rest
  {
    TaggedParts(hashes, text, rest);
    PlainTail(Tagged(hashes, text, rest), |hashes| + 12 + |text| + 3, rest);
  }

  lemma AroundTag(raw: string, n: nat, m: nat, hashes: string, rest: string)
    requires TagStands(raw, n, m) && raw[0..n] == hashes && AllHashes(hashes) && RemoveTags(raw, m + 3) == rest
    ensures RemoveTags(raw, 0) == hashes + rest
  {
    TagRemoved(raw, n, m);
    TagGoes(raw, n, hashes, rest);
  }

  /** The line without its tag is the hashes and what follows the tag. */
  lemma TaggedGoes(hashes: string, text: string, rest: string)
    requires AllHashes(hashes) && text != "" && '>' !in text && '<' !in rest
    ensures RemoveTags(Tagged(hashes, text, rest), 0) == hashes + rest
  {
    TaggedParts(hashes, text, rest);
    TaggedTail(hashes, text, rest);
    assert Tagged(hashes, text, rest)[0..|hashes|] == hashes;
    AroundTag(Tagged(hashes, text, rest), |hashes|, |hashes| + 12 + |text|, hashes, rest);
  }

  lemma {:induction false} HashesCount(s: string, n: nat)
    requires n <= |s| && (forall k :: 0 <= k < n ==> s[k] == '#') && (n < |s| ==> s[n] != '#')
    ensures Hashes(s) == n
  {
    if n > 0 { HashesCount(s[1..], n - 1); }
  }

  lemma TaggedLevel(hashes: string, text: string, rest: string)
    requires AllHashes(hashes) && 1 <= |hashes| <= 6 && text != "" && '>' !in text
    ensures Level(Tagged(hashes, text, rest)) == |hashes|
  {
    var raw, n := Tagged(hashes, text, rest), |hashes|;
    TaggedParts(hashes, text, rest);
    assert forall k :: 0 <= k < n ==> raw[k] == raw[..n][k];
    HashesCount(raw, n);
  }

  // ---------------------------------------------------------------------------
  // Headings that do not survive
  // ---------------------------------------------------------------------------

  /** A heading with nothing but a tag on it: what is left is no heading. */
  lemma TagOnlyIsNoHeading(hashes: string, text: string)
    requires AllHashes(hashes) && 1 <= |hashes| <= 6 && text != "" && '>' !in text
    ensures Level(Tagged(hashes, text, "")) == |hashes|
    ensures CleanHeading(Tagged(hashes, text, "")) == hashes && Level(hashes) == 0
  {
    TaggedLevel(hashes, text, "");
    TaggedGoes(hashes, text, "");
    assert hashes + "" == hashes;
    HashesCount(hashes, |hashes|);
    assert !IsSpace('#');
  }

  /** One heading and no body. */
  lemma LoneHeading(raw: string)
    ensures Level(raw) > 0 ==> Parse([raw]) == Outline([], [Section(raw, [], [])])
    ensures Level(raw) == 0 ==> Parse([raw]) == Outline([raw], [])
  {
    assert [raw][..0] == [] && Split([raw]) == AddLine(Split([]), raw);
    var e := [Entry(raw, [])];
    assert [] + e == e && [] + [raw] == [raw];
    if Level(raw) > 0 {
      assert Split([raw]).entries == e && e[1..] == [];
      assert Build(e) == [Section(raw, [], [])];
    }
  }

  lemma LonePacket(r: Reader, raw: string, step: string)
    requires Matches(Resolve(r.tag(raw), {}), step)
    ensures var roots := [Section(raw, [], [])];
      Prune(r, roots, step, {}) == [Section(r.clean(raw), [], [])] && Packet(r, [], roots, step) == [r.clean(raw)]
  {
    var roots, line := [Section(raw, [], [])], r.clean(raw);
    assert roots[1..] == [];
    assert Extract(r, roots[0], step, {}) == [line] + [] == [line];
    assert ExtractEach(r, roots, step, {}) == [[line]] && [[line]][1..] == [];
    assert AppendPart([], [line]) == [line];
  }

  /** Its packet has no heading any more, though the section belongs to the step. */
  lemma LostWithItsTag(hashes: string, text: string, step: string)
    requires AllHashes(hashes) && 1 <= |hashes| <= 6 && text != "" && '>' !in text
    requires Matches(Tokens(text), step)
    ensures IsLost(Tagged(hashes, text, ""), hashes, step)
  {
    var raw := Tagged(hashes, text, "");
    TagOnlyIsNoHeading(hashes, text);
    TaggedText(hashes, text, "");
    LoneHeading(raw);
    LonePacket(READER, raw, step);
    LoneHeading(hashes);
  }

  /** A document of one heading, kept for the step, whose packet has no heading. */
  ghost predicate IsLost(line: string, left: string, step: string) {
    var roots := Parse([line]).roots;
    && roots == [Section(line, [], [])] && Prune(READER, roots, step, {}) == [Section(left, [], [])]
    && Parse(Packet(READER, [], roots, step)).roots == []
    && !WellNested(Prune(READER, roots, step, {}), 0)
  }

  lemma AllOfThem()
    ensures Tokens(" ALL ") == {"ALL"}
  {
    var s := " ALL ";
    assert Comma("") == 0 && Comma(" ") == 1 && Comma("L ") == 2 && Comma("LL ") == 3;
    assert Comma("ALL ") == 4 && s[1..] == "ALL " && Comma(s) == 5;
    assert s[..5] == s && TrimLeft(s) == TrimLeft("ALL ") == "ALL ";
    assert "ALL "[..3] == "ALL" && TrimRight("ALL ") == TrimRight("ALL") == "ALL";
    assert "ALL"[1..] == "LL" && "LL"[1..] == "L" && "L"[1..] == "";
    assert UpperCase("") == "" && UpperCase("L") == "L" && UpperCase("LL") == "LL" && UpperCase("ALL") == "ALL";
  }

  /** The line `# <!-- steps: ALL -->`, for every step. */
  lemma HeadingLostWithItsTag(step: string)
    ensures IsLost("# <!-- steps: ALL -->", "#", step)
  {
    SpelledOut();
    AllOfThem();
    LostWithItsTag("#", " ALL ", step);
  }

  lemma SpelledOut()
    ensures "# <!-- steps: ALL -->" == Tagged("#", " ALL ", "")
  {
  }

  // ---------------------------------------------------------------------------
  // Headings that sink
  // ---------------------------------------------------------------------------

  /** A document of a heading and another below it, both kept for the step; in what is parsed
      from its packet the second is no longer below the first. */
  ghost predicate IsSunk(line: string, below: string, left: string, step: string) {
    var roots := Parse([line, below]).roots;
    var inner := Section(below, [], []);
    && roots == [Section(line, [], [inner])] && Prune(READER, roots, step, {}) == [Section(left, [], [inner])]
    && Parse(Packet(READER, [], roots, step)).roots == [Section(left, [""], []), inner]
    && !WellNested(Prune(READER, roots, step, {}), 0)
  }

  lemma PreorderOfPair(a: string, b: string)
    ensures Preorder([Section(a, [], [Section(b, [], [])])]) == [Entry(a, []), Entry(b, [])]
    ensures Preorder([Section(a, [""], []), Section(b, [], [])]) == [Entry(a, [""]), Entry(b, [])]
  {
    var inner := Section(b, [], []);
    assert [inner][1..] == [] && Preorder([inner]) == [Entry(b, [])] + [] + [];
    assert [Section(a, [], [inner])][1..] == [] && [Section(a, [""], []), inner][1..] == [inner];
    assert [Entry(a, [])] + [Entry(b, [])] + [] == [Entry(a, []), Entry(b, [])];
    assert [Entry(a, [""])] + [] + [Entry(b, [])] == [Entry(a, [""]), Entry(b, [])];
  }

  lemma LinesOfPair(a: string, gap: seq<string>, b: string)
    ensures EntryLines([Entry(a, gap), Entry(b, [])]) == [a] + gap + [b]
  {
    var first, second := Entry(a, gap), Entry(b, []);
    assert [first, second][1..] == [second] && [second][1..] == [];
    assert EntryLines([second]) == [b] + [] + [] == [b];
  }

  /** A section with nothing after it. */
  lemma NestsLast(section: Section, above: nat)
    requires section.Depth() > above && WellNested(section.children, section.Depth())
    ensures WellNested([section], above)
  {
    assert [section][1..] == [];
  }

  lemma NestedPair(a: string, b: string)
    requires 0 < Level(a) < Level(b)
    ensures Parse([a, b]) == Outline([], [Section(a, [], [Section(b, [], [])])])
  {
    var inner := Section(b, [], []);
    var o := Outline([], [Section(a, [], [inner])]);
    PreorderOfPair(a, b);
    LinesOfPair(a, [], b);
    NestsLast(inner, Level(a));
    NestsLast(o.roots[0], 0);
    assert [] + ([a] + [] + [b]) == [a, b];
    ParseOfPrint(o);
  }

  lemma SiblingPair(a: string, b: string)
    requires Level(a) >= Level(b) > 0
    ensures Parse([a, "", b]) == Outline([], [Section(a, [""], []), Section(b, [], [])])
  {
    var inner := Section(b, [], []);
    var o := Outline([], [Section(a, [""], []), inner]);
    PreorderOfPair(a, b);
    LinesOfPair(a, [""], b);
    NestsLast(inner, 0);
    assert o.roots[1..] == [inner];
    assert [] + ([a] + [""] + [b]) == [a, "", b];
    ParseOfPrint(o);
  }

  lemma PairPacket(r: Reader, a: string, b: string, step: string)
    requires r.tag(a).Some? && Matches(r.tag(a).value, step) && r.tag(b) == None && r.clean(a) != ""
    ensures var roots := [Section(a, [], [Section(b, [], [])])];
      && Prune(r, roots, step, {}) == [Section(r.clean(a), [], [Section(r.clean(b), [], [])])]
      && Packet(r, [], roots, step) == [r.clean(a), "", r.clean(b)]
  {
    var inner, steps := Section(b, [], []), r.tag(a).value;
    var roots := [Section(a, [], [inner])];
    assert roots[1..] == [] && [inner][1..] == [];
    assert Prune(r, [inner], step, steps) == [Section(r.clean(b), [], [])];
    assert Extract(r, inner, step, steps) == [r.clean(b)] + [] == [r.clean(b)];
    PairParts(r.clean(a), r.clean(b));
    assert ExtractEach(r, [inner], step, steps) == [[r.clean(b)]];
    assert [r.clean(a)] + [] == [r.clean(a)];
    assert Extract(r, roots[0], step, {}) == [r.clean(a), "", r.clean(b)];
    OnePart([r.clean(a), "", r.clean(b)]);
    assert ExtractEach(r, roots, step, {}) == [[r.clean(a), "", r.clean(b)]];
  }

  lemma PairParts(a: string, b: string)
    requires a != ""
    ensures AppendParts([a], [[b]]) == [a, "", b]
  {
    assert [[b]][1..] == [] && AppendPart([a], [b]) == [a] + [""] + [b];
  }

  lemma OnePart(part: seq<string>)
    requires part != []
    ensures AppendParts([], [part]) == part
  {
    assert [part][1..] == [] && AppendPart([], part) == [] + [] + part;
  }

  /** Without a `<` there is no tag to read, and nothing to remove. */
  lemma PlainHeading(line: string)
    requires '<' !in line && TrimRight(line) == line
    ensures READER.tag(line) == None && READER.clean(line) == line
  {
    PlainStays(line, 0);
    assert line[0..|line|] == line;
  }

  /** More hashes after the tag: the heading goes one level down, and any heading of that level
      below it, if it has no tag, is no longer below it. */
  lemma HeadingSinksWithItsTag(hashes: string, text: string, below: string, step: string)
    requires AllHashes(hashes) && 1 <= |hashes| <= 5 && text != "" && '>' !in text
    requires Matches(Tokens(text), step)
    requires Level(below) == |hashes| + 1 && '<' !in below && TrimRight(below) == below
    ensures Level(Tagged(hashes, text, "# x")) == |hashes| && Level(hashes + "# x") == |hashes| + 1
    ensures IsSunk(Tagged(hashes, text, "# x"), below, hashes + "# x", step)
  {
    var raw, clean := Tagged(hashes, text, "# x"), hashes + "# x";
    TaggedLevel(hashes, text, "# x");
    TaggedGoes(hashes, text, "# x");
    TaggedText(hashes, text, "# x");
    SunkLevel(hashes);
    PlainHeading(below);
    NestedPair(raw, below);
    PairPacket(READER, raw, below, step);
    SiblingPair(clean, below);
    NotNested(clean, below);
  }

  lemma NotNested(a: string, b: string)
    requires Level(a) == Level(b)
    ensures !WellNested([Section(a, [], [Section(b, [], [])])], 0)
  {
    var parent := Section(a, [], [Section(b, [], [])]);
    assert WellNested([parent], 0) ==> WellNested(parent.children, parent.Depth());
  }

  lemma SunkLevel(hashes: string)
    requires AllHashes(hashes) && 1 <= |hashes| <= 5
    ensures Level(hashes + "# x") == |hashes| + 1 && TrimRight(hashes + "# x") == hashes + "# x"
  {
    var clean, n := hashes + "# x", |hashes|;
    assert clean[n] == '#' && clean[n + 1] == ' ' && clean[n + 2] == 'x' && !IsSpace('x') && IsSpace(' ');
    HashesCount(clean, n + 1);
  }
}
