/** Replacing user names in local home paths, character by character.

    Modelled on scripts/export_sanitized_graph_fixture.py, `_LOCAL_HOME` and
    `_sanitized_local_home`.  */
module HomeNames {
  import opened Common

  const HOME := "/Users/"

  /** What cannot stand in a user name. */
  predicate IsDelimiter(c: char) {
    c == '/' || IsSpace(c) || c == '`' || c == '\'' || c == '"'
  }

  /** The longest user name at the front. */
  function NameLength(s: string): (n: nat)
    ensures n <= |s| && forall c :: c in s[..n] ==> !IsDelimiter(c)
    ensures n < |s| ==> IsDelimiter(s[n])
  {
    if s == "" || IsDelimiter(s[0]) then 0
    else
      var n := 1 + NameLength(s[1..]);
      assert s[..n] == [s[0]] + s[1..][..n - 1];
      n
  }

  /** The expression matches here: a home directory with a name that is not empty. */
  predicate Starts(s: string) {
    |s| > |HOME| && s[..|HOME|] == HOME && NameLength(s[|HOME|..]) > 0
  }

  function Xs(n: nat): (s: string)
    ensures |s| == n
  {
    seq(n, _ => 'x')
  }

  function Pseudonym(n: nat): (s: string)
    ensures |s| == n
  {
    ("user" + Xs(n))[..n]
  }

  /** All matches from left to right, each replaced. */
  function Clean(s: string): (r: string)
    ensures |r| == |s|
    decreases |s|
  {
    if s == "" then ""
    else if Starts(s) then
      var n := NameLength(s[|HOME|..]);
      HOME + Pseudonym(n) + Clean(s[|HOME| + n..])
    else [s[0]] + Clean(s[1..])
  }

  /** The names that are replaced. */
  function Names(s: string): seq<string>
    decreases |s|
  {
    if s == "" then []
    else if Starts(s) then
      var n := NameLength(s[|HOME|..]);
      [s[|HOME|..|HOME| + n]] + Names(s[|HOME| + n..])
    else Names(s[1..])
  }

  /** A text that starts with a match: the prefix, the name and the rest. */
  lemma StartSplits(s: string) returns (name: string, rest: string)
    requires Starts(s)
    ensures s == HOME + name + rest && |rest| < |s| && |name| == NameLength(s[|HOME|..])
    ensures forall k :: 0 <= k < |name| ==> !IsDelimiter(name[k])
    ensures Clean(s) == HOME + Pseudonym(|name|) + Clean(rest)
    ensures Names(s) == [name] + Names(rest) && Names(s)[1..] == Names(rest)
  {
    var n := NameLength(s[|HOME|..]);
    name, rest := s[|HOME|..|HOME| + n], s[|HOME| + n..];
    assert name == s[|HOME|..][..n];
  }

  // ---------------------------------------------------------------------------
  // Cleaning twice is cleaning once
  // ---------------------------------------------------------------------------

  lemma FirstStays(s: string)
    requires s != ""
    ensures Clean(s)[0] == s[0]
  {
  }

  /** Characters that are no slash, at the front, stay as they are. */
  lemma {:induction false} PlainStays(s: string, k: nat)
    requires k <= |s| && forall j :: 0 <= j < k ==> s[j] != '/'
    ensures forall j :: 0 <= j < k ==> Clean(s)[j] == s[j]
    ensures Clean(s)[k..] == Clean(s[k..])
    decreases k
  {
    if k == 0 {
      assert s[0..] == s && Clean(s)[0..] == Clean(s);
    } else {
      assert s[0] != '/' && HOME[0] == '/' && !Starts(s);
      PlainStays(s[1..], k - 1);
      assert Clean(s) == [s[0]] + Clean(s[1..]);
      OneInFront(s[0], s[1..], Clean(s[1..]), k - 1);
      assert s == [s[0]] + s[1..];
    }
  }

  /** What holds behind a character. */
  lemma OneInFront(c: char, s: string, r: string, k: nat)
    requires k <= |s| == |r| && forall j :: 0 <= j < k ==> r[j] == s[j]
    ensures forall j :: 0 <= j < k + 1 ==> ([c] + r)[j] == ([c] + s)[j]
    ensures ([c] + s)[k + 1..] == s[k..] && ([c] + r)[k + 1..] == r[k..]
  {
  }

  predicate NoSlash(s: string) {
    forall k :: 0 <= k < |s| ==> s[k] != '/'
  }

  lemma PseudonymHasNoSlash(n: nat)
    ensures NoSlash(Pseudonym(n))
  {
    forall k | 0 <= k < n
      ensures Pseudonym(n)[k] != '/'
    {
      PseudonymIsPlain(n, k);
    }
  }

  /** Cleaning makes no character a slash and no slash something else. */
  lemma {:induction false} SlashesStay(s: string, k: nat)
    requires k < |s|
    ensures Clean(s)[k] == '/' <==> s[k] == '/'
    decreases |s|
  {
    if Starts(s) {
      var name, rest := StartSplits(s);
      if k >= |HOME| + |name| { SlashesStay(rest, k - |HOME| - |name|); }
      PseudonymHasNoSlash(|name|);
      SameSlashes(HOME, Pseudonym(|name|), name, Clean(rest), rest, k);
    } else {
      if k > 0 { SlashesStay(s[1..], k - 1); }
      FirstSplits(s);
      SlashesBehind(s[0], s[1..], Clean(s[1..]), k);
    }
  }

  lemma FirstSplits(s: string)
    requires s != "" && !Starts(s)
    ensures s == [s[0]] + s[1..] && Clean(s) == [s[0]] + Clean(s[1..])
  {
  }

  lemma SlashesBehind(c: char, s: string, r: string, k: nat)
    requires k < 1 + |s| == 1 + |r| && (k > 0 ==> (r[k - 1] == '/' <==> s[k - 1] == '/'))
    ensures ([c] + r)[k] == '/' <==> ([c] + s)[k] == '/'
  {
  }

  lemma SameSlashes(a: string, b: string, b': string, c: string, c': string, k: nat)
    requires |b| == |b'| && |c| == |c'| && k < |a| + |b| + |c| && NoSlash(b) && NoSlash(b')
    requires k >= |a| + |b| ==> (c[k - |a| - |b|] == '/' <==> c'[k - |a| - |b|] == '/')
    ensures (a + b + c)[k] == '/' <==> (a + b' + c')[k] == '/'
  {
    CharOfThree(a, b, c, k);
    CharOfThree(a, b', c', k);
  }

  lemma CharOfThree(a: string, b: string, c: string, k: nat)
    requires k < |a| + |b| + |c|
    ensures (a + b + c)[k] == if k < |a| then a[k] else if k < |a| + |b| then b[k - |a|] else c[k - |a| - |b|]
  {
  }

  lemma PseudonymIsPlain(n: nat, k: nat)
    requires k < n
    ensures !IsDelimiter(Pseudonym(n)[k])
  {
    var long := "user" + Xs(n);
    assert Pseudonym(n)[k] == long[k];
    if k >= 4 { assert long[k] == Xs(n)[k - 4] == 'x'; }
  }

  /** After a slash, a delimiter comes out exactly where there was one. */
  lemma AfterSlash(s: string)
    requires |s| > 1 && s[0] == '/'
    ensures IsDelimiter(Clean(s)[1]) <==> IsDelimiter(s[1])
  {
    if Starts(s) {
      assert s[1] == s[..|HOME|][1] && HOME[1] == 'U';
    } else {
      FirstStays(s[1..]);
    }
  }

  lemma NameStarts(s: string)
    ensures NameLength(s) > 0 <==> s != "" && !IsDelimiter(s[0])
  {
  }

  lemma HomeIs(s: string)
    requires |s| >= 7
    ensures s[..7] == HOME <==> forall k :: 0 <= k < 7 ==> s[k] == HOME[k]
  {
    assert forall k :: 0 <= k < 7 ==> s[k] == s[..7][k];
  }

  lemma SlashesOfHome()
    ensures |HOME| == 7 && forall k :: 0 <= k < 7 ==> (HOME[k] == '/' <==> k == 0 || k == 6)
  {
  }

  /** Where cleaning shows a home prefix that is not the start of a match, there was one. */
  lemma HomeWasThere(s: string)
    requires |s| > 7 && !Starts(s) && Clean(s)[..7] == HOME
    ensures s[..7] == HOME && Clean(s)[6..] == Clean(s[6..])
  {
    var r := Clean(s);
    HomeIs(r);
    SlashesOfHome();
    forall k | 0 <= k < 7 ensures s[k] == '/' <==> k == 0 || k == 6 {
      SlashesStay(s, k);
    }
    TailOfHome(s);
    forall k | 0 <= k < 7 ensures s[k] == HOME[k] {
      if 1 <= k < 6 { assert s[k] == r[k]; }
    }
    HomeIs(s);
  }

  lemma TailOfHome(s: string)
    requires |s| > 7 && !Starts(s) && forall k :: 1 <= k < 6 ==> s[k] != '/'
    ensures forall k :: 1 <= k < 6 ==> s[k] == Clean(s)[k]
    ensures Clean(s)[6..] == Clean(s[6..])
  {
    var rest := s[1..];
    assert forall j :: 0 <= j < 5 ==> rest[j] == s[j + 1];
    PlainStays(rest, 5);
    ShiftedByOne(s[0], Clean(rest), 5);
    assert rest[5..] == s[6..];
    forall k | 1 <= k < 6 ensures s[k] == Clean(s)[k] {
      assert s[k] == rest[k - 1] == Clean(rest)[k - 1];
    }
  }

  lemma ShiftedByOne(c: char, rest: string, n: nat)
    requires n <= |rest|
    ensures ([c] + rest)[n + 1..] == rest[n..]
    ensures forall k :: 1 <= k < |rest| + 1 ==> ([c] + rest)[k] == rest[k - 1]
  {
  }

  /** And what follows it is no name, then as now. */
  lemma NoNameAfterHome(s: string)
    requires |s| > 7 && !Starts(s) && Clean(s)[..7] == HOME
    ensures NameLength(Clean(s)[7..]) == 0
  {
    HomeWasThere(s);
    NameStarts(s[7..]);
    assert s[6] == s[..7][6] == '/' && s[7] == s[6..][1];
    AfterSlash(s[6..]);
    assert Clean(s)[7] == Clean(s)[6..][1];
    NameStarts(Clean(s)[7..]);
  }

  /** Where the expression does not match, it does not match afterwards. */
  lemma StillNoStart(s: string)
    requires s != "" && !Starts(s)
    ensures !Starts(Clean(s))
  {
    if |s| > 7 && Clean(s)[..7] == HOME { NoNameAfterHome(s); }
  }

  /** A name is as long as the next delimiter is far. */
  lemma {:induction false} NameIs(s: string, n: nat)
    requires n <= |s| && (forall k :: 0 <= k < n ==> !IsDelimiter(s[k])) && (n < |s| ==> IsDelimiter(s[n]))
    ensures NameLength(s) == n
  {
    if n > 0 { NameIs(s[1..], n - 1); }
  }

  /** Where it matches, it matches again, with a name of the same length. */
  lemma StillStart(s: string)
    requires Starts(s)
    ensures var n := NameLength(s[|HOME|..]);
      Starts(Clean(s)) && NameLength(Clean(s)[|HOME|..]) == n && Clean(s)[|HOME| + n..] == Clean(s[|HOME| + n..])
  {
    var n := NameLength(s[|HOME|..]);
    var rest := s[|HOME| + n..];
    assert rest != "" ==> rest[0] == s[|HOME|..][n];
    CleanedName(n, rest);
    Parted(HOME, Pseudonym(n), Clean(rest));
    assert Clean(s) == HOME + Pseudonym(n) + Clean(rest);
  }

  /** A pseudonym ends where the name did. */
  lemma CleanedName(n: nat, rest: string)
    requires rest != "" ==> IsDelimiter(rest[0])
    ensures NameLength(Pseudonym(n) + Clean(rest)) == n
  {
    var tail := Pseudonym(n) + Clean(rest);
    forall k | 0 <= k < n
      ensures !IsDelimiter(tail[k])
    {
      PseudonymIsPlain(n, k);
      assert tail[k] == Pseudonym(n)[k];
    }
    if rest != "" { FirstStays(rest); }
    NameIs(tail, n);
  }

  lemma Parted(a: string, b: string, c: string)
    ensures var s := a + b + c;
      s[..|a|] == a && s[|a|..] == b + c && s[|a| + |b|..] == c
  {
  }

  lemma {:induction false} CleanTwice(s: string)
    ensures Clean(Clean(s)) == Clean(s)
    decreases |s|
  {
    if s != "" {
      if Starts(s) {
        var n := NameLength(s[|HOME|..]);
        StillStart(s);
        CleanTwice(s[|HOME| + n..]);
      } else {
        StillNoStart(s);
        CleanTwice(s[1..]);
        assert Clean(s)[1..] == Clean(s[1..]);
      }
    }
  }

  // ---------------------------------------------------------------------------
  // What changes
  // ---------------------------------------------------------------------------

  predicate AllPseudonyms(names: seq<string>) {
    names == [] || (names[0] == Pseudonym(|names[0]|) && AllPseudonyms(names[1..]))
  }

  lemma PartsEqual(a: string, b: string, c: string, d: string)
    requires |a| == |b|
    ensures a + c == b + d <==> a == b && c == d
  {
    if a + c == b + d {
      assert (a + c)[..|a|] == a && (a + c)[|a|..] == c;
      assert (b + d)[..|a|] == b && (b + d)[|a|..] == d;
    }
  }

  /** A text comes out as it was exactly if all its user names are pseudonyms already. */
  lemma {:induction false} UnchangedExactly(s: string)
    ensures Clean(s) == s <==> AllPseudonyms(Names(s))
    decreases |s|
  {
    if s == "" {
    } else if Starts(s) {
      var name, rest := StartSplits(s);
      UnchangedExactly(rest);
      PartsEqual(HOME + Pseudonym(|name|), HOME + name, Clean(rest), rest);
      PartsEqual(HOME, HOME, Pseudonym(|name|), name);
    } else {
      UnchangedExactly(s[1..]);
      PartsEqual([s[0]], [s[0]], Clean(s[1..]), s[1..]);
      assert s == [s[0]] + s[1..];
    }
  }

  // ---------------------------------------------------------------------------
  // Byte lengths
  // ---------------------------------------------------------------------------

  function Utf8Length(c: char): (n: nat)
    ensures 1 <= n <= 4
  {
    if c < '\U{80}' then 1 else if c < '\U{800}' then 2 else if c < '\U{10000}' then 3 else 4
  }

  /** The length of the UTF-8 encoding, RFC 3629 section 3. */
  function Bytes(s: string): nat {
    if s == "" then 0 else Utf8Length(s[0]) + Bytes(s[1..])
  }

  predicate Ascii(s: string) {
    forall k :: 0 <= k < |s| ==> s[k] < '\U{80}'
  }

  lemma {:induction false} BytesAppend(a: string, b: string)
    ensures Bytes(a + b) == Bytes(a) + Bytes(b)
  {
    if a == "" {
      assert a + b == b;
    } else {
      BytesAppend(a[1..], b);
      assert (a + b)[1..] == a[1..] + b;
    }
  }

  lemma {:induction false} BytesOfAscii(s: string)
    ensures Bytes(s) >= |s| && (Bytes(s) == |s| <==> Ascii(s))
  {
    if s != "" {
      BytesOfAscii(s[1..]);
      assert forall k :: 1 <= k < |s| ==> s[k] == s[1..][k - 1];
    }
  }

  lemma PseudonymIsAscii(n: nat)
    ensures Ascii(Pseudonym(n))
  {
    var long := "user" + Xs(n);
    assert forall k :: 0 <= k < n ==> Pseudonym(n)[k] == long[k];
  }

  predicate AllAscii(names: seq<string>) {
    names == [] || (Ascii(names[0]) && AllAscii(names[1..]))
  }

  lemma BytesOfMatch(name: string, rest: string)
    ensures Bytes(HOME + name + rest) == Bytes(HOME) + Bytes(name) + Bytes(rest)
  {
    BytesAppend(HOME + name, rest);
    BytesAppend(HOME, name);
  }

  /** The encoding never grows, and keeps its length exactly if all user names are ASCII. */
  lemma {:induction false} BytesKeptExactly(s: string)
    ensures Bytes(Clean(s)) <= Bytes(s)
    ensures Bytes(Clean(s)) == Bytes(s) <==> AllAscii(Names(s))
    decreases |s|
  {
    if s == "" {
    } else if Starts(s) {
      var name, rest := StartSplits(s);
      BytesKeptExactly(rest);
      BytesOfMatch(name, rest);
      BytesOfMatch(Pseudonym(|name|), Clean(rest));
      PseudonymIsAscii(|name|);
      BytesOfAscii(Pseudonym(|name|));
      BytesOfAscii(name);
    } else {
      BytesKeptExactly(s[1..]);
      assert Clean(s)[1..] == Clean(s[1..]);
    }
  }

  /** A name outside ASCII shrinks. */
  lemma AccentsShrink(name: string)
    requires name != "" && !Ascii(name) && forall k :: 0 <= k < |name| ==> !IsDelimiter(name[k])
    ensures Bytes(Clean(HOME + name)) < Bytes(HOME + name)
  {
    NamesOfHome(name);
    BytesKeptExactly(HOME + name);
  }

  lemma HomeStarts(name: string)
    requires name != "" && forall k :: 0 <= k < |name| ==> !IsDelimiter(name[k])
    ensures Starts(HOME + name) && NameLength((HOME + name)[|HOME|..]) == |name|
  {
    var s := HOME + name;
    assert s[..|HOME|] == HOME && s[|HOME|..] == name;
    NameIs(name, |name|);
  }

  lemma NamesOfHome(name: string)
    requires name != "" && forall k :: 0 <= k < |name| ==> !IsDelimiter(name[k])
    ensures Names(HOME + name) == [name]
  {
    HomeStarts(name);
    var found, rest := StartSplits(HOME + name);
    PartsEqual(HOME + found, HOME + name, rest, "");
    PartsEqual(HOME, HOME, found, name);
    assert HOME + name + "" == HOME + name;
    assert Names("") == [];
  }
}
