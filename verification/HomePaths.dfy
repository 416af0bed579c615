/** A text is sanitized piece by piece: where it is cut in front of a home path, each piece
    is replaced by itself, and the user name by its pseudonym.

    Modelled on scripts/export_sanitized_graph_fixture.py, `_LOCAL_HOME` and
    `_sanitized_local_home`.  */
module HomePaths {
  import opened Common
  import opened HomeNames

  predicate IsName(name: string) {
    name != "" && forall k :: 0 <= k < |name| ==> !IsDelimiter(name[k])
  }

  /** Nothing of a name is left behind it. */
  predicate NameEnds(rest: string) {
    rest == "" || IsDelimiter(rest[0])
  }

  /** The slash behind this text would be the last one of a home prefix. */
  predicate EndsInHome(front: string) {
    |front| >= 6 && front[|front| - 6..] == "/Users"
  }

  lemma PseudonymReads(n: nat, k: nat)
    requires k < n
    ensures Pseudonym(n)[k] == if k < 4 then "user"[k] else 'x'
  {
    var long := "user" + Xs(n);
    assert Pseudonym(n)[k] == long[k];
    if k >= 4 { assert long[k] == Xs(n)[k - 4]; }
  }

  lemma MatchIs(name: string, rest: string)
    requires IsName(name) && NameEnds(rest)
    ensures Starts(HOME + name + rest) && NameLength((HOME + name + rest)[|HOME|..]) == |name|
  {
    var s := HOME + name + rest;
    assert s[..|HOME|] == HOME && s[|HOME|..] == name + rest;
    NameIs(name + rest, |name|);
  }

  lemma MatchGoes(name: string, rest: string)
    requires IsName(name) && NameEnds(rest)
    ensures Clean(HOME + name + rest) == HOME + Pseudonym(|name|) + Clean(rest)
  {
    MatchIs(name, rest);
    var found, left := StartSplits(HOME + name + rest);
    SameParts(HOME + found, left, HOME + name, rest);
  }

  lemma SameParts(a: string, b: string, c: string, d: string)
    requires a + b == c + d && |a| == |c|
    ensures a == c && b == d
  {
    assert a == (a + b)[..|a|] && c == (c + d)[..|c|];
    assert b == (a + b)[|a|..] && d == (c + d)[|c|..];
  }

  /** No match comes up where a text meets a slash, if no home prefix does. */
  lemma MatchAcross(front: string, tail: string)
    requires front != "" && tail != "" && tail[0] == '/' && Starts(front + tail)
    ensures Starts(front) || EndsInHome(front)
  {
    var s := front + tail;
    SlashesOfHome();
    if |front| < 7 {
      assert s[..7][|front|] == tail[0];
      assert front == s[..7][..6] == "/Users";
      assert front[0..] == front;
    } else {
      assert front[..7] == s[..7];
      assert s[7..] == front[7..] + tail;
      NameStarts(s[7..]);
      NameStarts(front[7..]);
    }
  }

  /** A text is replaced piece by piece: what stands in front of a slash, and from there on. */
  lemma {:induction false} CleanSplits(front: string, tail: string)
    requires !EndsInHome(front) && tail != "" && tail[0] == '/'
    ensures Clean(front + tail) == Clean(front) + Clean(tail)
    decreases |front|
  {
    if front == "" {
      assert front + tail == tail;
    } else if Starts(front) {
      var name, rest := StartSplits(front);
      assert rest == front[|HOME| + |name|..];
      StillNotInHome(front, |HOME| + |name|, rest);
      CleanSplits(rest, tail);
      MatchSplits(front, tail, name, rest);
    } else {
      StillNotInHome(front, 1, front[1..]);
      CleanSplits(front[1..], tail);
      if Starts(front + tail) { MatchAcross(front, tail); }
      assert front == [front[0]] + front[1..];
      CharacterSplits(front[0], front[1..], tail);
    }
  }

  lemma MatchSplits(front: string, tail: string, name: string, rest: string)
    requires Starts(front) && front == HOME + name + rest && |name| == NameLength(front[|HOME|..])
    requires forall k :: 0 <= k < |name| ==> !IsDelimiter(name[k])
    requires tail != "" && tail[0] == '/' && Clean(rest + tail) == Clean(rest) + Clean(tail)
    ensures Clean(front + tail) == Clean(front) + Clean(tail)
  {
    assert NameEnds(rest) by { assert rest == front[|HOME|..][|name|..]; }
    MatchGoes(name, rest);
    MatchGoes(name, rest + tail);
    Associate(HOME + name, rest, tail);
    Associate(HOME + Pseudonym(|name|), Clean(rest), Clean(tail));
  }

  lemma OneMore(c: char, s: string)
    requires !Starts([c] + s)
    ensures Clean([c] + s) == [c] + Clean(s)
  {
    FirstSplits([c] + s);
    assert ([c] + s)[1..] == s;
  }

  lemma CharacterSplits(c: char, front: string, tail: string)
    requires !Starts([c] + front) && !Starts([c] + front + tail)
    requires Clean(front + tail) == Clean(front) + Clean(tail)
    ensures Clean([c] + front + tail) == Clean([c] + front) + Clean(tail)
  {
    OneMore(c, front);
    Associate([c], front, tail);
    OneMore(c, front + tail);
    Associate([c], Clean(front), Clean(tail));
  }

  lemma StillNotInHome(front: string, d: nat, rest: string)
    requires !EndsInHome(front) && d <= |front| && rest == front[d..]
    ensures !EndsInHome(rest)
  {
    if |rest| >= 6 { assert rest[|rest| - 6..] == front[|front| - 6..]; }
  }

  /** A user name in the middle of a text becomes a pseudonym of its length, and what stands
      in front of its home prefix and behind it is replaced by itself. */
  lemma NameGoes(front: string, name: string, rest: string)
    requires !EndsInHome(front) && IsName(name) && NameEnds(rest)
    ensures Clean(front + (HOME + name + rest)) == Clean(front) + (HOME + Pseudonym(|name|) + Clean(rest))
  {
    var tail := HOME + name + rest;
    assert tail[0] == HOME[0] == '/';
    CleanSplits(front, tail);
    MatchGoes(name, rest);
  }

  predicate HasHome(s: string) {
    |s| >= |HOME| && (s[..|HOME|] == HOME || HasHome(s[1..]))
  }

  /** A text without home prefixes stays as it is. */
  lemma {:induction false} NoHomeStays(s: string)
    requires !HasHome(s)
    ensures Clean(s) == s
    decreases |s|
  {
    if s != "" {
      NoHomeStays(s[1..]);
      assert s == [s[0]] + s[1..];
    }
  }
}
