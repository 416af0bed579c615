/** Pointers into JSON values and the paths they stand for (RFC 6901, sections 3 to 5).

    Modelled on scripts/export_sanitized_graph_fixture.py, `_sanitize`.  */
module JsonPointers {
  import opened Common

  /** First every tilde, then every slash. */
  function Escape(part: string): string {
    if part == "" then ""
    else (if part[0] == '~' then "~0" else if part[0] == '/' then "~1" else [part[0]]) + Escape(part[1..])
  }

  function Replace(s: string, c: char, put: string): string {
    if s == "" then "" else (if s[0] == c then put else [s[0]]) + Replace(s[1..], c, put)
  }

  lemma {:induction false} ReplaceAppend(a: string, b: string, c: char, put: string)
    ensures Replace(a + b, c, put) == Replace(a, c, put) + Replace(b, c, put)
  {
    if a == "" {
      assert a + b == b;
    } else {
      var first := if a[0] == c then put else [a[0]];
      ReplaceAppend(a[1..], b, c, put);
      assert (a + b)[0] == a[0] && (a + b)[1..] == a[1..] + b;
      assert Replace(a, c, put) == first + Replace(a[1..], c, put);
      assert Replace(a + b, c, put) == first + Replace(a[1..] + b, c, put);
      Associate(first, Replace(a[1..], c, put), Replace(b, c, put));
    }
  }

  /** Two replacements, one after the other, as the export makes them. */
  lemma {:induction false} EscapeIsTwoReplacements(part: string)
    ensures Replace(Replace(part, '~', "~0"), '/', "~1") == Escape(part)
  {
    if part != "" {
      var first := if part[0] == '~' then "~0" else [part[0]];
      EscapeIsTwoReplacements(part[1..]);
      ReplaceAppend(first, Replace(part[1..], '~', "~0"), '/', "~1");
      assert [part[0]][1..] == "" && "~0"[1..] == "0" && "0"[1..] == "";
    }
  }

  function Join(parts: seq<string>): string {
    if parts == [] then ""
    else if |parts| == 1 then Escape(parts[0])
    else Escape(parts[0]) + ("/" + Join(parts[1..]))
  }

  /** As the export writes it: a slash, even before nothing. */
  function Pointer(path: seq<string>): string {
    "/" + Join(path)
  }

  // ---------------------------------------------------------------------------
  // Reading a pointer back
  // ---------------------------------------------------------------------------

  function Unescape(token: string): string
    decreases |token|
  {
    if token == "" then ""
    else if |token| > 1 && token[0] == '~' && token[1] == '1' then "/" + Unescape(token[2..])
    else if |token| > 1 && token[0] == '~' && token[1] == '0' then "~" + Unescape(token[2..])
    else [token[0]] + Unescape(token[1..])
  }

  function TokenLength(s: string): (n: nat)
    ensures n <= |s|
  {
    if s == "" || s[0] == '/' then 0 else 1 + TokenLength(s[1..])
  }

  /** The reference tokens, each after a slash. */
  function Decode(pointer: string): seq<string>
    decreases |pointer|
  {
    if pointer == "" then []
    else
      var n := TokenLength(pointer[1..]);
      [Unescape(pointer[1..][..n])] + Decode(pointer[1..][n..])
  }

  lemma {:induction false} UnescapeOfEscape(part: string)
    ensures Unescape(Escape(part)) == part && '/' !in Escape(part)
  {
    if part != "" {
      UnescapeOfEscape(part[1..]);
      var first, rest := if part[0] == '~' then "~0" else if part[0] == '/' then "~1" else [part[0]], Escape(part[1..]);
      assert (first + rest)[|first|..] == rest;
      assert part == [part[0]] + part[1..];
    }
  }

  lemma {:induction false} TokenIs(token: string, rest: string)
    requires '/' !in token && (rest != "" ==> rest[0] == '/')
    ensures TokenLength(token + rest) == |token|
  {
    if token == "" {
      assert token + rest == rest;
    } else {
      TokenIs(token[1..], rest);
      assert (token + rest)[1..] == token[1..] + rest;
    }
  }

  lemma TokenParts(token: string, rest: string)
    ensures ("/" + (token + rest))[1..] == token + rest
    ensures (token + rest)[..|token|] == token && (token + rest)[|token|..] == rest
  {
  }

  lemma DecodeFirst(token: string, rest: string)
    requires '/' !in token && (rest != "" ==> rest[0] == '/')
    ensures Decode("/" + (token + rest)) == [Unescape(token)] + Decode(rest)
  {
    TokenIs(token, rest);
    TokenParts(token, rest);
  }

  lemma {:induction false} DecodeOfPointer(path: seq<string>)
    requires path != []
    ensures Decode(Pointer(path)) == path
  {
    var token := Escape(path[0]);
    UnescapeOfEscape(path[0]);
    if |path| == 1 {
      DecodeFirst(token, "");
      assert token + "" == token && path == [path[0]];
    } else {
      DecodeOfPointer(path[1..]);
      DecodeFirst(token, Pointer(path[1..]));
      assert path == [path[0]] + path[1..];
    }
  }

  /** A pointer reads back as its path, except at the very root, which has none. */
  lemma DecodesExactly(path: seq<string>)
    ensures Decode(Pointer(path)) == path <==> path != []
  {
    if path == [] {
      assert |Decode(Pointer([]))| > 0;
    } else {
      DecodeOfPointer(path);
    }
  }

  /** So different paths below the root have different pointers. */
  lemma PointersDiffer(a: seq<string>, b: seq<string>)
    requires a != [] && b != [] && a != b
    ensures Pointer(a) != Pointer(b)
  {
    DecodeOfPointer(a);
    DecodeOfPointer(b);
  }

  // ---------------------------------------------------------------------------
  // Array positions
  // ---------------------------------------------------------------------------

  function Digit(d: nat): char
    requires d < 10
  {
    "0123456789"[d]
  }

  function Decimal(n: nat): (s: string)
    ensures s != ""
  {
    if n < 10 then [Digit(n)] else Decimal(n / 10) + [Digit(n % 10)]
  }

  lemma DigitsDiffer(a: nat, b: nat)
    requires a < 10 && b < 10 && Digit(a) == Digit(b)
    ensures a == b
  {
  }

  lemma {:induction false} DecimalsDiffer(a: nat, b: nat)
    requires Decimal(a) == Decimal(b)
    ensures a == b
  {
    assert Digit(a % 10) == Decimal(a)[|Decimal(a)| - 1] == Digit(b % 10);
    DigitsDiffer(a % 10, b % 10);
    assert |Decimal(a)| == |Decimal(b)|;
    if a >= 10 {
      assert Decimal(a / 10) == Decimal(a)[..|Decimal(a)| - 1];
      assert b >= 10;
      assert Decimal(b / 10) == Decimal(b)[..|Decimal(b)| - 1];
      DecimalsDiffer(a / 10, b / 10);
    }
  }
}
