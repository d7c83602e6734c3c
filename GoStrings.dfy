/**
 * The two pieces of Go's `strings` package the plugins lean on: `TrimSpace`, which
 * `readEntropy` applies to the file contents, and `Split`, the way a consumer of the
 * Graphite plaintext protocol takes a metric line apart again.
 */
module GoStrings {

  /** Go's `unicode.IsSpace`: the Latin-1 spaces and the rest of Unicode's White_Space. */
  predicate IsSpace(c: char) {
    var n := c as int;
    || (0x09 <= n <= 0x0D) || n == 0x20 || n == 0x85 || n == 0xA0
    || n == 0x1680 || (0x2000 <= n <= 0x200A) || n == 0x2028 || n == 0x2029
    || n == 0x202F || n == 0x205F || n == 0x3000
  }

  predicate AllSpace(s: string) {
    forall i :: 0 <= i < |s| ==> IsSpace(s[i])
  }

  /** Neither end of `s` is white space: what is left once both ends are trimmed. */
  predicate Trimmed(s: string) {
    s == [] || (!IsSpace(s[0]) && !IsSpace(s[|s| - 1]))
  }

  /** Drops the leading white space: the result is the suffix of `s` after its space prefix. */
  function TrimLeft(s: string): (r: string)
    ensures |r| <= |s| && r == s[|s| - |r|..]
    ensures AllSpace(s[..|s| - |r|])
    ensures r == [] || !IsSpace(r[0])
  {
    if s != [] && IsSpace(s[0]) then TrimLeft(s[1..]) else s
  }

  /** Drops the trailing white space: the result is the prefix of `s` before its space suffix. */
  function TrimRight(s: string): (r: string)
    ensures |r| <= |s| && r == s[..|r|]
    ensures AllSpace(s[|r|..])
    ensures r == [] || !IsSpace(r[|r| - 1])
  {
    if s != [] && IsSpace(s[|s| - 1]) then TrimRight(s[..|s| - 1]) else s
  }

  /**
   * `strings.TrimSpace`: `s` without its leading and trailing white space. What it keeps is
   * a slice `s[i..i + |r|]` with only white space around it, `i` being where the
   * leading white space ends.
   */
  function TrimSpace(s: string): (r: string)
    ensures Trimmed(r) && |r| <= |s|
    ensures var i := |s| - |TrimLeft(s)|;
      0 <= i <= |s| - |r| && r == s[i..i + |r|] && AllSpace(s[..i]) && AllSpace(s[i + |r|..])
  {
    var left := TrimLeft(s);
    var r := TrimRight(left);
    SliceAround(s, left, r);
    r
  }

  /** A prefix `r` of a suffix `left` of `s`, each cut off at white space, is a slice of `s` with white space around it. */
  lemma SliceAround(s: string, left: string, r: string)
    requires |left| <= |s| && left == s[|s| - |left|..] && AllSpace(s[..|s| - |left|])
    requires |r| <= |left| && r == left[..|r|] && AllSpace(left[|r|..])
    ensures var i := |s| - |left|; r == s[i..i + |r|] && AllSpace(s[..i]) && AllSpace(s[i + |r|..])
  {
    var i := |s| - |left|;
    assert s[i + |r|..] == left[|r|..];
  }

  lemma {:induction false} TrimLeftAllSpace(a: string)
    requires AllSpace(a)
    ensures TrimLeft(a) == []
  {
    if a != [] {
      TrimLeftAllSpace(a[1..]);
    }
  }

  lemma {:induction false} TrimLeftPadded(a: string, u: string)
    requires AllSpace(a)
    requires u == [] || !IsSpace(u[0])
    ensures TrimLeft(a + u) == u
  {
    if a == [] {
      assert a + u == u;
    } else {
      assert (a + u)[1..] == a[1..] + u;
      TrimLeftPadded(a[1..], u);
    }
  }

  lemma {:induction false} TrimRightPadded(u: string, b: string)
    requires AllSpace(b)
    requires u == [] || !IsSpace(u[|u| - 1])
    ensures TrimRight(u + b) == u
  {
    if b == [] {
      assert u + b == u;
    } else {
      assert (u + b)[..|u + b| - 1] == u + b[..|b| - 1];
      TrimRightPadded(u, b[..|b| - 1]);
    }
  }

  /**
   * TrimSpace removes exactly the white-space padding around a trimmed text, so
   * `TrimSpace(" \t45\n") == "45"`.
   */
  lemma TrimSpacePadded(a: string, t: string, b: string)
    requires AllSpace(a) && AllSpace(b) && Trimmed(t)
    ensures TrimSpace(a + t + b) == t
  {
    if t == [] {
      assert a + t + b == a + b;
      assert AllSpace(a + b);
      TrimLeftAllSpace(a + b);
    } else {
      assert a + t + b == a + (t + b);
      TrimLeftPadded(a, t + b);
      TrimRightPadded(t, b);
    }
  }

  /** A text with no white space at either end is left as it is. */
  lemma TrimSpaceOfTrimmed(s: string)
    requires Trimmed(s)
    ensures TrimSpace(s) == s
  {
    var none: string := [];
    assert none + s + none == s;
    TrimSpacePadded(none, s, none);
  }

  /** Trimming twice is trimming once. */
  lemma TrimSpaceIdempotent(s: string)
    ensures TrimSpace(TrimSpace(s)) == TrimSpace(s)
  {
    TrimSpaceOfTrimmed(TrimSpace(s));
  }

  /** The pieces put back together with `sep` between them: `strings.Join`. */
  function Join(pieces: seq<string>, sep: char): string
    requires |pieces| >= 1
  {
    if |pieces| == 1 then pieces[0] else pieces[0] + [sep] + Join(pieces[1..], sep)
  }

  /**
   * `strings.Split(s, string(sep))`: the pieces between the separators, `[""]` for an empty
   * `s`. No piece holds the separator, and joining them with it gives `s` back.
   */
  function Split(s: string, sep: char): (r: seq<string>)
    ensures |r| >= 1
    ensures forall k :: 0 <= k < |r| ==> sep !in r[k]
    ensures Join(r, sep) == s
    ensures sep !in s ==> r == [s]
    decreases |s|
  {
    if s == [] then [[]]
    else if s[0] == sep then
      var rest := Split(s[1..], sep);
      var r := [[]] + rest;
      assert r[1..] == rest;
      assert [sep] + s[1..] == s;
      r
    else
      var rest := Split(s[1..], sep);
      var r := [[s[0]] + rest[0]] + rest[1..];
      assert [s[0]] + s[1..] == s;
      assert |rest| > 1 ==> r[1..] == rest[1..] && Join(rest, sep) == rest[0] + [sep] + Join(rest[1..], sep);
      assert Join(r, sep) == [s[0]] + Join(rest, sep);
      r
  }

  /** Splitting at a separator after a separator-free piece yields that piece, then the rest. */
  lemma {:induction false} SplitAfterPiece(a: string, sep: char, b: string)
    requires sep !in a
    ensures Split(a + [sep] + b, sep) == [a] + Split(b, sep)
  {
    if a == [] {
      assert a + [sep] + b == [sep] + b;
      assert ([sep] + b)[1..] == b;
    } else {
      assert (a + [sep] + b)[1..] == a[1..] + [sep] + b;
      SplitAfterPiece(a[1..], sep, b);
      assert [a[0]] + a[1..] == a;
    }
  }
}
