/**
 * Decimal integers as the plugins read and write them: `fmt`'s `%d` rendering and
 * `strconv.Atoi` on a 64-bit `int`, with the `*strconv.NumError` it fails with.
 */
module Decimal {
  import opened Wrappers

  const MaxUint64: int := 18446744073709551615
  const MaxInt64: int := 9223372036854775807
  const MinInt64: int := -9223372036854775808

  /** Go's `int` on a 64-bit platform. */
  predicate InInt64(v: int) {
    MinInt64 <= v <= MaxInt64
  }

  predicate IsDigit(c: char) {
    '0' <= c <= '9'
  }

  predicate AllDigits(s: string) {
    forall i :: 0 <= i < |s| ==> IsDigit(s[i])
  }

  function DigitValue(c: char): nat
    requires IsDigit(c)
  {
    c as int - '0' as int
  }

  function DigitChar(d: nat): (c: char)
    requires d < 10
    ensures IsDigit(c) && DigitValue(c) == d
  {
    (d + '0' as int) as char
  }

  function Pow10(k: nat): nat {
    if k == 0 then 1 else 10 * Pow10(k - 1)
  }

  /** The number a string of decimal digits denotes, most significant digit first. */
  function Value(s: string): nat
    requires AllDigits(s)
  {
    if s == [] then 0 else Value(s[..|s| - 1]) * 10 + DigitValue(s[|s| - 1])
  }

  // ----- the reference syntax: what Atoi accepts -----

  predicate HasSign(s: string) {
    s != [] && (s[0] == '+' || s[0] == '-')
  }

  /** `s` without its leading sign, if it has one. */
  function Unsigned(s: string): string {
    if HasSign(s) then s[1..] else s
  }

  /** An optional `+` or `-` followed by one or more decimal digits, and nothing else. */
  predicate IsDecimal(s: string) {
    Unsigned(s) != [] && AllDigits(Unsigned(s))
  }

  function DecimalValue(s: string): int
    requires IsDecimal(s)
  {
    var magnitude: int := Value(Unsigned(s));
    if s[0] == '-' then -magnitude else magnitude
  }

  /** The form `%d` writes: no `+`, no leading zero, no `-0`. */
  predicate IsCanonical(s: string) {
    IsDecimal(s) && s[0] != '+' && (Unsigned(s)[0] == '0' ==> s == "0")
  }

  // ----- fmt %d -----

  /** The decimal digits of `n`, most significant first, without leading zeros. */
  function Digits(n: nat): (r: string)
    ensures r != [] && AllDigits(r) && Value(r) == n
    ensures r[0] == '0' ==> r == "0"
  {
    if n < 10 then [DigitChar(n)]
    else
      var r := Digits(n / 10) + [DigitChar(n % 10)];
      assert r[..|r| - 1] == Digits(n / 10);
      r
  }

  /** `fmt.Sprintf("%d", v)`: canonical decimal text that denotes `v`. */
  function FormatInt(v: int): (r: string)
    ensures IsCanonical(r) && DecimalValue(r) == v
  {
    if v < 0 then
      var r := "-" + Digits(-v);
      assert Unsigned(r) == Digits(-v);
      r
    else Digits(v)
  }

  // ----- strconv.Atoi -----

  datatype NumErrorKind = ErrSyntax | ErrRange

  /** `*strconv.NumError` from Atoi: the input it could not parse and why. */
  datatype NumError = NumError(num: string, kind: NumErrorKind) {
    /** `NumError.Error()`. */
    function Text(): string {
      "strconv.Atoi: parsing " + Quote(num) + ": "
      + (if kind == ErrSyntax then "invalid syntax" else "value out of range")
    }
  }

  lemma {:induction false} PrefixValue(s: string, k: nat)
    requires AllDigits(s) && k <= |s|
    ensures AllDigits(s[..k]) && Value(s[..k]) <= Value(s)
  {
    if k == |s| {
      assert s[..k] == s;
    } else {
      assert s[..|s| - 1][..k] == s[..k];
      PrefixValue(s[..|s| - 1], k);
    }
  }

  lemma {:induction false} ValueBelowPow10(s: string)
    requires AllDigits(s)
    ensures Value(s) < Pow10(|s|)
  {
    if s != [] {
      ValueBelowPow10(s[..|s| - 1]);
    }
  }

  /** The digits of `d` stop at a character that is not a digit before their value passes 2^64-1. */
  predicate StopsOnNonDigit(d: string) {
    exists j :: 0 <= j < |d| && !IsDigit(d[j]) && AllDigits(d[..j]) && Value(d[..j]) <= MaxUint64
  }

  /** Some leading run of digits of `d` has a value above 2^64-1. */
  predicate Overflows(d: string) {
    exists j :: 0 < j <= |d| && AllDigits(d[..j]) && Value(d[..j]) > MaxUint64
  }

  /**
   * The digit loop of `strconv.ParseUint(s, 10, 64)` from position `i`, with `acc` the
   * value of the digits before it: the first non-digit is a syntax error, and the first
   * digit that takes the value past 2^64-1 is a range error, whichever comes first.
   */
  function ScanDigits(d: string, i: nat, acc: nat): (r: Result<nat, NumErrorKind>)
    requires i <= |d| && AllDigits(d[..i]) && acc == Value(d[..i]) && acc <= MaxUint64
    ensures r.Success? <==> AllDigits(d) && Value(d) <= MaxUint64
    ensures r.Success? ==> r.value == Value(d)
    ensures r == Failure(ErrSyntax) ==> StopsOnNonDigit(d)
    ensures r == Failure(ErrRange) ==> Overflows(d)
    decreases |d| - i
  {
    if i == |d| then
      assert d[..i] == d;
      Success(acc)
    else if !IsDigit(d[i]) then
      Failure(ErrSyntax)
    else
      var n := acc * 10 + DigitValue(d[i]);
      assert d[..i + 1][..i] == d[..i];
      assert AllDigits(d) ==> Value(d[..i + 1]) <= Value(d) by {
        if AllDigits(d) {
          PrefixValue(d, i + 1);
        }
      }
      if n > MaxUint64 then Failure(ErrRange) else ScanDigits(d, i + 1, n)
  }

  /** `strconv.ParseUint(d, 10, 64)` on the digits after the sign: an empty `d` is a syntax error. */
  function ParseUint(d: string): (r: Result<nat, NumErrorKind>)
    ensures r.Success? <==> d != [] && AllDigits(d) && Value(d) <= MaxUint64
    ensures r.Success? ==> r.value == Value(d)
    ensures d != [] && AllDigits(d) && Value(d) > MaxUint64 ==> r == Failure(ErrRange)
    ensures d == [] ==> r == Failure(ErrSyntax)
    ensures r == Failure(ErrSyntax) ==> d == [] || StopsOnNonDigit(d)
    ensures r == Failure(ErrRange) ==> Overflows(d)
  {
    if d == [] then Failure(ErrSyntax)
    else
      assert d[..0] == [];
      var r := ScanDigits(d, 0, 0);
      assert AllDigits(d) && Value(d) > MaxUint64 ==> r.Failure? && r.error == ErrRange;
      r
  }

  /**
   * `strconv.Atoi(s)` with a 64-bit `int`: the value of `s` when it is an optional sign and
   * decimal digits whose value fits, a range error when it has that form but does not fit,
   * otherwise (or when the digits overflow before a stray character) a syntax error.
   */
  function Atoi(s: string): (r: Result<int, NumError>)
    ensures r.Success? <==> IsDecimal(s) && InInt64(DecimalValue(s))
    ensures r.Success? ==> r.value == DecimalValue(s)
    ensures r.Failure? ==> r.error.num == s
    ensures IsDecimal(s) && !InInt64(DecimalValue(s)) ==> r == Failure(NumError(s, ErrRange))
    ensures Unsigned(s) == [] ==> r == Failure(NumError(s, ErrSyntax))
    ensures r.Failure? && r.error.kind == ErrSyntax ==> Unsigned(s) == [] || StopsOnNonDigit(Unsigned(s))
    ensures r.Failure? && r.error.kind == ErrRange ==>
      Overflows(Unsigned(s)) || (IsDecimal(s) && !InInt64(DecimalValue(s)))
  {
    if s == [] then Failure(NumError(s, ErrSyntax))
    else
      var neg := s[0] == '-';
      match ParseUint(Unsigned(s))
      case Failure(kind) => Failure(NumError(s, kind))
      case Success(u) =>
        if (!neg && u > MaxInt64) || (neg && u > -MinInt64) then Failure(NumError(s, ErrRange))
        else Success(if neg then -(u as int) else u)
  }

  /** The characters of an all-digit prefix are digits of the whole text. */
  lemma PrefixDigits(d: string, k: nat)
    requires k <= |d| && AllDigits(d[..k])
    ensures forall i :: 0 <= i < k ==> IsDigit(d[i])
  {
    forall i | 0 <= i < k
      ensures IsDigit(d[i])
    {
      assert d[..k][i] == d[i];
    }
  }

  /** A stray character before any overflow and an overflow before any stray character exclude each other. */
  lemma StopOrOverflow(d: string)
    ensures StopsOnNonDigit(d) ==> !Overflows(d)
  {
    if StopsOnNonDigit(d) {
      var j :| 0 <= j < |d| && !IsDigit(d[j]) && AllDigits(d[..j]) && Value(d[..j]) <= MaxUint64;
      forall k | 0 < k <= |d| && AllDigits(d[..k])
        ensures Value(d[..k]) <= MaxUint64
      {
        PrefixDigits(d, k);
        PrefixValue(d[..j], k);
        assert d[..j][..k] == d[..k];
      }
    }
  }

  /**
   * Which error Atoi reports: a syntax error exactly when there are no digits after the
   * sign or a stray character comes before any overflow, and a range error otherwise.
   */
  lemma AtoiErrorKind(s: string)
    requires Atoi(s).Failure?
    ensures Atoi(s).error.kind == ErrSyntax <==> Unsigned(s) == [] || StopsOnNonDigit(Unsigned(s))
    ensures Atoi(s).error.kind == ErrRange <==> Overflows(Unsigned(s)) || (IsDecimal(s) && !InInt64(DecimalValue(s)))
  {
    StopOrOverflow(Unsigned(s));
  }

  /** Atoi's fast path: an input shorter than 19 characters is never out of range. */
  lemma ShortAtoiFailsOnSyntax(s: string)
    requires |s| < 19 && Atoi(s).Failure?
    ensures Atoi(s).error.kind == ErrSyntax
  {
    var d := Unsigned(s);
    if Atoi(s).error.kind == ErrRange {
      Pow10Of18();
      if IsDecimal(s) {
        ValueBelowPow10(d);
        PowMonotone(|d|, 18);
      } else {
        assert d != [];
        var j :| 0 < j <= |d| && AllDigits(d[..j]) && Value(d[..j]) > MaxUint64;
        ValueBelowPow10(d[..j]);
        PowMonotone(j, 18);
      }
    }
  }

  lemma Pow10Of18()
    ensures Pow10(18) == 1000000000000000000
  {
    assert Pow10(2) == 100;
    assert Pow10(4) == 10000;
    assert Pow10(6) == 1000000;
    assert Pow10(8) == 100000000;
    assert Pow10(10) == 10000000000;
    assert Pow10(12) == 1000000000000;
    assert Pow10(14) == 100000000000000;
    assert Pow10(16) == 10000000000000000;
  }

  lemma {:induction false} PowMonotone(a: nat, b: nat)
    requires a <= b
    ensures Pow10(a) <= Pow10(b)
  {
    if a < b {
      PowMonotone(a, b - 1);
    }
  }

  /** Reading back what `%d` wrote gives the number again, for every 64-bit value. */
  lemma AtoiFormatInt(v: int)
    requires InInt64(v)
    ensures Atoi(FormatInt(v)) == Success(v)
  {
  }

  /** A digit string without leading zeros is what `%d` writes for its value. */
  lemma {:induction false} DigitsOfValue(d: string)
    requires d != [] && AllDigits(d) && (d[0] == '0' ==> d == "0")
    ensures Digits(Value(d)) == d
  {
    var n := Value(d);
    if |d| == 1 {
      assert d[..|d| - 1] == [];
      assert n == Value([]) * 10 + DigitValue(d[0]);
      assert d == [DigitChar(n)];
    } else {
      var init := d[..|d| - 1];
      assert init[0] == d[0];
      PrefixValue(init, 1);
      assert init[..1] == [init[0]];
      DigitsOfValue(init);
      assert n / 10 == Value(init) && n % 10 == DigitValue(d[|d| - 1]);
      assert d == init + [DigitChar(n % 10)];
    }
  }

  /** The other direction of the round trip: canonical text survives Atoi then `%d`. */
  lemma FormatIntAtoi(s: string)
    requires IsCanonical(s) && Atoi(s).Success?
    ensures FormatInt(Atoi(s).value) == s
  {
    var d := Unsigned(s);
    DigitsOfValue(d);
    if s[0] == '-' {
      assert s == "-" + d;
    }
  }

  /**
   * The text of Atoi's error for an input of plain characters: the input in double
   * quotes between "strconv.Atoi: parsing " and the reason.
   */
  lemma NumErrorText(n: string)
    requires forall i :: 0 <= i < |n| ==> IsPlain(n[i])
    ensures NumError(n, ErrSyntax).Text() == "strconv.Atoi: parsing " + "\"" + n + "\"" + ": " + "invalid syntax"
    ensures NumError(n, ErrRange).Text() == "strconv.Atoi: parsing " + "\"" + n + "\"" + ": " + "value out of range"
  {
    var quoted := Quote(n);
    assert quoted == "\"" + n + "\"";
    assert "strconv.Atoi: parsing " + quoted == "strconv.Atoi: parsing " + "\"" + n + "\"";
  }

  // ----- strconv.Quote, as the error text uses it -----

  function HexDigit(k: nat): char
    requires k < 16
  {
    "0123456789abcdef"[k]
  }

  /** A character Quote writes unchanged. */
  predicate IsPlain(c: char) {
    ' ' <= c <= '~' && c != '"' && c != '\\'
  }

  /** How `strconv.Quote` writes one character of the Latin-1 range; others are passed through. */
  function EscapeChar(c: char): string {
    var n := c as int;
    if c == '"' || c == '\\' then ['\\', c]
    else if 0x20 <= n <= 0x7E then [c]
    else if n == 0x07 then "\\a"
    else if n == 0x08 then "\\b"
    else if n == 0x0C then "\\f"
    else if n == 0x0A then "\\n"
    else if n == 0x0D then "\\r"
    else if n == 0x09 then "\\t"
    else if n == 0x0B then "\\v"
    else if n < 0x20 || n == 0x7F then "\\x" + [HexDigit(n / 16), HexDigit(n % 16)]
    else if n <= 0xA0 || n == 0xAD then "\\u00" + [HexDigit(n / 16), HexDigit(n % 16)]
    else [c]
  }

  /** A character Quote never writes raw: the C0 controls, DEL, the C1 controls, NBSP and the soft hyphen. */
  predicate NeedsEscape(c: char) {
    var n := c as int;
    n < 0x20 || 0x7F <= n <= 0xA0 || n == 0xAD
  }

  predicate IsHex(c: char) {
    '0' <= c <= '9' || 'a' <= c <= 'f' || 'A' <= c <= 'F'
  }

  function HexValue(c: char): nat
    requires IsHex(c)
  {
    if '0' <= c <= '9' then c as int - '0' as int
    else if 'a' <= c <= 'f' then c as int - 'a' as int + 10
    else c as int - 'A' as int + 10
  }

  /** The value of two hexadecimal digits, high one first. */
  function HexByte(hi: char, lo: char): (n: nat)
    requires IsHex(hi) && IsHex(lo)
    ensures n < 0x100
  {
    HexValue(hi) * 16 + HexValue(lo)
  }

  lemma HexRoundTrip(k: nat)
    requires k < 16
    ensures IsHex(HexDigit(k)) && HexValue(HexDigit(k)) == k
  {
  }

  /** The letters that may follow a backslash on their own. */
  predicate IsSimpleEscape(e: char) {
    e == '"' || e == '\\' || e == 'a' || e == 'b' || e == 'f' || e == 'n' || e == 'r' || e == 't' || e == 'v'
  }

  /** The character a one-letter escape `\e` stands for. */
  function SimpleUnescape(e: char): char
    requires IsSimpleEscape(e)
  {
    if e == 'a' then 7 as char
    else if e == 'b' then 8 as char
    else if e == 'f' then 0x0C as char
    else if e == 'n' then 0x0A as char
    else if e == 'r' then 0x0D as char
    else if e == 't' then 0x09 as char
    else if e == 'v' then 0x0B as char
    else e
  }

  function Prepend(c: char, rest: Option<string>): Option<string> {
    match rest
    case None => None
    case Some(t) => Some([c] + t)
  }

  /**
   * Reading the text between the quotes of a Go string literal: `\xHH`, `\uHHHH` and the
   * one-letter escapes stand for one character each, and any other character for itself.
   * None when the text is not such a literal's body: a raw double quote, a raw character
   * that must be escaped, a backslash at the end, an unknown escape letter, a malformed
   * hexadecimal escape, or a `\u` naming a surrogate.
   */
  function Unescape(t: string): Option<string>
    decreases |t|
  {
    if t == [] then Some([])
    else if t[0] != '\\' then
      if t[0] == '"' || NeedsEscape(t[0]) then None else Prepend(t[0], Unescape(t[1..]))
    else if |t| < 2 then None
    else if t[1] == 'x' then
      if |t| >= 4 && IsHex(t[2]) && IsHex(t[3]) then
        Prepend(HexByte(t[2], t[3]) as char, Unescape(t[4..]))
      else None
    else if t[1] == 'u' then
      if |t| >= 6 && IsHex(t[2]) && IsHex(t[3]) && IsHex(t[4]) && IsHex(t[5]) then
        var n := HexByte(t[2], t[3]) * 0x100 + HexByte(t[4], t[5]);
        if 0xD800 <= n < 0xE000 then None else Prepend(n as char, Unescape(t[6..]))
      else None
    else if IsSimpleEscape(t[1]) then Prepend(SimpleUnescape(t[1]), Unescape(t[2..]))
    else None
  }

  /** A raw double quote or a raw character Quote must escape is never part of a literal body. */
  lemma RawCharRejected(c: char, rest: string)
    requires c == '"' || NeedsEscape(c)
    ensures Unescape([c] + rest) == None
  {
  }

  /** A character written as itself reads back as itself. */
  lemma UnescapeVerbatim(c: char, rest: string)
    requires c != '\\' && c != '"' && !NeedsEscape(c)
    ensures Unescape([c] + rest) == Prepend(c, Unescape(rest))
  {
    assert ([c] + rest)[1..] == rest;
  }

  /** A backslash and one letter read back as the character the letter stands for. */
  lemma UnescapeSimple(e: char, rest: string)
    requires IsSimpleEscape(e)
    ensures Unescape(['\\', e] + rest) == Prepend(SimpleUnescape(e), Unescape(rest))
  {
    assert (['\\', e] + rest)[2..] == rest;
  }

  /** `\xHH` and `\u00HH` read back as the character with code `n`. */
  lemma UnescapeHex(n: nat, rest: string)
    requires n < 0x100
    ensures Unescape("\\x" + [HexDigit(n / 16), HexDigit(n % 16)] + rest) == Prepend(n as char, Unescape(rest))
    ensures Unescape("\\u00" + [HexDigit(n / 16), HexDigit(n % 16)] + rest) == Prepend(n as char, Unescape(rest))
  {
    HexRoundTrip(n / 16);
    HexRoundTrip(n % 16);
    HexRoundTrip(0);
    assert ("\\x" + [HexDigit(n / 16), HexDigit(n % 16)] + rest)[4..] == rest;
    assert ("\\u00" + [HexDigit(n / 16), HexDigit(n % 16)] + rest)[6..] == rest;
  }

  /** Each character's escape reads back as that character, whatever follows it. */
  lemma UnescapeChar(c: char, rest: string)
    ensures Unescape(EscapeChar(c) + rest) == Prepend(c, Unescape(rest))
  {
    var n := c as int;
    if c == '"' || c == '\\' {
      UnescapeSimple(c, rest);
    } else if 0x20 <= n <= 0x7E {
      UnescapeVerbatim(c, rest);
    } else if 0x07 <= n <= 0x0D {
      var e := EscapeChar(c)[1];
      assert EscapeChar(c) == ['\\', e] && IsSimpleEscape(e) && SimpleUnescape(e) == c;
      UnescapeSimple(e, rest);
    } else if NeedsEscape(c) {
      UnescapeHex(n, rest);
    } else {
      UnescapeVerbatim(c, rest);
    }
  }

  /**
   * `strconv.Quote`'s escaping: the result is a valid literal body that reads back as `s`,
   * and plain text is left as it is.
   */
  function Escape(s: string): (r: string)
    ensures Unescape(r) == Some(s)
    ensures (forall i :: 0 <= i < |s| ==> IsPlain(s[i])) ==> r == s
  {
    if s == [] then []
    else
      UnescapeChar(s[0], Escape(s[1..]));
      assert [s[0]] + s[1..] == s;
      EscapeChar(s[0]) + Escape(s[1..])
  }

  /**
   * `strconv.Quote(s)`: a double-quoted Go string literal for `s`. Between the quotes stands
   * a literal body (no raw double quote, no raw control character) that reads back as `s`.
   */
  function Quote(s: string): (r: string)
    ensures |r| >= 2 && r[0] == '"' && r[|r| - 1] == '"'
    ensures Unescape(r[1..|r| - 1]) == Some(s)
    ensures (forall i :: 0 <= i < |s| ==> IsPlain(s[i])) ==> r == "\"" + s + "\""
  {
    var r := "\"" + Escape(s) + "\"";
    assert r[1..|r| - 1] == Escape(s);
    r
  }
}
