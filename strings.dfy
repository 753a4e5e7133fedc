/** String helpers for the parts of JavaScript's String API the model needs. */
module Strings {

  import opened Wrappers

  predicate StartsWith(s: string, prefix: string)
  {
    |prefix| <= |s| && s[..|prefix|] == prefix
  }

  /** `s.includes(t)`: t occurs somewhere in s. */
  predicate Contains(s: string, t: string)
    decreases |s|
  {
    StartsWith(s, t) || (|s| > 0 && Contains(s[1..], t))
  }

  /** Index of the first occurrence of c in s, or |s| when there is none. */
  function IndexOfChar(s: string, c: char): (i: nat)
    ensures i <= |s|
    ensures i < |s| ==> s[i] == c
    ensures forall k :: 0 <= k < i ==> s[k] != c
  {
    if |s| == 0 then 0
    else if s[0] == c then 0
    else 1 + IndexOfChar(s[1..], c)
  }

  /** `s.split(c)[0]`: the text before the first c, or all of s. */
  function SplitHead(s: string, c: char): (h: string)
    ensures c !in h
    ensures h <= s
    ensures c !in s ==> h == s
  {
    s[..IndexOfChar(s, c)]
  }

  /** `s.split(c)[1]`: the text between the first and second c; None when s has no c. */
  function SplitSecond(s: string, c: char): (r: Option<string>)
    ensures r.None? <==> c !in s
    ensures r.Some? ==> c !in r.value
  {
    var i := IndexOfChar(s, c);
    if i == |s| then
      assert forall k :: 0 <= k < |s| ==> s[k] != c;
      None
    else
      Some(SplitHead(s[i + 1..], c))
  }

  predicate IsDigit(c: char) { '0' <= c <= '9' }

  function DigitValue(c: char): nat
    requires IsDigit(c)
  {
    (c as int - '0' as int) as nat
  }

  /** Length of the leading run of decimal digits of s. */
  function DigitRun(s: string): (n: nat)
    ensures n <= |s|
    ensures forall k :: 0 <= k < n ==> IsDigit(s[k])
    ensures n < |s| ==> !IsDigit(s[n])
  {
    if |s| == 0 || !IsDigit(s[0]) then 0 else 1 + DigitRun(s[1..])
  }

  /** Decimal value of a string made only of digits. */
  function DecimalValue(s: string): nat
    requires forall k :: 0 <= k < |s| ==> IsDigit(s[k])
  {
    if |s| == 0 then 0 else 10 * DecimalValue(s[..|s| - 1]) + DigitValue(s[|s| - 1])
  }

  /** The value of the leading decimal digits of s, None when s does not start with a digit. */
  function ParseIntPrefix(s: string): (r: Option<nat>)
    ensures r.None? <==> (|s| == 0 || !IsDigit(s[0]))
  {
    var n := DigitRun(s);
    if n == 0 then None else Some(DecimalValue(s[..n]))
  }

  predicate IsHexDigit(c: char) { IsDigit(c) || 'a' <= c <= 'f' || 'A' <= c <= 'F' }

  function HexDigitValue(c: char): (d: nat)
    requires IsHexDigit(c)
    ensures d < 16
  {
    if IsDigit(c) then DigitValue(c)
    else if 'a' <= c <= 'f' then (c as int - 'a' as int + 10) as nat
    else (c as int - 'A' as int + 10) as nat
  }

  /** Length of the leading run of hexadecimal digits of s. */
  function HexRun(s: string): (n: nat)
    ensures n <= |s|
    ensures forall k :: 0 <= k < n ==> IsHexDigit(s[k])
    ensures n < |s| ==> !IsHexDigit(s[n])
  {
    if |s| == 0 || !IsHexDigit(s[0]) then 0 else 1 + HexRun(s[1..])
  }

  /** Hexadecimal value of a string made only of hexadecimal digits. */
  function HexValue(s: string): nat
    requires forall k :: 0 <= k < |s| ==> IsHexDigit(s[k])
  {
    if |s| == 0 then 0 else 16 * HexValue(s[..|s| - 1]) + HexDigitValue(s[|s| - 1])
  }

  /** `parseInt`'s optional sign is dropped from the front of t. */
  function Unsigned(t: string): string
  {
    if |t| > 0 && (t[0] == '+' || t[0] == '-') then t[1..] else t
  }

  predicate Negative(t: string) { |t| > 0 && t[0] == '-' }

  /** Without a radix, `parseInt` reads "0x" or "0X" as the start of a hexadecimal number. */
  predicate HexPrefixed(u: string) { |u| >= 2 && u[0] == '0' && (u[1] == 'x' || u[1] == 'X') }

  /** The digits after the sign: base 16 after "0x", otherwise base 10; None when no digit follows. */
  function ParseUnsigned(u: string): (r: Option<nat>)
    ensures r.None? <==> (if HexPrefixed(u) then |u| == 2 || !IsHexDigit(u[2]) else |u| == 0 || !IsDigit(u[0]))
    ensures !HexPrefixed(u) ==> r == ParseIntPrefix(u)
  {
    if HexPrefixed(u) then
      var n := HexRun(u[2..]);
      if n == 0 then None else Some(HexValue(u[2..][..n]))
    else ParseIntPrefix(u)
  }

  /** The text after leading white space: a '-' negates what follows it, and a '+' is dropped. */
  function ParseSigned(t: string): (r: Option<int>)
    ensures r.None? <==> ParseUnsigned(Unsigned(t)).None?
  {
    var v := ParseUnsigned(Unsigned(t));
    if v.None? then None
    else
      var n: int := v.value;
      if Negative(t) then Some(-n) else Some(n)
  }

  /**
   * `parseInt(s)` without a radix: leading white space is skipped, then one sign, then a
   * "0x" prefix selects base 16; the value of the longest run of digits that follows,
   * negated after '-', or None (NaN) when no digit follows.
   */
  function ParseInt(s: string): (r: Option<int>)
    ensures var u := Unsigned(TrimStart(s));
            r.None? <==> (if HexPrefixed(u) then |u| == 2 || !IsHexDigit(u[2]) else |u| == 0 || !IsDigit(u[0]))
  {
    ParseSigned(TrimStart(s))
  }

  /** The value parsed, negated; NaN stays NaN. */
  function Negated(r: Option<int>): Option<int>
  {
    if r.Some? then Some(-r.value) else None
  }

  lemma TrimStartOfNonSpace(s: string)
    requires |s| == 0 || !IsSpace(s[0])
    ensures TrimStart(s) == s
  {
  }

  lemma TrimStartOfSpace(c: char, s: string)
    requires IsSpace(c)
    ensures TrimStart([c] + s) == TrimStart(s)
  {
    assert ([c] + s)[1..] == s;
  }

  /** Leading white space does not change what `parseInt` reads. */
  lemma ParseIntSkipsSpace(c: char, s: string)
    requires IsSpace(c)
    ensures ParseInt([c] + s) == ParseInt(s)
  {
    TrimStartOfSpace(c, s);
  }

  /** A '+' changes nothing, when what follows starts neither with white space nor with a sign. */
  lemma ParseIntPlus(u: string)
    requires |u| == 0 || (!IsSpace(u[0]) && u[0] != '+' && u[0] != '-')
    ensures ParseInt("+" + u) == ParseInt(u)
  {
    assert ("+" + u)[0] == '+';
    TrimStartOfNonSpace("+" + u);
    TrimStartOfNonSpace(u);
    assert Unsigned("+" + u) == u by { assert ("+" + u)[1..] == u; }
    assert Unsigned(u) == u && !Negative(u);
  }

  /** A '-' negates, when what follows starts neither with white space nor with a sign. */
  lemma ParseIntMinus(u: string)
    requires |u| == 0 || (!IsSpace(u[0]) && u[0] != '+' && u[0] != '-')
    ensures ParseInt("-" + u) == Negated(ParseInt(u))
  {
    assert ("-" + u)[0] == '-';
    TrimStartOfNonSpace("-" + u);
    TrimStartOfNonSpace(u);
    assert Unsigned("-" + u) == u by { assert ("-" + u)[1..] == u; }
    assert Unsigned(u) == u && !Negative(u);
  }

  /** On text that starts with a decimal digit and no "0x", `parseInt` reads the leading decimal digits. */
  lemma ParseIntOfDigits(s: string)
    requires |s| > 0 && IsDigit(s[0]) && !HexPrefixed(s)
    ensures ParseInt(s) == Some(ParseIntPrefix(s).value)
  {
    TrimStartOfNonSpace(s);
    assert Unsigned(s) == s && !Negative(s);
  }

  /** The decimal text of a number reads back as that number. */
  lemma ParseIntRoundTrip(n: nat)
    ensures ParseInt(NatToDecimal(n)) == Some(n)
  {
    var d := NatToDecimal(n);
    if n >= 10 {
      NatToDecimalLeadingDigit(n);
    }
    ParseIntOfDigits(d);
    DigitRunOfDigits(d, "");
    assert d + "" == d && d[..|d|] == d;
    DecimalRoundTrip(n);
  }

  /** The decimal text of a number of two or more digits does not start with 0. */
  lemma {:induction false} NatToDecimalLeadingDigit(n: nat)
    requires n >= 10
    ensures NatToDecimal(n)[0] != '0'
  {
    if n / 10 >= 10 {
      NatToDecimalLeadingDigit(n / 10);
    }
  }

  /** A sign before decimal digits: '+' keeps their value and '-' negates it. */
  lemma SignedDigits(sign: char, d: string)
    requires sign == '+' || sign == '-'
    requires |d| > 0 && IsDigit(d[0]) && !HexPrefixed(d)
    ensures var v := ParseIntPrefix(d).value as int;
            ParseInt([sign] + d) == Some(if sign == '-' then -v else v)
  {
    if sign == '+' {
      assert [sign] + d == "+" + d;
      PlusDigits(d);
    } else {
      assert [sign] + d == "-" + d;
      MinusDigits(d);
    }
  }

  lemma PlusDigits(d: string)
    requires |d| > 0 && IsDigit(d[0]) && !HexPrefixed(d)
    ensures ParseInt("+" + d) == Some(ParseIntPrefix(d).value)
  {
    ParseIntOfDigits(d);
    ParseIntPlus(d);
  }

  lemma MinusDigits(d: string)
    requires |d| > 0 && IsDigit(d[0]) && !HexPrefixed(d)
    ensures ParseInt("-" + d) == Some(-(ParseIntPrefix(d).value as int))
  {
    ParseIntOfDigits(d);
    ParseIntMinus(d);
  }

  /** `parseInt` stops at the first character that is not a digit. */
  lemma DigitsThenText(d: string, rest: string)
    requires |d| > 0 && forall k :: 0 <= k < |d| ==> IsDigit(d[k])
    requires |rest| == 0 || !IsDigit(rest[0])
    requires !HexPrefixed(d + rest)
    ensures ParseInt(d + rest) == Some(DecimalValue(d))
  {
    assert (d + rest)[0] == d[0];
    DigitRunOfDigits(d, rest);
    assert (d + rest)[..|d|] == d;
    ParseIntOfDigits(d + rest);
  }

  /** White space after the sign is not skipped: the result is NaN. */
  lemma SpaceAfterSignIsNaN(sign: char, c: char, d: string)
    requires sign == '+' || sign == '-'
    requires IsSpace(c)
    ensures ParseInt([sign, c] + d).None?
  {
    var s := [sign, c] + d;
    assert s[0] == sign && s[1] == c;
    TrimStartOfNonSpace(s);
    assert Unsigned(s) == s[1..];
  }

  /** `parseInt` skips white space before the digits. */
  lemma SpacedPrefix(c: char)
    requires IsSpace(c)
    ensures ParseInt([c] + "24") == Some(24)
  {
    ParseText24();
    ParseIntSkipsSpace(c, "24");
  }

  /** `parseInt` takes one sign before the digits. */
  lemma SignedPrefix(sign: char)
    requires sign == '+' || sign == '-'
    ensures ParseInt([sign] + "24") == Some(if sign == '-' then -24 else 24)
  {
    assert ParseIntPrefix("24") == Some(24) by { ParseText24(); ParseIntOfDigits("24"); }
    SignedDigits(sign, "24");
  }

  /** Zero with either sign is zero. */
  lemma SignedZero(sign: char)
    requires sign == '+' || sign == '-'
    ensures ParseInt([sign] + "0") == Some(0)
  {
    assert ParseIntPrefix("0") == Some(0) by { ParseDigit('0'); assert "0" == ['0']; ParseIntOfDigits("0"); }
    SignedDigits(sign, "0");
  }

  /** Without a radix, "0x" or "0X" starts a hexadecimal number, and is NaN without digits. */
  lemma HexPrefix(x: char)
    requires x == 'x' || x == 'X'
    ensures ParseInt(['0', x] + "18") == Some(24)
    ensures ParseInt(['0', x]).None?
  {
    var s := ['0', x] + "18";
    assert s[0] == '0' && s[1] == x;
    TrimStartOfNonSpace(s);
    assert Unsigned(s) == s && !Negative(s) && HexPrefixed(s);
    assert s[2..] == "18" && "18"[1..] == "8" && "8"[1..] == "";
    assert HexRun("18") == 2;
    assert "18"[..2] == "18" && "18"[..1] == "1" && "1"[..0] == "";
    assert HexValue("18") == 24;
    TrimStartOfNonSpace(['0', x]);
    assert Unsigned(['0', x]) == ['0', x];
  }

  lemma ParseText24()
    ensures ParseInt("24") == Some(24)
  {
    var s := "24";
    assert s[1..] == "4";
    assert DigitRun("4") == 1 by { assert "4"[1..] == ""; }
    assert DigitRun(s) == 2;
    assert s[..2] == s && s[..1] == "2";
    assert DecimalValue("2") == 2 by { assert "2"[..0] == ""; }
    assert DecimalValue(s) == 24;
    ParseIntOfDigits(s);
  }

  /** A single decimal digit reads as its value. */
  lemma ParseDigit(c: char)
    requires IsDigit(c)
    ensures ParseInt([c]) == Some(DigitValue(c))
  {
    assert DigitRun([c]) == 1 by { assert [c][1..] == ""; }
    assert [c][..1] == [c] && [c][..0] == "" && [c][0] == c;
    assert DecimalValue([c]) == DigitValue(c);
    ParseIntOfDigits([c]);
  }

  function DigitChar(d: nat): (c: char)
    requires d < 10
    ensures IsDigit(c) && DigitValue(c) == d
  {
    ('0' as int + d) as char
  }

  /** The decimal digits of n, without leading zeros. */
  function NatToDecimal(n: nat): (s: string)
    ensures |s| > 0
    ensures forall k :: 0 <= k < |s| ==> IsDigit(s[k])
  {
    if n < 10 then [DigitChar(n)] else NatToDecimal(n / 10) + [DigitChar(n % 10)]
  }

  lemma {:induction false} DecimalRoundTrip(n: nat)
    ensures DecimalValue(NatToDecimal(n)) == n
  {
    var s := NatToDecimal(n);
    if n >= 10 {
      DecimalRoundTrip(n / 10);
      assert s[..|s| - 1] == NatToDecimal(n / 10);
    }
  }

  /** A digit run ends where the digits end. */
  lemma DigitRunOfDigits(d: string, rest: string)
    requires forall k :: 0 <= k < |d| ==> IsDigit(d[k])
    requires |rest| == 0 || !IsDigit(rest[0])
    ensures DigitRun(d + rest) == |d|
  {
    var n := DigitRun(d + rest);
    assert forall k :: 0 <= k < |d| ==> (d + rest)[k] == d[k];
    assert |rest| > 0 ==> (d + rest)[|d|] == rest[0];
  }

  /** `s.split(c)`: the pieces between occurrences of c, at least one. */
  function SplitOn(s: string, c: char): (parts: seq<string>)
    ensures |parts| >= 1
    ensures forall k :: 0 <= k < |parts| ==> c !in parts[k]
    decreases |s|
  {
    var i := IndexOfChar(s, c);
    if i == |s| then [s] else [s[..i]] + SplitOn(s[i + 1..], c)
  }

  /** Splitting a piece free of c, then c, then a rest. */
  lemma SplitOnJoin(a: string, c: char, b: string)
    requires c !in a
    ensures SplitOn(a + [c] + b, c) == [a] + SplitOn(b, c)
  {
    var s := a + [c] + b;
    var i := IndexOfChar(s, c);
    assert s[|a|] == c;
    assert i == |a|;
    assert s[..i] == a;
    assert s[i + 1..] == b;
  }

  lemma SplitOnFree(a: string, c: char)
    requires c !in a
    ensures SplitOn(a, c) == [a]
  {
  }

  /**
   * JavaScript's white space and line terminators, what `trim` removes and `parseInt`
   * skips: tab, vertical tab, form feed, the byte order mark, the space separators of
   * Unicode and LF, CR, LS and PS.
   */
  predicate IsSpace(c: char)
  {
    c == '\t' || c == '\U{000B}' || c == '\U{000C}' || c == '\U{FEFF}' ||
    c == ' ' || c == '\U{00A0}' || c == '\U{1680}' || '\U{2000}' <= c <= '\U{200A}' ||
    c == '\U{202F}' || c == '\U{205F}' || c == '\U{3000}' ||
    c == '\n' || c == '\r' || c == '\U{2028}' || c == '\U{2029}'
  }

  function TrimStart(s: string): (t: string)
    ensures |t| <= |s| && t == s[|s| - |t|..]
    ensures |t| > 0 ==> !IsSpace(t[0])
    ensures forall i :: 0 <= i < |s| - |t| ==> IsSpace(s[i])
  {
    if |s| > 0 && IsSpace(s[0]) then
      var t := TrimStart(s[1..]);
      assert s[1..][|s| - 1 - |t|..] == s[|s| - |t|..];
      t
    else s
  }

  function TrimEnd(s: string): (t: string)
    ensures |t| <= |s| && t == s[..|t|]
    ensures |t| > 0 ==> !IsSpace(t[|t| - 1])
    ensures forall i :: |t| <= i < |s| ==> IsSpace(s[i])
  {
    if |s| > 0 && IsSpace(s[|s| - 1]) then
      var t := TrimEnd(s[..|s| - 1]);
      assert s[..|s| - 1][..|t|] == s[..|t|];
      t
    else s
  }

  /** t sits at offset i of s with only white space before and after it. */
  predicate TrimmedAt(s: string, t: string, i: int)
  {
    0 <= i <= |s| - |t| && t == s[i..i + |t|] &&
    (forall k :: 0 <= k < i ==> IsSpace(s[k])) && (forall k :: i + |t| <= k < |s| ==> IsSpace(s[k]))
  }

  /** `trim()`: the text without its leading and trailing white space. */
  function Trim(s: string): (t: string)
    ensures |t| > 0 ==> !IsSpace(t[0]) && !IsSpace(t[|t| - 1])
    ensures Contains(s, t)
    ensures exists i :: TrimmedAt(s, t, i)
  {
    var a := TrimStart(s);
    var t := TrimEnd(a);
    SliceOfSuffix(s, a, t);
    SliceContained(s, t, |s| - |a|);
    TrimSlice(s, a, t);
    t
  }

  lemma SliceContained(s: string, t: string, i: nat)
    requires i + |t| <= |s| && s[i..i + |t|] == t
    ensures Contains(s, t)
  {
    ContainsSlice(s, i, i + |t|);
  }

  /**
   * A suffix a of s after leading white space, and a prefix t of a before trailing white
   * space, make t a slice of s with only white space around it.
   */
  lemma TrimSlice(s: string, a: string, t: string)
    requires |a| <= |s| && a == s[|s| - |a|..] && forall i :: 0 <= i < |s| - |a| ==> IsSpace(s[i])
    requires |t| <= |a| && forall j :: |t| <= j < |a| ==> IsSpace(a[j])
    requires s[|s| - |a|..|s| - |a| + |t|] == t
    ensures TrimmedAt(s, t, |s| - |a|)
  {
    TrailingSpaceOfSuffix(s, a, t);
  }

  lemma SliceOfSuffix(s: string, a: string, t: string)
    requires |a| <= |s| && a == s[|s| - |a|..] && |t| <= |a| && t == a[..|t|]
    ensures s[|s| - |a|..|s| - |a| + |t|] == t
  {
    assert s[|s| - |a|..][..|t|] == s[|s| - |a|..|s| - |a| + |t|];
  }

  lemma TrailingSpaceOfSuffix(s: string, a: string, t: string)
    requires |a| <= |s| && a == s[|s| - |a|..] && |t| <= |a|
    requires forall j :: |t| <= j < |a| ==> IsSpace(a[j])
    ensures forall k :: |s| - |a| + |t| <= k < |s| ==> IsSpace(s[k])
  {
    forall k | |s| - |a| + |t| <= k < |s|
      ensures IsSpace(s[k])
    {
      assert s[k] == a[k - (|s| - |a|)];
    }
  }

  lemma {:induction false} ContainsSlice(s: string, i: nat, j: nat)
    requires i <= j <= |s|
    ensures Contains(s, s[i..j])
    decreases i
  {
    if i == 0 {
      assert s[..j] == s[0..j];
    } else {
      ContainsSlice(s[1..], i - 1, j - 1);
      assert s[1..][i - 1..j - 1] == s[i..j];
    }
  }

  /** Trimming twice changes nothing more. */
  lemma TrimIdempotent(s: string)
    ensures Trim(Trim(s)) == Trim(s)
  {
    var t := Trim(s);
    if |t| > 0 {
      assert TrimStart(t) == t;
      assert TrimEnd(t) == t;
    }
  }

  /** `x || d` on a string: undefined and "" are falsy. */
  function OrString(x: Option<string>, d: string): (r: string)
    ensures x.Some? && x.value != "" ==> r == x.value
    ensures x.None? || x.value == "" ==> r == d
  {
    if x.Some? && x.value != "" then x.value else d
  }
}
