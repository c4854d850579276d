// Character and string helpers shared by the model: ASCII case folding,
// containment, splitting and the two integer parsers the sources rely on
// (Go's strconv.Atoi and C#'s int.TryParse).
module Text {
  import opened Wrappers

  function LowerChar(c: char): (r: char)
    ensures 'A' <= c <= 'Z' ==> r as int == c as int + 32
    ensures !('A' <= c <= 'Z') ==> r == c
  {
    if 'A' <= c <= 'Z' then (c as int + 32) as char else c
  }

  /** Lower-cases the ASCII letters of `s`, leaving every other character alone. */
  function Lower(s: string): (r: string)
    ensures |r| == |s|
    ensures forall i :: 0 <= i < |s| ==> r[i] == LowerChar(s[i])
  {
    seq(|s|, i requires 0 <= i < |s| => LowerChar(s[i]))
  }

  predicate EqualsIgnoreCase(a: string, b: string)
  {
    Lower(a) == Lower(b)
  }

  predicate StartsWith(s: string, prefix: string)
  {
    |prefix| <= |s| && s[..|prefix|] == prefix
  }

  predicate EndsWith(s: string, suffix: string)
  {
    |suffix| <= |s| && s[|s| - |suffix|..] == suffix
  }

  /** Ordinal substring test; the empty string is contained in every string. */
  predicate Contains(s: string, sub: string)
  {
    exists k :: 0 <= k <= |s| - |sub| && OccursAt(s, sub, k)
  }

  predicate OccursAt(s: string, sub: string, k: int)
  {
    0 <= k <= |s| - |sub| && s[k..k + |sub|] == sub
  }

  /** A string placed between two others is contained in the whole. */
  lemma InfixContained(a: string, b: string, c: string)
    ensures OccursAt(a + b + c, b, |a|) && Contains(a + b + c, b)
  {
    var s := a + b + c;
    assert s[|a|..|a| + |b|] == b;
    assert OccursAt(s, b, |a|);
  }

  /** Both inserted pieces of a + x + b + y are contained in it. */
  lemma PiecesContained(a: string, x: string, b: string, y: string)
    ensures Contains(a + x + b + y, x) && Contains(a + x + b + y, y)
  {
    var s := a + x + b + y;
    assert s[|a|..|a| + |x|] == x;
    assert s[|a + x + b|..|a + x + b| + |y|] == y;
    assert OccursAt(s, x, |a|) && OccursAt(s, y, |a + x + b|);
  }

  predicate ContainsIgnoreCase(s: string, sub: string)
  {
    Contains(Lower(s), Lower(sub))
  }

  predicate IsAsciiDigit(c: char) { '0' <= c <= '9' }

  /** ASCII white space only: space, tab, line feed, vertical tab, form feed and carriage return. */
  predicate IsBlank(s: string)
  {
    forall i :: 0 <= i < |s| ==>
      s[i] == ' ' || s[i] == '\t' || s[i] == '\n' || s[i] == '\r' || s[i] == '\U{000B}' || s[i] == '\U{000C}'
  }

  /** Index of the first occurrence of `c` in `s` at or after `from`, or -1. */
  function IndexOfFrom(s: string, c: char, from: nat): (r: int)
    requires from <= |s|
    ensures r == -1 || (from <= r < |s| && s[r] == c)
    ensures r == -1 ==> forall k :: from <= k < |s| ==> s[k] != c
    ensures r != -1 ==> forall k :: from <= k < r ==> s[k] != c
    decreases |s| - from
  {
    if from == |s| then -1
    else if s[from] == c then from
    else IndexOfFrom(s, c, from + 1)
  }

  function IndexOf(s: string, c: char): (r: int)
    ensures r == -1 || (0 <= r < |s| && s[r] == c)
    ensures r == -1 <==> forall k :: 0 <= k < |s| ==> s[k] != c
    ensures r != -1 ==> forall k :: 0 <= k < r ==> s[k] != c
  {
    IndexOfFrom(s, c, 0)
  }

  /** Splits `s` on every `sep`, keeping empty pieces, as String.Split does. */
  function Split(s: string, sep: char): (r: seq<string>)
    ensures |r| >= 1
    ensures forall i :: 0 <= i < |r| ==> sep !in r[i]
    decreases |s|
  {
    var k := IndexOf(s, sep);
    if k == -1 then [s] else [s[..k]] + Split(s[k + 1..], sep)
  }

  function DigitValue(c: char): (r: nat)
    requires IsAsciiDigit(c)
    ensures r < 10
  {
    c as int - '0' as int
  }

  /** Value of a non-empty run of decimal digits. */
  function DigitsValue(s: string): (r: nat)
    requires forall i :: 0 <= i < |s| ==> IsAsciiDigit(s[i])
    decreases |s|
  {
    if s == [] then 0 else DigitsValue(s[..|s| - 1]) * 10 + DigitValue(s[|s| - 1])
  }

  predicate AllDigits(s: string)
  {
    |s| > 0 && forall i :: 0 <= i < |s| ==> IsAsciiDigit(s[i])
  }

  /** Value of an optional sign followed by one or more decimal digits; no range check. */
  function SignedValue(s: string): (r: Option<int>)
    ensures r.Some? <==> (AllDigits(s) || (|s| >= 2 && (s[0] == '+' || s[0] == '-') && AllDigits(s[1..])))
  {
    if AllDigits(s) then Some(DigitsValue(s))
    else if |s| >= 2 && s[0] == '+' && AllDigits(s[1..]) then Some(DigitsValue(s[1..]))
    else if |s| >= 2 && s[0] == '-' && AllDigits(s[1..]) then Some(0 - DigitsValue(s[1..]) as int)
    else None
  }

  const Int32Min: int := -0x8000_0000
  const Int32Max: int := 0x7FFF_FFFF
  const Int64Min: int := -0x8000_0000_0000_0000
  const Int64Max: int := 0x7FFF_FFFF_FFFF_FFFF

  /** Go's strconv.Atoi on a 64-bit platform: sign, digits, int64 range. */
  function Atoi(s: string): (r: Option<int>)
    ensures r.Some? ==> Int64Min <= r.value <= Int64Max
    ensures r.Some? ==> SignedValue(s) == r
    ensures AllDigits(s) && DigitsValue(s) <= Int64Max ==> r == Some(DigitsValue(s))
  {
    var v := SignedValue(s);
    if v.Some? && Int64Min <= v.value <= Int64Max then v else None
  }

  function TrimWhitespace(s: string): (r: string)
    ensures |r| <= |s|
    decreases |s|
  {
    if |s| > 0 && IsBlank(s[..1]) then TrimWhitespace(s[1..])
    else if |s| > 0 && IsBlank(s[|s| - 1..]) then TrimWhitespace(s[..|s| - 1])
    else s
  }

  lemma DigitsAreNotTrimmed(s: string)
    ensures AllDigits(s) ==> TrimWhitespace(s) == s
  {
    if AllDigits(s) && |s| > 0 {
      assert !IsBlank(s[..1]) by {
        assert s[..1][0] == s[0];
      }
      assert !IsBlank(s[|s| - 1..]) by {
        assert s[|s| - 1..][0] == s[|s| - 1];
      }
    }
  }

  /** C#'s int.TryParse with default styles: surrounding white space, a sign, digits, int32 range. */
  function TryParseInt(s: string): (r: Option<int>)
    ensures r.Some? ==> Int32Min <= r.value <= Int32Max
    ensures AllDigits(s) && DigitsValue(s) <= Int32Max ==> r == Some(DigitsValue(s))
  {
    DigitsAreNotTrimmed(s);
    var v := SignedValue(TrimWhitespace(s));
    if v.Some? && Int32Min <= v.value <= Int32Max then v else None
  }

  /** The characters bool.TryParse trims: ASCII white space and '\0'. */
  predicate IsBlankOrNull(s: string)
  {
    forall i :: 0 <= i < |s| ==>
      s[i] == ' ' || s[i] == '\t' || s[i] == '\n' || s[i] == '\r' || s[i] == '\U{000B}' || s[i] == '\U{000C}' || s[i] == '\0'
  }

  /** bool.TryParse's trim: white space and '\0' removed from both ends. */
  function TrimWhitespaceAndNull(s: string): (r: string)
    ensures |r| <= |s|
    decreases |s|
  {
    if |s| > 0 && IsBlankOrNull(s[..1]) then TrimWhitespaceAndNull(s[1..])
    else if |s| > 0 && IsBlankOrNull(s[|s| - 1..]) then TrimWhitespaceAndNull(s[..|s| - 1])
    else s
  }

  /** On text without '\0' the two trims agree. */
  lemma {:induction false} TrimsAgreeWithoutNull(s: string)
    requires '\0' !in s
    ensures TrimWhitespaceAndNull(s) == TrimWhitespace(s)
    decreases |s|
  {
    if |s| > 0 {
      assert s[..1][0] == s[0] && s[|s| - 1..][0] == s[|s| - 1];
      assert IsBlankOrNull(s[..1]) == IsBlank(s[..1]);
      assert IsBlankOrNull(s[|s| - 1..]) == IsBlank(s[|s| - 1..]);
      if IsBlank(s[..1]) {
        TrimsAgreeWithoutNull(s[1..]);
      } else if IsBlank(s[|s| - 1..]) {
        TrimsAgreeWithoutNull(s[..|s| - 1]);
      }
    }
  }

  /** C#'s bool.TryParse: "true" or "false" in any letter case, with white space and '\0' around it. */
  function TryParseBool(s: string): (r: Option<bool>)
    ensures r == Some(true) <==> EqualsIgnoreCase(TrimWhitespaceAndNull(s), "true")
    ensures r == Some(false) <==> EqualsIgnoreCase(TrimWhitespaceAndNull(s), "false")
  {
    var t := TrimWhitespaceAndNull(s);
    if EqualsIgnoreCase(t, "true") then Some(true)
    else if EqualsIgnoreCase(t, "false") then Some(false)
    else None
  }

  /** n copies of '\0'. */
  function Nulls(n: nat): (r: string)
    ensures |r| == n && forall i :: 0 <= i < n ==> r[i] == '\0'
  {
    seq(n, _ => '\0')
  }

  /** bool.TryParse ignores any number of trailing '\0' after text that neither starts nor ends with a trimmed character. */
  lemma {:induction false} TrailingNullsIgnored(t: string, n: nat)
    requires |t| > 0 && !IsBlankOrNull(t[..1]) && !IsBlankOrNull(t[|t| - 1..])
    ensures TrimWhitespaceAndNull(t + Nulls(n)) == t
    ensures TryParseBool(t + Nulls(n)) == TryParseBool(t)
    decreases n
  {
    var s := t + Nulls(n);
    if n == 0 {
      assert s == t;
    } else {
      assert s[..1] == t[..1];
      assert s[|s| - 1..] == ['\0'];
      assert s[..|s| - 1] == t + Nulls(n - 1);
      TrailingNullsIgnored(t, n - 1);
    }
  }

  /** "true" followed by '\0's reads as true. */
  lemma TrueWithNulls(n: nat)
    ensures TryParseBool("true" + Nulls(n)) == Some(true)
  {
    assert "true"[..1] == ['t'] && "true"[3..] == ['e'];
    assert !IsBlankOrNull(['t']) by { assert ['t'][0] == 't'; }
    assert !IsBlankOrNull(['e']) by { assert ['e'][0] == 'e'; }
    TrailingNullsIgnored("true", 0);
    TrailingNullsIgnored("true", n);
  }

  /** The unchecked (int)long cast: the low 32 bits, read as a signed number. */
  function WrapInt32(n: int): (r: int)
    ensures Int32Min <= r <= Int32Max
    ensures (r - n) % 0x1_0000_0000 == 0
    ensures Int32Min <= n <= Int32Max ==> r == n
  {
    (n - Int32Min) % 0x1_0000_0000 + Int32Min
  }

  /**
   * The (int)double cast: truncation toward zero. C# leaves an out-of-range conversion
   * unspecified; the model saturates at the 32-bit bounds.
   */
  function TruncateToInt32(d: real): (r: int)
    ensures Int32Min <= r <= Int32Max
    ensures Int32Min as real <= d <= Int32Max as real ==> (r as real <= d < r as real + 1.0 || r as real - 1.0 < d <= r as real)
    ensures 0.0 <= d <= Int32Max as real ==> r as real <= d < r as real + 1.0
    ensures Int32Min as real <= d <= 0.0 ==> r as real - 1.0 < d <= r as real
  {
    var t := if d >= 0.0 then d.Floor else -((-d).Floor);
    if t < Int32Min then Int32Min else if t > Int32Max then Int32Max else t
  }

  /** Decimal rendering of an integer, as Go's %d and C#'s ToString() print it. */
  function NatToString(n: nat): (r: string)
    ensures |r| >= 1
    ensures forall i :: 0 <= i < |r| ==> IsAsciiDigit(r[i])
    decreases n
  {
    if n < 10 then [('0' as int + n) as char]
    else NatToString(n / 10) + [('0' as int + n % 10) as char]
  }

  function IntToString(n: int): (r: string)
    ensures |r| >= 1
  {
    if n < 0 then "-" + NatToString(-n) else NatToString(n)
  }

  lemma {:induction false} NatToStringRoundTrip(n: nat)
    ensures AllDigits(NatToString(n)) && DigitsValue(NatToString(n)) == n
    decreases n
  {
    var s := NatToString(n);
    if n >= 10 {
      NatToStringRoundTrip(n / 10);
      assert s[..|s| - 1] == NatToString(n / 10);
    }
  }

  lemma SplitNoSeparator(s: string, sep: char)
    requires sep !in s
    ensures Split(s, sep) == [s]
  {
  }

  lemma SplitFirst(a: string, b: string, sep: char)
    requires sep !in a
    ensures Split(a + [sep] + b, sep) == [a] + Split(b, sep)
  {
    var s := a + [sep] + b;
    assert s[|a|] == sep;
    assert forall k :: 0 <= k < |a| ==> s[k] == a[k];
    assert IndexOf(s, sep) == |a|;
    assert s[..|a|] == a && s[|a| + 1..] == b;
  }

  /** int.TryParse reads back the decimal rendering of any int32-sized natural number. */
  lemma TryParseNatToString(n: nat)
    requires n <= Int32Max
    ensures TryParseInt(NatToString(n)) == Some(n)
  {
    NatToStringRoundTrip(n);
  }
}
