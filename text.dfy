/**
  String helpers shared by the server and the client models: PHP's trim() and
  strtolower(), JavaScript's Array.join and String.split on one character,
  decimal digits, and the two numeric text forms the validator accepts
  (integers and plain decimals).
 */
module Text {
  import opened Wrappers

  // ---------------------------------------------------------------------------
  // trim()

  /** The characters PHP's trim() strips: space, tab, LF, CR, NUL and vertical tab. */
  predicate IsTrimSpace(c: char) {
    c == ' ' || c == '\t' || c == '\n' || c == '\r' || c == '\0' || c as int == 11
  }

  /** Index of the first character trim() keeps (|s| when every character is stripped). */
  function TrimStart(s: string): (i: nat)
    ensures i <= |s|
    ensures forall k :: 0 <= k < i ==> IsTrimSpace(s[k])
    ensures i < |s| ==> !IsTrimSpace(s[i])
    decreases |s|
  {
    if |s| > 0 && IsTrimSpace(s[0]) then 1 + TrimStart(s[1..]) else 0
  }

  /** One past the index of the last character trim() keeps (0 when every character is stripped). */
  function TrimEnd(s: string): (j: nat)
    ensures j <= |s|
    ensures forall k :: j <= k < |s| ==> IsTrimSpace(s[k])
    ensures j > 0 ==> !IsTrimSpace(s[j - 1])
    decreases |s|
  {
    if |s| > 0 && IsTrimSpace(s[|s| - 1]) then TrimEnd(s[..|s| - 1]) else |s|
  }

  predicate IsTrimmed(s: string) {
    s == [] || (!IsTrimSpace(s[0]) && !IsTrimSpace(s[|s| - 1]))
  }

  /** PHP trim(): the longest slice of s that neither starts nor ends with a trim space. */
  function Trim(s: string): (r: string)
    ensures IsTrimmed(r) && |r| <= |s|
    ensures r == [] <==> forall k :: 0 <= k < |s| ==> IsTrimSpace(s[k])
    ensures r != [] ==> r == s[TrimStart(s)..TrimEnd(s)]
  {
    var i, j := TrimStart(s), TrimEnd(s);
    if i == |s| then "" else s[i..j]
  }

  /** Trimming twice is trimming once. */
  lemma TrimIdempotent(s: string)
    ensures Trim(Trim(s)) == Trim(s)
  {
    var r := Trim(s);
    if r != [] {
      assert TrimStart(r) == 0;
      assert TrimEnd(r) == |r|;
      assert r[0..|r|] == r;
    }
  }

  // ---------------------------------------------------------------------------
  // strtolower(), ASCII letters only (PHP 8 is locale-insensitive)

  function LowerChar(c: char): (d: char)
    ensures !('A' <= d <= 'Z')
    ensures IsTrimSpace(d) == IsTrimSpace(c)
  {
    if 'A' <= c <= 'Z' then (c as int + 32) as char else c
  }

  function Lower(s: string): (r: string)
    ensures |r| == |s|
    ensures forall k :: 0 <= k < |s| ==> r[k] == LowerChar(s[k])
  {
    seq(|s|, k requires 0 <= k < |s| => LowerChar(s[k]))
  }

  /** strtoupper(), ASCII letters only. */
  function UpperChar(c: char): (d: char)
    ensures !('a' <= d <= 'z')
    ensures 'a' <= c <= 'z' ==> LowerChar(d) == c
    ensures !('a' <= c <= 'z') ==> d == c
  {
    if 'a' <= c <= 'z' then (c as int - 32) as char else c
  }

  function Upper(s: string): (r: string)
    ensures |r| == |s|
    ensures forall k :: 0 <= k < |s| ==> r[k] == UpperChar(s[k])
  {
    seq(|s|, k requires 0 <= k < |s| => UpperChar(s[k]))
  }

  /** Lower-casing keeps every character's trim-space status, so it commutes with trim(). */
  lemma {:induction false} TrimLowerCommute(s: string)
    ensures Trim(Lower(s)) == Lower(Trim(s))
  {
    var l := Lower(s);
    TrimBoundsAgree(s, l);
    var a, b := TrimStart(s), TrimEnd(s);
    if a == |s| {
      assert Trim(s) == [] && Trim(l) == [];
    } else {
      LowerSlice(s, a, b);
    }
  }

  /** Lower-casing a slice is slicing the lower-cased string. */
  lemma LowerSlice(s: string, a: nat, b: nat)
    requires a <= b <= |s|
    ensures Lower(s[a..b]) == Lower(s)[a..b]
  {
    forall k | 0 <= k < b - a ensures Lower(s[a..b])[k] == Lower(s)[a..b][k] {
      assert s[a..b][k] == s[a + k];
    }
  }

  /** Two strings of equal length whose characters are trim spaces at the same places trim at the same indexes. */
  lemma TrimBoundsAgree(s: string, t: string)
    requires |s| == |t|
    requires forall k :: 0 <= k < |s| ==> IsTrimSpace(s[k]) == IsTrimSpace(t[k])
    ensures TrimStart(s) == TrimStart(t) && TrimEnd(s) == TrimEnd(t)
  {
  }

  // ---------------------------------------------------------------------------
  // Array.join(sep) and String.split(sep) for a one-character separator

  /** JavaScript's parts.join(sep): the parts with one separator between neighbours. */
  function Join(parts: seq<string>, sep: char): (r: string)
    ensures |parts| == 1 ==> r == parts[0]
    ensures |parts| > 1 ==> r == parts[0] + [sep] + Join(parts[1..], sep)
    decreases |parts|
  {
    if |parts| == 0 then ""
    else if |parts| == 1 then parts[0]
    else parts[0] + [sep] + Join(parts[1..], sep)
  }

  /** Index of the first occurrence of c in s. */
  function IndexOf(s: string, c: char): (r: Option<nat>)
    ensures r.Some? ==> r.value < |s| && s[r.value] == c && c !in s[..r.value]
    ensures r.None? ==> c !in s
    decreases |s|
  {
    if |s| == 0 then None
    else if s[0] == c then Some(0)
    else match IndexOf(s[1..], c)
      case None => None
      case Some(k) => assert s[1..][..k] == s[1..k + 1]; Some(k + 1)
  }

  /** JavaScript's s.split(sep): the maximal separator-free pieces, at least one. */
  function Split(s: string, sep: char): (r: seq<string>)
    ensures |r| >= 1
    ensures forall k :: 0 <= k < |r| ==> sep !in r[k]
    decreases |s|
  {
    match IndexOf(s, sep)
    case None => [s]
    case Some(i) => [s[..i]] + Split(s[i + 1..], sep)
  }

  /** Splitting a join on its separator recovers the parts when no part contains the separator. */
  lemma {:induction false} SplitJoin(parts: seq<string>, sep: char)
    requires |parts| >= 1
    requires forall k :: 0 <= k < |parts| ==> sep !in parts[k]
    ensures Split(Join(parts, sep), sep) == parts
    decreases |parts|
  {
    if |parts| > 1 {
      var p, rest := parts[0], Join(parts[1..], sep);
      var s := p + [sep] + rest;
      assert s[..|p|] == p;
      assert s[|p|] == sep;
      assert IndexOf(s, sep) == Some(|p|);
      assert s[|p| + 1..] == rest;
      SplitJoin(parts[1..], sep);
      assert parts == [parts[0]] + parts[1..];
    }
  }

  // ---------------------------------------------------------------------------
  // Decimal digits

  predicate IsDigit(c: char) { '0' <= c <= '9' }

  predicate AllDigits(s: string) { forall k :: 0 <= k < |s| ==> IsDigit(s[k]) }

  function DigitValue(c: char): nat
    requires IsDigit(c)
  {
    c as int - '0' as int
  }

  function DigitChar(d: nat): (c: char)
    requires d < 10
    ensures IsDigit(c) && DigitValue(c) == d
  {
    ('0' as int + d) as char
  }

  /** The number a non-empty or empty digit string denotes (the empty string denotes 0). */
  function DigitsValue(s: string): nat
    requires AllDigits(s)
    decreases |s|
  {
    if |s| == 0 then 0 else DigitsValue(s[..|s| - 1]) * 10 + DigitValue(s[|s| - 1])
  }

  /** Decimal notation of n, without leading zeros. */
  function NatToString(n: nat): (r: string)
    ensures |r| >= 1 && AllDigits(r)
    ensures r[0] == '0' ==> n == 0 && |r| == 1
    decreases n
  {
    if n < 10 then [DigitChar(n)] else NatToString(n / 10) + [DigitChar(n % 10)]
  }

  /** Reading back the decimal notation of n gives n. */
  lemma {:induction false} NatToStringRoundTrip(n: nat)
    ensures DigitsValue(NatToString(n)) == n
    decreases n
  {
    if n >= 10 {
      var s := NatToString(n / 10);
      NatToStringRoundTrip(n / 10);
      assert (s + [DigitChar(n % 10)])[..|s|] == s;
    }
  }

  function IntToString(i: int): string {
    if i < 0 then "-" + NatToString(-i) else NatToString(i)
  }

  // ---------------------------------------------------------------------------
  // Integer text, as PHP's filter_var(FILTER_VALIDATE_INT) accepts it:
  // an optional sign, then "0" or digits without a leading zero.

  /** The largest integer filter_var(FILTER_VALIDATE_INT) accepts on a 64-bit build. */
  const PhpIntMax: int := 0x7FFF_FFFF_FFFF_FFFF

  function UnsignedPart(s: string): string {
    if |s| > 0 && (s[0] == '-' || s[0] == '+') then s[1..] else s
  }

  predicate IsIntegerText(s: string) {
    var body := UnsignedPart(s);
    |body| >= 1 && AllDigits(body) && (body[0] != '0' || |body| == 1)
  }

  function IntegerValue(s: string): int
    requires IsIntegerText(s)
  {
    var v: int := DigitsValue(UnsignedPart(s));
    if s[0] == '-' then -v else v
  }

  /** Every integer's decimal notation is integer text that reads back as that integer. */
  lemma IntToStringRoundTrip(i: int)
    ensures IsIntegerText(IntToString(i)) && IntegerValue(IntToString(i)) == i
  {
    if i < 0 {
      NatToStringRoundTrip(-i);
      assert UnsignedPart("-" + NatToString(-i)) == NatToString(-i);
    } else {
      NatToStringRoundTrip(i);
    }
  }

  // ---------------------------------------------------------------------------
  // Plain decimal text, the part of PHP's is_numeric() the model keeps:
  // an optional sign, then digits with at most one '.', and at least one digit.

  datatype Decimal = Decimal(negative: bool, whole: string, fraction: string)

  function ParseDecimal(s: string): (r: Option<Decimal>)
    ensures r.Some? ==> AllDigits(r.value.whole) && AllDigits(r.value.fraction)
    ensures r.Some? ==> |r.value.whole| + |r.value.fraction| >= 1
  {
    var negative := |s| > 0 && s[0] == '-';
    var body := UnsignedPart(s);
    var (whole, fraction) := match IndexOf(body, '.')
      case None => (body, "")
      case Some(i) => (body[..i], body[i + 1..]);
    if AllDigits(whole) && AllDigits(fraction) && |whole| + |fraction| >= 1
    then Some(Decimal(negative, whole, fraction))
    else None
  }

  predicate IsDecimalText(s: string) { ParseDecimal(s).Some? }

  /** The decimal is at least 0 (a negative zero such as "-0.00" is 0). */
  predicate DecimalAtLeastZero(d: Decimal)
    requires AllDigits(d.whole) && AllDigits(d.fraction)
  {
    !d.negative || (DigitsValue(d.whole) == 0 && DigitsValue(d.fraction) == 0)
  }

  /** The first two fraction digits as cents, rounded half up on the third digit. */
  function FractionCents(f: string): (c: nat)
    requires AllDigits(f)
    ensures c <= 100
  {
    var tenths := if |f| >= 1 then DigitValue(f[0]) else 0;
    var hundredths := if |f| >= 2 then DigitValue(f[1]) else 0;
    var up := if |f| >= 3 && DigitValue(f[2]) >= 5 then 1 else 0;
    tenths * 10 + hundredths + up
  }

  /** The decimal stored in a DECIMAL(_, 2) column, in cents, rounded half away from zero. */
  function DecimalCents(d: Decimal): int
    requires AllDigits(d.whole) && AllDigits(d.fraction)
  {
    var magnitude := DigitsValue(d.whole) * 100 + FractionCents(d.fraction);
    if d.negative then -magnitude else magnitude
  }

  /** A decimal that is at least zero is stored as a non-negative number of cents. */
  lemma DecimalCentsNonNegative(d: Decimal)
    requires AllDigits(d.whole) && AllDigits(d.fraction)
    requires DecimalAtLeastZero(d)
    ensures DecimalCents(d) >= 0
  {
    if d.negative {
      DigitsValueZero(d.fraction);
    }
  }

  /** A digit string denoting 0 is all zeros. */
  lemma {:induction false} DigitsValueZero(s: string)
    requires AllDigits(s) && DigitsValue(s) == 0
    ensures forall k :: 0 <= k < |s| ==> s[k] == '0'
    decreases |s|
  {
    if |s| > 0 {
      DigitsValueZero(s[..|s| - 1]);
      forall k | 0 <= k < |s| ensures s[k] == '0' {
        if k < |s| - 1 { assert s[k] == s[..|s| - 1][k]; }
      }
    }
  }

  // ---------------------------------------------------------------------------
  // Substring search

  /** p occurs in s at some position. */
  predicate OccursAt(s: string, p: string, i: nat) {
    i + |p| <= |s| && s[i..i + |p|] == p
  }

  /** Whether p occurs as a substring of s, searching from the left. */
  function Contains(s: string, p: string): (r: bool)
    decreases |s|
  {
    if |p| > |s| then false
    else if s[..|p|] == p then true
    else Contains(s[1..], p)
  }

  /** Contains finds p exactly when p occurs at some position of s. */
  lemma {:induction false} ContainsIff(s: string, p: string)
    ensures Contains(s, p) <==> exists i: nat :: OccursAt(s, p, i)
    decreases |s|
  {
    if |p| > |s| {
    } else if s[..|p|] == p {
      assert OccursAt(s, p, 0);
    } else {
      ContainsIff(s[1..], p);
      if Contains(s[1..], p) {
        var i: nat :| OccursAt(s[1..], p, i);
        assert s[i + 1..i + 1 + |p|] == s[1..][i..i + |p|];
        assert OccursAt(s, p, i + 1);
      } else {
        forall i: nat | OccursAt(s, p, i) ensures false {
          if i > 0 {
            assert s[1..][i - 1..i - 1 + |p|] == s[i..i + |p|];
            assert OccursAt(s[1..], p, i - 1);
          }
        }
      }
    }
  }
}
