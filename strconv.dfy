/** Go's `strconv.ParseInt(s, 10, 64)` and decimal formatting of naturals,
    which the configuration reader (durations, `keep latest`) and the snapshot
    reader (creation times) use for every integer they read. */
module Strconv {
  import opened Wrappers

  const MaxInt64: int := 0x7fff_ffff_ffff_ffff
  const MinInt64: int := -0x8000_0000_0000_0000
  const MaxUint64: int := 0xffff_ffff_ffff_ffff

  datatype NumErrorKind = InvalidSyntax | OutOfRange

  /** Go's `*strconv.NumError`: the function, the input and the reason. */
  datatype NumError = NumError(func: string, num: string, err: NumErrorKind)

  predicate IsDigit(c: char)
  {
    '0' <= c <= '9'
  }

  predicate AllDigits(s: string)
  {
    forall i :: 0 <= i < |s| ==> IsDigit(s[i])
  }

  /** The length of the longest prefix of `s` made of decimal digits. */
  function DigitPrefix(s: string): (k: nat)
    ensures k <= |s| && AllDigits(s[..k])
    ensures k < |s| ==> !IsDigit(s[k])
    decreases |s|
  {
    if s == [] || !IsDigit(s[0]) then 0 else 1 + DigitPrefix(s[1..])
  }

  /** The value of a string of decimal digits, most significant first. */
  function Value(ds: string): nat
    requires AllDigits(ds)
    decreases |ds|
  {
    if ds == [] then 0
    else Value(ds[..|ds| - 1]) * 10 + (ds[|ds| - 1] as int - '0' as int)
  }

  /** A digit string is worth at least each of its prefixes. */
  lemma {:induction false} ValueMonotone(ds: string, j: nat)
    requires AllDigits(ds) && j <= |ds|
    ensures Value(ds[..j]) <= Value(ds)
    decreases |ds|
  {
    if j < |ds| {
      assert ds[..|ds| - 1][..j] == ds[..j];
      ValueMonotone(ds[..|ds| - 1], j);
    } else {
      assert ds[..j] == ds;
    }
  }

  /** Go's `strconv.ParseUint(s, 10, 64)` reduced to its outcome. Go reads
      the digits left to right and stops at the first character that is not a
      digit (a syntax error) or at the first digit that takes the value past
      2^64-1 (a range error). Because the values of the prefixes only grow,
      a range error happens exactly when the digit prefix before the first
      non-digit is already too large. */
  function ParseUint(s: string): (r: Result<nat, NumErrorKind>)
    ensures r.Success? ==> s != [] && AllDigits(s) && r.value <= MaxUint64
  {
    if s == [] then Failure(InvalidSyntax)
    else
      var k := DigitPrefix(s);
      if Value(s[..k]) > MaxUint64 then Failure(OutOfRange)
      else if k < |s| then Failure(InvalidSyntax)
      else assert s[..k] == s; Success(Value(s))
  }

  /** The digits after an optional leading sign. */
  function Unsigned(s: string): string
  {
    if s != [] && (s[0] == '+' || s[0] == '-') then s[1..] else s
  }

  /** Go's `strconv.ParseInt(s, 10, 64)`: an optional sign followed by decimal
      digits whose value fits in a signed 64-bit integer. */
  function ParseInt(s: string): (r: Result<int, NumError>)
    ensures r.Success? ==> MinInt64 <= r.value <= MaxInt64
    ensures r.Success? ==> Unsigned(s) != [] && AllDigits(Unsigned(s))
    ensures r.Success? && s[0] != '-' ==> r.value >= 0
    ensures r.Failure? ==> r.error.func == "ParseInt" && r.error.num == s
  {
    if s == [] then Failure(NumError("ParseInt", s, InvalidSyntax))
    else
      var neg := s[0] == '-';
      match ParseUint(Unsigned(s))
      case Failure(kind) => Failure(NumError("ParseInt", s, kind))
      case Success(un) =>
        if !neg && un > MaxInt64 then Failure(NumError("ParseInt", s, OutOfRange))
        else if neg && un > -MinInt64 then Failure(NumError("ParseInt", s, OutOfRange))
        else
          var v: int := if neg then -(un as int) else un;
          Success(v)
  }

  function DigitChar(d: nat): char
    requires d < 10
  {
    ('0' as int + d) as char
  }

  /** The decimal representation of `n` (Go's `strconv.FormatInt(n, 10)` for
      a non-negative `n`). */
  function FormatNat(n: nat): (s: string)
    ensures s != [] && AllDigits(s)
    decreases n
  {
    if n < 10 then [DigitChar(n)] else FormatNat(n / 10) + [DigitChar(n % 10)]
  }

  lemma {:induction false} ValueOfFormat(n: nat)
    ensures Value(FormatNat(n)) == n
    decreases n
  {
    var s := FormatNat(n);
    if n < 10 {
      assert s[..|s| - 1] == [];
    } else {
      assert s[..|s| - 1] == FormatNat(n / 10);
      ValueOfFormat(n / 10);
    }
  }

  lemma DigitPrefixAll(s: string)
    requires AllDigits(s)
    ensures DigitPrefix(s) == |s|
  {
  }

  /** Round trip: every value from 0 to 2^63-1 parses back from its decimal
      form. */
  lemma ParseFormat(n: nat)
    requires n <= MaxInt64
    ensures ParseInt(FormatNat(n)) == Success(n)
  {
    var s := FormatNat(n);
    DigitPrefixAll(s);
    ValueOfFormat(n);
    assert s[..|s|] == s;
    assert Unsigned(s) == s;
  }

  lemma ParseUintFormat(n: nat)
    requires n <= MaxUint64
    ensures ParseUint(FormatNat(n)) == Success(n)
  {
    var s := FormatNat(n);
    DigitPrefixAll(s);
    ValueOfFormat(n);
    assert s[..|s|] == s;
  }

  /** A minus sign before the decimal form of `n` reads as -n. */
  lemma ParseNegative(n: nat)
    requires n <= -MinInt64
    ensures ParseInt("-" + FormatNat(n)) == Success(-(n as int))
  {
    var s := "-" + FormatNat(n);
    assert s[0] == '-' && s[1..] == FormatNat(n);
    assert Unsigned(s) == FormatNat(n);
    ParseUintFormat(n);
    assert ParseUint(Unsigned(s)) == Success(n);
  }

  /** Without a sign, a failure to read the digits is the result, reported
      against the whole input. */
  lemma ParseIntUnsignedFailure(s: string)
    requires s != [] && s[0] != '-' && s[0] != '+'
    requires ParseUint(s).Failure?
    ensures ParseInt(s) == Failure(NumError("ParseInt", s, ParseUint(s).error))
  {
  }
}
