/** Duration literals of the configuration language (`conf/duration.go`):
    a base-10 integer followed by one unit letter. Durations are integers
    counting nanoseconds, as Go's `time.Duration` does. */
module Duration {
  import opened Wrappers
  import opened Strconv
  import opened ConfTypes
  import opened Strings

  const Nanosecond: int := 1
  const Second: int := 1_000_000_000 * Nanosecond
  const Minute: int := 60 * Second
  const Hour: int := 60 * Minute
  const Day: int := 24 * Hour
  const Year: int := 365 * Day

  /** The unit table: the size of one unit, for the five unit letters. */
  function UnitSize(unit: char): (size: Option<int>)
    ensures size.Some? ==> size.value >= Second
  {
    match unit
    case 's' => Some(Second)
    case 'm' => Some(Minute)
    case 'h' => Some(Hour)
    case 'd' => Some(Day)
    case 'y' => Some(Year)
    case _ => None
  }

  /** Go's `(time.Duration, error)` pair. */
  datatype Parsed = Parsed(duration: int, err: Option<Error>)

  /** `parseDuration`: the checks run in a fixed order (length in bytes,
      unit, number, sign), and every failing check returns a zero duration. */
  function ParseDuration(input: string): (r: Parsed)
    ensures r.err.Some? ==> r.duration == 0
    ensures r.err.None? ==> r.duration >= 0
    ensures r.err.None? ==>
      |input| >= 2 && UnitSize(input[|input| - 1]).Some?
      && r.duration % UnitSize(input[|input| - 1]).value == 0
    ensures |input| >= 1 && Utf8Length(input) >= 2 && UnitSize(input[|input| - 1]).None? ==>
      r == Parsed(0, Some(UnknownUnit))
  {
    if Utf8Length(input) < 2 then Parsed(0, Some(DurationTooShort))
    else
      match UnitSize(input[|input| - 1])
      case None => Parsed(0, Some(UnknownUnit))
      case Some(unitSize) =>
        match ParseInt(input[..|input| - 1])
        case Failure(e) => Parsed(0, Some(NumberError(e)))
        case Success(value) =>
          if value < 0 then Parsed(0, Some(NegativeDuration))
          else
            Multiple(value, unitSize);
            Parsed(value * unitSize, None)
  }

  /** A whole number of units is a non-negative multiple of the unit. */
  lemma Multiple(k: nat, size: int)
    requires size > 0
    ensures k * size >= 0 && (k * size) % size == 0
  {
    var q := (k * size) / size;
    var r := (k * size) % size;
    assert k * size == size * q + r;
    var d := k - q;
    assert size * d == r by {
      assert size * d == size * k - size * q;
    }
  }

  /** Round trip: the decimal form of any count from 0 to 2^63-1 followed by a
      unit letter reads back as that many units. */
  lemma ParseDurationRoundTrip(n: nat, unit: char)
    requires n <= MaxInt64 && UnitSize(unit).Some?
    ensures ParseDuration(FormatNat(n) + [unit]) == Parsed(n * UnitSize(unit).value, None)
  {
    var s := FormatNat(n) + [unit];
    assert s[..|s| - 1] == FormatNat(n);
    ParseFormat(n);
  }

  lemma {:induction false} DigitPrefixBeforeNonDigit(ds: string, rest: string)
    requires AllDigits(ds) && rest != [] && !IsDigit(rest[0])
    ensures DigitPrefix(ds + rest) == |ds|
    decreases |ds|
  {
    var s := ds + rest;
    if ds != [] {
      assert s[0] == ds[0];
      assert s[1..] == ds[1..] + rest;
      assert AllDigits(ds[1..]) by {
        forall i | 0 <= i < |ds| - 1
          ensures IsDigit(ds[1..][i])
        {
          assert ds[1..][i] == ds[i + 1];
        }
      }
      DigitPrefixBeforeNonDigit(ds[1..], rest);
    } else {
      assert s == rest;
    }
  }

  /** The number check stops at the first non-digit with a syntax error when
      the digits before it fit in 64 bits. */
  lemma ParseUintStopsAtNonDigit(ds: string, rest: string)
    requires ds != [] && AllDigits(ds) && Value(ds) <= MaxUint64
    requires rest != [] && !IsDigit(rest[0])
    ensures ParseUint(ds + rest) == Failure(InvalidSyntax)
  {
    DigitPrefixBeforeNonDigit(ds, rest);
    assert (ds + rest)[..|ds|] == ds;
  }

  /** When the text before the unit letter is not an integer, the number
      check's error is the result. */
  lemma NumberErrorPropagates(prefix: string, unit: char)
    requires prefix != [] && UnitSize(unit).Some? && ParseInt(prefix).Failure?
    ensures ParseDuration(prefix + [unit]) == Parsed(0, Some(NumberError(ParseInt(prefix).error)))
  {
    var input := prefix + [unit];
    assert input[..|input| - 1] == prefix;
  }

  /** Digits that fit in 64 bits followed by a unit letter and more text are
      not an integer: the number check reports a syntax error. */
  lemma DigitsThenUnitNotInteger(ds: string, unit: char, rest: string)
    requires ds != [] && AllDigits(ds) && Value(ds) <= MaxUint64 && UnitSize(unit).Some?
    ensures ParseInt(ds + [unit] + rest) == Failure(NumError("ParseInt", ds + [unit] + rest, InvalidSyntax))
  {
    var tail := [unit] + rest;
    var prefix := ds + [unit] + rest;
    assert prefix == ds + tail;
    assert tail[0] == unit && !IsDigit(unit);
    ParseUintStopsAtNonDigit(ds, tail);
    assert ParseUint(prefix) == Failure(InvalidSyntax);
    assert prefix[0] == ds[0] && IsDigit(prefix[0]);
    ParseIntUnsignedFailure(prefix);
  }

  /** A composite literal such as `1h30m` is not summed: the text before its
      last unit letter is not an integer, so the number check fails with a
      syntax error. */
  lemma CompositeRejected(a: nat, unit1: char, b: nat, unit2: char)
    requires a <= MaxInt64 && UnitSize(unit1).Some? && UnitSize(unit2).Some?
    ensures ParseDuration(FormatNat(a) + [unit1] + FormatNat(b) + [unit2])
      == Parsed(0, Some(NumberError(NumError("ParseInt", FormatNat(a) + [unit1] + FormatNat(b), InvalidSyntax))))
  {
    ValueOfFormat(a);
    DigitsThenUnitNotInteger(FormatNat(a), unit1, FormatNat(b));
    NumberErrorPropagates(FormatNat(a) + [unit1] + FormatNat(b), unit2);
  }

  /** A negative count is refused after the number check passes. */
  lemma NegativeRejected(n: nat, unit: char)
    requires 0 < n <= -MinInt64 && UnitSize(unit).Some?
    ensures ParseDuration("-" + FormatNat(n) + [unit]) == Parsed(0, Some(NegativeDuration))
  {
    var input := "-" + FormatNat(n) + [unit];
    assert input[..|input| - 1] == "-" + FormatNat(n);
    ParseNegative(n);
  }

  /** The length check counts bytes: one character outside ASCII is long
      enough, and then fails the unit check. */
  lemma OneWideCharacter(c: char)
    requires c >= '\U{0080}'
    ensures ParseDuration([c]) == Parsed(0, Some(UnknownUnit))
  {
    assert [c][1..] == [];
  }

  /** Fewer than two characters of ASCII are too short. */
  lemma TooShort(input: string)
    requires |input| < 2 && forall i :: 0 <= i < |input| ==> input[i] < '\U{0080}'
    ensures ParseDuration(input) == Parsed(0, Some(DurationTooShort))
  {
    if input != [] {
      assert input[1..] == [];
      assert Utf8Length(input) == Utf8Width(input[0]) + Utf8Length([]);
    } else {
      assert Utf8Length(input) == 0;
    }
  }
}
