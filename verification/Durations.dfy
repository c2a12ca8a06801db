/** The wire form of a rule duration: parsing, printing, and the bound between them. */
module Durations {
  import opened Bytes

  const SECOND := 1_000_000_000
  const YEAR := 365 * 24 * 3600 * SECOND
  const MAX_INT64 := 0x7FFF_FFFF_FFFF_FFFF

  datatype DurationError = BadPattern | TooLarge | ExceedsYear
  datatype Parsed = Ok(nanos: nat) | Err(error: DurationError)
  datatype Printed = Text(text: Bytes.Text) | NotWholeSeconds

  predicate IsUnit(c: Byte) { c == 's' || c == 'm' || c == 'h' }

  function UnitNanos(c: Byte): nat
  {
    if c == 'm' then 60 * SECOND else if c == 'h' then 3600 * SECOND else SECOND
  }

  // Decimal digits without a leading zero, then a unit.
  predicate MatchesPattern(s: Text)
  {
    && |s| >= 2 && IsUnit(s[|s| - 1])
    && var digits := s[..|s| - 1];
       AllDigits(digits) && (|digits| > 1 ==> digits[0] != '0')
  }

  /** The result never exceeds a year, so the 64-bit product below cannot overflow. */
  function ParseDuration(s: Text): (r: Parsed)
    ensures r.Ok? ==> r.nanos <= YEAR < MAX_INT64 && r.nanos % SECOND == 0
  {
    if !MatchesPattern(s) then Err(BadPattern)
    else
      var n, mult := DecimalValue(s[..|s| - 1]), UnitNanos(s[|s| - 1]);
      if n > MAX_INT64 then Err(TooLarge)
      else if n > YEAR / mult then Err(ExceedsYear)
      else
        ProductBounded(n, s[|s| - 1]);
        Ok(n * mult)
  }

  lemma ProductBounded(n: nat, u: Byte)
    ensures n <= YEAR / UnitNanos(u) <==> n * UnitNanos(u) <= YEAR
    ensures (n * UnitNanos(u)) % SECOND == 0
  {
    if u == 'm' { MinutesBounded(n); } else if u == 'h' { HoursBounded(n); } else { SecondsBounded(n); }
  }

  lemma SecondsBounded(n: nat)
    ensures n <= YEAR / SECOND <==> n * SECOND <= YEAR
    ensures (n * SECOND) % SECOND == 0
  {
  }

  lemma MinutesBounded(n: nat)
    ensures n <= YEAR / (60 * SECOND) <==> n * (60 * SECOND) <= YEAR
    ensures (n * (60 * SECOND)) % SECOND == 0
  {
    assert n * (60 * SECOND) == (60 * n) * SECOND;
  }

  lemma HoursBounded(n: nat)
    ensures n <= YEAR / (3600 * SECOND) <==> n * (3600 * SECOND) <= YEAR
    ensures (n * (3600 * SECOND)) % SECOND == 0
  {
    assert n * (3600 * SECOND) == (3600 * n) * SECOND;
  }

  function CanonicalDurationString(d: int): Printed
  {
    if d < 0 || d > YEAR || d % SECOND != 0 then NotWholeSeconds
    else if d / UnitNanos('h') > 0 && d % UnitNanos('h') == 0 then Text(Decimal(d / UnitNanos('h')) + "h")
    else if d / UnitNanos('m') > 0 && d % UnitNanos('m') == 0 then Text(Decimal(d / UnitNanos('m')) + "m")
    else Text(Decimal(d / SECOND) + "s")
  }

  /** Accepted strings are exactly the rendered counts whose product is at most a year. */
  lemma ParseAccepts(n: nat, u: Byte)
    requires IsUnit(u)
    ensures ParseDuration(Decimal(n) + [u])
         == if n > MAX_INT64 then Err(TooLarge)
            else if n * UnitNanos(u) <= YEAR then Ok(n * UnitNanos(u)) else Err(ExceedsYear)
  {
    var s := Decimal(n) + [u];
    assert s[..|s| - 1] == Decimal(n) && s[|s| - 1] == u;
    DecimalRoundTrip(n);
    ProductBounded(n, u);
  }

  // The count and the unit of an accepted string.
  lemma SpelledAs(s: Text) returns (n: nat, u: Byte)
    requires ParseDuration(s).Ok?
    ensures IsUnit(u) && s == Decimal(n) + [u] && n * UnitNanos(u) == ParseDuration(s).nanos
  {
    var digits := s[..|s| - 1];
    n, u := DecimalValue(digits), s[|s| - 1];
    DecimalCanonical(digits);
    assert s == Decimal(n) + [u];
  }

  lemma AcceptedIsRendered(s: Text)
    requires ParseDuration(s).Ok?
    ensures exists n: nat, u: Byte ::
      IsUnit(u) && s == Decimal(n) + [u] && n * UnitNanos(u) == ParseDuration(s).nanos
  {
    var n, u := SpelledAs(s);
  }

  /** Parsing the canonical string of any whole-second duration up to a year returns it. */
  lemma DurationRoundTrip(d: nat)
    requires d <= YEAR && d % SECOND == 0
    ensures CanonicalDurationString(d).Text? && ParseDuration(CanonicalDurationString(d).text) == Ok(d)
  {
    var u := if d / UnitNanos('h') > 0 && d % UnitNanos('h') == 0 then 'h'
             else if d / UnitNanos('m') > 0 && d % UnitNanos('m') == 0 then 'm' else 's';
    assert d == d / UnitNanos(u) * UnitNanos(u);
    ParseAccepts(d / UnitNanos(u), u);
  }

  /** Printing is defined exactly on the parsable values, and canonicalising twice is once. */
  lemma CanonicalIdempotent(s: Text)
    requires ParseDuration(s).Ok?
    ensures var once := CanonicalDurationString(ParseDuration(s).nanos);
      && once.Text? && ParseDuration(once.text) == ParseDuration(s)
      && CanonicalDurationString(ParseDuration(once.text).nanos) == once
  {
    DurationRoundTrip(ParseDuration(s).nanos);
  }

  lemma UnitMeans(n: nat, u: Byte, size: nat, most: nat)
    requires IsUnit(u) && UnitNanos(u) == size && (n * size <= YEAR <==> n <= most)
    requires most < MAX_INT64
    ensures ParseDuration(Decimal(n) + [u])
         == if n <= most then Ok(n * size) else if n <= MAX_INT64 then Err(ExceedsYear) else Err(TooLarge)
  {
    hide ParseDuration, UnitNanos;
    ParseAccepts(n, u);
  }

  /** What the three units mean, and the largest count each accepts. */
  lemma ParseUnits(n: nat)
    ensures ParseDuration(Decimal(n) + ['s'])
         == if n <= 31_536_000 then Ok(n * 1_000_000_000)
            else if n < 0x8000_0000_0000_0000 then Err(ExceedsYear) else Err(TooLarge)
    ensures ParseDuration(Decimal(n) + ['m'])
         == if n <= 525_600 then Ok(n * 60_000_000_000)
            else if n < 0x8000_0000_0000_0000 then Err(ExceedsYear) else Err(TooLarge)
    ensures ParseDuration(Decimal(n) + ['h'])
         == if n <= 8_760 then Ok(n * 3_600_000_000_000)
            else if n < 0x8000_0000_0000_0000 then Err(ExceedsYear) else Err(TooLarge)
  {
    hide ParseDuration;
    UnitMeans(n, 's', 1_000_000_000, 31_536_000);
    UnitMeans(n, 'm', 60_000_000_000, 525_600);
    UnitMeans(n, 'h', 3_600_000_000_000, 8_760);
  }

  /** The printed form: the coarsest unit that divides the duration, and seconds for zero. */
  lemma PrintedUnit(d: int)
    ensures CanonicalDurationString(d).Text? <==> 0 <= d <= 31_536_000_000_000_000 && d % 1_000_000_000 == 0
    ensures 0 <= d <= 31_536_000_000_000_000 && d % 1_000_000_000 == 0 ==>
        CanonicalDurationString(d).text
        == if d > 0 && d % 3_600_000_000_000 == 0 then Decimal(d / 3_600_000_000_000) + "h"
           else if d > 0 && d % 60_000_000_000 == 0 then Decimal(d / 60_000_000_000) + "m"
           else Decimal(d / 1_000_000_000) + "s"
  {
  }

  // A multiple of a unit prints in that unit or a coarser one.
  lemma CoarserUnit(n: nat, u: Byte, d: nat)
    requires IsUnit(u) && 0 < d == n * UnitNanos(u)
    ensures u == 'h' ==> d % 3_600_000_000_000 == 0
    ensures u == 'm' ==> d % 60_000_000_000 == 0
  {
    if u == 'h' {
      assert d == n * 3_600_000_000_000;
    } else if u == 'm' {
      assert d == n * 60_000_000_000;
    }
  }

  /** The canonical string uses the coarsest unit any accepted spelling of the value uses. */
  lemma CanonicalCoarsest(s: Text)
    requires ParseDuration(s).Ok? && ParseDuration(s).nanos > 0
    ensures var c := CanonicalDurationString(ParseDuration(s).nanos);
      c.Text? && c.text != [] && UnitNanos(s[|s| - 1]) <= UnitNanos(c.text[|c.text| - 1])
  {
    hide ParseDuration, CanonicalDurationString;
    var d := ParseDuration(s).nanos;
    var n, u := SpelledAs(s);
    CoarserUnit(n, u, d);
    PrintedUnit(d);
  }
}
