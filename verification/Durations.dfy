/**
 `time.Duration.String` and `time.ParseDuration`, on any number of nanoseconds. Below a second the
 unit is ns, µs or ms; a fraction is printed without trailing zeros.
 */
module Durations {
  import opened Wrappers
  import opened Text

  // ---- Printing ----

  /** v * 10^k */
  function Shift(v: nat, k: nat): nat { if k == 0 then v else 10 * Shift(v, k - 1) }

  /** v / 10^k */
  function Cut(v: nat, k: nat): nat { if k == 0 then v else Cut(v / 10, k - 1) }

  /** v % 10^k */
  function Low(v: nat, k: nat): nat { if k == 0 then 0 else 10 * Low(v / 10, k - 1) + v % 10 }

  /** The last `n` decimal digits, with leading zeros. */
  function Padded(v: nat, n: nat): (s: string)
    ensures |s| == n && forall c :: c in s ==> IsDigit(c)
  {
    if n == 0 then "" else Padded(v / 10, n - 1) + [DigitChar(v % 10)]
  }

  /** The same without trailing zeros: the digits of v / 10^n after the point. */
  function Fraction(v: nat, n: nat): (s: string)
    ensures |s| <= n && forall c :: c in s ==> IsDigit(c)
  {
    if n == 0 then ""
    else if v % 10 == 0 then Fraction(v / 10, n - 1)
    else Padded(v / 10, n - 1) + [DigitChar(v % 10)]
  }

  /** v / 10^n with a decimal point, if it needs one. */
  function PointText(v: nat, n: nat): string {
    Decimal(Cut(v, n)) + if Fraction(v, n) == "" then "" else "." + Fraction(v, n)
  }

  // In nanoseconds.

  function FromSeconds(v: nat): nat { 1_000_000_000 * v }
  function FromMinutes(v: nat): nat { 60_000_000_000 * v }
  function FromHours(v: nat): nat { 3_600_000_000_000 * v }

  /** Less than a second. */
  function SmallText(n: nat): string {
    if n == 0 then "0s"
    else if n < 1_000 then Decimal(n) + "ns"
    else if n < 1_000_000 then PointText(n, 3) + "\U{B5}s"
    else PointText(n, 6) + "ms"
  }

  /** What is left of the last minute. */
  function LastMinute(n: nat): nat { n % 60_000_000_000 }

  /** Whole hours, and the minutes beyond. */
  datatype Clock = Clock(hours: nat, minutes: nat)

  function ClockOf(n: nat): Clock { Clock(n / 3_600_000_000_000, n / 60_000_000_000 % 60) }

  /** Hours and minutes, without leading zeros, in front of the last minute. */
  function ClockText(c: Clock, last: string): string {
    if c.hours > 0 then Decimal(c.hours) + ("h" + (Decimal(c.minutes) + ("m" + last)))
    else if c.minutes > 0 then Decimal(c.minutes) + ("m" + last)
    else last
  }

  /** "1h2m3.5s" */
  function LargeText(n: nat): string { ClockText(ClockOf(n), PointText(LastMinute(n), 9) + "s") }

  function PositiveText(n: nat): string {
    if n < 1_000_000_000 then SmallText(n) else LargeText(n)
  }

  function DurationText(n: int): string {
    if n < 0 then "-" + PositiveText(-n) else PositiveText(n)
  }

  // ---- Parsing ----

  function DigitsEnd(s: string): (i: nat)
    ensures i <= |s|
  {
    if s == "" || !IsDigit(s[0]) then 0 else 1 + DigitsEnd(s[1..])
  }

  /** A unit goes on up to the next number. */
  function UnitEnd(s: string): (i: nat)
    ensures i <= |s|
  {
    if s == "" || IsDigit(s[0]) || s[0] == '.' then 0 else 1 + UnitEnd(s[1..])
  }

  /** A power of ten of nanoseconds, or a multiple of a second. */
  datatype Unit = Sub(zeros: nat) | Minute | Hour

  /** h, m, s, ms, ns, us; both Greek letters that look like a micro sign are accepted for the last. */
  function UnitOf(u: string): Option<Unit> {
    if |u| == 1 then UnitNamed(u[0])
    else if |u| == 2 && u[1] == 's' then PartNamed(u[0])
    else None
  }

  function UnitNamed(c: char): Option<Unit> {
    match c
    case 'h' => Some(Hour)
    case 'm' => Some(Minute)
    case 's' => Some(Sub(9))
    case _ => None
  }

  function PartNamed(c: char): Option<Unit> {
    match c
    case 'm' => Some(Sub(6))
    case 'u' => Some(Sub(3))
    case '\U{B5}' => Some(Sub(3))
    case '\U{3BC}' => Some(Sub(3))
    case 'n' => Some(Sub(0))
    case _ => None
  }

  function Zeros(u: Unit): nat { if u.Sub? then u.zeros else 9 }

  function Times(v: nat, u: Unit): nat {
    match u
    case Sub(_) => v
    case Minute => 60 * v
    case Hour => 3600 * v
  }

  /** Nanoseconds in so many units, a fraction of a nanosecond being cut off. */
  function Nanoseconds(whole: nat, fraction: nat, places: nat, u: Unit): nat {
    Times(Shift(whole, Zeros(u)), u)
    + if places <= Zeros(u) then Times(Shift(fraction, Zeros(u) - places), u)
      else Cut(Times(fraction, u), places - Zeros(u))
  }

  /** The number that a text of digits stands for. */
  function Value(s: string): nat {
    if s == "" then 0
    else 10 * Value(s[..|s| - 1]) + if IsDigit(s[|s| - 1]) then DigitValue(s[|s| - 1]) else 0
  }

  /** A number, perhaps with a fraction, and what follows it. */
  datatype Numeral = Numeral(whole: string, fraction: string, rest: string)

  function NumeralOf(s: string): (n: Numeral)
    ensures |n.rest| <= |s|
  {
    var i := DigitsEnd(s);
    var rest := s[i..];
    if rest == "" || rest[0] != '.' then Numeral(s[..i], "", rest)
    else
      var j := DigitsEnd(rest[1..]);
      Numeral(s[..i], rest[1..][..j], rest[1..][j..])
  }

  /** A sum of numbers with units; a fraction of a unit is rounded down. */
  function ParseSum(s: string): Option<nat>
    decreases |s|
  {
    var n := NumeralOf(s);
    var j := UnitEnd(n.rest);
    var unit := UnitOf(n.rest[..j]);
    if (n.whole == "" && n.fraction == "") || unit.None? then None
    else
      var term := Nanoseconds(Value(n.whole), Value(n.fraction), |n.fraction|, unit.value);
      if j == |n.rest| then Some(term) else if j == 0 then None else Plus(term, ParseSum(n.rest[j..]))
  }

  function Plus(term: nat, rest: Option<nat>): Option<nat> {
    match rest
    case Some(n) => Some(term + n)
    case None => None
  }

  function Negated(n: Option<nat>): Option<int> {
    match n
    case Some(m) => Some(0 - m)
    case None => None
  }

  function ParseDuration(s: string): Option<int> {
    if |s| > 0 && s[0] == '-' then Negated(ParseSum(s[1..]))
    else if |s| > 0 && s[0] == '+' then ParseSum(s[1..])
    else ParseSum(s)
  }

  // ---- Numbers ----

  lemma {:induction false} ValueOfDecimal(n: nat)
    ensures Value(Decimal(n)) == n
  {
    if n >= 10 {
      ValueOfDecimal(n / 10);
      var s := Decimal(n);
      assert s[..|s| - 1] == Decimal(n / 10);
    }
  }

  lemma {:induction false} ValueOfPadded(v: nat, n: nat)
    ensures Value(Padded(v, n)) == Low(v, n)
  {
    if n > 0 {
      ValueOfPadded(v / 10, n - 1);
      var s := Padded(v, n);
      assert s[..n - 1] == Padded(v / 10, n - 1);
    }
  }

  /** The fraction stands for what is cut off. */
  lemma {:induction false} ValueOfFraction(v: nat, n: nat)
    ensures Shift(Value(Fraction(v, n)), n - |Fraction(v, n)|) == Low(v, n)
  {
    if n > 0 {
      if v % 10 == 0 {
        ValueOfFraction(v / 10, n - 1);
      } else {
        ValueOfPadded(v / 10, n - 1);
        var s := Fraction(v, n);
        assert s[..n - 1] == Padded(v / 10, n - 1);
      }
    }
  }

  lemma {:induction false} CutAndLow(v: nat, k: nat)
    ensures Shift(Cut(v, k), k) + Low(v, k) == v
  {
    if k > 0 {
      CutAndLow(v / 10, k - 1);
    }
  }

  lemma ThreeZeros(v: nat, k: nat)
    requires k >= 3
    ensures Shift(v, k) == 1000 * Shift(v, k - 3)
  {
    assert Shift(v, k) == 10 * Shift(v, k - 1);
    assert Shift(v, k - 1) == 10 * Shift(v, k - 2);
    assert Shift(v, k - 2) == 10 * Shift(v, k - 3);
  }

  lemma NineZeros(v: nat)
    ensures Shift(v, 9) == FromSeconds(v)
  {
    ThreeZeros(v, 9);
    ThreeZeros(v, 6);
    ThreeZeros(v, 3);
  }

  // ---- Terms ----

  lemma {:induction false} DigitsEndAt(d: string, r: string)
    requires forall c :: c in d ==> IsDigit(c)
    requires r == "" || !IsDigit(r[0])
    ensures DigitsEnd(d + r) == |d|
  {
    if d == "" {
      assert d + r == r;
    } else {
      assert d[0] in d;
      assert (d + r)[1..] == d[1..] + r;
      DigitsEndAt(d[1..], r);
    }
  }

  lemma {:induction false} UnitEndAt(u: string, r: string)
    requires forall c :: c in u ==> !IsDigit(c) && c != '.'
    requires r == "" || IsDigit(r[0])
    ensures UnitEnd(u + r) == |u|
  {
    if u == "" {
      assert u + r == r;
    } else {
      assert u[0] in u;
      assert (u + r)[1..] == u[1..] + r;
      UnitEndAt(u[1..], r);
    }
  }

  /** Text that starts like a unit. */
  predicate NoNumber(s: string) { s != "" && !IsDigit(s[0]) && s[0] != '.' }

  lemma WholeReads(d: string, r: string)
    requires (forall c :: c in d ==> IsDigit(c)) && NoNumber(r)
    ensures NumeralOf(d + r) == Numeral(d, "", r)
  {
    DigitsEndAt(d, r);
    assert (d + r)[..|d|] == d && (d + r)[|d|..] == r;
  }

  lemma PointReads(d: string, f: string, r: string)
    requires (forall c :: c in d ==> IsDigit(c)) && (forall c :: c in f ==> IsDigit(c)) && NoNumber(r)
    ensures NumeralOf(d + "." + f + r) == Numeral(d, f, r)
  {
    var t := "." + f + r;
    assert d + "." + f + r == d + t;
    DigitsEndAt(d, t);
    assert (d + t)[..|d|] == d && (d + t)[|d|..] == t && t[1..] == f + r;
    DigitsEndAt(f, r);
    assert (f + r)[..|f|] == f && (f + r)[|f|..] == r;
  }

  lemma PointTextReads(v: nat, n: nat, r: string)
    requires NoNumber(r)
    ensures NumeralOf(PointText(v, n) + r) == Numeral(Decimal(Cut(v, n)), Fraction(v, n), r)
  {
    var whole, fraction := Decimal(Cut(v, n)), Fraction(v, n);
    if fraction == "" {
      assert PointText(v, n) == whole + "" == whole;
      WholeReads(whole, r);
    } else {
      Assoc(whole, ".", fraction);
      PointReads(whole, fraction, r);
    }
  }

  /** A name that a unit can have. */
  predicate IsUnit(u: string, unit: Unit) {
    u != "" && UnitOf(u) == Some(unit) && forall c :: c in u ==> !IsDigit(c) && c != '.'
  }

  /** What a sum starts with: a number in a known unit. */
  lemma SumStarts(s: string, n: Numeral, u: string, r: string, unit: Unit)
    requires NumeralOf(s) == n && n.whole != "" && n.rest == u + r && IsUnit(u, unit) && (r == "" || IsDigit(r[0]))
    ensures var term := Nanoseconds(Value(n.whole), Value(n.fraction), |n.fraction|, unit);
            ParseSum(s) == if r == "" then Some(term) else Plus(term, ParseSum(r))
  {
    UnitEndAt(u, r);
    assert (u + r)[..|u|] == u && (u + r)[|u|..] == r;
  }

  lemma UnitsAre()
    ensures IsUnit("ns", Sub(0)) && IsUnit("\U{B5}s", Sub(3)) && IsUnit("ms", Sub(6)) && IsUnit("s", Sub(9))
    ensures IsUnit("m", Minute) && IsUnit("h", Hour)
  {
  }

  lemma {:induction false} NothingShifts(k: nat)
    ensures Shift(0, k) == 0
  {
    if k > 0 {
      NothingShifts(k - 1);
    }
  }

  lemma WholeAmount(n: nat, unit: Unit)
    ensures Nanoseconds(Value(Decimal(n)), Value(""), 0, unit) == Times(Shift(n, Zeros(unit)), unit)
  {
    ValueOfDecimal(n);
    NothingShifts(Zeros(unit));
  }

  /** A number with a point, in the unit that it was divided by, is exact. */
  lemma PointAmount(v: nat, k: nat)
    ensures Nanoseconds(Value(Decimal(Cut(v, k))), Value(Fraction(v, k)), |Fraction(v, k)|, Sub(k)) == v
  {
    ValueOfDecimal(Cut(v, k));
    ValueOfFraction(v, k);
    CutAndLow(v, k);
  }

  lemma UnitIsNoNumber(u: string, r: string, unit: Unit)
    requires IsUnit(u, unit)
    ensures NoNumber(u + r)
  {
    assert u[0] in u;
  }

  lemma NumberParses(n: nat, u: string, r: string, unit: Unit)
    requires IsUnit(u, unit) && (r == "" || IsDigit(r[0]))
    ensures var term := Times(Shift(n, Zeros(unit)), unit);
            ParseSum(Decimal(n) + (u + r)) == if r == "" then Some(term) else Plus(term, ParseSum(r))
  {
    UnitIsNoNumber(u, r, unit);
    WholeReads(Decimal(n), u + r);
    SumStarts(Decimal(n) + (u + r), Numeral(Decimal(n), "", u + r), u, r, unit);
    WholeAmount(n, unit);
  }

  lemma PointParses(v: nat, k: nat, u: string)
    requires IsUnit(u, Sub(k))
    ensures ParseSum(PointText(v, k) + u) == Some(v)
  {
    assert u + "" == u;
    UnitIsNoNumber(u, "", Sub(k));
    PointTextReads(v, k, u);
    SumStarts(PointText(v, k) + u, Numeral(Decimal(Cut(v, k)), Fraction(v, k), u), u, "", Sub(k));
    PointAmount(v, k);
  }

  // ---- Round trip ----

  lemma SmallParses(n: nat)
    requires n < 1_000_000_000
    ensures ParseSum(SmallText(n)) == Some(n)
  {
    UnitsAre();
    if n == 0 {
      NumberParses(0, "s", "", Sub(9));
      NothingShifts(9);
      assert Decimal(0) + ("s" + "") == "0s";
    } else if n < 1_000 {
      NumberParses(n, "ns", "", Sub(0));
      assert "ns" + "" == "ns";
    } else if n < 1_000_000 {
      PointParses(n, 3, "\U{B5}s");
    } else {
      PointParses(n, 6, "ms");
    }
  }

  lemma FirstDigit(n: nat, r: string)
    ensures Decimal(n) + r != "" && IsDigit((Decimal(n) + r)[0])
  {
    assert Decimal(n)[0] in Decimal(n);
  }

  lemma SixtySeconds(m: nat)
    ensures Times(Shift(m, Zeros(Minute)), Minute) == FromMinutes(m)
    ensures Times(Shift(m, Zeros(Hour)), Hour) == FromHours(m)
  {
    NineZeros(m);
  }

  lemma LastParses(x: nat)
    ensures var last := PointText(x, 9) + "s"; last != "" && IsDigit(last[0]) && ParseSum(last) == Some(x)
  {
    UnitsAre();
    PointParses(x, 9, "s");
    FirstDigit(Cut(x, 9), "");
  }

  lemma PartsParse(n: nat, last: string)
    requires last != "" && IsDigit(last[0])
    ensures ParseSum(Decimal(n) + ("m" + last)) == Plus(FromMinutes(n), ParseSum(last))
    ensures ParseSum(Decimal(n) + ("h" + last)) == Plus(FromHours(n), ParseSum(last))
  {
    UnitsAre();
    NumberParses(n, "m", last, Minute);
    NumberParses(n, "h", last, Hour);
    SixtySeconds(n);
  }

  /** Given what the parser makes of the parts, this is what it makes of the whole. */
  lemma ClockParses(parse: string -> Option<nat>, c: Clock, rest: string, last: string, x: nat)
    requires rest == Decimal(c.minutes) + ("m" + last) && parse(last) == Some(x)
    requires parse(rest) == Plus(FromMinutes(c.minutes), parse(last))
    requires parse(Decimal(c.hours) + ("h" + rest)) == Plus(FromHours(c.hours), parse(rest))
    ensures parse(ClockText(c, last)) == Some(ClockAmount(c) + x)
  {
  }

  function ClockAmount(c: Clock): nat { FromHours(c.hours) + FromMinutes(c.minutes) }

  lemma ClockAddsUp(n: nat)
    ensures ClockAmount(ClockOf(n)) + LastMinute(n) == n
  {
    assert n / 60_000_000_000 / 60 == n / 3_600_000_000_000;
  }

  lemma LongParses(c: Clock, last: string, x: nat)
    requires last != "" && IsDigit(last[0]) && ParseSum(last) == Some(x)
    ensures ParseSum(ClockText(c, last)) == Some(ClockAmount(c) + x)
  {
    var rest := Decimal(c.minutes) + ("m" + last);
    PartsParse(c.minutes, last);
    FirstDigit(c.minutes, "m" + last);
    PartsParse(c.hours, rest);
    ClockParses(ParseSum, c, rest, last, x);
  }

  lemma LargeParses(n: nat, c: Clock, x: nat, last: string)
    requires ClockAmount(c) + x == n && ParseSum(last) == Some(x) && last != "" && IsDigit(last[0])
    ensures ParseSum(ClockText(c, last)).Some? && ParseSum(ClockText(c, last)).value == n
  {
    LongParses(c, last, x);
  }

  /** A digit, the point, or a character of a unit. */
  predicate TimeChar(c: char) { IsDigit(c) || c == '.' || 'a' <= c <= 'z' || c == '\U{B5}' }

  /** Text of digits, points and units that starts with a digit. */
  predicate Clean(s: string) {
    s != "" && IsDigit(s[0]) && forall c :: c in s ==> TimeChar(c)
  }

  lemma PointClean(v: nat, n: nat)
    ensures Clean(PointText(v, n))
  {
    FirstDigit(Cut(v, n), "");
  }

  lemma DecimalClean(n: nat)
    ensures Clean(Decimal(n))
  {
    FirstDigit(n, "");
  }

  lemma JoinClean(a: string, b: string)
    requires Clean(a) && forall c :: c in b ==> TimeChar(c)
    ensures Clean(a + b)
  {
  }

  lemma ClockClean(c: Clock, last: string)
    requires Clean(last)
    ensures Clean(ClockText(c, last))
  {
    DecimalClean(c.hours);
    DecimalClean(c.minutes);
    JoinClean(Decimal(c.minutes), "m" + last);
    JoinClean(Decimal(c.hours), "h" + (Decimal(c.minutes) + ("m" + last)));
  }

  lemma LargeClean(n: nat)
    ensures Clean(LargeText(n))
  {
    PointClean(LastMinute(n), 9);
    JoinClean(PointText(LastMinute(n), 9), "s");
    ClockClean(ClockOf(n), PointText(LastMinute(n), 9) + "s");
  }

  lemma PositiveClean(n: nat)
    ensures Clean(PositiveText(n))
  {
    if n >= 1_000_000_000 {
      LargeClean(n);
    } else if n >= 1_000_000 {
      PointClean(n, 6);
      JoinClean(PointText(n, 6), "ms");
    } else if n >= 1_000 {
      PointClean(n, 3);
      JoinClean(PointText(n, 3), "\U{B5}s");
    } else {
      DecimalClean(n);
    }
  }

  lemma PositiveParses(n: nat)
    ensures ParseSum(PositiveText(n)).Some? && ParseSum(PositiveText(n)).value == n
  {
    if n < 1_000_000_000 {
      SmallParses(n);
    } else {
      LastParses(LastMinute(n));
      ClockAddsUp(n);
      LargeParses(n, ClockOf(n), LastMinute(n), PointText(LastMinute(n), 9) + "s");
    }
  }

  lemma SignParses(t: string)
    requires t != "" && IsDigit(t[0])
    ensures ParseDuration(t) == ParseSum(t) && ParseDuration("-" + t) == Negated(ParseSum(t))
  {
    assert ("-" + t)[1..] == t;
  }

  /** Parsing undoes printing, for every number of nanoseconds. */
  lemma DurationRoundTrip(n: int)
    ensures ParseDuration(DurationText(n)) == Some(n)
  {
    var m: nat := if n < 0 then -n else n;
    PositiveParses(m);
    PositiveClean(m);
    SignParses(PositiveText(m));
  }

  lemma DurationOnOneLine(n: int)
    ensures DurationText(n) != "" && forall c :: c in DurationText(n) ==> TimeChar(c) || c == '-'
  {
    PositiveClean(if n < 0 then -n else n);
  }

  lemma UnitMeans(n: nat, u: string, unit: Unit, amount: nat)
    requires IsUnit(u, unit) && Times(Shift(n, Zeros(unit)), unit) == amount
    ensures ParseDuration(Decimal(n) + u) == Some(amount)
  {
    NumberParses(n, u, "", unit);
    assert u + "" == u;
    FirstDigit(n, u);
    SignParses(Decimal(n) + u);
  }

  lemma PartsAmount(n: nat)
    ensures Times(Shift(n, Zeros(Sub(0))), Sub(0)) == n && Times(Shift(n, Zeros(Sub(3))), Sub(3)) == 1_000 * n
    ensures Times(Shift(n, Zeros(Sub(6))), Sub(6)) == 1_000_000 * n
  {
    ThreeZeros(n, 3);
    ThreeZeros(n, 6);
  }

  lemma WholesAmount(n: nat)
    ensures Times(Shift(n, Zeros(Sub(9))), Sub(9)) == 1_000_000_000 * n
    ensures Times(Shift(n, Zeros(Minute)), Minute) == 60_000_000_000 * n
    ensures Times(Shift(n, Zeros(Hour)), Hour) == 3_600_000_000_000 * n
  {
    NineZeros(n);
    SixtySeconds(n);
  }

  /** What a whole number of each unit is in nanoseconds. */
  lemma UnitsMean(n: nat)
    ensures ParseDuration(Decimal(n) + "ns") == Some(n)
    ensures ParseDuration(Decimal(n) + "\U{B5}s") == Some(1_000 * n)
    ensures ParseDuration(Decimal(n) + "ms") == Some(1_000_000 * n)
    ensures ParseDuration(Decimal(n) + "s") == Some(1_000_000_000 * n)
    ensures ParseDuration(Decimal(n) + "m") == Some(60_000_000_000 * n)
    ensures ParseDuration(Decimal(n) + "h") == Some(3_600_000_000_000 * n)
  {
    UnitsAre();
    PartsAmount(n);
    WholesAmount(n);
    UnitMeans(n, "ns", Sub(0), n);
    UnitMeans(n, "\U{B5}s", Sub(3), 1_000 * n);
    UnitMeans(n, "ms", Sub(6), 1_000_000 * n);
    UnitMeans(n, "s", Sub(9), 1_000_000_000 * n);
    UnitMeans(n, "m", Minute, 60_000_000_000 * n);
    UnitMeans(n, "h", Hour, 3_600_000_000_000 * n);
  }

  lemma WholeMinutesParse(n: nat)
    ensures ParseDuration(Decimal(n) + "m") == Some(FromMinutes(n))
  {
    UnitsMean(n);
  }

  /** A number without a unit is no duration. */
  lemma NumberIsNoDuration(n: nat)
    ensures ParseDuration(Decimal(n)) == None
  {
    DigitsEndAt(Decimal(n), "");
    assert Decimal(n) + "" == Decimal(n);
    FirstDigit(n, "");
    SignParses(Decimal(n));
  }
}
