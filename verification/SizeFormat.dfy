/** size_str: a byte count as a whole number of units and one decimal digit. */
module SizeFormat {
  datatype Magnitude = Bytes | Kilo | Mega | Giga

  function Base(m: Magnitude): nat {
    match m case Bytes => 1 case Kilo => 0x400 case Mega => 0x10_0000 case Giga => 0x4000_0000
  }

  /** What is printed: `whole`, then `.fraction` unless it is zero, then the unit letter. */
  datatype SizeText = SizeText(whole: int, fraction: int, magnitude: Magnitude)

  /** C's `/` and `%` on long long: truncation toward zero. */
  function Quot(a: int, b: nat): int requires b > 0 { if a >= 0 then a / b else -(-a / b) }
  function Rem(a: int, b: nat): int requires b > 0 { a - b * Quot(a, b) }

  function SizeStr(size: int): SizeText {
    var m := if size >= Base(Giga) then Giga else if size >= Base(Mega) then Mega
             else if size >= Base(Kilo) then Kilo else Bytes;
    var base := Base(m);
    SizeText(Quot(size, base), if Quot(size, base) < 10 then Quot(Rem(size, base) * 10, base) else 0, m)
  }

  /** Ten times the byte count that the printed text denotes. */
  function Tenths(t: SizeText): int {
    (10 * t.whole + t.fraction) * Base(t.magnitude)
  }

  /** Every size gets a digit for its fraction and the largest unit it reaches; a size below
      1024, negative ones included, is printed exactly. */
  lemma WellFormedText(size: int)
    ensures var t := SizeStr(size);
            && 0 <= t.fraction <= 9
            && (t.magnitude != Bytes ==> 1 <= t.whole)
            && (t.magnitude != Giga ==> t.whole < 1024)
            && (size < 1024 ==> t == SizeText(size, 0, Bytes))
  {
    WholeAndRest(size);
  }

  lemma Division(a: nat, b: nat)
    requires b > 0
    ensures b * Quot(a, b) <= a < b * Quot(a, b) + b
    ensures Quot(a, b) >= 0 && Rem(a, b) == a - b * Quot(a, b)
  {
    assert a == b * (a / b) + a % b;
  }

  /** The quotient and remainder at the unit chosen. */
  lemma WholeAndRest(size: int)
    ensures var t := SizeStr(size); var base := Base(t.magnitude);
            && (size >= 0 ==> base * t.whole <= size < base * t.whole + base)
            && (size < 0 ==> t.whole == size && base == 1)
            && (t.whole < 10 ==> base * t.fraction <= 10 * (size - base * t.whole) < base * t.fraction + base)
            && (t.whole >= 10 ==> t.fraction == 0)
  {
    hide Quot, Rem;
    if size >= 0 {
      var base := Base(SizeStr(size).magnitude);
      Division(size, base);
      Division(Rem(size, base) * 10, base);
    } else {
      Exact(size);
    }
  }

  lemma Exact(size: int)
    requires size < 0
    ensures Quot(size, 1) == size && Rem(size, 1) == 0 && Quot(Rem(size, 1) * 10, 1) == 0
  {
  }

  /** Below ten units the printed tenths are floor(10 * size / base), above that the printed
      whole is floor(size / base): the text never overstates, and is less than its last
      printed place away. */
  lemma SoundApproximation(size: int)
    requires size >= 0
    ensures var t := SizeStr(size); var base := Base(t.magnitude);
            && Tenths(t) <= 10 * size < Tenths(t) + (if t.whole < 10 then base else 10 * base)
            && (t.whole < 10 ==> 10 * t.whole + t.fraction == 10 * size / base)
            && t.whole == size / base
  {
    hide Quot, Rem;
    WholeAndRest(size);
    WellFormedText(size);
    var t := SizeStr(size);
    hide SizeStr, Base;
    PositiveBase(t.magnitude);
    QuotientIs(Base(t.magnitude), size, t.whole);
    if t.whole < 10 { QuotientIs(Base(t.magnitude), 10 * size, 10 * t.whole + t.fraction); }
  }

  lemma QuotientIs(base: nat, x: nat, q: int)
    requires base > 0 && base * q <= x < base * q + base
    ensures q == x / base
  {
    QuotientsOrdered(base, q, x, x, x / base);
    QuotientsOrdered(base, x / base, x, x, q);
  }

  /** The text in numbers: gigabytes from 1073741824 on, megabytes from 1048576, kilobytes from
      1024; the whole is the quotient, and below ten units the fraction is the next decimal digit. */
  lemma PrintedNumbers(size: int)
    ensures var t := SizeStr(size);
            && (size >= 1073741824 ==> Printed(t, size, 1073741824, Giga))
            && (1048576 <= size < 1073741824 ==> Printed(t, size, 1048576, Mega))
            && (1024 <= size < 1048576 ==> Printed(t, size, 1024, Kilo))
            && (size < 1024 ==> t == SizeText(size, 0, Bytes))
  {
    hide Quot, Rem;
    WellFormedText(size);
    if size >= 1024 {
      SoundApproximation(size);
      WholeAndRest(size);
      LastDigit(SizeStr(size).whole, SizeStr(size).fraction);
    }
  }

  predicate Printed(t: SizeText, size: int, base: int, magnitude: Magnitude)
    requires base > 0
  {
    t == SizeText(size / base, if size < 10 * base then 10 * size / base % 10 else 0, magnitude)
  }

  lemma LastDigit(whole: int, fraction: int)
    requires 0 <= fraction <= 9
    ensures (10 * whole + fraction) % 10 == fraction
  {
  }

  /** A larger size never prints a smaller value, across all unit boundaries. */
  lemma Monotone(a: int, b: int)
    requires a <= b
    ensures Tenths(SizeStr(a)) <= Tenths(SizeStr(b))
  {
    hide Quot, Rem;
    WellFormedText(b);
    if a < 0 {
      WellFormedText(a);
      if b >= 0 { SoundApproximation(b); NonNegative(b); }
    } else {
      if SizeStr(a).magnitude == SizeStr(b).magnitude { MonotoneInUnit(a, b); } else { MonotoneAcross(a, b); }
    }
  }

  /** Every text of a smaller unit denotes less than one of the next. */
  lemma MonotoneAcross(a: nat, b: nat)
    requires a <= b && SizeStr(a).magnitude != SizeStr(b).magnitude
    ensures Tenths(SizeStr(a)) <= Tenths(SizeStr(b))
  {
    hide Quot, Rem;
    WellFormedText(b);
    SoundApproximation(a);
    var t := SizeStr(b);
    var base := Base(t.magnitude);
    assert a < base;
    Scaled(base, 10, 10 * t.whole + t.fraction);
  }

  lemma NonNegative(size: nat)
    ensures Tenths(SizeStr(size)) >= 0
  {
    hide Quot, Rem;
    WellFormedText(size);
    WholeAndRest(size);
  }

  lemma QuotientsOrdered(base: nat, q: int, x: int, y: int, r: int)
    requires base > 0 && base * q <= x <= y < base * r + base
    ensures q <= r
  {
    if q > r { Scaled(base, r + 1, q); }
  }

  lemma MonotoneInUnit(a: nat, b: nat)
    requires a <= b && SizeStr(a).magnitude == SizeStr(b).magnitude
    ensures Tenths(SizeStr(a)) <= Tenths(SizeStr(b))
  {
    hide SizeStr, Base;
    var s, t := SizeStr(a), SizeStr(b);
    var base := Base(s.magnitude);
    WholeAndRest(a); WellFormedText(a);
    WholeAndRest(b); WellFormedText(b);
    PositiveBase(s.magnitude);
    QuotientsOrdered(base, s.whole, a, b, t.whole);
    if s.whole == t.whole < 10 {
      QuotientsOrdered(base, s.fraction, 10 * (a - base * s.whole), 10 * (b - base * t.whole), t.fraction);
    }
    assert 10 * s.whole + s.fraction <= 10 * t.whole + t.fraction;
    Scaled(base, 10 * s.whole + s.fraction, 10 * t.whole + t.fraction);
  }

  lemma PositiveBase(m: Magnitude)
    ensures Base(m) > 0
  {
  }

  lemma Scaled(base: nat, x: int, y: int)
    requires x <= y
    ensures x * base <= y * base
  {
  }
}
