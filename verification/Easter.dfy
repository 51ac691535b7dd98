/** Easter Sunday by the Meeus/Jones/Butcher arithmetic, and why it follows the paschal full moon. */
module Easter {
  import opened CivilDates

  /** The intermediate numbers of the algorithm; every operand is non-negative, so Go's operators agree with Dafny's. */
  datatype Steps = Steps(a: int, b: int, c: int, d: int, e: int, f: int, g: int, h: int, i: int, k: int, l: int, m: int)

  function StepsOf(year: nat): Steps {
    var a := year % 19;
    var b := year / 100;
    var c := year % 100;
    var d := b / 4;
    var e := b % 4;
    var f := (b + 8) / 25;
    var g := (b - f + 1) / 3;
    var h := (19 * a + b - d - g + 15) % 30;
    var i := c / 4;
    var k := c % 4;
    var l := (32 + 2 * e + 2 * i - h - k) % 7;
    var m := (a + 11 * h + 22 * l) / 451;
    Steps(a, b, c, d, e, f, g, h, i, k, l, m)
  }

  function EasterMonth(year: nat): int {
    var s := StepsOf(year);
    (s.h + s.l - 7 * s.m + 114) / 31
  }

  function EasterDay(year: nat): int {
    var s := StepsOf(year);
    (s.h + s.l - 7 * s.m + 114) % 31 + 1
  }

  /** No dividend of the algorithm is negative. */
  lemma DividendsNotNegative(year: nat)
    ensures var s := StepsOf(year);
      && s.b - s.f + 1 >= 0
      && 19 * s.a + s.b - s.d - s.g + 15 >= 0
      && 32 + 2 * s.e + 2 * s.i - s.h - s.k >= 0
      && s.h + s.l - 7 * s.m + 114 >= 0
  {
  }

  /** Days from 22 March to Easter Sunday. */
  function EasterOffset(year: nat): int {
    var s := StepsOf(year);
    s.h + s.l - 7 * s.m
  }

  lemma OffsetInRange(year: nat)
    ensures 0 <= EasterOffset(year) <= 34
    ensures 0 <= StepsOf(year).m <= 1
  {
  }

  function EasterSunday(year: nat): int
    requires 1 <= EasterMonth(year) <= 13
  {
    DayNumber(year, EasterMonth(year), EasterDay(year))
  }

  /** The month and day decode to the date offset days after 22 March, from 22 March to 25 April. */
  lemma EasterDecodes(year: nat)
    ensures EasterMonth(year) == 3 || EasterMonth(year) == 4
    ensures EasterMonth(year) == 3 ==> 22 <= EasterDay(year) <= 31
    ensures EasterMonth(year) == 4 ==> 1 <= EasterDay(year) <= 25
    ensures EasterSunday(year) == DayNumber(year, 3, 22) + EasterOffset(year)
  {
  }

  /** The day number of 22 March, in the numbers of the algorithm. */
  lemma TwentySecondOfMarch(year: nat)
    ensures var s := StepsOf(year);
            DayNumber(year, 3, 22) == 146097 * s.d + 36524 * s.e + 1461 * s.i + 365 * s.k + 80
  {
    NextYear(year);
    var s := StepsOf(year);
    assert year == 100 * s.b + s.c && s.b == 4 * s.d + s.e && s.c == 4 * s.i + s.k;
    assert year / 4 == 25 * s.b + s.i;
    assert year / 400 == s.d;
    assert DayNumber(year, 3, 22) == YearStart(year + 1) - 285;
  }

  lemma SumOfWeeks(d: int, e: int, i: int, k: int, h: int, l: int, m: int)
    requires l == (32 + 2 * e + 2 * i - h - k) % 7
    ensures (146097 * d + 36524 * e + 1461 * i + 365 * k + 80 + h + l - 7 * m) % 7 == 0
  {
  }

  /** The weekday of 22 March and the offset add up to a whole number of weeks. */
  lemma EasterIsSunday(year: nat)
    ensures EasterMonth(year) == 3 || EasterMonth(year) == 4
    ensures Weekday(EasterSunday(year)) == SUNDAY
  {
    EasterDecodes(year);
    TwentySecondOfMarch(year);
    hide DayNumber, EasterSunday, EasterMonth;
    var s := StepsOf(year);
    SumOfWeeks(s.d, s.e, s.i, s.k, s.h, s.l, s.m);
  }

  // ---------------------------------------------------------------- the paschal full moon

  /** The moon's age on 1 January, in days: the golden number's with the solar and lunar corrections of the century. */
  function Epact(year: nat): (epact: int)
    ensures 0 <= epact <= 30
  {
    var golden := year % 19 + 1;
    var century := year / 100 + 1;
    var solar := 3 * century / 4 - 12;
    var lunar := (8 * century + 5) / 25 - 5;
    var epact := (11 * golden + 20 + lunar - solar) % 30;
    if epact == 24 || (epact == 25 && golden > 11) then epact + 1 else epact
  }

  /** The day of the paschal full moon, counted from the first of March: the first full moon on or after the 21st. */
  function PaschalMoon(year: nat): (day: int)
    ensures 21 <= day <= 49
  {
    var epact := Epact(year);
    if 44 - epact < 21 then 74 - epact else 44 - epact
  }

  lemma LunarCorrection(century: nat)
    ensures (century - (century + 8) / 25 + 1) / 3 == (8 * (century + 1) + 5) / 25
  {
    var s, r := (century + 8) / 25, (century + 8) % 25;
    assert century == 25 * s + r - 8;
    assert 8 * (century + 1) + 5 == 25 * (8 * s - 3) + 8 * r + 24;
    assert century - s + 1 == 3 * (8 * s - 3) + r + 2;
    LunarStep(r);
  }

  lemma LunarStep(r: int)
    requires 0 <= r < 25
    ensures (r + 2) / 3 == (8 * r + 24) / 25
  {
  }

  lemma SolarCorrection(century: nat)
    ensures 3 * (century + 1) / 4 == century - century / 4
  {
  }

  /** The algorithm's number h and the epact before its late cases add up to 23 in the cycle of 30. */
  lemma EpactOfSteps(year: nat)
    ensures var s := StepsOf(year);
            (11 * (s.a + 1) + 20 + ((8 * (s.b + 1) + 5) / 25 - 5) - (3 * (s.b + 1) / 4 - 12)) % 30 == (23 - s.h) % 30
  {
    var s := StepsOf(year);
    LunarCorrection(s.b);
    SolarCorrection(s.b);
    var dividend := 19 * s.a + s.b - s.d - s.g + 15;
    ComplementOf(dividend, 11 * (s.a + 1) + 20 + (s.g - 5) - (s.b - s.d - 12), s.a);
  }

  lemma ComplementOf(dividend: int, other: int, a: int)
    requires dividend + other == 30 * (a + 1) + 23
    ensures other % 30 == (23 - dividend % 30) % 30
  {
    var q, r := dividend / 30, dividend % 30;
    assert other == 30 * (a + 1 - q) + (23 - r);
  }

  /** In the numbers of the algorithm the moon is h days after 21 March, with the two late cases a day earlier. */
  lemma MoonOfSteps(year: nat)
    ensures var s := StepsOf(year);
            PaschalMoon(year) == 21 + if s.h == 29 || (s.h == 28 && s.a > 10) then s.h - 1 else s.h
  {
    EpactOfSteps(year);
    var s := StepsOf(year);
    Complement(s.h);
    hide StepsOf;
  }

  lemma Complement(h: int)
    requires 0 <= h <= 29
    ensures (23 - h) % 30 == if h <= 23 then 23 - h else 53 - h
  {
  }

  /** Easter is the first Sunday strictly after the paschal full moon of the Gregorian computus. */
  lemma EasterAfterPaschalMoon(year: nat)
    ensures EasterMonth(year) == 3 || EasterMonth(year) == 4
    ensures Weekday(EasterSunday(year)) == SUNDAY
    ensures var moon := DayNumber(year, 3, PaschalMoon(year));
            moon < EasterSunday(year) <= moon + 7
  {
    EasterIsSunday(year);
    EasterDecodes(year);
    MoonOfSteps(year);
    hide EasterSunday, EasterMonth, Weekday, PaschalMoon;
    var s := StepsOf(year);
    assert 0 <= s.a <= 18 && 0 <= s.h <= 29 && 0 <= s.l <= 6;
    SundayAfterMoon(s.a, s.h, s.l, s.m);
  }

  lemma SundayAfterMoon(a: int, h: int, l: int, m: int)
    requires 0 <= a <= 18 && 0 <= h <= 29 && 0 <= l <= 6
    requires m == (a + 11 * h + 22 * l) / 451
    ensures var moon := if h == 29 || (h == 28 && a > 10) then h - 1 else h;
            moon - 1 < h + l - 7 * m <= moon + 6
  {
  }
}
