/** Holiday rules, the date a rule names in a year, and the GB, IE and US tables. */
module HolidayTables {
  import opened CivilDates
  import opened Easter

  datatype RuleKind = Fixed | EasterOffset | NthWeekday | WeekdayOnOrAfter

  datatype Observance = ObserveNone | ObserveUSShift | ObserveUKSubstitute

  type Month = m: int | 1 <= m <= 12 witness 1

  datatype HolidayRule = HolidayRule(
    name: string,
    kind: RuleKind,
    month: Month,
    day: int,
    easterDays: int,
    weekday: int,
    nth: int,
    observance: Observance)

  function FixedRule(name: string, month: Month, day: int, observance: Observance): HolidayRule {
    HolidayRule(name, Fixed, month, day, 0, 0, 0, observance)
  }

  function EasterRule(name: string, offset: int): HolidayRule {
    HolidayRule(name, EasterOffset, 1, 0, offset, 0, 0, ObserveNone)
  }

  function NthRule(name: string, nth: int, weekday: int, month: Month): HolidayRule {
    HolidayRule(name, NthWeekday, month, 0, 0, weekday, nth, ObserveNone)
  }

  // ---------------------------------------------------------------- dates

  function NthWeekdayOf(year: int, month: int, weekday: int, nth: int): int
    requires 1 <= month <= 12
  {
    if nth < 0 then
      // The day before the first of the next month.
      var last := DayNumber(year, month + 1, 0);
      last - (Weekday(last) - weekday + 7) % 7
    else
      var first := DayNumber(year, month, 1);
      first + (weekday - Weekday(first) + 7) % 7 + 7 * (nth - 1)
  }

  function RuleDate(rule: HolidayRule, year: nat): int {
    match rule.kind
    case EasterOffset => EasterDecodes(year); EasterSunday(year) + rule.easterDays
    case NthWeekday => NthWeekdayOf(year, rule.month, rule.weekday, rule.nth)
    case WeekdayOnOrAfter =>
      var anchor := DayNumber(year, rule.month, rule.day);
      anchor + (rule.weekday - Weekday(anchor) + 7) % 7
    case Fixed => DayNumber(year, rule.month, rule.day)
  }

  /** The values the tables may hold: real dates, real weekdays, and Easter offsets within the year. */
  predicate WellFormed(rule: HolidayRule) {
    match rule.kind
    case Fixed => 1 <= rule.day <= DaysIn(1, rule.month)
    case EasterOffset => -80 <= rule.easterDays <= 250
    case NthWeekday => 0 <= rule.weekday <= 6 && (rule.nth == -1 || 1 <= rule.nth <= 5)
    case WeekdayOnOrAfter => 0 <= rule.weekday <= 6 && 1 <= rule.day <= DaysIn(1, rule.month)
  }

  predicate WellFormedTable(rules: seq<HolidayRule>) {
    forall rule | rule in rules :: WellFormed(rule)
  }

  /** A fixed or Easter rule stays in its year; a weekday rule may reach six days into the next. */
  lemma RuleStaysInYear(rule: HolidayRule, year: nat)
    requires WellFormed(rule)
    ensures YearStart(year) <= RuleDate(rule, year) <= YearStart(year + 1) + 6
    ensures rule.kind == Fixed || rule.kind == EasterOffset ==> InYear(RuleDate(rule, year), year)
  {
    NextYear(year);
    if rule.kind == EasterOffset {
      EasterDecodes(year);
      OffsetInRange(year);
    }
  }

  /** The nth weekday of a month is that weekday, in the nth week of the month, and with -1 in its last seven days. */
  lemma NthWeekdayIs(year: int, month: int, weekday: int, nth: int)
    requires 1 <= month <= 12 && 0 <= weekday <= 6
    ensures var date := NthWeekdayOf(year, month, weekday, nth);
      && Weekday(date) == weekday
      && (nth >= 0 ==> DayNumber(year, month, 7 * nth - 6) <= date <= DayNumber(year, month, 7 * nth))
      && (nth < 0 ==> DayNumber(year, month + 1, 0) - 6 <= date <= DayNumber(year, month + 1, 0))
  {
    hide DayNumber;
    if nth < 0 {
      BackTo(DayNumber(year, month + 1, 0), weekday);
    } else {
      ForwardTo(DayNumber(year, month, 1), weekday, nth - 1);
    }
    DaysOfMonth(year, month, 7 * nth - 6);
    DaysOfMonth(year, month, 7 * nth);
  }

  lemma DaysOfMonth(year: int, month: int, day: int)
    requires 1 <= month <= 12
    ensures DayNumber(year, month, day) == DayNumber(year, month, 1) + day - 1
  {
  }

  lemma Wraps(d: int)
    requires -7 < d < 7
    ensures (d + 7) % 7 == if d >= 0 then d else d + 7
  {
  }

  lemma WholeWeeks(weeks: int, weekday: int)
    requires 0 <= weekday <= 6
    ensures Weekday(7 * weeks + weekday) == weekday
  {
  }

  lemma ForwardTo(first: int, weekday: int, weeks: int)
    requires 0 <= weekday <= 6
    ensures 0 <= (weekday - Weekday(first) + 7) % 7 <= 6
    ensures Weekday(first + (weekday - Weekday(first) + 7) % 7 + 7 * weeks) == weekday
  {
    Wraps(weekday - Weekday(first));
    WholeWeeks(first / 7 + weeks + (if weekday >= Weekday(first) then 0 else 1), weekday);
  }

  lemma BackTo(last: int, weekday: int)
    requires 0 <= weekday <= 6
    ensures 0 <= (Weekday(last) - weekday + 7) % 7 <= 6
    ensures Weekday(last - (Weekday(last) - weekday + 7) % 7) == weekday
  {
    Wraps(Weekday(last) - weekday);
    WholeWeeks(last / 7 - (if Weekday(last) >= weekday then 0 else 1), weekday);
  }

  /** A fixed rule names the civil date of its month and day. */
  lemma FixedRuleIs(rule: HolidayRule, year: nat)
    requires rule.kind == Fixed && IsDate(Civil(year, rule.month, rule.day))
    ensures RuleDate(rule, year) == Number(Civil(year, rule.month, rule.day))
  {
  }

  /** An Easter rule names the day that many days after Easter Sunday, before it when negative. */
  lemma EasterRuleIs(rule: HolidayRule, year: nat)
    requires rule.kind == EasterOffset
    ensures EasterMonth(year) == 3 || EasterMonth(year) == 4
    ensures RuleDate(rule, year) - EasterSunday(year) == rule.easterDays
  {
    EasterDecodes(year);
  }

  /** An nth-weekday rule names a day of its weekday, in the nth week of its month or in the month's last seven days. */
  lemma NthRuleIs(rule: HolidayRule, year: nat)
    requires rule.kind == NthWeekday && 0 <= rule.weekday <= 6
    ensures var date := RuleDate(rule, year);
      && Weekday(date) == rule.weekday
      && (rule.nth >= 0 ==>
            DayNumber(year, rule.month, 7 * rule.nth - 6) <= date <= DayNumber(year, rule.month, 7 * rule.nth))
      && (rule.nth < 0 ==>
            DayNumber(year, rule.month, DaysIn(year, rule.month) - 6) <= date
            <= DayNumber(year, rule.month, DaysIn(year, rule.month)))
  {
    NthWeekdayIs(year, rule.month, rule.weekday, rule.nth);
    hide NthWeekdayOf;
    DaysOfMonth(year, rule.month, DaysIn(year, rule.month));
    DaysOfMonth(year, rule.month, DaysIn(year, rule.month) - 6);
  }

  /** An on-or-after rule names the first day of its weekday from its month and day on. */
  lemma OnOrAfterRuleIs(rule: HolidayRule, year: nat)
    requires rule.kind == WeekdayOnOrAfter && 0 <= rule.weekday <= 6
    ensures var date, anchor := RuleDate(rule, year), DayNumber(year, rule.month, rule.day);
            Weekday(date) == rule.weekday && anchor <= date <= anchor + 6
  {
    hide DayNumber;
    ForwardTo(DayNumber(year, rule.month, rule.day), rule.weekday, 0);
  }

  /** No offset used in a holiday table puts a holiday on a weekend, in any year. */
  lemma EasterOffsetsAreWeekdays(year: nat, offset: int)
    requires offset in {-3, -2, 1, 39, 50, 60}
    ensures EasterMonth(year) == 3 || EasterMonth(year) == 4
    ensures !IsWeekend(EasterSunday(year) + offset)
    ensures offset == 1 || offset == 50 ==> Weekday(EasterSunday(year) + offset) == MONDAY
  {
    EasterIsSunday(year);
    hide EasterSunday, EasterMonth;
    var weeks := EasterSunday(year) / 7;
    assert EasterSunday(year) == 7 * weeks;
  }

  // ---------------------------------------------------------------- tables

  const HOLIDAYS_US: seq<HolidayRule> := [
    FixedRule("New Year's Day", 1, 1, ObserveUSShift),
    NthRule("Martin Luther King Jr. Day", 3, MONDAY, 1),
    NthRule("Washington's Birthday", 3, MONDAY, 2),
    NthRule("Memorial Day", -1, MONDAY, 5),
    FixedRule("Juneteenth", 6, 19, ObserveUSShift),
    FixedRule("Independence Day", 7, 4, ObserveUSShift),
    NthRule("Labor Day", 1, MONDAY, 9),
    NthRule("Columbus Day", 2, MONDAY, 10),
    FixedRule("Veterans Day", 11, 11, ObserveUSShift),
    NthRule("Thanksgiving", 4, THURSDAY, 11),
    FixedRule("Christmas Eve", 12, 24, ObserveUSShift),
    FixedRule("Christmas Day", 12, 25, ObserveUSShift),
    FixedRule("New Year's Eve", 12, 31, ObserveUSShift)
  ]

  const HOLIDAYS_GB: seq<HolidayRule> := [
    FixedRule("New Year's Day", 1, 1, ObserveUKSubstitute),
    EasterRule("Good Friday", -2),
    EasterRule("Easter Monday", 1),
    NthRule("Early May bank holiday", 1, MONDAY, 5),
    NthRule("Spring bank holiday", -1, MONDAY, 5),
    NthRule("Summer bank holiday", -1, MONDAY, 8),
    FixedRule("Christmas Eve", 12, 24, ObserveUKSubstitute),
    FixedRule("Christmas Day", 12, 25, ObserveUKSubstitute),
    FixedRule("Boxing Day", 12, 26, ObserveUKSubstitute),
    FixedRule("New Year's Eve", 12, 31, ObserveUKSubstitute)
  ]

  const HOLIDAYS_IE: seq<HolidayRule> := [
    FixedRule("New Year's Day", 1, 1, ObserveUKSubstitute),
    NthRule("St Brigid's Day", 1, MONDAY, 2),
    FixedRule("St Patrick's Day", 3, 17, ObserveUKSubstitute),
    EasterRule("Easter Monday", 1),
    NthRule("May Day", 1, MONDAY, 5),
    NthRule("June holiday", 1, MONDAY, 6),
    NthRule("August holiday", 1, MONDAY, 8),
    NthRule("October holiday", -1, MONDAY, 10),
    FixedRule("Christmas Eve", 12, 24, ObserveUKSubstitute),
    FixedRule("Christmas Day", 12, 25, ObserveUKSubstitute),
    FixedRule("St Stephen's Day", 12, 26, ObserveUKSubstitute),
    FixedRule("New Year's Eve", 12, 31, ObserveUKSubstitute)
  ]

  lemma UnitedStatesRule(i: nat)
    requires i < |HOLIDAYS_US|
    ensures WellFormed(HOLIDAYS_US[i])
  {
  }

  lemma UnitedStatesWellFormed()
    ensures WellFormedTable(HOLIDAYS_US)
  {
    hide WellFormed;
    var rules := HOLIDAYS_US;
    forall rule | rule in rules
      ensures WellFormed(rule)
    {
      var i :| 0 <= i < |rules| && rules[i] == rule;
      UnitedStatesRule(i);
    }
  }
}
