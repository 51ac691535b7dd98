/** The calendar of a team: whether a day is off, from a memo of expanded years. */
module Calendar {
  import opened Optional
  import opened CivilDates
  import opened HolidayTables
  import opened HolidayExpansion
  import opened UkSubstitutes

  datatype SkipReason = WeekendReason | HolidayReason

  function DatesIn(dates: Dates, year: int): Dates {
    map date | date in dates && InYear(date.number, year) :: dates[date]
  }

  /** The holidays of a year: its own rules name their dates, then the year before's, then the year after's. */
  function Meaning(rules: seq<HolidayRule>, year: nat): Dates
    requires year >= 1
  {
    DatesIn(Expanded(rules, year + 1), year)
    + DatesIn(Expanded(rules, year - 1), year)
    + DatesIn(Expanded(rules, year), year)
  }

  /** A rule of some year puts a holiday on the date. */
  ghost predicate IsHoliday(rules: seq<HolidayRule>, date: int)
  {
    exists source: nat :: Day(date) in Expanded(rules, source)
  }

  /** Fills the days of the year that nothing claims yet, in whatever order the map yields them. */
  method FillYear(byDate: Dates, expanded: Dates, year: int) returns (filled: Dates)
    ensures filled == DatesIn(expanded, year) + byDate
  {
    hide InYear;
    filled := byDate;
    var rest := expanded.Keys;
    while rest != {}
      invariant rest <= expanded.Keys
      invariant forall date :: date in filled <==>
        date in byDate || (date in expanded.Keys && date !in rest && InYear(date.number, year))
      invariant forall date | date in filled :: filled[date] == if date in byDate then byDate[date] else expanded[date]
    {
      var date :| date in rest;
      rest := rest - {date};
      if InYear(date.number, year) && date !in filled {
        filled := filled[date := expanded[date]];
      }
    }
    assert rest == {};
    assert forall date :: date in filled <==> date in DatesIn(expanded, year) + byDate;
  }

  lemma MergesAssociate(after: Dates, before: Dates, own: Dates)
    ensures after + (before + (own + map[])) == after + before + own
  {
  }

  /** A neighbouring year only fills days that the year leaves open. */
  method ExpandWindow(rules: seq<HolidayRule>, year: nat) returns (byDate: Dates)
    requires year >= 1
    ensures byDate == Meaning(rules, year)
  {
    hide Expanded, DatesIn, InYear;
    var own := Expand(rules, year);
    byDate := FillYear(map[], own, year);
    var before := Expand(rules, year - 1);
    byDate := FillYear(byDate, before, year);
    var after := Expand(rules, year + 1);
    byDate := FillYear(byDate, after, year);
    MergesAssociate(DatesIn(after, year), DatesIn(before, year), DatesIn(own, year));
  }

  class TeamCalendar {
    /** None without a supported country. */
    const rules: Option<seq<HolidayRule>>
    var expanded: map<nat, Dates>

    constructor (rules: Option<seq<HolidayRule>>)
      ensures this.rules == rules && Valid()
    {
      this.rules := rules;
      expanded := map[];
    }

    /** Whatever was asked before, the memo holds nothing but the meaning of its years. */
    ghost predicate Valid()
      reads this
    {
      && (rules.None? ==> expanded == map[])
      && forall year | year in expanded :: year >= 1 && rules.Some? && expanded[year] == Meaning(rules.value, year)
    }

    method HolidaysIn(year: nat) returns (byDate: Dates)
      requires Valid() && rules.Some? && year >= 1
      modifies this`expanded
      ensures Valid()
      ensures byDate == Meaning(rules.value, year)
      ensures expanded.Keys == old(expanded).Keys + {year}
    {
      if year in expanded {
        return expanded[year];
      }
      byDate := ExpandWindow(rules.value, year);
      expanded := expanded[year := byDate];
    }

    method HolidayName(now: Civil) returns (name: Option<string>)
      requires Valid() && IsDate(now)
      modifies this`expanded
      ensures Valid()
      ensures name == if rules.Some? && Day(Number(now)) in Meaning(rules.value, now.year)
                      then Some(Meaning(rules.value, now.year)[Day(Number(now))]) else None
    {
      if rules.None? {
        return None;
      }
      var byDate := HolidaysIn(now.year);
      name := if Day(Number(now)) in byDate then Some(byDate[Day(Number(now))]) else None;
    }

    /** A day is skipped exactly when it is a weekend or a holiday, the weekend first. */
    method SkipReason(now: Civil) returns (reason: Option<SkipReason>)
      requires Valid() && IsDate(now)
      modifies this`expanded
      ensures Valid()
      ensures reason == if IsWeekend(Number(now)) then Some(WeekendReason)
                        else if rules.Some? && Day(Number(now)) in Meaning(rules.value, now.year) then Some(HolidayReason)
                        else None
    {
      if IsWeekend(Number(now)) {
        return Some(WeekendReason);
      }
      var name := HolidayName(now);
      reason := if name.Some? then Some(HolidayReason) else None;
    }
  }

  // ---------------------------------------------------------------- the three-year window

  /** A well-formed table puts its dates within a day before its year and two weeks after. */
  lemma ExpandedNearItsYear(rules: seq<HolidayRule>, year: nat, date: int)
    requires WellFormedTable(rules) && Day(date) in Expanded(rules, year)
    ensures YearStart(year) - 1 <= date < YearStart(year + 1) + SEARCH_STEPS
  {
    var items := SortedDeferred(rules, year);
    var naturals := NaturalDates(rules, year, |rules|);
    ObservedNearby(naturals, items, |items|, date);
    if Day(date) in naturals {
      NaturalDateOfRule(rules, year, |rules|, date);
      var i :| 0 <= i < |rules| && date == RuleDate(rules[i], year);
      assert rules[i] in rules;
      RuleStaysInYear(rules[i], year);
    } else {
      var i :| 0 <= i < |items| && items[i].natural - 1 <= date <= items[i].natural + SEARCH_STEPS;
      assert items[i] in items;
      ItemsAreDeferred(rules, year, items[i]);
      var j :| 0 <= j < |rules| && IsDeferred(rules[j], year) && items[i] == Pending(RuleDate(rules[j], year), rules[j]);
      assert rules[j] in rules;
      RuleStaysInYear(rules[j], year);
    }
  }

  /** Only the year before, the year itself and the year after can put a date in a year. */
  lemma SourceWithinWindow(rules: seq<HolidayRule>, source: nat, year: nat, date: int)
    requires WellFormedTable(rules) && InYear(date, year) && Day(date) in Expanded(rules, source)
    ensures year - 1 <= source <= year + 1
  {
    ExpandedNearItsYear(rules, source, date);
    if source + 1 < year {
      YearStartGrows(source + 2, year);
      NextYear(source + 1);
    } else if year + 1 < source {
      YearStartGrows(year + 1, source - 1);
      NextYear(source - 1);
    }
  }

  /** The memoized three years are the whole meaning: a day of the year is a holiday exactly when some year's rules say so. */
  lemma WindowIsComplete(rules: seq<HolidayRule>, year: nat, date: int)
    requires WellFormedTable(rules) && year >= 1 && InYear(date, year)
    ensures Day(date) in Meaning(rules, year) <==> IsHoliday(rules, date)
    ensures Day(date) in Expanded(rules, year) ==> Meaning(rules, year)[Day(date)] == Expanded(rules, year)[Day(date)]
    ensures Day(date) in Meaning(rules, year) ==>
      exists source :: year - 1 <= source <= year + 1
        && Day(date) in Expanded(rules, source) && Meaning(rules, year)[Day(date)] == Expanded(rules, source)[Day(date)]
  {
    hide Expanded, InYear;
    if source: nat :| Day(date) in Expanded(rules, source) {
      SourceWithinWindow(rules, source, year, date);
    }
  }

  /** Holidays of the year found by any date stay within the year. */
  lemma MeaningOfDate(rules: seq<HolidayRule>, now: Civil)
    requires WellFormedTable(rules) && IsDate(now)
    ensures Day(Number(now)) in Meaning(rules, now.year) <==> IsHoliday(rules, Number(now))
  {
    DateInItsYear(now);
    WindowIsComplete(rules, now.year, Number(now));
  }

  /** So for each of these countries the calendar misses no holiday and invents none, in any year. */
  lemma CountryCalendarsAreComplete(now: Civil)
    requires IsDate(now)
    ensures forall rules | rules in {HOLIDAYS_GB, HOLIDAYS_IE, HOLIDAYS_US} ::
              Day(Number(now)) in Meaning(rules, now.year) <==> IsHoliday(rules, Number(now))
  {
    hide Meaning, IsHoliday, RuleDate, WellFormed;
    GreatBritain(now.year);
    Ireland(now.year);
    UnitedStatesWellFormed();
    MeaningOfDate(HOLIDAYS_GB, now);
    MeaningOfDate(HOLIDAYS_IE, now);
    MeaningOfDate(HOLIDAYS_US, now);
  }
}
