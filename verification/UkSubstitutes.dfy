/**
 The substitute rule of the GB and IE tables: every weekend holiday gets a
 weekday of its own after its date, in date order, in every year.
 */
module UkSubstitutes {
  import opened Optional
  import opened CivilDates
  import opened Easter
  import opened HolidayTables
  import opened HolidayExpansion

  /** The rule names a Monday. */
  predicate IsMondayRule(rule: HolidayRule) {
    || (rule.kind == NthWeekday && rule.weekday == MONDAY)
    || (rule.kind == EasterOffset && rule.easterDays == 1)
  }

  function OtherRules(rules: seq<HolidayRule>, n: nat): nat
    requires n <= |rules|
  {
    if n == 0 then 0 else OtherRules(rules, n - 1) + (if IsMondayRule(rules[n - 1]) then 0 else 1)
  }

  /** What the search relies on: distinct dates, weekend holidays that substitute, and few dates besides the Mondays. */
  ghost predicate SubstitutesIn(rules: seq<HolidayRule>, year: nat) {
    && WellFormedTable(rules)
    && (forall i, j | 0 <= i < j < |rules| :: RuleDate(rules[i], year) != RuleDate(rules[j], year))
    && (forall rule | rule in rules && IsWeekend(RuleDate(rule, year)) ::
          rule.kind == Fixed && rule.observance == ObserveUKSubstitute)
    && OtherRules(rules, |rules|) <= 8
  }

  function NotMondays(dates: Dates): set<Date> {
    set date | date in dates && Weekday(date.number) != MONDAY
  }

  lemma MondayRulesAreMondays(rule: HolidayRule, year: nat)
    requires WellFormed(rule) && IsMondayRule(rule)
    ensures Weekday(RuleDate(rule, year)) == MONDAY
  {
    if rule.kind == NthWeekday {
      NthWeekdayIs(year, rule.month, rule.weekday, rule.nth);
    } else {
      EasterOffsetsAreWeekdays(year, 1);
    }
  }

  // ---------------------------------------------------------------- first pass

  lemma OneMoreDate(dates: Dates, date: int, name: string)
    requires Day(date) !in dates
    ensures |dates[Day(date) := name]| == |dates| + 1
    ensures |NotMondays(dates[Day(date) := name])| == |NotMondays(dates)| + if Weekday(date) == MONDAY then 0 else 1
  {
    assert NotMondays(dates[Day(date) := name])
        == NotMondays(dates) + if Weekday(date) == MONDAY then {} else {Day(date)};
  }

  lemma NoDates()
    ensures NotMondays(map[]) == {}
  {
  }

  /** Every rule either owns its natural date or waits; few dates fall outside Mondays. */
  lemma {:induction false} NaturalPass(rules: seq<HolidayRule>, year: nat, n: nat)
    requires SubstitutesIn(rules, year) && n <= |rules|
    ensures |NaturalDates(rules, year, n)| + |DeferredRules(rules, year, n)| == n
    ensures |NotMondays(NaturalDates(rules, year, n))| + |DeferredRules(rules, year, n)| <= OtherRules(rules, n)
  {
    hide RuleDate, IsMondayRule, WellFormed, Weekday, NotMondays;
    if n == 0 {
      NoDates();
    } else {
      NaturalPass(rules, year, n - 1);
      var rule, before := rules[n - 1], NaturalDates(rules, year, n - 1);
      assert rule in rules;
      var date := RuleDate(rule, year);
      if !IsDeferred(rule, year) {
        NotYetClaimed(rules, year, n - 1);
        OneMoreDate(before, date, rule.name);
      }
      if IsMondayRule(rule) {
        MondayRulesAreMondays(rule, year);
      }
    }
  }

  lemma NotYetClaimed(rules: seq<HolidayRule>, year: nat, n: nat)
    requires SubstitutesIn(rules, year) && n < |rules|
    ensures Day(RuleDate(rules[n], year)) !in NaturalDates(rules, year, n)
  {
    if Day(RuleDate(rules[n], year)) in NaturalDates(rules, year, n) {
      NaturalDateOfRule(rules, year, n, RuleDate(rules[n], year));
    }
  }

  // ---------------------------------------------------------------- the search

  function NextWeekday(date: int, weekday: int): int {
    date + 1 + (weekday - Weekday(date + 1) + 7) % 7
  }

  lemma NextTwo(date: int, weekday: int)
    requires 0 <= weekday <= 6
    ensures var x := NextWeekday(date, weekday);
            date < x <= date + 7 && Weekday(x) == weekday && Weekday(x + 7) == weekday
  {
  }

  /** Two weeks hold eight weekdays that are no Monday; if all are claimed, eight such dates are claimed. */
  lemma EightClaimed(date: int, taken: Dates)
    requires forall x | date < x <= date + SEARCH_STEPS :: IsWeekend(x) || Day(x) in taken
    ensures |NotMondays(taken)| >= 8
  {
    hide Weekday, NextWeekday;
    var claimed: set<Date> := {};
    var weekday := 2;
    while weekday < 6
      invariant 2 <= weekday <= 6
      invariant |claimed| == 2 * (weekday - 2)
      invariant claimed <= NotMondays(taken)
      invariant forall day | day in claimed :: Weekday(day.number) < weekday
    {
      var x := NextWeekday(date, weekday);
      NextTwo(date, weekday);
      claimed := claimed + {Day(x)} + {Day(x + 7)};
      weekday := weekday + 1;
    }
    assert NotMondays(taken) == claimed + (NotMondays(taken) - claimed);
  }

  lemma SearchSucceeds(date: int, taken: Dates)
    requires |NotMondays(taken)| <= 7
    ensures FirstFree(date, taken, SEARCH_STEPS).Some?
  {
    FirstFreeIs(date, taken, SEARCH_STEPS);
    if FirstFree(date, taken, SEARCH_STEPS).None? {
      EightClaimed(date, taken);
    }
  }

  // ---------------------------------------------------------------- second pass

  function After(rules: seq<HolidayRule>, year: nat, n: nat): Dates
    requires n <= |SortedDeferred(rules, year)|
  {
    ObserveAll(NaturalDates(rules, year, |rules|), SortedDeferred(rules, year), n)
  }

  /** The date the search finds for the n-th weekend holiday. */
  function Substitute(rules: seq<HolidayRule>, year: nat, n: nat): Option<int>
    requires n < |SortedDeferred(rules, year)|
  {
    FirstFree(SortedDeferred(rules, year)[n].natural, After(rules, year, n), SEARCH_STEPS)
  }

  lemma ItemSubstitutes(rules: seq<HolidayRule>, year: nat, n: nat)
    requires SubstitutesIn(rules, year) && n < |SortedDeferred(rules, year)|
    ensures SortedDeferred(rules, year)[n].rule.observance == ObserveUKSubstitute
    ensures |SortedDeferred(rules, year)| == |DeferredRules(rules, year, |rules|)|
  {
    hide ExchangeSorted;
    var item := SortedDeferred(rules, year)[n];
    assert item in SortedDeferred(rules, year);
    ItemsAreDeferred(rules, year, item);
    var i :| 0 <= i < |rules| && IsDeferred(rules[i], year) && item == Pending(RuleDate(rules[i], year), rules[i]);
    assert rules[i] in rules;
  }

  /** The first n weekend holidays each claimed one new date. */
  lemma {:induction false} SubstitutePass(rules: seq<HolidayRule>, year: nat, n: nat)
    requires SubstitutesIn(rules, year) && n <= |SortedDeferred(rules, year)|
    ensures |After(rules, year, n)| == |NaturalDates(rules, year, |rules|)| + n
    ensures |NotMondays(After(rules, year, n))| <= |NotMondays(NaturalDates(rules, year, |rules|))| + n
    ensures n < |SortedDeferred(rules, year)| ==> Substitute(rules, year, n).Some?
  {
    hide SortedDeferred, NaturalDates, SubstitutesIn, DeferredRules;
    if n > 0 {
      SubstitutePass(rules, year, n - 1);
      SubstituteClaims(rules, year, n - 1);
      var before, date := After(rules, year, n - 1), Day(Substitute(rules, year, n - 1).value);
      NotMondaysGrow(before, date, SortedDeferred(rules, year)[n - 1].rule.name);
    }
    if n < |SortedDeferred(rules, year)| {
      FewClaimed(rules, year, n);
      SearchSucceeds(SortedDeferred(rules, year)[n].natural, After(rules, year, n));
    }
  }

  lemma NotMondaysGrow(dates: Dates, date: Date, name: string)
    ensures |NotMondays(dates[date := name])| <= |NotMondays(dates)| + 1
  {
    var more := NotMondays(dates[date := name]);
    assert more == NotMondays(dates) || more == NotMondays(dates) + {date};
  }

  lemma FewClaimed(rules: seq<HolidayRule>, year: nat, n: nat)
    requires SubstitutesIn(rules, year) && n < |SortedDeferred(rules, year)|
    ensures |NotMondays(NaturalDates(rules, year, |rules|))| + n <= 7
  {
    hide SortedDeferred, NaturalDates, DeferredRules;
    NaturalPass(rules, year, |rules|);
    ItemSubstitutes(rules, year, n);
  }

  /** The n-th weekend holiday claims the date its search finds: a free weekday after its natural date. */
  lemma SubstituteClaims(rules: seq<HolidayRule>, year: nat, n: nat)
    requires SubstitutesIn(rules, year) && n < |SortedDeferred(rules, year)|
    requires Substitute(rules, year, n).Some?
    ensures var item, date := SortedDeferred(rules, year)[n], Substitute(rules, year, n).value;
      && item.natural < date <= item.natural + SEARCH_STEPS && !IsWeekend(date)
      && Day(date) !in After(rules, year, n)
      && After(rules, year, n + 1) == After(rules, year, n)[Day(date) := item.rule.name]
      && forall x | item.natural < x < date :: IsWeekend(x) || Day(x) in After(rules, year, n)
  {
    ItemSubstitutes(rules, year, n);
    hide SortedDeferred, NaturalDates, SubstitutesIn, DeferredRules;
    FirstFreeIs(SortedDeferred(rules, year)[n].natural, After(rules, year, n), SEARCH_STEPS);
  }

  // ---------------------------------------------------------------- what the table gets

  /** The expansion has exactly one date per rule. */
  lemma OneDatePerRule(rules: seq<HolidayRule>, year: nat)
    requires SubstitutesIn(rules, year)
    ensures |Expanded(rules, year)| == |rules|
  {
    hide NaturalDates;
    var n := |SortedDeferred(rules, year)|;
    NaturalPass(rules, year, |rules|);
    SubstitutePass(rules, year, n);
  }

  /** A weekday holiday keeps its date and its name. */
  lemma WeekdayHolidayKept(rules: seq<HolidayRule>, year: nat, i: nat)
    requires SubstitutesIn(rules, year) && i < |rules| && !IsWeekend(RuleDate(rules[i], year))
    ensures var date := Day(RuleDate(rules[i], year));
            date in Expanded(rules, year) && Expanded(rules, year)[date] == rules[i].name
  {
    NotYetClaimed(rules, year, i);
    hide SortedDeferred;
    NaturalDatesStay(rules, year, i + 1, |rules|, RuleDate(rules[i], year));
    var items := SortedDeferred(rules, year);
    DatesStay(NaturalDates(rules, year, |rules|), items, 0, |items|, RuleDate(rules[i], year));
  }

  /**
   The n-th weekend holiday gets a weekday of its own, within two weeks after its natural date,
   the first that no other holiday owns; the expansion names it there.
   */
  lemma WeekendHolidaySubstituted(rules: seq<HolidayRule>, year: nat, n: nat)
    requires SubstitutesIn(rules, year) && n < |SortedDeferred(rules, year)|
    ensures Substitute(rules, year, n).Some?
    ensures var item, date := SortedDeferred(rules, year)[n], Substitute(rules, year, n).value;
      && item.natural < date <= item.natural + SEARCH_STEPS && !IsWeekend(date)
      && Day(date) !in After(rules, year, n)
      && (forall x | item.natural < x < date :: IsWeekend(x) || Day(x) in After(rules, year, n))
      && Day(date) in Expanded(rules, year) && Expanded(rules, year)[Day(date)] == item.rule.name
  {
    SubstitutePass(rules, year, n);
    SubstituteClaims(rules, year, n);
    hide SortedDeferred, NaturalDates, SubstitutesIn;
    var items, date := SortedDeferred(rules, year), Substitute(rules, year, n).value;
    assert Day(date) in After(rules, year, n + 1);
    DatesStay(NaturalDates(rules, year, |rules|), items, n + 1, |items|, date);
  }

  /** Substitutes keep the order of the natural dates. */
  lemma SubstitutesInOrder(rules: seq<HolidayRule>, year: nat, n: nat, m: nat)
    requires SubstitutesIn(rules, year) && n < m < |SortedDeferred(rules, year)|
    ensures SortedDeferred(rules, year)[n].natural <= SortedDeferred(rules, year)[m].natural
    ensures Substitute(rules, year, n).Some? && Substitute(rules, year, m).Some?
    ensures Substitute(rules, year, n).value < Substitute(rules, year, m).value
  {
    hide *;
    InOrder(rules, year, n, m);
    WeekendHolidaySubstituted(rules, year, n);
    WeekendHolidaySubstituted(rules, year, m);
    SubstituteClaims(rules, year, n);
    var first, second := Substitute(rules, year, n).value, Substitute(rules, year, m).value;
    ClaimedStays(rules, year, n + 1, m, first);
    if second < first {
      assert IsWeekend(second) || Day(second) in After(rules, year, n);
      ClaimedStays(rules, year, n, m, second);
    }
  }

  lemma InOrder(rules: seq<HolidayRule>, year: nat, n: nat, m: nat)
    requires n < m < |SortedDeferred(rules, year)|
    ensures SortedDeferred(rules, year)[n].natural <= SortedDeferred(rules, year)[m].natural
  {
    hide ExchangeSorted;
    ExchangeSortSorts(DeferredRules(rules, year, |rules|));
  }

  lemma ClaimedStays(rules: seq<HolidayRule>, year: nat, n: nat, m: nat, date: int)
    requires n <= m <= |SortedDeferred(rules, year)|
    ensures Day(date) in After(rules, year, n) ==> Day(date) in After(rules, year, m)
  {
    if Day(date) in After(rules, year, n) {
      DatesStay(NaturalDates(rules, year, |rules|), SortedDeferred(rules, year), n, m, date);
    }
  }

  // ---------------------------------------------------------------- the GB and IE tables

  /** The table lists its rules in the order of their dates. */
  ghost predicate Chronological(rules: seq<HolidayRule>, year: nat) {
    forall i | 0 <= i < |rules| - 1 :: RuleDate(rules[i], year) < RuleDate(rules[i + 1], year)
  }

  lemma {:induction false} ChronologicalDates(rules: seq<HolidayRule>, year: nat, i: nat, j: nat)
    requires Chronological(rules, year) && i < j < |rules|
    ensures RuleDate(rules[i], year) < RuleDate(rules[j], year)
    decreases j - i
  {
    hide RuleDate;
    if i + 1 < j {
      ChronologicalDates(rules, year, i, j - 1);
      assert RuleDate(rules[j - 1], year) < RuleDate(rules[j - 1 + 1], year);
    }
  }

  /** In date order and with weekdays where nothing substitutes, a table meets what the search relies on. */
  lemma ChronologicalTable(rules: seq<HolidayRule>, year: nat)
    requires WellFormedTable(rules) && Chronological(rules, year) && OtherRules(rules, |rules|) <= 8
    requires forall rule | rule in rules && !(rule.kind == Fixed && rule.observance == ObserveUKSubstitute) ::
      !IsWeekend(RuleDate(rule, year))
    ensures SubstitutesIn(rules, year)
  {
    hide RuleDate;
    forall i, j | 0 <= i < j < |rules| ensures RuleDate(rules[i], year) != RuleDate(rules[j], year) {
      ChronologicalDates(rules, year, i, j);
    }
  }

  lemma EasterWindow(year: nat, rule: HolidayRule)
    requires rule.kind == EasterOffset
    ensures DayNumber(year, 3, 22) + rule.easterDays <= RuleDate(rule, year) <= DayNumber(year, 4, 25) + rule.easterDays
  {
  }

  lemma NthWindow(year: nat, rule: HolidayRule)
    requires rule.kind == NthWeekday && WellFormed(rule)
    ensures rule.nth == 1 ==> DayNumber(year, rule.month, 1) <= RuleDate(rule, year) <= DayNumber(year, rule.month, 7)
    ensures rule.nth == -1 ==>
      DayNumber(year, rule.month + 1, 0) - 6 <= RuleDate(rule, year) <= DayNumber(year, rule.month + 1, 0)
    ensures rule.weekday == MONDAY ==> !IsWeekend(RuleDate(rule, year))
  {
    NthWeekdayIs(year, rule.month, rule.weekday, rule.nth);
  }

  lemma GreatBritainChronological(year: nat)
    ensures Chronological(HOLIDAYS_GB, year)
  {
    var rules := HOLIDAYS_GB;
    EasterWindow(year, rules[1]);
    EasterWindow(year, rules[2]);
    assert RuleDate(rules[1], year) + 3 == RuleDate(rules[2], year);
    NthWindow(year, rules[3]);
    NthWindow(year, rules[4]);
    NthWindow(year, rules[5]);
    hide EasterSunday, NthWeekdayOf;
  }

  /** No more than six rules of a table name no Monday. */
  lemma GreatBritainOtherRules()
    ensures OtherRules(HOLIDAYS_GB, |HOLIDAYS_GB|) == 6
  {
    var rules := HOLIDAYS_GB;
    assert OtherRules(rules, 1) == 1;
    assert OtherRules(rules, 2) == 2;
    assert OtherRules(rules, 4) == 2;
    assert OtherRules(rules, 6) == 2;
    assert OtherRules(rules, 8) == 4;
  }

  lemma IrelandOtherRules()
    ensures OtherRules(HOLIDAYS_IE, |HOLIDAYS_IE|) == 6
  {
    var rules := HOLIDAYS_IE;
    assert OtherRules(rules, 1) == 1;
    assert OtherRules(rules, 2) == 1;
    assert OtherRules(rules, 4) == 2;
    assert OtherRules(rules, 6) == 2;
    assert OtherRules(rules, 8) == 2;
    assert OtherRules(rules, 10) == 4;
  }

  lemma GreatBritainWeekdays(year: nat, i: nat)
    requires i < |HOLIDAYS_GB|
    ensures WellFormed(HOLIDAYS_GB[i])
    ensures HOLIDAYS_GB[i].kind != Fixed ==> !IsWeekend(RuleDate(HOLIDAYS_GB[i], year))
    ensures HOLIDAYS_GB[i].kind == Fixed ==> HOLIDAYS_GB[i].observance == ObserveUKSubstitute
  {
    if HOLIDAYS_GB[i].kind == EasterOffset {
      EasterOffsetsAreWeekdays(year, HOLIDAYS_GB[i].easterDays);
    } else if HOLIDAYS_GB[i].kind == NthWeekday {
      NthWindow(year, HOLIDAYS_GB[i]);
    }
  }

  /** In every year the GB table meets what the search relies on. */
  lemma GreatBritain(year: nat)
    ensures SubstitutesIn(HOLIDAYS_GB, year)
  {
    hide Chronological, RuleDate, OtherRules, IsWeekend, WellFormed;
    GreatBritainChronological(year);
    GreatBritainOtherRules();
    var rules := HOLIDAYS_GB;
    forall rule | rule in rules
      ensures WellFormed(rule)
      ensures !(rule.kind == Fixed && rule.observance == ObserveUKSubstitute) ==> !IsWeekend(RuleDate(rule, year))
    {
      var i :| 0 <= i < |rules| && rules[i] == rule;
      GreatBritainWeekdays(year, i);
    }
    ChronologicalTable(rules, year);
  }

  lemma IrelandChronological(year: nat)
    ensures Chronological(HOLIDAYS_IE, year)
  {
    var rules := HOLIDAYS_IE;
    NthWindow(year, rules[1]);
    EasterWindow(year, rules[3]);
    NthWindow(year, rules[4]);
    NthWindow(year, rules[5]);
    NthWindow(year, rules[6]);
    NthWindow(year, rules[7]);
    hide EasterSunday, NthWeekdayOf;
  }

  lemma IrelandWeekdays(year: nat, i: nat)
    requires i < |HOLIDAYS_IE|
    ensures WellFormed(HOLIDAYS_IE[i])
    ensures HOLIDAYS_IE[i].kind != Fixed ==> !IsWeekend(RuleDate(HOLIDAYS_IE[i], year))
    ensures HOLIDAYS_IE[i].kind == Fixed ==> HOLIDAYS_IE[i].observance == ObserveUKSubstitute
  {
    if HOLIDAYS_IE[i].kind == EasterOffset {
      EasterOffsetsAreWeekdays(year, HOLIDAYS_IE[i].easterDays);
    } else if HOLIDAYS_IE[i].kind == NthWeekday {
      NthWindow(year, HOLIDAYS_IE[i]);
    }
  }

  /** In every year the IE table meets what the search relies on. */
  lemma Ireland(year: nat)
    ensures SubstitutesIn(HOLIDAYS_IE, year)
  {
    hide Chronological, RuleDate, OtherRules, IsWeekend, WellFormed;
    IrelandChronological(year);
    IrelandOtherRules();
    var rules := HOLIDAYS_IE;
    forall rule | rule in rules
      ensures WellFormed(rule)
      ensures !(rule.kind == Fixed && rule.observance == ObserveUKSubstitute) ==> !IsWeekend(RuleDate(rule, year))
    {
      var i :| 0 <= i < |rules| && rules[i] == rule;
      IrelandWeekdays(year, i);
    }
    ChronologicalTable(rules, year);
  }

  /** Ten dates a year for Great Britain and twelve for Ireland, whatever falls on weekends. */
  lemma EveryHolidayHasItsDate(year: nat)
    ensures |Expanded(HOLIDAYS_GB, year)| == 10
    ensures |Expanded(HOLIDAYS_IE, year)| == 12
  {
    hide Expanded, SubstitutesIn;
    GreatBritain(year);
    OneDatePerRule(HOLIDAYS_GB, year);
    Ireland(year);
    OneDatePerRule(HOLIDAYS_IE, year);
  }

  // ---------------------------------------------------------------- rule by rule

  /** Every rule falling on a weekend gives its name to a weekday of its own within the two weeks after. */
  lemma WeekendRuleIsSubstituted(rules: seq<HolidayRule>, year: nat, i: nat) returns (date: int)
    requires SubstitutesIn(rules, year) && i < |rules| && IsWeekend(RuleDate(rules[i], year))
    ensures RuleDate(rules[i], year) < date <= RuleDate(rules[i], year) + 14 && !IsWeekend(date)
    ensures Day(date) in Expanded(rules, year) && Expanded(rules, year)[Day(date)] == rules[i].name
  {
    assert rules[i] in rules;
    hide RuleDate, SortedDeferred, Expanded, Substitute, After;
    var n := MovedRuleIndex(rules, year, i);
    hide SubstitutesIn;
    WeekendHolidaySubstituted(rules, year, n);
    date := Substitute(rules, year, n).value;
  }

  /** No date of such a table is a weekend. */
  lemma EveryDateIsWeekday(rules: seq<HolidayRule>, year: nat, date: int)
    requires SubstitutesIn(rules, year) && Day(date) in Expanded(rules, year)
    ensures !IsWeekend(date)
  {
    hide RuleDate, Expanded;
    var i := EveryDateHasItsRule(rules, year, date);
    assert rules[i] in rules;
  }
}
