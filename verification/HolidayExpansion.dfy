/**
 Expanding a holiday table to the dates of one year: natural dates first, then
 the weekend holidays, sorted in place and moved by their observance.
 */
module HolidayExpansion {
  import opened Optional
  import opened CivilDates
  import opened HolidayTables

  datatype Pending = Pending(natural: int, rule: HolidayRule)

  type Dates = map<Date, string>

  /** A fixed date on a weekend that the rule moves waits for the second pass. */
  predicate IsDeferred(rule: HolidayRule, year: nat) {
    rule.kind == Fixed && IsWeekend(RuleDate(rule, year)) && rule.observance != ObserveNone
  }

  // ---------------------------------------------------------------- first pass

  function AddDate(dates: Dates, date: int, name: string): Dates {
    if Day(date) in dates then dates else dates[Day(date) := name]
  }

  /** The natural dates of the first n rules that are not deferred; the first rule of a date names it. */
  function NaturalDates(rules: seq<HolidayRule>, year: nat, n: nat): Dates
    requires n <= |rules|
  {
    if n == 0 then map[]
    else
      var earlier := NaturalDates(rules, year, n - 1);
      if IsDeferred(rules[n - 1], year) then earlier else AddDate(earlier, RuleDate(rules[n - 1], year), rules[n - 1].name)
  }

  function DeferredRules(rules: seq<HolidayRule>, year: nat, n: nat): seq<Pending>
    requires n <= |rules|
  {
    if n == 0 then []
    else
      var earlier := DeferredRules(rules, year, n - 1);
      if IsDeferred(rules[n - 1], year) then earlier + [Pending(RuleDate(rules[n - 1], year), rules[n - 1])] else earlier
  }

  // ---------------------------------------------------------------- the exchange sort

  function Exchange(s: seq<Pending>, i: nat, j: nat): (r: seq<Pending>)
    requires i < |s| && j < |s|
    ensures |r| == |s|
  {
    if s[j].natural < s[i].natural then s[i := s[j]][j := s[i]] else s
  }

  /** The inner loop: position i meets every position after it, up to j. */
  function Meets(s: seq<Pending>, i: nat, j: nat): (r: seq<Pending>)
    requires i < |s| && j <= |s|
    ensures |r| == |s|
  {
    if j <= i + 1 then s else Exchange(Meets(s, i, j - 1), i, j - 1)
  }

  function ExchangeSorted(s: seq<Pending>, i: nat): (r: seq<Pending>)
    requires i <= |s|
    ensures |r| == |s|
  {
    if i == 0 then s else Meets(ExchangeSorted(s, i - 1), i - 1, |s|)
  }

  ghost predicate SortedByDate(s: seq<Pending>) {
    forall i, j | 0 <= i < j < |s| :: s[i].natural <= s[j].natural
  }

  /** The first i entries are in order and none after them is earlier. */
  ghost predicate SortedUpTo(s: seq<Pending>, i: nat) {
    forall p, q | 0 <= p < q < |s| && p < i :: s[p].natural <= s[q].natural
  }

  lemma {:induction false} MeetsPermutes(s: seq<Pending>, i: nat, j: nat)
    requires i < |s| && j <= |s|
    ensures multiset(Meets(s, i, j)) == multiset(s)
  {
    hide Exchange;
    if j > i + 1 {
      MeetsPermutes(s, i, j - 1);
      ExchangePermutes(Meets(s, i, j - 1), i, j - 1);
    }
  }

  lemma ExchangePermutes(s: seq<Pending>, i: nat, j: nat)
    requires i < j < |s|
    ensures multiset(Exchange(s, i, j)) == multiset(s)
  {
  }

  lemma ExchangeKeepsPrefix(s: seq<Pending>, i: nat, j: nat)
    requires i < j < |s| && SortedUpTo(s, i)
    ensures SortedUpTo(Exchange(s, i, j), i)
  {
  }

  /** After meeting the positions up to j, position i holds the earliest entry among them. */
  lemma {:induction false} MeetsMinimum(s: seq<Pending>, i: nat, j: nat)
    requires i < j <= |s| && SortedUpTo(s, i)
    ensures SortedUpTo(Meets(s, i, j), i)
    ensures forall q | i <= q < j :: Meets(s, i, j)[i].natural <= Meets(s, i, j)[q].natural
  {
    if j > i + 1 {
      hide SortedUpTo;
      MeetsMinimum(s, i, j - 1);
      ExchangeKeepsPrefix(Meets(s, i, j - 1), i, j - 1);
    }
  }

  lemma {:induction false} SortPermutes(s: seq<Pending>, i: nat)
    requires i <= |s|
    ensures multiset(ExchangeSorted(s, i)) == multiset(s)
  {
    hide Meets;
    if i > 0 {
      SortPermutes(s, i - 1);
      MeetsPermutes(ExchangeSorted(s, i - 1), i - 1, |s|);
    }
  }

  lemma {:induction false} SortsPrefix(s: seq<Pending>, i: nat)
    requires i <= |s|
    ensures SortedUpTo(ExchangeSorted(s, i), i)
  {
    if i > 0 {
      hide Meets;
      SortsPrefix(s, i - 1);
      MeetsMinimum(ExchangeSorted(s, i - 1), i - 1, |s|);
    }
  }

  /** The exchange loops sort: the same entries, earliest first. */
  lemma ExchangeSortSorts(s: seq<Pending>)
    ensures multiset(ExchangeSorted(s, |s|)) == multiset(s)
    ensures SortedByDate(ExchangeSorted(s, |s|))
  {
    SortPermutes(s, |s|);
    SortsPrefix(s, |s|);
  }

  method SortByDate(deferred: array<Pending>)
    modifies deferred
    ensures deferred[..] == ExchangeSorted(old(deferred[..]), deferred.Length)
  {
    for i := 0 to deferred.Length
      invariant deferred[..] == ExchangeSorted(old(deferred[..]), i)
    {
      ghost var before := deferred[..];
      for j := i + 1 to deferred.Length
        invariant deferred[..] == Meets(before, i, j)
      {
        if deferred[j].natural < deferred[i].natural {
          deferred[i], deferred[j] := deferred[j], deferred[i];
        }
      }
    }
  }

  // ---------------------------------------------------------------- second pass

  /** The first weekday after the date, within the steps, that no holiday claims. */
  function FirstFree(date: int, taken: Dates, steps: nat): Option<int>
    decreases steps
  {
    if steps == 0 then None
    else if IsWeekend(date + 1) || Day(date + 1) in taken then FirstFree(date + 1, taken, steps - 1)
    else Some(date + 1)
  }

  const SEARCH_STEPS: nat := 14

  function ObservedDate(natural: int, observance: Observance, taken: Dates): Option<int> {
    match observance
    case ObserveUSShift => if Weekday(natural) == SATURDAY then Some(natural - 1) else Some(natural + 1)
    case ObserveUKSubstitute => FirstFree(natural, taken, SEARCH_STEPS)
    case ObserveNone => None
  }

  /** One weekend holiday goes to its observed date, unless another holiday owns it. */
  function Observe(dates: Dates, item: Pending): Dates {
    match ObservedDate(item.natural, item.rule.observance, dates)
    case None => dates
    case Some(date) => AddDate(dates, date, item.rule.name)
  }

  function ObserveAll(dates: Dates, items: seq<Pending>, n: nat): Dates
    requires n <= |items|
  {
    if n == 0 then dates else Observe(ObserveAll(dates, items, n - 1), items[n - 1])
  }

  function SortedDeferred(rules: seq<HolidayRule>, year: nat): seq<Pending>
  {
    var deferred := DeferredRules(rules, year, |rules|);
    ExchangeSorted(deferred, |deferred|)
  }

  /** The dates of a table in a year. */
  function Expanded(rules: seq<HolidayRule>, year: nat): Dates
  {
    var items := SortedDeferred(rules, year);
    ObserveAll(NaturalDates(rules, year, |rules|), items, |items|)
  }

  method FindObservedDate(natural: int, observance: Observance, taken: Dates) returns (observed: Option<int>)
    ensures observed == ObservedDate(natural, observance, taken)
  {
    match observance {
      case ObserveUSShift =>
        observed := if Weekday(natural) == SATURDAY then Some(natural - 1) else Some(natural + 1);
      case ObserveUKSubstitute =>
        var candidate := natural;
        for step := 0 to SEARCH_STEPS
          invariant FirstFree(natural, taken, SEARCH_STEPS) == FirstFree(candidate, taken, SEARCH_STEPS - step)
        {
          candidate := candidate + 1;
          if IsWeekend(candidate) || Day(candidate) in taken {
            continue;
          }
          return Some(candidate);
        }
        observed := None;
      case ObserveNone =>
        observed := None;
    }
  }

  method Expand(rules: seq<HolidayRule>, year: nat) returns (byDate: Dates)
    ensures byDate == Expanded(rules, year)
  {
    byDate := map[];
    var deferred: seq<Pending> := [];
    for i := 0 to |rules|
      invariant byDate == NaturalDates(rules, year, i)
      invariant deferred == DeferredRules(rules, year, i)
    {
      var rule := rules[i];
      var natural := RuleDate(rule, year);
      if rule.kind == Fixed && IsWeekend(natural) && rule.observance != ObserveNone {
        deferred := deferred + [Pending(natural, rule)];
        continue;
      }
      if Day(natural) !in byDate {
        byDate := byDate[Day(natural) := rule.name];
      }
    }
    var items := new Pending[|deferred|](i requires 0 <= i < |deferred| => deferred[i]);
    assert items[..] == deferred;
    SortByDate(items);
    for i := 0 to items.Length
      invariant items[..] == SortedDeferred(rules, year)
      invariant byDate == ObserveAll(NaturalDates(rules, year, |rules|), items[..], i)
    {
      var observed := FindObservedDate(items[i].natural, items[i].rule.observance, byDate);
      if observed.Some? && Day(observed.value) !in byDate {
        byDate := byDate[Day(observed.value) := items[i].rule.name];
      }
    }
  }

  // ---------------------------------------------------------------- what every table gets

  /** Later holidays never take a date away or rename it. */
  lemma {:induction false} DatesStay(dates: Dates, items: seq<Pending>, n: nat, m: nat, date: int)
    requires n <= m <= |items| && Day(date) in ObserveAll(dates, items, n)
    ensures Day(date) in ObserveAll(dates, items, m)
    ensures ObserveAll(dates, items, m)[Day(date)] == ObserveAll(dates, items, n)[Day(date)]
  {
    if n < m {
      DatesStay(dates, items, n, m - 1, date);
    }
  }

  lemma {:induction false} NaturalDatesStay(rules: seq<HolidayRule>, year: nat, n: nat, m: nat, date: int)
    requires n <= m <= |rules| && Day(date) in NaturalDates(rules, year, n)
    ensures Day(date) in NaturalDates(rules, year, m)
    ensures NaturalDates(rules, year, m)[Day(date)] == NaturalDates(rules, year, n)[Day(date)]
  {
    if n < m {
      NaturalDatesStay(rules, year, n, m - 1, date);
    }
  }

  lemma {:induction false} DeferredFromRules(rules: seq<HolidayRule>, year: nat, n: nat, item: Pending)
    requires n <= |rules|
    ensures item in DeferredRules(rules, year, n)
            <==> exists i :: 0 <= i < n && IsDeferred(rules[i], year) && item == Pending(RuleDate(rules[i], year), rules[i])
  {
    if n > 0 {
      DeferredFromRules(rules, year, n - 1, item);
    }
  }

  /** The sorted items are the deferred rules. */
  lemma ItemsAreDeferred(rules: seq<HolidayRule>, year: nat, item: Pending)
    ensures item in SortedDeferred(rules, year)
            <==> exists i :: 0 <= i < |rules| && IsDeferred(rules[i], year) && item == Pending(RuleDate(rules[i], year), rules[i])
  {
    var deferred := DeferredRules(rules, year, |rules|);
    ExchangeSortSorts(deferred);
    assert item in SortedDeferred(rules, year) <==> item in multiset(SortedDeferred(rules, year));
    assert item in deferred <==> item in multiset(deferred);
    DeferredFromRules(rules, year, |rules|, item);
  }

  /** Every date of the expansion is the natural date of a rule, or at most a day before or fourteen after a deferred one. */
  lemma {:induction false} ObservedNearby(dates: Dates, items: seq<Pending>, n: nat, date: int)
    requires n <= |items| && Day(date) in ObserveAll(dates, items, n)
    ensures Day(date) in dates || exists i :: 0 <= i < n && items[i].natural - 1 <= date <= items[i].natural + SEARCH_STEPS
  {
    if n > 0 && Day(date) !in ObserveAll(dates, items, n - 1) {
      var before, item := ObserveAll(dates, items, n - 1), items[n - 1];
      FirstFreeIs(item.natural, before, SEARCH_STEPS);
      assert items[n - 1].natural - 1 <= date <= items[n - 1].natural + SEARCH_STEPS;
    } else if n > 0 {
      ObservedNearby(dates, items, n - 1, date);
    }
  }

  /** A found date is the first weekday after the natural date that nothing claims. */
  lemma {:induction false} FirstFreeIs(date: int, taken: Dates, steps: nat)
    ensures var free := FirstFree(date, taken, steps);
      && (free.Some? ==>
            && date < free.value <= date + steps && !IsWeekend(free.value) && Day(free.value) !in taken
            && forall x | date < x < free.value :: IsWeekend(x) || Day(x) in taken)
      && (free.None? ==> forall x | date < x <= date + steps :: IsWeekend(x) || Day(x) in taken)
    decreases steps
  {
    if steps > 0 {
      FirstFreeIs(date + 1, taken, steps - 1);
    }
  }

  lemma {:induction false} NaturalDateOfRule(rules: seq<HolidayRule>, year: nat, n: nat, date: int)
    requires n <= |rules| && Day(date) in NaturalDates(rules, year, n)
    ensures exists i :: 0 <= i < n && !IsDeferred(rules[i], year) && date == RuleDate(rules[i], year)
              && NaturalDates(rules, year, n)[Day(date)] == rules[i].name
  {
    if n > 0 && Day(date) in NaturalDates(rules, year, n - 1) {
      NaturalDateOfRule(rules, year, n - 1, date);
    }
  }

  lemma DeferredOnWeekend(rules: seq<HolidayRule>, year: nat, n: nat)
    requires n < |SortedDeferred(rules, year)|
    ensures IsWeekend(SortedDeferred(rules, year)[n].natural)
  {
    hide SortedDeferred, RuleDate;
    assert SortedDeferred(rules, year)[n] in SortedDeferred(rules, year);
    ItemsAreDeferred(rules, year, SortedDeferred(rules, year)[n]);
  }

  lemma ShiftClaimed(dates: Dates, items: seq<Pending>, n: nat)
    requires n < |items| && items[n].rule.observance == ObserveUSShift
    ensures var natural := items[n].natural;
            Day(if Weekday(natural) == SATURDAY then natural - 1 else natural + 1) in ObserveAll(dates, items, |items|)
  {
    var natural := items[n].natural;
    var shifted := if Weekday(natural) == SATURDAY then natural - 1 else natural + 1;
    assert Day(shifted) in ObserveAll(dates, items, n + 1);
    DatesStay(dates, items, n + 1, |items|, shifted);
  }

  /** A US weekend holiday makes the nearest weekday a holiday, under its own name or that of the rule owning the day. */
  lemma ShiftedDayIsHoliday(rules: seq<HolidayRule>, year: nat, n: nat)
    requires n < |SortedDeferred(rules, year)|
    requires SortedDeferred(rules, year)[n].rule.observance == ObserveUSShift
    ensures var natural := SortedDeferred(rules, year)[n].natural;
            var shifted := if Weekday(natural) == SATURDAY then natural - 1 else natural + 1;
            IsWeekend(natural) && !IsWeekend(shifted) && Day(shifted) in Expanded(rules, year)
  {
    hide SortedDeferred, NaturalDates, ObserveAll;
    DeferredOnWeekend(rules, year, n);
    ShiftClaimed(NaturalDates(rules, year, |rules|), SortedDeferred(rules, year), n);
  }

  // ---------------------------------------------------------------- rule by rule

  /** A rule that is not a fixed date on a weekend with an observance keeps its date, and the first such rule names it. */
  lemma UnmovedRuleIsHoliday(rules: seq<HolidayRule>, year: nat, i: nat)
    requires i < |rules|
    requires rules[i].kind != Fixed || !IsWeekend(RuleDate(rules[i], year)) || rules[i].observance == ObserveNone
    ensures Day(RuleDate(rules[i], year)) in Expanded(rules, year)
    ensures (forall j | 0 <= j < i :: RuleDate(rules[j], year) != RuleDate(rules[i], year)) ==>
      Expanded(rules, year)[Day(RuleDate(rules[i], year))] == rules[i].name
  {
    hide RuleDate, SortedDeferred;
    var date := RuleDate(rules[i], year);
    if Day(date) in NaturalDates(rules, year, i) {
      NaturalDateOfRule(rules, year, i, date);
    }
    assert Day(date) in NaturalDates(rules, year, i + 1);
    NaturalDatesStay(rules, year, i + 1, |rules|, date);
    DatesStay(NaturalDates(rules, year, |rules|), SortedDeferred(rules, year), 0, |SortedDeferred(rules, year)|, date);
  }

  lemma MovedRuleIndex(rules: seq<HolidayRule>, year: nat, i: nat) returns (n: nat)
    requires i < |rules|
    requires rules[i].kind == Fixed && IsWeekend(RuleDate(rules[i], year)) && rules[i].observance != ObserveNone
    ensures n < |SortedDeferred(rules, year)|
    ensures SortedDeferred(rules, year)[n] == Pending(RuleDate(rules[i], year), rules[i])
  {
    hide SortedDeferred, RuleDate;
    var item := Pending(RuleDate(rules[i], year), rules[i]);
    ItemsAreDeferred(rules, year, item);
    assert IsDeferred(rules[i], year);
    n :| 0 <= n < |SortedDeferred(rules, year)| && SortedDeferred(rules, year)[n] == item;
  }

  /** A US rule falling on a Saturday makes the Friday before a holiday, one falling on a Sunday the Monday after. */
  lemma ShiftedRuleIsHoliday(rules: seq<HolidayRule>, year: nat, i: nat)
    requires i < |rules| && rules[i].kind == Fixed && rules[i].observance == ObserveUSShift
    ensures var date := RuleDate(rules[i], year);
      && (Weekday(date) == SATURDAY ==> Day(date - 1) in Expanded(rules, year))
      && (Weekday(date) == SUNDAY ==> Day(date + 1) in Expanded(rules, year))
  {
    hide RuleDate, SortedDeferred, Expanded;
    if IsWeekend(RuleDate(rules[i], year)) {
      var n := MovedRuleIndex(rules, year, i);
      ShiftedDayIsHoliday(rules, year, n);
    }
  }

  /** The date is where the observance of a weekend holiday may put it. */
  predicate MayObserve(natural: int, observance: Observance, date: int) {
    match observance
    case ObserveUSShift => date == if Weekday(natural) == SATURDAY then natural - 1 else natural + 1
    case ObserveUKSubstitute => natural < date <= natural + 14 && !IsWeekend(date)
    case ObserveNone => false
  }

  lemma {:induction false} ObservedByItem(dates: Dates, items: seq<Pending>, n: nat, date: int)
    requires n <= |items| && Day(date) in ObserveAll(dates, items, n)
    ensures (Day(date) in dates && ObserveAll(dates, items, n)[Day(date)] == dates[Day(date)])
            || exists i :: 0 <= i < n && MayObserve(items[i].natural, items[i].rule.observance, date)
                 && ObserveAll(dates, items, n)[Day(date)] == items[i].rule.name
  {
    if n > 0 && Day(date) !in ObserveAll(dates, items, n - 1) {
      var before, item := ObserveAll(dates, items, n - 1), items[n - 1];
      FirstFreeIs(item.natural, before, SEARCH_STEPS);
      assert MayObserve(items[n - 1].natural, items[n - 1].rule.observance, date);
    } else if n > 0 {
      ObservedByItem(dates, items, n - 1, date);
    }
  }

  /** Every date of the expansion is that of a rule that does not move, or where a moved one may be observed, and named so. */
  lemma EveryDateHasItsRule(rules: seq<HolidayRule>, year: nat, date: int) returns (i: nat)
    requires Day(date) in Expanded(rules, year)
    ensures i < |rules|
    ensures var natural := RuleDate(rules[i], year);
            if rules[i].kind == Fixed && IsWeekend(natural) && rules[i].observance != ObserveNone
            then MayObserve(natural, rules[i].observance, date)
            else date == natural
    ensures Expanded(rules, year)[Day(date)] == rules[i].name
  {
    hide RuleDate, SortedDeferred, MayObserve;
    var items, naturals := SortedDeferred(rules, year), NaturalDates(rules, year, |rules|);
    ObservedByItem(naturals, items, |items|, date);
    if Day(date) in naturals && Expanded(rules, year)[Day(date)] == naturals[Day(date)] {
      NaturalDateOfRule(rules, year, |rules|, date);
      i :| 0 <= i < |rules| && !IsDeferred(rules[i], year) && date == RuleDate(rules[i], year)
           && naturals[Day(date)] == rules[i].name;
    } else {
      var n :| 0 <= n < |items| && MayObserve(items[n].natural, items[n].rule.observance, date)
               && Expanded(rules, year)[Day(date)] == items[n].rule.name;
      assert items[n] in items;
      ItemsAreDeferred(rules, year, items[n]);
      i :| 0 <= i < |rules| && IsDeferred(rules[i], year) && items[n] == Pending(RuleDate(rules[i], year), rules[i]);
    }
  }
}
