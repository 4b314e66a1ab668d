/** The calendar fallbacks used when the current-season and current-week
    endpoints fail. Dates are day numbers counted from 1970-01-01 (a
    Thursday); the calendar itself (which day number is 1 September of a
    year, the year and month of today) is supplied by the caller. */
module Calendar {
  import opened Wrappers

  /** Python's `date.weekday()`: Monday is 0, Thursday is 3. */
  function Weekday(day: int): int
  {
    (day + 3) % 7
  }

  const Thursday := 3

  /** Weekdays advance by one per day, wrapping after Sunday. */
  lemma WeekdayStep(day: int, n: nat)
    ensures Weekday(day + n) == (Weekday(day) + n) % 7
  {
  }

  /** The first Thursday on or after `day`. */
  function FirstThursdayFrom(day: int): (start: int)
    ensures day <= start <= day + 6 && Weekday(start) == Thursday
    ensures forall d :: day <= d < start ==> Weekday(d) != Thursday
  {
    var start := day + (Thursday - Weekday(day) + 7) % 7;
    NoEarlierThursday(day, start);
    start
  }

  lemma NoEarlierThursday(day: int, start: int)
    requires start == day + (Thursday - Weekday(day) + 7) % 7
    ensures forall d :: day <= d < start ==> Weekday(d) != Thursday
  {
    forall d | day <= d < start ensures Weekday(d) != Thursday {
      WeekdayStep(day, d - day);
    }
  }

  /** The `while weekday != 3` loop of `fetch_current_week`: step a day at a
      time from 1 September until a Thursday. */
  method SeasonStart(septemberFirst: int) returns (start: int)
    ensures start == FirstThursdayFrom(septemberFirst)
  {
    start := septemberFirst;
    while Weekday(start) != Thursday
      invariant septemberFirst <= start <= FirstThursdayFrom(septemberFirst)
      decreases FirstThursdayFrom(septemberFirst) - start
    {
      start := start + 1;
    }
  }

  /** The week fallback: whole weeks elapsed since the first Thursday of
      September, plus one. Python's `//` floors, as Dafny's `/` does for a
      positive divisor, so days before the season start give week 0 or less. */
  method FallbackCurrentWeek(today: int, septemberFirst: int) returns (week: int)
    ensures var start := FirstThursdayFrom(septemberFirst);
            start + 7 * (week - 1) <= today < start + 7 * week
    ensures week <= 0 <==> today < FirstThursdayFrom(septemberFirst)
    ensures week == 1 <==> FirstThursdayFrom(septemberFirst) <= today < FirstThursdayFrom(septemberFirst) + 7
  {
    var start := SeasonStart(septemberFirst);
    var weeksPassed := (today - start) / 7;
    week := weeksPassed + 1;
  }

  /** `fetch_current_week`: the endpoint's answer when it has one, the calendar otherwise. */
  method CurrentWeek(endpointWeek: Option<int>, today: int, septemberFirst: int) returns (week: int)
    ensures endpointWeek.Some? ==> week == endpointWeek.value
    ensures endpointWeek.None? ==>
              var start := FirstThursdayFrom(septemberFirst);
              start + 7 * (week - 1) <= today < start + 7 * week
  {
    if endpointWeek.Some? {
      week := endpointWeek.value;
    } else {
      week := FallbackCurrentWeek(today, septemberFirst);
    }
  }

  /** The season-year fallback: a league year starts in February, so January
      still belongs to the previous year's season. */
  function FallbackSeasonYear(year: int, month: int): (season: int)
    ensures season == year <==> month >= 2
    ensures season == year - 1 <==> month < 2
  {
    if month >= 2 then year else year - 1
  }

  /** `fetch_current_season_year`: the endpoint's answer when it has one, the calendar otherwise. */
  function CurrentSeasonYear(endpointYear: Option<int>, year: int, month: int): (season: int)
    ensures endpointYear.Some? ==> season == endpointYear.value
    ensures endpointYear.None? ==> year - 1 <= season <= year && (season == year <==> month >= 2)
  {
    if endpointYear.Some? then endpointYear.value else FallbackSeasonYear(year, month)
  }
}
