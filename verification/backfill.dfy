/** `cache_old_data`: for each listed past season, fetch the schedule if its
    file is missing, and run the whole odds (scores) routine of the season
    once for every week whose dated odds (scores) file is missing at that
    moment. */
module Backfill {
  import opened WeekRanges
  import opened Store
  import opened Writers

  const SeasonsToCache: seq<string> := ["2023PRE", "2022POST", "2022REG", "2022PRE"]

  /** The odds checks of one season: for each week in order, the whole odds
      routine runs if the week's dated file is missing. */
  function OddsChecks(c: Cache, api: Api, season: string, weeks: seq<int>, thisYear: int, thisWeek: int): Cache
    requires ValidApi(api)
    decreases |weeks|
  {
    if weeks == [] then c
    else
      var before := OddsChecks(c, api, season, weeks[..|weeks| - 1], thisYear, thisWeek);
      if OddsFile(season, weeks[|weeks| - 1]) in before.files then before
      else OddsRun(before, api, season, thisYear, thisWeek)
  }

  /** The scores checks of one season, in the same way. */
  function ScoresChecks(c: Cache, api: Api, season: string, weeks: seq<int>, thisYear: int, thisWeek: int): Cache
    decreases |weeks|
  {
    if weeks == [] then c
    else
      var before := ScoresChecks(c, api, season, weeks[..|weeks| - 1], thisYear, thisWeek);
      if ScoresFile(season, weeks[|weeks| - 1]) in before.files then before
      else ScoresRun(before, api, season, thisYear, thisWeek)
  }

  /** One season of the backfill: schedule, then odds, then scores. */
  function BackfillSeason(c: Cache, api: Api, season: string, thisYear: int, thisWeek: int): Cache
    requires ValidApi(api)
  {
    var withSchedule := if ScheduleFile(season) in c.files then c else ScheduleRun(c, api, season);
    var weeks := WeekRange(BackfillFeed, season, thisYear, thisWeek);
    ScoresChecks(OddsChecks(withSchedule, api, season, weeks, thisYear, thisWeek), api, season, weeks, thisYear, thisWeek)
  }

  /** The backfill over `seasons`, in order. */
  function BackfillRun(c: Cache, api: Api, seasons: seq<string>, thisYear: int, thisWeek: int): Cache
    requires ValidApi(api)
    decreases |seasons|
  {
    if seasons == [] then c
    else BackfillSeason(BackfillRun(c, api, seasons[..|seasons| - 1], thisYear, thisWeek), api, seasons[|seasons| - 1], thisYear, thisWeek)
  }

  /** The odds week loop of `cache_old_data` for one season. */
  method CheckOddsWeeks(c: Cache, api: Api, season: string, weeks: seq<int>, thisYear: int, thisWeek: int) returns (c': Cache)
    requires ValidApi(api)
    ensures c' == OddsChecks(c, api, season, weeks, thisYear, thisWeek)
  {
    c' := c;
    var j := 0;
    while j < |weeks|
      invariant 0 <= j <= |weeks|
      invariant c' == OddsChecks(c, api, season, weeks[..j], thisYear, thisWeek)
    {
      assert weeks[..j + 1][..j] == weeks[..j];
      if OddsFile(season, weeks[j]) !in c'.files {
        c' := CacheOdds(c', api, season, thisYear, thisWeek);
      }
      j := j + 1;
    }
    assert weeks[..j] == weeks;
  }

  /** The scores week loop of `cache_old_data` for one season. */
  method CheckScoresWeeks(c: Cache, api: Api, season: string, weeks: seq<int>, thisYear: int, thisWeek: int) returns (c': Cache)
    ensures c' == ScoresChecks(c, api, season, weeks, thisYear, thisWeek)
  {
    c' := c;
    var j := 0;
    while j < |weeks|
      invariant 0 <= j <= |weeks|
      invariant c' == ScoresChecks(c, api, season, weeks[..j], thisYear, thisWeek)
    {
      assert weeks[..j + 1][..j] == weeks[..j];
      if ScoresFile(season, weeks[j]) !in c'.files {
        c' := CacheScores(c', api, season, thisYear, thisWeek);
      }
      j := j + 1;
    }
    assert weeks[..j] == weeks;
  }

  /** The body of the season loop of `cache_old_data`. */
  method CacheSeason(c: Cache, api: Api, season: string, thisYear: int, thisWeek: int) returns (c': Cache)
    requires ValidApi(api)
    ensures c' == BackfillSeason(c, api, season, thisYear, thisWeek)
  {
    c' := c;
    if ScheduleFile(season) !in c'.files {
      c' := CacheSchedule(c', api, season);
    }
    var weeks := WeekRange(BackfillFeed, season, thisYear, thisWeek);
    c' := CheckOddsWeeks(c', api, season, weeks, thisYear, thisWeek);
    c' := CheckScoresWeeks(c', api, season, weeks, thisYear, thisWeek);
  }

  /** The season loop of `cache_old_data`, over `seasons` in order. */
  method CacheSeasons(c: Cache, api: Api, seasons: seq<string>, thisYear: int, thisWeek: int) returns (c': Cache)
    requires ValidApi(api)
    ensures c' == BackfillRun(c, api, seasons, thisYear, thisWeek)
  {
    c' := c;
    var i := 0;
    while i < |seasons|
      invariant 0 <= i <= |seasons|
      invariant c' == BackfillRun(c, api, seasons[..i], thisYear, thisWeek)
    {
      assert seasons[..i + 1][..i] == seasons[..i];
      c' := CacheSeason(c', api, seasons[i], thisYear, thisWeek);
      i := i + 1;
    }
    assert seasons[..i] == seasons;
  }

  /** `cache_old_data`: the season loop over the four listed seasons. */
  method CacheOldData(c: Cache, api: Api, thisYear: int, thisWeek: int) returns (c': Cache)
    requires ValidApi(api)
    ensures c' == BackfillRun(c, api, SeasonsToCache, thisYear, thisWeek)
  {
    c' := CacheSeasons(c, api, SeasonsToCache, thisYear, thisWeek);
  }

  /** Every file the backfill looks for is already on disk. */
  ghost predicate AllCached(files: map<Path, Content>, seasons: seq<string>, thisYear: int, thisWeek: int)
  {
    forall season :: season in seasons ==>
      && ScheduleFile(season) in files
      && forall w :: w in WeekRange(BackfillFeed, season, thisYear, thisWeek) ==>
           OddsFile(season, w) in files && ScoresFile(season, w) in files
  }

  lemma {:induction false} OddsChecksAllPresent(c: Cache, api: Api, season: string, weeks: seq<int>, thisYear: int, thisWeek: int)
    requires ValidApi(api)
    requires forall w :: w in weeks ==> OddsFile(season, w) in c.files
    ensures OddsChecks(c, api, season, weeks, thisYear, thisWeek) == c
    decreases |weeks|
  {
    if weeks != [] {
      OddsChecksAllPresent(c, api, season, weeks[..|weeks| - 1], thisYear, thisWeek);
    }
  }

  lemma {:induction false} ScoresChecksAllPresent(c: Cache, api: Api, season: string, weeks: seq<int>, thisYear: int, thisWeek: int)
    requires forall w :: w in weeks ==> ScoresFile(season, w) in c.files
    ensures ScoresChecks(c, api, season, weeks, thisYear, thisWeek) == c
    decreases |weeks|
  {
    if weeks != [] {
      ScoresChecksAllPresent(c, api, season, weeks[..|weeks| - 1], thisYear, thisWeek);
    }
  }

  /** When every schedule, odds and scores file of the listed seasons is
      present, the backfill makes no request and changes no file. */
  lemma {:induction false} BackfillIdempotent(c: Cache, api: Api, seasons: seq<string>, thisYear: int, thisWeek: int)
    requires ValidApi(api)
    requires AllCached(c.files, seasons, thisYear, thisWeek)
    ensures BackfillRun(c, api, seasons, thisYear, thisWeek) == c
    decreases |seasons|
  {
    if seasons != [] {
      var init := seasons[..|seasons| - 1];
      var season := seasons[|seasons| - 1];
      assert forall x :: x in init ==> x in seasons;
      BackfillIdempotent(c, api, init, thisYear, thisWeek);
      var weeks := WeekRange(BackfillFeed, season, thisYear, thisWeek);
      OddsChecksAllPresent(c, api, season, weeks, thisYear, thisWeek);
      ScoresChecksAllPresent(c, api, season, weeks, thisYear, thisWeek);
    }
  }

  /** Requests are only appended and files are only added or overwritten. */
  ghost predicate Extends(c: Cache, c': Cache)
  {
    c.calls <= c'.calls && c.files.Keys <= c'.files.Keys
  }

  /** Whether the dated odds file of `season` for the current week exists is
      never changed by any routine: the odds routine sends that week to the
      current-week slot. */
  ghost predicate SameCurrentWeekFiles(c: Cache, c': Cache, thisWeek: int)
  {
    forall season :: OddsFile(season, thisWeek) in c.files <==> OddsFile(season, thisWeek) in c'.files
  }

  lemma OddsRunFrame(c: Cache, api: Api, season: string, thisYear: int, thisWeek: int)
    requires ValidApi(api)
    ensures var c' := OddsRun(c, api, season, thisYear, thisWeek);
            && Extends(c, c') && SameCurrentWeekFiles(c, c', thisWeek)
            && |c'.calls| == |c.calls| + |WeekRange(OddsFeed, season, thisYear, thisWeek)|
  {
    var weeks := WeekRange(OddsFeed, season, thisYear, thisWeek);
    forall p ensures p in c.files ==> p in OddsRun(c, api, season, thisYear, thisWeek).files {
      OddsFoldAt(c.files, api, season, weeks, thisWeek, p);
    }
    forall x ensures OddsFile(x, thisWeek) in c.files <==> OddsFile(x, thisWeek) in OddsRun(c, api, season, thisYear, thisWeek).files {
      OddsFoldAt(c.files, api, season, weeks, thisWeek, OddsFile(x, thisWeek));
    }
  }

  lemma ScoresRunFrame(c: Cache, api: Api, season: string, thisYear: int, thisWeek: int)
    ensures var c' := ScoresRun(c, api, season, thisYear, thisWeek);
            Extends(c, c') && SameCurrentWeekFiles(c, c', thisWeek)
  {
    var weeks := WeekRange(ScoresFeed, season, thisYear, thisWeek);
    forall p ensures p in c.files ==> p in ScoresRun(c, api, season, thisYear, thisWeek).files {
      ScoresFoldAt(c.files, api, season, weeks, p);
    }
    forall x ensures OddsFile(x, thisWeek) in c.files <==> OddsFile(x, thisWeek) in ScoresRun(c, api, season, thisYear, thisWeek).files {
      ScoresFoldAt(c.files, api, season, weeks, OddsFile(x, thisWeek));
    }
  }

  lemma {:induction false} OddsChecksFrame(c: Cache, api: Api, season: string, weeks: seq<int>, thisYear: int, thisWeek: int)
    requires ValidApi(api)
    ensures var c' := OddsChecks(c, api, season, weeks, thisYear, thisWeek);
            Extends(c, c') && SameCurrentWeekFiles(c, c', thisWeek)
    decreases |weeks|
  {
    if weeks != [] {
      var before := OddsChecks(c, api, season, weeks[..|weeks| - 1], thisYear, thisWeek);
      OddsChecksFrame(c, api, season, weeks[..|weeks| - 1], thisYear, thisWeek);
      OddsRunFrame(before, api, season, thisYear, thisWeek);
    }
  }

  lemma {:induction false} ScoresChecksFrame(c: Cache, api: Api, season: string, weeks: seq<int>, thisYear: int, thisWeek: int)
    ensures var c' := ScoresChecks(c, api, season, weeks, thisYear, thisWeek);
            Extends(c, c') && SameCurrentWeekFiles(c, c', thisWeek)
    decreases |weeks|
  {
    if weeks != [] {
      var before := ScoresChecks(c, api, season, weeks[..|weeks| - 1], thisYear, thisWeek);
      ScoresChecksFrame(c, api, season, weeks[..|weeks| - 1], thisYear, thisWeek);
      ScoresRunFrame(before, api, season, thisYear, thisWeek);
    }
  }

  lemma BackfillSeasonFrame(c: Cache, api: Api, season: string, thisYear: int, thisWeek: int)
    requires ValidApi(api)
    ensures var c' := BackfillSeason(c, api, season, thisYear, thisWeek);
            Extends(c, c') && SameCurrentWeekFiles(c, c', thisWeek)
  {
    var withSchedule := if ScheduleFile(season) in c.files then c else ScheduleRun(c, api, season);
    var weeks := WeekRange(BackfillFeed, season, thisYear, thisWeek);
    OddsChecksFrame(withSchedule, api, season, weeks, thisYear, thisWeek);
    ScoresChecksFrame(OddsChecks(withSchedule, api, season, weeks, thisYear, thisWeek), api, season, weeks, thisYear, thisWeek);
  }

  /** The backfill only appends requests and never removes a file, and it
      never creates or removes the dated odds file of the current week. */
  lemma {:induction false} BackfillFrame(c: Cache, api: Api, seasons: seq<string>, thisYear: int, thisWeek: int)
    requires ValidApi(api)
    ensures var c' := BackfillRun(c, api, seasons, thisYear, thisWeek);
            Extends(c, c') && SameCurrentWeekFiles(c, c', thisWeek)
    decreases |seasons|
  {
    if seasons != [] {
      var init := seasons[..|seasons| - 1];
      BackfillFrame(c, api, init, thisYear, thisWeek);
      BackfillSeasonFrame(BackfillRun(c, api, init, thisYear, thisWeek), api, seasons[|seasons| - 1], thisYear, thisWeek);
    }
  }

  lemma {:induction false} OddsChecksRefetch(c: Cache, api: Api, season: string, weeks: seq<int>, thisYear: int, thisWeek: int)
    requires ValidApi(api)
    requires thisWeek in weeks && OddsFile(season, thisWeek) !in c.files
    requires WeekRange(OddsFeed, season, thisYear, thisWeek) != []
    ensures |OddsChecks(c, api, season, weeks, thisYear, thisWeek).calls| > |c.calls|
    decreases |weeks|
  {
    var init := weeks[..|weeks| - 1];
    OddsChecksFrame(c, api, season, init, thisYear, thisWeek);
    OddsChecksStep(OddsChecks(c, api, season, init, thisYear, thisWeek), c, api, season, weeks, thisYear, thisWeek);
    if weeks[|weeks| - 1] != thisWeek {
      var j :| 0 <= j < |weeks| && weeks[j] == thisWeek;
      assert init[j] == thisWeek;
      OddsChecksRefetch(c, api, season, init, thisYear, thisWeek);
    }
  }

  /** One more week of checks never sends fewer requests, and a check of the
      current week whose dated file is missing always sends some. */
  lemma OddsChecksStep(before: Cache, c: Cache, api: Api, season: string, weeks: seq<int>, thisYear: int, thisWeek: int)
    requires ValidApi(api) && weeks != []
    requires before == OddsChecks(c, api, season, weeks[..|weeks| - 1], thisYear, thisWeek)
    ensures var after := OddsChecks(c, api, season, weeks, thisYear, thisWeek);
            && |after.calls| >= |before.calls|
            && (weeks[|weeks| - 1] == thisWeek && OddsFile(season, thisWeek) !in before.files
                && WeekRange(OddsFeed, season, thisYear, thisWeek) != []
                ==> |after.calls| > |before.calls|)
  {
    OddsRunFrame(before, api, season, thisYear, thisWeek);
  }

  lemma BackfillSeasonRefetch(c: Cache, api: Api, season: string, thisYear: int, thisWeek: int)
    requires ValidApi(api)
    requires thisWeek in WeekRange(BackfillFeed, season, thisYear, thisWeek)
    requires WeekRange(OddsFeed, season, thisYear, thisWeek) != []
    requires OddsFile(season, thisWeek) !in c.files
    ensures |BackfillSeason(c, api, season, thisYear, thisWeek).calls| > |c.calls|
  {
    var withSchedule := if ScheduleFile(season) in c.files then c else ScheduleRun(c, api, season);
    var weeks := WeekRange(BackfillFeed, season, thisYear, thisWeek);
    OddsChecksRefetch(withSchedule, api, season, weeks, thisYear, thisWeek);
    ScoresChecksFrame(OddsChecks(withSchedule, api, season, weeks, thisYear, thisWeek), api, season, weeks, thisYear, thisWeek);
  }

  lemma SeasonKeepsGrowth(c: Cache, before: Cache, api: Api, season: string, thisYear: int, thisWeek: int)
    requires ValidApi(api)
    requires |before.calls| > |c.calls|
    ensures |BackfillSeason(before, api, season, thisYear, thisWeek).calls| > |c.calls|
  {
    BackfillSeasonFrame(before, api, season, thisYear, thisWeek);
  }

  /** The `k`-th season, whose backfill range holds the current week, always
      leads to requests while its dated odds file of that week is missing. */
  lemma {:induction false} BackfillRefetch(c: Cache, api: Api, seasons: seq<string>, thisYear: int, thisWeek: int, k: nat)
    requires ValidApi(api)
    requires k < |seasons|
    requires thisWeek in WeekRange(BackfillFeed, seasons[k], thisYear, thisWeek)
    requires WeekRange(OddsFeed, seasons[k], thisYear, thisWeek) != []
    requires OddsFile(seasons[k], thisWeek) !in c.files
    ensures |BackfillRun(c, api, seasons, thisYear, thisWeek).calls| > |c.calls|
    decreases |seasons|
  {
    var init := seasons[..|seasons| - 1];
    var last := seasons[|seasons| - 1];
    var before := BackfillRun(c, api, init, thisYear, thisWeek);
    assert BackfillRun(c, api, seasons, thisYear, thisWeek) == BackfillSeason(before, api, last, thisYear, thisWeek);
    if k == |seasons| - 1 {
      BackfillFrame(c, api, init, thisYear, thisWeek);
      BackfillSeasonRefetch(before, api, last, thisYear, thisWeek);
    } else {
      assert init[k] == seasons[k];
      BackfillRefetch(c, api, init, thisYear, thisWeek, k);
      SeasonKeepsGrowth(c, before, api, last, thisYear, thisWeek);
    }
  }

  /** With the current week between 0 and 3, the preseason 2022 odds of that
      week go to the current-week slot and never to their dated file, so
      every later run of the backfill requests data again: it never reaches
      the state `BackfillIdempotent` describes. */
  lemma BackfillNeverSettles(c: Cache, api: Api, thisYear: int, thisWeek: int)
    requires ValidApi(api)
    requires 0 <= thisWeek <= 3
    requires OddsFile("2022PRE", thisWeek) !in c.files
    ensures var c1 := BackfillRun(c, api, SeasonsToCache, thisYear, thisWeek);
            && OddsFile("2022PRE", thisWeek) !in c1.files
            && |BackfillRun(c1, api, SeasonsToCache, thisYear, thisWeek).calls| > |c1.calls|
  {
    assert IsPreseason("2022PRE") by {
      assert "2022PRE"[4..] == "PRE";
    }
    assert "2022PRE" == SeasonsToCache[3];
    var c1 := BackfillRun(c, api, SeasonsToCache, thisYear, thisWeek);
    BackfillFrame(c, api, SeasonsToCache, thisYear, thisWeek);
    assert thisWeek in WeekRange(OddsFeed, "2022PRE", thisYear, thisWeek);
    BackfillRefetch(c1, api, SeasonsToCache, thisYear, thisWeek, 3);
  }

  /** The requests `c'` adds to `c` are all odds requests (or all scores requests) of `season`. */
  ghost predicate AppendsOnly(c: Cache, c': Cache, season: string, odds: bool)
  {
    && c.calls <= c'.calls
    && forall i :: |c.calls| <= i < |c'.calls| ==>
         (if odds then c'.calls[i].OddsRequest? else c'.calls[i].ScoresRequest?) && c'.calls[i].season == season
  }

  lemma {:induction false} OddsChecksAppendsOnly(c: Cache, api: Api, season: string, weeks: seq<int>, thisYear: int, thisWeek: int)
    requires ValidApi(api)
    ensures AppendsOnly(c, OddsChecks(c, api, season, weeks, thisYear, thisWeek), season, true)
    decreases |weeks|
  {
    if weeks != [] {
      var before := OddsChecks(c, api, season, weeks[..|weeks| - 1], thisYear, thisWeek);
      OddsChecksAppendsOnly(c, api, season, weeks[..|weeks| - 1], thisYear, thisWeek);
      OddsRunFrame(before, api, season, thisYear, thisWeek);
    }
  }

  lemma {:induction false} ScoresChecksAppendsOnly(c: Cache, api: Api, season: string, weeks: seq<int>, thisYear: int, thisWeek: int)
    ensures AppendsOnly(c, ScoresChecks(c, api, season, weeks, thisYear, thisWeek), season, false)
    decreases |weeks|
  {
    if weeks != [] {
      var before := ScoresChecks(c, api, season, weeks[..|weeks| - 1], thisYear, thisWeek);
      ScoresChecksAppendsOnly(c, api, season, weeks[..|weeks| - 1], thisYear, thisWeek);
      ScoresRunFrame(before, api, season, thisYear, thisWeek);
    }
  }

  /** Every request from index `from` on is an odds or scores request of `season`. */
  ghost predicate SeasonDataFrom(calls: seq<Request>, from: int, season: string)
  {
    forall i :: 0 <= from <= i < |calls| ==> calls[i].season == season && !calls[i].ScheduleRequest?
  }

  lemma OddsThenScores(a: Cache, b: Cache, d: Cache, season: string)
    requires AppendsOnly(a, b, season, true) && AppendsOnly(b, d, season, false)
    ensures a.calls <= d.calls && SeasonDataFrom(d.calls, |a.calls|, season)
  {
    forall i | |a.calls| <= i < |d.calls|
      ensures d.calls[i].season == season && !d.calls[i].ScheduleRequest?
    {
      if i < |b.calls| {
        assert d.calls[i] == b.calls[i];
      }
    }
  }

  /** The backfill of one season requests its schedule exactly when the
      schedule file is missing, and then as its first request; every other
      request is an odds or scores request of that season. */
  lemma BackfillSeasonRequests(c: Cache, api: Api, season: string, thisYear: int, thisWeek: int)
    requires ValidApi(api)
    ensures var c' := BackfillSeason(c, api, season, thisYear, thisWeek);
            && c.calls <= c'.calls
            && (ScheduleFile(season) in c.files ==> SeasonDataFrom(c'.calls, |c.calls|, season))
            && (ScheduleFile(season) !in c.files ==>
                  |c'.calls| > |c.calls| && c'.calls[|c.calls|] == ScheduleRequest(season)
                  && SeasonDataFrom(c'.calls, |c.calls| + 1, season))
  {
    var withSchedule := if ScheduleFile(season) in c.files then c else ScheduleRun(c, api, season);
    var weeks := WeekRange(BackfillFeed, season, thisYear, thisWeek);
    var afterOdds := OddsChecks(withSchedule, api, season, weeks, thisYear, thisWeek);
    var c' := ScoresChecks(afterOdds, api, season, weeks, thisYear, thisWeek);
    assert c' == BackfillSeason(c, api, season, thisYear, thisWeek);
    OddsChecksAppendsOnly(withSchedule, api, season, weeks, thisYear, thisWeek);
    ScoresChecksAppendsOnly(afterOdds, api, season, weeks, thisYear, thisWeek);
    OddsThenScores(withSchedule, afterOdds, c', season);
    if ScheduleFile(season) !in c.files {
      assert withSchedule.calls == c.calls + [ScheduleRequest(season)];
      assert c'.calls[|c.calls|] == withSchedule.calls[|c.calls|];
    }
  }
}
