/** `cache_odds_data`, `cache_scores_data` and `cache_schedule_data`: fetch
    each week of the chosen range, write each successful answer, skip each
    failure and go on. */
module Writers {
  import opened Wrappers
  import opened Flatten
  import opened WeekRanges
  import opened Store

  /** Where an odds week is written: the current-week slot for any week equal
      to the current week, whatever the season, the dated file otherwise. */
  function OddsPath(season: string, week: int, thisWeek: int): (p: Path)
    ensures p == OddsCurrentWeek <==> week == thisWeek
    ensures p != OddsCurrentWeek ==> p == OddsFile(season, week)
  {
    if thisWeek != week then OddsFile(season, week) else OddsCurrentWeek
  }

  /** One iteration of the odds loop: a successful fetch writes one file. */
  function WriteOddsWeek(files: map<Path, Content>, api: Api, season: string, week: int, thisWeek: int): map<Path, Content>
    requires ValidApi(api)
  {
    if (season, week) in api.odds then
      files[OddsPath(season, week, thisWeek) := OddsSheet(FlattenedWeek(api.odds[(season, week)]))]
    else files
  }

  /** The files after the odds loop has run over `weeks` in order. */
  function OddsFold(files: map<Path, Content>, api: Api, season: string, weeks: seq<int>, thisWeek: int): map<Path, Content>
    requires ValidApi(api)
    decreases |weeks|
  {
    if weeks == [] then files
    else WriteOddsWeek(OddsFold(files, api, season, weeks[..|weeks| - 1], thisWeek), api, season, weeks[|weeks| - 1], thisWeek)
  }

  /** One odds request per week, in the order of `weeks`. */
  function OddsRequests(season: string, weeks: seq<int>): (calls: seq<Request>)
    ensures |calls| == |weeks|
    ensures forall i :: 0 <= i < |weeks| ==> calls[i] == OddsRequest(season, weeks[i])
    decreases |weeks|
  {
    if weeks == [] then [] else OddsRequests(season, weeks[..|weeks| - 1]) + [OddsRequest(season, weeks[|weeks| - 1])]
  }

  /** The whole of `cache_odds_data` for one season. */
  function OddsRun(c: Cache, api: Api, season: string, thisYear: int, thisWeek: int): Cache
    requires ValidApi(api)
  {
    var weeks := WeekRange(OddsFeed, season, thisYear, thisWeek);
    Cache(OddsFold(c.files, api, season, weeks, thisWeek), c.calls + OddsRequests(season, weeks))
  }

  /** The week whose successful fetch lands in `p`, if any does. */
  function OddsWeekWrittenTo(p: Path, api: Api, season: string, weeks: seq<int>, thisWeek: int): Option<int>
  {
    if p.OddsFile? && p.season == season && p.week in weeks && p.week != thisWeek && (season, p.week) in api.odds then Some(p.week)
    else if p == OddsCurrentWeek && thisWeek in weeks && (season, thisWeek) in api.odds then Some(thisWeek)
    else None
  }

  /** What the odds loop leaves in each file: a dated file for every fetched
      week other than the current one, the current-week slot if the current
      week was fetched, and every other file as it was. Order does not matter:
      each file only ever receives one week's data. */
  lemma {:induction false} OddsFoldAt(files: map<Path, Content>, api: Api, season: string, weeks: seq<int>, thisWeek: int, p: Path)
    requires ValidApi(api)
    ensures var out := OddsFold(files, api, season, weeks, thisWeek);
            match OddsWeekWrittenTo(p, api, season, weeks, thisWeek)
            case Some(w) => p in out && out[p] == OddsSheet(FlattenedWeek(api.odds[(season, w)]))
            case None => (p in out <==> p in files) && (p in files ==> out[p] == files[p])
    decreases |weeks|
  {
    if weeks != [] {
      var init := weeks[..|weeks| - 1];
      var last := weeks[|weeks| - 1];
      OddsFoldAt(files, api, season, init, thisWeek, p);
      assert weeks == init + [last];
      forall w ensures w in weeks <==> w in init || w == last {
      }
    }
  }

  /** The odds loop as the script runs it, over the weeks of the chosen range. */
  method FetchOddsWeeks(c: Cache, api: Api, season: string, weeks: seq<int>, thisWeek: int) returns (c': Cache)
    requires ValidApi(api)
    ensures c' == Cache(OddsFold(c.files, api, season, weeks, thisWeek), c.calls + OddsRequests(season, weeks))
  {
    var files := c.files;
    var calls := c.calls;
    var i := 0;
    while i < |weeks|
      invariant 0 <= i <= |weeks|
      invariant files == OddsFold(c.files, api, season, weeks[..i], thisWeek)
      invariant calls == c.calls + OddsRequests(season, weeks[..i])
    {
      var week := weeks[i];
      assert weeks[..i + 1][..i] == weeks[..i];
      calls := calls + [OddsRequest(season, week)];
      if (season, week) in api.odds {
        var rows := FlattenWeek(api.odds[(season, week)]);
        if thisWeek != week {
          files := files[OddsFile(season, week) := OddsSheet(rows)];
        } else {
          files := files[OddsCurrentWeek := OddsSheet(rows)];
        }
      }
      i := i + 1;
    }
    assert weeks[..i] == weeks;
    c' := Cache(files, calls);
  }

  /** `cache_odds_data`: choose the week range, then run the odds loop. */
  method CacheOdds(c: Cache, api: Api, season: string, thisYear: int, thisWeek: int) returns (c': Cache)
    requires ValidApi(api)
    ensures c' == OddsRun(c, api, season, thisYear, thisWeek)
  {
    var weeks := WeekRange(OddsFeed, season, thisYear, thisWeek);
    c' := FetchOddsWeeks(c, api, season, weeks, thisWeek);
  }

  /** The files after the scores loop has run over `weeks` in order. */
  function ScoresFold(files: map<Path, Content>, api: Api, season: string, weeks: seq<int>): map<Path, Content>
    decreases |weeks|
  {
    if weeks == [] then files
    else
      var before := ScoresFold(files, api, season, weeks[..|weeks| - 1]);
      var week := weeks[|weeks| - 1];
      if (season, week) in api.scores then before[ScoresFile(season, week) := Table(api.scores[(season, week)])]
      else before
  }

  /** One scores request per week, in the order of `weeks`. */
  function ScoresRequests(season: string, weeks: seq<int>): (calls: seq<Request>)
    ensures |calls| == |weeks|
    ensures forall i :: 0 <= i < |weeks| ==> calls[i] == ScoresRequest(season, weeks[i])
    decreases |weeks|
  {
    if weeks == [] then [] else ScoresRequests(season, weeks[..|weeks| - 1]) + [ScoresRequest(season, weeks[|weeks| - 1])]
  }

  /** The whole of `cache_scores_data` for one season. */
  function ScoresRun(c: Cache, api: Api, season: string, thisYear: int, thisWeek: int): Cache
  {
    var weeks := WeekRange(ScoresFeed, season, thisYear, thisWeek);
    Cache(ScoresFold(c.files, api, season, weeks), c.calls + ScoresRequests(season, weeks))
  }

  /** What the scores loop leaves in each file: the dated file of every
      fetched week holds that week's payload, every other file is unchanged. */
  lemma {:induction false} ScoresFoldAt(files: map<Path, Content>, api: Api, season: string, weeks: seq<int>, p: Path)
    ensures var out := ScoresFold(files, api, season, weeks);
            if p.ScoresFile? && p.season == season && p.week in weeks && (season, p.week) in api.scores then
              p in out && out[p] == Table(api.scores[(season, p.week)])
            else
              (p in out <==> p in files) && (p in files ==> out[p] == files[p])
    decreases |weeks|
  {
    if weeks != [] {
      var init := weeks[..|weeks| - 1];
      var last := weeks[|weeks| - 1];
      ScoresFoldAt(files, api, season, init, p);
      assert weeks == init + [last];
      forall w ensures w in weeks <==> w in init || w == last {
      }
    }
  }

  /** The scores loop as the script runs it, over the weeks of the chosen range. */
  method FetchScoresWeeks(c: Cache, api: Api, season: string, weeks: seq<int>) returns (c': Cache)
    ensures c' == Cache(ScoresFold(c.files, api, season, weeks), c.calls + ScoresRequests(season, weeks))
  {
    var files := c.files;
    var calls := c.calls;
    var i := 0;
    while i < |weeks|
      invariant 0 <= i <= |weeks|
      invariant files == ScoresFold(c.files, api, season, weeks[..i])
      invariant calls == c.calls + ScoresRequests(season, weeks[..i])
    {
      var week := weeks[i];
      assert weeks[..i + 1][..i] == weeks[..i];
      calls := calls + [ScoresRequest(season, week)];
      if (season, week) in api.scores {
        files := files[ScoresFile(season, week) := Table(api.scores[(season, week)])];
      }
      i := i + 1;
    }
    assert weeks[..i] == weeks;
    c' := Cache(files, calls);
  }

  /** `cache_scores_data`: choose the week range, then run the scores loop. */
  method CacheScores(c: Cache, api: Api, season: string, thisYear: int, thisWeek: int) returns (c': Cache)
    ensures c' == ScoresRun(c, api, season, thisYear, thisWeek)
  {
    var weeks := WeekRange(ScoresFeed, season, thisYear, thisWeek);
    c' := FetchScoresWeeks(c, api, season, weeks);
  }

  /** The whole of `cache_schedule_data`: one request, one file on success. */
  function ScheduleRun(c: Cache, api: Api, season: string): (c': Cache)
    ensures c'.calls == c.calls + [ScheduleRequest(season)]
    ensures season in api.schedules ==> ScheduleFile(season) in c'.files && c'.files[ScheduleFile(season)] == Table(api.schedules[season])
    ensures forall p :: p != ScheduleFile(season) || season !in api.schedules ==>
              (p in c'.files <==> p in c.files) && (p in c.files ==> c'.files[p] == c.files[p])
  {
    Cache(if season in api.schedules then c.files[ScheduleFile(season) := Table(api.schedules[season])] else c.files,
          c.calls + [ScheduleRequest(season)])
  }

  method CacheSchedule(c: Cache, api: Api, season: string) returns (c': Cache)
    ensures c' == ScheduleRun(c, api, season)
  {
    var files := c.files;
    if season in api.schedules {
      files := files[ScheduleFile(season) := Table(api.schedules[season])];
    }
    c' := Cache(files, c.calls + [ScheduleRequest(season)]);
  }

  /** A successful odds week is written to exactly one file, and that file is
      the current-week slot precisely when the week is the current week; a
      failed week writes nothing. One request is made per week, in order. */
  lemma OddsRunWrites(c: Cache, api: Api, season: string, thisYear: int, thisWeek: int, p: Path)
    requires ValidApi(api)
    ensures var weeks := WeekRange(OddsFeed, season, thisYear, thisWeek);
            var c' := OddsRun(c, api, season, thisYear, thisWeek);
            && |c'.calls| == |c.calls| + |weeks|
            && (forall i :: 0 <= i < |weeks| ==> c'.calls[|c.calls| + i] == OddsRequest(season, weeks[i]))
            && ((p.OddsFile? && p.season == season && p.week in weeks && p.week != thisWeek && (season, p.week) in api.odds)
                ==> p in c'.files && c'.files[p] == OddsSheet(FlattenedWeek(api.odds[(season, p.week)])))
            && ((p == OddsCurrentWeek && thisWeek in weeks && (season, thisWeek) in api.odds)
                ==> p in c'.files && c'.files[p] == OddsSheet(FlattenedWeek(api.odds[(season, thisWeek)])))
            && (OddsWeekWrittenTo(p, api, season, weeks, thisWeek).None?
                ==> (p in c'.files <==> p in c.files) && (p in c.files ==> c'.files[p] == c.files[p]))
  {
    OddsFoldAt(c.files, api, season, WeekRange(OddsFeed, season, thisYear, thisWeek), thisWeek, p);
  }

  /** The odds routine never writes the dated file of the current week, in any season. */
  lemma OddsRunSkipsCurrentWeekFile(c: Cache, api: Api, season: string, thisYear: int, thisWeek: int)
    requires ValidApi(api)
    ensures var c' := OddsRun(c, api, season, thisYear, thisWeek);
            (OddsFile(season, thisWeek) in c'.files <==> OddsFile(season, thisWeek) in c.files)
  {
    OddsFoldAt(c.files, api, season, WeekRange(OddsFeed, season, thisYear, thisWeek), thisWeek, OddsFile(season, thisWeek));
  }
}
