/** The persistent state of the cache script: the cache directories as a map
    from file to content, plus the log of requests sent to the statistics API,
    and the API itself as a fixed table of answers. */
module Store {
  import opened Games
  import opened Flatten

  /** The files the script reads and writes. */
  datatype Path =
    | ScheduleFile(season: string)             // schedule_data/{season}.csv
    | ScoresFile(season: string, week: int)    // scores_data/{season}_{week}.csv
    | OddsFile(season: string, week: int)      // odds_data/{season}_{week}.csv
    | OddsCurrentWeek                          // odds_data/current_week.csv
    | AtsSummaryFile                           // ats_data/ATS_last_10_weeks.json

  /** One game of a week in the against-the-spread summary. */
  datatype AtsResult = AtsResult(homeTeamName: string, awayTeamName: string, coveredTeam: Cover)

  /** One week of the summary. */
  datatype AtsEntry = AtsEntry(seasonType: string, week: int, results: seq<AtsResult>)

  datatype Content =
    | OddsSheet(rows: seq<OddsRow>)          // a flattened odds week
    | Table(payload: string)                 // a schedule or scores payload, stored as received
    | AtsJson(weeks: seq<AtsEntry>)          // the summary document

  /** A request sent to the API. */
  datatype Request =
    | ScheduleRequest(season: string)
    | ScoresRequest(season: string, week: int)
    | OddsRequest(season: string, week: int)

  /** The files on disk and every request made so far. */
  datatype Cache = Cache(files: map<Path, Content>, calls: seq<Request>)

  /** The API's answers: a request whose key is absent gets a non-200 status. */
  datatype Api = Api(
    odds: map<(string, int), seq<Game>>,
    scores: map<(string, int), string>,
    schedules: map<string, string>)

  /** Every odds payload the API can return has a shape the flattening accepts. */
  predicate ValidApi(api: Api)
  {
    forall key :: key in api.odds ==> WeekFlattenable(api.odds[key])
  }
}
