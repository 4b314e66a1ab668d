# NFL odds cache — a Dafny model

`cache_data.py` is a script that pulls NFL schedules, scores and betting odds
from the sportsdata.io statistics API and caches them as files. Once the
network, pandas and the file system are abstracted away, it is a set of
deterministic decision rules, and this project models those rules and proves
properties of them:

- the against-the-spread verdict of a game (`compute_covered_team`,
  `is_game_finished`, the "Pending" column);
- the odds flattening: each game's bookmaker quotes are filtered to six books
  and twelve columns, then attached to the game by position;
- the week ranges each routine requests for a season token such as `2023PRE`,
  `2022POST` or `2024REG`;
- the three cache writers (odds, scores, schedule) and where each answer is
  written, including the `current_week.csv` slot;
- the ten-week against-the-spread summary walk (`cache_ats_data`), including
  its fall back from the regular season to the preseason;
- the backfill of past seasons (`cache_old_data`), driven by which files
  already exist;
- the calendar fallbacks used when the current-season and current-week
  endpoints fail.

## Layout

| file | module | content |
|---|---|---|
| `wrappers.dfy` | `Wrappers` | `Option` |
| `text.dfy` | `Text` | Python's substring test `in`, `endswith`, `str(int)` |
| `games.dfy` | `Games` | quotes, games, the covered-team rule |
| `flatten.dfy` | `Flatten` | odds retention and the flattened week |
| `weeks.dfy` | `WeekRanges` | the week-range policy |
| `calendar.dfy` | `Calendar` | the season-year and week fallbacks |
| `store.dfy` | `Store` | paths, file contents, requests, the API's answers |
| `writers.dfy` | `Writers` | `cache_odds_data`, `cache_scores_data`, `cache_schedule_data` |
| `ats.dfy` | `Ats` | `cache_ats_data` |
| `backfill.dfy` | `Backfill` | `cache_old_data` |

How the script's state is modelled:

- **The cache.** The cache directories and the log of API requests form one
  value, `Store.Cache(files, calls)`.
  - `files` maps each path (a `Path` datatype, one constructor per file name
    pattern) to its content.
  - `calls` lists every request sent, in order.
  - Each routine is a method that takes the cache and returns the new one.
- **The API.** It is a fixed table of answers, `Store.Api`. A key with no
  entry stands for a non-200 response.
- **Specification functions.** Each cache routine and each loop method is
  proved equal to a function that folds over the weeks or seasons: `OddsRun`,
  `ScoresRun`, `AtsWalk`, `BackfillRun` and so on. The lemmas are proved about
  those functions. The calendar fallback methods `Calendar.FallbackCurrentWeek`
  and `Calendar.CurrentWeek` are the exception: their contract places today
  in the 7-day block their week numbers.
- **Loop structure.** The script's loops appear as `while` loops with
  invariants. Some loops are separate methods so that each proof stays small:
  - the week loops of the odds and scores writers are `Writers.FetchOddsWeeks`
    and `Writers.FetchScoresWeeks`;
  - the inner `for` loop of `cache_ats_data` is `Ats.WalkPass`;
  - the season loop of `cache_old_data` is `Backfill.CacheSeasons`. Its body is
    `Backfill.CacheSeason`, whose two week loops are `Backfill.CheckOddsWeeks`
    and `Backfill.CheckScoresWeeks`.
- **Spreads.** Spreads are `real`, so half points such as -3.5 are exact.
- **Dates.** A date is a day number counted from 1970-01-01, a Thursday. The
  caller supplies today's day number, its year and month, and the day number
  of 1 September.

## Where the code and its description differ

The model follows the code in each case below.

- **The preseason pass of the summary walk.**
  - The code scans `range(3, 3 - weeks_needed, -1)`, so with many weeks still
    needed it goes through week 0 and into negative weeks, which never have
    files. It does not stop at week 1.
  - `Ats.WeekTwoScenario` shows week 0 appearing in a summary.
  - `Ats.AtsWalkShape` bounds the preseason weeks by `k - 6 .. 3`, where `k`
    is the number of regular-season entries.
- **The `current_week.csv` slot.**
  - The odds writer sends every week equal to the current week to
    `current_week.csv`, whatever the season. This includes past seasons
    fetched by the backfill.
  - The dated file of that week is therefore never created, for any season.
    The backfill finds it missing and reruns the whole odds routine of that
    season on every run.
  - `Backfill.BackfillNeverSettles` proves this for the 2022 preseason
    whenever the current week is between 0 and 3. The idempotence that
    `Backfill.BackfillIdempotent` proves only applies once every file is
    present, and such a season never reaches that state.

## Model

| member | source | states |
|---|---|---|
| Games.IsGameFinished | cache_data.py:56-69 | a game is finished exactly when its status is present and equals "Final"; a missing status is not finished |
| Games.FindConsensusSpread | cache_data.py:90-94 | the search loop with `break` returns the home spread of the first Consensus quote, or null when there is none |
| Games.NoConsensusNoSpread | cache_data.py:88-94 | with no Consensus quote the spread stays null |
| Games.FirstConsensusSpreadIsFirst | cache_data.py:90-94 | when quote i is the earliest Consensus quote, the spread is quote i's home spread |
| Games.FirstConsensusSpreadIgnoresOthers | cache_data.py:90-94 | quotes of other books before the first Consensus quote, and every quote after it, never affect the spread |
| Games.CoveredTeam | cache_data.py:96-107 | "No Data" exactly when the Consensus spread or either score is null; otherwise home covers iff home score plus spread exceeds the away score, away covers iff it is smaller, "Push" iff they are equal; a verdict names that side's team |
| Games.ComputeCoveredTeam | cache_data.py:71-107 | the whole routine, search loop and comparison, returns the verdict `CoveredTeam` describes |
| Games.CoveredTeamMirror | cache_data.py:100-107 | the rule is symmetric: swapping the sides and negating the spread mirrors the verdict |
| Games.AwayCoversScenario | cache_data.py:100-105 | a 20-17 game with a home spread of -3.5 is covered by the away team |
| Games.PushScenario | cache_data.py:100-107 | a 20-20 game with a spread of 0 is a push |
| Games.CoveredOrPending | cache_data.py:161-165 | the column is "Pending" exactly when the game is not finished, and the covered-team verdict when it is |
| Flatten.RetainOdds | cache_data.py:145-151 | a game keeps at most as many quotes as it has, all from the six accepted books |
| Flatten.RetainOddsMembers | cache_data.py:140-148 | a quote is kept iff it is the twelve-column projection of one of the game's quotes from an accepted book |
| Flatten.RetainOddsAppend | cache_data.py:145-153 | retention works quote by quote and keeps the original order: the kept quotes of a concatenation are the concatenation of the kept quotes |
| Flatten.RetainOddsSingle | cache_data.py:146-148 | one quote is kept, projected to the twelve columns, exactly when its book is accepted |
| Flatten.FlattenedWeek | cache_data.py:137-165 | a flattened week has one row per game |
| Flatten.FlattenedWeekRows | cache_data.py:137-165 | row i carries game i's columns, game i's own kept quotes (null when it kept none), and game i's covered-team column |
| Flatten.CoveredColumn | cache_data.py:161-165 | the covered-team column holds, for each game in order, its verdict when it is finished and "Pending" otherwise |
| Flatten.FlattenWeek | cache_data.py:137-165 | the collection loop, the lone-game assignment or left merge, and the covered-team column together produce `FlattenedWeek` |
| Text.ContainsAt | cache_data.py:123-128 | the substring test holds exactly when the token occurs at some position of the season string |
| Text.EndsWithConcat | cache_data.py:261-264 | `endswith` holds exactly when the string is some prefix followed by the suffix |
| Text.NatToStringDigits | cache_data.py:128 | the decimal notation of a natural number is a non-empty string of digits with no leading zero, and reading it back gives the number |
| Text.IntToStringDigits | cache_data.py:128 | `str` of an integer starts with a minus sign exactly when the integer is negative, and the digits after it read back as its magnitude |
| WeekRanges.WeekRange | cache_data.py:123-131 | the weeks ascend; PRE (tested first) gives 0..3, POST gives 1..4; a live regular season gives 1..current week for odds and 1..current week - 1 for scores; any other regular season, and every regular season in the backfill, gives 1..17 |
| WeekRanges.ScoresStopBeforeCurrentWeek | cache_data.py:184-192 | in the live regular season the scores range is the odds range without its last week, which is the current week |
| WeekRanges.PastSeasonRangesAgree | cache_data.py:287-292 | outside the live regular season the odds, scores and backfill ranges coincide |
| WeekRanges.PreseasonExample | cache_data.py:123-124 | "2024PRE" requests weeks 0, 1, 2, 3 |
| WeekRanges.PostseasonExample | cache_data.py:184-187 | "2022POST" requests scores for weeks 1, 2, 3, 4 |
| WeekRanges.PastRegularExample | cache_data.py:127-131 | in 2024, "2022REG" requests odds for weeks 1 to 17 |
| Calendar.FirstThursdayFrom | cache_data.py:48-51 | the season start is a Thursday within six days on or after 1 September, and no earlier day of that span is a Thursday |
| Calendar.SeasonStart | cache_data.py:49-51 | the day-by-day loop stops at that first Thursday |
| Calendar.FallbackCurrentWeek | cache_data.py:45-54 | today falls in the 7-day block numbered by the week; the week is 0 or less exactly before the season start, and 1 exactly during its first seven days |
| Calendar.CurrentWeek | cache_data.py:38-54 | the endpoint's week when it answers, the calendar fallback otherwise |
| Calendar.FallbackSeasonYear | cache_data.py:26-30 | the season year is this year from February on, and last year in January |
| Calendar.CurrentSeasonYear | cache_data.py:20-30 | the endpoint's year when it answers, the fallback otherwise |
| Writers.OddsPath | cache_data.py:169-172 | an odds week is written to `current_week.csv` exactly when it is the current week, and to its dated file otherwise |
| Writers.OddsRequests | cache_data.py:133-134 | one odds request per week, in the range's order |
| Writers.OddsFoldAt | cache_data.py:133-174 | after the odds loop, each path holds the flattened week that was last written to it, and a path no successful week is written to is untouched |
| Writers.FetchOddsWeeks | cache_data.py:133-174 | the odds loop appends one request per week and leaves the files `OddsFold` describes |
| Writers.CacheOdds | cache_data.py:115-174 | the whole routine, range choice and loop, performs `OddsRun` |
| Writers.OddsRunWrites | cache_data.py:133-174 | requests are appended in week order; a successful week other than the current one lands in its dated file and the current week in `current_week.csv`; a failed week writes nothing and nothing else changes |
| Writers.OddsRunSkipsCurrentWeekFile | cache_data.py:169-172 | the odds routine never creates or removes the dated file of the current week, in any season |
| Writers.ScoresRequests | cache_data.py:194-195 | one scores request per week, in the range's order |
| Writers.ScoresFoldAt | cache_data.py:194-202 | after the scores loop, the dated scores file of each successful week holds its payload, and every other path is untouched |
| Writers.FetchScoresWeeks | cache_data.py:194-202 | the scores loop appends one request per week and leaves the files `ScoresFold` describes |
| Writers.CacheScores | cache_data.py:176-202 | the whole routine, range choice and loop, performs `ScoresRun` |
| Writers.ScheduleRun | cache_data.py:212-219 | one request; on success the schedule file holds the payload; nothing else changes |
| Writers.CacheSchedule | cache_data.py:204-219 | the schedule routine performs `ScheduleRun` |
| Ats.Summaries | cache_data.py:248 | each row of a week's sheet becomes one result with its home team, away team and covered team, in row order |
| Ats.ProbeWeekCases | cache_data.py:238-245 | a week is skipped exactly when its dated file is missing and it is not the current week; a dated file is read when present; a read fails exactly on a file that is not an odds sheet, or for the current week with neither file |
| Ats.ScanAtMost | cache_data.py:237-257 | one pass never collects more weeks than are still needed |
| Ats.ScanFacts | cache_data.py:237-257 | one pass collects at most the weeks still needed, of its own type, inside its window, newest first, each with its file's results; a pass as long as its window misses no readable week and fails exactly when a week cannot be read |
| Ats.PreseasonOfType | cache_data.py:259-265 | the preseason token of a year ends with "PRE" and not with "REG", so after the switch the next short pass ends the walk |
| Ats.AtsWalkAtMostTen | cache_data.py:230-266 | the summary holds at most ten weeks |
| Ats.AtsWalkFirstOnly | cache_data.py:230-265 | when the first pass fills the ten weeks or the type is not a regular season, the summary is that first pass |
| Ats.AtsWalkTwoPass | cache_data.py:230-266 | otherwise the summary is the first pass followed by a preseason pass from week 3 down over the weeks still needed |
| Ats.AtsWalkShape | cache_data.py:230-266 | the summary lists weeks of the starting type first, newest first, from the ten weeks ending at the current week; after a regular season it lists weeks of the same year's preseason, newest first, from week 3 down; no readable week inside either window is missed |
| Ats.AtsWalkFails | cache_data.py:238-245 | the walk fails only when some week in one of its windows cannot be read: a file that is not an odds sheet, or the current week with `current_week.csv` missing |
| Ats.ScanSkipsAll | cache_data.py:237-243 | a window whose weeks are all missing and not the current week yields nothing |
| Ats.WeekTwoScenario | cache_data.py:259-266 | in week 2 of a regular season with weeks 1-2 and preseason weeks 0-3 on disk, the summary holds regular weeks 2, 1, then preseason weeks 3, 2, 1, 0 |
| Ats.WalkPass | cache_data.py:237-257 | the inner loop with `continue` and `break` computes one pass exactly as `Scan` describes, failing when a read fails |
| Ats.CacheAts | cache_data.py:221-269 | the walk terminates; on success it writes the summary `AtsWalk` describes to the summary file and changes nothing else; a failed read leaves the cache unchanged |
| Backfill.CheckOddsWeeks | cache_data.py:294-298 | for each week in order, the whole odds routine of the season runs exactly when that week's dated odds file is missing at that moment |
| Backfill.CheckScoresWeeks | cache_data.py:301-305 | the same for the scores routine and the dated scores files |
| Backfill.CacheSeason | cache_data.py:280-305 | one season of the backfill: the schedule only when its file is missing, then the odds checks, then the scores checks, as `BackfillSeason` describes |
| Backfill.CacheSeasons | cache_data.py:279-305 | the season loop runs the backfill of each season in order, as `BackfillRun` describes |
| Backfill.CacheOldData | cache_data.py:271-305 | the backfill of the four listed seasons, in order, as `BackfillRun` describes |
| Backfill.OddsChecksAllPresent | cache_data.py:294-298 | when every dated odds file of the range exists, the odds checks change nothing |
| Backfill.ScoresChecksAllPresent | cache_data.py:301-305 | when every dated scores file of the range exists, the scores checks change nothing |
| Backfill.BackfillIdempotent | cache_data.py:277-305 | when every schedule, odds and scores file of the listed seasons exists, the backfill makes no request and changes no file |
| Backfill.OddsRunFrame | cache_data.py:133-174 | the odds routine appends exactly one request per week of its range, keeps every existing file, and never changes whether a dated file of the current week exists |
| Backfill.ScoresRunFrame | cache_data.py:194-202 | the scores routine appends requests, keeps every existing file, and never changes whether a dated odds file of the current week exists |
| Backfill.OddsChecksFrame | cache_data.py:294-298 | the odds checks only append requests and add files, and never create a dated odds file of the current week |
| Backfill.ScoresChecksFrame | cache_data.py:301-305 | the same for the scores checks |
| Backfill.BackfillSeasonFrame | cache_data.py:279-305 | the backfill of one season only appends requests and adds files, and never creates a dated odds file of the current week |
| Backfill.BackfillFrame | cache_data.py:277-305 | the whole backfill only appends requests and adds files, and never creates a dated odds file of the current week |
| Backfill.OddsChecksStep | cache_data.py:294-298 | checking one more week never removes a request, and checking the current week while its dated odds file is missing sends requests |
| Backfill.OddsChecksRefetch | cache_data.py:294-298 | if the current week is in the range and its dated odds file is missing, the odds checks make requests |
| Backfill.BackfillSeasonRefetch | cache_data.py:286-298 | the same for one season of the backfill |
| Backfill.BackfillRefetch | cache_data.py:279-298 | a listed season whose backfill range holds the current week makes the backfill issue requests while that week's dated odds file is missing |
| Backfill.BackfillNeverSettles | cache_data.py:169-172 | with the current week between 0 and 3, the 2022 preseason's dated odds file of that week is still missing after a backfill, so the next backfill makes requests again |
| Backfill.OddsChecksAppendsOnly | cache_data.py:294-298 | the odds checks of a season append only odds requests of that season |
| Backfill.ScoresChecksAppendsOnly | cache_data.py:301-305 | the scores checks of a season append only scores requests of that season |
| Backfill.BackfillSeasonRequests | cache_data.py:280-305 | a season's schedule is requested exactly when its file is missing, and then first; every other request is an odds or scores request of that season |

## Left out

- HTTP, the endpoint URLs and the API key (`requests.get`). Each fetch is a lookup in the answer table `Store.Api`, and any non-200 status is an absent key. The API's own behaviour is outside this model.
- pandas and the CSV/JSON formats. A data frame is a sequence of records; a schedule or scores payload is stored as an opaque string.
- pandas null semantics beyond a nullable field (`Option`). Quote fields, scores, status and the attached quote list are `Option`s; NaN arithmetic is not modelled.
- Game columns other than the team names, the scores and the status are not modelled.
- The column drop of line 167 is not modelled, since it removes only API-internal ids and raw quote lists.
- The crashes of the flattening on malformed weeks are excluded by the precondition `Flatten.WeekFlattenable`. There are three:
  - an empty week, where the concatenation of no quote lists fails;
  - a game with an empty `PregameOdds` list, in a week of any size: its quotes become a frame with no `Sportsbook` column, and the book filter of line 146 fails on it;
  - a lone game that keeps no quote, whose first group is read by position.
- A quote without a `Sportsbook` field is not modelled either.
- Flatten.FlattenedWeek: in a week of several games where no game keeps any quote, the result depends on how pandas groups an empty frame; the model attaches null to every game, as the left merge does for a single game without quotes.
- `os.makedirs` and every `print` message: they create directories and log, with no effect on what is cached.
- `datetime.now()` and the Gregorian calendar. Today's day number, year and month, and the day number of 1 September, are parameters.
- The module-level evaluation of `THIS_YEAR` and `THIS_WEEK` at import and the second `fetch_current_week()` inside `cache_ats_data`. They are parameters (`thisYear`, `thisWeek`, `currentWeek`), and each can be given the value `Calendar.CurrentSeasonYear` / `Calendar.CurrentWeek` computes.
- Ats.CacheAts: requires a season type ending in `REG` or `PRE`, because the script itself only calls the walk with a regular season (line 323). With any other type, such as a `POST` season, the type never switches. After each pass that still falls short, line 266 recomputes `start_week` from the same `end_week` and the smaller `weeks_needed`, so the next pass rescans a shorter window and appends the same weeks again. For example, with POST weeks 1-4 on disk and current week 4, the summary collects weeks 4, 3, 2, 1, 4, 3, 2, 1, 4, 3 and the loop ends. It runs forever only once a pass finds no week at all.
- Ats.CacheAts: a failed read is modelled as the run ending without a summary. The script raises an exception there.
- The `__main__` driver (lines 308-325): it only calls the routines above in sequence.
