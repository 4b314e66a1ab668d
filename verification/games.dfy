/** One game record as the odds endpoint returns it, and the "covered the
    spread" rule (`is_game_finished`, `compute_covered_team` and the
    "Pending" wrapper around them). */
module Games {
  import opened Wrappers

  /** The twelve columns of a sportsbook quote that the cache keeps. */
  datatype Quote = Quote(
    sportsbook: string,
    homeMoneyLine: Option<int>,
    awayMoneyLine: Option<int>,
    drawMoneyLine: Option<int>,
    homePointSpread: Option<real>,
    awayPointSpread: Option<real>,
    homePointSpreadPayout: Option<int>,
    awayPointSpreadPayout: Option<int>,
    overUnder: Option<real>,
    overPayout: Option<int>,
    underPayout: Option<int>,
    oddType: Option<string>)

  /** A quote as delivered: the twelve kept columns plus every other column
      (identifiers, timestamps, links), by name. */
  datatype RawQuote = RawQuote(kept: Quote, otherColumns: map<string, string>)

  /** A game of one week. Scores are null until known, the status may be absent. */
  datatype Game = Game(
    homeTeamName: string,
    awayTeamName: string,
    homeTeamScore: Option<int>,
    awayTeamScore: Option<int>,
    status: Option<string>,
    pregameOdds: seq<RawQuote>)

  /** The value of the `CoveredTeam` column: a team name, "Push", "No Data" or "Pending". */
  datatype Cover = HomeCovered(home: string) | AwayCovered(away: string) | Push | NoData | Pending

  const ConsensusBook := "Consensus"

  predicate IsConsensus(q: RawQuote)
  {
    q.kept.sportsbook == ConsensusBook
  }

  /** `is_game_finished`: only the status "Final" counts; a missing status does not. */
  function IsGameFinished(g: Game): (finished: bool)
    ensures finished <==> g.status.Some? && g.status.value == "Final"
  {
    g.status == Some("Final")
  }

  /** The home spread of the first Consensus quote, or null when there is none
      (or when that quote has no home spread). */
  function FirstConsensusSpread(quotes: seq<RawQuote>): Option<real>
  {
    if quotes == [] then None
    else if IsConsensus(quotes[0]) then quotes[0].kept.homePointSpread
    else FirstConsensusSpread(quotes[1..])
  }

  /** The search loop of `compute_covered_team`: scan the quotes in order and
      stop at the first Consensus one. */
  method FindConsensusSpread(quotes: seq<RawQuote>) returns (spread: Option<real>)
    ensures spread == FirstConsensusSpread(quotes)
  {
    spread := None;
    var k := 0;
    while k < |quotes|
      invariant 0 <= k <= |quotes|
      invariant FirstConsensusSpread(quotes[k..]) == FirstConsensusSpread(quotes)
    {
      if IsConsensus(quotes[k]) {
        spread := quotes[k].kept.homePointSpread;
        break;
      }
      assert quotes[k..][1..] == quotes[k + 1..];
      k := k + 1;
    }
  }

  /** Only the first Consensus quote matters: quotes of other books, anywhere,
      and anything after the first Consensus quote are ignored. */
  lemma {:induction false} FirstConsensusSpreadIgnoresOthers(before: seq<RawQuote>, q: RawQuote, after: seq<RawQuote>)
    requires forall i :: 0 <= i < |before| ==> !IsConsensus(before[i])
    requires IsConsensus(q)
    ensures FirstConsensusSpread(before + [q] + after) == q.kept.homePointSpread
  {
    if before != [] {
      assert (before + [q] + after)[1..] == before[1..] + [q] + after;
      FirstConsensusSpreadIgnoresOthers(before[1..], q, after);
    }
  }

  /** With no Consensus quote there is no spread. */
  lemma {:induction false} NoConsensusNoSpread(quotes: seq<RawQuote>)
    requires forall i :: 0 <= i < |quotes| ==> !IsConsensus(quotes[i])
    ensures FirstConsensusSpread(quotes) == None
  {
    if quotes != [] {
      assert forall i :: 0 <= i < |quotes[1..]| ==> quotes[1..][i] == quotes[i + 1];
      NoConsensusNoSpread(quotes[1..]);
    }
  }

  /** Quote `i` is a Consensus quote and none before it is. */
  predicate FirstConsensusAt(quotes: seq<RawQuote>, i: int)
  {
    0 <= i < |quotes| && IsConsensus(quotes[i]) && forall j :: 0 <= j < i ==> !IsConsensus(quotes[j])
  }

  /** The spread used is that of the earliest Consensus quote. */
  lemma FirstConsensusSpreadIsFirst(quotes: seq<RawQuote>, i: int)
    requires FirstConsensusAt(quotes, i)
    ensures FirstConsensusSpread(quotes) == quotes[i].kept.homePointSpread
  {
    assert quotes == quotes[..i] + [quotes[i]] + quotes[i + 1..];
    FirstConsensusSpreadIgnoresOthers(quotes[..i], quotes[i], quotes[i + 1..]);
  }

  /** Whether the home side made up its spread; "No Data" when the spread or a score is null. */
  predicate HasLine(g: Game)
  {
    FirstConsensusSpread(g.pregameOdds).Some? && g.homeTeamScore.Some? && g.awayTeamScore.Some?
  }

  function AdjustedHomeScore(g: Game): real
    requires HasLine(g)
  {
    g.homeTeamScore.value as real + FirstConsensusSpread(g.pregameOdds).value
  }

  /** `compute_covered_team`: "No Data" when the Consensus spread or either
      score is null, otherwise the side whose spread-adjusted score is ahead,
      or "Push" on a tie. */
  function CoveredTeam(g: Game): (c: Cover)
    ensures c == NoData <==> !HasLine(g)
    ensures c.HomeCovered? <==> HasLine(g) && AdjustedHomeScore(g) > g.awayTeamScore.value as real
    ensures c.AwayCovered? <==> HasLine(g) && AdjustedHomeScore(g) < g.awayTeamScore.value as real
    ensures c == Push <==> HasLine(g) && AdjustedHomeScore(g) == g.awayTeamScore.value as real
    ensures c.HomeCovered? ==> c.home == g.homeTeamName
    ensures c.AwayCovered? ==> c.away == g.awayTeamName
  {
    var spread := FirstConsensusSpread(g.pregameOdds);
    if spread.None? || g.homeTeamScore.None? || g.awayTeamScore.None? then NoData
    else
      var adjustedHome := g.homeTeamScore.value as real + spread.value;
      if adjustedHome > g.awayTeamScore.value as real then HomeCovered(g.homeTeamName)
      else if adjustedHome < g.awayTeamScore.value as real then AwayCovered(g.awayTeamName)
      else Push
  }

  /** `compute_covered_team` as the script runs it: the search loop, then the comparison. */
  method ComputeCoveredTeam(g: Game) returns (c: Cover)
    ensures c == CoveredTeam(g)
  {
    var spread := FindConsensusSpread(g.pregameOdds);
    if spread.None? || g.homeTeamScore.None? || g.awayTeamScore.None? {
      return NoData;
    }
    var adjustedHome := g.homeTeamScore.value as real + spread.value;
    if adjustedHome > g.awayTeamScore.value as real {
      c := HomeCovered(g.homeTeamName);
    } else if adjustedHome < g.awayTeamScore.value as real {
      c := AwayCovered(g.awayTeamName);
    } else {
      c := Push;
    }
  }

  function NegateSpread(s: Option<real>): Option<real>
  {
    if s.None? then None else Some(-s.value)
  }

  /** The same verdict seen from the other bench. */
  function Mirror(c: Cover): Cover
  {
    match c
    case HomeCovered(t) => AwayCovered(t)
    case AwayCovered(t) => HomeCovered(t)
    case other => other
  }

  /** The rule treats both sides alike: the team whose own score plus its own
      spread (the away spread being the negated home spread) is higher covers.
      Swapping the sides and negating the Consensus spread mirrors the verdict. */
  lemma CoveredTeamMirror(g: Game, swapped: Game)
    requires swapped.homeTeamName == g.awayTeamName && swapped.awayTeamName == g.homeTeamName
    requires swapped.homeTeamScore == g.awayTeamScore && swapped.awayTeamScore == g.homeTeamScore
    requires FirstConsensusSpread(swapped.pregameOdds) == NegateSpread(FirstConsensusSpread(g.pregameOdds))
    ensures CoveredTeam(swapped) == Mirror(CoveredTeam(g))
  {
  }

  /** 20-17 with the home side giving 3.5 points: 16.5 < 17, the away side covers. */
  lemma AwayCoversScenario(home: string, away: string, line: Quote, others: map<string, string>)
    requires line.sportsbook == ConsensusBook && line.homePointSpread == Some(-3.5)
    ensures CoveredTeam(Game(home, away, Some(20), Some(17), Some("Final"), [RawQuote(line, others)]))
            == AwayCovered(away)
  {
  }

  /** 20-20 with a pick'em line is a push. */
  lemma PushScenario(home: string, away: string, line: Quote, others: map<string, string>)
    requires line.sportsbook == ConsensusBook && line.homePointSpread == Some(0.0)
    ensures CoveredTeam(Game(home, away, Some(20), Some(20), Some("Final"), [RawQuote(line, others)]))
            == Push
  {
  }

  /** The value of the `CoveredTeam` column: the covered team of a finished
      game, "Pending" for any other. */
  function CoveredOrPending(g: Game): (c: Cover)
    ensures c == Pending <==> !IsGameFinished(g)
    ensures IsGameFinished(g) ==> c == CoveredTeam(g)
  {
    if IsGameFinished(g) then CoveredTeam(g) else Pending
  }
}
