/** The odds flattening of `cache_odds_data`: each game's quotes are cut down
    to the allowed sportsbooks and the kept columns, attached to the game by
    position, and the covered-team column is added. */
module Flatten {
  import opened Wrappers
  import opened Games

  const AcceptedBooks: set<string> := {"Consensus", "DraftKings", "FanDuel", "PointsBet", "BetMGM", "Caesars"}

  predicate Accepted(q: RawQuote)
  {
    q.kept.sportsbook in AcceptedBooks
  }

  /** The quotes a game keeps: those of an accepted book, in their original
      order, with only the twelve kept columns. */
  function RetainOdds(quotes: seq<RawQuote>): (kept: seq<Quote>)
    ensures |kept| <= |quotes|
    ensures forall q :: q in kept ==> q.sportsbook in AcceptedBooks
  {
    if quotes == [] then []
    else (if Accepted(quotes[0]) then [quotes[0].kept] else []) + RetainOdds(quotes[1..])
  }

  /** Retention works quote by quote: the kept quotes of a concatenation are
      the kept quotes of each part, in order. */
  lemma {:induction false} RetainOddsAppend(a: seq<RawQuote>, b: seq<RawQuote>)
    ensures RetainOdds(a + b) == RetainOdds(a) + RetainOdds(b)
  {
    if a == [] {
      assert a + b == b;
    } else {
      assert (a + b)[1..] == a[1..] + b;
      RetainOddsAppend(a[1..], b);
    }
  }

  /** A single quote is kept, projected, exactly when its book is accepted. */
  lemma RetainOddsSingle(q: RawQuote)
    ensures RetainOdds([q]) == if Accepted(q) then [q.kept] else []
  {
    assert [q][1..] == [];
  }

  /** A quote is kept iff it is the projection of some quote of an accepted book. */
  lemma {:induction false} RetainOddsMembers(quotes: seq<RawQuote>, q: Quote)
    ensures q in RetainOdds(quotes) <==> exists i :: 0 <= i < |quotes| && Accepted(quotes[i]) && quotes[i].kept == q
  {
    if quotes != [] {
      RetainOddsMembers(quotes[1..], q);
      if exists i :: 0 <= i < |quotes[1..]| && Accepted(quotes[1..][i]) && quotes[1..][i].kept == q {
        var i :| 0 <= i < |quotes[1..]| && Accepted(quotes[1..][i]) && quotes[1..][i].kept == q;
        assert quotes[i + 1] == quotes[1..][i];
      }
      if exists i :: 0 <= i < |quotes| && Accepted(quotes[i]) && quotes[i].kept == q {
        var i :| 0 <= i < |quotes| && Accepted(quotes[i]) && quotes[i].kept == q;
        if i > 0 {
          assert quotes[1..][i - 1] == quotes[i];
        }
      }
    }
  }

  /** One row of an odds file: the game's columns, its kept quotes (null when
      it kept none) and its covered team. */
  datatype OddsRow = OddsRow(
    homeTeamName: string,
    awayTeamName: string,
    homeTeamScore: Option<int>,
    awayTeamScore: Option<int>,
    status: Option<string>,
    odds: Option<seq<Quote>>,
    coveredTeam: Cover)

  /** The shapes of a week the flattening goes through: at least one game
      (an empty week makes the concatenation of quote lists fail), every game
      has at least one quote (an empty list gives a frame with no
      `Sportsbook` column, and the book filter fails on it), and a lone game
      must keep at least one quote (its list is read by position). */
  predicate WeekFlattenable(games: seq<Game>)
  {
    && |games| >= 1
    && (forall i :: 0 <= i < |games| ==> games[i].pregameOdds != [])
    && (|games| == 1 ==> RetainOdds(games[0].pregameOdds) != [])
  }

  /** A kept-quote list as the left merge attaches it: a game with no kept
      quote has no group and gets a null value. */
  function Attached(kept: seq<Quote>): Option<seq<Quote>>
  {
    if kept == [] then None else Some(kept)
  }

  /** The flattened week: the rows built from each game's own columns. */
  function FlattenedWeek(games: seq<Game>): (rows: seq<OddsRow>)
    requires WeekFlattenable(games)
    ensures |rows| == |games|
  {
    seq(|games|, i requires 0 <= i < |games| =>
      var g := games[i];
      OddsRow(g.homeTeamName, g.awayTeamName, g.homeTeamScore, g.awayTeamScore, g.status,
              Attached(RetainOdds(g.pregameOdds)), CoveredOrPending(g)))
  }

  /** Game i becomes row i, carrying game i's columns, game i's own kept
      quotes (null when it kept none) and game i's covered team. */
  lemma FlattenedWeekRows(games: seq<Game>, i: int)
    requires WeekFlattenable(games) && 0 <= i < |games|
    ensures var row := FlattenedWeek(games)[i];
      && row.homeTeamName == games[i].homeTeamName
      && row.awayTeamName == games[i].awayTeamName
      && row.homeTeamScore == games[i].homeTeamScore
      && row.awayTeamScore == games[i].awayTeamScore
      && row.status == games[i].status
      && (row.odds.None? <==> RetainOdds(games[i].pregameOdds) == [])
      && (row.odds.Some? ==> row.odds.value == RetainOdds(games[i].pregameOdds))
      && row.coveredTeam == CoveredOrPending(games[i])
  {
  }

  /** The flattening as the script performs it: collect each game's kept
      quotes, attach them (directly for a lone game, by a left merge on the
      game's position otherwise), then compute the covered-team column. */
  method FlattenWeek(games: seq<Game>) returns (rows: seq<OddsRow>)
    requires WeekFlattenable(games)
    ensures rows == FlattenedWeek(games)
  {
    var keptLists: seq<seq<Quote>> := [];
    var i := 0;
    while i < |games|
      invariant 0 <= i <= |games|
      invariant |keptLists| == i
      invariant forall j :: 0 <= j < i ==> keptLists[j] == RetainOdds(games[j].pregameOdds)
    {
      keptLists := keptLists + [RetainOdds(games[i].pregameOdds)];
      i := i + 1;
    }
    var odds: seq<Option<seq<Quote>>>;
    if |games| == 1 {
      odds := [Some(keptLists[0])];
    } else {
      odds := seq(|games|, j requires 0 <= j < |games| => Attached(keptLists[j]));
    }
    var covered := CoveredColumn(games);
    rows := seq(|games|, j requires 0 <= j < |games| =>
      OddsRow(games[j].homeTeamName, games[j].awayTeamName, games[j].homeTeamScore, games[j].awayTeamScore,
              games[j].status, odds[j], covered[j]));
  }

  /** The `CoveredTeam` column: the covered team of each finished game,
      "Pending" for the others. */
  method CoveredColumn(games: seq<Game>) returns (column: seq<Cover>)
    ensures |column| == |games|
    ensures forall j :: 0 <= j < |games| ==> column[j] == CoveredOrPending(games[j])
  {
    column := [];
    var i := 0;
    while i < |games|
      invariant 0 <= i <= |games|
      invariant |column| == i
      invariant forall j :: 0 <= j < i ==> column[j] == CoveredOrPending(games[j])
    {
      var covered := Pending;
      if IsGameFinished(games[i]) {
        covered := ComputeCoveredTeam(games[i]);
      }
      column := column + [covered];
      i := i + 1;
    }
  }

}
