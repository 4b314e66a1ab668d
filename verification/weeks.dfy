/** Which weeks each cache routine requests for a season token such as
    "2023PRE", "2022POST" or "2024REG". */
module WeekRanges {
  import opened Text

  /** Python's `range(lo, hi)`. */
  function Range(lo: int, hi: int): (r: seq<int>)
    ensures |r| == if lo < hi then hi - lo else 0
    ensures forall k :: 0 <= k < |r| ==> r[k] == lo + k
    decreases hi - lo
  {
    if lo >= hi then [] else [lo] + Range(lo + 1, hi)
  }

  /** The three routines that choose a week range. */
  datatype Feed = OddsFeed | ScoresFeed | BackfillFeed

  predicate IsPreseason(season: string) { Contains(season, "PRE") }
  predicate IsPostseason(season: string) { !Contains(season, "PRE") && Contains(season, "POST") }
  predicate IsRegular(season: string) { !Contains(season, "PRE") && !Contains(season, "POST") }

  /** A regular season is live when the current season year occurs in its token. */
  predicate IsLiveRegular(season: string, thisYear: int)
  {
    IsRegular(season) && Contains(season, IntToString(thisYear))
  }

  /** The week range of each routine: PRE is tested before POST; a live
      regular season stops at the current week for odds and just before it for
      scores; backfill never looks at the current season. */
  function WeekRange(feed: Feed, season: string, thisYear: int, thisWeek: int): (weeks: seq<int>)
    ensures forall i, j :: 0 <= i < j < |weeks| ==> weeks[i] < weeks[j]
    ensures IsPreseason(season) ==> forall w :: w in weeks <==> 0 <= w <= 3
    ensures IsPostseason(season) ==> forall w :: w in weeks <==> 1 <= w <= 4
    ensures IsLiveRegular(season, thisYear) && feed == OddsFeed ==> forall w :: w in weeks <==> 1 <= w <= thisWeek
    ensures IsLiveRegular(season, thisYear) && feed == ScoresFeed ==> forall w :: w in weeks <==> 1 <= w < thisWeek
    ensures IsRegular(season) && (feed == BackfillFeed || !IsLiveRegular(season, thisYear)) ==>
              forall w :: w in weeks <==> 1 <= w <= 17
  {
    var weeks :=
      if Contains(season, "PRE") then Range(0, 4)
      else if Contains(season, "POST") then Range(1, 5)
      else if feed != BackfillFeed && Contains(season, IntToString(thisYear)) then
        (if feed == OddsFeed then Range(1, thisWeek + 1) else Range(1, thisWeek))
      else Range(1, 18);
    RangeMembers(weeks);
    weeks
  }

  /** A `range` is ascending and holds exactly the integers between its bounds. */
  lemma RangeMembers(r: seq<int>)
    requires exists lo, hi :: r == Range(lo, hi)
    ensures forall i, j :: 0 <= i < j < |r| ==> r[i] < r[j]
    ensures r != [] ==> forall w :: w in r <==> r[0] <= w <= r[|r| - 1]
  {
    var lo, hi :| r == Range(lo, hi);
    if r != [] {
      forall w | r[0] <= w <= r[|r| - 1] ensures w in r {
        assert r[w - lo] == w;
      }
    }
  }

  /** In the live regular season the scores range is the odds range without
      its last week, the current one. */
  lemma ScoresStopBeforeCurrentWeek(season: string, thisYear: int, thisWeek: int)
    requires IsLiveRegular(season, thisYear) && thisWeek >= 1
    ensures var odds := WeekRange(OddsFeed, season, thisYear, thisWeek);
            && odds != [] && odds[|odds| - 1] == thisWeek
            && WeekRange(ScoresFeed, season, thisYear, thisWeek) == odds[..|odds| - 1]
  {
    var odds := WeekRange(OddsFeed, season, thisYear, thisWeek);
    var scores := WeekRange(ScoresFeed, season, thisYear, thisWeek);
    assert odds == Range(1, thisWeek + 1) && scores == Range(1, thisWeek);
    assert |scores| == |odds[..|odds| - 1]|;
  }

  /** Outside the live regular season every routine requests the same weeks. */
  lemma PastSeasonRangesAgree(season: string, thisYear: int, thisWeek: int)
    requires !IsLiveRegular(season, thisYear)
    ensures WeekRange(OddsFeed, season, thisYear, thisWeek) == WeekRange(BackfillFeed, season, thisYear, thisWeek)
    ensures WeekRange(ScoresFeed, season, thisYear, thisWeek) == WeekRange(BackfillFeed, season, thisYear, thisWeek)
  {
  }

  lemma PreseasonExample(thisYear: int, thisWeek: int)
    ensures WeekRange(OddsFeed, "2024PRE", thisYear, thisWeek) == [0, 1, 2, 3]
  {
    assert Contains("2024PRE", "PRE") by {
      assert "2024PRE"[4..] == "PRE";
    }
  }

  lemma PostseasonExample(thisYear: int, thisWeek: int)
    ensures WeekRange(ScoresFeed, "2022POST", thisYear, thisWeek) == [1, 2, 3, 4]
  {
    MissingCharNotContained("2022POST", "PRE", 1);
    assert Contains("2022POST", "POST") by {
      assert "2022POST"[4..] == "POST";
    }
  }

  lemma PastRegularExample(thisWeek: int)
    ensures WeekRange(OddsFeed, "2022REG", 2024, thisWeek) == Range(1, 18)
  {
    MissingCharNotContained("2022REG", "PRE", 0);
    MissingCharNotContained("2022REG", "POST", 0);
    assert IntToString(2024) == "2024";
    MissingCharNotContained("2022REG", "2024", 3);
  }
}
