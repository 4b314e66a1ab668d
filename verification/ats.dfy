/** `cache_ats_data`: walk back from the current week collecting up to ten
    weeks of against-the-spread results from the odds files, falling back to
    the same year's preseason when the regular season is too short. */
module Ats {
  import opened Wrappers
  import opened Text
  import opened Flatten
  import opened Store

  const WindowSize: nat := 10

  /** What reading one week gives: nothing (the week is skipped), its results,
      or a failure (a file that is not an odds sheet, or a missing current-week slot). */
  datatype Probe = Skip | Found(results: seq<AtsResult>) | Unreadable

  /** The three columns the summary keeps from each row of an odds sheet. */
  function Summaries(rows: seq<OddsRow>): (results: seq<AtsResult>)
    ensures |results| == |rows|
    ensures forall i :: 0 <= i < |rows| ==>
              results[i] == AtsResult(rows[i].homeTeamName, rows[i].awayTeamName, rows[i].coveredTeam)
  {
    seq(|rows|, i requires 0 <= i < |rows| => AtsResult(rows[i].homeTeamName, rows[i].awayTeamName, rows[i].coveredTeam))
  }

  function ReadSheet(content: Content): Probe
  {
    if content.OddsSheet? then Found(Summaries(content.rows)) else Unreadable
  }

  /** One week of the walk: its dated file if present; otherwise the
      current-week slot when the week is the current week; otherwise skipped. */
  function ProbeWeek(files: map<Path, Content>, seasonType: string, week: int, thisWeek: int): Probe
  {
    if OddsFile(seasonType, week) in files then ReadSheet(files[OddsFile(seasonType, week)])
    else if thisWeek == week then
      (if OddsCurrentWeek in files then ReadSheet(files[OddsCurrentWeek]) else Unreadable)
    else Skip
  }

  /** A week is skipped exactly when it has no dated file and is not the
      current week; a dated file always wins over the current-week slot; a
      week fails only on a file that is not an odds sheet, or as the current
      week with neither file. */
  lemma ProbeWeekCases(files: map<Path, Content>, seasonType: string, week: int, thisWeek: int)
    ensures ProbeWeek(files, seasonType, week, thisWeek).Skip? <==> OddsFile(seasonType, week) !in files && week != thisWeek
    ensures OddsFile(seasonType, week) in files ==>
              ProbeWeek(files, seasonType, week, thisWeek) == ReadSheet(files[OddsFile(seasonType, week)])
    ensures ProbeWeek(files, seasonType, week, thisWeek).Unreadable? <==>
              || (OddsFile(seasonType, week) in files && !files[OddsFile(seasonType, week)].OddsSheet?)
              || (OddsFile(seasonType, week) !in files && week == thisWeek &&
                  (OddsCurrentWeek !in files || !files[OddsCurrentWeek].OddsSheet?))
  {
  }

  function Prepend(entries: seq<AtsEntry>, rest: Option<seq<AtsEntry>>): Option<seq<AtsEntry>>
  {
    if rest.None? then None else Some(entries + rest.value)
  }

  /** One pass of the inner loop: weeks `hi` down to `lo`, stopping once
      `needed` weeks have been collected; `None` when a read fails. */
  function Scan(files: map<Path, Content>, seasonType: string, hi: int, lo: int, needed: nat, thisWeek: int): Option<seq<AtsEntry>>
    decreases if hi < lo then 0 else hi - lo + 1
  {
    if hi < lo || needed == 0 then Some([])
    else match ProbeWeek(files, seasonType, hi, thisWeek)
      case Unreadable => None
      case Skip => Scan(files, seasonType, hi - 1, lo, needed, thisWeek)
      case Found(results) => Prepend([AtsEntry(seasonType, hi, results)], Scan(files, seasonType, hi - 1, lo, needed - 1, thisWeek))
  }

  /** A pass never collects more weeks than it still needs. */
  lemma {:induction false} ScanAtMost(files: map<Path, Content>, seasonType: string, hi: int, lo: int, needed: nat, thisWeek: int)
    ensures var r := Scan(files, seasonType, hi, lo, needed, thisWeek);
            r.Some? ==> |r.value| <= needed
    decreases if hi < lo then 0 else hi - lo + 1
  {
    if hi >= lo && needed > 0 {
      ScanAtMost(files, seasonType, hi - 1, lo, needed, thisWeek);
      ScanAtMost(files, seasonType, hi - 1, lo, needed - 1, thisWeek);
    }
  }

  function PreseasonOf(seasonYear: int): string
  {
    IntToString(seasonYear) + "PRE"
  }

  /** The preseason token of a year ends with "PRE" and not with "REG", so
      the walk can switch to it and stops after it. */
  lemma PreseasonOfType(seasonYear: int)
    ensures EndsWith(PreseasonOf(seasonYear), "PRE") && !EndsWith(PreseasonOf(seasonYear), "REG")
  {
    EndsWithConcat(PreseasonOf(seasonYear), "PRE");
    var s := PreseasonOf(seasonYear);
    assert s[|s| - 1] == 'E';
  }

  predicate WalkableType(seasonType: string)
  {
    EndsWith(seasonType, "REG") || EndsWith(seasonType, "PRE")
  }

  /** The summary the walk produces: a first pass over the ten weeks ending at
      the current week; if that is short and the type is a regular season, a
      second pass over the preseason of the same year from week 3 down, as many
      weeks as are still needed. */
  function AtsWalk(files: map<Path, Content>, seasonType: string, seasonYear: int, currentWeek: int, thisWeek: int): Option<seq<AtsEntry>>
    requires WalkableType(seasonType)
  {
    var first := Scan(files, seasonType, currentWeek, currentWeek - WindowSize + 1, WindowSize, thisWeek);
    if first.None? then None
    else if |first.value| >= WindowSize || !EndsWith(seasonType, "REG") then first
    else
      var needed := WindowSize - |first.value|;
      Prepend(first.value, Scan(files, PreseasonOf(seasonYear), 3, 3 - needed + 1, needed, thisWeek))
  }

  /** What one pass collects: at most `needed` weeks, all of the pass's type,
      inside `lo..hi`, in strictly decreasing week order, each with the
      results its file gives; a pass as long as its window misses no
      readable week. */
  ghost predicate PassFacts(files: map<Path, Content>, seasonType: string, hi: int, lo: int, needed: nat, thisWeek: int,
                            entries: seq<AtsEntry>)
  {
    && |entries| <= needed
    && (forall i :: 0 <= i < |entries| ==>
          && entries[i].seasonType == seasonType
          && lo <= entries[i].week <= hi
          && ProbeWeek(files, seasonType, entries[i].week, thisWeek) == Found(entries[i].results))
    && (forall i, j :: 0 <= i < j < |entries| ==> entries[i].week > entries[j].week)
    && (needed >= hi - lo + 1 ==>
          forall w :: lo <= w <= hi && ProbeWeek(files, seasonType, w, thisWeek).Found? ==>
            exists i :: 0 <= i < |entries| && entries[i].week == w)
  }

  /** A pass satisfies `PassFacts`; a pass as long as its window fails exactly
      when some week in the window cannot be read. */
  lemma {:induction false} ScanFacts(files: map<Path, Content>, seasonType: string, hi: int, lo: int, needed: nat, thisWeek: int)
    ensures var r := Scan(files, seasonType, hi, lo, needed, thisWeek);
            r.Some? ==> PassFacts(files, seasonType, hi, lo, needed, thisWeek, r.value)
    ensures needed >= hi - lo + 1 ==>
              (Scan(files, seasonType, hi, lo, needed, thisWeek).None? <==>
               exists w :: lo <= w <= hi && ProbeWeek(files, seasonType, w, thisWeek).Unreadable?)
    decreases if hi < lo then 0 else hi - lo + 1
  {
    if hi < lo || needed == 0 {
    } else {
      var probe := ProbeWeek(files, seasonType, hi, thisWeek);
      if probe.Skip? {
        ScanFacts(files, seasonType, hi - 1, lo, needed, thisWeek);
      } else if probe.Found? {
        ScanFacts(files, seasonType, hi - 1, lo, needed - 1, thisWeek);
        var rest := Scan(files, seasonType, hi - 1, lo, needed - 1, thisWeek);
        if rest.Some? {
          PassFactsCons(files, seasonType, hi, lo, needed, thisWeek, probe.results, rest.value);
        }
      }
    }
  }

  /** Adding the newest week in front of a pass over the weeks below it. */
  lemma PassFactsCons(files: map<Path, Content>, seasonType: string, hi: int, lo: int, needed: nat, thisWeek: int,
                      results: seq<AtsResult>, rest: seq<AtsEntry>)
    requires lo <= hi && needed >= 1
    requires ProbeWeek(files, seasonType, hi, thisWeek) == Found(results)
    requires PassFacts(files, seasonType, hi - 1, lo, needed - 1, thisWeek, rest)
    ensures PassFacts(files, seasonType, hi, lo, needed, thisWeek, [AtsEntry(seasonType, hi, results)] + rest)
  {
    var r := [AtsEntry(seasonType, hi, results)] + rest;
    assert forall i :: 1 <= i < |r| ==> r[i] == rest[i - 1];
    if needed >= hi - lo + 1 {
      forall w | lo <= w <= hi && ProbeWeek(files, seasonType, w, thisWeek).Found?
        ensures exists i :: 0 <= i < |r| && r[i].week == w
      {
        if w == hi {
          assert r[0].week == w;
        } else {
          var i :| 0 <= i < |rest| && rest[i].week == w;
          assert r[i + 1].week == w;
        }
      }
    }
  }

  /** The layout of a summary whose first `k` entries come from the first
      pass: those are weeks of the starting type, newest first, drawn from the
      ten weeks ending at the current week, with no readable week of that
      window left out; the rest, only after a regular season, are weeks of the
      same year's preseason, newest first, from week 3 down to week `k - 6`,
      again with no readable week of that window left out. Every entry carries
      the results its file gives. */
  ghost predicate WalkShape(files: map<Path, Content>, seasonType: string, seasonYear: int, currentWeek: int, thisWeek: int,
                            entries: seq<AtsEntry>, k: int)
  {
    && 0 <= k <= |entries|
    && (forall i :: 0 <= i < k ==>
          entries[i].seasonType == seasonType && currentWeek - WindowSize + 1 <= entries[i].week <= currentWeek)
    && (forall i :: k <= i < |entries| ==>
          EndsWith(seasonType, "REG") && entries[i].seasonType == PreseasonOf(seasonYear) && k - 6 <= entries[i].week <= 3)
    && (forall i, j :: 0 <= i < j < k ==> entries[i].week > entries[j].week)
    && (forall i, j :: k <= i < j < |entries| ==> entries[i].week > entries[j].week)
    && (forall i :: 0 <= i < |entries| ==>
          ProbeWeek(files, entries[i].seasonType, entries[i].week, thisWeek) == Found(entries[i].results))
    && (forall w :: currentWeek - WindowSize + 1 <= w <= currentWeek && ProbeWeek(files, seasonType, w, thisWeek).Found? ==>
          exists i :: 0 <= i < k && entries[i].week == w)
    && (EndsWith(seasonType, "REG") && k < WindowSize ==>
          forall w :: k - 6 <= w <= 3 && ProbeWeek(files, PreseasonOf(seasonYear), w, thisWeek).Found? ==>
            exists i :: k <= i < |entries| && entries[i].week == w)
  }

  /** The summary never holds more than ten weeks. */
  lemma AtsWalkAtMostTen(files: map<Path, Content>, seasonType: string, seasonYear: int, currentWeek: int, thisWeek: int)
    requires WalkableType(seasonType)
    ensures var r := AtsWalk(files, seasonType, seasonYear, currentWeek, thisWeek);
            r.Some? ==> |r.value| <= WindowSize
  {
    ScanAtMost(files, seasonType, currentWeek, currentWeek - WindowSize + 1, WindowSize, thisWeek);
    var first := Scan(files, seasonType, currentWeek, currentWeek - WindowSize + 1, WindowSize, thisWeek);
    if first.Some? && |first.value| < WindowSize && EndsWith(seasonType, "REG") {
      var needed := WindowSize - |first.value|;
      ScanAtMost(files, PreseasonOf(seasonYear), 3, 3 - needed + 1, needed, thisWeek);
    }
  }

  /** Regular-season weeks come first, newest first, then preseason weeks of
      the same year from week 3 down; a missing file is skipped without
      widening the window, and no readable week inside a window is missed. */
  lemma AtsWalkShape(files: map<Path, Content>, seasonType: string, seasonYear: int, currentWeek: int, thisWeek: int)
    requires WalkableType(seasonType)
    ensures var r := AtsWalk(files, seasonType, seasonYear, currentWeek, thisWeek);
            r.Some? ==> exists k :: WalkShape(files, seasonType, seasonYear, currentWeek, thisWeek, r.value, k)
  {
    var r := AtsWalk(files, seasonType, seasonYear, currentWeek, thisWeek);
    var first := Scan(files, seasonType, currentWeek, currentWeek - WindowSize + 1, WindowSize, thisWeek);
    if first.Some? {
      var k := |first.value|;
      if k >= WindowSize || !EndsWith(seasonType, "REG") {
        OnePassWalk(files, seasonType, seasonYear, currentWeek, thisWeek);
        assert WalkShape(files, seasonType, seasonYear, currentWeek, thisWeek, r.value, k);
      } else if r.Some? {
        TwoPassWalk(files, seasonType, seasonYear, currentWeek, thisWeek);
        assert WalkShape(files, seasonType, seasonYear, currentWeek, thisWeek, r.value, k);
      }
    }
  }

  /** A walk that stops after its first pass has that pass's shape. */
  lemma OnePassWalk(files: map<Path, Content>, seasonType: string, seasonYear: int, currentWeek: int, thisWeek: int)
    requires WalkableType(seasonType)
    requires var first := Scan(files, seasonType, currentWeek, currentWeek - WindowSize + 1, WindowSize, thisWeek);
             first.Some? && (|first.value| >= WindowSize || !EndsWith(seasonType, "REG"))
    ensures var r := AtsWalk(files, seasonType, seasonYear, currentWeek, thisWeek);
            r.Some? && WalkShape(files, seasonType, seasonYear, currentWeek, thisWeek, r.value, |r.value|)
  {
    ScanFacts(files, seasonType, currentWeek, currentWeek - WindowSize + 1, WindowSize, thisWeek);
    var first := Scan(files, seasonType, currentWeek, currentWeek - WindowSize + 1, WindowSize, thisWeek);
    FirstPassShape(files, seasonType, seasonYear, currentWeek, thisWeek, first.value);
    AtsWalkFirstOnly(files, seasonType, seasonYear, currentWeek, thisWeek);
  }

  /** A walk that goes on into the preseason has the two passes' shape, split
      after the first pass. */
  lemma TwoPassWalk(files: map<Path, Content>, seasonType: string, seasonYear: int, currentWeek: int, thisWeek: int)
    requires WalkableType(seasonType)
    requires var first := Scan(files, seasonType, currentWeek, currentWeek - WindowSize + 1, WindowSize, thisWeek);
             first.Some? && |first.value| < WindowSize && EndsWith(seasonType, "REG")
    ensures var first := Scan(files, seasonType, currentWeek, currentWeek - WindowSize + 1, WindowSize, thisWeek);
            var r := AtsWalk(files, seasonType, seasonYear, currentWeek, thisWeek);
            r.Some? ==> WalkShape(files, seasonType, seasonYear, currentWeek, thisWeek, r.value, |first.value|)
  {
    var first := Scan(files, seasonType, currentWeek, currentWeek - WindowSize + 1, WindowSize, thisWeek);
    var lo := 3 - (WindowSize - |first.value|) + 1;
    var second := Scan(files, PreseasonOf(seasonYear), 3, lo, WindowSize - |first.value|, thisWeek);
    AtsWalkTwoPass(files, seasonType, seasonYear, currentWeek, thisWeek);
    if second.Some? {
      ScanFacts(files, seasonType, currentWeek, currentWeek - WindowSize + 1, WindowSize, thisWeek);
      ScanFacts(files, PreseasonOf(seasonYear), 3, lo, WindowSize - |first.value|, thisWeek);
      TwoPassShape(files, seasonType, seasonYear, currentWeek, thisWeek, first.value, second.value);
    }
  }

  /** When the first pass fills the window or the type is not a regular
      season, the summary is the first pass. */
  lemma AtsWalkFirstOnly(files: map<Path, Content>, seasonType: string, seasonYear: int, currentWeek: int, thisWeek: int)
    requires WalkableType(seasonType)
    requires var first := Scan(files, seasonType, currentWeek, currentWeek - WindowSize + 1, WindowSize, thisWeek);
             first.Some? && (|first.value| >= WindowSize || !EndsWith(seasonType, "REG"))
    ensures AtsWalk(files, seasonType, seasonYear, currentWeek, thisWeek) ==
              Scan(files, seasonType, currentWeek, currentWeek - WindowSize + 1, WindowSize, thisWeek)
  {
  }

  /** Otherwise the summary is the first pass followed by a preseason pass
      from week 3 down over as many weeks as are still needed. */
  lemma AtsWalkTwoPass(files: map<Path, Content>, seasonType: string, seasonYear: int, currentWeek: int, thisWeek: int)
    requires WalkableType(seasonType)
    requires var first := Scan(files, seasonType, currentWeek, currentWeek - WindowSize + 1, WindowSize, thisWeek);
             first.Some? && |first.value| < WindowSize && EndsWith(seasonType, "REG")
    ensures var first := Scan(files, seasonType, currentWeek, currentWeek - WindowSize + 1, WindowSize, thisWeek);
            var needed := WindowSize - |first.value|;
            AtsWalk(files, seasonType, seasonYear, currentWeek, thisWeek) ==
              Prepend(first.value, Scan(files, PreseasonOf(seasonYear), 3, 3 - needed + 1, needed, thisWeek))
  {
  }

  lemma FirstPassShape(files: map<Path, Content>, seasonType: string, seasonYear: int, currentWeek: int, thisWeek: int,
                       first: seq<AtsEntry>)
    requires PassFacts(files, seasonType, currentWeek, currentWeek - WindowSize + 1, WindowSize, thisWeek, first)
    requires |first| >= WindowSize || !EndsWith(seasonType, "REG")
    ensures WalkShape(files, seasonType, seasonYear, currentWeek, thisWeek, first, |first|)
  {
  }

  lemma TwoPassShape(files: map<Path, Content>, seasonType: string, seasonYear: int, currentWeek: int, thisWeek: int,
                     first: seq<AtsEntry>, second: seq<AtsEntry>)
    requires EndsWith(seasonType, "REG") && |first| < WindowSize
    requires PassFacts(files, seasonType, currentWeek, currentWeek - WindowSize + 1, WindowSize, thisWeek, first)
    requires PassFacts(files, PreseasonOf(seasonYear), 3, 3 - (WindowSize - |first|) + 1, WindowSize - |first|, thisWeek, second)
    ensures WalkShape(files, seasonType, seasonYear, currentWeek, thisWeek, first + second, |first|)
  {
    assert 3 - (WindowSize - |first|) + 1 == |first| - 6;
    FirstPartOfTwo(files, seasonType, currentWeek, thisWeek, first, second);
    SecondPartOfTwo(files, PreseasonOf(seasonYear), thisWeek, first, second);
  }

  /** The entries of the first pass keep their place at the front. */
  lemma FirstPartOfTwo(files: map<Path, Content>, seasonType: string, currentWeek: int, thisWeek: int,
                       first: seq<AtsEntry>, second: seq<AtsEntry>)
    requires PassFacts(files, seasonType, currentWeek, currentWeek - WindowSize + 1, WindowSize, thisWeek, first)
    ensures var r := first + second;
            && (forall i :: 0 <= i < |first| ==>
                  && r[i].seasonType == seasonType && currentWeek - WindowSize + 1 <= r[i].week <= currentWeek
                  && ProbeWeek(files, r[i].seasonType, r[i].week, thisWeek) == Found(r[i].results))
            && (forall i, j :: 0 <= i < j < |first| ==> r[i].week > r[j].week)
            && (forall w :: currentWeek - WindowSize + 1 <= w <= currentWeek && ProbeWeek(files, seasonType, w, thisWeek).Found? ==>
                  exists i :: 0 <= i < |first| && r[i].week == w)
  {
    var r := first + second;
    assert forall i :: 0 <= i < |first| ==> r[i] == first[i];
    forall w | currentWeek - WindowSize + 1 <= w <= currentWeek && ProbeWeek(files, seasonType, w, thisWeek).Found?
      ensures exists i :: 0 <= i < |first| && r[i].week == w
    {
      var j :| 0 <= j < |first| && first[j].week == w;
      assert r[j].week == w;
    }
  }

  /** The entries of the second pass follow, shifted by the length of the first. */
  lemma SecondPartOfTwo(files: map<Path, Content>, pre: string, thisWeek: int, first: seq<AtsEntry>, second: seq<AtsEntry>)
    requires |first| < WindowSize
    requires PassFacts(files, pre, 3, |first| - 6, WindowSize - |first|, thisWeek, second)
    ensures var r := first + second;
            var k := |first|;
            && (forall i :: k <= i < |r| ==>
                  && r[i].seasonType == pre && k - 6 <= r[i].week <= 3
                  && ProbeWeek(files, r[i].seasonType, r[i].week, thisWeek) == Found(r[i].results))
            && (forall i, j :: k <= i < j < |r| ==> r[i].week > r[j].week)
            && (forall w :: k - 6 <= w <= 3 && ProbeWeek(files, pre, w, thisWeek).Found? ==>
                  exists i :: k <= i < |r| && r[i].week == w)
  {
    var r := first + second;
    var k := |first|;
    assert forall i :: k <= i < |r| ==> r[i] == second[i - k];
    forall w | k - 6 <= w <= 3 && ProbeWeek(files, pre, w, thisWeek).Found?
      ensures exists i :: k <= i < |r| && r[i].week == w
    {
      var j :| 0 <= j < |second| && second[j].week == w;
      assert r[k + j].week == w;
    }
  }

  /** The walk fails exactly when a week inside one of its windows cannot be
      read: a file that is not an odds sheet, or the current week with neither
      its dated file nor the current-week slot. */
  lemma AtsWalkFails(files: map<Path, Content>, seasonType: string, seasonYear: int, currentWeek: int, thisWeek: int)
    requires WalkableType(seasonType)
    ensures AtsWalk(files, seasonType, seasonYear, currentWeek, thisWeek).None? ==>
              (exists w :: currentWeek - WindowSize + 1 <= w <= currentWeek && ProbeWeek(files, seasonType, w, thisWeek).Unreadable?)
              || (EndsWith(seasonType, "REG") &&
                  exists w :: -6 <= w <= 3 && ProbeWeek(files, PreseasonOf(seasonYear), w, thisWeek).Unreadable?)
  {
    var lo := currentWeek - WindowSize + 1;
    ScanFacts(files, seasonType, currentWeek, lo, WindowSize, thisWeek);
    var first := Scan(files, seasonType, currentWeek, lo, WindowSize, thisWeek);
    if first.Some? && |first.value| < WindowSize && EndsWith(seasonType, "REG") {
      var needed := WindowSize - |first.value|;
      ScanFacts(files, PreseasonOf(seasonYear), 3, 3 - needed + 1, needed, thisWeek);
    }
  }

  function WeeksOf(entries: seq<AtsEntry>): seq<int>
  {
    seq(|entries|, i requires 0 <= i < |entries| => entries[i].week)
  }

  /** A window in which every week is skipped yields nothing. */
  lemma {:induction false} ScanSkipsAll(files: map<Path, Content>, seasonType: string, hi: int, lo: int, needed: nat, thisWeek: int)
    requires forall w :: lo <= w <= hi ==> ProbeWeek(files, seasonType, w, thisWeek) == Skip
    ensures Scan(files, seasonType, hi, lo, needed, thisWeek) == Some([])
    decreases if hi < lo then 0 else hi - lo + 1
  {
    if lo <= hi && needed > 0 {
      ScanSkipsAll(files, seasonType, hi - 1, lo, needed, thisWeek);
    }
  }

  /** Week 2 of a regular season, with regular weeks 1-2 and preseason weeks
      0-3 on disk: weeks 2, 1 of the regular season, then weeks 3, 2, 1, 0 of
      the preseason; the preseason pass does not stop at week 1. */
  lemma WeekTwoScenario(files: map<Path, Content>, regular: string, seasonYear: int)
    requires EndsWith(regular, "REG")
    requires forall p :: p in files ==> files[p].OddsSheet?
    requires forall w :: OddsFile(regular, w) in files <==> 1 <= w <= 2
    requires forall w :: OddsFile(PreseasonOf(seasonYear), w) in files <==> 0 <= w <= 3
    ensures var r := AtsWalk(files, regular, seasonYear, 2, 2);
            && r.Some? && WeeksOf(r.value) == [2, 1, 3, 2, 1, 0]
            && r.value[0].seasonType == r.value[1].seasonType == regular
            && forall i :: 2 <= i < 6 ==> r.value[i].seasonType == PreseasonOf(seasonYear)
  {
    var pre := PreseasonOf(seasonYear);
    ScanSkipsAll(files, regular, 0, -7, 8, 2);
    var e2 := AtsEntry(regular, 2, ProbeWeek(files, regular, 2, 2).results);
    var e1 := AtsEntry(regular, 1, ProbeWeek(files, regular, 1, 2).results);
    assert ProbeWeek(files, regular, 1, 2).Found?;
    PrependComplete([e1]);
    assert Scan(files, regular, 1, -7, 9, 2) == Some([e1]);
    assert ProbeWeek(files, regular, 2, 2).Found?;
    assert [e2] + [e1] == [e2, e1];
    assert Scan(files, regular, 2, -7, 10, 2) == Some([e2, e1]);
    ScanSkipsAll(files, pre, -1, -4, 4, 2);
    var p0 := AtsEntry(pre, 0, ProbeWeek(files, pre, 0, 2).results);
    var p1 := AtsEntry(pre, 1, ProbeWeek(files, pre, 1, 2).results);
    var p2 := AtsEntry(pre, 2, ProbeWeek(files, pre, 2, 2).results);
    var p3 := AtsEntry(pre, 3, ProbeWeek(files, pre, 3, 2).results);
    assert ProbeWeek(files, pre, 0, 2).Found?;
    assert ProbeWeek(files, pre, 1, 2).Found?;
    assert ProbeWeek(files, pre, 2, 2).Found?;
    assert ProbeWeek(files, pre, 3, 2).Found?;
    PrependComplete([p0]);
    assert Scan(files, pre, 0, -4, 5, 2) == Some([p0]);
    assert [p1] + [p0] == [p1, p0];
    assert Scan(files, pre, 1, -4, 6, 2) == Some([p1, p0]);
    assert [p2] + [p1, p0] == [p2, p1, p0];
    assert Scan(files, pre, 2, -4, 7, 2) == Some([p2, p1, p0]);
    assert [p3] + [p2, p1, p0] == [p3, p2, p1, p0];
    assert Scan(files, pre, 3, -4, 8, 2) == Some([p3, p2, p1, p0]);
    var r := [e2, e1, p3, p2, p1, p0];
    assert [e2, e1] + [p3, p2, p1, p0] == r;
    assert AtsWalk(files, regular, seasonYear, 2, 2) == Some(r);
    assert WeeksOf(r) == [2, 1, 3, 2, 1, 0];
  }

  lemma PrependNothing(rest: Option<seq<AtsEntry>>)
    ensures Prepend([], rest) == rest
  {
    if rest.Some? {
      assert [] + rest.value == rest.value;
    }
  }

  lemma PrependComplete(a: seq<AtsEntry>)
    ensures Prepend(a, Some([])) == Some(a)
  {
    assert a + [] == a;
  }

  lemma PrependTwice(a: seq<AtsEntry>, b: seq<AtsEntry>, rest: Option<seq<AtsEntry>>)
    ensures Prepend(a, Prepend(b, rest)) == Prepend(a + b, rest)
  {
    if rest.Some? {
      assert a + (b + rest.value) == (a + b) + rest.value;
    }
  }

  /** One pass of the inner `for` loop of `cache_ats_data`: weeks `endWeek`
      down to `startWeek`, a missing week skipped (`continue`), the loop left
      (`break`) once `weeksNeeded` weeks are collected; `ok` is false when a
      read fails. */
  method WalkPass(files: map<Path, Content>, seasonType: string, endWeek: int, startWeek: int, weeksNeeded: nat, thisWeek: int)
    returns (found: seq<AtsEntry>, ok: bool)
    requires weeksNeeded >= 1
    ensures Scan(files, seasonType, endWeek, startWeek, weeksNeeded, thisWeek) == (if ok then Some(found) else None)
  {
    found := [];
    var needed := weeksNeeded;
    var week := endWeek;
    PrependNothing(Scan(files, seasonType, endWeek, startWeek, weeksNeeded, thisWeek));
    while week >= startWeek
      invariant week <= endWeek
      invariant 1 <= needed == weeksNeeded - |found|
      invariant Scan(files, seasonType, endWeek, startWeek, weeksNeeded, thisWeek)
                == Prepend(found, Scan(files, seasonType, week, startWeek, needed, thisWeek))
      decreases week - startWeek
    {
      var probe := ProbeWeek(files, seasonType, week, thisWeek);
      if probe.Unreadable? {
        return found, false;
      }
      if probe.Found? {
        var entry := AtsEntry(seasonType, week, probe.results);
        ghost var rest := Scan(files, seasonType, week - 1, startWeek, needed - 1, thisWeek);
        PrependTwice(found, [entry], rest);
        found := found + [entry];
        needed := needed - 1;
        if needed == 0 {
          PrependComplete(found);
          return found, true;
        }
      }
      week := week - 1;
    }
    PrependComplete(found);
    ok := true;
  }

  /** `cache_ats_data` as the script runs it: an outer loop while weeks are
      still needed, one pass down the current window, then the switch from
      the regular season to the preseason. A failed read ends the run without
      writing the summary. */
  method CacheAts(c: Cache, currentSeasonType: string, seasonYear: int, currentWeek: int, thisWeek: int)
    returns (c': Cache, summary: Option<seq<AtsEntry>>)
    requires WalkableType(currentSeasonType)
    ensures summary == AtsWalk(c.files, currentSeasonType, seasonYear, currentWeek, thisWeek)
    ensures summary.Some? ==> c' == Cache(c.files[AtsSummaryFile := AtsJson(summary.value)], c.calls)
    ensures summary.None? ==> c' == c
  {
    var files := c.files;
    var seasonType := currentSeasonType;
    var weeksNeeded: int := WindowSize;
    var weeksData: seq<AtsEntry> := [];
    var endWeek := currentWeek;
    var startWeek := endWeek - weeksNeeded + 1;
    ghost var phase := 0;
    while weeksNeeded > 0
      invariant 0 <= phase <= 2
      invariant 0 <= weeksNeeded <= WindowSize
      invariant phase == 0 ==>
                  && seasonType == currentSeasonType && weeksData == [] && weeksNeeded == WindowSize
                  && endWeek == currentWeek && startWeek == endWeek - weeksNeeded + 1
      invariant phase == 1 ==>
                  && EndsWith(currentSeasonType, "REG") && seasonType == PreseasonOf(seasonYear)
                  && endWeek == 3 && startWeek == endWeek - weeksNeeded + 1 && weeksNeeded > 0
                  && weeksNeeded == WindowSize - |weeksData|
                  && Scan(files, currentSeasonType, currentWeek, currentWeek - WindowSize + 1, WindowSize, thisWeek) == Some(weeksData)
      invariant phase == 2 ==>
                  weeksNeeded == 0 && AtsWalk(files, currentSeasonType, seasonYear, currentWeek, thisWeek) == Some(weeksData)
      decreases 2 - phase
    {
      var found, ok := WalkPass(files, seasonType, endWeek, startWeek, weeksNeeded, thisWeek);
      if !ok {
        return c, None;
      }
      ScanAtMost(files, seasonType, endWeek, startWeek, weeksNeeded, thisWeek);
      PreseasonOfType(seasonYear);
      if phase == 0 {
        assert weeksData + found == found;
        if |found| >= WindowSize || !EndsWith(currentSeasonType, "REG") {
          AtsWalkFirstOnly(files, currentSeasonType, seasonYear, currentWeek, thisWeek);
        }
      } else {
        AtsWalkTwoPass(files, currentSeasonType, seasonYear, currentWeek, thisWeek);
      }
      weeksData := weeksData + found;
      weeksNeeded := weeksNeeded - |found|;
      if weeksNeeded > 0 {
        if EndsWith(seasonType, "REG") {
          seasonType := PreseasonOf(seasonYear);
          endWeek := 3;
          phase := 1;
        } else if EndsWith(seasonType, "PRE") {
          weeksNeeded := 0;
          phase := 2;
        }
        startWeek := endWeek - weeksNeeded + 1;
      } else {
        phase := 2;
      }
    }
    summary := Some(weeksData);
    c' := Cache(files[AtsSummaryFile := AtsJson(weeksData)], c.calls);
  }
}
