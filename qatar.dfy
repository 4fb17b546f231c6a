/** The Qatar prediction: RaceScore = RacePace * Form + TrafficPenalty over a
    grid of ten, the podium, the pole-sitter analysis and the chart views. */
module QatarPrediction {
  import opened Wrappers
  import opened Seqs
  import opened Ranking

  /** The qualifying table in grid order (the script has no Team column). */
  const Grid: seq<QualifyingRow> := [
    QualifyingRow("PIA", "", 1), QualifyingRow("NOR", "", 2), QualifyingRow("VER", "", 3),
    QualifyingRow("RUS", "", 4), QualifyingRow("ANT", "", 5), QualifyingRow("HAD", "", 6),
    QualifyingRow("SAI", "", 7), QualifyingRow("ALO", "", 8), QualifyingRow("GAS", "", 9),
    QualifyingRow("LEC", "", 10)]

  /** The ranked result table `qatar_results`. */
  function Results(q: seq<QualifyingRow>, t: TrafficTables): (r: seq<Ranked>)
    requires CoversTraffic(q, t)
    ensures |r| == |q|
    ensures multiset(Map(r, RankedDriver)) == multiset(Map(q, RowDriver))
  {
    var e := TrafficEntries(q, t);
    ExtendsKeepsColumns(q, e);
    RankKeepsDrivers(e);
    Rank(e)
  }

  /** With the grid listed 1..10 the gains and losses cancel out. */
  lemma ResultChangesCancel(t: TrafficTables)
    requires CoversTraffic(Grid, t)
    ensures Sum(Map(Results(Grid, t), ChangeOf)) == 0
  {
    var e := TrafficEntries(Grid, t);
    assert forall i :: 0 <= i < |e| ==> e[i].qualifyingPosition == Grid[i].position;
    ChangesSumToZero(e);
  }

  /** `head(3)`: the podium. */
  function Podium(results: seq<Ranked>): seq<Ranked>
  {
    Take(results, 3)
  }

  /** The podium is the three best scores, best first: P1, P2, P3 in that
      order, and nobody off the podium scores better than anyone on it. */
  lemma PodiumIsBestThree(q: seq<QualifyingRow>, t: TrafficTables)
    requires CoversTraffic(q, t)
    ensures var r := Results(q, t); var p := Podium(r);
      && |p| == Min(3, |q|)
      && (forall i :: 0 <= i < |p| ==> p[i] == r[i] && p[i].predictedPosition == i + 1)
      && (forall i, j :: 0 <= i < j < |p| ==> p[i].entry.raceScore <= p[j].entry.raceScore)
      && (forall i, j :: 0 <= i < |p| <= j < |r| ==> p[i].entry.raceScore <= r[j].entry.raceScore)
  {
    HeadHasSmallestScores(TrafficEntries(q, t), 3);
  }

  /** Whether the pole-conversion analysis is printed: only when "PIA" is P1.
      `iloc[0]` of an empty table raises, here None. */
  function ShowsAnalysis(results: seq<Ranked>): (shown: Option<bool>)
    ensures shown.None? <==> results == []
    ensures shown == Some(true) <==> results != [] && results[0].entry.driver == "PIA"
  {
    if results == [] then None else Some(results[0].entry.driver == "PIA")
  }

  /** The analysis is printed only if PIA has a best score, and it is printed
      whenever PIA's score beats every other driver's. */
  lemma AnalysisFollowsBestScore(entries: seq<Entry>)
    ensures ShowsAnalysis(Rank(entries)) == Some(true) ==>
              exists i :: 0 <= i < |entries| && entries[i].driver == "PIA" &&
                forall j :: 0 <= j < |entries| ==> entries[i].raceScore <= entries[j].raceScore
    ensures (exists i :: 0 <= i < |entries| && entries[i].driver == "PIA" &&
               forall j :: 0 <= j < |entries| && j != i ==> entries[i].raceScore < entries[j].raceScore)
            ==> ShowsAnalysis(Rank(entries)) == Some(true)
  {
    var r := Rank(entries);
    var col := Map(r, EntryOf);
    // every entry sits somewhere in the ranking, and vice versa
    forall j | 0 <= j < |entries|
      ensures exists m :: 0 <= m < |r| && r[m].entry == entries[j]
    {
      assert entries[j] in multiset(col);
      var m :| 0 <= m < |col| && col[m] == entries[j];
    }
    if r != [] {
      assert col[0] in multiset(entries);
      var i0 :| 0 <= i0 < |entries| && entries[i0] == r[0].entry;
      assert forall j :: 0 <= j < |entries| ==> entries[i0].raceScore <= entries[j].raceScore;
      if ShowsAnalysis(r) == Some(true) {
        assert entries[i0].driver == "PIA";
      }
      if exists i :: 0 <= i < |entries| && entries[i].driver == "PIA" &&
                     forall j :: 0 <= j < |entries| && j != i ==> entries[i].raceScore < entries[j].raceScore {
        var i :| 0 <= i < |entries| && entries[i].driver == "PIA" &&
                 forall j :: 0 <= j < |entries| && j != i ==> entries[i].raceScore < entries[j].raceScore;
        assert i0 == i;
      }
    }
  }
}
