/** The Las Vegas prediction: RaceScore = RacePace * FormMultiplier *
    ReliabilityFactor - 0.4 * OvertakingFactor over a grid of nine, the podium
    chart, the annotated grid view and the top-five view. */
module LasVegasPrediction {
  import opened Wrappers
  import opened Seqs
  import opened Sorting
  import opened Ranking

  /** The qualifying table in grid order (the script has no Team column). */
  const Grid: seq<QualifyingRow> := [
    QualifyingRow("NOR", "", 1), QualifyingRow("VER", "", 2), QualifyingRow("SAI", "", 3),
    QualifyingRow("LEC", "", 4), QualifyingRow("PIA", "", 5), QualifyingRow("ANT", "", 6),
    QualifyingRow("RUS", "", 7), QualifyingRow("HAM", "", 8), QualifyingRow("HAD", "", 9)]

  const OvertakingWeight: real := 0.4

  /** The ranked result table `vegas_results`. */
  function Results(q: seq<QualifyingRow>, t: OvertakingTables): (r: seq<Ranked>)
    requires CoversOvertaking(q, t)
    ensures |r| == |q|
    ensures multiset(Map(r, RankedDriver)) == multiset(Map(q, RowDriver))
  {
    var e := OvertakingEntries(q, t, OvertakingWeight);
    ExtendsKeepsColumns(q, e);
    RankKeepsDrivers(e);
    Rank(e)
  }

  /** With the grid listed 1..9 the gains and losses cancel out. */
  lemma ResultChangesCancel(t: OvertakingTables)
    requires CoversOvertaking(Grid, t)
    ensures Sum(Map(Results(Grid, t), ChangeOf)) == 0
  {
    var e := OvertakingEntries(Grid, t, OvertakingWeight);
    assert forall i :: 0 <= i < |e| ==> e[i].qualifyingPosition == Grid[i].position;
    ChangesSumToZero(e);
  }

  /** `df[df["Driver"].isin(names)]`: the rows whose driver is listed, in table order. */
  function KeepDrivers(results: seq<Ranked>, names: seq<string>): seq<Ranked>
  {
    if results == [] then []
    else (if results[0].entry.driver in names then [results[0]] else []) + KeepDrivers(results[1..], names)
  }

  /** The filter keeps only rows of the table whose driver is listed, and it
      keeps every such row. */
  lemma {:induction false} KeepDriversFilters(results: seq<Ranked>, names: seq<string>)
    ensures var kept := KeepDrivers(results, names);
      && (forall k :: 0 <= k < |kept| ==> kept[k] in results && kept[k].entry.driver in names)
      && (forall i :: 0 <= i < |results| && results[i].entry.driver in names ==> results[i] in kept)
  {
    if results != [] {
      KeepDriversFilters(results[1..], names);
      var head := if results[0].entry.driver in names then [results[0]] else [];
      var rest := KeepDrivers(results[1..], names);
      var kept := head + rest;
      forall k | 0 <= k < |kept|
        ensures kept[k] in results && kept[k].entry.driver in names
      {
        if k >= |head| {
          assert kept[k] == rest[k - |head|];
          var m :| 0 <= m < |results[1..]| && results[1..][m] == kept[k];
          assert results[m + 1] == kept[k];
        }
      }
      forall i | 0 <= i < |results| && results[i].entry.driver in names
        ensures results[i] in kept
      {
        if i == 0 {
          assert kept[0] == results[0];
        } else {
          assert results[i] == results[1..][i - 1];
          var m :| 0 <= m < |rest| && rest[m] == results[i];
          assert kept[|head| + m] == results[i];
        }
      }
    }
  }

  lemma {:induction false} KeepPrefix(results: seq<Ranked>, names: seq<string>, k: nat)
    requires k <= |results|
    requires forall i :: 0 <= i < k ==> results[i].entry.driver in names
    requires forall i :: k <= i < |results| ==> results[i].entry.driver !in names
    ensures KeepDrivers(results, names) == results[..k]
  {
    if results != [] {
      if k == 0 {
        KeepPrefix(results[1..], names, 0);
      } else {
        KeepPrefix(results[1..], names, k - 1);
        assert results[..k] == [results[0]] + results[1..][..k - 1];
      }
    }
  }

  /** `top_3_data`: the rows of the first three drivers, re-sorted by
      PredictedPosition. */
  function PodiumData(results: seq<Ranked>): seq<Ranked>
  {
    OrdersAreTotalPreorders();
    SortBy(KeepDrivers(results, Map(Take(results, 3), RankedDriver)), PredictedLe)
  }

  /** Filtering a table with distinct drivers by its own first `k` drivers
      keeps exactly its first `k` rows. */
  lemma KeepOwnHead(r: seq<Ranked>, k: nat)
    requires k <= |r|
    requires Distinct(Map(r, RankedDriver))
    ensures KeepDrivers(r, Map(r[..k], RankedDriver)) == r[..k]
  {
    var names := Map(r[..k], RankedDriver);
    var drivers := Map(r, RankedDriver);
    assert forall m :: 0 <= m < k ==> names[m] == drivers[m];
    forall i | k <= i < |r|
      ensures r[i].entry.driver !in names
    {
      assert r[i].entry.driver == drivers[i];
      assert forall m :: 0 <= m < k ==> drivers[m] != drivers[i];
    }
    forall i | 0 <= i < k
      ensures r[i].entry.driver in names
    {
      assert names[i] == r[i].entry.driver;
    }
    KeepPrefix(r, names, k);
  }

  /** With one row per driver, the podium chart shows the first rows of the
      ranking with predicted positions exactly 1, 2, 3 in that order (fewer
      when fewer drivers are ranked). */
  lemma PodiumDataIsTopThree(entries: seq<Entry>)
    requires Distinct(Map(entries, EntryDriver))
    ensures var r := Rank(entries); var p := PodiumData(r);
      && |p| == Min(3, |entries|)
      && forall i :: 0 <= i < |p| ==> p[i] == r[i] && p[i].predictedPosition == i + 1
  {
    var r := Rank(entries);
    RankKeepsDrivers(entries);
    var top := Take(r, 3);
    KeepOwnHead(r, |top|);
    OrdersAreTotalPreorders();
    assert forall i :: 0 <= i < |top| ==> top[i].predictedPosition == i + 1;
    SortedUnique(top, SortBy(top, PredictedLe), PredictedLe);
  }

  /** The five rows of `head(5)` carry the five best scores, best first. */
  lemma TopFiveAreBestFive(q: seq<QualifyingRow>, t: OvertakingTables)
    requires CoversOvertaking(q, t)
    ensures var r := Results(q, t); var top := Take(r, 5);
      && |top| == Min(5, |q|)
      && (forall i, j :: 0 <= i < j < |top| ==> top[i].entry.raceScore <= top[j].entry.raceScore)
      && (forall i, j :: 0 <= i < |top| <= j < |r| ==> top[i].entry.raceScore <= r[j].entry.raceScore)
  {
    HeadHasSmallestScores(OvertakingEntries(q, t, OvertakingWeight), 5);
  }

  /** The grid-evolution annotation of a driver: drawn only for a swing of at
      least one place, green for a gain and red otherwise. */
  function Annotation(change: int): (a: Option<Colour>)
    ensures a.None? <==> change == 0
    ensures a == Some(Green) <==> change > 0
    ensures a == Some(Red) <==> change < 0
  {
    if Abs(change) >= 1 then Some(if change > 0 then Green else Red) else None
  }

  /** An annotation, when drawn, has the colour of the driver's gain/loss bar. */
  lemma AnnotationMatchesBar(change: int)
    ensures Annotation(change).None? <==> ChangeColour(change) == Gray
    ensures Annotation(change).Some? ==> Annotation(change).value == ChangeColour(change)
  {
  }

  function AnnotationOf(r: Ranked): Option<Colour> { Annotation(r.positionChange) }

  /** The annotations over the grid view, one per driver in grid order. */
  function GridAnnotations(results: seq<Ranked>): (marks: seq<Option<Colour>>)
    ensures |marks| == |results|
    ensures forall i :: 0 <= i < |marks| ==>
              (marks[i].None? <==> GridView(results)[i].positionChange == 0)
    ensures forall i :: 0 <= i < |marks| ==>
              (marks[i] == Some(Green) <==> GridView(results)[i].positionChange > 0) &&
              (marks[i] == Some(Red) <==> GridView(results)[i].positionChange < 0)
  {
    Map(GridView(results), AnnotationOf)
  }
}
