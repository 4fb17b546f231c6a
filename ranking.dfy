/** The ranking step every prediction script shares: sort the driver table by
    RaceScore (lower is better), number the rows 1..n as PredictedPosition and
    set PositionChange = QualifyingPosition - PredictedPosition; plus the
    views the scripts draw from the ranked table. */
module Ranking {
  import opened Seqs
  import opened Sorting

  /** One row of a qualifying table. Scripts whose table has no Team column
      carry the empty string as team. */
  datatype QualifyingRow = QualifyingRow(driver: string, team: string, position: int)

  /** A qualifying row extended with the coefficients looked up for its driver
      (in the script's column order) and the RaceScore computed from them. The
      score is an ordered key; the formulas are idealised over `real`. */
  datatype Entry = Entry(driver: string, team: string, qualifyingPosition: int, factors: seq<real>, raceScore: real)

  /** A row of a ranked result table. */
  datatype Ranked = Ranked(entry: Entry, predictedPosition: int, positionChange: int)

  /** The bar colours the scripts pick from. */
  datatype Colour = Red | Green | Gray | DarkRed | Orange | LightGreen

  /** Every driver of the qualifying table is a key of the coefficient map
      (`Series.map` would otherwise yield NaN for that driver). */
  predicate Covers(q: seq<QualifyingRow>, m: map<string, real>)
  {
    forall i :: 0 <= i < |q| ==> q[i].driver in m
  }

  /** Row i of `e` is row i of `q` (same driver, team and qualifying
      position) with columns added: what `q.copy()` followed by column
      assignments produces. */
  predicate Extends(q: seq<QualifyingRow>, e: seq<Entry>)
  {
    && |e| == |q|
    && forall i :: 0 <= i < |q| ==>
         e[i].driver == q[i].driver && e[i].team == q[i].team && e[i].qualifyingPosition == q[i].position
  }

  /** The coefficient maps of the scripts that score RacePace * Form + TrafficPenalty. */
  datatype TrafficTables = TrafficTables(pace: map<string, real>, traffic: map<string, real>, form: map<string, real>)

  predicate CoversTraffic(q: seq<QualifyingRow>, t: TrafficTables)
  {
    Covers(q, t.pace) && Covers(q, t.traffic) && Covers(q, t.form)
  }

  function TrafficScore(pace: real, traffic: real, form: real): real
  {
    pace * form + traffic
  }

  /** Looks up RacePace, TrafficPenalty and Form for every driver and adds
      RaceScore = RacePace * Form + TrafficPenalty. */
  function TrafficEntries(q: seq<QualifyingRow>, t: TrafficTables): (e: seq<Entry>)
    requires CoversTraffic(q, t)
    ensures Extends(q, e)
    ensures forall i :: 0 <= i < |q| ==>
              var d := q[i].driver;
              && e[i].factors == [t.pace[d], t.traffic[d], t.form[d]]
              && e[i].raceScore == TrafficScore(t.pace[d], t.traffic[d], t.form[d])
  {
    seq(|q|, i requires 0 <= i < |q| =>
      var d := q[i].driver;
      Entry(d, q[i].team, q[i].position, [t.pace[d], t.traffic[d], t.form[d]],
            TrafficScore(t.pace[d], t.traffic[d], t.form[d])))
  }

  /** The coefficient maps of the scripts that score
      RacePace * FormMultiplier * ReliabilityFactor - OvertakingFactor * weight. */
  datatype OvertakingTables = OvertakingTables(
    pace: map<string, real>, overtaking: map<string, real>,
    form: map<string, real>, reliability: map<string, real>)

  predicate CoversOvertaking(q: seq<QualifyingRow>, t: OvertakingTables)
  {
    Covers(q, t.pace) && Covers(q, t.overtaking) && Covers(q, t.form) && Covers(q, t.reliability)
  }

  function OvertakingScore(pace: real, overtaking: real, form: real, reliability: real, weight: real): real
  {
    pace * form * reliability - overtaking * weight
  }

  /** Looks up RacePace, OvertakingFactor, FormMultiplier and ReliabilityFactor
      for every driver and adds the RaceScore weighted by `weight`. */
  function OvertakingEntries(q: seq<QualifyingRow>, t: OvertakingTables, weight: real): (e: seq<Entry>)
    requires CoversOvertaking(q, t)
    ensures Extends(q, e)
    ensures forall i :: 0 <= i < |q| ==>
              var d := q[i].driver;
              && e[i].factors == [t.pace[d], t.overtaking[d], t.form[d], t.reliability[d]]
              && e[i].raceScore == OvertakingScore(t.pace[d], t.overtaking[d], t.form[d], t.reliability[d], weight)
  {
    seq(|q|, i requires 0 <= i < |q| =>
      var d := q[i].driver;
      Entry(d, q[i].team, q[i].position, [t.pace[d], t.overtaking[d], t.form[d], t.reliability[d]],
            OvertakingScore(t.pace[d], t.overtaking[d], t.form[d], t.reliability[d], weight)))
  }

  /** Extending a table keeps its Driver and QualifyingPosition columns. */
  lemma ExtendsKeepsColumns(q: seq<QualifyingRow>, e: seq<Entry>)
    requires Extends(q, e)
    ensures Map(e, EntryDriver) == Map(q, RowDriver)
    ensures Map(e, EntryQualifying) == Map(q, RowPosition)
  {
  }

  function RowDriver(r: QualifyingRow): string { r.driver }
  function RowPosition(r: QualifyingRow): int { r.position }
  function EntryDriver(e: Entry): string { e.driver }
  function EntryQualifying(e: Entry): int { e.qualifyingPosition }
  function EntryOf(r: Ranked): Entry { r.entry }
  function RankedDriver(r: Ranked): string { r.entry.driver }
  function ChangeOf(r: Ranked): int { r.positionChange }

  predicate ScoreLe(a: Entry, b: Entry) { a.raceScore <= b.raceScore }
  predicate QualifyingLe(a: Ranked, b: Ranked) { a.entry.qualifyingPosition <= b.entry.qualifyingPosition }
  predicate PredictedLe(a: Ranked, b: Ranked) { a.predictedPosition <= b.predictedPosition }
  predicate ChangeLe(a: Ranked, b: Ranked) { a.positionChange <= b.positionChange }
  predicate ChangeGe(a: Ranked, b: Ranked) { a.positionChange >= b.positionChange }
  predicate DriverLe(a: Ranked, b: Ranked) { StringLe(a.entry.driver, b.entry.driver) }

  lemma OrdersAreTotalPreorders()
    ensures TotalPreorder(ScoreLe)
    ensures TotalPreorder(QualifyingLe)
    ensures TotalPreorder(PredictedLe)
    ensures TotalPreorder(ChangeLe)
    ensures TotalPreorder(ChangeGe)
    ensures TotalPreorder(DriverLe)
  {
    StringLeIsTotalPreorder();
  }

  /** `sort_values("RaceScore")`, then PredictedPosition = 1..n in row order and
      PositionChange = QualifyingPosition - PredictedPosition. */
  function Rank(entries: seq<Entry>): (r: seq<Ranked>)
    ensures |r| == |entries|
    ensures forall i, j :: 0 <= i < j < |r| ==> r[i].entry.raceScore <= r[j].entry.raceScore
    ensures multiset(Map(r, EntryOf)) == multiset(entries)
    ensures forall i :: 0 <= i < |r| ==> r[i].predictedPosition == i + 1
    ensures forall i :: 0 <= i < |r| ==>
              r[i].positionChange == r[i].entry.qualifyingPosition - r[i].predictedPosition
  {
    OrdersAreTotalPreorders();
    var sorted := SortBy(entries, ScoreLe);
    var r := seq(|sorted|, i requires 0 <= i < |sorted| =>
                Ranked(sorted[i], i + 1, sorted[i].qualifyingPosition - (i + 1)));
    assert Map(r, EntryOf) == sorted;
    r
  }

  /** Ranking moves rows, so the driver column is the same multiset and stays
      free of repetitions. */
  lemma RankKeepsDrivers(entries: seq<Entry>)
    ensures multiset(Map(Rank(entries), RankedDriver)) == multiset(Map(entries, EntryDriver))
    ensures Distinct(Map(entries, EntryDriver)) ==> Distinct(Map(Rank(entries), RankedDriver))
  {
    var r := Rank(entries);
    MapPermutation(Map(r, EntryOf), entries, EntryDriver);
    assert Map(Map(r, EntryOf), EntryDriver) == Map(r, RankedDriver);
    if Distinct(Map(entries, EntryDriver)) {
      DistinctPermutation(Map(entries, EntryDriver), Map(r, RankedDriver));
    }
  }

  lemma {:induction false} ChangeSumByIndex(r: seq<Ranked>)
    requires forall i :: 0 <= i < |r| ==> r[i].positionChange == r[i].entry.qualifyingPosition - (i + 1)
    ensures Sum(Map(r, ChangeOf)) == Sum(Map(Map(r, EntryOf), EntryQualifying)) - Triangle(|r|)
  {
    if r != [] {
      var r' := r[..|r| - 1];
      assert Map(r, ChangeOf)[..|r| - 1] == Map(r', ChangeOf);
      assert Map(Map(r, EntryOf), EntryQualifying)[..|r| - 1] == Map(Map(r', EntryOf), EntryQualifying);
      ChangeSumByIndex(r');
    }
  }

  /** The position changes of a ranking add up to the sum of the qualifying
      positions minus 1 + 2 + ... + n (n(n+1)/2, see TriangleClosedForm). */
  lemma ChangeSum(entries: seq<Entry>)
    ensures Sum(Map(Rank(entries), ChangeOf)) == Sum(Map(entries, EntryQualifying)) - Triangle(|entries|)
  {
    var r := Rank(entries);
    ChangeSumByIndex(r);
    MapPermutation(Map(r, EntryOf), entries, EntryQualifying);
    SumPermutation(Map(Map(r, EntryOf), EntryQualifying), Map(entries, EntryQualifying));
  }

  lemma {:induction false} GridOrderSum(entries: seq<Entry>)
    requires forall i :: 0 <= i < |entries| ==> entries[i].qualifyingPosition == i + 1
    ensures Sum(Map(entries, EntryQualifying)) == Triangle(|entries|)
  {
    if entries != [] {
      var e' := entries[..|entries| - 1];
      assert Map(entries, EntryQualifying)[..|entries| - 1] == Map(e', EntryQualifying);
      GridOrderSum(e');
    }
  }

  /** When the table lists the grid in order (qualifying positions 1..n), the
      gains and losses of the ranking cancel out. */
  lemma ChangesSumToZero(entries: seq<Entry>)
    requires forall i :: 0 <= i < |entries| ==> entries[i].qualifyingPosition == i + 1
    ensures Sum(Map(Rank(entries), ChangeOf)) == 0
  {
    ChangeSum(entries);
    GridOrderSum(entries);
  }

  /** `head(k)` of a ranking: the first k rows, numbered 1..k, and none of them
      scores worse than a row left out. */
  lemma HeadHasSmallestScores(entries: seq<Entry>, k: nat)
    ensures var r := Rank(entries); var h := Take(r, k);
      && |h| == Min(k, |entries|)
      && (forall i :: 0 <= i < |h| ==> h[i] == r[i] && h[i].predictedPosition == i + 1)
      && (forall i, j :: 0 <= i < j < |h| ==> h[i].entry.raceScore <= h[j].entry.raceScore)
      && (forall i, j :: 0 <= i < |h| <= j < |r| ==> h[i].entry.raceScore <= r[j].entry.raceScore)
  {
  }

  /** `sort_values("QualifyingPosition")`: the grid view of a result table. */
  function GridView(results: seq<Ranked>): (g: seq<Ranked>)
    ensures multiset(g) == multiset(results)
    ensures forall i, j :: 0 <= i < j < |g| ==> g[i].entry.qualifyingPosition <= g[j].entry.qualifyingPosition
  {
    OrdersAreTotalPreorders();
    SortBy(results, QualifyingLe)
  }

  /** The gain/loss bar colour: red for a loss, green for a gain, gray for none. */
  function ChangeColour(change: int): (c: Colour)
    ensures c == Red <==> change < 0
    ensures c == Green <==> change > 0
    ensures c == Gray <==> change == 0
  {
    if change < 0 then Red else if change > 0 then Green else Gray
  }

  function ChangeColourOf(r: Ranked): Colour { ChangeColour(r.positionChange) }

  /** `sort_values("PositionChange")` ascending: the rows of the gain/loss chart. */
  function ChangeBars(results: seq<Ranked>): (bars: seq<Ranked>)
    ensures multiset(bars) == multiset(results)
    ensures forall i, j :: 0 <= i < j < |bars| ==> bars[i].positionChange <= bars[j].positionChange
  {
    OrdersAreTotalPreorders();
    SortBy(results, ChangeLe)
  }

  /** The colour list drawn beside ChangeBars: one colour per bar, and since the
      bars go from largest loss to largest gain, all reds come first and all
      greens last, with grays between. */
  function ChangeBarColours(results: seq<Ranked>): (cs: seq<Colour>)
    ensures |cs| == |results|
    ensures forall i :: 0 <= i < |cs| ==> cs[i] == ChangeColour(ChangeBars(results)[i].positionChange)
    ensures forall i, j :: 0 <= i < j < |cs| && cs[j] == Red ==> cs[i] == Red
    ensures forall i, j :: 0 <= i < j < |cs| && cs[i] == Green ==> cs[j] == Green
  {
    Map(ChangeBars(results), ChangeColourOf)
  }

  /** `sort_values("Driver")`. */
  function ByDriver(results: seq<Ranked>): (s: seq<Ranked>)
    ensures multiset(s) == multiset(results)
    ensures SortedBy(DriverLe, s)
  {
    OrdersAreTotalPreorders();
    SortBy(results, DriverLe)
  }

  lemma DriverColumnSorted(s: seq<Ranked>)
    requires SortedBy(DriverLe, s)
    ensures SortedBy(StringLe, Map(s, RankedDriver))
  {
    forall i, j | 0 <= i < j < |s|
      ensures StringLe(Map(s, RankedDriver)[i], Map(s, RankedDriver)[j])
    {
      assert DriverLe(s[i], s[j]);
    }
  }

  /** Two result tables over the same drivers, each sorted by Driver, list the
      drivers in the same order, so row i of each describes the same driver. */
  lemma ByDriverAligns(a: seq<Ranked>, b: seq<Ranked>)
    requires Distinct(Map(a, RankedDriver))
    requires multiset(Map(a, RankedDriver)) == multiset(Map(b, RankedDriver))
    ensures |ByDriver(a)| == |ByDriver(b)|
    ensures forall i :: 0 <= i < |ByDriver(a)| ==> ByDriver(a)[i].entry.driver == ByDriver(b)[i].entry.driver
  {
    var sa, sb := ByDriver(a), ByDriver(b);
    var da, db := Map(sa, RankedDriver), Map(sb, RankedDriver);
    MapPermutation(sa, a, RankedDriver);
    MapPermutation(sb, b, RankedDriver);
    DistinctPermutation(Map(a, RankedDriver), da);
    StringLeIsTotalPreorder();
    DriverColumnSorted(sa);
    DriverColumnSorted(sb);
    forall i, j | 0 <= i < |da| && 0 <= j < |da| && i != j
      ensures !(StringLe(da[i], da[j]) && StringLe(da[j], da[i]))
    {
      if StringLe(da[i], da[j]) && StringLe(da[j], da[i]) {
        StringLeAntisymmetric(da[i], da[j]);
        assert false;
      }
    }
    SortedUnique(da, db, StringLe);
    assert |sa| == |da| == |db| == |sb|;
    forall i | 0 <= i < |sa|
      ensures sa[i].entry.driver == sb[i].entry.driver
    {
      assert da[i] == db[i];
    }
  }
}
