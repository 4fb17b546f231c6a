/** The Brazil prediction: a dry and a wet ranking of the same grid, the
    driver-by-driver comparison of the two, the biggest gainer of each and the
    weather-impact chart. */
module BrazilPrediction {
  import opened Wrappers
  import opened Seqs
  import opened Sorting
  import opened Ranking

  /** The qualifying table in the script's row order (no Team column). The
      positions are not 1..9: HAM, SAI and VER start from 13, 15 and 16. */
  const Grid: seq<QualifyingRow> := [
    QualifyingRow("NOR", "", 1), QualifyingRow("ANT", "", 2), QualifyingRow("LEC", "", 3),
    QualifyingRow("PIA", "", 4), QualifyingRow("HAD", "", 5), QualifyingRow("RUS", "", 6),
    QualifyingRow("HAM", "", 13), QualifyingRow("SAI", "", 15), QualifyingRow("VER", "", 16)]

  const DryOvertakingWeight: real := 0.3
  const WetOvertakingWeight: real := 0.35

  /** The dry ranking `dry_results`. */
  function DryResults(q: seq<QualifyingRow>, t: OvertakingTables): (r: seq<Ranked>)
    requires CoversOvertaking(q, t)
    ensures |r| == |q|
    ensures multiset(Map(r, RankedDriver)) == multiset(Map(q, RowDriver))
  {
    var e := OvertakingEntries(q, t, DryOvertakingWeight);
    ExtendsKeepsColumns(q, e);
    RankKeepsDrivers(e);
    Rank(e)
  }

  /** The wet scenario's maps: the four of the dry formula plus WeatherFactor
      and SafetyCarFactor. */
  datatype WetTables = WetTables(base: OvertakingTables, weather: map<string, real>, safetyCar: map<string, real>)

  predicate CoversWet(q: seq<QualifyingRow>, t: WetTables)
  {
    CoversOvertaking(q, t.base) && Covers(q, t.weather) && Covers(q, t.safetyCar)
  }

  function WetScore(pace: real, overtaking: real, form: real, reliability: real, weather: real, safetyCar: real): real
  {
    OvertakingScore(pace, overtaking, form, reliability, WetOvertakingWeight) + weather + safetyCar
  }

  /** Looks up the six wet coefficients for every driver and adds
      RaceScore = RacePace * FormMultiplier * ReliabilityFactor
                  - 0.35 * OvertakingFactor + WeatherFactor + SafetyCarFactor. */
  function WetEntries(q: seq<QualifyingRow>, t: WetTables): (e: seq<Entry>)
    requires CoversWet(q, t)
    ensures Extends(q, e)
    ensures forall i :: 0 <= i < |q| ==>
              var d := q[i].driver;
              var b := t.base;
              && e[i].factors == [b.pace[d], b.overtaking[d], b.form[d], b.reliability[d], t.weather[d], t.safetyCar[d]]
              && e[i].raceScore == WetScore(b.pace[d], b.overtaking[d], b.form[d], b.reliability[d], t.weather[d], t.safetyCar[d])
  {
    var b := t.base;
    seq(|q|, i requires 0 <= i < |q| =>
      var d := q[i].driver;
      Entry(d, q[i].team, q[i].position,
            [b.pace[d], b.overtaking[d], b.form[d], b.reliability[d], t.weather[d], t.safetyCar[d]],
            WetScore(b.pace[d], b.overtaking[d], b.form[d], b.reliability[d], t.weather[d], t.safetyCar[d])))
  }

  /** The wet ranking `wet_results`. */
  function WetResults(q: seq<QualifyingRow>, t: WetTables): (r: seq<Ranked>)
    requires CoversWet(q, t)
    ensures |r| == |q|
    ensures multiset(Map(r, RankedDriver)) == multiset(Map(q, RowDriver))
  {
    var e := WetEntries(q, t);
    ExtendsKeepsColumns(q, e);
    RankKeepsDrivers(e);
    Rank(e)
  }

  /** The qualifying positions of this grid add up to 65, so each ranking's
      changes add up to 65 - (1 + ... + 9) = 20: the field as a whole moves
      forward because positions 7-12 and 14 are missing. */
  lemma GridQualifyingSum(e: seq<Entry>)
    requires Extends(Grid, e)
    ensures Sum(Map(e, EntryQualifying)) == 65
  {
    ExtendsKeepsColumns(Grid, e);
    var col := Map(e, EntryQualifying);
    assert col == [1, 2, 3, 4, 5, 6, 13, 15, 16];
    assert Sum(col[..1]) == 1;
    assert col[..2][..1] == col[..1];
    assert Sum(col[..2]) == Sum(col[..1]) + 2;
    assert col[..3][..2] == col[..2];
    assert Sum(col[..3]) == Sum(col[..2]) + 3;
    assert col[..4][..3] == col[..3];
    assert Sum(col[..4]) == Sum(col[..3]) + 4;
    assert col[..5][..4] == col[..4];
    assert Sum(col[..5]) == Sum(col[..4]) + 5;
    assert col[..6][..5] == col[..5];
    assert Sum(col[..6]) == Sum(col[..5]) + 6;
    assert col[..7][..6] == col[..6];
    assert Sum(col[..7]) == Sum(col[..6]) + 13;
    assert col[..8][..7] == col[..7];
    assert Sum(col[..8]) == Sum(col[..7]) + 15;
    assert col[..8] == col[..|col| - 1];
  }

  lemma DryChangesSum(t: OvertakingTables)
    requires CoversOvertaking(Grid, t)
    ensures Sum(Map(DryResults(Grid, t), ChangeOf)) == 20
  {
    var e := OvertakingEntries(Grid, t, DryOvertakingWeight);
    ChangeSum(e);
    GridQualifyingSum(e);
    assert Triangle(9) == 45;
  }

  lemma WetChangesSum(t: WetTables)
    requires CoversWet(Grid, t)
    ensures Sum(Map(WetResults(Grid, t), ChangeOf)) == 20
  {
    var e := WetEntries(Grid, t);
    ChangeSum(e);
    GridQualifyingSum(e);
    assert Triangle(9) == 45;
  }

  /** A row of `comparison`: Driver, Qualifying, Dry Finish, Wet Finish and
      Difference. */
  datatype ComparisonRow = ComparisonRow(driver: string, qualifying: int, dryFinish: int, wetFinish: int, difference: int)

  /** The merged row of a dry row and the wet row of the same driver, with
      Difference = Wet Finish - Dry Finish. */
  function Joined(dry: Ranked, wet: Ranked): ComparisonRow
  {
    ComparisonRow(dry.entry.driver, dry.entry.qualifyingPosition, dry.predictedPosition,
                  wet.predictedPosition, wet.predictedPosition - dry.predictedPosition)
  }

  /** The rows an inner merge on Driver produces for one dry row: one per wet
      row with the same driver, in wet-table order. */
  function Matches(d: Ranked, wet: seq<Ranked>): seq<ComparisonRow>
  {
    if wet == [] then []
    else (if wet[0].entry.driver == d.entry.driver then [Joined(d, wet[0])] else []) + Matches(d, wet[1..])
  }

  /** `pd.merge(dry, wet, on="Driver")`: an inner join that keeps the dry
      table's row order. */
  function Merge(dry: seq<Ranked>, wet: seq<Ranked>): seq<ComparisonRow>
  {
    if dry == [] then [] else Matches(dry[0], wet) + Merge(dry[1..], wet)
  }

  /** A dry row whose driver is not in the wet table is dropped. */
  lemma {:induction false} MatchesNone(d: Ranked, wet: seq<Ranked>)
    requires forall k :: 0 <= k < |wet| ==> wet[k].entry.driver != d.entry.driver
    ensures Matches(d, wet) == []
  {
    if wet != [] {
      MatchesNone(d, wet[1..]);
    }
  }

  /** A dry row whose driver is in exactly one wet row yields exactly one row. */
  lemma {:induction false} MatchesUnique(d: Ranked, wet: seq<Ranked>, j: nat)
    requires j < |wet| && wet[j].entry.driver == d.entry.driver
    requires forall k :: 0 <= k < |wet| && k != j ==> wet[k].entry.driver != d.entry.driver
    ensures Matches(d, wet) == [Joined(d, wet[j])]
  {
    if j == 0 {
      MatchesNone(d, wet[1..]);
    } else {
      MatchesUnique(d, wet[1..], j - 1);
    }
  }

  /** When every dry driver occurs once in the wet table, the merge has exactly
      one row per dry row, in the same order, joined with that driver's wet row. */
  lemma {:induction false} MergeOneToOne(dry: seq<Ranked>, wet: seq<Ranked>)
    requires Distinct(Map(wet, RankedDriver))
    requires forall i :: 0 <= i < |dry| ==> dry[i].entry.driver in Map(wet, RankedDriver)
    ensures |Merge(dry, wet)| == |dry|
    ensures forall i :: 0 <= i < |dry| ==>
              exists j :: 0 <= j < |wet| && wet[j].entry.driver == dry[i].entry.driver &&
                Merge(dry, wet)[i] == Joined(dry[i], wet[j])
  {
    if dry != [] {
      var names := Map(wet, RankedDriver);
      var j :| 0 <= j < |names| && names[j] == dry[0].entry.driver;
      forall k | 0 <= k < |wet| && k != j
        ensures wet[k].entry.driver != dry[0].entry.driver
      {
        assert names[k] == wet[k].entry.driver;
      }
      MatchesUnique(dry[0], wet, j);
      MergeOneToOne(dry[1..], wet);
      var m := Merge(dry, wet);
      assert m == [Joined(dry[0], wet[j])] + Merge(dry[1..], wet);
      forall i | 0 < i < |dry|
        ensures exists j' :: 0 <= j' < |wet| && wet[j'].entry.driver == dry[i].entry.driver &&
                  m[i] == Joined(dry[i], wet[j'])
      {
        assert m[i] == Merge(dry[1..], wet)[i - 1];
        assert dry[i] == dry[1..][i - 1];
      }
    }
  }

  function ComparisonDriver(c: ComparisonRow): string { c.driver }

  predicate QualifyingRowLe(a: ComparisonRow, b: ComparisonRow) { a.qualifying <= b.qualifying }

  /** `comparison`: the merge sorted by Qualifying. */
  function Comparison(dry: seq<Ranked>, wet: seq<Ranked>): (c: seq<ComparisonRow>)
    ensures multiset(c) == multiset(Merge(dry, wet))
    ensures forall i, j :: 0 <= i < j < |c| ==> c[i].qualifying <= c[j].qualifying
  {
    assert TotalPreorder(QualifyingRowLe);
    SortBy(Merge(dry, wet), QualifyingRowLe)
  }

  /** The dry and wet rankings of one grid with distinct drivers hold the same
      drivers, each once. */
  lemma SameDrivers(q: seq<QualifyingRow>, dryEntries: seq<Entry>, wetEntries: seq<Entry>)
    requires Distinct(Map(q, RowDriver))
    requires Extends(q, dryEntries) && Extends(q, wetEntries)
    ensures var dry, wet := Rank(dryEntries), Rank(wetEntries);
      && multiset(Map(dry, RankedDriver)) == multiset(Map(q, RowDriver))
      && multiset(Map(wet, RankedDriver)) == multiset(Map(q, RowDriver))
      && Distinct(Map(dry, RankedDriver)) && Distinct(Map(wet, RankedDriver))
  {
    ExtendsKeepsColumns(q, dryEntries);
    ExtendsKeepsColumns(q, wetEntries);
    RankKeepsDrivers(dryEntries);
    RankKeepsDrivers(wetEntries);
  }

  /** Every driver of the dry table has a row in a wet table over the same drivers. */
  lemma DriversMatched(dry: seq<Ranked>, wet: seq<Ranked>)
    requires multiset(Map(dry, RankedDriver)) == multiset(Map(wet, RankedDriver))
    ensures forall i :: 0 <= i < |dry| ==> dry[i].entry.driver in Map(wet, RankedDriver)
  {
    var dd := Map(dry, RankedDriver);
    forall i | 0 <= i < |dry|
      ensures dry[i].entry.driver in Map(wet, RankedDriver)
    {
      assert dd[i] in multiset(dd);
    }
  }

  /** The merge of two tables over the same distinct drivers carries the dry
      table's driver column. */
  lemma MergeDrivers(dry: seq<Ranked>, wet: seq<Ranked>)
    requires Distinct(Map(wet, RankedDriver))
    requires multiset(Map(dry, RankedDriver)) == multiset(Map(wet, RankedDriver))
    ensures Map(Merge(dry, wet), ComparisonDriver) == Map(dry, RankedDriver)
  {
    DriversMatched(dry, wet);
    MergeOneToOne(dry, wet);
    var m := Merge(dry, wet);
    forall i | 0 <= i < |m|
      ensures Map(m, ComparisonDriver)[i] == Map(dry, RankedDriver)[i]
    {
      var j :| 0 <= j < |wet| && wet[j].entry.driver == dry[i].entry.driver && m[i] == Joined(dry[i], wet[j]);
    }
  }

  /** The comparison of two tables over the same distinct drivers lists each
      driver of the dry table once. */
  lemma ComparisonDrivers(dry: seq<Ranked>, wet: seq<Ranked>)
    requires Distinct(Map(dry, RankedDriver)) && Distinct(Map(wet, RankedDriver))
    requires multiset(Map(dry, RankedDriver)) == multiset(Map(wet, RankedDriver))
    ensures var c := Comparison(dry, wet);
      && |c| == |dry|
      && multiset(Map(c, ComparisonDriver)) == multiset(Map(dry, RankedDriver))
      && Distinct(Map(c, ComparisonDriver))
  {
    MergeDrivers(dry, wet);
    var m := Merge(dry, wet);
    var c := Comparison(dry, wet);
    MapPermutation(c, m, ComparisonDriver);
    DistinctPermutation(Map(dry, RankedDriver), Map(c, ComparisonDriver));
    assert |c| == |multiset(c)| == |multiset(m)| == |m|;
  }

  /** `row` joins the dry and the wet row of one driver. */
  ghost predicate JoinedFrom(dry: seq<Ranked>, wet: seq<Ranked>, row: ComparisonRow)
  {
    exists i, j :: 0 <= i < |dry| && 0 <= j < |wet| &&
      dry[i].entry.driver == wet[j].entry.driver && row == Joined(dry[i], wet[j])
  }

  /** Each row of the comparison of two tables over the same distinct drivers
      joins one driver's dry and wet rows. */
  lemma ComparisonRows(dry: seq<Ranked>, wet: seq<Ranked>)
    requires Distinct(Map(wet, RankedDriver))
    requires multiset(Map(dry, RankedDriver)) == multiset(Map(wet, RankedDriver))
    ensures forall k :: 0 <= k < |Comparison(dry, wet)| ==> JoinedFrom(dry, wet, Comparison(dry, wet)[k])
  {
    DriversMatched(dry, wet);
    MergeOneToOne(dry, wet);
    var m := Merge(dry, wet);
    forall i | 0 <= i < |m|
      ensures JoinedFrom(dry, wet, m[i])
    {
      var j :| 0 <= j < |wet| && wet[j].entry.driver == dry[i].entry.driver && m[i] == Joined(dry[i], wet[j]);
    }
    var c := Comparison(dry, wet);
    forall k | 0 <= k < |c|
      ensures JoinedFrom(dry, wet, c[k])
    {
      assert c[k] in multiset(m);
      var i :| 0 <= i < |m| && m[i] == c[k];
    }
  }

  /** The columns of a comparison row: the driver's qualifying position and dry
      finish from the dry row, the wet finish from the wet row, and
      Difference = Wet Finish - Dry Finish. */
  lemma ComparisonColumns(dry: seq<Ranked>, wet: seq<Ranked>)
    requires Distinct(Map(wet, RankedDriver))
    requires multiset(Map(dry, RankedDriver)) == multiset(Map(wet, RankedDriver))
    ensures var c := Comparison(dry, wet);
      forall k :: 0 <= k < |c| ==>
        exists i, j :: 0 <= i < |dry| && 0 <= j < |wet| &&
          dry[i].entry.driver == c[k].driver == wet[j].entry.driver &&
          c[k].qualifying == dry[i].entry.qualifyingPosition &&
          c[k].dryFinish == dry[i].predictedPosition &&
          c[k].wetFinish == wet[j].predictedPosition &&
          c[k].difference == c[k].wetFinish - c[k].dryFinish
  {
    ComparisonRows(dry, wet);
    var c := Comparison(dry, wet);
    forall k | 0 <= k < |c|
      ensures exists i, j :: 0 <= i < |dry| && 0 <= j < |wet| &&
                dry[i].entry.driver == c[k].driver == wet[j].entry.driver &&
                c[k].qualifying == dry[i].entry.qualifyingPosition &&
                c[k].dryFinish == dry[i].predictedPosition &&
                c[k].wetFinish == wet[j].predictedPosition &&
                c[k].difference == c[k].wetFinish - c[k].dryFinish
    {
      assert JoinedFrom(dry, wet, c[k]);
      var i, j :| 0 <= i < |dry| && 0 <= j < |wet| &&
                  dry[i].entry.driver == wet[j].entry.driver && c[k] == Joined(dry[i], wet[j]);
    }
  }

  /** `c` is the comparison the script means for the rankings `dry` and `wet`
      of the grid `q`: one row per grid driver, ordered by qualifying position,
      each row holding the driver's qualifying position and dry finish from its
      dry row, its wet finish from its wet row, and
      Difference = Wet Finish - Dry Finish. */
  ghost predicate ComparesGrid(q: seq<QualifyingRow>, dry: seq<Ranked>, wet: seq<Ranked>, c: seq<ComparisonRow>)
  {
    && |c| == |q|
    && multiset(Map(c, ComparisonDriver)) == multiset(Map(q, RowDriver))
    && Distinct(Map(c, ComparisonDriver))
    && (forall i, j :: 0 <= i < j < |c| ==> c[i].qualifying <= c[j].qualifying)
    && forall k :: 0 <= k < |c| ==>
         exists i, j :: 0 <= i < |dry| && 0 <= j < |wet| &&
           dry[i].entry.driver == c[k].driver == wet[j].entry.driver &&
           c[k].qualifying == dry[i].entry.qualifyingPosition &&
           c[k].dryFinish == dry[i].predictedPosition &&
           c[k].wetFinish == wet[j].predictedPosition &&
           c[k].difference == c[k].wetFinish - c[k].dryFinish
  }

  /** The comparison of two rankings of one grid with distinct drivers. */
  lemma ComparisonOfGrid(q: seq<QualifyingRow>, dry: seq<Ranked>, wet: seq<Ranked>)
    requires Distinct(Map(dry, RankedDriver)) && Distinct(Map(wet, RankedDriver))
    requires multiset(Map(dry, RankedDriver)) == multiset(Map(q, RowDriver))
    requires multiset(Map(wet, RankedDriver)) == multiset(Map(q, RowDriver))
    ensures ComparesGrid(q, dry, wet, Comparison(dry, wet))
  {
    ComparisonDrivers(dry, wet);
    ComparisonColumns(dry, wet);
    assert |dry| == |multiset(Map(dry, RankedDriver))| == |multiset(Map(q, RowDriver))| == |q|;
  }

  /** With unique driver codes the comparison of the dry and wet rankings has
      exactly one row per driver of the grid, each joining that driver's dry
      and wet rows with Difference = Wet Finish - Dry Finish, and is ordered by
      qualifying position. */
  lemma ComparisonOneRowPerDriver(q: seq<QualifyingRow>, tDry: OvertakingTables, tWet: WetTables)
    requires Distinct(Map(q, RowDriver))
    requires CoversOvertaking(q, tDry) && CoversWet(q, tWet)
    ensures var dry, wet := DryResults(q, tDry), WetResults(q, tWet);
      ComparesGrid(q, dry, wet, Comparison(dry, wet))
  {
    SameDrivers(q, OvertakingEntries(q, tDry, DryOvertakingWeight), WetEntries(q, tWet));
    ComparisonOfGrid(q, DryResults(q, tDry), WetResults(q, tWet));
  }

  /** `sort_values("PositionChange", ascending=False).iloc[0]`: a row with the
      largest gain; None for an empty table, where `iloc[0]` raises. */
  function BiggestGainer(results: seq<Ranked>): (g: Option<Ranked>)
    ensures g.None? <==> results == []
    ensures g.Some? ==> g.value in results
    ensures g.Some? ==> forall k :: 0 <= k < |results| ==> results[k].positionChange <= g.value.positionChange
  {
    if results == [] then None
    else
      OrdersAreTotalPreorders();
      var sorted := SortBy(results, ChangeGe);
      assert forall k :: 0 <= k < |results| ==> results[k] in multiset(sorted);
      assert sorted[0] in multiset(results);
      Some(sorted[0])
  }

  /** When the changes of a table add up to zero or more (zero for a grid
      listed as 1..n, 20 for this grid), its biggest gainer gains or holds. */
  lemma BiggestGainerNeverLoses(results: seq<Ranked>)
    requires results != []
    requires Sum(Map(results, ChangeOf)) >= 0
    ensures BiggestGainer(results).value.positionChange >= 0
  {
    var g := BiggestGainer(results).value;
    if g.positionChange < 0 {
      NegativeSum(Map(results, ChangeOf));
    }
  }

  /** In both Brazil scenarios the biggest gainer exists and its change is at
      least zero, so the "+" printed before it is never followed by a loss. */
  lemma BrazilGainersNeverLose(tDry: OvertakingTables, tWet: WetTables)
    requires CoversOvertaking(Grid, tDry) && CoversWet(Grid, tWet)
    ensures var g := BiggestGainer(DryResults(Grid, tDry)); g.Some? && g.value.positionChange >= 0
    ensures var g := BiggestGainer(WetResults(Grid, tWet)); g.Some? && g.value.positionChange >= 0
  {
    DryChangesSum(tDry);
    WetChangesSum(tWet);
    BiggestGainerNeverLoses(DryResults(Grid, tDry));
    BiggestGainerNeverLoses(WetResults(Grid, tWet));
  }

  /** A nonempty sequence of negative numbers has a negative sum. */
  lemma {:induction false} NegativeSum(s: seq<int>)
    requires s != [] && forall k :: 0 <= k < |s| ==> s[k] < 0
    ensures Sum(s) < 0
  {
    if |s| > 1 {
      NegativeSum(s[..|s| - 1]);
    }
  }

  /** Sorting both rankings by Driver lines up the dry and wet rows of the
      same driver at the same index of the position-change chart. */
  lemma DryWetChangesAlign(q: seq<QualifyingRow>, tDry: OvertakingTables, tWet: WetTables)
    requires Distinct(Map(q, RowDriver))
    requires CoversOvertaking(q, tDry) && CoversWet(q, tWet)
    ensures var a, b := ByDriver(DryResults(q, tDry)), ByDriver(WetResults(q, tWet));
      && |a| == |b| == |q|
      && forall i :: 0 <= i < |a| ==> a[i].entry.driver == b[i].entry.driver
  {
    var dry, wet := DryResults(q, tDry), WetResults(q, tWet);
    SameDrivers(q, OvertakingEntries(q, tDry, DryOvertakingWeight), WetEntries(q, tWet));
    ByDriverAligns(dry, wet);
    assert |ByDriver(dry)| == |multiset(ByDriver(dry))| == |multiset(dry)| == |dry|;
  }

  /** A row of the weather-impact chart: the comparison row and |Difference|. */
  datatype ImpactRow = ImpactRow(row: ComparisonRow, weatherImpact: nat)

  function ImpactOf(c: ComparisonRow): ImpactRow { ImpactRow(c, Abs(c.difference)) }

  predicate ImpactGe(a: ImpactRow, b: ImpactRow) { a.weatherImpact >= b.weatherImpact }

  /** `impact`: the comparison with WeatherImpact = |Difference|, largest first. */
  function ImpactChart(comparison: seq<ComparisonRow>): (chart: seq<ImpactRow>)
    ensures multiset(chart) == multiset(Map(comparison, ImpactOf))
    ensures forall i :: 0 <= i < |chart| ==>
              chart[i].row in comparison &&
              chart[i].weatherImpact == Abs(chart[i].row.difference)
    ensures forall i, j :: 0 <= i < j < |chart| ==> chart[i].weatherImpact >= chart[j].weatherImpact
  {
    assert TotalPreorder(ImpactGe);
    var rows := Map(comparison, ImpactOf);
    var chart := SortBy(rows, ImpactGe);
    assert forall i :: 0 <= i < |chart| ==> chart[i] in multiset(rows);
    chart
  }

  /** The band of a position swing: dark red from 3, orange from 1, light
      green below. */
  function ImpactBand(swing: int): (c: Colour)
    ensures c == DarkRed <==> swing >= 3
    ensures c == Orange <==> 1 <= swing < 3
    ensures c == LightGreen <==> swing < 1
  {
    if swing >= 3 then DarkRed else if swing >= 1 then Orange else LightGreen
  }

  function ImpactBandOf(r: ImpactRow): Colour { ImpactBand(r.weatherImpact) }

  /** The colour list of the weather-impact chart: one per bar, light green
      exactly for drivers who finish in the same place dry and wet, and since
      the bars go from largest swing down, all dark reds come first and all
      light greens last. */
  function ImpactColours(comparison: seq<ComparisonRow>): (cs: seq<Colour>)
    ensures |cs| == |comparison|
    ensures forall i :: 0 <= i < |cs| ==> cs[i] == ImpactBand(ImpactChart(comparison)[i].weatherImpact)
    ensures forall i :: 0 <= i < |cs| ==> (cs[i] == LightGreen <==> ImpactChart(comparison)[i].row.difference == 0)
    ensures forall i, j :: 0 <= i < j < |cs| && cs[j] == DarkRed ==> cs[i] == DarkRed
    ensures forall i, j :: 0 <= i < j < |cs| && cs[i] == LightGreen ==> cs[j] == LightGreen
  {
    var chart := ImpactChart(comparison);
    assert |chart| == |multiset(chart)| == |Map(comparison, ImpactOf)|;
    Map(chart, ImpactBandOf)
  }
}
