/** The Abu Dhabi championship-finale prediction: qualifying gaps, the ranked
    race result, the championship points update and the gain/loss labels of
    the printed finishing order. */
module AbuDhabiPrediction {
  import opened Wrappers
  import opened Seqs
  import opened Ranking

  /** The qualifying table: drivers and teams in grid order. */
  const Grid: seq<QualifyingRow> := [
    QualifyingRow("VER", "Red Bull", 1), QualifyingRow("NOR", "McLaren", 2),
    QualifyingRow("PIA", "McLaren", 3), QualifyingRow("RUS", "Mercedes", 4),
    QualifyingRow("LEC", "Ferrari", 5), QualifyingRow("ALO", "Aston Martin", 6),
    QualifyingRow("BOR", "Sauber", 7), QualifyingRow("OCO", "Haas", 8),
    QualifyingRow("HAD", "RB", 9), QualifyingRow("TSU", "Red Bull", 10)]

  // ----- QualifyingGap -----

  /** The fastest lap of a non-empty column of times. */
  function Fastest(times: seq<int>): (m: int)
    requires times != []
    ensures m in times
    ensures forall i :: 0 <= i < |times| ==> m <= times[i]
  {
    if |times| == 1 then times[0]
    else
      var rest := Fastest(times[1..]);
      assert forall i :: 1 <= i < |times| ==> times[i] == times[1..][i - 1];
      if times[0] <= rest then times[0] else rest
  }

  /** QualifyingGap = QualifyingTime - min(QualifyingTime), with times in
      integer milliseconds. */
  function QualifyingGaps(times: seq<int>): (gaps: seq<int>)
    ensures |gaps| == |times|
    ensures forall i :: 0 <= i < |gaps| ==> gaps[i] >= 0
    ensures forall i :: 0 <= i < |gaps| ==>
              (gaps[i] == 0 <==> forall j :: 0 <= j < |times| ==> times[i] <= times[j])
    ensures forall i, j :: 0 <= i < |gaps| && 0 <= j < |gaps| ==> gaps[i] - gaps[j] == times[i] - times[j]
    ensures times != [] ==> exists i :: 0 <= i < |gaps| && gaps[i] == 0
  {
    if times == [] then []
    else
      var fastest := Fastest(times);
      var gaps := seq(|times|, i requires 0 <= i < |times| => times[i] - fastest);
      assert exists i :: 0 <= i < |times| && times[i] == fastest;
      gaps
  }

  // ----- Ranking -----

  /** RacePace, TrafficPenalty and Form looked up, RaceScore = RacePace * Form
      + TrafficPenalty, sorted, numbered. With the grid listed 1..10 the gains
      and losses of the prediction cancel out. */
  lemma PredictionChangesCancel(t: TrafficTables)
    requires CoversTraffic(Grid, t)
    ensures Sum(Map(Rank(TrafficEntries(Grid, t)), ChangeOf)) == 0
  {
    var e := TrafficEntries(Grid, t);
    assert forall i :: 0 <= i < |e| ==> e[i].qualifyingPosition == Grid[i].position;
    ChangesSumToZero(e);
  }

  // ----- Championship -----

  /** `points_map`: points for P1..P10. */
  const PointsTable: map<int, nat> :=
    map[1 := 25, 2 := 18, 3 := 15, 4 := 12, 5 := 10, 6 := 8, 7 := 6, 8 := 4, 9 := 2, 10 := 1]

  /** `points_map.get(pos, 0)`: a points-scoring finish earns something, any
      other position earns nothing, and a win is worth the most. */
  function PointsFor(position: int): (p: nat)
    ensures p > 0 <==> 1 <= position <= 10
    ensures p <= 25
    ensures p == 25 <==> position == 1
  {
    if position in PointsTable then PointsTable[position] else 0
  }

  /** Each place in the points pays strictly more than the next one. */
  lemma PointsStrictlyDecrease(position: int)
    requires 1 <= position < 10
    ensures PointsFor(position + 1) < PointsFor(position)
  {
  }

  /** A dict in insertion order: its keys in `order`, its values in `points`. */
  datatype Standings = Standings(order: seq<string>, points: map<string, int>)

  predicate ValidStandings(s: Standings)
  {
    && Distinct(s.order)
    && (forall d :: d in s.order ==> d in s.points)
    && (forall d :: d in s.points ==> d in s.order)
  }

  datatype Championship = Championship(standings: Standings, winner: string)

  /** `max` of an empty dict raises. */
  datatype ChampionshipError = NoContenders

  /** The points a driver collects from a result table: those of every row
      carrying that driver. */
  function PointsEarned(prediction: seq<Ranked>, driver: string): nat
  {
    if prediction == [] then 0
    else
      var last := prediction[|prediction| - 1];
      PointsEarned(prediction[..|prediction| - 1], driver)
        + (if last.entry.driver == driver then PointsFor(last.predictedPosition) else 0)
  }

  /** Key `k` of the standings has the most points, and every key inserted
      before it has strictly fewer: the one Python's `max` returns. */
  ghost predicate WinsAt(s: Standings, k: int)
  {
    && 0 <= k < |s.order|
    && (forall j :: 0 <= j < |s.order| ==> s.order[j] in s.points)
    && (forall j :: 0 <= j < |s.order| ==> s.points[s.order[j]] <= s.points[s.order[k]])
    && (forall j :: 0 <= j < k ==> s.points[s.order[j]] < s.points[s.order[k]])
  }

  /** `calculate_championship`: copies the standings, adds the points of each
      result row whose driver is a key, then picks the first key with the most
      points. The caller's standings are a value and stay as they were. */
  method CalculateChampionship(prediction: seq<Ranked>, current: Standings)
    returns (r: Result<Championship, ChampionshipError>)
    requires ValidStandings(current)
    ensures r.Failure? <==> current.order == []
    ensures r.Success? ==>
              && r.value.standings.order == current.order
              && r.value.standings.points.Keys == current.points.Keys
              && ValidStandings(r.value.standings)
              && (forall d :: d in current.points ==>
                    r.value.standings.points[d] == current.points[d] + PointsEarned(prediction, d))
              && (forall d :: d in current.points ==> r.value.standings.points[d] >= current.points[d])
              && (exists k :: WinsAt(r.value.standings, k) && r.value.standings.order[k] == r.value.winner)
  {
    var standings := current.points;
    for i := 0 to |prediction|
      invariant standings.Keys == current.points.Keys
      invariant forall d :: d in standings ==> standings[d] == current.points[d] + PointsEarned(prediction[..i], d)
    {
      assert prediction[..i + 1][..i] == prediction[..i];
      var driver := prediction[i].entry.driver;
      if driver in standings {
        standings := standings[driver := standings[driver] + PointsFor(prediction[i].predictedPosition)];
      }
    }
    assert prediction[..|prediction|] == prediction;
    var order := current.order;
    if order == [] {
      return Failure(NoContenders);
    }
    assert forall j :: 0 <= j < |order| ==> order[j] in standings;
    var best := 0;
    for k := 1 to |order|
      invariant 0 <= best < k
      invariant forall j :: 0 <= j < k ==> standings[order[j]] <= standings[order[best]]
      invariant forall j :: 0 <= j < best ==> standings[order[j]] < standings[order[best]]
    {
      if standings[order[k]] > standings[order[best]] {
        best := k;
      }
    }
    var final := Standings(order, standings);
    assert WinsAt(final, best);
    r := Success(Championship(final, order[best]));
  }

  lemma {:induction false} EarnedWhenAbsent(prediction: seq<Ranked>, driver: string)
    requires forall i :: 0 <= i < |prediction| ==> prediction[i].entry.driver != driver
    ensures PointsEarned(prediction, driver) == 0
  {
    if prediction != [] {
      EarnedWhenAbsent(prediction[..|prediction| - 1], driver);
    }
  }

  /** With one row per driver, a driver earns exactly the points of its own
      predicted position. */
  lemma {:induction false} EarnedFromOwnRow(prediction: seq<Ranked>, i: nat)
    requires Distinct(Map(prediction, RankedDriver)) && i < |prediction|
    ensures PointsEarned(prediction, prediction[i].entry.driver) == PointsFor(prediction[i].predictedPosition)
  {
    var n := |prediction|;
    var prefix := prediction[..n - 1];
    assert forall j :: 0 <= j < n ==> Map(prediction, RankedDriver)[j] == prediction[j].entry.driver;
    if i == n - 1 {
      EarnedWhenAbsent(prefix, prediction[i].entry.driver);
    } else {
      assert Map(prefix, RankedDriver) == Map(prediction, RankedDriver)[..n - 1];
      EarnedFromOwnRow(prefix, i);
      assert prefix[i] == prediction[i];
    }
  }

  /** For a ranking with one row per driver, a contender in the standings gains
      the points of its predicted position, and a driver missing from the
      ranking gains nothing. */
  lemma RankingPoints(entries: seq<Entry>, driver: string)
    requires Distinct(Map(entries, EntryDriver))
    ensures var r := Rank(entries);
      && (forall i :: 0 <= i < |r| && r[i].entry.driver == driver ==> PointsEarned(r, driver) == PointsFor(i + 1))
      && ((forall i :: 0 <= i < |entries| ==> entries[i].driver != driver) ==> PointsEarned(r, driver) == 0)
  {
    var r := Rank(entries);
    RankKeepsDrivers(entries);
    forall i | 0 <= i < |r| && r[i].entry.driver == driver
      ensures PointsEarned(r, driver) == PointsFor(i + 1)
    {
      EarnedFromOwnRow(r, i);
    }
    if forall i :: 0 <= i < |entries| ==> entries[i].driver != driver {
      forall i | 0 <= i < |r|
        ensures r[i].entry.driver != driver
      {
        assert Map(r, RankedDriver)[i] in multiset(Map(entries, EntryDriver));
      }
      EarnedWhenAbsent(r, driver);
    }
  }

  // ----- Finishing-order labels -----

  function Digit(n: nat): (c: char)
    requires n < 10
    ensures '0' <= c <= '9'
    ensures c == '0' <==> n == 0
  {
    ('0' as int + n) as char
  }

  function DigitValue(c: char): nat
  {
    if '0' <= c <= '9' then c as int - '0' as int else 0
  }

  /** Decimal notation of a natural number, as an f-string prints it. */
  function DecimalString(n: nat): (s: string)
    ensures s != []
    ensures forall i :: 0 <= i < |s| ==> '0' <= s[i] <= '9'
    ensures s[0] == '0' <==> n == 0
    ensures |s| == 1 <==> n < 10
    ensures |s| > 1 ==> s[0] != '0'
  {
    if n < 10 then [Digit(n)] else DecimalString(n / 10) + [Digit(n % 10)]
  }

  function DecimalValue(s: string): nat
  {
    if s == [] then 0 else DecimalValue(s[..|s| - 1]) * 10 + DigitValue(s[|s| - 1])
  }

  lemma {:induction false} DecimalRoundTrip(n: nat)
    ensures DecimalValue(DecimalString(n)) == n
  {
    if n >= 10 {
      var s := DecimalString(n);
      assert s[..|s| - 1] == DecimalString(n / 10);
      DecimalRoundTrip(n / 10);
    }
  }

  /** The arrow text of the printed finishing order: "Up k", "Down k" or
      "No Change". */
  function ChangeLabel(change: int): (text: string)
    ensures text == "No Change" <==> change == 0
    ensures change > 0 ==> |text| > 3 && text[..3] == "Up "
    ensures change < 0 ==> |text| > 5 && text[..5] == "Down "
    ensures change > 0 ==> text[3] != '0' && forall i :: 3 <= i < |text| ==> '0' <= text[i] <= '9'
    ensures change < 0 ==> text[5] != '0' && forall i :: 5 <= i < |text| ==> '0' <= text[i] <= '9'
  {
    if change > 0 then
      var text := "Up " + DecimalString(change);
      assert text[0] != "No Change"[0];
      text
    else if change < 0 then
      var text := "Down " + DecimalString(-change);
      assert text[0] != "No Change"[0];
      text
    else "No Change"
  }

  /** Reads a change back from its label. */
  function ParseChangeLabel(text: string): int
  {
    if |text| >= 3 && text[..3] == "Up " then DecimalValue(text[3..])
    else if |text| >= 5 && text[..5] == "Down " then 0 - DecimalValue(text[5..]) as int
    else 0
  }

  /** The label determines the change: distinct changes print differently. */
  lemma ChangeLabelRoundTrip(change: int)
    ensures ParseChangeLabel(ChangeLabel(change)) == change
  {
    var text := ChangeLabel(change);
    if change > 0 {
      assert text[3..] == DecimalString(change);
      DecimalRoundTrip(change);
    } else if change < 0 {
      assert text[..3][0] == 'D';
      assert text[5..] == DecimalString(-change);
      DecimalRoundTrip(-change);
    } else {
      assert text[..3][0] == 'N' && text[..5][0] == 'N';
    }
  }
}
