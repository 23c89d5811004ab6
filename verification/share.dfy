/** The share card (components/ShareModal.tsx): the yearly average, the
    best and the worst month, and the small trend curve in a 300 x 120
    box with 20 units of padding. */
module Share {
  import opened Types
  import Year
  import Constants
  import TrendPath

  /** Index of the month `data.reduce((prev, curr) => curr.score >=
      prev.score ? curr : prev, data[0])` returns: a highest score, and no
      later month reaches it, so ties go to the later month. */
  function BestIndex(data: seq<MonthlyData>): (k: nat)
    requires |data| > 0
    ensures k < |data|
    ensures forall j | 0 <= j < |data| :: data[j].score <= data[k].score
    ensures forall j | k < j < |data| :: data[j].score < data[k].score
  {
    if |data| == 1 then 0
    else
      var last := |data| - 1;
      var prev := BestIndex(data[..last]);
      if data[last].score >= data[prev].score then last else prev
  }

  /** Index of the month the `<=` reduce returns: a lowest score, and no
      later month is as low, so ties go to the later month. */
  function WorstIndex(data: seq<MonthlyData>): (k: nat)
    requires |data| > 0
    ensures k < |data|
    ensures forall j | 0 <= j < |data| :: data[k].score <= data[j].score
    ensures forall j | k < j < |data| :: data[k].score < data[j].score
  {
    if |data| == 1 then 0
    else
      var last := |data| - 1;
      var prev := WorstIndex(data[..last]);
      if data[last].score <= data[prev].score then last else prev
  }

  /** `stats`: the same average as the shell shows, the best and the worst
      month. */
  datatype Stats = Stats(average: int, best: MonthlyData, worst: MonthlyData)

  function ComputeStats(data: seq<MonthlyData>): (s: Stats)
    requires |data| > 0
    ensures s.average == Year.AverageScore(data)
    ensures s.best in data && s.worst in data
    ensures forall j | 0 <= j < |data| :: s.worst.score <= data[j].score <= s.best.score
  {
    Stats(Year.AverageScore(data), data[BestIndex(data)], data[WorstIndex(data)])
  }

  /** The best-month rule as a specification: a highest score that no
      later month reaches. */
  predicate IsBestIndex(data: seq<MonthlyData>, k: int)
  {
    && 0 <= k < |data|
    && (forall j | 0 <= j < |data| :: data[j].score <= data[k].score)
    && (forall j | k < j < |data| :: data[j].score < data[k].score)
  }

  /** The worst-month rule as a specification. */
  predicate IsWorstIndex(data: seq<MonthlyData>, k: int)
  {
    && 0 <= k < |data|
    && (forall j | 0 <= j < |data| :: data[k].score <= data[j].score)
    && (forall j | k < j < |data| :: data[k].score < data[j].score)
  }

  /** The specification pins the best month down: the reduce picks the
      only index satisfying it. */
  lemma BestIndexIsUnique(data: seq<MonthlyData>, k: int)
    requires |data| > 0
    ensures IsBestIndex(data, k) <==> k == BestIndex(data)
  {
  }

  /** Likewise for the worst month. */
  lemma WorstIndexIsUnique(data: seq<MonthlyData>, k: int)
    requires |data| > 0
    ensures IsWorstIndex(data, k) <==> k == WorstIndex(data)
  {
  }

  /** The seed scores, month by month. */
  lemma SeedScores()
    ensures |Constants.InitialData| == 12
    ensures Constants.InitialData[0].score == 65
    ensures Constants.InitialData[1].score == 45
    ensures Constants.InitialData[2].score == 80
    ensures Constants.InitialData[3].score == 70
    ensures Constants.InitialData[4].score == 55
    ensures Constants.InitialData[5].score == 30
    ensures Constants.InitialData[6].score == 85
    ensures Constants.InitialData[7].score == 60
    ensures Constants.InitialData[8].score == 75
    ensures Constants.InitialData[9].score == 50
    ensures Constants.InitialData[10].score == 40
    ensures Constants.InitialData[11].score == 90
  {
  }

  /** On the seed year the best month is December, with 90. */
  lemma SeedBest()
    ensures BestIndex(Constants.InitialData) == 11
  {
  }

  /** On the seed year the worst month is June, with 30. */
  lemma SeedWorst()
    ensures WorstIndex(Constants.InitialData) == 5
  {
    SeedScores();
    var d := Constants.InitialData;
    assert forall j | 0 <= j < 12 :: d[5].score <= d[j].score;
    WorstIndexIsUnique(d, 5);
  }

  /** Month index i and score s in the share box. */
  lemma ShareCoordinates(i: int, s: int)
    ensures TrendPath.XAt(i, 300.0, 20.0) == 20.0 + i as real * (260.0 / 11.0)
    ensures TrendPath.YAt(s, 120.0, 20.0) == 100.0 - s as real * 0.8
  {
  }

  /** The share card's curve. */
  method SharePath(data: seq<MonthlyData>) returns (path: TrendPath.Path)
    requires |data| > 0
    ensures path.start.x == 20.0
    ensures path.start.y == 100.0 - data[0].score as real * 0.8
    ensures |path.curves| == |data| - 1
    ensures forall i | 0 <= i < |data| - 1 ::
      && path.curves[i].end.x == 20.0 + (i + 1) as real * (260.0 / 11.0)
      && path.curves[i].end.y == 100.0 - data[i + 1].score as real * 0.8
      && path.curves[i].c1.x == 20.0 + (i as real + 0.5) * (260.0 / 11.0)
      && path.curves[i].c1.x == path.curves[i].c2.x
      && path.curves[i].c1.y == 100.0 - data[i].score as real * 0.8
      && path.curves[i].c2.y == path.curves[i].end.y
  {
    path := TrendPath.GraphPath(data, 300.0, 120.0, 20.0);
    ShareCoordinates(0, data[0].score);
    forall i | 0 <= i < |data| - 1
      ensures path.curves[i].end.x == 20.0 + (i + 1) as real * (260.0 / 11.0)
      ensures path.curves[i].end.y == 100.0 - data[i + 1].score as real * 0.8
      ensures path.curves[i].c1.y == 100.0 - data[i].score as real * 0.8
      ensures path.curves[i].c1.x == 20.0 + (i as real + 0.5) * (260.0 / 11.0)
      ensures path.curves[i].c1.x == path.curves[i].c2.x
      ensures path.curves[i].c2.y == path.curves[i].end.y
    {
      assert path.curves[i] == TrendPath.SegmentAt(data, i + 1, 300.0, 120.0, 20.0);
      ShareCoordinates(i + 1, data[i + 1].score);
      ShareCoordinates(i, data[i].score);
    }
  }

  /** In the share box a score of 0 is drawn at y = 100, a score of 100 at
      y = 20, and a higher score always higher. */
  lemma ShareHeights(s: int, t: int)
    ensures TrendPath.YAt(0, 120.0, 20.0) == 100.0
    ensures TrendPath.YAt(100, 120.0, 20.0) == 20.0
    ensures s < t ==> TrendPath.YAt(s, 120.0, 20.0) > TrendPath.YAt(t, 120.0, 20.0)
  {
  }
}
