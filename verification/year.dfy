/** The application shell (App.tsx): the year of twelve month records, the
    two update callbacks the graph and the editor use, the yearly average
    with its mood message, and the prev/next index of the recap viewer. */
module Year {
  import opened Types
  import Constants
  import Diary

  /** The store invariant: twelve valid records, record k for month k + 1. */
  predicate ValidYear(data: seq<MonthlyData>)
  {
    |data| == 12 && forall k | 0 <= k < 12 :: data[k].month == k + 1 && ValidRecord(data[k])
  }

  /** The seed year satisfies the store invariant. */
  lemma InitialDataIsValidYear()
    ensures ValidYear(Constants.InitialData)
  {
  }

  /** `handleUpdateScore(index, score)`: only the score of month `index`
      changes; every other month and every other field stays. */
  function UpdateScore(data: seq<MonthlyData>, index: int, score: int): (r: seq<MonthlyData>)
    requires 0 <= index < |data|
    ensures |r| == |data|
    ensures forall j | 0 <= j < |data| && j != index :: r[j] == data[j]
    ensures r[index].score == score
    ensures r[index].(score := data[index].score) == data[index]
  {
    data[index := data[index].(score := score)]
  }

  /** A score in 0..100 keeps the year valid. */
  lemma UpdateScoreKeepsValid(data: seq<MonthlyData>, index: int, score: int)
    requires ValidYear(data) && 0 <= index < 12 && 0 <= score <= 100
    ensures ValidYear(UpdateScore(data, index, score))
  {
  }

  /** `handleUpdateMonthData(updated)`: the record goes to index
      `month - 1`; every other index keeps its record. */
  function UpdateMonthData(data: seq<MonthlyData>, updated: MonthlyData): (r: seq<MonthlyData>)
    requires 1 <= updated.month <= |data|
    ensures |r| == |data|
    ensures r[updated.month - 1] == updated
    ensures forall j | 0 <= j < |data| && j != updated.month - 1 :: r[j] == data[j]
  {
    data[updated.month - 1 := updated]
  }

  /** Whatever the month editor does to month i, writing the result back
      replaces month i only, and the year stays valid. */
  lemma EditorWriteBackKeepsValid(data: seq<MonthlyData>, i: nat, edits: seq<Diary.Edit>)
    requires ValidYear(data) && i < 12
    ensures var edited := Diary.ApplyAll(data[i], edits);
      && edited.month == i + 1
      && ValidYear(UpdateMonthData(data, edited))
      && UpdateMonthData(data, edited)[i] == edited
  {
    Diary.ApplyAllKeepsValid(data[i], edits);
  }

  /** `data.reduce((acc, curr) => acc + curr.score, 0)` */
  function ScoreSum(data: seq<MonthlyData>): (sum: int)
    ensures (forall k | 0 <= k < |data| :: 0 <= data[k].score <= 100) ==> 0 <= sum <= 100 * |data|
  {
    if data == [] then 0 else ScoreSum(data[..|data| - 1]) + data[|data| - 1].score
  }

  /** `averageScore`: the sum divided by 12 (a constant, not the length),
      rounded to the nearest integer with halves going up. */
  function AverageScore(data: seq<MonthlyData>): (avg: int)
    ensures avg as real - 0.5 <= ScoreSum(data) as real / 12.0 < avg as real + 0.5
    ensures 12 * avg - 6 <= ScoreSum(data) < 12 * avg + 6
    ensures ValidYear(data) ==> 0 <= avg <= 100
  {
    Round(ScoreSum(data) as real / 12.0)
  }

  const MsgRadiant: string := "정말 눈부시게 빛나는 한 해를 완성해가고 계시네요."
  const MsgWarm: string := "행복의 조각들이 곳곳에 묻어나는 따뜻한 여정입니다."
  const MsgCalm: string := "잔잔한 평화와 성장이 함께하는 소중한 한 해군요."
  const MsgResilient: string := "가끔은 흔들려도, 묵묵히 나아가는 당신이 아름답습니다."
  const MsgSupportive: string := "힘든 시간들 속에서도 잃지 않은 당신만의 빛을 응원합니다."

  /** `getEmotionalMessage()`: five bands with inclusive lower bounds
      85, 70, 50 and 30; exactly one band applies to any average. */
  function EmotionalMessage(averageScore: int): (m: string)
    ensures m == MsgRadiant <==> averageScore >= 85
    ensures m == MsgWarm <==> 70 <= averageScore < 85
    ensures m == MsgCalm <==> 50 <= averageScore < 70
    ensures m == MsgResilient <==> 30 <= averageScore < 50
    ensures m == MsgSupportive <==> averageScore < 30
  {
    if averageScore >= 85 then MsgRadiant
    else if averageScore >= 70 then MsgWarm
    else if averageScore >= 50 then MsgCalm
    else if averageScore >= 30 then MsgResilient
    else MsgSupportive
  }

  /** 90, 75, 55, 35 and 10 pick the five bands in order. */
  lemma EmotionalMessageSamples()
    ensures [EmotionalMessage(90), EmotionalMessage(75), EmotionalMessage(55),
             EmotionalMessage(35), EmotionalMessage(10)]
         == [MsgRadiant, MsgWarm, MsgCalm, MsgResilient, MsgSupportive]
  {
  }

  /** On the seed year the scores add up to 745, the displayed average is
      62 and the message is the calm one. */
  lemma SeedAverage()
    ensures ScoreSum(Constants.InitialData) == 745
    ensures AverageScore(Constants.InitialData) == 62
    ensures EmotionalMessage(AverageScore(Constants.InitialData)) == MsgCalm
  {
    var d := Constants.InitialData;
    assert ScoreSum(d[..1]) == 65;
    assert d[..2][..1] == d[..1];
    assert ScoreSum(d[..2]) == 110;
    assert d[..3][..2] == d[..2];
    assert ScoreSum(d[..3]) == 190;
    assert d[..4][..3] == d[..3];
    assert ScoreSum(d[..4]) == 260;
    assert d[..5][..4] == d[..4];
    assert ScoreSum(d[..5]) == 315;
    assert d[..6][..5] == d[..5];
    assert ScoreSum(d[..6]) == 345;
    assert d[..7][..6] == d[..6];
    assert ScoreSum(d[..7]) == 430;
    assert d[..8][..7] == d[..7];
    assert ScoreSum(d[..8]) == 490;
    assert d[..9][..8] == d[..8];
    assert ScoreSum(d[..9]) == 565;
    assert d[..10][..9] == d[..9];
    assert ScoreSum(d[..10]) == 615;
    assert d[..11][..10] == d[..10];
    assert ScoreSum(d[..11]) == 655;
    assert d[..12][..11] == d[..11];
    assert d[..12] == d;
  }

  /** `onPrev` of the recap viewer: step back unless at the first month. */
  function OnPrev(p: Option<int>): (r: Option<int>)
    ensures p.Some? && p.value > 0 ==> r == Some(p.value - 1)
    ensures !(p.Some? && p.value > 0) ==> r == p
  {
    if p.Some? && p.value > 0 then Some(p.value - 1) else p
  }

  /** `onNext` of the recap viewer: step forward unless at the last month. */
  function OnNext(p: Option<int>): (r: Option<int>)
    ensures p.Some? && p.value < 11 ==> r == Some(p.value + 1)
    ensures !(p.Some? && p.value < 11) ==> r == p
  {
    if p.Some? && p.value < 11 then Some(p.value + 1) else p
  }

  /** `isFirst` and `isLast` as the shell computes them. */
  predicate IsFirst(index: int) { index == 0 }
  predicate IsLast(index: int) { index == 11 }

  /** The recap index never leaves 0..11, and a step that can move moves by
      exactly one. */
  lemma RecapIndexStaysInRange(i: int)
    requires 0 <= i <= 11
    ensures OnPrev(Some(i)).Some? && 0 <= OnPrev(Some(i)).value <= 11
    ensures OnNext(Some(i)).Some? && 0 <= OnNext(Some(i)).value <= 11
    ensures OnPrev(Some(i)) == Some(i) <==> IsFirst(i)
    ensures OnNext(Some(i)) == Some(i) <==> IsLast(i)
  {
  }

  /** Stepping forward and then back returns to the same month. */
  lemma PrevUndoesNext(i: int)
    requires 0 <= i < 11
    ensures OnPrev(OnNext(Some(i))) == Some(i)
  {
  }
}
