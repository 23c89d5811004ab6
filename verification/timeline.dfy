/** The grid of month cards (components/YearlyTimeline.tsx). */
module Timeline {
  import opened Types
  import Categories

  /** At most this many category badges per card. */
  const MaxBadges: nat := 3

  /** One card: its title and note lines, the category badges and the
      index it hands to `onMonthClick`. */
  datatype TimelineCard = TimelineCard(
    month: int,
    score: int,
    title: string,
    note: string,
    badges: seq<string>,
    clickIndex: int)

  /** `c.name[0]` rendered: the first character, or nothing for an empty
      name. */
  function Initial(name: string): (r: string)
    ensures |r| <= 1
    ensures r == "" <==> name == ""
    ensures r != "" ==> r[0] == name[0]
  {
    if name == "" then "" else [name[0]]
  }

  /** The badges: the first three switched-on categories, in order, each
      shown by its initial. */
  function Badges(cats: seq<Category>): (r: seq<string>)
    ensures |r| <= MaxBadges
    ensures |r| == if |Categories.Active(cats)| < MaxBadges then |Categories.Active(cats)| else MaxBadges
    ensures forall j | 0 <= j < |r| :: r[j] == Initial(Categories.Active(cats)[j].name)
  {
    var active := Categories.Active(cats);
    var n := if |active| < MaxBadges then |active| else MaxBadges;
    seq(n, j requires 0 <= j < n => Initial(active[j].name))
  }

  /** Switching on a category that comes after three switched-on ones does
      not change the badges. */
  lemma BadgesIgnoreLaterCategories(cats: seq<Category>, more: seq<Category>)
    requires |Categories.Active(cats)| >= MaxBadges
    ensures Badges(cats + more) == Badges(cats)
  {
    Categories.ActiveConcat(cats, more);
  }

  /** Card i of the grid. */
  function CardOf(d: MonthlyData, i: int): (c: TimelineCard)
    ensures c.clickIndex == i
    ensures c.month == d.month && c.score == d.score
    ensures c.title == (if d.title == "" then IntToString(d.month) + "월의 기록" else d.title)
    ensures c.note == (if d.note == "" then "기록된 내용이 없습니다." else d.note)
    ensures c.badges == Badges(d.categories)
  {
    TimelineCard(d.month, d.score, StrOrElse(d.title, IntToString(d.month) + "월의 기록"),
                 StrOrElse(d.note, "기록된 내용이 없습니다."), Badges(d.categories), i)
  }

  /** `data.map(...)`: one card per record, in order. */
  function Cards(data: seq<MonthlyData>): (cards: seq<TimelineCard>)
    ensures |cards| == |data|
    ensures forall i | 0 <= i < |data| :: cards[i] == CardOf(data[i], i)
  {
    seq(|data|, i requires 0 <= i < |data| => CardOf(data[i], i))
  }

  /** Clicking card i opens record i: the click indices are exactly the
      record positions, each used once. */
  lemma ClickIndicesArePositions(data: seq<MonthlyData>)
    ensures forall i | 0 <= i < |data| :: Cards(data)[i].clickIndex == i
    ensures forall i, j | 0 <= i < j < |data| :: Cards(data)[i].clickIndex != Cards(data)[j].clickIndex
    ensures forall i | 0 <= i < |data| :: Cards(data)[i].month == data[i].month
  {
  }
}
