/** The printable report (components/ReportPDF.tsx): a cover page with the
    yearly average, its mood message and the trend curve in a 550 x 220 box
    with 30 units of padding, then one page per month record. Capturing
    the pages as images and writing the PDF file are not modelled. */
module Report {
  import opened Types
  import Seqs
  import Categories
  import Constants
  import Year
  import Share
  import TrendPath

  /** The report's own copy of the mood message. */
  function EmotionalMessage(score: int): (m: string)
    ensures m == Year.EmotionalMessage(score)
  {
    if score >= 85 then "정말 눈부시게 빛나는 한 해를 완성해가고 계시네요."
    else if score >= 70 then "행복의 조각들이 곳곳에 묻어나는 따뜻한 여정입니다."
    else if score >= 50 then "잔잔한 평화와 성장이 함께하는 소중한 한 해군요."
    else if score >= 30 then "가끔은 흔들려도, 묵묵히 나아가는 당신이 아름답습니다."
    else "힘든 시간들 속에서도 잃지 않은 당신만의 빛을 응원합니다."
  }

  /** The radius of month i's marker on the cover: 8 for every record
      whose month equals the best record's month, 4 for the others. */
  function MarkerRadius(data: seq<MonthlyData>, i: int): (r: int)
    requires 0 <= i < |data|
    ensures r == 8 || r == 4
    ensures r == 8 <==> data[i].month == data[Share.BestIndex(data)].month
  {
    if data[i].month == data[Share.BestIndex(data)].month then 8 else 4
  }

  /** In a well-formed year the months are distinct, so exactly one marker
      is large: the best month's, which carries a highest score. */
  lemma LargeMarkerIsBestMonth(data: seq<MonthlyData>, i: int)
    requires Year.ValidYear(data) && 0 <= i < 12
    ensures MarkerRadius(data, i) == 8 <==> i == Share.BestIndex(data)
    ensures MarkerRadius(data, i) == 8 ==> forall j | 0 <= j < 12 :: data[j].score <= data[i].score
  {
  }

  /** The marker of month index i: a point on the cover's plot. */
  datatype Marker = Marker(center: TrendPath.Point, radius: int, stroke: string, caption: string)

  /** `data.map((d, i) => ...)` on the cover, with the plot geometry
      written out as the source writes it. */
  function MarkerAt(data: seq<MonthlyData>, i: int): (m: Marker)
    requires 0 <= i < |data|
    ensures m.center == TrendPath.Point(30.0 + i as real * (490.0 / 11.0), 190.0 - data[i].score as real * 1.6)
    ensures m.radius == MarkerRadius(data, i)
    ensures m.stroke == Constants.ScoreColor(data[i].score)
  {
    var xStep := (550.0 - 60.0) / 11.0;
    var x := 30.0 + i as real * xStep;
    var y := 220.0 - 30.0 - (data[i].score as real / 100.0) * (220.0 - 60.0);
    Marker(TrendPath.Point(x, y), MarkerRadius(data, i), Constants.ScoreColor(data[i].score),
           IntToString(data[i].month) + "월")
  }

  /** The cover's plot runs from x = 30 (January) to x = 520 (December); a
      score s sits at y = 190 - 1.6 s, and this is where the curve passes. */
  lemma ReportCoordinates(i: int, s: int)
    ensures TrendPath.XAt(0, 550.0, 30.0) == 30.0
    ensures TrendPath.XAt(11, 550.0, 30.0) == 520.0
    ensures TrendPath.XAt(i, 550.0, 30.0) == 30.0 + i as real * (490.0 / 11.0)
    ensures TrendPath.YAt(s, 220.0, 30.0) == 190.0 - s as real * 1.6
  {
  }

  /** The cover page. */
  datatype Cover = Cover(average: int, message: string, path: TrendPath.Path, markers: seq<Marker>)

  /** The cover: the average as handed in, its message, the curve
      `getGraphPath(550, 220, 30)` and one marker per record. Every marker
      sits exactly on the curve: the first at its start, marker i at the end
      of segment i - 1. */
  method MakeCover(data: seq<MonthlyData>, averageScore: int) returns (c: Cover)
    requires |data| > 0
    ensures c.average == averageScore
    ensures c.message == Year.EmotionalMessage(averageScore)
    ensures |c.markers| == |data| && |c.path.curves| == |data| - 1
    ensures forall i | 0 <= i < |data| :: c.markers[i] == MarkerAt(data, i)
    ensures c.markers[0].center == c.path.start
    ensures forall i | 1 <= i < |data| :: c.markers[i].center == c.path.curves[i - 1].end
  {
    var path := TrendPath.GraphPath(data, 550.0, 220.0, 30.0);
    var markers := seq(|data|, i requires 0 <= i < |data| => MarkerAt(data, i));
    ReportCoordinates(0, data[0].score);
    forall i | 1 <= i < |data|
      ensures markers[i].center == path.curves[i - 1].end
    {
      assert path.curves[i - 1] == TrendPath.SegmentAt(data, i, 550.0, 220.0, 30.0);
      ReportCoordinates(i, data[i].score);
    }
    c := Cover(averageScore, EmotionalMessage(averageScore), path, markers);
  }

  /** A list section: its entries, or the placeholder shown when the list
      is empty. */
  datatype Listing = Items(items: seq<string>) | Placeholder(text: string)

  const NoTitle: string := "이달의 제목"
  const NoNote: string := "작성된 내용이 없습니다."
  const NoImages: string := "기록된 장면이 없습니다."
  const NoKeywords: string := "선택된 키워드 없음"
  const NoAchievements: string := "기록된 성취가 없습니다."

  /** One month page, field by field as it is printed. */
  datatype MonthPage = MonthPage(
    month: int,
    color: string,
    title: string,
    score: int,
    gallery: Listing,
    reflection: string,
    who: string,
    place: string,
    keywords: Listing,
    gratitude: string,
    regret: string,
    improvement: string,
    achievements: Listing,
    pageNumber: int)

  /** The names of a category list, in order. */
  function Names(cats: seq<Category>): (r: seq<string>)
    ensures |r| == |cats|
    ensures forall j | 0 <= j < |cats| :: r[j] == cats[j].name
  {
    seq(|cats|, j requires 0 <= j < |cats| => cats[j].name)
  }

  /** A list, or the placeholder when it is empty. */
  function ListOrElse(s: seq<string>, placeholder: string): (l: Listing)
    ensures l.Placeholder? <==> s == []
    ensures l.Items? ==> l.items == s
    ensures l.Placeholder? ==> l.text == placeholder
  {
    if |s| > 0 then Items(s) else Placeholder(placeholder)
  }

  /** The page of month record m. */
  function MonthPageOf(m: MonthlyData): (p: MonthPage)
    ensures p.month == m.month && p.score == m.score
    ensures p.pageNumber == m.month + 1
    ensures p.title == (if m.title == "" then NoTitle else m.title)
    ensures p.reflection == (if m.note == "" then NoNote else "\"" + m.note + "\"")
    ensures p.gallery.Placeholder? <==> m.images == []
    ensures p.gallery.Items? ==>
      && |p.gallery.items| == (if |m.images| < 3 then |m.images| else 3)
      && forall j | 0 <= j < |p.gallery.items| :: p.gallery.items[j] == m.images[j]
    ensures p.achievements.Placeholder? <==> m.achievements == []
    ensures p.achievements.Items? ==>
      && |p.achievements.items| == (if |m.achievements| < 4 then |m.achievements| else 4)
      && forall j | 0 <= j < |p.achievements.items| :: p.achievements.items[j] == m.achievements[j]
    ensures p.keywords.Placeholder? <==> forall j | 0 <= j < |m.categories| :: !m.categories[j].value
    ensures p.keywords.Items? ==> p.keywords.items == Keywords(m.categories)
    ensures p.who == OrElse(m.frequentPeople, "-") && p.place == OrElse(m.frequentPlaces, "-")
    ensures p.gratitude == OrElse(m.gratitude, "-") && p.regret == OrElse(m.regret, "-")
    ensures p.improvement == OrElse(m.improvement, "-")
  {
    var keywords := Keywords(m.categories);
    assert (forall j | 0 <= j < |m.categories| :: !m.categories[j].value) <==> keywords == [] by {
      if keywords != [] {
        assert keywords[0] in keywords;
      }
    }
    MonthPage(
      m.month,
      Constants.ScoreColor(m.score),
      StrOrElse(m.title, NoTitle),
      m.score,
      ListOrElse(Seqs.Take(m.images, 3), NoImages),
      if m.note != "" then "\"" + m.note + "\"" else NoNote,
      OrElse(m.frequentPeople, "-"),
      OrElse(m.frequentPlaces, "-"),
      ListOrElse(keywords, NoKeywords),
      OrElse(m.gratitude, "-"),
      OrElse(m.regret, "-"),
      OrElse(m.improvement, "-"),
      ListOrElse(Seqs.Take(m.achievements, 4), NoAchievements),
      m.month + 1)
  }

  /** The keyword list of a month: the names of its switched-on
      categories. */
  function Keywords(cats: seq<Category>): (r: seq<string>)
    ensures |r| <= |cats|
    ensures forall n :: n in r <==> exists c :: c in cats && c.value && c.name == n
  {
    var active := Categories.Active(cats);
    assert forall n :: n in Names(active) ==> exists c :: c in cats && c.value && c.name == n by {
      forall n | n in Names(active) ensures exists c :: c in cats && c.value && c.name == n {
        var j :| 0 <= j < |active| && Names(active)[j] == n;
        assert active[j] in cats;
      }
    }
    assert forall c | c in cats && c.value :: c.name in Names(active) by {
      forall c | c in cats && c.value ensures c.name in Names(active) {
        assert c in active;
        var j :| 0 <= j < |active| && active[j] == c;
        assert Names(active)[j] == c.name;
      }
    }
    Names(active)
  }

  /** The keywords keep the categories' order: the keywords of two lists
      joined are the two keyword lists joined. */
  lemma KeywordsConcat(a: seq<Category>, b: seq<Category>)
    ensures Keywords(a + b) == Keywords(a) + Keywords(b)
  {
    Categories.ActiveConcat(a, b);
  }

  /** The month pages after the cover, one per record, in record order. */
  function MonthPages(data: seq<MonthlyData>): (pages: seq<MonthPage>)
    ensures |pages| == |data|
    ensures forall i | 0 <= i < |data| :: pages[i] == MonthPageOf(data[i])
  {
    seq(|data|, i requires 0 <= i < |data| => MonthPageOf(data[i]))
  }

  /** In a well-formed year the page of record i is for month i + 1 and is
      numbered i + 2, right after the cover, so the page numbers run 2..13
      without gaps or repeats. */
  lemma PageNumbersFollowRecords(data: seq<MonthlyData>)
    requires Year.ValidYear(data)
    ensures |MonthPages(data)| == 12
    ensures forall i | 0 <= i < 12 ::
      MonthPages(data)[i].month == i + 1 && MonthPages(data)[i].pageNumber == i + 2
    ensures forall i, j | 0 <= i < j < 12 ::
      MonthPages(data)[i].pageNumber < MonthPages(data)[j].pageNumber
  {
  }

  /** The whole report: the cover first, then the month pages. */
  datatype Document = Document(cover: Cover, pages: seq<MonthPage>)

  /** The report: the cover with its markers on the curve, then one page
      per record in record order. */
  method MakeReport(data: seq<MonthlyData>, averageScore: int) returns (doc: Document)
    requires |data| > 0
    ensures doc.cover.message == EmotionalMessage(averageScore)
    ensures doc.cover.average == averageScore
    ensures |doc.cover.markers| == |doc.pages| == |data|
    ensures |doc.cover.path.curves| == |data| - 1
    ensures forall i | 0 <= i < |data| :: doc.cover.markers[i] == MarkerAt(data, i)
    ensures doc.cover.markers[0].center == doc.cover.path.start
    ensures forall i | 1 <= i < |data| :: doc.cover.markers[i].center == doc.cover.path.curves[i - 1].end
    ensures forall i | 0 <= i < |data| :: doc.pages[i] == MonthPageOf(data[i])
  {
    var cover := MakeCover(data, averageScore);
    doc := Document(cover, MonthPages(data));
  }
}
