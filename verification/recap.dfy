/** The month recap viewer (components/MonthRecapModal.tsx): keyboard and
    button navigation, the card carousel and what each card shows. The
    callbacks it receives are the shell's: `onPrev`/`onNext` step the recap
    index, `onClose` clears it. */
module Recap {
  import opened Types
  import Year

  /** The callbacks the viewer can invoke. */
  datatype Callback = Close | Prev | Next

  /** `handleKeyDown`: the three independent checks, in order. */
  function HandleKeyDown(key: string, isFirst: bool, isLast: bool): (r: seq<Callback>)
    ensures Close in r <==> key == "Escape"
    ensures Prev in r <==> key == "ArrowLeft" && !isFirst
    ensures Next in r <==> key == "ArrowRight" && !isLast
    ensures |r| <= 1
  {
    (if key == "Escape" then [Close] else [])
    + (if key == "ArrowLeft" && !isFirst then [Prev] else [])
    + (if key == "ArrowRight" && !isLast then [Next] else [])
  }

  /** The clickable controls: the close button, the backdrop, the desktop
      arrows and the mobile bar's arrows. */
  datatype Control = CloseButton | Backdrop | DesktopPrev | DesktopNext | MobilePrev | MobileNext

  /** Whether a control is on screen and can be pressed: a desktop arrow is
      rendered only away from its end, a mobile arrow is always rendered
      but disabled at its end. */
  predicate Enabled(c: Control, isFirst: bool, isLast: bool)
  {
    match c
    case DesktopPrev => !isFirst
    case DesktopNext => !isLast
    case MobilePrev => !isFirst
    case MobileNext => !isLast
    case _ => true
  }

  /** Whether a control is rendered at all. */
  predicate Rendered(c: Control, isFirst: bool, isLast: bool)
  {
    match c
    case DesktopPrev => !isFirst
    case DesktopNext => !isLast
    case _ => true
  }

  /** The callbacks a press invokes, in the order they run; a control
      that is not there or is disabled invokes nothing. The arrows stop the
      click from reaching the backdrop, the close button does not: its
      click runs its own `onClose` and then bubbles up to the backdrop's. */
  function Press(c: Control, isFirst: bool, isLast: bool): (r: seq<Callback>)
    ensures r == [] <==> !Enabled(c, isFirst, isLast)
    ensures Prev in r <==> (c == DesktopPrev || c == MobilePrev) && !isFirst
    ensures Next in r <==> (c == DesktopNext || c == MobileNext) && !isLast
    ensures Close in r <==> c == CloseButton || c == Backdrop
    ensures |r| == 2 <==> c == CloseButton
    ensures |r| <= 2
    ensures forall k | 0 <= k < |r| :: r[k] == r[0]
  {
    if !Enabled(c, isFirst, isLast) then []
    else
      match c
      case CloseButton => [Close, Close]
      case Backdrop => [Close]
      case DesktopPrev => [Prev]
      case MobilePrev => [Prev]
      case DesktopNext => [Next]
      case MobileNext => [Next]
  }

  /** The desktop arrows are rendered exactly away from the ends; the mobile
      arrows are always rendered and enabled exactly away from the ends. */
  lemma NavButtons(isFirst: bool, isLast: bool)
    ensures Rendered(DesktopPrev, isFirst, isLast) <==> !isFirst
    ensures Rendered(DesktopNext, isFirst, isLast) <==> !isLast
    ensures Rendered(MobilePrev, isFirst, isLast) && Rendered(MobileNext, isFirst, isLast)
    ensures forall c: Control :: Enabled(c, isFirst, isLast) ==> Rendered(c, isFirst, isLast)
  {
  }

  /** The shell's recap index after a callback. */
  function Dispatch(p: Option<int>, cb: Callback): Option<int>
  {
    match cb
    case Close => None
    case Prev => Year.OnPrev(p)
    case Next => Year.OnNext(p)
  }

  function DispatchAll(p: Option<int>, cbs: seq<Callback>): Option<int>
    decreases |cbs|
  {
    if cbs == [] then p else DispatchAll(Dispatch(p, cbs[0]), cbs[1..])
  }

  /** The viewer's input, from the keyboard or a control. */
  datatype Input = Key(key: string) | Tap(control: Control)

  /** The recap index after one input, with `isFirst` and `isLast` as the
      shell computes them from the current index. */
  function Navigate(i: int, input: Input): Option<int>
  {
    var cbs := match input
      case Key(k) => HandleKeyDown(k, Year.IsFirst(i), Year.IsLast(i))
      case Tap(c) => Press(c, Year.IsFirst(i), Year.IsLast(i));
    DispatchAll(Some(i), cbs)
  }

  /** Whatever key or control is used, an open viewer either closes or
      shows a month in 0..11; a step moves by exactly one, and only a
      step away from the ends moves. The close button's second `onClose`
      finds the viewer already closed and leaves it so. */
  lemma {:induction false} NavigateStaysInRange(i: int, input: Input)
    requires 0 <= i <= 11
    ensures Navigate(i, input).None? || 0 <= Navigate(i, input).value <= 11
    ensures Navigate(i, input).Some? ==>
      Navigate(i, input).value in {i - 1, i, i + 1}
    ensures input == Key("Escape") ==> Navigate(i, input).None?
    ensures input == Tap(CloseButton) || input == Tap(Backdrop) ==> Navigate(i, input).None?
    ensures input == Key("ArrowLeft") ==> Navigate(i, input) == Some(if i > 0 then i - 1 else i)
    ensures input == Key("ArrowRight") ==> Navigate(i, input) == Some(if i < 11 then i + 1 else i)
  {
    var cbs := match input
      case Key(k) => HandleKeyDown(k, Year.IsFirst(i), Year.IsLast(i))
      case Tap(c) => Press(c, Year.IsFirst(i), Year.IsLast(i));
    if cbs == [Close, Close] {
      assert DispatchAll(Some(i), cbs) == DispatchAll(None, [Close]);
    } else if cbs != [] {
      assert cbs == [cbs[0]];
      assert DispatchAll(Some(i), cbs) == DispatchAll(Dispatch(Some(i), cbs[0]), []);
      Year.RecapIndexStaysInRange(i);
    }
  }

  /** One card of the carousel; a section that is not rendered is `None`. */
  datatype Card = Card(
    active: bool,
    month: int,
    score: int,
    title: string,
    note: string,
    images: Option<seq<string>>,
    reflections: Option<Reflections>,
    achievements: Option<seq<string>>)

  /** The reflection boxes; each one is shown only when its text is
      non-empty. */
  datatype Reflections = Reflections(gratitude: Option<string>, regret: Option<string>, improvement: Option<string>)

  /** A field shown only when its text is non-empty. */
  function Shown(o: Option<string>): (r: Option<string>)
    ensures r.Some? <==> Truthy(o)
    ensures r.Some? ==> r == o
  {
    if Truthy(o) then o else None
  }

  /** The card of record d at position idx. */
  function CardOf(d: MonthlyData, idx: int, currentIndex: int): (c: Card)
    ensures c.active <==> idx == currentIndex
    ensures c.month == d.month && c.score == d.score
    ensures c.title == (if d.title == "" then "이달의 제목" else d.title)
    ensures c.note == "\"" + (if d.note == "" then "기록된 내용이 없습니다." else d.note) + "\""
    ensures c.images.Some? <==> |d.images| > 0
    ensures c.images.Some? ==> c.images.value == d.images
    ensures c.reflections.Some? <==> Truthy(d.gratitude) || Truthy(d.regret) || Truthy(d.improvement)
    ensures c.reflections.Some? ==>
      && (c.reflections.value.gratitude.Some? <==> Truthy(d.gratitude))
      && (c.reflections.value.regret.Some? <==> Truthy(d.regret))
      && (c.reflections.value.improvement.Some? <==> Truthy(d.improvement))
    ensures c.achievements.Some? <==> |d.achievements| > 0
    ensures c.achievements.Some? ==> c.achievements.value == d.achievements
  {
    var reflections :=
      if Truthy(d.gratitude) || Truthy(d.regret) || Truthy(d.improvement)
      then Some(Reflections(Shown(d.gratitude), Shown(d.regret), Shown(d.improvement)))
      else None;
    Card(
      idx == currentIndex,
      d.month,
      d.score,
      StrOrElse(d.title, "이달의 제목"),
      "\"" + StrOrElse(d.note, "기록된 내용이 없습니다.") + "\"",
      if |d.images| > 0 then Some(d.images) else None,
      reflections,
      if |d.achievements| > 0 then Some(d.achievements) else None)
  }

  /** The carousel: one card per record, in order. */
  function Cards(data: seq<MonthlyData>, currentIndex: int): (cards: seq<Card>)
    ensures |cards| == |data|
    ensures forall i | 0 <= i < |data| :: cards[i] == CardOf(data[i], i, currentIndex)
  {
    seq(|data|, i requires 0 <= i < |data| => CardOf(data[i], i, currentIndex))
  }

  /** The indices of the active cards. */
  function ActiveCards(cards: seq<Card>): set<int>
  {
    set i | 0 <= i < |cards| && cards[i].active
  }

  /** When the index is a month of the year exactly one card is active,
      the one at that index; otherwise none is. */
  lemma ExactlyOneActiveCard(data: seq<MonthlyData>, currentIndex: int)
    ensures 0 <= currentIndex < |data| ==> ActiveCards(Cards(data, currentIndex)) == {currentIndex}
    ensures !(0 <= currentIndex < |data|) ==> ActiveCards(Cards(data, currentIndex)) == {}
  {
  }
}
