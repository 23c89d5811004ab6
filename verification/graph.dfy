/** The interactive graph (components/LifeGraph.tsx): the two linear scales,
    the score a vertical drag produces, and the pointer state machine that
    decides which month is dragged, hovered and highlighted. The curve
    drawing, the resize listener and pointer capture are not modelled; a
    pointer position arrives already converted to plot coordinates. */
module Graph {
  import opened Types
  import Year

  /** The measured container width; everything else follows from it. */
  datatype Layout = Layout(width: real)

  /** The initial state of the component: 800 wide, not mobile. */
  const InitialLayout: Layout := Layout(800.0)

  predicate IsMobile(l: Layout) { l.width < 768.0 }

  function Height(l: Layout): real { if IsMobile(l) then 320.0 else 450.0 }
  function PadTop(l: Layout): real { if IsMobile(l) then 40.0 else 60.0 }
  function PadRight(l: Layout): real { if IsMobile(l) then 30.0 else 50.0 }
  function PadBottom(l: Layout): real { if IsMobile(l) then 70.0 else 100.0 }
  function PadLeft(l: Layout): real { if IsMobile(l) then 30.0 else 50.0 }

  /** `d3.scaleLinear().domain([d0, d1]).range([r0, r1])` applied to v. */
  function Linear(d0: real, d1: real, r0: real, r1: real, v: real): real
    requires d0 != d1
  {
    r0 + (v - d0) / (d1 - d0) * (r1 - r0)
  }

  /** The scale's `invert`: the domain value that maps to y. */
  function LinearInvert(d0: real, d1: real, r0: real, r1: real, y: real): real
    requires r0 != r1
  {
    d0 + (y - r0) / (r1 - r0) * (d1 - d0)
  }

  /** Inverting a non-degenerate scale undoes it. */
  lemma InvertUndoesLinear(d0: real, d1: real, r0: real, r1: real, v: real)
    requires d0 != d1 && r0 != r1
    ensures LinearInvert(d0, d1, r0, r1, Linear(d0, d1, r0, r1, v)) == v
  {
  }

  /** `xScale`: month 1 to 12 onto the padded width. */
  function XScale(l: Layout, month: real): real
  {
    Linear(1.0, 12.0, PadLeft(l), l.width - PadRight(l), month)
  }

  /** `yScale`: score 0 to 100 onto the padded height, upside down. */
  function YScale(l: Layout, score: real): real
  {
    Linear(0.0, 100.0, Height(l) - PadBottom(l), PadTop(l), score)
  }

  /** `yScale.invert`: the score a plot height stands for. In both layouts
      the range is 250..40 or 350..60, never a single point. */
  function YInvert(l: Layout, y: real): real
  {
    LinearInvert(0.0, 100.0, Height(l) - PadBottom(l), PadTop(l), y)
  }

  /** The scale endpoints: January on the left padding line, December on
      the right one, 0 on the bottom padding line, 100 on the top one, and
      a higher score always drawn higher. */
  lemma ScaleEndpoints(l: Layout, s: real, t: real)
    ensures XScale(l, 1.0) == PadLeft(l)
    ensures XScale(l, 12.0) == l.width - PadRight(l)
    ensures YScale(l, 0.0) == Height(l) - PadBottom(l)
    ensures YScale(l, 100.0) == PadTop(l)
    ensures s < t ==> YScale(l, s) > YScale(l, t)
  {
  }

  /** `Math.max(0, Math.min(100, v))` */
  function Clamp(v: real): (r: real)
    ensures 0.0 <= r <= 100.0
    ensures 0.0 <= v <= 100.0 ==> r == v
    ensures v < 0.0 ==> r == 0.0
    ensures v > 100.0 ==> r == 100.0
  {
    if v > 100.0 then 100.0 else if v < 0.0 then 0.0 else v
  }

  /** The score `handlePointerMove` emits for a pointer at plot height y:
      whatever y is, a whole number from 0 to 100. */
  function DragScore(l: Layout, y: real): (s: int)
    ensures 0 <= s <= 100
    ensures s as real - 0.5 <= Clamp(YInvert(l, y)) < s as real + 0.5
  {
    Round(Clamp(YInvert(l, y)))
  }

  /** Dragging to the height where a score is drawn emits that score, and
      a pointer above the plot emits 100, below it 0. */
  lemma DragScoreRoundTrip(l: Layout, score: int, y: real)
    requires 0 <= score <= 100
    ensures DragScore(l, YScale(l, score as real)) == score
    ensures y <= PadTop(l) ==> DragScore(l, y) == 100
    ensures y >= Height(l) - PadBottom(l) ==> DragScore(l, y) == 0
  {
  }

  /** The component state: the dragged month (`isDragging`) and the
      hovered month, each an index or none. */
  datatype GraphState = GraphState(dragging: Option<int>, hovered: Option<int>)

  const InitialState: GraphState := GraphState(None, None)

  /** The pointer events the graph handles; `i` is the index of the month
      whose hit circle receives the event, `y` the pointer's plot height. */
  datatype Event =
    | PointerDown(i: int)
    | PointerMove(y: real)
    | PointerUp
    | PointerEnter(i: int)
    | PointerLeave
    | Click(i: int)

  /** What the graph asks of the shell. */
  datatype Effect = UpdateScore(index: int, score: int) | MonthClick(index: int)

  /** The state after an event and the callback it invokes, if any. */
  function Step(l: Layout, s: GraphState, e: Event): (r: (GraphState, Option<Effect>))
    ensures e.PointerMove? ==> r.0 == s
    ensures e.PointerMove? ==> (r.1.Some? <==> s.dragging.Some?)
    ensures e.PointerMove? && s.dragging.Some? ==>
      r.1 == Some(UpdateScore(s.dragging.value, DragScore(l, e.y)))
    ensures e.PointerDown? ==> r.0 == s.(dragging := Some(e.i)) && r.1.None?
    ensures e.PointerUp? ==> r.0 == s.(dragging := None) && r.1.None?
    ensures e.PointerEnter? ==> r.0 == s.(hovered := Some(e.i)) && r.1.None?
    ensures e.PointerLeave? ==> r.0 == s.(hovered := None) && r.1.None?
    ensures e.Click? ==> r.0 == s && (r.1.Some? <==> s.dragging.None?)
    ensures e.Click? && s.dragging.None? ==> r.1 == Some(MonthClick(e.i))
  {
    match e
    case PointerDown(i) => (s.(dragging := Some(i)), None)
    case PointerMove(y) =>
      if s.dragging.None? then (s, None)
      else (s, Some(UpdateScore(s.dragging.value, DragScore(l, y))))
    case PointerUp =>
      if s.dragging.Some? then (s.(dragging := None), None) else (s, None)
    case PointerEnter(i) => (s.(hovered := Some(i)), None)
    case PointerLeave => (s.(hovered := None), None)
    case Click(i) =>
      if s.dragging.None? then (s, Some(MonthClick(i))) else (s, None)
  }

  /** `isActive` of month i: it is the selected month, the dragged month or
      the hovered month. */
  predicate IsActive(activeMonth: Option<int>, s: GraphState, i: int)
  {
    activeMonth == Some(i) || s.dragging == Some(i) || s.hovered == Some(i)
  }

  /** The highlighted months among indices 0..n-1. */
  function ActiveMonths(activeMonth: Option<int>, s: GraphState, n: nat): (r: set<int>)
    ensures forall i :: i in r <==> 0 <= i < n && IsActive(activeMonth, s, i)
    ensures |r| <= 3
  {
    var r := set i | 0 <= i < n && IsActive(activeMonth, s, i);
    var opts := (if activeMonth.Some? then {activeMonth.value} else {})
      + (if s.dragging.Some? then {s.dragging.value} else {})
      + (if s.hovered.Some? then {s.hovered.value} else {});
    assert r <= opts;
    SubsetCard(r, opts);
    r
  }

  /** A subset is no larger than its superset. */
  lemma SubsetCard(a: set<int>, b: set<int>)
    requires a <= b
    ensures |a| <= |b|
  {
    assert b == a + (b - a);
  }

  /** Every index an event names is a month of the graph. */
  predicate EventInRange(e: Event, n: nat)
  {
    match e
    case PointerDown(i) => 0 <= i < n
    case PointerEnter(i) => 0 <= i < n
    case Click(i) => 0 <= i < n
    case _ => true
  }

  /** The dragged and hovered months, when set, are months of the graph. */
  predicate StateInRange(s: GraphState, n: nat)
  {
    (s.dragging.Some? ==> 0 <= s.dragging.value < n)
    && (s.hovered.Some? ==> 0 <= s.hovered.value < n)
  }

  /** The year after the shell handles an effect: a drag update goes
      through `handleUpdateScore`, a click changes no record. */
  function Handle(data: seq<MonthlyData>, eff: Option<Effect>): seq<MonthlyData>
  {
    if eff.Some? && eff.value.UpdateScore? && 0 <= eff.value.index < |data|
    then Year.UpdateScore(data, eff.value.index, eff.value.score)
    else data
  }

  /** A run of pointer events against the shell's year. */
  function Run(l: Layout, s: GraphState, data: seq<MonthlyData>, events: seq<Event>): (GraphState, seq<MonthlyData>)
    decreases |events|
  {
    if events == [] then (s, data)
    else
      var (s', eff) := Step(l, s, events[0]);
      Run(l, s', Handle(data, eff), events[1..])
  }

  /** One event keeps the state's indices in range, and every score update
      it emits names a month of the year and lies in 0..100. */
  lemma StepInRange(l: Layout, s: GraphState, e: Event, n: nat)
    requires StateInRange(s, n) && EventInRange(e, n)
    ensures StateInRange(Step(l, s, e).0, n)
    ensures Step(l, s, e).1.Some? && Step(l, s, e).1.value.UpdateScore? ==>
      0 <= Step(l, s, e).1.value.index < n && 0 <= Step(l, s, e).1.value.score <= 100
  {
  }

  /** However the user drags, hovers and clicks, the year stays
      well-formed: every drag update hits a real month with a score in
      0..100, and nothing else changes a record. */
  lemma {:induction false} RunKeepsValidYear(l: Layout, s: GraphState, data: seq<MonthlyData>, events: seq<Event>)
    requires Year.ValidYear(data) && StateInRange(s, 12)
    requires forall k | 0 <= k < |events| :: EventInRange(events[k], 12)
    ensures Year.ValidYear(Run(l, s, data, events).1)
    ensures StateInRange(Run(l, s, data, events).0, 12)
    decreases |events|
  {
    if events != [] {
      var (s', eff) := Step(l, s, events[0]);
      StepInRange(l, s, events[0], 12);
      if eff.Some? && eff.value.UpdateScore? {
        Year.UpdateScoreKeepsValid(data, eff.value.index, eff.value.score);
      }
      assert forall k | 0 <= k < |events[1..]| :: EventInRange(events[1..][k], 12) by {
        forall k | 0 <= k < |events[1..]| ensures EventInRange(events[1..][k], 12) {
          assert events[1..][k] == events[k + 1];
        }
      }
      RunKeepsValidYear(l, s', Handle(data, eff), events[1..]);
    }
  }
}
