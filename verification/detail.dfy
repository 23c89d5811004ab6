/** The older month panel (components/DetailPanel.tsx): note and score
    inputs and a checklist whose new entries start switched off. A new
    category's random id is a parameter. */
module Detail {
  import opened Types
  import Categories
  import Diary

  /** `handleNoteChange`: only the note changes. */
  function HandleNoteChange(d: MonthlyData, text: string): (r: MonthlyData)
    ensures r.note == text
    ensures r.(note := d.note) == d
  {
    d.(note := text)
  }

  /** `parseInt(value) || 0`: NaN and zero both give 0. */
  function ScoreOf(value: string): (s: int)
    ensures ParseInt(value).None? ==> s == 0
    ensures ParseInt(value).Some? ==> s == ParseInt(value).value
  {
    match ParseInt(value)
    case None => 0
    case Some(n) => n
  }

  /** `handleScoreChange`: the score becomes the parsed input (0 when the
      input does not parse) and nothing else changes. */
  function HandleScoreChange(d: MonthlyData, value: string): (r: MonthlyData)
    ensures r.(score := d.score) == d
    ensures r.score == ScoreOf(value)
    ensures IsBlank(value) ==> r.score == 0
  {
    d.(score := ScoreOf(value))
  }

  /** The range slider (min 0, max 100) reports its position as a decimal
      string; the score stored is that position, so a valid record stays
      valid. */
  lemma SliderScoreRoundTrip(d: MonthlyData, position: nat)
    requires position <= 100
    ensures HandleScoreChange(d, NatToString(position)).score == position
    ensures ValidRecord(d) ==> ValidRecord(HandleScoreChange(d, NatToString(position)))
  {
    ParseIntOfNatToString(position);
  }

  /** `toggleCategory(id)`: the same code as the diary editor's, so the
      same edit. */
  function ToggleCategory(d: MonthlyData, id: string): (r: MonthlyData)
    ensures Categories.ToggledFrom(d.categories, r.categories, id)
    ensures r.(categories := d.categories) == d
  {
    Diary.ToggleCategory(d, id)
  }

  /** `addCategory()`: a blank name gives no update; otherwise one
      category is appended, switched off, with the trimmed name. */
  function AddCategory(d: MonthlyData, name: string, newId: string): (r: Option<MonthlyData>)
    ensures r.None? <==> IsBlank(name)
    ensures r.Some? ==>
      && r.value.(categories := d.categories) == d
      && |r.value.categories| == |d.categories| + 1
      && r.value.categories[..|d.categories|] == d.categories
      && r.value.categories[|d.categories|] == Category(newId, Trim(name), false)
  {
    match Categories.Append(d.categories, name, newId, false)
    case None => None
    case Some(cats) => Some(d.(categories := cats))
  }

  /** `removeCategory(id)`: every category with that id is removed, the
      others stay in their order, nothing else changes. */
  function RemoveCategory(d: MonthlyData, id: string): (r: MonthlyData)
    ensures r.(categories := d.categories) == d
    ensures r.categories == Categories.Remove(d.categories, id)
    ensures forall i | 0 <= i < |r.categories| :: r.categories[i].id != id
    ensures forall c: Category | c.id != id :: multiset(r.categories)[c] == multiset(d.categories)[c]
    ensures DistinctIds(d.categories) ==> DistinctIds(r.categories)
  {
    assert DistinctIds(d.categories) ==> DistinctIds(Categories.Remove(d.categories, id)) by {
      if DistinctIds(d.categories) {
        Categories.RemoveKeepsDistinctIds(d.categories, id);
      }
    }
    d.(categories := Categories.Remove(d.categories, id))
  }
}
