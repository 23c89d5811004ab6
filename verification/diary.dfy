/** The month editor (components/DiarySection.tsx). Every handler takes the
    month record shown and produces the record handed to `onUpdate`; a
    handler that returns before calling `onUpdate` yields `None`. File
    reading is already done: an upload is the list of data URLs in file
    order, and a new category's random id is a parameter. */
module Diary {
  import opened Types
  import Seqs
  import Categories

  /** The most images a month may hold. */
  const MaxImages: nat := 5

  /** The text fields the editor binds to inputs. */
  datatype TextField = Title | Note | FrequentPeople | FrequentPlaces | Gratitude | Regret | Improvement

  /** The current content of a text field; title and note are always set. */
  function TextOf(d: MonthlyData, f: TextField): Option<string>
  {
    match f
    case Title => Some(d.title)
    case Note => Some(d.note)
    case FrequentPeople => d.frequentPeople
    case FrequentPlaces => d.frequentPlaces
    case Gratitude => d.gratitude
    case Regret => d.regret
    case Improvement => d.improvement
  }

  /** Month, score and the three lists agree. */
  predicate SameNonText(a: MonthlyData, b: MonthlyData)
  {
    a.month == b.month && a.score == b.score && a.images == b.images
    && a.categories == b.categories && a.achievements == b.achievements
  }

  /** `handleFieldChange(field, value)`: the field holds `value` and every
      other field is unchanged. */
  function HandleFieldChange(d: MonthlyData, f: TextField, v: string): (r: MonthlyData)
    ensures TextOf(r, f) == Some(v)
    ensures forall g: TextField | g != f :: TextOf(r, g) == TextOf(d, g)
    ensures SameNonText(r, d)
  {
    match f
    case Title => d.(title := v)
    case Note => d.(note := v)
    case FrequentPeople => d.(frequentPeople := Some(v))
    case FrequentPlaces => d.(frequentPlaces := Some(v))
    case Gratitude => d.(gratitude := Some(v))
    case Regret => d.(regret := Some(v))
    case Improvement => d.(improvement := Some(v))
  }

  /** Writing a field's old content back undoes a field change. */
  lemma FieldChangeUndo(d: MonthlyData, f: TextField, v: string)
    requires TextOf(d, f).Some?
    ensures HandleFieldChange(HandleFieldChange(d, f, v), f, TextOf(d, f).value) == d
  {
  }

  /** `toggleCategory(id)`: the categories with that id flip, nothing else
      in the record changes. */
  function ToggleCategory(d: MonthlyData, id: string): (r: MonthlyData)
    ensures Categories.ToggledFrom(d.categories, r.categories, id)
    ensures r.(categories := d.categories) == d
  {
    d.(categories := Categories.Toggle(d.categories, id))
  }

  /** `addCategory()` from the quick-add form: a blank name gives no
      update; otherwise one category is appended, switched on, with the
      trimmed name, and nothing else changes. */
  function AddCategory(d: MonthlyData, name: string, newId: string): (r: Option<MonthlyData>)
    ensures r.None? <==> IsBlank(name)
    ensures r.Some? ==>
      && r.value.(categories := d.categories) == d
      && |r.value.categories| == |d.categories| + 1
      && r.value.categories[..|d.categories|] == d.categories
      && r.value.categories[|d.categories|] == Category(newId, Trim(name), true)
  {
    match Categories.Append(d.categories, name, newId, true)
    case None => None
    case Some(cats) => Some(d.(categories := cats))
  }

  /** `addAchievement()`: a blank entry gives no update; otherwise the
      trimmed text is appended after the earlier achievements. */
  function AddAchievement(d: MonthlyData, text: string): (r: Option<MonthlyData>)
    ensures r.None? <==> IsBlank(text)
    ensures r.Some? ==>
      && r.value.(achievements := d.achievements) == d
      && |r.value.achievements| == |d.achievements| + 1
      && r.value.achievements[..|d.achievements|] == d.achievements
      && r.value.achievements[|d.achievements|] == Trim(text)
      && Trim(text) != ""
  {
    var val := Trim(text);
    if val == "" then None
    else
      var grown := d.achievements + [val];
      assert grown[..|d.achievements|] == d.achievements;
      Some(d.(achievements := grown))
  }

  /** `removeAchievement(index)`: a list index removes exactly that entry;
      the rest keep their order and nothing else changes. */
  function RemoveAchievement(d: MonthlyData, index: int): (r: MonthlyData)
    ensures r.(achievements := d.achievements) == d
    ensures 0 <= index < |d.achievements| ==>
      && |r.achievements| == |d.achievements| - 1
      && r.achievements == d.achievements[..index] + d.achievements[index + 1..]
    ensures index >= |d.achievements| ==> r == d
  {
    d.(achievements := Seqs.RemoveAt(d.achievements, index))
  }

  /** `handleImageUpload`: no update for an empty selection or a full
      gallery; otherwise the first `5 - current` files (or all of them)
      are appended after the existing images, so the gallery never holds
      more than five. */
  function HandleImageUpload(d: MonthlyData, files: seq<string>): (r: Option<MonthlyData>)
    ensures r.None? <==> |files| == 0 || |d.images| >= MaxImages
    ensures r.Some? ==>
      var n := |d.images|;
      && r.value.(images := d.images) == d
      && |r.value.images| == n + (if |files| < MaxImages - n then |files| else MaxImages - n)
      && r.value.images[..n] == d.images
      && (forall j | 0 <= j < |r.value.images| - n :: r.value.images[n + j] == files[j])
      && |r.value.images| <= MaxImages
  {
    if |files| == 0 then None
    else
      var remainingSlots := MaxImages - |d.images|;
      if remainingSlots <= 0 then None
      else
        var results := Seqs.Take(files, remainingSlots);
        var grown := d.images + results;
        assert grown[..|d.images|] == d.images;
        Some(d.(images := grown))
  }

  /** `removeImage(index)`: a gallery index removes exactly that image; the
      rest keep their order and nothing else changes. */
  function RemoveImage(d: MonthlyData, index: int): (r: MonthlyData)
    ensures r.(images := d.images) == d
    ensures 0 <= index < |d.images| ==>
      && |r.images| == |d.images| - 1
      && r.images == d.images[..index] + d.images[index + 1..]
    ensures |r.images| <= |d.images|
  {
    d.(images := Seqs.RemoveAt(d.images, index))
  }

  /** One editor action with its inputs. */
  datatype Edit =
    | ChangeField(field: TextField, text: string)
    | ToggleCat(id: string)
    | AddCat(name: string, newId: string)
    | AddAch(text: string)
    | RemoveAch(index: int)
    | Upload(files: seq<string>)
    | RemoveImg(index: int)

  /** The record `onUpdate` receives for an action, or the record itself
      when the handler emits no update. */
  function Apply(d: MonthlyData, e: Edit): MonthlyData
  {
    match e
    case ChangeField(f, v) => HandleFieldChange(d, f, v)
    case ToggleCat(id) => ToggleCategory(d, id)
    case AddCat(name, id) => (match AddCategory(d, name, id) case None => d case Some(r) => r)
    case AddAch(text) => (match AddAchievement(d, text) case None => d case Some(r) => r)
    case RemoveAch(i) => RemoveAchievement(d, i)
    case Upload(files) => (match HandleImageUpload(d, files) case None => d case Some(r) => r)
    case RemoveImg(i) => RemoveImage(d, i)
  }

  /** Every editor action keeps the month number and the score, and keeps a
      valid record valid: in particular no sequence of uploads, in one
      batch or many, takes a month past five images. */
  lemma ApplyKeepsValid(d: MonthlyData, e: Edit)
    requires ValidRecord(d)
    ensures Apply(d, e).month == d.month && Apply(d, e).score == d.score
    ensures ValidRecord(Apply(d, e))
  {
  }

  /** The result of a whole sequence of editor actions. */
  function ApplyAll(d: MonthlyData, edits: seq<Edit>): MonthlyData
    decreases |edits|
  {
    if edits == [] then d else ApplyAll(Apply(d, edits[0]), edits[1..])
  }

  /** Any sequence of editor actions keeps a valid record valid and never
      changes its month. */
  lemma {:induction false} ApplyAllKeepsValid(d: MonthlyData, edits: seq<Edit>)
    requires ValidRecord(d)
    ensures ValidRecord(ApplyAll(d, edits))
    ensures ApplyAll(d, edits).month == d.month
    decreases |edits|
  {
    if edits != [] {
      ApplyKeepsValid(d, edits[0]);
      ApplyAllKeepsValid(Apply(d, edits[0]), edits[1..]);
    }
  }
}
