/** The list-level category edits shared by the diary editor and the detail
    panel (components/DiarySection.tsx and components/DetailPanel.tsx hold
    the same toggle code), and the "active categories" filter used by the
    timeline, the recap and the report. */
module Categories {
  import opened Types
  import Seqs

  /** `after` is `before` with the `value` of every category whose id is
      `id` flipped: same length, same ids and names, in the same order. */
  predicate ToggledFrom(before: seq<Category>, after: seq<Category>, id: string)
  {
    && |after| == |before|
    && forall i | 0 <= i < |before| ::
         && after[i].id == before[i].id
         && after[i].name == before[i].name
         && (after[i].value <==> (if before[i].id == id then !before[i].value else before[i].value))
  }

  /** `cats.map(cat => cat.id === id ? { ...cat, value: !cat.value } : cat)` */
  function Toggle(cats: seq<Category>, id: string): (r: seq<Category>)
    ensures ToggledFrom(cats, r, id)
  {
    if cats == [] then []
    else
      var c := cats[0];
      [if c.id == id then c.(value := !c.value) else c] + Toggle(cats[1..], id)
  }

  /** Toggling the same id twice restores the list. */
  lemma ToggleTwice(cats: seq<Category>, id: string)
    ensures Toggle(Toggle(cats, id), id) == cats
  {
  }

  /** Toggling never changes an id, so distinct ids stay distinct. */
  lemma ToggleKeepsDistinctIds(cats: seq<Category>, id: string)
    requires DistinctIds(cats)
    ensures DistinctIds(Toggle(cats, id))
  {
  }

  /** The new-category form: a blank name is rejected (no update);
      otherwise one category with the trimmed name, the given id and the
      given initial state is appended after the existing ones. */
  function Append(cats: seq<Category>, name: string, id: string, initial: bool): (r: Option<seq<Category>>)
    ensures r.None? <==> IsBlank(name)
    ensures r.Some? ==>
      && |r.value| == |cats| + 1
      && r.value[..|cats|] == cats
      && r.value[|cats|] == Category(id, Trim(name), initial)
      && r.value[|cats|].name != ""
  {
    var trimmed := Trim(name);
    if trimmed == "" then None
    else
      var grown := cats + [Category(id, trimmed, initial)];
      assert grown[..|cats|] == cats;
      Some(grown)
  }

  /** With an id not used yet, appending keeps the ids distinct. */
  lemma AppendKeepsDistinctIds(cats: seq<Category>, name: string, id: string, initial: bool)
    requires DistinctIds(cats)
    requires forall i | 0 <= i < |cats| :: cats[i].id != id
    requires !IsBlank(name)
    ensures Append(cats, name, id, initial).Some?
    ensures DistinctIds(Append(cats, name, id, initial).value)
  {
  }

  /** The filter condition of removal: the category does not carry `id`. */
  function KeepsOtherId(id: string): Category -> bool
  {
    (c: Category) => c.id != id
  }

  /** `cats.filter(c => c.id !== id)`: every category with that id is gone,
      every other one is kept as often as it occurred. */
  function Remove(cats: seq<Category>, id: string): (r: seq<Category>)
    ensures forall i | 0 <= i < |r| :: r[i].id != id
    ensures forall c: Category | c.id != id :: multiset(r)[c] == multiset(cats)[c]
    ensures forall c :: c in r <==> c in cats && c.id != id
    ensures (forall i | 0 <= i < |cats| :: cats[i].id != id) ==> r == cats
  {
    var r := Seqs.Filter(KeepsOtherId(id), cats);
    assert forall c :: c in r <==> multiset(r)[c] > 0;
    assert forall c :: c in cats <==> multiset(cats)[c] > 0;
    r
  }

  /** Removal keeps the survivors in order: it distributes over `+`. */
  lemma RemoveConcat(a: seq<Category>, b: seq<Category>, id: string)
    ensures Remove(a + b, id) == Remove(a, id) + Remove(b, id)
  {
    Seqs.FilterConcat(KeepsOtherId(id), a, b);
  }

  /** What survives removal from the tail does not share the head's id. */
  lemma RemoveTailAvoidsHeadId(cats: seq<Category>, id: string)
    requires cats != [] && DistinctIds(cats)
    ensures forall k | 0 <= k < |Remove(cats[1..], id)| :: Remove(cats[1..], id)[k].id != cats[0].id
  {
  }

  /** Removal keeps distinct ids distinct. */
  lemma {:induction false} RemoveKeepsDistinctIds(cats: seq<Category>, id: string)
    requires DistinctIds(cats)
    ensures DistinctIds(Remove(cats, id))
  {
    if cats != [] {
      var c0 := cats[0];
      assert cats == [c0] + cats[1..];
      RemoveConcat([c0], cats[1..], id);
      RemoveKeepsDistinctIds(cats[1..], id);
      RemoveTailAvoidsHeadId(cats, id);
      assert Remove([c0], id) == if c0.id == id then [] else [c0];
    }
  }

  /** The filter condition of the active list: the category is switched on. */
  function IsOn(c: Category): bool
  {
    c.value
  }

  /** `categories.filter(c => c.value)`: exactly the switched-on
      categories, as often as they occur, in their original order (see
      ActiveConcat). */
  function Active(cats: seq<Category>): (r: seq<Category>)
    ensures forall i | 0 <= i < |r| :: r[i].value
    ensures forall c: Category :: c.value ==> multiset(r)[c] == multiset(cats)[c]
    ensures forall c :: c in r <==> c in cats && c.value
    ensures |r| <= |cats|
  {
    var r := Seqs.Filter(IsOn, cats);
    assert forall c :: c in r <==> multiset(r)[c] > 0;
    assert forall c :: c in cats <==> multiset(cats)[c] > 0;
    r
  }

  /** The active list of a concatenation is the concatenation of the
      active lists, so the original order is kept. */
  lemma ActiveConcat(a: seq<Category>, b: seq<Category>)
    ensures Active(a + b) == Active(a) + Active(b)
  {
    Seqs.FilterConcat(IsOn, a, b);
  }
}
