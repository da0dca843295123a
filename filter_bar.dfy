/**
  The filter bar of src/components/FilterBar.jsx: toggling a tag chip in the
  selected-tag filter and clearing both filters.
 */
module FilterBar {
  import opened Seqs
  import opened AppContext

  /** The selection with `tag` removed when it is selected, appended otherwise (src/components/FilterBar.jsx:15-19). */
  function Toggle(prev: seq<string>, tag: string): (r: seq<string>)
    ensures tag in r <==> tag !in prev
    ensures forall x :: x != tag ==> (x in r <==> x in prev)
  {
    if tag in prev then Remove(prev, tag) else prev + [tag]
  }

  /** Toggling a tag that is not selected appends it at the end. */
  lemma ToggleAppends(prev: seq<string>, tag: string)
    requires tag !in prev
    ensures |Toggle(prev, tag)| == |prev| + 1
    ensures Toggle(prev, tag)[..|prev|] == prev && Toggle(prev, tag)[|prev|] == tag
  {
  }

  /** Toggling a selected tag removes every occurrence of it and keeps every other tag, in order. */
  lemma ToggleRemoves(prev: seq<string>, tag: string, a: seq<string>, b: seq<string>)
    requires tag in prev && prev == a + [tag] + b
    ensures tag !in Toggle(prev, tag)
    ensures Toggle(prev, tag) == Remove(a, tag) + Remove(b, tag)
    ensures forall x :: x != tag ==> multiset(Toggle(prev, tag))[x] == multiset(prev)[x]
  {
    RemoveConcat(a + [tag], b, tag);
    RemoveConcat(a, [tag], tag);
    forall x | x != tag ensures multiset(Toggle(prev, tag))[x] == multiset(prev)[x] {
      RemoveKeepsOthers(prev, tag, x);
    }
  }

  /** Toggling an unselected tag twice restores the selection. */
  lemma ToggleTwiceRestores(prev: seq<string>, tag: string)
    requires tag !in prev
    ensures Toggle(Toggle(prev, tag), tag) == prev
  {
    RemoveConcat(prev, [tag], tag);
    RemoveAbsent(prev, tag);
  }

  /** Toggling a selected tag twice moves it, once, to the end. */
  lemma ToggleTwiceMovesToEnd(prev: seq<string>, tag: string)
    requires tag in prev
    ensures Toggle(Toggle(prev, tag), tag) == Remove(prev, tag) + [tag]
  {
  }

  /** A selection without duplicates stays without duplicates. */
  lemma TogglePreservesNoDuplicates(prev: seq<string>, tag: string)
    requires NoDuplicates(prev)
    ensures NoDuplicates(Toggle(prev, tag))
  {
    RemoveNoDuplicates(prev, tag);
  }

  /** `handleTagToggle(tag)`: the selected-tag slot becomes the toggled list. */
  method HandleTagToggle(app: AppState, tag: string)
    modifies app`selectedTags
    ensures app.selectedTags == Toggle(old(app.selectedTags), tag)
  {
    app.selectedTags := Toggle(app.selectedTags, tag);
  }

  /** `clearFilters()`: no tag selected and an empty search term. */
  method ClearFilters(app: AppState)
    modifies app`selectedTags, app`searchTerm
    ensures app.selectedTags == [] && app.searchTerm == ""
  {
    app.selectedTags := [];
    app.searchTerm := "";
  }
}
