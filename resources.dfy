/**
  The records the bookmark manager keeps and the predicate behind
  `getFilteredResources` (src/context/AppContext.jsx): a free-text search on
  title and description, every filter-bar tag, and the optional tag of one rack.
 */
module Resources {
  import opened Wrappers
  import opened Seqs
  import opened Text

  /**
    A stored bookmark. Title and description are optional because documents
    read back from the cloud may lack them; the search treats a missing one
    as not matching.
   */
  datatype Resource = Resource(
    id: string,
    title: Option<string>,
    description: Option<string>,
    url: string,
    image: string,
    tags: seq<string>)

  /** What the add-resource form hands to `addResource`: a resource without an id. */
  datatype Draft = Draft(
    title: string,
    description: string,
    url: string,
    image: string,
    tags: seq<string>)

  /**
    The field, lower-cased, contains the lower-cased term; a missing field
    never matches (src/context/AppContext.jsx:30-31).
   */
  predicate FieldMatches(field: Option<string>, term: string) {
    field.Some? && Includes(ToLower(field.value), ToLower(term))
  }

  /** The search clause: an empty term matches everything, otherwise title or description must contain it. */
  predicate MatchesSearch(r: Resource, term: string): (b: bool)
    ensures term == "" ==> b
    ensures b && term != "" ==> r.title.Some? || r.description.Some?
    ensures b && term != "" ==> |term| <= |r.title.GetOr("")| || |term| <= |r.description.GetOr("")|
  {
    term == "" || FieldMatches(r.title, term) || FieldMatches(r.description, term)
  }

  /** The filter-bar clause: the resource carries every selected tag; the test of an empty selection adds nothing. */
  predicate MatchesSelectedTags(r: Resource, selected: seq<string>): (b: bool)
    ensures b <==> forall t :: t in selected ==> t in r.tags
  {
    |selected| == 0 || forall t :: t in selected ==> t in r.tags
  }

  /**
    The rack clause. The test on the rack name is one of JavaScript
    truthiness, so an empty name behaves like no rack.
   */
  predicate MatchesRack(r: Resource, field: Option<string>): (b: bool)
    ensures field.None? || field == Some("") ==> b
    ensures field.Some? && field.value != "" ==> (b <==> field.value in r.tags)
  {
    if field.Some? && field.value != "" then field.value in r.tags else true
  }

  /** The whole predicate `getFilteredResources` applies to each resource. */
  predicate Matches(r: Resource, term: string, selected: seq<string>, field: Option<string>) {
    MatchesSearch(r, term) && MatchesSelectedTags(r, selected) && MatchesRack(r, field)
  }

  /** The resources that pass the predicate above, in their order: what a rack or the main list shows. */
  function Filtered(rs: seq<Resource>, term: string, selected: seq<string>, field: Option<string>): (r: seq<Resource>)
    ensures forall x :: x in r <==> x in rs && Matches(x, term, selected, field)
  {
    Filter(rs, x => Matches(x, term, selected, field))
  }

  /** The result is exactly the matching subsequence: filtering distributes over concatenation. */
  lemma FilteredInOrder(a: seq<Resource>, b: seq<Resource>, term: string, selected: seq<string>, field: Option<string>)
    ensures Filtered(a + b, term, selected, field) == Filtered(a, term, selected, field) + Filtered(b, term, selected, field)
  {
    FilterConcat(a, b, x => Matches(x, term, selected, field));
  }

  /** Every matching resource keeps all of its occurrences, every other one vanishes. */
  lemma FilteredCount(rs: seq<Resource>, term: string, selected: seq<string>, field: Option<string>, x: Resource)
    ensures multiset(Filtered(rs, term, selected, field))[x]
         == if Matches(x, term, selected, field) then multiset(rs)[x] else 0
  {
    FilterCount(rs, y => Matches(y, term, selected, field), x);
  }

  /** With no search term, no selected tag and no rack, every resource is shown. */
  lemma NoFilterShowsAll(rs: seq<Resource>)
    ensures Filtered(rs, "", [], None) == rs
  {
    FilterAllPass(rs, x => Matches(x, "", [], None));
  }

  /** Every shown resource carries every selected tag, and the rack's tag when there is one. */
  lemma FilteredCarriesTags(rs: seq<Resource>, term: string, selected: seq<string>, field: Option<string>)
    ensures forall x, t :: x in Filtered(rs, term, selected, field) && t in selected ==> t in x.tags
    ensures field.Some? && field.value != "" ==>
              forall x :: x in Filtered(rs, term, selected, field) ==> field.value in x.tags
  {
  }

  /** A non-empty term matches exactly when the lower-cased title or description contains the lower-cased term. */
  lemma SearchIsSubstringTest(r: Resource, term: string)
    requires term != ""
    ensures MatchesSearch(r, term) <==> (
              || (r.title.Some? && exists k :: OccursAt(ToLower(term), ToLower(r.title.value), k))
              || (r.description.Some? && exists k :: OccursAt(ToLower(term), ToLower(r.description.value), k)))
  {
  }

  /** The search ignores ASCII case: two terms that lower-case alike select the same resources. */
  lemma SearchIgnoresCase(r: Resource, term1: string, term2: string)
    requires ToLower(term1) == ToLower(term2)
    ensures MatchesSearch(r, term1) <==> MatchesSearch(r, term2)
  {
    assert term1 == "" <==> term2 == "" by {
      assert |ToLower(term1)| == |term1| && |ToLower(term2)| == |term2|;
    }
  }

  /** A resource with neither title nor description never matches a non-empty term. */
  lemma MissingFieldsNeverMatch(r: Resource, term: string)
    requires term != "" && r.title.None? && r.description.None?
    ensures !MatchesSearch(r, term)
  {
  }
}
