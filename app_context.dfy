/**
  The resource/tag state manager of src/context/AppContext.jsx: the state
  slots the provider keeps, the local-storage branch of its mutations, the
  tags-document bootstrap and the merge of local resources into the cloud
  store on sign-in.
 */
module AppContext {
  import opened Wrappers
  import opened Seqs
  import opened Resources

  /** The tags local storage starts with when nothing is stored under `tags`. */
  const DefaultTags: seq<string> := ["DSA", "CP", "ML"]

  /**
    The signed-in user's documents in the cloud store: the `resources`
    sub-collection, one document per resource id, and the `metadata/tags`
    document, which may not exist yet.
   */
  class CloudStore {
    var resources: map<string, Resource>
    var tagsDoc: Option<seq<string>>

    constructor (resources: map<string, Resource>, tagsDoc: Option<seq<string>>)
      ensures this.resources == resources && this.tagsDoc == tagsDoc
    {
      this.resources := resources;
      this.tagsDoc := tagsDoc;
    }
  }

  /** None of the first `n` upserts of a batch is among the `failing` ones. */
  predicate AllWritten(n: nat, failing: set<nat>) {
    forall i :: 0 <= i < n ==> i !in failing
  }

  /**
    The collection after upserting each of `rs` under its id, except the
    writes whose index is in `failing`. The writes of `Promise.all` are
    issued together; a later resource with the same id is taken to land last.
   */
  function Merged(m: map<string, Resource>, rs: seq<Resource>, failing: set<nat>): (r: map<string, Resource>)
    ensures m.Keys <= r.Keys
    decreases |rs|
  {
    if rs == [] then m
    else
      var n := |rs| - 1;
      var prior := Merged(m, rs[..n], failing);
      if n in failing then prior else prior[rs[n].id := rs[n]]
  }

  /** Some successful upsert of `rs` writes the document `k`. */
  predicate Written(rs: seq<Resource>, failing: set<nat>, k: string) {
    exists i :: 0 <= i < |rs| && i !in failing && rs[i].id == k
  }

  /** What remains of the local list after the merge: nothing when every write succeeded, all of it otherwise. */
  function LocalAfterMerge(local: seq<Resource>, failing: set<nat>): (r: seq<Resource>)
    ensures r == [] || r == local
    ensures r == [] <==> AllWritten(|local|, failing)
  {
    if AllWritten(|local|, failing) then [] else local
  }

  /** A successful write with no later successful write under the same id is what the collection keeps. */
  lemma {:induction false} MergedHoldsLastWrite(m: map<string, Resource>, rs: seq<Resource>, failing: set<nat>, i: nat)
    requires i < |rs| && i !in failing
    requires forall j :: i < j < |rs| && j !in failing ==> rs[j].id != rs[i].id
    ensures rs[i].id in Merged(m, rs, failing) && Merged(m, rs, failing)[rs[i].id] == rs[i]
    decreases |rs|
  {
    var n := |rs| - 1;
    if i < n {
      MergedHoldsLastWrite(m, rs[..n], failing, i);
    }
  }

  /** An id no successful write touches keeps its old entry, or stays absent. */
  lemma {:induction false} MergedLeavesOthers(m: map<string, Resource>, rs: seq<Resource>, failing: set<nat>, k: string)
    requires forall j :: 0 <= j < |rs| && j !in failing ==> rs[j].id != k
    ensures k in Merged(m, rs, failing) <==> k in m
    ensures k in m ==> Merged(m, rs, failing)[k] == m[k]
    decreases |rs|
  {
    if rs != [] {
      MergedLeavesOthers(m, rs[..|rs| - 1], failing, k);
    }
  }

  /** The merged collection holds exactly the old documents and those some successful upsert writes. */
  lemma {:induction false} MergedKeys(m: map<string, Resource>, rs: seq<Resource>, failing: set<nat>)
    ensures forall k :: k in Merged(m, rs, failing) <==> k in m || Written(rs, failing, k)
    decreases |rs|
  {
    if rs != [] {
      var n := |rs| - 1;
      MergedKeys(m, rs[..n], failing);
      forall k ensures Written(rs, failing, k) <==> Written(rs[..n], failing, k) || (n !in failing && rs[n].id == k) {
        if Written(rs, failing, k) {
          var i :| 0 <= i < |rs| && i !in failing && rs[i].id == k;
          if i < n { assert rs[..n][i] == rs[i]; }
        }
        if Written(rs[..n], failing, k) {
          var i :| 0 <= i < n && i !in failing && rs[..n][i].id == k;
          assert rs[i] == rs[..n][i];
        }
      }
    }
  }

  /** When every write succeeds and the ids are distinct, each local resource is in the cloud under its id. */
  lemma MergeStoresEveryResource(m: map<string, Resource>, rs: seq<Resource>, failing: set<nat>)
    requires AllWritten(|rs|, failing)
    requires forall i, j :: 0 <= i < j < |rs| ==> rs[i].id != rs[j].id
    ensures forall i :: 0 <= i < |rs| ==> rs[i].id in Merged(m, rs, failing) && Merged(m, rs, failing)[rs[i].id] == rs[i]
  {
    forall i | 0 <= i < |rs|
      ensures rs[i].id in Merged(m, rs, failing) && Merged(m, rs, failing)[rs[i].id] == rs[i]
    {
      MergedHoldsLastWrite(m, rs, failing, i);
    }
  }

  /** An empty local list issues no write: the cloud collection is left as it was. */
  lemma MergeOfNothing(m: map<string, Resource>, failing: set<nat>)
    ensures Merged(m, [], failing) == m && LocalAfterMerge([], failing) == []
  {
  }

  /**
    The last tag of `ts` that is not in `known`. Every `addTag` call of one
    `addResource` appends its tag to the same captured tag list,
    so this is the only new tag that survives.
   */
  function LastUnseen(ts: seq<string>, known: seq<string>): (r: Option<string>)
    ensures r.Some? ==> r.value in ts && r.value !in known
    ensures r.Some? ==> exists i :: 0 <= i < |ts| && ts[i] == r.value && forall j :: i < j < |ts| ==> ts[j] in known
    ensures r.None? <==> forall t :: t in ts ==> t in known
    decreases |ts|
  {
    if ts == [] then None
    else
      var n := |ts| - 1;
      var init := ts[..n];
      assert ts == init + [ts[n]];
      if ts[n] !in known then Some(ts[n])
      else
        var rest := LastUnseen(init, known);
        assert rest.Some? ==> exists i :: 0 <= i < |ts| && ts[i] == rest.value && forall j :: i < j < |ts| ==> ts[j] in known by {
          if rest.Some? {
            var i :| 0 <= i < |init| && init[i] == rest.value && forall j :: i < j < |init| ==> init[j] in known;
            assert ts[i] == rest.value;
            assert forall j :: i < j < |ts| ==> ts[j] in known by {
              forall j | i < j < |ts| ensures ts[j] in known {
                if j < n { assert ts[j] == init[j]; }
              }
            }
          }
        }
        rest
  }

  /**
    Adding a resource tagged `DSA` and `NEW` while only `DSA` is known stores
    it with `DSA` alone, and `NEW` becomes a tag.
   */
  lemma UnknownTagIsDroppedButCreated()
    ensures ResourceWithId(Draft("X", "", "https://a.com", "", ["DSA", "NEW"]), "1", ["DSA"]).tags == ["DSA"]
    ensures LastUnseen(["DSA", "NEW"], ["DSA"]) == Some("NEW")
  {
  }

  /** With two unseen tags, only the second one is created. */
  lemma OnlyLastUnseenTagIsCreated()
    ensures LastUnseen(["A", "B"], ["DSA"]) == Some("B")
  {
  }

  /** The resource `addResource` stores: the draft under `id`, its tags cut down to those in `known`. */
  function ResourceWithId(d: Draft, id: string, known: seq<string>): (r: Resource)
    ensures r.id == id && r.title == Some(d.title) && r.description == Some(d.description)
    ensures r.url == d.url && r.image == d.image
    ensures forall t :: t in r.tags <==> t in d.tags && t in known
    ensures NoDuplicates(d.tags) ==> NoDuplicates(r.tags)
  {
    FilterNoDuplicates(d.tags, t => t in known);
    Resource(id, Some(d.title), Some(d.description), d.url, d.image, Filter(d.tags, t => t in known))
  }

  /** Every resource with `t` taken out of its tags (src/context/AppContext.jsx:201-204). */
  function StripTag(rs: seq<Resource>, t: string): (r: seq<Resource>)
    ensures |r| == |rs|
    ensures forall i :: 0 <= i < |rs| ==> t !in r[i].tags
    ensures forall i, x :: 0 <= i < |rs| && x != t ==> (x in r[i].tags <==> x in rs[i].tags)
    ensures forall i :: 0 <= i < |rs| ==>
              r[i].id == rs[i].id && r[i].title == rs[i].title && r[i].description == rs[i].description
              && r[i].url == rs[i].url && r[i].image == rs[i].image
  {
    seq(|rs|, i requires 0 <= i < |rs| => rs[i].(tags := Remove(rs[i].tags, t)))
  }

  /**
    Deleting a tag cascades: no resource keeps it, every resource stays in
    its place, and nothing but the tag list of each changes.
   */
  lemma DeleteTagCascades(rs: seq<Resource>, t: string)
    ensures |StripTag(rs, t)| == |rs|
    ensures forall i :: 0 <= i < |rs| ==> t !in StripTag(rs, t)[i].tags
    ensures forall i :: 0 <= i < |rs| ==> StripTag(rs, t)[i] == rs[i].(tags := StripTag(rs, t)[i].tags)
    ensures forall i, x :: 0 <= i < |rs| && x != t ==>
              multiset(StripTag(rs, t)[i].tags)[x] == multiset(rs[i].tags)[x]
  {
    forall i, x | 0 <= i < |rs| && x != t
      ensures multiset(StripTag(rs, t)[i].tags)[x] == multiset(rs[i].tags)[x]
    {
      RemoveKeepsOthers(rs[i].tags, t, x);
    }
  }

  /** The resources whose id is not `id`, in their order (src/context/AppContext.jsx:164-165). */
  function WithoutId(rs: seq<Resource>, id: string): (r: seq<Resource>)
    ensures forall x :: x in r <==> x in rs && x.id != id
  {
    Filter(rs, (x: Resource) => x.id != id)
  }

  /** Deleting a resource keeps every other resource, each as often as before and in the same order. */
  lemma DeleteResourceKeepsOthers(a: seq<Resource>, b: seq<Resource>, id: string, x: Resource)
    requires x.id != id
    ensures multiset(WithoutId(a, id))[x] == multiset(a)[x]
    ensures WithoutId(a + b, id) == WithoutId(a, id) + WithoutId(b, id)
  {
    FilterCount(a, (y: Resource) => y.id != id, x);
    FilterConcat(a, b, (y: Resource) => y.id != id);
  }

  /**
    The state of the application provider. `localResources`, `localTags`,
    `selectedTags` and `searchTerm` mirror local-storage slots; `resources`
    and `tags` are the in-memory collections the views read.
   */
  class AppState {
    var resources: seq<Resource>
    var tags: seq<string>
    var localResources: seq<Resource>
    var localTags: seq<string>
    var selectedTags: seq<string>
    var searchTerm: string

    /** The first render: each local-storage slot holds what is stored, or its default when nothing is. */
    constructor (storedResources: Option<seq<Resource>>, storedTags: Option<seq<string>>,
                 storedSelected: Option<seq<string>>, storedSearch: Option<string>)
      ensures localResources == storedResources.GetOr([])
      ensures localTags == storedTags.GetOr(DefaultTags)
      ensures selectedTags == storedSelected.GetOr([])
      ensures searchTerm == storedSearch.GetOr("")
      ensures resources == [] && tags == []
    {
      localResources := storedResources.GetOr([]);
      localTags := storedTags.GetOr(DefaultTags);
      selectedTags := storedSelected.GetOr([]);
      searchTerm := storedSearch.GetOr("");
      resources := [];
      tags := [];
    }

    /** `getFilteredResources(field)`: the resources the current search, tag filter and rack let through. */
    function GetFilteredResources(field: Option<string>): (r: seq<Resource>)
      reads this
      ensures forall x :: x in r <==> x in resources && Matches(x, searchTerm, selectedTags, field)
    {
      Filtered(resources, searchTerm, selectedTags, field)
    }

    /** Initialisation without a signed-in user: the in-memory collections adopt local storage verbatim. */
    method InitializeSignedOut()
      modifies this`resources, this`tags
      ensures resources == localResources && tags == localTags
    {
      resources := localResources;
      tags := localTags;
    }

    /**
      The merge run on sign-in: upsert every local resource into the cloud
      under its id and, when no write failed, clear the local list. The
      writes that succeeded stay even when another one fails.
     */
    method MergeLocalData(cloud: CloudStore, failing: set<nat>)
      modifies this`localResources, cloud`resources
      ensures cloud.resources == Merged(old(cloud.resources), old(localResources), failing)
      ensures localResources == LocalAfterMerge(old(localResources), failing)
    {
      var local := localResources;
      if |local| > 0 {
        var i := 0;
        var ok := true;
        while i < |local|
          invariant 0 <= i <= |local|
          invariant cloud.resources == Merged(old(cloud.resources), local[..i], failing)
          invariant ok == AllWritten(i, failing)
          invariant localResources == local
        {
          assert local[..i + 1][..i] == local[..i];
          if i !in failing {
            cloud.resources := cloud.resources[local[i].id := local[i]];
          } else {
            ok := false;
          }
          i := i + 1;
        }
        assert local[..i] == local;
        if ok {
          localResources := [];
        }
      }
    }

    /**
      Initialisation with a signed-in user, after the snapshot subscription:
      read the tags document and adopt it; when it does not exist, write the
      local tags to it and adopt those; then merge. A failed read or write
      ends the initialisation before the merge.
     */
    method InitializeSignedIn(cloud: CloudStore, tagsReadOk: bool, tagsWriteOk: bool, failing: set<nat>)
      modifies this`tags, this`localResources, cloud
      ensures var proceeds := tagsReadOk && (old(cloud.tagsDoc).Some? || tagsWriteOk);
        && (proceeds ==> cloud.resources == Merged(old(cloud.resources), old(localResources), failing))
        && (proceeds ==> localResources == LocalAfterMerge(old(localResources), failing))
        && (!proceeds ==> cloud.resources == old(cloud.resources) && localResources == old(localResources))
        && (!proceeds ==> tags == old(tags) && cloud.tagsDoc == old(cloud.tagsDoc))
      ensures tagsReadOk && old(cloud.tagsDoc).Some? ==> tags == old(cloud.tagsDoc).value && cloud.tagsDoc == old(cloud.tagsDoc)
      ensures tagsReadOk && old(cloud.tagsDoc).None? && tagsWriteOk ==> tags == localTags && cloud.tagsDoc == Some(localTags)
    {
      if !tagsReadOk {
        return;
      }
      if cloud.tagsDoc.Some? {
        tags := cloud.tagsDoc.value;
      } else {
        if !tagsWriteOk {
          return;
        }
        cloud.tagsDoc := Some(localTags);
        tags := localTags;
      }
      MergeLocalData(cloud, failing);
    }

    /**
      The body of `addTag(t)` run against the tag list `captured` of the
      render that created it: no-op when `t` is there, otherwise both tag
      slots become `captured + [t]`.
     */
    method AddTagAgainst(captured: seq<string>, t: string)
      modifies this`tags, this`localTags
      ensures t in captured ==> tags == old(tags) && localTags == old(localTags)
      ensures t !in captured ==> tags == captured + [t] && localTags == captured + [t]
    {
      if t in captured {
        return;
      }
      var updated := captured + [t];
      localTags := updated;
      tags := updated;
    }

    /** `addTag(t)`: append `t` to both tag slots unless it is already a tag. */
    method AddTag(t: string)
      modifies this`tags, this`localTags
      ensures t in old(tags) ==> tags == old(tags) && localTags == old(localTags)
      ensures t !in old(tags) ==> tags == old(tags) + [t] && localTags == old(tags) + [t]
      ensures t in tags && (NoDuplicates(old(tags)) ==> NoDuplicates(tags))
    {
      AddTagAgainst(tags, t);
    }

    /**
      `deleteTag(t)`: drop `t` from the tag list and from every resource, and
      store both results locally. The selected filter tags are not touched.
     */
    method DeleteTag(t: string)
      modifies this`tags, this`localTags, this`resources, this`localResources
      ensures tags == Remove(old(tags), t) && localTags == tags
      ensures resources == StripTag(old(resources), t) && localResources == resources
      ensures t !in tags && (NoDuplicates(old(tags)) ==> NoDuplicates(tags))
    {
      var updatedTags := Remove(tags, t);
      var updatedResources := StripTag(resources, t);
      RemoveNoDuplicates(tags, t);
      localTags := updatedTags;
      localResources := updatedResources;
      tags := updatedTags;
      resources := updatedResources;
    }

    /** `deleteResource(id)`: drop every resource with that id from both resource slots. */
    method DeleteResource(id: string)
      modifies this`resources, this`localResources
      ensures localResources == WithoutId(old(localResources), id)
      ensures resources == WithoutId(old(resources), id)
    {
      localResources := WithoutId(localResources, id);
      resources := WithoutId(resources, id);
    }

    /**
      `addResource(d)` with the id `Date.now()` gave: store the draft with
      its tags cut down to the known ones, and call `addTag` for each unseen
      tag. All those calls start from the same captured tag list, so only
      the last unseen tag is added.
     */
    method AddResource(d: Draft, id: string)
      modifies this`tags, this`localTags, this`resources, this`localResources
      ensures var r := ResourceWithId(d, id, old(tags));
        resources == old(resources) + [r] && localResources == old(localResources) + [r]
      ensures LastUnseen(d.tags, old(tags)).None? ==> tags == old(tags) && localTags == old(localTags)
      ensures LastUnseen(d.tags, old(tags)).Some? ==>
                tags == old(tags) + [LastUnseen(d.tags, old(tags)).value] && localTags == tags
      ensures NoDuplicates(old(tags)) ==> NoDuplicates(tags)
    {
      var captured := tags;
      var r := ResourceWithId(d, id, captured);
      var i := 0;
      while i < |d.tags|
        invariant 0 <= i <= |d.tags|
        invariant resources == old(resources) && localResources == old(localResources)
        invariant LastUnseen(d.tags[..i], captured).None? ==> tags == captured && localTags == old(localTags)
        invariant LastUnseen(d.tags[..i], captured).Some? ==>
                    tags == captured + [LastUnseen(d.tags[..i], captured).value] && localTags == tags
      {
        assert d.tags[..i + 1][..i] == d.tags[..i];
        if d.tags[i] !in captured {
          AddTagAgainst(captured, d.tags[i]);
        }
        i := i + 1;
      }
      assert d.tags[..i] == d.tags;
      localResources := localResources + [r];
      resources := resources + [r];
    }
  }
}
