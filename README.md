# Learning-resource organizer: state manager and form logic in Dafny

This project models the collection logic of a personal bookmark manager for
learning resources. A resource is a link with a title, a description, an
image and tags. The model covers:

- the application provider's state (`src/context/AppContext.jsx`): the filter
  behind `getFilteredResources`, the local-storage branch of `addTag`,
  `deleteTag`, `deleteResource` and `addResource`, the tags-document bootstrap
  run on sign-in, and the merge that upserts local resources into the cloud
  store;
- the filter bar (`src/components/FilterBar.jsx`): toggling a selected tag and
  clearing the filters;
- the add-resource form (`src/components/AddResourceModal.jsx`): submit-time
  validation, the payload handed to `addResource`, and the rules for entering
  and removing tag chips;
- the tag manager (`src/components/TagManagement.jsx`): checking a typed tag
  name and deleting a tag after confirmation.

Files and modules:

- `wrappers.dfy` (`Wrappers`): `Option`, for values JavaScript may leave `null`.
- `seqs.dfy` (`Seqs`): `filter`, removal of every occurrence of a value, and the
  first-occurrence de-duplication of `[...new Set(xs)]`.
- `text.dfy` (`Text`): `trim` (the full ECMAScript white-space and
  line-terminator set), ASCII `toLowerCase`, `includes`, and UTF-16 `length`.
- `resources.dfy` (`Resources`): the resource and draft records and the filter predicate.
- `app_context.dfy` (`AppContext`): the classes `AppState` and `CloudStore`, and
  the functions the mutations are specified by.
- `filter_bar.dfy`, `add_resource_modal.dfy`, `tag_management.dfy`: one module per component.

Each component's state is a class whose fields the handlers assign. Each
handler is a method whose `ensures` gives the whole new state in terms of the
old one. The list computations are functions on sequences, and lemmas prove
what the source promises about them.

Behaviour the model keeps as the code has it:

- `addResource` calls `addTag` once per unknown tag. Every call builds
  `[...tags, newTag]` from the same captured `tags`, so when several tags are
  unknown only the last one is added (`AppContext.LastUnseen`). The stored
  resource keeps only the tags that were known before the call.
- `deleteTag` (local branch) sets `localResources` to the stripped *in-memory*
  `resources`, not to the stripped `localResources`. It does not remove the
  tag from `selectedTags`.
- `addTag` sets `localTags` to `tags + [t]`, built from the in-memory `tags`.
- In `handleSubmit`, the URL-format check comes after the blank check and
  replaces its message. A blank URL shows "URL is required" only if
  `validateUrl` accepts it, and the URL parser never does.
- In `getFilteredResources`, the test `field ? … : true` tests truthiness, so
  an empty rack name acts like no rack.
- The merge's writes run together and are not rolled back. When one write
  fails, the others still land, and the local list is kept whole.
- `handleAddTag` measures length in UTF-16 code units, not code points.

In the cloud branch of `deleteTag`, `setTags` and `setResources` run only
after the awaited writes succeed (src/context/AppContext.jsx:209-222). In the
local branch, which is the one modelled, both run unconditionally.

Parameters stand for the environment: `id` is what `Date.now()` returned;
`isValidUrl` is `validateUrl`, an uninterpreted predicate; `confirmed` is the
answer to `window.confirm`; `tagsReadOk`, `tagsWriteOk` and `failing` (the
indices of the upserts that reject) say which cloud calls succeed; the
constructor arguments are what local storage held.

## Model

| member | source | states |
|---|---|---|
| `Seqs.Filter` | src/context/AppContext.jsx:28 | `filter` keeps exactly the elements that pass, and never lengthens the list |
| `Seqs.Remove` | src/components/FilterBar.jsx:17 | filtering out a value leaves no occurrence of it and every other element |
| `Seqs.Dedupe` | src/components/AddResourceModal.jsx:49 | the set-based de-duplication has no duplicates and the same elements as its input |
| `Text.Trim` | src/components/TagManagement.jsx:13 | `trim` removes only white space, and only at the ends: the input is white space, then the result, then white space; the result is empty exactly for blank input and otherwise starts and ends with a non-space |
| `Text.ToLower` | src/context/AppContext.jsx:30-31 | lower-casing maps each character on its own: ASCII capitals to their small letters, everything else to itself; the length is kept |
| `Text.Includes` | src/context/AppContext.jsx:30-31 | `includes` holds exactly when the needle occurs at some offset of the haystack |
| `Text.Utf16Length` | src/components/TagManagement.jsx:20 | `length` counts one or two code units per code point: one character below U+10000 is one unit, one above is two |
| `Text.Utf16LengthConcat` | src/components/TagManagement.jsx:20 | the code units of a concatenation are the sum of those of its parts |
| `Text.Utf16LengthOfBasicPlane` | src/components/TagManagement.jsx:20 | the length in code units equals the number of characters exactly when no character is above U+FFFF |
| `Resources.MatchesSearch` | src/context/AppContext.jsx:29-31 | an empty term matches every resource; a non-empty term matches only a resource with a title or description at least as long as the term |
| `Resources.MatchesSelectedTags` | src/context/AppContext.jsx:33-34 | the resource carries every selected tag; the separate empty-selection test changes nothing |
| `Resources.MatchesRack` | src/context/AppContext.jsx:37-39 | no rack or an empty rack name lets everything through; otherwise exactly the resources carrying the rack's tag pass |
| `Resources.Filtered` | src/context/AppContext.jsx:28-42 | a resource is shown exactly when it is stored and passes search, selected-tag and rack clauses |
| `Resources.FilteredInOrder` | src/context/AppContext.jsx:28-42 | the filter distributes over concatenation, so the result is the matching subsequence in original order |
| `Resources.FilteredCount` | src/context/AppContext.jsx:28-42 | a matching resource keeps all its occurrences, a non-matching one none |
| `Resources.NoFilterShowsAll` | src/context/AppContext.jsx:29-39 | an empty search term, no selected tag and no rack show every resource |
| `Resources.FilteredCarriesTags` | src/context/AppContext.jsx:33-39 | every shown resource carries every selected tag and the rack's tag |
| `Resources.SearchIsSubstringTest` | src/context/AppContext.jsx:29-31 | a non-empty term matches exactly when the lower-cased title or description contains the lower-cased term |
| `Resources.SearchIgnoresCase` | src/context/AppContext.jsx:29-31 | terms that lower-case alike match the same resources |
| `Resources.MissingFieldsNeverMatch` | src/context/AppContext.jsx:29-31 | with neither title nor description, a non-empty term never matches |
| `AppContext.CloudStore.constructor` | src/context/AppContext.jsx:81-96 | the cloud store holds the given resource collection and tags document |
| `AppContext.AppState.constructor` | src/context/AppContext.jsx:12-23 | local-storage slots hold what is stored or their defaults (`[]`, `["DSA","CP","ML"]`, `[]`, `""`); memory starts empty |
| `AppContext.AppState.GetFilteredResources` | src/context/AppContext.jsx:27-43 | the current resources that the current search term and selected tags, and the rack, let through |
| `AppContext.AppState.InitializeSignedOut` | src/context/AppContext.jsx:102-106 | signed out, memory adopts the local resources and tags verbatim |
| `AppContext.AppState.InitializeSignedIn` | src/context/AppContext.jsx:91-101 | an existing tags document is adopted; a missing one is written from the local tags and adopted; then the merge runs; a failed read or write stops before the merge |
| `AppContext.AppState.MergeLocalData` | src/context/AppContext.jsx:52-65 | the cloud collection becomes the old one with every successful upsert applied; the local list is cleared only if no write failed |
| `AppContext.Merged` | src/context/AppContext.jsx:56-58 | the cloud collection after the upserts that succeeded; no document is ever removed |
| `AppContext.MergedKeys` | src/context/AppContext.jsx:56-58 | the merged collection holds exactly the old documents and the ids some successful upsert wrote |
| `AppContext.LocalAfterMerge` | src/context/AppContext.jsx:53-63 | the local list is emptied exactly when every upsert succeeded, and otherwise left whole |
| `AppContext.MergedHoldsLastWrite` | src/context/AppContext.jsx:56-58 | a successful upsert of a resource is what its id maps to, unless a later one writes the same id |
| `AppContext.MergedLeavesOthers` | src/context/AppContext.jsx:56-58 | ids no successful upsert touches keep their old entry or stay absent |
| `AppContext.MergeStoresEveryResource` | src/context/AppContext.jsx:56-59 | with all writes succeeding and distinct ids, every local resource is stored under its id |
| `AppContext.MergeOfNothing` | src/context/AppContext.jsx:53 | an empty local list writes nothing and stays empty |
| `AppContext.AppState.AddTagAgainst` | src/context/AppContext.jsx:177-190 | `addTag` run against a captured tag list: no-op if present, otherwise both tag slots become captured + `[t]` |
| `AppContext.AppState.AddTag` | src/context/AppContext.jsx:175-196 | an existing tag changes nothing; a new one makes `tags` and `localTags` both `old(tags) + [t]`; a duplicate-free tag list stays duplicate-free |
| `AppContext.AppState.DeleteTag` | src/context/AppContext.jsx:198-222 | the tag leaves the tag list and every resource, in memory and local storage; duplicate-freedom of the tags is kept |
| `AppContext.StripTag` | src/context/AppContext.jsx:201-204 | the same number of resources, none carrying the tag, every other tag kept, and id, title, description, URL and image unchanged |
| `AppContext.DeleteTagCascades` | src/context/AppContext.jsx:200-204 | after stripping, no resource has the tag; count, order and all other fields stay, and every other tag keeps its occurrences |
| `AppContext.AppState.DeleteResource` | src/context/AppContext.jsx:156-173 | both resource slots lose exactly the resources with that id |
| `AppContext.WithoutId` | src/context/AppContext.jsx:164-165 | the kept resources are exactly those with another id |
| `AppContext.DeleteResourceKeepsOthers` | src/context/AppContext.jsx:164-165 | every other resource keeps its occurrences and relative order |
| `AppContext.AppState.AddResource` | src/context/AppContext.jsx:123-147 | one resource with the known tags is appended to both slots; only the last unknown tag is added to the tags |
| `AppContext.ResourceWithId` | src/context/AppContext.jsx:125-129 | the stored resource has the given id, the draft's fields, and exactly the draft tags that were known |
| `AppContext.LastUnseen` | src/context/AppContext.jsx:132-136 | the tag that survives the stale `addTag` calls is an unknown tag of the draft after which every draft tag is known, i.e. the last unknown one; there is none exactly when all are known |
| `AppContext.UnknownTagIsDroppedButCreated` | src/context/AppContext.jsx:125-136 | known `["DSA"]`, draft tags `["DSA","NEW"]`: the resource keeps `["DSA"]` and `NEW` is created |
| `AppContext.OnlyLastUnseenTagIsCreated` | src/context/AppContext.jsx:132-136 | with unknown tags `A` then `B`, only `B` is created |
| `FilterBar.Toggle` | src/components/FilterBar.jsx:15-19 | the toggled tag is selected afterwards exactly when it was not before; no other tag changes membership |
| `FilterBar.ToggleAppends` | src/components/FilterBar.jsx:15-19 | toggling an unselected tag appends it at the end |
| `FilterBar.ToggleRemoves` | src/components/FilterBar.jsx:16-17 | toggling a selected tag removes all its occurrences and keeps the other tags, with their counts, in order |
| `FilterBar.ToggleTwiceRestores` | src/components/FilterBar.jsx:15-19 | toggling an unselected tag twice restores the selection |
| `FilterBar.ToggleTwiceMovesToEnd` | src/components/FilterBar.jsx:15-19 | toggling a selected tag twice leaves it once, at the end |
| `FilterBar.TogglePreservesNoDuplicates` | src/components/FilterBar.jsx:15-19 | a duplicate-free selection stays duplicate-free |
| `FilterBar.HandleTagToggle` | src/components/FilterBar.jsx:14-20 | the selected tags become the toggled list |
| `FilterBar.ClearFilters` | src/components/FilterBar.jsx:22-25 | no tag selected and an empty search term |
| `AddResourceModal.HasErrors` | src/components/AddResourceModal.jsx:41 | the form has errors exactly when some field carries a message |
| `AddResourceModal.ValidationErrors` | src/components/AddResourceModal.jsx:34-39 | title error exactly for a blank title; "Invalid URL format" exactly when the validator rejects; "URL is required" exactly for a blank URL the validator accepts; tags error exactly for no tags |
| `AddResourceModal.BlankTitleBlocksSubmit` | src/components/AddResourceModal.jsx:36-44 | a blank title yields the title error and stops the submission |
| `AddResourceModal.BlankUrlReportsFormat` | src/components/AddResourceModal.jsx:37-38 | a blank URL the validator rejects ends with "Invalid URL format" |
| `AddResourceModal.NoTagsBlocksSubmit` | src/components/AddResourceModal.jsx:39-44 | no tags yields the tags error and stops the submission |
| `AddResourceModal.SubmitAcceptedIff` | src/components/AddResourceModal.jsx:36-44 | submission goes ahead exactly when title and URL are not blank, the URL is valid, and a tag is given |
| `AddResourceModal.Payload` | src/components/AddResourceModal.jsx:47-51 | the payload keeps title, description and URL, has duplicate-free tags with the same elements, and its image is the draft's when it had one and the placeholder otherwise |
| `AddResourceModal.PayloadTagsInOrder` | src/components/AddResourceModal.jsx:49 | de-duplication keeps first occurrences in order: more tags only extend the result |
| `AddResourceModal.PayloadKeepsDistinctTags` | src/components/AddResourceModal.jsx:49 | on duplicate-free tags the de-duplication changes nothing |
| `AddResourceModal.AddResourceForm.constructor` | src/components/AddResourceModal.jsx:9-17 | an opened form has empty fields, no chips and no errors |
| `AddResourceModal.AddResourceForm.EditTitle` | src/components/AddResourceModal.jsx:128 | only the title changes |
| `AddResourceModal.AddResourceForm.EditUrl` | src/components/AddResourceModal.jsx:144 | only the URL changes |
| `AddResourceModal.AddResourceForm.EditDescription` | src/components/AddResourceModal.jsx:205 | only the description changes |
| `AddResourceModal.AddResourceForm.EditNewTag` | src/components/AddResourceModal.jsx:177 | the typed tag is stored |
| `AddResourceModal.AddResourceForm.HandleTagKeyDown` | src/components/AddResourceModal.jsx:178-188 | on Enter or comma, a trimmed, non-blank, new tag becomes the last chip, is created globally if unknown, and clears the input; otherwise nothing changes; chips stay duplicate-free |
| `AddResourceModal.AddResourceForm.RemoveChip` | src/components/AddResourceModal.jsx:164-167 | every occurrence of the tag leaves the chips; chips stay duplicate-free |
| `AddResourceModal.AddResourceForm.HandleSubmit` | src/components/AddResourceModal.jsx:32-53 | with an error, the errors are shown and the app is untouched; otherwise the payload is added under the id and the form closes; chips being duplicate-free, the de-duplication is a no-op and the stored tags are the chips that were known tags, in order |
| `TagManagement.CheckTagName` | src/components/TagManagement.jsx:13-23 | blank input gives the empty-name error, a one-unit name the length error, anything longer is accepted as the trimmed name |
| `TagManagement.OneCharacterIsTooShort` | src/components/TagManagement.jsx:15-23 | a one-character name in the basic plane gets the length error, not the empty one |
| `TagManagement.TagManager.constructor` | src/components/TagManagement.jsx:8-9 | nothing typed and no error |
| `TagManagement.TagManager.EditNewTag` | src/components/TagManagement.jsx:66-69 | typing stores the input and clears the error |
| `TagManagement.TagManager.HandleAddTag` | src/components/TagManagement.jsx:11-32 | a rejected name sets its error and does not call `addTag`; an accepted one calls `addTag` with the trimmed name and clears input and error |
| `TagManagement.TagManager.HandleDeleteTag` | src/components/TagManagement.jsx:34-42 | `deleteTag` runs exactly when confirmed |

## Left out

- Cloud-branch mutations (`user` set): `setDoc`, `getDoc`, `deleteDoc` in `addResource`, `deleteResource`, `addTag` and `deleteTag`. They rely on the snapshot subscription to refresh memory, which cannot be stated locally; the model is the signed-out branch.
- The `onSnapshot` subscription and its wholesale replacement of `resources`: `InitializeSignedIn` leaves the in-memory resources as they were.
- The re-run of the initialisation effect when its dependencies change, async interleaving of mutations and snapshots, and the `loading` flag.
- Local persistence: the `useLocalStorage` hook is not part of this model. Its slots are plain fields, and the constructor takes what storage held.
- Authentication (`src/context/AuthContext.jsx`, `LoginModal.jsx`): the signed-in or signed-out choice is which initialisation method is called.
- `validateUrl` wraps the WHATWG `URL` parser; it is a function parameter here.
- Toasts, `console.error`, dark mode, image upload by drop or paste (FileReader), and all rendering.
- Uniqueness of `Date.now()` ids is not claimed; the id is a parameter.
- `Text.ToLower`: only ASCII letters are lower-cased, whereas `toLowerCase` maps all of Unicode.
- `AddResourceModal.AddResourceForm.HandleSubmit`: the form closes through the parent's `onClose`, modelled as clearing `open`.
- `TagManagement.TagManager.HandleAddTag`: the `catch` that sets "Failed to add tag" is not modelled, because `addTag` catches its own errors and never rejects.
- `AppContext.Merged`: `Promise.all` issues the upserts together; when two local resources share an id, the model takes the later one in the list to land last.
