/**
  The add-resource form of src/components/AddResourceModal.jsx: its field
  state, the submit-time validation, the payload handed to `addResource`,
  and the rules for entering and removing tag chips.
 */
module AddResourceModal {
  import opened Wrappers
  import opened Seqs
  import opened Text
  import opened Resources
  import opened AppContext

  const TitleRequired := "Title is required"
  const UrlRequired := "URL is required"
  const InvalidUrl := "Invalid URL format"
  const TagsRequired := "At least one tag is required"

  /** `getPlaceholderImage()` of src/utils/helperFunctions.js: an SVG reading "No image available". */
  const PlaceholderImage := "data:image/svg+xml;base64,PHN2ZyB3aWR0aD0iNDAwIiBoZWlnaHQ9IjIyNSIgeG1sbnM9Imh0dHA6Ly93d3cudzMub3JnLzIwMDAvc3ZnIj4KICAgIDxyZWN0IHdpZHRoPSI0MDAiIGhlaWdodD0iMjI1IiBmaWxsPSIjZWVlIi8+CiAgICA8dGV4dCB4PSI1MCUiIHk9IjUwJSIgZm9udC1mYW1pbHk9IkFyaWFsIiBmb250LXNpemU9IjE4IiB0ZXh0LWFuY2hvcj0ibWlkZGxlIiBmaWxsPSIjODg4Ij5ObyBpbWFnZSBhdmFpbGFibGU8L3RleHQ+Cjwvc3ZnPg=="

  /** The `errors` object: one optional message per field. */
  datatype Errors = Errors(title: Option<string>, url: Option<string>, tags: Option<string>)

  const NoErrors := Errors(None, None, None)

  /** Some field carries a message (src/components/AddResourceModal.jsx:41). */
  predicate HasErrors(e: Errors): (b: bool)
    ensures b <==> e != Errors(None, None, None)
  {
    e.title.Some? || e.url.Some? || e.tags.Some?
  }

  /**
    The errors `handleSubmit` ends with, field by field, where `urlOk` is
    what `validateUrl(resource.url)` answered. The format check runs after
    the blank check and overwrites its message.
   */
  function ValidationErrors(d: Draft, urlOk: bool): (e: Errors)
    ensures e.title.Some? <==> Trim(d.title) == ""
    ensures e.url == Some(InvalidUrl) <==> !urlOk
    ensures e.url == Some(UrlRequired) <==> urlOk && Trim(d.url) == ""
    ensures e.url.None? <==> urlOk && Trim(d.url) != ""
    ensures e.tags.Some? <==> |d.tags| == 0
    ensures e.title.Some? ==> e.title == Some(TitleRequired)
    ensures e.tags.Some? ==> e.tags == Some(TagsRequired)
  {
    Errors(
      if Trim(d.title) == "" then Some(TitleRequired) else None,
      if !urlOk then Some(InvalidUrl) else if Trim(d.url) == "" then Some(UrlRequired) else None,
      if |d.tags| == 0 then Some(TagsRequired) else None)
  }

  /** A blank title is reported, and blocks the submission. */
  lemma BlankTitleBlocksSubmit(d: Draft, urlOk: bool)
    requires Trim(d.title) == ""
    ensures ValidationErrors(d, urlOk).title == Some(TitleRequired)
    ensures HasErrors(ValidationErrors(d, urlOk))
  {
  }

  /**
    A blank URL is never reported as missing: the URL parser rejects it, so
    the message left is the format error.
   */
  lemma BlankUrlReportsFormat(d: Draft, urlOk: bool)
    requires Trim(d.url) == "" && !urlOk
    ensures ValidationErrors(d, urlOk).url == Some(InvalidUrl)
  {
  }

  /** An empty tag list is reported, and blocks the submission. */
  lemma NoTagsBlocksSubmit(d: Draft, urlOk: bool)
    requires |d.tags| == 0
    ensures ValidationErrors(d, urlOk).tags == Some(TagsRequired)
    ensures HasErrors(ValidationErrors(d, urlOk))
  {
  }

  /** The form is submitted exactly when the title and URL are not blank, the URL parses and a tag is given. */
  lemma SubmitAcceptedIff(d: Draft, urlOk: bool)
    ensures !HasErrors(ValidationErrors(d, urlOk)) <==>
              Trim(d.title) != "" && Trim(d.url) != "" && urlOk && |d.tags| > 0
  {
  }

  /**
    What `handleSubmit` hands to `addResource` (src/components/AddResourceModal.jsx:47-51):
    the draft with its tags de-duplicated, and the placeholder image when it has none.
   */
  function Payload(d: Draft): (p: Draft)
    ensures p.title == d.title && p.description == d.description && p.url == d.url
    ensures NoDuplicates(p.tags) && forall t :: t in p.tags <==> t in d.tags
    ensures p.image != "" && (d.image != "" ==> p.image == d.image)
    ensures d.image == "" ==> p.image == PlaceholderImage
  {
    d.(tags := Dedupe(d.tags), image := if d.image == "" then PlaceholderImage else d.image)
  }

  /** The payload's tags keep the first occurrences of the draft's tags, in order. */
  lemma PayloadTagsInOrder(d: Draft, more: seq<string>)
    ensures |Payload(d).tags| <= |Payload(d.(tags := d.tags + more)).tags|
    ensures Payload(d.(tags := d.tags + more)).tags[..|Payload(d).tags|] == Payload(d).tags
  {
    DedupePrefix(d.tags, more);
  }

  /** On tags that hold no duplicate, as the chip rules keep them, the de-duplication changes nothing. */
  lemma PayloadKeepsDistinctTags(d: Draft)
    requires NoDuplicates(d.tags)
    ensures Payload(d).tags == d.tags
  {
    DedupeOfDistinct(d.tags);
  }

  /** `handleSubmit` stops at the errors: some field of the draft fails its check. */
  predicate Rejects(d: Draft, urlOk: bool) {
    HasErrors(ValidationErrors(d, urlOk))
  }

  /** The keys of the tag input that commit the typed tag. */
  predicate IsTagEntryKey(key: string) {
    key == "Enter" || key == ","
  }

  /** The state of an open add-resource form. */
  class AddResourceForm {
    var resource: Draft
    var newTag: string
    var errors: Errors
    var open: bool

    /** The chips never hold the same tag twice. */
    ghost predicate Valid()
      reads this
    {
      NoDuplicates(resource.tags)
    }

    /** A freshly opened form: every field empty and no error shown. */
    constructor ()
      ensures Valid() && open
      ensures resource == Draft("", "", "", "", []) && newTag == "" && errors == NoErrors
    {
      resource := Draft("", "", "", "", []);
      newTag := "";
      errors := NoErrors;
      open := true;
    }

    /** The title input's `onChange`. */
    method EditTitle(value: string)
      requires Valid()
      modifies this`resource
      ensures Valid() && resource == old(resource).(title := value)
    {
      resource := resource.(title := value);
    }

    /** The URL input's `onChange`. */
    method EditUrl(value: string)
      requires Valid()
      modifies this`resource
      ensures Valid() && resource == old(resource).(url := value)
    {
      resource := resource.(url := value);
    }

    /** The description input's `onChange`. */
    method EditDescription(value: string)
      requires Valid()
      modifies this`resource
      ensures Valid() && resource == old(resource).(description := value)
    {
      resource := resource.(description := value);
    }

    /** The tag input's `onChange`. */
    method EditNewTag(value: string)
      modifies this`newTag
      ensures newTag == value
    {
      newTag := value;
    }

    /**
      The tag input's `onKeyDown`: on Enter or comma, a trimmed tag that is
      not blank and not yet a chip becomes the last chip, is created as a
      global tag when it is not one, and the input is cleared. Anything
      else leaves the state as it was.
     */
    method HandleTagKeyDown(app: AppState, key: string)
      requires Valid()
      modifies this`resource, this`newTag, app`tags, app`localTags
      ensures Valid()
      ensures var t := Trim(old(newTag));
        if IsTagEntryKey(key) && t != "" && t !in old(resource.tags) then
          && resource == old(resource).(tags := old(resource.tags) + [t]) && newTag == ""
          && (t in old(app.tags) ==> app.tags == old(app.tags) && app.localTags == old(app.localTags))
          && (t !in old(app.tags) ==> app.tags == old(app.tags) + [t] && app.localTags == app.tags)
        else
          resource == old(resource) && newTag == old(newTag)
          && app.tags == old(app.tags) && app.localTags == old(app.localTags)
    {
      if IsTagEntryKey(key) {
        var tag := Trim(newTag);
        if tag != "" && tag !in resource.tags {
          if tag !in app.tags {
            app.AddTag(tag);
          }
          resource := resource.(tags := resource.tags + [tag]);
          newTag := "";
        }
      }
    }

    /** A chip's remove button: every occurrence of `tag` leaves the chips. */
    method RemoveChip(tag: string)
      requires Valid()
      modifies this`resource
      ensures Valid()
      ensures resource == old(resource).(tags := Remove(old(resource.tags), tag))
    {
      RemoveNoDuplicates(resource.tags, tag);
      resource := resource.(tags := Remove(resource.tags, tag));
    }

    /**
      `handleSubmit`: collect the field errors; when there is one, show them
      and stop; otherwise hand the payload to `addResource` under `id` (what
      `Date.now()` gave) and close the form.
     */
    method HandleSubmit(app: AppState, isValidUrl: string -> bool, id: string)
      requires Valid()
      modifies this`errors, this`open, app`tags, app`localTags, app`resources, app`localResources
      ensures Rejects(old(resource), old(isValidUrl(resource.url))) ==>
                errors == ValidationErrors(old(resource), old(isValidUrl(resource.url))) && open == old(open)
      ensures Rejects(old(resource), old(isValidUrl(resource.url))) ==>
                && app.tags == old(app.tags) && app.localTags == old(app.localTags)
                && app.resources == old(app.resources) && app.localResources == old(app.localResources)
      ensures !Rejects(old(resource), old(isValidUrl(resource.url))) ==>
                && errors == old(errors) && !open
                && app.resources == old(app.resources) + [ResourceWithId(Payload(old(resource)), id, old(app.tags))]
                && app.localResources == old(app.localResources) + [ResourceWithId(Payload(old(resource)), id, old(app.tags))]
      ensures !Rejects(old(resource), old(isValidUrl(resource.url))) ==>
                Payload(old(resource)).tags == old(resource.tags)
                && app.resources[|app.resources| - 1].tags == Filter(old(resource.tags), t => t in old(app.tags))
      ensures !Rejects(old(resource), old(isValidUrl(resource.url))) &&
              LastUnseen(Payload(old(resource)).tags, old(app.tags)).None? ==>
                app.tags == old(app.tags) && app.localTags == old(app.localTags)
      ensures !Rejects(old(resource), old(isValidUrl(resource.url))) &&
              LastUnseen(Payload(old(resource)).tags, old(app.tags)).Some? ==>
                && app.tags == old(app.tags) + [LastUnseen(Payload(old(resource)).tags, old(app.tags)).value]
                && app.localTags == app.tags
    {
      var urlOk := isValidUrl(resource.url);
      var newErrors := NoErrors;
      if Trim(resource.title) == "" {
        newErrors := newErrors.(title := Some(TitleRequired));
      }
      if Trim(resource.url) == "" {
        newErrors := newErrors.(url := Some(UrlRequired));
      }
      if !urlOk {
        newErrors := newErrors.(url := Some(InvalidUrl));
      }
      if |resource.tags| == 0 {
        newErrors := newErrors.(tags := Some(TagsRequired));
      }
      assert newErrors == ValidationErrors(resource, urlOk);
      if HasErrors(newErrors) {
        errors := newErrors;
        return;
      }
      var payload := Payload(resource);
      PayloadKeepsDistinctTags(resource);
      app.AddResource(payload, id);
      open := false;
    }
  }
}
