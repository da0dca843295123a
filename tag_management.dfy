/**
  The tag manager of src/components/TagManagement.jsx: checking a typed tag
  name before it reaches `addTag`, and deleting a tag after confirmation.
 */
module TagManagement {
  import opened Seqs
  import opened Text
  import opened AppContext

  const EmptyName := "Tag name cannot be empty"
  const ShortName := "Tag name must be at least 2 characters long"

  /** The verdict on a typed tag name: an error message, or the name `addTag` receives. */
  datatype TagEntry = Rejected(message: string) | Accepted(name: string)

  /**
    The checks of `handleAddTag` in their order: blank input first, then a
    trimmed name shorter than two UTF-16 code units.
   */
  function CheckTagName(input: string): (r: TagEntry)
    ensures r == Rejected(EmptyName) <==> Trim(input) == ""
    ensures r == Rejected(ShortName) <==> Trim(input) != "" && Utf16Length(Trim(input)) < 2
    ensures r.Accepted? <==> Utf16Length(Trim(input)) >= 2
    ensures r.Accepted? ==> r.name == Trim(input)
  {
    var trimmed := Trim(input);
    if trimmed == "" then Rejected(EmptyName)
    else if Utf16Length(trimmed) < 2 then Rejected(ShortName)
    else Accepted(trimmed)
  }

  /** A trimmed name of one code point below U+10000 is too short; the empty check is reported before it. */
  lemma OneCharacterIsTooShort(input: string)
    requires |Trim(input)| == 1 && Trim(input)[0] as int <= 0xFFFF
    ensures CheckTagName(input) == Rejected(ShortName)
  {
    assert Trim(input)[1..] == "";
  }

  /** The state of the tag manager: the typed name and the error line. */
  class TagManager {
    var newTag: string
    var error: string

    /** The manager as it opens: nothing typed, no error. */
    constructor ()
      ensures newTag == "" && error == ""
    {
      newTag := "";
      error := "";
    }

    /** The input's `onChange`: store what was typed and clear the error. */
    method EditNewTag(value: string)
      modifies this
      ensures newTag == value && error == ""
    {
      newTag := value;
      error := "";
    }

    /**
      `handleAddTag`: a rejected name only sets the error; an accepted one
      goes to `addTag`, after which the input and the error are cleared.
     */
    method HandleAddTag(app: AppState)
      modifies this, app`tags, app`localTags
      ensures CheckTagName(old(newTag)).Rejected? ==>
                && error == CheckTagName(old(newTag)).message && newTag == old(newTag)
                && app.tags == old(app.tags) && app.localTags == old(app.localTags)
      ensures CheckTagName(old(newTag)).Accepted? ==>
                var t := CheckTagName(old(newTag)).name;
                && newTag == "" && error == ""
                && (t in old(app.tags) ==> app.tags == old(app.tags) && app.localTags == old(app.localTags))
                && (t !in old(app.tags) ==> app.tags == old(app.tags) + [t] && app.localTags == app.tags)
    {
      var trimmed := Trim(newTag);
      if trimmed == "" {
        error := EmptyName;
        return;
      }
      if Utf16Length(trimmed) < 2 {
        error := ShortName;
        return;
      }
      app.AddTag(trimmed);
      newTag := "";
      error := "";
    }

    /** `handleDeleteTag`: `confirmed` is the answer to `window.confirm`; only a yes deletes the tag. */
    method HandleDeleteTag(app: AppState, tag: string, confirmed: bool)
      modifies app`tags, app`localTags, app`resources, app`localResources
      ensures !confirmed ==> app.tags == old(app.tags) && app.localTags == old(app.localTags)
      ensures !confirmed ==> app.resources == old(app.resources) && app.localResources == old(app.localResources)
      ensures confirmed ==> app.tags == Remove(old(app.tags), tag) && app.localTags == app.tags
      ensures confirmed ==> app.resources == StripTag(old(app.resources), tag) && app.localResources == app.resources
    {
      if confirmed {
        app.DeleteTag(tag);
      }
    }
  }
}
