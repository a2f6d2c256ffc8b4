/**
 * The journal tag picker: a list of selected tags, a free-text input for a
 * new tag and a row of suggested tags. The handlers compute the next list
 * from the current one and hand it to `onChange`; an `Option` result models
 * whether `onChange` is called at all. The text of the input is the only
 * state the picker keeps itself.
 */
module TagSelector {
  import opened Common
  import opened Seqs
  import opened Text

  /**
   * `handleAddTag`: the trimmed input is appended when it is not blank and not
   * already selected; otherwise `onChange` is not called.
   */
  function AddTag(selected: seq<string>, newTag: string): (r: Option<seq<string>>)
    ensures r.Some? <==> !AllSpace(newTag, 0, |newTag|) && Trim(newTag) !in selected
    ensures r.Some? ==> |r.value| == |selected| + 1 && r.value[..|selected|] == selected
    ensures r.Some? ==> r.value[|selected|] != [] && r.value[|selected|] !in selected
  {
    BlankSpec(newTag);
    var tag := Trim(newTag);
    if tag != [] && tag !in selected then Some(selected + [tag]) else None
  }

  /** `handleRemoveTag`: every occurrence of the tag is dropped. */
  function RemoveTag(selected: seq<string>, tag: string): (r: seq<string>)
    ensures tag !in r
    ensures IsSubsequence(r, selected)
  {
    RemoveSubsequence(selected, tag);
    Remove(selected, tag)
  }

  /** `handleAddSuggestedTag`: a suggestion is appended only when it is not selected yet. */
  function AddSuggested(selected: seq<string>, tag: string): (r: Option<seq<string>>)
    ensures r.Some? <==> tag !in selected
    ensures r.Some? ==> r.value == selected + [tag]
  {
    if tag !in selected then Some(selected + [tag]) else None
  }

  /** The tag that is added carries no surrounding white space. */
  lemma AddedTagIsTrimmed(selected: seq<string>, newTag: string)
    requires AddTag(selected, newTag).Some?
    ensures var tag := AddTag(selected, newTag).value[|selected|];
      tag == Trim(newTag) && !IsSpace(tag[0]) && !IsSpace(tag[|tag| - 1])
  {
    TrimSpec(newTag);
  }

  /** Removing keeps every other tag, in the order it had. */
  lemma RemoveTagKeepsOthers(selected: seq<string>, tag: string, other: string)
    requires other != tag
    ensures other in RemoveTag(selected, tag) <==> other in selected
  {
    if other in selected {
      var i :| 0 <= i < |selected| && selected[i] == other;
    }
  }

  /** Both ways of adding keep a duplicate-free list duplicate-free, and so does removing. */
  lemma AddKeepsNoDup(selected: seq<string>, newTag: string, suggestion: string)
    requires NoDup(selected)
    ensures AddTag(selected, newTag).Some? ==> NoDup(AddTag(selected, newTag).value)
    ensures AddSuggested(selected, suggestion).Some? ==> NoDup(AddSuggested(selected, suggestion).value)
    ensures forall tag :: NoDup(RemoveTag(selected, tag))
  {
    if AddTag(selected, newTag).Some? {
      NoDupSnoc(selected, Trim(newTag));
    }
    if AddSuggested(selected, suggestion).Some? {
      NoDupSnoc(selected, suggestion);
    }
    forall tag ensures NoDup(RemoveTag(selected, tag)) {
      RemoveSubsequence(selected, tag);
    }
  }

  /** Adding a new tag and then removing that tag gives back the original list. */
  lemma AddThenRemove(selected: seq<string>, newTag: string)
    requires AddTag(selected, newTag).Some?
    ensures RemoveTag(AddTag(selected, newTag).value, Trim(newTag)) == selected
  {
    RemoveAppended(selected, Trim(newTag));
  }

  /** The picker's own state: the text typed into the new-tag input. */
  class TagInput {
    var newTag: string

    constructor()
      ensures newTag == ""
    {
      newTag := "";
    }

    /** `onChangeText`. */
    method SetNewTag(text: string)
      modifies this
      ensures newTag == text
    {
      newTag := text;
    }

    /**
     * Pressing add: reports the new list when the tag is accepted and then
     * clears the input; when it is rejected nothing changes, not even the input.
     */
    method HandleAddTag(selected: seq<string>) returns (change: Option<seq<string>>)
      modifies this
      ensures change == AddTag(selected, old(newTag))
      ensures newTag == if change.Some? then "" else old(newTag)
    {
      var tag := Trim(newTag);
      if tag != [] && tag !in selected {
        change := Some(selected + [tag]);
        newTag := "";
      } else {
        change := None;
      }
    }
  }
}
