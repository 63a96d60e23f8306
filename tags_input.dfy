/**
 * The tag list editor: a text buffer the user types into, and the list of
 * tags it owns through its parent (`value` in, `onChange` out). Adding a tag
 * trims the buffer and ignores it when blank; removing a tag drops every
 * equal entry (that rule is `Rows.Without`).
 */
module TagsInput {
  import opened Wrappers
  import opened JsText
  import opened Rows

  /** Every tag is non-empty and carries no whitespace at either end. */
  predicate WellFormedTags(tags: seq<string>) {
    forall i :: 0 <= i < |tags| ==> tags[i] != "" && IsTrimmed(tags[i])
  }

  /** The tag the buffer would add: its trimmed text, or nothing when it is blank. */
  function PendingTag(input: string): (tag: Option<string>)
    ensures tag.None? <==> IsBlank(input)
    ensures tag.Some? ==> tag.value == Trim(input) && tag.value != "" && IsTrimmed(tag.value)
  {
    TrimEmptyIffBlank(input);
    var trimmed := Trim(input);
    if trimmed == "" then None else Some(trimmed)
  }

  class TagsInput {
    /** The text typed but not yet added. */
    var input: string

    constructor ()
      ensures input == ""
    {
      input := "";
    }

    /** Typing into the field replaces the buffer. */
    method SetInput(text: string)
      modifies this
      ensures input == text
    {
      input := text;
    }

    /**
     * The "Add" button. A blank buffer changes nothing and reports no new
     * list; otherwise the trimmed text is appended, with no de-duplication,
     * and the buffer is emptied. Well-formed lists stay well formed.
     */
    method Add(value: seq<string>) returns (next: Option<seq<string>>)
      modifies this
      ensures IsBlank(old(input)) ==> next.None? && input == old(input)
      ensures !IsBlank(old(input)) ==>
        next == Some(value + [Trim(old(input))]) && |next.value| == |value| + 1 && input == ""
      ensures next.Some? && WellFormedTags(value) ==> WellFormedTags(next.value)
    {
      var typed := input;
      var tag := PendingTag(typed);
      if tag.None? {
        next := None;
      } else {
        if WellFormedTags(value) {
          AppendKeepsWellFormed(value, tag.value);
        }
        next := Some(value + [tag.value]);
        input := "";
      }
    }

    /** A key press in the field: Enter adds exactly as the button does; other keys do nothing here. */
    method KeyDown(key: string, value: seq<string>) returns (next: Option<seq<string>>)
      modifies this
      ensures key != "Enter" ==> next.None? && input == old(input)
      ensures key == "Enter" && IsBlank(old(input)) ==> next.None? && input == old(input)
      ensures key == "Enter" && !IsBlank(old(input)) ==>
        next == Some(value + [Trim(old(input))]) && input == ""
    {
      if key == "Enter" {
        next := Add(value);
      } else {
        next := None;
      }
    }
  }

  /** Appending a non-empty trimmed tag keeps a list well formed. */
  lemma AppendKeepsWellFormed(value: seq<string>, tag: string)
    requires WellFormedTags(value) && tag != "" && IsTrimmed(tag)
    ensures WellFormedTags(value + [tag])
  {
    var r := value + [tag];
    forall i | 0 <= i < |r| ensures r[i] != "" && IsTrimmed(r[i]) {
      if i < |value| { assert r[i] == value[i]; }
    }
  }

  /** The close button on a tag: every copy of it goes and a well-formed list stays well formed. */
  lemma RemoveKeepsWellFormed(value: seq<string>, tag: string)
    requires WellFormedTags(value)
    ensures WellFormedTags(Without(value, tag))
  {
    var r := Without(value, tag);
    forall i | 0 <= i < |r| ensures r[i] != "" && IsTrimmed(r[i]) {
      assert r[i] in value;
    }
  }
}
