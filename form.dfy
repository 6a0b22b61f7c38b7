/**
  Model of the tag editing in components/upload/MetadataForm.tsx.

  The form is controlled: the metadata is its `value` prop and every change is handed
  to the parent through `onChange`. Its only own state is the text of the tag input.
  A handler therefore returns the record it hands to `onChange`, or `None` when it
  does not call it, and may change the tag input.
 */
module Form {
  import opened Wrappers
  import opened Seqs
  import opened TextOps
  import opened Metadata

  /** The largest number of tags the form accepts. */
  const MAX_TAGS: nat := 15

  /** How many suggestions are offered at once. */
  const MAX_SUGGESTIONS: nat := 5

  const TAG_SUGGESTIONS: seq<string> :=
    ["viral", "trending", "tutorial", "review", "gaming", "music", "vlog", "funny", "tech", "education"]

  /** `value.tags || []`. */
  function CurrentTags(value: VideoMetadata): seq<string> {
    value.tags.GetOr([])
  }

  /** Text that `trim` leaves as it is, and not empty. */
  ghost predicate IsTagText(t: string) {
    t != [] && !IsWhitespace(t[0]) && !IsWhitespace(t[|t| - 1])
  }

  /** What the form's own handlers keep true of a tag list. */
  ghost predicate WellFormedTags(tags: seq<string>) {
    |tags| <= MAX_TAGS && NoDuplicates(tags) && forall i :: 0 <= i < |tags| ==> IsTagText(tags[i])
  }

  /** `tags.filter((t) => t !== tag)`. */
  function Without(tags: seq<string>, tag: string): (r: seq<string>)
    ensures tag !in r
    ensures forall t :: t != tag ==> multiset(r)[t] == multiset(tags)[t]
    ensures IsSubsequence(r, tags)
    ensures |r| == |tags| - multiset(tags)[tag]
    decreases |tags|
  {
    if tags == [] then []
    else
      var rest := Without(tags[1..], tag);
      assert tags == [tags[0]] + tags[1..];
      if tags[0] == tag then
        SubsequenceOfTail(rest, tags);
        rest
      else
        var r := [tags[0]] + rest;
        assert r[0] == tags[0] && r[1..] == rest;
        r
  }

  /** `TAG_SUGGESTIONS.filter((s) => !tags?.includes(s))` over any candidate list. */
  function NotTaken(cands: seq<string>, tags: Option<seq<string>>): (r: seq<string>)
    ensures IsSubsequence(r, cands)
    ensures forall s :: s in r <==> s in cands && !(tags.Some? && s in tags.value)
    decreases |cands|
  {
    if cands == [] then []
    else
      var rest := NotTaken(cands[1..], tags);
      assert forall s :: s in cands <==> s == cands[0] || s in cands[1..];
      if tags.Some? && cands[0] in tags.value then
        SubsequenceOfTail(rest, cands);
        rest
      else
        var r := [cands[0]] + rest;
        assert r[0] == cands[0] && r[1..] == rest;
        r
  }

  /**
    The filter keeps every occurrence of an unused candidate and none of a used one, so
    with `IsSubsequence` its result is determined even for repeated candidates.
   */
  lemma {:induction false} NotTakenCounts(cands: seq<string>, tags: Option<seq<string>>, s: string)
    ensures multiset(NotTaken(cands, tags))[s]
      == if tags.Some? && s in tags.value then 0 else multiset(cands)[s]
    decreases |cands|
  {
    if cands != [] {
      NotTakenCounts(cands[1..], tags, s);
      assert cands == [cands[0]] + cands[1..];
      assert multiset(cands) == multiset{cands[0]} + multiset(cands[1..]);
    }
  }

  /**
    The suggestion buttons: the first five suggestions not yet used as tags, in their
    listed order, and all of them when fewer than five are left.
   */
  function Suggestions(tags: Option<seq<string>>): (r: seq<string>)
    ensures |r| <= MAX_SUGGESTIONS
    ensures r <= NotTaken(TAG_SUGGESTIONS, tags)
    ensures IsSubsequence(r, TAG_SUGGESTIONS)
    ensures forall s :: s in r ==> s in TAG_SUGGESTIONS && !(tags.Some? && s in tags.value)
    ensures |r| < MAX_SUGGESTIONS ==>
      forall s :: s in TAG_SUGGESTIONS && !(tags.Some? && s in tags.value) ==> s in r
  {
    var all := NotTaken(TAG_SUGGESTIONS, tags);
    if |all| <= MAX_SUGGESTIONS then all
    else
      PrefixOfSubsequence(all, TAG_SUGGESTIONS, MAX_SUGGESTIONS);
      forall s | s in all[..MAX_SUGGESTIONS]
        ensures s in all
      {
        SubsequenceReflexive(all);
        PrefixOfSubsequence(all, all, MAX_SUGGESTIONS);
        SubsequenceElements(all[..MAX_SUGGESTIONS], all, s);
      }
      all[..MAX_SUGGESTIONS]
  }

  /** What a handler does: the new tag input, and the record handed to `onChange`, if any. */
  datatype Reaction = Reaction(tagInput: string, emitted: Option<VideoMetadata>)

  /** `addTag(tag)` while the tag input holds `tagInput`. */
  function AddTagReaction(value: VideoMetadata, tagInput: string, tag: string): (r: Reaction)
    ensures Trim(tag) == [] ==> r == Reaction(tagInput, None)
    ensures Trim(tag) != [] ==> r.tagInput == ""
    ensures r.emitted.Some? <==>
      Trim(tag) != [] && Trim(tag) !in CurrentTags(value) && |CurrentTags(value)| < MAX_TAGS
    ensures r.emitted.Some? ==> r.emitted.value == WithField(value, Tags(CurrentTags(value) + [Trim(tag)]))
  {
    var trimmed := Trim(tag);
    if trimmed == [] then Reaction(tagInput, None)
    else
      var current := CurrentTags(value);
      if trimmed !in current && |current| < MAX_TAGS then
        Reaction("", Some(WithField(value, Tags(current + [trimmed]))))
      else
        Reaction("", None)
  }

  /** `removeTag(tag)`: always hands a record to `onChange`, with a tag list even when there was none. */
  function RemoveTag(value: VideoMetadata, tag: string): VideoMetadata {
    WithField(value, Tags(Without(CurrentTags(value), tag)))
  }

  datatype Key = Enter | Comma | Backspace | OtherKey

  /** `handleTagKeyDown`. */
  function TagKeyDown(value: VideoMetadata, tagInput: string, key: Key): Reaction {
    match key
    case Enter => AddTagReaction(value, tagInput, tagInput)
    case Comma => AddTagReaction(value, tagInput, tagInput)
    case Backspace =>
      if tagInput == "" && value.tags.Some? && |value.tags.value| > 0 then
        Reaction(tagInput, Some(RemoveTag(value, value.tags.value[|value.tags.value| - 1])))
      else
        Reaction(tagInput, None)
    case OtherKey => Reaction(tagInput, None)
  }

  // ---------------------------------------------------------------- properties

  /** Appending a new trimmed tag to a list with room keeps it well formed. */
  lemma AppendKeepsWellFormed(tags: seq<string>, t: string)
    requires WellFormedTags(tags) && IsTagText(t) && t !in tags && |tags| < MAX_TAGS
    ensures WellFormedTags(tags + [t])
  {
    var r := tags + [t];
    forall i, j | 0 <= i < j < |r|
      ensures r[i] != r[j]
    {
      if j < |tags| {
        assert r[i] == tags[i] && r[j] == tags[j];
      } else {
        assert r[i] == tags[i] && r[j] == t;
      }
    }
    forall i | 0 <= i < |r|
      ensures IsTagText(r[i])
    {
      if i < |tags| {
        assert r[i] == tags[i];
      }
    }
  }

  /** `handleChange("tags", tags)` stores exactly `tags`. */
  lemma TagsWritten(value: VideoMetadata, tags: seq<string>)
    ensures WithField(value, Tags(tags)).tags == Some(tags)
  {
    assert Get(WithField(value, Tags(tags)), TagsField) == Some(Tags(tags));
  }

  /** The record `addTag` emits for the accepted tag `t`. */
  lemma AppendedRecord(value: VideoMetadata, t: string, m: VideoMetadata)
    requires WellFormedTags(CurrentTags(value)) && IsTagText(t)
    requires t !in CurrentTags(value) && |CurrentTags(value)| < MAX_TAGS
    requires m == WithField(value, Tags(CurrentTags(value) + [t]))
    ensures m.tags == Some(CurrentTags(value) + [t]) && WellFormedTags(m.tags.value)
    ensures forall f :: f != TagsField ==> Get(m, f) == Get(value, f)
  {
    TagsWritten(value, CurrentTags(value) + [t]);
    AppendKeepsWellFormed(CurrentTags(value), t);
  }

  /** An added tag keeps the list well formed, and only the tag list changes. */
  lemma AddTagKeepsWellFormed(value: VideoMetadata, tagInput: string, tag: string)
    requires WellFormedTags(CurrentTags(value))
    ensures var r := AddTagReaction(value, tagInput, tag);
      r.emitted.Some? ==>
        && r.emitted.value.tags.Some?
        && WellFormedTags(r.emitted.value.tags.value)
        && |r.emitted.value.tags.value| == |CurrentTags(value)| + 1
        && forall f :: f != TagsField ==> Get(r.emitted.value, f) == Get(value, f)
  {
    var r := AddTagReaction(value, tagInput, tag);
    if r.emitted.Some? {
      var t := Trim(tag);
      assert IsTagText(t);
      AppendedRecord(value, t, r.emitted.value);
    }
  }

  /** Adding the same tag again does not change the list a second time. */
  lemma AddTagIdempotent(value: VideoMetadata, tagInput: string, tag: string)
    ensures var once := AddTagReaction(value, tagInput, tag);
      var after := if once.emitted.Some? then once.emitted.value else value;
      AddTagReaction(after, once.tagInput, tag).emitted == None
  {
    var once := AddTagReaction(value, tagInput, tag);
    if once.emitted.Some? {
      assert Get(once.emitted.value, TagsField) == Some(Tags(CurrentTags(value) + [Trim(tag)]));
      assert CurrentTags(once.emitted.value) == CurrentTags(value) + [Trim(tag)];
      assert Trim(tag) in CurrentTags(once.emitted.value);
    }
  }

  /** Removing a tag keeps the list well formed: only that tag goes, the rest keep their order. */
  lemma RemoveTagKeepsWellFormed(value: VideoMetadata, tag: string)
    requires WellFormedTags(CurrentTags(value))
    ensures var r := RemoveTag(value, tag).tags;
      && r.Some? && WellFormedTags(r.value)
      && tag !in r.value
      && forall t :: t != tag ==> (t in r.value <==> t in CurrentTags(value))
  {
    var tags := CurrentTags(value);
    var r := Without(tags, tag);
    assert Get(RemoveTag(value, tag), TagsField) == Some(Tags(r));
    SubsequenceNoDuplicates(r, tags);
    SubsequenceLength(r, tags);
    forall i | 0 <= i < |r|
      ensures IsTagText(r[i])
    {
      SubsequenceElements(r, tags, r[i]);
    }
    forall t | t != tag
      ensures t in r <==> t in tags
    {
      assert multiset(r)[t] == multiset(tags)[t];
    }
  }

  lemma {:induction false} WithoutAbsent(tags: seq<string>, tag: string)
    requires tag !in tags
    ensures Without(tags, tag) == tags
    decreases |tags|
  {
    if tags != [] {
      WithoutAbsent(tags[1..], tag);
    }
  }

  lemma {:induction false} WithoutAppended(tags: seq<string>, tag: string)
    requires tag !in tags
    ensures Without(tags + [tag], tag) == tags
    decreases |tags|
  {
    if tags == [] {
      assert Without([tag], tag) == Without([tag][1..], tag);
    } else {
      assert (tags + [tag])[0] == tags[0] && (tags + [tag])[1..] == tags[1..] + [tag];
      WithoutAppended(tags[1..], tag);
    }
  }

  /** Removing a tag that was just added gives back the tag list from before. */
  lemma RemoveUndoesAdd(value: VideoMetadata, tagInput: string, tag: string)
    requires AddTagReaction(value, tagInput, tag).emitted.Some?
    ensures RemoveTag(AddTagReaction(value, tagInput, tag).emitted.value, Trim(tag)).tags == Some(CurrentTags(value))
  {
    var added := AddTagReaction(value, tagInput, tag).emitted.value;
    assert Get(added, TagsField) == Some(Tags(CurrentTags(value) + [Trim(tag)]));
    WithoutAppended(CurrentTags(value), Trim(tag));
  }

  /** On a list without repetitions, removing the last tag leaves the tags before it. */
  lemma WithoutLast(tags: seq<string>)
    requires |tags| > 0 && NoDuplicates(tags)
    ensures Without(tags, tags[|tags| - 1]) == tags[..|tags| - 1]
  {
    var n := |tags|;
    var pre, last := tags[..n - 1], tags[n - 1];
    LastNotEarlier(tags);
    WithoutAppended(pre, last);
    assert pre + [last] == tags;
  }

  /** `removeTag` stores the remaining tags under `tags`. */
  lemma RemoveTagSetsTags(value: VideoMetadata, tag: string)
    ensures RemoveTag(value, tag).tags == Some(Without(CurrentTags(value), tag))
  {
    TagsWritten(value, Without(CurrentTags(value), tag));
  }

  /** On a list without repetitions, Backspace on an empty input drops exactly the last tag. */
  lemma BackspaceDropsLastTag(value: VideoMetadata)
    requires value.tags.Some? && |value.tags.value| > 0 && NoDuplicates(value.tags.value)
    ensures var r := TagKeyDown(value, "", Backspace);
      r.tagInput == "" && r.emitted.Some?
      && r.emitted.value.tags == Some(value.tags.value[..|value.tags.value| - 1])
  {
    var tags := value.tags.value;
    WithoutLast(tags);
    RemoveTagSetsTags(value, tags[|tags| - 1]);
  }

  /** A non-empty tag input is never touched by Backspace, and other keys do nothing. */
  lemma OnlyEnterAndCommaAdd(value: VideoMetadata, tagInput: string, key: Key)
    ensures (key == Enter || key == Comma) ==> TagKeyDown(value, tagInput, key) == AddTagReaction(value, tagInput, tagInput)
    ensures key == Backspace && tagInput != "" ==> TagKeyDown(value, tagInput, key) == Reaction(tagInput, None)
    ensures key == OtherKey ==> TagKeyDown(value, tagInput, key) == Reaction(tagInput, None)
  {
  }

  lemma SuggestionsAreTagText()
    ensures forall s :: s in TAG_SUGGESTIONS ==> Trim(s) == s
  {
    forall s | s in TAG_SUGGESTIONS
      ensures Trim(s) == s
    {
      TrimOfTrimmed(s);
    }
  }

  /** Clicking an offered suggestion adds it as it is, unless the list is full. */
  lemma SuggestionClickAdds(value: VideoMetadata, tagInput: string, s: string)
    requires s in Suggestions(value.tags)
    ensures |CurrentTags(value)| < MAX_TAGS ==>
      AddTagReaction(value, tagInput, s) == Reaction("", Some(WithField(value, Tags(CurrentTags(value) + [s]))))
    ensures |CurrentTags(value)| >= MAX_TAGS ==> AddTagReaction(value, tagInput, s) == Reaction("", None)
  {
    SuggestionsAreTagText();
  }

  // ---------------------------------------------------------------- the component

  /** The form's own state: the text in the tag input. */
  class MetadataForm {
    var tagInput: string

    constructor ()
      ensures tagInput == ""
    {
      tagInput := "";
    }

    /** The tag input's `onChange`. */
    method TypeTagText(text: string)
      modifies this
      ensures tagInput == text
    {
      tagInput := text;
    }

    method AddTag(value: VideoMetadata, tag: string) returns (emitted: Option<VideoMetadata>)
      modifies this
      ensures Reaction(tagInput, emitted) == AddTagReaction(value, old(tagInput), tag)
    {
      var trimmed := Trim(tag);
      if trimmed == [] {
        return None;
      }
      var current := CurrentTags(value);
      emitted := None;
      if trimmed !in current && |current| < MAX_TAGS {
        emitted := Some(WithField(value, Tags(current + [trimmed])));
      }
      tagInput := "";
    }

    method HandleTagKeyDown(value: VideoMetadata, key: Key) returns (emitted: Option<VideoMetadata>)
      modifies this
      ensures Reaction(tagInput, emitted) == TagKeyDown(value, old(tagInput), key)
    {
      if key == Enter || key == Comma {
        emitted := AddTag(value, tagInput);
      } else if key == Backspace && tagInput == "" && value.tags.Some? && |value.tags.value| > 0 {
        emitted := Some(RemoveTag(value, value.tags.value[|value.tags.value| - 1]));
      } else {
        emitted := None;
      }
    }
  }
}
