/**
 * The tag input widget: a text box whose trimmed value is added as a tag on Enter, and a
 * list of tags each of which can be removed.
 */
module TagInput {
  import opened Text
  import Lists

  /** Whether `handleAddTag` accepts the input: its trimmed value is non-empty and not yet a tag. */
  predicate Accepts(tags: seq<string>, input: string)
  {
    Trim(input) != "" && Trim(input) !in tags
  }

  /** The tag list after `handleAddTag`: the trimmed input appended when accepted. */
  function AddTag(tags: seq<string>, input: string): (r: seq<string>)
    ensures Accepts(tags, input) ==> r == tags + [Trim(input)]
    ensures !Accepts(tags, input) ==> r == tags
  {
    if Accepts(tags, input) then tags + [Trim(input)] else tags
  }

  /** The tag list after `handleRemoveTag(tag)`: every tag equal to `tag` dropped. */
  function RemoveTag(tags: seq<string>, tag: string): (r: seq<string>)
  {
    Lists.Filter(tags, (t: string) => t != tag)
  }

  /** No tag occurs twice. */
  predicate NoDuplicates(tags: seq<string>)
  {
    forall i, j :: 0 <= i < j < |tags| ==> tags[i] != tags[j]
  }

  /** Adding never introduces a duplicate, and a tag is never blank or padded by whitespace. */
  lemma AddKeepsDistinct(tags: seq<string>, input: string)
    requires NoDuplicates(tags)
    ensures NoDuplicates(AddTag(tags, input))
    ensures Accepts(tags, input) ==> Trim(AddTag(tags, input)[|tags|]) == AddTag(tags, input)[|tags|]
  {
    if Accepts(tags, input) {
      TrimIdempotent(input);
    }
  }

  /** Trimming twice is trimming once. */
  lemma TrimIdempotent(s: string)
    ensures Trim(Trim(s)) == Trim(s)
  {
    var l := TrimLeft(Js, s);
    var t := TrimRight(Js, l);
    assert TrimLeft(Js, t) == t by {
      if t != [] {
        assert t[0] == l[0];
      }
    }
  }

  /** An added tag is found in the list afterwards, and the earlier tags are kept in place. */
  lemma AddAppends(tags: seq<string>, input: string)
    ensures tags <= AddTag(tags, input)
    ensures Trim(input) != "" ==> Trim(input) in AddTag(tags, input)
  {
  }

  /**
   * Removing drops exactly the tags equal to `tag`: the result lacks it, every other tag
   * survives, and nothing new appears.
   */
  lemma {:induction false} RemoveDropsOnlyThatTag(tags: seq<string>, tag: string)
    ensures tag !in RemoveTag(tags, tag)
    ensures forall t :: t in RemoveTag(tags, tag) <==> t in tags && t != tag
    ensures |RemoveTag(tags, tag)| <= |tags|
  {
  }

  /** Removing keeps the order of the remaining tags: it distributes over concatenation. */
  lemma RemoveKeepsOrder(a: seq<string>, b: seq<string>, tag: string)
    ensures RemoveTag(a + b, tag) == RemoveTag(a, tag) + RemoveTag(b, tag)
  {
    Lists.FilterConcat(a, b, (t: string) => t != tag);
  }

  /** Removing a tag that is not in the list changes nothing. */
  lemma RemoveAbsentIsNoop(tags: seq<string>, tag: string)
    requires tag !in tags
    ensures RemoveTag(tags, tag) == tags
  {
    Lists.FilterAll(tags, (t: string) => t != tag);
  }

  /** After adding an accepted tag, removing it restores the list. */
  lemma RemoveUndoesAdd(tags: seq<string>, input: string)
    requires Accepts(tags, input)
    ensures RemoveTag(AddTag(tags, input), Trim(input)) == tags
  {
    var tag := Trim(input);
    RemoveKeepsOrder(tags, [tag], tag);
    RemoveAbsentIsNoop(tags, tag);
    assert RemoveTag([tag], tag) == [] by {
      assert [tag][1..] == [];
    }
  }

  /** The widget: the tags it shows (held by its parent) and the text typed so far. */
  class TagBox {
    var tags: seq<string>
    var input: string

    constructor(initial: seq<string>)
      ensures tags == initial && input == ""
    {
      tags := initial;
      input := "";
    }

    /** Typing replaces the input text. */
    method Type(text: string)
      modifies this
      ensures input == text && tags == old(tags)
    {
      input := text;
    }

    /** `handleAddTag`: an accepted tag is appended and the input cleared; otherwise nothing changes. */
    method HandleAddTag()
      modifies this
      ensures tags == AddTag(old(tags), old(input))
      ensures input == if Accepts(old(tags), old(input)) then "" else old(input)
    {
      var trimmed := Trim(input);
      if trimmed != "" && trimmed !in tags {
        tags := tags + [trimmed];
        input := "";
      }
    }

    /** `handleKeyDown`: Enter behaves exactly as `handleAddTag`, any other key changes nothing. */
    method HandleKeyDown(key: string)
      modifies this
      ensures key == "Enter" ==> tags == AddTag(old(tags), old(input))
                                 && input == if Accepts(old(tags), old(input)) then "" else old(input)
      ensures key != "Enter" ==> tags == old(tags) && input == old(input)
    {
      if key == "Enter" {
        HandleAddTag();
      }
    }

    /** `handleRemoveTag`: drops every tag equal to `tag`; the input is untouched. */
    method HandleRemoveTag(tag: string)
      modifies this
      ensures tags == RemoveTag(old(tags), tag) && input == old(input)
    {
      tags := RemoveTag(tags, tag);
    }
  }
}
