/**
 * The note-entry dialog: its form state, the tag list it edits and the save
 * that hands a finished note to the caller and resets the form.
 */
module NoteEntry {
  import opened Seqs
  import opened Text
  import opened ContactTypes

  /** The tag list the dialog keeps: no blank tag and no tag twice. */
  predicate TagsClean(tags: seq<string>)
  {
    (forall i :: 0 <= i < |tags| ==> Trim(tags[i]) != []) &&
    (forall i, j :: 0 <= i < j < |tags| ==> tags[i] != tags[j])
  }

  /**
   * `addTag` as a function of the tag list and the input box: a blank input,
   * or one whose trimmed form is already a tag, changes nothing; otherwise
   * the trimmed input is appended and the box is cleared.
   */
  function AddTagTo(tags: seq<string>, input: string): (r: (seq<string>, string))
    ensures Trim(input) == [] || Trim(input) in tags ==> r == (tags, input)
    ensures Trim(input) != [] && Trim(input) !in tags ==> r == (tags + [Trim(input)], [])
  {
    var t := Trim(input);
    if t != [] && t !in tags then (tags + [t], []) else (tags, input)
  }

  /** `removeTag`: every occurrence goes, the rest keep their order. */
  function RemoveTagFrom(tags: seq<string>, tag: string): (r: seq<string>)
    ensures forall t :: t in r <==> t in tags && t != tag
    ensures |r| <= |tags|
    ensures r == Filter(tags, NotTag(tag))
  {
    var r := Filter(tags, NotTag(tag));
    forall t ensures t in r <==> t in tags && t != tag {
      FilterMembership(tags, NotTag(tag), t);
    }
    r
  }

  /** The filter predicate "the tag is not `tag`". */
  function NotTag(tag: string): string -> bool
  {
    (t: string) => t != tag
  }

  /** Adding a tag keeps the list clean. */
  lemma AddTagKeepsClean(tags: seq<string>, input: string)
    requires TagsClean(tags)
    ensures TagsClean(AddTagTo(tags, input).0)
  {
    var t := Trim(input);
    if t != [] && t !in tags {
      TrimIdempotent(input);
      var r := tags + [t];
      assert AddTagTo(tags, input).0 == r;
      forall i | 0 <= i < |r| ensures Trim(r[i]) != [] {
        if i < |tags| {
          assert r[i] == tags[i];
        }
      }
      forall i, j | 0 <= i < j < |r| ensures r[i] != r[j] {
        assert r[i] == tags[i];
        if j == |tags| {
          assert r[i] in tags;
        } else {
          assert r[j] == tags[j];
        }
      }
    }
  }

  /** Removing a tag keeps the list clean. */
  lemma {:induction false} RemoveTagKeepsClean(tags: seq<string>, tag: string)
    requires TagsClean(tags)
    ensures TagsClean(RemoveTagFrom(tags, tag))
  {
    var r := RemoveTagFrom(tags, tag);
    forall i | 0 <= i < |r| ensures Trim(r[i]) != [] {
      assert r[i] in tags;
    }
    DistinctFilter(tags, NotTag(tag));
  }

  lemma {:induction false} DistinctFilter(s: seq<string>, p: string -> bool)
    requires forall i, j :: 0 <= i < j < |s| ==> s[i] != s[j]
    ensures forall i, j :: 0 <= i < j < |Filter(s, p)| ==> Filter(s, p)[i] != Filter(s, p)[j]
  {
    if s != [] {
      DistinctFilter(s[1..], p);
      var rest := Filter(s[1..], p);
      assert s[0] !in s[1..];
      FilterMembership(s[1..], p, s[0]);
      if p(s[0]) {
        var r := Filter(s, p);
        assert r == [s[0]] + rest;
        forall i, j | 0 <= i < j < |r| ensures r[i] != r[j] {
          if i == 0 {
            assert r[j] == rest[j - 1] && r[j] in rest;
          } else {
            assert r[i] == rest[i - 1] && r[j] == rest[j - 1];
          }
        }
      }
    }
  }

  /** Removing a tag that was just added gives the list back. */
  lemma {:induction false} AddThenRemove(tags: seq<string>, input: string)
    requires Trim(input) != [] && Trim(input) !in tags
    ensures RemoveTagFrom(AddTagTo(tags, input).0, Trim(input)) == tags
  {
    var t := Trim(input);
    FilterAppend(tags, [t], (x: string) => x != t);
    FilterAll(tags, (x: string) => x != t);
  }

  /** The dialog's state. */
  class Form {
    var selectedContact: string
    var content: string
    var noteType: NoteType
    var sentiment: Sentiment
    var tags: seq<string>
    var newTag: string
    var isSaving: bool

    ghost predicate Valid()
      reads this
    {
      TagsClean(tags)
    }

    /** A fresh dialog: no contact, empty note, type 'note', neutral sentiment, no tags. */
    constructor()
      ensures Valid() && Blank()
    {
      selectedContact := [];
      content := [];
      noteType := NoteKind;
      sentiment := Neutral;
      tags := [];
      newTag := [];
      isSaving := false;
    }

    /** The state the form starts in and returns to after a save. */
    predicate Blank()
      reads this
    {
      selectedContact == [] && content == [] && noteType == NoteKind && sentiment == Neutral &&
      tags == [] && newTag == [] && !isSaving
    }

    /** `addTag` */
    method AddTag()
      requires Valid()
      modifies this`tags, this`newTag
      ensures Valid()
      ensures (tags, newTag) == AddTagTo(old(tags), old(newTag))
    {
      AddTagKeepsClean(tags, newTag);
      var t := Trim(newTag);
      if t != [] && t !in tags {
        tags := tags + [t];
        newTag := [];
      }
    }

    /** `removeTag` */
    method RemoveTag(tag: string)
      requires Valid()
      modifies this`tags
      ensures Valid()
      ensures tags == RemoveTagFrom(old(tags), tag)
    {
      RemoveTagKeepsClean(tags, tag);
      tags := RemoveTagFrom(tags, tag);
    }

    /**
     * `handleSave`: without a contact or with blank content nothing happens;
     * otherwise the note (trimmed content, the current tags, sentiment and
     * type, stamped `now`) is handed over, the form is reset and the dialog
     * closes.
     */
    method HandleSave(now: int) returns (saved: Option<NoteDraft>, closed: bool)
      requires Valid()
      modifies this
      ensures Valid()
      ensures old(selectedContact) == [] || Trim(old(content)) == [] ==>
                saved == None && !closed && unchanged(this)
      ensures old(selectedContact) != [] && Trim(old(content)) != [] ==>
                saved == Some(NoteDraft(old(selectedContact), Trim(old(content)), now, old(tags), old(sentiment), old(noteType)))
                && closed && Blank()
    {
      var trimmed := Trim(content);
      if selectedContact == [] || trimmed == [] {
        return None, false;
      }
      isSaving := true;
      var note := NoteDraft(selectedContact, trimmed, now, tags, sentiment, noteType);
      saved := Some(note);
      selectedContact := [];
      content := [];
      noteType := NoteKind;
      sentiment := Neutral;
      tags := [];
      newTag := [];
      isSaving := false;
      closed := true;
      assert TagsClean(tags);
    }
  }
}
