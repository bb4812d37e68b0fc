/**
 * The contacts manager's top-level handlers: starring a contact, completing
 * a reminder and saving a note, each a function from the old lists to the
 * new ones.
 */
module ContactsApp {
  import opened Seqs
  import opened ContactTypes

  /** `handleToggleStar`: flips `starred` on the contacts with that id. */
  function ToggleStar(contacts: seq<Contact>, id: string): (r: seq<Contact>)
    ensures |r| == |contacts|
    ensures forall i :: 0 <= i < |contacts| ==>
              r[i] == if contacts[i].id == id then contacts[i].(starred := !contacts[i].starred) else contacts[i]
  {
    Map(contacts, (c: Contact) => if c.id == id then c.(starred := !c.starred) else c)
  }

  /** `handleReminderComplete`: marks the reminders with that id completed. */
  function CompleteReminder(reminders: seq<Reminder>, id: string): (r: seq<Reminder>)
    ensures |r| == |reminders|
    ensures forall i :: 0 <= i < |reminders| ==>
              r[i] == if reminders[i].id == id then reminders[i].(completed := true) else reminders[i]
  {
    Map(reminders, (x: Reminder) => if x.id == id then x.(completed := true) else x)
  }

  /** The note list and contact list after `handleSaveNote`. */
  datatype Saved = Saved(notes: seq<Note>, contacts: seq<Contact>)

  /**
   * `handleSaveNote`: the draft, given the fresh id `newId`, is appended to
   * the notes and to the notes of its contact, whose last contact becomes
   * `now`.
   */
  function SaveNote(notes: seq<Note>, contacts: seq<Contact>, draft: NoteDraft, newId: string, now: int): (r: Saved)
    ensures r.notes == notes + [WithId(draft, newId)]
    ensures |r.contacts| == |contacts|
    ensures forall i :: 0 <= i < |contacts| ==>
              r.contacts[i] == if contacts[i].id == draft.contactId
                               then contacts[i].(lastContact := Some(now), notes := contacts[i].notes + [WithId(draft, newId)])
                               else contacts[i]
  {
    var note := WithId(draft, newId);
    Saved(notes + [note],
          Map(contacts, (c: Contact) => if c.id == draft.contactId then c.(lastContact := Some(now), notes := c.notes + [note]) else c))
  }

  /** Starring twice gives the list back. */
  lemma ToggleStarTwice(contacts: seq<Contact>, id: string)
    ensures ToggleStar(ToggleStar(contacts, id), id) == contacts
  {
  }

  /** Completing a reminder is idempotent and touches no other reminder. */
  lemma CompleteReminderIdempotent(reminders: seq<Reminder>, id: string)
    ensures CompleteReminder(CompleteReminder(reminders, id), id) == CompleteReminder(reminders, id)
    ensures forall i :: 0 <= i < |reminders| && reminders[i].id == id ==> CompleteReminder(reminders, id)[i].completed
  {
  }

  function Starred(contacts: seq<Contact>): nat
  {
    if contacts == [] then 0 else (if contacts[0].starred then 1 else 0) + Starred(contacts[1..])
  }

  /** With unique ids, starring a contact changes the number of starred contacts by exactly one. */
  lemma {:induction false} ToggleStarCount(contacts: seq<Contact>, id: string, k: nat)
    requires k < |contacts| && contacts[k].id == id
    requires forall i :: 0 <= i < |contacts| && i != k ==> contacts[i].id != id
    ensures Starred(ToggleStar(contacts, id)) == if contacts[k].starred then Starred(contacts) - 1 else Starred(contacts) + 1
  {
    var r := ToggleStar(contacts, id);
    assert r[1..] == ToggleStar(contacts[1..], id);
    if k == 0 {
      NoMatchUnchanged(contacts[1..], id);
    } else {
      ToggleStarCount(contacts[1..], id, k - 1);
    }
  }

  lemma NoMatchUnchanged(contacts: seq<Contact>, id: string)
    requires forall i :: 0 <= i < |contacts| ==> contacts[i].id != id
    ensures ToggleStar(contacts, id) == contacts
  {
  }

  /** Saving a note adds one note in all: one to the global list and one to each contact carrying its contact id. */
  lemma SaveNoteAddsOne(notes: seq<Note>, contacts: seq<Contact>, draft: NoteDraft, newId: string, now: int)
    ensures |SaveNote(notes, contacts, draft, newId, now).notes| == |notes| + 1
    ensures forall i :: 0 <= i < |contacts| && contacts[i].id != draft.contactId ==>
              SaveNote(notes, contacts, draft, newId, now).contacts[i] == contacts[i]
    ensures forall i :: 0 <= i < |contacts| && contacts[i].id == draft.contactId ==>
              SaveNote(notes, contacts, draft, newId, now).contacts[i].notes[|contacts[i].notes|] == WithId(draft, newId)
  {
  }
}
