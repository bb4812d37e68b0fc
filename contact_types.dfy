/**
 * The records of the personal contacts manager: contacts, the notes taken
 * about them and reminders. Dates are millisecond timestamps.
 */
module ContactTypes {
  import opened Seqs

  datatype Sentiment = Positive | Neutral | NeedsAttention

  datatype NoteType = NoteKind | Call | Meeting | Email

  datatype Note = Note(id: string, contactId: string, content: string, date: int,
                       tags: seq<string>, sentiment: Sentiment, noteType: NoteType)

  /** A note before it has an id (`Omit<Note, 'id'>`). */
  datatype NoteDraft = NoteDraft(contactId: string, content: string, date: int,
                                 tags: seq<string>, sentiment: Sentiment, noteType: NoteType)

  datatype Contact = Contact(id: string, name: string, email: Option<string>, phone: Option<string>,
                             avatar: Option<string>, lastContact: Option<int>, nextReminder: Option<int>,
                             tags: seq<string>, notes: seq<Note>, starred: bool, metAt: Option<string>,
                             relationship: string, sentiment: Sentiment)

  datatype Reminder = Reminder(id: string, contactId: string, contactName: string, message: string,
                               date: int, completed: bool)

  /** `{ ...draft, id }` */
  function WithId(draft: NoteDraft, id: string): (n: Note)
    ensures n.id == id && n.contactId == draft.contactId && n.content == draft.content && n.date == draft.date
    ensures n.tags == draft.tags && n.sentiment == draft.sentiment && n.noteType == draft.noteType
  {
    Note(id, draft.contactId, draft.content, draft.date, draft.tags, draft.sentiment, draft.noteType)
  }
}
