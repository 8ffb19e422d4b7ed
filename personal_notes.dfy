/** The notes panel: the signed-in user's notes, a composer for a new note and an
    edit buffer for one existing note. Every change is first sent to the record
    store; the in-memory list is updated only when the store reports success. */
module PersonalNotes {
  import opened Wrappers
  import opened AuthSession
  import opened Seqs

  /** A note; the store assigns `id` and `createdAt`, and a note still in the
      composer has neither, nor a `userId`. */
  datatype Note = Note(id: Option<int>, title: string, content: string,
                       createdAt: Option<string>, userId: Option<string>)

  /** The composer's contents after a reset. */
  const EmptyDraft := Note(None, "", "", None, None)

  /** The fields an update sends, keyed by the note's id. */
  datatype NoteUpdate = NoteUpdate(id: Option<int>, title: string, content: string)

  function NoteId(n: Note): Option<int>
  {
    n.id
  }

  /** `notes.map(note => note.id === edited.id ? edited : note)`. */
  function ReplaceById(notes: seq<Note>, edited: Note): seq<Note>
  {
    seq(|notes|, i requires 0 <= i < |notes| => if notes[i].id == edited.id then edited else notes[i])
  }

  /** `notes.filter(note => note.id !== noteId)`; notes without an id are never removed. */
  function RemoveById(notes: seq<Note>, noteId: int): seq<Note>
  {
    RemoveWhere(notes, NoteId, Some(noteId))
  }

  /** Replacing keeps the list's length and every note's id; each entry with the
      buffer's id becomes the buffer, every other entry stays as it is. */
  lemma ReplaceByIdSpec(notes: seq<Note>, edited: Note)
    ensures var r := ReplaceById(notes, edited);
      && |r| == |notes|
      && (forall i :: 0 <= i < |notes| ==> r[i].id == notes[i].id)
      && (forall i :: 0 <= i < |notes| && notes[i].id == edited.id ==> r[i] == edited)
      && (forall i :: 0 <= i < |notes| && notes[i].id != edited.id ==> r[i] == notes[i])
  {
  }

  /** Saving the same buffer twice is saving it once; a buffer whose id is in no
      entry changes nothing. */
  lemma ReplaceByIdIdempotent(notes: seq<Note>, edited: Note)
    ensures ReplaceById(ReplaceById(notes, edited), edited) == ReplaceById(notes, edited)
    ensures (forall i :: 0 <= i < |notes| ==> notes[i].id != edited.id) ==> ReplaceById(notes, edited) == notes
  {
  }

  /** Deleting removes every note with that id, keeps every other note as often as
      before and in its order, and changes nothing when no note has the id. */
  lemma RemoveByIdSpec(notes: seq<Note>, noteId: int)
    ensures var r := RemoveById(notes, noteId);
      && (forall n :: n in r ==> n.id != Some(noteId))
      && (forall n: Note :: n.id != Some(noteId) ==> multiset(r)[n] == multiset(notes)[n])
      && IsSubsequence(r, notes)
      && (r == notes <==> forall i :: 0 <= i < |notes| ==> notes[i].id != Some(noteId))
  {
    var r := RemoveById(notes, noteId);
    RemoveWhereContents(notes, NoteId, Some(noteId));
    RemoveWhereSubsequence(notes, NoteId, Some(noteId));
    RemoveWhereUnchangedIff(notes, NoteId, Some(noteId));
    forall n | n in r ensures n.id != Some(noteId) {
      assert multiset(r)[n] > 0;
    }
  }

  /** The panel component. */
  class NotesPanel {
    var notes: seq<Note>
    var newNote: Note
    var editingNote: Option<Note>
    var isAddingNote: bool

    constructor ()
      ensures notes == [] && newNote == EmptyDraft && editingNote.None? && !isAddingNote
    {
      notes := [];
      newNote := EmptyDraft;
      editingNote := None;
      isAddingNote := false;
    }

    /** `fetchNotes`: with no signed-in user nothing is asked; otherwise the user's
        notes are selected (`ownerFilter` is the user id the select filters on) and
        on success they replace the list, a null answer counting as empty. */
    method FetchNotes(user: Option<User>, response: Result<Option<seq<Note>>, string>)
      returns (ownerFilter: Option<string>)
      modifies this
      ensures ownerFilter == if user.Some? then Some(user.value.id) else None
      ensures user.None? || response.Failure? ==> notes == old(notes)
      ensures user.Some? && response.Success? ==>
                notes == if response.value.Some? then response.value.value else []
      ensures newNote == old(newNote) && editingNote == old(editingNote) && isAddingNote == old(isAddingNote)
    {
      if user.None? {
        return None;
      }
      ownerFilter := Some(user.value.id);
      if response.Failure? {
        return;
      }
      notes := if response.value.Some? then response.value.value else [];
    }

    /** `handleAddNote`: with no signed-in user nothing is sent; otherwise the
        composer's note is inserted with the user's id attached (`inserted`), and
        on success the stored record is appended and the composer is reset and closed. */
    method HandleAddNote(user: Option<User>, response: Result<Note, string>)
      returns (inserted: Option<Note>)
      modifies this
      ensures inserted == if user.Some? then Some(old(newNote).(userId := Some(user.value.id))) else None
      ensures user.Some? && response.Success? ==>
                && notes == old(notes) + [response.value]
                && newNote == EmptyDraft && !isAddingNote
      ensures user.None? || response.Failure? ==>
                notes == old(notes) && newNote == old(newNote) && isAddingNote == old(isAddingNote)
      ensures editingNote == old(editingNote)
    {
      if user.None? {
        return None;
      }
      inserted := Some(newNote.(userId := Some(user.value.id)));
      if response.Failure? {
        return;
      }
      notes := notes + [response.value];
      newNote := EmptyDraft;
      isAddingNote := false;
    }

    /** `handleUpdateNote`: without an edit buffer nothing happens; otherwise the
        buffer's title and content are sent under its id (`update`), and on success
        the matching entries are replaced by the buffer and the buffer is cleared. */
    method HandleUpdateNote(response: Outcome<string>) returns (update: Option<NoteUpdate>)
      modifies this
      ensures old(editingNote).None? ==>
                update.None? && notes == old(notes) && editingNote == old(editingNote)
      ensures old(editingNote).Some? ==>
                update == Some(NoteUpdate(old(editingNote).value.id, old(editingNote).value.title,
                                          old(editingNote).value.content))
      ensures old(editingNote).Some? && response.Pass? ==>
                notes == ReplaceById(old(notes), old(editingNote).value) && editingNote.None?
      ensures old(editingNote).Some? && response.Fail? ==>
                notes == old(notes) && editingNote == old(editingNote)
      ensures newNote == old(newNote) && isAddingNote == old(isAddingNote)
    {
      if editingNote.None? {
        return None;
      }
      var edited := editingNote.value;
      update := Some(NoteUpdate(edited.id, edited.title, edited.content));
      if response.Fail? {
        return;
      }
      notes := ReplaceById(notes, edited);
      editingNote := None;
    }

    /** `handleDeleteNote`: the note is deleted by id, and on success every entry
        with that id leaves the list. */
    method HandleDeleteNote(noteId: int, response: Outcome<string>)
      modifies this
      ensures response.Pass? ==> notes == RemoveById(old(notes), noteId)
      ensures response.Fail? ==> notes == old(notes)
      ensures newNote == old(newNote) && editingNote == old(editingNote) && isAddingNote == old(isAddingNote)
    {
      if response.Fail? {
        return;
      }
      notes := RemoveById(notes, noteId);
    }

    /** The "+" button opens the composer. */
    method OpenComposer()
      modifies this
      ensures isAddingNote
      ensures notes == old(notes) && newNote == old(newNote) && editingNote == old(editingNote)
    {
      isAddingNote := true;
    }

    /** The composer's cancel button closes it and keeps what was typed. */
    method CancelComposer()
      modifies this
      ensures !isAddingNote
      ensures notes == old(notes) && newNote == old(newNote) && editingNote == old(editingNote)
    {
      isAddingNote := false;
    }

    method SetDraftTitle(title: string)
      modifies this
      ensures newNote == old(newNote).(title := title)
      ensures notes == old(notes) && editingNote == old(editingNote) && isAddingNote == old(isAddingNote)
    {
      newNote := newNote.(title := title);
    }

    method SetDraftContent(content: string)
      modifies this
      ensures newNote == old(newNote).(content := content)
      ensures notes == old(notes) && editingNote == old(editingNote) && isAddingNote == old(isAddingNote)
    {
      newNote := newNote.(content := content);
    }

    /** A note's edit button loads that note into the edit buffer. */
    method StartEditing(note: Note)
      modifies this
      ensures editingNote == Some(note)
      ensures notes == old(notes) && newNote == old(newNote) && isAddingNote == old(isAddingNote)
    {
      editingNote := Some(note);
    }

    /** The edit's cancel button drops the buffer. */
    method CancelEditing()
      modifies this
      ensures editingNote.None?
      ensures notes == old(notes) && newNote == old(newNote) && isAddingNote == old(isAddingNote)
    {
      editingNote := None;
    }

    /** Typing into the edit fields, which are drawn only while a buffer exists. */
    method SetEditTitle(title: string)
      requires editingNote.Some?
      modifies this
      ensures editingNote == Some(old(editingNote).value.(title := title))
      ensures notes == old(notes) && newNote == old(newNote) && isAddingNote == old(isAddingNote)
    {
      editingNote := Some(editingNote.value.(title := title));
    }

    method SetEditContent(content: string)
      requires editingNote.Some?
      modifies this
      ensures editingNote == Some(old(editingNote).value.(content := content))
      ensures notes == old(notes) && newNote == old(newNote) && isAddingNote == old(isAddingNote)
    {
      editingNote := Some(editingNote.value.(content := content));
    }
  }
}
