/**
 * The notes application (assets/components/apps/NotesApp.tsx): a list of
 * notes kept in local storage, a selected note, and an editor holding the
 * title and content being edited.
 *
 * `Date.now()` ids and `toLocaleDateString()` dates are parameters; the
 * confirmation dialog is the `confirmed` flag; local storage is the
 * `Stored` value read at mount and the list a step says it writes.
 */
module Notes {
  import opened Wrappers
  import opened Seqs

  datatype Note = Note(id: string, title: string, content: string, lastEdited: string)

  /** What local storage holds under the notes key. */
  datatype Stored = Missing | Corrupt | Saved(notes: seq<Note>)

  const NewNoteTitle := "New Note"
  const DemoTitle := "Welcome to Notes"
  const DemoContent := "This is your first note in XenzOS. You can create, edit, and delete notes. Try it out!"

  /** The first note with the given id, as `notes.find(n => n.id === id)`. */
  function NoteWithId(notes: seq<Note>, id: string): (r: Option<Note>)
    ensures r.Some? ==> r.value in notes && r.value.id == id
    ensures r.None? <==> forall i :: 0 <= i < |notes| ==> notes[i].id != id
  {
    Find(notes, (n: Note) => n.id == id)
  }

  /** The list after deleting `id`: no note with that id remains, every other one does. */
  function WithoutNote(notes: seq<Note>, id: string): (r: seq<Note>)
    ensures forall i :: 0 <= i < |r| ==> r[i].id != id && r[i] in notes
    ensures forall i :: 0 <= i < |notes| && notes[i].id != id ==> notes[i] in r
  {
    Filter(notes, NoteNotNamed(id))
  }

  function NoteNotNamed(id: string): Note -> bool {
    (n: Note) => n.id != id
  }

  /** Deleting keeps the other notes in their order: one more note is kept exactly when its id differs. */
  lemma WithoutNoteStep(notes: seq<Note>, n: Note, id: string)
    ensures WithoutNote([], id) == []
    ensures WithoutNote(notes + [n], id) == WithoutNote(notes, id) + (if n.id != id then [n] else [])
  {
    FilterSnoc(notes, n, NoteNotNamed(id));
  }

  /**
   * The list after saving the editor into note `id`: every note with that id
   * gets the title, the content and the date; the others, the length and the
   * order stay as they were.
   */
  function SavedInto(notes: seq<Note>, id: string, title: string, content: string, today: string): (r: seq<Note>)
    ensures |r| == |notes|
    ensures forall i :: 0 <= i < |r| ==> r[i].id == notes[i].id
    ensures forall i :: 0 <= i < |r| && notes[i].id == id ==>
      r[i] == Note(id, title, content, today)
    ensures forall i :: 0 <= i < |r| && notes[i].id != id ==> r[i] == notes[i]
    decreases |notes|
  {
    if |notes| == 0 then []
    else
      var head := if notes[0].id == id then notes[0].(title := title, content := content, lastEdited := today) else notes[0];
      var rest := SavedInto(notes[1..], id, title, content, today);
      assert forall i :: 1 <= i < |notes| ==> notes[i] == notes[1..][i - 1];
      [head] + rest
  }

  /**
   * The selection after deleting `id`, as the code computes it: when the
   * deleted note was selected, the first note of the list before deletion
   * if that list had more than one note, and none otherwise.
   */
  function SelectionAfterDelete(notes: seq<Note>, selected: Option<string>, id: string): (r: Option<string>)
    ensures selected != Some(id) ==> r == selected
    ensures selected == Some(id) && |notes| > 1 ==> r == Some(notes[0].id)
    ensures selected == Some(id) && |notes| <= 1 ==> r == None
  {
    if selected == Some(id) then
      if |notes| > 1 then Some(notes[0].id) else None
    else selected
  }

  /** What the sync effect loads into the editor: the selected note's text, or empty text without a selection. */
  function EditorFor(notes: seq<Note>, selected: Option<string>, title: string, content: string): (r: (string, string))
    ensures !Truthy(selected) ==> r == ("", "")
    ensures Truthy(selected) && NoteWithId(notes, selected.value).None? ==> r == (title, content)
    ensures Truthy(selected) && NoteWithId(notes, selected.value).Some? ==>
      exists i :: 0 <= i < |notes| && notes[i].id == selected.value && r == (notes[i].title, notes[i].content)
  {
    if Truthy(selected) then
      match NoteWithId(notes, selected.value)
      case Some(n) => (n.title, n.content)
      case None => (title, content)
    else ("", "")
  }

  // -------------------------------------------------------------------------
  // Properties

  /** Saving and then selecting the same note brings back what was saved. */
  lemma SavedNoteReadsBack(notes: seq<Note>, id: string, title: string, content: string, today: string)
    requires id != "" && exists i :: 0 <= i < |notes| && notes[i].id == id
    ensures EditorFor(SavedInto(notes, id, title, content, today), Some(id), "", "") == (title, content)
  {
    var saved := SavedInto(notes, id, title, content, today);
    var i :| 0 <= i < |notes| && notes[i].id == id;
    assert saved[i].id == id;
    assert forall j :: 0 <= j < |saved| && saved[j].id == id ==> saved[j].title == title && saved[j].content == content;
    var n := NoteWithId(saved, id);
    assert n.Some?;
    assert n.value in saved && n.value.id == id;
  }

  /** Saving a note leaves every other note as it was. */
  lemma {:induction false} SaveKeepsOthers(notes: seq<Note>, id: string, title: string, content: string, today: string, other: string)
    requires other != id
    ensures NoteWithId(SavedInto(notes, id, title, content, today), other) == NoteWithId(notes, other)
    decreases |notes|
  {
    if |notes| > 0 {
      var saved := SavedInto(notes, id, title, content, today);
      assert saved[1..] == SavedInto(notes[1..], id, title, content, today);
      SaveKeepsOthers(notes[1..], id, title, content, today, other);
      FindStep(notes, (n: Note) => n.id == other);
      FindStep(saved, (n: Note) => n.id == other);
    }
  }

  /**
   * The selection quirk: deleting the selected first note of a longer list
   * leaves the deleted id selected, so the editor keeps its text and no
   * remaining note matches the selection.
   */
  lemma DeletedFirstStaysSelected(notes: seq<Note>, title: string, content: string)
    requires |notes| > 1 && notes[0].id != ""
    ensures var id := notes[0].id;
      var selected := SelectionAfterDelete(notes, Some(id), id);
      && selected == Some(id)
      && NoteWithId(WithoutNote(notes, id), id).None?
      && EditorFor(WithoutNote(notes, id), selected, title, content) == (title, content)
  {
  }

  /** Deleting any other note than the selected one leaves the selection on a remaining note. */
  lemma DeletingOtherKeepsSelection(notes: seq<Note>, selected: string, id: string)
    requires selected != id && exists i :: 0 <= i < |notes| && notes[i].id == selected
    ensures SelectionAfterDelete(notes, Some(selected), id) == Some(selected)
    ensures NoteWithId(WithoutNote(notes, id), selected).Some?
  {
    var i :| 0 <= i < |notes| && notes[i].id == selected;
    assert notes[i] in WithoutNote(notes, id);
  }

  /**
   * Deleting the only note writes nothing, so the stored list still holds
   * the deleted note.
   */
  lemma DeletingLastNoteWritesNothing(n: Note)
    ensures WrittenList(WithoutNote([n], n.id)) == None
  {
  }

  // -------------------------------------------------------------------------
  // The component

  class NotesApp {
    var notes: seq<Note>
    var selectedNote: Option<string>
    var title: string
    var content: string
    var isEditing: bool

    constructor ()
      ensures notes == [] && selectedNote == None
      ensures title == "" && content == "" && !isEditing
    {
      notes := [];
      selectedNote := None;
      title := "";
      content := "";
      isEditing := false;
    }

    /**
     * The mount effect: stored notes are loaded, a corrupt entry gives no
     * notes, and a first visit gets the welcome note, which is written back.
     */
    method Load(stored: Stored, id: string, today: string) returns (written: Option<seq<Note>>)
      modifies this
      ensures stored.Saved? ==> notes == stored.notes && written == None
      ensures stored.Corrupt? ==> notes == [] && written == None
      ensures stored.Missing? ==> notes == [Note(id, DemoTitle, DemoContent, today)] && written == Some(notes)
      ensures selectedNote == old(selectedNote) && title == old(title) && content == old(content)
      ensures isEditing == old(isEditing)
    {
      written := None;
      match stored {
        case Saved(saved) =>
          notes := saved;
        case Corrupt =>
          notes := [];
        case Missing =>
          var demoNote := Note(id, DemoTitle, DemoContent, today);
          notes := [demoNote];
          written := Some([demoNote]);
      }
    }

    /** The save effect, run whenever the list changes: a non-empty list is written. */
    method Persist() returns (written: Option<seq<Note>>)
      ensures written == WrittenList(notes)
    {
      if |notes| > 0 {
        written := Some(notes);
      } else {
        written := None;
      }
    }

    /** The sync effect, run whenever the selection or the list changes. */
    method SyncSelection()
      modifies this
      ensures (title, content) == EditorFor(old(notes), old(selectedNote), old(title), old(content))
      ensures notes == old(notes) && selectedNote == old(selectedNote) && isEditing == old(isEditing)
    {
      if Truthy(selectedNote) {
        var note := NoteWithId(notes, selectedNote.value);
        if note.Some? {
          title := note.value.title;
          content := note.value.content;
        }
      } else {
        title := "";
        content := "";
      }
    }

    /** A new empty note titled "New Note" is appended, selected and opened for editing. */
    method CreateNewNote(id: string, today: string)
      modifies this
      ensures notes == old(notes) + [Note(id, NewNoteTitle, "", today)]
      ensures selectedNote == Some(id) && title == NewNoteTitle && content == "" && isEditing
    {
      var newNote := Note(id, NewNoteTitle, "", today);
      notes := notes + [newNote];
      selectedNote := Some(newNote.id);
      title := newNote.title;
      content := newNote.content;
      isEditing := true;
    }

    /** Clicking a note in the list selects it and leaves editing. */
    method SelectNote(id: string)
      modifies this
      ensures selectedNote == Some(id) && !isEditing
      ensures notes == old(notes) && title == old(title) && content == old(content)
    {
      selectedNote := Some(id);
      isEditing := false;
    }

    method StartEditing()
      modifies this
      ensures isEditing
      ensures notes == old(notes) && selectedNote == old(selectedNote)
      ensures title == old(title) && content == old(content)
    {
      isEditing := true;
    }

    method EditText(newTitle: string, newContent: string)
      modifies this
      ensures title == newTitle && content == newContent
      ensures notes == old(notes) && selectedNote == old(selectedNote) && isEditing == old(isEditing)
    {
      title := newTitle;
      content := newContent;
    }

    /** A confirmed delete removes the notes with that id and moves the selection as the code does. */
    method DeleteNote(id: string, confirmed: bool)
      modifies this
      ensures confirmed ==> notes == WithoutNote(old(notes), id)
      ensures confirmed ==> selectedNote == SelectionAfterDelete(old(notes), old(selectedNote), id)
      ensures !confirmed ==> notes == old(notes) && selectedNote == old(selectedNote)
      ensures title == old(title) && content == old(content) && isEditing == old(isEditing)
    {
      if confirmed {
        var before := notes;
        notes := WithoutNote(notes, id);
        if selectedNote == Some(id) {
          selectedNote := if |before| > 1 then Some(before[0].id) else None;
        }
      }
    }

    /** Saving writes the editor into the selected note and leaves editing; without a selection nothing happens. */
    method SaveNote(today: string)
      modifies this
      ensures !Truthy(old(selectedNote)) ==> notes == old(notes) && isEditing == old(isEditing)
      ensures Truthy(old(selectedNote)) ==>
        notes == SavedInto(old(notes), old(selectedNote).value, old(title), old(content), today) && !isEditing
      ensures selectedNote == old(selectedNote) && title == old(title) && content == old(content)
    {
      if !Truthy(selectedNote) {
        return;
      }
      notes := SavedInto(notes, selectedNote.value, title, content, today);
      isEditing := false;
    }
  }

  /** Creating a note under a fresh id, editing it and saving it stores the edited text as a new last note. */
  method CreateEditSave(app: NotesApp, id: string, today: string, newTitle: string, newContent: string)
    requires id != "" && NoteWithId(app.notes, id).None?
    modifies app
    ensures app.notes == old(app.notes) + [Note(id, newTitle, newContent, today)]
    ensures EditorFor(app.notes, app.selectedNote, "", "") == (newTitle, newContent)
    ensures !app.isEditing
  {
    app.CreateNewNote(id, today);
    app.EditText(newTitle, newContent);
    ghost var created := app.notes;
    assert created[|created| - 1].id == id;
    app.SaveNote(today);
    SavedNoteReadsBack(created, id, newTitle, newContent, today);
    SavedFresh(old(app.notes), Note(id, NewNoteTitle, "", today), newTitle, newContent, today);
  }

  /** Saving into a note appended with a fresh id changes only that last note. */
  lemma SavedFresh(notes: seq<Note>, n: Note, title: string, content: string, today: string)
    requires forall i :: 0 <= i < |notes| ==> notes[i].id != n.id
    ensures SavedInto(notes + [n], n.id, title, content, today) == notes + [Note(n.id, title, content, today)]
  {
    var r := SavedInto(notes + [n], n.id, title, content, today);
    assert forall i :: 0 <= i < |notes| ==> r[i] == notes[i];
  }
}
