/**
 * The host's admin-note inbox, as far as the milestone notifier sees it:
 * note records, the queries and deletions the host offers by note name,
 * and the store itself as an object whose note list changes in place.
 */
module Notes {

  datatype Option<+T> = None | Some(value: T)

  /** The host's note severities (`WC_Admin_Note::E_WC_ADMIN_NOTE_*`). */
  datatype NoteType = Error | Warning | Update | Informational

  /**
   * The free-form content-data object attached to a note, narrowed to the
   * properties the notifier writes. A property that was never set is `None`;
   * its presence, not its value, is what the duplicate guard inspects.
   */
  datatype ContentData = ContentData(
    firstCustomer: Option<bool>,
    activated: Option<int>,
    activatedFormatted: Option<string>)

  const EmptyContentData := ContentData(None, None, None)

  /** A call-to-action button: identifier, button text and target query. */
  datatype NoteAction = NoteAction(name: string, text: string, query: string)

  datatype Note = Note(
    name: string,
    title: string,
    content: string,
    contentData: ContentData,
    noteType: NoteType,
    icon: string,
    source: string,
    actions: seq<NoteAction>)

  /** A note as freshly constructed, before any setter has been called. */
  const BlankNote := Note("", "", "", EmptyContentData, Informational, "", "", [])

  /** The notes stored under `name`, in store order (`get_notes_with_name`). */
  function NotesWithName(notes: seq<Note>, name: string): (r: seq<Note>)
    ensures |r| <= |notes|
    ensures forall n :: n in r <==> n in notes && n.name == name
  {
    if notes == [] then []
    else
      assert notes == [notes[0]] + notes[1..];
      if notes[0].name == name then [notes[0]] + NotesWithName(notes[1..], name)
      else NotesWithName(notes[1..], name)
  }

  /** The notes left after deleting every note stored under `name`. */
  function WithoutName(notes: seq<Note>, name: string): (r: seq<Note>)
    ensures |r| <= |notes|
    ensures forall n :: n in r <==> n in notes && n.name != name
  {
    if notes == [] then []
    else
      assert notes == [notes[0]] + notes[1..];
      if notes[0].name == name then WithoutName(notes[1..], name)
      else [notes[0]] + WithoutName(notes[1..], name)
  }

  /** Looking notes up by name distributes over a split of the store. */
  lemma {:induction false} NotesWithNameAppend(s: seq<Note>, t: seq<Note>, name: string)
    ensures NotesWithName(s + t, name) == NotesWithName(s, name) + NotesWithName(t, name)
  {
    if s != [] {
      assert (s + t)[1..] == s[1..] + t;
      NotesWithNameAppend(s[1..], t, name);
    } else {
      assert s + t == t;
    }
  }

  /** Deleting by name distributes over a split of the store, so the notes kept stay in order. */
  lemma {:induction false} WithoutNameAppend(s: seq<Note>, t: seq<Note>, name: string)
    ensures WithoutName(s + t, name) == WithoutName(s, name) + WithoutName(t, name)
  {
    if s != [] {
      assert (s + t)[1..] == s[1..] + t;
      WithoutNameAppend(s[1..], t, name);
    } else {
      assert s + t == t;
    }
  }

  /** Deleting a name that no stored note carries leaves the store exactly as it was. */
  lemma {:induction false} WithoutAbsentName(notes: seq<Note>, name: string)
    requires forall n :: n in notes ==> n.name != name
    ensures WithoutName(notes, name) == notes
  {
    if notes != [] {
      assert notes == [notes[0]] + notes[1..];
      WithoutAbsentName(notes[1..], name);
    }
  }

  /**
   * Every stored note is either found under `name` or survives deleting
   * `name`, and never both: the two split the store with nothing lost.
   */
  lemma {:induction false} NamePartition(notes: seq<Note>, name: string)
    ensures multiset(NotesWithName(notes, name)) + multiset(WithoutName(notes, name)) == multiset(notes)
    ensures |NotesWithName(notes, name)| + |WithoutName(notes, name)| == |notes|
  {
    if notes != [] {
      assert notes == [notes[0]] + notes[1..];
      NamePartition(notes[1..], name);
    }
  }

  /**
   * The host's note store (`WC_Data_Store` for admin notes together with
   * `WC_Admin_Notes`): the stored notes in the order they were saved.
   */
  class NoteStore {
    var notes: seq<Note>

    constructor (initial: seq<Note>)
      ensures notes == initial
    {
      notes := initial;
    }

    /** Persists a new note (`WC_Admin_Note::save` on an unsaved note). */
    method Save(note: Note)
      modifies this
      ensures notes == old(notes) + [note]
    {
      notes := notes + [note];
    }

    /** Deletes every note stored under `name` (`WC_Admin_Notes::delete_notes_with_name`). */
    method DeleteNotesWithName(name: string)
      modifies this
      ensures notes == WithoutName(old(notes), name)
    {
      notes := WithoutName(notes, name);
    }
  }
}
