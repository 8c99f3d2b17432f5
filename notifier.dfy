/**
 * The customer-milestone notifier plugin: on every customer registration it
 * writes one "first customer" note into the host inbox when the customer
 * count is exactly 11 and no such note exists yet; on deactivation it
 * deletes every note it owns.
 *
 * The host is a parameter: whether its `WC_Admin_Notes` and `WC_Data_Store`
 * classes exist, the customer count it reports, and the activation time
 * with its formatted date, all arrive as arguments.
 */
module CustomerMilestoneNotifier {
  import opened Notes

  /** The name every note of this plugin is stored under (`FIRST_CUSTOMER_NOTE_NAME`). */
  const FirstCustomerNoteName := "customer-milestone-notifier-woocommerce-admin"

  /** The only customer count at which the handler acts. */
  const MilestoneCustomerCount := 11

  const FirstCustomerTitle := "First Customer"
  const FirstCustomerContent := "Congratulations on getting your first customer..!!"
  const TrophyIcon := "trophy"
  const NoteSource := "customer-milestone-notifier-woocommerce-admin"
  const CustomerAnalyticsAction :=
    NoteAction("customer_analytics", "Track Customer orders", "?page=wc-admin#/analytics/customers")

  /** A note whose content data has a `first_customer` property, whatever its value. */
  predicate HasMarker(n: Note) {
    n.contentData.firstCustomer.Some?
  }

  /** The marker-bearing notes among `notes`, in order. */
  function MarkedNotes(notes: seq<Note>): (r: seq<Note>)
    ensures forall n :: n in r <==> n in notes && HasMarker(n)
    ensures r == [] <==> forall n :: n in notes ==> !HasMarker(n)
  {
    if notes == [] then []
    else
      assert notes == [notes[0]] + notes[1..];
      if HasMarker(notes[0]) then [notes[0]] + MarkedNotes(notes[1..])
      else MarkedNotes(notes[1..])
  }

  lemma {:induction false} MarkedNotesAppend(s: seq<Note>, t: seq<Note>)
    ensures MarkedNotes(s + t) == MarkedNotes(s) + MarkedNotes(t)
  {
    if s != [] {
      assert (s + t)[1..] == s[1..] + t;
      MarkedNotesAppend(s[1..], t);
    } else {
      assert s + t == t;
    }
  }

  /** The plugin's first-customer notes: stored under its name and bearing the marker. */
  function FirstCustomerNotes(notes: seq<Note>): seq<Note> {
    MarkedNotes(NotesWithName(notes, FirstCustomerNoteName))
  }

  /** The duplicate guard's condition: the first-customer note was already created. */
  predicate FirstCustomerNoteExists(notes: seq<Note>) {
    FirstCustomerNotes(notes) != []
  }

  /** The note the handler creates, stamped with the activation time it is given. */
  function FirstCustomerNote(activated: int, activatedFormatted: string): Note {
    Note(
      FirstCustomerNoteName,
      FirstCustomerTitle,
      FirstCustomerContent,
      ContentData(Some(true), Some(activated), Some(activatedFormatted)),
      Informational,
      TrophyIcon,
      NoteSource,
      [CustomerAnalyticsAction])
  }

  /** Whether a registration event leads to a new note. */
  predicate AddsNote(notes: seq<Note>, totalCustomers: nat, hasAdminNotes: bool, hasDataStore: bool) {
    hasAdminNotes && hasDataStore
    && totalCustomers == MilestoneCustomerCount
    && !FirstCustomerNoteExists(notes)
  }

  /** The store after the registration handler has run on `notes`. */
  function AfterMilestoneNotification(
    notes: seq<Note>, totalCustomers: nat, hasAdminNotes: bool, hasDataStore: bool,
    activated: int, activatedFormatted: string): seq<Note>
  {
    if AddsNote(notes, totalCustomers, hasAdminNotes, hasDataStore)
    then notes + [FirstCustomerNote(activated, activatedFormatted)]
    else notes
  }

  /** The store after the cleanup has run on `notes`. */
  function AfterRemoveInboxNotes(notes: seq<Note>, hasAdminNotes: bool): seq<Note> {
    if hasAdminNotes then WithoutName(notes, FirstCustomerNoteName) else notes
  }

  /**
   * The duplicate guard: walks the notes stored under the plugin's name and
   * stops at the first one whose content data has a `first_customer` property.
   */
  method HasFirstCustomerNote(store: NoteStore) returns (found: bool)
    ensures found == FirstCustomerNoteExists(store.notes)
    ensures found <==> exists n :: n in store.notes && n.name == FirstCustomerNoteName && HasMarker(n)
  {
    var named := NotesWithName(store.notes, FirstCustomerNoteName);
    for i := 0 to |named|
      invariant forall j :: 0 <= j < i ==> !HasMarker(named[j])
    {
      if HasMarker(named[i]) {
        return true;
      }
    }
    return false;
  }

  /**
   * The `user_register` handler: at exactly 11 customers, with both host
   * classes present and no first-customer note yet, builds the note setter
   * by setter and saves it.
   */
  method AddCustomerMilestoneNotification(
    store: NoteStore, totalCustomers: nat, hasAdminNotes: bool, hasDataStore: bool,
    activated: int, activatedFormatted: string)
    modifies store
    ensures store.notes == AfterMilestoneNotification(
      old(store.notes), totalCustomers, hasAdminNotes, hasDataStore, activated, activatedFormatted)
  {
    if !hasAdminNotes {
      return;
    }
    if !hasDataStore {
      return;
    }
    if totalCustomers == MilestoneCustomerCount {
      var found := HasFirstCustomerNote(store);
      if found {
        return;
      }
      var note := BlankNote;
      note := note.(title := FirstCustomerTitle);
      note := note.(content := FirstCustomerContent);
      note := note.(contentData := ContentData(Some(true), Some(activated), Some(activatedFormatted)));
      note := note.(noteType := Informational);
      note := note.(icon := TrophyIcon);
      note := note.(name := FirstCustomerNoteName);
      note := note.(source := NoteSource);
      note := note.(actions := note.actions + [CustomerAnalyticsAction]);
      assert note == FirstCustomerNote(activated, activatedFormatted);
      store.Save(note);
    }
  }

  /** Removes every note the plugin created, when `WC_Admin_Notes` is available. */
  method RemoveActivityPanelInboxNotes(store: NoteStore, hasAdminNotes: bool)
    modifies store
    ensures store.notes == AfterRemoveInboxNotes(old(store.notes), hasAdminNotes)
  {
    if !hasAdminNotes {
      return;
    }
    store.DeleteNotesWithName(FirstCustomerNoteName);
  }

  /** The activation hook: its body is empty, so activating leaves the store alone. */
  method Activate(store: NoteStore)
    ensures unchanged(store)
  {
  }

  /** The deactivation hook: runs the cleanup. */
  method Deactivate(store: NoteStore, hasAdminNotes: bool)
    modifies store
    ensures store.notes == AfterRemoveInboxNotes(old(store.notes), hasAdminNotes)
  {
    RemoveActivityPanelInboxNotes(store, hasAdminNotes);
  }

  // Properties of the handler

  /** Without either host class the handler changes nothing. */
  lemma MissingHostClassIsNoOp(
    notes: seq<Note>, totalCustomers: nat, hasAdminNotes: bool, hasDataStore: bool,
    activated: int, activatedFormatted: string)
    requires !hasAdminNotes || !hasDataStore
    ensures AfterMilestoneNotification(
      notes, totalCustomers, hasAdminNotes, hasDataStore, activated, activatedFormatted) == notes
  {
  }

  /** At any customer count other than exactly 11 the handler changes nothing. */
  lemma OtherCountIsNoOp(
    notes: seq<Note>, totalCustomers: nat, hasAdminNotes: bool, hasDataStore: bool,
    activated: int, activatedFormatted: string)
    requires totalCustomers != 11
    ensures AfterMilestoneNotification(
      notes, totalCustomers, hasAdminNotes, hasDataStore, activated, activatedFormatted) == notes
  {
  }

  /**
   * A stored note under the plugin's name with a `first_customer` property
   * blocks the handler, whatever that property's value is.
   */
  lemma ExistingMarkerIsNoOp(
    notes: seq<Note>, totalCustomers: nat, hasAdminNotes: bool, hasDataStore: bool,
    activated: int, activatedFormatted: string, k: nat)
    requires k < |notes| && notes[k].name == FirstCustomerNoteName
    requires notes[k].contentData.firstCustomer.Some?
    ensures AfterMilestoneNotification(
      notes, totalCustomers, hasAdminNotes, hasDataStore, activated, activatedFormatted) == notes
  {
  }

  /**
   * With both host classes, 11 customers and no marker-bearing note under the
   * plugin's name, the handler appends exactly one note, with these fields,
   * and keeps every earlier note where it was.
   */
  lemma AddsExactlyOneNote(
    notes: seq<Note>, activated: int, activatedFormatted: string)
    requires forall n :: n in notes && n.name == FirstCustomerNoteName ==> !HasMarker(n)
    ensures var r := AfterMilestoneNotification(notes, 11, true, true, activated, activatedFormatted);
      && |r| == |notes| + 1
      && r[..|notes|] == notes
      && r[|notes|].name == FirstCustomerNoteName
      && r[|notes|].contentData.firstCustomer == Some(true)
      && r[|notes|].contentData.activated == Some(activated)
      && r[|notes|].contentData.activatedFormatted == Some(activatedFormatted)
      && r[|notes|].icon == "trophy"
      && r[|notes|].noteType == Informational
      && r[|notes|].source == "customer-milestone-notifier-woocommerce-admin"
      && r[|notes|].actions == [NoteAction("customer_analytics", "Track Customer orders", "?page=wc-admin#/analytics/customers")]
  {
  }

  /**
   * Running the handler a second time for the same event gives the store
   * the first run left, even when the clock has moved on in between.
   */
  lemma NotificationIdempotent(
    notes: seq<Note>, totalCustomers: nat, hasAdminNotes: bool, hasDataStore: bool,
    activated: int, activatedFormatted: string, activated2: int, activatedFormatted2: string)
    ensures var once := AfterMilestoneNotification(
      notes, totalCustomers, hasAdminNotes, hasDataStore, activated, activatedFormatted);
      AfterMilestoneNotification(
        once, totalCustomers, hasAdminNotes, hasDataStore, activated2, activatedFormatted2) == once
  {
  }

  /**
   * The handler adds at most one first-customer note, and only when there was
   * none; so "at most one first-customer note" is preserved.
   */
  lemma {:induction false} AtMostOneFirstCustomerNote(
    notes: seq<Note>, totalCustomers: nat, hasAdminNotes: bool, hasDataStore: bool,
    activated: int, activatedFormatted: string)
    ensures var r := AfterMilestoneNotification(
      notes, totalCustomers, hasAdminNotes, hasDataStore, activated, activatedFormatted);
      |FirstCustomerNotes(r)| ==
        if AddsNote(notes, totalCustomers, hasAdminNotes, hasDataStore) then 1
        else |FirstCustomerNotes(notes)|
    ensures var r := AfterMilestoneNotification(
      notes, totalCustomers, hasAdminNotes, hasDataStore, activated, activatedFormatted);
      |FirstCustomerNotes(notes)| <= 1 ==> |FirstCustomerNotes(r)| <= 1
  {
    if AddsNote(notes, totalCustomers, hasAdminNotes, hasDataStore) {
      var note := FirstCustomerNote(activated, activatedFormatted);
      var named := NotesWithName(notes, FirstCustomerNoteName);
      NotesWithNameAppend(notes, [note], FirstCustomerNoteName);
      assert NotesWithName([note], FirstCustomerNoteName) == [note];
      MarkedNotesAppend(named, [note]);
      assert MarkedNotes([note]) == [note];
    }
  }

  /**
   * The handler neither changes nor removes any stored note: the notes under
   * other names are exactly as before, and the notes under the plugin's name
   * are as before with at most the new note after them.
   */
  lemma {:induction false} OtherNotesUntouched(
    notes: seq<Note>, totalCustomers: nat, hasAdminNotes: bool, hasDataStore: bool,
    activated: int, activatedFormatted: string)
    ensures var r := AfterMilestoneNotification(
      notes, totalCustomers, hasAdminNotes, hasDataStore, activated, activatedFormatted);
      WithoutName(r, FirstCustomerNoteName) == WithoutName(notes, FirstCustomerNoteName)
    ensures var r := AfterMilestoneNotification(
      notes, totalCustomers, hasAdminNotes, hasDataStore, activated, activatedFormatted);
      && |notes| <= |r|
      && NotesWithName(r, FirstCustomerNoteName) == NotesWithName(notes, FirstCustomerNoteName) + r[|notes|..]
      && (r[|notes|..] == [] || r[|notes|..] == [FirstCustomerNote(activated, activatedFormatted)])
  {
    if AddsNote(notes, totalCustomers, hasAdminNotes, hasDataStore) {
      var note := FirstCustomerNote(activated, activatedFormatted);
      WithoutNameAppend(notes, [note], FirstCustomerNoteName);
      assert WithoutName([note], FirstCustomerNoteName) == [];
      NotesWithNameAppend(notes, [note], FirstCustomerNoteName);
      assert NotesWithName([note], FirstCustomerNoteName) == [note];
    }
  }

  /**
   * The handler's decision looks only at the notes stored under the plugin's
   * name: two stores that agree on those notes get the same decision.
   */
  lemma DecisionReadsOnlyOwnNotes(
    a: seq<Note>, b: seq<Note>, totalCustomers: nat, hasAdminNotes: bool, hasDataStore: bool)
    requires NotesWithName(a, FirstCustomerNoteName) == NotesWithName(b, FirstCustomerNoteName)
    ensures AddsNote(a, totalCustomers, hasAdminNotes, hasDataStore)
        == AddsNote(b, totalCustomers, hasAdminNotes, hasDataStore)
  {
  }

  // Properties of the cleanup and the lifecycle hooks

  /**
   * With `WC_Admin_Notes` present, the cleanup deletes exactly the notes under
   * the plugin's name and keeps every other note in its original order;
   * without it, the cleanup changes nothing.
   */
  lemma {:induction false} RemoveInboxNotesDeletesByName(notes: seq<Note>, hasAdminNotes: bool)
    ensures !hasAdminNotes ==> AfterRemoveInboxNotes(notes, hasAdminNotes) == notes
    ensures hasAdminNotes ==>
      NotesWithName(AfterRemoveInboxNotes(notes, hasAdminNotes), FirstCustomerNoteName) == []
    ensures hasAdminNotes ==>
      forall s, t :: notes == s + t ==>
        AfterRemoveInboxNotes(notes, hasAdminNotes)
          == AfterRemoveInboxNotes(s, hasAdminNotes) + AfterRemoveInboxNotes(t, hasAdminNotes)
    ensures hasAdminNotes ==>
      (forall n :: n in notes ==> n.name != FirstCustomerNoteName) ==>
        AfterRemoveInboxNotes(notes, hasAdminNotes) == notes
  {
    if hasAdminNotes {
      var r := WithoutName(notes, FirstCustomerNoteName);
      if NotesWithName(r, FirstCustomerNoteName) != [] {
        assert NotesWithName(r, FirstCustomerNoteName)[0] in NotesWithName(r, FirstCustomerNoteName);
        assert false;
      }
      forall s, t | notes == s + t
        ensures r == WithoutName(s, FirstCustomerNoteName) + WithoutName(t, FirstCustomerNoteName)
      {
        WithoutNameAppend(s, t, FirstCustomerNoteName);
      }
      if forall n :: n in notes ==> n.name != FirstCustomerNoteName {
        WithoutAbsentName(notes, FirstCustomerNoteName);
      }
    }
  }

  /**
   * After a deactivation that ran the cleanup, the handler at 11 customers
   * with both host classes creates a fresh first-customer note.
   */
  lemma HandlerAfterCleanupAddsFreshNote(
    notes: seq<Note>, activated: int, activatedFormatted: string)
    ensures var cleaned := AfterRemoveInboxNotes(notes, true);
      AfterMilestoneNotification(cleaned, 11, true, true, activated, activatedFormatted)
        == cleaned + [FirstCustomerNote(activated, activatedFormatted)]
  {
  }
}
