# Customer Milestone Notifier — a Dafny model

This project models the WooCommerce Admin plugin "Customer Milestone Notifier".
On every `user_register` event the plugin counts the store's customers. When
both host classes `WC_Admin_Notes` and `WC_Data_Store` exist and the count is
exactly 11, it looks through the notes stored under its own name
(`customer-milestone-notifier-woocommerce-admin`). If none of them has a
`first_customer` property in its content data, it creates one
"First Customer" note with a trophy icon and one call-to-action into the
customer analytics. On deactivation it deletes every note stored under its
name, provided `WC_Admin_Notes` exists. The activation hook does nothing.

The host's note inbox is modelled as a class `Notes.NoteStore`. Its
`notes: seq<Note>` field is appended to by `Save` and filtered by
`DeleteNotesWithName`. The plugin's handler, cleanup and lifecycle hooks are
methods that modify the store (module `CustomerMilestoneNotifier`). Each
method's postcondition ties the new store to a function of the old one:
`AfterMilestoneNotification` for the handler and `AfterRemoveInboxNotes` for
the cleanup. The lemmas state what the plugin promises about those functions:
- the handler does nothing without the host classes or away from 11 customers;
- an existing marker blocks it, whatever the marker's value;
- otherwise it appends exactly one note with fixed fields;
- it is idempotent and never adds a second first-customer note;
- it leaves every other note alone;
- cleanup deletes exactly the plugin's notes and keeps the rest in order;
- a cleanup makes room for a fresh note.

The host is outside the model. Its inputs are method parameters: whether each
host class exists, the customer count, and the activation timestamp with its
formatted date.

The code and its own comments disagree on when the note fires. The
doc-comment (line 35), the note's title (line 63) and the plugin header
(line 18) speak of the first customer and of a list of milestones
(1, 10, 100, …). The code fires at exactly 11 customers
(`11 === $total_customers`, line 48) and has no other milestone. The model
follows the code: one threshold, `MilestoneCustomerCount == 11`.

## Model

| member | source | states |
|---|---|---|
| Notes.NotesWithName | customer-milestone-notifier-woocommerce-admin.php:50 | the notes found under a name are exactly the stored notes with that name, and there are no more of them than stored notes |
| Notes.NotesWithNameAppend | customer-milestone-notifier-woocommerce-admin.php:50 | looking up by name distributes over concatenation, so the lookup keeps store order |
| Notes.WithoutName | customer-milestone-notifier-woocommerce-admin.php:104 | the notes kept after deleting a name are exactly the stored notes with another name |
| Notes.WithoutNameAppend | customer-milestone-notifier-woocommerce-admin.php:104 | deleting by name distributes over concatenation, so the kept notes stay in their original order |
| Notes.WithoutAbsentName | customer-milestone-notifier-woocommerce-admin.php:104 | deleting a name no stored note carries leaves the store identical |
| Notes.NamePartition | customer-milestone-notifier-woocommerce-admin.php:104 | the notes under a name and the notes kept after deleting it together make up the store as a multiset, and their sizes add up |
| Notes.NoteStore.Save | customer-milestone-notifier-woocommerce-admin.php:92 | saving a new note appends it to the store and changes nothing else |
| Notes.NoteStore.DeleteNotesWithName | customer-milestone-notifier-woocommerce-admin.php:104 | deleting by name leaves exactly the notes with other names, in order |
| CustomerMilestoneNotifier.MarkedNotes | customer-milestone-notifier-woocommerce-admin.php:54 | the selected notes are exactly those whose content data has a `first_customer` property; none is selected iff no note has the property |
| CustomerMilestoneNotifier.MarkedNotesAppend | customer-milestone-notifier-woocommerce-admin.php:54 | selecting marker-bearing notes distributes over concatenation |
| CustomerMilestoneNotifier.HasFirstCustomerNote | customer-milestone-notifier-woocommerce-admin.php:50-57 | the guard loop, with its early return, reports true iff some stored note under the plugin's name has a `first_customer` property |
| CustomerMilestoneNotifier.AddCustomerMilestoneNotification | customer-milestone-notifier-woocommerce-admin.php:37-94 | the handler turns the store into `AfterMilestoneNotification` of the old store; the note it builds setter by setter is `FirstCustomerNote` |
| CustomerMilestoneNotifier.RemoveActivityPanelInboxNotes | customer-milestone-notifier-woocommerce-admin.php:99-105 | the cleanup turns the store into `AfterRemoveInboxNotes` of the old store |
| CustomerMilestoneNotifier.Activate | customer-milestone-notifier-woocommerce-admin.php:108-110 | activation leaves the store unchanged |
| CustomerMilestoneNotifier.Deactivate | customer-milestone-notifier-woocommerce-admin.php:113-115 | deactivation has exactly the cleanup's effect on the store |
| CustomerMilestoneNotifier.MissingHostClassIsNoOp | customer-milestone-notifier-woocommerce-admin.php:39-45 | without `WC_Admin_Notes` or without `WC_Data_Store` the handler leaves the store unchanged |
| CustomerMilestoneNotifier.OtherCountIsNoOp | customer-milestone-notifier-woocommerce-admin.php:48-93 | at any customer count other than 11 the handler leaves the store unchanged |
| CustomerMilestoneNotifier.ExistingMarkerIsNoOp | customer-milestone-notifier-woocommerce-admin.php:50-57 | a stored note under the plugin's name with a `first_customer` property of any value makes the handler a no-op |
| CustomerMilestoneNotifier.AddsExactlyOneNote | customer-milestone-notifier-woocommerce-admin.php:62-92 | with both classes, 11 customers and no marker, the handler appends exactly one note after the unchanged old notes; that note has the plugin's name, `first_customer = true`, the given activation stamps, icon `trophy`, informational type, the plugin's source and the one `customer_analytics` action |
| CustomerMilestoneNotifier.NotificationIdempotent | customer-milestone-notifier-woocommerce-admin.php:50-92 | running the handler again with the same count and host classes, at any later time, leaves the store the first run produced |
| CustomerMilestoneNotifier.AtMostOneFirstCustomerNote | customer-milestone-notifier-woocommerce-admin.php:50-92 | when the handler adds a note there was no first-customer note before and there is exactly one after; otherwise their number is unchanged; so "at most one" is preserved |
| CustomerMilestoneNotifier.OtherNotesUntouched | customer-milestone-notifier-woocommerce-admin.php:50-92 | the notes under other names are identical before and after the handler, and the notes under the plugin's name are the old ones followed either by nothing or by exactly the one new first-customer note |
| CustomerMilestoneNotifier.DecisionReadsOnlyOwnNotes | customer-milestone-notifier-woocommerce-admin.php:50-57 | two stores with the same notes under the plugin's name get the same decision from the handler |
| CustomerMilestoneNotifier.RemoveInboxNotesDeletesByName | customer-milestone-notifier-woocommerce-admin.php:99-105 | without `WC_Admin_Notes` cleanup is a no-op; with it, no note under the plugin's name remains, the kept notes keep their order, and a store with no such note is unchanged |
| CustomerMilestoneNotifier.HandlerAfterCleanupAddsFreshNote | customer-milestone-notifier-woocommerce-admin.php:50-105 | after a cleanup, the handler at 11 customers with both classes appends a fresh first-customer note |

## Left out

- Hook wiring (`add_action`, `register_activation_hook`, `register_deactivation_hook`, the final `new`) is host plumbing; the hooks are modelled as the methods they call.
- Customer counting (`get_users` with role `Customer`, then `count`) is a host query; the count is a parameter.
- `class_exists` checks are boolean parameters, one per host class.
- Note ids are not modelled. `get_notes_with_name` followed by `WC_Admin_Notes::get_note` per id becomes one lookup that returns the notes themselves, in store order. The `(array)` cast on the id list has nothing to act on.
- The store's persistence, its id assignment on `save` and its failures are not modelled; a save appends and cannot fail.
- `current_time` and `date('F jS', …)` depend on the host clock and PHP date formatting; the timestamp and its formatted form are opaque parameters.
- `__()` translation and the argument-less `sprintf` return their text unchanged here; titles, content and action text are fixed strings.
- Content data is a free-form PHP object; the model keeps only the three properties the plugin writes, with `first_customer` as an optional boolean. A foreign note whose `first_customer` holds a non-boolean value is represented by any `Some` value, which blocks the handler just the same.
- Note fields the plugin never sets (status, dates, snooze flags, action status) are not modelled, and the fields of a new note before its setters run are placeholders, all overwritten.
- The race between concurrent requests in the check-then-create is not modelled; each handler run is sequential.
- The other milestones in the plugin header (1, 10, 100, 250, 500, 1000, 10000) and any "other milestone" deletion policy are not implemented in this file's code and are not modelled.
