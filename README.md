# Bubble Board: a Dafny model of the board state

Bubble Board is a single-page Kanban board. Cards live in one global collection. Each card has a title, a description, a priority, a column, an optional due date, an optional reminder lead time, tags and subtasks. The page keeps the collection in local storage. After every save it appends an automatic backup. It also offers manual backups, restore, JSON export and import, and a 20-step undo and redo.

This project models the state those handlers change, and proves what each handler does to it.

- `Collections`, `Text`: list helpers, and `String.prototype.trim`.
- `Cards`: the card record. It also holds the id-based lookup and removal (`find`, `filter`) and id-uniqueness facts.
- `History`: the undo and redo stacks as values, with the round-trip and bound lemmas.
- `Backups`: the single backup list, local storage, and the choice of the backup to restore.
- `Ordering`: the stable priority sort in `loadCards`.
- `Reminders`: reminder arithmetic, the one-shot timer table and the minute sweep.
- `Tags`: the two tag lists being edited.
- `Transfer`: the export document and the import guard.
- `Boards`: the class `Board`. Its fields are the page's globals and its storage. Its methods are the handlers, each proved against the value-level functions above.

Three behaviours of the code that the model keeps:

- Automatic and manual backups go into ONE list. A push shifts out at most one entry: one once the list passes 5 entries for an auto-save, one once it passes 10 for a manual backup. So a list that manual backups filled to 10 stays at 10 through later auto-saves (`Backups.AutoSaveKeepsFullList`).
- `duplicateCard` and the three subtask handlers take their undo snapshot AFTER changing the collection. Undo right after them therefore does not revert the change (`History.UndoAfterLateSnapshot`).
- `restoreFromBackup` with an index past the end of the list reads `undefined` and cannot continue. The model returns the outcome `MissingBackup` and changes nothing.

## Model

| member | source | states |
|---|---|---|
| Collections.Filter | script.js:580 | the kept elements are exactly the elements that satisfy the predicate, and there are no more of them than before |
| Collections.FilterAppend | script.js:872 | filtering a concatenation filters each part |
| Collections.FilterFilter | script.js:872 | filtering twice is filtering once by the conjunction |
| Collections.FilterKeepsAll | script.js:937 | a filter that keeps every element returns the list unchanged |
| Collections.FilterKeepsNone | script.js:937 | a filter that keeps no element returns the empty list |
| Collections.FirstIndex | script.js:452 | `find` returns the first element satisfying the predicate, and none exists exactly when it returns nothing |
| Text.LeadingWhitespace | script.js:99 | the counted prefix is all whitespace, and the character after it is not |
| Text.TrailingWhitespace | script.js:99 | the counted suffix is all whitespace, and the character before it is not |
| Text.Trim | script.js:99 | the trimmed title is empty exactly when the input is all whitespace; otherwise it is the input without its whitespace ends, and it neither starts nor ends with whitespace |
| Cards.Ids | script.js:452 | the set of ids is exactly the ids of the cards in the collection |
| Cards.FindCard | script.js:452 | `cards.find(c => c.id === id)` gives the first card with that id, and nothing exactly when no card has it |
| Cards.FindSubtask | script.js:624 | the first subtask with the id, and nothing exactly when none has it |
| Cards.RemoveWhere | script.js:580 | `cards.filter` by id keeps exactly the cards whose id is not removed; a filter by ids that no card has changes nothing |
| Cards.WithoutSubtask | script.js:666 | the filtered subtask list keeps exactly the subtasks with another id |
| Cards.RemoveWhereAppend | script.js:580 | deleting from a concatenation deletes from each part |
| Cards.RemoveWhereTwice | script.js:872 | two deletions by id sets equal one deletion by their union |
| Cards.AddThenRemove | script.js:126 | deleting a card just appended under a fresh id gives back the collection |
| Cards.RemoveWhereKeepsUniqueIds | script.js:580 | deletion keeps ids unique |
| Cards.UniqueIdsCons | script.js:580 | the step of the deletion proof: a card whose id the rest does not use, in front of a collection with unique ids, keeps them unique |
| Cards.UpdateKeepsIds | script.js:547-553 | replacing a card in place under the same id keeps the set of ids and their uniqueness |
| Cards.AppendKeepsUniqueIds | script.js:126 | appending a card with a fresh id keeps ids unique |
| History.PushBounded | script.js:883-886 | push then shift once past the cap: the pushed entry is last, the length grows by one below the cap and stays the same at it, and the cap is never exceeded |
| History.PushBoundedKeepsNewest | script.js:883-886 | only the oldest entry is ever shifted out; the rest stay in order |
| History.Snapshot | script.js:882-889 | `saveToUndoStack` leaves the live collection, empties redo, puts a copy of the live collection on top of undo and never holds more than 20 |
| History.Undo | script.js:891-900 | with an empty undo stack nothing changes; otherwise the top snapshot becomes live and the live collection goes on top of redo |
| History.Redo | script.js:902-911 | the mirror of undo, with the stacks' roles exchanged |
| History.RedoUndo | script.js:891-911 | redo after undo restores the whole state |
| History.UndoRedo | script.js:891-911 | undo after redo restores the whole state |
| History.UndoRedoBounded | script.js:882-911 | undo and redo keep the two stacks together at no more than 20 snapshots |
| History.UndoRevertsMutation | script.js:125-126 | snapshot, then change: one undo restores the collection before the change, and redo brings the change back |
| History.UndoAfterLateSnapshot | script.js:605-608 | change, then snapshot: one undo leaves the changed collection live |
| History.SnapshotEvictsOldest | script.js:884-886 | with 20 snapshots, a new one drops exactly the oldest |
| Backups.AutoBackup | script.js:249-263 | the auto-save appends a version "1.0" backup with no description, and shifts once only when the list passes 5 |
| Backups.ManualBackup | script.js:269-283 | the manual backup appends a "Manual backup" entry to the same list, and shifts once only when it passes 10 |
| Backups.BackupsKeepNewest | script.js:256-281 | both paths keep the entries before the new one in order, losing at most the oldest |
| Backups.BackupListBounded | script.js:259-281 | neither path takes a list of at most 10 backups past 10 |
| Backups.AutoSaveKeepsFullList | script.js:257-261 | after a list reaches 10 through manual backups, an auto-save keeps 10 and drops the oldest entry, manual or not |
| Backups.BackupToRestore | script.js:296 | a negative index picks the newest backup; an index in range picks that entry; an index past the end picks nothing |
| Ordering.Rank | script.js:235 | high ranks 3, medium 2, low 1 |
| Ordering.Compare | script.js:236 | the comparator puts a card first exactly when it has a higher rank, and ties exactly on equal priorities |
| Ordering.Insert | script.js:234-237 | insertion keeps every card (as a multiset) and adds one |
| Ordering.InsertKeepsOrder | script.js:234-237 | inserting into a list sorted by priority keeps it sorted |
| Ordering.DisplayOrder | script.js:234-237 | the display order is a permutation of the collection, sorted from high to low priority |
| Ordering.DisplayOrderStable | script.js:234-237 | within one priority the display order keeps the collection order (`Array.prototype.sort` is stable) |
| Ordering.InsertOfRank | script.js:234-237 | insertion puts the card in front of its own priority group and leaves the other groups alone; the display order inserts each card into the order of the cards after it, so this keeps collection order |
| Ordering.ByPriorityIsBuckets | script.js:233-237 | a list sorted by priority is its high cards, then its medium cards, then its low cards |
| Ordering.DisplayOrderIsBuckets | script.js:233-241 | the cards are rendered as all high cards, then medium, then low, each group in collection order |
| Reminders.ReminderTime | script.js:1006-1010 | a reminder instant exists exactly when the card has a due date and a lead time, and lies that many minutes before the due date |
| Reminders.ArmAt | script.js:1011-1013 | a timer is armed only for a reminder instant strictly after now |
| Reminders.Armed | script.js:1013-1018 | arming replaces the card's entry in the timer table and leaves every other entry; with nothing to arm the table is unchanged |
| Reminders.SweepHits | script.js:1024-1033 | the sweep shows exactly the cards with a reminder instant less than a minute from now |
| Reminders.SweepHitsSnoc | script.js:1024-1035 | the sweep goes through the collection in order |
| Reminders.SweepsAroundInstant | script.js:1021-1036 | of the sweeps one minute apart, the last one at or before the reminder instant shows it, the next one shows it again exactly when the instant lies strictly between the two, and no other sweep shows it: the sweep delivers a reminder once or twice |
| Reminders.ArmedCardSwept | script.js:1005-1036 | a card of the collection that gets a timer is also among the cards the sweep running at the timer's instant shows, so the reminder can be delivered by both |
| Tags.WithTag | script.js:922-934 | the tag is in the list afterwards; the list keeps its order and grows by at most that tag; an existing tag changes nothing; no duplicates are introduced |
| Tags.WithoutTag | script.js:936-944 | the tag is gone, every other tag stays, and the list does not grow |
| Tags.WithoutTagNoDuplicates | script.js:936-944 | removal keeps the list free of duplicates |
| Tags.AddThenRemoveTag | script.js:922-939 | adding a new tag and removing it gives back the list |
| Transfer.Export | script.js:331-348 | the export carries the collection, the export instant, version "1.0" and the theme |
| Transfer.Reread | script.js:331-348 | an exported file parses back to a document whose `cards` member is the exported array |
| Transfer.ImportedCards | script.js:364-374 | a document passes the guard exactly when its `cards` member is an array, and then that array becomes the collection |
| Transfer.ExportImportRoundTrip | script.js:331-374 | the import guard accepts every export and takes its cards unchanged; the JSON text round trip itself is taken as given, since `Reread` stands for it |
| Boards.Board.constructor | script.js:2-11 | the globals' initialisation: the collection is the stored one, or empty; the stacks, the selection, the tag lists and the timers are empty |
| Boards.Board.SaveToUndoStack | script.js:882-889 | pushes the live collection, bounded at 20, and empties redo: the board's history moves as `History.Snapshot` says |
| Boards.Board.UndoAction | script.js:891-900 | the state moves as `History.Undo` says; with an empty stack nothing changes, otherwise the new collection is saved |
| Boards.Board.RedoAction | script.js:902-911 | the state moves as `History.Redo` says; with an empty stack nothing changes, otherwise the new collection is saved |
| Boards.Board.SaveCards | script.js:245-265 | storage holds the collection, one more auto-backup and the save instant |
| Boards.Board.CreateBackup | script.js:268-285 | only the backup list changes, by one manual backup of the live collection |
| Boards.Board.RestoreFromBackup | script.js:287-310 | no backups, a missing entry and a declined dialog change nothing; a confirmed restore snapshots, replaces the collection by the chosen backup's and saves |
| Boards.Board.ImportData | script.js:356-387 | unreadable file, wrong format or a declined dialog change nothing; otherwise it snapshots, replaces the collection by the file's cards and saves |
| Boards.Board.SetupReminder | script.js:1005-1019 | the timer table becomes `Reminders.Armed` of the old one |
| Boards.Board.CancelReminders | script.js:865-870 | exactly the given cards' timers are cleared |
| Boards.Board.CheckReminders | script.js:1021-1036 | returns the cards the sweep shows, in collection order; each has a reminder |
| Boards.Board.AddNewCard | script.js:98-134 | a blank title changes nothing; otherwise the new card is appended with the trimmed text and the form's tags and subtasks, after a snapshot; the collection is saved, the reminder armed and the form's tags reset |
| Boards.Board.ShowCardDetail | script.js:505-521 | an unknown id changes nothing; otherwise the card is open and its tags are being edited |
| Boards.Board.CloseDetailModal | script.js:523-527 | no card is open and the edited tags are cleared |
| Boards.Board.SaveCardChanges | script.js:529-561 | no open card (an open id of "" counts as none, as `!currentCardId` does), a vanished card or a blank title change nothing; otherwise the open card takes the new values and the edited tags after a snapshot, is saved and re-armed, the view closes, and the ids stay the same and unique |
| Boards.Board.StoreEditedCard | script.js:546-558 | snapshot, replace one card under its own id, save and re-arm; ids stay the same and unique |
| Boards.Board.DeleteCardById | script.js:572-585 | the card's timer is cleared, a snapshot is taken, exactly the cards with that id go, and the result is saved |
| Boards.Board.DeleteCard | script.js:563-570 | with an open card whose id is not "" and a confirmed dialog, it deletes that card and closes the view; otherwise nothing changes |
| Boards.Board.ToggleCardSelection | script.js:824-836 | the card leaves the selection when selected and joins it otherwise |
| Boards.Board.ClearSelection | script.js:838-844 | the selection is empty |
| Boards.Board.DeleteSelectedCards | script.js:859-879 | with a non-empty selection and a confirmed dialog: one snapshot, every selected card and its timer gone, saved, selection cleared; otherwise nothing changes |
| Boards.Board.Drop | script.js:444-470 | a move happens exactly when the list and the card element exist, the card exists and the column differs; then the card alone changes column and update instant, after a snapshot, and is saved; ids are kept |
| Boards.Board.DuplicateCard | script.js:591-617 | an unknown id changes nothing; otherwise a copy under the new id, titled with " (Copy)", is appended, and the snapshot taken afterwards already holds it |
| Boards.Board.ToggleSubtask | script.js:620-634 | exactly when the card, its list and the subtask exist, that subtask flips and the card is stamped, then snapshot and save; ids are kept |
| Boards.Board.AddSubtask | script.js:636-660 | exactly when the text is not blank and the card exists, a new open subtask with the trimmed text is appended (creating the list if needed), then snapshot and save |
| Boards.Board.RemoveSubtask | script.js:662-673 | exactly when the card and its list exist, the subtask is filtered out and the card stamped, then snapshot and save, even for an unknown subtask id |
| Boards.Board.AddTag | script.js:922-927 | the add form's tags become `Tags.WithTag` of the old ones |
| Boards.Board.AddDetailTag | script.js:929-934 | the detail view's tags become `Tags.WithTag` of the old ones |
| Boards.Board.RemoveTag | script.js:936-939 | the add form's tags become `Tags.WithoutTag` of the old ones |
| Boards.Board.RemoveDetailTag | script.js:941-944 | the detail view's tags become `Tags.WithoutTag` of the old ones |

## Left out

- Rendering and the DOM: `renderCard`, `loadCards`' list clearing, card counts, notifications, the undo/redo button state, the bulk-actions bar, drag-over styling, the particle background and PDF export. The model keeps only the state they read.
- Themes: `changeTheme`, `loadTheme` and the theme an import carries. The model reads the theme out of the file but does not apply it.
- Search and filtering of the rendered cards: they change no state.
- Timers: the delivery of a `setTimeout`, `showReminder` and `clearTimeout` are outside the model. The timer table maps each card id to the instant its timer fires. A re-armed card's earlier timer stays pending in the browser but leaves the table, and the model does not track such orphaned timers.
- Date and number parsing: due dates are integer milliseconds and lead times integer minutes. An unparsable date (NaN) and a priority string outside high/medium/low are not modelled.
- JSON copies and object sharing: the model treats the card collection and each card as values. In the source, `duplicateCard`'s spread copy shares the `tags` and `subtasks` arrays with the original. Toggling a subtask of either card, or pushing a subtask onto either list with `addSubtask`, changes the other card too, in both directions. The model does not capture this.
- The add form's temporary subtask list (`addSubtaskFromInput`, `removeTempSubtask`, `window.tempSubtasks`) is not modelled. `Boards.Board.AddNewCard` takes that list as the parameter `formSubtasks`. `resetForm` is modelled only by its effect on the form's tags.
- Boards.Board.constructor: at first load with an empty collection, the source adds three sample cards, saves them and arms their reminders (script.js:1116-1163). The constructor models only the globals' initialisation.
- The export's file download and the file reader are outside the model. The reader's result is the `ImportFile` parameter, and the confirmation dialogs are the `confirmed` parameter.
- The clock is the `now` parameter, and the `Date.now()` ids are the `newId` parameter.
- Boards.Board.AddNewCard: the form's tag list is cleared before the snapshot rather than at the end. No other step reads it, so the final state is the same.
- Boards.Board.SaveCardChanges: the detail view is closed before the edited card is stored rather than after. The stored card has already captured the edited tags, so the final state is the same.
- Boards.Board.ToggleCardSelection: a card id with no element on the page makes the source throw after it has changed the selection. The model stops after the selection change.
