/** The board's global state and the handlers that change it. The page keeps
    the card collection, the undo and redo stacks, the open card, the two tag
    lists being edited, the bulk selection and the reminder timers in globals;
    storage holds the saved collection, the backup list and the instant of the
    last save. All of them are fields of one `Board`. The clock is the `now`
    parameter, a confirmation dialog's answer the `confirmed` parameter and a
    fresh `Date.now()` id the `newId` parameter. */
module Boards {
  import opened Collections
  import opened Text
  import opened Cards
  import opened History
  import opened Backups
  import opened Reminders
  import opened Tags
  import opened Transfer

  datatype RestoreOutcome = NoBackups | MissingBackup | RestoreDeclined | Restored
  datatype ImportOutcome = ReadError | InvalidFormat | ImportDeclined | Imported
  datatype EditOutcome = NoOpenCard | EmptyTitle | Saved

  /** Whether `currentCardId` is truthy: no open card, and an open card whose
      id is the empty string, both fail the handlers' `if (!currentCardId)`. */
  predicate IsOpen(id: Option<string>) {
    id.Some? && id.value != ""
  }

  class Board {
    var cards: seq<Card>
    var undoStack: seq<seq<Card>>
    var redoStack: seq<seq<Card>>
    var storage: Storage
    /** The card open in the detail view. */
    var currentCardId: Option<string>
    var currentTags: seq<string>
    var detailTags: seq<string>
    var selectedCards: set<string>
    /** Card id to the instant its one-shot reminder timer fires. */
    var reminderTimeouts: map<string, Timestamp>

    /** The undo and redo stacks together never hold more than 20 snapshots. */
    predicate Valid()
      reads this
    {
      Bounded(HistoryState())
    }

    function HistoryState(): State
      reads this
    {
      State(cards, undoStack, redoStack)
    }

    /** Page load: the collection is the stored one, or empty when nothing was stored. */
    constructor(stored: Storage)
      ensures Valid()
      ensures cards == stored.savedCards.GetOr([]) && undoStack == [] && redoStack == []
      ensures storage == stored
      ensures currentCardId == None && currentTags == [] && detailTags == []
      ensures selectedCards == {} && reminderTimeouts == map[]
    {
      cards := stored.savedCards.GetOr([]);
      undoStack := [];
      redoStack := [];
      storage := stored;
      currentCardId := None;
      currentTags := [];
      detailTags := [];
      selectedCards := {};
      reminderTimeouts := map[];
    }

    // ---------------------------------------------------------------- history

    method SaveToUndoStack()
      requires Valid()
      modifies this`undoStack, this`redoStack
      ensures Valid()
      ensures undoStack == PushBounded(old(undoStack), cards, MaxUndo) && redoStack == []
      ensures HistoryState() == Snapshot(old(HistoryState()))
    {
      undoStack := PushBounded(undoStack, cards, MaxUndo);
      redoStack := [];
    }

    method UndoAction(now: Timestamp)
      requires Valid()
      modifies this`cards, this`undoStack, this`redoStack, this`storage
      ensures Valid()
      ensures HistoryState() == Undo(old(HistoryState()))
      ensures old(undoStack) == [] ==> unchanged(this)
      ensures old(undoStack) != [] ==> storage == Save(old(storage), cards, now)
    {
      if undoStack == [] {
        return;
      }
      redoStack := redoStack + [cards];
      cards := undoStack[|undoStack| - 1];
      undoStack := undoStack[..|undoStack| - 1];
      SaveCards(now);
    }

    method RedoAction(now: Timestamp)
      requires Valid()
      modifies this`cards, this`undoStack, this`redoStack, this`storage
      ensures Valid()
      ensures HistoryState() == Redo(old(HistoryState()))
      ensures old(redoStack) == [] ==> unchanged(this)
      ensures old(redoStack) != [] ==> storage == Save(old(storage), cards, now)
    {
      if redoStack == [] {
        return;
      }
      undoStack := undoStack + [cards];
      cards := redoStack[|redoStack| - 1];
      redoStack := redoStack[..|redoStack| - 1];
      SaveCards(now);
    }

    // ---------------------------------------------------------------- storage and backups

    method SaveCards(now: Timestamp)
      modifies this`storage
      ensures storage == Save(old(storage), cards, now)
    {
      storage := Storage(Some(cards), AutoBackup(storage.backups, cards, now), Some(now));
    }

    method CreateBackup(now: Timestamp)
      modifies this`storage
      ensures storage == old(storage).(backups := ManualBackup(old(storage.backups), cards, now))
    {
      storage := storage.(backups := ManualBackup(storage.backups, cards, now));
    }

    /** `restoreFromBackup(index)`; a negative index is the default, the newest backup. */
    method RestoreFromBackup(index: int, confirmed: bool, now: Timestamp) returns (outcome: RestoreOutcome)
      requires Valid()
      modifies this`cards, this`undoStack, this`redoStack, this`storage
      ensures Valid()
      ensures outcome == NoBackups <==> old(storage.backups) == []
      ensures outcome == MissingBackup <==> old(storage.backups) != [] && BackupToRestore(old(storage.backups), index).None?
      ensures outcome == Restored <==>
        old(storage.backups) != [] && BackupToRestore(old(storage.backups), index).Some? && confirmed
      ensures outcome != Restored ==> unchanged(this)
      ensures outcome == Restored ==>
        cards == BackupToRestore(old(storage.backups), index).value.cards &&
        undoStack == PushBounded(old(undoStack), old(cards), MaxUndo) && redoStack == [] &&
        storage == Save(old(storage), cards, now)
    {
      if storage.backups == [] {
        return NoBackups;
      }
      var chosen := BackupToRestore(storage.backups, index);
      if chosen.None? {
        return MissingBackup;
      }
      if !confirmed {
        return RestoreDeclined;
      }
      SaveToUndoStack();
      cards := chosen.value.cards;
      SaveCards(now);
      return Restored;
    }

    /** The file reader's `onload` handler of `importData`. */
    method ImportData(file: ImportFile, confirmed: bool, now: Timestamp) returns (outcome: ImportOutcome)
      requires Valid()
      modifies this`cards, this`undoStack, this`redoStack, this`storage
      ensures Valid()
      ensures outcome == ReadError <==> file.Unparsable?
      ensures outcome == InvalidFormat <==> file.Document? && ImportedCards(file).None?
      ensures outcome == Imported <==> ImportedCards(file).Some? && confirmed
      ensures outcome != Imported ==> unchanged(this)
      ensures outcome == Imported ==>
        cards == ImportedCards(file).value &&
        undoStack == PushBounded(old(undoStack), old(cards), MaxUndo) && redoStack == [] &&
        storage == Save(old(storage), cards, now)
    {
      if file.Unparsable? {
        return ReadError;
      }
      var imported := ImportedCards(file);
      if imported.None? {
        return InvalidFormat;
      }
      if !confirmed {
        return ImportDeclined;
      }
      SaveToUndoStack();
      cards := imported.value;
      SaveCards(now);
      return Imported;
    }

    // ---------------------------------------------------------------- reminders

    method SetupReminder(card: Card, now: Timestamp)
      modifies this`reminderTimeouts
      ensures reminderTimeouts == Armed(old(reminderTimeouts), card, now)
    {
      var at := ArmAt(card, now);
      if at.Some? {
        reminderTimeouts := reminderTimeouts[card.id := at.value];
      }
    }

    /** `clearTimeout` and `delete reminderTimeouts[id]`, one id of `ids` at a time. */
    method CancelReminders(ids: set<string>)
      modifies this`reminderTimeouts
      ensures reminderTimeouts == old(reminderTimeouts) - ids
    {
      var pending := ids;
      while pending != {}
        invariant pending <= ids
        invariant reminderTimeouts == old(reminderTimeouts) - (ids - pending)
        decreases pending
      {
        var id :| id in pending;
        reminderTimeouts := reminderTimeouts - {id};
        pending := pending - {id};
      }
    }

    /** One sweep: the cards whose reminder it shows, in collection order. */
    method CheckReminders(now: Timestamp) returns (shown: seq<Card>)
      ensures shown == SweepHits(cards, now)
      ensures forall c :: c in shown ==> c in cards && ReminderTime(c).Some?
    {
      shown := [];
      var i := 0;
      while i < |cards|
        invariant 0 <= i <= |cards|
        invariant shown == SweepHits(cards[..i], now)
      {
        assert cards[..i + 1] == cards[..i] + [cards[i]];
        SweepHitsSnoc(cards[..i], cards[i], now);
        if SweepShows(cards[i], now) {
          shown := shown + [cards[i]];
        }
        i := i + 1;
      }
      assert cards[..i] == cards;
    }

    // ---------------------------------------------------------------- adding and editing

    /** The add form's submit handler. The form's trimmed title must not be empty. */
    method AddNewCard(newId: string, title: string, description: string, priority: Priority, column: string,
                      dueDate: Option<Timestamp>, reminder: Option<int>, formSubtasks: seq<Subtask>,
                      now: Timestamp) returns (added: bool)
      requires Valid()
      modifies this`cards, this`undoStack, this`redoStack, this`storage,
               this`currentTags, this`reminderTimeouts
      ensures Valid()
      ensures added <==> Trim(title) != []
      ensures !added ==> unchanged(this)
      ensures added ==>
        var card := Card(newId, Trim(title), Trim(description), priority, column, dueDate, reminder,
                         old(currentTags), Some(formSubtasks), now, now);
        cards == old(cards) + [card] &&
        undoStack == PushBounded(old(undoStack), old(cards), MaxUndo) && redoStack == [] &&
        storage == Save(old(storage), cards, now) &&
        reminderTimeouts == Armed(old(reminderTimeouts), card, now) &&
        currentTags == []
    {
      var t := Trim(title);
      if t == [] {
        return false;
      }
      var card := Card(newId, t, Trim(description), priority, column, dueDate, reminder,
                       currentTags, Some(formSubtasks), now, now);
      // The card holds its own copy of the tags, so the form's list can be reset first.
      currentTags := [];
      SaveToUndoStack();
      cards := cards + [card];
      SaveCards(now);
      SetupReminder(card, now);
      return true;
    }

    /** Opens the detail view on a card, copying its tags for editing. */
    method ShowCardDetail(cardId: string)
      modifies this`currentCardId, this`detailTags
      ensures FindCard(cards, cardId).None? ==> unchanged(this)
      ensures FindCard(cards, cardId).Some? ==>
        currentCardId == Some(cardId) && detailTags == cards[FindCard(cards, cardId).value].tags
    {
      var k := FindCard(cards, cardId);
      if k.None? {
        return;
      }
      currentCardId := Some(cardId);
      detailTags := cards[k.value].tags;
    }

    method CloseDetailModal()
      modifies this`currentCardId, this`detailTags
      ensures currentCardId == None && detailTags == []
    {
      currentCardId := None;
      detailTags := [];
    }

    /** The detail view's save: the open card takes the form's values and the edited tags. */
    method SaveCardChanges(title: string, description: string, priority: Priority,
                           dueDate: Option<Timestamp>, reminder: Option<int>, now: Timestamp)
      returns (outcome: EditOutcome)
      requires Valid()
      modifies this`cards, this`undoStack, this`redoStack, this`storage,
               this`reminderTimeouts, this`currentCardId, this`detailTags
      ensures Valid()
      ensures outcome == NoOpenCard <==>
        !IsOpen(old(currentCardId)) || FindCard(old(cards), old(currentCardId).value).None?
      ensures outcome == Saved <==>
        IsOpen(old(currentCardId)) && FindCard(old(cards), old(currentCardId).value).Some? && Trim(title) != []
      ensures outcome != Saved ==> unchanged(this)
      ensures outcome == Saved ==>
        var k := FindCard(old(cards), old(currentCardId).value).value;
        var card := old(cards)[k].(title := Trim(title), description := Trim(description), priority := priority,
                                   dueDate := dueDate, reminder := reminder, tags := old(detailTags),
                                   updatedAt := now);
        cards == old(cards)[k := card] &&
        undoStack == PushBounded(old(undoStack), old(cards), MaxUndo) && redoStack == [] &&
        storage == Save(old(storage), cards, now) &&
        reminderTimeouts == Armed(old(reminderTimeouts), card, now) &&
        currentCardId == None && detailTags == []
      ensures Ids(cards) == Ids(old(cards))
      ensures UniqueIds(old(cards)) ==> UniqueIds(cards)
    {
      if !IsOpen(currentCardId) {
        return NoOpenCard;
      }
      var k := FindCard(cards, currentCardId.value);
      if k.None? {
        return NoOpenCard;
      }
      var t := Trim(title);
      if t == [] {
        return EmptyTitle;
      }
      var card := cards[k.value].(title := t, description := Trim(description), priority := priority,
                                  dueDate := dueDate, reminder := reminder, tags := detailTags,
                                  updatedAt := now);
      CloseDetailModal();
      StoreEditedCard(k.value, card, now);
      return Saved;
    }

    /** The rest of the detail view's save once the form is valid: snapshot, put
        the edited card in place of the old one, save, and arm its reminder. */
    method StoreEditedCard(k: nat, card: Card, now: Timestamp)
      requires Valid() && k < |cards| && card.id == cards[k].id
      modifies this`cards, this`undoStack, this`redoStack, this`storage, this`reminderTimeouts
      ensures Valid()
      ensures cards == old(cards)[k := card]
      ensures undoStack == PushBounded(old(undoStack), old(cards), MaxUndo) && redoStack == []
      ensures storage == Save(old(storage), cards, now)
      ensures reminderTimeouts == Armed(old(reminderTimeouts), card, now)
      ensures Ids(cards) == Ids(old(cards))
      ensures UniqueIds(old(cards)) ==> UniqueIds(cards)
    {
      UpdateKeepsIds(cards, k, card);
      SaveToUndoStack();
      cards := cards[k := card];
      SaveCards(now);
      SetupReminder(card, now);
    }

    // ---------------------------------------------------------------- deleting

    /** Deletes every card with this id, cancelling its reminder; an unknown id
        still costs a snapshot and a save. */
    method DeleteCardById(cardId: string, now: Timestamp)
      requires Valid()
      modifies this`cards, this`undoStack, this`redoStack, this`storage,
               this`reminderTimeouts
      ensures Valid()
      ensures cards == RemoveWhere(old(cards), {cardId})
      ensures undoStack == PushBounded(old(undoStack), old(cards), MaxUndo) && redoStack == []
      ensures storage == Save(old(storage), cards, now)
      ensures reminderTimeouts == old(reminderTimeouts) - {cardId}
    {
      CancelReminders({cardId});
      SaveToUndoStack();
      cards := RemoveWhere(cards, {cardId});
      SaveCards(now);
    }

    /** The detail view's delete button. */
    method DeleteCard(confirmed: bool, now: Timestamp)
      requires Valid()
      modifies this`cards, this`undoStack, this`redoStack, this`storage,
               this`reminderTimeouts, this`currentCardId, this`detailTags
      ensures Valid()
      ensures !IsOpen(old(currentCardId)) || !confirmed ==> unchanged(this)
      ensures IsOpen(old(currentCardId)) && confirmed ==>
        cards == RemoveWhere(old(cards), {old(currentCardId).value}) &&
        undoStack == PushBounded(old(undoStack), old(cards), MaxUndo) && redoStack == [] &&
        storage == Save(old(storage), cards, now) &&
        reminderTimeouts == old(reminderTimeouts) - {old(currentCardId).value} &&
        currentCardId == None && detailTags == []
    {
      if !IsOpen(currentCardId) || !confirmed {
        return;
      }
      DeleteCardById(currentCardId.value, now);
      CloseDetailModal();
    }

    method ToggleCardSelection(cardId: string)
      modifies this`selectedCards
      ensures cardId in old(selectedCards) ==> selectedCards == old(selectedCards) - {cardId}
      ensures cardId !in old(selectedCards) ==> selectedCards == old(selectedCards) + {cardId}
    {
      if cardId in selectedCards {
        selectedCards := selectedCards - {cardId};
      } else {
        selectedCards := selectedCards + {cardId};
      }
    }

    method ClearSelection()
      modifies this`selectedCards
      ensures selectedCards == {}
    {
      selectedCards := {};
    }

    /** The bulk delete: one snapshot for the whole batch, every selected card's
        reminder cancelled, the selection cleared. */
    method DeleteSelectedCards(confirmed: bool, now: Timestamp) returns (deleted: bool)
      requires Valid()
      modifies this`cards, this`undoStack, this`redoStack, this`storage,
               this`reminderTimeouts, this`selectedCards
      ensures Valid()
      ensures deleted <==> old(selectedCards) != {} && confirmed
      ensures !deleted ==> unchanged(this)
      ensures deleted ==>
        cards == RemoveWhere(old(cards), old(selectedCards)) &&
        undoStack == PushBounded(old(undoStack), old(cards), MaxUndo) && redoStack == [] &&
        storage == Save(old(storage), cards, now) &&
        reminderTimeouts == old(reminderTimeouts) - old(selectedCards) &&
        selectedCards == {}
    {
      if selectedCards == {} || !confirmed {
        return false;
      }
      var ids := selectedCards;
      SaveToUndoStack();
      CancelReminders(ids);
      cards := RemoveWhere(cards, ids);
      SaveCards(now);
      ClearSelection();
      return true;
    }

    // ---------------------------------------------------------------- moving and copying

    /** The drop handler: `target` is the list under the pointer, `cardShown`
        whether the dragged card's element is on the page. Dropping onto the
        card's own column changes nothing. */
    method Drop(cardId: string, target: Option<string>, cardShown: bool, now: Timestamp) returns (moved: bool)
      requires Valid()
      modifies this`cards, this`undoStack, this`redoStack, this`storage
      ensures Valid()
      ensures moved <==> target.Some? && cardShown && FindCard(old(cards), cardId).Some? &&
                         old(cards)[FindCard(old(cards), cardId).value].column != target.value
      ensures !moved ==> unchanged(this)
      ensures moved ==>
        var k := FindCard(old(cards), cardId).value;
        cards == old(cards)[k := old(cards)[k].(column := target.value, updatedAt := now)] &&
        undoStack == PushBounded(old(undoStack), old(cards), MaxUndo) && redoStack == [] &&
        storage == Save(old(storage), cards, now)
      ensures Ids(cards) == Ids(old(cards))
      ensures UniqueIds(old(cards)) ==> UniqueIds(cards)
    {
      moved := false;
      if target.None? || !cardShown {
        return;
      }
      var k := FindCard(cards, cardId);
      if k.None? || cards[k.value].column == target.value {
        return;
      }
      var card := cards[k.value].(column := target.value, updatedAt := now);
      SaveToUndoStack();
      UpdateKeepsIds(cards, k.value, card);
      cards := cards[k.value := card];
      SaveCards(now);
      moved := true;
    }

    /** Appends a copy under a new id, titled "<title> (Copy)", with a new creation
        instant and the original's `updatedAt`. The snapshot is taken AFTER the
        copy is appended, so it already holds the copy. */
    method DuplicateCard(cardId: string, newId: string, now: Timestamp) returns (duplicated: bool)
      requires Valid()
      modifies this`cards, this`undoStack, this`redoStack, this`storage
      ensures Valid()
      ensures duplicated <==> cardId in Ids(old(cards))
      ensures !duplicated ==> unchanged(this)
      ensures duplicated ==>
        var original := old(cards)[FindCard(old(cards), cardId).value];
        cards == old(cards) + [original.(id := newId, title := original.title + " (Copy)", createdAt := now)] &&
        undoStack == PushBounded(old(undoStack), cards, MaxUndo) && redoStack == [] &&
        storage == Save(old(storage), cards, now)
    {
      var k := FindCard(cards, cardId);
      if k.None? {
        return false;
      }
      var original := cards[k.value];
      cards := cards + [original.(id := newId, title := original.title + " (Copy)", createdAt := now)];
      SaveToUndoStack();
      SaveCards(now);
      return true;
    }

    // ---------------------------------------------------------------- subtasks

    /** Flips one subtask of a card. A card without a subtask list, or without
        that subtask, is left alone. The snapshot follows the change. */
    method ToggleSubtask(cardId: string, subtaskId: string, now: Timestamp) returns (toggled: bool)
      requires Valid()
      modifies this`cards, this`undoStack, this`redoStack, this`storage
      ensures Valid()
      ensures toggled <==>
        var k := FindCard(old(cards), cardId);
        k.Some? && old(cards)[k.value].subtasks.Some? &&
        FindSubtask(old(cards)[k.value].subtasks.value, subtaskId).Some?
      ensures !toggled ==> unchanged(this)
      ensures toggled ==>
        var k := FindCard(old(cards), cardId).value;
        var subs := old(cards)[k].subtasks.value;
        var j := FindSubtask(subs, subtaskId).value;
        cards == old(cards)[k := old(cards)[k].(subtasks := Some(subs[j := subs[j].(completed := !subs[j].completed)]),
                                               updatedAt := now)] &&
        undoStack == PushBounded(old(undoStack), cards, MaxUndo) && redoStack == [] &&
        storage == Save(old(storage), cards, now)
      ensures Ids(cards) == Ids(old(cards))
    {
      var k := FindCard(cards, cardId);
      if k.None? || cards[k.value].subtasks.None? {
        return false;
      }
      var subs := cards[k.value].subtasks.value;
      var j := FindSubtask(subs, subtaskId);
      if j.None? {
        return false;
      }
      var flipped := subs[j.value := subs[j.value].(completed := !subs[j.value].completed)];
      var card := cards[k.value].(subtasks := Some(flipped), updatedAt := now);
      UpdateKeepsIds(cards, k.value, card);
      cards := cards[k.value := card];
      SaveToUndoStack();
      SaveCards(now);
      return true;
    }

    /** Appends a new open subtask with the trimmed text; a card without a list gets one. */
    method AddSubtask(cardId: string, text: string, newId: string, now: Timestamp) returns (added: bool)
      requires Valid()
      modifies this`cards, this`undoStack, this`redoStack, this`storage
      ensures Valid()
      ensures added <==> Trim(text) != [] && cardId in Ids(old(cards))
      ensures !added ==> unchanged(this)
      ensures added ==>
        var k := FindCard(old(cards), cardId).value;
        var subs := old(cards)[k].subtasks.GetOr([]) + [Subtask(newId, Trim(text), false, now)];
        cards == old(cards)[k := old(cards)[k].(subtasks := Some(subs), updatedAt := now)] &&
        undoStack == PushBounded(old(undoStack), cards, MaxUndo) && redoStack == [] &&
        storage == Save(old(storage), cards, now)
      ensures Ids(cards) == Ids(old(cards))
    {
      var t := Trim(text);
      if t == [] {
        return false;
      }
      var k := FindCard(cards, cardId);
      if k.None? {
        return false;
      }
      var subs := cards[k.value].subtasks.GetOr([]) + [Subtask(newId, t, false, now)];
      var card := cards[k.value].(subtasks := Some(subs), updatedAt := now);
      UpdateKeepsIds(cards, k.value, card);
      cards := cards[k.value := card];
      SaveToUndoStack();
      SaveCards(now);
      return true;
    }

    /** Filters a subtask out of a card's list. Only a card without a list is left
        alone: an unknown subtask id still stamps the card, snapshots and saves. */
    method RemoveSubtask(cardId: string, subtaskId: string, now: Timestamp) returns (removed: bool)
      requires Valid()
      modifies this`cards, this`undoStack, this`redoStack, this`storage
      ensures Valid()
      ensures removed <==>
        var k := FindCard(old(cards), cardId);
        k.Some? && old(cards)[k.value].subtasks.Some?
      ensures !removed ==> unchanged(this)
      ensures removed ==>
        var k := FindCard(old(cards), cardId).value;
        var subs := WithoutSubtask(old(cards)[k].subtasks.value, subtaskId);
        cards == old(cards)[k := old(cards)[k].(subtasks := Some(subs), updatedAt := now)] &&
        undoStack == PushBounded(old(undoStack), cards, MaxUndo) && redoStack == [] &&
        storage == Save(old(storage), cards, now)
      ensures Ids(cards) == Ids(old(cards))
    {
      var k := FindCard(cards, cardId);
      if k.None? || cards[k.value].subtasks.None? {
        return false;
      }
      var subs := WithoutSubtask(cards[k.value].subtasks.value, subtaskId);
      var card := cards[k.value].(subtasks := Some(subs), updatedAt := now);
      UpdateKeepsIds(cards, k.value, card);
      cards := cards[k.value := card];
      SaveToUndoStack();
      SaveCards(now);
      return true;
    }

    // ---------------------------------------------------------------- tags

    method AddTag(tag: string)
      modifies this`currentTags
      ensures currentTags == WithTag(old(currentTags), tag)
    {
      if tag !in currentTags {
        currentTags := currentTags + [tag];
      }
    }

    method AddDetailTag(tag: string)
      modifies this`detailTags
      ensures detailTags == WithTag(old(detailTags), tag)
    {
      if tag !in detailTags {
        detailTags := detailTags + [tag];
      }
    }

    method RemoveTag(tag: string)
      modifies this`currentTags
      ensures currentTags == WithoutTag(old(currentTags), tag)
    {
      currentTags := WithoutTag(currentTags, tag);
    }

    method RemoveDetailTag(tag: string)
      modifies this`detailTags
      ensures detailTags == WithoutTag(old(detailTags), tag)
    {
      detailTags := WithoutTag(detailTags, tag);
    }
  }
}
