/** The card collection's entities and the pure operations over it: locating a
    card or subtask by id (`Array.prototype.find`) and the `filter`-based deletions. */
module Cards {
  import opened Collections

  /** Milliseconds since the epoch; the source keeps ISO strings made from the same instants. */
  type Timestamp = int

  datatype Priority = Low | Medium | High

  datatype Subtask = Subtask(id: string, text: string, completed: bool, createdAt: Timestamp)

  /** A card. `dueDate` is the parsed due instant and `reminder` the parsed lead time in
      minutes; `None` stands for the empty form value. `subtasks` is `None` when the
      field is absent, which `removeSubtask` tells apart from an empty list. */
  datatype Card = Card(
    id: string,
    title: string,
    description: string,
    priority: Priority,
    column: string,
    dueDate: Option<Timestamp>,
    reminder: Option<int>,
    tags: seq<string>,
    subtasks: Option<seq<Subtask>>,
    createdAt: Timestamp,
    updatedAt: Timestamp)

  function Ids(cards: seq<Card>): (r: set<string>)
    ensures forall c :: c in cards ==> c.id in r
    ensures forall id :: id in r ==> exists c :: c in cards && c.id == id
  {
    set c | c in cards :: c.id
  }

  /** Every card id occurs once in the collection. */
  predicate UniqueIds(cards: seq<Card>) {
    forall i, j :: 0 <= i < j < |cards| ==> cards[i].id != cards[j].id
  }

  /** `cards.find(c => c.id === id)`, as the index of the first card with that id. */
  function FindCard(cards: seq<Card>, id: string): (r: Option<nat>)
    ensures r.Some? ==> r.value < |cards| && cards[r.value].id == id
    ensures r.Some? ==> forall j :: 0 <= j < r.value ==> cards[j].id != id
    ensures r.None? <==> id !in Ids(cards)
  {
    FirstIndex(cards, (c: Card) => c.id == id)
  }

  /** `subtasks.find(st => st.id === id)`, as an index. */
  function FindSubtask(subtasks: seq<Subtask>, id: string): (r: Option<nat>)
    ensures r.Some? ==> r.value < |subtasks| && subtasks[r.value].id == id
    ensures r.Some? ==> forall j :: 0 <= j < r.value ==> subtasks[j].id != id
    ensures r.None? <==> forall j :: 0 <= j < |subtasks| ==> subtasks[j].id != id
  {
    FirstIndex(subtasks, (st: Subtask) => st.id == id)
  }

  /** `cards.filter(c => !ids.has(c.id))`: the cards whose id is not in `ids`, in order. */
  function RemoveWhere(cards: seq<Card>, ids: set<string>): (r: seq<Card>)
    ensures |r| <= |cards|
    ensures forall c :: c in r <==> c in cards && c.id !in ids
    ensures Ids(cards) !! ids ==> r == cards
  {
    var keep := (c: Card) => c.id !in ids;
    assert Ids(cards) !! ids ==> Filter(cards, keep) == cards by {
      if Ids(cards) !! ids {
        FilterKeepsAll(cards, keep);
      }
    }
    Filter(cards, keep)
  }

  /** `subtasks.filter(st => st.id !== id)`. */
  function WithoutSubtask(subtasks: seq<Subtask>, id: string): (r: seq<Subtask>)
    ensures |r| <= |subtasks|
    ensures forall st :: st in r <==> st in subtasks && st.id != id
  {
    Filter(subtasks, (st: Subtask) => st.id != id)
  }

  /** Deleting distributes over concatenation, so the surviving cards keep their order. */
  lemma RemoveWhereAppend(a: seq<Card>, b: seq<Card>, ids: set<string>)
    ensures RemoveWhere(a + b, ids) == RemoveWhere(a, ids) + RemoveWhere(b, ids)
  {
    FilterAppend(a, b, (c: Card) => c.id !in ids);
  }

  /** Deleting one set of ids and then another is deleting their union in one pass,
      so a bulk delete removes what the single deletes of its ids would. */
  lemma RemoveWhereTwice(cards: seq<Card>, first: set<string>, second: set<string>)
    ensures RemoveWhere(RemoveWhere(cards, first), second) == RemoveWhere(cards, first + second)
  {
    FilterFilter(cards, (c: Card) => c.id !in first, (c: Card) => c.id !in second,
                 (c: Card) => c.id !in first + second);
  }

  /** Appending a card with a fresh id and then deleting that id gives back the collection. */
  lemma AddThenRemove(cards: seq<Card>, card: Card)
    requires card.id !in Ids(cards)
    ensures RemoveWhere(cards + [card], {card.id}) == cards
  {
    RemoveWhereAppend(cards, [card], {card.id});
    assert RemoveWhere([card], {card.id}) == [];
  }

  /** Deleting keeps ids unique. */
  lemma {:induction false} RemoveWhereKeepsUniqueIds(cards: seq<Card>, ids: set<string>)
    requires UniqueIds(cards)
    ensures UniqueIds(RemoveWhere(cards, ids))
  {
    if cards != [] {
      var rest := RemoveWhere(cards[1..], ids);
      RemoveWhereKeepsUniqueIds(cards[1..], ids);
      assert cards == [cards[0]] + cards[1..];
      RemoveWhereAppend([cards[0]], cards[1..], ids);
      if cards[0].id !in ids {
        assert RemoveWhere(cards, ids) == [cards[0]] + rest;
        assert cards[0].id !in Ids(rest) by {
          assert cards[0].id !in Ids(cards[1..]);
        }
        UniqueIdsCons(cards[0], rest);
      } else {
        assert RemoveWhere([cards[0]], ids) == [];
      }
    }
  }

  lemma UniqueIdsCons(card: Card, rest: seq<Card>)
    requires UniqueIds(rest) && card.id !in Ids(rest)
    ensures UniqueIds([card] + rest)
  {
    var s := [card] + rest;
    forall i, j | 0 <= i < j < |s| ensures s[i].id != s[j].id {
      assert s[j] == rest[j - 1];
      if i > 0 {
        assert s[i] == rest[i - 1];
      }
    }
  }

  /** Replacing a card by one with the same id leaves the id set alone and keeps ids unique. */
  lemma UpdateKeepsIds(cards: seq<Card>, k: nat, card: Card)
    requires k < |cards| && card.id == cards[k].id
    ensures Ids(cards[k := card]) == Ids(cards)
    ensures UniqueIds(cards) ==> UniqueIds(cards[k := card])
  {
    var s := cards[k := card];
    forall id | id in Ids(cards) ensures id in Ids(s) {
      var c :| c in cards && c.id == id;
      var i :| 0 <= i < |cards| && cards[i] == c;
      assert s[i].id == id;
    }
    forall id | id in Ids(s) ensures id in Ids(cards) {
      var c :| c in s && c.id == id;
      var i :| 0 <= i < |s| && s[i] == c;
      assert cards[i].id == id;
    }
  }

  /** Appending a card whose id is new keeps ids unique. */
  lemma AppendKeepsUniqueIds(cards: seq<Card>, card: Card)
    requires UniqueIds(cards) && card.id !in Ids(cards)
    ensures UniqueIds(cards + [card])
  {
    var s := cards + [card];
    forall i, j | 0 <= i < j < |s| ensures s[i].id != s[j].id {
      if j == |cards| {
        assert s[i] in cards;
      }
    }
  }
}
