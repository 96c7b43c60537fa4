/** The render order of `loadCards`: a copy of the collection sorted with the
    comparator `rank(b) - rank(a)` (high = 3, medium = 2, low = 1). The sort is
    stable, as `Array.prototype.sort` is, so cards of equal priority keep their
    order in the collection. The stored collection itself is never reordered. */
module Ordering {
  import opened Collections
  import opened Cards

  function Rank(p: Priority): (r: int)
    ensures 1 <= r <= 3
    ensures p == High ==> r == 3
    ensures p == Medium ==> r == 2
    ensures p == Low ==> r == 1
  {
    match p
    case High => 3
    case Medium => 2
    case Low => 1
  }

  /** The comparator handed to `sort`: negative when `a` must come before `b`,
      zero when their priorities are equal. */
  function Compare(a: Card, b: Card): (r: int)
    ensures r < 0 <==> Rank(a.priority) > Rank(b.priority)
    ensures r == 0 <==> a.priority == b.priority
  {
    Rank(b.priority) - Rank(a.priority)
  }

  /** Priority rank never increases along `s`. */
  predicate ByPriority(s: seq<Card>) {
    forall i, j :: 0 <= i < j < |s| ==> Rank(s[i].priority) >= Rank(s[j].priority)
  }

  /** The cards of `s` whose priority has rank `rank`, in their order in `s`. */
  function OfRank(s: seq<Card>, rank: int): seq<Card> {
    Filter(s, (c: Card) => Rank(c.priority) == rank)
  }

  /** Inserts `x` in front of the first card that the comparator does not rank
      strictly before it, i.e. after every card of strictly higher priority. */
  function Insert(x: Card, sorted: seq<Card>): (r: seq<Card>)
    ensures multiset(r) == multiset(sorted) + multiset{x}
  {
    if sorted == [] || Compare(x, sorted[0]) <= 0 then
      [x] + sorted
    else
      assert sorted == [sorted[0]] + sorted[1..];
      [sorted[0]] + Insert(x, sorted[1..])
  }

  /** Inserting into a sequence in priority order keeps it in priority order. */
  lemma {:induction false} InsertKeepsOrder(x: Card, sorted: seq<Card>)
    requires ByPriority(sorted)
    ensures ByPriority(Insert(x, sorted))
  {
    if sorted == [] {
    } else if Compare(x, sorted[0]) <= 0 {
      forall c | c in sorted ensures Rank(x.priority) >= Rank(c.priority) {
        var k :| 0 <= k < |sorted| && sorted[k] == c;
        assert Rank(sorted[0].priority) >= Rank(sorted[k].priority) || k == 0;
      }
      ConsByPriority(x, sorted);
    } else {
      var rest := Insert(x, sorted[1..]);
      ByPriorityTail(sorted);
      InsertKeepsOrder(x, sorted[1..]);
      HeadOutranksInserted(x, sorted, rest);
      ConsByPriority(sorted[0], rest);
    }
  }

  /** When `x` goes after the head of a sorted sequence, the head still outranks
      every card of the tail with `x` inserted. */
  lemma HeadOutranksInserted(x: Card, sorted: seq<Card>, rest: seq<Card>)
    requires ByPriority(sorted) && sorted != [] && Compare(x, sorted[0]) > 0
    requires multiset(rest) == multiset(sorted[1..]) + multiset{x}
    ensures forall c :: c in rest ==> Rank(sorted[0].priority) >= Rank(c.priority)
  {
    forall c | c in rest ensures Rank(sorted[0].priority) >= Rank(c.priority) {
      assert c in multiset(rest);
      if c != x {
        assert c in multiset(sorted[1..]);
        var k :| 0 <= k < |sorted[1..]| && sorted[1..][k] == c;
        assert sorted[k + 1] == c;
      }
    }
  }

  lemma ConsByPriority(head: Card, rest: seq<Card>)
    requires ByPriority(rest)
    requires forall c :: c in rest ==> Rank(head.priority) >= Rank(c.priority)
    ensures ByPriority([head] + rest)
  {
    var s := [head] + rest;
    forall i, j | 0 <= i < j < |s| ensures Rank(s[i].priority) >= Rank(s[j].priority) {
      assert s[j] == rest[j - 1];
      if i > 0 {
        assert s[i] == rest[i - 1];
      } else {
        assert s[j] in rest;
      }
    }
  }

  /** The sorted copy `loadCards` renders from: a permutation of `cards` in
      non-increasing priority rank. */
  function DisplayOrder(cards: seq<Card>): (r: seq<Card>)
    ensures multiset(r) == multiset(cards)
    ensures ByPriority(r)
  {
    if cards == [] then []
    else
      assert cards == [cards[0]] + cards[1..];
      var rest := DisplayOrder(cards[1..]);
      InsertKeepsOrder(cards[0], rest);
      Insert(cards[0], rest)
  }

  /** Inserting `x` adds it in front of the cards of its own rank and leaves the other ranks alone. */
  lemma {:induction false} InsertOfRank(x: Card, sorted: seq<Card>, rank: int)
    ensures OfRank(Insert(x, sorted), rank) ==
      if Rank(x.priority) == rank then [x] + OfRank(sorted, rank) else OfRank(sorted, rank)
  {
    if sorted != [] && Compare(x, sorted[0]) > 0 {
      InsertOfRank(x, sorted[1..], rank);
    }
  }

  /** Stability: for every rank, the cards of that rank appear in the display
      order exactly as they appear in the collection. */
  lemma {:induction false} DisplayOrderStable(cards: seq<Card>, rank: int)
    ensures OfRank(DisplayOrder(cards), rank) == OfRank(cards, rank)
  {
    if cards != [] {
      DisplayOrderStable(cards[1..], rank);
      InsertOfRank(cards[0], DisplayOrder(cards[1..]), rank);
    }
  }

  /** A sequence in priority order is its high cards, then its medium cards, then its low cards. */
  lemma {:induction false} ByPriorityIsBuckets(s: seq<Card>)
    requires ByPriority(s)
    ensures s == OfRank(s, 3) + OfRank(s, 2) + OfRank(s, 1)
  {
    if s != [] {
      ByPriorityTail(s);
      ByPriorityIsBuckets(s[1..]);
      if Rank(s[0].priority) < 3 {
        NoneAbove(s, 3);
      }
      if Rank(s[0].priority) < 2 {
        NoneAbove(s, 2);
      }
      BucketsCons(s[0], s[1..]);
      assert s == [s[0]] + s[1..];
    }
  }

  lemma ByPriorityTail(s: seq<Card>)
    requires ByPriority(s) && s != []
    ensures ByPriority(s[1..])
  {
    var t := s[1..];
    forall i, j | 0 <= i < j < |t| ensures Rank(t[i].priority) >= Rank(t[j].priority) {
      assert t[i] == s[i + 1] && t[j] == s[j + 1];
    }
  }

  lemma BucketsCons(head: Card, t: seq<Card>)
    requires t == OfRank(t, 3) + OfRank(t, 2) + OfRank(t, 1)
    requires Rank(head.priority) < 3 ==> OfRank(t, 3) == []
    requires Rank(head.priority) < 2 ==> OfRank(t, 2) == []
    ensures [head] + t == OfRank([head] + t, 3) + OfRank([head] + t, 2) + OfRank([head] + t, 1)
  {
    var a, b, c := OfRank(t, 3), OfRank(t, 2), OfRank(t, 1);
    OfRankCons(head, t, 3);
    OfRankCons(head, t, 2);
    OfRankCons(head, t, 1);
    match head.priority
    case High =>
      JoinFront(head, a, b, c);
    case Medium =>
      JoinMiddle(head, a, b, c);
    case Low =>
      JoinBack(head, a, b, c);
  }

  lemma JoinFront(head: Card, a: seq<Card>, b: seq<Card>, c: seq<Card>)
    ensures [head] + (a + b + c) == ([head] + a) + b + c
  {
  }

  lemma JoinMiddle(head: Card, a: seq<Card>, b: seq<Card>, c: seq<Card>)
    requires a == []
    ensures [head] + (a + b + c) == a + ([head] + b) + c
  {
    assert a + b + c == b + c;
  }

  lemma JoinBack(head: Card, a: seq<Card>, b: seq<Card>, c: seq<Card>)
    requires a == [] && b == []
    ensures [head] + (a + b + c) == a + b + ([head] + c)
  {
    assert a + b + c == c;
  }

  lemma OfRankCons(head: Card, t: seq<Card>, rank: int)
    ensures OfRank([head] + t, rank) ==
      if Rank(head.priority) == rank then [head] + OfRank(t, rank) else OfRank(t, rank)
  {
    assert ([head] + t)[1..] == t;
  }

  /** In a sequence in priority order, nothing after the first card outranks it. */
  lemma NoneAbove(s: seq<Card>, rank: int)
    requires ByPriority(s) && s != [] && Rank(s[0].priority) < rank
    ensures OfRank(s[1..], rank) == []
  {
    var t := s[1..];
    forall k | 0 <= k < |t| ensures Rank(t[k].priority) != rank {
      assert s[k + 1] == t[k];
    }
    FilterKeepsNone(t, (c: Card) => Rank(c.priority) == rank);
  }

  /** The display order is the unique stable sort: all high cards, then all
      medium, then all low, each group in collection order. */
  lemma DisplayOrderIsBuckets(cards: seq<Card>)
    ensures DisplayOrder(cards) == OfRank(cards, 3) + OfRank(cards, 2) + OfRank(cards, 1)
  {
    ByPriorityIsBuckets(DisplayOrder(cards));
    DisplayOrderStable(cards, 3);
    DisplayOrderStable(cards, 2);
    DisplayOrderStable(cards, 1);
  }
}
