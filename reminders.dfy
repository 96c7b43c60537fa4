/** Reminder arithmetic in integer milliseconds: the reminder instant of a card,
    whether `setupReminder` arms a one-shot timer for it, and which cards the
    minute-by-minute `checkReminders` sweep shows. */
module Reminders {
  import opened Collections
  import opened Cards

  /** `60 * 1000`: the lead time is given in minutes. */
  const MillisPerMinute: int := 60000
  /** The sweep shows a reminder whose instant is less than this far from now, either side. */
  const SweepWindow: int := 60000
  /** The sweep runs every `SweepPeriod` milliseconds (`setInterval(checkReminders, 60000)`). */
  const SweepPeriod: int := 60000

  /** `due - minutes * 60 * 1000`, present only when the card has both a due date and a lead time. */
  function ReminderTime(card: Card): (r: Option<Timestamp>)
    ensures r.Some? <==> card.dueDate.Some? && card.reminder.Some?
    ensures r.Some? ==> card.dueDate.value - r.value == card.reminder.value * MillisPerMinute
  {
    if card.dueDate.Some? && card.reminder.Some? then
      Some(card.dueDate.value - card.reminder.value * MillisPerMinute)
    else None
  }

  /** The instant `setupReminder` arms a timer for: the reminder instant, only when
      it is strictly later than `now`. */
  function ArmAt(card: Card, now: Timestamp): (r: Option<Timestamp>)
    ensures r.Some? ==> r.value > now && ReminderTime(card) == r
    ensures r.None? <==> ReminderTime(card).None? || ReminderTime(card).value <= now
  {
    match ReminderTime(card)
    case Some(t) => if t > now then Some(t) else None
    case None => None
  }

  /** The timer table after `setupReminder(card)`: the card's entry is replaced
      when a timer is armed, and the table is left alone otherwise (an earlier
      entry for the same card is not cleared). */
  function Armed(timeouts: map<string, Timestamp>, card: Card, now: Timestamp): (r: map<string, Timestamp>)
    ensures ArmAt(card, now).Some? ==> card.id in r && r[card.id] == ArmAt(card, now).value
    ensures ArmAt(card, now).Some? ==> r.Keys == timeouts.Keys + {card.id}
    ensures ArmAt(card, now).None? ==> r == timeouts
    ensures forall id :: id in timeouts && id != card.id ==> id in r && r[id] == timeouts[id]
  {
    match ArmAt(card, now)
    case Some(t) => timeouts[card.id := t]
    case None => timeouts
  }

  function Abs(x: int): int {
    if x < 0 then -x else x
  }

  /** `Math.abs(reminderTime - now) < 60000` for a card with a reminder. */
  predicate SweepShows(card: Card, now: Timestamp) {
    ReminderTime(card).Some? && Abs(ReminderTime(card).value - now) < SweepWindow
  }

  /** The cards one sweep at `now` shows, in collection order. */
  function SweepHits(cards: seq<Card>, now: Timestamp): (r: seq<Card>)
    ensures forall c :: c in r <==> c in cards && SweepShows(c, now)
  {
    Filter(cards, (c: Card) => SweepShows(c, now))
  }

  /** One more card extends the sweep's hits by that card exactly when the sweep shows it. */
  lemma SweepHitsSnoc(cards: seq<Card>, card: Card, now: Timestamp)
    ensures SweepHits(cards + [card], now) ==
      SweepHits(cards, now) + (if SweepShows(card, now) then [card] else [])
  {
    FilterAppend(cards, [card], (c: Card) => SweepShows(c, now));
  }

  /** The instant of the `k`-th sweep counted from the sweep at `first`. */
  function SweepAt(first: Timestamp, k: int): Timestamp {
    first + k * SweepPeriod
  }

  /** Which of the minute sweeps show a reminder: with `tick` the last sweep at
      or before the reminder instant, the sweep at `tick` always shows it, the
      next one shows it again exactly when the instant falls strictly between
      the two, and no other sweep ever shows it. So the sweep alone delivers a
      reminder once or twice, never zero times and never three. */
  lemma SweepsAroundInstant(card: Card, tick: Timestamp)
    requires ReminderTime(card).Some?
    requires tick <= ReminderTime(card).value < tick + SweepPeriod
    ensures forall k :: SweepShows(card, SweepAt(tick, k)) <==>
      k == 0 || (k == 1 && tick < ReminderTime(card).value)
  {
    var t := ReminderTime(card).value;
    forall k ensures SweepShows(card, SweepAt(tick, k)) <==> k == 0 || (k == 1 && tick < t) {
      if k >= 2 {
        assert SweepAt(tick, k) >= tick + 2 * SweepPeriod;
      } else if k <= -1 {
        assert SweepAt(tick, k) <= tick - SweepPeriod;
      }
    }
  }

  /** An armed timer and the sweep both deliver the same reminder: a card of the
      collection that `setupReminder` arms a timer for is among the cards the
      sweep running at the timer's instant shows. */
  lemma ArmedCardSwept(cards: seq<Card>, card: Card, now: Timestamp)
    requires card in cards && ArmAt(card, now).Some?
    ensures card in SweepHits(cards, ArmAt(card, now).value)
  {
  }
}
