/**
 * The upcoming-payments view: the records whose renewal instant falls in the
 * closed window from now to seven days later, in list order.
 */
module Upcoming {
  import opened Wrappers
  import opened Records
  import Seqs

  const DAY_MS: int := 24 * 60 * 60 * 1000
  /** `next7Days` is now with its date moved seven days on. */
  const WINDOW_MS: int := 7 * DAY_MS

  /**
   * Whether a renewal instant (milliseconds; `None` for an invalid date, whose
   * comparisons are all false) lies in `[now, now + WINDOW_MS]`.
   */
  predicate InWindow(instant: Option<int>, now: int) {
    instant.Some? && now <= instant.value <= now + WINDOW_MS
  }

  /** A record is due when its parsed renewal date is in the window. */
  predicate IsDue(x: Subscription, parse: string -> Option<int>, now: int) {
    InWindow(parse(x.renewalDate), now)
  }

  /** The filter callback of the view, as a function value. */
  function DueTest(parse: string -> Option<int>, now: int): Subscription -> bool {
    (x: Subscription) => IsDue(x, parse, now)
  }

  /**
   * The records due in the next seven days: exactly the due records of the
   * list, empty exactly when none is due.
   */
  function Upcoming(subs: seq<Subscription>, parse: string -> Option<int>, now: int): (r: seq<Subscription>)
    ensures |r| <= |subs|
    ensures forall x :: x in r <==> x in subs && IsDue(x, parse, now)
    ensures r == [] <==> forall x :: x in subs ==> !IsDue(x, parse, now)
  {
    Seqs.FilterMembers(subs, DueTest(parse, now));
    var r := Seqs.Filter(subs, DueTest(parse, now));
    assert r != [] ==> exists x :: x in subs && IsDue(x, parse, now) by {
      if r != [] {
        assert r[0] in r;
      }
    }
    r
  }

  /** The filter keeps list order: it distributes over concatenation. */
  lemma UpcomingConcat(a: seq<Subscription>, b: seq<Subscription>, parse: string -> Option<int>, now: int)
    ensures Upcoming(a + b, parse, now) == Upcoming(a, parse, now) + Upcoming(b, parse, now)
  {
    Seqs.FilterConcat(a, b, DueTest(parse, now));
  }

  /** Appending a record to the list appends it to the result exactly when it is due. */
  lemma UpcomingAppend(s: seq<Subscription>, x: Subscription, parse: string -> Option<int>, now: int)
    ensures Upcoming(s + [x], parse, now) == Upcoming(s, parse, now) + (if IsDue(x, parse, now) then [x] else [])
  {
    UpcomingConcat(s, [x], parse, now);
    Seqs.FilterSingle(x, DueTest(parse, now));
  }

  /** What the view shows: a "none" message, or the due records as cards. */
  datatype View = NoneDue | Cards(records: seq<Subscription>)

  /**
   * The view shows "none" exactly when no record is due, and otherwise the
   * non-empty order-preserving list of due records.
   */
  function ViewOf(subs: seq<Subscription>, parse: string -> Option<int>, now: int): (v: View)
    ensures v.NoneDue? <==> forall x :: x in subs ==> !IsDue(x, parse, now)
    ensures v.Cards? ==> v.records != [] && v.records == Upcoming(subs, parse, now)
    ensures subs == [] ==> v == NoneDue
  {
    var up := Upcoming(subs, parse, now);
    if |up| == 0 then NoneDue else Cards(up)
  }

  /**
   * Four records dated today, today + 7, today + 8 and yesterday, with
   * "today" the UTC date at `now` and each date read as UTC midnight of its
   * day, seen at an instant strictly later than today's UTC midnight: only
   * the one dated today + 7 is shown, because the comparison is between
   * instants and today's midnight already lies in the past.
   */
  lemma DayBoundaries(
    a: Subscription, b: Subscription, c: Subscription, d: Subscription,
    parse: string -> Option<int>, midnight: int, now: int)
    requires midnight < now < midnight + DAY_MS
    requires parse(a.renewalDate) == Some(midnight)
    requires parse(b.renewalDate) == Some(midnight + 7 * DAY_MS)
    requires parse(c.renewalDate) == Some(midnight + 8 * DAY_MS)
    requires parse(d.renewalDate) == Some(midnight - DAY_MS)
    ensures Upcoming([a, b, c, d], parse, now) == [b]
  {
    var due := DueTest(parse, now);
    assert !due(a) && due(b) && !due(c) && !due(d);
    Seqs.FilterSingle(a, due);
    Seqs.FilterSingle(b, due);
    Seqs.FilterSingle(c, due);
    Seqs.FilterSingle(d, due);
    Seqs.FilterConcat([a], [b], due);
    Seqs.FilterConcat([c], [d], due);
    Seqs.FilterConcat([a, b], [c, d], due);
    assert [a] + [b] == [a, b] && [c] + [d] == [c, d];
    assert [a, b] + [c, d] == [a, b, c, d];
  }

  /** With `now` exactly at UTC midnight, a record dated today is shown too. */
  lemma TodayAtMidnight(a: Subscription, parse: string -> Option<int>, midnight: int)
    requires parse(a.renewalDate) == Some(midnight)
    ensures Upcoming([a], parse, midnight) == [a]
  {
  }
}
