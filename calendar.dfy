/** The mock calendar: an event store with append, clear, and an inclusive
    range query sorted by start. Times are whole minutes since an epoch. */
module Calendar {
  import opened Wrappers

  /** A stored event. `end` is `start + duration`. */
  datatype Event = Event(title: string, start: int, end: int, duration: int)

  /** The store file: absent, not valid JSON, or a list of events. */
  datatype StoreFile = Missing | Malformed | Stored(events: seq<Event>)

  /** `_load_calendar`: a missing or malformed file reads as no events. */
  function Load(f: StoreFile): (r: seq<Event>)
    ensures f.Stored? ==> r == f.events
    ensures !f.Stored? ==> r == []
  {
    if f.Stored? then f.events else []
  }

  const MinutesPerDay: int := 1440

  /** The upper bound `end_date`; `hasTime` is whether its text contains 'T'.
      Without a 'T' (a date-only string, or a time written after a space) the
      bound extends to the last minute of that day. */
  datatype EndBound = EndBound(at: int, hasTime: bool)

  /** The last instant the upper bound admits, at minute precision. */
  function UpperLimit(b: EndBound): (r: int)
    ensures b.hasTime ==> r == b.at
    ensures !b.hasTime ==> b.at <= r && r - r % MinutesPerDay == b.at - b.at % MinutesPerDay &&
                           r % MinutesPerDay == MinutesPerDay - 1
  {
    if b.hasTime then b.at else b.at - b.at % MinutesPerDay + (MinutesPerDay - 1)
  }

  /** `start <= e.start <= end`, an absent bound being unbounded. */
  predicate InRange(e: Event, lo: Option<int>, hi: Option<EndBound>) {
    (lo.None? || lo.value <= e.start) && (hi.None? || e.start <= UpperLimit(hi.value))
  }

  /** The events that `keep` accepts, in order. */
  function Select(xs: seq<Event>, keep: Event -> bool): (r: seq<Event>)
    ensures |r| <= |xs|
  {
    if |xs| == 0 then [] else (if keep(xs[0]) then [xs[0]] else []) + Select(xs[1..], keep)
  }

  /** The events with start `t`, in order. */
  function WithStart(xs: seq<Event>, t: int): seq<Event> {
    Select(xs, (e: Event) => e.start == t)
  }

  /** The list comprehension of `list_events`. */
  function Filtered(xs: seq<Event>, lo: Option<int>, hi: Option<EndBound>): seq<Event> {
    Select(xs, (e: Event) => InRange(e, lo, hi))
  }

  predicate SortedByStart(xs: seq<Event>) {
    forall i, j :: 0 <= i < j < |xs| ==> xs[i].start <= xs[j].start
  }

  /** Puts `x` after every event that starts no later than it. */
  function Insert(ys: seq<Event>, x: Event): seq<Event> {
    if |ys| == 0 then [x]
    else if ys[0].start > x.start then [x] + ys
    else [ys[0]] + Insert(ys[1..], x)
  }

  /** `sorted(..., key=start)`: a stable sort by start. */
  function SortByStart(xs: seq<Event>): seq<Event> {
    if |xs| == 0 then []
    else Insert(SortByStart(xs[..|xs| - 1]), xs[|xs| - 1])
  }

  /** `list_events` over the events `xs`. */
  function Listed(xs: seq<Event>, lo: Option<int>, hi: Option<EndBound>): seq<Event> {
    SortByStart(Filtered(xs, lo, hi))
  }

  // Properties of the filter and the sort

  lemma {:induction false} SelectMember(xs: seq<Event>, keep: Event -> bool, x: Event)
    ensures x in Select(xs, keep) <==> x in xs && keep(x)
  {
    if |xs| > 0 {
      SelectMember(xs[1..], keep, x);
      assert x in xs <==> x == xs[0] || x in xs[1..];
    }
  }

  lemma {:induction false} SelectAppend(a: seq<Event>, b: seq<Event>, keep: Event -> bool)
    ensures Select(a + b, keep) == Select(a, keep) + Select(b, keep)
  {
    if |a| == 0 {
      assert a + b == b;
    } else {
      var h := if keep(a[0]) then [a[0]] else [];
      assert (a + b)[0] == a[0];
      assert (a + b)[1..] == a[1..] + b;
      SelectAppend(a[1..], b, keep);
      calc {
        Select(a + b, keep);
        h + Select(a[1..] + b, keep);
        h + (Select(a[1..], keep) + Select(b, keep));
        (h + Select(a[1..], keep)) + Select(b, keep);
      }
    }
  }

  /** Insertion adds exactly the event. */
  lemma {:induction false} InsertPerm(ys: seq<Event>, x: Event)
    ensures multiset(Insert(ys, x)) == multiset(ys) + multiset{x}
  {
    if |ys| > 0 && ys[0].start <= x.start {
      InsertPerm(ys[1..], x);
      assert ys == [ys[0]] + ys[1..];
    }
  }

  /** The sort is a permutation. */
  lemma {:induction false} SortPerm(xs: seq<Event>)
    ensures multiset(SortByStart(xs)) == multiset(xs)
  {
    if |xs| > 0 {
      var pre := xs[..|xs| - 1];
      assert xs == pre + [xs[|xs| - 1]];
      SortPerm(pre);
      InsertPerm(SortByStart(pre), xs[|xs| - 1]);
    }
  }

  lemma {:induction false} InsertSorted(ys: seq<Event>, x: Event)
    requires SortedByStart(ys)
    ensures SortedByStart(Insert(ys, x))
  {
    if |ys| > 0 && ys[0].start <= x.start {
      InsertSorted(ys[1..], x);
      var r := Insert(ys[1..], x);
      assert forall e | e in r :: e in ys[1..] || e == x by {
        InsertPerm(ys[1..], x);
        forall e | e in r ensures e in ys[1..] || e == x {
          assert e in multiset(r);
        }
      }
      forall j | 0 <= j < |r| ensures ys[0].start <= r[j].start {
        assert r[j] in r;
        if r[j] in ys[1..] {
          var k :| 0 <= k < |ys[1..]| && ys[1..][k] == r[j];
          assert ys[k + 1] == r[j];
        }
      }
    }
  }

  /** Inserting `x` puts it after the events with its start that were there. */
  lemma {:induction false} InsertStable(ys: seq<Event>, x: Event, t: int)
    requires SortedByStart(ys)
    ensures WithStart(Insert(ys, x), t) == WithStart(ys, t) + (if x.start == t then [x] else [])
  {
    var tail := if x.start == t then [x] else [];
    if |ys| == 0 {
      assert [x][1..] == [];
    } else if ys[0].start > x.start {
      assert ([x] + ys)[1..] == ys;
      if x.start == t {
        WithStartAbove(ys, t);
      }
    } else {
      var rest := Insert(ys[1..], x);
      assert SortedByStart(ys[1..]);
      InsertStable(ys[1..], x, t);
      assert ([ys[0]] + rest)[1..] == rest;
      WithStartCons([ys[0]] + rest, t);
      WithStartCons(ys, t);
      var h := if ys[0].start == t then [ys[0]] else [];
      calc {
        WithStart(Insert(ys, x), t);
        WithStart([ys[0]] + rest, t);
        h + WithStart(rest, t);
        h + (WithStart(ys[1..], t) + tail);
        (h + WithStart(ys[1..], t)) + tail;
        WithStart(ys, t) + tail;
      }
    }
  }

  lemma WithStartCons(ys: seq<Event>, t: int)
    requires |ys| > 0
    ensures WithStart(ys, t) == (if ys[0].start == t then [ys[0]] else []) + WithStart(ys[1..], t)
  {
  }

  /** No event starts at `t` when all start later. */
  lemma {:induction false} WithStartAbove(ys: seq<Event>, t: int)
    requires forall i :: 0 <= i < |ys| ==> ys[i].start > t
    ensures WithStart(ys, t) == []
  {
    if |ys| > 0 {
      WithStartAbove(ys[1..], t);
    }
  }

  /** The sort is ordered by start. */
  lemma {:induction false} SortSorted(xs: seq<Event>)
    ensures SortedByStart(SortByStart(xs))
  {
    if |xs| > 0 {
      SortSorted(xs[..|xs| - 1]);
      InsertSorted(SortByStart(xs[..|xs| - 1]), xs[|xs| - 1]);
    }
  }

  lemma WithStartAppend(a: seq<Event>, b: seq<Event>, t: int)
    ensures WithStart(a + b, t) == WithStart(a, t) + WithStart(b, t)
  {
    SelectAppend(a, b, (e: Event) => e.start == t);
  }

  /** The sort is stable: events with the same start keep their order. */
  lemma {:induction false} SortStable(xs: seq<Event>, t: int)
    ensures WithStart(SortByStart(xs), t) == WithStart(xs, t)
  {
    if |xs| > 0 {
      var pre := xs[..|xs| - 1];
      var x := xs[|xs| - 1];
      assert xs == pre + [x];
      var tail := if x.start == t then [x] else [];
      SortStable(pre, t);
      SortSorted(pre);
      InsertStable(SortByStart(pre), x, t);
      WithStartAppend(pre, [x], t);
      assert WithStart([x], t) == tail by {
        assert [x][1..] == [];
      }
      calc {
        WithStart(SortByStart(xs), t);
        WithStart(Insert(SortByStart(pre), x), t);
        WithStart(SortByStart(pre), t) + tail;
        WithStart(pre, t) + tail;
        WithStart(pre + [x], t);
      }
    }
  }

  /** `list_events` returns exactly the events whose start lies in the
      inclusive range, each as often as stored, sorted by start, with events
      of equal start in stored order. */
  lemma ListedSpec(xs: seq<Event>, lo: Option<int>, hi: Option<EndBound>)
    ensures var r := Listed(xs, lo, hi);
      multiset(r) == multiset(Filtered(xs, lo, hi)) && SortedByStart(r) &&
      (forall e :: e in r <==> e in xs && InRange(e, lo, hi)) &&
      (forall t :: WithStart(r, t) == WithStart(Filtered(xs, lo, hi), t))
  {
    var f := Filtered(xs, lo, hi);
    var r := Listed(xs, lo, hi);
    SortSorted(f);
    SortPerm(f);
    forall e ensures e in r <==> e in xs && InRange(e, lo, hi) {
      assert e in r <==> e in multiset(r);
      assert e in f <==> e in multiset(f);
      SelectMember(xs, (e: Event) => InRange(e, lo, hi), e);
    }
    forall t ensures WithStart(r, t) == WithStart(f, t) {
      SortStable(f, t);
    }
  }

  /** Without bounds every stored event is listed. */
  lemma {:induction false} ListedUnbounded(xs: seq<Event>)
    ensures multiset(Listed(xs, None, None)) == multiset(xs)
  {
    assert Filtered(xs, None, None) == xs by {
      SelectAll(xs, (e: Event) => InRange(e, None, None));
    }
    SortPerm(xs);
  }

  lemma {:induction false} SelectAll(xs: seq<Event>, keep: Event -> bool)
    requires forall e :: keep(e)
    ensures Select(xs, keep) == xs
  {
    if |xs| > 0 {
      SelectAll(xs[1..], keep);
    }
  }

  /** An upper bound without 'T' admits every event starting on that day. */
  lemma DateOnlyEndCoversDay(e: Event, day: int)
    requires day % MinutesPerDay == 0 && day <= e.start < day + MinutesPerDay
    ensures InRange(e, None, Some(EndBound(day, false)))
    ensures !InRange(e, None, Some(EndBound(day, true))) <==> e.start > day
  {
  }

  // ---------------------------------------------------------------------
  // The store

  const StartTimeError: string := "start_time must be ISO format, e.g. '2025-11-05T10:00'"

  /** The default `duration_minutes` of `create_event`. */
  const DefaultDuration: int := 60

  /** The event store behind the calendar tools. */
  class Calendar {
    var file: StoreFile

    constructor(f: StoreFile)
      ensures file == f
    {
      file := f;
    }

    /** The events currently stored. */
    function Events(): seq<Event>
      reads this
    {
      Load(file)
    }

    /** `list_events`: the stored events in the range, sorted by start. */
    function ListEvents(lo: Option<int>, hi: Option<EndBound>): (r: seq<Event>)
      reads this
      ensures SortedByStart(r) && multiset(r) == multiset(Filtered(Events(), lo, hi))
    {
      ListedSpec(Events(), lo, hi);
      Listed(Events(), lo, hi)
    }

    /** `create_event`: `start` is the parsed `start_time`, absent when it does
        not parse, and `duration` is 60 minutes when the call leaves it out.
        The event is appended at the end of the store and returned. */
    method CreateEvent(title: string, start: Option<int>, duration: Option<int>) returns (r: Result<Event, string>)
      modifies this
      ensures start.None? ==> r == Err(StartTimeError) && file == old(file)
      ensures start.Some? ==>
        var d := duration.GetOr(DefaultDuration);
        r == Ok(Event(title, start.value, start.value + d, d)) &&
        Events() == old(Events()) + [r.value] && file.Stored?
    {
      if start.None? {
        return Err(StartTimeError);
      }
      var minutes := duration.GetOr(DefaultDuration);
      var event := Event(title, start.value, start.value + minutes, minutes);
      var events := Load(file);
      events := events + [event];
      file := Stored(events);
      return Ok(event);
    }

    /** `clear_events` */
    method ClearEvents()
      modifies this
      ensures file == Stored([]) && Events() == []
    {
      file := Stored([]);
    }
  }

  /** A created event is listed by an unbounded query afterwards, and the
      events listed before are still listed. */
  lemma CreatedIsListed(before: seq<Event>, e: Event)
    ensures multiset(Listed(before + [e], None, None)) == multiset(Listed(before, None, None)) + multiset{e}
  {
    ListedUnbounded(before + [e]);
    ListedUnbounded(before);
  }
}
