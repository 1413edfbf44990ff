/** The free-time finder: working-hour gaps left by the busy periods of a calendar.

    All moments are microseconds on one clock, the one of the account's time zone, and day
    `d` starts at `d * DAY`; a zone whose clock jumps is not part of this model.
  */
module FreeTime {
  import opened Prelude

  const MINUTE: int := 60_000_000
  const HOUR: int := 60 * MINUTE
  const DAY: int := 24 * HOUR

  /** When an event takes place: from a moment, or over whole days (`last` excluded). */
  datatype Span =
    | Unscheduled
    | Timed(start: int, end: Option<int>)
    | AllDay(first: int, last: Option<int>)

  datatype Event = Event(cancelled: bool, span: Span)

  /** A busy period, or a free slot. */
  datatype Period = Period(start: int, end: int)

  predicate WellFormed(e: Event) {
    e.span.Timed? && e.span.end.Some? ==> e.span.start <= e.span.end.value
  }

  function BusyOf(e: Event): (p: Option<Period>)
    ensures WellFormed(e) && p.Some? ==> p.value.start <= p.value.end
  {
    if e.cancelled then None
    else
      match e.span
      case Unscheduled => None
      case Timed(start, end) => Some(Period(start, if end == None then start else end.value))
      case AllDay(first, last) =>
        var stop := if last == None || last.value <= first then first + 1 else last.value;
        Some(Period(first * DAY, stop * DAY))
  }

  // --- when events take place ------------------------------------------------------------

  /** The event goes on at the moment `m`; all-day events last whole days, at least one. */
  predicate TakesPlace(e: Event, m: int) {
    !e.cancelled &&
    match e.span
    case Unscheduled => false
    case Timed(start, end) => end.Some? && start <= m < end.value
    case AllDay(first, last) => m / DAY == first || (last.Some? && first <= m / DAY < last.value)
  }

  /** The event begins and ends at `m`. */
  predicate Instant(e: Event, m: int) {
    !e.cancelled && e.span.Timed? && e.span.start == m && (e.span.end == None || e.span.end == Some(m))
  }

  ghost predicate Busy(events: seq<Event>, m: int) {
    exists e :: e in events && TakesPlace(e, m)
  }

  /** No event goes on between `start` and `end`, and none of no length lies inside. */
  ghost predicate ClearOf(events: seq<Event>, start: int, end: int) {
    forall e :: e in events ==>
      && (forall m :: start <= m < end ==> !TakesPlace(e, m))
      && (forall m :: start < m < end ==> !Instant(e, m))
  }

  lemma DayOfMoment(m: int, first: int, last: int)
    ensures first * DAY <= m < last * DAY <==> first <= m / DAY < last
  {
    assert m / DAY * DAY <= m < m / DAY * DAY + DAY;
  }

  /** The period of an event is made of the moments it goes on. */
  lemma PeriodOf(e: Event, m: int)
    requires WellFormed(e)
    ensures TakesPlace(e, m) <==> BusyOf(e).Some? && BusyOf(e).value.start <= m < BusyOf(e).value.end
    ensures Instant(e, m) <==> BusyOf(e) == Some(Period(m, m))
  {
    if e.span.AllDay? {
      var first := e.span.first;
      DayOfMoment(m, first, first + 1);
      if e.span.last.Some? {
        DayOfMoment(m, first, e.span.last.value);
      }
    }
  }

  lemma MeetsIff(e: Event, start: int, end: int)
    requires WellFormed(e) && start < end
    ensures BusyOf(e).Some? && Meets(BusyOf(e).value, start, end) <==>
            (exists m :: start <= m < end && TakesPlace(e, m)) || (exists m :: start < m < end && Instant(e, m))
  {
    var p := BusyOf(e);
    if p.Some? && Meets(p.value, start, end) {
      var m := if p.value.start < start then start else p.value.start;
      PeriodOf(e, m);
      assert TakesPlace(e, m) || Instant(e, m);
    }
    forall m | start <= m < end && TakesPlace(e, m) ensures p.Some? && Meets(p.value, start, end) {
      PeriodOf(e, m);
    }
    forall m | start < m < end && Instant(e, m) ensures p.Some? && Meets(p.value, start, end) {
      PeriodOf(e, m);
    }
  }

  lemma {:induction false} BusyListHas(events: seq<Event>, p: Period)
    ensures p in BusyList(events) <==> exists e :: e in events && BusyOf(e) == Some(p)
  {
    hide BusyOf;
    if events != [] {
      var n := |events| - 1;
      BusyListHas(events[..n], p);
      assert events == events[..n] + [events[n]];
    }
  }

  /** Being clear of the busy periods is being clear of the events. */
  lemma ClearIff(events: seq<Event>, start: int, end: int)
    requires start < end && forall e :: e in events ==> WellFormed(e)
    ensures Clear(BusyList(events), start, end) <==> ClearOf(events, start, end)
  {
    hide BusyList, BusyOf, Meets, TakesPlace, Instant;
    forall p: Period ensures p in BusyList(events) <==> exists e :: e in events && BusyOf(e) == Some(p) {
      BusyListHas(events, p);
    }
    forall e | e in events
      ensures BusyOf(e).Some? && Meets(BusyOf(e).value, start, end) <==>
              (exists m :: start <= m < end && TakesPlace(e, m)) || (exists m :: start < m < end && Instant(e, m))
    {
      MeetsIff(e, start, end);
    }
    if Clear(BusyList(events), start, end) {
      forall e | e in events
        ensures forall m :: start <= m < end ==> !TakesPlace(e, m)
        ensures forall m :: start < m < end ==> !Instant(e, m)
      {
        if BusyOf(e).Some? {
          assert BusyOf(e).value in BusyList(events);
        }
      }
    }
  }

  /** The busy moments are those of the periods. */
  lemma BusyIff(events: seq<Event>, m: int)
    requires forall e :: e in events ==> WellFormed(e)
    ensures Busy(events, m) <==> exists p :: p in BusyList(events) && p.start <= m < p.end
  {
    hide BusyList, BusyOf, TakesPlace;
    if Busy(events, m) {
      var e :| e in events && TakesPlace(e, m);
      PeriodOf(e, m);
      BusyListHas(events, BusyOf(e).value);
    }
    forall p | p in BusyList(events) && p.start <= m < p.end ensures Busy(events, m) {
      BusyListHas(events, p);
      var e :| e in events && BusyOf(e) == Some(p);
      PeriodOf(e, m);
    }
  }

  /** The busy periods of the events, in the events' order. */
  function BusyList(events: seq<Event>): (busy: seq<Period>)
    ensures (forall e :: e in events ==> WellFormed(e)) ==> forall p :: p in busy ==> p.start <= p.end
  {
    if events == [] then []
    else
      var n := |events| - 1;
      BusyList(events[..n]) + (match BusyOf(events[n]) case None => [] case Some(p) => [p])
  }

  // --- sorting ----------------------------------------------------------------

  /** The order of Python tuples. */
  predicate AtMost(p: Period, q: Period) {
    p.start < q.start || (p.start == q.start && p.end <= q.end)
  }

  ghost predicate Sorted(s: seq<Period>) {
    forall i, j :: 0 <= i < j < |s| ==> AtMost(s[i], s[j])
  }

  function Insert(p: Period, s: seq<Period>): (r: seq<Period>)
    ensures multiset(r) == multiset(s) + multiset{p}
    ensures |r| == |s| + 1
  {
    if s == [] || AtMost(p, s[0]) then
      [p] + s
    else
      assert s == [s[0]] + s[1..];
      [s[0]] + Insert(p, s[1..])
  }

  lemma {:induction false} InsertSorted(p: Period, s: seq<Period>)
    requires Sorted(s)
    ensures Sorted(Insert(p, s))
  {
    if s != [] && !AtMost(p, s[0]) {
      InsertSorted(p, s[1..]);
      var r := Insert(p, s[1..]);
      forall k | 0 <= k < |r|
        ensures AtMost(s[0], r[k])
      {
        assert r[k] in multiset(r);
        assert r[k] in s[1..] || r[k] == p;
      }
    }
  }

  /** `list.sort()`. */
  function Sort(s: seq<Period>): (r: seq<Period>)
    ensures multiset(r) == multiset(s)
    ensures Sorted(r)
  {
    if s == [] then
      []
    else
      assert s == [s[0]] + s[1..];
      InsertSorted(s[0], Sort(s[1..]));
      Insert(s[0], Sort(s[1..]))
  }

  method BusyPeriods(events: seq<Event>) returns (busy: seq<Period>)
    ensures Sorted(busy)
    ensures multiset(busy) == multiset(BusyList(events))
    ensures (forall e :: e in events ==> WellFormed(e)) ==>
              forall m :: Busy(events, m) <==> exists p :: p in busy && p.start <= m < p.end
  {
    busy := [];
    for i := 0 to |events|
      invariant busy == BusyList(events[..i])
    {
      assert events[..i + 1][..i] == events[..i];
      match BusyOf(events[i]) {
        case None =>
        case Some(p) => busy := busy + [p];
      }
    }
    assert events[..|events|] == events;
    SamePeriods(Sort(busy), busy);
    busy := Sort(busy);
    if forall e :: e in events ==> WellFormed(e) {
      forall m ensures Busy(events, m) <==> exists p :: p in busy && p.start <= m < p.end {
        BusyIff(events, m);
      }
    }
  }

  // --- what the slots must be -------------------------------------------------

  /** The opening hours of a search: working hours of each day, cut to the window. */
  datatype Hours = Hours(windowStart: int, windowEnd: int, startHour: int, endHour: int) {
    predicate Valid() {
      0 <= startHour < 24
    }

    /** Closing time on the clock: an end hour of 24 or more means 23:59. */
    function Closing(): (t: int)
      ensures t < DAY
    {
      if endHour >= 24 then 23 * HOUR + 59 * MINUTE else (if endHour < 0 then 0 else endHour) * HOUR
    }

    function Open(day: int): int {
      var t := day * DAY + startHour * HOUR;
      if t >= windowStart then t else windowStart
    }

    function Close(day: int): int {
      var t := day * DAY + Closing();
      if t <= windowEnd then t else windowEnd
    }

    function FirstDay(): int {
      windowStart / DAY
    }

    function LastDay(): int {
      windowEnd / DAY
    }
  }

  /** A busy period meets an open interval: an instantaneous one does when strictly inside. */
  predicate Meets(p: Period, start: int, end: int) {
    p.start < end && start < p.end
  }

  predicate Clear(busy: seq<Period>, start: int, end: int) {
    forall p :: p in busy ==> !Meets(p, start, end)
  }

  /** A free stretch of at least `span` between `open` and `close`. */
  predicate Free(busy: seq<Period>, open: int, close: int, span: int, start: int, end: int) {
    open <= start && end <= close && end - start >= span && Clear(busy, start, end)
  }

  /** Each end of a slot is a bound of the day or the edge of a busy period. */
  predicate Maximal(busy: seq<Period>, open: int, close: int, s: Period) {
    && (s.start == open || exists p :: p in busy && p.end == s.start)
    && (s.end == close || exists p :: p in busy && p.start == s.end)
  }

  predicate Ordered(slots: seq<Period>) {
    forall i, j :: 0 <= i < j < |slots| ==> slots[i].end <= slots[j].start
  }

  predicate Covered(slots: seq<Period>, start: int, end: int) {
    exists s :: s in slots && s.start <= start && end <= s.end
  }

  /** `slots` are exactly the maximal free stretches between `open` and `close`. */
  ghost predicate DaySlots(slots: seq<Period>, busy: seq<Period>, open: int, close: int, span: int) {
    && Ordered(slots)
    && (forall s :: s in slots ==> Free(busy, open, close, span, s.start, s.end) && Maximal(busy, open, close, s))
    && forall a, b :: Free(busy, open, close, span, a, b) ==> Covered(slots, a, b)
  }

  // --- one day ----------------------------------------------------------------

  /** What the sweep knows after the first `k` busy periods, with the cursor at `cursor`. */
  ghost predicate Swept(slots: seq<Period>, busy: seq<Period>, open: int, close: int, span: int,
                        k: nat, cursor: int) {
    && k <= |busy|
    && open <= cursor
    && (cursor == open || exists p :: p in busy && p.end == cursor)
    && Ordered(slots)
    && (forall s :: s in slots ==> s.end <= cursor && Free(busy, open, close, span, s.start, s.end)
                                   && Maximal(busy, open, close, s))
    && (forall j :: 0 <= j < k ==> busy[j].end <= cursor || busy[j].start >= close)
    && forall a, b :: Free(busy, open, close, span, a, b) && a < cursor ==> Covered(slots, a, b)
  }

  /** The gap between the cursor and the next relevant busy period is free. */
  lemma GapIsFree(slots: seq<Period>, busy: seq<Period>, open: int, close: int, span: int, k: nat, cursor: int)
    requires Sorted(busy) && Swept(slots, busy, open, close, span, k, cursor) && k < |busy|
    requires busy[k].start < close && busy[k].start - cursor >= span
    ensures Free(busy, open, close, span, cursor, busy[k].start)
    ensures Maximal(busy, open, close, Period(cursor, busy[k].start))
  {
    forall p | p in busy
      ensures !Meets(p, cursor, busy[k].start)
    {
      var j :| 0 <= j < |busy| && busy[j] == p;
      if j > k {
        assert AtMost(busy[k], busy[j]);
      }
    }
  }

  lemma CoveredMore(slots: seq<Period>, extra: seq<Period>, a: int, b: int)
    requires Covered(slots, a, b) || Covered(extra, a, b)
    ensures Covered(slots + extra, a, b)
  {
    var s :| s in slots + extra && s.start <= a && b <= s.end;
  }

  lemma SweepSkips(slots: seq<Period>, busy: seq<Period>, open: int, close: int, span: int, k: nat, cursor: int)
    requires Swept(slots, busy, open, close, span, k, cursor) && k < |busy|
    requires busy[k].end <= cursor || busy[k].start >= close
    ensures Swept(slots, busy, open, close, span, k + 1, cursor)
  {
  }

  lemma SweepAdvances(slots: seq<Period>, gap: seq<Period>, busy: seq<Period>,
                      open: int, close: int, span: int, k: nat, cursor: int)
    requires Sorted(busy) && Swept(slots, busy, open, close, span, k, cursor) && k < |busy|
    requires span >= 1 && busy[k].start <= busy[k].end
    requires busy[k].end > cursor && busy[k].start < close
    requires gap == if busy[k].start - cursor >= span then [Period(cursor, busy[k].start)] else []
    ensures Swept(slots + gap, busy, open, close, span, k + 1, busy[k].end)
  {
    hide Clear;
    hide Maximal;
    hide Covered;
    var p := busy[k];
    assert p in busy;
    if gap != [] {
      GapIsFree(slots, busy, open, close, span, k, cursor);
    }
    forall a, b | Free(busy, open, close, span, a, b) && a < p.end
      ensures Covered(slots + gap, a, b)
    {
      AdvanceCovers(slots, gap, busy, open, close, span, k, cursor, a, b);
    }
    assert forall s :: s in slots + gap ==> s in slots || s in gap;
  }

  /** A free stretch starting before the end of the next busy period is already reported. */
  lemma AdvanceCovers(slots: seq<Period>, gap: seq<Period>, busy: seq<Period>,
                      open: int, close: int, span: int, k: nat, cursor: int, a: int, b: int)
    requires Swept(slots, busy, open, close, span, k, cursor) && k < |busy|
    requires gap == if busy[k].start - cursor >= span then [Period(cursor, busy[k].start)] else []
    requires Free(busy, open, close, span, a, b) && a < busy[k].end && span >= 1
    ensures Covered(slots + gap, a, b)
  {
    if a >= cursor {
      assert !Meets(busy[k], a, b);
      assert gap[0] in gap;
    }
    CoveredMore(slots, gap, a, b);
  }

  lemma SweepEnds(slots: seq<Period>, gap: seq<Period>, busy: seq<Period>,
                  open: int, close: int, span: int, cursor: int)
    requires Swept(slots, busy, open, close, span, |busy|, cursor)
    requires span >= 1
    requires gap == if close - cursor >= span then [Period(cursor, close)] else []
    ensures DaySlots(slots + gap, busy, open, close, span)
  {
    if gap != [] {
      forall p | p in busy
        ensures !Meets(p, cursor, close)
      {
        var j :| 0 <= j < |busy| && busy[j] == p;
      }
    }
    forall a, b | Free(busy, open, close, span, a, b)
      ensures Covered(slots + gap, a, b)
    {
      if a >= cursor {
        assert gap[0] in gap;
        assert Covered(gap, a, b);
      }
      CoveredMore(slots, gap, a, b);
    }
  }

  /** The inner loop: the slots of one day, from its bounds and the sorted busy periods. */
  method SweepDay(busy: seq<Period>, open: int, close: int, span: int) returns (slots: seq<Period>)
    requires Sorted(busy) && span >= 1
    requires forall p :: p in busy ==> p.start <= p.end
    ensures DaySlots(slots, busy, open, close, span)
  {
    slots := [];
    var cursor := open;
    for k := 0 to |busy|
      invariant Swept(slots, busy, open, close, span, k, cursor)
    {
      var p := busy[k];
      if p.end <= cursor || p.start >= close {
        SweepSkips(slots, busy, open, close, span, k, cursor);
        continue;
      }
      ghost var gap := if p.start - cursor >= span then [Period(cursor, p.start)] else [];
      SweepAdvances(slots, gap, busy, open, close, span, k, cursor);
      if p.start - cursor >= span {
        slots := slots + [Period(cursor, p.start)];
      } else {
        assert slots + gap == slots;
      }
      cursor := if cursor >= p.end then cursor else p.end;
    }
    ghost var last := if close - cursor >= span then [Period(cursor, close)] else [];
    SweepEnds(slots, last, busy, open, close, span, cursor);
    if close - cursor >= span {
      slots := slots + [Period(cursor, close)];
    } else {
      assert slots + last == slots;
    }
  }

  // --- the window -------------------------------------------------------------

  /** A free stretch inside the working hours of one day and inside the window. */
  predicate FreeOnDay(busy: seq<Period>, h: Hours, span: int, day: int, start: int, end: int) {
    Free(busy, h.Open(day), h.Close(day), span, start, end)
  }

  /** Every slot is a free stretch of some day whose ends could not be pushed further. */
  ghost predicate SlotOfDay(busy: seq<Period>, h: Hours, span: int, day: int, s: Period) {
    FreeOnDay(busy, h, span, day, s.start, s.end) && Maximal(busy, h.Open(day), h.Close(day), s)
  }

  ghost predicate WindowSlots(slots: seq<Period>, busy: seq<Period>, h: Hours, span: int, upTo: int) {
    && Ordered(slots)
    && (forall s :: s in slots ==> exists day :: day < upTo && SlotOfDay(busy, h, span, day, s))
    && forall day, a, b :: day < upTo && FreeOnDay(busy, h, span, day, a, b) ==> Covered(slots, a, b)
  }

  lemma DayBefore(h: Hours, d: int, e: int)
    requires h.Valid() && d < e
    ensures h.Close(d) <= h.Open(e)
  {
    assert d * DAY + DAY <= e * DAY;
  }

  /** Nothing is free on the days before the one the window starts on. */
  lemma NothingBefore(busy: seq<Period>, h: Hours, span: int, day: int, a: int, b: int)
    requires h.Valid() && span >= 1 && day < h.FirstDay()
    ensures !FreeOnDay(busy, h, span, day, a, b)
  {
    assert day * DAY + DAY <= h.FirstDay() * DAY <= h.windowStart;
  }

  /** Nothing is free on the days after the one the window ends on. */
  lemma NothingAfter(busy: seq<Period>, h: Hours, span: int, day: int, a: int, b: int)
    requires h.Valid() && span >= 1 && day > h.LastDay()
    ensures !FreeOnDay(busy, h, span, day, a, b)
  {
    assert h.windowEnd < h.LastDay() * DAY + DAY <= day * DAY;
  }

  lemma AddDay(slots: seq<Period>, today: seq<Period>, busy: seq<Period>, h: Hours, span: int, day: int)
    requires h.Valid()
    requires WindowSlots(slots, busy, h, span, day)
    requires DaySlots(today, busy, h.Open(day), h.Close(day), span)
    ensures WindowSlots(slots + today, busy, h, span, day + 1)
  {
    var all := slots + today;
    forall i, j | 0 <= i < j < |all|
      ensures all[i].end <= all[j].start
    {
      if i < |slots| <= j {
        assert all[i] in slots && all[j] in today;
        var d :| d < day && SlotOfDay(busy, h, span, d, all[i]);
        DayBefore(h, d, day);
      }
    }
    forall s | s in all
      ensures exists d :: d < day + 1 && SlotOfDay(busy, h, span, d, s)
    {
      if s in slots {
        var d :| d < day && SlotOfDay(busy, h, span, d, s);
      } else {
        assert SlotOfDay(busy, h, span, day, s);
      }
    }
    forall d, a, b | d < day + 1 && FreeOnDay(busy, h, span, d, a, b)
      ensures Covered(all, a, b)
    {
      CoveredMore(slots, today, a, b);
    }
  }

  /** Soundness, order, completeness and maximality of a list of slots over a whole search.
      Each slot lies in the window and in one day's hours, is long enough, meets no busy
      period and ends where hours, window or a busy period end it; and every free stretch
      of any day lies in a slot. */
  ghost predicate FreeSlotsOf(slots: seq<Period>, busy: seq<Period>, h: Hours, span: int) {
    && Ordered(slots)
    && Sound(slots, busy, h, span)
    && Complete(slots, busy, h, span)
  }

  ghost predicate Sound(slots: seq<Period>, busy: seq<Period>, h: Hours, span: int) {
    forall s :: s in slots ==> exists day :: h.FirstDay() <= day <= h.LastDay() && SlotOfDay(busy, h, span, day, s)
  }

  ghost predicate Complete(slots: seq<Period>, busy: seq<Period>, h: Hours, span: int) {
    forall day, a, b :: FreeOnDay(busy, h, span, day, a, b) ==> Covered(slots, a, b)
  }

  lemma WholeWindow(slots: seq<Period>, busy: seq<Period>, h: Hours, span: int, day: int)
    requires h.Valid() && span >= 1
    requires WindowSlots(slots, busy, h, span, day) && day > h.LastDay()
    ensures FreeSlotsOf(slots, busy, h, span)
  {
    forall s | s in slots
      ensures exists d :: h.FirstDay() <= d <= h.LastDay() && SlotOfDay(busy, h, span, d, s)
    {
      var d :| d < day && SlotOfDay(busy, h, span, d, s);
      if d < h.FirstDay() {
        NothingBefore(busy, h, span, d, s.start, s.end);
      }
      if d > h.LastDay() {
        NothingAfter(busy, h, span, d, s.start, s.end);
      }
    }
    forall d, a, b | FreeOnDay(busy, h, span, d, a, b)
      ensures Covered(slots, a, b)
    {
      if d >= day {
        NothingAfter(busy, h, span, d, a, b);
      }
    }
  }

  lemma NothingYet(busy: seq<Period>, h: Hours, span: int)
    requires h.Valid() && span >= 1
    ensures WindowSlots([], busy, h, span, h.FirstDay())
  {
    forall day, a, b | day < h.FirstDay()
      ensures !FreeOnDay(busy, h, span, day, a, b)
    {
      NothingBefore(busy, h, span, day, a, b);
    }
  }

  /** Clearness depends on which periods are busy, not on their order. */
  lemma SamePeriods(x: seq<Period>, y: seq<Period>)
    requires multiset(x) == multiset(y)
    ensures forall p :: p in x <==> p in y
  {
    forall p
      ensures p in x <==> p in y
    {
      assert p in x <==> p in multiset(x);
      assert p in y <==> p in multiset(y);
    }
  }

  lemma SameSlots(slots: seq<Period>, x: seq<Period>, y: seq<Period>, h: Hours, span: int)
    requires FreeSlotsOf(slots, x, h, span)
    requires forall p :: p in x <==> p in y
    ensures FreeSlotsOf(slots, y, h, span)
  {
    forall day, s | SlotOfDay(x, h, span, day, s)
      ensures SlotOfDay(y, h, span, day, s)
    {
    }
    forall day, a, b | FreeOnDay(y, h, span, day, a, b)
      ensures FreeOnDay(x, h, span, day, a, b)
    {
    }
  }

  // --- in terms of the events -------------------------------------------------------------

  /** Between the two hours of the day and inside the window; the last minute of a day is
      never reached. */
  predicate OnDay(h: Hours, day: int, start: int, end: int) {
    && h.windowStart <= start && end <= h.windowEnd
    && day * DAY + h.startHour * HOUR <= start
    && end <= day * DAY + (if h.endHour < 0 then 0 else h.endHour) * HOUR
    && end <= day * DAY + DAY - MINUTE
  }

  ghost predicate Stretch(events: seq<Event>, h: Hours, span: int, day: int, start: int, end: int) {
    OnDay(h, day, start, end) && end - start >= span && ClearOf(events, start, end)
  }

  /** In order, every slot is a free stretch of one day, and every free stretch of any day lies
      in a slot. */
  ghost predicate FreeSlotsFor(slots: seq<Period>, events: seq<Event>, h: Hours, span: int) {
    && Ordered(slots)
    && (forall s :: s in slots ==> exists day :: Stretch(events, h, span, day, s.start, s.end))
    && forall day, a, b :: Stretch(events, h, span, day, a, b) ==> Covered(slots, a, b)
  }

  lemma OnDayIff(h: Hours, day: int, start: int, end: int)
    ensures OnDay(h, day, start, end) <==> h.Open(day) <= start && end <= h.Close(day)
  {
  }

  lemma StretchIff(events: seq<Event>, h: Hours, span: int, day: int, a: int, b: int)
    requires span >= 1 && forall e :: e in events ==> WellFormed(e)
    ensures FreeOnDay(BusyList(events), h, span, day, a, b) <==> Stretch(events, h, span, day, a, b)
  {
    OnDayIff(h, day, a, b);
    hide OnDay, Hours.Open, Hours.Close, BusyList, Clear, ClearOf;
    if a < b {
      ClearIff(events, a, b);
    }
  }

  lemma SlotsForEvents(slots: seq<Period>, events: seq<Event>, h: Hours, span: int)
    requires span >= 1 && forall e :: e in events ==> WellFormed(e)
    ensures FreeSlotsOf(slots, BusyList(events), h, span) ==> FreeSlotsFor(slots, events, h, span)
  {
    hide Stretch, FreeOnDay, Covered, Maximal, BusyList;
    forall day, a, b
      ensures FreeOnDay(BusyList(events), h, span, day, a, b) <==> Stretch(events, h, span, day, a, b)
    {
      StretchIff(events, h, span, day, a, b);
    }
    if FreeSlotsOf(slots, BusyList(events), h, span) {
      forall s | s in slots ensures exists day :: Stretch(events, h, span, day, s.start, s.end) {
        var day :| h.FirstDay() <= day <= h.LastDay() && SlotOfDay(BusyList(events), h, span, day, s);
        assert Stretch(events, h, span, day, s.start, s.end);
      }
    }
  }

  datatype HourError = HourOutOfRange

  /** `_free_slots`. A start hour outside 0..23 is refused as soon as a day is looked at. */
  method FreeSlots(events: seq<Event>, minutes: int, h: Hours) returns (r: Result<seq<Period>, HourError>)
    requires minutes >= 1
    requires forall e :: e in events ==> WellFormed(e)
    ensures r.Err? <==> !(0 <= h.startHour < 24) && h.windowStart / DAY <= h.windowEnd / DAY
    ensures r.Ok? && h.Valid() ==> FreeSlotsFor(r.value, events, h, minutes * MINUTE)
    ensures r.Ok? && h.Valid() ==> FreeSlotsOf(r.value, BusyList(events), h, minutes * MINUTE)
    ensures r.Ok? && !h.Valid() ==> r.value == []
  {
    var busy := BusyPeriods(events);
    SamePeriods(busy, BusyList(events));
    var slots: seq<Period> := [];
    var day := h.FirstDay();
    var span := minutes * MINUTE;
    if h.Valid() {
      NothingYet(busy, h, span);
    }
    while day <= h.LastDay()
      invariant day >= h.FirstDay()
      invariant h.Valid() ==> WindowSlots(slots, busy, h, span, day)
      invariant !h.Valid() ==> slots == [] && day == h.FirstDay()
      decreases h.LastDay() - day
    {
      if !(0 <= h.startHour < 24) {
        return Err(HourOutOfRange);
      }
      var today := SweepDay(busy, h.Open(day), h.Close(day), span);
      AddDay(slots, today, busy, h, span, day);
      slots := slots + today;
      day := day + 1;
    }
    if h.Valid() {
      WholeWindow(slots, busy, h, span, day);
      SameSlots(slots, busy, BusyList(events), h, span);
      SlotsForEvents(slots, events, h, span);
    }
    return Ok(slots);
  }

  /** Read off the specification: what a caller may rely on for each reported slot. */
  lemma SlotsAreUsable(slots: seq<Period>, events: seq<Event>, h: Hours, span: int, i: nat)
    requires FreeSlotsFor(slots, events, h, span) && h.Valid() && span >= 1 && i < |slots|
    ensures h.windowStart <= slots[i].start && slots[i].end <= h.windowEnd
    ensures slots[i].end - slots[i].start >= span
    ensures forall m :: slots[i].start <= m < slots[i].end ==> !Busy(events, m)
    ensures slots[i].start / DAY == slots[i].end / DAY
    ensures i + 1 < |slots| ==> slots[i].start < slots[i].end <= slots[i + 1].start
  {
    assert slots[i] in slots;
    hide TakesPlace, Instant, Covered, OnDay, ClearOf;
    var day :| Stretch(events, h, span, day, slots[i].start, slots[i].end);
    NotBusy(events, slots[i].start, slots[i].end);
    WithinDay(h, day, slots[i].start, slots[i].end);
    if i + 1 < |slots| {
      assert slots[i].end <= slots[i + 1].start;
    }
  }

  lemma NotBusy(events: seq<Event>, start: int, end: int)
    requires ClearOf(events, start, end)
    ensures forall m :: start <= m < end ==> !Busy(events, m)
  {
    hide TakesPlace, Instant;
  }

  lemma WithinDay(h: Hours, day: int, start: int, end: int)
    requires OnDay(h, day, start, end) && h.Valid() && start < end
    ensures h.windowStart <= start && end <= h.windowEnd && start / DAY == end / DAY
  {
    assert day * DAY <= start < end < day * DAY + DAY;
    SameDay(start, day);
    SameDay(end, day);
  }

  /** A slot cannot be made longer: what is free around it is the slot itself. */
  lemma SlotsAreMaximal(slots: seq<Period>, events: seq<Event>, h: Hours, span: int, s: Period, day: int, a: int, b: int)
    requires FreeSlotsFor(slots, events, h, span) && span >= 1 && s in slots
    requires a <= s.start && s.end <= b && Stretch(events, h, span, day, a, b)
    ensures a == s.start && b == s.end
  {
    hide Stretch;
    SlotsArePositive(slots, events, h, span);
    var t := Around(slots, events, h, span, day, a, b);
    NestedSlots(slots, s, t);
  }

  lemma SameDay(t: int, day: int)
    requires day * DAY <= t < day * DAY + DAY
    ensures t / DAY == day
  {
  }

  // --- the specification has one solution -------------------------------------

  predicate Positive(slots: seq<Period>) {
    forall s :: s in slots ==> s.start < s.end
  }

  /** A slot of one solution is a slot of any other. */
  lemma SharedSlot(x: seq<Period>, y: seq<Period>, events: seq<Event>, h: Hours, span: int, s: Period)
    requires FreeSlotsFor(x, events, h, span) && FreeSlotsFor(y, events, h, span)
    requires span >= 1 && s in x
    ensures s in y
  {
    hide FreeSlotsFor;
    var t := SlotAround(x, y, events, h, span, s);
    var u := SlotAround(y, x, events, h, span, t);
    SlotsArePositive(x, events, h, span);
    NestedSlots(x, s, u);
    assert u == t;
  }

  /** In an ordered list a slot lies inside another only when they are the same. */
  lemma NestedSlots(x: seq<Period>, s: Period, u: Period)
    requires Ordered(x) && Positive(x) && s in x && u in x
    requires u.start <= s.start && s.end <= u.end
    ensures s == u
  {
    var i :| 0 <= i < |x| && x[i] == s;
    var j :| 0 <= j < |x| && x[j] == u;
    assert i == j;
  }

  /** Completeness of `y` applied to a slot of `x`. */
  lemma SlotAround(x: seq<Period>, y: seq<Period>, events: seq<Event>, h: Hours, span: int, s: Period)
    returns (t: Period)
    requires FreeSlotsFor(x, events, h, span) && FreeSlotsFor(y, events, h, span) && s in x
    ensures t in y && t.start <= s.start && s.end <= t.end
  {
    hide *;
    var d := DayOf(x, events, h, span, s);
    t := Around(y, events, h, span, d, s.start, s.end);
  }

  lemma DayOf(x: seq<Period>, events: seq<Event>, h: Hours, span: int, s: Period) returns (d: int)
    requires FreeSlotsFor(x, events, h, span) && s in x
    ensures Stretch(events, h, span, d, s.start, s.end)
  {
    hide Stretch, Covered;
    d :| Stretch(events, h, span, d, s.start, s.end);
  }

  lemma Around(y: seq<Period>, events: seq<Event>, h: Hours, span: int, d: int, a: int, b: int) returns (t: Period)
    requires FreeSlotsFor(y, events, h, span) && Stretch(events, h, span, d, a, b)
    ensures t in y && t.start <= a && b <= t.end
  {
    hide Stretch;
    assert Covered(y, a, b);
    t :| t in y && t.start <= a && b <= t.end;
  }

  /** The last slot of one list is the last slot of the other. */
  lemma SameLast(x: seq<Period>, y: seq<Period>)
    requires Ordered(x) && Ordered(y) && Positive(x) && Positive(y)
    requires forall s :: s in x <==> s in y
    requires x != [] && y != []
    ensures x[|x| - 1] == y[|y| - 1]
  {
    var m, n := |x| - 1, |y| - 1;
    assert x[m] in y && y[n] in x;
    var j :| 0 <= j < |y| && y[j] == x[m];
    var i :| 0 <= i < |x| && x[i] == y[n];
  }

  lemma {:induction false} SameList(x: seq<Period>, y: seq<Period>)
    requires Ordered(x) && Ordered(y) && Positive(x) && Positive(y)
    requires forall s :: s in x <==> s in y
    ensures x == y
  {
    hide *;
    if x != [] {
      assert x[0] in y;
    }
    if y != [] {
      assert y[0] in x;
    }
    if x != [] && y != [] {
      var m, n := |x| - 1, |y| - 1;
      SameLast(x, y);
      AllButLast(x);
      AllButLast(y);
      forall s
        ensures s in x[..m] <==> s in y[..n]
      {
        SameButLast(x, s);
        SameButLast(y, s);
      }
      SameList(x[..m], y[..n]);
    }
  }

  lemma AllButLast(x: seq<Period>)
    requires Ordered(x) && Positive(x) && x != []
    ensures Ordered(x[..|x| - 1]) && Positive(x[..|x| - 1])
  {
  }

  lemma SameButLast(x: seq<Period>, s: Period)
    requires Ordered(x) && Positive(x) && x != []
    ensures s in x[..|x| - 1] <==> s in x && s != x[|x| - 1]
  {
    var m := |x| - 1;
    if s in x[..m] {
      var i :| 0 <= i < m && x[i] == s;
      assert x[i] in x;
    }
  }

  /** Soundness, order and completeness leave no choice: the answer is unique. */
  lemma UniqueSlots(x: seq<Period>, y: seq<Period>, events: seq<Event>, h: Hours, span: int)
    requires FreeSlotsFor(x, events, h, span) && FreeSlotsFor(y, events, h, span)
    requires span >= 1
    ensures x == y
  {
    hide *;
    forall s
      ensures s in x <==> s in y
    {
      if s in x {
        SharedSlot(x, y, events, h, span, s);
      }
      if s in y {
        SharedSlot(y, x, events, h, span, s);
      }
    }
    SlotsArePositive(x, events, h, span);
    SlotsArePositive(y, events, h, span);
    SameList(x, y);
  }

  lemma SlotsArePositive(x: seq<Period>, events: seq<Event>, h: Hours, span: int)
    requires FreeSlotsFor(x, events, h, span) && span >= 1
    ensures Ordered(x) && Positive(x)
  {
    hide Covered, ClearOf;
  }
}
