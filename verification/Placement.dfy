/** One task against the free windows: leftmost fit in a window, and the search over windows. */
module Placement {
  import opened Order
  import opened Template
  import opened Rounding

  /** Instants are whole microseconds; every length in minutes is scaled by this. */
  const MINUTE := 60_000_000

  const MINUTES_PER_DAY := 1440

  /** An absolute half-open stretch of time. */
  datatype Range = Range(start: int, end: int)

  /** A free window of one local day, in minutes from local midnight. */
  datatype TimeWindow = TimeWindow(startMinute: nat, endMinute: nat)

  /** `zone` turns a local (day, minute of day) into an instant; nothing is assumed about it. */
  datatype Capacity = Capacity(zone: (int, int) -> int, slots: map<int, map<SlotHint, seq<TimeWindow>>>)

  datatype SchedulerConfig = SchedulerConfig(
    minGapMinutes: nat, maxShiftDays: nat, checkpointHour: nat, slotOrder: seq<SlotHint>)

  // ------------------------------------------------------------------ one window

  predicate RangeLeq(a: Range, b: Range) {
    a.start < b.start || (a.start == b.start && a.end <= b.end)
  }

  /** A taken range widened by the gap on both sides. */
  function Widen(gap: nat): Range -> Range {
    (r: Range) => Range(r.start - gap, r.end + gap)
  }

  function Blocked(occupied: seq<Range>, gap: nat): seq<Range> {
    Sort(Map(occupied, Widen(gap)), RangeLeq)
  }

  /** The sweep over the sorted blocked ranges, from a cursor. */
  function Sweep(blocked: seq<Range>, cursor: int, windowEnd: int, duration: nat): Option<int> {
    if blocked == [] then
      if cursor + duration <= windowEnd then Some(cursor) else None
    else if blocked[0].end <= cursor then
      Sweep(blocked[1..], cursor, windowEnd, duration)
    else if blocked[0].start - cursor >= duration then
      Some(cursor)
    else if blocked[0].end + duration > windowEnd then
      None
    else
      Sweep(blocked[1..], blocked[0].end, windowEnd, duration)
  }

  function FirstFit(windowStart: int, windowEnd: int, duration: nat, occupied: seq<Range>, gap: nat): Option<int> {
    Sweep(Blocked(occupied, gap), windowStart, windowEnd, duration)
  }

  /** The loop of the source: sort once, then advance a cursor past each range in the way. */
  method FindFirstFit(windowStart: int, windowEnd: int, duration: nat, occupied: seq<Range>, gap: nat)
    returns (start: Option<int>)
    ensures start == FirstFit(windowStart, windowEnd, duration, occupied, gap)
  {
    var cursor := windowStart;
    var blocked := Blocked(occupied, gap);
    var i := 0;
    while i < |blocked|
      invariant 0 <= i <= |blocked|
      invariant Sweep(blocked[i..], cursor, windowEnd, duration) == Sweep(blocked, windowStart, windowEnd, duration)
    {
      var b := blocked[i];
      assert blocked[i..][1..] == blocked[i + 1..];
      i := i + 1;
      if b.end > cursor {
        if b.start - cursor >= duration {
          return Some(cursor);
        }
        cursor := if cursor > b.end then cursor else b.end;
        if cursor + duration > windowEnd {
          return None;
        }
      }
    }
    return if cursor + duration <= windowEnd then Some(cursor) else None;
  }

  // ------------------------------------------------------------------ what a fit means

  /** Two stretches of time with at least `gap` between them. */
  predicate Apart(a: Range, b: Range, gap: nat) {
    a.end + gap <= b.start || b.end + gap <= a.start
  }

  /** Starting at `t` keeps the gap from everything taken. */
  predicate Clear(t: int, duration: nat, occupied: seq<Range>, gap: nat) {
    forall r :: r in occupied ==> Apart(Range(t, t + duration), r, gap)
  }

  predicate Fits(t: int, windowStart: int, windowEnd: int, duration: nat, occupied: seq<Range>, gap: nat) {
    windowStart <= t && t + duration <= windowEnd && Clear(t, duration, occupied, gap)
  }

  /** `start` is the least start that fits, and is absent exactly when nothing fits. */
  ghost predicate LeftmostFit(start: Option<int>, windowStart: int, windowEnd: int, duration: nat, occupied: seq<Range>,
                              gap: nat) {
    match start
    case None => forall t :: !Fits(t, windowStart, windowEnd, duration, occupied, gap)
    case Some(s) =>
      && Fits(s, windowStart, windowEnd, duration, occupied, gap)
      && forall t :: t < s ==> !Fits(t, windowStart, windowEnd, duration, occupied, gap)
  }

  lemma RangeOrder()
    ensures TotalPreorder(RangeLeq) && Antisymmetric(RangeLeq)
  {
  }

  /** Starting at `t` misses one widened range. */
  predicate Misses(t: int, duration: nat, b: Range) {
    t + duration <= b.start || b.end <= t
  }

  lemma BlockedIsWidened(t: int, duration: nat, occupied: seq<Range>, gap: nat)
    ensures Sorted(Blocked(occupied, gap), RangeLeq)
    ensures Clear(t, duration, occupied, gap) <==>
              (forall b :: b in Blocked(occupied, gap) ==> Misses(t, duration, b))
    ensures forall b :: b in Blocked(occupied, gap) <==> exists r :: r in occupied && Widen(gap)(r) == b
  {
    RangeOrder();
    var widened := Map(occupied, Widen(gap));
    SortSorted(widened, RangeLeq);
    SortElements(widened, RangeLeq);
    forall b ensures b in widened <==> exists r :: r in occupied && Widen(gap)(r) == b {
      if b in widened {
        var i :| 0 <= i < |widened| && widened[i] == b;
        assert occupied[i] in occupied;
      }
      if r :| r in occupied && Widen(gap)(r) == b {
        var i :| 0 <= i < |occupied| && occupied[i] == r;
        assert widened[i] == b;
      }
    }
    if Clear(t, duration, occupied, gap) {
      forall b | b in Blocked(occupied, gap) ensures Misses(t, duration, b) {
        var r :| r in occupied && Widen(gap)(r) == b;
      }
    }
    if forall b :: b in Blocked(occupied, gap) ==> Misses(t, duration, b) {
      forall r | r in occupied ensures Apart(Range(t, t + duration), r, gap) {
        assert Widen(gap)(r) in Blocked(occupied, gap);
      }
    }
  }

  lemma {:induction false} SweepMisses(blocked: seq<Range>, cursor: int, windowEnd: int, duration: nat)
    requires Sorted(blocked, RangeLeq)
    ensures var s := Sweep(blocked, cursor, windowEnd, duration);
            s.Some? ==> cursor <= s.value && forall b :: b in blocked ==> Misses(s.value, duration, b)
  {
    if blocked != [] {
      assert blocked == [blocked[0]] + blocked[1..];
      if blocked[0].end <= cursor {
        SweepMisses(blocked[1..], cursor, windowEnd, duration);
      } else if blocked[0].start - cursor >= duration {
      } else if blocked[0].end + duration <= windowEnd {
        SweepMisses(blocked[1..], blocked[0].end, windowEnd, duration);
      }
    }
  }

  /** Every start the sweep passes over runs into some blocked range. */
  lemma {:induction false} SweepIsLeftmost(blocked: seq<Range>, cursor: int, windowEnd: int, duration: nat, t: int)
    requires cursor <= t && t + duration <= windowEnd
    requires forall b :: b in blocked ==> Misses(t, duration, b)
    ensures var s := Sweep(blocked, cursor, windowEnd, duration); s.Some? && s.value <= t
  {
    if blocked != [] {
      assert blocked[0] in blocked && Misses(t, duration, blocked[0]);
      if blocked[0].end <= cursor {
        SweepIsLeftmost(blocked[1..], cursor, windowEnd, duration, t);
      } else if blocked[0].start - cursor < duration {
        SweepIsLeftmost(blocked[1..], blocked[0].end, windowEnd, duration, t);
      }
    }
  }

  lemma {:induction false} SweepStaysInside(blocked: seq<Range>, cursor: int, windowEnd: int, duration: nat)
    requires cursor + duration <= windowEnd
    ensures var s := Sweep(blocked, cursor, windowEnd, duration); s.Some? ==> s.value + duration <= windowEnd
  {
    if blocked != [] {
      if blocked[0].end <= cursor {
        SweepStaysInside(blocked[1..], cursor, windowEnd, duration);
      } else if blocked[0].start - cursor < duration && blocked[0].end + duration <= windowEnd {
        SweepStaysInside(blocked[1..], blocked[0].end, windowEnd, duration);
      }
    }
  }

  /** In a window that is too short only the early return can answer, and it answers the cursor. */
  lemma {:induction false} SweepTooShort(blocked: seq<Range>, cursor: int, windowEnd: int, duration: nat)
    requires Sorted(blocked, RangeLeq) && cursor + duration > windowEnd
    ensures Sweep(blocked, cursor, windowEnd, duration) ==
              if (exists b :: b in blocked && cursor < b.end)
                 && (forall b :: b in blocked ==> Misses(cursor, duration, b))
              then Some(cursor) else None
  {
    if blocked != [] {
      assert blocked[0] in blocked;
      assert blocked == [blocked[0]] + blocked[1..];
      if blocked[0].end <= cursor {
        SweepTooShort(blocked[1..], cursor, windowEnd, duration);
        assert forall b :: b in blocked && cursor < b.end ==> b in blocked[1..];
      }
    }
  }

  /** Separation needs no hypothesis: whatever start is returned keeps the gap from everything taken. */
  lemma FirstFitKeepsGap(windowStart: int, windowEnd: int, duration: nat, occupied: seq<Range>, gap: nat)
    ensures var s := FirstFit(windowStart, windowEnd, duration, occupied, gap);
            s.Some? ==> windowStart <= s.value && Clear(s.value, duration, occupied, gap)
  {
    BlockedIsWidened(windowStart, duration, occupied, gap);
    SweepMisses(Blocked(occupied, gap), windowStart, windowEnd, duration);
    var s := FirstFit(windowStart, windowEnd, duration, occupied, gap);
    if s.Some? {
      BlockedIsWidened(s.value, duration, occupied, gap);
    }
  }

  /** The family of calls on which the early return answers with a start that does not fit the
      window: the window is too short, its first instant is clear, and something taken lies ahead. */
  predicate EarlyReturnOverruns(windowStart: int, windowEnd: int, duration: nat, occupied: seq<Range>, gap: nat) {
    && windowEnd < windowStart + duration
    && (exists r :: r in occupied && windowStart < r.end + gap)
    && Clear(windowStart, duration, occupied, gap)
  }

  /** `_first_fit` is exact leftmost fit except, and exactly except, where the early return overruns. */
  lemma FirstFitExact(windowStart: int, windowEnd: int, duration: nat, occupied: seq<Range>, gap: nat)
    ensures LeftmostFit(FirstFit(windowStart, windowEnd, duration, occupied, gap),
                        windowStart, windowEnd, duration, occupied, gap)
            <==> !EarlyReturnOverruns(windowStart, windowEnd, duration, occupied, gap)
    ensures EarlyReturnOverruns(windowStart, windowEnd, duration, occupied, gap) ==>
              FirstFit(windowStart, windowEnd, duration, occupied, gap) == Some(windowStart)
  {
    var blocked := Blocked(occupied, gap);
    var s := FirstFit(windowStart, windowEnd, duration, occupied, gap);
    BlockedIsWidened(windowStart, duration, occupied, gap);
    FirstFitKeepsGap(windowStart, windowEnd, duration, occupied, gap);
    forall t | Fits(t, windowStart, windowEnd, duration, occupied, gap)
      ensures s.Some? && s.value <= t
    {
      BlockedIsWidened(t, duration, occupied, gap);
      SweepIsLeftmost(blocked, windowStart, windowEnd, duration, t);
    }
    if windowStart + duration <= windowEnd {
      SweepStaysInside(blocked, windowStart, windowEnd, duration);
    } else {
      SweepTooShort(blocked, windowStart, windowEnd, duration);
      if r :| r in occupied && windowStart < r.end + gap {
        assert Widen(gap)(r) in blocked;
      }
      if b :| b in blocked && windowStart < b.end {
        var r :| r in occupied && Widen(gap)(r) == b;
      }
    }
  }

  /** A concrete call on which the answer is wrong: a one-hour window, a five-hour task, and one
      commitment two days ahead. Without that commitment the same call answers nothing. */
  lemma FirstFitOverrunWitness()
    ensures var noon, one := 720 * MINUTE, 780 * MINUTE;
            var busy := [Range(noon + 2880 * MINUTE, noon + 2940 * MINUTE)];
            && FirstFit(noon, one, 300 * MINUTE, busy, 30 * MINUTE) == Some(noon)
            && !LeftmostFit(Some(noon), noon, one, 300 * MINUTE, busy, 30 * MINUTE)
            && FirstFit(noon, one, 300 * MINUTE, [], 30 * MINUTE) == None
  {
    var noon, one := 720 * MINUTE, 780 * MINUTE;
    var busy := [Range(noon + 2880 * MINUTE, noon + 2940 * MINUTE)];
    assert busy[0] in busy;
    FirstFitExact(noon, one, 300 * MINUTE, busy, 30 * MINUTE);
    FirstFitExact(noon, one, 300 * MINUTE, [], 30 * MINUTE);
  }

  /** A fit depends on what is taken, not on the order it is listed in. */
  lemma FirstFitIgnoresOrder(windowStart: int, windowEnd: int, duration: nat, occupied: seq<Range>,
                             permuted: seq<Range>, gap: nat)
    requires multiset(occupied) == multiset(permuted)
    ensures FirstFit(windowStart, windowEnd, duration, occupied, gap)
         == FirstFit(windowStart, windowEnd, duration, permuted, gap)
  {
    RangeOrder();
    MapOfPermutation(occupied, permuted, Widen(gap));
    SortOfPermutation(Map(occupied, Widen(gap)), Map(permuted, Widen(gap)), RangeLeq);
  }

  // ------------------------------------------------------------------ the search over windows

  /** The weekday number of a proleptic day ordinal, 0 for a Monday and 6 for a Sunday; day 1 is a Monday. */
  function WeekdayOf(day: int): int {
    (day + 6) % DAYS_PER_WEEK
  }

  /** Minute `minute` of a local day; 1440 means midnight of the next day. */
  function LocalInstant(day: int, minute: nat, zone: (int, int) -> int): int {
    zone(day + minute / MINUTES_PER_DAY, minute % MINUTES_PER_DAY)
  }

  predicate WindowLeq(a: TimeWindow, b: TimeWindow) {
    a.startMinute < b.startMinute || (a.startMinute == b.startMinute && a.endMinute <= b.endMinute)
  }

  /** Free windows of a weekday and slot in order; none when the weekday or slot is unset. */
  function Windows(capacity: Capacity, weekday: int, slot: SlotHint): seq<TimeWindow> {
    if weekday in capacity.slots && slot in capacity.slots[weekday]
    then Sort(capacity.slots[weekday][slot], WindowLeq)
    else []
  }

  /** The windows of a weekday and slot are those configured, each as often, by start and then by end; none where
      none are configured. */
  lemma WindowsAreListed(capacity: Capacity, weekday: int, slot: SlotHint)
    ensures var ws := Windows(capacity, weekday, slot);
            && (forall i, j :: 0 <= i < j < |ws| ==>
                  ws[i].startMinute <= ws[j].startMinute
                  && (ws[i].startMinute == ws[j].startMinute ==> ws[i].endMinute <= ws[j].endMinute))
            && multiset(ws) == if weekday in capacity.slots && slot in capacity.slots[weekday]
                               then multiset(capacity.slots[weekday][slot]) else multiset{}
  {
    if weekday in capacity.slots && slot in capacity.slots[weekday] {
      var ws := capacity.slots[weekday][slot];
      assert TotalPreorder(WindowLeq);
      SortSorted(ws, WindowLeq);
      SortMultiset(ws, WindowLeq);
      var listed := Windows(capacity, weekday, slot);
      assert forall i, j :: 0 <= i < j < |listed| ==> WindowLeq(listed[i], listed[j]);
    }
  }

  /** What one occurrence asks of the calendar: a length, the slots to try, and a span of days. */
  datatype Demand = Demand(duration: nat, slots: seq<SlotHint>, targetDay: int, weekEnd: int, maxShift: nat)

  function DemandOf(spec: TaskSpec, targetDay: int, weekStart: int, config: SchedulerConfig): Demand {
    Demand(spec.duration * MINUTE,
           if spec.slotHint != AnySlot then [spec.slotHint] else config.slotOrder,
           targetDay, weekStart + DAYS_PER_WEEK - 1, config.maxShiftDays)
  }

  /** The fit of one window on one day, as the search over windows sees it. */
  type Fitter = (int, TimeWindow) -> Option<int>

  function WindowFit(duration: nat, zone: (int, int) -> int, occupied: seq<Range>, gap: nat): Fitter {
    (day: int, w: TimeWindow) =>
      FirstFit(LocalInstant(day, w.startMinute, zone), LocalInstant(day, w.endMinute, zone), duration, occupied, gap)
  }

  function SearchWindows(day: int, ws: seq<TimeWindow>, fit: Fitter): Option<int> {
    if ws == [] then None
    else if fit(day, ws[0]).Some? then fit(day, ws[0])
    else SearchWindows(day, ws[1..], fit)
  }

  function SearchSlots(day: int, slots: seq<SlotHint>, capacity: Capacity, fit: Fitter): Option<int> {
    if slots == [] then None
    else
      var found := SearchWindows(day, Windows(capacity, WeekdayOf(day), slots[0]), fit);
      if found.Some? then found else SearchSlots(day, slots[1..], capacity, fit)
  }

  function SearchDay(d: Demand, shift: nat, capacity: Capacity, fit: Fitter): Option<int> {
    SearchSlots(d.targetDay + shift, d.slots, capacity, fit)
  }

  function SearchDays(d: Demand, shift: nat, capacity: Capacity, fit: Fitter): Option<int>
    decreases d.maxShift + 1 - shift
  {
    if d.maxShift < shift || d.targetDay + shift > d.weekEnd then None
    else
      var found := SearchDay(d, shift, capacity, fit);
      if found.Some? then found else SearchDays(d, shift + 1, capacity, fit)
  }

  function Place(d: Demand, capacity: Capacity, occupied: seq<Range>, gap: nat): Option<Range> {
    match SearchDays(d, 0, capacity, WindowFit(d.duration, capacity.zone, occupied, gap))
    case None => None
    case Some(start) => Some(Range(start, start + d.duration))
  }

  /** The innermost loop: the windows of one slot on one day. */
  method FindInWindows(day: int, windows: seq<TimeWindow>, duration: nat, zone: (int, int) -> int, occupied: seq<Range>,
                       gap: nat) returns (start: Option<int>)
    ensures start == SearchWindows(day, windows, WindowFit(duration, zone, occupied, gap))
  {
    ghost var fit := WindowFit(duration, zone, occupied, gap);
    for j := 0 to |windows|
      invariant SearchWindows(day, windows, fit) == SearchWindows(day, windows[j..], fit)
    {
      start := FindFirstFit(LocalInstant(day, windows[j].startMinute, zone),
                            LocalInstant(day, windows[j].endMinute, zone), duration, occupied, gap);
      assert start == fit(day, windows[j]);
      if start.Some? {
        return;
      }
      assert windows[j..][1..] == windows[j + 1..];
    }
    return None;
  }

  /** The loop over the slots of one day. */
  method FindOnDay(day: int, slots: seq<SlotHint>, duration: nat, capacity: Capacity, occupied: seq<Range>, gap: nat)
    returns (start: Option<int>)
    ensures start == SearchSlots(day, slots, capacity, WindowFit(duration, capacity.zone, occupied, gap))
  {
    ghost var fit := WindowFit(duration, capacity.zone, occupied, gap);
    for i := 0 to |slots|
      invariant SearchSlots(day, slots, capacity, fit) == SearchSlots(day, slots[i..], capacity, fit)
    {
      start := FindInWindows(day, Windows(capacity, WeekdayOf(day), slots[i]), duration, capacity.zone, occupied, gap);
      if start.Some? {
        return;
      }
      assert slots[i..][1..] == slots[i + 1..];
    }
    return None;
  }

  /** The loop over day shifts, with its two early exits. */
  method FindPlace(d: Demand, capacity: Capacity, occupied: seq<Range>, gap: nat) returns (placed: Option<Range>)
    ensures placed == Place(d, capacity, occupied, gap)
  {
    ghost var fit := WindowFit(d.duration, capacity.zone, occupied, gap);
    var shift := 0;
    while shift < d.maxShift + 1
      invariant 0 <= shift <= d.maxShift + 1
      invariant SearchDays(d, 0, capacity, fit) == SearchDays(d, shift, capacity, fit)
    {
      if d.targetDay + shift > d.weekEnd {
        break;
      }
      var start := FindOnDay(d.targetDay + shift, d.slots, d.duration, capacity, occupied, gap);
      if start.Some? {
        return Some(Range(start.value, start.value + d.duration));
      }
      shift := shift + 1;
    }
    return None;
  }

  // ------------------------------------------------------------------ what the search finds

  /** One attempt of the search: how many days later, which slot, which window of that slot. */
  datatype Attempt = Attempt(shift: nat, slot: nat, window: nat)

  predicate Precedes(a: Attempt, b: Attempt) {
    || a.shift < b.shift
    || (a.shift == b.shift && (a.slot < b.slot || (a.slot == b.slot && a.window < b.window)))
  }

  function WindowsAt(d: Demand, a: Attempt, capacity: Capacity): seq<TimeWindow> {
    if a.slot < |d.slots| then Windows(capacity, WeekdayOf(d.targetDay + a.shift), d.slots[a.slot]) else []
  }

  /** The attempts on offer: within the shift limit, never past the week, an existing slot and window. */
  predicate Offered(d: Demand, a: Attempt, capacity: Capacity) {
    && a.shift <= d.maxShift
    && d.targetDay + a.shift <= d.weekEnd
    && a.window < |WindowsAt(d, a, capacity)|
  }

  function OpensAt(d: Demand, a: Attempt, capacity: Capacity): int
    requires Offered(d, a, capacity)
  {
    LocalInstant(d.targetDay + a.shift, WindowsAt(d, a, capacity)[a.window].startMinute, capacity.zone)
  }

  function ClosesAt(d: Demand, a: Attempt, capacity: Capacity): int
    requires Offered(d, a, capacity)
  {
    LocalInstant(d.targetDay + a.shift, WindowsAt(d, a, capacity)[a.window].endMinute, capacity.zone)
  }

  function FitAt(d: Demand, a: Attempt, capacity: Capacity, fit: Fitter): Option<int>
    requires Offered(d, a, capacity)
  {
    fit(d.targetDay + a.shift, WindowsAt(d, a, capacity)[a.window])
  }

  lemma {:induction false} SearchWindowsFirst(day: int, ws: seq<TimeWindow>, fit: Fitter) returns (j: nat)
    ensures j <= |ws|
    ensures forall k :: 0 <= k < j ==> fit(day, ws[k]).None?
    ensures var found := SearchWindows(day, ws, fit);
            if j == |ws| then found.None? else found.Some? && found == fit(day, ws[j])
  {
    if ws == [] || fit(day, ws[0]).Some? {
      j := 0;
    } else {
      var k := SearchWindowsFirst(day, ws[1..], fit);
      j := k + 1;
    }
  }

  lemma {:induction false} SearchSlotsFirst(day: int, slots: seq<SlotHint>, capacity: Capacity, fit: Fitter)
    returns (i: nat)
    ensures i <= |slots|
    ensures forall k :: 0 <= k < i ==> SearchWindows(day, Windows(capacity, WeekdayOf(day), slots[k]), fit).None?
    ensures var found := SearchSlots(day, slots, capacity, fit);
            if i == |slots| then found.None?
            else found.Some? && found == SearchWindows(day, Windows(capacity, WeekdayOf(day), slots[i]), fit)
  {
    if slots == [] || SearchWindows(day, Windows(capacity, WeekdayOf(day), slots[0]), fit).Some? {
      i := 0;
    } else {
      var k := SearchSlotsFirst(day, slots[1..], capacity, fit);
      i := k + 1;
    }
  }

  lemma {:induction false} SearchDaysFirst(d: Demand, shift: nat, capacity: Capacity, fit: Fitter) returns (s: nat)
    ensures shift <= s
    ensures forall k :: shift <= k < s && k <= d.maxShift && d.targetDay + k <= d.weekEnd ==>
              SearchDay(d, k, capacity, fit).None?
    ensures var found := SearchDays(d, shift, capacity, fit);
            if s > d.maxShift || d.targetDay + s > d.weekEnd then found.None?
            else found.Some? && found == SearchDay(d, s, capacity, fit)
    decreases d.maxShift + 1 - shift
  {
    if d.maxShift < shift || d.targetDay + shift > d.weekEnd || SearchDay(d, shift, capacity, fit).Some? {
      s := shift;
    } else {
      s := SearchDaysFirst(d, shift + 1, capacity, fit);
    }
  }

  lemma NoFitOnDay(d: Demand, a: Attempt, capacity: Capacity, fit: Fitter)
    requires Offered(d, a, capacity) && SearchDay(d, a.shift, capacity, fit).None?
    ensures FitAt(d, a, capacity, fit).None?
  {
    var day := d.targetDay + a.shift;
    var _ := SearchSlotsFirst(day, d.slots, capacity, fit);
    var _ := SearchWindowsFirst(day, WindowsAt(d, a, capacity), fit);
  }

  ghost predicate IsFirstFit(d: Demand, a: Attempt, capacity: Capacity, fit: Fitter) {
    && Offered(d, a, capacity)
    && FitAt(d, a, capacity, fit).Some?
    && forall b :: Offered(d, b, capacity) && Precedes(b, a) ==> FitAt(d, b, capacity, fit).None?
  }

  /** The search answers with the lexicographically first attempt that fits, or shows none does. */
  lemma SearchIsLexicographic(d: Demand, capacity: Capacity, fit: Fitter) returns (a: Attempt)
    ensures match SearchDays(d, 0, capacity, fit)
            case None => forall b :: Offered(d, b, capacity) ==> FitAt(d, b, capacity, fit).None?
            case Some(start) => IsFirstFit(d, a, capacity, fit) && FitAt(d, a, capacity, fit) == Some(start)
  {
    var s := SearchDaysFirst(d, 0, capacity, fit);
    a := Attempt(0, 0, 0);
    if s <= d.maxShift && d.targetDay + s <= d.weekEnd {
      var day := d.targetDay + s;
      var i := SearchSlotsFirst(day, d.slots, capacity, fit);
      var j := SearchWindowsFirst(day, Windows(capacity, WeekdayOf(day), d.slots[i]), fit);
      a := Attempt(s, i, j);
      forall b | Offered(d, b, capacity) && Precedes(b, a) ensures FitAt(d, b, capacity, fit).None? {
        if b.shift < s {
          NoFitOnDay(d, b, capacity, fit);
        } else if b.slot < i {
          var _ := SearchWindowsFirst(day, WindowsAt(d, b, capacity), fit);
        }
      }
    } else {
      forall b | Offered(d, b, capacity) ensures FitAt(d, b, capacity, fit).None? {
        NoFitOnDay(d, b, capacity, fit);
      }
    }
  }

  /** `_place` answers with the lexicographically first attempt (day shift, slot order, window order)
      that admits a fit, for exactly the length asked, and with nothing exactly when no attempt does. */
  lemma PlaceIsLexicographicallyFirst(d: Demand, capacity: Capacity, occupied: seq<Range>, gap: nat)
    ensures var fit := WindowFit(d.duration, capacity.zone, occupied, gap);
            match Place(d, capacity, occupied, gap)
            case None => forall b :: Offered(d, b, capacity) ==> FitAt(d, b, capacity, fit).None?
            case Some(r) =>
              && r.end == r.start + d.duration
              && exists a :: IsFirstFit(d, a, capacity, fit) && FitAt(d, a, capacity, fit) == Some(r.start)
  {
    var _ := SearchIsLexicographic(d, capacity, WindowFit(d.duration, capacity.zone, occupied, gap));
  }

  lemma PlaceKeepsGap(d: Demand, capacity: Capacity, occupied: seq<Range>, gap: nat)
    ensures var p := Place(d, capacity, occupied, gap);
            p.Some? ==> forall r :: r in occupied ==> Apart(p.value, r, gap)
  {
    var a := SearchIsLexicographic(d, capacity, WindowFit(d.duration, capacity.zone, occupied, gap));
    var p := Place(d, capacity, occupied, gap);
    if p.Some? {
      var day, w := d.targetDay + a.shift, WindowsAt(d, a, capacity)[a.window];
      FirstFitKeepsGap(LocalInstant(day, w.startMinute, capacity.zone), LocalInstant(day, w.endMinute, capacity.zone),
                       d.duration, occupied, gap);
    }
  }

  /** A placement, relative to the window it was found in: it never starts before the window opens, and
      it ends after the window closes exactly on the calls where the early return overruns; in a window
      shorter than the task it starts as the window opens. */
  ghost predicate PlacedIn(p: Range, opens: int, closes: int, duration: nat, occupied: seq<Range>, gap: nat) {
    && opens <= p.start
    && (closes < opens + duration ==> p.start == opens)
    && (closes < p.end <==> EarlyReturnOverruns(opens, closes, duration, occupied, gap))
  }

  /** The day of a placement lies between the target day and the earlier of the shift limit and the
      end of the week, and the placement lies in the free window of the first attempt that fits, wherever
      that window is long enough. */
  lemma PlaceStaysInWeek(d: Demand, capacity: Capacity, occupied: seq<Range>, gap: nat) returns (a: Attempt)
    ensures var p, fit := Place(d, capacity, occupied, gap), WindowFit(d.duration, capacity.zone, occupied, gap);
            p.Some? ==>
              && IsFirstFit(d, a, capacity, fit) && FitAt(d, a, capacity, fit) == Some(p.value.start)
              && d.targetDay <= d.targetDay + a.shift <= Min(d.targetDay + d.maxShift, d.weekEnd)
              && p.value.end == p.value.start + d.duration
              && PlacedIn(p.value, OpensAt(d, a, capacity), ClosesAt(d, a, capacity), d.duration, occupied, gap)
  {
    a := SearchIsLexicographic(d, capacity, WindowFit(d.duration, capacity.zone, occupied, gap));
    if Place(d, capacity, occupied, gap).Some? {
      FitIsPlacedIn(OpensAt(d, a, capacity), ClosesAt(d, a, capacity), d.duration, occupied, gap);
    }
  }

  /** When nothing is placed, no window on offer has room, now or once more is taken. */
  lemma NoPlaceMeansNoRoom(d: Demand, capacity: Capacity, occupied: seq<Range>, later: seq<Range>, gap: nat)
    requires Place(d, capacity, occupied, gap).None? && forall r :: r in occupied ==> r in later
    ensures forall a :: Offered(d, a, capacity) ==>
              LeftmostFit(None, OpensAt(d, a, capacity), ClosesAt(d, a, capacity), d.duration, later, gap)
  {
    var fit := WindowFit(d.duration, capacity.zone, occupied, gap);
    var _ := SearchIsLexicographic(d, capacity, fit);
    forall a | Offered(d, a, capacity)
      ensures LeftmostFit(None, OpensAt(d, a, capacity), ClosesAt(d, a, capacity), d.duration, later, gap)
    {
      var opens, closes := OpensAt(d, a, capacity), ClosesAt(d, a, capacity);
      assert FitAt(d, a, capacity, fit).None?;
      FirstFitExact(opens, closes, d.duration, occupied, gap);
      forall t ensures !Fits(t, opens, closes, d.duration, later, gap) {
        assert !Fits(t, opens, closes, d.duration, occupied, gap);
      }
    }
  }

  lemma FitIsPlacedIn(opens: int, closes: int, duration: nat, occupied: seq<Range>, gap: nat)
    ensures var s := FirstFit(opens, closes, duration, occupied, gap);
            s.Some? ==> PlacedIn(Range(s.value, s.value + duration), opens, closes, duration, occupied, gap)
  {
    FirstFitExact(opens, closes, duration, occupied, gap);
    FirstFitKeepsGap(opens, closes, duration, occupied, gap);
  }

  // ------------------------------------------------------------------ order of the taken list

  lemma {:induction false} SameWindowsSearch(day: int, ws: seq<TimeWindow>, f: Fitter, g: Fitter)
    requires forall w :: f(day, w) == g(day, w)
    ensures SearchWindows(day, ws, f) == SearchWindows(day, ws, g)
  {
    if ws != [] {
      SameWindowsSearch(day, ws[1..], f, g);
    }
  }

  lemma {:induction false} SameSlotsSearch(day: int, slots: seq<SlotHint>, capacity: Capacity, f: Fitter, g: Fitter)
    requires forall w :: f(day, w) == g(day, w)
    ensures SearchSlots(day, slots, capacity, f) == SearchSlots(day, slots, capacity, g)
  {
    if slots != [] {
      SameWindowsSearch(day, Windows(capacity, WeekdayOf(day), slots[0]), f, g);
      SameSlotsSearch(day, slots[1..], capacity, f, g);
    }
  }

  lemma {:induction false} SameDaysSearch(d: Demand, shift: nat, capacity: Capacity, f: Fitter, g: Fitter)
    requires forall day, w :: f(day, w) == g(day, w)
    ensures SearchDays(d, shift, capacity, f) == SearchDays(d, shift, capacity, g)
    decreases d.maxShift + 1 - shift
  {
    if !(d.maxShift < shift || d.targetDay + shift > d.weekEnd) {
      SameSlotsSearch(d.targetDay + shift, d.slots, capacity, f, g);
      SameDaysSearch(d, shift + 1, capacity, f, g);
    }
  }

  lemma PlaceIgnoresOrder(d: Demand, capacity: Capacity, occupied: seq<Range>, permuted: seq<Range>, gap: nat)
    requires multiset(occupied) == multiset(permuted)
    ensures Place(d, capacity, occupied, gap) == Place(d, capacity, permuted, gap)
  {
    var f := WindowFit(d.duration, capacity.zone, occupied, gap);
    var g := WindowFit(d.duration, capacity.zone, permuted, gap);
    forall day, w ensures f(day, w) == g(day, w) {
      FirstFitIgnoresOrder(LocalInstant(day, w.startMinute, capacity.zone),
                           LocalInstant(day, w.endMinute, capacity.zone), d.duration, occupied, permuted, gap);
    }
    SameDaysSearch(d, 0, capacity, f, g);
  }
}
