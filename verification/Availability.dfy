/** Slot generation: working hours, holidays, notice, horizon and busy time in,
    bookable slots out. Instants are epoch milliseconds; the time zone is a
    handful of functions about which nothing is assumed. */
module Availability {
  import opened Common

  /** A time zone. `at` takes a calendar day and a minute of that day. */
  datatype Zone = Zone(dayOf: int -> int, at: (int, int) -> int, weekdayOf: int -> int, minuteOf: int -> int)

  /** One weekday's entry: `Closed` stands for closed and unreadable entries. */
  datatype Hours = Closed | Open(open: int, close: int)

  /** Working hours by weekday; a missing weekday is closed. */
  type Week = map<int, Hours>

  datatype Member = Member(id: int, isActive: bool, hours: Option<Week>)

  /** A busy time; `None` is a date that does not parse. */
  datatype Busy = Busy(start: Option<int>, end: Option<int>)

  datatype Interval = Interval(start: int, end: int)

  datatype Slot = Slot(member: Member, start: int, end: int)

  datatype Settings = Settings(slotMinutes: int, bufferMinutes: int, minNoticeMinutes: int, maxAdvanceDays: int,
                               holidays: set<int>)

  datatype Query = Query(zone: Zone, settings: Settings, businessHours: Week, staff: seq<Member>,
                         busy: map<int, seq<Busy>>, from: Option<int>, to: Option<int>, now: int,
                         minuteRange: Option<(int, int)>, limit: int)

  function SlotMs(q: Query): int { q.settings.slotMinutes * 60_000 }

  function BufferMs(q: Query): int { q.settings.bufferMinutes * 60_000 }

  function Earliest(q: Query): int
    requires q.from.Some?
  {
    var notice := q.now + q.settings.minNoticeMinutes * 60_000;
    if q.from.value > notice then q.from.value else notice
  }

  function Latest(q: Query): int
    requires q.to.Some?
  {
    var horizon := q.now + q.settings.maxAdvanceDays * 86_400_000;
    if q.to.value < horizon then q.to.value else horizon
  }

  // ---- what a bookable start is --------------------------------------------------------

  function HoursOn(q: Query, m: Member, day: int): Hours {
    var weekday := q.zone.weekdayOf(q.zone.at(day, 720));
    var week := if m.hours.Some? then m.hours.value else q.businessHours;
    if weekday in week then week[weekday] else Closed
  }

  /** `k` slots laid end to end. */
  function Slots(k: nat, slot: int): (length: int)
    ensures slot >= 0 ==> length >= 0
  {
    if k == 0 then 0 else Slots(k - 1, slot) + slot
  }

  ghost predicate OnGrid(open: int, slot: int, start: int) {
    exists k: nat :: start == open + Slots(k, slot)
  }

  function BusyOf(q: Query, id: int): seq<Busy> { if id in q.busy then q.busy[id] else [] }

  /** `b`, widened by the buffer, meets the slot that starts at `start`. */
  predicate Blocks(q: Query, b: Busy, start: int) {
    b.start.Some? && b.end.Some? && b.start.value - BufferMs(q) < start + SlotMs(q) && start < b.end.value + BufferMs(q)
  }

  predicate Clear(q: Query, id: int, start: int) {
    forall b <- BusyOf(q, id) :: !Blocks(q, b, start)
  }

  predicate InRange(q: Query, start: int) {
    q.minuteRange.Some? ==> q.minuteRange.value.0 <= q.zone.minuteOf(start) < q.minuteRange.value.1
  }

  predicate InWindow(q: Query, start: int) {
    q.from.Some? && q.to.Some? && Earliest(q) <= start && start + SlotMs(q) <= Latest(q)
  }

  /** The member's hours on `day` have a grid slot at `start`. */
  ghost predicate OpenAt(q: Query, m: Member, day: int, start: int) {
    day !in q.settings.holidays && HoursOn(q, m, day).Open?
    && OnGrid(q.zone.at(day, HoursOn(q, m, day).open), SlotMs(q), start)
    && start + SlotMs(q) <= q.zone.at(day, HoursOn(q, m, day).close)
  }

  ghost predicate Offers(q: Query, m: Member, day: int, start: int) {
    OpenAt(q, m, day, start) && InWindow(q, start) && InRange(q, start) && Clear(q, m.id, start)
  }

  function Active(staff: seq<Member>): seq<Member> {
    if staff == [] then []
    else (if staff[0].isActive then [staff[0]] else []) + Active(staff[1..])
  }

  /** The members, in order, that offer `start` on `day`. */
  ghost function OnDay(q: Query, members: seq<Member>, day: int, start: int): seq<Member> {
    if members == [] then []
    else
      var last := members[|members| - 1];
      OnDay(q, members[..|members| - 1], day, start) + if Offers(q, last, day, start) then [last] else []
  }

  ghost function OnDays(q: Query, first: int, end: int, start: int): seq<Member>
    decreases end - first
  {
    if end <= first then [] else OnDays(q, first, end - 1, start) + OnDay(q, Active(q.staff), end - 1, start)
  }

  /** Everyone a slot at `start` can be given to, day by day of the window. */
  ghost function Candidates(q: Query, start: int): seq<Member> {
    if q.from.None? || q.to.None? then []
    else OnDays(q, q.zone.dayOf(Earliest(q)), q.zone.dayOf(Latest(q)) + 1, start)
  }

  function Cap(limit: int): nat { if limit > 0 then limit else 0 }

  ghost predicate Increasing(slots: seq<Slot>) {
    forall i, j :: 0 <= i < j < |slots| ==> slots[i].start < slots[j].start
  }

  /** The i-th slot starts at a bookable instant and goes, round robin, to one of
      the members that are free then. */
  ghost predicate WellAssigned(q: Query, slot: Slot, i: nat) {
    var c := Candidates(q, slot.start);
    c != [] && slot.member == c[i % |c|] && slot.end == slot.start + SlotMs(q)
  }

  /** No bookable start is passed over: it is listed, or the list is full and it
      comes after everything listed. */
  ghost predicate Listed(q: Query, slots: seq<Slot>, start: int) {
    (exists i :: 0 <= i < |slots| && slots[i].start == start)
    || (|slots| == Cap(q.limit) && forall i :: 0 <= i < |slots| ==> slots[i].start < start)
  }

  /** `slots` are exactly the first `limit` bookable starts. */
  ghost predicate IsAnswer(q: Query, slots: seq<Slot>) {
    && |slots| <= Cap(q.limit) && Increasing(slots)
    && (forall i :: 0 <= i < |slots| ==> WellAssigned(q, slots[i], i))
    && (forall start :: Candidates(q, start) != [] ==> Listed(q, slots, start))
  }

  // ---- the generator -----------------------------------------------------------------------

  ghost predicate Sorted(busy: seq<Interval>) {
    forall i, j :: 0 <= i < j < |busy| ==> busy[i].start <= busy[j].start
  }

  ghost predicate Hits(busy: seq<Interval>, start: int, end: int) {
    exists i :: 0 <= i < |busy| && busy[i].start < end && start < busy[i].end
  }

  /** Adds one interval to a sorted list, after those that start no later. */
  method Insert(busy: seq<Interval>, x: Interval) returns (r: seq<Interval>)
    requires Sorted(busy)
    ensures Sorted(r) && forall y :: y in r <==> y in busy || y == x
  {
    var at := 0;
    while at < |busy| && busy[at].start <= x.start
      invariant at <= |busy| && forall i :: 0 <= i < at ==> busy[i].start <= x.start
    {
      at := at + 1;
    }
    r := busy[..at] + [x] + busy[at..];
  }

  function Widen(b: Busy, buffer: int): Option<Interval> {
    if b.start.Some? && b.end.Some? then Some(Interval(b.start.value - buffer, b.end.value + buffer)) else None
  }

  /** Buffered, without the unreadable ones, sorted by start. */
  method ParseBusy(busy: seq<Busy>, buffer: int) returns (parsed: seq<Interval>)
    ensures Sorted(parsed)
    ensures forall x :: x in parsed <==> exists b :: b in busy && Widen(b, buffer) == Some(x)
  {
    parsed := [];
    for k := 0 to |busy|
      invariant Sorted(parsed)
      invariant forall x :: x in parsed <==> exists b :: b in busy[..k] && Widen(b, buffer) == Some(x)
    {
      assert busy[..k + 1] == busy[..k] + [busy[k]];
      if busy[k].start.Some? && busy[k].end.Some? {
        parsed := Insert(parsed, Widen(busy[k], buffer).value);
      }
    }
    assert busy[..|busy|] == busy;
  }

  /** The scan stops at the first interval that starts too late; on a sorted list
      that loses nothing. */
  method OverlapsAny(start: int, end: int, busy: seq<Interval>) returns (overlaps: bool)
    requires Sorted(busy)
    ensures overlaps <==> Hits(busy, start, end)
  {
    for k := 0 to |busy|
      invariant forall i :: 0 <= i < k ==> !(busy[i].start < end && start < busy[i].end)
    {
      if busy[k].start >= end { return false; }
      if busy[k].end > start { return true; }
    }
    return false;
  }

  ghost predicate Parsed(q: Query, id: int, busy: seq<Interval>) {
    Sorted(busy) && forall x :: x in busy <==> exists b :: b in BusyOf(q, id) && Widen(b, BufferMs(q)) == Some(x)
  }

  lemma ClearIff(q: Query, id: int, busy: seq<Interval>, start: int)
    requires Parsed(q, id, busy)
    ensures Clear(q, id, start) <==> !Hits(busy, start, start + SlotMs(q))
  {
    if Hits(busy, start, start + SlotMs(q)) {
      var i :| 0 <= i < |busy| && busy[i].start < start + SlotMs(q) && start < busy[i].end;
      assert busy[i] in busy;
      var b :| b in BusyOf(q, id) && Widen(b, BufferMs(q)) == Some(busy[i]);
      assert Blocks(q, b, start);
    }
    if !Clear(q, id, start) {
      var b :| b in BusyOf(q, id) && Blocks(q, b, start);
      var x := Widen(b, BufferMs(q)).value;
      assert x in busy;
      var i :| 0 <= i < |busy| && busy[i] == x;
    }
  }

  /** The members collected so far for each start; never an empty list. */
  type ByStart = map<int, seq<Member>>

  function Get(m: ByStart, start: int): seq<Member> { if start in m then m[start] else [] }

  ghost predicate NoneEmpty(m: ByStart) { forall s <- m :: m[s] != [] }

  lemma {:induction false} Stretch(slot: int, j: nat, k: nat)
    requires slot > 0 && j < k
    ensures Slots(j, slot) + slot <= Slots(k, slot)
  {
    if k > j + 1 { Stretch(slot, j, k - 1); }
  }

  lemma GridStep(open: int, slot: int, k: nat, start: int)
    requires slot > 0 && OnGrid(open, slot, start) && open + Slots(k, slot) <= start < open + Slots(k, slot) + slot
    ensures start == open + Slots(k, slot)
  {
    var j: nat :| start == open + Slots(j, slot);
    if j < k { Stretch(slot, j, k); } else if j > k { Stretch(slot, k, j); }
  }

  ghost function If(c: bool, m: Member): seq<Member> { if c then [m] else [] }

  /** One member's grid on one day. */
  method AddMember(q: Query, m: Member, day: int, busy: seq<Interval>, before: ByStart) returns (after: ByStart)
    requires SlotMs(q) > 0 && q.from.Some? && q.to.Some? && Parsed(q, m.id, busy) && NoneEmpty(before)
    requires day !in q.settings.holidays
    ensures NoneEmpty(after)
    ensures forall s :: Get(after, s) == Get(before, s) + If(Offers(q, m, day, s), m)
  {
    after := before;
    var hours := HoursOn(q, m, day);
    if hours.Closed? { return; }
    var open, close, slot := q.zone.at(day, hours.open), q.zone.at(day, hours.close), SlotMs(q);
    var start := open;
    ghost var k: nat := 0;
    while start + slot <= close
      invariant start == open + Slots(k, slot) && NoneEmpty(after)
      invariant forall s :: Get(after, s) == Get(before, s) + If(s < start && Offers(q, m, day, s), m)
      decreases close - start
    {
      var taken := false;
      if InWindow(q, start) && InRange(q, start) {
        var hit := OverlapsAny(start, start + slot, busy);
        ClearIff(q, m.id, busy, start);
        taken := !hit;
      }
      assert OnGrid(open, slot, start);
      assert taken <==> Offers(q, m, day, start);
      forall s | Offers(q, m, day, s) && start <= s < start + slot ensures s == start { GridStep(open, slot, k, s); }
      if taken { after := after[start := Get(after, start) + [m]]; }
      start, k := start + slot, k + 1;
      assert start == open + Slots(k, slot);
    }
    assert forall s :: Offers(q, m, day, s) ==> s < start;
  }

  method AddDay(q: Query, members: seq<Member>, day: int, busy: map<int, seq<Interval>>, before: ByStart)
    returns (after: ByStart)
    requires SlotMs(q) > 0 && q.from.Some? && q.to.Some? && NoneEmpty(before)
    requires forall m <- members :: m.id in busy && Parsed(q, m.id, busy[m.id])
    ensures NoneEmpty(after)
    ensures forall s :: Get(after, s) == Get(before, s) + OnDay(q, members, day, s)
  {
    hide Parsed;
    hide Offers;
    hide OnDay;
    hide Get;
    after := before;
    if day in q.settings.holidays {
      forall s ensures OnDay(q, members, day, s) == [] { HolidaysAreFree(q, members, day, s); }
      return;
    }
    forall s ensures OnDay(q, members[..0], day, s) == [] { NobodyYet(q, members, day, s); }
    for k := 0 to |members|
      invariant NoneEmpty(after)
      invariant forall s :: Get(after, s) == Get(before, s) + OnDay(q, members[..k], day, s)
    {
      ghost var sofar := after;
      after := AddMember(q, members[k], day, busy[members[k].id], after);
      forall s ensures Get(after, s) == Get(before, s) + OnDay(q, members[..k + 1], day, s) {
        OneMoreMember(q, members, k, day, s);
        assert Get(after, s) == Get(sofar, s) + If(Offers(q, members[k], day, s), members[k]);
      }
    }
    assert members[..|members|] == members;
  }

  lemma NobodyYet(q: Query, members: seq<Member>, day: int, start: int)
    ensures OnDay(q, members[..0], day, start) == []
  {
  }

  lemma OneMoreMember(q: Query, members: seq<Member>, k: nat, day: int, start: int)
    requires k < |members|
    ensures OnDay(q, members[..k + 1], day, start)
         == OnDay(q, members[..k], day, start) + If(Offers(q, members[k], day, start), members[k])
  {
    assert members[..k + 1][..k] == members[..k];
  }

  lemma {:induction false} HolidaysAreFree(q: Query, members: seq<Member>, day: int, start: int)
    requires day in q.settings.holidays
    ensures OnDay(q, members, day, start) == []
  {
    if members != [] { HolidaysAreFree(q, members[..|members| - 1], day, start); }
  }

  ghost predicate Ascending(keys: seq<int>) {
    forall i, j :: 0 <= i < j < |keys| ==> keys[i] < keys[j]
  }

  method Sort(all: set<int>) returns (keys: seq<int>)
    ensures forall s :: s in keys <==> s in all
    ensures Ascending(keys)
  {
    var left := all;
    keys := [];
    while exists s :: s in left
      invariant left <= all
      invariant forall s :: s in keys <==> s in all && s !in left
      invariant Ascending(keys)
      decreases |left|
    {
      var s :| s in left;
      var at := 0;
      while at < |keys| && keys[at] < s
        invariant at <= |keys| && forall i :: 0 <= i < at ==> keys[i] < s
      {
        at := at + 1;
      }
      keys := keys[..at] + [s] + keys[at..];
      left := left - {s};
    }
  }

  method ParseAll(q: Query, members: seq<Member>) returns (busy: map<int, seq<Interval>>)
    ensures forall m <- members :: m.id in busy && Parsed(q, m.id, busy[m.id])
  {
    busy := map[];
    for k := 0 to |members|
      invariant forall m <- members[..k] :: m.id in busy && Parsed(q, m.id, busy[m.id])
    {
      var parsed := ParseBusy(BusyOf(q, members[k].id), BufferMs(q));
      assert Parsed(q, members[k].id, parsed);
      busy := busy[members[k].id := parsed];
    }
  }

  lemma {:induction false} NobodyOnDays(q: Query, first: int, end: int, start: int)
    requires !InWindow(q, start) || Active(q.staff) == []
    ensures OnDays(q, first, end, start) == []
    decreases end - first
  {
    if first < end {
      NobodyOnDays(q, first, end - 1, start);
      NobodyOnDay(q, Active(q.staff), end - 1, start);
    }
  }

  lemma {:induction false} NobodyOnDay(q: Query, members: seq<Member>, day: int, start: int)
    requires !InWindow(q, start) || members == []
    ensures OnDay(q, members, day, start) == []
  {
    if members != [] { NobodyOnDay(q, members[..|members| - 1], day, start); }
  }

  lemma NobodyThere(q: Query, start: int)
    requires SlotMs(q) > 0 && q.from.Some? && q.to.Some?
    requires Earliest(q) >= Latest(q) || Active(q.staff) == []
    ensures Candidates(q, start) == []
  {
    NobodyOnDays(q, q.zone.dayOf(Earliest(q)), q.zone.dayOf(Latest(q)) + 1, start);
  }

  /** Takes the first `limit` starts and deals them out round robin. */
  method Assign(q: Query, starts: seq<int>, byStart: ByStart) returns (slots: seq<Slot>)
    requires NoneEmpty(byStart) && forall s :: Get(byStart, s) == Candidates(q, s)
    requires forall s :: s in starts <==> s in byStart
    requires Ascending(starts)
    ensures IsAnswer(q, slots)
  {
    hide Candidates;
    slots := [];
    var rr := 0;
    while rr < |starts| && |slots| < q.limit
      invariant rr == |slots| <= |starts| && rr <= Cap(q.limit)
      invariant forall i :: 0 <= i < rr ==> slots[i].start == starts[i] && WellAssigned(q, slots[i], i)
    {
      assert starts[rr] in starts;
      var candidates := byStart[starts[rr]];
      assert candidates == Get(byStart, starts[rr]);
      slots := slots + [Slot(candidates[rr % |candidates|], starts[rr], starts[rr] + SlotMs(q))];
      rr := rr + 1;
    }
    forall start | Candidates(q, start) != [] ensures Listed(q, slots, start) {
      assert Get(byStart, start) == Candidates(q, start);
      var i :| 0 <= i < |starts| && starts[i] == start;
      if i < rr { assert slots[i].start == start; }
    }
  }

  /** Every day of the window, every active member, every grid instant; merged by start,
      sorted, and dealt out. */
  method GenerateSlots(q: Query) returns (slots: seq<Slot>)
    requires SlotMs(q) > 0
    ensures IsAnswer(q, slots)
  {
    hide Offers;
    hide Parsed;
    hide Ascending;
    hide OnDay;
    hide Listed;
    hide Active;
    slots := [];
    if q.from.None? || q.to.None? { return; }
    var active := Active(q.staff);
    if Earliest(q) >= Latest(q) || active == [] {
      forall s ensures Candidates(q, s) == [] { NobodyThere(q, s); }
      return;
    }
    var busy := ParseAll(q, active);
    var byStart: ByStart := map[];
    var first, last := q.zone.dayOf(Earliest(q)), q.zone.dayOf(Latest(q));
    var day := first;
    while day <= last
      invariant first <= day && (day <= last + 1 || day == first) && NoneEmpty(byStart)
      invariant forall s :: Get(byStart, s) == OnDays(q, first, day, s)
    {
      byStart := AddDay(q, active, day, busy, byStart);
      day := day + 1;
    }
    assert forall s :: Get(byStart, s) == Candidates(q, s);
    var starts := Sort(byStart.Keys);
    slots := Assign(q, starts, byStart);
  }
}
