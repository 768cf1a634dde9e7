/** What a generated slot list means, and the re-check of a single proposed slot. */
module SlotChecks {
  import opened Common
  import opened Availability

  // ---- what the answer means ---------------------------------------------------------------

  /** The specification leaves nothing open: two answers to one query are the same. */
  lemma {:induction false} AnswerIsUnique(q: Query, a: seq<Slot>, b: seq<Slot>)
    requires IsAnswer(q, a) && IsAnswer(q, b)
    ensures a == b
  {
    if |a| <= |b| { AnswersAgree(q, a, b); } else { AnswersAgree(q, b, a); }
  }

  lemma AnswersAgree(q: Query, a: seq<Slot>, b: seq<Slot>)
    requires IsAnswer(q, a) && IsAnswer(q, b) && |a| <= |b|
    ensures a == b
  {
    AnswerIsPrefix(q, a, b, |a|);
    AllListed(q, a, b);
    NextIsNew(q, a, b);
  }

  lemma {:induction false} AnswerIsPrefix(q: Query, a: seq<Slot>, b: seq<Slot>, n: nat)
    requires IsAnswer(q, a) && IsAnswer(q, b) && n <= |a| <= |b|
    ensures forall i :: 0 <= i < n ==> a[i] == b[i]
  {
    hide Candidates;
    hide WellAssigned;
    if n > 0 {
      AnswerIsPrefix(q, a, b, n - 1);
      NotSkipped(q, a, b, n - 1);
      NotSkipped(q, b, a, n - 1);
      SameSlot(q, a[n - 1], b[n - 1], n - 1);
    }
  }

  lemma SameSlot(q: Query, x: Slot, y: Slot, i: nat)
    requires WellAssigned(q, x, i) && WellAssigned(q, y, i) && x.start == y.start
    ensures x == y
  {
    hide Candidates;
  }

  lemma AllListed(q: Query, a: seq<Slot>, b: seq<Slot>)
    requires IsAnswer(q, a) && IsAnswer(q, b)
    ensures forall i :: 0 <= i < |b| ==> Listed(q, a, b[i].start)
  {
    forall i | 0 <= i < |b| ensures Listed(q, a, b[i].start) { assert WellAssigned(q, b[i], i); }
  }

  /** Where two answers agree so far, the second does not skip what the first lists next. */
  lemma NotSkipped(q: Query, a: seq<Slot>, b: seq<Slot>, n: nat)
    requires IsAnswer(q, a) && IsAnswer(q, b) && n < |a| && n < |b|
    requires forall i :: 0 <= i < n ==> a[i] == b[i]
    ensures b[n].start <= a[n].start
  {
    hide Candidates;
    AllListed(q, b, a);
    forall i | 0 <= i < n ensures b[i].start < a[n].start { assert a[i] == b[i]; }
  }

  lemma NextIsNew(q: Query, a: seq<Slot>, b: seq<Slot>)
    requires Increasing(b) && |a| <= |b| <= Cap(q.limit)
    requires forall i :: 0 <= i < |a| ==> a[i] == b[i]
    ensures |a| < |b| ==> !Listed(q, a, b[|a|].start)
  {
  }

  ghost predicate OffersWithin(q: Query, m: Member, first: int, end: int, start: int) {
    exists day :: first <= day < end && Offers(q, m, day, start)
  }

  lemma {:induction false} ActiveIff(staff: seq<Member>, m: Member)
    ensures m in Active(staff) <==> m in staff && m.isActive
  {
    if staff != [] {
      assert staff == [staff[0]] + staff[1..];
      ActiveIff(staff[1..], m);
    }
  }

  lemma {:induction false} OnDayIff(q: Query, members: seq<Member>, day: int, start: int, m: Member)
    ensures m in OnDay(q, members, day, start) <==> m in members && Offers(q, m, day, start)
  {
    hide Offers;
    if members != [] {
      var init := members[..|members| - 1];
      OnDayIff(q, init, day, start, m);
      assert members == init + [members[|members| - 1]];
    }
  }

  lemma {:induction false} OnDaysIff(q: Query, first: int, end: int, start: int, m: Member)
    ensures m in OnDays(q, first, end, start) <==> m in Active(q.staff) && OffersWithin(q, m, first, end, start)
    decreases end - first
  {
    hide Offers;
    if first < end {
      OnDaysIff(q, first, end - 1, start, m);
      OnDayIff(q, Active(q.staff), end - 1, start, m);
      if OffersWithin(q, m, first, end, start) {
        var day :| first <= day < end && Offers(q, m, day, start);
        assert day == end - 1 || OffersWithin(q, m, first, end - 1, start);
      }
    }
  }

  /** Who can be given a start: exactly the active members that offer it on some
      day of the window. */
  lemma CandidatesIff(q: Query, start: int, m: Member)
    requires q.from.Some? && q.to.Some?
    ensures m in Candidates(q, start) <==> m in q.staff && m.isActive && BookableWith(q, m, start)
  {
    ActiveIff(q.staff, m);
    OnDaysIff(q, q.zone.dayOf(Earliest(q)), q.zone.dayOf(Latest(q)) + 1, start, m);
  }

  lemma {:induction false} SlotsAreMultiples(k: nat, slot: int)
    ensures Slots(k, slot) == k * slot
  {
    if k > 0 { SlotsAreMultiples(k - 1, slot); }
  }

  lemma GridIff(open: int, slot: int, start: int)
    requires slot > 0
    ensures OnGrid(open, slot, start) <==> start >= open && (start - open) % slot == 0
  {
    if OnGrid(open, slot, start) {
      var k: nat :| start == open + Slots(k, slot);
      SlotsAreMultiples(k, slot);
      MultipleHasNoRest(k, slot);
    }
    if start >= open && (start - open) % slot == 0 {
      var k := (start - open) / slot;
      assert start - open == k * slot && k >= 0;
      SlotsAreMultiples(k, slot);
    }
  }

  lemma SmallMultiple(d: int, n: int)
    requires n > 0 && -n < d * n < n
    ensures d == 0
  {
    if d > 0 { LargeMultiple(d, n); } else if d < 0 { LargeMultiple(-d, n); }
  }

  lemma LargeMultiple(d: int, n: int)
    requires n > 0 && d > 0
    ensures d * n >= n
  {
  }

  lemma MultipleHasNoRest(k: nat, slot: int)
    requires slot > 0
    ensures k * slot >= 0 && (k * slot) % slot == 0
  {
    var x := k * slot;
    var d := k - x / slot;
    assert x == (x / slot) * slot + x % slot;
    assert d * slot == k * slot - (x / slot) * slot;
    SmallMultiple(d, slot);
  }

  /** The busy time, with the buffer on both sides, is over by `start` or begins at `end`. */
  predicate KeepsClear(b: Busy, buffer: int, start: int, end: int) {
    b.start.Some? && b.end.Some? ==> b.end.value + buffer <= start || end <= b.start.value - buffer
  }

  /** What it means to offer a start, in minutes and milliseconds: a working day, whole
      slots from opening time on that end by closing time, the notice, the horizon, the
      caller's window and time of day, and every busy time with its buffer. */
  lemma OffersMeans(q: Query, m: Member, day: int, start: int)
    requires SlotMs(q) > 0
    ensures Offers(q, m, day, start) <==>
      var hours, end := HoursOn(q, m, day), start + q.settings.slotMinutes * 60_000;
      && day !in q.settings.holidays && hours.Open?
      && q.zone.at(day, hours.open) <= start && end <= q.zone.at(day, hours.close)
      && (start - q.zone.at(day, hours.open)) % (q.settings.slotMinutes * 60_000) == 0
      && q.from.Some? && q.to.Some? && q.from.value <= start && end <= q.to.value
      && q.now + q.settings.minNoticeMinutes * 60_000 <= start
      && end <= q.now + q.settings.maxAdvanceDays * 86_400_000
      && (q.minuteRange.Some? ==> q.minuteRange.value.0 <= q.zone.minuteOf(start) < q.minuteRange.value.1)
      && (m.id in q.busy ==>
            forall b :: b in q.busy[m.id] ==> KeepsClear(b, q.settings.bufferMinutes * 60_000, start, end))
  {
    if HoursOn(q, m, day).Open? {
      var open := q.zone.at(day, HoursOn(q, m, day).open);
      GridIff(open, SlotMs(q), start);
      assert SlotMs(q) == q.settings.slotMinutes * 60_000;
    }
    hide OnGrid;
    ClearMeans(q, m, start);
  }

  lemma ClearMeans(q: Query, m: Member, start: int)
    ensures Clear(q, m.id, start) <==>
      (m.id in q.busy ==>
         forall b :: b in q.busy[m.id] ==>
           KeepsClear(b, q.settings.bufferMinutes * 60_000, start, start + q.settings.slotMinutes * 60_000))
  {
    var busy := BusyOf(q, m.id);
    var buffer, end := q.settings.bufferMinutes * 60_000, start + q.settings.slotMinutes * 60_000;
    if Clear(q, m.id, start) {
      forall b | b in busy ensures KeepsClear(b, buffer, start, end) { assert !Blocks(q, b, start); }
    } else {
      var b :| b in busy && Blocks(q, b, start);
      assert !KeepsClear(b, buffer, start, end);
    }
  }

  /** Taking turns: as long as the same members are free, no two of as many slots in a row
      as there are members go to the same one. */
  lemma TakesTurns(q: Query, slots: seq<Slot>, i: nat, j: nat)
    requires IsAnswer(q, slots) && i < j < |slots|
    requires var c := Candidates(q, slots[i].start);
      Candidates(q, slots[j].start) == c && j - i < |c| && forall a, b :: 0 <= a < b < |c| ==> c[a] != c[b]
    ensures slots[i].member != slots[j].member
  {
    hide Candidates;
    var c := Candidates(q, slots[i].start);
    assert WellAssigned(q, slots[i], i) && WellAssigned(q, slots[j], j);
    RestsDiffer(i, j, |c|);
    assert c[i % |c|] != c[j % |c|];
  }

  lemma RestsDiffer(i: nat, j: nat, n: nat)
    requires i < j && j - i < n
    ensures i % n != j % n
  {
    if i % n == j % n {
      var d := j / n - i / n;
      assert d * n == (j / n) * n - (i / n) * n == j - i;
      SmallMultiple(d, n);
    }
  }

  // ---- re-checking one slot ----------------------------------------------------------------

  function WithId(staff: seq<Member>, id: int): seq<Member> {
    if staff == [] then []
    else (if staff[0].id == id then [staff[0]] else []) + WithId(staff[1..], id)
  }

  lemma {:induction false} WithIdIff(staff: seq<Member>, id: int, m: Member)
    ensures m in WithId(staff, id) <==> m in staff && m.id == id
  {
    if staff != [] {
      assert staff == [staff[0]] + staff[1..];
      WithIdIff(staff[1..], id, m);
    }
  }

  function Recheck(q: Query, id: int, start: int, end: int): Query {
    q.(staff := WithId(q.staff, id), from := Some(start), to := Some(end), minuteRange := None, limit := 5)
  }

  /** The member's hours, on a day the slot touches, have this slot free. */
  ghost predicate CanBook(q: Query, id: int, start: int, end: int) {
    exists m :: m in q.staff && m.isActive && m.id == id && BookableWith(Recheck(q, id, start, end), m, start)
  }

  ghost predicate BookableWith(q: Query, m: Member, start: int)
    requires q.from.Some? && q.to.Some?
  {
    OffersWithin(q, m, q.zone.dayOf(Earliest(q)), q.zone.dayOf(Latest(q)) + 1, start)
  }

  method IsSlotAvailable(q: Query, id: int, start: int, end: int) returns (ok: bool)
    requires SlotMs(q) > 0
    ensures ok <==> CanBook(q, id, start, end)
  {
    var slots := GenerateSlots(Recheck(q, id, start, end));
    ok := exists i :: 0 <= i < |slots| && slots[i].start == start && slots[i].member.id == id;
    RecheckDecides(q, id, start, end, slots);
  }

  /** The proposed slot, said about the member's hours and calendar: on a date that the
      slot touches within notice and horizon, its start is on the grid; it leaves notice
      and horizon room, is long enough, and keeps clear of every busy time. */
  ghost predicate FreeOn(q: Query, m: Member, day: int, start: int, end: int) {
    var notice, horizon := q.now + q.settings.minNoticeMinutes * 60_000, q.now + q.settings.maxAdvanceDays * 86_400_000;
    && q.zone.dayOf(if start > notice then start else notice) <= day
    && day <= q.zone.dayOf(if end < horizon then end else horizon)
    && OpenAt(q, m, day, start) && notice <= start && start + SlotMs(q) <= end && start + SlotMs(q) <= horizon
    && (m.id in q.busy ==>
          forall b :: b in q.busy[m.id] ==>
            KeepsClear(b, q.settings.bufferMinutes * 60_000, start, start + q.settings.slotMinutes * 60_000))
  }

  lemma CanBookIff(q: Query, id: int, start: int, end: int)
    requires SlotMs(q) > 0
    ensures CanBook(q, id, start, end) <==>
      exists m, day: int :: m in q.staff && m.isActive && m.id == id && FreeOn(q, m, day, start, end)
  {
    hide OpenAt;
    hide FreeOn;
    var r := Recheck(q, id, start, end);
    forall m: Member, day: int | m.id == id
      ensures FreeOn(q, m, day, start, end) <==>
        q.zone.dayOf(Earliest(r)) <= day < q.zone.dayOf(Latest(r)) + 1 && Offers(r, m, day, start)
    {
      FreeMeans(q, m, day, start, end);
    }
    hide Offers;
    if CanBook(q, id, start, end) {
      var m :| m in q.staff && m.isActive && m.id == id && BookableWith(r, m, start);
      var day :| q.zone.dayOf(Earliest(r)) <= day < q.zone.dayOf(Latest(r)) + 1 && Offers(r, m, day, start);
      assert FreeOn(q, m, day, start, end);
    }
    if m, day: int :| m in q.staff && m.isActive && m.id == id && FreeOn(q, m, day, start, end) {
      assert Offers(r, m, day, start);
      assert BookableWith(r, m, start);
    }
  }

  lemma FreeMeans(q: Query, m: Member, day: int, start: int, end: int)
    requires SlotMs(q) > 0
    ensures var r := Recheck(q, m.id, start, end);
      FreeOn(q, m, day, start, end) <==>
        q.zone.dayOf(Earliest(r)) <= day < q.zone.dayOf(Latest(r)) + 1 && Offers(r, m, day, start)
  {
    var r := Recheck(q, m.id, start, end);
    SameHours(q, m.id, start, end, m, day);
    hide OpenAt;
    ClearMeans(q, m, start);
    ClearReads(q, r, m.id, start);
  }

  lemma ClearReads(q: Query, r: Query, id: int, start: int)
    requires q.busy == r.busy && q.settings == r.settings
    ensures Clear(q, id, start) <==> Clear(r, id, start)
  {
    assert forall b <- BusyOf(q, id) :: Blocks(q, b, start) == Blocks(r, b, start);
  }

  lemma NothingEarlier(q: Query, s: int)
    requires q.from.Some? && q.to.Some? && Candidates(q, s) != []
    ensures Earliest(q) <= s
  {
    var m := Candidates(q, s)[0];
    assert m in Candidates(q, s);
    CandidatesIff(q, s, m);
  }

  /** The proposed start is the first the window allows, so the cap of five cannot hide it. */
  lemma RecheckDecides(q: Query, id: int, start: int, end: int, slots: seq<Slot>)
    requires SlotMs(q) > 0 && IsAnswer(Recheck(q, id, start, end), slots)
    ensures (exists i :: 0 <= i < |slots| && slots[i].start == start && slots[i].member.id == id) <==>
      CanBook(q, id, start, end)
  {
    hide OffersWithin;
    hide Candidates;
    var r := Recheck(q, id, start, end);
    if i :| 0 <= i < |slots| && slots[i].start == start && slots[i].member.id == id {
      assert WellAssigned(r, slots[i], i);
      var m := slots[i].member;
      assert m in Candidates(r, start);
      CandidatesIff(r, start, m);
      WithIdIff(q.staff, id, m);
      assert BookableWith(r, m, start);
    }
    if CanBook(q, id, start, end) {
      var m :| m in q.staff && m.isActive && m.id == id && BookableWith(r, m, start);
      WithIdIff(q.staff, id, m);
      CandidatesIff(r, start, m);
      assert m in Candidates(r, start);
      assert Listed(r, slots, start);
      FirstIsListed(r, slots, start);
      var i :| 0 <= i < |slots| && slots[i].start == start;
      assert WellAssigned(r, slots[i], i) && slots[i].member in Candidates(r, start);
      CandidatesIff(r, start, slots[i].member);
      WithIdIff(q.staff, id, slots[i].member);
    }
  }

  lemma FirstIsListed(r: Query, slots: seq<Slot>, start: int)
    requires r.from == Some(start) && r.to.Some? && r.limit > 0 && IsAnswer(r, slots) && Listed(r, slots, start)
    ensures exists i :: 0 <= i < |slots| && slots[i].start == start
  {
    hide Candidates;
    if forall i :: 0 <= i < |slots| ==> slots[i].start < start {
      if |slots| > 0 {
        assert WellAssigned(r, slots[0], 0);
        NothingEarlier(r, slots[0].start);
      }
    }
  }

  /** The re-check's own view of a slot: on some local date that the slot touches, an
      active member of that id has hours with a grid slot at its start. */
  ghost predicate OpenOnItsDates(q: Query, id: int, start: int, end: int) {
    exists m, day: int :: OpenOn(q, m, id, day, start, end)
  }

  ghost predicate OpenOn(q: Query, m: Member, id: int, day: int, start: int, end: int) {
    m in q.staff && m.isActive && m.id == id && q.zone.dayOf(start) <= day <= q.zone.dayOf(end)
      && OpenAt(q, m, day, start)
  }

  /** Exactly when a generated slot passes the re-check: window, range and busy times
      were met when it was generated, so only the dates of the hours matter. */
  lemma {:induction false} GeneratedSlotsCanBeBookedIff(q: Query, slots: seq<Slot>, i: nat)
    requires SlotMs(q) > 0 && IsAnswer(q, slots) && i < |slots|
    ensures CanBook(q, slots[i].member.id, slots[i].start, slots[i].end)
      <==> OpenOnItsDates(q, slots[i].member.id, slots[i].start, slots[i].end)
  {
    hide Candidates;
    hide InRange;
    hide Clear;
    var s := slots[i];
    assert WellAssigned(q, s, i);
    var day0 := AssignedIsOffered(q, s, i);
    var r := Recheck(q, s.member.id, s.start, s.end);
    SameOffer(q, s.member, day0, s.start);
    if CanBook(q, s.member.id, s.start, s.end) {
      var m :| m in q.staff && m.isActive && m.id == s.member.id && BookableWith(r, m, s.start);
      var day :| q.zone.dayOf(s.start) <= day < q.zone.dayOf(s.end) + 1 && Offers(r, m, day, s.start);
      SameHours(q, s.member.id, s.start, s.end, m, day);
      assert OpenOn(q, m, s.member.id, day, s.start, s.end);
    }
    if OpenOnItsDates(q, s.member.id, s.start, s.end) {
      var m, day: int :| OpenOn(q, m, s.member.id, day, s.start, s.end);
      SameHours(q, s.member.id, s.start, s.end, m, day);
      assert Offers(r, m, day, s.start);
      assert BookableWith(r, m, s.start);
    }
  }

  lemma AssignedIsOffered(q: Query, s: Slot, i: nat) returns (day: int)
    requires WellAssigned(q, s, i)
    ensures s.member in q.staff && s.member.isActive && s.end == s.start + SlotMs(q)
    ensures Offers(q, s.member, day, s.start)
  {
    assert s.member in Candidates(q, s.start);
    assert q.from.Some? && q.to.Some?;
    CandidatesIff(q, s.start, s.member);
    day :| Offers(q, s.member, day, s.start);
  }

  lemma SameHours(q: Query, id: int, start: int, end: int, m: Member, day: int)
    ensures OpenAt(Recheck(q, id, start, end), m, day, start) <==> OpenAt(q, m, day, start)
  {
  }

  /** The member's hours stay within the local date `day`, as far as the zone can tell. */
  ghost predicate WithinDate(q: Query, m: Member, day: int) {
    HoursOn(q, m, day).Open? ==>
      var open, close := q.zone.at(day, HoursOn(q, m, day).open), q.zone.at(day, HoursOn(q, m, day).close);
      (forall t :: open <= t < close ==> q.zone.dayOf(t) == day) && q.zone.dayOf(close) >= day
  }

  /** In particular every slot of a member whose hours never run past midnight. */
  lemma {:induction false} GeneratedSlotsCanBeBooked(q: Query, slots: seq<Slot>, i: nat)
    requires SlotMs(q) > 0 && IsAnswer(q, slots) && i < |slots|
    requires forall day: int :: WithinDate(q, slots[i].member, day)
    ensures CanBook(q, slots[i].member.id, slots[i].start, slots[i].end)
  {
    hide InRange;
    hide Clear;
    hide Candidates;
    var s := slots[i];
    assert WellAssigned(q, s, i);
    var day := AssignedIsOffered(q, s, i);
    assert WithinDate(q, s.member, day);
    StaysOnGrid(q, s.member, day, s.start);
    assert OpenOn(q, s.member, s.member.id, day, s.start, s.end);
    GeneratedSlotsCanBeBookedIff(q, slots, i);
  }

  lemma StaysOnGrid(q: Query, m: Member, day: int, start: int)
    requires SlotMs(q) > 0 && OpenAt(q, m, day, start) && WithinDate(q, m, day)
    ensures q.zone.dayOf(start) == day && day <= q.zone.dayOf(start + SlotMs(q))
  {
    var open := q.zone.at(day, HoursOn(q, m, day).open);
    var k: nat :| start == open + Slots(k, SlotMs(q));
    assert open <= start;
  }

  lemma SameOffer(q: Query, m: Member, day: int, start: int)
    requires SlotMs(q) > 0 && Offers(q, m, day, start)
    ensures var r := Recheck(q, m.id, start, start + SlotMs(q));
            Offers(r, m, day, start) && Earliest(r) == start && Latest(r) == start + SlotMs(q)
  {
    var r := Recheck(q, m.id, start, start + SlotMs(q));
    assert forall b <- BusyOf(q, m.id) :: Blocks(q, b, start) == Blocks(r, b, start);
  }

  /** One member in UTC, open from 22:00 to 26:00 on day 0 and at no other time. */
  function NightQuery(): Query {
    var zone := Zone((t: int) => t / 86_400_000, (d: int, min: int) => d * 86_400_000 + min * 60_000,
                     (t: int) => t / 86_400_000, (t: int) => 0);
    Query(zone, Settings(60, 0, 0, 7, {}), map[], [NightMember()], map[],
          Some(0), Some(200_000_000), 0, None, 10)
  }

  function NightMember(): Member { Member(1, true, Some(map[0 := Open(1320, 1560)])) }

  /** Where hours run past midnight it can fail: the slot from 25:00 to 26:00 is
      offered, but the re-check looks at day 1 only and refuses it. */
  lemma HoursPastMidnight()
    ensures NightMember() in Candidates(NightQuery(), 90_000_000) && !CanBook(NightQuery(), 1, 90_000_000, 93_600_000)
  {
    var q, m, start := NightQuery(), NightMember(), 90_000_000;
    assert q.zone.at(0, 1320) == 79_200_000 && start == 79_200_000 + Slots(3, SlotMs(q));
    assert OnGrid(79_200_000, SlotMs(q), start);
    assert Offers(q, m, 0, start);
    assert BookableWith(q, m, start);
    CandidatesIff(q, start, m);
    var r := Recheck(q, 1, start, start + SlotMs(q));
    assert HoursOn(r, m, 1).Closed?;
    assert !OffersWithin(r, m, 1, 2, start);
    assert Earliest(r) == start && Latest(r) == 93_600_000;
  }
}
