/** The customer table: one live row per person, found by email or phone, merged when
    the two meet. Ids are row numbers; emails and phones are already normalized. */
module Crm {
  import opened Common
  import opened Text

  datatype Stage = Lead | Engaged | Booked | Paying | Lost

  /** Funnel order. A lost customer ranks with a lead, below every stage of activity. */
  function Rank(s: Stage): nat {
    match s
    case Lead => 0
    case Engaged => 1
    case Booked => 2
    case Paying => 3
    case Lost => 0
  }

  datatype Customer = Customer(name: Str, email: Str, phone: Str, stage: Stage, source: Str,
                               appointments: int, revenue: real, mergedInto: Option<nat>)

  datatype Draft = Draft(name: Str, email: Str, phone: Str, stage: Option<Stage>, source: Str)

  datatype Entry = Entry(customer: nat, title: Str)

  type Table = seq<Customer>

  predicate Live(rows: Table, id: nat) { id < |rows| && rows[id].mergedInto.None? }

  // ---- looking up ----------------------------------------------------------------------

  /** The first live row that `has` what is looked for, from `i` on. */
  function FindFrom(rows: Table, has: Customer -> bool, i: nat): (r: Option<nat>)
    ensures r.Some? ==> i <= r.value && Live(rows, r.value) && has(rows[r.value])
    ensures r.None? ==> forall k :: i <= k < |rows| && Live(rows, k) ==> !has(rows[k])
    decreases |rows| - i
  {
    if i >= |rows| then None else if Live(rows, i) && has(rows[i]) then Some(i) else FindFrom(rows, has, i + 1)
  }

  function ByEmail(rows: Table, email: Str): (r: Option<nat>)
    ensures r.Some? ==> Live(rows, r.value) && rows[r.value].email == email != []
    ensures r.None? && email != [] ==> forall k :: 0 <= k < |rows| && Live(rows, k) ==> rows[k].email != email
  {
    if email == [] then None else FindFrom(rows, (c: Customer) => c.email == email, 0)
  }

  function ByPhone(rows: Table, phone: Str): (r: Option<nat>)
    ensures r.Some? ==> Live(rows, r.value) && rows[r.value].phone == phone != []
    ensures r.None? && phone != [] ==> forall k :: 0 <= k < |rows| && Live(rows, k) ==> rows[k].phone != phone
  {
    if phone == [] then None else FindFrom(rows, (c: Customer) => c.phone == phone, 0)
  }

  // ---- merging and upserting -----------------------------------------------------------------

  function Or(a: Str, b: Str): Str { if a != [] then a else b }

  function Absorb(keeper: Customer, loser: Customer): Customer {
    keeper.(name := Or(keeper.name, loser.name), email := Or(keeper.email, loser.email),
            phone := Or(keeper.phone, loser.phone),
            stage := if Rank(loser.stage) > Rank(keeper.stage) then loser.stage else keeper.stage,
            appointments := keeper.appointments + loser.appointments, revenue := keeper.revenue + loser.revenue)
  }

  function Merged(rows: Table, keeper: nat, loser: nat): Table
    requires keeper < |rows| && loser < |rows|
  {
    rows[keeper := Absorb(rows[keeper], rows[loser])][loser := rows[loser].(mergedInto := Some(keeper))]
  }

  /** The draft's name replaces the stored one, its email and phone fill gaps, and the
      stage never falls back. */
  function Patched(c: Customer, d: Draft): Customer {
    c.(name := if Trim(d.name) != [] then Trim(d.name) else c.name,
       email := if c.email == [] then d.email else c.email,
       phone := if c.phone == [] then d.phone else c.phone,
       stage := if d.stage.Some? && Rank(d.stage.value) > Rank(c.stage) then d.stage.value else c.stage)
  }

  function Fresh(d: Draft): Customer {
    Customer(Trim(d.name), d.email, d.phone, if d.stage.Some? then d.stage.value else Lead, d.source, 0, 0.0, None)
  }

  predicate Collide(rows: Table, d: Draft) {
    ByEmail(rows, d.email).Some? && ByPhone(rows, d.phone).Some? && ByEmail(rows, d.email) != ByPhone(rows, d.phone)
  }

  /** The table once two rows that the draft shows to be one person are one. */
  function Joined(rows: Table, d: Draft): Table {
    if Collide(rows, d) then Merged(rows, ByEmail(rows, d.email).value, ByPhone(rows, d.phone).value) else rows
  }

  function Existing(rows: Table, d: Draft): Option<nat> {
    if ByEmail(rows, d.email).Some? then ByEmail(rows, d.email) else ByPhone(rows, d.phone)
  }

  function Upserted(rows: Table, d: Draft): (r: (Table, nat))
    ensures r.1 < |r.0|
  {
    var id := Existing(rows, d);
    if id.None? then (rows + [Fresh(d)], |rows|)
    else
      var joined := Joined(rows, d);
      (joined[id.value := Patched(joined[id.value], d)], id.value)
  }

  // ---- what the table keeps ---------------------------------------------------------------------

  ghost predicate UniqueKeys(rows: Table) {
    && (forall i, j :: 0 <= i < j < |rows| && Live(rows, i) && Live(rows, j) && rows[i].email != [] ==>
          rows[i].email != rows[j].email)
    && (forall i, j :: 0 <= i < j < |rows| && Live(rows, i) && Live(rows, j) && rows[i].phone != [] ==>
          rows[i].phone != rows[j].phone)
  }

  function LiveAppointments(rows: Table): int {
    if rows == [] then 0
    else
      var last := rows[|rows| - 1];
      LiveAppointments(rows[..|rows| - 1]) + if last.mergedInto.None? then last.appointments else 0
  }

  function LiveRevenue(rows: Table): real {
    if rows == [] then 0.0
    else
      var last := rows[|rows| - 1];
      LiveRevenue(rows[..|rows| - 1]) + if last.mergedInto.None? then last.revenue else 0.0
  }

  function Counted(c: Customer): (int, real) {
    if c.mergedInto.None? then (c.appointments, c.revenue) else (0, 0.0)
  }

  lemma {:induction false} TotalsAfterUpdate(rows: Table, id: nat, c: Customer)
    requires id < |rows|
    ensures LiveAppointments(rows[id := c]) == LiveAppointments(rows) + Counted(c).0 - Counted(rows[id]).0
    ensures LiveRevenue(rows[id := c]) == LiveRevenue(rows) + Counted(c).1 - Counted(rows[id]).1
  {
    var init := rows[..|rows| - 1];
    if id == |rows| - 1 {
      assert rows[id := c][..|rows| - 1] == init;
    } else {
      TotalsAfterUpdate(init, id, c);
      assert rows[id := c][..|rows| - 1] == init[id := c];
    }
  }

  /** A merge moves the loser's totals to the keeper; none are lost or counted twice. */
  lemma {:induction false} MergeConservesTotals(rows: Table, keeper: nat, loser: nat)
    requires Live(rows, keeper) && Live(rows, loser) && keeper != loser
    ensures LiveAppointments(Merged(rows, keeper, loser)) == LiveAppointments(rows)
    ensures LiveRevenue(Merged(rows, keeper, loser)) == LiveRevenue(rows)
  {
    var once := rows[keeper := Absorb(rows[keeper], rows[loser])];
    TotalsAfterUpdate(rows, keeper, once[keeper]);
    TotalsAfterUpdate(once, loser, rows[loser].(mergedInto := Some(keeper)));
  }

  lemma {:induction false} UpsertConservesTotals(rows: Table, d: Draft)
    ensures LiveAppointments(Upserted(rows, d).0) == LiveAppointments(rows)
    ensures LiveRevenue(Upserted(rows, d).0) == LiveRevenue(rows)
  {
    var id := Existing(rows, d);
    if id.None? {
      assert (rows + [Fresh(d)])[..|rows|] == rows;
    } else {
      if Collide(rows, d) { MergeConservesTotals(rows, ByEmail(rows, d.email).value, ByPhone(rows, d.phone).value); }
      var joined := Joined(rows, d);
      TotalsAfterUpdate(joined, id.value, Patched(joined[id.value], d));
    }
  }

  /** Live rows keep distinct emails and distinct phones, through merges too. */
  lemma {:induction false} UpsertKeepsKeysUnique(rows: Table, d: Draft)
    requires UniqueKeys(rows)
    ensures UniqueKeys(Upserted(rows, d).0)
  {
    if Existing(rows, d).Some? {
      JoinedIsUnique(rows, d);
      OthersDiffer(rows, d);
      PatchIsUnique(Joined(rows, d), Existing(rows, d).value, d);
    }
  }

  lemma {:induction false} JoinedIsUnique(rows: Table, d: Draft)
    requires UniqueKeys(rows)
    ensures UniqueKeys(Joined(rows, d)) && |Joined(rows, d)| == |rows|
    ensures Existing(rows, d).Some? ==> Live(Joined(rows, d), Existing(rows, d).value)
  {
    hide Absorb;
    if Collide(rows, d) {
      var keeper, loser := ByEmail(rows, d.email).value, ByPhone(rows, d.phone).value;
      AbsorbedKeys(rows[keeper], rows[loser]);
      MergeIsUnique(rows, keeper, loser, Absorb(rows[keeper], rows[loser]));
    }
  }

  lemma AbsorbedKeys(keeper: Customer, loser: Customer)
    ensures var c := Absorb(keeper, loser);
            c.mergedInto == keeper.mergedInto && c.email == Or(keeper.email, loser.email)
              && c.phone == Or(keeper.phone, loser.phone)
  {
  }

  lemma {:induction false} MergeIsUnique(rows: Table, keeper: nat, loser: nat, c: Customer)
    requires UniqueKeys(rows) && Live(rows, keeper) && Live(rows, loser) && keeper != loser && c.mergedInto.None?
    requires c.email == Or(rows[keeper].email, rows[loser].email)
    requires c.phone == Or(rows[keeper].phone, rows[loser].phone)
    ensures UniqueKeys(rows[keeper := c][loser := rows[loser].(mergedInto := Some(keeper))])
  {
  }

  /** No other live row has the draft's email or phone. */
  ghost predicate OnlyOne(rows: Table, d: Draft, id: nat) {
    forall k :: 0 <= k < |rows| && Live(rows, k) && k != id ==>
      (d.email != [] ==> rows[k].email != d.email) && (d.phone != [] ==> rows[k].phone != d.phone)
  }

  lemma {:induction false} OthersDiffer(rows: Table, d: Draft)
    requires UniqueKeys(rows) && Existing(rows, d).Some?
    ensures OnlyOne(Joined(rows, d), d, Existing(rows, d).value)
  {
    var id := Existing(rows, d).value;
    var joined := Joined(rows, d);
    forall k | 0 <= k < |joined| && Live(joined, k) && k != id
      ensures (d.email != [] ==> joined[k].email != d.email) && (d.phone != [] ==> joined[k].phone != d.phone)
    {
      assert joined[k] == rows[k] && Live(rows, k);
    }
  }

  lemma {:induction false} PatchIsUnique(rows: Table, id: nat, d: Draft)
    requires UniqueKeys(rows) && Live(rows, id) && OnlyOne(rows, d, id)
    ensures UniqueKeys(rows[id := Patched(rows[id], d)])
  {
  }

  /** After an upsert the person is one live row: every live row with the draft's
      email or phone is the one returned. */
  lemma {:induction false} UpsertIdentifies(rows: Table, d: Draft)
    requires UniqueKeys(rows)
    ensures Live(Upserted(rows, d).0, Upserted(rows, d).1) && OnlyOne(Upserted(rows, d).0, d, Upserted(rows, d).1)
  {
    if Existing(rows, d).Some? {
      JoinedIsUnique(rows, d);
      OthersDiffer(rows, d);
    }
  }

  /** No live row's stage goes back, nor does a merged row's: its keeper is at least as far. */
  lemma {:induction false} UpsertNeverGoesBack(rows: Table, d: Draft, k: nat)
    requires Live(rows, k)
    ensures var (after, id) := Upserted(rows, d);
            if Live(after, k) then Rank(after[k].stage) >= Rank(rows[k].stage)
            else after[k].mergedInto == Some(id) && Rank(after[id].stage) >= Rank(rows[k].stage)
  {
  }

  /** No known fact is lost: emails and phones stay, a name gives way only to a newer
      one, and what the merged row knew fills the keeper's gaps. */
  lemma {:induction false} UpsertKeepsFacts(rows: Table, d: Draft, k: nat)
    requires Live(rows, k)
    ensures var (after, id) := Upserted(rows, d);
            && Or(rows[k].email, after[k].email) == after[k].email
            && Or(rows[k].phone, after[k].phone) == after[k].phone
            && after[k].name ==
               (if k == id && Trim(d.name) != [] then Trim(d.name) else Or(rows[k].name, after[k].name))
            && after[k].source == rows[k].source
            && (!Live(after, k) && rows[k].phone != [] ==> after[id].phone != [])
            && (!Live(after, k) && rows[k].name != [] ==> after[id].name != [])
  {
  }

  /** Nobody with the draft's email or phone is there: one row is added, as the draft says. */
  lemma UpsertInserts(rows: Table, d: Draft)
    requires forall k :: 0 <= k < |rows| && Live(rows, k) ==> !HasKey(rows[k], d)
    ensures var (after, id) := Upserted(rows, d);
      && id == |rows| && |after| == |rows| + 1 && after[..id] == rows
      && after[id]
      == Customer(Trim(d.name), d.email, d.phone, if d.stage.Some? then d.stage.value else Lead, d.source, 0,
                               0.0, None)
  {
    assert Existing(rows, d).None?;
  }

  predicate HasKey(c: Customer, d: Draft) {
    (d.email != [] && c.email == d.email) || (d.phone != [] && c.phone == d.phone)
  }

  /** Somebody is: that row, the one with the email before the one with the phone, takes
      what the draft says; the other one, if there is one, is merged into it; and no
      other row changes. */
  lemma {:induction false} UpsertApplies(rows: Table, d: Draft, k: nat)
    requires UniqueKeys(rows) && Live(rows, k) && HasKey(rows[k], d)
    ensures var (after, id) := Upserted(rows, d);
      && |after| == |rows| && id < |rows| && Live(rows, id) && HasKey(rows[id], d)
      && (d.email != [] && rows[k].email == d.email ==> id == k)
      && after[id].email == Or(rows[id].email, d.email)
      && after[id].phone == Or(Or(rows[id].phone, if k != id then rows[k].phone else []), d.phone)
      && (Trim(d.name) != [] ==> after[id].name == Trim(d.name))
      && (d.stage.Some? ==> Rank(after[id].stage) >= Rank(d.stage.value))
      && (d.stage == Some(after[id].stage) || exists j :: HoldsStage(rows, d, j, after[id].stage))
      && (k != id ==> after[k] == rows[k].(mergedInto := Some(id)))
      && (forall j :: 0 <= j < |rows| && j != id && !(Live(rows, j) && HasKey(rows[j], d)) ==> after[j] == rows[j])
  {
    hide Trim;
    KeysFound(rows, d, k);
    var (after, id) := Upserted(rows, d);
    if d.stage != Some(after[id].stage) {
      assert HoldsStage(rows, d, id, after[id].stage)
          || (Collide(rows, d) && HoldsStage(rows, d, ByPhone(rows, d.phone).value, after[id].stage));
    }
  }

  predicate HoldsStage(rows: Table, d: Draft, j: nat, stage: Stage) {
    Live(rows, j) && HasKey(rows[j], d) && rows[j].stage == stage
  }

  lemma KeysFound(rows: Table, d: Draft, k: nat)
    requires UniqueKeys(rows) && Live(rows, k) && HasKey(rows[k], d)
    ensures d.email != [] && rows[k].email == d.email ==> ByEmail(rows, d.email) == Some(k)
    ensures d.phone != [] && rows[k].phone == d.phone ==> ByPhone(rows, d.phone) == Some(k)
  {
  }

  /** Sending the same draft again changes nothing, exactly when it has an email or a
      phone; without either it inserts another row each time. */
  lemma {:induction false} UpsertIsIdempotent(rows: Table, d: Draft)
    requires UniqueKeys(rows)
    ensures var (after, id) := Upserted(rows, d);
            Upserted(after, d) == (after, id) <==> d.email != [] || d.phone != []
  {
    var (after, id) := Upserted(rows, d);
    if d.email != [] || d.phone != [] {
      UpsertIdentifies(rows, d);
      KeyIsStored(rows, d);
      assert Existing(after, d) == Some(id) && !Collide(after, d);
      TrimTrims(d.name);
      assert Patched(after[id], d) == after[id];
      assert after[id := after[id]] == after;
    } else {
      assert |Upserted(after, d).0| == |after| + 1;
    }
  }

  lemma {:induction false} KeyIsStored(rows: Table, d: Draft)
    requires d.email != [] || d.phone != []
    ensures var (after, id) := Upserted(rows, d);
            (d.email != [] && after[id].email == d.email) || (d.phone != [] && after[id].phone == d.phone)
  {
  }

  // ---- the service -----------------------------------------------------------------------------

  class CrmService {
    var rows: Table
    var timeline: seq<Entry>

    /** Keys are unique, and no timeline entry belongs to a merged row. */
    ghost predicate Valid()
      reads this
    {
      UniqueKeys(rows) && forall k :: 0 <= k < |timeline| ==> Live(rows, timeline[k].customer)
    }

    constructor ()
      ensures Valid() && rows == [] && timeline == []
    {
      rows, timeline := [], [];
    }

    /** Stamps the loser and repoints its history at the keeper. */
    method MarkMerged(loser: nat, keeper: nat)
      requires loser < |rows|
      modifies this
      ensures rows == old(rows)[loser := old(rows)[loser].(mergedInto := Some(keeper))]
      ensures |timeline| == |old(timeline)|
      ensures forall k :: 0 <= k < |timeline| ==>
        timeline[k] == if old(timeline)[k].customer == loser then old(timeline)[k].(customer := keeper)
                       else old(timeline)[k]
    {
      var moved: seq<Entry> := [];
      for k := 0 to |timeline|
        invariant |moved| == k && timeline == old(timeline) && rows == old(rows)
        invariant forall i :: 0 <= i < k ==>
          moved[i] == if timeline[i].customer == loser then timeline[i].(customer := keeper) else timeline[i]
      {
        moved := moved + [if timeline[k].customer == loser then timeline[k].(customer := keeper) else timeline[k]];
      }
      timeline := moved;
      rows := rows[loser := rows[loser].(mergedInto := Some(keeper))];
    }

    method Merge(keeper: nat, loser: nat)
      requires Live(rows, keeper) && Live(rows, loser) && keeper != loser
      requires forall k :: 0 <= k < |timeline| ==> Live(rows, timeline[k].customer)
      modifies this
      ensures rows == Merged(old(rows), keeper, loser)
      ensures |timeline| == |old(timeline)| + 1 && timeline[|old(timeline)|].customer == keeper
      ensures forall k :: 0 <= k < |timeline| ==> Live(rows, timeline[k].customer)
    {
      rows := rows[keeper := Absorb(rows[keeper], rows[loser])];
      MarkMerged(loser, keeper);
      timeline := timeline + [Entry(keeper, [])];
    }

    /** Create-or-update by identity; the email match is the keeper of a merge. */
    method UpsertCustomer(d: Draft) returns (id: nat, created: bool)
      requires Valid()
      modifies this
      ensures Valid() && (rows, id) == Upserted(old(rows), d) && created == Existing(old(rows), d).None?
      ensures |timeline| == |old(timeline)| + if Collide(old(rows), d) then 1 else 0
    {
      UpsertKeepsKeysUnique(rows, d);
      var byEmail, byPhone := ByEmail(rows, d.email), ByPhone(rows, d.phone);
      var existing := if byEmail.Some? then byEmail else byPhone;
      if existing.None? {
        rows := rows + [Fresh(d)];
        return |rows| - 1, true;
      }
      if byEmail.Some? && byPhone.Some? && byEmail != byPhone { Merge(byEmail.value, byPhone.value); }
      rows := rows[existing.value := Patched(rows[existing.value], d)];
      return existing.value, false;
    }

    /** Counts an appointment on the customer as it was read, and moves it to "booked". */
    method RecordAppointment(id: nat, read: Customer, delta: int)
      requires Valid() && Live(rows, id)
      modifies `rows
      ensures Valid() && |rows| == |old(rows)| && Rank(rows[id].stage) >= Rank(read.stage)
      ensures rows[id].appointments == read.appointments + delta
      ensures read == old(rows)[id] ==>
        LiveAppointments(rows) == LiveAppointments(old(rows)) + delta && LiveRevenue(rows) == LiveRevenue(old(rows))
    {
      var row := rows[id].(appointments := read.appointments + delta,
                           stage := if Rank(Booked) > Rank(read.stage) then Booked else read.stage);
      TotalsAfterUpdate(rows, id, row);
      rows := rows[id := row];
    }

    method RecordRevenue(id: nat, read: Customer, amount: real)
      requires Valid() && Live(rows, id)
      modifies `rows
      ensures Valid() && |rows| == |old(rows)|
      ensures amount <= 0.0 ==> rows == old(rows)
      ensures read == old(rows)[id] && amount > 0.0 ==>
        LiveRevenue(rows) == LiveRevenue(old(rows)) + amount && LiveAppointments(rows) == LiveAppointments(old(rows))
    {
      if amount <= 0.0 { return; }
      var row := rows[id].(revenue := read.revenue + amount);
      TotalsAfterUpdate(rows, id, row);
      rows := rows[id := row];
    }
  }
}
