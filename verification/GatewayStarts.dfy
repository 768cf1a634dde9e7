/** Which media starts succeed: a start that nothing interrupts opens its session
    exactly when it may, and every refusal has its own reason. */
module GatewayStarts {
  import opened Common
  import CallPath
  import opened Gateway

  // ---- a start that runs alone ---------------------------------------------------------

  function Go(w: World, s: Step): World { if Enabled(w, s) then Take(w, s) else w }

  /** The set-up of a call from the look-up in the store to its end; steps that cannot
      be taken are skipped. */
  function SetUp(w: World, t: nat, id: Id, routed: bool, limit: int): World {
    Go(OpenUp(Admit(w, t, routed, limit), t, id, routed), Release(t))
  }

  function Admit(w: World, t: nat, routed: bool, limit: int): World {
    Go(Go(Go(w, Look(t)), Check(t)), Route(t, routed, limit))
  }

  function OpenUp(w: World, t: nat, id: Id, routed: bool): World {
    Go(Go(Go(Go(Go(w, Create(t, id)), Recheck(t, routed)), Claim(t)), Register(t)), Launch(t))
  }

  function SetUpSteps(t: nat, id: Id, routed: bool, limit: int): seq<Step> {
    [Look(t), Check(t), Route(t, routed, limit)]
    + [Create(t, id), Recheck(t, routed), Claim(t), Register(t), Launch(t)] + [Release(t)]
  }

  predicate IsStored(w: World, call: Call) { call in w.rowOf && w.rowOf[call] in w.rows }

  function StoredRow(w: World, call: Call): Row
    requires IsStored(w, call)
  {
    w.rows[w.rowOf[call]]
  }

  predicate SameCall(r: Request, row: Row) {
    r.from == row.from && r.to == row.to && (r.outbound == None || r.outbound == Some(row.outbound))
  }

  predicate HasEnded(row: Row) {
    row.state in {CallPath.Completed, CallPath.Transferred, CallPath.NoAnswer, CallPath.Busy, CallPath.Failed,
                  CallPath.Cancelled}
  }

  /** The call is unknown and comes in, or it is stored as the request says, has not ended
      and its conversation has not begun. */
  predicate MayStart(w: World, r: Request) {
    if IsStored(w, r.call)
    then SameCall(r, StoredRow(w, r.call)) && !HasEnded(StoredRow(w, r.call)) && !StoredRow(w, r.call).claimed
    else r.outbound != Some(true)
  }

  /** What the caller of a set-up is told that was not interrupted. */
  ghost predicate Answer(w: World, r: Request, id: Id, routed: bool, limit: int, result: Result) {
    && (IsStored(w, r.call) ==>
          var row := StoredRow(w, r.call);
          && (!SameCall(r, row) ==> result == Refused(IdentityMismatch))
          && (SameCall(r, row) && HasEnded(row) ==> result == Refused(AlreadyEnded))
          && (SameCall(r, row) && !HasEnded(row) && row.claimed ==> result == Refused(RecoveryRequired)))
    && (!IsStored(w, r.call) && r.outbound == Some(true) ==> result == Refused(UnknownNumber))
    && (MayStart(w, r) && !routed ==> result == Refused(UnknownNumber))
    && (MayStart(w, r) && routed && |w.sessions| >= limit ==> result == Refused(Capacity))
    && (MayStart(w, r) && routed && |w.sessions| < limit ==> result == Ok(SessionId(w, r, id), false))
  }

  /** A session goes by the id of its call's row. */
  function SessionId(w: World, r: Request, id: Id): Id { if IsStored(w, r.call) then w.rowOf[r.call] else id }

  /** The row of a started call: as it was stored, or an incoming one; and claimed. */
  function StartedRow(w: World, r: Request): Row {
    if IsStored(w, r.call) then StoredRow(w, r.call).(claimed := true)
    else Row(r.call, r.from, r.to, false, CallPath.Ringing, true)
  }

  /** What a set-up leaves: one more registered session, or a store without sessions as
      it was; and the call is free for the next start. */
  ghost predicate Leaves(w: World, after: World, t: nat, r: Request, id: Id, result: Result) {
    && after.starts == w.starts[t := Returned(r, result, false)] && after.starting == w.starting - {r.call}
    && (result.Ok? ==>
          && after.sessions == w.sessions + {result.id}
          && after.objects == w.objects[result.id := Session(r.call, r.from, r.to, t, false)]
          && after.byProviderCall == w.byProviderCall[r.call := result.id]
          && after.rows == w.rows[result.id := StartedRow(w, r)] && after.rowOf == w.rowOf[r.call := result.id])
    && (!result.Ok? ==>
          && after.sessions == w.sessions && after.objects == w.objects && after.byProviderCall == w.byProviderCall
          && after.rows == w.rows && after.rowOf == w.rowOf)
  }

  /** A call whose set-up is about to begin, with no live session. */
  ghost predicate IsReady(w: World, t: nat, r: Request, id: Id) {
    RowsOk(w.rows, w.rowOf) && t in w.starts && w.starts[t] == Looking(r) && id !in w.rows
  }

  function FoundRow(w: World, call: Call): Option<Row> {
    if IsStored(w, call) then Some(StoredRow(w, call)) else None
  }

  lemma LookStep(w: World, t: nat, r: Request)
    requires t in w.starts && w.starts[t] == Looking(r)
    ensures Go(w, Look(t)) == At(w, t, Looked(r, FoundRow(w, r.call)))
  {
  }

  lemma CheckStep(w: World, t: nat, r: Request, found: Option<Row>)
    requires t in w.starts && w.starts[t] == Looked(r, found)
    ensures Go(w, Check(t)) == At(w, t, Checked(r, found))
  {
    hide Checked;
  }

  lemma RouteStep(w: World, t: nat, s: Start, routed: bool, limit: int)
    requires t in w.starts && w.starts[t] == s && (s.Routing? || s.Settled?)
    ensures Go(w, Route(t, routed, limit))
         == if s.Routing? then At(w, t, Routed(s.r, s.outbound, routed, |w.sessions|, limit)) else w
  {
    hide Routed;
  }

  /** The decisions of a set-up before it touches the store. */
  function Decided(w: World, r: Request, routed: bool, limit: int): Start {
    var s := Checked(r, FoundRow(w, r.call));
    if s.Routing? then Routed(r, s.outbound, routed, |w.sessions|, limit) else s
  }

  lemma DecidedMeans(w: World, r: Request, routed: bool, limit: int, id: Id)
    ensures var s := Decided(w, r, routed, limit);
      if MayStart(w, r) && routed && |w.sessions| < limit
      then s == Creating(r, IsStored(w, r.call) && StoredRow(w, r.call).outbound)
      else s.Settled? && s.r == r && !s.result.Ok? && Answer(w, r, id, routed, limit, s.result)
  {
  }

  lemma Twice(w: World, t: nat, a: Start, b: Start)
    ensures At(At(w, t, a), t, b) == At(w, t, b)
  {
    assert w.starts[t := a][t := b] == w.starts[t := b];
  }

  lemma Admitted(w: World, t: nat, r: Request, routed: bool, limit: int)
    requires t in w.starts && w.starts[t] == Looking(r)
    ensures Admit(w, t, routed, limit) == At(w, t, Decided(w, r, routed, limit))
  {
    hide Go;
    hide Routed;
    var found := FoundRow(w, r.call);
    var checked := Checked(r, found);
    assert checked.r == r && (checked.Routing? || checked.Settled?);
    hide Checked;
    LookStep(w, t, r);
    CheckStep(At(w, t, Looked(r, found)), t, r, found);
    Twice(w, t, Looked(r, found), checked);
    RouteStep(At(w, t, checked), t, checked, routed, limit);
    Twice(w, t, checked, Decided(w, r, routed, limit));
  }

  lemma CreateStep(w: World, t: nat, r: Request, id: Id, outbound: bool)
    requires RowsOk(w.rows, w.rowOf) && id !in w.rows && t in w.starts && w.starts[t] == Creating(r, outbound)
    ensures var row := if IsStored(w, r.call) then StoredRow(w, r.call)
                       else Row(r.call, r.from, r.to, outbound, if outbound
                                then CallPath.Created else CallPath.Ringing, false);
      Go(w, Create(t, id)) == At(Insert(w, SessionId(w, r, id), row), t, Stored(r, SessionId(w, r, id), row))
  {
    if IsStored(w, r.call) {
      assert w.rows[w.rowOf[r.call] := StoredRow(w, r.call)] == w.rows;
      assert w.rowOf[r.call := w.rowOf[r.call]] == w.rowOf;
    }
  }

  lemma RecheckStep(w: World, t: nat, r: Request, id: Id, row: Row)
    requires t in w.starts && w.starts[t] == Stored(r, id, row)
    requires r.from == row.from && r.to == row.to && !HasEnded(row)
    ensures Go(w, Recheck(t, true)) == At(w, t, Claiming(r, id))
  {
  }

  lemma ClaimStep(w: World, t: nat, r: Request, id: Id)
    requires t in w.starts && w.starts[t] == Claiming(r, id) && id in w.rows
    requires !w.rows[id].claimed && !HasEnded(w.rows[id])
    ensures Go(w, Claim(t)) == At(w, t, Claimed(r, id)).(rows := w.rows[id := w.rows[id].(claimed := true)])
  {
  }

  lemma RegisterStep(w: World, t: nat, r: Request, id: Id)
    requires t in w.starts && w.starts[t] == Claimed(r, id)
    ensures Go(w, Register(t)) == At(w, t, Opening(r, id)).(
      sessions := w.sessions + {id}, byProviderCall := w.byProviderCall[r.call := id],
      objects := w.objects[id := Session(r.call, r.from, r.to, t, false)], everOpened := w.everOpened + [id])
  {
  }

  lemma LaunchStep(w: World, t: nat, r: Request, id: Id)
    requires t in w.starts && w.starts[t] == Opening(r, id)
    ensures Go(w, Launch(t)) == At(w, t, Settled(r, Ok(id, false)))
  {
  }

  lemma ReleaseStep(w: World, t: nat, r: Request, result: Result)
    requires t in w.starts && w.starts[t] == Settled(r, result)
    ensures Go(w, Release(t)) == At(w, t, Returned(r, result, false)).(starting := w.starting - {r.call})
  {
  }

  /** A world with the session of row `id` claimed, registered and answered for. */
  function Live(w: World, t: nat, r: Request, id: Id): World
    requires id in w.rows
  {
    w.(starts := w.starts[t := Settled(r, Ok(id, false))],
       rows := w.rows[id := w.rows[id].(claimed := true)],
       sessions := w.sessions + {id}, byProviderCall := w.byProviderCall[r.call := id],
       objects := w.objects[id := Session(r.call, r.from, r.to, t, false)], everOpened := w.everOpened + [id])
  }

  lemma ClaimedAndLaunched(w: World, t: nat, r: Request, id: Id)
    requires t in w.starts && w.starts[t] == Claiming(r, id) && id in w.rows
    requires !w.rows[id].claimed && !HasEnded(w.rows[id])
    ensures Go(Go(Go(w, Claim(t)), Register(t)), Launch(t)) == Live(w, t, r, id)
  {
    hide Go;
    hide HasEnded;
    ClaimStep(w, t, r, id);
    var w3 := Go(w, Claim(t));
    RegisterStep(w3, t, r, id);
    var w4 := Go(w3, Register(t));
    LaunchStep(w4, t, r, id);
    assert w.starts[t := Claimed(r, id)][t := Opening(r, id)][t := Settled(r, Ok(id, false))]
        == w.starts[t := Settled(r, Ok(id, false))];
  }

  lemma CreatedAndChecked(w: World, t: nat, r: Request, id: Id)
    requires RowsOk(w.rows, w.rowOf) && id !in w.rows && MayStart(w, r)
    requires t in w.starts && w.starts[t] == Creating(r, IsStored(w, r.call) && StoredRow(w, r.call).outbound)
    ensures var sid, row := SessionId(w, r, id), StartedRow(w, r).(claimed := false);
      && Go(Go(w, Create(t, id)), Recheck(t, true)) == At(Insert(w, sid, row), t, Claiming(r, sid))
      && !HasEnded(row) && row.call == r.call
  {
    hide Go;
    var sid, row := SessionId(w, r, id), StartedRow(w, r).(claimed := false);
    CreateStep(w, t, r, id, IsStored(w, r.call) && StoredRow(w, r.call).outbound);
    hide RowsOk;
    var w1 := At(Insert(w, sid, row), t, Stored(r, sid, row));
    assert Go(w, Create(t, id)) == w1;
    RecheckStep(w1, t, r, sid, row);
    Twice(Insert(w, sid, row), t, Stored(r, sid, row), Claiming(r, sid));
  }

  /** From the decision to create on. */
  lemma OpensUp(w: World, t: nat, r: Request, id: Id)
    requires RowsOk(w.rows, w.rowOf) && id !in w.rows && MayStart(w, r)
    requires t in w.starts && w.starts[t] == Creating(r, IsStored(w, r.call) && StoredRow(w, r.call).outbound)
    ensures var sid, row := SessionId(w, r, id), StartedRow(w, r).(claimed := false);
      row.call == r.call && sid in Insert(w, sid, row).rows
      && OpenUp(w, t, id, true) == Live(At(Insert(w, sid, row), t, Claiming(r, sid)), t, r, sid)
  {
    hide Go;
    var sid, row := SessionId(w, r, id), StartedRow(w, r).(claimed := false);
    CreatedAndChecked(w, t, r, id);
    hide RowsOk;
    hide MayStart;
    hide HasEnded;
    ClaimedAndLaunched(At(Insert(w, sid, row), t, Claiming(r, sid)), t, r, sid);
  }

  lemma LeavesASession(w: World, t: nat, r: Request, id: Id, s: Start)
    requires t in w.starts && RowsOk(w.rows, w.rowOf)
    ensures var sid, row := SessionId(w, r, id), StartedRow(w, r).(claimed := false);
      row.call == r.call ==>
        var live := Live(At(Insert(At(w, t, s), sid, row), t, Claiming(r, sid)), t, r, sid);
        Leaves(w, At(live, t, Returned(r, Ok(sid, false), false)).(starting := w.starting - {r.call}), t, r, id,
               Ok(sid, false))
  {
    var sid, row := SessionId(w, r, id), StartedRow(w, r).(claimed := false);
    assert row.(claimed := true) == StartedRow(w, r);
    assert w.rows[sid := row][sid := StartedRow(w, r)] == w.rows[sid := StartedRow(w, r)];
  }

  /** A set-up that nothing interrupts: it ends, with the answer the store, the routing
      and the room call for, and leaves exactly what that answer says. */
  lemma SetUpAlone(w: World, t: nat, r: Request, id: Id, routed: bool, limit: int)
    requires IsReady(w, t, r, id)
    ensures var after := SetUp(w, t, id, routed, limit);
      && t in after.starts && after.starts[t].Returned? && !after.starts[t].late
      && Answer(w, r, id, routed, limit, after.starts[t].result)
      && Leaves(w, after, t, r, id, after.starts[t].result)
  {
    hide RowsOk;
    hide Go;
    hide Answer;
    Admitted(w, t, r, routed, limit);
    DecidedMeans(w, r, routed, limit, id);
    var decided := Decided(w, r, routed, limit);
    hide Decided;
    var w1 := At(w, t, decided);
    if MayStart(w, r) && routed && |w.sessions| < limit {
      OpensAlone(w, t, r, id, limit, decided);
    } else {
      StaysSettled(w1, t, id, routed);
      ReleaseStep(w1, t, r, decided.result);
    }
  }

  lemma OpensAlone(w: World, t: nat, r: Request, id: Id, limit: int, decided: Start)
    requires IsReady(w, t, r, id) && MayStart(w, r) && |w.sessions| < limit
    requires decided == Creating(r, IsStored(w, r.call) && StoredRow(w, r.call).outbound)
    ensures var after := Go(OpenUp(At(w, t, decided), t, id, true), Release(t));
      && t in after.starts && after.starts[t] == Returned(r, Ok(SessionId(w, r, id), false), false)
      && Answer(w, r, id, true, limit, after.starts[t].result)
      && Leaves(w, after, t, r, id, after.starts[t].result)
  {
    hide Go;
    hide OpenUp;
    hide Leaves;
    OpensUp(At(w, t, decided), t, r, id);
    AnswersOk(w, r, id, limit);
    hide Answer;
    LeavesASession(w, t, r, id, decided);
    ReleaseStep(OpenUp(At(w, t, decided), t, id, true), t, r, Ok(SessionId(w, r, id), false));
  }

  lemma AnswersOk(w: World, r: Request, id: Id, limit: int)
    requires MayStart(w, r) && |w.sessions| < limit
    ensures Answer(w, r, id, true, limit, Ok(SessionId(w, r, id), false))
  {
  }

  lemma StaysSettled(w: World, t: nat, id: Id, routed: bool)
    requires t in w.starts && w.starts[t].Settled?
    ensures OpenUp(w, t, id, routed) == w
  {
  }

  // ---- from any reachable world ----------------------------------------------------------

  lemma GoesOn(steps: seq<Step>, s: Step)
    ensures RunOf(steps + [s]) == Go(RunOf(steps), s)
  {
    hide Take;
    hide Enabled;
    assert (steps + [s])[..|steps|] == steps;
  }

  lemma SetUpRuns(steps: seq<Step>, t: nat, id: Id, routed: bool, limit: int)
    ensures RunOf(steps + SetUpSteps(t, id, routed, limit)) == SetUp(RunOf(steps), t, id, routed, limit)
  {
    hide Go;
    hide RunOf;
    var s1, s2 := steps + [Look(t)], steps + [Look(t), Check(t)];
    var s3 := steps + [Look(t), Check(t), Route(t, routed, limit)];
    GoesOn(steps, Look(t));
    GoesOn(s1, Check(t));
    GoesOn(s2, Route(t, routed, limit));
    assert s1 + [Check(t)] == s2 && s2 + [Route(t, routed, limit)] == s3;
    var s4, s5 := s3 + [Create(t, id)], s3 + [Create(t, id), Recheck(t, routed)];
    var s6 := s3 + [Create(t, id), Recheck(t, routed), Claim(t)];
    GoesOn(s3, Create(t, id));
    GoesOn(s4, Recheck(t, routed));
    GoesOn(s5, Claim(t));
    assert s4 + [Recheck(t, routed)] == s5 && s5 + [Claim(t)] == s6;
    var s7, s8 := s6 + [Register(t)], s6 + [Register(t), Launch(t)];
    GoesOn(s6, Register(t));
    GoesOn(s7, Launch(t));
    GoesOn(s8, Release(t));
    assert s7 + [Launch(t)] == s8;
    assert s8 + [Release(t)] == steps + SetUpSteps(t, id, routed, limit);
  }

  lemma BeginStep(w: World, t: nat, r: Request)
    requires t !in w.starts && r.call !in w.starting && r.call !in w.byProviderCall
    ensures Go(w, Begin(t, r)) == At(w, t, Looking(r)).(starting := w.starting[r.call := t])
  {
  }

  /** In any run: a start of a call that is not being set up and has no session. With
      nothing in between it ends, and it opens a session exactly when routing and room
      allow it and the call may start; each refusal has its own reason. */
  lemma {:induction false} StartAlone(steps: seq<Step>, t: nat, r: Request, id: Id, routed: bool, limit: int)
    requires var w := RunOf(steps);
      t !in w.starts && r.call !in w.starting && r.call !in w.byProviderCall && id !in w.rows
    ensures var w, after := RunOf(steps), RunOf(steps + [Begin(t, r)] + SetUpSteps(t, id, routed, limit));
      && t in after.starts && after.starts[t].Returned? && !after.starts[t].late
      && Answer(w, r, id, routed, limit, after.starts[t].result)
      && (after.starts[t].result.Ok? <==> MayStart(w, r) && routed && |w.sessions| < limit)
      && Leaves(w, after, t, r, id, after.starts[t].result)
  {
    hide RowsOk;
    hide SetUp;
    var w := RunOf(steps);
    EveryRunKeeps(steps);
    GoesOn(steps, Begin(t, r));
    BeginStep(w, t, r);
    SetUpRuns(steps + [Begin(t, r)], t, id, routed, limit);
    var begun := At(w, t, Looking(r)).(starting := w.starting[r.call := t]);
    hide RunOf;
    hide Go;
    hide Inv;
    SetUpAlone(begun, t, r, id, routed, limit);
    AnswerReads(w, begun, r, id, routed, limit, SetUp(begun, t, id, routed, limit).starts[t].result);
    hide Answer;
    LeavesReads(w, SetUp(begun, t, id, routed, limit), t, r, id, SetUp(begun, t, id, routed, limit).starts[t].result);
  }

  lemma AnswerReads(a: World, b: World, r: Request, id: Id, routed: bool, limit: int, result: Result)
    requires a.rows == b.rows && a.rowOf == b.rowOf && a.sessions == b.sessions
    requires Answer(b, r, id, routed, limit, result)
    ensures Answer(a, r, id, routed, limit, result)
    ensures result.Ok? <==> MayStart(a, r) && routed && |a.sessions| < limit
  {
  }

  lemma LeavesReads(w: World, after: World, t: nat, r: Request, id: Id, result: Result)
    requires r.call !in w.starting
    requires Leaves(At(w, t, Looking(r)).(starting := w.starting[r.call := t]), after, t, r, id, result)
    ensures Leaves(w, after, t, r, id, result)
  {
    var begun := At(w, t, Looking(r)).(starting := w.starting[r.call := t]);
    assert StartedRow(begun, r) == StartedRow(w, r);
    hide StartedRow;
    assert begun.starts[t := Returned(r, result, false)] == w.starts[t := Returned(r, result, false)];
    assert begun.starting - {r.call} == w.starting - {r.call};
  }

  /** The answer to a start of a call whose session is live. */
  function Reattached(w: World, r: Request, id: Id): Result
    requires id in w.objects
  {
    if r.from == w.objects[id].from && r.to == w.objects[id].to then Ok(id, true) else Refused(IdentityMismatch)
  }

  lemma BeginLive(w: World, t: nat, r: Request, id: Id)
    requires RegistryOk(w.objects, w.sessions, w.byProviderCall)
    requires t !in w.starts && r.call !in w.starting && r.call in w.byProviderCall && id == w.byProviderCall[r.call]
    ensures id in w.objects && id in w.sessions
    ensures var result := Reattached(w, r, id);
      Go(w, Begin(t, r)) == w.(starts := w.starts[t := Settled(r, result)], starting := w.starting[r.call := t],
                               objects := if result.Ok?
                                 then w.objects[id := w.objects[id].(output := t)] else w.objects)
  {
    Twice(w, t, Looking(r), Settled(r, Reattached(w, r, id)));
  }

  /** It attaches its socket to that session exactly when it comes with the call's own
      numbers, and is refused otherwise. */
  lemma StartReattaches(w: World, t: nat, r: Request, id: Id)
    requires RegistryOk(w.objects, w.sessions, w.byProviderCall)
    requires t !in w.starts && r.call !in w.starting && r.call in w.byProviderCall && id == w.byProviderCall[r.call]
    ensures id in w.objects && id in w.sessions
    ensures var result, after := Reattached(w, r, id), Go(Go(w, Begin(t, r)), Release(t));
      && after.starts == w.starts[t := Returned(r, result, false)] && after.starting == w.starting
      && after.sessions == w.sessions
      && after.objects == if result.Ok? then w.objects[id := w.objects[id].(output := t)] else w.objects
  {
    hide Go;
    BeginLive(w, t, r, id);
    var result := Reattached(w, r, id);
    ReleaseStep(Go(w, Begin(t, r)), t, r, result);
    assert w.starting[r.call := t] - {r.call} == w.starting;
    assert w.starts[t := Settled(r, result)][t := Returned(r, result, false)]
      == w.starts[t := Returned(r, result, false)];
  }

  /** The second start shares the first one's refusal, or its session if the numbers are
      the call's own; the session then speaks to the socket that came last. */
  ghost predicate Shares(after: World, t: nat, u: nat, r: Request, r2: Request, result: Result) {
    && t in after.starts && after.starts[t] == Returned(r, result, false) && u in after.starts
    && (!result.Ok? ==> after.starts[u] == Returned(r2, result, false))
    && (result.Ok? ==>
          var same := r2.from == r.from && r2.to == r.to;
          && result.id in after.objects && after.objects[result.id].output == (if same then u else t)
          && after.starts[u] == Returned(r2, if same then Ok(result.id, true) else Refused(IdentityMismatch), false))
  }

  /** A second start that comes while the first sets the call up waits for it. */
  lemma SecondStartJoins(w: World, t: nat, u: nat, r: Request, r2: Request, id: Id, routed: bool, limit: int,
                         result: Result)
    requires IsReady(w, t, r, id) && r.call in w.starting && w.starting[r.call] == t
    requires u !in w.starts && r2.call == r.call && Answer(w, r, id, routed, limit, result)
    ensures Shares(Go(SetUp(Go(w, Begin(u, r2)), t, id, routed, limit), Resume(u)), t, u, r, r2, result)
  {
    hide RowsOk;
    hide SetUp;
    var w1 := Go(w, Begin(u, r2));
    assert w1 == At(w, u, Waiting(r2, t));
    SetUpAlone(w1, t, r, id, routed, limit);
    var after := SetUp(w1, t, id, routed, limit);
    AnswersAgree(w, w1, r, id, routed, limit, result, after.starts[t].result);
    hide Answer;
    ResumeStep(after, u, r2, t);
  }

  lemma AnswersAgree(a: World, b: World, r: Request, id: Id, routed: bool, limit: int, x: Result, y: Result)
    requires a.rows == b.rows && a.rowOf == b.rowOf && a.sessions == b.sessions
    requires Answer(a, r, id, routed, limit, x) && Answer(b, r, id, routed, limit, y)
    ensures x == y
  {
  }

  lemma ResumeStep(w: World, u: nat, r: Request, owner: nat)
    requires u in w.starts && w.starts[u] == Waiting(r, owner) && owner in w.starts && w.starts[owner].Returned?
    requires var result := w.starts[owner].result; result.Ok? ==> result.id in w.sessions && result.id in w.objects
    ensures var result, after := w.starts[owner].result, Go(w, Resume(u));
      && (!result.Ok? ==> after == At(w, u, Returned(r, result, false)))
      && (result.Ok? ==>
            var o := w.objects[result.id];
            if r.from == o.from && r.to == o.to
            then after == At(Attach(w, result.id, u), u, Returned(r, Ok(result.id, true), false))
            else after == At(w, u, Returned(r, Refused(IdentityMismatch), false)))
  {
  }
}
