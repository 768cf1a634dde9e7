/** The voice gateway's start protocol. Every stretch of code between two awaits is
    one step; a run is any sequence of steps of any number of concurrent starts,
    ends, status changes and outbound calls. */
module Gateway {
  import opened Common
  import CallPath

  type Call = string   // provider and provider call id
  type Id = string     // call row id, and the id of its session

  datatype Request = Request(call: Call, from: string, to: string, outbound: Option<bool>)

  /** A stored call. `claimed` says that its conversation has begun. */
  datatype Row = Row(call: Call, from: string, to: string, outbound: bool, state: CallPath.CallState, claimed: bool)

  /** A session object. `output` is the media socket (a start attempt) it speaks to. */
  datatype Session = Session(call: Call, from: string, to: string, output: nat, finalized: bool)

  datatype Reason = UnknownNumber | Capacity | AlreadyEnded | IdentityMismatch | RecoveryRequired

  datatype Result = Ok(id: Id, reattached: bool) | Refused(reason: Reason) | Threw

  /** Where one call of `startSession` stands. */
  datatype Start =
    | Waiting(r: Request, owner: nat)
    | Looking(r: Request)
    | Looked(r: Request, found: Option<Row>)
    | Routing(r: Request, outbound: bool)
    | Creating(r: Request, outbound: bool)
    | Stored(r: Request, id: Id, row: Row)
    | Claiming(r: Request, id: Id)
    | Claimed(r: Request, id: Id)
    | Opening(r: Request, id: Id)
    | Settled(r: Request, result: Result)
    | Returned(r: Request, result: Result, late: bool)   // late: the session had ended while it waited
  {
    /** Owns the set-up of its call. */
    predicate Active() { !Waiting? && !Returned? }
  }

  datatype World = World(
    /** The store and its unique index. */
    rows: map<Id, Row>, rowOf: map<Call, Id>,
    /** The gateway's registries. */
    sessions: set<Id>, byProviderCall: map<Call, Id>, starting: map<Call, nat>,
    objects: map<Id, Session>, starts: map<nat, Start>,
    /** Every session ever opened or finalized. */
    everOpened: seq<Id>, everEnded: seq<Id>)

  function Init(): World { World(map[], map[], {}, map[], map[], map[], map[], [], []) }

  datatype Step =
    | Begin(t: nat, r: Request)
    | Look(t: nat)
    | Check(t: nat)
    | Route(t: nat, routed: bool, limit: int)
    | Create(t: nat, id: Id)
    | Recheck(t: nat, routed: bool)
    | Claim(t: nat)
    | Register(t: nat)
    | Launch(t: nat)
    | Throw(t: nat)
    | Release(t: nat)
    | Resume(t: nat)
    | End(id: Id)
    | Move(id: Id, to: CallPath.CallState)
    | Place(id: Id, r: Request)

  function At(w: World, t: nat, s: Start): World { w.(starts := w.starts[t := s]) }

  function Settle(w: World, t: nat, result: Result): World
    requires t in w.starts
  {
    At(w, t, Settled(w.starts[t].r, result))
  }

  predicate SameNumbers(r: Request, from: string, to: string) { r.from == from && r.to == to }

  function Attach(w: World, id: Id, t: nat): World
    requires id in w.objects
  {
    w.(objects := w.objects[id := w.objects[id].(output := t)])
  }

  // ---- the steps ---------------------------------------------------------------------------

  /** `startSession` up to its first await: join the attempt in flight, or own the
      call and look for a live session first. */
  function DoBegin(w: World, t: nat, r: Request): World
    requires t !in w.starts
  {
    if r.call in w.starting then At(w, t, Waiting(r, w.starting[r.call]))
    else
      var w1 := At(w, t, Looking(r)).(starting := w.starting[r.call := t]);
      if r.call in w.byProviderCall && w.byProviderCall[r.call] in w.sessions
        && w.byProviderCall[r.call] in w.objects then
        var id := w.byProviderCall[r.call];
        if !SameNumbers(r, w.objects[id].from, w.objects[id].to) then Settle(w1, t, Refused(IdentityMismatch))
        else Settle(Attach(w1, id, t), t, Ok(id, true))
      else w1
  }

  function DoLook(w: World, t: nat): World
    requires t in w.starts && w.starts[t].Looking?
  {
    var r := w.starts[t].r;
    var found := if r.call in w.rowOf && w.rowOf[r.call] in w.rows then Some(w.rows[w.rowOf[r.call]]) else None;
    At(w, t, Looked(r, found))
  }

  function Checked(r: Request, found: Option<Row>): Start {
    if found.Some? && (!SameNumbers(r, found.value.from, found.value.to)
                       || (r.outbound.Some? && r.outbound.value != found.value.outbound))
    then Settled(r, Refused(IdentityMismatch))
    else if found.Some? && CallPath.Terminal(found.value.state) then Settled(r, Refused(AlreadyEnded))
    else if found.Some? && found.value.claimed then Settled(r, Refused(RecoveryRequired))
    else if found.None? && r.outbound == Some(true) then Settled(r, Refused(UnknownNumber))
    else Routing(r, found.Some? && found.value.outbound)
  }

  function Routed(r: Request, outbound: bool, routed: bool, size: nat, limit: int): Start {
    if !routed then Settled(r, Refused(UnknownNumber))
    else if size >= limit then Settled(r, Refused(Capacity))
    else Creating(r, outbound)
  }

  function Insert(w: World, id: Id, row: Row): World {
    w.(rows := w.rows[id := row], rowOf := w.rowOf[row.call := id])
  }

  /** Check-and-insert in one step, under the unique index. */
  function DoCreate(w: World, t: nat, id: Id): World
    requires t in w.starts && w.starts[t].Creating?
  {
    var r, outbound := w.starts[t].r, w.starts[t].outbound;
    if r.call in w.rowOf && w.rowOf[r.call] in w.rows then
      At(w, t, Stored(r, w.rowOf[r.call], w.rows[w.rowOf[r.call]]))
    else
      var row := Row(r.call, r.from, r.to, outbound, if outbound then CallPath.Created else CallPath.Ringing, false);
      At(Insert(w, id, row), t, Stored(r, id, row))
  }

  function Rechecked(r: Request, id: Id, row: Row, routed: bool): Start {
    if CallPath.Terminal(row.state) then Settled(r, Refused(AlreadyEnded))
    else if !SameNumbers(r, row.from, row.to) then Settled(r, Refused(IdentityMismatch))
    else if !routed then Settled(r, Refused(UnknownNumber))
    else Claiming(r, id)
  }

  /** The conversation claim: atomic in the store, and never given twice. */
  function DoClaim(w: World, t: nat): World
    requires t in w.starts && w.starts[t].Claiming? && w.starts[t].id in w.rows
  {
    var r, id := w.starts[t].r, w.starts[t].id;
    var row := w.rows[id];
    if row.claimed || CallPath.Terminal(row.state) then Settle(w, t, Refused(RecoveryRequired))
    else At(w, t, Claimed(r, id)).(rows := w.rows[id := row.(claimed := true)])
  }

  function DoRegister(w: World, t: nat): World
    requires t in w.starts && w.starts[t].Claimed?
  {
    var r, id := w.starts[t].r, w.starts[t].id;
    At(w, t, Opening(r, id)).(
      sessions := w.sessions + {id},
      byProviderCall := w.byProviderCall[r.call := id],
      objects := w.objects[id := Session(r.call, r.from, r.to, t, false)],
      everOpened := w.everOpened + [id])
  }

  function DoRelease(w: World, t: nat): World
    requires t in w.starts && w.starts[t].Settled?
  {
    var r, result := w.starts[t].r, w.starts[t].result;
    At(w, t, Returned(r, result, false)).(starting := w.starting - {r.call})
  }

  predicate Done(s: Start) { s.Settled? || s.Returned? }

  /** A start that waited for another's set-up: pass its refusal on, or attach to
      the session it produced. */
  function DoResume(w: World, t: nat): World
    requires t in w.starts && w.starts[t].Waiting? && w.starts[t].owner in w.starts && Done(w.starts[w.starts[t].owner])
  {
    var r, result := w.starts[t].r, w.starts[w.starts[t].owner].result;
    if !result.Ok? then At(w, t, Returned(r, result, false))
    else if result.id !in w.sessions || result.id !in w.objects then At(w, t, Returned(r, result, true))
    else if !SameNumbers(r, w.objects[result.id].from, w.objects[result.id].to)
    then At(w, t, Returned(r, Refused(IdentityMismatch), false))
    else At(Attach(w, result.id, t), t, Returned(r, Ok(result.id, true), false))
  }

  /** `finalize`, which a media session may call more than once. */
  function DoEnd(w: World, id: Id): World
    requires id in w.objects
  {
    if w.objects[id].finalized then w
    else w.(objects := w.objects[id := w.objects[id].(finalized := true)],
            sessions := w.sessions - {id},
            byProviderCall := w.byProviderCall - {w.objects[id].call},
            everEnded := w.everEnded + [id])
  }

  function DoMove(w: World, id: Id, to: CallPath.CallState): World
    requires id in w.rows
  {
    if to in CallPath.Transitions(w.rows[id].state) then w.(rows := w.rows[id := w.rows[id].(state := to)]) else w
  }

  function DoPlace(w: World, id: Id, r: Request): World
    requires id !in w.rows
  {
    if r.call in w.rowOf then w else Insert(w, id, Row(r.call, r.from, r.to, true, CallPath.Created, false))
  }

  /** Whether the step can be taken; new ids are unused ones. */
  predicate Enabled(w: World, s: Step) {
    match s
    case Begin(t, r) => t !in w.starts
    case Look(t) => t in w.starts && w.starts[t].Looking?
    case Check(t) => t in w.starts && w.starts[t].Looked?
    case Route(t, _, _) => t in w.starts && w.starts[t].Routing?
    case Create(t, id) => t in w.starts && w.starts[t].Creating? && id !in w.rows
    case Recheck(t, _) => t in w.starts && w.starts[t].Stored?
    case Claim(t) => t in w.starts && w.starts[t].Claiming? && w.starts[t].id in w.rows
    case Register(t) => t in w.starts && w.starts[t].Claimed?
    case Launch(t) => t in w.starts && w.starts[t].Opening?
    case Throw(t) => t in w.starts && w.starts[t].Active() && !w.starts[t].Settled?
    case Release(t) => t in w.starts && w.starts[t].Settled?
    case Resume(t) => t in w.starts && w.starts[t].Waiting? && w.starts[t].owner in w.starts
      && Done(w.starts[w.starts[t].owner])
    case End(id) => id in w.objects
    case Move(id, _) => id in w.rows
    case Place(id, _) => id !in w.rows
  }

  function Take(w: World, s: Step): World
    requires Enabled(w, s)
  {
    match s
    case Begin(t, r) => DoBegin(w, t, r)
    case Look(t) => DoLook(w, t)
    case Check(t) => At(w, t, Checked(w.starts[t].r, w.starts[t].found))
    case Route(t, routed, limit) => At(w, t, Routed(w.starts[t].r, w.starts[t].outbound, routed, |w.sessions|, limit))
    case Create(t, id) => DoCreate(w, t, id)
    case Recheck(t, routed) => At(w, t, Rechecked(w.starts[t].r, w.starts[t].id, w.starts[t].row, routed))
    case Claim(t) => DoClaim(w, t)
    case Register(t) => DoRegister(w, t)
    case Launch(t) => Settle(w, t, Ok(w.starts[t].id, false))
    case Throw(t) => Settle(w, t, Threw)
    case Release(t) => DoRelease(w, t)
    case Resume(t) => DoResume(w, t)
    case End(id) => DoEnd(w, id)
    case Move(id, to) => DoMove(w, id, to)
    case Place(id, r) => DoPlace(w, id, r)
  }

  /** A run; steps that cannot be taken are skipped. */
  function RunOf(steps: seq<Step>): World {
    if steps == [] then Init()
    else
      var w, s := RunOf(steps[..|steps| - 1]), steps[|steps| - 1];
      if Enabled(w, s) then Take(w, s) else w
  }

  // ---- the invariant -------------------------------------------------------------------------

  ghost predicate RowsOk(rows: map<Id, Row>, rowOf: map<Call, Id>) {
    && (forall c <- rowOf :: rowOf[c] in rows && rows[rowOf[c]].call == c)
    && (forall id <- rows :: rows[id].call in rowOf && rowOf[rows[id].call] == id)
  }

  ghost predicate Matches(row: Row, r: Request) { row.call == r.call && SameNumbers(r, row.from, row.to) }

  ghost predicate ObjectsOk(rows: map<Id, Row>, objects: map<Id, Session>) {
    forall id <- objects ::
      id in rows && rows[id].claimed && rows[id].call == objects[id].call
      && rows[id].from == objects[id].from && rows[id].to == objects[id].to
  }

  ghost predicate RegistryOk(objects: map<Id, Session>, sessions: set<Id>, byProviderCall: map<Call, Id>) {
    && (forall id :: id in sessions <==> id in objects && !objects[id].finalized)
    && (forall c <- byProviderCall :: byProviderCall[c] in sessions && objects[byProviderCall[c]].call == c)
    && (forall id <- sessions :: objects[id].call in byProviderCall && byProviderCall[objects[id].call] == id)
  }

  ghost predicate StartOk(w: World, s: Start) {
    match s
    case Stored(r, id, row) => id in w.rows && w.rows[id].call == r.call && w.rows[id].from == row.from
      && w.rows[id].to == row.to
    case Claiming(r, id) => id in w.rows && Matches(w.rows[id], r)
    case Claimed(r, id) => id in w.rows && Matches(w.rows[id], r) && w.rows[id].claimed && id !in w.objects
    case Opening(r, id) => id in w.rows && Matches(w.rows[id], r) && id in w.objects
    case Settled(r, result) => result.Ok? ==>
      result.id in w.rows && Matches(w.rows[result.id], r) && result.id in w.objects
    case Returned(r, result, late) =>
      result.Ok? ==> result.id in w.objects && result.id in w.rows && w.rows[result.id].call == r.call
                     && (late || Matches(w.rows[result.id], r))
    case Waiting(r, owner) => owner in w.starts && !w.starts[owner].Waiting? && w.starts[owner].r.call == r.call
    case _ => true
  }

  ghost predicate StartsOk(w: World) { forall t <- w.starts :: StartOk(w, w.starts[t]) }

  /** The socket a session speaks to belongs to a start with the call's own numbers. */
  ghost predicate OutputsOk(starts: map<nat, Start>, objects: map<Id, Session>) {
    forall id <- objects :: OutputOk(starts, objects[id])
  }

  ghost predicate OutputOk(starts: map<nat, Start>, o: Session) {
    o.output in starts && starts[o.output].r.call == o.call && SameNumbers(starts[o.output].r, o.from, o.to)
  }

  /** A call's set-up is in flight at most once. */
  ghost predicate StartingOk(starts: map<nat, Start>, starting: map<Call, nat>) {
    && (forall t <- starts :: starts[t].Active() ==> starts[t].r.call in starting && starting[starts[t].r.call] == t)
    && (forall c <- starting ::
          starting[c] in starts && starts[starting[c]].Active() && starts[starting[c]].r.call == c)
  }

  ghost predicate ClaimsOk(starts: map<nat, Start>) {
    forall t <- starts, u <- starts ::
      starts[t].Claimed? && starts[u].Claimed? && starts[t].id == starts[u].id ==> t == u
  }

  ghost predicate Distinct(ids: seq<Id>) { forall i, j :: 0 <= i < j < |ids| ==> ids[i] != ids[j] }

  ghost predicate LogsOk(objects: map<Id, Session>, everOpened: seq<Id>, everEnded: seq<Id>) {
    && Distinct(everOpened) && (forall id :: id in everOpened <==> id in objects)
    && Distinct(everEnded) && (forall id :: id in everEnded <==> id in objects && objects[id].finalized)
  }

  ghost predicate Inv(w: World) {
    && RowsOk(w.rows, w.rowOf) && ObjectsOk(w.rows, w.objects)
    && RegistryOk(w.objects, w.sessions, w.byProviderCall)
    && StartsOk(w) && OutputsOk(w.starts, w.objects)
    && StartingOk(w.starts, w.starting) && ClaimsOk(w.starts)
    && LogsOk(w.objects, w.everOpened, w.everEnded)
  }

  lemma DistinctPlus(ids: seq<Id>, id: Id)
    requires Distinct(ids) && id !in ids
    ensures Distinct(ids + [id])
  {
  }

  // ---- every step keeps it -------------------------------------------------------------------

  /** A store row may change its state and become claimed; who it is for stays. */
  ghost predicate RowStep(a: Row, b: Row) {
    b == a.(state := b.state, claimed := b.claimed) && (a.claimed ==> b.claimed)
  }

  /** What no step undoes: rows, session objects and the starts' requests stay. */
  ghost predicate Grows(w: World, w1: World) {
    && (forall id <- w.rows :: id in w1.rows && RowStep(w.rows[id], w1.rows[id]))
    && (forall id <- w.objects :: id in w1.objects)
    && (forall u <- w.starts ::
          u in w1.starts && w1.starts[u].r == w.starts[u].r && (w1.starts[u].Waiting? ==> w.starts[u].Waiting?))
  }

  lemma StartStays(w: World, w1: World, s: Start)
    requires StartOk(w, s) && Grows(w, w1) && (s.Claimed? ==> s.id !in w1.objects)
    ensures StartOk(w1, s)
  {
  }

  /** Only start `t` (and no other) changed. */
  lemma StartsKept(w: World, w1: World, t: nat)
    requires StartsOk(w) && Grows(w, w1) && w1.starts.Keys <= w.starts.Keys + {t}
    requires forall u <- w.starts :: u != t ==> w1.starts[u] == w.starts[u]
    requires forall u <- w.starts :: u != t && w.starts[u].Claimed? ==> w.starts[u].id !in w1.objects
    requires t in w1.starts ==> StartOk(w1, w1.starts[t])
    ensures StartsOk(w1)
  {
    hide StartOk;
    hide Grows;
    forall u | u in w1.starts ensures StartOk(w1, w1.starts[u]) {
      if u != t { StartStays(w, w1, w.starts[u]); }
    }
  }

  /** Only session `id` changed. */
  lemma OutputsKept(w: World, w1: World, id: Id)
    requires OutputsOk(w.starts, w.objects) && Grows(w, w1) && w1.objects.Keys <= w.objects.Keys + {id}
    requires forall x <- w.objects :: x != id ==> w1.objects[x] == w.objects[x]
    requires id in w1.objects ==> OutputOk(w1.starts, w1.objects[id])
    ensures OutputsOk(w1.starts, w1.objects)
  {
    forall x | x in w1.objects ensures OutputOk(w1.starts, w1.objects[x]) {
      if x != id { assert OutputOk(w.starts, w.objects[x]); }
    }
  }

  lemma StartsSame(w: World, w1: World)
    requires StartsOk(w) && Grows(w, w1) && w1.starts == w.starts
    requires forall u <- w.starts :: w.starts[u].Claimed? ==> w.starts[u].id !in w1.objects
    ensures StartsOk(w1)
  {
    hide StartOk;
    hide Grows;
    forall u | u in w1.starts ensures StartOk(w1, w1.starts[u]) { StartStays(w, w1, w.starts[u]); }
  }

  lemma OutputsSame(w: World, w1: World)
    requires OutputsOk(w.starts, w.objects) && Grows(w, w1) && w1.objects == w.objects
    ensures OutputsOk(w1.starts, w1.objects)
  {
    forall x | x in w1.objects ensures OutputOk(w1.starts, w1.objects[x]) { assert OutputOk(w.starts, w.objects[x]); }
  }

  lemma StartIsOk(w: World, t: nat)
    requires StartsOk(w) && t in w.starts
    ensures StartOk(w, w.starts[t])
  {
  }

  lemma ObjectIsOk(w: World, id: Id)
    requires OutputsOk(w.starts, w.objects) && id in w.objects
    ensures OutputOk(w.starts, w.objects[id])
  {
  }

  lemma ObjectFacts(w: World, id: Id)
    requires ObjectsOk(w.rows, w.objects) && id in w.objects
    ensures id in w.rows && w.rows[id].call == w.objects[id].call
    ensures w.rows[id].from == w.objects[id].from && w.rows[id].to == w.objects[id].to
  {
  }

  lemma ClaimsUnused(w: World)
    requires StartsOk(w)
    ensures forall u <- w.starts :: w.starts[u].Claimed? ==> w.starts[u].id !in w.objects
  {
    forall u <- w.starts | w.starts[u].Claimed? ensures w.starts[u].id !in w.objects { StartIsOk(w, u); }
  }

  /** The session object `id` gets another socket. */
  lemma Touched(rows: map<Id, Row>, objects: map<Id, Session>, sessions: set<Id>, byProviderCall: map<Call, Id>,
                everOpened: seq<Id>, everEnded: seq<Id>, id: Id, t: nat)
    requires ObjectsOk(rows, objects) && RegistryOk(objects, sessions, byProviderCall)
    requires LogsOk(objects, everOpened, everEnded) && id in objects
    ensures var o := objects[id := objects[id].(output := t)];
            ObjectsOk(rows, o) && RegistryOk(o, sessions, byProviderCall) && LogsOk(o, everOpened, everEnded)
  {
  }

  lemma ObjectAdded(rows: map<Id, Row>, objects: map<Id, Session>, id: Id, o: Session)
    requires ObjectsOk(rows, objects) && id in rows && rows[id].claimed
    requires rows[id].call == o.call && rows[id].from == o.from && rows[id].to == o.to
    ensures ObjectsOk(rows, objects[id := o])
  {
  }

  lemma RegistryAdded(rows: map<Id, Row>, rowOf: map<Call, Id>, objects: map<Id, Session>, sessions: set<Id>,
                      byProviderCall: map<Call, Id>, id: Id, o: Session)
    requires RowsOk(rows, rowOf) && ObjectsOk(rows, objects) && RegistryOk(objects, sessions, byProviderCall)
    requires id !in objects && !o.finalized && id in rows && rows[id].call == o.call
    ensures RegistryOk(objects[id := o], sessions + {id}, byProviderCall[o.call := id])
  {
  }

  lemma LogsAdded(objects: map<Id, Session>, everOpened: seq<Id>, everEnded: seq<Id>, id: Id, o: Session)
    requires LogsOk(objects, everOpened, everEnded) && id !in objects && !o.finalized
    ensures LogsOk(objects[id := o], everOpened + [id], everEnded)
  {
    DistinctPlus(everOpened, id);
  }

  lemma Ended(rows: map<Id, Row>, objects: map<Id, Session>, sessions: set<Id>, byProviderCall: map<Call, Id>,
              everOpened: seq<Id>, everEnded: seq<Id>, id: Id)
    requires ObjectsOk(rows, objects) && RegistryOk(objects, sessions, byProviderCall)
    requires LogsOk(objects, everOpened, everEnded) && id in objects && !objects[id].finalized
    ensures var o := objects[id := objects[id].(finalized := true)];
            ObjectsOk(rows, o) && RegistryOk(o, sessions - {id}, byProviderCall - {objects[id].call})
            && LogsOk(o, everOpened, everEnded + [id])
  {
    DistinctPlus(everEnded, id);
  }

  lemma StillStarting(starts: map<nat, Start>, starting: map<Call, nat>, t: nat, s: Start)
    requires StartingOk(starts, starting) && ClaimsOk(starts) && t in starts && s.r == starts[t].r && !s.Claimed?
    ensures s.Active() == starts[t].Active() ==> StartingOk(starts[t := s], starting)
    ensures ClaimsOk(starts[t := s])
  {
  }

  lemma NoLongerStarting(starts: map<nat, Start>, starting: map<Call, nat>, t: nat, s: Start)
    requires StartingOk(starts, starting) && t in starts && starts[t].Active() && !s.Active() && s.r == starts[t].r
    ensures StartingOk(starts[t := s], starting - {s.r.call})
  {
  }

  /** A start that only moves on, without taking or leaving its call. */
  lemma MoveOn(w: World, t: nat, s: Start)
    requires Inv(w) && t in w.starts && w.starts[t].Active() && s.Active() && !s.Claimed?
    requires s.r == w.starts[t].r && StartOk(w, s)
    ensures Inv(At(w, t, s))
  {
    hide RowsOk;
    hide ObjectsOk;
    hide RegistryOk;
    hide StartsOk;
    hide OutputsOk;
    hide StartingOk;
    hide ClaimsOk;
    hide LogsOk;
    ClaimsUnused(w);
    StillStarting(w.starts, w.starting, t, s);
    var w1 := At(w, t, s);
    StartStays(w, w1, s);
    StartsKept(w, w1, t);
    OutputsSame(w, w1);
  }

  lemma NewOwner(w: World, t: nat, r: Request)
    requires Inv(w) && t !in w.starts && r.call !in w.starting
    ensures Inv(At(w, t, Looking(r)).(starting := w.starting[r.call := t]))
  {
    hide StartsOk;
    hide OutputsOk;
    ClaimsUnused(w);
    var w1 := At(w, t, Looking(r)).(starting := w.starting[r.call := t]);
    StartsKept(w, w1, t);
    OutputsSame(w, w1);
  }

  lemma NewWaiter(w: World, t: nat, r: Request)
    requires Inv(w) && t !in w.starts && r.call in w.starting
    ensures Inv(At(w, t, Waiting(r, w.starting[r.call])))
  {
    hide StartsOk;
    hide OutputsOk;
    ClaimsUnused(w);
    var w1 := At(w, t, Waiting(r, w.starting[r.call]));
    StartsKept(w, w1, t);
    OutputsSame(w, w1);
  }

  lemma AttachKeeps(w: World, id: Id, t: nat)
    requires Inv(w) && id in w.objects && t in w.starts && OutputOk(w.starts, w.objects[id].(output := t))
    ensures Inv(Attach(w, id, t))
  {
    hide RowsOk;
    hide ObjectsOk;
    hide RegistryOk;
    hide StartsOk;
    hide OutputsOk;
    hide StartingOk;
    hide ClaimsOk;
    hide LogsOk;
    ClaimsUnused(w);
    Touched(w.rows, w.objects, w.sessions, w.byProviderCall, w.everOpened, w.everEnded, id, t);
    var w1 := Attach(w, id, t);
    StartsSame(w, w1);
    OutputsKept(w, w1, id);
  }

  lemma BeginKeeps(w: World, t: nat, r: Request)
    requires Inv(w) && t !in w.starts
    ensures Inv(DoBegin(w, t, r))
  {
    hide RowsOk;
    hide LogsOk;
    hide StartsOk;
    hide OutputsOk;
    hide ClaimsOk;
    hide StartingOk;
    if r.call in w.starting {
      NewWaiter(w, t, r);
    } else {
      NewOwner(w, t, r);
      var w1 := At(w, t, Looking(r)).(starting := w.starting[r.call := t]);
      if r.call in w.byProviderCall && w.byProviderCall[r.call] in w.sessions && w.byProviderCall[r.call] in w.objects {
        var id := w.byProviderCall[r.call];
        if !SameNumbers(r, w.objects[id].from, w.objects[id].to) {
          MoveOn(w1, t, Settled(r, Refused(IdentityMismatch)));
        } else {
          AttachKeeps(w1, id, t);
          MoveOn(Attach(w1, id, t), t, Settled(r, Ok(id, true)));
        }
      }
    }
  }

  lemma RowChanges(w: World, id: Id, row: Row)
    requires Inv(w) && id in w.rows && RowStep(w.rows[id], row)
    ensures Inv(w.(rows := w.rows[id := row]))
  {
    hide StartsOk;
    hide OutputsOk;
    ClaimsUnused(w);
    var w1 := w.(rows := w.rows[id := row]);
    StartsSame(w, w1);
    OutputsSame(w, w1);
  }

  lemma InsertKeeps(w: World, id: Id, row: Row)
    requires Inv(w) && id !in w.rows && row.call !in w.rowOf
    ensures Inv(Insert(w, id, row))
  {
    hide StartsOk;
    hide OutputsOk;
    ClaimsUnused(w);
    var w1 := Insert(w, id, row);
    StartsSame(w, w1);
    OutputsSame(w, w1);
  }

  lemma CreateKeeps(w: World, t: nat, id: Id)
    requires Inv(w) && Enabled(w, Create(t, id))
    ensures Inv(DoCreate(w, t, id))
  {
    hide LogsOk;
    hide StartsOk;
    hide OutputsOk;
    hide ClaimsOk;
    hide StartingOk;
    hide RegistryOk;
    var r, outbound := w.starts[t].r, w.starts[t].outbound;
    if r.call in w.rowOf && w.rowOf[r.call] in w.rows {
      MoveOn(w, t, Stored(r, w.rowOf[r.call], w.rows[w.rowOf[r.call]]));
    } else {
      var row := Row(r.call, r.from, r.to, outbound, if outbound then CallPath.Created else CallPath.Ringing, false);
      InsertKeeps(w, id, row);
      MoveOn(Insert(w, id, row), t, Stored(r, id, row));
    }
  }

  /** The claim is granted only where nobody holds it and no session was built on it. */
  lemma ClaimKeeps(w: World, t: nat)
    requires Inv(w) && Enabled(w, Claim(t))
    ensures Inv(DoClaim(w, t))
  {
    var r, id := w.starts[t].r, w.starts[t].id;
    assert StartOk(w, w.starts[t]);
    if w.rows[id].claimed || CallPath.Terminal(w.rows[id].state) {
      MoveOn(w, t, Settled(r, Refused(RecoveryRequired)));
    } else {
      RowChanges(w, id, w.rows[id].(claimed := true));
      var w1 := w.(rows := w.rows[id := w.rows[id].(claimed := true)]);
      NobodyClaimed(w, id);
      ClaimGranted(w1, t);
    }
  }

  lemma NobodyClaimed(w: World, id: Id)
    requires Inv(w) && id in w.rows && !w.rows[id].claimed
    ensures id !in w.objects
    ensures forall u <- w.starts :: w.starts[u].Claimed? ==> w.starts[u].id != id
  {
    forall u <- w.starts | w.starts[u].Claimed? ensures w.starts[u].id != id { assert StartOk(w, w.starts[u]); }
  }

  lemma ClaimGranted(w: World, t: nat)
    requires Inv(w) && t in w.starts && w.starts[t].Claiming?
    requires var id := w.starts[t].id; id in w.rows && w.rows[id].claimed && id !in w.objects
    requires forall u <- w.starts :: w.starts[u].Claimed? ==> w.starts[u].id != w.starts[t].id
    ensures Inv(At(w, t, Claimed(w.starts[t].r, w.starts[t].id)))
  {
    hide StartsOk;
    hide OutputsOk;
    ClaimsUnused(w);
    StartIsOk(w, t);
    var w1 := At(w, t, Claimed(w.starts[t].r, w.starts[t].id));
    StartsKept(w, w1, t);
    OutputsSame(w, w1);
  }

  lemma OneClaim(w: World, t: nat)
    requires ClaimsOk(w.starts) && t in w.starts && w.starts[t].Claimed?
    ensures forall u <- w.starts :: u != t && w.starts[u].Claimed? ==> w.starts[u].id != w.starts[t].id
  {
  }

  /** Registering puts a fresh session under a call that has none. */
  lemma RegisterKeeps(w: World, t: nat)
    requires Inv(w) && Enabled(w, Register(t))
    ensures Inv(DoRegister(w, t))
  {
    hide RowsOk;
    hide ObjectsOk;
    hide RegistryOk;
    hide StartsOk;
    hide OutputsOk;
    hide StartingOk;
    hide ClaimsOk;
    hide LogsOk;
    ClaimsUnused(w);
    StartIsOk(w, t);
    var r, id, w1 := w.starts[t].r, w.starts[t].id, DoRegister(w, t);
    var o := w1.objects[id];
    ObjectAdded(w.rows, w.objects, id, o);
    RegistryAdded(w.rows, w.rowOf, w.objects, w.sessions, w.byProviderCall, id, o);
    LogsAdded(w.objects, w.everOpened, w.everEnded, id, o);
    StillStarting(w.starts, w.starting, t, w1.starts[t]);
    OneClaim(w, t);
    StartsKept(w, w1, t);
    OutputsKept(w, w1, id);
  }

  lemma ReleaseKeeps(w: World, t: nat)
    requires Inv(w) && Enabled(w, Release(t))
    ensures Inv(DoRelease(w, t))
  {
    hide RowsOk;
    hide ObjectsOk;
    hide RegistryOk;
    hide StartsOk;
    hide OutputsOk;
    hide StartingOk;
    hide ClaimsOk;
    hide LogsOk;
    ClaimsUnused(w);
    var w1 := DoRelease(w, t);
    StartIsOk(w, t);
    StillStarting(w.starts, w.starting, t, w1.starts[t]);
    NoLongerStarting(w.starts, w.starting, t, w1.starts[t]);
    StartStays(w, w1, w1.starts[t]);
    StartsKept(w, w1, t);
    OutputsSame(w, w1);
  }

  lemma WaiterReturns(w: World, t: nat, result: Result, late: bool)
    requires Inv(w) && t in w.starts && w.starts[t].Waiting? && StartOk(w, Returned(w.starts[t].r, result, late))
    ensures Inv(At(w, t, Returned(w.starts[t].r, result, late)))
  {
    hide RowsOk;
    hide ObjectsOk;
    hide RegistryOk;
    hide StartsOk;
    hide OutputsOk;
    hide StartingOk;
    hide ClaimsOk;
    hide LogsOk;
    ClaimsUnused(w);
    var w1 := At(w, t, Returned(w.starts[t].r, result, late));
    StillStarting(w.starts, w.starting, t, w1.starts[t]);
    StartStays(w, w1, w1.starts[t]);
    StartsKept(w, w1, t);
    OutputsSame(w, w1);
  }

  lemma ResumeKeeps(w: World, t: nat)
    requires Inv(w) && Enabled(w, Resume(t))
    ensures Inv(DoResume(w, t))
  {
    hide RowsOk;
    hide ObjectsOk;
    hide RegistryOk;
    hide LogsOk;
    hide OutputsOk;
    hide ClaimsOk;
    hide StartingOk;
    hide StartsOk;
    var r, owner := w.starts[t].r, w.starts[w.starts[t].owner];
    var result := owner.result;
    StartIsOk(w, t);
    StartIsOk(w, w.starts[t].owner);
    if !result.Ok? {
      WaiterReturns(w, t, result, false);
    } else if result.id !in w.sessions || result.id !in w.objects {
      WaiterReturns(w, t, result, true);
    } else if !SameNumbers(r, w.objects[result.id].from, w.objects[result.id].to) {
      WaiterReturns(w, t, Refused(IdentityMismatch), false);
    } else {
      ObjectFacts(w, result.id);
      AttachKeeps(w, result.id, t);
      WaiterReturns(Attach(w, result.id, t), t, Ok(result.id, true), false);
    }
  }

  /** Ending takes the session out of both registries, once. */
  lemma EndKeeps(w: World, id: Id)
    requires Inv(w) && id in w.objects
    ensures Inv(DoEnd(w, id))
  {
    hide RowsOk;
    hide ObjectsOk;
    hide RegistryOk;
    hide StartsOk;
    hide OutputsOk;
    hide StartingOk;
    hide ClaimsOk;
    hide LogsOk;
    ClaimsUnused(w);
    if !w.objects[id].finalized {
      var w1 := DoEnd(w, id);
      Ended(w.rows, w.objects, w.sessions, w.byProviderCall, w.everOpened, w.everEnded, id);
      StartsSame(w, w1);
      ObjectIsOk(w, id);
      OutputsKept(w, w1, id);
    }
  }

  predicate JustMoves(s: Step) { s.Look? || s.Check? || s.Route? || s.Recheck? || s.Launch? || s.Throw? }

  lemma MoveKeeps(w: World, s: Step)
    requires Inv(w) && Enabled(w, s) && JustMoves(s)
    ensures Inv(Take(w, s))
  {
    hide StartOk;
    hide Inv;
    hide Checked;
    hide Routed;
    hide Rechecked;
    match s
    case Look(t) => PlainMove(w, t, DoLook(w, t).starts[t]);
    case Check(t) => CheckKeeps(w, t);
    case Route(t, routed, limit) => RouteKeeps(w, t, routed, limit);
    case Recheck(t, routed) => RecheckKeeps(w, t, routed);
    case Launch(t) => LaunchKeeps(w, t);
    case Throw(t) => PlainMove(w, t, Settled(w.starts[t].r, Threw));
  }

  lemma CheckKeeps(w: World, t: nat)
    requires Inv(w) && Enabled(w, Check(t))
    ensures Inv(Take(w, Check(t)))
  {
    hide Inv;
    PlainMove(w, t, Checked(w.starts[t].r, w.starts[t].found));
  }

  lemma RouteKeeps(w: World, t: nat, routed: bool, limit: int)
    requires Inv(w) && Enabled(w, Route(t, routed, limit))
    ensures Inv(Take(w, Route(t, routed, limit)))
  {
    hide Inv;
    PlainMove(w, t, Routed(w.starts[t].r, w.starts[t].outbound, routed, |w.sessions|, limit));
  }

  /** A move to where nothing is known of the call yet. */
  lemma PlainMove(w: World, t: nat, s: Start)
    requires Inv(w) && t in w.starts && w.starts[t].Active() && s.r == w.starts[t].r
    requires s.Looked? || s.Routing? || s.Creating? || (s.Settled? && !s.result.Ok?)
    ensures Inv(At(w, t, s))
  {
    hide Inv;
    MoveOn(w, t, s);
  }

  lemma RecheckKeeps(w: World, t: nat, routed: bool)
    requires Inv(w) && Enabled(w, Recheck(t, routed))
    ensures Inv(Take(w, Recheck(t, routed)))
  {
    StartIsOk(w, t);
    hide Inv;
    var r, id, row := w.starts[t].r, w.starts[t].id, w.starts[t].row;
    RecheckedIsOk(w, r, id, row, routed);
    hide StartOk;
    MoveOn(w, t, Rechecked(r, id, row, routed));
  }

  lemma RecheckedIsOk(w: World, r: Request, id: Id, row: Row, routed: bool)
    requires StartOk(w, Stored(r, id, row))
    ensures StartOk(w, Rechecked(r, id, row, routed))
  {
  }

  lemma LaunchKeeps(w: World, t: nat)
    requires Inv(w) && Enabled(w, Launch(t))
    ensures Inv(Settle(w, t, Ok(w.starts[t].id, false)))
  {
    StartIsOk(w, t);
    hide Inv;
    MoveOn(w, t, Settled(w.starts[t].r, Ok(w.starts[t].id, false)));
  }

  lemma StepKeeps(w: World, s: Step)
    requires Inv(w) && Enabled(w, s)
    ensures Inv(Take(w, s))
  {
    hide RowsOk;
    hide ObjectsOk;
    hide RegistryOk;
    hide StartsOk;
    hide OutputsOk;
    hide StartingOk;
    hide ClaimsOk;
    hide LogsOk;
    hide StartOk;
    if JustMoves(s) { MoveKeeps(w, s); return; }
    match s
    case Begin(t, r) => BeginKeeps(w, t, r);
    case Create(t, id) => CreateKeeps(w, t, id);
    case Claim(t) => ClaimKeeps(w, t);
    case Register(t) => RegisterKeeps(w, t);
    case Release(t) => ReleaseKeeps(w, t);
    case Resume(t) => ResumeKeeps(w, t);
    case End(id) => EndKeeps(w, id);
    case Move(id, to) =>
      if to in CallPath.Transitions(w.rows[id].state) { RowChanges(w, id, w.rows[id].(state := to)); }
    case Place(id, r) =>
      if r.call !in w.rowOf { InsertKeeps(w, id, Row(r.call, r.from, r.to, true, CallPath.Created, false)); }
  }

  lemma {:induction false} EveryRunKeeps(steps: seq<Step>)
    ensures Inv(RunOf(steps))
  {
    hide Inv;
    hide Enabled;
    hide Take;
    if steps == [] {
      InitOk();
    } else {
      var w, s := RunOf(steps[..|steps| - 1]), steps[|steps| - 1];
      EveryRunKeeps(steps[..|steps| - 1]);
      if Enabled(w, s) { StepKeeps(w, s); }
    }
  }

  lemma InitOk()
    ensures Inv(Init())
  {
  }

  // ---- what holds of every run ---------------------------------------------------------------

  /** Over its whole history a provider call gets at most one session. */
  lemma {:induction false} OneSessionPerCall(steps: seq<Step>, i: nat, j: nat)
    requires i < j < |RunOf(steps).everOpened|
    ensures var w := RunOf(steps);
            w.everOpened[i] in w.objects && w.everOpened[j] in w.objects
            && w.objects[w.everOpened[i]].call != w.objects[w.everOpened[j]].call
  {
    EveryRunKeeps(steps);
    var w := RunOf(steps);
    var a, b := w.everOpened[i], w.everOpened[j];
    assert a in w.everOpened && b in w.everOpened;
    ObjectFacts(w, a);
    ObjectFacts(w, b);
    assert w.rowOf[w.rows[a].call] == a && w.rowOf[w.rows[b].call] == b;
  }

  lemma BeginLogs(w: World, t: nat, r: Request)
    requires t !in w.starts
    ensures DoBegin(w, t, r).everOpened == w.everOpened && DoBegin(w, t, r).everEnded == w.everEnded
  {
  }

  lemma CreateLogs(w: World, t: nat, id: Id)
    requires t in w.starts && w.starts[t].Creating?
    ensures DoCreate(w, t, id).everOpened == w.everOpened && DoCreate(w, t, id).everEnded == w.everEnded
  {
  }

  lemma StepGrows(w: World, s: Step)
    requires Enabled(w, s)
    ensures w.everOpened <= Take(w, s).everOpened && w.everEnded <= Take(w, s).everEnded
  {
    hide Checked;
    hide Routed;
    hide Rechecked;
    hide CallPath.Transitions;
    hide CallPath.Terminal;
    hide SameNumbers;
    match s
    case Begin(t, r) => BeginLogs(w, t, r);
    case Look(t) =>
    case Check(t) =>
    case Route(t, routed, limit) =>
    case Create(t, id) => CreateLogs(w, t, id);
    case Recheck(t, routed) =>
    case Claim(t) =>
    case Register(t) =>
    case Launch(t) =>
    case Throw(t) =>
    case Release(t) =>
    case Resume(t) =>
    case End(id) =>
    case Move(id, to) =>
    case Place(id, r) =>
  }

  /** Nothing is ever taken out of the two histories. */
  lemma {:induction false} HistoriesGrow(steps: seq<Step>, n: nat)
    requires n <= |steps|
    ensures RunOf(steps[..n]).everOpened <= RunOf(steps).everOpened
    ensures RunOf(steps[..n]).everEnded <= RunOf(steps).everEnded
    decreases |steps|
  {
    if n == |steps| {
      assert steps[..n] == steps;
    } else {
      hide Take;
      hide Enabled;
      var before := steps[..|steps| - 1];
      HistoriesGrow(before, n);
      assert before[..n] == steps[..n];
      if Enabled(RunOf(before), steps[|steps| - 1]) { StepGrows(RunOf(before), steps[|steps| - 1]); }
    }
  }

  /** Each session is finalized at most once, and exactly the sessions that were
      opened and not yet finalized are registered. */
  lemma {:induction false} FinalizedAtMostOnce(steps: seq<Step>)
    ensures var w := RunOf(steps); Distinct(w.everEnded) && Distinct(w.everOpened)
    ensures var w := RunOf(steps); forall id :: id in w.sessions <==> id in w.everOpened && id !in w.everEnded
  {
    EveryRunKeeps(steps);
  }

  /** The two registries are inverse to each other at every moment. */
  lemma {:induction false} RegistriesAreInverse(steps: seq<Step>, c: Call, id: Id)
    ensures var w := RunOf(steps);
            (c in w.byProviderCall && w.byProviderCall[c] == id)
            <==> (id in w.sessions && id in w.objects && w.objects[id].call == c)
  {
    EveryRunKeeps(steps);
  }

  /** A call's set-up is never in flight twice. */
  lemma {:induction false} OneSetUpAtATime(steps: seq<Step>, t: nat, u: nat)
    requires var s := RunOf(steps).starts;
      t in s && u in s && s[t].Active() && s[u].Active() && s[t].r.call == s[u].r.call
    ensures t == u
  {
    EveryRunKeeps(steps);
  }

  ghost predicate Answered(s: Start) { Done(s) && s.result.Ok? }

  /** All successful starts of one provider call name the same session. */
  lemma {:induction false} SuccessfulStartsAgree(steps: seq<Step>, t: nat, u: nat)
    requires var s := RunOf(steps).starts;
      t in s && u in s && Answered(s[t]) && Answered(s[u]) && s[t].r.call == s[u].r.call
    ensures var s := RunOf(steps).starts; s[t].result.id == s[u].result.id && s[t].result.id in RunOf(steps).everOpened
  {
    EveryRunKeeps(steps);
    var w := RunOf(steps);
    StartIsOk(w, t);
    StartIsOk(w, u);
    var a, b := w.starts[t].result.id, w.starts[u].result.id;
    assert a in w.objects && b in w.objects;
    assert w.rowOf[w.rows[a].call] == a && w.rowOf[w.rows[b].call] == b;
  }

  /** A session only ever speaks to a socket that came with the call's own numbers,
      and a start that succeeded had them, unless it waited for another start and the
      session had ended by the time it went on. */
  lemma {:induction false} OnlyTheRightCaller(steps: seq<Step>, id: Id, t: nat)
    requires id in RunOf(steps).objects && t in RunOf(steps).starts
    ensures var w := RunOf(steps); OutputOk(w.starts, w.objects[id])
    ensures var w := RunOf(steps); var s := w.starts[t];
            Answered(s) && !(s.Returned? && s.late) ==>
              s.result.id in w.objects && w.objects[s.result.id].from == s.r.from && w.objects[s.result.id].to == s.r.to
  {
    EveryRunKeeps(steps);
    var w := RunOf(steps);
    ObjectIsOk(w, id);
    StartIsOk(w, t);
    if Answered(w.starts[t]) && w.starts[t].result.id in w.objects { ObjectFacts(w, w.starts[t].result.id); }
  }

  lemma Then(steps: seq<Step>, s: Step)
    ensures RunOf(steps + [s]) == if Enabled(RunOf(steps), s) then Take(RunOf(steps), s) else RunOf(steps)
  {
    assert (steps + [s])[..|steps|] == steps;
  }

  function SetUp(r: Request): seq<Step> {
    [Begin(0, r), Look(0), Check(0), Route(0, true, 50), Create(0, "i"), Recheck(0, true), Claim(0), Register(0)]
  }

  function Opened(r: Request): World {
    World(map["i" := Row(r.call, r.from, r.to, false, CallPath.Ringing, true)], map[r.call := "i"],
          {"i"}, map[r.call := "i"], map[r.call := 0],
          map["i" := Session(r.call, r.from, r.to, 0, false)], map[0 := Opening(r, "i")], ["i"], [])
  }

  /** The exception is real: a start from another number waits while the session is
      set up; the session ends first; the wrong caller is told that it succeeded. */
  lemma LateStartIsNotChecked()
    ensures exists steps: seq<Step>, t: nat :: t in RunOf(steps).starts && Answered(RunOf(steps).starts[t])
              && WrongNumber(RunOf(steps), RunOf(steps).starts[t])
  {
    var r0, r1 := Request("c", "a", "b", None), Request("c", "x", "b", None);
    hide Take;
    hide Enabled;
    hide RunOf;
    SetUpRuns(r0);
    var steps, w := SetUp(r0), Opened(r0);
    LateSteps(r0, r1);
    var s1, s2, s3, s4 := Begin(1, r1), Launch(0), End("i"), Resume(1);
    Then(steps, s1);
    Then(steps + [s1], s2);
    Then(steps + [s1] + [s2], s3);
    Then(steps + [s1] + [s2] + [s3], s4);
    var all := steps + [s1] + [s2] + [s3] + [s4];
    assert RunOf(all).starts[1] == Returned(r1, Ok("i", false), true);
    assert WrongNumber(RunOf(all), RunOf(all).starts[1]);
  }

  /** One step after another. */
  function Next(w: World, s: Step): World { if Enabled(w, s) then Take(w, s) else w }

  lemma LateSteps(r0: Request, r1: Request)
    requires r0.call == r1.call
    ensures var w := Next(Next(Next(Next(Opened(r0), Begin(1, r1)), Launch(0)), End("i")), Resume(1));
            1 in w.starts && w.starts[1] == Returned(r1, Ok("i", false), true)
            && "i" in w.objects && w.objects["i"].from == r0.from
  {
    var w0 := Opened(r0);
    var w1 := Next(w0, Begin(1, r1));
    assert w1 == w0.(starts := map[0 := Opening(r0, "i"), 1 := Waiting(r1, 0)]) by { assert Enabled(w0, Begin(1, r1)); }
    var w2 := Next(w1, Launch(0));
    assert w2 == w1.(starts := map[0 := Settled(r0, Ok("i", false)), 1 := Waiting(r1, 0)]) by {
      assert Enabled(w1, Launch(0));
    }
    LateEnd(r0, r1, w2);
  }

  lemma LateEnd(r0: Request, r1: Request, w2: World)
    requires r0.call == r1.call
    requires w2 == Opened(r0).(starts := map[0 := Settled(r0, Ok("i", false)), 1 := Waiting(r1, 0)])
    ensures var w := Next(Next(w2, End("i")), Resume(1));
            1 in w.starts && w.starts[1] == Returned(r1, Ok("i", false), true)
            && "i" in w.objects && w.objects["i"].from == r0.from
  {
    var w3 := Next(w2, End("i"));
    assert w3.sessions == {} && w3.starts == w2.starts
      && w3.objects == map["i" := Session(r0.call, r0.from, r0.to, 0, true)];
  }

  /** A lone start on its way: nothing registered yet. */
  function Early(r: Request, rows: map<Id, Row>, rowOf: map<Call, Id>, s: Start): World {
    World(rows, rowOf, {}, map[], map[r.call := 0], map[], map[0 := s], [], [])
  }

  lemma SetUpLooks(r: Request)
    requires r.outbound.None?
    ensures Next(Init(), Begin(0, r)) == Early(r, map[], map[], Looking(r))
    ensures Next(Early(r, map[], map[], Looking(r)), Look(0)) == Early(r, map[], map[], Looked(r, None))
    ensures Next(Early(r, map[], map[], Looked(r, None)), Check(0)) == Early(r, map[], map[], Routing(r, false))
    ensures Next(Early(r, map[], map[], Routing(r, false)), Route(0, true, 50))
      == Early(r, map[], map[], Creating(r, false))
  {
  }

  function FreshRow(r: Request): Row { Row(r.call, r.from, r.to, false, CallPath.Ringing, false) }

  lemma SetUpStores(r: Request)
    ensures Next(Early(r, map[], map[], Creating(r, false)), Create(0, "i"))
         == Early(r, map["i" := FreshRow(r)], map[r.call := "i"], Stored(r, "i", FreshRow(r)))
    ensures Next(Early(r, map["i" := FreshRow(r)], map[r.call := "i"], Stored(r, "i", FreshRow(r))), Recheck(0, true))
         == Early(r, map["i" := FreshRow(r)], map[r.call := "i"], Claiming(r, "i"))
  {
  }

  lemma SetUpClaims(r: Request)
    ensures Next(Early(r, map["i" := FreshRow(r)], map[r.call := "i"], Claiming(r, "i")), Claim(0))
         == Early(r, map["i" := FreshRow(r).(claimed := true)], map[r.call := "i"], Claimed(r, "i"))
    ensures Next(Early(r, map["i" := FreshRow(r).(claimed := true)], map[r.call := "i"], Claimed(r, "i")),
                 Register(0)) == Opened(r)
  {
  }

  lemma SetUpRuns(r: Request)
    requires r.outbound.None?
    ensures RunOf(SetUp(r)) == Opened(r)
  {
    hide RunOf;
    hide Enabled;
    hide Take;
    var s := SetUp(r);
    RunOfNothing();
    SetUpLooks(r);
    PrefixRuns(s, 0); PrefixRuns(s, 1); PrefixRuns(s, 2); PrefixRuns(s, 3);
    assert RunOf(s[..4]) == Early(r, map[], map[], Creating(r, false));
    SetUpStores(r);
    PrefixRuns(s, 4); PrefixRuns(s, 5);
    assert RunOf(s[..6]) == Early(r, map["i" := FreshRow(r)], map[r.call := "i"], Claiming(r, "i"));
    SetUpClaims(r);
    PrefixRuns(s, 6); PrefixRuns(s, 7);
    assert s[..8] == s;
  }

  lemma PrefixRuns(steps: seq<Step>, k: nat)
    requires k < |steps|
    ensures RunOf(steps[..k + 1]) == Next(RunOf(steps[..k]), steps[k])
  {
    Then(steps[..k], steps[k]);
    assert steps[..k + 1] == steps[..k] + [steps[k]];
  }

  lemma RunOfNothing()
    ensures RunOf([]) == Init()
  {
  }

  ghost predicate WrongNumber(w: World, s: Start)
    requires Answered(s)
  {
    s.result.id in w.objects && w.objects[s.result.id].from != s.r.from
  }
}
