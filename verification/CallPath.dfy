/** The call state graph: the shortest legal path to a state, and the guarded
    store it is walked through. */
module CallPath {
  import opened Common

  // ---- any finite transition table ---------------------------------------------

  type Graph<N> = map<N, seq<N>>

  predicate Closed<N>(g: Graph<N>) {
    forall n, k :: n in g && 0 <= k < |g[n]| ==> g[n][k] in g
  }

  function EndOf<N>(from: N, path: seq<N>): N {
    if path == [] then from else path[|path| - 1]
  }

  /** `path` (without its start) follows the edges of the graph. */
  ghost predicate IsPath<N>(g: Graph<N>, from: N, path: seq<N>) {
    path == []
    || var before := path[..|path| - 1];
       IsPath(g, from, before) && EndOf(from, before) in g && EndOf(from, path) in g[EndOf(from, before)]
  }

  ghost predicate IsShortest<N(!new)>(g: Graph<N>, from: N, to: N, path: seq<N>) {
    && IsPath(g, from, path) && EndOf(from, path) == to
    && forall other :: IsPath(g, from, other) && EndOf(from, other) == to ==> |path| <= |other|
  }

  /** Every state that `d` steps can reach has been seen. */
  ghost predicate Covered<N(!new)>(g: Graph<N>, from: N, d: nat, seen: set<N>) {
    forall path :: IsPath(g, from, path) && |path| <= d ==> EndOf(from, path) in seen
  }

  datatype Entry<N> = Entry(state: N, path: seq<N>)

  ghost predicate Expanded<N>(g: Graph<N>, n: N, seen: set<N>) {
    n in g && forall k :: 0 <= k < |g[n]| ==> g[n][k] in seen
  }

  ghost predicate InQueue<N>(queue: seq<Entry<N>>, n: N) {
    exists i :: 0 <= i < |queue| && queue[i].state == n
  }

  /** Queue entries carry shortest paths, in order of length, at most one apart. */
  ghost predicate QueueOk<N(!new)>(g: Graph<N>, from: N, queue: seq<Entry<N>>, seen: set<N>, d: nat) {
    && (forall i :: 0 <= i < |queue| ==>
          queue[i].state in seen && queue[i].state in g && IsShortest(g, from, queue[i].state, queue[i].path))
    && (forall i :: 0 <= i < |queue| ==> d <= |queue[i].path| <= d + 1)
    && (forall i, j :: 0 <= i < j < |queue| ==> |queue[i].path| <= |queue[j].path|)
  }

  lemma ExtendPath<N>(g: Graph<N>, from: N, path: seq<N>, next: N)
    requires IsPath(g, from, path) && EndOf(from, path) in g && next in g[EndOf(from, path)]
    ensures IsPath(g, from, path + [next]) && EndOf(from, path + [next]) == next
  {
    assert (path + [next])[..|path|] == path;
  }

  /** A new state found from a queue head at distance `d` is at distance `d + 1`. */
  lemma DiscoveredIsShortest<N(!new)>(g: Graph<N>, from: N, head: Entry<N>, next: N, seen: set<N>)
    requires IsShortest(g, from, head.state, head.path) && head.state in g && next in g[head.state]
    requires next !in seen && Covered(g, from, |head.path|, seen)
    ensures IsShortest(g, from, next, head.path + [next])
  {
    ExtendPath(g, from, head.path, next);
  }

  /** When the next head is one level further, a whole level has been expanded. */
  lemma NextLevelCovered<N(!new)>(g: Graph<N>, from: N, queue: seq<Entry<N>>, seen: set<N>, d: nat)
    requires Covered(g, from, d, seen)
    requires forall n :: n in seen ==> Expanded(g, n, seen) || InQueue(queue, n)
    requires forall i :: 0 <= i < |queue| ==>
      |queue[i].path| > d && IsShortest(g, from, queue[i].state, queue[i].path)
    ensures Covered(g, from, d + 1, seen)
  {
    forall path | IsPath(g, from, path) && |path| <= d + 1 ensures EndOf(from, path) in seen {
      if |path| == d + 1 {
        var before := path[..d];
        var n := EndOf(from, before);
        assert n in seen;
        assert forall i :: 0 <= i < |queue| ==> queue[i].state != n;
      }
    }
  }

  lemma {:induction false} ClosedSeenIsAll<N(!new)>(g: Graph<N>, from: N, seen: set<N>, path: seq<N>)
    requires from in seen && forall n :: n in seen ==> Expanded(g, n, seen)
    requires IsPath(g, from, path)
    ensures EndOf(from, path) in seen
  {
    if path != [] {
      var before := path[..|path| - 1];
      ClosedSeenIsAll(g, from, seen, before);
      assert Expanded(g, EndOf(from, before), seen);
    }
  }

  /** Every seen state has been expanded or waits in the queue, `head` excepted. */
  ghost predicate Tracked<N>(g: Graph<N>, queue: seq<Entry<N>>, seen: set<N>, head: Option<N>) {
    forall n :: n in seen && Some(n) != head ==> Expanded(g, n, seen) || InQueue(queue, n)
  }

  ghost predicate Searching<N(!new)>(g: Graph<N>, from: N, to: N, queue: seq<Entry<N>>, seen: set<N>, d: nat,
                                     head: Option<N>)
  {
    && from in seen && to !in seen && seen <= g.Keys
    && QueueOk(g, from, queue, seen, d) && Covered(g, from, d, seen)
    && Tracked(g, queue, seen, head)
  }

  lemma PopHead<N(!new)>(g: Graph<N>, from: N, to: N, queue: seq<Entry<N>>, seen: set<N>, d: nat)
    requires queue != [] && Searching(g, from, to, queue, seen, d, None)
    ensures Searching(g, from, to, queue[1..], seen, d, Some(queue[0].state))
  {
    hide IsShortest;
    hide Covered;
    forall n | n in seen && n != queue[0].state ensures Expanded(g, n, seen) || InQueue(queue[1..], n) {
      if InQueue(queue, n) {
        var i :| 0 <= i < |queue| && queue[i].state == n;
        assert queue[1..][i - 1].state == n;
      }
    }
  }

  /** One queue entry is expanded: the target is found, or every new successor is queued. */
  method Expand<N(==,!new)>(g: Graph<N>, from: N, to: N, head: Entry<N>, queue0: seq<Entry<N>>, seen0: set<N>)
    returns (found: Option<seq<N>>, queue: seq<Entry<N>>, seen: set<N>)
    requires Closed(g) && head.state in g && IsShortest(g, from, head.state, head.path)
    requires Searching(g, from, to, queue0, seen0, |head.path|, Some(head.state))
    ensures found.Some? ==> IsShortest(g, from, to, found.value)
    ensures found.None? ==> Searching(g, from, to, queue, seen, |head.path|, None) && seen0 <= seen
    ensures found.None? && seen == seen0 ==> queue == queue0
  {
    hide IsShortest;
    hide Covered;
    hide QueueOk;
    hide Tracked;
    found, queue, seen := None, queue0, seen0;
    var successors := g[head.state];
    for k := 0 to |successors|
      invariant seen0 <= seen && Searching(g, from, to, queue, seen, |head.path|, Some(head.state))
      invariant forall i :: 0 <= i < k ==> successors[i] in seen
      invariant seen == seen0 ==> queue == queue0
    {
      var next := successors[k];
      if next in seen { continue; }
      DiscoveredIsShortest(g, from, head, next, seen);
      var nextPath := head.path + [next];
      if next == to { return Some(nextPath), queue, seen; }
      SeenGrows(g, from, queue, seen, seen + {next}, Entry(next, nextPath), |head.path|, head.state);
      seen := seen + {next};
      queue := queue + [Entry(next, nextPath)];
    }
    HeadExpanded(g, queue, seen, head.state);
  }

  lemma HeadExpanded<N>(g: Graph<N>, queue: seq<Entry<N>>, seen: set<N>, head: N)
    requires Expanded(g, head, seen) && Tracked(g, queue, seen, Some(head))
    ensures Tracked(g, queue, seen, None)
  {
  }

  lemma LevelUp<N(!new)>(g: Graph<N>, from: N, to: N, queue: seq<Entry<N>>, seen: set<N>, d: nat)
    requires Searching(g, from, to, queue, seen, d, None) && queue != [] && |queue[0].path| != d
    ensures Searching(g, from, to, queue, seen, d + 1, None) && |queue[0].path| == d + 1
  {
    NextLevelCovered(g, from, queue, seen, d);
  }

  /** Breadth-first search: a legal path of minimal length, or nothing exactly
      when the target cannot be reached. */
  method PathTo<N(==,!new)>(g: Graph<N>, from: N, to: N) returns (result: Option<seq<N>>)
    requires Closed(g) && from in g
    ensures result.Some? ==> IsShortest(g, from, to, result.value)
    ensures result.None? ==> forall path :: IsPath(g, from, path) ==> EndOf(from, path) != to
  {
    assert IsPath(g, from, []);
    if from == to { return Some([]); }
    var queue := [Entry(from, [])];
    var seen := {from};
    ghost var d: nat := 0;
    assert queue[0].state == from;
    assert InQueue(queue, from);
    while queue != []
      invariant Searching(g, from, to, queue, seen, d, None)
      invariant queue != [] ==> |queue[0].path| == d
      decreases |g.Keys - seen|, |queue|
    {
      hide IsShortest;
      hide Covered;
      hide Tracked;
      var head := queue[0];
      PopHead(g, from, to, queue, seen, d);
      var found, queue', seen' := Expand(g, from, to, head, queue[1..], seen);
      if found.Some? { return found; }
      Smaller(g.Keys, seen, seen');
      queue, seen := queue', seen';
      if queue != [] && |queue[0].path| != d {
        LevelUp(g, from, to, queue, seen, d);
        d := d + 1;
      }
    }
    forall path | IsPath(g, from, path) ensures EndOf(from, path) != to {
      ClosedSeenIsAll(g, from, seen, path);
    }
    result := None;
  }

  lemma Smaller<N>(all: set<N>, a: set<N>, b: set<N>)
    requires a <= b <= all
    ensures |all - b| <= |all - a| && (a != b ==> |all - b| < |all - a|)
  {
    assert all - a == (all - b) + (b - a);
  }

  lemma SeenGrows<N(!new)>(g: Graph<N>, from: N, queue: seq<Entry<N>>, seen: set<N>, more: set<N>, e: Entry<N>, d: nat,
                    head: N)
    requires more == seen + {e.state} && e.state in g && |e.path| == d + 1
    requires QueueOk(g, from, queue, seen, d) && Covered(g, from, d, seen)
    requires IsShortest(g, from, e.state, e.path) && Tracked(g, queue, seen, Some(head))
    ensures QueueOk(g, from, queue + [e], more, d) && Covered(g, from, d, more)
    ensures Tracked(g, queue + [e], more, Some(head))
  {
    hide IsShortest;
    var longer := queue + [e];
    forall n | n in more && n != head ensures Expanded(g, n, more) || InQueue(longer, n) {
      if n == e.state && n !in seen {
        assert longer[|queue|].state == n;
      } else if InQueue(queue, n) {
        var i :| 0 <= i < |queue| && queue[i].state == n;
        assert longer[i].state == n;
      }
    }
  }

  // ---- the call states -----------------------------------------------------------

  datatype CallState =
    | Created | Queued | Dialing | Ringing | Connected | InConversation | Interrupted | Completing
    | Completed | Transferred | NoAnswer | Busy | Failed | Cancelled

  function Transitions(s: CallState): seq<CallState> {
    match s
    case Created => [Queued, Dialing, Cancelled, Failed]
    case Queued => [Dialing, Cancelled, Failed]
    case Dialing => [Ringing, Connected, NoAnswer, Busy, Failed, Cancelled]
    case Ringing => [Connected, NoAnswer, Busy, Failed, Cancelled]
    case Connected => [InConversation, Completing, Transferred, Failed]
    case InConversation => [Interrupted, Completing, Transferred, Failed]
    case Interrupted => [InConversation, Completing, Failed]
    case Completing => [Completed, Failed]
    case _ => []
  }

  const ALL_STATES: set<CallState> := {
    Created, Queued, Dialing, Ringing, Connected, InConversation, Interrupted, Completing,
    Completed, Transferred, NoAnswer, Busy, Failed, Cancelled}

  function Table(): Graph<CallState> { map s: CallState | s in ALL_STATES :: Transitions(s) }

  predicate Terminal(s: CallState) { s in {Completed, Transferred, NoAnswer, Busy, Failed, Cancelled} }

  lemma TableIsTotal(s: CallState)
    ensures s in Table() && Table()[s] == Transitions(s) && (Terminal(s) <==> Transitions(s) == [])
  {
  }

  lemma TableIsClosed()
    ensures Closed(Table())
  {
    forall n, k | n in Table() && 0 <= k < |Table()[n]| ensures Table()[n][k] in Table() {
      TableIsTotal(Table()[n][k]);
    }
  }

  /** Nothing leaves a terminal state. */
  lemma {:induction false} TerminalAbsorbs(s: CallState, path: seq<CallState>)
    requires Terminal(s) && IsPath(Table(), s, path)
    ensures path == []
  {
    if path != [] {
      TerminalAbsorbs(s, path[..|path| - 1]);
    }
  }

  type Id = string

  /** What one walk may change: the call's own row, forwards, and no terminal row. */
  ghost predicate Advances(s0: map<Id, CallState>, h0: map<Id, seq<CallState>>,
                           s1: map<Id, CallState>, h1: map<Id, seq<CallState>>, id: Id) {
    && s0.Keys == h0.Keys == s1.Keys == h1.Keys
    && s0 - {id} == s1 - {id} && h0 - {id} == h1 - {id}
    && (id in s0 ==> h0[id] <= h1[id])
    && (id in s0 && Terminal(s0[id]) ==> s1 == s0 && h1 == h0)
  }

  lemma NoAdvance(s: map<Id, CallState>, h: map<Id, seq<CallState>>, id: Id)
    requires s.Keys == h.Keys
    ensures Advances(s, h, s, h, id)
  {
  }

  lemma AdvanceOne(s0: map<Id, CallState>, h0: map<Id, seq<CallState>>,
                   s1: map<Id, CallState>, h1: map<Id, seq<CallState>>, id: Id, to: CallState)
    requires Advances(s0, h0, s1, h1, id) && id in s1 && to in Transitions(s1[id])
    ensures Advances(s0, h0, s1[id := to], h1[id := h1[id] + [to]], id)
  {
    TableIsTotal(s1[id]);
    assert h0[id] <= h1[id] <= h1[id] + [to];
  }

  // ---- the guarded store -----------------------------------------------------------

  /** The call rows of the in-memory store: the current state of every call, and
      every state it was ever moved to. */
  class CallRows {
    var states: map<Id, CallState>
    ghost var initial: map<Id, CallState>
    ghost var history: map<Id, seq<CallState>>

    /** Every stored history is a path of the graph that ends in the stored state. */
    ghost predicate Valid()
      reads this
    {
      && states.Keys == initial.Keys == history.Keys
      && forall id :: id in states ==>
           IsPath(Table(), initial[id], history[id]) && EndOf(initial[id], history[id]) == states[id]
    }

    constructor ()
      ensures Valid() && states == map[]
    {
      states, initial, history := map[], map[], map[];
    }

    /** Check-and-insert in one step: a call that exists is returned as it is. */
    method CreateOrGet(id: Id, state: CallState) returns (current: CallState, created: bool)
      requires Valid()
      modifies this
      ensures Valid() && created == (id !in old(states))
      ensures states == if created then old(states)[id := state] else old(states)
      ensures current == states[id] && (forall x :: x in old(history) ==> x in history && history[x] == old(history)[x])
    {
      if id in states { return states[id], false; }
      states, initial, history := states[id := state], initial[id := state], history[id := []];
      return state, true;
    }

    /** A transition is stored only from the expected state and along an edge. */
    method Transition(id: Id, from: CallState, to: CallState) returns (ok: bool)
      requires Valid()
      modifies this
      ensures Valid() && states.Keys == old(states).Keys
      ensures ok <==> id in old(states) && old(states)[id] == from && to in Transitions(from)
      ensures !ok ==> states == old(states) && history == old(history)
      ensures ok ==> states == old(states)[id := to] && history == old(history)[id := old(history)[id] + [to]]
    {
      if id !in states || states[id] != from { return false; }
      if to !in Transitions(from) { return false; }
      TableIsTotal(from);
      ExtendPath(Table(), initial[id], history[id], to);
      states := states[id := to];
      history := history[id := history[id] + [to]];
      ok := true;
    }

    method WalkPath(id: Id, from: CallState, path: seq<CallState>) returns (ok: bool)
      requires Valid() && IsPath(Table(), from, path)
      modifies this
      ensures Valid() && Advances(old(states), old(history), states, history, id)
      ensures ok && path != [] ==> id in states && states[id] == EndOf(from, path)
      ensures id in old(states) && old(states)[id] == from ==> ok
    {
      hide IsPath;
      hide Transitions;
      hide Table;
      hide Advances;
      hide EndOf;
      NoAdvance(states, history, id);
      var current := from;
      StartOfPath(from, path);
      for k := 0 to |path|
        invariant Valid() && Advances(old(states), old(history), states, history, id)
        invariant current == EndOf(from, path[..k])
        invariant k > 0 || (id in old(states) && old(states)[id] == from) ==> id in states && states[id] == current
      {
        PathStep(from, path, k);
        PrefixEnds(from, path, k);
        ghost var s1, h1 := states, history;
        ok := Transition(id, current, path[k]);
        if !ok { return false; }
        AdvanceOne(old(states), old(history), s1, h1, id, path[k]);
        current := path[k];
      }
      WholePrefix(path);
      ok := true;
    }

    /** Walks the shortest legal path; each persisted transition is legal on its
        own, and from the call's own state the walk arrives exactly when it can. */
    method Walk(id: Id, from: CallState, target: CallState) returns (ok: bool)
      requires Valid()
      modifies this
      ensures Valid() && Advances(old(states), old(history), states, history, id)
      ensures ok && from != target ==> id in states && states[id] == target
      ensures id in old(states) && old(states)[id] == from ==>
        (ok <==> exists path :: IsPath(Table(), from, path) && EndOf(from, path) == target)
    {
      hide Transitions;
      hide Advances;
      hide Table;
      NoAdvance(states, history, id);
      TableIsClosed();
      TableIsTotal(from);
      var found := PathTo(Table(), from, target);
      if found.None? { return false; }
      ok := WalkPath(id, from, found.value);
    }
  }

  lemma {:induction false} PathStep(from: CallState, path: seq<CallState>, k: nat)
    requires IsPath(Table(), from, path) && k < |path|
    ensures IsPath(Table(), from, path[..k]) && path[k] in Transitions(EndOf(from, path[..k]))
    decreases |path|
  {
    var before := path[..|path| - 1];
    TableIsTotal(EndOf(from, before));
    if k == |path| - 1 {
    } else {
      PathStep(from, before, k);
      assert before[..k] == path[..k];
    }
  }

  lemma PrefixEnds(from: CallState, path: seq<CallState>, k: nat)
    requires k < |path|
    ensures EndOf(from, path[..k + 1]) == path[k]
  {
  }

  lemma StartOfPath(from: CallState, path: seq<CallState>)
    ensures EndOf(from, path[..0]) == from
  {
  }

  lemma WholePrefix(path: seq<CallState>)
    ensures path[..|path|] == path
  {
  }
}
