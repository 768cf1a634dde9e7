/** Safe speech streaming: sentences are validated over everything said before
    them, then heard at once, or held until the model round is known to have
    called no tool. */
module Speech {
  import opened Common
  import opened Text
  import opened Assembler

  // ---- the claim and leak guard ------------------------------------------

  datatype ClaimKind = Book | Reschedule | Cancel | Handoff | ContactSaved | Concession

  const ENFORCED := {Book, Reschedule, Cancel, Handoff, Concession}

  datatype Action = Action(succeeded: bool, claims: set<ClaimKind>)

  function PermittedClaims(actions: seq<Action>): set<ClaimKind> {
    if actions == [] then {}
    else
      var last := actions[|actions| - 1];
      PermittedClaims(actions[..|actions| - 1]) + (if last.succeeded then last.claims else {})
  }

  /** The detectors, markdown rewriting and channel limits; any of them are allowed. */
  datatype Guard = Guard(
    leaks: Str -> bool,
    claims: Str -> set<ClaimKind>,
    looksMarkdown: Str -> bool,
    rewrite: Str -> Str,
    wrongLanguage: Str -> bool,
    supportsMarkdown: bool,
    maxReplyChars: nat,
    listed: WordTable,
    minSegmentChars: nat)

  predicate Clean(g: Guard, text: Str, permitted: set<ClaimKind>) {
    !g.leaks(text) && g.claims(text) * ENFORCED <= permitted
  }

  /** What is spoken for a candidate: its text, with markdown stripped where needed. */
  function Spoken(g: Guard, candidate: Str): Str {
    var segment := Trim(candidate);
    if !g.supportsMarkdown && g.looksMarkdown(segment) then Trim(g.rewrite(segment)) else segment
  }

  function SpokenAll(g: Guard, candidates: seq<Str>): (said: seq<Str>)
    ensures |said| == |candidates|
  {
    seq(|candidates|, i requires 0 <= i < |candidates| => Spoken(g, candidates[i]))
  }

  /** `validateSegment(...).ok`. */
  predicate SegmentOk(g: Guard, prior: Str, candidate: Str, permitted: set<ClaimKind>) {
    var segment := Trim(candidate);
    segment != [] && Clean(g, Glue(Trim(prior), segment), permitted)
  }

  /** `validateReply(...).needsRegeneration`; language is judged only when asked to. */
  predicate NeedsRegeneration(g: Guard, reply: Str, permitted: set<ClaimKind>, judgeLanguage: bool) {
    var text := Trim(reply);
    text == [] || !Clean(g, text, permitted) || (judgeLanguage && g.wrongLanguage(text))
  }

  // ---- the stream's state --------------------------------------------------

  datatype Reason =
    | ToolCall | SegmentRejected | ReplyRejected | StreamFailed | ProviderFailed | Cancelled
    | ProviderCannotStream | PendingConfirmation

  datatype Event =
    | Segment(index: nat, text: Str, held: bool)
    | Release
    | Retract(reason: Reason)

  datatype Stream = Stream(
    assembler: Option<State>,
    roundHeld: bool,
    producedText: bool,
    held: seq<Str>,
    released: seq<Str>,
    revoked: bool,
    capped: bool,
    emitted: nat,
    retracted: nat,
    toolRetractions: nat,
    truncated: bool,
    fallback: Option<Reason>,
    events: seq<Event>)

  const FRESH := Stream(None, false, false, [], [], false, false, 0, 0, 0, false, None, [])

  function FallbackOr(old_: Option<Reason>, reason: Reason): Option<Reason> {
    if old_.Some? then old_ else Some(reason)
  }

  function RetractReason(reason: Reason): Reason {
    if reason in {SegmentRejected, ReplyRejected, StreamFailed, ProviderFailed} then reason else Cancelled
  }

  function RetractHeld(st: Stream, reason: Reason): Stream {
    if st.held == [] then st
    else st.(retracted := st.retracted + |st.held|, held := [], events := st.events + [Retract(reason)])
  }

  function Begin(st: Stream, offersTools: bool): Stream {
    if st.revoked then st
    else st.(assembler := Some(START), roundHeld := offersTools, producedText := false)
  }

  function RevokeAs(st: Stream, reason: Reason, retract: Reason): Stream {
    if st.revoked then st
    else RetractHeld(
      st.(revoked := true, assembler := None, fallback := FallbackOr(st.fallback, reason)), retract)
  }

  function CutShort(st: Stream, reason: Option<Reason>, retract: Reason): Stream {
    RetractHeld(
      st.(truncated := true, revoked := true, assembler := None,
          fallback := if reason.Some? then FallbackOr(st.fallback, reason.value) else st.fallback), retract)
  }

  /** Whether one more segment keeps the running reply within the channel's limit. */
  predicate Fits(g: Guard, prior: Str, text: Str) {
    (if prior != [] then |prior| + 1 + |text| else |text|) <= g.maxReplyChars
  }

  function Accept(g: Guard, permitted: set<ClaimKind>, st: Stream, candidate: Str): Stream {
    if st.revoked || st.capped then st
    else
      var prior := Join(st.released + st.held);
      var text := Spoken(g, candidate);
      if !SegmentOk(g, prior, candidate, permitted) then
        if st.released != [] then CutShort(st, Some(SegmentRejected), SegmentRejected)
        else RevokeAs(st, SegmentRejected, SegmentRejected)
      else if !Fits(g, prior, text) then st.(capped := true)
      else
        var said := st.(emitted := st.emitted + 1,
                        events := st.events + [Segment(st.emitted, text, st.roundHeld)]);
        if st.roundHeld then said.(held := st.held + [text]) else said.(released := st.released + [text])
  }

  function AcceptAll(g: Guard, permitted: set<ClaimKind>, st: Stream, candidates: seq<Str>): Stream {
    if candidates == [] then st
    else Accept(g, permitted, AcceptAll(g, permitted, st, candidates[..|candidates| - 1]), candidates[|candidates| - 1])
  }

  function Delta(g: Guard, permitted: set<ClaimKind>, st: Stream, text: Str): Stream {
    if st.revoked || st.assembler.None? then st
    else
      var fed := Feed(g.listed, g.minSegmentChars, st.assembler.value, text);
      AcceptAll(g, permitted,
        st.(producedText := st.producedText || text != [], assembler := Some(fed.state)), fed.out)
  }

  function End(g: Guard, permitted: set<ClaimKind>, st: Stream, toolCalls: nat): Stream {
    if st.revoked || st.assembler.None? then st
    else if toolCalls > 0 && st.roundHeld then
      RetractHeld(
        st.(assembler := None, toolRetractions := st.toolRetractions + if st.held != [] then 1 else 0), ToolCall)
    else
      AcceptAll(g, permitted, st.(assembler := Some(START)), Flush(st.assembler.value)).(assembler := None)
  }

  function Fail(st: Stream): Stream { RetractHeld(st.(assembler := None), StreamFailed) }

  predicate CanCommit(st: Stream) { !st.revoked && st.held != [] }

  function Commit(st: Stream): Stream {
    if CanCommit(st) then st.(released := st.released + st.held, held := [], events := st.events + [Release])
    else st
  }

  /** Why streaming was given up is said once, and names the reason that came first. */
  lemma FirstReasonStays(g: Guard, st: Stream, op: Op)
    ensures st.fallback.Some? ==> Apply(g, st, op).fallback == st.fallback
    ensures st.fallback.None? && op.Revoke? && !st.revoked ==> Apply(g, st, op).fallback == Some(op.reason)
    ensures st.fallback.None? && op.Truncate? ==> Apply(g, st, op).fallback == op.why
  {
    hide Feed;
    hide Flush;
    match op
    case OnDelta(permitted, text) =>
      if !st.revoked && st.assembler.Some? {
        var fed := Feed(g.listed, g.minSegmentChars, st.assembler.value, text);
        ReasonStaysAll(g, permitted, st.(producedText := st.producedText || text != [], assembler := Some(fed.state)),
                       fed.out);
      }
    case EndRound(permitted, toolCalls) =>
      if !st.revoked && st.assembler.Some? {
        ReasonStaysAll(g, permitted, st.(assembler := Some(START)), Flush(st.assembler.value));
      }
    case _ =>
  }

  lemma {:induction false} ReasonStaysAll(g: Guard, permitted: set<ClaimKind>, st: Stream, candidates: seq<Str>)
    ensures st.fallback.Some? ==> AcceptAll(g, permitted, st, candidates).fallback == st.fallback
  {
    hide Spoken;
    hide SegmentOk;
    hide Join;
    hide Fits;
    if candidates != [] { ReasonStaysAll(g, permitted, st, candidates[..|candidates| - 1]); }
  }

  // ---- what a listener knows ----------------------------------------------

  datatype Listener = Listener(heard: seq<Str>, prepared: seq<Str>, next: nat)

  /** A channel that follows the events and nothing else. */
  ghost function Replay(events: seq<Event>): Listener {
    if events == [] then Listener([], [], 0)
    else
      var l := Replay(events[..|events| - 1]);
      match events[|events| - 1]
      case Segment(_, text, true) => l.(prepared := l.prepared + [text], next := l.next + 1)
      case Segment(_, text, false) => l.(heard := l.heard + [text], next := l.next + 1)
      case Release => l.(heard := l.heard + l.prepared, prepared := [])
      case Retract(_) => l.(prepared := [])
  }

  lemma ReplayOneMore(events: seq<Event>, e: Event)
    ensures Replay(events + [e]) ==
      var l := Replay(events);
      match e
      case Segment(_, text, true) => l.(prepared := l.prepared + [text], next := l.next + 1)
      case Segment(_, text, false) => l.(heard := l.heard + [text], next := l.next + 1)
      case Release => l.(heard := l.heard + l.prepared, prepared := [])
      case Retract(_) => l.(prepared := [])
  {
    assert (events + [e])[..|events|] == events;
  }

  /** Segment events are numbered 0, 1, 2, ... in emission order. */
  ghost predicate Numbered(events: seq<Event>) {
    forall k :: 0 <= k < |events| && events[k].Segment? ==> events[k].index == Replay(events[..k]).next
  }

  /** The listener and the stream agree, and no segment is unaccounted for. */
  ghost predicate Consistent(st: Stream) {
    && Replay(st.events) == Listener(st.released, st.held, st.emitted)
    && Numbered(st.events)
    && st.emitted == |st.released| + |st.held| + st.retracted
    && (st.revoked ==> st.held == [] && st.assembler.None?)
  }

  /** `after` extends `before`: nothing heard or emitted is ever taken back. */
  ghost predicate Grows(before: Stream, after: Stream) {
    before.released <= after.released && before.events <= after.events
  }

  lemma EmitKeepsConsistent(st: Stream, e: Event)
    requires Replay(st.events) == Listener(st.released, st.held, st.emitted) && Numbered(st.events)
    requires e.Segment? ==> e.index == st.emitted
    ensures Numbered(st.events + [e])
    ensures Replay(st.events + [e]) ==
      match e
      case Segment(_, text, true) => Listener(st.released, st.held + [text], st.emitted + 1)
      case Segment(_, text, false) => Listener(st.released + [text], st.held, st.emitted + 1)
      case Release => Listener(st.released + st.held, [], st.emitted)
      case Retract(_) => Listener(st.released, [], st.emitted)
  {
    ReplayOneMore(st.events, e);
    var events := st.events + [e];
    forall k | 0 <= k < |events| && events[k].Segment? ensures events[k].index == Replay(events[..k]).next {
      if k < |st.events| {
        assert events[..k] == st.events[..k];
      } else {
        assert events[..k] == st.events;
      }
    }
  }

  lemma RetractConsistent(st: Stream, reason: Reason)
    requires Consistent(st.(revoked := false))
    ensures Consistent(RetractHeld(st, reason).(assembler := None))
    ensures Consistent(RetractHeld(st, reason).(revoked := false))
    ensures Grows(st, RetractHeld(st, reason))
  {
    EmitKeepsConsistent(st, Retract(reason));
  }

  lemma CutShortConsistent(st: Stream, why: Option<Reason>, retract: Reason)
    requires Consistent(st)
    ensures Consistent(CutShort(st, why, retract)) && Grows(st, CutShort(st, why, retract))
  {
    hide Numbered;
    hide Replay;
    RetractConsistent(
      st.(truncated := true, revoked := true, assembler := None,
          fallback := if why.Some? then FallbackOr(st.fallback, why.value) else st.fallback), retract);
  }

  lemma RevokeConsistent(st: Stream, reason: Reason, retract: Reason)
    requires Consistent(st)
    ensures Consistent(RevokeAs(st, reason, retract)) && Grows(st, RevokeAs(st, reason, retract))
  {
    hide Numbered;
    hide Replay;
    RetractConsistent(st.(revoked := true, assembler := None, fallback := FallbackOr(st.fallback, reason)), retract);
  }

  lemma FailConsistent(st: Stream)
    requires Consistent(st)
    ensures Consistent(Fail(st)) && Grows(st, Fail(st))
  {
    hide Numbered;
    hide Replay;
    RetractConsistent(st.(assembler := None), StreamFailed);
  }

  lemma SaidConsistent(st: Stream, text: Str)
    requires Consistent(st) && !st.revoked
    ensures var said := st.(emitted := st.emitted + 1, events := st.events + [Segment(st.emitted, text, st.roundHeld)]);
      var after := if st.roundHeld then said.(held := st.held + [text]) else said.(released := st.released + [text]);
      Consistent(after) && Grows(st, after)
  {
    hide Numbered;
    hide Replay;
    EmitKeepsConsistent(st, Segment(st.emitted, text, st.roundHeld));
  }

  lemma AcceptConsistent(g: Guard, permitted: set<ClaimKind>, st: Stream, candidate: Str)
    requires Consistent(st)
    ensures var after := Accept(g, permitted, st, candidate);
      Consistent(after) && Grows(st, after)
  {
    hide Spoken;
    hide SegmentOk;
    hide Join;
    hide Fits;
    hide Numbered;
    hide Replay;
    hide CutShort;
    hide RevokeAs;
    CutShortConsistent(st, Some(SegmentRejected), SegmentRejected);
    RevokeConsistent(st, SegmentRejected, SegmentRejected);
    if !st.revoked { SaidConsistent(st, Spoken(g, candidate)); }
  }

  lemma {:induction false} AcceptAllConsistent(g: Guard, permitted: set<ClaimKind>, st: Stream, candidates: seq<Str>)
    requires Consistent(st)
    ensures var after := AcceptAll(g, permitted, st, candidates);
      Consistent(after) && Grows(st, after)
  {
    hide Accept;
    if candidates != [] {
      var before := candidates[..|candidates| - 1];
      AcceptAllConsistent(g, permitted, st, before);
      AcceptConsistent(g, permitted, AcceptAll(g, permitted, st, before), candidates[|candidates| - 1]);
    }
  }

  datatype Op =
    | BeginRound(offersTools: bool)
    | OnDelta(permitted: set<ClaimKind>, text: Str)
    | EndRound(permitted: set<ClaimKind>, toolCalls: nat)
    | FailRound
    | DoCommit
    | Revoke(reason: Reason, retract: Reason)
    | Truncate(why: Option<Reason>)

  /** One call on the stream. */
  function Apply(g: Guard, st: Stream, op: Op): Stream {
    match op
    case BeginRound(offersTools) => Begin(st, offersTools)
    case OnDelta(permitted, text) => Delta(g, permitted, st, text)
    case EndRound(permitted, toolCalls) => End(g, permitted, st, toolCalls)
    case FailRound => Fail(st)
    case DoCommit => Commit(st)
    case Revoke(reason, retract) => RevokeAs(st, reason, retract)
    case Truncate(why) => CutShort(st, why, StreamFailed)
  }

  lemma DeltaConsistent(g: Guard, permitted: set<ClaimKind>, st: Stream, text: Str)
    requires Consistent(st)
    ensures Consistent(Delta(g, permitted, st, text)) && Grows(st, Delta(g, permitted, st, text))
  {
    hide Feed;
    hide AcceptAll;
    hide Numbered;
    hide Replay;
    if !st.revoked && st.assembler.Some? {
      var fed := Feed(g.listed, g.minSegmentChars, st.assembler.value, text);
      AcceptAllConsistent(g, permitted,
        st.(producedText := st.producedText || text != [], assembler := Some(fed.state)), fed.out);
    }
  }

  lemma EndConsistent(g: Guard, permitted: set<ClaimKind>, st: Stream, toolCalls: nat)
    requires Consistent(st)
    ensures Consistent(End(g, permitted, st, toolCalls)) && Grows(st, End(g, permitted, st, toolCalls))
  {
    hide Flush;
    hide AcceptAll;
    hide Numbered;
    hide Replay;
    if !st.revoked && st.assembler.Some? {
      if toolCalls > 0 && st.roundHeld {
        RetractConsistent(
          st.(assembler := None, toolRetractions := st.toolRetractions + if st.held != [] then 1 else 0), ToolCall);
      } else {
        AcceptAllConsistent(g, permitted, st.(assembler := Some(START)), Flush(st.assembler.value));
      }
    }
  }

  /** After every call, by any client, in any order: a listener replaying the
      events holds exactly the heard and prepared segments, every emitted
      segment is released, held or retracted, and heard text only grows. */
  lemma EveryCallConsistent(g: Guard, st: Stream, op: Op)
    requires Consistent(st)
    ensures Consistent(Apply(g, st, op)) && Grows(st, Apply(g, st, op))
  {
    hide Delta;
    hide End;
    hide CutShort;
    hide RevokeAs;
    hide Numbered;
    hide Replay;
    hide RetractHeld;
    match op
    case BeginRound(_) =>
    case OnDelta(permitted, text) => DeltaConsistent(g, permitted, st, text);
    case EndRound(permitted, toolCalls) => EndConsistent(g, permitted, st, toolCalls);
    case FailRound => FailConsistent(st);
    case DoCommit => EmitKeepsConsistent(st, Release);
    case Revoke(reason, retract) => RevokeConsistent(st, reason, retract);
    case Truncate(why) => CutShortConsistent(st, why, StreamFailed);
  }

  function RunOps(g: Guard, ops: seq<Op>): Stream {
    if ops == [] then FRESH else Apply(g, RunOps(g, ops[..|ops| - 1]), ops[|ops| - 1])
  }

  lemma {:induction false} EveryRunConsistent(g: Guard, ops: seq<Op>)
    ensures Consistent(RunOps(g, ops))
  {
    if ops != [] {
      EveryRunConsistent(g, ops[..|ops| - 1]);
      EveryCallConsistent(g, RunOps(g, ops[..|ops| - 1]), ops[|ops| - 1]);
    }
  }

  // ---- the class -------------------------------------------------------------

  class SafeSpeechStream {
    const guard: Guard
    var assembler: SentenceAssembler?
    var roundHeld: bool
    var roundProducedText: bool
    var heldSegments: seq<Str>
    var releasedSegments: seq<Str>
    var revoked: bool
    var capped: bool
    var emitted: nat
    var retracted: nat
    var toolRetractions: nat
    var truncatedFlag: bool
    var fallback: Option<Reason>
    /** What the sink has received. */
    var events: seq<Event>

    ghost predicate Valid()
      reads this, assembler
    {
      assembler != null ==>
        assembler.listed == guard.listed && assembler.minSegmentChars == guard.minSegmentChars
    }

    function Value(): Stream
      reads this, assembler
    {
      Stream(if assembler == null then None else Some(assembler.Value()),
             roundHeld, roundProducedText, heldSegments, releasedSegments, revoked, capped,
             emitted, retracted, toolRetractions, truncatedFlag, fallback, events)
    }

    constructor (guard: Guard)
      ensures this.guard == guard && Valid() && Value() == FRESH && assembler == null
    {
      this.guard := guard;
      assembler, roundHeld, roundProducedText := null, false, false;
      heldSegments, releasedSegments, events := [], [], [];
      revoked, capped, truncatedFlag := false, false, false;
      emitted, retracted, toolRetractions, fallback := 0, 0, 0, None;
    }

    method BeginRound(offersTools: bool)
      requires Valid()
      modifies this
      ensures Valid() && Value() == Begin(old(Value()), offersTools)
      ensures assembler == old(assembler) || fresh(assembler)
    {
      if revoked { return; }
      assembler := new SentenceAssembler(guard.listed, guard.minSegmentChars);
      roundHeld := offersTools;
      roundProducedText := false;
    }

    method OnDelta(text: Str, permitted: set<ClaimKind>)
      requires Valid()
      modifies this, assembler
      ensures Valid() && Value() == Delta(guard, permitted, old(Value()), text)
      ensures assembler == old(assembler) || assembler == null
    {
      if revoked || assembler == null { return; }
      if text != [] { roundProducedText := true; }
      var segments := assembler.Push(text);
      AcceptEach(segments, permitted);
    }

    method EndRound(toolCalls: nat, permitted: set<ClaimKind>)
      requires Valid()
      modifies this, assembler
      ensures Valid() && Value() == End(guard, permitted, old(Value()), toolCalls)
      ensures assembler == old(assembler) || assembler == null
    {
      if revoked || assembler == null { return; }
      if toolCalls > 0 && roundHeld {
        assembler := null;
        if heldSegments != [] { toolRetractions := toolRetractions + 1; }
        RetractSegments(ToolCall);
        return;
      }
      var segments := assembler.FlushRest();
      AcceptEach(segments, permitted);
      assembler := null;
    }

    method FailRound()
      requires Valid()
      modifies this
      ensures Valid() && Value() == Fail(old(Value())) && assembler == null
    {
      assembler := null;
      RetractSegments(StreamFailed);
    }

    method DoCommit() returns (ok: bool)
      requires Valid()
      modifies this
      ensures Valid() && Value() == Commit(old(Value())) && ok == CanCommit(old(Value()))
      ensures assembler == old(assembler)
    {
      if revoked || heldSegments == [] { return false; }
      releasedSegments := releasedSegments + heldSegments;
      heldSegments := [];
      events := events + [Release];
      ok := true;
    }

    method DoRevoke(reason: Reason, retractReason: Reason)
      modifies `revoked, `assembler, `fallback, `retracted, `heldSegments, `events
      ensures Value() == RevokeAs(old(Value()), reason, retractReason)
      ensures assembler == if old(revoked) then old(assembler) else null
    {
      if revoked { return; }
      StopStreaming(reason);
      RetractSegments(retractReason);
    }

    method StopStreaming(reason: Reason)
      modifies `revoked, `assembler, `fallback
      ensures Value() == old(Value()).(
        revoked := true, assembler := None, fallback := FallbackOr(old(Value()).fallback, reason))
      ensures assembler == null
    {
      revoked := true;
      assembler := null;
      if fallback.None? { fallback := Some(reason); }
    }

    method DoTruncate(reason: Option<Reason>)
      requires Valid()
      modifies this
      ensures Valid() && Value() == CutShort(old(Value()), reason, StreamFailed) && assembler == null
    {
      truncatedFlag := true;
      if reason.Some? && fallback.None? { fallback := reason; }
      revoked := true;
      assembler := null;
      RetractSegments(StreamFailed);
    }

    method AcceptEach(candidates: seq<Str>, permitted: set<ClaimKind>)
      requires Valid()
      modifies this
      ensures Valid() && Value() == AcceptAll(guard, permitted, old(Value()), candidates)
      ensures assembler == old(assembler) || assembler == null
    {
      for i := 0 to |candidates|
        invariant Valid() && Value() == AcceptAll(guard, permitted, old(Value()), candidates[..i])
        invariant assembler == old(assembler) || assembler == null
      {
        assert candidates[..i + 1][..i] == candidates[..i];
        AcceptOne(candidates[i], permitted);
      }
      assert candidates[..|candidates|] == candidates;
    }

    method AcceptOne(candidate: Str, permitted: set<ClaimKind>)
      requires Valid()
      modifies this
      ensures Valid() && Value() == Accept(guard, permitted, old(Value()), candidate)
      ensures assembler == old(assembler) || assembler == null
    {
      hide SegmentOk;
      hide Spoken;
      hide Join;
      if revoked || capped { return; }
      var prior := Join(releasedSegments + heldSegments);
      var text := Spoken(guard, candidate);
      if !SegmentOk(guard, prior, candidate, permitted) {
        if releasedSegments != [] {
          // What came before stays as it is; this segment is dropped.
          truncatedFlag := true;
          StopStreaming(SegmentRejected);
          RetractSegments(SegmentRejected);
        } else {
          DoRevoke(SegmentRejected, RetractReason(SegmentRejected));
        }
        return;
      }
      var length := if prior != [] then |prior| + 1 + |text| else |text|;
      if length > guard.maxReplyChars {
        capped := true;
        return;
      }
      emitted := emitted + 1;
      events := events + [Segment(emitted - 1, text, roundHeld)];
      if roundHeld {
        heldSegments := heldSegments + [text];
      } else {
        releasedSegments := releasedSegments + [text];
      }
    }

    method RetractSegments(reason: Reason)
      modifies `retracted, `heldSegments, `events
      ensures Value() == RetractHeld(old(Value()), reason)
    {
      if heldSegments == [] { return; }
      retracted := retracted + |heldSegments|;
      heldSegments := [];
      events := events + [Retract(reason)];
    }
  }
}
