/** One turn of the agent runtime: the bounded model and tool loop, the stream
    failure ladder, settlement of the streamed reply, and what is persisted. */
module AgentTurn {
  import opened Common
  import opened Text
  import opened Assembler
  import opened Speech
  import opened SpeechSafety

  datatype Completion = Completed(content: Str, toolCalls: nat) | Failed(cancelled: bool)

  /** One model call: the text deltas it streamed, and how it ended. */
  datatype ModelCall = ModelCall(deltas: seq<Str>, completion: Completion)

  datatype ToolOutcome = RejectedIntent | Executed(action: Action)

  /** Everything the runtime does not decide: when the caller aborts, what the models
      answer and what the tools do; whether the turn may start (its budget is not used
      up, the history loads), the context fits the input budget, and the transcript
      can be appended to. */
  datatype Env = Env(
    aborted: nat -> bool,
    model: nat -> ModelCall,
    tool: (nat, nat) -> ToolOutcome,
    repair: Completion,
    starts: bool,
    fits: bool,
    stores: bool)

  datatype Input = Input(
    guard: Guard,
    speechRequested: bool,
    providerStreams: bool,
    pendingConfirmation: bool,
    hasTools: bool,
    maxToolRounds: nat,
    maxIntentsPerRound: nat,
    maxRegenerations: nat,
    systemActions: seq<Action>,
    userMessage: Str,
    providerFallback: Str,
    /** The line for a reply that cannot be used; told whether it made an unsupported claim. */
    safeFallback: bool -> Str,
    transform: Str -> Str)

  datatype Stage = Early | ModelRound | Validation | RepairCall | Persistence

  /** `Refused` and `Lost` are errors: before the first model call, and when the finished
      turn could not be stored. */
  datatype Outcome = CancelledTurn(stage: Stage) | Refused | Delivered(reply: Str) | Lost(reply: Str)

  predicate Replied(outcome: Outcome) { outcome.Delivered? || outcome.Lost? }

  datatype Row = UserRow(text: Str) | AssistantRow(text: Str)

  datatype Report = Report(
    outcome: Outcome,
    speech: Option<Stream>,
    actions: seq<Action>,
    persisted: seq<Row>,
    /** Checkpoints passed before the validation one. */
    checks: nat,
    invoked: nat,
    completed: nat,
    toolRounds: nat,
    reruns: nat,
    repairs: nat,
    invariantViolated: bool)

  predicate Committed(actions: seq<Action>) {
    exists k :: 0 <= k < |actions| && actions[k].succeeded
  }

  // ---- what holds of the stream around a round --------------------------------

  ghost predicate Sound(g: Guard, st: Stream) { Consistent(st) && WithinLimit(g, st) }

  /** Clean under the actions verified so far, if stripping spoils no segment of `call`. */
  ghost predicate CleanIfKept(g: Guard, st: Stream, call: ModelCall, actions: seq<Action>) {
    SafeIfKept(g, st, Candidates(g, call.deltas, true), PermittedClaims(actions))
  }

  /** Between rounds: nothing held, nothing heard, no assembler. */
  ghost predicate Idle(st: Stream) {
    st.released == [] && st.held == [] && st.assembler.None?
  }

  /** What was heard or is held comes, gap-free, from the one call `call`, which
      either was offered no tools or called none. */
  ghost predicate FromCall(g: Guard, st: Stream, call: ModelCall, offered: bool) {
    && (st.released + st.held) <= SpokenAll(g, Candidates(g, call.deltas, true))
    && (offered && call.completion.Completed? ==> call.completion.toolCalls == 0)
  }

  /** After the loop: heard text is final, held text waits on settlement. */
  ghost predicate AfterLoop(g: Guard, st: Stream, call: ModelCall, offered: bool, providerFailed: bool) {
    && st.assembler.None?
    && (st.released == [] || st.held == [])
    && (providerFailed ==> st.released == [] && st.held == [])
    && (st.held != [] ==> offered && call.completion.Completed? && call.completion.toolCalls == 0)
    && (offered ==> st.released == [])
    && (st.released != [] || st.held != [] ==> FromCall(g, st, call, offered))
    && (!Stopped(st) ==> st.released + st.held == SpokenAll(g, Candidates(g, call.deltas, true)))
  }

  lemma RevokedAfterLoop(g: Guard, st: Stream, call: ModelCall, offered: bool)
    requires Idle(st) && st.revoked
    ensures AfterLoop(g, st, call, offered, false) && AfterLoop(g, st, call, offered, true)
  {
    hide SpokenAll;
    hide Candidates;
  }

  lemma IdleIsSound(g: Guard, st: Stream)
    requires Consistent(st) && Idle(st)
    ensures Sound(g, st)
  {
    assert st.released + st.held == [];
  }

  lemma NothingSaidIsClean(g: Guard, st: Stream, call: ModelCall, actions: seq<Action>)
    requires st.released == [] && st.held == []
    ensures CleanIfKept(g, st, call, actions)
  {
    assert st.released + st.held == [];
  }

  lemma IdleIsClean(g: Guard, st: Stream, call: ModelCall, actions: seq<Action>)
    requires Idle(st)
    ensures CleanIfKept(g, st, call, actions)
  {
    NothingSaidIsClean(g, st, call, actions);
  }

  lemma SoundStep(g: Guard, st: Stream, op: Op)
    requires Sound(g, st)
    ensures Sound(g, Apply(g, st, op))
  {
    hide WithinLimit;
    hide Consistent;
    hide Apply;
    EveryCallConsistent(g, st, op);
    EveryCallWithinLimit(g, st, op);
  }

  /** Stopping, retracting and committing leave clean text clean. */
  lemma CleanAfterStop(g: Guard, st: Stream, after: Stream, call: ModelCall, actions: seq<Action>)
    requires CleanIfKept(g, st, call, actions)
    requires after.released == st.released && (after.held == st.held || after.held == [])
    ensures CleanIfKept(g, after, call, actions)
  {
    hide CallKeeps;
    hide Safe;
    hide Candidates;
    var permitted := PermittedClaims(actions);
    if CallKeeps(g, Candidates(g, call.deltas, true), permitted) { StopSafe(g, st, after, permitted); }
  }

  lemma PrefixOfFlushed(g: Guard, deltas: seq<Str>)
    ensures SpokenAll(g, Candidates(g, deltas, false)) <= SpokenAll(g, Candidates(g, deltas, true))
  {
    hide FeedAll;
    hide Flush;
    hide Spoken;
    var fed := FeedAll(g.listed, g.minSegmentChars, START, deltas);
    assert fed.out + Flush(fed.state) == Candidates(g, deltas, true);
  }

  // ---- the steps of a round ----------------------------------------------------

  lemma InRoundFacts(g: Guard, st: Stream, deltas: seq<Str>)
    requires InRound(g, st, deltas)
    ensures Disciplined(st) && (st.roundHeld ==> st.released == []) && (!st.roundHeld ==> st.held == [])
    ensures st.assembler.None? ==> st.revoked
    ensures (st.released + st.held) <= SpokenAll(g, Candidates(g, deltas, true))
  {
    hide FeedAll;
    hide Flush;
    hide SpokenAll;
    PrefixOfFlushed(g, deltas);
  }

  lemma AnsweredRound(g: Guard, permitted: set<ClaimKind>, st: Stream, model: ModelCall, offered: bool)
    requires InRound(g, st, model.deltas) && st.roundHeld == offered
    requires model.completion.Completed? && (model.completion.toolCalls == 0 || !offered)
    ensures AfterLoop(g, End(g, permitted, st, 0), model, offered, false)
  {
    hide FeedAll;
    hide Flush;
    hide SpokenAll;
    hide AcceptAll;
    hide Candidates;
    RoundEnds(g, permitted, st, model.deltas);
  }

  /** Text of a tool-offering round that called a tool is retracted unheard. */
  lemma ToolRoundIsUnheard(g: Guard, permitted: set<ClaimKind>, st: Stream, deltas: seq<Str>, toolCalls: nat)
    requires InRound(g, st, deltas) && Consistent(st) && st.roundHeld && toolCalls > 0
    ensures Idle(End(g, permitted, st, toolCalls))
  {
    hide FeedAll;
    hide SpokenAll;
  }

  /** A stream after a list of deltas. */
  function Played(g: Guard, permitted: set<ClaimKind>, st: Stream, deltas: seq<Str>): Stream {
    if deltas == [] then st
    else Delta(g, permitted, Played(g, permitted, st, deltas[..|deltas| - 1]), deltas[|deltas| - 1])
  }

  /** The deltas of a live round reach the stream one by one. */
  method PlayDeltas(speech: SafeSpeechStream, model: ModelCall, ghost actions: seq<Action>, permitted: set<ClaimKind>)
    requires speech.Valid() && permitted == PermittedClaims(actions)
    requires var st := speech.Value();
      InRound(speech.guard, st, []) && Sound(speech.guard, st) && CleanIfKept(speech.guard, st, model, actions)
    modifies speech, speech.assembler
    ensures speech.Valid() && speech.Value() == Played(speech.guard, permitted, old(speech.Value()), model.deltas)
    ensures var st := speech.Value();
      InRound(speech.guard, st, model.deltas) && Sound(speech.guard, st)
        && CleanIfKept(speech.guard, st, model, actions)
      && st.roundHeld == old(speech.Value()).roundHeld
    ensures speech.assembler == old(speech.assembler) || speech.assembler == null
  {
    hide InRound;
    hide Sound;
    hide SafeIfKept;
    hide Delta;
    hide Candidates;
    var g, deltas := speech.guard, model.deltas;
    for i := 0 to |deltas|
      invariant speech.Valid() && speech.Value() == Played(g, permitted, old(speech.Value()), deltas[..i])
      invariant var st := speech.Value();
        InRound(g, st, deltas[..i]) && Sound(g, st) && CleanIfKept(g, st, model, actions)
        && st.roundHeld == old(speech.Value()).roundHeld
      invariant speech.assembler == old(speech.assembler) || speech.assembler == null
    {
      assert deltas[..i + 1] == deltas[..i] + [deltas[i]] && deltas[..i + 1][..i] == deltas[..i];
      SoundStep(g, speech.Value(), Op.OnDelta(permitted, deltas[i]));
      RoundGoesOn(g, permitted, speech.Value(), deltas[..i], deltas[i]);
      DeltaStaysSafe(g, permitted, speech.Value(), deltas, i);
      speech.OnDelta(deltas[i], permitted);
    }
    assert deltas[..|deltas|] == deltas;
  }

  /** The actions of the first `n` calls of a round, in order; rejected ones leave none. */
  ghost function RanIn(env: Env, round: nat, n: nat): seq<Action> {
    if n == 0 then []
    else
      match env.tool(round, n - 1)
      case RejectedIntent => RanIn(env, round, n - 1)
      case Executed(action) => RanIn(env, round, n - 1) + [action]
  }

  /** The actions of whole tool rounds with so many accepted calls each. */
  ghost function RanRounds(env: Env, accepted: seq<nat>): seq<Action> {
    if accepted == [] then []
    else RanRounds(env, accepted[..|accepted| - 1]) + RanIn(env, |accepted| - 1, accepted[|accepted| - 1])
  }

  /** The accepted calls of one round: every executed one is recorded, in order. */
  method RunTools(env: Env, round: nat, accepted: nat, before: seq<Action>) returns (actions: seq<Action>)
    ensures actions == before + RanIn(env, round, accepted)
  {
    actions := before;
    for i := 0 to accepted
      invariant actions == before + RanIn(env, round, i)
    {
      match env.tool(round, i)
      case RejectedIntent =>
      case Executed(action) => actions := actions + [action];
    }
  }

  datatype LiveEnd = Answered | CalledTools | HeardPart | NothingHeard

  /** The stream once a call has said all it says. */
  function Heard(g: Guard, permitted: set<ClaimKind>, st: Stream, offered: bool, model: ModelCall): Stream {
    Played(g, permitted, Begin(st, offered), model.deltas)
  }

  /** And after a call that answered. */
  function AnsweredStream(g: Guard, permitted: set<ClaimKind>, st: Stream, offered: bool, model: ModelCall): Stream {
    End(g, permitted, Heard(g, permitted, st, offered, model), 0)
  }

  /** And after a call that asked for tools. */
  function ToolsStream(g: Guard, permitted: set<ClaimKind>, st: Stream, model: ModelCall): Stream {
    match model.completion
    case Completed(_, toolCalls) => End(g, permitted, Heard(g, permitted, st, true, model), toolCalls)
    case Failed(_) => st
  }

  predicate AnswersIn(model: ModelCall, offered: bool) {
    model.completion.Completed? && (model.completion.toolCalls == 0 || !offered)
  }

  /** The failure ladder: what is held is retracted, and the turn either keeps what was
      heard or gives up streaming. */
  method FailedRound(speech: SafeSpeechStream, ghost offersTools: bool, ghost model: ModelCall,
                     ghost actions: seq<Action>, cancelled: bool)
    returns (end: LiveEnd)
    requires speech.Valid() && model.completion.Failed? && Sound(speech.guard, speech.Value())
    requires InRound(speech.guard, speech.Value(), model.deltas) && speech.roundHeld == offersTools
    requires CleanIfKept(speech.guard, speech.Value(), model, actions)
    modifies speech
    ensures speech.Valid() && speech.assembler == null && Sound(speech.guard, speech.Value())
    ensures CleanIfKept(speech.guard, speech.Value(), model, actions)
    ensures end == if old(speech.releasedSegments) != [] then HeardPart else NothingHeard
    ensures speech.releasedSegments == old(speech.releasedSegments)
    ensures end.HeardPart? ==> AfterLoop(speech.guard, speech.Value(), model, offersTools, false) && !offersTools
    ensures end.NothingHeard? ==> Idle(speech.Value()) && speech.revoked
  {
    hide InRound;
    hide WithinLimit;
    hide SafeIfKept;
    hide Consistent;
    hide SpokenAll;
    hide Candidates;
    var g := speech.guard;
    ghost var played := speech.Value();
    InRoundFacts(g, played, model.deltas);
    SoundStep(g, played, FailRound);
    speech.FailRound();
    CleanAfterStop(g, played, speech.Value(), model, actions);
    if speech.releasedSegments != [] {
      end := HeardPart;
      SoundStep(g, speech.Value(), Op.Truncate(if cancelled then None else Some(StreamFailed)));
      speech.DoTruncate(if cancelled then None else Some(StreamFailed));
    } else {
      end := NothingHeard;
      var reason := if speech.roundProducedText || cancelled then StreamFailed else ProviderFailed;
      SoundStep(g, speech.Value(), Op.Revoke(reason, if cancelled then Reason.Cancelled else StreamFailed));
      speech.DoRevoke(reason, if cancelled then Reason.Cancelled else StreamFailed);
    }
    CleanAfterStop(g, played, speech.Value(), model, actions);
  }

  /** One model call whose deltas are streamed: from `beginRound` to the round's
      end, or to the failure ladder when the call failed. */
  method LiveRound(speech: SafeSpeechStream, offersTools: bool, model: ModelCall,
                   ghost actions: seq<Action>, permitted: set<ClaimKind>)
    returns (end: LiveEnd, producedText: bool)
    requires speech.Valid() && permitted == PermittedClaims(actions)
    requires Consistent(speech.Value()) && Idle(speech.Value()) && !speech.revoked && speech.assembler == null
    modifies speech
    ensures speech.Valid() && speech.assembler == null && Sound(speech.guard, speech.Value())
    ensures CleanIfKept(speech.guard, speech.Value(), model, actions)
    ensures end.Answered? <==> AnswersIn(model, offersTools)
    ensures end.Answered? ==>
      speech.Value() == AnsweredStream(speech.guard, permitted, old(speech.Value()), offersTools, model)
    ensures end.CalledTools? ==> offersTools && model.completion.Completed? && model.completion.toolCalls > 0
    ensures end.CalledTools? ==> speech.Value() == ToolsStream(speech.guard, permitted, old(speech.Value()), model)
    ensures model.completion.Failed? ==>
      var heard := Heard(speech.guard, permitted, old(speech.Value()), offersTools, model);
      producedText == heard.producedText && end == if heard.released != [] then HeardPart else NothingHeard
    ensures end.HeardPart? || end.NothingHeard? ==> model.completion.Failed?
    ensures end.Answered? || end.HeardPart? ==> AfterLoop(speech.guard, speech.Value(), model, offersTools, false)
    ensures end.CalledTools? || end.NothingHeard? ==> Idle(speech.Value())
    ensures end.NothingHeard? ==> speech.revoked
    ensures end.HeardPart? ==> speech.releasedSegments != [] && !offersTools
  {
    hide InRound;
    hide WithinLimit;
    hide SafeIfKept;
    hide Consistent;
    hide End;
    hide Played;
    hide SpokenAll;
    hide Candidates;
    var g := speech.guard;
    producedText := false;
    IdleIsSound(g, speech.Value());
    SoundStep(g, speech.Value(), Op.BeginRound(offersTools));
    RoundStarts(g, speech.Value(), offersTools);
    speech.BeginRound(offersTools);
    assert speech.Value().released == [] && speech.Value().held == [];
    NothingSaidIsClean(g, speech.Value(), model, actions);
    PlayDeltas(speech, model, actions, permitted);
    ghost var played := speech.Value();
    InRoundFacts(g, played, model.deltas);
    match model.completion
    case Completed(_, toolCalls) =>
      if toolCalls == 0 || !offersTools {
        end := Answered;
        SoundStep(g, played, Op.EndRound(permitted, 0));
        EndStaysSafe(g, permitted, played, model.deltas);
        AnsweredRound(g, permitted, played, model, offersTools);
        speech.EndRound(0, permitted);
      } else {
        end := CalledTools;
        SoundStep(g, played, Op.EndRound(permitted, toolCalls));
        ToolRoundIsUnheard(g, permitted, played, model.deltas, toolCalls);
        speech.EndRound(toolCalls, permitted);
        IdleIsClean(g, speech.Value(), model, actions);
      }
    case Failed(cancelled) =>
      producedText := speech.roundProducedText;
      end := FailedRound(speech, offersTools, model, actions, cancelled);
  }

  /** Settlement of the stream: the streamed reply, if any, is the released text
      joined, and nothing stays held. */
  method Settle(speech: SafeSpeechStream, providerFailed: bool, replyDraft: Str,
                ghost call: ModelCall, ghost offered: bool, ghost actions: seq<Action>, permitted: set<ClaimKind>)
    returns (streamed: Option<Str>, invariantViolated: bool)
    requires speech.Valid() && permitted == PermittedClaims(actions)
    requires var st := speech.Value();
      AfterLoop(speech.guard, st, call, offered, providerFailed) && Sound(speech.guard, st)
      && CleanIfKept(speech.guard, st, call, actions)
    modifies speech
    ensures speech.Valid()
    ensures var st := speech.Value();
      && st.held == [] && Sound(speech.guard, st) && CleanIfKept(speech.guard, st, call, actions)
      && (streamed == if st.released == [] then None else Some(Join(st.released)))
      && (!Stopped(st) ==> st.released == SpokenAll(speech.guard, Candidates(speech.guard, call.deltas, true)))
      && (st.released != [] ==> FromCall(speech.guard, st, call, offered))
    ensures invariantViolated <==>
      !providerFailed && old(speech.releasedSegments) != []
      && NeedsRegeneration(speech.guard, Join(old(speech.releasedSegments)), permitted, false)
    ensures speech.releasedSegments ==
      if old(speech.releasedSegments) != [] || providerFailed || old(speech.revoked)
         || NeedsRegeneration(speech.guard, replyDraft, permitted, false)
      then old(speech.releasedSegments) else old(speech.heldSegments)
  {
    hide NeedsRegeneration;
    hide WithinLimit;
    hide SafeIfKept;
    hide Consistent;
    hide SpokenAll;
    hide Candidates;
    var g := speech.guard;
    ghost var st0 := speech.Value();
    streamed, invariantViolated := None, false;
    if providerFailed {
      SoundStep(g, st0, Op.Revoke(ProviderFailed, ProviderFailed));
      speech.DoRevoke(ProviderFailed, ProviderFailed);
      CleanAfterStop(g, st0, speech.Value(), call, actions);
    } else if speech.releasedSegments != [] {
      streamed := Some(Join(speech.releasedSegments));
      invariantViolated := NeedsRegeneration(g, Join(speech.releasedSegments), permitted, false);
    } else if speech.heldSegments != [] {
      var rejected := NeedsRegeneration(g, replyDraft, permitted, false);
      if !rejected && !speech.revoked {
        SoundStep(g, st0, DoCommit);
        CleanAfterCommit(g, st0, call, actions);
        var ok := speech.DoCommit();
        assert st0.released + st0.held == speech.Value().released + speech.Value().held;
        streamed := Some(Join(speech.releasedSegments));
      } else {
        SoundStep(g, st0, Op.Revoke(ReplyRejected, ReplyRejected));
        RevokedHoldsNothing(st0);
        speech.DoRevoke(ReplyRejected, ReplyRejected);
        CleanAfterStop(g, st0, speech.Value(), call, actions);
      }
    } else if !speech.revoked {
      SoundStep(g, st0, Op.Revoke(ReplyRejected, ReplyRejected));
      speech.DoRevoke(ReplyRejected, ReplyRejected);
      CleanAfterStop(g, st0, speech.Value(), call, actions);
    }
  }

  lemma CleanAfterCommit(g: Guard, st: Stream, call: ModelCall, actions: seq<Action>)
    requires CleanIfKept(g, st, call, actions)
    ensures CleanIfKept(g, Commit(st), call, actions)
  {
    hide CallKeeps;
    hide Safe;
    hide Candidates;
    var permitted := PermittedClaims(actions);
    if CallKeeps(g, Candidates(g, call.deltas, true), permitted) { CommitSafe(g, st, permitted); }
  }

  lemma RevokedHoldsNothing(st: Stream)
    requires Consistent(st)
    ensures st.revoked ==> st.held == []
  {
  }

  // ---- the bounded loop -----------------------------------------------------------

  datatype LoopEnd = LoopEnd(
    cancelled: bool,
    checks: nat,
    actions: seq<Action>,
    replyDraft: Str,
    providerFailed: bool,
    invoked: nat,
    completed: nat,
    toolRounds: nat,
    reruns: nat)

  ghost predicate Bounded(input: Input, e: LoopEnd) {
    && e.toolRounds <= input.maxToolRounds
    && e.completed <= e.toolRounds + 1
    && e.reruns <= 1
    && e.toolRounds + e.reruns <= e.invoked <= e.toolRounds + 1 + e.reruns
    && |e.actions| <= |input.systemActions| + e.toolRounds * input.maxIntentsPerRound
  }

  /** The actions are the system's and then those of the tool rounds, in order. */
  ghost predicate ToolRounds(env: Env, input: Input, e: LoopEnd, accepted: seq<nat>) {
    && |accepted| == e.toolRounds && e.actions == input.systemActions + RanRounds(env, accepted)
    && forall k :: 0 <= k < |accepted| ==> accepted[k] <= input.maxIntentsPerRound
  }

  /** After `round` tool rounds, with so many tool calls run in each. */
  ghost predicate RoundsRun(env: Env, input: Input, round: nat, accepted: seq<nat>, actions: seq<Action>) {
    && |accepted| == round && actions == input.systemActions + RanRounds(env, accepted)
    && (forall k :: 0 <= k < |accepted| ==> accepted[k] <= input.maxIntentsPerRound)
    && |actions| <= |input.systemActions| + round * input.maxIntentsPerRound
  }

  lemma NoToolRounds(env: Env, input: Input)
    ensures RoundsRun(env, input, 0, [], input.systemActions)
  {
    assert input.systemActions == input.systemActions + RanRounds(env, []);
  }

  lemma {:induction false} RanAtMost(env: Env, round: nat, n: nat)
    ensures |RanIn(env, round, n)| <= n
  {
    if n > 0 { RanAtMost(env, round, n - 1); }
  }

  lemma OneMoreToolRound(env: Env, input: Input, round: nat, accepted: seq<nat>, actions: seq<Action>, n: nat)
    requires RoundsRun(env, input, round, accepted, actions) && n <= input.maxIntentsPerRound
    ensures RoundsRun(env, input, round + 1, accepted + [n], actions + RanIn(env, round, n))
  {
    hide RanIn;
    RanAtMost(env, round, n);
    assert (accepted + [n])[..|accepted|] == accepted;
    assert (round + 1) * input.maxIntentsPerRound == round * input.maxIntentsPerRound + input.maxIntentsPerRound;
  }

  lemma Ends(env: Env, input: Input, e: LoopEnd, accepted: seq<nat>)
    requires RoundsRun(env, input, e.toolRounds, accepted, e.actions)
    requires e.toolRounds <= input.maxToolRounds && e.completed <= e.toolRounds + 1 && e.reruns <= 1
    requires e.toolRounds + e.reruns <= e.invoked <= e.toolRounds + 1 + e.reruns
    ensures Bounded(input, e) && ToolRounds(env, input, e, accepted) && input.systemActions <= e.actions
  {
  }

  /** The first checkpoint is passed, and the first call answers. */
  predicate FirstCallAnswers(env: Env, input: Input, checks: nat) {
    (!env.aborted(checks) || Committed(input.systemActions)) && AnswersIn(env.model(0), Offers(input, 0))
  }

  // ---- when a call is made again ----------------------------------------------------

  /** How many of the tool calls that model call `k` asks for are run. */
  function AcceptedCalls(env: Env, input: Input, k: nat): nat {
    match env.model(k).completion
    case Completed(_, n) => if n <= input.maxIntentsPerRound then n else input.maxIntentsPerRound
    case Failed(_) => 0
  }

  /** The verified actions before round `k`, when every earlier round called tools. */
  ghost function ActionsBefore(env: Env, input: Input, k: nat): seq<Action> {
    if k == 0 then input.systemActions
    else ActionsBefore(env, input, k - 1) + RanIn(env, k - 1, AcceptedCalls(env, input, k - 1))
  }

  /** And the stream. */
  ghost function StreamBefore(env: Env, input: Input, st: Stream, k: nat): Stream {
    if k == 0 then st
    else
      var before := StreamBefore(env, input, st, k - 1);
      if before.revoked then before
      else ToolsStream(input.guard, PermittedClaims(ActionsBefore(env, input, k - 1)), before, env.model(k - 1))
  }

  predicate Offers(input: Input, round: nat) { round < input.maxToolRounds && input.hasTools }

  predicate GoesOn(env: Env, actions: seq<Action>, checks: nat) { !env.aborted(checks) || Committed(actions) }

  /** The round passes its checkpoint and calls tools. */
  predicate CallsTools(env: Env, input: Input, actions: seq<Action>, checks: nat, round: nat) {
    && GoesOn(env, actions, checks) && Offers(input, round)
    && env.model(round).completion.Completed? && env.model(round).completion.toolCalls > 0
  }

  /** The round passes its checkpoint, and its live stream fails after producing text of
      which nothing was heard. */
  predicate FailsUnheard(env: Env, input: Input, st: Stream, actions: seq<Action>, checks: nat, round: nat) {
    && GoesOn(env, actions, checks) && !st.revoked
    && DiesUnheard(input.guard, st, PermittedClaims(actions), Offers(input, round), env.model(round))
  }

  predicate DiesUnheard(g: Guard, st: Stream, permitted: set<ClaimKind>, offered: bool, model: ModelCall) {
    var heard := Heard(g, permitted, st, offered, model);
    model.completion == Failed(false) && heard.producedText && heard.released == []
  }

  /** Rounds 0 to `k - 1` call tools, and the stream of round `k` dies silently. */
  ghost predicate DiesSilently(env: Env, input: Input, st: Stream, checks: nat, k: nat) {
    && k <= input.maxToolRounds
    && (forall i :: 0 <= i < k ==> CallsTools(env, input, ActionsBefore(env, input, i), checks + i, i))
    && FailsUnheard(env, input, StreamBefore(env, input, st, k), ActionsBefore(env, input, k), checks + k, k)
  }

  /** Every round so far called tools; actions, stream and checkpoints are as specified. */
  ghost predicate OnTrack(env: Env, input: Input, st0: Stream, checks0: nat,
                          round: nat, st: Stream, actions: seq<Action>, checks: nat) {
    && (forall i :: 0 <= i < round ==> CallsTools(env, input, ActionsBefore(env, input, i), checks0 + i, i))
    && actions == ActionsBefore(env, input, round) && st == StreamBefore(env, input, st0, round)
    && checks == checks0 + round
  }

  lemma FirstRound(env: Env, input: Input, st0: Stream, checks0: nat)
    ensures OnTrack(env, input, st0, checks0, 0, st0, input.systemActions, checks0)
  {
  }

  lemma NextRound(env: Env, input: Input, st0: Stream, checks0: nat, round: nat, st: Stream, actions: seq<Action>,
                  checks: nat, after: Stream)
    requires OnTrack(env, input, st0, checks0, round, st, actions, checks)
    requires CallsTools(env, input, actions, checks, round)
    requires after == if st.revoked then st
                      else ToolsStream(input.guard, PermittedClaims(actions), st, env.model(round))
    ensures OnTrack(env, input, st0, checks0, round + 1, after,
                    actions + RanIn(env, round, AcceptedCalls(env, input, round)), checks + 1)
  {
    hide ToolsStream;
    hide RanIn;
    hide CallsTools;
  }

  lemma DiesHere(env: Env, input: Input, st0: Stream, checks0: nat, round: nat, st: Stream, actions: seq<Action>,
                 checks: nat)
    requires OnTrack(env, input, st0, checks0, round, st, actions, checks) && round <= input.maxToolRounds
    requires FailsUnheard(env, input, st, actions, checks, round)
    ensures DiesSilently(env, input, st0, checks0, round)
  {
    hide CallsTools;
    hide FailsUnheard;
  }

  /** A round that neither calls tools nor dies silently is the last one. */
  lemma NeverDies(env: Env, input: Input, st0: Stream, checks0: nat, round: nat, st: Stream, actions: seq<Action>,
                  checks: nat)
    requires OnTrack(env, input, st0, checks0, round, st, actions, checks)
    requires !CallsTools(env, input, actions, checks, round)
    requires !FailsUnheard(env, input, st, actions, checks, round)
    ensures forall k: nat :: !DiesSilently(env, input, st0, checks0, k)
  {
    hide CallsTools;
    hide FailsUnheard;
    hide StreamBefore;
    hide ActionsBefore;
    forall k: nat ensures !DiesSilently(env, input, st0, checks0, k) {
      if k < round { CallsToolsOrFails(env, input, k, checks0 + k, StreamBefore(env, input, st0, k)); }
    }
  }

  /** So there are three ways for a round to end. */
  lemma DiesOrGoesOn(env: Env, input: Input, st0: Stream, checks0: nat, round: nat, st: Stream, actions: seq<Action>,
                     checks: nat)
    requires OnTrack(env, input, st0, checks0, round, st, actions, checks) && round <= input.maxToolRounds
    ensures FailsUnheard(env, input, st, actions, checks, round) ==>
      exists k: nat :: DiesSilently(env, input, st0, checks0, k)
    ensures !CallsTools(env, input, actions, checks, round) && !FailsUnheard(env, input, st, actions, checks, round) ==>
      forall k: nat :: !DiesSilently(env, input, st0, checks0, k)
  {
    hide OnTrack;
    hide CallsTools;
    hide FailsUnheard;
    hide DiesSilently;
    if FailsUnheard(env, input, st, actions, checks, round) {
      DiesHere(env, input, st0, checks0, round, st, actions, checks);
    } else if !CallsTools(env, input, actions, checks, round) {
      NeverDies(env, input, st0, checks0, round, st, actions, checks);
    }
  }

  lemma CallsToolsOrFails(env: Env, input: Input, k: nat, checks: nat, st: Stream)
    requires CallsTools(env, input, ActionsBefore(env, input, k), checks, k)
    ensures !FailsUnheard(env, input, st, ActionsBefore(env, input, k), checks, k)
  {
  }

  /** What the loop does after a model call: run tools, make the call again, stop, or
      leave with a draft. */
  datatype Next = Tools(calls: nat) | Again | Throw | Leave(draft: Str, failed: bool)

  /** One model call of a round, streamed while the stream is active. */
  method CallModel(speech: SafeSpeechStream?, g: Guard, offersTools: bool, model: ModelCall, actions: seq<Action>,
                   retryUsed: bool)
    returns (next: Next)
    requires speech != null ==>
      speech.guard == g && speech.Valid() && speech.assembler == null && Consistent(speech.Value())
        && Idle(speech.Value())
    modifies speech
    ensures speech != null ==> speech.Valid() && speech.assembler == null && Sound(g, speech.Value())
    ensures speech != null ==> CleanIfKept(g, speech.Value(), model, actions)
    ensures speech != null && !next.Leave? ==> Consistent(speech.Value()) && Idle(speech.Value())
    ensures speech != null && next.Leave? ==> AfterLoop(g, speech.Value(), model, offersTools, next.failed)
    ensures next.Tools? <==> offersTools && model.completion.Completed? && model.completion.toolCalls > 0
    ensures next.Tools? ==> next.calls == model.completion.toolCalls
    ensures speech != null && next.Tools? ==>
      speech.Value() == if old(speech.revoked) then old(speech.Value())
                        else ToolsStream(g, PermittedClaims(actions), old(speech.Value()), model)
    ensures next.Again? <==>
      && speech != null && !retryUsed && !old(speech.revoked)
      && DiesUnheard(g, old(speech.Value()), PermittedClaims(actions), offersTools, model)
    ensures next.Again? ==> speech.revoked
    ensures model.completion.Failed? && !next.Again? ==>
      next == if speech != null && !old(speech.revoked)
                 && Heard(g, PermittedClaims(actions), old(speech.Value()), offersTools, model).released != []
              then Leave(Join(speech.releasedSegments), false)
              else if model.completion == Failed(true) && !Committed(actions) then Throw
              else Leave([], true)
    ensures model.completion.Failed? && next.Leave? ==>
      (next.failed <==> speech == null || speech.releasedSegments == [])
    ensures AnswersIn(model, offersTools) ==> next == Leave(model.completion.content, false)
    ensures AnswersIn(model, offersTools) && speech != null && !old(speech.revoked) ==>
      speech.Value() == AnsweredStream(g, PermittedClaims(actions), old(speech.Value()), offersTools, model)
  {
    hide Sound;
    hide Consistent;
    hide AfterLoop;
    hide SafeIfKept;
    hide Candidates;
    hide Committed;
    hide AnsweredStream;
    hide ToolsStream;
    hide Heard;
    if speech != null {
      IdleIsSound(g, speech.Value());
      IdleIsClean(g, speech.Value(), model, actions);
      if speech.revoked { RevokedAfterLoop(g, speech.Value(), model, offersTools); }
    }
    var live := speech != null && !speech.revoked;
    var end, producedText := NothingHeard, false;
    if live { end, producedText := LiveRound(speech, offersTools, model, actions, PermittedClaims(actions)); }
    if speech != null { SoundIsConsistent(g, speech.Value()); }
    match model.completion
    case Completed(content, toolCalls) =>
      next := if toolCalls == 0 || !offersTools then Leave(content, false) else Tools(toolCalls);
    case Failed(cancelled) =>
      if live && end.HeardPart? { return Leave(Join(speech.releasedSegments), false); }
      if live { RevokedAfterLoop(g, speech.Value(), model, offersTools); }
      next := if live && !cancelled && producedText && !retryUsed then Again
              else if cancelled && !Committed(actions) then Throw
              else Leave([], true);
  }

  /** The draft is the last call's own; a call that failed leaves one only if part of it
      was heard. */
  predicate DraftOk(env: Env, e: LoopEnd, heard: bool)
    requires e.invoked > 0
  {
    match env.model(e.invoked - 1).completion
    case Completed(content, _) => e.replyDraft == content && !e.providerFailed
    case Failed(_) => e.providerFailed <==> !heard
  }

  /** The model and tool loop, with its stream failure ladder. */
  method ModelLoop(env: Env, input: Input, speech: SafeSpeechStream?, checks0: nat)
    returns (e: LoopEnd, ghost accepted: seq<nat>)
    requires speech != null ==>
      speech.guard == input.guard && speech.Valid() && speech.assembler == null
      && Consistent(speech.Value()) && Idle(speech.Value())
    modifies speech
    ensures Bounded(input, e) && input.systemActions <= e.actions && ToolRounds(env, input, e, accepted)
    ensures e.cancelled ==> !Committed(e.actions) && (speech != null ==> Idle(speech.Value()))
    ensures !e.cancelled ==> e.invoked == e.toolRounds + 1 + e.reruns
    ensures e.cancelled ==>
      env.aborted(e.checks) || (e.invoked > 0 && env.model(e.invoked - 1).completion == Failed(true))
    ensures !e.cancelled ==> DraftOk(env, e, speech != null && speech.releasedSegments != [])
    ensures e.reruns == 1 <==>
      speech != null && exists k: nat :: DiesSilently(env, input, old(speech.Value()), checks0, k)
    ensures speech != null ==> speech.Valid() && speech.assembler == null && Sound(input.guard, speech.Value())
    ensures speech != null && !e.cancelled ==>
      CleanIfKept(input.guard, speech.Value(), env.model(e.invoked - 1), e.actions)
    ensures FirstCallAnswers(env, input, checks0) ==>
      && e == LoopEnd(false, checks0 + 1, input.systemActions, env.model(0).completion.content, false, 1, 1, 0, 0)
      && (speech != null && !old(speech.revoked) ==>
            speech.Value() == AnsweredStream(input.guard, PermittedClaims(input.systemActions), old(speech.Value()),
                                             Offers(input, 0), env.model(0)))
    ensures speech != null && !e.cancelled ==>
      AfterLoop(input.guard, speech.Value(), env.model(e.invoked - 1), Offers(input, e.toolRounds), e.providerFailed)
  {
    hide Sound;
    hide Consistent;
    hide SafeIfKept;
    hide Candidates;
    hide AnsweredStream;
    hide ToolsStream;
    hide DiesUnheard;
    hide RanRounds;
    hide RanIn;
    hide OnTrack;
    hide DiesSilently;
    hide RoundsRun;
    hide Committed;
    hide AfterLoop;
    hide ToolRounds;
    hide Bounded;
    NoToolRounds(env, input);
    var g := input.guard;
    ghost var st0 := if speech == null then FRESH else speech.Value();
    FirstRound(env, input, st0, checks0);
    var checks := checks0;
    var actions := input.systemActions;
    var invoked, round: nat := 0, 0;
    var retryUsed := false;
    accepted := [];
    while round <= input.maxToolRounds
      invariant round <= input.maxToolRounds
      invariant invoked == round + if retryUsed then 1 else 0
      invariant RoundsRun(env, input, round, accepted, actions)
      invariant speech != null ==>
        speech.Valid() && speech.assembler == null && Consistent(speech.Value()) && Idle(speech.Value())
      invariant retryUsed ==>
        speech != null && speech.revoked && exists k: nat :: DiesSilently(env, input, st0, checks0, k)
      invariant speech != null && !retryUsed ==>
        OnTrack(env, input, st0, checks0, round, speech.Value(), actions, checks)
      invariant round == 0 ==> actions == input.systemActions
      invariant round == 0 && !retryUsed ==> checks == checks0 && (speech != null ==> speech.Value() == st0)
      invariant round > 0 || retryUsed ==> !FirstCallAnswers(env, input, checks0)
      decreases input.maxToolRounds + 1 - round, if retryUsed then 0 else 1
    {
      var offersTools := Offers(input, round);
      var reruns := if retryUsed then 1 else 0;
      ghost var before := if speech == null then FRESH else speech.Value();
      if speech != null {
        IdleIsSound(g, speech.Value());
        if !retryUsed { DiesOrGoesOn(env, input, st0, checks0, round, before, actions, checks); }
      }
      if !GoesOn(env, actions, checks) {
        e := LoopEnd(true, checks, actions, [], false, invoked, round, round, reruns);
        Ends(env, input, e, accepted);
        return;
      }
      var next := CallModel(speech, g, offersTools, env.model(invoked), actions, retryUsed);
      checks, invoked := checks + 1, invoked + 1;
      match next
      case Again => retryUsed := true;
      case Throw =>
        e := LoopEnd(true, checks, actions, [], false, invoked, round, round, reruns);
        Ends(env, input, e, accepted);
        return;
      case Leave(draft, failed) =>
        var answered := if env.model(invoked - 1).completion.Completed? then 1 else 0;
        e := LoopEnd(false, checks, actions, draft, failed, invoked, round + answered, round, reruns);
        Ends(env, input, e, accepted);
        return;
      case Tools(calls) =>
        if speech != null && !retryUsed {
          NextRound(env, input, st0, checks0, round, before, actions, checks - 1, speech.Value());
        }
        var n := if calls <= input.maxIntentsPerRound then calls else input.maxIntentsPerRound;
        OneMoreToolRound(env, input, round, accepted, actions, n);
        actions := RunTools(env, round, n, actions);
        accepted := accepted + [n];
        round := round + 1;
    }
  }

  lemma SoundIsConsistent(g: Guard, st: Stream)
    requires Sound(g, st)
    ensures Consistent(st)
  {
  }

  // ---- the complete path --------------------------------------------------------------

  predicate Passes(g: Guard, text: Str, permitted: set<ClaimKind>, judgeLanguage: bool) {
    && Trim(text) != [] && !g.leaks(Trim(text))
    && (forall kind :: kind in ENFORCED && kind in g.claims(Trim(text)) ==> kind in permitted)
    && (judgeLanguage ==> !g.wrongLanguage(Trim(text)))
  }

  /** `validateReply` finds a claim that no verified action supports. */
  predicate Unsupported(g: Guard, text: Str, permitted: set<ClaimKind>) {
    Trim(text) != [] && exists kind :: kind in ENFORCED && kind in g.claims(Trim(text)) && kind !in permitted
  }

  lemma PassesIff(g: Guard, text: Str, permitted: set<ClaimKind>, judgeLanguage: bool)
    ensures Passes(g, text, permitted, judgeLanguage) <==> !NeedsRegeneration(g, text, permitted, judgeLanguage)
  {
  }

  /** A repair call is made, and answers. */
  predicate Rewritten(env: Env, input: Input, repairs: nat) { repairs == 1 && env.repair.Completed? }

  /** What is said to a draft, and after how many repairs. */
  ghost predicate WrittenReply(env: Env, input: Input, draft: Str, permitted: set<ClaimKind>, reply: Str,
                               repairs: nat) {
    var g := input.guard;
    var rewritten := Rewritten(env, input, repairs);
    && repairs == (if !Passes(g, draft, permitted, true) && input.maxRegenerations > 0 then 1 else 0)
    // the draft, when it passes, or when its language alone is wrong and there is no rewritten one
    && (Passes(g, draft, permitted, true) ==> reply == input.transform(draft))
    && (Passes(g, draft, permitted, false) && !rewritten ==> reply == input.transform(draft))
    // the rewritten one, when it passes
    && (rewritten && Passes(g, env.repair.content, permitted, false) ==> reply == input.transform(env.repair.content))
    // and otherwise the fallback line
    && (!Passes(g, draft, permitted, false) && !rewritten ==>
          reply == input.safeFallback(Unsupported(g, draft, permitted)))
    && (rewritten && !Passes(g, env.repair.content, permitted, false) ==>
          reply == input.safeFallback(Unsupported(g, draft, permitted)
                                      || Unsupported(g, env.repair.content, permitted)))
  }

  /** Validation, at most one repair call, then the honest fallback line. */
  method CompleteReply(env: Env, input: Input, replyDraft: Str, permitted: set<ClaimKind>, committed: bool)
    returns (cancelled: bool, reply: Str, repairs: nat)
    ensures repairs <= 1 && repairs <= input.maxRegenerations
    ensures cancelled <==>
      && NeedsRegeneration(input.guard, replyDraft, permitted, true) && input.maxRegenerations > 0
      && env.repair == Failed(true) && !committed
    ensures !cancelled ==> WrittenReply(env, input, replyDraft, permitted, reply, repairs)
  {
    var g := input.guard;
    PassesIff(g, replyDraft, permitted, true);
    PassesIff(g, replyDraft, permitted, false);
    var claimed := Unsupported(g, replyDraft, permitted);
    cancelled, reply, repairs := false, input.transform(replyDraft), 0;
    var unsafe := NeedsRegeneration(g, replyDraft, permitted, false);
    if NeedsRegeneration(g, replyDraft, permitted, true) && input.maxRegenerations > 0 {
      repairs := 1;
      match env.repair
      case Completed(content, _) =>
        PassesIff(g, content, permitted, false);
        reply := if NeedsRegeneration(g, content, permitted, false)
                 then input.safeFallback(claimed || Unsupported(g, content, permitted)) else input.transform(content);
      case Failed(byCaller) =>
        if byCaller && !committed { return true, [], repairs; }
        if unsafe { reply := input.safeFallback(claimed); }
    } else if unsafe {
      reply := input.safeFallback(claimed);
    }
  }

  /** What the caller gets. */
  ghost predicate RepliesWith(input: Input, env: Env, r: Report)
    requires Replied(r.outcome)
  {
    && r.invoked > 0
    && var last, heard := env.model(r.invoked - 1).completion, SpeechHeard(r);
    && (heard != [] ==> r.outcome.reply == Join(heard))
    && (heard == [] && last.Failed? ==> r.outcome.reply == input.providerFallback)
    && (heard == [] && last.Completed? ==>
          WrittenReply(env, input, last.content, PermittedClaims(r.actions), r.outcome.reply, r.repairs))
  }

  function SpeechHeard(r: Report): seq<Str> { if r.speech.Some? then r.speech.value.released else [] }

  /** A turn that replies was not aborted, or had done or said something by then. */
  ghost predicate WasNotStopped(input: Input, env: Env, r: Report) {
    && ReachesTheLoop(input, env)
    && (env.aborted(r.checks) ==> Committed(r.actions) || (SpeechHeard(r) != [] && !Offers(input, r.toolRounds)))
    && (env.aborted(r.checks + 1) ==> Committed(r.actions) || SpeechHeard(r) != [])
  }

  // ---- the turn ------------------------------------------------------------------

  /** Heard text comes from the last model call alone. */
  ghost predicate HeardFromOneRound(input: Input, env: Env, r: Report, st: Stream) {
    && r.invoked > 0
    && FromCall(input.guard, st, env.model(r.invoked - 1), Offers(input, r.toolRounds))
  }

  /** What every turn guarantees. */
  ghost predicate TurnGuarantees(input: Input, env: Env, r: Report) {
    && (r.outcome.CancelledTurn? ==>
          r.persisted == [] && !Committed(r.actions) && (r.speech.Some? ==> r.speech.value.released == []))
    && (r.outcome.CancelledTurn? ==> ByTheCaller(env, r))
    && (r.outcome.Refused? ==> !(env.starts && env.fits) && r.persisted == [] && r.speech.None? && r.invoked == 0)
    && (r.outcome.Delivered? ==>
          env.stores && r.persisted == [UserRow(input.userMessage), AssistantRow(r.outcome.reply)])
    && (r.outcome.Lost? ==> !env.stores && r.persisted == [])
    && (Replied(r.outcome) ==> RepliesWith(input, env, r) && WasNotStopped(input, env, r))
    && (r.speech.Some? && r.speech.value.held != [] ==> r.outcome == CancelledTurn(Validation))
    && (r.speech.Some? && r.speech.value.released != [] ==>
          && Replied(r.outcome) && r.outcome.reply == Join(r.speech.value.released)
          && HeardFromOneRound(input, env, r, r.speech.value))
    && (r.speech.Some? && !Stopped(r.speech.value) && r.invoked > 0 ==>
          && (Replied(r.outcome) ==> r.speech.value.released == AllItSaid(input, env, r))
          && (r.outcome == CancelledTurn(Validation) ==> r.speech.value.held == AllItSaid(input, env, r)))
  }

  /** The caller's signal was up where the turn was cancelled, or cut a model call short. */
  predicate ByTheCaller(env: Env, r: Report)
    requires r.outcome.CancelledTurn?
  {
    match r.outcome.stage
    case Early => env.aborted(0) || env.aborted(1) || env.aborted(2) || env.aborted(3)
    case ModelRound => env.aborted(r.checks) || (r.invoked > 0 && env.model(r.invoked - 1).completion == Failed(true))
    case Validation => env.aborted(r.checks)
    case RepairCall => env.repair == Failed(true)
    case Persistence => env.aborted(r.checks + 1)
  }

  /** Everything the last model call says, sentence by sentence. */
  ghost function AllItSaid(input: Input, env: Env, r: Report): seq<Str>
    requires r.invoked > 0
  {
    SpokenAll(input.guard, Candidates(input.guard, env.model(r.invoked - 1).deltas, true))
  }

  /** Where no heard segment looks like markdown, a streamed reply is the beginning of
      what one model call wrote, in its own words. */
  lemma StreamedReplyIsTheModelsText(input: Input, env: Env, r: Report)
    requires TurnGuarantees(input, env, r)
    requires r.speech.Some? && r.speech.value.released != []
    requires forall k :: 0 <= k < |r.speech.value.released| ==> HeardPlainly(input, env, r, k)
    ensures Replied(r.outcome) && r.invoked > 0 && r.outcome.reply <= Normalize(Flat(env.model(r.invoked - 1).deltas))
  {
    hide Join;
    hide Normalize;
    hide Candidates;
    hide SpokenAll;
    var st := r.speech.value;
    assert st.held == [];
    assert st.released + [] == st.released;
    var all := Candidates(input.guard, env.model(r.invoked - 1).deltas, true);
    assert |st.released| <= |all|;
    forall k | 0 <= k < |st.released| ensures Plain(input.guard, all[k]) { assert HeardPlainly(input, env, r, k); }
    HeardIsWhatTheModelWrote(input.guard, st.released, env.model(r.invoked - 1).deltas);
  }

  /** The k-th segment of the last call does not look like markdown. */
  ghost predicate HeardPlainly(input: Input, env: Env, r: Report, k: nat) {
    r.invoked > 0 ==>
      var all := Candidates(input.guard, env.model(r.invoked - 1).deltas, true);
      k < |all| ==> Plain(input.guard, all[k])
  }

  /** Stripping spoils no segment of the last model call. */
  ghost predicate LastCallKept(input: Input, env: Env, r: Report) {
    r.invoked > 0 ==>
      CallKeeps(input.guard, Candidates(input.guard, env.model(r.invoked - 1).deltas, true), PermittedClaims(r.actions))
  }

  /** What can be heard or held is consistent and at most one unit over the limit, always;
      and it is clean, so that the turn's own invariant check is silent, when stripping
      spoils no segment of the last call. */
  ghost predicate SpeechGuarantees(input: Input, env: Env, r: Report) {
    && (r.speech.Some? ==> Sound(input.guard, r.speech.value))
    && (r.speech.Some? && LastCallKept(input, env, r) ==> Safe(input.guard, r.speech.value, PermittedClaims(r.actions)))
    && (LastCallKept(input, env, r) ==> !r.invariantViolated)
    && (r.invariantViolated ==>
          && r.speech.Some? && r.speech.value.released != []
          && NeedsRegeneration(input.guard, Join(r.speech.value.released), PermittedClaims(r.actions), false))
    && (LastCallKept(input, env, r) && r.speech.Some? && r.speech.value.released != [] ==>
          !NeedsRegeneration(input.guard, Join(r.speech.value.released), PermittedClaims(r.actions), false))
  }

  /** In particular where no segment of the last call looks like markdown. */
  lemma PlainTurnIsClean(input: Input, env: Env, r: Report)
    requires TurnGuarantees(input, env, r) && SpeechGuarantees(input, env, r) && r.invoked > 0
    requires forall k: nat :: HeardPlainly(input, env, r, k)
    ensures !r.invariantViolated
    ensures Replied(r.outcome) && r.speech.Some? && r.speech.value.released != [] ==>
      !NeedsRegeneration(input.guard, r.outcome.reply, PermittedClaims(r.actions), false)
  {
    hide NeedsRegeneration;
    hide Candidates;
    hide Safe;
    hide Sound;
    hide CallKeeps;
    var deltas := env.model(r.invoked - 1).deltas;
    var all := Candidates(input.guard, deltas, true);
    CandidatesAreTrimmed(input.guard, deltas);
    forall k | 0 <= k < |all| ensures Plain(input.guard, all[k]) { assert HeardPlainly(input, env, r, k); }
    PlainCallKeeps(input.guard, all, PermittedClaims(r.actions));
  }

  /** Every checkpoint of the model loop was passed. */
  predicate LeftTheLoop(outcome: Outcome) {
    !outcome.Refused? && outcome != CancelledTurn(Early) && outcome != CancelledTurn(ModelRound)
  }

  /** One call per round and one to narrate, one more where a stream was run again, and
      at most one repair. */
  ghost predicate TurnBounds(input: Input, r: Report) {
    && r.toolRounds <= input.maxToolRounds && r.completed <= r.toolRounds + 1
    && r.reruns <= 1 && r.repairs <= 1 && r.repairs <= input.maxRegenerations
    && r.invoked <= r.toolRounds + 1 + r.reruns
    && (LeftTheLoop(r.outcome) ==> r.invoked == r.toolRounds + 1 + r.reruns)
  }

  /** Exactly when a turn makes more model calls than its tool rounds and one: it used
      every round, and a stream was run again. With the repairs counted, and allowed for,
      only where no repair was left. */
  lemma CallsExceedIff(input: Input, r: Report)
    requires TurnBounds(input, r)
    ensures r.invoked > input.maxToolRounds + 1 <==>
      r.toolRounds == input.maxToolRounds && r.reruns == 1 && r.invoked == r.toolRounds + 2
    ensures LeftTheLoop(r.outcome) ==>
      (r.invoked > input.maxToolRounds + 1 <==> r.toolRounds == input.maxToolRounds && r.reruns == 1)
    ensures r.invoked + r.repairs > input.maxToolRounds + 1 + input.maxRegenerations <==>
      r.invoked > input.maxToolRounds + 1 && r.repairs == input.maxRegenerations
  {
  }

  function Snapshot(speech: SafeSpeechStream?): Option<Stream>
    reads speech, if speech == null then null else speech.assembler
  {
    if speech == null then None else Some(speech.Value())
  }

  /** What the turn amounts to when it stops right after the loop. */
  function AfterTheLoop(e: LoopEnd, speech: Option<Stream>): Report {
    Report(CancelledTurn(Validation), speech, e.actions, [], e.checks, e.invoked, e.completed, e.toolRounds, e.reruns,
           0, false)
  }

  /** The caller aborted at the validation checkpoint, with nothing done and nothing heard. */
  predicate StopsAtValidation(env: Env, e: LoopEnd, speech: Option<Stream>) {
    env.aborted(e.checks) && !Committed(e.actions) && (speech.None? || speech.value.released == [])
  }

  /** What settlement lets the caller hear: what was heard already, or else what is held,
      unless the stream or the whole draft is rejected. */
  predicate SettlesTo(g: Guard, st: Stream, e: LoopEnd, heard: seq<Str>) {
    heard == if st.released != [] || e.providerFailed || st.revoked
                || NeedsRegeneration(g, e.replyDraft, PermittedClaims(e.actions), false)
             then st.released else st.held
  }

  /** After settlement: what the turn's stream, if it has one, still promises. */
  ghost predicate SettledWell(input: Input, env: Env, e: LoopEnd, st: Stream)
    requires e.invoked > 0
  {
    && st.held == []
    && (e.providerFailed ==> st.released == [])
    && (st.released != [] ==> FromCall(input.guard, st, env.model(e.invoked - 1), Offers(input, e.toolRounds)))
    && (!Stopped(st) ==>
          st.released == SpokenAll(input.guard, Candidates(input.guard, env.model(e.invoked - 1).deltas, true)))
  }

  /** The reply, from the stream or by the complete path, and persistence. */
  method Finish(env: Env, input: Input, e: LoopEnd, settled: Report, streamed: Option<Str>) returns (r: Report)
    requires !e.cancelled && e.invoked == e.toolRounds + 1 + e.reruns
    requires DraftOk(env, e, streamed.Some?) && ReachesTheLoop(input, env)
    requires env.aborted(e.checks) ==> Committed(e.actions) || (streamed.Some? && !Offers(input, e.toolRounds))
    requires settled == AfterTheLoop(e, settled.speech).(invariantViolated := settled.invariantViolated)
    requires settled.speech.Some? ==> SettledWell(input, env, e, settled.speech.value)
    requires streamed == if settled.speech.None? || settled.speech.value.released == [] then None
                         else Some(Join(settled.speech.value.released))
    requires SpeechGuarantees(input, env, settled) && TurnBounds(input, settled)
    ensures TurnGuarantees(input, env, r) && SpeechGuarantees(input, env, r)
    ensures TurnBounds(input, r) && LeftTheLoop(r.outcome) && r.outcome != CancelledTurn(Validation)
    ensures (r.invoked, r.toolRounds, r.reruns, r.checks, r.speech)
         == (e.invoked, e.toolRounds, e.reruns, e.checks, settled.speech)
  {
    hide Sound;
    hide Safe;
    hide CallKeeps;
    hide NeedsRegeneration;
    hide FromCall;
    hide SpokenAll;
    hide Candidates;
    hide Committed;
    hide PermittedClaims;
    hide Join;
    hide WrittenReply;
    hide ReachesTheLoop;
    r := settled;
    var committed := Committed(e.actions);
    var reply := input.providerFallback;
    if e.providerFailed {
    } else if streamed.Some? {
      reply := streamed.value;
    } else {
      var cancelled, repairs;
      cancelled, reply, repairs := CompleteReply(env, input, e.replyDraft, PermittedClaims(e.actions), committed);
      r := r.(repairs := repairs);
      if cancelled { return r.(outcome := CancelledTurn(RepairCall)); }
    }
    if env.aborted(e.checks + 1) && !committed && streamed.None? { return r.(outcome := CancelledTurn(Persistence)); }
    if !env.stores { return r.(outcome := Lost(reply)); }
    r := r.(outcome := Delivered(reply), persisted := [UserRow(input.userMessage), AssistantRow(reply)]);
  }

  /** Settlement, the complete path for a silent stream, and persistence. */
  method Conclude(env: Env, input: Input, speech: SafeSpeechStream?, e: LoopEnd, soFar: Report) returns (r: Report)
    requires !e.cancelled && e.invoked == e.toolRounds + 1 + e.reruns && soFar == AfterTheLoop(e, Snapshot(speech))
    requires DraftOk(env, e, speech != null && speech.releasedSegments != []) && ReachesTheLoop(input, env)
    requires speech != null ==>
      && speech.guard == input.guard && speech.Valid() && speech.assembler == null
      && Sound(input.guard, speech.Value())
      && CleanIfKept(input.guard, speech.Value(), env.model(e.invoked - 1), e.actions)
      && AfterLoop(input.guard, speech.Value(), env.model(e.invoked - 1),
                   Offers(input, e.toolRounds), e.providerFailed)
    requires TurnBounds(input, soFar)
    modifies speech
    ensures TurnGuarantees(input, env, r)
    ensures SpeechGuarantees(input, env, r)
    ensures TurnBounds(input, r) && LeftTheLoop(r.outcome)
    ensures (r.invoked, r.toolRounds, r.reruns, r.checks) == (e.invoked, e.toolRounds, e.reruns, e.checks)
    ensures StopsAtValidation(env, e, soFar.speech) ==> r == soFar
    ensures !StopsAtValidation(env, e, soFar.speech) && soFar.speech.Some? ==>
      SettlesTo(input.guard, soFar.speech.value, e, SpeechHeard(r))
    ensures r.speech.Some? <==> soFar.speech.Some?
    ensures r.speech.Some? ==>
      (r.speech.value.held != [] <==> soFar.speech.value.held != [] && env.aborted(e.checks) && !Committed(e.actions))
  {
    hide Sound;
    hide SafeIfKept;
    hide Safe;
    hide CallKeeps;
    hide NeedsRegeneration;
    hide FromCall;
    hide SpokenAll;
    hide Candidates;
    var committed := Committed(e.actions);
    var permitted := PermittedClaims(e.actions);
    ghost var call := env.model(e.invoked - 1);
    if env.aborted(e.checks) && !committed && (speech == null || speech.releasedSegments == []) {
      if speech != null { KeptIsSafe(input.guard, speech.Value(), call, e.actions); }
      return soFar;
    }
    var streamed, violated := None, false;
    if speech != null {
      streamed, violated := Settle(speech, e.providerFailed, e.replyDraft, call,
                                   Offers(input, e.toolRounds), e.actions, permitted);
      KeptIsSafe(input.guard, speech.Value(), call, e.actions);
    }
    r := soFar.(speech := Snapshot(speech), invariantViolated := violated);
    r := Finish(env, input, e, r, streamed);
  }

  /** A clean stream's heard text passes the gate. */
  lemma KeptIsSafe(g: Guard, st: Stream, call: ModelCall, actions: seq<Action>)
    requires CleanIfKept(g, st, call, actions)
    ensures var permitted := PermittedClaims(actions);
      CallKeeps(g, Candidates(g, call.deltas, true), permitted) ==>
        Safe(g, st, permitted) && (st.released != [] ==> !NeedsRegeneration(g, Join(st.released), permitted, false))
  {
    hide CallKeeps;
    hide Safe;
    hide NeedsRegeneration;
    hide Candidates;
    var permitted := PermittedClaims(actions);
    if CallKeeps(g, Candidates(g, call.deltas, true), permitted) && st.released != [] {
      HeardPassesTheGate(g, st, permitted);
    }
  }

  predicate Streams(input: Input) { input.speechRequested && input.providerStreams && !input.pendingConfirmation }

  /** The turn gets as far as its first model round. */
  predicate ReachesTheLoop(input: Input, env: Env) {
    && !env.aborted(0) && env.starts && !env.aborted(1) && !env.aborted(2)
    && GoesOn(env, input.systemActions, 3) && env.fits
  }

  /** A streaming turn of which some round, after tool rounds only, dies unheard. */
  ghost predicate RunsAgain(input: Input, env: Env) {
    ReachesTheLoop(input, env) && Streams(input) && exists k: nat :: DiesSilently(env, input, FRESH, 4, k)
  }

  /** A streaming turn whose first call answers with tools on offer, and whose caller
      aborts just then. */
  predicate AnsweredThenAborted(input: Input, env: Env) {
    && Streams(input) && ReachesTheLoop(input, env) && !env.aborted(4)
    && AnswersIn(env.model(0), Offers(input, 0))
    && env.aborted(5) && !Committed(input.systemActions) && FirstAnswer(input, env).released == []
  }

  /** The loop's end when the first call answers. */
  function FirstEnd(input: Input, env: Env): LoopEnd
    requires env.model(0).completion.Completed?
  {
    LoopEnd(false, 5, input.systemActions, env.model(0).completion.content, false, 1, 1, 0, 0)
  }

  /** The stream after the first call of a turn, when that call answers. */
  function FirstAnswer(input: Input, env: Env): Stream {
    AnsweredStream(input.guard, PermittedClaims(input.systemActions), FRESH, Offers(input, 0), env.model(0))
  }

  /** One turn, from the first checkpoint to persistence. */
  method Run(env: Env, input: Input) returns (r: Report)
    ensures TurnGuarantees(input, env, r)
    ensures SpeechGuarantees(input, env, r)
    ensures TurnBounds(input, r)
    ensures r.reruns == 1 <==> RunsAgain(input, env)
    ensures LeftTheLoop(r.outcome) ==>
      (r.invoked > input.maxToolRounds + 1 <==> r.toolRounds == input.maxToolRounds && RunsAgain(input, env))
    ensures AnsweredThenAborted(input, env) ==> AbortedWithHeld(input, env, r)
    ensures FirstCallAnswers(env, input, 4) && ReachesTheLoop(input, env) && Streams(input)
            && !AnsweredThenAborted(input, env) ==>
      SettlesTo(input.guard, FirstAnswer(input, env), FirstEnd(input, env), SpeechHeard(r))
  {
    hide SettlesTo;
    hide Sound;
    hide CallKeeps;
    hide Safe;
    hide NeedsRegeneration;
    hide FromCall;
    hide AfterLoop;
    hide AllItSaid;
    hide Stopped;
    hide AnsweredStream;
    hide SafeIfKept;
    hide Candidates;
    hide DiesSilently;
    hide PermittedClaims;
    hide Join;
    hide ToolRounds;
    hide HeardFromOneRound;
    var nothing := Report(CancelledTurn(Early), None, [], [], 0, 0, 0, 0, 0, 0, false);
    if env.aborted(0) { return nothing; }
    if !env.starts { return nothing.(outcome := Refused); }
    // history, knowledge: nothing has been done yet
    if env.aborted(1) || env.aborted(2) { return nothing; }
    if env.aborted(3) && !Committed(input.systemActions) { return nothing.(actions := input.systemActions); }
    if !env.fits { return nothing.(outcome := Refused, actions := input.systemActions); }

    var speech: SafeSpeechStream? := null;
    if Streams(input) { speech := new SafeSpeechStream(input.guard); }
    FreshIsConsistent();
    var e, accepted := ModelLoop(env, input, speech, 4);
    var soFar := AfterTheLoop(e, Snapshot(speech));
    if e.cancelled {
      if speech != null { IdleIsSafe(input.guard, speech.Value(), PermittedClaims(e.actions)); }
      return soFar.(outcome := CancelledTurn(ModelRound));
    }
    r := Conclude(env, input, speech, e, soFar);
  }

  /** Such a turn is cancelled, and what the call said is still held. */
  ghost predicate AbortedWithHeld(input: Input, env: Env, r: Report) {
    r.outcome == CancelledTurn(Validation) && r.speech == Some(FirstAnswer(input, env))
  }

  lemma FreshIsConsistent()
    ensures Consistent(FRESH) && Idle(FRESH)
  {
  }

  lemma IdleIsSafe(g: Guard, st: Stream, permitted: set<ClaimKind>)
    requires Idle(st)
    ensures Safe(g, st, permitted)
  {
    assert st.released + st.held == [];
  }

  // ---- a turn that ends with speech held -----------------------------------------------

  const OK: Str := [79, 75]

  function QuietGuard(): Guard {
    Guard((t: Str) => false, (t: Str) => {}, (t: Str) => false, (t: Str) => t, (t: Str) => false, false, 450,
          (w: Str) => false, 12)
  }

  /** One tool round is allowed, and a tool is on offer. */
  function ToolInput(): Input {
    Input(QuietGuard(), true, true, false, true, 1, 4, 1, [], [], [], (claimed: bool) => [], (t: Str) => t)
  }

  /** The model says "OK" and calls no tool; the caller aborts at the sixth checkpoint. */
  function AbortingEnv(): Env {
    Env((n: nat) => n == 5, (n: nat) => ModelCall([OK], Completed(OK, 0)),
        (round: nat, i: nat) => RejectedIntent, Failed(false), true, true, true)
  }

  /** Reachable: a whole turn that ends with "OK" held, neither heard nor retracted. */
  lemma HeldAtTheEnd()
    ensures AnsweredThenAborted(ToolInput(), AbortingEnv())
    ensures FirstAnswer(ToolInput(), AbortingEnv()).held == [OK]
  {
    hide End;
    hide Delta;
    var begun := Begin(FRESH, true);
    OkIsBuffered(true);
    OkIsHeld();
    assert [OK][..0] == [] && Played(QuietGuard(), {}, begun, [OK]) == Delta(QuietGuard(), {}, begun, OK);
  }

  method RunWithHeldAtTheEnd() returns (r: Report)
    ensures r.outcome == CancelledTurn(Validation) && r.speech.Some? && r.speech.value.held == [OK] && r.persisted == []
  {
    hide FirstAnswer;
    hide AnsweredThenAborted;
    HeldAtTheEnd();
    r := Run(AbortingEnv(), ToolInput());
  }

  // ---- a turn that makes one call more ---------------------------------------------------

  /** No tool round is allowed, and no repair. */
  function PlainInput(): Input {
    Input(QuietGuard(), true, true, false, false, 0, 4, 0, [], [], [], (claimed: bool) => [], (t: Str) => t)
  }

  /** The first stream breaks off after "OK"; the second call says it whole. */
  function BreakingEnv(): Env {
    Env((n: nat) => false,
        (n: nat) => ModelCall([OK], if n == 0 then Failed(false) else Completed(OK, 0)),
        (round: nat, i: nat) => RejectedIntent, Failed(false), true, true, true)
  }

  lemma BreaksUnheard()
    ensures RunsAgain(PlainInput(), BreakingEnv())
  {
    hide Delta;
    var input, env := PlainInput(), BreakingEnv();
    OkIsBuffered(false);
    assert [OK][..0] == [] && Played(QuietGuard(), {}, Begin(FRESH, false), [OK])
        == Delta(QuietGuard(), {}, Begin(FRESH, false), OK);
    assert DiesSilently(env, input, FRESH, 4, 0);
  }

  /** Two model calls where the bound says one, with no repair among them. */
  method RunBeyondTheBound() returns (r: Report)
    ensures PlainInput().maxToolRounds + 1 + PlainInput().maxRegenerations == 1
    ensures r.invoked + r.repairs == 2 && r.toolRounds == 0 && r.reruns == 1
  {
    hide RunsAgain;
    hide SpeechGuarantees;
    hide AnsweredThenAborted;
    BreaksUnheard();
    r := Run(BreakingEnv(), PlainInput());
    CallsExceedIff(PlainInput(), r);
  }

  lemma OkIsBuffered(offered: bool)
    ensures var begun := Begin(FRESH, offered);
      Delta(QuietGuard(), {}, begun, OK) == begun.(producedText := true, assembler := Some(State(OK, None)))
  {
    hide Scan;
    NothingToCut(QuietGuard().listed);
    assert [] + OK == OK;
    assert Drain(QuietGuard().listed, 12, State(OK, None)) == Fed([], State(OK, None));
  }

  lemma OkIsHeld()
    ensures var played := Begin(FRESH, true).(producedText := true, assembler := Some(State(OK, None)));
      End(QuietGuard(), {}, played, 0).held == [OK] && End(QuietGuard(), {}, played, 0).released == []
  {
    var g := QuietGuard();
    var played := Begin(FRESH, true).(producedText := true, assembler := Some(State(OK, None)));
    OkIsOneSegment();
    OkIsAccepted(played.(assembler := Some(START)));
    hide Accept;
    assert [OK][..0] == [] && AcceptAll(g, {}, played.(assembler := Some(START)), [OK])
        == Accept(g, {}, played.(assembler := Some(START)), OK);
  }

  lemma OkIsOneSegment()
    ensures Flush(State(OK, None)) == [OK]
  {
    assert Collapse(OK) == OK by { assert OK[1..] == [75] && [75][1..] == []; }
    TrimTrims(OK);
  }

  lemma OkIsAccepted(st: Stream)
    requires st.released == [] && st.held == [] && !st.revoked && !st.capped && st.roundHeld
    ensures Accept(QuietGuard(), {}, st, OK).held == [OK] && Accept(QuietGuard(), {}, st, OK).released == []
  {
    TrimTrims(OK);
    assert st.released + st.held == [] && Join([]) == [] && [] + [OK] == [OK];
  }

  lemma NothingToCut(listed: WordTable)
    ensures Scan(listed, OK, 0) == NoBoundary
  {
    assert NextMark(OK, 2) == 2;
    assert NextMark(OK, 1) == 2;
    assert NextMark(OK, 0) == 2;
  }
}
