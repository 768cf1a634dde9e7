/** What a caller can have heard: always clean, always within the channel's
    limit, and always a gap-free prefix of one model round. */
module SpeechSafety {
  import opened Common
  import opened Text
  import opened Assembler
  import opened Speech

  // ---- how long what is said can get ------------------------------------------

  lemma {:induction false} JoinLength(parts: seq<Str>)
    ensures |Join(parts)| == TotalLength(parts) + if parts == [] then 0 else |parts| - 1
  {
    if |parts| > 1 { JoinLength(parts[1..]); } else if |parts| == 1 { assert parts[1..] == []; }
  }

  lemma {:induction false} TotalOfSum(a: seq<Str>, b: seq<Str>)
    ensures TotalLength(a + b) == TotalLength(a) + TotalLength(b)
  {
    if a == [] {
      assert a + b == b;
    } else {
      TailOfSum(a, b);
      TotalOfSum(a[1..], b);
    }
  }

  lemma TotalOfOne(t: Str)
    ensures TotalLength([t]) == |t|
  {
    assert [t][1..] == [];
  }

  /** One unit too many: two segments, one stripped to nothing, the other as long as
      the whole reply may be. */
  predicate OneOver(g: Guard, parts: seq<Str>) {
    |parts| == 2
      && ((parts[0] == [] && |parts[1]| == g.maxReplyChars) || (parts[1] == [] && |parts[0]| == g.maxReplyChars))
  }

  ghost predicate WithinLimit(g: Guard, st: Stream) {
    |Join(st.released + st.held)| <= g.maxReplyChars || OneOver(g, st.released + st.held)
  }

  /** The limit is exceeded in that one case only, and then by one unit. */
  lemma ExceededIffOneOver(g: Guard, st: Stream)
    requires WithinLimit(g, st)
    ensures |Join(st.released + st.held)| <= g.maxReplyChars + 1
    ensures |Join(st.released + st.held)| > g.maxReplyChars <==> OneOver(g, st.released + st.held)
    ensures NoneEmpty(st.released + st.held) ==> |Join(st.released + st.held)| <= g.maxReplyChars
  {
    hide Join;
    var parts := st.released + st.held;
    JoinLength(parts);
    if OneOver(g, parts) {
      assert parts == [parts[0]] + [parts[1]];
      TotalOfSum([parts[0]], [parts[1]]);
      TotalOfOne(parts[0]);
      TotalOfOne(parts[1]);
    }
  }

  lemma SaidWithinLimit(g: Guard, st: Stream, after: Stream, text: Str)
    requires WithinLimit(g, st) && Fits(g, Join(st.released + st.held), text)
    requires (after.released == st.released && after.held == st.held + [text])
             || (after.released == st.released + [text] && after.held == st.held)
    ensures WithinLimit(g, after)
  {
    hide Join;
    hide TotalLength;
    var parts, more := st.released + st.held, after.released + after.held;
    JoinLength(parts);
    JoinLength(more);
    TotalOfOne(text);
    TotalOfSum(st.released, st.held);
    TotalOfSum(after.released, after.held);
    TotalOfSum(st.released, [text]);
    TotalOfSum(st.held, [text]);
    if |parts| == 1 { TotalOfOne(parts[0]); assert parts == [parts[0]]; }
  }

  lemma RetractWithinLimit(g: Guard, st: Stream, after: Stream)
    requires WithinLimit(g, st) && after.released == st.released && (after.held == st.held || after.held == [])
    ensures WithinLimit(g, after)
  {
    hide Join;
    hide TotalLength;
    if after.held != st.held {
      ExceededIffOneOver(g, st);
      JoinLength(st.released + st.held);
      JoinLength(after.released + after.held);
      TotalOfSum(st.released, st.held);
      assert after.released + after.held == st.released;
      NothingIsShort(st.released);
    }
  }

  lemma NothingIsShort(parts: seq<Str>)
    ensures parts == [] ==> TotalLength(parts) == 0
  {
  }

  lemma AcceptWithinLimit(g: Guard, permitted: set<ClaimKind>, st: Stream, candidate: Str)
    requires WithinLimit(g, st)
    ensures WithinLimit(g, Accept(g, permitted, st, candidate))
  {
    hide Join;
    hide OneOver;
    hide WithinLimit;
    hide Spoken;
    hide SegmentOk;
    hide Fits;
    var after := Accept(g, permitted, st, candidate);
    if !st.revoked && !st.capped && SegmentOk(g, Join(st.released + st.held), candidate, permitted)
       && Fits(g, Join(st.released + st.held), Spoken(g, candidate)) {
      SaidWithinLimit(g, st, after, Spoken(g, candidate));
    } else {
      RetractWithinLimit(g, st, after);
    }
  }

  lemma {:induction false} AcceptAllWithinLimit(g: Guard, permitted: set<ClaimKind>, st: Stream, candidates: seq<Str>)
    requires WithinLimit(g, st)
    ensures WithinLimit(g, AcceptAll(g, permitted, st, candidates))
  {
    hide Accept;
    hide WithinLimit;
    if candidates != [] {
      var before := candidates[..|candidates| - 1];
      AcceptAllWithinLimit(g, permitted, st, before);
      AcceptWithinLimit(g, permitted, AcceptAll(g, permitted, st, before), candidates[|candidates| - 1]);
    }
  }

  lemma SameSegments(g: Guard, a: Stream, b: Stream)
    requires WithinLimit(g, a) && a.released + a.held == b.released + b.held
    ensures WithinLimit(g, b)
  {
  }

  /** After every call, on any channel and whatever stripping does, what is heard and
      held is at most one unit over the limit. */
  lemma EveryCallWithinLimit(g: Guard, st: Stream, op: Op)
    requires WithinLimit(g, st)
    ensures WithinLimit(g, Apply(g, st, op))
  {
    hide WithinLimit;
    hide AcceptAll;
    hide Feed;
    hide Flush;
    match op
    case BeginRound(offersTools) => SameSegments(g, st, Begin(st, offersTools));
    case OnDelta(permitted, text) =>
      if !st.revoked && st.assembler.Some? {
        SameSegments(g, st, Ready(g, st, op));
        AcceptAllWithinLimit(g, permitted, Ready(g, st, op), Judged(g, st, op));
      }
    case EndRound(permitted, toolCalls) =>
      if !st.revoked && st.assembler.Some? && !(toolCalls > 0 && st.roundHeld) {
        SameSegments(g, st, Ready(g, st, op));
        AcceptAllWithinLimit(g, permitted, Ready(g, st, op), Judged(g, st, op));
        SameSegments(g, AcceptAll(g, permitted, Ready(g, st, op), Judged(g, st, op)), Apply(g, st, op));
      } else {
        RetractWithinLimit(g, st, Apply(g, st, op));
      }
    case FailRound => RetractWithinLimit(g, st, Fail(st));
    case DoCommit => SameSegments(g, st, Commit(st));
    case Revoke(reason, retract) => RetractWithinLimit(g, st, RevokeAs(st, reason, retract));
    case Truncate(why) => RetractWithinLimit(g, st, CutShort(st, why, StreamFailed));
  }

  lemma {:induction false} EveryRunWithinLimit(g: Guard, ops: seq<Op>)
    ensures WithinLimit(g, RunOps(g, ops))
  {
    hide Apply;
    if ops != [] {
      EveryRunWithinLimit(g, ops[..|ops| - 1]);
      EveryCallWithinLimit(g, RunOps(g, ops[..|ops| - 1]), ops[|ops| - 1]);
    }
  }

  /** It does happen: a segment that strips to nothing, then one of exactly the limit. */
  lemma EmptySegmentExceedsTheLimit(g: Guard, permitted: set<ClaimKind>, raw: Str, text: Str)
    requires !g.supportsMarkdown && g.looksMarkdown(raw) && g.rewrite(raw) == [] && !g.looksMarkdown(text)
    requires raw != [] && Trimmed(raw) && text != [] && Trimmed(text) && |text| == g.maxReplyChars
    requires Clean(g, raw, permitted) && Clean(g, text, permitted)
    ensures var st := Accept(g, permitted, Accept(g, permitted, FRESH, raw), text);
            st.released == [[], text] && |Join(st.released + st.held)| == g.maxReplyChars + 1
  {
    TrimTrims(raw);
    TrimTrims(text);
    TrimTrims([]);
    assert Join([[]]) == [];
    assert [[], text][1..] == [text];
    assert [[], text] + [] == [[], text];
  }

  // ---- stripping markdown after the guard ran --------------------------------

  /** The spoken form of `candidate` says something, and is clean after `prior`. */
  predicate Keeps(g: Guard, prior: Str, candidate: Str, permitted: set<ClaimKind>) {
    Spoken(g, candidate) != [] && Clean(g, Glue(prior, Spoken(g, candidate)), permitted)
  }

  /** The validator judges the text before markdown is stripped from it; this segment
      is one where that makes no difference. */
  predicate StripKeeps(g: Guard, prior: Str, candidate: Str, permitted: set<ClaimKind>) {
    SegmentOk(g, prior, candidate, permitted) ==> Keeps(g, prior, candidate, permitted)
  }

  /** No segment of a model call is spoiled by stripping, each judged after those before it. */
  ghost predicate CallKeeps(g: Guard, all: seq<Str>, permitted: set<ClaimKind>) {
    forall k :: 0 <= k < |all| ==> StripKeeps(g, Join(SpokenAll(g, all[..k])), all[k], permitted)
  }

  /** Nothing is stripped from such a segment. */
  predicate Plain(g: Guard, candidate: Str) { g.supportsMarkdown || !g.looksMarkdown(candidate) }

  /** Where no segment looks like markdown, stripping spoils none. */
  lemma PlainCallKeeps(g: Guard, all: seq<Str>, permitted: set<ClaimKind>)
    requires AllSayable(all) && forall k :: 0 <= k < |all| ==> Plain(g, all[k])
    ensures CallKeeps(g, all, permitted)
  {
    hide Clean;
    forall k | 0 <= k < |all| ensures StripKeeps(g, Join(SpokenAll(g, all[..k])), all[k], permitted) {
      PlainSaysItself(g, all[..k]);
      JoinSayable(all[..k]);
      TrimTrims(Join(all[..k]));
      TrimTrims(all[k]);
    }
  }

  lemma PlainSaysItself(g: Guard, said: seq<Str>)
    requires AllSayable(said) && forall k :: 0 <= k < |said| ==> Plain(g, said[k])
    ensures SpokenAll(g, said) == said
  {
    forall k | 0 <= k < |said| ensures Spoken(g, said[k]) == said[k] { TrimTrims(said[k]); }
  }

  function Ascii(s: string): Str {
    seq(|s|, i requires 0 <= i < |s| => (s[i] as int % 0x1_0000) as Unit)
  }

  /** It does matter: bold markers inside a leak marker hide it from the guard, and
      stripping them puts it back. The caller hears a segment that the whole-reply
      gate rejects. */
  lemma StrippingCanExposeALeak(g: Guard, permitted: set<ClaimKind>)
    requires !g.supportsMarkdown && g.maxReplyChars >= 450
    requires var raw, out := Ascii("See #**#** Rules now."), Ascii("See ## Rules now.");
      && !g.leaks(raw) && g.leaks(out) && g.claims(raw) == {} && g.looksMarkdown(raw) && g.rewrite(raw) == out
    ensures var raw, out := Ascii("See #**#** Rules now."), Ascii("See ## Rules now.");
      && var st := Accept(g, permitted, FRESH, raw);
      && st.released == [out] && NeedsRegeneration(g, Join(st.released), permitted, false)
  {
    var raw, out := Ascii("See #**#** Rules now."), Ascii("See ## Rules now.");
    assert raw[0] == 83 && raw[|raw| - 1] == 46;
    assert out[0] == 83 && out[|out| - 1] == 46;
    TrimTrims(raw);
    TrimTrims(out);
    assert Join([out]) == out;
  }

  /** And an opening code fence on a line of its own is stripped to nothing: the empty
      text counts as heard, and the gate rejects it. */
  lemma StrippingCanLeaveNothing(g: Guard, permitted: set<ClaimKind>)
    requires !g.supportsMarkdown
    requires var raw := Ascii("```typescript");
      !g.leaks(raw) && g.claims(raw) == {} && g.looksMarkdown(raw) && g.rewrite(raw) == []
    ensures var st := Accept(g, permitted, FRESH, Ascii("```typescript"));
      st.released == [[]] && NeedsRegeneration(g, Join(st.released), permitted, false)
  {
    var raw := Ascii("```typescript");
    assert raw[0] == 96 && raw[|raw| - 1] == 116;
    TrimTrims(raw);
    TrimTrims([]);
    assert Join([[]]) == [];
  }

  // ---- heard and held text is clean -------------------------------------------

  ghost predicate AllSayable(parts: seq<Str>) {
    forall k :: 0 <= k < |parts| ==> parts[k] != [] && Trimmed(parts[k])
  }

  ghost predicate Safe(g: Guard, st: Stream, permitted: set<ClaimKind>) {
    && AllSayable(st.released + st.held)
    && (st.released != [] ==> Clean(g, Join(st.released), permitted))
    && (st.held != [] ==> Clean(g, Join(st.released + st.held), permitted))
  }

  /** A round whose text is heard at once starts with nothing held. */
  ghost predicate Disciplined(st: Stream) {
    st.assembler.Some? && !st.roundHeld ==> st.held == []
  }

  lemma {:induction false} JoinSayable(parts: seq<Str>)
    requires AllSayable(parts)
    ensures Trimmed(Join(parts)) && (Join(parts) == [] <==> parts == [])
  {
    JoinEmpty(parts);
    if |parts| > 1 {
      JoinSayable(parts[1..]);
      var tail := Join(parts[1..]);
      assert Join(parts)[0] == parts[0][0] && Join(parts)[|Join(parts)| - 1] == tail[|tail| - 1];
    }
  }

  lemma {:induction false} ClaimsOnlyGrow(actions: seq<Action>, more: seq<Action>)
    ensures PermittedClaims(actions) <= PermittedClaims(actions + more)
  {
    if more == [] {
      assert actions + more == actions;
    } else {
      ClaimsOnlyGrow(actions, more[..|more| - 1]);
      assert (actions + more)[..|actions + more| - 1] == actions + more[..|more| - 1];
    }
  }

  /** What was clean stays clean as further actions are verified. */
  lemma MoreActionsStaySafe(g: Guard, st: Stream, actions: seq<Action>, more: seq<Action>)
    requires Safe(g, st, PermittedClaims(actions))
    ensures Safe(g, st, PermittedClaims(actions + more))
  {
    hide PermittedClaims;
    ClaimsOnlyGrow(actions, more);
  }

  /** Retracting, or leaving the segments alone, keeps what is left safe. */
  lemma StopSafe(g: Guard, st: Stream, after: Stream, permitted: set<ClaimKind>)
    requires Safe(g, st, permitted)
    requires after.released == st.released && (after.held == st.held || after.held == [])
    ensures Safe(g, after, permitted)
  {
    hide Clean;
    forall k | 0 <= k < |st.released| ensures st.released[k] != [] && Trimmed(st.released[k]) {
      assert (st.released + st.held)[k] == st.released[k];
    }
    assert st.released + [] == st.released;
  }

  /** The segment passes the validator and fits, and so is emitted. */
  predicate Takes(g: Guard, permitted: set<ClaimKind>, st: Stream, candidate: Str) {
    var prior := Join(st.released + st.held);
    !st.revoked && !st.capped && SegmentOk(g, prior, candidate, permitted) && Fits(g, prior, Spoken(g, candidate))
  }

  /** Exactly when one more segment takes the reply over the limit: it is emitted, all that
      was said before it stripped to nothing, and its spoken form has just the limit's
      length. The guard takes an empty prior text for a reply that has not begun. */
  lemma ExceedsIff(g: Guard, permitted: set<ClaimKind>, st: Stream, candidate: Str)
    requires |Join(st.released + st.held)| <= g.maxReplyChars && (!st.roundHeld ==> st.held == [])
    ensures var after := Accept(g, permitted, st, candidate);
      |Join(after.released + after.held)| > g.maxReplyChars <==>
        && Takes(g, permitted, st, candidate)
        && st.released + st.held != [] && Join(st.released + st.held) == []
        && |Spoken(g, candidate)| == g.maxReplyChars
  {
    hide Join;
    hide Spoken;
    hide SegmentOk;
    var after := Accept(g, permitted, st, candidate);
    var parts, text := st.released + st.held, Spoken(g, candidate);
    if Takes(g, permitted, st, candidate) {
      assert after.released + after.held == parts + [text];
      JoinLength(parts);
      JoinLength(parts + [text]);
      TotalOfSum(parts, [text]);
      TotalOfOne(text);
      NothingIsShort(parts);
    } else {
      RetractedIsShorter(st, after);
    }
  }

  lemma RetractedIsShorter(st: Stream, after: Stream)
    requires after.released == st.released && (after.held == st.held || after.held == [])
    ensures |Join(after.released + after.held)| <= |Join(st.released + st.held)|
  {
    hide Join;
    assert after.held == [] ==> after.released + after.held == st.released;
    JoinLength(st.released);
    JoinLength(st.released + st.held);
    TotalOfSum(st.released, st.held);
    NothingIsShort(st.released);
  }

  /** An emitted segment is spoiled by stripping in none of what the listener gets. */
  predicate KeptIfTaken(g: Guard, permitted: set<ClaimKind>, st: Stream, candidate: Str) {
    Takes(g, permitted, st, candidate) ==> Keeps(g, Join(st.released + st.held), candidate, permitted)
  }

  lemma OneMoreSafeIff(g: Guard, parts: seq<Str>, candidate: Str, permitted: set<ClaimKind>)
    requires AllSayable(parts)
    ensures (AllSayable(parts + [Spoken(g, candidate)]) && Clean(g, Join(parts + [Spoken(g, candidate)]), permitted))
            <==> Keeps(g, Join(parts), candidate, permitted)
  {
    hide Clean;
    hide Join;
    var text := Spoken(g, candidate);
    TrimTrims(candidate);
    TrimTrims(g.rewrite(Trim(candidate)));
    assert Trimmed(text);
    hide Spoken;
    hide Trimmed;
    assert (parts + [text])[|parts|] == text;
    assert forall k :: 0 <= k < |parts| ==> (parts + [text])[k] == parts[k];
    if text != [] {
      JoinEmpty(parts);
      JoinOneMore(parts, text);
      assert Join(parts + [text]) == Glue(Join(parts), text);
    }
  }

  /** Exactly when: offering one more segment to a clean stream leaves it clean if and
      only if the segment is not emitted, or its spoken form says something and is
      clean after everything said so far. */
  lemma AcceptSafeIff(g: Guard, permitted: set<ClaimKind>, st: Stream, candidate: Str)
    requires Safe(g, st, permitted) && (!st.roundHeld ==> st.held == [])
    ensures Safe(g, Accept(g, permitted, st, candidate), permitted) <==> KeptIfTaken(g, permitted, st, candidate)
    ensures var after := Accept(g, permitted, st, candidate);
      after.roundHeld == st.roundHeld && (!after.roundHeld ==> after.held == [])
  {
    hide Clean;
    hide Join;
    hide Spoken;
    hide SegmentOk;
    hide Fits;
    hide Keeps;
    hide AllSayable;
    var after := Accept(g, permitted, st, candidate);
    var parts, text := st.released + st.held, Spoken(g, candidate);
    if Takes(g, permitted, st, candidate) {
      OneMoreSafeIff(g, parts, candidate, permitted);
      assert st.roundHeld ==> after.released + after.held == parts + [text];
      assert !st.roundHeld ==>
        parts == st.released && after.released == parts + [text] && after.released + after.held == parts + [text];
    } else {
      StopSafe(g, st, after, permitted);
    }
  }

  /** Each segment in turn is kept if it is taken. */
  ghost predicate AllKept(g: Guard, permitted: set<ClaimKind>, st: Stream, candidates: seq<Str>) {
    candidates == []
    || var before := candidates[..|candidates| - 1];
       AllKept(g, permitted, st, before)
       && KeptIfTaken(g, permitted, AcceptAll(g, permitted, st, before), candidates[|candidates| - 1])
  }

  /** The stream is clean after the first `n` of the segments, for each `n`. */
  ghost predicate SafeThroughout(g: Guard, permitted: set<ClaimKind>, st: Stream, candidates: seq<Str>) {
    forall n :: 0 <= n <= |candidates| ==> Safe(g, AcceptAll(g, permitted, st, candidates[..n]), permitted)
  }

  /** Offering any number of segments: what the listener has is clean at every moment
      exactly when no emitted segment is spoiled by stripping. */
  lemma {:induction false} SafeThroughoutIff(g: Guard, permitted: set<ClaimKind>, st: Stream, candidates: seq<Str>)
    requires Safe(g, st, permitted) && (!st.roundHeld ==> st.held == [])
    ensures SafeThroughout(g, permitted, st, candidates) <==> AllKept(g, permitted, st, candidates)
    ensures var after := AcceptAll(g, permitted, st, candidates);
      && (AllKept(g, permitted, st, candidates) ==> Safe(g, after, permitted))
      && after.roundHeld == st.roundHeld && (!after.roundHeld ==> after.held == [])
  {
    hide Safe;
    hide Accept;
    hide KeptIfTaken;
    assert candidates[..|candidates|] == candidates;
    if candidates != [] {
      var before := candidates[..|candidates| - 1];
      SafeThroughoutIff(g, permitted, st, before);
      LessSafeThroughout(g, permitted, st, candidates);
      if AllKept(g, permitted, st, before) {
        AcceptSafeIff(g, permitted, AcceptAll(g, permitted, st, before), candidates[|candidates| - 1]);
      } else {
        KeepsRoundHeld(g, permitted, AcceptAll(g, permitted, st, before), candidates[|candidates| - 1]);
      }
    }
  }

  lemma KeepsRoundHeld(g: Guard, permitted: set<ClaimKind>, st: Stream, candidate: Str)
    requires !st.roundHeld ==> st.held == []
    ensures var after := Accept(g, permitted, st, candidate);
      after.roundHeld == st.roundHeld && (!after.roundHeld ==> after.held == [])
  {
    hide Spoken;
    hide SegmentOk;
    hide Join;
    hide Fits;
  }

  lemma LessSafeThroughout(g: Guard, permitted: set<ClaimKind>, st: Stream, candidates: seq<Str>)
    requires candidates != []
    ensures SafeThroughout(g, permitted, st, candidates)
       <==> SafeThroughout(g, permitted, st, candidates[..|candidates| - 1])
            && Safe(g, AcceptAll(g, permitted, st, candidates), permitted)
  {
    hide Safe;
    hide AcceptAll;
    var before := candidates[..|candidates| - 1];
    assert candidates[..|candidates|] == candidates;
    forall n | 0 <= n <= |before| ensures candidates[..n] == before[..n] {}
  }

  /** Safety reads only the segments. */
  lemma SafeReadsSegments(g: Guard, a: Stream, b: Stream, permitted: set<ClaimKind>)
    requires Safe(g, a, permitted) && a.released == b.released && a.held == b.held
    ensures Safe(g, b, permitted)
  {
  }

  /** The stream as it is when a call starts to offer it segments. */
  function Ready(g: Guard, st: Stream, op: Op): Stream {
    match op
    case OnDelta(_, text) =>
      if st.assembler.None? then st
      else st.(producedText := st.producedText || text != [],
               assembler := Some(Feed(g.listed, g.minSegmentChars, st.assembler.value, text).state))
    case EndRound(_, _) => st.(assembler := Some(START))
    case _ => st
  }

  /** The segments a call offers to the stream. */
  function Judged(g: Guard, st: Stream, op: Op): seq<Str> {
    match op
    case OnDelta(_, text) =>
      if st.revoked || st.assembler.None? then [] else Feed(g.listed, g.minSegmentChars, st.assembler.value, text).out
    case EndRound(_, toolCalls) =>
      if st.revoked || st.assembler.None? || (toolCalls > 0 && st.roundHeld) then [] else Flush(st.assembler.value)
    case _ => []
  }

  /** Every call keeps heard and held text clean under the actions verified so far,
      when no segment it emits is spoiled by stripping. */
  lemma EveryCallSafe(g: Guard, st: Stream, op: Op, permitted: set<ClaimKind>)
    requires Safe(g, st, permitted) && Disciplined(st)
    requires (op.OnDelta? || op.EndRound?) ==> op.permitted == permitted
    requires op.BeginRound? && !op.offersTools ==> st.held == []
    requires AllKept(g, permitted, Ready(g, st, op), Judged(g, st, op))
    ensures Safe(g, Apply(g, st, op), permitted) && Disciplined(Apply(g, st, op))
  {
    hide Safe;
    hide AllKept;
    hide AcceptAll;
    hide Feed;
    hide Flush;
    match op
    case BeginRound(offersTools) => SafeReadsSegments(g, st, Begin(st, offersTools), permitted);
    case OnDelta(_, text) =>
      if !st.revoked && st.assembler.Some? { JudgedSafe(g, st, op, permitted); }
    case EndRound(_, toolCalls) =>
      if !st.revoked && st.assembler.Some? && !(toolCalls > 0 && st.roundHeld) {
        JudgedSafe(g, st, op, permitted);
        SafeReadsSegments(g, AcceptAll(g, permitted, Ready(g, st, op), Judged(g, st, op)), Apply(g, st, op), permitted);
      } else {
        StopSafe(g, st, Apply(g, st, op), permitted);
      }
    case FailRound => StopSafe(g, st, Fail(st), permitted);
    case DoCommit => CommitSafe(g, st, permitted);
    case Revoke(reason, retract) => StopSafe(g, st, RevokeAs(st, reason, retract), permitted);
    case Truncate(why) => StopSafe(g, st, CutShort(st, why, StreamFailed), permitted);
  }

  lemma JudgedSafe(g: Guard, st: Stream, op: Op, permitted: set<ClaimKind>)
    requires Safe(g, st, permitted) && (!st.roundHeld ==> st.held == [])
    requires AllKept(g, permitted, Ready(g, st, op), Judged(g, st, op))
    ensures var after := AcceptAll(g, permitted, Ready(g, st, op), Judged(g, st, op));
      Safe(g, after, permitted) && after.roundHeld == st.roundHeld && (!after.roundHeld ==> after.held == [])
  {
    hide Safe;
    hide AllKept;
    hide AcceptAll;
    SafeReadsSegments(g, st, Ready(g, st, op), permitted);
    SafeThroughoutIff(g, permitted, Ready(g, st, op), Judged(g, st, op));
  }

  lemma CommitSafe(g: Guard, st: Stream, permitted: set<ClaimKind>)
    requires Safe(g, st, permitted)
    ensures Safe(g, Commit(st), permitted)
  {
    assert (st.released + st.held) + [] == st.released + st.held;
  }

  /** Clean heard text passes the whole-reply gate. */
  lemma HeardPassesTheGate(g: Guard, st: Stream, permitted: set<ClaimKind>)
    requires Safe(g, st, permitted) && st.released != []
    ensures !NeedsRegeneration(g, Join(st.released), permitted, false)
  {
    hide Clean;
    StopSafe(g, st, st.(held := []), permitted);
    assert st.released + [] == st.released;
    JoinSayable(st.released);
    TrimTrims(Join(st.released));
  }

  // ---- heard text is a prefix of one round ---------------------------------

  ghost predicate Stopped(st: Stream) { st.revoked || st.capped }

  /** The stream holds, or has released, a gap-free prefix of what `candidates` say. */
  ghost predicate RoundPrefix(g: Guard, st: Stream, candidates: seq<Str>) {
    var said := SpokenAll(g, candidates);
    if st.roundHeld then
      st.released == [] && st.held <= said && (!Stopped(st) ==> st.held == said)
    else
      st.held == [] && st.released <= said && (!Stopped(st) ==> st.released == said)
  }

  lemma SpokenOneMore(g: Guard, candidates: seq<Str>, candidate: Str)
    ensures SpokenAll(g, candidates + [candidate]) == SpokenAll(g, candidates) + [Spoken(g, candidate)]
  {
  }

  lemma AcceptPrefix(g: Guard, permitted: set<ClaimKind>, st: Stream, before: seq<Str>, candidate: Str)
    requires RoundPrefix(g, st, before)
    ensures var after := Accept(g, permitted, st, candidate);
      RoundPrefix(g, after, before + [candidate]) && after.roundHeld == st.roundHeld
  {
    hide Spoken;
    hide SegmentOk;
    hide Join;
    hide Fits;
    hide SpokenAll;
    SpokenOneMore(g, before, candidate);
  }

  lemma {:induction false} AcceptAllPrefix(g: Guard, permitted: set<ClaimKind>, st: Stream, before: seq<Str>,
                                           candidates: seq<Str>)
    requires RoundPrefix(g, st, before)
    ensures var after := AcceptAll(g, permitted, st, candidates);
      RoundPrefix(g, after, before + candidates) && after.roundHeld == st.roundHeld
    decreases |candidates|
  {
    hide RoundPrefix;
    hide Accept;
    if candidates == [] {
      assert before + candidates == before;
    } else {
      var init, last := candidates[..|candidates| - 1], candidates[|candidates| - 1];
      AcceptAllPrefix(g, permitted, st, before, init);
      AcceptPrefix(g, permitted, AcceptAll(g, permitted, st, init), before + init, last);
      assert before + candidates == before + init + [last];
    }
  }

  /** A round in progress: its deltas so far went through the assembler, and
      what was accepted of them is a prefix. */
  ghost predicate InRound(g: Guard, st: Stream, deltas: seq<Str>) {
    var fed := FeedAll(g.listed, g.minSegmentChars, START, deltas);
    && RoundPrefix(g, st, fed.out)
    && (st.assembler.None? ==> st.revoked)
    && (st.assembler.Some? ==> st.assembler.value == fed.state && !st.revoked)
  }

  lemma RoundStarts(g: Guard, st: Stream, offersTools: bool)
    requires st.released == [] && st.held == [] && !st.revoked
    ensures InRound(g, Begin(st, offersTools), [])
  {
  }

  lemma {:induction false} FeedOneMore(listed: WordTable, min: nat, st: State, deltas: seq<Str>, text: Str)
    ensures var before := FeedAll(listed, min, st, deltas);
      var last := Feed(listed, min, before.state, text);
      FeedAll(listed, min, st, deltas + [text]) == Fed(before.out + last.out, last.state)
    decreases |deltas|
  {
    hide Feed;
    if deltas == [] {
      assert deltas + [text] == [text];
    } else {
      assert (deltas + [text])[1..] == deltas[1..] + [text];
      FeedOneMore(listed, min, Feed(listed, min, st, deltas[0]).state, deltas[1..], text);
    }
  }

  lemma AcceptKeepsAssembler(g: Guard, permitted: set<ClaimKind>, st: Stream, candidate: Str)
    ensures var after := Accept(g, permitted, st, candidate);
      (after.revoked == st.revoked && after.assembler == st.assembler) || (after.revoked && after.assembler.None?)
  {
    hide Spoken;
    hide SegmentOk;
    hide Join;
    hide Fits;
  }

  lemma {:induction false} AcceptAllKeepsAssembler(g: Guard, permitted: set<ClaimKind>, st: Stream,
                                                   candidates: seq<Str>)
    ensures var after := AcceptAll(g, permitted, st, candidates);
      (after.revoked == st.revoked && after.assembler == st.assembler) || (after.revoked && after.assembler.None?)
  {
    hide Accept;
    if candidates != [] {
      AcceptAllKeepsAssembler(g, permitted, st, candidates[..|candidates| - 1]);
      AcceptKeepsAssembler(g, permitted, AcceptAll(g, permitted, st, candidates[..|candidates| - 1]),
                           candidates[|candidates| - 1]);
    }
  }

  lemma RoundGoesOn(g: Guard, permitted: set<ClaimKind>, st: Stream, deltas: seq<Str>, text: Str)
    requires InRound(g, st, deltas)
    ensures InRound(g, Delta(g, permitted, st, text), deltas + [text])
    ensures Delta(g, permitted, st, text).roundHeld == st.roundHeld
  {
    hide AcceptAll;
    hide Feed;
    hide FeedAll;
    FeedOneMore(g.listed, g.minSegmentChars, START, deltas, text);
    var before := FeedAll(g.listed, g.minSegmentChars, START, deltas);
    var fed := Feed(g.listed, g.minSegmentChars, before.state, text);
    if st.revoked {
      assert SpokenAll(g, before.out) <= SpokenAll(g, before.out + fed.out);
    } else {
      var ready := st.(producedText := st.producedText || text != [], assembler := Some(fed.state));
      AcceptAllPrefix(g, permitted, ready, before.out, fed.out);
      AcceptAllKeepsAssembler(g, permitted, ready, fed.out);
    }
  }

  /** Every segment of a model round, in order. */
  function Candidates(g: Guard, deltas: seq<Str>, flushed: bool): seq<Str> {
    var fed := FeedAll(g.listed, g.minSegmentChars, START, deltas);
    if flushed then fed.out + Flush(fed.state) else fed.out
  }

  /** The round completed without a tool call. */
  lemma RoundEnds(g: Guard, permitted: set<ClaimKind>, st: Stream, deltas: seq<Str>)
    requires InRound(g, st, deltas)
    ensures var after := End(g, permitted, st, 0);
      RoundPrefix(g, after, Candidates(g, deltas, true)) && after.roundHeld == st.roundHeld
  {
    hide AcceptAll;
    hide FeedAll;
    hide Flush;
    var fed := FeedAll(g.listed, g.minSegmentChars, START, deltas);
    if st.revoked {
      assert SpokenAll(g, fed.out) <= SpokenAll(g, fed.out + Flush(fed.state));
    } else {
      AcceptAllPrefix(g, permitted, st.(assembler := Some(START)), fed.out, Flush(fed.state));
    }
  }

  // ---- a whole round is clean -------------------------------------------------

  /** Clean, if stripping spoils no segment of the call. */
  ghost predicate SafeIfKept(g: Guard, st: Stream, all: seq<Str>, permitted: set<ClaimKind>) {
    CallKeeps(g, all, permitted) ==> Safe(g, st, permitted)
  }

  /** During a round, what a segment is judged after is what the call has said so far. */
  lemma {:induction false} RoundIsKept(g: Guard, permitted: set<ClaimKind>, st: Stream, before: seq<Str>,
                                       candidates: seq<Str>)
    requires RoundPrefix(g, st, before) && CallKeeps(g, before + candidates, permitted)
    ensures AllKept(g, permitted, st, candidates)
    decreases |candidates|
  {
    hide StripKeeps;
    hide Accept;
    if candidates != [] {
      var all := before + candidates;
      var init, last := candidates[..|candidates| - 1], candidates[|candidates| - 1];
      assert all == (before + init) + [last];
      LessIsKept(g, before + init, [last], permitted);
      RoundIsKept(g, permitted, st, before, init);
      AcceptAllPrefix(g, permitted, st, before, init);
      LastIsKept(g, permitted, AcceptAll(g, permitted, st, init), before + init, last);
    }
  }

  lemma LessIsKept(g: Guard, a: seq<Str>, b: seq<Str>, permitted: set<ClaimKind>)
    requires CallKeeps(g, a + b, permitted)
    ensures CallKeeps(g, a, permitted)
  {
    hide StripKeeps;
    forall k | 0 <= k < |a| ensures StripKeeps(g, Join(SpokenAll(g, a[..k])), a[k], permitted) {
      assert (a + b)[k] == a[k] && (a + b)[..k] == a[..k];
    }
  }

  lemma LastIsKept(g: Guard, permitted: set<ClaimKind>, st: Stream, before: seq<Str>, last: Str)
    requires RoundPrefix(g, st, before) && CallKeeps(g, before + [last], permitted)
    ensures KeptIfTaken(g, permitted, st, last)
  {
    hide Keeps;
    hide SegmentOk;
    hide Fits;
    hide SpokenAll;
    hide Join;
    var all := before + [last];
    assert all[|before|] == last && all[..|before|] == before;
    assert StripKeeps(g, Join(SpokenAll(g, before)), last, permitted);
    assert !Stopped(st) ==> st.released + st.held == SpokenAll(g, before);
  }

  lemma {:induction false} FeedAllPrefix(listed: WordTable, min: nat, st: State, a: seq<Str>, b: seq<Str>)
    ensures FeedAll(listed, min, st, a).out <= FeedAll(listed, min, st, a + b).out
    decreases |b|
  {
    hide Feed;
    if b == [] {
      assert a + b == a;
    } else {
      assert a + b == (a + b[..|b| - 1]) + [b[|b| - 1]];
      FeedAllPrefix(listed, min, st, a, b[..|b| - 1]);
      FeedOneMore(listed, min, st, a + b[..|b| - 1], b[|b| - 1]);
    }
  }

  /** One more delta of a call. */
  lemma DeltaStaysSafe(g: Guard, permitted: set<ClaimKind>, st: Stream, deltas: seq<Str>, i: nat)
    requires i < |deltas| && InRound(g, st, deltas[..i])
    requires SafeIfKept(g, st, Candidates(g, deltas, true), permitted)
    ensures SafeIfKept(g, Delta(g, permitted, st, deltas[i]), Candidates(g, deltas, true), permitted)
  {
    hide AcceptAll;
    hide Feed;
    hide FeedAll;
    hide Flush;
    hide Safe;
    hide CallKeeps;
    hide AllKept;
    var all := Candidates(g, deltas, true);
    if CallKeeps(g, all, permitted) && !st.revoked {
      var before := FeedAll(g.listed, g.minSegmentChars, START, deltas[..i]);
      var op := Op.OnDelta(permitted, deltas[i]);
      FeedOneMore(g.listed, g.minSegmentChars, START, deltas[..i], deltas[i]);
      FeedAllPrefix(g.listed, g.minSegmentChars, START, deltas[..i] + [deltas[i]], deltas[i + 1..]);
      assert deltas[..i] + [deltas[i]] + deltas[i + 1..] == deltas;
      var soFar := before.out + Judged(g, st, op);
      assert soFar <= all && all == soFar + all[|soFar|..];
      LessIsKept(g, soFar, all[|soFar|..], permitted);
      RoundIsKept(g, permitted, Ready(g, st, op), before.out, Judged(g, st, op));
      RoundIsDisciplined(g, st, before.out);
      EveryCallSafe(g, st, op, permitted);
    }
  }

  lemma RoundIsDisciplined(g: Guard, st: Stream, candidates: seq<Str>)
    requires RoundPrefix(g, st, candidates)
    ensures !st.roundHeld ==> st.held == []
  {
  }

  /** The end of a call without tool calls. */
  lemma EndStaysSafe(g: Guard, permitted: set<ClaimKind>, st: Stream, deltas: seq<Str>)
    requires InRound(g, st, deltas) && SafeIfKept(g, st, Candidates(g, deltas, true), permitted)
    ensures SafeIfKept(g, End(g, permitted, st, 0), Candidates(g, deltas, true), permitted)
  {
    hide AcceptAll;
    hide FeedAll;
    hide Flush;
    hide Safe;
    hide CallKeeps;
    hide AllKept;
    if CallKeeps(g, Candidates(g, deltas, true), permitted) && !st.revoked {
      var before := FeedAll(g.listed, g.minSegmentChars, START, deltas);
      var op := Op.EndRound(permitted, 0);
      RoundIsKept(g, permitted, Ready(g, st, op), before.out, Judged(g, st, op));
      RoundIsDisciplined(g, st, before.out);
      EveryCallSafe(g, st, op, permitted);
    }
  }

  /** Where none of the heard segments looks like markdown, a gap-free prefix of what a
      model call says is, word for word, a prefix of the whitespace-normalized text it
      wrote; and all of it is all of that text. */
  lemma HeardIsWhatTheModelWrote(g: Guard, said: seq<Str>, deltas: seq<Str>)
    requires said <= SpokenAll(g, Candidates(g, deltas, true))
    requires forall k :: 0 <= k < |said| ==> Plain(g, Candidates(g, deltas, true)[k])
    ensures Join(said) <= Normalize(Flat(deltas))
    ensures |said| == |Candidates(g, deltas, true)| ==> Join(said) == Normalize(Flat(deltas))
  {
    hide Join;
    hide Normalize;
    hide Candidates;
    var all := Candidates(g, deltas, true);
    CandidatesAreTrimmed(g, deltas);
    PlainSaysItself(g, all[..|said|]);
    assert said == SpokenAll(g, all)[..|said|] == SpokenAll(g, all[..|said|]) == all[..|said|];
    CandidatesJoin(g, deltas);
    JoinPrefix(said, all);
    assert |said| == |all| ==> said == all;
  }

  lemma CandidatesJoin(g: Guard, deltas: seq<Str>)
    ensures Join(Candidates(g, deltas, true)) == Normalize(Flat(deltas))
  {
    hide Join;
    hide Normalize;
    hide FeedAll;
    hide Flush;
    NothingIsLost(g.listed, g.minSegmentChars, deltas);
  }

  lemma JoinPrefix(a: seq<Str>, all: seq<Str>)
    requires a <= all && NoneEmpty(all)
    ensures Join(a) <= Join(all)
  {
    var b := all[|a|..];
    assert all == a + b;
    assert NoneEmpty(a) && NoneEmpty(b);
    JoinSplits(a, b);
  }

  lemma {:induction false} DrainTrims(listed: WordTable, min: nat, st: State)
    requires st.held.Some? ==> Trimmed(st.held.value) && st.held.value != []
    ensures var fed := Drain(listed, min, st);
      && AllSayable(fed.out)
      && (fed.state.held.Some? ==> Trimmed(fed.state.held.value) && fed.state.held.value != [])
    decreases |st.buffer|
  {
    hide Normalize;
    hide Scan;
    DrainStep(listed, min, st);
    var b := Scan(listed, st.buffer, 0);
    if b.Cut? {
      TrimTrims(Collapse(st.buffer[..b.end]));
      assert Trimmed(Normalize(st.buffer[..b.end])) by { NormalizeIsTrimmed(st.buffer[..b.end]); }
      DrainTrims(listed, min, Take(min, st, b.end).next);
    }
  }

  lemma NormalizeIsTrimmed(t: Str)
    ensures Trimmed(Normalize(t))
  {
    TrimTrims(Collapse(t));
  }

  lemma CandidatesAreTrimmed(g: Guard, deltas: seq<Str>)
    ensures AllSayable(Candidates(g, deltas, true))
  {
    hide Normalize;
    hide Drain;
    var text := Flat(deltas);
    ChunkingIndependence(g.listed, g.minSegmentChars, START, deltas);
    DrainTrims(g.listed, g.minSegmentChars, State(text, None));
    assert [] + text == text;
    var fed := FeedAll(g.listed, g.minSegmentChars, START, deltas);
    NormalizeIsTrimmed(fed.state.buffer);
  }
}
