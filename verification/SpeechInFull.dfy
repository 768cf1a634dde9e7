/** When a model call is said in full: what makes the stream stop, said without the
    stream, and that nothing else does. */
module SpeechInFull {
  import opened Common
  import opened Text
  import opened Assembler
  import opened Speech
  import opened SpeechSafety
  import opened AgentTurn

  // ---- one segment --------------------------------------------------------------------

  /** The reply would be `prior`, a space if that says anything, and `text`. */
  function LengthWith(prior: Str, text: Str): nat { |prior| + (if prior == [] then 0 else 1) + |text| }

  /** A segment that passes the guard caps the stream exactly when the reply would be too
      long with it, and is emitted otherwise. */
  lemma CapsIff(g: Guard, permitted: set<ClaimKind>, st: Stream, candidate: Str)
    requires !st.revoked && !st.capped && SegmentOk(g, Join(st.released + st.held), candidate, permitted)
    ensures var after, text := Accept(g, permitted, st, candidate), Spoken(g, candidate);
      && !after.revoked
      && (after.capped <==> LengthWith(Join(st.released + st.held), text) > g.maxReplyChars)
      && (after.capped ==> after.released == st.released && after.held == st.held)
      && (!after.capped ==>
            && after.released == (if st.roundHeld then st.released else st.released + [text])
            && after.held == (if st.roundHeld then st.held + [text] else st.held))
  {
    hide Join;
    hide Spoken;
    hide SegmentOk;
  }

  /** The segment is said after `prior`: it says something, it and what was said before it
      leak nothing and claim nothing unverified, and there is room for it. */
  predicate IsSaid(g: Guard, prior: Str, candidate: Str, permitted: set<ClaimKind>) {
    var text := Glue(Trim(prior), Trim(candidate));
    && Trim(candidate) != [] && !g.leaks(text)
    && (forall kind :: kind in ENFORCED && kind in g.claims(text) ==> kind in permitted)
    && LengthWith(prior, Spoken(g, candidate)) <= g.maxReplyChars
  }

  lemma StaysUnstoppedIff(g: Guard, permitted: set<ClaimKind>, st: Stream, candidate: Str)
    ensures !Stopped(Accept(g, permitted, st, candidate)) <==>
      !Stopped(st) && IsSaid(g, Join(st.released + st.held), candidate, permitted)
  {
    hide Join;
    hide Spoken;
    hide Trim;
    hide Glue;
  }

  // ---- a whole call ---------------------------------------------------------------------

  /** Each segment is said after those before it. */
  ghost predicate AllSaid(g: Guard, all: seq<Str>, permitted: set<ClaimKind>) {
    forall k :: 0 <= k < |all| ==> IsSaid(g, Join(SpokenAll(g, all[..k])), all[k], permitted)
  }

  lemma AllSaidOneMore(g: Guard, all: seq<Str>, last: Str, permitted: set<ClaimKind>)
    ensures AllSaid(g, all + [last], permitted) <==>
      AllSaid(g, all, permitted) && IsSaid(g, Join(SpokenAll(g, all)), last, permitted)
  {
    hide IsSaid;
    hide SpokenAll;
    hide Join;
    var more := all + [last];
    assert more[..|all|] == all && more[|all|] == last;
    forall k | 0 <= k < |all| ensures more[..k] == all[..k] && more[k] == all[k] {}
  }

  /** Offering segments in a round: it goes on exactly while they are said. */
  lemma {:induction false} OfferedIff(g: Guard, permitted: set<ClaimKind>, st: Stream, before: seq<Str>,
                                      candidates: seq<Str>)
    requires RoundPrefix(g, st, before) && (!Stopped(st) <==> AllSaid(g, before, permitted))
    ensures !Stopped(AcceptAll(g, permitted, st, candidates)) <==> AllSaid(g, before + candidates, permitted)
    decreases |candidates|
  {
    hide IsSaid;
    hide AllSaid;
    hide Accept;
    hide SpokenAll;
    hide Join;
    if candidates == [] {
      assert before + candidates == before;
    } else {
      var init, last := candidates[..|candidates| - 1], candidates[|candidates| - 1];
      var st1 := AcceptAll(g, permitted, st, init);
      OfferedIff(g, permitted, st, before, init);
      AcceptAllPrefix(g, permitted, st, before, init);
      StaysUnstoppedIff(g, permitted, st1, last);
      AllSaidOneMore(g, before + init, last, permitted);
      assert before + candidates == before + init + [last];
      assert !Stopped(st1) ==> st1.released + st1.held == SpokenAll(g, before + init);
    }
  }

  lemma StoppedReads(a: Stream, b: Stream)
    requires a.revoked == b.revoked && a.capped == b.capped
    ensures Stopped(a) == Stopped(b)
  {
  }

  lemma LessSaid(g: Guard, a: seq<Str>, b: seq<Str>, permitted: set<ClaimKind>)
    requires AllSaid(g, a + b, permitted)
    ensures AllSaid(g, a, permitted)
  {
    hide IsSaid;
    forall k | 0 <= k < |a| ensures IsSaid(g, Join(SpokenAll(g, a[..k])), a[k], permitted) {
      assert (a + b)[k] == a[k] && (a + b)[..k] == a[..k];
    }
  }

  lemma DeltaIff(g: Guard, permitted: set<ClaimKind>, st: Stream, deltas: seq<Str>, text: Str)
    requires InRound(g, st, deltas) && (!Stopped(st) <==> AllSaid(g, Candidates(g, deltas, false), permitted))
    ensures var after := Delta(g, permitted, st, text);
      InRound(g, after, deltas + [text])
      && (!Stopped(after) <==> AllSaid(g, Candidates(g, deltas + [text], false), permitted))
  {
    hide AllSaid;
    hide AcceptAll;
    hide Feed;
    hide FeedAll;
    hide SpokenAll;
    RoundGoesOn(g, permitted, st, deltas, text);
    FeedOneMore(g.listed, g.minSegmentChars, START, deltas, text);
    var before := FeedAll(g.listed, g.minSegmentChars, START, deltas);
    var fed := Feed(g.listed, g.minSegmentChars, before.state, text);
    if st.revoked {
      if AllSaid(g, before.out + fed.out, permitted) { LessSaid(g, before.out, fed.out, permitted); }
    } else {
      var ready := st.(producedText := st.producedText || text != [], assembler := Some(fed.state));
      OfferedIff(g, permitted, ready, before.out, fed.out);
    }
  }

  lemma {:induction false} HeardIff(g: Guard, permitted: set<ClaimKind>, st: Stream, deltas: seq<Str>)
    requires InRound(g, st, []) && !Stopped(st)
    ensures var after := Played(g, permitted, st, deltas);
      InRound(g, after, deltas) && (!Stopped(after) <==> AllSaid(g, Candidates(g, deltas, false), permitted))
    ensures Played(g, permitted, st, deltas).roundHeld == st.roundHeld
  {
    hide Delta;
    hide InRound;
    hide Stopped;
    if deltas == [] {
      assert Candidates(g, [], false) == [];
    } else {
      var init, last := deltas[..|deltas| - 1], deltas[|deltas| - 1];
      HeardIff(g, permitted, st, init);
      DeltaIff(g, permitted, Played(g, permitted, st, init), init, last);
      RoundGoesOn(g, permitted, Played(g, permitted, st, init), init, last);
      assert deltas == init + [last];
    }
  }

  /** A call that answers, on a stream that nothing has stopped: it is heard, or held, in
      full exactly when each of its segments is said. Nothing else drops a sentence. */
  lemma {:induction false} SaidInFullIff(g: Guard, permitted: set<ClaimKind>, st: Stream, offered: bool,
                                         model: ModelCall)
    requires Idle(st) && !Stopped(st)
    ensures var after, all := AnsweredStream(g, permitted, st, offered, model), Candidates(g, model.deltas, true);
      && (!Stopped(after) <==> AllSaid(g, all, permitted))
      && (AllSaid(g, all, permitted) ==>
            && after.released == (if offered then [] else SpokenAll(g, all))
            && after.held == (if offered then SpokenAll(g, all) else []))
  {
    hide AllSaid;
    hide Played;
    hide FeedAll;
    hide Flush;
    hide SpokenAll;
    hide AcceptAll;
    RoundStarts(g, st, offered);
    var deltas, heard := model.deltas, Heard(g, permitted, st, offered, model);
    HeardIff(g, permitted, Begin(st, offered), deltas);
    RoundEnds(g, permitted, heard, deltas);
    var fed := FeedAll(g.listed, g.minSegmentChars, START, deltas);
    if heard.revoked {
      if AllSaid(g, fed.out + Flush(fed.state), permitted) { LessSaid(g, fed.out, Flush(fed.state), permitted); }
    } else {
      var ready := heard.(assembler := Some(START));
      OfferedIff(g, permitted, ready, fed.out, Flush(fed.state));
      StoppedReads(AcceptAll(g, permitted, ready, Flush(fed.state)), AnsweredStream(g, permitted, st, offered, model));
    }
  }

  /** In particular: where no segment looks like markdown, the text of the call fits, and
      no beginning of it leaks or claims anything, all of it is said. */
  lemma {:induction false} PlainTextIsSaid(g: Guard, permitted: set<ClaimKind>, deltas: seq<Str>)
    requires var all := Candidates(g, deltas, true); forall k :: 0 <= k < |all| ==> Plain(g, all[k])
    requires |Normalize(Flat(deltas))| <= g.maxReplyChars
    requires forall t: Str :: t <= Normalize(Flat(deltas)) ==> Clean(g, t, permitted)
    ensures AllSaid(g, Candidates(g, deltas, true), permitted)
  {
    hide Candidates;
    hide Normalize;
    hide Clean;
    hide IsSaid;
    var all := Candidates(g, deltas, true);
    CandidatesAreTrimmed(g, deltas);
    CandidatesJoin(g, deltas);
    forall k | 0 <= k < |all| ensures IsSaid(g, Join(SpokenAll(g, all[..k])), all[k], permitted) {
      PlainSaysItself(g, all[..k]);
      OneOfThemIsSaid(g, permitted, all, k);
    }
  }

  lemma OneOfThemIsSaid(g: Guard, permitted: set<ClaimKind>, all: seq<Str>, k: nat)
    requires k < |all| && AllSayable(all) && Plain(g, all[k]) && |Join(all)| <= g.maxReplyChars
    requires forall t: Str :: t <= Join(all) ==> Clean(g, t, permitted)
    ensures IsSaid(g, Join(all[..k]), all[k], permitted)
  {
    hide Join;
    var prior := Join(all[..k]);
    JoinSayable(all[..k]);
    TrimTrims(prior);
    TrimTrims(all[k]);
    JoinOneMore(all[..k], all[k]);
    assert all[..k + 1] == all[..k] + [all[k]];
    JoinPrefix(all[..k + 1], all);
    hide Trim;
    hide Trimmed;
    assert Join(all[..k + 1]) == Glue(prior, all[k]);
    assert Clean(g, Glue(prior, all[k]), permitted);
  }

  /** A whole turn: no tools on offer, the first call answers with such a text, and nobody
      aborts. The caller hears the text, and the transcript has it. */
  method RunPlainly(env: Env, input: Input) returns (r: Report)
    requires Streams(input) && ReachesTheLoop(input, env) && !Offers(input, 0) && env.stores
    requires forall n: nat :: !env.aborted(n)
    requires env.model(0).completion.Completed?
    requires var g, deltas := input.guard, env.model(0).deltas;
      var text := Normalize(Flat(deltas));
      && (forall k :: 0 <= k < |Candidates(g, deltas, true)| ==> Plain(g, Candidates(g, deltas, true)[k]))
      && text != [] && |text| <= g.maxReplyChars
      && forall t: Str :: t <= text ==> Clean(g, t, PermittedClaims(input.systemActions))
    ensures var text := Normalize(Flat(env.model(0).deltas));
      r.outcome == Delivered(text) && r.persisted == [UserRow(input.userMessage), AssistantRow(text)]
  {
    hide Normalize;
    hide Candidates;
    hide Clean;
    hide AllSaid;
    hide AnsweredStream;
    hide SpeechGuarantees;
    hide TurnBounds;
    hide RunsAgain;
    var g, model := input.guard, env.model(0);
    var permitted := PermittedClaims(input.systemActions);
    r := Run(env, input);
    ghost var all := Candidates(g, model.deltas, true);
    PlainTextIsSaid(g, permitted, model.deltas);
    FreshIsConsistent();
    SaidInFullIff(g, permitted, FRESH, false, model);
    CandidatesAreTrimmed(g, model.deltas);
    CandidatesJoin(g, model.deltas);
    PlainSaysItself(g, all);
  }
}
