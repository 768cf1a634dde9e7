/** The semantic response assembler: a live text stream is cut into whole
    sentences, independently of how the provider chunked it. */
module Assembler {
  import opened Common
  import opened Text

  /** Which lower-cased words are abbreviations; any table is allowed. */
  type WordTable = Str -> bool

  const DOT: Unit := 46

  predicate IsMark(u: Unit) { IsTerminator(u) || u == NEWLINE }

  predicate IsDigitOrCurrency(u: Unit) {
    48 <= u <= 57 || u == 0x20B9 || u == 36 || u == 0x20AC || u == 0xA3
  }

  predicate IsLowerLatin(u: Unit) { 97 <= u <= 122 }

  /** Whitespace, an opening bracket, separators and quotes end the look-back for a word. */
  predicate StopsWord(u: Unit) {
    IsSpace(u) || u in {40, 44, 59, 58, 34, 39, 0x201C, 0x2018}
  }

  predicate IsLatinLetter(u: Unit) { 65 <= u <= 90 || 97 <= u <= 122 }

  // ---- the boundary decision --------------------------------------------

  datatype Boundary = NoBoundary | Wait | Cut(end: nat)

  /** First index at or after `from` holding a terminator or a newline, else the length. */
  function NextMark(t: Str, from: nat): (i: nat)
    requires from <= |t|
    ensures from <= i <= |t| && (i < |t| ==> IsMark(t[i]))
    ensures forall k :: from <= k < i ==> !IsMark(t[k])
    decreases |t| - from
  {
    if from == |t| || IsMark(t[from]) then from else NextMark(t, from + 1)
  }

  predicate SameRun(first: Unit, u: Unit) {
    if first == NEWLINE then u == NEWLINE else IsTerminator(u)
  }

  /** End of the greedy run of marks of the kind of `first` that continues at `i`. */
  function RunEnd(t: Str, first: Unit, i: nat): (e: nat)
    requires i <= |t|
    ensures i <= e <= |t| && (e < |t| ==> !SameRun(first, t[e]))
    ensures forall k :: i <= k < e ==> SameRun(first, t[k])
    decreases |t| - i
  {
    if i < |t| && SameRun(first, t[i]) then RunEnd(t, first, i + 1) else i
  }

  function SkipSpaces(t: Str, i: nat): (n: nat)
    requires i <= |t|
    ensures i <= n <= |t| && (n < |t| ==> !IsSpace(t[n]))
    ensures forall k :: i <= k < n ==> IsSpace(t[k])
    decreases |t| - i
  {
    if i < |t| && IsSpace(t[i]) then SkipSpaces(t, i + 1) else i
  }

  function WordStart(t: Str, dot: nat): (s: nat)
    requires dot <= |t|
    ensures s <= dot && (s > 0 ==> StopsWord(t[s - 1]))
    ensures forall k :: s <= k < dot ==> !StopsWord(t[k])
  {
    if dot > 0 && !StopsWord(t[dot - 1]) then WordStart(t, dot - 1) else dot
  }

  predicate IsAbbreviation(listed: WordTable, t: Str, dot: nat)
    requires dot <= |t|
  {
    var word := t[WordStart(t, dot)..dot];
    word != [] && ((|word| == 1 && IsLatinLetter(word[0])) || listed(word))
  }

  datatype Verdict = Ends | GoesOn | NeedsMore

  /** Whether the mark run `t[start..end]` ends a sentence. */
  function Judge(listed: WordTable, t: Str, start: nat, end: nat): Verdict
    requires start < end <= |t|
  {
    if t[start] == NEWLINE then Ends
    else if end == |t| then NeedsMore
    else if !IsSpace(t[end]) then GoesOn
    else if end != start + 1 || t[start] != DOT then Ends
    else if IsAbbreviation(listed, t, start) then GoesOn
    else
      var next := SkipSpaces(t, end);
      if next == |t| then NeedsMore
      else if IsDigitOrCurrency(t[next]) || IsLowerLatin(t[next]) then GoesOn
      else Ends
  }

  /** The first decidable sentence end at or after `from`. */
  function Scan(listed: WordTable, t: Str, from: nat): (b: Boundary)
    requires from <= |t|
    ensures b.Cut? ==> from < b.end <= |t|
    decreases |t| - from
  {
    var start := NextMark(t, from);
    if start == |t| then NoBoundary
    else
      var end := RunEnd(t, t[start], start + 1);
      match Judge(listed, t, start, end)
      case Ends => Cut(end)
      case NeedsMore => Wait
      case GoesOn => Scan(listed, t, end)
  }

  // ---- the assembler's state and steps ----------------------------------

  datatype State = State(buffer: Str, held: Option<Str>)

  const START := State([], None)

  datatype Fed = Fed(out: seq<Str>, state: State)

  function Merge(held: Option<Str>, sentence: Str): Str {
    match held case None => sentence case Some(h) => h + [SPACE] + sentence
  }

  datatype Step = Step(head: seq<Str>, next: State)

  /** Cutting the buffer at `end`: what is emitted, and the state left behind. */
  function Take(min: nat, st: State, end: nat): (step: Step)
    requires end <= |st.buffer|
    ensures |step.next.buffer| == |st.buffer| - end
  {
    var sentence := Normalize(st.buffer[..end]);
    var rest := st.buffer[end..];
    if sentence == [] then Step([], State(rest, st.held))
    else
      var merged := Merge(st.held, sentence);
      if |merged| < min then Step([], State(rest, Some(merged))) else Step([merged], State(rest, None))
  }

  /** Emits every sentence that is decidable in the buffer. */
  function Drain(listed: WordTable, min: nat, st: State): Fed
    decreases |st.buffer|
  {
    match Scan(listed, st.buffer, 0)
    case NoBoundary => Fed([], st)
    case Wait => Fed([], st)
    case Cut(end) =>
      var step := Take(min, st, end);
      var more := Drain(listed, min, step.next);
      Fed(step.head + more.out, more.state)
  }

  /** One `push`. */
  function Feed(listed: WordTable, min: nat, st: State, delta: Str): Fed {
    if delta == [] then Fed([], st) else Drain(listed, min, st.(buffer := st.buffer + delta))
  }

  /** A whole stream of pushes. */
  function FeedAll(listed: WordTable, min: nat, st: State, deltas: seq<Str>): Fed
    decreases |deltas|
  {
    if deltas == [] then Fed([], st)
    else
      var first := Feed(listed, min, st, deltas[0]);
      var rest := FeedAll(listed, min, first.state, deltas[1..]);
      Fed(first.out + rest.out, rest.state)
  }

  function HeldText(st: State): Str {
    match st.held case None => [] case Some(h) => h
  }

  /** `flush` on a completed stream. */
  function Flush(st: State): seq<Str> {
    var merged := Glue(HeldText(st), Normalize(st.buffer));
    if merged == [] then [] else [merged]
  }

  function Flat(deltas: seq<Str>): Str {
    if deltas == [] then [] else deltas[0] + Flat(deltas[1..])
  }

  lemma DrainStep(listed: WordTable, min: nat, st: State)
    ensures var b := Scan(listed, st.buffer, 0);
      Drain(listed, min, st) ==
        if b.Cut? then Then(Fed(Take(min, st, b.end).head, st), Drain(listed, min, Take(min, st, b.end).next))
        else Fed([], st)
  {
  }

  ghost function Then(first: Fed, rest: Fed): Fed { Fed(first.out + rest.out, rest.state) }

  // ---- chunking independence --------------------------------------------

  /** A cut decided on a prefix is the cut of every longer text, except that a
      newline run reaching the end of the prefix may go on. */
  lemma {:induction false} ScanIsStable(listed: WordTable, x: Str, y: Str, from: nat)
    requires from <= |x| && Scan(listed, x, from).Cut?
    ensures var end := Scan(listed, x, from).end;
      if end < |x| then Scan(listed, x + y, from) == Cut(end)
      else x[end - 1] == NEWLINE && Scan(listed, x + y, from) == Cut(RunEnd(x + y, NEWLINE, end))
    decreases |x| - from
  {
    hide Judge;
    hide RunEnd;
    hide NextMark;
    hide IsSpace;
    hide IsMark;
    hide SameRun;
    var start := NextMark(x, from);
    var end := RunEnd(x, x[start], start + 1);
    MarkIsStable(x, y, from);
    RunOfPrefix(x, y, start);
    RunsOn(x, start);
    assert (x + y)[start] == x[start];
    if end < |x| {
      JudgeIsDecided(listed, x, y, start, end);
      if Judge(listed, x, start, end).GoesOn? { ScanIsStable(listed, x, y, end); }
    } else {
      JudgeAtEnd(listed, x, start);
      JudgeNewline(listed, x + y, start, RunEnd(x + y, NEWLINE, |x|));
    }
  }

  lemma JudgeIsDecided(listed: WordTable, x: Str, y: Str, start: nat, end: nat)
    requires start < end < |x|
    ensures !Judge(listed, x, start, end).NeedsMore? ==>
      Judge(listed, x + y, start, end) == Judge(listed, x, start, end)
  {
    hide Judge;
    if !Judge(listed, x, start, end).NeedsMore? { JudgeIsStable(listed, x, y, start, end); }
  }

  lemma JudgeNewline(listed: WordTable, t: Str, start: nat, end: nat)
    requires start < end <= |t| && t[start] == NEWLINE
    ensures Judge(listed, t, start, end).Ends?
  {
  }

  lemma JudgeAtEnd(listed: WordTable, t: Str, start: nat)
    requires start < |t|
    ensures t[start] != NEWLINE ==> Judge(listed, t, start, |t|).NeedsMore?
  {
  }

  lemma RunOfPrefix(x: Str, y: Str, start: nat)
    requires start < |x|
    ensures var end := RunEnd(x, x[start], start + 1);
      RunEnd(x + y, x[start], start + 1) == if end < |x| then end else RunEnd(x + y, x[start], |x|)
  {
    var end := RunEnd(x, x[start], start + 1);
    if end < |x| {
      RunIsStable(x, y, x[start], start + 1);
    } else {
      assert forall k :: start + 1 <= k < |x| ==> (x + y)[k] == x[k];
      RunGoesOn(x + y, x[start], start + 1, |x|);
    }
  }

  lemma JudgeIsStable(listed: WordTable, x: Str, y: Str, start: nat, end: nat)
    requires start < end < |x| && !Judge(listed, x, start, end).NeedsMore?
    ensures Judge(listed, x + y, start, end) == Judge(listed, x, start, end)
  {
    WordIsStable(x, y, start);
    assert (x + y)[WordStart(x, start)..start] == x[WordStart(x, start)..start];
    if SkipSpaces(x, end) < |x| { SpacesAreStable(x, y, end); }
  }

  lemma {:induction false} MarkIsStable(x: Str, y: Str, from: nat)
    requires from <= |x| && NextMark(x, from) < |x|
    ensures NextMark(x + y, from) == NextMark(x, from)
    decreases |x| - from
  {
    if !IsMark(x[from]) { MarkIsStable(x, y, from + 1); }
  }

  lemma {:induction false} RunIsStable(x: Str, y: Str, first: Unit, i: nat)
    requires i <= |x| && RunEnd(x, first, i) < |x|
    ensures RunEnd(x + y, first, i) == RunEnd(x, first, i)
    decreases |x| - i
  {
    if SameRun(first, x[i]) { RunIsStable(x, y, first, i + 1); }
  }

  lemma {:induction false} RunGoesOn(t: Str, first: Unit, i: nat, mid: nat)
    requires i <= mid <= |t| && forall k :: i <= k < mid ==> SameRun(first, t[k])
    ensures RunEnd(t, first, i) == RunEnd(t, first, mid)
    decreases mid - i
  {
    if i < mid { RunGoesOn(t, first, i + 1, mid); }
  }

  lemma {:induction false} SpacesAreStable(x: Str, y: Str, i: nat)
    requires i <= |x| && SkipSpaces(x, i) < |x|
    ensures SkipSpaces(x + y, i) == SkipSpaces(x, i)
    decreases |x| - i
  {
    if IsSpace(x[i]) { SpacesAreStable(x, y, i + 1); }
  }

  lemma {:induction false} WordIsStable(x: Str, y: Str, dot: nat)
    requires dot <= |x|
    ensures WordStart(x + y, dot) == WordStart(x, dot)
  {
    if dot > 0 && !StopsWord(x[dot - 1]) { WordIsStable(x, y, dot - 1); }
  }

  /** Draining is insensitive to newlines at the front of the buffer. */
  lemma LeadingNewlines(listed: WordTable, min: nat, st: State, k: nat)
    requires k <= |st.buffer| && RunEnd(st.buffer, NEWLINE, 0) == k
    ensures Drain(listed, min, st) == Drain(listed, min, st.(buffer := st.buffer[k..]))
  {
    var t := st.buffer;
    if k > 0 {
      assert SameRun(NEWLINE, t[0]);
      assert RunEnd(t, NEWLINE, 1) == k;
      assert Scan(listed, t, 0) == Cut(k);
      assert forall i :: 0 <= i < k ==> SameRun(NEWLINE, t[i]);
      NormalizeAllSpace(t[..k]);
    } else {
      assert t[0..] == t;
    }
  }

  lemma TakeLonger(min: nat, st: State, y: Str, end: nat)
    requires end <= |st.buffer|
    ensures var step := Take(min, st, end);
      Take(min, st.(buffer := st.buffer + y), end)
        == Step(step.head, step.next.(buffer := step.next.buffer + y))
  {
    assert (st.buffer + y)[..end] == st.buffer[..end];
    assert (st.buffer + y)[end..] == st.buffer[end..] + y;
  }

  ghost function More(st: State, y: Str): State { st.(buffer := st.buffer + y) }

  /** Draining a prefix first and the rest later is draining once. */
  lemma {:induction false} DrainInTwo(listed: WordTable, min: nat, st: State, y: Str)
    ensures var first := Drain(listed, min, st);
      Drain(listed, min, More(st, y)) == Then(first, Drain(listed, min, More(first.state, y)))
    decreases |st.buffer|
  {
    hide Take;
    hide Scan;
    match Scan(listed, st.buffer, 0)
    case NoBoundary =>
    case Wait =>
    case Cut(end) =>
      var step := Take(min, st, end);
      DrainInTwo(listed, min, step.next, y);
      DrainCut(listed, min, st, y, end);
      var f := Drain(listed, min, step.next);
      var r := Drain(listed, min, More(f.state, y));
      assert step.head + (f.out + r.out) == (step.head + f.out) + r.out;
  }

  lemma DrainCut(listed: WordTable, min: nat, st: State, y: Str, end: nat)
    requires Scan(listed, st.buffer, 0) == Cut(end)
    ensures var step := Take(min, st, end);
      var f := Drain(listed, min, More(step.next, y));
      Drain(listed, min, More(st, y)) == Fed(step.head + f.out, f.state)
  {
    ScanIsStable(listed, st.buffer, y, 0);
    if end < |st.buffer| {
      TakeLonger(min, st, y, end);
    } else {
      CutAtNewlineRun(listed, min, st, y);
    }
  }

  /** A newline run that the chunk boundary split in two. */
  lemma CutAtNewlineRun(listed: WordTable, min: nat, st: State, y: Str)
    requires var x := st.buffer;
      x != [] && x[|x| - 1] == NEWLINE
      && Scan(listed, x + y, 0) == Cut(RunEnd(x + y, NEWLINE, |x|))
    ensures var step := Take(min, st, |st.buffer|);
      var f := Drain(listed, min, More(step.next, y));
      Drain(listed, min, More(st, y)) == Fed(step.head + f.out, f.state)
  {
    hide Take;
    hide RunEnd;
    hide Scan;
    var x := st.buffer;
    var end := RunEnd(x + y, NEWLINE, |x|);
    var k := end - |x|;
    RunShift(x, y, 0);
    var step := Take(min, st, |x|);
    assert More(step.next, y) == step.next.(buffer := y);
    LeadingNewlines(listed, min, More(step.next, y), k);
    TakeWithNewlines(min, st, y, k);
  }

  lemma TakeWithNewlines(min: nat, st: State, y: Str, k: nat)
    requires st.buffer != [] && IsSpace(st.buffer[|st.buffer| - 1]) && k <= |y|
    requires forall i :: 0 <= i < k ==> IsSpace(y[i])
    ensures var step := Take(min, st, |st.buffer|);
      Take(min, More(st, y), |st.buffer| + k) == Step(step.head, step.next.(buffer := y[k..]))
  {
    hide Normalize;
    var x := st.buffer;
    assert x[..|x|] == x;
    assert (x + y)[|x| + k..] == y[k..];
    NormalizeWithoutTail(x, y, k);
  }

  lemma NormalizeWithoutTail(x: Str, y: Str, k: nat)
    requires x != [] && IsSpace(x[|x| - 1]) && k <= |y|
    requires forall i :: 0 <= i < k ==> IsSpace(y[i])
    ensures Normalize((x + y)[..|x| + k]) == Normalize(x)
  {
    assert (x + y)[..|x| + k] == x + y[..k];
    NormalizeAllSpace(y[..k]);
    NormalizeCut(x, y[..k]);
  }

  lemma {:induction false} RunShift(x: Str, y: Str, i: nat)
    requires i <= |y|
    ensures RunEnd(x + y, NEWLINE, |x| + i) == |x| + RunEnd(y, NEWLINE, i)
    decreases |y| - i
  {
    if i < |y| && SameRun(NEWLINE, y[i]) { RunShift(x, y, i + 1); }
  }

  lemma FeedInTwo(listed: WordTable, min: nat, st: State, a: Str, b: Str)
    ensures var first := Feed(listed, min, st, a);
      Feed(listed, min, st, a + b) == Then(first, Feed(listed, min, first.state, b))
  {
    hide Drain;
    if a == [] {
      assert a + b == b;
    } else if b == [] {
      assert a + b == a;
    } else {
      DrainInTwo(listed, min, More(st, a), b);
      assert st.buffer + (a + b) == st.buffer + a + b;
    }
  }

  /** However a text is split into deltas, the same segments come out and the
      same buffer and held sentence remain. */
  lemma {:induction false} ChunkingIndependence(listed: WordTable, min: nat, st: State, deltas: seq<Str>)
    ensures FeedAll(listed, min, st, deltas) == Feed(listed, min, st, Flat(deltas))
    decreases |deltas|
  {
    if deltas != [] {
      var first := Feed(listed, min, st, deltas[0]);
      ChunkingIndependence(listed, min, first.state, deltas[1..]);
      FeedInTwo(listed, min, st, deltas[0], Flat(deltas[1..]));
    }
  }

  lemma {:induction false} TwoChunkingsAgree(listed: WordTable, min: nat, a: seq<Str>, b: seq<Str>)
    requires Flat(a) == Flat(b)
    ensures FeedAll(listed, min, START, a) == FeedAll(listed, min, START, b)
  {
    ChunkingIndependence(listed, min, START, a);
    ChunkingIndependence(listed, min, START, b);
  }

  // ---- nothing is lost, nothing is too short -----------------------------

  ghost predicate GoodHeld(min: nat, held: Option<Str>) {
    held.Some? ==> held.value != [] && |held.value| < min
  }

  /** What a state still has to say. */
  ghost function Pending(st: State): Str { Glue(HeldText(st), Normalize(st.buffer)) }

  lemma RunsOn(t: Str, start: nat)
    requires start < |t|
    ensures var end := RunEnd(t, t[start], start + 1);
      t[start] == NEWLINE ==> forall k :: start <= k < end ==> t[k] == NEWLINE
  {
  }

  lemma EndsClean(listed: WordTable, t: Str, start: nat, end: nat)
    requires start < end <= |t| && (t[start] == NEWLINE ==> t[end - 1] == NEWLINE)
    ensures Judge(listed, t, start, end).Ends? ==> CleanCut(t[..end], t[end..])
  {
  }

  /** Text is only ever cut next to whitespace. */
  lemma {:induction false} ScanCutsClean(listed: WordTable, t: Str, from: nat)
    requires from <= |t| && Scan(listed, t, from).Cut?
    ensures var end := Scan(listed, t, from).end; CleanCut(t[..end], t[end..])
    decreases |t| - from
  {
    hide Judge;
    hide RunEnd;
    hide NextMark;
    hide CleanCut;
    var start := NextMark(t, from);
    var end := RunEnd(t, t[start], start + 1);
    RunsOn(t, start);
    if Judge(listed, t, start, end).GoesOn? {
      ScanCutsClean(listed, t, end);
    } else {
      EndsClean(listed, t, start, end);
    }
  }

  lemma TakeKeepsText(min: nat, st: State, end: nat)
    requires GoodHeld(min, st.held) && end <= |st.buffer|
    requires CleanCut(st.buffer[..end], st.buffer[end..])
    ensures var step := Take(min, st, end);
      && GoodHeld(min, step.next.held)
      && Pending(st) == Glue(Join(step.head), Pending(step.next))
      && (forall k :: 0 <= k < |step.head| ==> step.head[k] != [] && |step.head[k]| >= min)
  {
    var head, rest := st.buffer[..end], st.buffer[end..];
    assert st.buffer == head + rest;
    NormalizeCut(head, rest);
    GlueAssociative(HeldText(st), Normalize(head), Normalize(rest));
    assert Normalize(head) != [] ==> Merge(st.held, Normalize(head)) == Glue(HeldText(st), Normalize(head));
  }

  lemma NothingOut(rest: Str)
    ensures Glue(Join([]), rest) == rest
  {
  }

  lemma {:induction false} DrainKeepsText(listed: WordTable, min: nat, st: State)
    requires GoodHeld(min, st.held)
    ensures var fed := Drain(listed, min, st);
      && GoodHeld(min, fed.state.held)
      && Pending(st) == Glue(Join(fed.out), Pending(fed.state))
      && (forall k :: 0 <= k < |fed.out| ==> fed.out[k] != [] && |fed.out[k]| >= min)
    decreases |st.buffer|
  {
    hide Take;
    hide Normalize;
    hide Scan;
    hide Join;
    hide Glue;
    match Scan(listed, st.buffer, 0)
    case NoBoundary => NothingOut(Pending(st));
    case Wait => NothingOut(Pending(st));
    case Cut(end) =>
      var step := Take(min, st, end);
      ScanCutsClean(listed, st.buffer, 0);
      TakeKeepsText(min, st, end);
      DrainKeepsText(listed, min, step.next);
      var more := Drain(listed, min, step.next);
      JoinSplits(step.head, more.out);
      GlueAssociative(Join(step.head), Join(more.out), Pending(more.state));
  }

  /** A completed stream: the segments, the flushed one included, joined with
      single spaces are the whitespace-normalized text, and every segment
      emitted before the flush has the minimum length. */
  lemma {:induction false} NothingIsLost(listed: WordTable, min: nat, deltas: seq<Str>)
    ensures var fed := FeedAll(listed, min, START, deltas);
      && Join(fed.out + Flush(fed.state)) == Normalize(Flat(deltas))
      && (forall k :: 0 <= k < |fed.out| ==> |fed.out[k]| >= min)
      && NoneEmpty(fed.out + Flush(fed.state))
  {
    hide Drain;
    hide Flat;
    ChunkingIndependence(listed, min, START, deltas);
    var text := Flat(deltas);
    var fed := FeedAll(listed, min, START, deltas);
    hide FeedAll;
    if text == [] {
      assert fed.out + Flush(fed.state) == [];
    } else {
      assert [] + text == text;
      DrainKeepsText(listed, min, State(text, None));
      JoinSplits(fed.out, Flush(fed.state));
    }
  }

  lemma JoinPresent(a: Str, b: Str)
    ensures Join((if a == [] then [] else [a]) + (if b == [] then [] else [b])) == Glue(a, b)
  {
    assert ([a] + [b])[1..] == [b];
  }

  // ---- the class ----------------------------------------------------------

  class SentenceAssembler {
    const listed: WordTable
    const minSegmentChars: nat
    var buffer: Str
    var held: Option<Str>
    var segments: nat

    function Value(): State reads this { State(buffer, held) }

    constructor (listed: WordTable, minSegmentChars: nat)
      ensures this.listed == listed && this.minSegmentChars == minSegmentChars
      ensures Value() == START && segments == 0
    {
      this.listed, this.minSegmentChars := listed, minSegmentChars;
      buffer, held, segments := [], None, 0;
    }

    /** Feeds one text delta and returns the segments it completed. */
    method Push(delta: Str) returns (out: seq<Str>)
      modifies this
      ensures Fed(out, Value()) == Feed(listed, minSegmentChars, old(Value()), delta)
      ensures segments == old(segments) + |out|
    {
      hide Normalize;
      hide Scan;
      hide Drain;
      out := [];
      if delta == [] { return; }
      buffer := buffer + delta;
      ghost var target := Drain(listed, minSegmentChars, Value());
      while true
        invariant target == Then(Fed(out, Value()), Drain(listed, minSegmentChars, Value()))
        invariant segments == old(segments) + |out|
        decreases |buffer|
      {
        var boundary := NextBoundary();
        DrainStep(listed, minSegmentChars, Value());
        if !boundary.Cut? { break; }
        ghost var step := Take(minSegmentChars, Value(), boundary.end);
        ghost var more := Drain(listed, minSegmentChars, step.next);
        assert out + (step.head + more.out) == (out + step.head) + more.out;
        var sentence := Normalize(buffer[..boundary.end]);
        buffer := buffer[boundary.end..];
        if sentence == [] { continue; }
        var merged := if held.None? then sentence else held.value + [SPACE] + sentence;
        held := None;
        if |merged| < minSegmentChars {
          held := Some(merged);
          continue;
        }
        segments := segments + 1;
        out := out + [merged];
      }
    }

    /** The stream ended normally: the rest of the text is a segment. */
    method FlushRest() returns (out: seq<Str>)
      modifies this
      ensures out == Flush(old(Value()))
      ensures Value() == START && segments == old(segments) + |out|
    {
      hide Normalize;
      var rest := Normalize(buffer);
      var parts: seq<Str> := [];
      if held.Some? && held.value != [] { parts := parts + [held.value]; }
      if rest != [] { parts := parts + [rest]; }
      var merged := Join(parts);
      JoinPresent(HeldText(Value()), rest);
      buffer := [];
      held := None;
      if merged == [] { return []; }
      segments := segments + 1;
      out := [merged];
    }

    method NextBoundary() returns (b: Boundary)
      ensures b == Scan(listed, buffer, 0)
    {
      hide NextMark;
      hide RunEnd;
      hide SkipSpaces;
      hide IsAbbreviation;
      hide SameRun;
      hide IsLowerLatin;
      hide IsDigitOrCurrency;
      var text := buffer;
      var at := 0;
      while true
        invariant at <= |text| && Scan(listed, text, 0) == Scan(listed, text, at)
        decreases |text| - at
      {
        var start := FindMark(text, at);
        if start == |text| { return NoBoundary; }
        var end := FindRunEnd(text, start);
        at := end;
        if text[start] == NEWLINE { return Cut(end); }
        if end >= |text| { return Wait; }
        if !IsSpace(text[end]) { continue; }
        if end - start != 1 || text[start] != DOT { return Cut(end); }
        var abbreviation := AbbreviationBefore(text, start);
        if abbreviation { continue; }
        var next := NextVisible(text, end);
        if next >= |text| { return Wait; }
        if IsDigitOrCurrency(text[next]) || IsLowerLatin(text[next]) { continue; }
        return Cut(end);
      }
    }

    static method FindMark(text: Str, at: nat) returns (start: nat)
      requires at <= |text|
      ensures start == NextMark(text, at)
    {
      start := at;
      while start < |text| && !IsMark(text[start])
        invariant at <= start <= |text| && NextMark(text, at) == NextMark(text, start)
      {
        start := start + 1;
      }
    }

    static method FindRunEnd(text: Str, start: nat) returns (end: nat)
      requires start < |text|
      ensures end == RunEnd(text, text[start], start + 1)
    {
      end := start + 1;
      while end < |text| && SameRun(text[start], text[end])
        invariant start < end <= |text|
        invariant RunEnd(text, text[start], start + 1) == RunEnd(text, text[start], end)
      {
        end := end + 1;
      }
    }

    static method NextVisible(text: Str, end: nat) returns (next: nat)
      requires end <= |text|
      ensures next == SkipSpaces(text, end)
    {
      next := end;
      while next < |text| && IsSpace(text[next])
        invariant end <= next <= |text| && SkipSpaces(text, end) == SkipSpaces(text, next)
      {
        next := next + 1;
      }
    }

    method AbbreviationBefore(text: Str, dot: nat) returns (yes: bool)
      requires dot < |text|
      ensures yes == IsAbbreviation(listed, text, dot)
    {
      var start: nat := dot;
      while start > 0 && !StopsWord(text[start - 1])
        invariant start <= dot && WordStart(text, dot) == WordStart(text, start)
      {
        start := start - 1;
      }
      var word := text[start..dot];
      if word == [] { return false; }
      if |word| == 1 && IsLatinLetter(word[0]) { return true; }
      yes := listed(word);
    }
  }
}
