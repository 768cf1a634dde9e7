/** Where a sentence ends, said about the text alone: the boundary scan finds the first
    such end, and the segments of a stream end there. */
module SentenceEnds {
  import opened Common
  import opened Text
  import opened Assembler

  // ---- the ends of sentences ------------------------------------------------------

  predicate SameKind(a: Unit, b: Unit) { (a == NEWLINE && b == NEWLINE) || (IsTerminator(a) && IsTerminator(b)) }

  /** From `from` on, `t[s..e]` is a run of marks of one kind that cannot be longer. */
  ghost predicate MarkRun(t: Str, from: nat, s: nat, e: nat) {
    && from <= s < e <= |t|
    && (forall k :: s <= k < e ==> SameKind(t[s], t[k]))
    && (s > from ==> !SameKind(t[s], t[s - 1]))
    && (e < |t| ==> !SameKind(t[s], t[e]))
  }

  /** A word begins behind whitespace, an opening bracket, a comma, semicolon or colon, or
      a quotation mark. */
  predicate BeginsWord(u: Unit) { IsSpace(u) || u in {40, 44, 59, 58, 34, 39, 0x201C, 0x2018} }

  /** `t[w..dot]` is the word in front of `dot`. */
  ghost predicate WordBefore(t: Str, w: nat, dot: nat) {
    && w < dot <= |t| && (w == 0 || BeginsWord(t[w - 1]))
    && forall k :: w <= k < dot ==> !BeginsWord(t[k])
  }

  predicate IsShort(listed: WordTable, word: Str) {
    (|word| == 1 && (65 <= word[0] <= 90 || 97 <= word[0] <= 122)) || listed(word)
  }

  /** That word is a lone Latin letter or a listed abbreviation. */
  ghost predicate Abbreviated(listed: WordTable, t: Str, dot: nat) {
    exists w: nat :: WordBefore(t, w, dot) && IsShort(listed, t[w..dot])
  }

  /** The first unit at or after `e` that is no whitespace is at `n`. */
  ghost predicate NextVisible(t: Str, e: nat, n: nat) {
    e <= n < |t| && !IsSpace(t[n]) && forall k :: e <= k < n ==> IsSpace(t[k])
  }

  /** A sentence that follows a single dot starts with none of these. */
  predicate Continues(u: Unit) {
    48 <= u <= 57 || 97 <= u <= 122 || u in {0x20B9, 36, 0x20AC, 0xA3}
  }

  predicate LoneDot(t: Str, s: nat, e: nat)
    requires s < e <= |t|
  {
    e == s + 1 && t[s] == 46
  }

  /** The run `t[s..e]` ends a sentence. */
  ghost predicate SentenceEnd(listed: WordTable, t: Str, s: nat, e: nat)
    requires s < e <= |t|
  {
    || t[s] == NEWLINE
    || (&& e < |t| && IsSpace(t[e])
        && (LoneDot(t, s, e) ==>
              !Abbreviated(listed, t, s) && exists n: nat :: NextVisible(t, e, n) && !Continues(t[n])))
  }

  /** More text is needed to tell. */
  ghost predicate Undecided(listed: WordTable, t: Str, s: nat, e: nat)
    requires s < e <= |t|
  {
    && t[s] != NEWLINE
    && (e == |t|
        || (IsSpace(t[e]) && LoneDot(t, s, e) && !Abbreviated(listed, t, s)
            && forall k :: e <= k < |t| ==> IsSpace(t[k])))
  }

  // ---- the scan finds the first one -------------------------------------------------

  lemma {:induction false} AbbreviatedIff(listed: WordTable, t: Str, dot: nat)
    requires dot <= |t|
    ensures IsAbbreviation(listed, t, dot) <==> Abbreviated(listed, t, dot)
  {
    var s := WordStart(t, dot);
    if s < dot { assert WordBefore(t, s, dot); }
    forall w: nat | WordBefore(t, w, dot) ensures w == s {}
  }

  lemma {:induction false} JudgeMeans(listed: WordTable, t: Str, s: nat, e: nat)
    requires s < e <= |t|
    ensures Judge(listed, t, s, e).Ends? <==> SentenceEnd(listed, t, s, e)
    ensures Judge(listed, t, s, e).NeedsMore? <==> Undecided(listed, t, s, e)
  {
    hide IsAbbreviation;
    hide Abbreviated;
    AbbreviatedIff(listed, t, s);
    var next := SkipSpaces(t, e);
    if next < |t| {
      assert NextVisible(t, e, next);
      forall n: nat | NextVisible(t, e, n) ensures n == next {}
    }
  }

  /** No run that starts before `x` ends a sentence or waits for more text. */
  ghost predicate Passed(listed: WordTable, t: Str, from: nat, x: nat) {
    forall s: nat, e: nat :: MarkRun(t, from, s, e) && s < x ==>
      !SentenceEnd(listed, t, s, e) && !Undecided(listed, t, s, e)
  }

  ghost predicate FirstEnd(listed: WordTable, t: Str, from: nat, e: nat) {
    exists s: nat :: MarkRun(t, from, s, e) && SentenceEnd(listed, t, s, e) && Passed(listed, t, from, s)
  }

  ghost predicate FirstIsUndecided(listed: WordTable, t: Str, from: nat) {
    exists s: nat, e: nat :: MarkRun(t, from, s, e) && Undecided(listed, t, s, e) && Passed(listed, t, from, s)
  }

  lemma {:induction false} FirstRun(t: Str, from: nat)
    requires from <= |t| && NextMark(t, from) < |t|
    ensures var s := NextMark(t, from); var e := RunEnd(t, t[s], s + 1);
      && MarkRun(t, from, s, e)
      && (forall x: nat, y: nat :: MarkRun(t, from, x, y) ==> (x == s && y == e) || x >= e)
      && (forall x: nat, y: nat :: x >= e ==> (MarkRun(t, from, x, y) <==> MarkRun(t, e, x, y)))
  {
    var s := NextMark(t, from);
    var e := RunEnd(t, t[s], s + 1);
    assert forall k :: s <= k < e ==> SameKind(t[s], t[k]);
    forall x: nat, y: nat | MarkRun(t, from, x, y) ensures (x == s && y == e) || x >= e {}
    if e < |t| { assert SameKind(t[s], t[e - 1]) && !SameKind(t[s], t[e]); }
  }

  lemma NoRun(t: Str, from: nat)
    requires from <= |t| && NextMark(t, from) == |t|
    ensures forall s: nat, e: nat :: !MarkRun(t, from, s, e)
  {
    forall s: nat, e: nat | MarkRun(t, from, s, e) ensures false {}
  }

  lemma PassedOn(listed: WordTable, t: Str, from: nat, x: nat)
    requires from <= |t| && NextMark(t, from) < |t|
    ensures var s := NextMark(t, from); var e := RunEnd(t, t[s], s + 1);
      Judge(listed, t, s, e).GoesOn? && Passed(listed, t, e, x) ==> Passed(listed, t, from, x)
  {
    hide Judge;
    hide SentenceEnd;
    hide Undecided;
    hide MarkRun;
    var s := NextMark(t, from);
    FirstRun(t, from);
    JudgeMeans(listed, t, s, RunEnd(t, t[s], s + 1));
  }

  lemma {:induction false} ScanFinds(listed: WordTable, t: Str, from: nat)
    requires from <= |t|
    ensures match Scan(listed, t, from)
      case Cut(e) => FirstEnd(listed, t, from, e)
      case Wait => FirstIsUndecided(listed, t, from)
      case NoBoundary => Passed(listed, t, from, |t|)
    decreases |t| - from
  {
    hide Judge;
    hide SentenceEnd;
    hide Undecided;
    hide MarkRun;
    hide Passed;
    var s := NextMark(t, from);
    if s == |t| {
      NoRun(t, from);
      NothingPassed(listed, t, from, |t|);
    } else {
      var e := RunEnd(t, t[s], s + 1);
      FirstRun(t, from);
      JudgeMeans(listed, t, s, e);
      NothingPassed(listed, t, from, s);
      match Judge(listed, t, s, e)
      case Ends =>
      case NeedsMore =>
      case GoesOn =>
        ScanFinds(listed, t, e);
        FoundLater(listed, t, from);
    }
  }

  lemma NothingPassed(listed: WordTable, t: Str, from: nat, x: nat)
    requires forall s: nat, e: nat :: MarkRun(t, from, s, e) ==> s >= x
    ensures Passed(listed, t, from, x)
  {
  }

  lemma FoundLater(listed: WordTable, t: Str, from: nat)
    requires from <= |t| && NextMark(t, from) < |t|
    ensures var s := NextMark(t, from); var e := RunEnd(t, t[s], s + 1);
      Judge(listed, t, s, e).GoesOn? ==>
        && (forall x: nat :: FirstEnd(listed, t, e, x) ==> FirstEnd(listed, t, from, x))
        && (FirstIsUndecided(listed, t, e) ==> FirstIsUndecided(listed, t, from))
        && (Passed(listed, t, e, |t|) ==> Passed(listed, t, from, |t|))
  {
    hide Judge;
    hide SentenceEnd;
    hide Undecided;
    hide Passed;
    var s := NextMark(t, from);
    var e := RunEnd(t, t[s], s + 1);
    FirstRun(t, from);
    hide MarkRun;
    if Judge(listed, t, s, e).GoesOn? {
      PassedOn(listed, t, from, |t|);
      forall x: nat | FirstEnd(listed, t, e, x) ensures FirstEnd(listed, t, from, x) {
        var y: nat :| MarkRun(t, e, y, x) && SentenceEnd(listed, t, y, x) && Passed(listed, t, e, y);
        StartsLater(t, e, y, x);
        PassedOn(listed, t, from, y);
      }
      if FirstIsUndecided(listed, t, e) {
        var y: nat, x: nat :| MarkRun(t, e, y, x) && Undecided(listed, t, y, x) && Passed(listed, t, e, y);
        StartsLater(t, e, y, x);
        PassedOn(listed, t, from, y);
      }
    }
  }

  lemma StartsLater(t: Str, from: nat, s: nat, e: nat)
    requires MarkRun(t, from, s, e)
    ensures s >= from
  {
  }

  /** There is only one first of them. */
  lemma OnlyOneFirst(listed: WordTable, t: Str, from: nat, a: nat, x: nat, b: nat, y: nat)
    requires MarkRun(t, from, a, x) && Passed(listed, t, from, a)
    requires MarkRun(t, from, b, y) && Passed(listed, t, from, b)
    requires SentenceEnd(listed, t, a, x) || Undecided(listed, t, a, x)
    requires SentenceEnd(listed, t, b, y) || Undecided(listed, t, b, y)
    ensures a == b && x == y
  {
    hide SentenceEnd;
    hide Undecided;
  }

  /** The scan cuts at the first end of a sentence, waits exactly where the first
      candidate is undecided, and finds nothing exactly where there is no candidate. */
  lemma {:induction false} ScanMeans(listed: WordTable, t: Str, from: nat)
    requires from <= |t|
    ensures forall e: nat :: Scan(listed, t, from) == Cut(e) <==> FirstEnd(listed, t, from, e)
    ensures Scan(listed, t, from) == Wait <==> FirstIsUndecided(listed, t, from)
    ensures Scan(listed, t, from) == NoBoundary <==> Passed(listed, t, from, |t|)
  {
    hide Scan;
    hide SentenceEnd;
    hide Undecided;
    ScanFinds(listed, t, from);
    forall e: nat | FirstEnd(listed, t, from, e) ensures Scan(listed, t, from) == Cut(e) {
      Excludes(listed, t, from, e);
    }
    if FirstIsUndecided(listed, t, from) { ExcludesWait(listed, t, from); }
    if Passed(listed, t, from, |t|) { ExcludesAll(listed, t, from); }
  }

  lemma EndIsDecided(listed: WordTable, t: Str, s: nat, e: nat)
    requires s < e <= |t|
    ensures !(SentenceEnd(listed, t, s, e) && Undecided(listed, t, s, e))
  {
    if e < |t| && SentenceEnd(listed, t, s, e) && t[s] != NEWLINE && LoneDot(t, s, e) {
      var n: nat :| NextVisible(t, e, n);
      assert !IsSpace(t[n]);
    }
  }

  lemma Excludes(listed: WordTable, t: Str, from: nat, e: nat)
    requires FirstEnd(listed, t, from, e)
    ensures forall x: nat :: FirstEnd(listed, t, from, x) ==> x == e
    ensures !FirstIsUndecided(listed, t, from) && !Passed(listed, t, from, |t|)
  {
    hide SentenceEnd;
    hide Undecided;
    var s: nat :| MarkRun(t, from, s, e) && SentenceEnd(listed, t, s, e) && Passed(listed, t, from, s);
    forall x: nat | FirstEnd(listed, t, from, x) ensures x == e {
      var y: nat :| MarkRun(t, from, y, x) && SentenceEnd(listed, t, y, x) && Passed(listed, t, from, y);
      OnlyOneFirst(listed, t, from, s, e, y, x);
    }
    if FirstIsUndecided(listed, t, from) {
      var y: nat, x: nat :| MarkRun(t, from, y, x) && Undecided(listed, t, y, x) && Passed(listed, t, from, y);
      OnlyOneFirst(listed, t, from, s, e, y, x);
      EndIsDecided(listed, t, s, e);
    }
  }

  lemma ExcludesWait(listed: WordTable, t: Str, from: nat)
    requires FirstIsUndecided(listed, t, from)
    ensures forall x: nat :: !FirstEnd(listed, t, from, x)
    ensures !Passed(listed, t, from, |t|)
  {
    hide SentenceEnd;
    hide Undecided;
    forall x: nat | FirstEnd(listed, t, from, x) ensures false { Excludes(listed, t, from, x); }
    var y: nat, x: nat :| MarkRun(t, from, y, x) && Undecided(listed, t, y, x) && Passed(listed, t, from, y);
    assert y < |t|;
  }

  lemma ExcludesAll(listed: WordTable, t: Str, from: nat)
    requires Passed(listed, t, from, |t|)
    ensures forall x: nat :: !FirstEnd(listed, t, from, x)
    ensures !FirstIsUndecided(listed, t, from)
  {
    hide SentenceEnd;
    hide Undecided;
  }

  // ---- the segments of a stream -------------------------------------------------------

  /** A sentence of the text ends at `e`. */
  ghost predicate EndsAt(listed: WordTable, t: Str, e: nat) {
    exists s: nat :: MarkRun(t, 0, s, e) && SentenceEnd(listed, t, s, e)
  }

  /** A candidate that starts before `x` cannot be decided yet. */
  ghost predicate UndecidedBefore(listed: WordTable, t: Str, x: nat) {
    exists s: nat, e: nat :: MarkRun(t, 0, s, e) && s < x && Undecided(listed, t, s, e)
  }

  ghost predicate Fence(listed: WordTable, t: Str, p: nat) { p == 0 || EndsAt(listed, t, p) }

  /** What the end of a sentence looks like from both sides. */
  ghost predicate Edge(t: Str, p: nat) {
    || p == 0
    || (&& p <= |t| && (IsTerminator(t[p - 1]) || t[p - 1] == NEWLINE)
        && (p < |t| ==> !SameKind(t[p - 1], t[p]))
        && (t[p - 1] == NEWLINE || (p < |t| && IsSpace(t[p]))))
  }

  lemma FenceIsEdge(listed: WordTable, t: Str, p: nat)
    requires Fence(listed, t, p)
    ensures p <= |t| && Edge(t, p)
    ensures forall a: nat :: a <= p ==> CleanCut(t[a..p], t[p..])
  {
    if p > 0 {
      var s: nat :| MarkRun(t, 0, s, p) && SentenceEnd(listed, t, s, p);
      assert SameKind(t[s], t[p - 1]);
    }
  }

  /** Behind such an edge the runs of the rest are the runs of the text. */
  lemma RunsOfRest(t: Str, p: nat, s: nat, e: nat)
    requires p <= |t| && Edge(t, p)
    ensures MarkRun(t[p..], 0, s, e) <==> MarkRun(t, 0, p + s, p + e)
  {
    var r := t[p..];
    assert forall k :: 0 <= k < |r| ==> r[k] == t[p + k];
    if MarkRun(t, 0, p + s, p + e) {
      forall k | s <= k < e ensures SameKind(r[s], r[k]) { assert SameKind(t[p + s], t[p + k]); }
    }
    if MarkRun(r, 0, s, e) {
      forall k | p + s <= k < p + e ensures SameKind(t[p + s], t[k]) { assert SameKind(r[s], r[k - p]); }
    }
  }

  lemma WordsOfRest(listed: WordTable, t: Str, p: nat, dot: nat)
    requires p <= |t| && Edge(t, p) && p + dot < |t| && t[p + dot] == 46
    ensures Abbreviated(listed, t[p..], dot) <==> Abbreviated(listed, t, p + dot)
  {
    hide BeginsWord;
    hide IsShort;
    hide Edge;
    var r := t[p..];
    if Abbreviated(listed, r, dot) {
      var w: nat :| WordBefore(r, w, dot) && IsShort(listed, r[w..dot]);
      WordInWhole(t, p, w, dot);
      assert r[w..dot] == t[p + w..p + dot];
    }
    if Abbreviated(listed, t, p + dot) {
      var w: nat :| WordBefore(t, w, p + dot) && IsShort(listed, t[w..p + dot]);
      WordInRest(t, p, w, dot);
      assert r[w - p..dot] == t[w..p + dot];
    }
  }

  lemma WordInWhole(t: Str, p: nat, w: nat, dot: nat)
    requires p <= |t| && Edge(t, p) && WordBefore(t[p..], w, dot)
    ensures w < dot <= |t| - p && WordBefore(t, p + w, p + dot)
  {
    var r := t[p..];
    forall k | p + w <= k < p + dot ensures !BeginsWord(t[k]) { assert !BeginsWord(r[k - p]); }
    if w > 0 { assert BeginsWord(r[w - 1]); }
    if w == 0 && p > 0 { assert !BeginsWord(r[0]); }
  }

  lemma WordInRest(t: Str, p: nat, w: nat, dot: nat)
    requires p <= |t| && Edge(t, p) && WordBefore(t, w, p + dot) && p + dot < |t| && t[p + dot] == 46
    ensures p <= w < p + dot && WordBefore(t[p..], w - p, dot)
  {
    var r := t[p..];
    forall k | w - p <= k < dot ensures k >= 0 ==> !BeginsWord(r[k]) {
      if k >= 0 { assert !BeginsWord(t[p + k]); }
    }
  }

  lemma {:induction false} EndsOfRest(listed: WordTable, t: Str, p: nat, s: nat, e: nat)
    requires p <= |t| && Edge(t, p) && MarkRun(t[p..], 0, s, e)
    ensures SentenceEnd(listed, t[p..], s, e) <==> SentenceEnd(listed, t, p + s, p + e)
    ensures Undecided(listed, t[p..], s, e) <==> Undecided(listed, t, p + s, p + e)
  {
    hide Abbreviated;
    var r := t[p..];
    assert r[s] == t[p + s] && (e < |r| ==> r[e] == t[p + e]);
    if r[s] == 46 { WordsOfRest(listed, t, p, s); }
    hide MarkRun;
    hide Edge;
    SpacesOfRest(t, p, e);
  }

  lemma SpacesOfRest(t: Str, p: nat, e: nat)
    requires p + e <= |t|
    ensures (exists n: nat :: NextVisible(t[p..], e, n) && !Continues(t[p..][n]))
       <==> (exists n: nat :: NextVisible(t, p + e, n) && !Continues(t[n]))
    ensures (forall k :: e <= k < |t[p..]| ==> IsSpace(t[p..][k])) <==> (forall k :: p + e <= k < |t| ==> IsSpace(t[k]))
  {
    var r := t[p..];
    if n: nat :| NextVisible(r, e, n) && !Continues(r[n]) {
      forall k | p + e <= k < p + n ensures IsSpace(t[k]) { assert IsSpace(r[k - p]); }
      assert NextVisible(t, p + e, p + n);
    }
    if n: nat :| NextVisible(t, p + e, n) && !Continues(t[n]) {
      forall k | e <= k < n - p ensures IsSpace(r[k]) { assert IsSpace(t[p + k]); }
      assert r[n - p] == t[n];
      assert NextVisible(r, e, n - p);
    }
    if forall k :: e <= k < |r| ==> IsSpace(r[k]) {
      forall k | p + e <= k < |t| ensures IsSpace(t[k]) { assert IsSpace(r[k - p]); }
    }
    if forall k :: p + e <= k < |t| ==> IsSpace(t[k]) {
      forall k | e <= k < |r| ensures IsSpace(r[k]) { assert IsSpace(t[p + k]); }
    }
  }

  /** A run that ends behind an edge starts behind it. */
  lemma StartsBehind(t: Str, p: nat, s: nat, e: nat)
    requires p <= |t| && Edge(t, p) && MarkRun(t, 0, s, e) && e > p
    ensures s >= p
  {
  }

  /** Where the scan of the rest cuts, a sentence of the text ends, and none ends and
      nothing is undecided between. */
  lemma CutOfRest(listed: WordTable, t: Str, p: nat, e: nat)
    requires Fence(listed, t, p) && p <= |t| && Scan(listed, t[p..], 0) == Cut(e)
    ensures EndsAt(listed, t, p + e)
    ensures forall q: nat :: p < q < p + e ==> !EndsAt(listed, t, q)
  {
    hide Scan;
    hide SentenceEnd;
    hide Undecided;
    FenceIsEdge(listed, t, p);
    hide Fence;
    hide Edge;
    ScanMeans(listed, t[p..], 0);
    var s: nat :| MarkRun(t[p..], 0, s, e) && SentenceEnd(listed, t[p..], s, e) && Passed(listed, t[p..], 0, s);
    RunsOfRest(t, p, s, e);
    EndsOfRest(listed, t, p, s, e);
    forall q: nat | p < q < p + e ensures !EndsAt(listed, t, q) { NotBefore(listed, t, p, s, e, q); }
  }

  lemma NotBefore(listed: WordTable, t: Str, p: nat, s: nat, e: nat, q: nat)
    requires p <= |t| && Edge(t, p) && MarkRun(t[p..], 0, s, e) && Passed(listed, t[p..], 0, s) && p < q < p + e
    ensures !EndsAt(listed, t, q)
  {
    hide SentenceEnd;
    hide Undecided;
    forall x: nat | MarkRun(t, 0, x, q) ensures !SentenceEnd(listed, t, x, q) {
      StartsBehind(t, p, x, q);
      RunsOfRest(t, p, x - p, q - p);
      EndsOfRest(listed, t, p, x - p, q - p);
      EarlierRun(t[p..], x - p, q - p, s, e);
    }
  }

  lemma EarlierRun(t: Str, a: nat, x: nat, b: nat, y: nat)
    requires MarkRun(t, 0, a, x) && MarkRun(t, 0, b, y) && x < y
    ensures a < b
  {
  }

  lemma NoCutOfRest(listed: WordTable, t: Str, p: nat)
    requires Fence(listed, t, p) && p <= |t| && !Scan(listed, t[p..], 0).Cut?
    ensures forall q: nat :: q > p && EndsAt(listed, t, q) ==> UndecidedBefore(listed, t, q)
  {
    hide Scan;
    hide SentenceEnd;
    hide Undecided;
    FenceIsEdge(listed, t, p);
    hide Fence;
    hide Edge;
    ScanMeans(listed, t[p..], 0);
    hide MarkRun;
    forall q: nat | q > p && EndsAt(listed, t, q) ensures UndecidedBefore(listed, t, q) {
      var x: nat :| MarkRun(t, 0, x, q) && SentenceEnd(listed, t, x, q);
      StartsBehind(t, p, x, q);
      RunsOfRest(t, p, x - p, q - p);
      EndsOfRest(listed, t, p, x - p, q - p);
      WithinText(t[p..], x - p, q - p);
      var s: nat, e: nat :| MarkRun(t[p..], 0, s, e) && Undecided(listed, t[p..], s, e) && Passed(listed, t[p..], 0, s);
      RunsOfRest(t, p, s, e);
      EndsOfRest(listed, t, p, s, e);
    }
  }

  lemma WithinText(t: Str, s: nat, e: nat)
    requires MarkRun(t, 0, s, e)
    ensures s < e <= |t|
  {
  }

  predicate TooShort(min: nat, said: Str) { said == [] || |said| < min }

  /** Behind `c`, every sentence that ends before `x` leaves too little to be said. */
  ghost predicate ShortUntil(listed: WordTable, min: nat, t: Str, c: nat, x: nat) {
    forall q: nat :: c < q < x && q <= |t| && EndsAt(listed, t, q) ==> TooShort(min, Normalize(t[c..q]))
  }

  /** The segment is the text from `a` to the first end of a sentence, `b`, with which it
      reaches the minimum length. */
  ghost predicate IsSegment(listed: WordTable, min: nat, t: Str, a: nat, b: nat, segment: Str) {
    && a < b <= |t| && segment == Normalize(t[a..b]) && !TooShort(min, segment)
    && EndsAt(listed, t, b) && ShortUntil(listed, min, t, a, b)
  }

  ghost predicate AreSegments(listed: WordTable, min: nat, t: Str, cuts: seq<nat>, segments: seq<Str>) {
    && |cuts| == |segments| + 1
    && forall i :: 0 <= i < |segments| ==> IsSegment(listed, min, t, cuts[i], cuts[i + 1], segments[i])
  }

  /** What is left: the text from the last cut on, of which a part may be held, and in
      which the minimum is reached at no end of a sentence that can be decided. */
  ghost predicate IsRest(listed: WordTable, min: nat, t: Str, c: nat, st: State) {
    && c <= |t| && Pending(st) == Normalize(t[c..])
    && forall q: nat :: c < q <= |t| && EndsAt(listed, t, q) ==>
         TooShort(min, Normalize(t[c..q])) || UndecidedBefore(listed, t, q)
  }

  /** On the way: the text up to `p` is used up, and what it left since `c` is held. */
  ghost predicate OnTheWay(listed: WordTable, min: nat, t: Str, c: nat, p: nat, st: State) {
    && c <= p <= |t| && Fence(listed, t, p) && st.buffer == t[p..] && GoodHeld(min, st.held)
    && HeldText(st) == Normalize(t[c..p]) && ShortUntil(listed, min, t, c, p + 1)
  }

  lemma TakeStep(listed: WordTable, min: nat, t: Str, c: nat, p: nat, st: State, e: nat) returns (c': nat)
    requires OnTheWay(listed, min, t, c, p, st) && Scan(listed, st.buffer, 0) == Cut(e)
    ensures var step := Take(min, st, e);
      && p + e <= |t| && OnTheWay(listed, min, t, c', p + e, step.next)
      && (step.head == [] ==> c' == c)
      && (step.head != [] ==> |step.head| == 1 && IsSegment(listed, min, t, c, c', step.head[0]))
  {
    hide Scan;
    hide EndsAt;
    hide Normalize;
    FenceIsEdge(listed, t, p);
    CutOfRest(listed, t, p, e);
    hide Fence;
    var sentence := Normalize(t[p..p + e]);
    assert t[p..][..e] == t[p..p + e] && t[p..][e..] == t[p + e..];
    HeldGrows(t, c, p, p + e);
    MergeIsGlue(st, sentence);
    assert ShortUntil(listed, min, t, c, p + e);
    assert Fence(listed, t, p + e) by { FenceAt(listed, t, p + e); }
    c' := if Take(min, st, e).head == [] then c else p + e;
    NothingToSay(t, p + e);
  }

  lemma FenceAt(listed: WordTable, t: Str, p: nat)
    requires EndsAt(listed, t, p)
    ensures Fence(listed, t, p)
  {
  }

  lemma NothingToSay(t: Str, p: nat)
    requires p <= |t|
    ensures Normalize(t[p..p]) == []
  {
    NormalizeAllSpace(t[p..p]);
  }

  lemma MergeIsGlue(st: State, sentence: Str)
    requires st.held.Some? ==> st.held.value != []
    ensures sentence != [] ==> Merge(st.held, sentence) == Glue(HeldText(st), sentence)
  {
  }

  lemma HeldGrows(t: Str, c: nat, p: nat, q: nat)
    requires c <= p <= q <= |t| && CleanCut(t[c..p], t[p..])
    ensures Normalize(t[c..q]) == Glue(Normalize(t[c..p]), Normalize(t[p..q]))
  {
    assert t[c..q] == t[c..p] + t[p..q];
    NormalizeCut(t[c..p], t[p..q]);
  }

  lemma {:induction false} DrainSegments(listed: WordTable, min: nat, t: Str, c: nat, p: nat, st: State)
    returns (cuts: seq<nat>)
    requires OnTheWay(listed, min, t, c, p, st)
    ensures var fed := Drain(listed, min, st);
      && AreSegments(listed, min, t, cuts, fed.out) && cuts[0] == c
      && IsRest(listed, min, t, cuts[|cuts| - 1], fed.state)
    decreases |st.buffer|
  {
    hide Scan;
    hide Take;
    hide OnTheWay;
    hide IsSegment;
    hide IsRest;
    DrainStep(listed, min, st);
    var b := Scan(listed, st.buffer, 0);
    if b.Cut? {
      var c' := TakeStep(listed, min, t, c, p, st, b.end);
      var step := Take(min, st, b.end);
      var rest := DrainSegments(listed, min, t, c', p + b.end, step.next);
      var more := Drain(listed, min, step.next);
      if step.head == [] {
        cuts := rest;
        assert step.head + more.out == more.out;
      } else {
        cuts := [c] + rest;
        OneMoreSegment(listed, min, t, c, rest, step.head[0], more.out);
        assert step.head == [step.head[0]];
      }
    } else {
      cuts := [c];
      RestAtTheEnd(listed, min, t, c, p, st);
    }
  }

  lemma OneMoreSegment(listed: WordTable, min: nat, t: Str, c: nat, cuts: seq<nat>, segment: Str, more: seq<Str>)
    requires AreSegments(listed, min, t, cuts, more) && IsSegment(listed, min, t, c, cuts[0], segment)
    ensures AreSegments(listed, min, t, [c] + cuts, [segment] + more)
  {
    hide IsSegment;
    var cs, out := [c] + cuts, [segment] + more;
    forall i | 0 <= i < |out| ensures IsSegment(listed, min, t, cs[i], cs[i + 1], out[i]) {
      if i > 0 { assert IsSegment(listed, min, t, cuts[i - 1], cuts[i], more[i - 1]); }
    }
  }

  lemma RestAtTheEnd(listed: WordTable, min: nat, t: Str, c: nat, p: nat, st: State)
    requires OnTheWay(listed, min, t, c, p, st) && !Scan(listed, st.buffer, 0).Cut?
    ensures IsRest(listed, min, t, c, st)
  {
    hide Scan;
    hide EndsAt;
    hide UndecidedBefore;
    hide Normalize;
    NoCutOfRest(listed, t, p);
    FenceIsEdge(listed, t, p);
    hide Fence;
    HeldGrows(t, c, p, |t|);
    assert t[c..|t|] == t[c..] && t[p..|t|] == t[p..];
  }

  /** The segments of a stream, however it is chunked: each ends with a sentence of the
      text, and at the first one with which it is long enough; what is not emitted yet
      has no such end that can be decided. */
  lemma {:induction false} SegmentsEndSentences(listed: WordTable, min: nat, deltas: seq<Str>) returns (cuts: seq<nat>)
    ensures var fed := FeedAll(listed, min, START, deltas);
      && AreSegments(listed, min, Flat(deltas), cuts, fed.out) && cuts[0] == 0
      && IsRest(listed, min, Flat(deltas), cuts[|cuts| - 1], fed.state)
  {
    hide Drain;
    hide FeedAll;
    var t := Flat(deltas);
    ChunkingIndependence(listed, min, START, deltas);
    NothingToSay(t, 0);
    assert [] + t == t && t[0..] == t;
    if t == [] {
      cuts := [0];
    } else {
      cuts := DrainSegments(listed, min, t, 0, 0, State(t, None));
    }
  }

  /** "Rs. A": the dot ends a sentence exactly when "Rs" is no abbreviation. */
  lemma ListedWordsGoOn(listed: WordTable)
    ensures var t: Str := [82, 115, 46, 32, 65];
      Scan(listed, t, 0) == if listed([82, 115]) then NoBoundary else Cut(3)
  {
    var t: Str := [82, 115, 46, 32, 65];
    assert NextMark(t, 2) == 2 && NextMark(t, 1) == 2 && NextMark(t, 0) == 2;
    assert WordStart(t, 1) == 0 && t[0..2] == [82, 115];
    assert NextMark(t, 4) == 5 && NextMark(t, 3) == 5;
    assert SkipSpaces(t, 3) == 4;
  }
}
