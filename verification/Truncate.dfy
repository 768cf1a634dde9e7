/** Truncation that never splits a code point, and the longest truncation that
    fits an estimated token budget. */
module Truncate {
  import opened Common
  import opened Text

  predicate IsHigh(u: Unit) { 0xD800 <= u <= 0xDBFF }
  predicate IsLow(u: Unit) { 0xDC00 <= u <= 0xDFFF }

  function CodePointAt(t: Str, i: nat): int
    requires i < |t|
  {
    if IsHigh(t[i]) && i + 1 < |t| && IsLow(t[i + 1])
    then 0x1_0000 + (t[i] as int - 0xD800) * 0x400 + (t[i + 1] as int - 0xDC00)
    else t[i] as int
  }

  predicate IsIndicMark(code: int) {
    var offset := code % 128;
    || 0 <= offset <= 3 || 0x3e <= offset <= 0x4d || 0x51 <= offset <= 0x57
    || 0x62 <= offset <= 0x63 || offset == 0x3c
  }

  predicate IsCombining(code: int) {
    || 0x0300 <= code <= 0x036f || (0x0900 <= code <= 0x0dff && IsIndicMark(code))
    || code == 0x200c || code == 0x200d || 0xfe00 <= code <= 0xfe0f
  }

  /** A virama or a joiner promises more characters. */
  predicate IsTrailingIncomplete(code: int) {
    code == 0x200c || code == 0x200d || (0x0900 <= code <= 0x0dff && code % 128 == 0x4d)
  }

  predicate IsBreak(u: Unit) {
    IsSpace(u) || u in {0x0964, 0x0965, 46, 44, 59, 58, 33, 63, 0x2014, 0x2013, 45}
  }

  const WORD_BOUNDARY_WINDOW := 24

  // ---- where the text is cut -------------------------------------------------

  /** Rule 1: not after the high half of a pair. */
  function OffHighHalf(t: Str, end: nat): (e: nat)
    requires 0 < end <= |t|
    ensures e <= end
  {
    if IsHigh(t[end - 1]) then end - 1 else end
  }

  function OneBack(t: Str, end: nat): (e: nat)
    requires 0 < end <= |t|
    ensures e < end
  {
    if end > 1 && IsHigh(t[end - 2]) then end - 2 else end - 1
  }

  predicate OrphansMark(t: Str, end: nat) {
    0 < end < |t| && IsCombining(CodePointAt(t, end))
  }

  /** Rule 2: walk back off a cluster. */
  function OffCluster(t: Str, end: nat): (e: nat)
    requires end <= |t|
    ensures e <= end && !OrphansMark(t, e)
  {
    if OrphansMark(t, end) then OffCluster(t, OneBack(t, end)) else end
  }

  /** Rule 2b: not after a virama or a joiner. */
  function OffIncomplete(t: Str, end: nat): (e: nat)
    requires end <= |t|
    ensures e <= end && (e > 0 ==> !IsTrailingIncomplete(CodePointAt(t, e - 1)))
  {
    if end > 0 && IsTrailingIncomplete(CodePointAt(t, end - 1)) then OffIncomplete(t, end - 1) else end
  }

  /** Just after the last break in `t[lo..i]`, if there is one. */
  function AfterBreak(t: Str, lo: nat, i: nat): (c: Option<nat>)
    requires lo <= i <= |t|
    ensures c.Some? ==> lo < c.value <= i && IsBreak(t[c.value - 1])
    ensures c.Some? ==> forall k :: c.value <= k < i ==> !IsBreak(t[k])
    ensures c.None? ==> forall k :: lo <= k < i ==> !IsBreak(t[k])
  {
    if i == lo then None else if IsBreak(t[i - 1]) then Some(i) else AfterBreak(t, lo, i - 1)
  }

  function TrimmedLength(t: Str, c: nat): (n: nat)
    requires c <= |t|
    ensures n <= c && (n > 0 ==> !IsSpace(t[n - 1])) && forall k :: n <= k < c ==> IsSpace(t[k])
  {
    if c > 0 && IsSpace(t[c - 1]) then TrimmedLength(t, c - 1) else c
  }

  /** Rule 3: a word boundary close by. */
  function OnWord(t: Str, end: nat): (n: nat)
    requires end <= |t|
    ensures n <= end
  {
    var lo := if end >= WORD_BOUNDARY_WINDOW then end - WORD_BOUNDARY_WINDOW else 0;
    var c := AfterBreak(t, lo, end);
    if c.Some? then TrimmedLength(t, c.value) else end
  }

  function Settled(t: Str, max: nat): (e: nat)
    requires 0 < max < |t|
    ensures e <= max
  {
    OffIncomplete(t, OffCluster(t, OffHighHalf(t, max)))
  }

  /** How many code units `truncateChars` keeps. */
  function Kept(t: Str, max: int): (n: nat)
    ensures n <= |t| && (max >= 0 ==> n <= max)
  {
    if max <= 0 then 0 else if |t| <= max then |t| else OnWord(t, Settled(t, max))
  }

  lemma {:induction false} TrimmedPrefix(t: Str, c: nat)
    requires c <= |t|
    ensures TrimEnd(t[..c]) == t[..TrimmedLength(t, c)]
  {
    if c > 0 && IsSpace(t[c - 1]) {
      assert t[..c][..c - 1] == t[..c - 1];
      TrimmedPrefix(t, c - 1);
    }
  }

  /** At most `max` units, as a prefix of the text. */
  method TruncateChars(t: Str, max: int) returns (r: Str)
    ensures r == t[..Kept(t, max)] && (max >= 0 ==> |r| <= max)
  {
    hide Settled;
    if max <= 0 { return []; }
    if |t| <= max { return t; }
    var end := SettleEnd(t, max);
    var lo := if end >= WORD_BOUNDARY_WINDOW then end - WORD_BOUNDARY_WINDOW else 0;
    var i := end;
    while i > lo
      invariant lo <= i <= end && AfterBreak(t, lo, end) == AfterBreak(t, lo, i)
    {
      if IsBreak(t[i - 1]) {
        TrimmedPrefix(t, i);
        return TrimEnd(t[..i]);
      }
      i := i - 1;
    }
    r := t[..end];
  }

  /** Rules 1, 2 and 2b. */
  method SettleEnd(t: Str, max: nat) returns (end: nat)
    requires 0 < max < |t|
    ensures end == Settled(t, max)
  {
    hide CodePointAt;
    hide IsCombining;
    hide IsTrailingIncomplete;
    end := max;
    if IsHigh(t[end - 1]) { end := end - 1; }
    ghost var start := end;
    while end > 0
      invariant end <= max && OffCluster(t, start) == OffCluster(t, end)
    {
      if !IsCombining(CodePointAt(t, end)) { break; }
      end := end - 1;
      if end > 0 && IsHigh(t[end - 1]) { end := end - 1; }
    }
    ghost var stop := end;
    assert stop == OffCluster(t, start);
    while end > 0 && IsTrailingIncomplete(CodePointAt(t, end - 1))
      invariant end <= max && OffIncomplete(t, stop) == OffIncomplete(t, end)
    {
      end := end - 1;
    }
  }

  // ---- no pair is split, in any text -------------------------------------------

  predicate Splits(t: Str, c: nat) { 0 < c < |t| && IsHigh(t[c - 1]) && IsLow(t[c]) }

  /** Positions the walk-back can stand on: between a high half and what follows
      it only when what follows is a high half again. */
  predicate Standing(t: Str, p: nat) { p == 0 || p >= |t| || !IsHigh(t[p - 1]) || IsHigh(t[p]) }

  lemma {:induction false} ClusterWalkStands(t: Str, p: nat)
    requires p < |t| && Standing(t, p)
    ensures Standing(t, OffCluster(t, p))
  {
    if OrphansMark(t, p) { ClusterWalkStands(t, OneBack(t, p)); }
  }

  lemma {:induction false} IncompleteWalkIsClean(t: Str, p: nat)
    requires p <= |t| && !Splits(t, p)
    ensures !Splits(t, OffIncomplete(t, p))
  {
    if p > 0 && IsTrailingIncomplete(CodePointAt(t, p - 1)) { IncompleteWalkIsClean(t, p - 1); }
  }

  /** The cut never falls inside a surrogate pair, whatever the text. */
  lemma NeverSplitsAPair(t: Str, max: int)
    ensures !Splits(t, Kept(t, max))
  {
    if 0 < max < |t| {
      ClusterWalkStands(t, OffHighHalf(t, max));
      IncompleteWalkIsClean(t, OffCluster(t, OffHighHalf(t, max)));
    }
  }

  // ---- a larger limit never keeps less ------------------------------------------

  lemma {:induction false} ClusterWalkMonotone(t: Str, p: nat, q: nat)
    requires p <= q < |t| && Standing(t, p) && Standing(t, q)
    ensures OffCluster(t, p) <= OffCluster(t, q)
    decreases q
  {
    if p < q && OrphansMark(t, q) {
      var q' := OneBack(t, q);
      assert p <= q';
      ClusterWalkMonotone(t, p, q');
    }
  }

  lemma {:induction false} IncompleteWalkMonotone(t: Str, p: nat, q: nat)
    requires p <= q <= |t|
    ensures OffIncomplete(t, p) <= OffIncomplete(t, q)
    decreases q
  {
    if p < q && IsTrailingIncomplete(CodePointAt(t, q - 1)) { IncompleteWalkMonotone(t, p, q - 1); }
  }

  lemma {:induction false} TrimThroughSpaces(t: Str, p: nat, c: nat)
    requires p <= c <= |t| && forall k :: p <= k < c ==> IsSpace(t[k])
    ensures TrimmedLength(t, p) == TrimmedLength(t, c)
    decreases c
  {
    if p < c { TrimThroughSpaces(t, p, c - 1); }
  }

  /** The word-boundary jump can go back 24 units, and through any run of
      whitespace, and still keeps the order. */
  lemma WordJumpMonotone(t: Str, p: nat, q: nat)
    requires p <= q <= |t|
    ensures OnWord(t, p) <= OnWord(t, q)
  {
    var lo := if q >= WORD_BOUNDARY_WINDOW then q - WORD_BOUNDARY_WINDOW else 0;
    var c := AfterBreak(t, lo, q);
    if c.Some? {
      if c.value <= p {
        var lo' := if p >= WORD_BOUNDARY_WINDOW then p - WORD_BOUNDARY_WINDOW else 0;
        assert IsBreak(t[c.value - 1]);
        assert AfterBreak(t, lo', p) == c;
      } else if TrimmedLength(t, c.value) < p {
        TrimThroughSpaces(t, p, c.value);
        assert IsSpace(t[p - 1]) && IsBreak(t[p - 1]);
      }
    }
  }

  lemma KeptIsMonotone(t: Str, a: int, b: int)
    requires a <= b
    ensures Kept(t, a) <= Kept(t, b)
  {
    if 0 < a && b < |t| {
      var p, q := OffHighHalf(t, a), OffHighHalf(t, b);
      ClusterWalkMonotone(t, p, q);
      IncompleteWalkMonotone(t, OffCluster(t, p), OffCluster(t, q));
      WordJumpMonotone(t, Settled(t, a), Settled(t, b));
    }
  }

  // ---- rule 2 and the later rules -----------------------------------------------

  /** The code's own rule 2, "never cut before a combining mark", can be re-opened
      by rule 2b: the cut after a consonant and its virama backs up to just before
      the virama. */
  lemma IncompleteReopensTheCluster()
    ensures var t: Str := [0x0C15, 0x0C4D, 0x0C37];
      Kept(t, 2) == 1 && OrphansMark(t, 1) && !OrphansMark(t, 2)
  {
    var t: Str := [0x0C15, 0x0C4D, 0x0C37];
    assert OffHighHalf(t, 2) == 2;
    assert OffIncomplete(t, 1) == 1;
    assert Settled(t, 2) == 1;
    assert AfterBreak(t, 0, 0) == None;
    assert AfterBreak(t, 0, 1) == None;
  }

  /** And by the word-boundary jump: the settled cut leaves no mark alone, but the jump
      goes back to a full stop that carries one. */
  lemma WordJumpReopensTheCluster()
    ensures var t: Str := [97, 46, 0x0301, 99, 100];
      Settled(t, 4) == 4 && !OrphansMark(t, 4) && Kept(t, 4) == 2 && OrphansMark(t, 2)
  {
    var t: Str := [97, 46, 0x0301, 99, 100];
    assert OffHighHalf(t, 4) == 4 && OffCluster(t, 4) == 4 && OffIncomplete(t, 4) == 4;
    assert AfterBreak(t, 0, 2) == Some(2);
    assert AfterBreak(t, 0, 3) == Some(2);
    assert TrimmedLength(t, 2) == 2;
  }

  predicate Unfinished(t: Str, p: nat)
    requires p < |t|
  {
    IsTrailingIncomplete(CodePointAt(t, p))
  }

  /** With a word boundary at `c` to jump to: it is no whitespace, so that nothing is
      trimmed, and a mark follows it. With none: the text before the cluster walk's
      stop ends on a virama or joiner, and is not made of those alone. */
  predicate LeavesAMark(t: Str, max: nat)
    requires 0 < max < |t|
  {
    var stop, end := OffCluster(t, OffHighHalf(t, max)), Settled(t, max);
    match AfterBreak(t, if end >= WORD_BOUNDARY_WINDOW then end - WORD_BOUNDARY_WINDOW else 0, end)
    case Some(c) => !IsSpace(t[c - 1]) && IsCombining(CodePointAt(t, c))
    case None => stop > 0 && Unfinished(t, stop - 1) && exists p :: 0 <= p < stop && !Unfinished(t, p)
  }

  /** The exact condition: what `truncateChars` keeps is cut off from a mark in these
      cases and no other. */
  lemma ClusterRuleHoldsIff(t: Str, max: int)
    ensures OrphansMark(t, Kept(t, max)) <==> 0 < max < |t| && LeavesAMark(t, max)
  {
    hide CodePointAt;
    hide IsTrailingIncomplete;
    hide IsCombining;
    if 0 < max < |t| {
      var stop, end := OffCluster(t, OffHighHalf(t, max)), Settled(t, max);
      var c := AfterBreak(t, if end >= WORD_BOUNDARY_WINDOW then end - WORD_BOUNDARY_WINDOW else 0, end);
      if c.Some? {
        BreakKeepsIff(t, c.value);
      } else {
        SettledKeepsIff(t, stop);
      }
    }
  }

  lemma BreakKeepsIff(t: Str, c: nat)
    requires 0 < c < |t|
    ensures OrphansMark(t, TrimmedLength(t, c)) <==> !IsSpace(t[c - 1]) && IsCombining(CodePointAt(t, c))
  {
    var n := TrimmedLength(t, c);
    if n < c { assert IsSpace(t[n]); }
  }

  lemma SettledKeepsIff(t: Str, stop: nat)
    requires stop <= |t| && !OrphansMark(t, stop)
    ensures OrphansMark(t, OffIncomplete(t, stop)) <==>
      stop > 0 && Unfinished(t, stop - 1) && exists p :: 0 <= p < stop && !Unfinished(t, p)
  {
    hide CodePointAt;
    OffIncompleteStops(t, stop);
    var e := OffIncomplete(t, stop);
    if stop > 0 && Unfinished(t, stop - 1) {
      IncompleteStopsBeforeMark(t, stop);
      if e > 0 { assert !Unfinished(t, e - 1); }
    }
  }

  /** Everything the walk passes is a virama or a joiner. */
  lemma {:induction false} OffIncompleteStops(t: Str, p: nat)
    requires p <= |t|
    ensures forall k :: OffIncomplete(t, p) <= k < p ==> Unfinished(t, k)
  {
    if p > 0 && Unfinished(t, p - 1) { OffIncompleteStops(t, p - 1); }
  }

  lemma {:induction false} IncompleteStopsBeforeMark(t: Str, p: nat)
    requires 0 < p <= |t| && IsTrailingIncomplete(CodePointAt(t, p - 1))
    ensures var e := OffIncomplete(t, p);
      e < p && IsTrailingIncomplete(CodePointAt(t, e)) && (e > 0 ==> OrphansMark(t, e))
  {
    if p > 1 && IsTrailingIncomplete(CodePointAt(t, p - 2)) { IncompleteStopsBeforeMark(t, p - 1); }
  }

  // ---- nothing is cut off that need not be ------------------------------------------

  lemma {:induction false} ClusterWalkIsTight(t: Str, start: nat, p: nat)
    requires start <= |t| && OffCluster(t, start) < p <= start && Standing(t, p) && Standing(t, start) && start < |t|
    ensures OrphansMark(t, p)
    decreases start
  {
    if p < start {
      var back := OneBack(t, start);
      assert p <= back;
      ClusterWalkIsTight(t, back, p);
    }
  }

  /** Between `end` and the limit there is no place to cut: each is behind the high half of
      a pair, in front of a mark, or behind a virama or joiner. */
  ghost predicate NoPlaceBetween(t: Str, max: nat, end: nat, stop: nat)
    requires max < |t|
  {
    && end <= stop <= max
    && (forall p: nat :: stop < p <= max && !IsHigh(t[p - 1]) ==> OrphansMark(t, p))
    && (forall k :: end <= k < stop ==> Unfinished(t, k))
  }

  /** `c` is the last word boundary of the 24 units before `end`; whitespace before it goes. */
  ghost predicate LastBoundary(t: Str, end: nat, c: nat, kept: nat)
    requires end <= |t|
  {
    && end < c + 24 && 0 < c <= end && IsBreak(t[c - 1]) && (forall k :: c <= k < end ==> !IsBreak(t[k]))
    && kept <= c && (forall k :: kept <= k < c ==> IsSpace(t[k])) && (kept > 0 ==> !IsSpace(t[kept - 1]))
  }

  ghost predicate NoBoundary(t: Str, end: nat)
    requires end <= |t|
  {
    forall k :: 0 <= k && end - 24 <= k < end ==> !IsBreak(t[k])
  }

  lemma WordJumpIsTight(t: Str, end: nat)
    requires end <= |t|
    ensures (OnWord(t, end) == end && NoBoundary(t, end)) || exists c: nat :: LastBoundary(t, end, c, OnWord(t, end))
  {
    var lo := if end >= WORD_BOUNDARY_WINDOW then end - WORD_BOUNDARY_WINDOW else 0;
    var c := AfterBreak(t, lo, end);
    if c.Some? { assert LastBoundary(t, end, c.value, OnWord(t, end)); }
  }

  /** No more is cut off than the rules ask for. */
  lemma TruncationIsTight(t: Str, max: nat) returns (end: nat, stop: nat)
    requires 0 < max < |t|
    ensures NoPlaceBetween(t, max, end, stop)
    ensures (Kept(t, max) == end && NoBoundary(t, end)) || exists c: nat :: LastBoundary(t, end, c, Kept(t, max))
  {
    hide CodePointAt;
    hide IsTrailingIncomplete;
    hide IsCombining;
    var start := OffHighHalf(t, max);
    stop := OffCluster(t, start);
    end := OffIncomplete(t, stop);
    OffIncompleteStops(t, stop);
    WordJumpIsTight(t, end);
    hide OnWord;
    hide OffIncomplete;
    forall p: nat | stop < p <= max && !IsHigh(t[p - 1]) ensures OrphansMark(t, p) { ClusterWalkIsTight(t, start, p); }
  }

  // ---- the estimated token budget ---------------------------------------------

  datatype Script = Latin | Indic | Cjk | Other | Astral

  function Classify(code: int): Script {
    if code > 0xffff then Astral
    else if code <= 0x024f then Latin
    else if 0x0900 <= code <= 0x0dff then Indic
    else if 0x3040 <= code <= 0x30ff || 0x3400 <= code <= 0x4dbf || 0x4e00 <= code <= 0x9fff
         || 0xac00 <= code <= 0xd7af || 0xf900 <= code <= 0xfaff then Cjk
    else if 0x2010 <= code <= 0x205f then Latin
    else Other
  }

  /** Quarter tokens per code point, by script. */
  type Weights = Script -> nat

  predicate PairAt(t: Str, i: nat, end: nat)
    requires i < end <= |t|
  {
    IsHigh(t[i]) && i + 1 < end && IsLow(t[i + 1])
  }

  /** The weighted code points of `t[i..end]`. */
  function Cost(w: Weights, t: Str, i: nat, end: nat): nat
    requires end <= |t|
    decreases |t| - i
  {
    if i >= end then 0
    else if PairAt(t, i, end) then w(Astral) + Cost(w, t, i + 2, end)
    else w(Classify(t[i] as int)) + Cost(w, t, i + 1, end)
  }

  /** Whole tokens, rounded up; a non-empty text costs at least one. */
  function Tokens(cost: nat, empty: bool): nat {
    if empty then 0 else if cost <= 4 then 1 else (cost + 3) / 4
  }

  function Estimate(w: Weights, t: Str): nat { Tokens(Cost(w, t, 0, |t|), t == []) }

  method EstimateTokens(w: Weights, t: Str) returns (n: nat)
    ensures n == Estimate(w, t)
  {
    var i, weighted: nat := 0, 0;
    while i < |t|
      invariant Cost(w, t, 0, |t|) == weighted + Cost(w, t, i, |t|)
      decreases |t| - i
    {
      var code := CodePointAt(t, i);
      weighted := weighted + w(Classify(code));
      i := i + if code > 0xffff then 2 else 1;
    }
    n := Tokens(weighted, t == []);
  }

  /** Rounded up to whole tokens: no less than the weighted text, and less than one token
      more, except that any text at all costs one. */
  lemma EstimateCovers(w: Weights, t: Str)
    ensures var cost, tokens := Cost(w, t, 0, |t|), Estimate(w, t);
      && 4 * tokens >= (if t == [] then 0 else cost)
      && (tokens > 1 ==> 4 * tokens < cost + 4)
      && (tokens == 0 <==> t == [])
  {
  }

  predicate IsScalar(code: int) { 0 <= code < 0xD800 || 0xDFFF < code <= 0x10FFFF }

  /** UTF-16. */
  function Encoded(code: int): (t: Str)
    requires IsScalar(code)
    ensures |t| == if code > 0xFFFF then 2 else 1
  {
    if code <= 0xFFFF then [code as Unit]
    else [((code - 0x1_0000) / 0x400 + 0xD800) as Unit, ((code - 0x1_0000) % 0x400 + 0xDC00) as Unit]
  }

  function EncodedAll(codes: seq<int>): Str
    requires forall k :: 0 <= k < |codes| ==> IsScalar(codes[k])
  {
    if codes == [] then [] else Encoded(codes[0]) + EncodedAll(codes[1..])
  }

  /** The weights of the characters, one by one. */
  function WeightOf(w: Weights, codes: seq<int>): nat {
    if codes == [] then 0 else w(Classify(codes[0])) + WeightOf(w, codes[1..])
  }

  /** A text costs the weights of its characters: one for each, pairs included. */
  lemma {:induction false} CostOfCharacters(w: Weights, codes: seq<int>)
    requires forall k :: 0 <= k < |codes| ==> IsScalar(codes[k])
    ensures Cost(w, EncodedAll(codes), 0, |EncodedAll(codes)|) == WeightOf(w, codes)
  {
    if codes != [] {
      var one, rest := Encoded(codes[0]), EncodedAll(codes[1..]);
      CostOfCharacters(w, codes[1..]);
      CostOfRest(w, one, rest, 0);
      assert EncodedAll(codes) == one + rest;
    }
  }

  lemma {:induction false} CostOfRest(w: Weights, a: Str, b: Str, i: nat)
    requires i <= |b|
    ensures Cost(w, a + b, |a| + i, |a + b|) == Cost(w, b, i, |b|)
    decreases |b| - i
  {
    if i < |b| {
      assert PairAt(a + b, |a| + i, |a + b|) == PairAt(b, i, |b|);
      CostOfRest(w, a, b, i + 1);
      if PairAt(b, i, |b|) { CostOfRest(w, a, b, i + 2); }
    }
  }

  lemma {:induction false} CostOfPrefix(w: Weights, t: Str, i: nat, end: nat)
    requires end <= |t|
    ensures Cost(w, t[..end], i, end) == Cost(w, t, i, end)
    decreases |t| - i
  {
    if i < end {
      assert PairAt(t[..end], i, end) == PairAt(t, i, end);
      CostOfPrefix(w, t, i + 1, end);
      if PairAt(t, i, end) { CostOfPrefix(w, t, i + 2, end); }
    }
  }

  lemma {:induction false} CostIsMonotone(w: Weights, t: Str, i: nat, c: nat, d: nat)
    requires c <= d <= |t| && !Splits(t, c)
    ensures Cost(w, t, i, c) <= Cost(w, t, i, d)
    decreases |t| - i
  {
    if i < c {
      if PairAt(t, i, d) {
        assert i + 1 != c;
        CostIsMonotone(w, t, i + 2, c, d);
      } else {
        CostIsMonotone(w, t, i + 1, c, d);
      }
    }
  }

  /** A larger character limit never estimates to fewer tokens. */
  lemma EstimateIsMonotone(w: Weights, t: Str, a: int, b: int)
    requires a <= b
    ensures Estimate(w, t[..Kept(t, a)]) <= Estimate(w, t[..Kept(t, b)])
  {
    var c, d := Kept(t, a), Kept(t, b);
    KeptIsMonotone(t, a, b);
    NeverSplitsAPair(t, a);
    CostOfPrefix(w, t, 0, c);
    CostOfPrefix(w, t, 0, d);
    CostIsMonotone(w, t, 0, c, d);
  }

  /** `r` is a truncation within the budget, and no truncation within the budget
      says more. */
  ghost predicate LongestFitting(w: Weights, t: Str, maxTokens: int, r: Str) {
    && Estimate(w, r) <= maxTokens
    && (exists k: int :: r == t[..Kept(t, k)])
    && forall k: int :: Estimate(w, t[..Kept(t, k)]) <= maxTokens ==> t[..Kept(t, k)] <= r
  }

  /** The binary search finds the longest truncation that fits. */
  method TruncateToEstimatedTokens(w: Weights, t: Str, maxTokens: int) returns (r: Str)
    ensures maxTokens > 0 ==> LongestFitting(w, t, maxTokens, r)
    ensures maxTokens <= 0 ==> r == []
  {
    hide Kept;
    if maxTokens <= 0 { return []; }
    var whole := EstimateTokens(w, t);
    if whole <= maxTokens {
      WholeTextFits(w, t, maxTokens);
      return t;
    }
    var low, high: int := 0, |t|;
    r := [];
    ghost var at: int := -1;
    NothingKept(t);
    while low <= high
      invariant 0 <= low <= high + 1 <= |t| + 1 && at == low - 1
      invariant r == t[..Kept(t, at)] && Estimate(w, r) <= maxTokens
      invariant forall k: int :: high < k <= |t| ==> Estimate(w, t[..Kept(t, k)]) > maxTokens
    {
      var mid := (low + high) / 2;
      var candidate := TruncateChars(t, mid);
      var count := EstimateTokens(w, candidate);
      if count <= maxTokens {
        r, at, low := candidate, mid, mid + 1;
      } else {
        forall k: int | mid < k <= |t| ensures Estimate(w, t[..Kept(t, k)]) > maxTokens {
          EstimateIsMonotone(w, t, mid, k);
        }
        high := mid - 1;
      }
    }
    SearchDone(w, t, maxTokens, at, r);
  }

  lemma NothingKept(t: Str)
    ensures t[..Kept(t, -1)] == []
  {
  }

  lemma WholeTextFits(w: Weights, t: Str, maxTokens: int)
    requires Estimate(w, t) <= maxTokens
    ensures LongestFitting(w, t, maxTokens, t)
  {
    assert t == t[..Kept(t, |t|)];
  }

  lemma SearchDone(w: Weights, t: Str, maxTokens: int, at: int, r: Str)
    requires -1 <= at <= |t| && r == t[..Kept(t, at)] && Estimate(w, r) <= maxTokens
    requires forall k: int :: at < k <= |t| ==> Estimate(w, t[..Kept(t, k)]) > maxTokens
    ensures LongestFitting(w, t, maxTokens, r)
  {
    forall k: int | Estimate(w, t[..Kept(t, k)]) <= maxTokens ensures t[..Kept(t, k)] <= r {
      if k <= at {
        KeptIsMonotone(t, k, at);
      } else {
        assert k > |t|;
        assert Kept(t, k) == Kept(t, |t|) == |t|;
      }
    }
  }
}
