/** Splits a reply into speakable pieces: at sentence ends, with short fragments
    merged forward and over-long sentences split again. */
module SpeechChunks {
  import opened Common
  import opened Text

  // ---- what must survive -----------------------------------------------------------------

  /** The text without its whitespace. */
  function Ink(t: Str): Str {
    if t == [] then [] else (if IsSpace(t[0]) then [] else [t[0]]) + Ink(t[1..])
  }

  function InkOf(parts: seq<Str>): Str {
    if parts == [] then [] else Ink(parts[0]) + InkOf(parts[1..])
  }

  lemma {:induction false} InkJoins(a: Str, b: Str)
    ensures Ink(a + b) == Ink(a) + Ink(b)
  {
    if a == [] {
      assert a + b == b;
    } else {
      TailOfSum(a, b);
      InkJoins(a[1..], b);
      var first := if IsSpace(a[0]) then [] else [a[0]];
      assert first + (Ink(a[1..]) + Ink(b)) == (first + Ink(a[1..])) + Ink(b);
    }
  }

  lemma {:induction false} InkOfJoins(a: seq<Str>, b: seq<Str>)
    ensures InkOf(a + b) == InkOf(a) + InkOf(b)
  {
    hide Ink;
    if a == [] {
      assert a + b == b;
    } else {
      TailOfSum(a, b);
      InkOfJoins(a[1..], b);
      assert Ink(a[0]) + (InkOf(a[1..]) + InkOf(b)) == (Ink(a[0]) + InkOf(a[1..])) + InkOf(b);
    }
  }

  lemma InkOfOneMore(parts: seq<Str>, last: Str)
    ensures InkOf(parts + [last]) == InkOf(parts) + Ink(last)
  {
    InkOfJoins(parts, [last]);
    assert [last][1..] == [];
  }

  lemma {:induction false} InkOfSpace(t: Str)
    requires forall k :: 0 <= k < |t| ==> IsSpace(t[k])
    ensures Ink(t) == []
  {
    if t != [] { InkOfSpace(t[1..]); }
  }

  lemma InkOfTrim(t: Str)
    ensures Ink(Trim(t)) == Ink(t)
  {
    hide Ink;
    hide TrimStart;
    hide TrimEnd;
    var a := TrimStart(t);
    TrimStartFacts(t);
    var front := t[..|t| - |a|];
    assert t == front + a;
    InkJoins(front, a);
    InkOfSpace(front);
    var b := TrimEnd(a);
    TrimEndFacts(a);
    var back := a[|b|..];
    assert a == b + back;
    InkJoins(b, back);
    InkOfSpace(back);
  }

  lemma {:induction false} InkOfCollapse(t: Str)
    ensures Ink(Collapse(t)) == Ink(t)
  {
    if t != [] {
      InkOfCollapse(t[1..]);
      if !IsSpace(t[0]) {
        assert Collapse(t)[1..] == Collapse(t[1..]);
      } else if |t| == 1 || !IsSpace(t[1]) {
        assert Collapse(t)[1..] == Collapse(t[1..]);
      }
    }
  }

  lemma NoInk()
    ensures Ink([]) == [] && InkOf([]) == []
  {
  }

  // ---- sentences ----------------------------------------------------------------------------

  /** A sentence ends after a terminator that whitespace or the end of the text follows. */
  predicate EndsAt(t: Str, e: nat) {
    0 < e <= |t| && IsTerminator(t[e - 1]) && (e == |t| || IsSpace(t[e]))
  }

  /** The next sentence end after `from`, which the pattern's next match closes. */
  method NextEnd(t: Str, from: nat) returns (e: Option<nat>)
    requires from <= |t|
    ensures e.Some? ==> from < e.value <= |t| && EndsAt(t, e.value) && forall k :: from < k < e.value ==> !EndsAt(t, k)
    ensures e.None? ==> forall k :: from < k <= |t| ==> !EndsAt(t, k)
  {
    for k := from + 1 to |t| + 1
      invariant forall j :: from < j < k ==> !EndsAt(t, j)
    {
      if EndsAt(t, k) { return Some(k); }
    }
    return None;
  }

  ghost predicate AllProper(parts: seq<Str>) {
    forall k :: 0 <= k < |parts| ==> parts[k] != [] && Trimmed(parts[k])
  }

  ghost predicate InOrder(t: Str, cuts: seq<nat>) {
    && (forall i :: 0 <= i < |cuts| ==> cuts[i] <= |t|)
    && (forall i, j :: 0 <= i < j < |cuts| ==> cuts[i] <= cuts[j])
  }

  /** The places where the text is cut: its sentence ends, in order, and its own. */
  ghost predicate AreCuts(t: Str, cuts: seq<nat>) {
    && |cuts| > 1 && cuts[0] == 0 && cuts[|cuts| - 1] == |t| && InOrder(t, cuts)
    && (forall e: nat :: 0 < e < |t| ==> (e in cuts <==> EndsAt(t, e)))
  }

  /** The stretches between the cuts, trimmed, and without those that say nothing. */
  ghost function Between(t: Str, cuts: seq<nat>): seq<Str>
    requires InOrder(t, cuts)
  {
    if |cuts| <= 1 then []
    else
      var piece := Trim(t[cuts[|cuts| - 2]..cuts[|cuts| - 1]]);
      Between(t, cuts[..|cuts| - 1]) + if piece == [] then [] else [piece]
  }

  /** On the way: cut at every sentence end up to `last`. */
  ghost predicate CutUpTo(t: Str, cuts: seq<nat>, last: nat) {
    && cuts != [] && cuts[0] == 0 && cuts[|cuts| - 1] == last && InOrder(t, cuts)
    && (forall e: nat :: 0 < e <= last ==> (e in cuts <==> EndsAt(t, e)))
  }

  lemma OneMoreStretch(t: Str, cuts: seq<nat>, last: nat, to: nat)
    requires cuts != [] && InOrder(t, cuts) && cuts[|cuts| - 1] == last <= to <= |t|
    ensures InOrder(t, cuts + [to])
    ensures var piece := Trim(t[last..to]); Between(t, cuts + [to]) == Between(t, cuts) + if piece == []
      then [] else [piece]
  {
    hide Trim;
    assert (cuts + [to])[..|cuts|] == cuts;
  }

  lemma CutsGoOn(t: Str, cuts: seq<nat>, last: nat, next: nat)
    requires CutUpTo(t, cuts, last) && last < next <= |t| && EndsAt(t, next)
    requires forall k :: last < k < next ==> !EndsAt(t, k)
    ensures CutUpTo(t, cuts + [next], next)
    ensures var piece := Trim(t[last..next]); Between(t, cuts + [next]) == Between(t, cuts) + if piece == []
      then [] else [piece]
  {
    OneMoreStretch(t, cuts, last, next);
  }

  lemma CutsEnd(t: Str, cuts: seq<nat>, last: nat)
    requires CutUpTo(t, cuts, last) && last <= |t| && forall k :: last < k <= |t| ==> !EndsAt(t, k)
    ensures AreCuts(t, cuts + [|t|])
    ensures var piece := Trim(t[last..|t|]); Between(t, cuts + [|t|]) == Between(t, cuts) + if piece == []
      then [] else [piece]
  {
    OneMoreStretch(t, cuts, last, |t|);
  }

  lemma NoCutsYet(t: Str)
    ensures CutUpTo(t, [0], 0) && Between(t, [0]) == []
  {
  }

  method Sentences(t: Str) returns (parts: seq<Str>, ghost cuts: seq<nat>)
    ensures AllProper(parts) && InkOf(parts) == Ink(t)
    ensures AreCuts(t, cuts) && parts == Between(t, cuts)
  {
    hide Trim;
    hide Ink;
    hide InkOf;
    hide Between;
    hide EndsAt;
    hide AllProper;
    NoInk();
    parts, cuts := [], [0];
    NoCutsYet(t);
    NothingIsProper();
    var last := 0;
    var next := NextEnd(t, 0);
    while next.Some?
      invariant last <= |t| && AllProper(parts) && InkOf(parts) == Ink(t[..last])
      invariant CutUpTo(t, cuts, last) && parts == Between(t, cuts)
      invariant next.Some? ==> last < next.value <= |t| && EndsAt(t, next.value)
      invariant forall k :: last < k <= (if next.Some? then next.value - 1 else |t|) ==> !EndsAt(t, k)
      decreases |t| - last
    {
      CutsGoOn(t, cuts, last, next.value);
      parts := AddPiece(t, last, next.value, parts);
      cuts := cuts + [next.value];
      last := next.value;
      next := NextEnd(t, last);
    }
    CutsEnd(t, cuts, last);
    parts := AddPiece(t, last, |t|, parts);
    cuts := cuts + [|t|];
    assert t[..|t|] == t;
  }

  lemma NothingIsProper()
    ensures AllProper([])
  {
  }

  /** Keeps the trimmed stretch unless nothing is left of it. */
  method AddPiece(t: Str, from: nat, to: nat, parts: seq<Str>) returns (more: seq<Str>)
    requires from <= to <= |t| && AllProper(parts) && InkOf(parts) == Ink(t[..from])
    ensures AllProper(more) && InkOf(more) == Ink(t[..to])
    ensures more == parts + if Trim(t[from..to]) == [] then [] else [Trim(t[from..to])]
  {
    var piece := Trim(t[from..to]);
    TrimTrims(t[from..to]);
    InkOfTrim(t[from..to]);
    assert t[..from] + t[from..to] == t[..to];
    InkJoins(t[..from], t[from..to]);
    InkOfOneMore(parts, piece);
    more := if piece == [] then parts else parts + [piece];
  }

  // ---- merging -----------------------------------------------------------------------------

  /** Every piece but the last is long enough to be spoken on its own. */
  ghost predicate LongEnough(parts: seq<Str>, min: int) {
    forall k :: 0 <= k < |parts| - 1 ==> |parts[k]| >= min
  }

  /** Each merged piece is a stretch of sentences, joined with spaces: as many as it takes
      to be long enough, and no more. */
  ghost predicate AreMerged(sentences: seq<Str>, groups: seq<nat>, merged: seq<Str>, min: int) {
    && |groups| == |merged| + 1 && groups[0] == 0 && groups[|merged|] == |sentences|
    && forall k :: 0 <= k < |merged| ==> IsGroup(sentences, groups[k], groups[k + 1], merged[k], min)
  }

  ghost predicate IsGroup(sentences: seq<Str>, a: nat, b: nat, piece: Str, min: int) {
    && a < b <= |sentences| && piece == Join(sentences[a..b])
    && forall c :: a < c < b ==> |Join(sentences[a..c])| < min
  }

  method MergeShort(sentences: seq<Str>, min: int) returns (merged: seq<Str>, ghost groups: seq<nat>)
    requires AllProper(sentences)
    ensures AllProper(merged) && LongEnough(merged, min) && InkOf(merged) == InkOf(sentences)
    ensures AreMerged(sentences, groups, merged, min)
  {
    hide Ink;
    hide InkOf;
    hide IsGroup;
    merged, groups := [], [0];
    for k := 0 to |sentences|
      invariant AllProper(merged) && LongEnough(merged, min) && InkOf(merged) == InkOf(sentences[..k])
      invariant |groups| == |merged| + 1 && groups[0] == 0 && groups[|merged|] == k
      invariant forall i :: 0 <= i < |merged| ==> IsGroup(sentences, groups[i], groups[i + 1], merged[i], min)
    {
      assert sentences[..k + 1] == sentences[..k] + [sentences[k]];
      InkOfOneMore(sentences[..k], sentences[k]);
      if merged != [] && |merged[|merged| - 1]| < min {
        GroupGrows(sentences, groups[|merged| - 1], k, merged[|merged| - 1], min);
        merged := ExtendLast(merged, sentences[k], min);
        groups := groups[|merged| := k + 1];
      } else {
        GroupStarts(sentences, k, min);
        InkOfOneMore(merged, sentences[k]);
        merged := merged + [sentences[k]];
        groups := groups + [k + 1];
      }
    }
    assert sentences[..|sentences|] == sentences;
  }

  lemma GroupStarts(sentences: seq<Str>, k: nat, min: int)
    requires k < |sentences|
    ensures IsGroup(sentences, k, k + 1, sentences[k], min)
  {
    assert sentences[k..k + 1] == [sentences[k]];
  }

  lemma GroupGrows(sentences: seq<Str>, a: nat, b: nat, piece: Str, min: int)
    requires AllProper(sentences) && b < |sentences| && IsGroup(sentences, a, b, piece, min) && |piece| < min
    ensures IsGroup(sentences, a, b + 1, piece + [SPACE] + sentences[b], min)
  {
    hide Join;
    assert sentences[a..b + 1] == sentences[a..b] + [sentences[b]];
    JoinOneMore(sentences[a..b], sentences[b]);
  }

  method ExtendLast(merged: seq<Str>, sentence: Str, min: int) returns (r: seq<Str>)
    requires merged != [] && AllProper(merged) && LongEnough(merged, min) && sentence != [] && Trimmed(sentence)
    ensures AllProper(r) && LongEnough(r, min) && InkOf(r) == InkOf(merged) + Ink(sentence)
    ensures r == merged[|merged| - 1 := merged[|merged| - 1] + [SPACE] + sentence]
  {
    hide Ink;
    hide InkOf;
    var init, prev := merged[..|merged| - 1], merged[|merged| - 1];
    assert merged == init + [prev];
    InkOfOneMore(init, prev);
    GlueKeepsInk(prev, sentence);
    InkOfOneMore(init, prev + [SPACE] + sentence);
    r := init + [prev + [SPACE] + sentence];
  }

  lemma GlueKeepsInk(a: Str, b: Str)
    ensures Ink(a + [SPACE] + b) == Ink(a) + Ink(b)
  {
    hide Ink;
    InkJoins(a + [SPACE], b);
    InkJoins(a, [SPACE]);
    InkOfSpace([SPACE]);
  }

  // ---- splitting ------------------------------------------------------------------------------

  const COMMA: Unit := 44
  const ARABIC_COMMA: Unit := 0x060C

  /** The last place before `max` where `first` and then a space stand; -1 if none. */
  method LastPair(t: Str, max: nat, first: Unit) returns (at: int)
    requires max <= |t|
    ensures at == -1 || (0 <= at && at + 1 < max && t[at] == first && t[at + 1] == SPACE)
    ensures forall k :: at < k && 0 <= k && k + 1 < max ==> !(t[k] == first && t[k + 1] == SPACE)
  {
    at := max - 2;
    if at < -1 { at := -1; }
    while at >= 0 && !(t[at] == first && t[at + 1] == SPACE)
      invariant -1 <= at <= max - 2 || at == -1
      invariant forall k :: at < k && 0 <= k && k + 1 < max ==> !(t[k] == first && t[k + 1] == SPACE)
      decreases at + 1
    {
      at := at - 1;
    }
  }

  method LastSpace(t: Str, max: nat) returns (at: int)
    requires max <= |t|
    ensures at == -1 || (0 <= at < max && t[at] == SPACE)
    ensures forall k :: at < k < max && 0 <= k ==> t[k] != SPACE
  {
    at := max - 1;
    while at >= 0 && t[at] != SPACE
      invariant -1 <= at < max && forall k :: at < k < max && 0 <= k ==> t[k] != SPACE
      decreases at + 1
    {
      at := at - 1;
    }
  }

  /** A comma with a space behind it, both before `max`. */
  predicate CommaAt(t: Str, max: nat, k: int) {
    0 < k && k + 1 < max <= |t| && (t[k] == COMMA || t[k] == ARABIC_COMMA) && t[k + 1] == SPACE
  }

  /** Behind the last such comma, or else at the last space, or else at the limit. */
  ghost predicate IsCut(rest: Str, max: nat, cut: nat)
    requires max < |rest|
  {
    || (CommaAt(rest, max, cut - 1) && forall k :: k >= cut ==> !CommaAt(rest, max, k))
    || (&& (forall k :: !CommaAt(rest, max, k))
        && ((0 < cut < max && rest[cut] == SPACE && forall k :: cut < k < max ==> rest[k] != SPACE)
            || (cut == max && forall k :: 0 < k < max ==> rest[k] != SPACE)))
  }

  method CutPoint(rest: Str, max: nat) returns (cut: nat)
    requires 0 < max < |rest|
    ensures 0 < cut <= max
    ensures IsCut(rest, max, cut)
  {
    var comma := LastPair(rest, max, COMMA);
    var arabic := LastPair(rest, max, ARABIC_COMMA);
    var at := if comma > arabic then comma else arabic;
    if at > 0 { return at + 1; }
    at := LastSpace(rest, max);
    cut := if at <= 0 then max else at;
  }

  /** The pieces of a long one: cut off one by one, as late as `IsCut` allows. */
  ghost predicate AreSplit(rest: Str, max: nat, out: seq<Str>)
    decreases |out|
  {
    if |rest| <= max then out == if rest == [] then [] else [rest]
    else out != [] && exists cut: nat :: FirstCut(rest, max, out[0], cut) && AreSplit(Trim(rest[cut..]), max, out[1..])
  }

  ghost predicate FirstCut(rest: Str, max: nat, first: Str, cut: nat)
    requires max < |rest|
  {
    cut <= |rest| && IsCut(rest, max, cut) && first == Trim(rest[..cut])
  }

  ghost predicate AllShort(parts: seq<Str>, max: nat) {
    forall k :: 0 <= k < |parts| ==> |parts[k]| <= max
  }

  method SplitLong(piece: Str, max: nat) returns (out: seq<Str>)
    requires max > 0 && piece != [] && Trimmed(piece)
    ensures AllProper(out) && AllShort(out, max) && InkOf(out) == Ink(piece)
    ensures AreSplit(piece, max, out)
  {
    hide Ink;
    hide InkOf;
    hide Trimmed;
    hide Trim;
    NoInk();
    hide IsCut;
    hide AreSplit;
    hide FirstCut;
    out := [];
    var rest := piece;
    assert forall more: seq<Str> :: [] + more == more;
    while |rest| > max
      invariant Trimmed(rest) && AllProper(out) && AllShort(out, max)
      invariant InkOf(out) + Ink(rest) == Ink(piece)
      invariant forall more :: AreSplit(rest, max, more) ==> AreSplit(piece, max, out + more)
      decreases |rest|
    {
      var cut := CutPoint(rest, max);
      var head, tail := Trim(rest[..cut]), Trim(rest[cut..]);
      CutKeeps(rest, cut, head, tail);
      InkOfOneMore(out, head);
      assert InkOf(out + [head]) + Ink(tail) == InkOf(out) + (Ink(head) + Ink(tail));
      forall more | AreSplit(tail, max, more) ensures AreSplit(piece, max, out + [head] + more) {
        SplitOff(rest, max, cut, more);
        assert out + [head] + more == out + ([head] + more);
      }
      out := out + [head];
      rest := tail;
    }
    SplitDone(rest, max);
    InkOfOneMore(out, rest);
    if rest != [] { out := out + [rest]; }
    assert rest == [] ==> out + [] == out;
  }

  lemma SplitOff(rest: Str, max: nat, cut: nat, more: seq<Str>)
    requires max < |rest| && cut <= |rest| && IsCut(rest, max, cut) && AreSplit(Trim(rest[cut..]), max, more)
    ensures AreSplit(rest, max, [Trim(rest[..cut])] + more)
  {
    hide IsCut;
    hide Trim;
    var out := [Trim(rest[..cut])] + more;
    assert out[1..] == more && FirstCut(rest, max, out[0], cut);
  }

  lemma SplitDone(rest: Str, max: nat)
    requires |rest| <= max
    ensures AreSplit(rest, max, if rest == [] then [] else [rest])
  {
  }

  lemma CutKeeps(rest: Str, cut: nat, head: Str, tail: Str)
    requires Trimmed(rest) && 0 < cut < |rest| && head == Trim(rest[..cut]) && tail == Trim(rest[cut..])
    ensures head != [] && Trimmed(head) && Trimmed(tail) && |head| <= cut && |tail| < |rest|
    ensures Ink(head) + Ink(tail) == Ink(rest)
  {
    hide Trim;
    hide Ink;
    CutLengths(rest, cut);
    var a, b := rest[..cut], rest[cut..];
    assert a + b == rest;
    InkJoins(a, b);
    InkOfTrim(a);
    InkOfTrim(b);
  }

  lemma CutLengths(rest: Str, cut: nat)
    requires Trimmed(rest) && 0 < cut < |rest|
    ensures Trim(rest[..cut]) != [] && Trimmed(Trim(rest[..cut])) && Trimmed(Trim(rest[cut..]))
    ensures |Trim(rest[..cut])| <= cut && |Trim(rest[cut..])| < |rest|
  {
    hide Trim;
    hide Ink;
    var a, b := rest[..cut], rest[cut..];
    assert a[0] == rest[0];
    TrimTrims(a);
    TrimTrims(b);
    TrimIsShorter(a);
    TrimIsShorter(b);
    InkStarts(a);
    InkOfTrim(a);
    NoInk();
  }

  lemma TrimIsShorter(t: Str)
    ensures |Trim(t)| <= |t|
  {
    TrimStartFacts(t);
    TrimEndFacts(TrimStart(t));
  }

  lemma InkStarts(t: Str)
    requires t != [] && !IsSpace(t[0])
    ensures Ink(t) != []
  {
  }

  // ---- the whole ---------------------------------------------------------------------------------

  /** The pieces, end to end. */
  function EndToEnd(pieces: seq<seq<Str>>): seq<Str> {
    if pieces == [] then [] else EndToEnd(pieces[..|pieces| - 1]) + pieces[|pieces| - 1]
  }

  /** The plan of a reply: its sentences, the short ones merged forward, the long ones split. */
  datatype Plan = Plan(cuts: seq<nat>, groups: seq<nat>, merged: seq<Str>, pieces: seq<seq<Str>>)

  ghost predicate Follows(text: Str, max: nat, min: int, plan: Plan, out: seq<Str>) {
    && AreCuts(text, plan.cuts) && AreMerged(Between(text, plan.cuts), plan.groups, plan.merged, min)
    && |plan.pieces| == |plan.merged|
    && (forall k :: 0 <= k < |plan.merged| ==> AreSplit(plan.merged[k], max, plan.pieces[k]))
    && out == EndToEnd(plan.pieces)
  }

  /** Every character that is not whitespace is spoken, once and in order, in pieces
      that are neither empty nor too long; and the pieces follow the plan. */
  method ChunkForSpeech(text: Str, max: nat, min: int) returns (out: seq<Str>, ghost plan: Plan)
    requires max > 0
    ensures InkOf(out) == Ink(text) && AllProper(out) && AllShort(out, max)
    ensures Normalize(text) != [] ==> Follows(Normalize(text), max, min, plan, out)
  {
    hide Ink;
    hide InkOf;
    hide Collapse;
    hide TrimStart;
    hide TrimEnd;
    hide AreCuts;
    hide AreMerged;
    hide AreSplit;
    hide Between;
    NoInk();
    var normalized := Normalize(text);
    InkOfCollapse(text);
    InkOfTrim(Collapse(text));
    plan := Plan([], [], [], []);
    if normalized == [] { return [], plan; }
    var sentences, merged;
    ghost var cuts, groups;
    sentences, cuts := Sentences(normalized);
    merged, groups := MergeShort(sentences, min);
    out := [];
    ghost var all: seq<seq<Str>> := [];
    for k := 0 to |merged|
      invariant AllProper(out) && AllShort(out, max) && InkOf(out) == InkOf(merged[..k])
      invariant |all| == k && out == EndToEnd(all)
      invariant forall i :: 0 <= i < k ==> AreSplit(merged[i], max, all[i])
    {
      assert merged[..k + 1] == merged[..k] + [merged[k]];
      InkOfOneMore(merged[..k], merged[k]);
      var pieces := SplitLong(merged[k], max);
      InkOfJoins(out, pieces);
      assert (all + [pieces])[..k] == all;
      all := all + [pieces];
      out := out + pieces;
    }
    assert merged[..|merged|] == merged;
    plan := Plan(cuts, groups, merged, all);
  }
}
