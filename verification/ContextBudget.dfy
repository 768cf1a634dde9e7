/** The bounded context: what is cut, in which order, when a turn's material is over
    the character ceiling or the token ceiling. */
module ContextBudget {
  import opened Common
  import opened Text
  import Truncate

  datatype Component = Knowledge | Summary | History

  /** The parts that may be reduced; everything else is fixed. */
  datatype Parts = Parts(knowledge: seq<Str>, summary: Str, history: seq<Str>)

  datatype Limits = Limits(maxRecentMessages: int, maxMessageChars: int, maxSummaryChars: int,
                           maxKnowledgeSnippets: int, maxKnowledgeChars: int, maxTotalChars: int, maxInputTokens: int)

  // ---- one reduction ---------------------------------------------------------------------

  predicate Present(p: Parts, c: Component) {
    match c
    case Knowledge => p.knowledge != []
    case Summary => p.summary != []
    case History => |p.history| > 2
  }

  /** The reduction order: knowledge, then the recap, then the oldest history. */
  function NextComponent(p: Parts): Option<Component> {
    if Present(p, Knowledge) then Some(Knowledge)
    else if Present(p, Summary) then Some(Summary)
    else if Present(p, History) then Some(History)
    else None
  }

  /** One unit less of the next component. */
  function Reduce(p: Parts): Parts
    requires NextComponent(p).Some?
  {
    match NextComponent(p).value
    case Knowledge => p.(knowledge := p.knowledge[..|p.knowledge| - 1])
    case Summary => p.(summary := [])
    case History => p.(history := p.history[1..])
  }

  /** How many reductions are left. */
  function Left(p: Parts): nat {
    |p.knowledge| + (if p.summary == [] then 0 else 1) + if |p.history| > 2 then |p.history| - 2 else 0
  }

  /** After `n` reductions. */
  function Reduced(p: Parts, n: nat): Parts
    requires n <= Left(p)
    decreases n
  {
    if n == 0 then p else Reduced(Reduce(p), n - 1)
  }

  /** The first form along the chain of reductions that is acceptable, or the last. */
  function FirstFit(p: Parts, fits: Parts -> bool): Parts
    decreases Left(p)
  {
    if fits(p) || NextComponent(p).None? then p else FirstFit(Reduce(p), fits)
  }

  /** `r` is `p` after the fewest reductions that make it acceptable, or after all of them. */
  ghost predicate LeastReduced(p: Parts, fits: Parts -> bool, r: Parts, n: nat) {
    n <= Left(p) && r == Reduced(p, n) && (fits(r) || n == Left(p)) && forall m :: 0 <= m < n ==> !fits(Reduced(p, m))
  }

  lemma {:induction false} FirstFitIsLeast(p: Parts, fits: Parts -> bool) returns (n: nat)
    ensures LeastReduced(p, fits, FirstFit(p, fits), n)
    decreases Left(p)
  {
    if fits(p) || NextComponent(p).None? {
      n := 0;
    } else {
      var rest := FirstFitIsLeast(Reduce(p), fits);
      n := rest + 1;
      forall m | 0 <= m < n ensures !fits(Reduced(p, m)) {
        if m > 0 { assert Reduced(p, m) == Reduced(Reduce(p), m - 1); }
      }
    }
  }

  /** What no reduction spoils: knowledge loses its last snippets only, history its
      oldest messages only and never the last two, and the order is respected. */
  ghost predicate Degraded(p: Parts, r: Parts) {
    && r.knowledge <= p.knowledge
    && (r.summary == p.summary || (r.summary == [] && r.knowledge == []))
    && |r.history| <= |p.history| && r.history == p.history[|p.history| - |r.history|..]
    && (r.history != p.history ==> r.knowledge == [] && r.summary == [] && |r.history| >= 2)
  }

  lemma {:induction false} FirstFitDegrades(p: Parts, fits: Parts -> bool)
    ensures Degraded(p, FirstFit(p, fits))
    decreases Left(p)
  {
    if !fits(p) && NextComponent(p).Some? {
      FirstFitDegrades(Reduce(p), fits);
      DegradedStep(p, FirstFit(Reduce(p), fits));
    }
  }

  lemma TailOfTail(whole: seq<Str>, part: seq<Str>)
    requires whole != [] && |part| < |whole| && part == whole[1..][|whole| - 1 - |part|..]
    ensures part == whole[|whole| - |part|..]
  {
  }

  lemma DegradedStep(p: Parts, r: Parts)
    requires NextComponent(p).Some? && Degraded(Reduce(p), r)
    ensures Degraded(p, r)
  {
    var q := Reduce(p);
    if NextComponent(p) == Some(History) { TailOfTail(p.history, r.history); }
  }

  // ---- the two ceilings --------------------------------------------------------------------

  function Chars(fixed: nat, p: Parts): nat { fixed + |p.summary| + TotalLength(p.knowledge) + TotalLength(p.history) }

  /** The estimate over every component, the fixed ones among them. */
  function TokensOf(w: Truncate.Weights, fixed: nat, p: Parts): nat {
    fixed + Truncate.Estimate(w, JoinLines(p.knowledge)) + Truncate.Estimate(w, p.summary)
    + Truncate.Estimate(w, JoinLines(p.history))
  }

  function WithinChars(fixed: nat, max: int): Parts -> bool { (p: Parts) => Chars(fixed, p) <= max }

  function WithinTokens(w: Truncate.Weights, fixed: nat, max: int): Parts -> bool {
    (p: Parts) => TokensOf(w, fixed, p) <= max
  }

  function Both(a: Parts -> bool, b: Parts -> bool): Parts -> bool { (p: Parts) => a(p) && b(p) }

  lemma {:induction false} TotalWithoutLast(texts: seq<Str>)
    requires texts != []
    ensures TotalLength(texts) == TotalLength(texts[..|texts| - 1]) + |texts[|texts| - 1]|
  {
    if |texts| > 1 {
      TotalWithoutLast(texts[1..]);
      assert texts[1..][..|texts| - 2] == texts[..|texts| - 1][1..];
    }
  }

  lemma ReductionSavesChars(fixed: nat, p: Parts)
    requires NextComponent(p).Some?
    ensures Chars(fixed, Reduce(p)) <= Chars(fixed, p)
  {
    if p.knowledge != [] { TotalWithoutLast(p.knowledge); }
  }

  lemma {:induction false} StaysWithinChars(fixed: nat, max: int, p: Parts, fits: Parts -> bool)
    requires Chars(fixed, p) <= max
    ensures Chars(fixed, FirstFit(p, fits)) <= max
    ensures FirstFit(p, fits) == FirstFit(p, Both(WithinChars(fixed, max), fits))
    decreases Left(p)
  {
    if !fits(p) && NextComponent(p).Some? {
      ReductionSavesChars(fixed, p);
      StaysWithinChars(fixed, max, Reduce(p), fits);
    }
  }

  /** The two loops together find the first form within both ceilings: nothing is
      cut that either of them did not make necessary. */
  lemma {:induction false} TwoLoopsAreOne(fixed: nat, max: int, p: Parts, fits: Parts -> bool)
    ensures FirstFit(FirstFit(p, WithinChars(fixed, max)), fits) == FirstFit(p, Both(WithinChars(fixed, max), fits))
    decreases Left(p)
  {
    if WithinChars(fixed, max)(p) {
      StaysWithinChars(fixed, max, p, fits);
    } else if NextComponent(p).Some? {
      TwoLoopsAreOne(fixed, max, Reduce(p), fits);
    }
  }

  // ---- the loops -------------------------------------------------------------------------------

  /** The character loop: knowledge, then the recap, then the oldest history. */
  method DegradeByChars(p: Parts, fixed: nat, max: int) returns (r: Parts)
    ensures r == FirstFit(p, WithinChars(fixed, max))
  {
    r := p;
    while Chars(fixed, r) > max && r.knowledge != []
      invariant FirstFit(r, WithinChars(fixed, max)) == FirstFit(p, WithinChars(fixed, max))
      decreases |r.knowledge|
    {
      r := r.(knowledge := r.knowledge[..|r.knowledge| - 1]);
    }
    if Chars(fixed, r) > max && r.summary != [] { r := r.(summary := []); }
    while Chars(fixed, r) > max && |r.history| > 2
      invariant Chars(fixed, r) > max ==> r.knowledge == [] && r.summary == []
      invariant FirstFit(r, WithinChars(fixed, max)) == FirstFit(p, WithinChars(fixed, max))
      decreases |r.history|
    {
      r := r.(history := r.history[1..]);
    }
  }

  /** The report's verdict: what to take from next, or nothing inside the budget. */
  function NextToReduce(tokens: nat, max: int, p: Parts): (c: Option<Component>)
    ensures c.Some? ==> tokens > max && Present(p, c.value)
    ensures c.None? ==> tokens <= max || (!Present(p, Knowledge) && !Present(p, Summary) && !Present(p, History))
  {
    if tokens > max then NextComponent(p) else None
  }

  method DegradeByTokens(w: Truncate.Weights, p: Parts, fixed: nat, max: int) returns (r: Parts)
    ensures r == FirstFit(p, WithinTokens(w, fixed, max))
  {
    r := p;
    var next := NextToReduce(TokensOf(w, fixed, r), max, r);
    while next.Some?
      invariant FirstFit(r, WithinTokens(w, fixed, max)) == FirstFit(p, WithinTokens(w, fixed, max))
      invariant next == NextToReduce(TokensOf(w, fixed, r), max, r)
      decreases Left(r)
    {
      match next.value {
        case Knowledge => r := r.(knowledge := r.knowledge[..|r.knowledge| - 1]);
        case Summary => r := r.(summary := []);
        case History => r := r.(history := r.history[1..]);
      }
      next := NextToReduce(TokensOf(w, fixed, r), max, r);
    }
  }

  // ---- the first bounding ----------------------------------------------------------------------

  /** `trimText`: at most `max` units, cut where `truncateChars` cuts. */
  function Trimmed(t: Str, max: int): (r: Str)
    ensures r <= t && (max >= 0 ==> |r| <= max) && (|t| <= max ==> r == t)
  {
    if |t| > max then t[..Truncate.Kept(t, max)] else t
  }

  ghost predicate EachCut(full: seq<Str>, cut: seq<Str>) {
    |cut| <= |full| && forall k :: 0 <= k < |cut| ==> cut[k] <= full[k]
  }

  /** The language's `slice(0, end)`: a negative end counts back from the last element. */
  function SliceTo(s: seq<Str>, end: int): seq<Str> {
    if end >= |s| then s else if end >= 0 then s[..end] else if |s| + end > 0 then s[..|s| + end] else []
  }

  /** The language's `slice(start)`: likewise for a negative start. */
  function SliceFrom(s: seq<Str>, start: int): seq<Str> {
    if start >= |s| then [] else if start >= 0 then s[start..] else if |s| + start > 0 then s[|s| + start..] else s
  }

  /** The window of recent messages is `slice(-n)`. It is a window of at most `n` for a
      positive `n`, and the newest ones; `slice(-0)` is the whole list. */
  lemma WindowIsCappedIff(s: seq<Str>, n: int)
    ensures |SliceFrom(s, -n)| <= n <==> n > 0 || (n == 0 && s == [])
    ensures n > 0 ==> |SliceFrom(s, -n)| == if |s| <= n then |s| else n
    ensures n == 0 ==> SliceFrom(s, -n) == s
    ensures |SliceFrom(s, -n)| <= |s| && SliceFrom(s, -n) == s[|s| - |SliceFrom(s, -n)|..]
  {
  }

  /** A limit of no messages lets both of these through. */
  lemma WindowOfZeroKeepsAll()
    ensures var s: seq<Str> := [[72], [73]]; SliceFrom(s, -0) == s && |SliceFrom(s, -0)| > 0
  {
    assert |SliceFrom([[72], [73]], 0)| == 2;
  }

  /** Each snippet is cut to what the ones before it leave of the allowance. */
  function Allowed(snippets: seq<Str>, max: int): (kept: seq<Str>)
    ensures |kept| <= |snippets|
    decreases |snippets|
  {
    if snippets == [] || max <= 0 then []
    else
      var first := Trimmed(snippets[0], max);
      [first] + Allowed(snippets[1..], max - |first|)
  }

  /** In order, within the allowance, none left out while there is any of it, and
      nothing cut where all of them fit. */
  lemma {:induction false} AllowedFacts(snippets: seq<Str>, max: int)
    ensures var kept := Allowed(snippets, max);
      && EachCut(snippets, kept) && TotalLength(kept) <= (if max > 0 then max else 0)
      && (|kept| < |snippets| ==> TotalLength(kept) >= max)
      && (TotalLength(snippets) < max ==> kept == snippets)
    decreases |snippets|
  {
    hide Trimmed;
    if snippets != [] && max > 0 {
      var first := Trimmed(snippets[0], max);
      AllowedFacts(snippets[1..], max - |first|);
      EachCutStep(snippets, first, Allowed(snippets[1..], max - |first|));
    }
  }

  lemma EachCutStep(snippets: seq<Str>, first: Str, rest: seq<Str>)
    requires snippets != [] && first <= snippets[0] && EachCut(snippets[1..], rest)
    ensures EachCut(snippets, [first] + rest) && TotalLength([first] + rest) == |first| + TotalLength(rest)
  {
    var kept := [first] + rest;
    assert kept[1..] == rest;
    forall k | 0 <= k < |kept| ensures kept[k] <= snippets[k] {
      if k > 0 { assert kept[k] == rest[k - 1] && snippets[k] == snippets[1..][k - 1]; }
    }
  }

  lemma AllowedStep(snippets: seq<Str>, k: nat, max: int)
    requires k < |snippets|
    ensures max <= 0 ==> Allowed(snippets[k..], max) == [] == Allowed(snippets[k + 1..], max)
    ensures max > 0 ==>
      var first := Trimmed(snippets[k], max);
      Allowed(snippets[k..], max) == [first] + Allowed(snippets[k + 1..], max - |first|)
  {
    hide Trimmed;
    assert snippets[k..][1..] == snippets[k + 1..];
  }

  lemma SliceToIsCapped(s: seq<Str>, end: int)
    ensures (end >= 0 ==> |SliceTo(s, end)| <= end) && (end >= |s| ==> SliceTo(s, end) == s)
  {
  }

  lemma SliceIsCut(snippets: seq<Str>, count: int, kept: seq<Str>)
    requires EachCut(SliceTo(snippets, count), kept)
    ensures EachCut(snippets, kept)
  {
    var chosen := SliceTo(snippets, count);
    forall k | 0 <= k < |kept| ensures kept[k] <= snippets[k] { assert chosen[k] == snippets[k]; }
  }

  /** The snippets in order, as far as the character allowance reaches. */
  method BoundKnowledge(snippets: seq<Str>, count: int, max: int) returns (kept: seq<Str>)
    ensures kept == Allowed(SliceTo(snippets, count), max)
    ensures (count >= 0 ==> |kept| <= count) && EachCut(snippets, kept)
    ensures TotalLength(kept) <= (if max > 0 then max else 0)
    ensures TotalLength(snippets) < max && |snippets| <= count ==> kept == snippets
  {
    hide Trimmed;
    hide EachCut;
    hide Allowed;
    hide TotalLength;
    hide SliceTo;
    var chosen := SliceTo(snippets, count);
    SliceToIsCapped(snippets, count);
    AllowedFacts(chosen, max);
    SliceIsCut(snippets, count, Allowed(chosen, max));
    kept := [];
    var used := 0;
    assert chosen[0..] == chosen;
    for k := 0 to |chosen|
      invariant kept + Allowed(chosen[k..], max - used) == Allowed(chosen, max)
    {
      var remaining := max - used;
      AllowedStep(chosen, k, remaining);
      if remaining > 0 {
        var content := Trimmed(chosen[k], remaining);
        kept := kept + [content];
        used := used + |content|;
      }
    }
    assert Allowed([], max - used) == [] && chosen[|chosen|..] == [];
  }

  // ---- the builder -----------------------------------------------------------------------------

  function TrimEach(texts: seq<Str>, max: int): (r: seq<Str>)
    ensures |r| == |texts| && forall k :: 0 <= k < |r| ==> r[k] == Trimmed(texts[k], max)
  {
    if texts == [] then [] else [Trimmed(texts[0], max)] + TrimEach(texts[1..], max)
  }

  /** Both ceilings at once. */
  function WithinBoth(w: Truncate.Weights, fixedChars: nat, fixedTokens: nat, limits: Limits): Parts -> bool {
    Both(WithinChars(fixedChars, limits.maxTotalChars), WithinTokens(w, fixedTokens, limits.maxInputTokens))
  }

  /** The least reduced form within the ceilings, or the most reduced one. */
  ghost predicate Budgeted(bounded: Parts, fits: Parts -> bool, r: Parts) {
    && Degraded(bounded, r) && (fits(r) || NextComponent(r).None?)
    && exists n :: LeastReduced(bounded, fits, r, n)
  }

  /** Bounds every part on its own, then degrades the whole until both ceilings hold
      or nothing reducible is left. */
  method BuildContext(w: Truncate.Weights, conversational: seq<Str>, summary: Str, snippets: seq<Str>,
                      fixedChars: nat, fixedTokens: nat, limits: Limits) returns (bounded: Parts, r: Parts)
    ensures Budgeted(bounded, WithinBoth(w, fixedChars, fixedTokens, limits), r)
    ensures EachCut(snippets, bounded.knowledge) && bounded.summary == Trimmed(summary, limits.maxSummaryChars)
    ensures bounded.knowledge == Allowed(SliceTo(snippets, limits.maxKnowledgeSnippets), limits.maxKnowledgeChars)
    ensures limits.maxKnowledgeSnippets >= 0 ==> |bounded.knowledge| <= limits.maxKnowledgeSnippets
    ensures |bounded.history| == |SliceFrom(conversational, -limits.maxRecentMessages)|
    ensures RecentCut(conversational, bounded.history, limits.maxMessageChars)
    ensures |bounded.history| <= limits.maxRecentMessages
      <==> limits.maxRecentMessages > 0 || (limits.maxRecentMessages == 0 && conversational == [])
  {
    hide Budgeted;
    hide EachCut;
    hide Allowed;
    hide SliceTo;
    hide RecentCut;
    hide TotalLength;
    hide SliceFrom;
    var recent := SliceFrom(conversational, -limits.maxRecentMessages);
    WindowIsCappedIff(conversational, limits.maxRecentMessages);
    var knowledge := BoundKnowledge(snippets, limits.maxKnowledgeSnippets, limits.maxKnowledgeChars);
    bounded := Parts(knowledge, Trimmed(summary, limits.maxSummaryChars), TrimEach(recent, limits.maxMessageChars));
    NewestCut(conversational, recent, limits.maxMessageChars);
    r := Degrade(w, bounded, fixedChars, fixedTokens, limits);
  }

  lemma NewestCut(all: seq<Str>, recent: seq<Str>, max: int)
    requires |recent| <= |all| && recent == all[|all| - |recent|..]
    ensures RecentCut(all, TrimEach(recent, max), max)
  {
  }

  /** The newest messages, each cut short at its end. */
  ghost predicate RecentCut(all: seq<Str>, recent: seq<Str>, max: int) {
    |recent| <= |all| && forall k :: 0 <= k < |recent| ==> recent[k] == Trimmed(all[|all| - |recent| + k], max)
  }

  method Degrade(w: Truncate.Weights, bounded: Parts, fixedChars: nat, fixedTokens: nat, limits: Limits)
    returns (r: Parts)
    ensures Budgeted(bounded, WithinBoth(w, fixedChars, fixedTokens, limits), r)
  {
    hide FirstFit;
    hide WithinChars;
    hide WithinTokens;
    hide Both;
    hide Degraded;
    hide LeastReduced;
    var within := DegradeByChars(bounded, fixedChars, limits.maxTotalChars);
    r := DegradeByTokens(w, within, fixedTokens, limits.maxInputTokens);
    TwoLoopsAreOne(fixedChars, limits.maxTotalChars, bounded, WithinTokens(w, fixedTokens, limits.maxInputTokens));
    ghost var fits := WithinBoth(w, fixedChars, fixedTokens, limits);
    FirstFitDegrades(bounded, fits);
    FirstFitEnds(bounded, fits);
    ghost var n := FirstFitIsLeast(bounded, fits);
  }

  lemma {:induction false} FirstFitEnds(p: Parts, fits: Parts -> bool)
    ensures fits(FirstFit(p, fits)) || NextComponent(FirstFit(p, fits)).None?
    decreases Left(p)
  {
    if !fits(p) && NextComponent(p).Some? { FirstFitEnds(Reduce(p), fits); }
  }
}
