/** The sliding-window limiter: pruning and the sweep of idle buckets against a
    limiter that remembers everything. */
module RateLimit {
  import opened Common

  type Key = string

  /** `resetAt` is missing where the code computes it from an empty bucket (limit 0). */
  datatype Result = Result(allowed: bool, remaining: int, resetAt: Option<int>)

  datatype Config = Config(limit: nat, windowMs: nat)

  /** The timestamps after `start`. */
  function After(times: seq<int>, start: int): (kept: seq<int>)
    ensures |kept| <= |times|
  {
    if times == [] then []
    else
      var last := times[|times| - 1];
      var kept := After(times[..|times| - 1], start);
      if last > start then kept + [last] else kept
  }

  // ---- the limiter ---------------------------------------------------------------

  datatype Buckets = Buckets(times: map<Key, seq<int>>, lastSweep: int)

  predicate IsIdle(c: Config, times: seq<int>, now: int) {
    times == [] || now - times[|times| - 1] > c.windowMs
  }

  function Swept(c: Config, b: Buckets, now: int): Buckets {
    if now - b.lastSweep < c.windowMs then b
    else Buckets(map k | k in b.times && !IsIdle(c, b.times[k], now) :: b.times[k], now)
  }

  function TimesOf(b: Buckets, key: Key): seq<int> { if key in b.times then b.times[key] else [] }

  /** What a limiter answers when `live` requests are in its window. */
  function Answer(c: Config, live: seq<int>, now: int): Result {
    if |live| >= c.limit
    then Result(false, 0, if live == [] then None else Some(live[0] + c.windowMs))
    else Result(true, c.limit - (|live| + 1), Some(now + c.windowMs))
  }

  function Check(c: Config, b: Buckets, key: Key, now: int): (Buckets, Result) {
    var swept := Swept(c, b, now);
    var live := After(TimesOf(swept, key), now - c.windowMs);
    var r := Answer(c, live, now);
    (swept.(times := swept.times[key := if r.allowed then live + [now] else live]), r)
  }

  class MemoryRateLimiter {
    const config: Config
    var times: map<Key, seq<int>>
    var lastSweep: int

    function Value(): Buckets reads this { Buckets(times, lastSweep) }

    constructor (config: Config, now: int)
      ensures this.config == config && Value() == Buckets(map[], now)
    {
      this.config := config;
      times, lastSweep := map[], now;
    }

    method Sweep(now: int)
      modifies this
      ensures Value() == Swept(config, old(Value()), now)
    {
      if now - lastSweep < config.windowMs { return; }
      lastSweep := now;
      var todo := times.Keys;
      while todo != {}
        invariant lastSweep == now && todo <= old(times).Keys
        invariant times ==
                  map k | k in old(times) && (k in todo || !IsIdle(config, old(times)[k], now)) :: old(times)[k]
        decreases todo
      {
        var key :| key in todo;
        todo := todo - {key};
        if IsIdle(config, times[key], now) { times := times - {key}; }
      }
    }

    method Request(key: Key, now: int) returns (r: Result)
      modifies this
      ensures (Value(), r) == Check(config, old(Value()), key, now)
    {
      Sweep(now);
      ghost var swept := Value();
      var bucket := if key in times then times[key] else [];
      bucket := After(bucket, now - config.windowMs);
      times := times[key := bucket];
      if |bucket| >= config.limit {
        return Result(false, 0, if bucket == [] then None else Some(bucket[0] + config.windowMs));
      }
      bucket := bucket + [now];
      times := times[key := bucket];
      assert times == swept.times[key := bucket];
      r := Result(true, config.limit - |bucket|, Some(now + config.windowMs));
    }
  }

  // ---- the limiter that remembers everything -------------------------------------

  type History = map<Key, seq<int>>

  function Admitted(h: History, key: Key): seq<int> { if key in h then h[key] else [] }

  function IdealCheck(c: Config, h: History, key: Key, now: int): (History, Result) {
    var r := Answer(c, After(Admitted(h, key), now - c.windowMs), now);
    (if r.allowed then h[key := Admitted(h, key) + [now]] else h, r)
  }

  ghost predicate SortedUpTo(times: seq<int>, now: int) {
    && (forall i, j :: 0 <= i < j < |times| ==> times[i] <= times[j])
    && (forall i :: 0 <= i < |times| ==> times[i] <= now)
  }

  ghost predicate AgreesOn(c: Config, b: Buckets, h: History, now: int, key: Key) {
    && SortedUpTo(Admitted(h, key), now) && SortedUpTo(TimesOf(b, key), now)
    && After(TimesOf(b, key), now - c.windowMs) == After(Admitted(h, key), now - c.windowMs)
  }

  /** From `now` on, the buckets show exactly the live part of the history. */
  ghost predicate Agrees(c: Config, b: Buckets, h: History, now: int) {
    forall key :: AgreesOn(c, b, h, now, key)
  }

  lemma {:induction false} AfterTwice(times: seq<int>, a: int, b: int)
    requires a <= b
    ensures After(After(times, a), b) == After(times, b)
  {
    if times != [] {
      var init, last := times[..|times| - 1], times[|times| - 1];
      AfterTwice(init, a, b);
      var kept := After(init, a);
      if last > a { AfterOneMore(kept, last, b); }
    }
  }

  lemma AfterOneMore(times: seq<int>, t: int, start: int)
    ensures After(times + [t], start) == if t > start then After(times, start) + [t] else After(times, start)
  {
    assert (times + [t])[..|times|] == times;
  }

  lemma {:induction false} AfterSorted(times: seq<int>, start: int, now: int)
    requires SortedUpTo(times, now)
    ensures SortedUpTo(After(times, start), now)
    ensures forall i :: 0 <= i < |After(times, start)| ==> After(times, start)[i] > start
    ensures times == [] || times[|times| - 1] <= start ==> After(times, start) == []
  {
    if times != [] {
      var init := times[..|times| - 1];
      AfterSorted(init, start, times[|times| - 1]);
    }
  }

  lemma TimePasses(c: Config, b: Buckets, h: History, was: int, now: int)
    requires Agrees(c, b, h, was) && was <= now
    ensures Agrees(c, b, h, now)
  {
    hide After;
    forall key ensures AgreesOn(c, b, h, now, key) {
      assert AgreesOn(c, b, h, was, key);
      AfterTwice(TimesOf(b, key), was - c.windowMs, now - c.windowMs);
      AfterTwice(Admitted(h, key), was - c.windowMs, now - c.windowMs);
    }
  }

  lemma SweepAgrees(c: Config, b: Buckets, h: History, now: int)
    requires Agrees(c, b, h, now)
    ensures Agrees(c, Swept(c, b, now), h, now)
  {
    var swept := Swept(c, b, now);
    forall key ensures AgreesOn(c, swept, h, now, key) {
      assert AgreesOn(c, b, h, now, key);
      AfterSorted(TimesOf(b, key), now - c.windowMs, now);
      assert TimesOf(swept, key) == TimesOf(b, key) || TimesOf(swept, key) == [];
    }
  }

  lemma AdmitAgrees(live: seq<int>, all: seq<int>, start: int, now: int)
    requires SortedUpTo(all, now) && SortedUpTo(live, now) && live == After(all, start)
    ensures SortedUpTo(all + [now], now) && SortedUpTo(live + [now], now)
    ensures After(live, start) == After(all, start) && After(live + [now], start) == After(all + [now], start)
  {
    hide After;
    AfterTwice(all, start, start);
    AfterOneMore(live, now, start);
    AfterOneMore(all, now, start);
  }

  /** One request: the same answer, and the two limiters still agree. */
  lemma CheckRefines(c: Config, b: Buckets, h: History, was: int, key: Key, now: int)
    requires Agrees(c, b, h, was) && was <= now
    ensures Check(c, b, key, now).1 == IdealCheck(c, h, key, now).1
    ensures Agrees(c, Check(c, b, key, now).0, IdealCheck(c, h, key, now).0, now)
  {
    hide After;
    hide Swept;
    hide SortedUpTo;
    TimePasses(c, b, h, was, now);
    SweepAgrees(c, b, h, now);
    var swept := Swept(c, b, now);
    var start := now - c.windowMs;
    assert AgreesOn(c, swept, h, now, key);
    AfterSorted(TimesOf(swept, key), start, now);
    AdmitAgrees(After(TimesOf(swept, key), start), Admitted(h, key), start, now);
    forall k ensures AgreesOn(c, Check(c, b, key, now).0, IdealCheck(c, h, key, now).0, now, k) {
      assert AgreesOn(c, swept, h, now, k);
    }
  }

  /** A sweep happens once a window, and leaves the buckets with a request in it. */
  lemma SweepMeans(c: Config, b: Buckets, now: int, key: Key)
    ensures var after := Swept(c, b, now);
      && (now - b.lastSweep < c.windowMs ==> after == b)
      && (now - b.lastSweep >= c.windowMs ==>
            && after.lastSweep == now
            && (key in after.times <==>
                  key in b.times && b.times[key] != [] && b.times[key][|b.times[key]| - 1] >= now - c.windowMs)
            && (key in after.times ==> after.times[key] == b.times[key]))
  {
  }

  // ---- whole runs -------------------------------------------------------------------

  datatype Req = Req(key: Key, now: int)

  ghost predicate ClockOk(start: int, reqs: seq<Req>) {
    && (forall i :: 0 <= i < |reqs| ==> start <= reqs[i].now)
    && (forall i, j :: 0 <= i < j < |reqs| ==> reqs[i].now <= reqs[j].now)
  }

  function Serve(c: Config, b: Buckets, reqs: seq<Req>): (Buckets, seq<Result>) {
    if reqs == [] then (b, [])
    else
      var (before, results) := Serve(c, b, reqs[..|reqs| - 1]);
      var (after, r) := Check(c, before, reqs[|reqs| - 1].key, reqs[|reqs| - 1].now);
      (after, results + [r])
  }

  function IdealServe(c: Config, reqs: seq<Req>): (History, seq<Result>) {
    if reqs == [] then (map[], [])
    else
      var (before, results) := IdealServe(c, reqs[..|reqs| - 1]);
      var (after, r) := IdealCheck(c, before, reqs[|reqs| - 1].key, reqs[|reqs| - 1].now);
      (after, results + [r])
  }

  /** With a clock that does not go back, pruning and sweeping change no answer. */
  lemma {:induction false} RunRefines(c: Config, start: int, reqs: seq<Req>)
    requires ClockOk(start, reqs)
    ensures Serve(c, Buckets(map[], start), reqs).1 == IdealServe(c, reqs).1
    ensures Agrees(c, Serve(c, Buckets(map[], start), reqs).0, IdealServe(c, reqs).0,
                   if reqs == [] then start else reqs[|reqs| - 1].now)
  {
    if reqs != [] {
      var init, last := reqs[..|reqs| - 1], reqs[|reqs| - 1];
      assert ClockOk(start, init);
      RunRefines(c, start, init);
      CheckRefines(c, Serve(c, Buckets(map[], start), init).0, IdealServe(c, init).0,
                   if init == [] then start else init[|init| - 1].now, last.key, last.now);
    }
  }

  /** The timestamps in `(hi - window, hi]`. */
  function Within(times: seq<int>, lo: int, hi: int): seq<int> {
    if times == [] then []
    else
      var last := times[|times| - 1];
      var kept := Within(times[..|times| - 1], lo, hi);
      if lo < last <= hi then kept + [last] else kept
  }

  ghost predicate FewUpTo(c: Config, times: seq<int>, hi: int) {
    |Within(times, hi - c.windowMs, hi)| <= c.limit
  }

  ghost predicate NeverTooMany(c: Config, times: seq<int>) {
    forall hi: int :: FewUpTo(c, times, hi)
  }

  lemma {:induction false} WithinIsAfter(times: seq<int>, lo: int, hi: int, now: int)
    requires SortedUpTo(times, now) && now <= hi
    ensures Within(times, lo, hi) == After(times, lo)
  {
    if times != [] { WithinIsAfter(times[..|times| - 1], lo, hi, now); }
  }

  lemma {:induction false} AfterShrinks(times: seq<int>, a: int, b: int)
    requires a <= b
    ensures |After(times, b)| <= |After(times, a)|
  {
    if times != [] { AfterShrinks(times[..|times| - 1], a, b); }
  }

  lemma FewWithOneMore(c: Config, times: seq<int>, now: int, hi: int)
    requires SortedUpTo(times, now) && NeverTooMany(c, times) && |After(times, now - c.windowMs)| < c.limit
    ensures FewUpTo(c, times + [now], hi)
  {
    hide After;
    assert (times + [now])[..|times|] == times;
    assert FewUpTo(c, times, hi);
    if now <= hi {
      WithinIsAfter(times, hi - c.windowMs, hi, now);
      AfterShrinks(times, now - c.windowMs, hi - c.windowMs);
    }
  }

  lemma AdmissionKeepsTheLimit(c: Config, times: seq<int>, now: int)
    requires SortedUpTo(times, now) && NeverTooMany(c, times) && |After(times, now - c.windowMs)| < c.limit
    ensures NeverTooMany(c, times + [now])
  {
    forall hi: int ensures FewUpTo(c, times + [now], hi) { FewWithOneMore(c, times, now, hi); }
  }

  lemma EmptyHistory(c: Config, key: Key)
    ensures NeverTooMany(c, Admitted(map[], key))
  {
    forall hi: int ensures FewUpTo(c, [], hi) {}
  }

  lemma AgreeingIsSorted(c: Config, b: Buckets, h: History, now: int, key: Key)
    requires Agrees(c, b, h, now)
    ensures SortedUpTo(Admitted(h, key), now)
  {
    assert AgreesOn(c, b, h, now, key);
  }

  /** No window of `windowMs` ever holds more than `limit` admitted requests of a key. */
  lemma {:induction false} LimitHolds(c: Config, start: int, reqs: seq<Req>, key: Key)
    requires ClockOk(start, reqs)
    ensures NeverTooMany(c, Admitted(IdealServe(c, reqs).0, key))
  {
    hide After;
    hide Within;
    hide Agrees;
    if reqs == [] {
      EmptyHistory(c, key);
    } else {
      var init, last := reqs[..|reqs| - 1], reqs[|reqs| - 1];
      assert ClockOk(start, init);
      LimitHolds(c, start, init, key);
      RunRefines(c, start, init);
      var was := if init == [] then start else init[|init| - 1].now;
      var h := IdealServe(c, init).0;
      TimePasses(c, Serve(c, Buckets(map[], start), init).0, h, was, last.now);
      AgreeingIsSorted(c, Serve(c, Buckets(map[], start), init).0, h, last.now, key);
      if last.key == key && Answer(c, After(Admitted(h, key), last.now - c.windowMs), last.now).allowed {
        AdmissionKeepsTheLimit(c, Admitted(h, key), last.now);
      }
    }
  }

  lemma {:induction false} AfterKeepsAll(times: seq<int>, start: int)
    requires forall i :: 0 <= i < |times| ==> times[i] > start
    ensures After(times, start) == times
  {
    if times != [] { AfterKeepsAll(times[..|times| - 1], start); }
  }

  lemma {:induction false} AfterDropsFirst(times: seq<int>, start: int)
    requires times != [] && times[0] <= start
    ensures |After(times, start)| < |times|
  {
    if |times| > 1 { AfterDropsFirst(times[..|times| - 1], start); }
  }

  predicate Admits(c: Config, times: seq<int>, t: int) { Answer(c, After(times, t - c.windowMs), t).allowed }

  /** A rejected caller's `resetAt` is the first instant it can be admitted. */
  lemma ResetIsFirstAdmission(c: Config, times: seq<int>, now: int)
    requires c.limit >= 1 && SortedUpTo(times, now) && NeverTooMany(c, times) && !Admits(c, times, now)
    ensures var r := Answer(c, After(times, now - c.windowMs), now);
      && r.resetAt.Some? && r.resetAt.value > now
      && (forall t :: now <= t < r.resetAt.value ==> !Admits(c, times, t))
      && Admits(c, times, r.resetAt.value)
  {
    hide After;
    hide Within;
    var live := After(times, now - c.windowMs);
    AfterSorted(times, now - c.windowMs, now);
    WithinIsAfter(times, now - c.windowMs, now, now);
    assert FewUpTo(c, times, now);
    var reset := live[0] + c.windowMs;
    forall t | now <= t < reset ensures !Admits(c, times, t) {
      AfterTwice(times, now - c.windowMs, t - c.windowMs);
      assert forall i :: 0 <= i < |live| ==> live[i] >= live[0];
      AfterKeepsAll(live, t - c.windowMs);
    }
    AfterTwice(times, now - c.windowMs, live[0]);
    AfterDropsFirst(live, live[0]);
  }

  // ---- what a rejected caller can rely on -----------------------------------------------

  /** The full history before request `n`. */
  function Before(c: Config, reqs: seq<Req>, n: nat): History
    requires n <= |reqs|
  {
    IdealServe(c, reqs[..n]).0
  }

  lemma {:induction false} ResultAt(c: Config, reqs: seq<Req>, n: nat)
    requires n < |reqs|
    ensures |IdealServe(c, reqs).1| == |reqs|
    ensures IdealServe(c, reqs).1[n] == IdealCheck(c, Before(c, reqs, n), reqs[n].key, reqs[n].now).1
    ensures Before(c, reqs, n + 1) == IdealCheck(c, Before(c, reqs, n), reqs[n].key, reqs[n].now).0
    decreases |reqs|
  {
    hide IdealCheck;
    var init := reqs[..|reqs| - 1];
    assert reqs[..n + 1][..n] == reqs[..n];
    if n < |init| {
      ResultAt(c, init, n);
      assert init[..n] == reqs[..n];
    } else {
      assert reqs[..n + 1] == reqs;
      if n > 0 { ResultAt(c, init, 0); }
    }
  }

  /** Up to request `n`, the history of a key is in order and within the limit. */
  lemma HistoryIsInOrder(c: Config, start: int, reqs: seq<Req>, n: nat)
    requires ClockOk(start, reqs) && n < |reqs|
    ensures SortedUpTo(Admitted(Before(c, reqs, n), reqs[n].key), reqs[n].now)
    ensures NeverTooMany(c, Admitted(Before(c, reqs, n), reqs[n].key))
  {
    hide Agrees;
    hide NeverTooMany;
    var init := reqs[..n];
    assert ClockOk(start, init);
    LimitHolds(c, start, init, reqs[n].key);
    RunRefines(c, start, init);
    var b := Serve(c, Buckets(map[], start), init).0;
    TimePasses(c, b, Before(c, reqs, n), if init == [] then start else init[|init| - 1].now, reqs[n].now);
    AgreeingIsSorted(c, b, Before(c, reqs, n), reqs[n].now, reqs[n].key);
  }

  /** Request `i` of a run was rejected, and no request of its key between `i` and `n`
      came at its reset time or later. */
  ghost predicate WaitsSince(reqs: seq<Req>, results: seq<Result>, i: nat, n: nat) {
    && i < n <= |reqs| == |results| && !results[i].allowed && results[i].resetAt.Some?
    && forall k :: i < k < n && reqs[k].key == reqs[i].key ==> reqs[k].now < results[i].resetAt.value
  }

  lemma {:induction false} NothingIsAdmitted(c: Config, start: int, reqs: seq<Req>, i: nat, n: nat)
    requires ClockOk(start, reqs) && c.limit >= 1 && WaitsSince(reqs, IdealServe(c, reqs).1, i, n)
    ensures Admitted(Before(c, reqs, n), reqs[i].key) == Admitted(Before(c, reqs, i), reqs[i].key)
    decreases n
  {
    hide After;
    hide NeverTooMany;
    hide IdealServe;
    ResultAt(c, reqs, i);
    if n > i + 1 {
      NothingIsAdmitted(c, start, reqs, i, n - 1);
      ResultAt(c, reqs, n - 1);
      HistoryIsInOrder(c, start, reqs, i);
      var times := Admitted(Before(c, reqs, i), reqs[i].key);
      ResetIsFirstAdmission(c, times, reqs[i].now);
      assert reqs[n - 1].key == reqs[i].key ==> !Admits(c, times, reqs[n - 1].now);
    }
  }

  /** The limiter as it is, over any run: after a rejection, the next request of that
      key is admitted if and only if it comes at the announced reset time or later, as
      long as those in between came before it. */
  lemma {:induction false} AdmittedFromReset(c: Config, start: int, reqs: seq<Req>, i: nat, j: nat)
    requires ClockOk(start, reqs) && c.limit >= 1 && i < j < |reqs| && reqs[i].key == reqs[j].key
    requires var results := Serve(c, Buckets(map[], start), reqs).1;
      |results| == |reqs| && !results[i].allowed
    ensures var results := Serve(c, Buckets(map[], start), reqs).1;
      && results[i].resetAt.Some? && results[i].resetAt.value > reqs[i].now
      && (WaitsSince(reqs, results, i, j) ==> (results[j].allowed <==> reqs[j].now >= results[i].resetAt.value))
  {
    hide After;
    hide NeverTooMany;
    hide IdealServe;
    hide Serve;
    RunRefines(c, start, reqs);
    ResultAt(c, reqs, i);
    ResultAt(c, reqs, j);
    HistoryIsInOrder(c, start, reqs, i);
    var times := Admitted(Before(c, reqs, i), reqs[i].key);
    ResetIsFirstAdmission(c, times, reqs[i].now);
    var results := IdealServe(c, reqs).1;
    if WaitsSince(reqs, results, i, j) {
      NothingIsAdmitted(c, start, reqs, i, j);
      assert results[j].allowed == Admits(c, times, reqs[j].now);
      var reset := results[i].resetAt.value;
      if reqs[j].now >= reset { AfterShrinks(times, reset - c.windowMs, reqs[j].now - c.windowMs); }
    }
  }

  lemma {:induction false} NothingAtZero(c: Config, reqs: seq<Req>, key: Key)
    requires c.limit == 0
    ensures Admitted(IdealServe(c, reqs).0, key) == []
  {
    hide After;
    if reqs != [] { NothingAtZero(c, reqs[..|reqs| - 1], key); }
  }

  /** Over any run: the reset time of a request cannot be computed exactly where the
      limit is zero. */
  lemma {:induction false} ResetMissingIff(c: Config, start: int, reqs: seq<Req>, n: nat)
    requires ClockOk(start, reqs) && n < |reqs|
    ensures var results := Serve(c, Buckets(map[], start), reqs).1;
      |results| == |reqs| && (results[n].resetAt.None? <==> c.limit == 0)
  {
    hide IdealServe;
    hide Serve;
    RunRefines(c, start, reqs);
    ResultAt(c, reqs, n);
    if c.limit == 0 { NothingAtZero(c, reqs[..n], reqs[n].key); }
  }

  // ---- what an answer means, said about the answers alone ------------------------------------

  /** How many of the first `n` requests were admitted for the key, after `lo`. */
  function AdmittedAfter(reqs: seq<Req>, results: seq<Result>, n: nat, key: Key, lo: int): nat
    requires n <= |reqs| == |results|
  {
    if n == 0 then 0
    else
      AdmittedAfter(reqs, results, n - 1, key, lo)
      + if reqs[n - 1].key == key && results[n - 1].allowed && reqs[n - 1].now > lo then 1 else 0
  }

  lemma {:induction false} HistoryCounts(c: Config, reqs: seq<Req>, n: nat, key: Key, lo: int)
    requires n <= |reqs| && |IdealServe(c, reqs).1| == |reqs|
    ensures |After(Admitted(Before(c, reqs, n), key), lo)| == AdmittedAfter(reqs, IdealServe(c, reqs).1, n, key, lo)
  {
    hide IdealServe;
    hide After;
    if n == 0 {
      NothingBefore(c, reqs, key, lo);
    } else {
      HistoryCounts(c, reqs, n - 1, key, lo);
      ResultAt(c, reqs, n - 1);
      AfterOneMore(Admitted(Before(c, reqs, n - 1), key), reqs[n - 1].now, lo);
    }
  }

  lemma NothingBefore(c: Config, reqs: seq<Req>, key: Key, lo: int)
    ensures After(Admitted(Before(c, reqs, 0), key), lo) == []
  {
  }

  /** The sliding window: a request is admitted exactly when fewer than the limit were
      admitted for its key in the window before it, and is told how many may follow. */
  lemma {:induction false} AllowedIff(c: Config, start: int, reqs: seq<Req>, n: nat)
    requires ClockOk(start, reqs) && n < |reqs|
    ensures var results := Serve(c, Buckets(map[], start), reqs).1;
      && |results| == |reqs|
      && var before := AdmittedAfter(reqs, results, n, reqs[n].key, reqs[n].now - c.windowMs);
      && (results[n].allowed <==> before < c.limit)
      && results[n].remaining == (if before < c.limit then c.limit - before - 1 else 0)
      && (results[n].allowed ==> results[n].resetAt == Some(reqs[n].now + c.windowMs))
  {
    hide IdealServe;
    hide Serve;
    hide After;
    RunRefines(c, start, reqs);
    ResultAt(c, reqs, n);
    HistoryCounts(c, reqs, n, reqs[n].key, reqs[n].now - c.windowMs);
  }

  /** Exactly `remaining` more requests of that key are admitted at the same instant; in a
      window of no length, all of them. */
  lemma {:induction false} RemainingIsExact(c: Config, start: int, reqs: seq<Req>, i: nat, j: nat)
    requires ClockOk(start, reqs) && i < j < |reqs|
    requires forall k :: i <= k <= j ==> reqs[k] == reqs[i]
    ensures var results := Serve(c, Buckets(map[], start), reqs).1;
      && |results| == |reqs|
      && (results[i].allowed ==> (results[j].allowed <==> c.windowMs == 0 || j - i <= results[i].remaining))
  {
    hide Serve;
    AllowedIff(c, start, reqs, i);
    AllowedIff(c, start, reqs, j);
    var results := Serve(c, Buckets(map[], start), reqs).1;
    if results[i].allowed {
      if c.windowMs == 0 {
        NoneAfterNow(reqs, results, j, reqs[i].key, reqs[i].now);
      } else {
        CountsUp(c, start, reqs, i, j);
      }
    }
  }

  lemma {:induction false} NoneAfterNow(reqs: seq<Req>, results: seq<Result>, n: nat, key: Key, now: int)
    requires n <= |reqs| == |results| && forall k :: 0 <= k < n ==> reqs[k].now <= now
    ensures AdmittedAfter(reqs, results, n, key, now) == 0
  {
    if n > 0 { NoneAfterNow(reqs, results, n - 1, key, now); }
  }

  lemma {:induction false} CountsUp(c: Config, start: int, reqs: seq<Req>, i: nat, j: nat)
    requires ClockOk(start, reqs) && i < j < |reqs| && c.windowMs > 0
    requires forall k :: i <= k <= j ==> reqs[k] == reqs[i]
    requires |Serve(c, Buckets(map[], start), reqs).1| == |reqs| && Serve(c, Buckets(map[], start), reqs).1[i].allowed
    ensures var results, lo := Serve(c, Buckets(map[], start), reqs).1, reqs[i].now - c.windowMs;
      var before := AdmittedAfter(reqs, results, i, reqs[i].key, lo);
      AdmittedAfter(reqs, results, j, reqs[i].key, lo) == if before + (j - i) <= c.limit
        then before + (j - i) else c.limit
  {
    hide Serve;
    AllowedIff(c, start, reqs, j - 1);
    if j > i + 1 { CountsUp(c, start, reqs, i, j - 1); }
  }
}
