/** The workflow engine: ordered steps, step retries, run retries that resume at
    the failed step, and dead-lettering. */
module Workflow {
  import opened Common

  /** One run per workflow and event. */
  datatype RunId = RunId(workflow: string, event: string)

  datatype Step = Step(hasExecutor: bool, maxAttempts: nat)

  /** `Unlogged`: the executor did its work, but the write that records it failed. */
  datatype CallOutcome = Succeeded | Unlogged | Failed | TimedOut

  /** The engine takes a failed log write for a failed call. */
  predicate Retryable(outcome: CallOutcome) { outcome.Failed? || outcome.Unlogged? }

  predicate DidItsWork(outcome: CallOutcome) { outcome.Succeeded? || outcome.Unlogged? }

  /** One invocation of a step's executor. */
  datatype Call = Call(attempt: nat, step: nat, stepAttempt: nat, outcome: CallOutcome)

  datatype Status = Pending | Running | Skipped | RunSucceeded | RunFailed | DeadLetter

  datatype Row = Row(status: Status, attempt: nat, maxAttempts: nat, currentStep: nat, nextAttemptAt: Option<int>)

  /** Five minutes, tripled with every attempt, and at most six hours. */
  function Backoff(attempt: nat): int
    requires attempt >= 1
  {
    var ms := 300_000 * Power3(attempt - 1);
    if ms > 21_600_000 then 21_600_000 else ms
  }

  function Power3(n: nat): nat { if n == 0 then 1 else 3 * Power3(n - 1) }

  /** The wait is never shorter than five minutes and never shrinks; from the
      fifth attempt on it is six hours. */
  lemma {:induction false} BackoffGrows(attempt: nat)
    requires attempt >= 1
    ensures 300_000 <= Backoff(attempt) <= Backoff(attempt + 1) <= 21_600_000
    ensures attempt >= 5 <==> Backoff(attempt) == 21_600_000
  {
    if attempt <= 5 {
      assert Power3(1) == 3 && Power3(2) == 9 && Power3(3) == 27 && Power3(4) == 81;
    } else {
      BackoffGrows(attempt - 1);
    }
  }

  /** In minutes: 5, 15, 45, 135, and then six hours. */
  lemma BackoffTable()
    ensures Backoff(1) == 5 * 60_000 && Backoff(2) == 15 * 60_000 && Backoff(3) == 45 * 60_000
    ensures Backoff(4) == 135 * 60_000 && Backoff(5) == 360 * 60_000
  {
    assert Power3(1) == 3 && Power3(2) == 9 && Power3(3) == 27 && Power3(4) == 81;
  }

  // ---- what a run's calls look like ------------------------------------------------

  /** Later calls belong to a later attempt, or to a later step or step attempt of
      the same one; they never go back to an earlier step, nor to a step that
      succeeded, and nothing follows a timeout. */
  ghost predicate Follows(a: Call, b: Call) {
    && (a.attempt < b.attempt || (a.attempt == b.attempt
          && (a.step < b.step || (a.step == b.step && a.stepAttempt < b.stepAttempt))))
    && a.step <= b.step
    && (a.outcome.Succeeded? ==> a.step < b.step)
    && !a.outcome.TimedOut?
  }

  ghost predicate LegalCall(steps: seq<Step>, c: Call) {
    c.step < |steps| && steps[c.step].hasExecutor && 1 <= c.stepAttempt <= steps[c.step].maxAttempts
  }

  ghost predicate LogOk(steps: seq<Step>, calls: seq<Call>) {
    && (forall i :: 0 <= i < |calls| ==> LegalCall(steps, calls[i]))
    && (forall i, j :: 0 <= i < j < |calls| ==> Follows(calls[i], calls[j]))
  }

  ghost predicate DoneBefore(calls: seq<Call>, step: nat) {
    forall s :: 0 <= s < step ==> StepDone(calls, s)
  }

  ghost predicate StepDone(calls: seq<Call>, s: nat) {
    exists i :: 0 <= i < |calls| && calls[i].step == s && calls[i].outcome.Succeeded?
  }

  ghost predicate NoTimeout(calls: seq<Call>) {
    forall i :: 0 <= i < |calls| ==> !calls[i].outcome.TimedOut?
  }

  /** No call is beyond attempt `attempt` and step `step`, which has not succeeded. */
  ghost predicate UpTo(calls: seq<Call>, attempt: nat, step: nat) {
    forall i :: 0 <= i < |calls| ==>
      calls[i].attempt <= attempt && calls[i].step <= step && (calls[i].outcome.Succeeded? ==> calls[i].step < step)
  }

  /** Attempt `attempt` has not called step `step` or a later one yet. */
  ghost predicate NotYet(calls: seq<Call>, attempt: nat, step: nat) {
    forall i :: 0 <= i < |calls| ==> calls[i].attempt < attempt || calls[i].step < step
  }

  lemma NextAttempt(calls: seq<Call>, attempt: nat, step: nat)
    requires UpTo(calls, attempt, step)
    ensures UpTo(calls, attempt + 1, step) && NotYet(calls, attempt + 1, step)
  {
  }

  /** How a step that did not succeed ended: every retry was used and failed (none,
      where no executor is registered), or the last call timed out. */
  ghost predicate GaveUp(step: Step, calls: seq<Call>, attempt: nat, index: nat) {
    var m := if step.hasExecutor then step.maxAttempts else 0;
    m <= |calls| && AllFailed(calls, |calls| - m, attempt, index)
  }

  ghost predicate AllFailed(calls: seq<Call>, from: nat, attempt: nat, index: nat) {
    forall i :: from <= i < |calls| ==>
      calls[i] == Call(attempt, index, i - from + 1, calls[i].outcome) && Retryable(calls[i].outcome)
  }

  ghost predicate LastTimedOut(calls: seq<Call>, attempt: nat, index: nat) {
    calls != [] && calls[|calls| - 1].outcome.TimedOut?
    && calls[|calls| - 1].attempt == attempt && calls[|calls| - 1].step == index
  }

  /** After a call that is to be retried, the next call is of the same step. */
  ghost predicate Pursued(calls: seq<Call>) {
    forall i :: 0 <= i < |calls| - 1 && Retryable(calls[i].outcome) ==> calls[i + 1].step == calls[i].step
  }

  ghost predicate LastAt(calls: seq<Call>, step: nat) {
    calls != [] && Retryable(calls[|calls| - 1].outcome) ==> calls[|calls| - 1].step == step
  }

  /** A retry that is still owed is owed by the run, not by this attempt. */
  ghost predicate Settled(steps: seq<Step>, calls: seq<Call>, attempt: nat) {
    calls != [] && Retryable(calls[|calls| - 1].outcome) ==>
      var last := calls[|calls| - 1];
      last.step < |steps| && last.stepAttempt == steps[last.step].maxAttempts && last.attempt == attempt
  }

  lemma PursuedOneMore(calls: seq<Call>, c: Call)
    requires Pursued(calls) && LastAt(calls, c.step)
    ensures Pursued(calls + [c]) && LastAt(calls + [c], c.step)
  {
  }

  /** A step that makes no call at all owes no retry. */
  lemma NothingOwed(steps: seq<Step>, calls: seq<Call>, attempt: nat, step: nat)
    requires LogOk(steps, calls) && LastAt(calls, step)
    requires step < |steps| ==> !steps[step].hasExecutor || steps[step].maxAttempts == 0
    ensures Settled(steps, calls, attempt)
  {
    if calls != [] { assert LegalCall(steps, calls[|calls| - 1]); }
  }

  lemma LastOfAll(steps: seq<Step>, calls: seq<Call>, attempt: nat, index: nat)
    requires index < |steps| && 0 < steps[index].maxAttempts <= |calls|
    requires AllFailed(calls, |calls| - steps[index].maxAttempts, attempt, index)
    ensures Settled(steps, calls, attempt)
  {
  }

  function Limit(row: Row): nat { if row.maxAttempts > 1 then row.maxAttempts else 1 }

  /** What holds of a run at any time, also in the middle of an attempt. */
  ghost predicate Progress(steps: seq<Step>, row: Row, calls: seq<Call>) {
    && LogOk(steps, calls) && UpTo(calls, row.attempt, row.currentStep) && DoneBefore(calls, row.currentStep)
    && Pursued(calls) && LastAt(calls, row.currentStep)
    && row.currentStep <= |steps| && row.attempt <= Limit(row)
    && (row.status in {RunFailed, Running} ==> NoTimeout(calls))
  }

  /** And between attempts. */
  ghost predicate RunOk(steps: seq<Step>, row: Row, calls: seq<Call>) {
    && Progress(steps, row, calls) && Settled(steps, calls, row.attempt)
    && (row.status in {Pending, Skipped} ==> calls == [] && row.attempt == 0 && row.currentStep == 0)
    && (row.status in {RunFailed, Running} ==> row.attempt < row.maxAttempts)
    && (row.status == RunSucceeded ==> row.currentStep == |steps|)
  }

  /** Attempt `attempt` has called step `index` fewer than `next` times, and no later step. */
  ghost predicate Retries(calls: seq<Call>, attempt: nat, index: nat, next: nat) {
    forall i :: 0 <= i < |calls| ==>
      calls[i].attempt < attempt || calls[i].step < index || calls[i].stepAttempt < next
  }

  lemma OneMoreCall(steps: seq<Step>, calls: seq<Call>, from: nat, c: Call)
    requires LogOk(steps, calls) && LegalCall(steps, c) && NoTimeout(calls)
    requires UpTo(calls, c.attempt, c.step) && Retries(calls, c.attempt, c.step, c.stepAttempt)
    requires from <= |calls| && AllFailed(calls, from, c.attempt, c.step) && c.stepAttempt == |calls| - from + 1
    ensures LogOk(steps, calls + [c])
    ensures c.outcome.TimedOut? ==> LastTimedOut(calls + [c], c.attempt, c.step) && UpTo(calls + [c], c.attempt, c.step)
    ensures NoTimeout(calls + [c]) <==> !c.outcome.TimedOut?
    ensures c.outcome.Succeeded? ==> StepDone(calls + [c], c.step)
    ensures c.outcome.Succeeded? ==>
      UpTo(calls + [c], c.attempt, c.step + 1) && NotYet(calls + [c], c.attempt, c.step + 1)
    ensures Retryable(c.outcome) ==> AllFailed(calls + [c], from, c.attempt, c.step)
    ensures Retryable(c.outcome) ==>
      UpTo(calls + [c], c.attempt, c.step) && Retries(calls + [c], c.attempt, c.step, c.stepAttempt + 1)
  {
    forall i | 0 <= i < |calls| ensures Follows(calls[i], c) {}
    assert (calls + [c])[|calls|] == c;
  }

  // ---- the engine ---------------------------------------------------------------------

  /** A run's stored row, and every executor call made for it. */
  class Run {
    const id: RunId
    const steps: seq<Step>
    /** What comes of the n-th executor call of this run. */
    const executor: nat -> CallOutcome
    var row: Row
    var calls: seq<Call>

    ghost predicate Ok() reads this { RunOk(steps, row, calls) && Recorded() }

    /** The log holds what the executor did, call by call. */
    ghost predicate Recorded() reads this {
      forall i :: 0 <= i < |calls| ==> calls[i].outcome == executor(i)
    }

    constructor (id: RunId, steps: seq<Step>, executor: nat -> CallOutcome, matches: bool, maxAttempts: nat)
      ensures this.id == id && this.steps == steps && this.executor == executor
      ensures Ok() && calls == []
      ensures row == Row(if matches then Pending else Skipped, 0, maxAttempts, 0, None)
    {
      this.id, this.steps, this.executor := id, steps, executor;
      row := Row(if matches then Pending else Skipped, 0, maxAttempts, 0, None);
      calls := [];
    }

    /** The step's bounded retry loop. */
    method ExecuteStep(attempt: nat, index: nat) returns (ok: bool, uncertain: bool)
      requires index < |steps| && LogOk(steps, calls) && NoTimeout(calls)
      requires UpTo(calls, attempt, index) && NotYet(calls, attempt, index) && Recorded()
      requires Pursued(calls) && LastAt(calls, index)
      modifies `calls
      ensures old(calls) <= calls && LogOk(steps, calls) && Recorded()
      ensures Pursued(calls) && Settled(steps, calls, attempt)
      ensures LastAt(calls, if ok then index + 1 else index)
      ensures uncertain <==> !NoTimeout(calls)
      ensures uncertain ==> !ok && LastTimedOut(calls, attempt, index)
      ensures !ok && !uncertain ==> GaveUp(steps[index], calls, attempt, index)
      ensures ok ==>
        !uncertain && StepDone(calls, index) && UpTo(calls, attempt, index + 1) && NotYet(calls, attempt, index + 1)
      ensures !ok ==> UpTo(calls, attempt, index)
      ensures |calls| <= |old(calls)| + steps[index].maxAttempts
    {
      hide LogOk;
      hide UpTo;
      hide NotYet;
      hide Retries;
      hide AllFailed;
      hide NoTimeout;
      hide LastTimedOut;
      hide StepDone;
      hide Pursued;
      var step := steps[index];
      ok, uncertain := false, false;
      StartOfStep(calls, attempt, index);
      if !step.hasExecutor || step.maxAttempts == 0 { NothingOwed(steps, calls, attempt, index); }
      if !step.hasExecutor { return; }
      var stepAttempt := 1;
      while stepAttempt <= step.maxAttempts
        invariant 1 <= stepAttempt <= step.maxAttempts + 1 && |calls| == |old(calls)| + stepAttempt - 1
        invariant old(calls) <= calls && LogOk(steps, calls) && NoTimeout(calls) && Recorded()
        invariant AllFailed(calls, |old(calls)|, attempt, index)
        invariant UpTo(calls, attempt, index) && Retries(calls, attempt, index, stepAttempt)
        invariant Pursued(calls) && LastAt(calls, index)
      {
        var call := Call(attempt, index, stepAttempt, executor(|calls|));
        OneMoreCall(steps, calls, |old(calls)|, call);
        PursuedOneMore(calls, call);
        calls := calls + [call];
        match call.outcome
        case Succeeded => return true, false;
        case TimedOut => return false, true;
        case Unlogged => stepAttempt := stepAttempt + 1;
        case Failed => stepAttempt := stepAttempt + 1;
      }
      if step.maxAttempts > 0 { LastOfAll(steps, calls, attempt, index); }
    }

    /** One attempt, from the stored step on. */
    method Execute(now: int)
      requires Ok() && row.status in {Pending, Running}
      modifies this
      ensures Ok() && old(calls) <= calls && row.attempt == old(row).attempt + 1
      ensures row.maxAttempts == old(row).maxAttempts
      ensures row.status in {RunSucceeded, RunFailed, DeadLetter}
      ensures row.status == RunFailed ==>
        row.nextAttemptAt == Some(now + Backoff(row.attempt)) && row.attempt < row.maxAttempts
      ensures row.status == RunFailed ==> forall later :: IsDue(later) <==> later >= now + Backoff(row.attempt)
      ensures row.status != RunSucceeded ==> row.currentStep < |steps|
      ensures row.status != RunSucceeded ==> (GaveUp(steps[row.currentStep], calls, row.attempt, row.currentStep)
                                              || LastTimedOut(calls, row.attempt, row.currentStep))
      ensures row.status != RunSucceeded ==>
        (row.status == DeadLetter <==>
           row.attempt >= row.maxAttempts || LastTimedOut(calls, row.attempt, row.currentStep))
      ensures row.status != RunSucceeded ==> !StepDone(calls, row.currentStep)
    {
      hide LogOk;
      hide DoneBefore;
      hide StepDone;
      hide UpTo;
      hide NotYet;
      hide NoTimeout;
      hide Backoff;
      hide GaveUp;
      hide LastTimedOut;
      hide Pursued;
      hide Settled;
      NextAttempt(calls, row.attempt, row.currentStep);
      if row.status == Pending { PendingIsFresh(steps, row, calls); }
      var attempt := row.attempt + 1;
      var index := row.currentStep;
      row := row.(status := Running, attempt := attempt);
      while index < |steps|
        invariant Progress(steps, row, calls) && Recorded() && old(calls) <= calls && index <= |steps|
        invariant row == old(row).(status := Running, attempt := attempt, currentStep := index)
        invariant NotYet(calls, attempt, index)
      {
        ghost var before := calls;
        var ok, uncertain := ExecuteStep(attempt, index);
        DoneStays(before, calls, index);
        if !ok {
          NotDone(calls, attempt, index);
          NoTimeoutAtTheEnd(calls, attempt, index);
          var exhausted := uncertain || attempt >= row.maxAttempts;
          row := row.(status := if exhausted then DeadLetter else RunFailed, currentStep := index,
                      nextAttemptAt := if exhausted then None else Some(now + Backoff(attempt)));
          return;
        }
        DoneOneMore(calls, index);
        index := index + 1;
        row := row.(currentStep := index);
      }
      NothingOwed(steps, calls, attempt, index);
      row := row.(status := RunSucceeded, nextAttemptAt := None);
    }

    /** The run's workflow or event is gone. */
    method Abandon()
      requires Ok() && row.status == Running
      modifies `row
      ensures Ok() && row == old(row).(status := DeadLetter)
    {
      row := row.(status := DeadLetter);
    }

    /** The store's part of a claim: a failed run is marked running. */
    method Claim()
      requires Ok() && row.status == RunFailed
      modifies `row
      ensures Ok() && row == old(row).(status := Running)
    {
      row := row.(status := Running);
    }

    /** The worker's turn with a run it has claimed; it does not look at the row again. */
    method Process(now: int, gone: bool)
      requires Ok() && row.status == Running
      modifies this
      ensures Ok() && AttemptedOnce(old(row), old(calls), gone, now)
    {
      hide RunOk;
      hide GaveUp;
      hide LastTimedOut;
      hide StepDone;
      hide Backoff;
      if gone {
        Abandon();
      } else {
        Execute(now);
        BackoffGrows(row.attempt);
      }
    }

    /** Exactly one more attempt since the claim, and no more of them due at once; or a
        dead letter, when the workflow is gone. */
    ghost predicate AttemptedOnce(before: Row, earlier: seq<Call>, gone: bool, now: int)
      reads this
    {
      if gone then row == before.(status := DeadLetter) && calls == earlier
      else
        && !IsDue(now) && row.attempt == before.attempt + 1 && earlier <= calls
        && row.status in {RunSucceeded, RunFailed, DeadLetter}
    }

    predicate IsDue(now: int)
      reads this
    {
      row.status == RunFailed && row.nextAttemptAt.Some? && row.nextAttemptAt.value <= now
    }

    function DueAt(): int
      reads this
    {
      if row.nextAttemptAt.Some? then row.nextAttemptAt.value else 0
    }
  }

  class WorkflowEngine {
    const stepsOf: string -> seq<Step>
    const executor: (RunId, nat) -> CallOutcome
    var runs: map<RunId, Run>

    ghost predicate Valid()
      reads this, runs.Values
    {
      forall id :: id in runs ==>
        runs[id].id == id && runs[id].steps == stepsOf(id.workflow) && runs[id].Ok()
    }

    constructor (stepsOf: string -> seq<Step>, executor: (RunId, nat) -> CallOutcome)
      ensures this.stepsOf == stepsOf && this.executor == executor && Valid() && runs == map[]
    {
      this.stepsOf, this.executor, runs := stepsOf, executor, map[];
    }

    /** A new event: a run that exists already is left alone; one whose conditions
        do not match is skipped; otherwise its first attempt runs. */
    method StartRun(id: RunId, matches: bool, maxAttempts: nat, now: int)
      requires Valid()
      modifies this
      ensures Valid() && id in runs
      ensures id in old(runs) ==> runs == old(runs)
      ensures id !in old(runs) ==> fresh(runs[id]) && runs == old(runs)[id := runs[id]]
      ensures id !in old(runs) ==> if matches then runs[id].row.attempt == 1 else runs[id].row.status == Skipped
    {
      if id in runs { return; }
      var run := new Run(id, stepsOf(id.workflow), (n: nat) => executor(id, n), matches, maxAttempts);
      if matches { run.Execute(now); }
      runs := runs[id := run];
    }

    method EarliestDue(now: int) returns (earliest: Option<RunId>)
      ensures earliest.None? ==> forall id :: id in runs ==> !runs[id].IsDue(now)
      ensures earliest.Some? ==> earliest.value in runs && runs[earliest.value].IsDue(now)
      ensures earliest.Some? ==>
        forall id :: id in runs && runs[id].IsDue(now) ==> runs[earliest.value].DueAt() <= runs[id].DueAt()
    {
      hide Run.IsDue;
      hide Run.DueAt;
      var left := runs.Keys;
      earliest := None;
      while exists id :: id in left
        invariant left <= runs.Keys
        invariant earliest.None? ==> forall id :: id in runs && id !in left ==> !runs[id].IsDue(now)
        invariant earliest.Some? ==> earliest.value in runs && runs[earliest.value].IsDue(now)
        invariant earliest.Some? ==>
          forall id :: id in runs && id !in left && runs[id].IsDue(now) ==>
            runs[earliest.value].DueAt() <= runs[id].DueAt()
        decreases |left|
      {
        var id :| id in left;
        left := left - {id};
        if runs[id].IsDue(now) && (earliest.None? || runs[id].DueAt() < runs[earliest.value].DueAt()) {
          earliest := Some(id);
        }
      }
    }

    /** The store's claim, one atomic step: up to `batch` due runs, those due longest
        first, are marked running; no other run changes. */
    method ClaimDue(now: int, batch: nat) returns (claimed: seq<RunId>)
      requires Valid()
      modifies runs.Values
      ensures Valid() && |claimed| <= batch
      ensures forall i, j :: 0 <= i < j < |claimed| ==> claimed[i] != claimed[j]
      ensures forall id :: id in claimed ==> id in runs && Claimed(id, now)
      ensures forall id :: id in runs && id !in claimed ==> unchanged(runs[id])
      ensures |claimed| < batch ==> forall id :: id in runs ==> !runs[id].IsDue(now)
      ensures forall id, other :: id in claimed && other in runs && runs[other].IsDue(now) ==>
        runs[id].DueAt() <= runs[other].DueAt()
    {
      hide RunOk;
      claimed := [];
      while |claimed| < batch
        invariant Valid() && |claimed| <= batch
        invariant forall i, j :: 0 <= i < j < |claimed| ==> claimed[i] != claimed[j]
        invariant forall id :: id in claimed ==> id in runs && Claimed(id, now)
        invariant forall id :: id in runs && id !in claimed ==> unchanged(runs[id])
        invariant forall id, other :: id in claimed && other in runs && runs[other].IsDue(now) ==>
          runs[id].DueAt() <= runs[other].DueAt()
      {
        var next := EarliestDue(now);
        if next.None? { return; }
        runs[next.value].Claim();
        claimed := claimed + [next.value];
      }
    }

    /** It was due, and is now marked running and otherwise as it was. */
    twostate predicate Claimed(id: RunId, now: int)
      requires id in runs && id in old(runs) && runs[id] == old(runs)[id]
      reads this, runs.Values
    {
      && old(runs[id].IsDue(now)) && runs[id].row == old(runs[id].row).(status := Running)
      && runs[id].calls == old(runs[id].calls)
    }

    method ProcessClaimed(claimed: seq<RunId>, gone: RunId -> bool, now: int)
      requires Valid() && forall i, j :: 0 <= i < j < |claimed| ==> claimed[i] != claimed[j]
      requires forall id :: id in claimed ==> id in runs && runs[id].row.status == Running
      modifies runs.Values
      ensures Valid()
      ensures forall id :: id in runs ==>
        if id in claimed then runs[id].AttemptedOnce(old(runs[id].row), old(runs[id].calls), gone(id), now)
        else unchanged(runs[id])
    {
      hide RunOk;
      hide Run.Ok;
      hide Run.AttemptedOnce;
      for k := 0 to |claimed|
        invariant Valid()
        invariant forall id :: id in runs ==>
          if id in claimed[..k] then runs[id].AttemptedOnce(old(runs[id].row), old(runs[id].calls), gone(id), now)
          else unchanged(runs[id])
      {
        assert claimed[k] !in claimed[..k];
        assert claimed[..k + 1] == claimed[..k] + [claimed[k]];
        runs[claimed[k]].Process(now, gone(claimed[k]));
      }
      assert claimed[..|claimed|] == claimed;
    }

    /** The cron worker: every run it claims is attempted once more, or dead-lettered
        when its workflow is gone. All others stay as they are; among them every run
        that succeeded, was skipped, is a dead letter, or is claimed by another worker. */
    method ProcessDue(batch: nat, gone: RunId -> bool, now: int) returns (claimed: seq<RunId>)
      requires Valid()
      modifies runs.Values
      ensures Valid() && |claimed| <= batch
      ensures forall id :: id in claimed ==> id in runs && old(runs[id].IsDue(now))
      ensures forall id :: id in runs ==>
        if id in claimed then runs[id].AttemptedOnce(old(runs[id].row), old(runs[id].calls), gone(id), now)
        else unchanged(runs[id])
    {
      hide RunOk;
      hide Run.Ok;
      hide Run.IsDue;
      claimed := ClaimDue(now, batch);
      assert forall id :: id in claimed ==> Claimed(id, now);
      ProcessClaimed(claimed, gone, now);
    }

    /** Claims that overlap share no run: the first mark keeps the second away. */
    method OverlappingClaims(now: int, later: int, batch: nat) returns (first: seq<RunId>, second: seq<RunId>)
      requires Valid()
      modifies runs.Values
      ensures Valid() && forall id :: id in first ==> id !in second
    {
      first := ClaimDue(now, batch);
      second := ClaimDue(later, batch);
    }
  }

  lemma StartOfStep(calls: seq<Call>, attempt: nat, index: nat)
    requires NotYet(calls, attempt, index)
    ensures Retries(calls, attempt, index, 1) && AllFailed(calls, |calls|, attempt, index)
  {
  }

  /** Neither an earlier attempt nor this one has succeeded at the current step. */
  lemma NotDone(calls: seq<Call>, attempt: nat, step: nat)
    requires UpTo(calls, attempt, step)
    ensures !StepDone(calls, step)
  {
  }

  lemma NoTimeoutAtTheEnd(calls: seq<Call>, attempt: nat, step: nat)
    ensures NoTimeout(calls) ==> !LastTimedOut(calls, attempt, step)
  {
  }

  lemma PendingIsFresh(steps: seq<Step>, row: Row, calls: seq<Call>)
    requires RunOk(steps, row, calls) && row.status == Pending
    ensures NoTimeout(calls)
  {
  }

  lemma DoneStays(before: seq<Call>, after: seq<Call>, step: nat)
    requires before <= after && DoneBefore(before, step)
    ensures DoneBefore(after, step)
  {
    forall s | 0 <= s < step ensures StepDone(after, s) {
      assert StepDone(before, s);
      var i :| 0 <= i < |before| && before[i].step == s && before[i].outcome.Succeeded?;
      assert after[i] == before[i];
    }
  }

  lemma DoneOneMore(calls: seq<Call>, step: nat)
    requires DoneBefore(calls, step) && StepDone(calls, step)
    ensures DoneBefore(calls, step + 1)
  {
  }

  // ---- what the invariant promises -----------------------------------------------------

  /** A step whose success was recorded is never called again, and after a call that
      timed out nothing is; earlier steps are never gone back to. */
  lemma {:induction false} NeverAgain(steps: seq<Step>, row: Row, calls: seq<Call>, i: nat, j: nat)
    requires RunOk(steps, row, calls) && i < j < |calls|
    ensures calls[i].outcome.Succeeded? ==> calls[j].step != calls[i].step
    ensures !calls[i].outcome.TimedOut?
    ensures calls[i].step <= calls[j].step
  {
    assert Follows(calls[i], calls[j]);
  }

  ghost predicate CalledAgain(calls: seq<Call>, i: nat)
    requires i < |calls|
  {
    exists j :: i < j < |calls| && calls[j].step == calls[i].step
  }

  /** Work that was done is done again in exactly this case: the write that records it
      failed, and the step has a retry left, or a later attempt of the run was made. */
  lemma {:induction false} CalledAgainIff(steps: seq<Step>, row: Row, calls: seq<Call>, i: nat)
    requires RunOk(steps, row, calls) && i < |calls| && DidItsWork(calls[i].outcome)
    ensures CalledAgain(calls, i) <==>
      && calls[i].outcome.Unlogged?
      && (calls[i].stepAttempt < steps[calls[i].step].maxAttempts || calls[i].attempt < row.attempt)
  {
    var c := calls[i];
    assert LegalCall(steps, c);
    if c.outcome.Unlogged? && i + 1 < |calls| { assert calls[i + 1].step == c.step; }
    if CalledAgain(calls, i) {
      var j :| i < j < |calls| && calls[j].step == c.step;
      assert Follows(c, calls[j]) && LegalCall(steps, calls[j]) && calls[j].attempt <= row.attempt;
    }
  }

  /** And it happens: a step that may be retried once, whose first success goes
      unrecorded. The executor works twice. */
  method WorkedTwice(id: RunId) returns (run: Run)
    ensures |run.calls| >= 2 && run.calls[0].step == run.calls[1].step == 0
    ensures run.calls[0].outcome.Unlogged? && run.calls[1].outcome.Succeeded? && run.row.status == RunSucceeded
  {
    run := new Run(id, [Step(true, 2)], (n: nat) => if n == 0 then Unlogged else Succeeded, true, 3);
    run.Execute(0);
    var calls := run.calls;
    assert calls != [] ==> calls[|calls| - 1].outcome == run.executor(|calls| - 1);
    assert run.row.status == RunSucceeded;
    assert StepDone(calls, 0);
    var i :| 0 <= i < |calls| && calls[i].outcome.Succeeded?;
    assert run.executor(i).Succeeded? && LegalCall(run.steps, calls[0]) && LegalCall(run.steps, calls[1]);
  }

  /** The calls of one step in one attempt. */
  function CallsOf(calls: seq<Call>, attempt: nat, step: nat): nat {
    if calls == [] then 0
    else
      var last := calls[|calls| - 1];
      CallsOf(calls[..|calls| - 1], attempt, step) + if last.attempt == attempt && last.step == step then 1 else 0
  }

  /** A step is called at most its own `maxAttempts` times in one attempt of the run. */
  lemma {:induction false} StepRetriesAreBounded(steps: seq<Step>, calls: seq<Call>, attempt: nat, step: nat, max: nat)
    requires LogOk(steps, calls) && step < |steps|
    requires forall i :: 0 <= i < |calls| && calls[i].attempt == attempt && calls[i].step == step ==>
      calls[i].stepAttempt <= max
    ensures CallsOf(calls, attempt, step) <= max
  {
    if calls != [] {
      var init, last := calls[..|calls| - 1], calls[|calls| - 1];
      assert LogOk(steps, init);
      if last.attempt == attempt && last.step == step {
        forall i | 0 <= i < |init| && init[i].attempt == attempt && init[i].step == step
          ensures init[i].stepAttempt <= last.stepAttempt - 1
        {
          assert Follows(calls[i], calls[|calls| - 1]);
        }
        StepRetriesAreBounded(steps, init, attempt, step, last.stepAttempt - 1);
      } else {
        StepRetriesAreBounded(steps, init, attempt, step, max);
      }
    }
  }

  /** Over its whole life a run makes at most `maxAttempts` attempts (one, where
      that is zero), and in each at most `maxAttempts` calls of any step; it
      succeeds only when every step has. */
  lemma {:induction false} RunIsBounded(steps: seq<Step>, row: Row, calls: seq<Call>, attempt: nat, step: nat)
    requires RunOk(steps, row, calls) && step < |steps|
    ensures CallsOf(calls, attempt, step) <= steps[step].maxAttempts
    ensures attempt > Limit(row) ==> CallsOf(calls, attempt, step) == 0
    ensures row.status == RunSucceeded ==> StepDone(calls, step)
  {
    forall i | 0 <= i < |calls| && calls[i].attempt == attempt && calls[i].step == step
      ensures calls[i].stepAttempt <= steps[step].maxAttempts
    {
      assert LegalCall(steps, calls[i]);
    }
    StepRetriesAreBounded(steps, calls, attempt, step, steps[step].maxAttempts);
    if attempt > Limit(row) { NoCallsOf(calls, attempt, step); }
  }

  lemma {:induction false} NoCallsOf(calls: seq<Call>, attempt: nat, step: nat)
    requires forall i :: 0 <= i < |calls| ==> calls[i].attempt < attempt
    ensures CallsOf(calls, attempt, step) == 0
  {
    if calls != [] { NoCallsOf(calls[..|calls| - 1], attempt, step); }
  }
}
