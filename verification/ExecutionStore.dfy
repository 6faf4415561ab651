/** The worker tasks and poller loops of the execution protocol, over mutable tables.
    Every method is proved to be a run of the protocol. */
module ExecutionStore {
  import opened Common
  import opened ExecutionProtocol

  function Retries(batch: seq<nat>): seq<Action> {
    seq(|batch|, i requires 0 <= i < |batch| => PollRetry(batch[i]))
  }

  function Recoveries(batch: seq<nat>): seq<Action> {
    seq(|batch|, i requires 0 <= i < |batch| => RecoverStale(batch[i]))
  }

  function Dispatches(batch: seq<nat>, enqueued: seq<bool>): seq<Action>
    requires |enqueued| == |batch|
  {
    seq(|batch|, i requires 0 <= i < |batch| => Dispatch(batch[i], if enqueued[i] then Sent else EnqueueFailed))
  }

  function CountTrue(s: seq<bool>): nat {
    if s == [] then 0 else CountTrue(s[..|s| - 1]) + if s[|s| - 1] then 1 else 0
  }

  predicate Distinct(s: seq<nat>) {
    forall i, j | 0 <= i < j < |s| :: s[i] != s[j]
  }

  lemma PlayNext(s: State, acts: seq<Action>, i: nat)
    requires i < |acts|
    ensures Play(s, acts[..i + 1]) == Apply(Play(s, acts[..i]), acts[i])
  {
    assert acts[..i + 1][..i] == acts[..i];
  }

  function Retried(x: Execution, now: Time): Execution {
    x.(status := RetryReady, updatedAt := now)
  }

  /** Exactly the executions of `batch` moved to `retry_ready`. */
  predicate AllRetried(before: seq<Execution>, after: seq<Execution>, batch: seq<nat>, now: Time) {
    && |after| == |before|
    && forall e | 0 <= e < |before| :: after[e] == if e in batch then Retried(before[e], now) else before[e]
  }

  /** The row is marked dispatched and its job is queued. */
  predicate IsSent(queue: set<Job>, outbox: map<nat, Row>, r: nat)
    requires r in outbox
  {
    outbox[r].dispatched && Job(outbox[r].exec, outbox[r].task) in queue
  }

  /** The minutes to wait after failed attempt `n`: its entry of the list, or the last one. */
  function WaitMinutes(backoff: seq<int>, n: nat): int
    requires n >= 1
  {
    if backoff == [] then 1 else if n <= |backoff| then backoff[n - 1] else backoff[|backoff| - 1]
  }

  /** What is promised of an execution whose attempt `n` came back, column by column. */
  function OutcomeRow(x: Execution, n: nat, ok: bool, cue: Cue, now: Time): Execution
    requires n >= 1
  {
    if ok then Execution(x.cue, Success, n, None, now)
    else if n < cue.maxAttempts then
      Execution(x.cue, Retrying, n, Some(now + 60.0 * WaitMinutes(cue.backoffMinutes, n) as real), now)
    else Execution(x.cue, Failed, n, None, now)
  }

  class Tables {
    var clock: Time
    var cues: seq<Cue>
    var execs: seq<Execution>
    var outbox: map<nat, Row>
    var nextRow: nat
    var queue: set<Job>
    var runs: map<nat, Run>
    var nextRun: nat
    ghost var tally: seq<Tally>

    ghost function View(): State
      reads this
    {
      State(clock, cues, execs, outbox, nextRow, queue, runs, nextRun, tally)
    }

    constructor (cues: seq<Cue>)
      requires ValidCues(cues) && forall c | 0 <= c < |cues| :: cues[c].runCount == 0
      ensures Initial(View()) && this.cues == cues
    {
      this.clock := 0.0;
      this.cues := cues;
      this.execs := [];
      this.outbox := map[];
      this.nextRow := 0;
      this.queue := {};
      this.runs := map[];
      this.nextRun := 0;
      this.tally := [];
    }

    /** `_claim_execution`, as a job's run reaches it. */
    method ClaimExecution(job: Job, redelivered: bool) returns (claimed: bool)
      requires job in queue && job.exec < |execs|
      modifies this
      ensures View() == Apply(old(View()), Claim(job, redelivered))
      ensures claimed <==> old(execs)[job.exec].status == ExpectedStatus(job.task)
      ensures claimed ==> runs == old(runs)[old(nextRun) := Run(job.exec, clock, None)]
      ensures execs == if claimed then old(execs)[job.exec := old(execs)[job.exec].(status := Delivering, updatedAt := clock)]
                       else old(execs)
    {
      queue := Consume(queue, job, redelivered);
      claimed := execs[job.exec].status == ExpectedStatus(job.task);
      if claimed {
        execs := execs[job.exec := execs[job.exec].(status := Delivering, updatedAt := clock)];
        runs := runs[nextRun := Run(job.exec, clock, None)];
        nextRun := nextRun + 1;
      }
    }

    /** The tail of a delivery task: `run_count`, then `_handle_success` or `_handle_failure`. */
    method RecordOutcome(run: nat, ok: bool)
      requires CanFinish(View(), run)
      modifies this
      ensures View() == Apply(old(View()), Finish(run, ok))
      ensures var r := old(runs)[run]; var x := old(execs)[r.exec];
        && cues == old(cues)[x.cue := old(cues)[x.cue].(runCount := old(cues)[x.cue].runCount + 1)]
        && (r.attempt.value >= 1 ==>
              execs == old(execs)[r.exec := OutcomeRow(x, r.attempt.value, ok, old(cues)[x.cue], clock)])
    {
      var e, attempt := runs[run].exec, runs[run].attempt.value;
      var x := execs[e];
      var c := cues[x.cue];
      cues := cues[x.cue := c.(runCount := c.runCount + 1)];
      if ok {
        execs := execs[e := x.(status := Success, attempts := attempt, nextRetry := None, updatedAt := clock)];
      } else if attempt < c.maxAttempts {
        var wait := BackoffMinutes(c.backoffMinutes, attempt - 1);
        execs := execs[e := x.(status := Retrying, attempts := attempt, updatedAt := clock,
                               nextRetry := Some(clock + wait as real * MINUTE))];
      } else {
        execs := execs[e := x.(status := Failed, attempts := attempt, nextRetry := None, updatedAt := clock)];
      }
      tally := tally[e := tally[e].(recorded := tally[e].recorded + 1,
                                    notes := tally[e].notes + if ok then [] else [FailedAt(attempt, clock)])];
      runs := runs - {run};
    }

    /** The body of the `poll_retries` loop, for one row. */
    method PollRetryRow(ghost s: State, e: nat)
      requires s == View() && e < |execs| && RetryDue(execs[e], clock)
      modifies `outbox, `nextRow, `execs
      ensures View() == Apply(s, PollRetry(e))
      ensures execs == s.execs[e := Retried(s.execs[e], clock)] && nextRow == s.nextRow + 1
    {
      outbox := outbox[nextRow := NewRow(e, Retry, None, clock)];
      nextRow := nextRow + 1;
      execs := execs[e := execs[e].(status := RetryReady, updatedAt := clock)];
    }

    /** `poll_retries`: `batch` is the answer of its SELECT ... LIMIT ... SKIP LOCKED. */
    method PollRetries(batch: seq<nat>) returns (count: nat)
      requires Distinct(batch) && forall i | 0 <= i < |batch| :: batch[i] < |execs| && RetryDue(execs[batch[i]], clock)
      modifies `outbox, `nextRow, `execs
      ensures View() == Play(old(View()), Retries(batch))
      ensures count == |batch| && nextRow == old(nextRow) + count
      ensures AllRetried(old(execs), execs, batch, clock)
    {
      ghost var start, acts := View(), Retries(batch);
      ghost var s := start;
      count := 0;
      assert acts[..0] == [];
      while count < |batch|
        invariant count <= |batch| && s == View() && nextRow == start.nextRow + count
        invariant AllRetried(start.execs, execs, batch[..count], clock)
        invariant s == Play(start, acts[..count])
      {
        var e := batch[count];
        PlayNext(start, acts, count);
        assert e !in batch[..count] && batch[..count + 1] == batch[..count] + [e];
        PollRetryRow(s, e);
        s := View();
        count := count + 1;
      }
      assert acts[..count] == acts && batch[..count] == batch;
    }

    /** The body of the `dispatch_outbox` loop, for one row. */
    method DispatchRow(ghost s: State, r: nat, enqueued: bool)
      requires s == View() && r in outbox && RowDue(outbox[r], clock)
      modifies `queue, `outbox
      ensures View() == Apply(s, Dispatch(r, if enqueued then Sent else EnqueueFailed))
      ensures s.queue <= queue && outbox.Keys == s.outbox.Keys
      ensures outbox == s.outbox[r := if enqueued then s.outbox[r].(dispatched := true)
                                      else s.outbox[r].(dispatchAttempts := s.outbox[r].dispatchAttempts + 1)]
      ensures IsSent(queue, outbox, r) == enqueued == outbox[r].dispatched
    {
      var row := outbox[r];
      if enqueued {
        queue := queue + {Job(row.exec, row.task)};
        outbox := outbox[r := row.(dispatched := true)];
      } else {
        outbox := outbox[r := row.(dispatchAttempts := row.dispatchAttempts + 1)];
      }
    }

    /** `dispatch_outbox`: `batch` is the answer of its SELECT, `enqueued[i]` whether the
        enqueue of row `batch[i]` returned rather than raised. */
    method DispatchOutbox(batch: seq<nat>, enqueued: seq<bool>) returns (count: nat)
      requires Distinct(batch) && |enqueued| == |batch|
      requires forall i | 0 <= i < |batch| :: batch[i] in outbox && RowDue(outbox[batch[i]], clock)
      modifies `queue, `outbox
      ensures View() == Play(old(View()), Dispatches(batch, enqueued))
      ensures count == CountTrue(enqueued) && outbox.Keys == old(outbox).Keys
      ensures forall i | 0 <= i < |batch| :: IsSent(queue, outbox, batch[i]) == enqueued[i] == outbox[batch[i]].dispatched
    {
      ghost var start, acts := View(), Dispatches(batch, enqueued);
      ghost var s := start;
      count := 0;
      assert acts[..0] == [];
      for i := 0 to |batch|
        invariant s == View() == Play(start, acts[..i])
        invariant count == CountTrue(enqueued[..i]) && outbox.Keys == start.outbox.Keys
        invariant forall k | i <= k < |batch| :: outbox[batch[k]] == start.outbox[batch[k]]
        invariant forall k | 0 <= k < i :: IsSent(queue, outbox, batch[k]) == enqueued[k] == outbox[batch[k]].dispatched
      {
        PlayNext(start, acts, i);
        assert enqueued[..i + 1][..i] == enqueued[..i];
        DispatchRow(s, batch[i], enqueued[i]);
        s := View();
        if enqueued[i] {
          count := count + 1;
        }
      }
      assert acts[..|batch|] == acts && enqueued[..|batch|] == enqueued;
    }

    /** The body of the `recover_stale_executions` loop, for one row. */
    method RecoverStaleExecution(ghost s: State, e: nat)
      requires s == View() && Shape(s) && e < |execs| && IsStale(execs[e], clock)
      modifies `execs
      ensures View() == Apply(s, RecoverStale(e))
      ensures var x := s.execs[e]; var cue := s.cues[x.cue];
        execs == s.execs[e := if x.attempts < cue.maxAttempts then RecoveredAs(x, cue, clock)
                              else Execution(x.cue, Failed, x.attempts, None, clock)]
    {
      var c := cues[execs[e].cue];
      if execs[e].attempts < c.maxAttempts {
        var wait := c.backoffMinutes[Min(execs[e].attempts, |c.backoffMinutes| - 1)];
        execs := execs[e := execs[e].(status := Retrying, updatedAt := clock,
                                      nextRetry := Some(clock + wait as real * MINUTE))];
      } else {
        execs := execs[e := execs[e].(status := Failed, nextRetry := None, updatedAt := clock)];
      }
    }

    /** `recover_stale_executions`: the loop over the stale rows its SELECT returned. */
    method RecoverStaleExecutions(batch: seq<nat>) returns (count: nat)
      requires Inv(View()) && Distinct(batch)
      requires forall i | 0 <= i < |batch| :: batch[i] < |execs| && IsStale(execs[batch[i]], clock)
      modifies `execs
      ensures Inv(View()) && View() == Play(old(View()), Recoveries(batch))
      ensures count == |batch| && AllRecovered(old(execs), execs, batch, cues, clock)
    {
      ghost var start := View();
      ghost var s := start;
      count := 0;
      assert Recoveries(batch)[..0] == [];
      while count < |batch|
        invariant s == View() && Recovering(start, s, batch, count)
      {
        NextRecovery(start, s, batch, count);
        RecoverStaleExecution(s, batch[count]);
        s := View();
        count := count + 1;
      }
      assert Recoveries(batch)[..count] == Recoveries(batch) && batch[..count] == batch;
    }
  }

  /** Exactly the executions of `batch` changed: back to retrying, and not charged. */
  predicate AllRecovered(before: seq<Execution>, after: seq<Execution>, batch: seq<nat>, cues: seq<Cue>, now: Time) {
    && |after| == |before|
    && forall e | 0 <= e < |before| ::
         after[e] == if e in batch && before[e].cue < |cues| then RecoveredAs(before[e], cues[before[e].cue], now) else before[e]
  }

  /** Back to retrying, uncharged, after the wait of the attempt that was lost. */
  function RecoveredAs(x: Execution, cue: Cue, now: Time): Execution {
    Execution(x.cue, Retrying, x.attempts, Some(now + 60.0 * WaitMinutes(cue.backoffMinutes, x.attempts + 1) as real), now)
  }

  predicate Recovering(start: State, s: State, batch: seq<nat>, count: nat) {
    && count <= |batch| && Inv(s) && s.clock == start.clock
    && s == Play(start, Recoveries(batch)[..count])
    && s.cues == start.cues && AllRecovered(start.execs, s.execs, batch[..count], s.cues, s.clock)
  }

  lemma OneMoreRecovered(
    before: seq<Execution>, now: seq<Execution>, batch: seq<nat>, e: nat, cues: seq<Cue>, at: Time)
    requires AllRecovered(before, now, batch, cues, at) && e < |before| && e !in batch && before[e].cue < |cues|
    ensures AllRecovered(before, now[e := RecoveredAs(before[e], cues[before[e].cue], at)], batch + [e], cues, at)
  {
  }

  /** Within the invariant a delivering execution has attempts left, so recovery retries it. */
  lemma RecoveryRetries(s: State, e: nat)
    requires Inv(s) && e < |s.execs| && IsStale(s.execs[e], s.clock)
    ensures var t := Apply(s, RecoverStale(e));
      && t.clock == s.clock && t.cues == s.cues
      && t.execs == s.execs[e := RecoveredAs(s.execs[e], s.cues[s.execs[e].cue], s.clock)]
  {
    assert Charged(s, e);
  }

  lemma NextRecovery(start: State, s: State, batch: seq<nat>, count: nat)
    requires Recovering(start, s, batch, count) && count < |batch| && Distinct(batch)
    requires batch[count] < |start.execs| && IsStale(start.execs[batch[count]], start.clock)
    ensures IsStale(s.execs[batch[count]], s.clock)
    ensures Recovering(start, Apply(s, RecoverStale(batch[count])), batch, count + 1)
  {
    var e := batch[count];
    assert e !in batch[..count] && batch[..count + 1] == batch[..count] + [e];
    PlayNext(start, Recoveries(batch), count);
    RecoverKeeps(s, e);
    RecoveryRetries(s, e);
    OneMoreRecovered(start.execs, s.execs, batch[..count], e, s.cues, s.clock);
  }
}
