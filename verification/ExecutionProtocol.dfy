/** The cue execution protocol for the webhook transport, as a state machine.

    One action is one committed transaction, one step of a worker, or one decision of
    the environment. `Apply` is total: an action whose guard fails changes nothing, as
    a conditional UPDATE that matches no row does. A run is any sequence of actions. */
module ExecutionProtocol {
  import opened Common

  /** A job is killed 40 s after it starts, so no attempt outlives its claim by more. */
  const ATTEMPT_LIFETIME: Time := 40.0
  const STALE_AFTER: Time := 300.0
  const OUTBOX_RETENTION: Time := 7.0 * DAY

  datatype Status = Pending | Delivering | Success | Failed | Retrying | RetryReady

  datatype Task = Deliver | Retry

  /** A cue's retry configuration and attempt counter. */
  datatype Cue = Cue(maxAttempts: int, backoffMinutes: seq<int>, runCount: nat)

  datatype Execution = Execution(
    cue: nat, status: Status, attempts: nat, nextRetry: Option<Time>, updatedAt: Time)

  datatype Row = Row(
    exec: nat, task: Task, scheduledAt: Option<Time>,
    dispatched: bool, dispatchAttempts: nat, createdAt: Time)

  datatype Job = Job(exec: nat, task: Task)

  /** A worker's run of a job after a successful claim; `attempt` is read after the claim commits. */
  datatype Run = Run(exec: nat, claimedAt: Time, attempt: Option<nat>)

  /** A POST issued, or the failure of an attempt recorded. */
  datatype Note = PostedAt(at: Time) | FailedAt(attempt: nat, at: Time)

  /** What happened to one execution: POSTs issued, POSTs whose outcome was written, when
      it was to be sent, and its POSTs and failures in order. */
  datatype Tally = Tally(posted: nat, recorded: nat, sendAt: Option<Time>, notes: seq<Note>)

  datatype State = State(
    clock: Time,
    cues: seq<Cue>,
    execs: seq<Execution>,
    outbox: map<nat, Row>,
    nextRow: nat,
    queue: set<Job>,
    runs: map<nat, Run>,
    nextRun: nat,
    tally: seq<Tally>)

  /** Sent: enqueued and committed. EnqueueFailed: the enqueue raised.
      RolledBack: enqueued, but the transaction was lost afterwards. */
  datatype DispatchResult = Sent | EnqueueFailed | RolledBack

  datatype Action =
    | Tick(now: Time)
    | Fire(cue: nat, sendAt: Option<Time>)
    | Dispatch(row: nat, result: DispatchResult)
    | Claim(job: Job, redelivered: bool)
    | QuotaBlock(job: Job, redelivered: bool)
    | Post(run: nat)
    | Finish(run: nat, ok: bool)
    | Crash(run: nat)
    | PollRetry(exec: nat)
    | RecoverStale(exec: nat)
    | Touch(exec: nat)
    | Reap(row: nat)

  // ----- what each transaction writes to one row -----

  function ExpectedStatus(task: Task): Status {
    match task
    case Deliver => Pending
    case Retry => RetryReady
  }

  function ClaimedRow(x: Execution, now: Time): Execution {
    x.(status := Delivering, updatedAt := now)
  }

  function SucceededRow(x: Execution, attempt: nat, now: Time): Execution {
    x.(status := Success, attempts := attempt, nextRetry := None, updatedAt := now)
  }

  function BackoffMinutes(backoff: seq<int>, index: int): int {
    if backoff == [] then 1 else backoff[Max(0, Min(index, |backoff| - 1))]
  }

  /** `_handle_failure`: retry while the budget lasts, else fail for good. */
  function FailedRow(x: Execution, attempt: nat, cue: Cue, now: Time): Execution {
    if attempt < cue.maxAttempts then
      x.(status := Retrying, attempts := attempt, updatedAt := now,
         nextRetry := Some(now + BackoffMinutes(cue.backoffMinutes, attempt - 1) as real * MINUTE))
    else
      x.(status := Failed, attempts := attempt, nextRetry := None, updatedAt := now)
  }

  predicate IsStale(x: Execution, now: Time) {
    x.status == Delivering && x.updatedAt < now - STALE_AFTER
  }

  function RecoveredRow(x: Execution, cue: Cue, now: Time): Execution {
    if x.attempts < cue.maxAttempts then
      x.(status := Retrying, updatedAt := now,
         nextRetry := Some(now + BackoffMinutes(cue.backoffMinutes, x.attempts) as real * MINUTE))
    else
      x.(status := Failed, nextRetry := None, updatedAt := now)
  }

  predicate RetryDue(x: Execution, now: Time) {
    x.status == Retrying && x.nextRetry.Some? && x.nextRetry.value <= now
  }

  predicate RowDue(r: Row, now: Time) {
    !r.dispatched && (r.scheduledAt.None? || r.scheduledAt.value <= now)
  }

  predicate Reapable(r: Row, now: Time) {
    r.dispatched && r.createdAt < now - OUTBOX_RETENTION
  }

  function NewRow(exec: nat, task: Task, scheduledAt: Option<Time>, now: Time): Row {
    Row(exec, task, scheduledAt, false, 0, now)
  }

  // ----- the steps -----

  predicate Live(s: State, r: nat)
    requires r in s.runs
  {
    s.clock <= s.runs[r].claimedAt + ATTEMPT_LIFETIME
  }

  function Consume(queue: set<Job>, job: Job, redelivered: bool): set<Job> {
    if redelivered then queue else queue - {job}
  }

  function AddRow(s: State, row: Row): State {
    s.(outbox := s.outbox[s.nextRow := row], nextRow := s.nextRow + 1)
  }

  /** Poller or manual fire: the execution and its outbox row in one transaction. */
  function ApplyFire(s: State, cue: nat, sendAt: Option<Time>): State {
    if cue < |s.cues| then
      var x := Execution(cue, Pending, 0, None, s.clock);
      AddRow(s.(execs := s.execs + [x], tally := s.tally + [Tally(0, 0, sendAt, [])]),
             NewRow(|s.execs|, Deliver, sendAt, s.clock))
    else s
  }

  function ApplyDispatch(s: State, row: nat, result: DispatchResult): State {
    if row in s.outbox && RowDue(s.outbox[row], s.clock) then
      var r := s.outbox[row];
      match result
      case Sent => s.(queue := s.queue + {Job(r.exec, r.task)}, outbox := s.outbox[row := r.(dispatched := true)])
      case EnqueueFailed => s.(outbox := s.outbox[row := r.(dispatchAttempts := r.dispatchAttempts + 1)])
      case RolledBack => s.(queue := s.queue + {Job(r.exec, r.task)})
    else s
  }

  /** A worker runs a job up to the claim: the conditional UPDATE, then either an
      attempt in flight or nothing. */
  function ApplyClaim(s: State, job: Job, redelivered: bool): State {
    if job in s.queue && job.exec < |s.execs| then
      var s1 := s.(queue := Consume(s.queue, job, redelivered));
      var x := s.execs[job.exec];
      if x.status == ExpectedStatus(job.task) then
        s1.(execs := s.execs[job.exec := ClaimedRow(x, s.clock)],
            runs := s.runs[s.nextRun := Run(job.exec, s.clock, None)],
            nextRun := s.nextRun + 1)
      else s1
    else s
  }

  /** The quota branch of a deliver job: an UPDATE by id alone, whatever the status. */
  function ApplyQuotaBlock(s: State, job: Job, redelivered: bool): State {
    if job in s.queue && job.task == Deliver && job.exec < |s.execs| then
      s.(queue := Consume(s.queue, job, redelivered),
         execs := s.execs[job.exec := s.execs[job.exec].(status := Failed, updatedAt := s.clock)])
    else s
  }

  /** Re-read `attempts` from the row and issue the POST. */
  function ApplyPost(s: State, r: nat): State {
    if r in s.runs && Live(s, r) && s.runs[r].attempt.None? && s.runs[r].exec < |s.execs| && |s.tally| == |s.execs| then
      var e := s.runs[r].exec;
      s.(runs := s.runs[r := s.runs[r].(attempt := Some(s.execs[e].attempts + 1))],
         tally := s.tally[e := s.tally[e].(posted := s.tally[e].posted + 1, notes := s.tally[e].notes + [PostedAt(s.clock)])])
    else s
  }

  predicate CanFinish(s: State, r: nat) {
    && r in s.runs && Live(s, r) && s.runs[r].attempt.Some?
    && s.runs[r].exec < |s.execs| && |s.tally| == |s.execs|
    && s.execs[s.runs[r].exec].cue < |s.cues|
  }

  /** Record an outcome: `run_count` and the execution row in one transaction, by id alone. */
  function ApplyFinish(s: State, r: nat, ok: bool): State {
    if CanFinish(s, r) then
      var e, n := s.runs[r].exec, s.runs[r].attempt.value;
      var c := s.execs[e].cue;
      var x := if ok then SucceededRow(s.execs[e], n, s.clock) else FailedRow(s.execs[e], n, s.cues[c], s.clock);
      s.(execs := s.execs[e := x],
         cues := s.cues[c := s.cues[c].(runCount := s.cues[c].runCount + 1)],
         tally := s.tally[e := s.tally[e].(recorded := s.tally[e].recorded + 1,
                                           notes := s.tally[e].notes + if ok then [] else [FailedAt(n, s.clock)])],
         runs := s.runs - {r})
    else s
  }

  function ApplyPollRetry(s: State, e: nat): State {
    if e < |s.execs| && RetryDue(s.execs[e], s.clock) then
      AddRow(s.(execs := s.execs[e := s.execs[e].(status := RetryReady, updatedAt := s.clock)]),
             NewRow(e, Retry, None, s.clock))
    else s
  }

  /** `recover_stale_executions`; with an empty backoff list the source raises and rolls back. */
  function ApplyRecover(s: State, e: nat): State {
    if e < |s.execs| && IsStale(s.execs[e], s.clock) && s.execs[e].cue < |s.cues|
       && s.cues[s.execs[e].cue].backoffMinutes != [] then
      s.(execs := s.execs[e := RecoveredRow(s.execs[e], s.cues[s.execs[e].cue], s.clock)])
    else s
  }

  function Apply(s: State, a: Action): State {
    match a
    case Tick(now) => if s.clock <= now then s.(clock := now) else s
    case Fire(cue, sendAt) => ApplyFire(s, cue, sendAt)
    case Dispatch(row, result) => ApplyDispatch(s, row, result)
    case Claim(job, redelivered) => ApplyClaim(s, job, redelivered)
    case QuotaBlock(job, redelivered) => ApplyQuotaBlock(s, job, redelivered)
    case Post(r) => ApplyPost(s, r)
    case Finish(r, ok) => ApplyFinish(s, r, ok)
    case Crash(r) => s.(runs := s.runs - {r})
    case PollRetry(e) => ApplyPollRetry(s, e)
    case RecoverStale(e) => ApplyRecover(s, e)
    case Touch(e) => if e < |s.execs| then s.(execs := s.execs[e := s.execs[e].(updatedAt := s.clock)]) else s
    case Reap(row) =>
      if row in s.outbox && Reapable(s.outbox[row], s.clock) then s.(outbox := s.outbox - {row}) else s
  }

  function Play(s: State, acts: seq<Action>): State {
    Fold(Apply, s, acts)
  }

  predicate ValidCues(cues: seq<Cue>) {
    forall c | 0 <= c < |cues| :: cues[c].maxAttempts >= 1 && cues[c].backoffMinutes != []
  }

  /** A fresh database: some cues, nothing fired yet. */
  predicate Initial(s: State) {
    && ValidCues(s.cues) && (forall c | 0 <= c < |s.cues| :: s.cues[c].runCount == 0)
    && s.execs == [] && s.tally == [] && s.outbox == map[] && s.queue == {} && s.runs == map[]
  }

  /** The quota branch strikes only while its execution is still pending: what a first run sees. */
  predicate Confined(s: State, a: Action) {
    a.QuotaBlock? && a.job.exec < |s.execs| ==> s.execs[a.job.exec].status == Pending
  }

  predicate ConfinedRun(s: State, acts: seq<Action>) {
    forall i | 0 <= i < |acts| :: Confined(Play(s, acts[..i]), acts[i])
  }

  // ----- the invariant -----

  /** An undispatched row or a queued job that will run `task` for execution `e`. */
  predicate RowFor(outbox: map<nat, Row>, e: nat, task: Task) {
    exists r | r in outbox :: outbox[r].exec == e && outbox[r].task == task && !outbox[r].dispatched
  }

  predicate Ticket(queue: set<Job>, outbox: map<nat, Row>, e: nat, task: Task) {
    Job(e, task) in queue || RowFor(outbox, e, task)
  }

  predicate Shape(s: State) {
    && |s.tally| == |s.execs|
    && ValidCues(s.cues)
    && (forall e | 0 <= e < |s.execs| :: s.execs[e].cue < |s.cues| && s.execs[e].updatedAt <= s.clock)
    && (forall r | r in s.outbox :: r < s.nextRow && s.outbox[r].exec < |s.execs|)
    && (forall j | j in s.queue :: j.exec < |s.execs|)
    && (forall r | r in s.runs :: r < s.nextRun && s.runs[r].exec < |s.execs| && s.runs[r].claimedAt <= s.clock)
  }

  /** A live attempt owns its execution: the row says delivering, or a quota write struck
      it meanwhile; budget is left; and the attempt number it read is still the next one. */
  predicate Owned(s: State, r: nat)
    requires Shape(s) && r in s.runs
  {
    Live(s, r) ==>
      var x := s.execs[s.runs[r].exec];
      && (x.status == Delivering || x.status == Failed)
      && x.attempts < s.cues[x.cue].maxAttempts
      && s.runs[r].claimedAt <= x.updatedAt
      && (s.runs[r].attempt.Some? ==> s.runs[r].attempt.value == x.attempts + 1)
  }

  predicate Exclusive(s: State)
    requires Shape(s)
  {
    && (forall r | r in s.runs :: Owned(s, r))
    && (forall r, q | r in s.runs && q in s.runs && r != q && Live(s, r) && Live(s, q) ::
          s.runs[r].exec != s.runs[q].exec)
  }

  /** No execution is lost: whatever its status, something will move it on. */
  predicate Carried(s: State, e: nat)
    requires e < |s.execs|
  {
    match s.execs[e].status
    case Pending => Ticket(s.queue, s.outbox, e, Deliver)
    case RetryReady => Ticket(s.queue, s.outbox, e, Retry)
    case Retrying => s.execs[e].nextRetry.Some?
    case _ => true
  }

  predicate Open(st: Status) {
    st != Success && st != Failed
  }

  /** Attempt accounting for one execution. */
  predicate Charged(s: State, e: nat)
    requires Shape(s) && e < |s.execs|
  {
    var x := s.execs[e];
    && x.attempts == s.tally[e].recorded <= s.tally[e].posted
    && x.attempts <= s.cues[x.cue].maxAttempts
    && (Open(x.status) ==> x.attempts < s.cues[x.cue].maxAttempts)
  }

  function AttemptsOf(execs: seq<Execution>, cue: nat): nat {
    if execs == [] then 0
    else
      var last := execs[|execs| - 1];
      AttemptsOf(execs[..|execs| - 1], cue) + if last.cue == cue then last.attempts else 0
  }

  predicate RunCounts(s: State) {
    forall c | 0 <= c < |s.cues| :: s.cues[c].runCount == AttemptsOf(s.execs, c)
  }

  /** A run that has read its attempt number has POSTed, and POSTs outnumber recorded outcomes. */
  predicate PostsAhead(s: State)
    requires Shape(s)
  {
    forall r | r in s.runs && Live(s, r) && s.runs[r].attempt.Some? ::
      s.tally[s.runs[r].exec].recorded < s.tally[s.runs[r].exec].posted
  }

  predicate Carriers(s: State) {
    forall e: nat | e < |s.execs| :: Carried(s, e)
  }

  predicate Accounts(s: State)
    requires Shape(s)
  {
    (forall e: nat | e < |s.execs| :: Charged(s, e)) && PostsAhead(s) && RunCounts(s)
  }

  predicate Inv(s: State) {
    Shape(s) && Exclusive(s) && Carriers(s) && Accounts(s)
  }

  // ----- preservation -----

  lemma {:induction false} AttemptsOfUpdate(execs: seq<Execution>, e: nat, x: Execution, cue: nat)
    requires e < |execs| && x.cue == execs[e].cue
    ensures AttemptsOf(execs[e := x], cue)
         == AttemptsOf(execs, cue) + if x.cue == cue then x.attempts - execs[e].attempts else 0
  {
    var n := |execs| - 1;
    if e == n {
      assert execs[e := x][..n] == execs[..n];
    } else {
      assert execs[e := x][..n] == execs[..n][e := x];
      AttemptsOfUpdate(execs[..n], e, x, cue);
    }
  }

  /** Rewriting one row without touching its cue or attempts keeps every run count. */
  lemma RunCountsKept(s: State, e: nat, x: Execution)
    requires RunCounts(s) && e < |s.execs| && x.cue == s.execs[e].cue && x.attempts == s.execs[e].attempts
    ensures RunCounts(s.(execs := s.execs[e := x]))
  {
    forall c | 0 <= c < |s.cues| ensures s.cues[c].runCount == AttemptsOf(s.execs[e := x], c) {
      AttemptsOfUpdate(s.execs, e, x, c);
    }
  }

  lemma TickKeeps(s: State, now: Time)
    requires Inv(s)
    ensures Inv(Apply(s, Tick(now)))
  {
    var t := Apply(s, Tick(now));
    forall r | r in t.runs && Live(t, r) ensures Live(s, r) {}
    forall e: nat | e < |t.execs| ensures Carried(t, e) && Charged(t, e) {
      assert Carried(s, e) && Charged(s, e);
    }
  }

  lemma FireKeeps(s: State, cue: nat, sendAt: Option<Time>)
    requires Inv(s)
    ensures Inv(Apply(s, Fire(cue, sendAt)))
  {
    if cue < |s.cues| {
      var t := Apply(s, Fire(cue, sendAt));
      forall e: nat | e < |t.execs| ensures Carried(t, e) { FireCarries(s, cue, sendAt, e); }
      forall e: nat | e < |t.execs| ensures Charged(t, e) {
        assert e < |s.execs| ==> Charged(s, e);
      }
      assert t.execs[..|t.execs| - 1] == s.execs;
      forall r | r in t.runs ensures Owned(t, r) { assert Owned(s, r); }
    }
  }

  lemma FireCarries(s: State, cue: nat, sendAt: Option<Time>, e: nat)
    requires Inv(s) && cue < |s.cues| && e <= |s.execs|
    ensures Carried(Apply(s, Fire(cue, sendAt)), e)
  {
    var t := Apply(s, Fire(cue, sendAt));
    assert s.nextRow in t.outbox && t.outbox[s.nextRow].exec == |s.execs|;
    if e < |s.execs| {
      assert Carried(s, e);
      forall task | RowFor(s.outbox, e, task) ensures RowFor(t.outbox, e, task) {
        var r :| r in s.outbox && s.outbox[r].exec == e && s.outbox[r].task == task && !s.outbox[r].dispatched;
        assert r in t.outbox && t.outbox[r] == s.outbox[r];
      }
    }
  }

  lemma DispatchCarries(s: State, row: nat, result: DispatchResult)
    requires Inv(s)
    ensures Carriers(Apply(s, Dispatch(row, result)))
  {
    var t := Apply(s, Dispatch(row, result));
    forall e: nat | e < |t.execs| ensures Carried(t, e) {
      assert Carried(s, e);
      forall task | RowFor(s.outbox, e, task) ensures Ticket(t.queue, t.outbox, e, task) {
        var r :| r in s.outbox && s.outbox[r].exec == e && s.outbox[r].task == task && !s.outbox[r].dispatched;
        assert r in t.outbox && (r != row ==> t.outbox[r] == s.outbox[r]);
      }
    }
  }

  /** A step on the outbox and the queue alone. */
  lemma OutboxOnly(s: State, t: State)
    requires Inv(s) && t == s.(queue := t.queue, outbox := t.outbox, nextRow := t.nextRow)
    requires (forall r | r in t.outbox :: r < t.nextRow && t.outbox[r].exec < |t.execs|)
    requires (forall j | j in t.queue :: j.exec < |t.execs|) && Carriers(t)
    ensures Inv(t)
  {
    forall r | r in t.runs ensures Owned(t, r) { assert Owned(s, r); }
    forall e: nat | e < |t.execs| ensures Charged(t, e) { assert Charged(s, e); }
  }

  /** One more row loses no ticket. */
  lemma NewRowKeeps(s: State, row: Row)
    requires Inv(s) && row.exec < |s.execs|
    ensures Inv(AddRow(s, row)) && (!row.dispatched ==> RowFor(AddRow(s, row).outbox, row.exec, row.task))
  {
    var t := AddRow(s, row);
    assert t.outbox[s.nextRow] == row;
    forall e: nat | e < |t.execs| ensures Carried(t, e) {
      assert Carried(s, e);
      forall task | RowFor(s.outbox, e, task) ensures RowFor(t.outbox, e, task) {
        var r :| r in s.outbox && s.outbox[r].exec == e && s.outbox[r].task == task && !s.outbox[r].dispatched;
        assert r in t.outbox && t.outbox[r] == s.outbox[r];
      }
    }
    OutboxOnly(s, t);
  }

  function Rewritten(s: State, e: nat, x: Execution): State
    requires e < |s.execs|
  {
    s.(execs := s.execs[e := x])
  }

  /** Rewriting one row, attempts untouched: a live attempt may be met only by a row that
      says delivering or failed, and an open row needs its carrier. */
  lemma RewriteKeeps(s: State, e0: nat, x: Execution)
    requires Inv(s) && e0 < |s.execs| && x.cue == s.execs[e0].cue && x.attempts == s.execs[e0].attempts
    requires s.execs[e0].updatedAt <= x.updatedAt <= s.clock
    requires Open(x.status) ==> x.attempts < s.cues[x.cue].maxAttempts
    requires x.status == Delivering || x.status == Failed || forall r | r in s.runs && Live(s, r) :: s.runs[r].exec != e0
    requires Carried(Rewritten(s, e0, x), e0)
    ensures Inv(Rewritten(s, e0, x))
  {
    var t := Rewritten(s, e0, x);
    RunCountsKept(s, e0, x);
    forall r | r in t.runs ensures Owned(t, r) { assert Owned(s, r); }
    forall e: nat | e < |t.execs| ensures Carried(t, e) && Charged(t, e) { assert Carried(s, e) && Charged(s, e); }
  }

  /** No attempt is live on a row that says neither delivering nor failed. */
  lemma NoneLive(s: State, e: nat)
    requires Inv(s) && e < |s.execs| && s.execs[e].status != Delivering && s.execs[e].status != Failed
    ensures forall r | r in s.runs && Live(s, r) :: s.runs[r].exec != e
  {
    forall r | r in s.runs && Live(s, r) ensures s.runs[r].exec != e { assert Owned(s, r); }
  }

  lemma DispatchKeeps(s: State, row: nat, result: DispatchResult)
    requires Inv(s)
    ensures Inv(Apply(s, Dispatch(row, result)))
  {
    DispatchCarries(s, row, result);
    OutboxOnly(s, Apply(s, Dispatch(row, result)));
  }

  /** Taking a job of execution `job.exec` out of the queue loses nothing if its row no longer waits for it. */
  lemma ConsumeKeeps(s: State, job: Job, redelivered: bool)
    requires Inv(s) && job.exec < |s.execs| && s.execs[job.exec].status != ExpectedStatus(job.task)
    ensures Inv(s.(queue := Consume(s.queue, job, redelivered)))
  {
    var t := s.(queue := Consume(s.queue, job, redelivered));
    forall e: nat | e < |t.execs| ensures Carried(t, e) {
      assert Carried(s, e);
    }
    OutboxOnly(s, t);
  }

  /** A won claim: the row says delivering, and a new run owns it. */
  function Won(s: State, e: nat): State
    requires e < |s.execs|
  {
    s.(execs := s.execs[e := ClaimedRow(s.execs[e], s.clock)],
       runs := s.runs[s.nextRun := Run(e, s.clock, None)],
       nextRun := s.nextRun + 1)
  }

  lemma WinExclusive(s: State, e0: nat)
    requires Inv(s) && e0 < |s.execs| && (s.execs[e0].status == Pending || s.execs[e0].status == RetryReady)
    ensures Shape(Won(s, e0)) && Exclusive(Won(s, e0))
  {
    var t := Won(s, e0);
    NoneLive(s, e0);
    assert Charged(s, e0);
    forall r | r in t.runs ensures Owned(t, r) {
      if r in s.runs { assert Owned(s, r); }
    }
  }

  lemma WinAccounts(s: State, e0: nat)
    requires Inv(s) && e0 < |s.execs| && (s.execs[e0].status == Pending || s.execs[e0].status == RetryReady)
    requires Shape(Won(s, e0))
    ensures Carriers(Won(s, e0)) && Accounts(Won(s, e0))
  {
    var t := Won(s, e0);
    RunCountsKept(s, e0, ClaimedRow(s.execs[e0], s.clock));
    forall e: nat | e < |t.execs| ensures Carried(t, e) && Charged(t, e) {
      assert Carried(s, e) && Charged(s, e);
    }
  }

  /** Winning a claim: no other attempt on the execution is live. */
  lemma WinKeeps(s: State, e0: nat)
    requires Inv(s) && e0 < |s.execs| && (s.execs[e0].status == Pending || s.execs[e0].status == RetryReady)
    ensures Inv(Won(s, e0))
  {
    WinExclusive(s, e0);
    WinAccounts(s, e0);
  }

  lemma ClaimWrites(s: State, job: Job, redelivered: bool)
    requires job in s.queue && job.exec < |s.execs|
    ensures Apply(s, Claim(job, redelivered)) ==
      (if s.execs[job.exec].status == ExpectedStatus(job.task) then Won(s, job.exec) else s).(
        queue := Consume(s.queue, job, redelivered))
  {
  }

  lemma ClaimKeeps(s: State, job: Job, redelivered: bool)
    requires Inv(s)
    ensures Inv(Apply(s, Claim(job, redelivered)))
  {
    if job in s.queue {
      ClaimWrites(s, job, redelivered);
      if s.execs[job.exec].status == ExpectedStatus(job.task) {
        WinKeeps(s, job.exec);
        ConsumeKeeps(Won(s, job.exec), job, redelivered);
      } else {
        ConsumeKeeps(s, job, redelivered);
      }
    }
  }

  lemma QuotaBlockKeeps(s: State, job: Job, redelivered: bool)
    requires Inv(s)
    ensures Inv(Apply(s, QuotaBlock(job, redelivered)))
  {
    if job in s.queue && job.task == Deliver {
      var x := s.execs[job.exec].(status := Failed, updatedAt := s.clock);
      RewriteKeeps(s, job.exec, x);
      ConsumeKeeps(Rewritten(s, job.exec, x), job, redelivered);
    }
  }

  lemma PostExclusive(s: State, r: nat)
    requires Inv(s)
    ensures Shape(Apply(s, Post(r))) && Exclusive(Apply(s, Post(r)))
  {
    var t := Apply(s, Post(r));
    forall q | q in t.runs ensures Owned(t, q) { assert Owned(s, q); }
  }

  lemma PostAccounts(s: State, r: nat)
    requires Inv(s) && Shape(Apply(s, Post(r)))
    ensures Accounts(Apply(s, Post(r)))
  {
    var t := Apply(s, Post(r));
    forall e: nat | e < |t.execs| ensures Charged(t, e) { assert Charged(s, e); }
    assert t.execs == s.execs && t.cues == s.cues;
    forall q | q in t.runs && Live(t, q) && t.runs[q].attempt.Some?
      ensures t.tally[t.runs[q].exec].recorded < t.tally[t.runs[q].exec].posted
    {
      assert Charged(s, t.runs[q].exec);
    }
  }

  lemma PostKeeps(s: State, r: nat)
    requires Inv(s)
    ensures Inv(Apply(s, Post(r)))
  {
    PostExclusive(s, r);
    PostAccounts(s, r);
    forall e: nat | e < |s.execs| ensures Carried(Apply(s, Post(r)), e) { assert Carried(s, e); }
  }

  lemma FinishExclusive(s: State, r: nat, ok: bool)
    requires Inv(s) && CanFinish(s, r)
    ensures Shape(Apply(s, Finish(r, ok))) && Exclusive(Apply(s, Finish(r, ok)))
  {
    var t := Apply(s, Finish(r, ok));
    var e0 := s.runs[r].exec;
    forall q | q in t.runs ensures Owned(t, q) {
      assert Owned(s, q);
      assert Live(s, q) ==> s.runs[q].exec != e0;
    }
  }

  lemma FinishAccounts(s: State, r: nat, ok: bool)
    requires Inv(s) && CanFinish(s, r) && Shape(Apply(s, Finish(r, ok)))
    ensures Accounts(Apply(s, Finish(r, ok)))
  {
    var t := Apply(s, Finish(r, ok));
    var e0 := s.runs[r].exec;
    assert Owned(s, r) && Charged(s, e0);
    forall e: nat | e < |t.execs| ensures Charged(t, e) { assert Charged(s, e); }
    forall q | q in t.runs && Live(t, q) ensures t.runs[q].exec != e0 { assert Live(s, q); }
    forall c | 0 <= c < |t.cues| ensures t.cues[c].runCount == AttemptsOf(t.execs, c) {
      AttemptsOfUpdate(s.execs, e0, t.execs[e0], c);
    }
  }

  lemma FinishKeeps(s: State, r: nat, ok: bool)
    requires Inv(s)
    ensures Inv(Apply(s, Finish(r, ok)))
  {
    if CanFinish(s, r) {
      FinishExclusive(s, r, ok);
      FinishAccounts(s, r, ok);
      forall e: nat | e < |s.execs| ensures Carried(Apply(s, Finish(r, ok)), e) { assert Carried(s, e); }
    }
  }

  lemma CrashKeeps(s: State, r: nat)
    requires Inv(s)
    ensures Inv(Apply(s, Crash(r)))
  {
    var t := Apply(s, Crash(r));
    forall q | q in t.runs ensures Owned(t, q) { assert Owned(s, q); }
    forall e: nat | e < |t.execs| ensures Carried(t, e) && Charged(t, e) { assert Carried(s, e) && Charged(s, e); }
  }

  lemma PollRetryKeeps(s: State, e0: nat)
    requires Inv(s)
    ensures Inv(Apply(s, PollRetry(e0)))
  {
    if e0 < |s.execs| && RetryDue(s.execs[e0], s.clock) {
      var row := NewRow(e0, Retry, None, s.clock);
      NewRowKeeps(s, row);
      assert Charged(s, e0);
      NoneLive(s, e0);
      RewriteKeeps(AddRow(s, row), e0, s.execs[e0].(status := RetryReady, updatedAt := s.clock));
    }
  }

  /** The stale threshold exceeds the attempt lifetime, so recovery never meets a live
      attempt; and `delivering` means budget is left, so it never charges or fails the execution. */
  lemma RecoverKeeps(s: State, e0: nat)
    requires Inv(s)
    ensures Inv(Apply(s, RecoverStale(e0)))
    ensures e0 < |s.execs| && IsStale(s.execs[e0], s.clock) ==>
              && Apply(s, RecoverStale(e0)).execs[e0].status == Retrying
              && Apply(s, RecoverStale(e0)).execs[e0].attempts == s.execs[e0].attempts
              && s.execs[e0].updatedAt + 300.0 < s.clock
              && forall r | r in s.runs && s.runs[r].exec == e0 :: !Live(s, r)
  {
    if e0 < |s.execs| && IsStale(s.execs[e0], s.clock) {
      assert Charged(s, e0);
      forall r | r in s.runs && Live(s, r) ensures s.runs[r].exec != e0 { assert Owned(s, r); }
      RewriteKeeps(s, e0, RecoveredRow(s.execs[e0], s.cues[s.execs[e0].cue], s.clock));
    }
  }

  lemma TouchKeeps(s: State, e0: nat)
    requires Inv(s)
    ensures Inv(Apply(s, Touch(e0)))
  {
    if e0 < |s.execs| {
      assert Charged(s, e0) && Carried(s, e0);
      if s.execs[e0].status != Delivering && s.execs[e0].status != Failed { NoneLive(s, e0); }
      RewriteKeeps(s, e0, s.execs[e0].(updatedAt := s.clock));
    }
  }

  lemma ReapKeeps(s: State, row: nat)
    requires Inv(s)
    ensures Inv(Apply(s, Reap(row)))
  {
    var t := Apply(s, Reap(row));
    forall e: nat | e < |t.execs| ensures Carried(t, e) {
      assert Carried(s, e);
      forall task | RowFor(s.outbox, e, task) ensures RowFor(t.outbox, e, task) {
        var r :| r in s.outbox && s.outbox[r].exec == e && s.outbox[r].task == task && !s.outbox[r].dispatched;
        assert r in t.outbox && t.outbox[r] == s.outbox[r];
      }
    }
    OutboxOnly(s, t);
  }

  /** Every step keeps the invariant, the quota write included, whatever it strikes. */
  lemma StepKeeps(s: State, a: Action)
    requires Inv(s)
    ensures Inv(Apply(s, a))
  {
    match a
    case Tick(now) => TickKeeps(s, now);
    case Fire(cue, sendAt) => FireKeeps(s, cue, sendAt);
    case Dispatch(row, result) => DispatchKeeps(s, row, result);
    case Claim(job, redelivered) => ClaimKeeps(s, job, redelivered);
    case QuotaBlock(job, redelivered) => QuotaBlockKeeps(s, job, redelivered);
    case Post(r) => PostKeeps(s, r);
    case Finish(r, ok) => FinishKeeps(s, r, ok);
    case Crash(r) => CrashKeeps(s, r);
    case PollRetry(e) => PollRetryKeeps(s, e);
    case RecoverStale(e) => RecoverKeeps(s, e);
    case Touch(e) => TouchKeeps(s, e);
    case Reap(row) => ReapKeeps(s, row);
  }

  lemma {:induction false} RunKeeps(s: State, acts: seq<Action>)
    requires Inv(s)
    ensures Inv(Play(s, acts))
  {
    if acts != [] {
      RunKeeps(s, acts[..|acts| - 1]);
      StepKeeps(Play(s, acts[..|acts| - 1]), acts[|acts| - 1]);
    }
  }

  lemma InitialInv(s: State)
    requires Initial(s)
    ensures Inv(s)
  {
  }
}
