/** When the POSTs of an execution may come: not before its send time, and after a failed
    attempt not before the minutes its cue's retry list says. */
module ExecutionBackoff {
  import opened Common
  import opened ExecutionProtocol
  import opened ExecutionTheorems

  /** The seconds to wait after failed attempt `n`: 60 times its entry of the list, or the last one. */
  function WaitSeconds(backoff: seq<int>, n: nat): Time
    requires backoff != [] && n >= 1
  {
    60.0 * (if n <= |backoff| then backoff[n - 1] else backoff[|backoff| - 1]) as real
  }

  // ----- the outcome of an attempt -----

  /** In every run, what recording attempt `n` leaves in the row: success; or, if the
      budget is not used up, retrying after the wait of that attempt; or failed for good. */
  lemma OutcomeColumns(init: State, past: seq<Action>, r: nat, ok: bool)
    requires Initial(init) && CanFinish(Play(init, past), r)
    ensures var s := Play(init, past);
      var e, n := s.runs[r].exec, s.runs[r].attempt.value;
      var cue := s.cues[s.execs[e].cue];
      var t := Apply(s, Finish(r, ok));
      && n == s.execs[e].attempts + 1 && 1 <= n <= cue.maxAttempts && cue.backoffMinutes != []
      && e < |t.execs| && t.execs[e].attempts == n && t.execs[e].updatedAt == s.clock
      && (ok ==> t.execs[e].status == Success && t.execs[e].nextRetry == None)
      && (!ok && n < cue.maxAttempts ==>
            t.execs[e].status == Retrying && t.execs[e].nextRetry == Some(s.clock + WaitSeconds(cue.backoffMinutes, n)))
      && (!ok && n == cue.maxAttempts ==> t.execs[e].status == Failed && t.execs[e].nextRetry == None)
  {
    InitialInv(init);
    RunKeeps(init, past);
    var s := Play(init, past);
    assert Owned(s, r) && Charged(s, s.runs[r].exec);
  }

  // ----- failed means exhausted -----

  predicate Exhausted(s: State) {
    forall e | 0 <= e < |s.execs| && s.execs[e].status == Failed ::
      s.execs[e].cue < |s.cues| && s.execs[e].attempts == s.cues[s.execs[e].cue].maxAttempts
  }

  lemma ExhaustedStep(s: State, a: Action)
    requires Inv(s) && Exhausted(s) && !a.QuotaBlock?
    ensures Exhausted(Apply(s, a))
  {
    var t := Apply(s, a);
    forall e | 0 <= e < |t.execs| && t.execs[e].status == Failed
      ensures t.execs[e].cue < |t.cues| && t.execs[e].attempts == t.cues[t.execs[e].cue].maxAttempts
    {
      BecomesFailed(s, a, e);
    }
  }

  lemma BecomesFailed(s: State, a: Action, e: nat)
    requires Inv(s) && !a.QuotaBlock? && e < |Apply(s, a).execs| && Apply(s, a).execs[e].status == Failed
    ensures var t := Apply(s, a);
      && e < |s.execs| && t.execs[e].cue == s.execs[e].cue < |t.cues| == |s.cues|
      && t.cues[t.execs[e].cue].maxAttempts == s.cues[s.execs[e].cue].maxAttempts
      && (|| (s.execs[e].status == Failed && t.execs[e].attempts == s.execs[e].attempts)
          || t.execs[e].attempts == t.cues[t.execs[e].cue].maxAttempts)
  {
    if a.Finish? {
      FinishFails(s, a.run, a.ok, e);
    } else if a.RecoverStale? {
      RecoverKeeps(s, a.exec);
    }
  }

  lemma FinishFails(s: State, r: nat, ok: bool, e: nat)
    requires Inv(s) && e < |s.execs| && Apply(s, Finish(r, ok)).execs[e].status == Failed
    ensures var t := Apply(s, Finish(r, ok));
      && t.execs[e].cue == s.execs[e].cue < |t.cues| == |s.cues|
      && t.cues[t.execs[e].cue].maxAttempts == s.cues[s.execs[e].cue].maxAttempts
      && (t.execs[e] == s.execs[e] || t.execs[e].attempts == t.cues[t.execs[e].cue].maxAttempts)
  {
    if CanFinish(s, r) { assert Owned(s, r) && Charged(s, s.runs[r].exec); }
  }

  lemma {:induction false} ExhaustedRun(s: State, acts: seq<Action>)
    requires Inv(s) && Exhausted(s) && Undisturbed(acts)
    ensures Exhausted(Play(s, acts))
  {
    if acts != [] {
      var n := |acts| - 1;
      ExhaustedRun(s, acts[..n]);
      RunKeeps(s, acts[..n]);
      assert !acts[n].QuotaBlock?;
      ExhaustedStep(Play(s, acts[..n]), acts[n]);
    }
  }

  /** In every run without a quota write, an execution fails only with its budget used up. */
  lemma FailedMeansExhausted(init: State, acts: seq<Action>, e: nat)
    requires Initial(init) && Undisturbed(acts)
    requires e < |Play(init, acts).execs| && Play(init, acts).execs[e].status == Failed
    ensures var s := Play(init, acts);
      s.execs[e].cue < |s.cues| && s.execs[e].attempts == s.cues[s.execs[e].cue].maxAttempts
  {
    InitialInv(init);
    ExhaustedRun(init, acts);
  }

  // ----- the wait after a failure -----

  /** Attempt `n` failed at `at`: when the next POST may come. */
  function NotBefore(s: State, e: nat, note: Note): Time
    requires Shape(s) && e < |s.execs| && note.FailedAt? && note.attempt >= 1
  {
    note.at + WaitSeconds(s.cues[s.execs[e].cue].backoffMinutes, note.attempt)
  }

  /** A recorded failure: its wait is over, or stands in `next_retry`, or nothing is open any more. */
  predicate Waiting(s: State, e: nat, note: Note)
    requires Shape(s) && e < |s.execs|
  {
    note.FailedAt? ==>
      && 1 <= note.attempt <= s.execs[e].attempts
      && (|| s.clock >= NotBefore(s, e, note)
          || (!Open(s.execs[e].status) && forall r | r in s.runs && s.runs[r].exec == e :: !Live(s, r))
          || (s.execs[e].status == Retrying && s.execs[e].nextRetry.Some?
              && s.execs[e].nextRetry.value >= NotBefore(s, e, note)))
  }

  /** A POST is no sooner than any earlier failure allows. */
  predicate Spaced(s: State, e: nat)
    requires Shape(s) && e < |s.execs|
  {
    var notes := s.tally[e].notes;
    && (forall i | 0 <= i < |notes| :: Waiting(s, e, notes[i]))
    && (forall i, j | 0 <= i < j < |notes| && notes[i].FailedAt? && notes[j].PostedAt? ::
          notes[j].at >= NotBefore(s, e, notes[i]))
  }

  /** A live attempt means that every wait is over. */
  lemma LiveIsRested(s: State, r: nat, i: nat)
    requires Inv(s) && r in s.runs && Live(s, r) && Spaced(s, s.runs[r].exec)
    requires i < |s.tally[s.runs[r].exec].notes| && s.tally[s.runs[r].exec].notes[i].FailedAt?
    ensures var e := s.runs[r].exec;
      s.tally[e].notes[i].attempt >= 1 && s.clock >= NotBefore(s, e, s.tally[e].notes[i])
  {
    assert Owned(s, r) && Waiting(s, s.runs[r].exec, s.tally[s.runs[r].exec].notes[i]);
  }

  lemma SameConfig(s: State, a: Action, e: nat)
    requires Inv(s) && e < |s.execs|
    ensures var t := Apply(s, a);
      && e < |t.execs| && t.execs[e].cue == s.execs[e].cue && s.clock <= t.clock && |t.cues| == |s.cues|
      && forall c | 0 <= c < |s.cues| :: t.cues[c].backoffMinutes == s.cues[c].backoffMinutes
  {
  }

  /** What a step that records no outcome of `e` does to it: claims and quota writes, polls
      and recoveries come only in their states, and no other attempt becomes live. */
  lemma QuietFor(s: State, a: Action, e: nat)
    requires Inv(s) && e < |s.execs| && !(a.Finish? && CanFinish(s, a.run) && s.runs[a.run].exec == e)
    ensures var t := Apply(s, a);
      && e < |t.execs| && t.execs[e].attempts == s.execs[e].attempts
      && (!Open(s.execs[e].status) ==> !Open(t.execs[e].status))
      && (s.execs[e].status == Retrying && !RetryDue(s.execs[e], s.clock) ==>
            || (t.execs[e].status == Retrying && t.execs[e].nextRetry == s.execs[e].nextRetry)
            || t.execs[e].status == Failed)
  {
    if a.Finish? && CanFinish(s, a.run) { assert s.runs[a.run].exec != e; }
  }

  lemma NoneBecomesLive(s: State, a: Action, e: nat)
    requires Inv(s) && e < |s.execs| && (!Open(s.execs[e].status) || s.execs[e].status == Retrying)
    requires forall r | r in s.runs && s.runs[r].exec == e :: !Live(s, r)
    ensures forall r | r in Apply(s, a).runs && Apply(s, a).runs[r].exec == e :: !Live(Apply(s, a), r)
  {
    var t := Apply(s, a);
    forall r | r in t.runs && t.runs[r].exec == e ensures !Live(t, r) {
      if Live(t, r) { RunOrigin(s, a, r); }
    }
  }

  /** The waits of an execution pass through every step that records no outcome of it. */
  lemma WaitKept(s: State, a: Action, e: nat, note: Note)
    requires Inv(s) && Inv(Apply(s, a)) && e < |s.execs| && Waiting(s, e, note)
    requires !(a.Finish? && CanFinish(s, a.run) && s.runs[a.run].exec == e)
    ensures e < |Apply(s, a).execs| && Waiting(Apply(s, a), e, note)
  {
    SameConfig(s, a, e);
    QuietFor(s, a, e);
    if note.FailedAt? && s.clock < NotBefore(s, e, note) {
      if s.execs[e].status == Retrying { NoneLive(s, e); }
      NoneBecomesLive(s, a, e);
    }
  }

  lemma NotesGrow(s: State, a: Action, e: nat)
    requires Inv(s) && e < |s.execs| && !(a.Finish? && CanFinish(s, a.run) && s.runs[a.run].exec == e)
    ensures var t := Apply(s, a);
      && e < |t.tally|
      && (|| t.tally[e].notes == s.tally[e].notes
          || (&& a.Post? && a.run in s.runs && Live(s, a.run) && s.runs[a.run].exec == e
              && t.tally[e].notes == s.tally[e].notes + [PostedAt(s.clock)]))
  {
  }

  lemma QuietSpaced(s: State, a: Action, e: nat)
    requires Inv(s) && Inv(Apply(s, a)) && e < |s.execs| && Spaced(s, e)
    requires !(a.Finish? && CanFinish(s, a.run) && s.runs[a.run].exec == e)
    ensures e < |Apply(s, a).execs| && Spaced(Apply(s, a), e)
  {
    var t := Apply(s, a);
    SameConfig(s, a, e);
    NotesGrow(s, a, e);
    var notes := s.tally[e].notes;
    forall i | 0 <= i < |notes| ensures Waiting(t, e, notes[i]) { WaitKept(s, a, e, notes[i]); }
    if t.tally[e].notes != notes {
      forall i | 0 <= i < |notes| && notes[i].FailedAt? ensures s.clock >= NotBefore(s, e, notes[i]) {
        LiveIsRested(s, a.run, i);
      }
    }
  }

  /** A recorded outcome: every earlier wait was over, and the new one stands in the row. */
  lemma FinishSpaced(s: State, r: nat, ok: bool)
    requires Inv(s) && CanFinish(s, r) && Inv(Apply(s, Finish(r, ok))) && Spaced(s, s.runs[r].exec)
    ensures Spaced(Apply(s, Finish(r, ok)), s.runs[r].exec)
  {
    var e, n := s.runs[r].exec, s.runs[r].attempt.value;
    var t := Apply(s, Finish(r, ok));
    SameConfig(s, Finish(r, ok), e);
    assert Owned(s, r) && Charged(s, e);
    var notes := s.tally[e].notes;
    forall i | 0 <= i < |notes| ensures Waiting(t, e, notes[i]) {
      if notes[i].FailedAt? { LiveIsRested(s, r, i); }
    }
    if !ok { NewWait(s, r); }
  }

  lemma NewWait(s: State, r: nat)
    requires Inv(s) && CanFinish(s, r) && Inv(Apply(s, Finish(r, false)))
    ensures Waiting(Apply(s, Finish(r, false)), s.runs[r].exec, FailedAt(s.runs[r].attempt.value, s.clock))
  {
    var e := s.runs[r].exec;
    var t := Apply(s, Finish(r, false));
    assert Owned(s, r) && Charged(s, e);
    forall q | q in t.runs && t.runs[q].exec == e ensures !Live(t, q) {
      assert Live(s, q) ==> q == r;
    }
  }

  predicate AllSpaced(s: State)
    requires Shape(s)
  {
    forall e: nat | e < |s.execs| :: Spaced(s, e)
  }

  lemma StepSpaced(s: State, a: Action)
    requires Inv(s) && AllSpaced(s)
    ensures Inv(Apply(s, a)) && AllSpaced(Apply(s, a))
  {
    StepKeeps(s, a);
    var t := Apply(s, a);
    forall e: nat | e < |t.execs| ensures Spaced(t, e) {
      if e < |s.execs| {
        if a.Finish? && CanFinish(s, a.run) && s.runs[a.run].exec == e {
          FinishSpaced(s, a.run, a.ok);
        } else {
          QuietSpaced(s, a, e);
        }
      } else {
        assert t.tally[e].notes == [];
      }
    }
  }

  lemma {:induction false} RunSpaced(s: State, acts: seq<Action>)
    requires Inv(s) && AllSpaced(s)
    ensures Inv(Play(s, acts)) && AllSpaced(Play(s, acts))
  {
    if acts != [] {
      RunSpaced(s, acts[..|acts| - 1]);
      StepSpaced(Play(s, acts[..|acts| - 1]), acts[|acts| - 1]);
    }
  }

  /** In every run, crashes, duplicated jobs, stale recovery and quota writes included: after
      attempt `n` of an execution is recorded as failed, its next POST comes no sooner than
      the minutes of entry `n` of its cue's retry list later (the last entry beyond it). */
  lemma BackoffIsHonoured(init: State, acts: seq<Action>, e: nat, i: nat, j: nat)
    requires Initial(init) && e < |Play(init, acts).execs|
    requires e < |Play(init, acts).tally| && i < j < |Play(init, acts).tally[e].notes|
    requires Play(init, acts).tally[e].notes[i].FailedAt? && Play(init, acts).tally[e].notes[j].PostedAt?
    ensures var s := Play(init, acts); var failed, next := s.tally[e].notes[i], s.tally[e].notes[j];
      && s.execs[e].cue < |s.cues| && s.cues[s.execs[e].cue].backoffMinutes != [] && failed.attempt >= 1
      && next.at >= failed.at + WaitSeconds(s.cues[s.execs[e].cue].backoffMinutes, failed.attempt)
  {
    InitialInv(init);
    RunSpaced(init, acts);
    var s := Play(init, acts);
    assert Spaced(s, e) && Waiting(s, e, s.tally[e].notes[i]);
  }

  // ----- the send time -----

  predicate Reached(s: State, e: nat)
    requires e < |s.tally|
  {
    s.tally[e].sendAt.Some? ==> s.clock >= s.tally[e].sendAt.value
  }

  /** Deliver rows carry the send time; once a deliver job is out, or the execution past
      pending, the time has come; and no POST came before it. */
  predicate InTime(s: State) {
    && Shape(s)
    && (forall r | r in s.outbox && s.outbox[r].task == Deliver :: s.outbox[r].scheduledAt == s.tally[s.outbox[r].exec].sendAt)
    && (forall j | j in s.queue && j.task == Deliver :: Reached(s, j.exec))
    && (forall e: nat | e < |s.execs| && s.execs[e].status != Pending :: Reached(s, e))
    && (forall e: nat, i | e < |s.execs| && 0 <= i < |s.tally[e].notes| && s.tally[e].sendAt.Some? ::
          s.tally[e].notes[i].at >= s.tally[e].sendAt.value)
  }

  lemma SendAtKept(s: State, a: Action)
    requires Inv(s)
    ensures var t := Apply(s, a);
      && |s.tally| <= |t.tally| && s.clock <= t.clock
      && forall e: nat | e < |s.tally| :: t.tally[e].sendAt == s.tally[e].sendAt
  {
  }

  lemma NotesInTime(s: State, a: Action)
    requires Inv(s) && InTime(s)
    ensures var t := Apply(s, a);
      forall e: nat, i | e < |t.execs| && e < |t.tally| && 0 <= i < |t.tally[e].notes| && t.tally[e].sendAt.Some? ::
        t.tally[e].notes[i].at >= t.tally[e].sendAt.value
  {
    var t := Apply(s, a);
    if a.Post? && a.run in s.runs && Live(s, a.run) { assert Owned(s, a.run); }
    if a.Finish? && CanFinish(s, a.run) { assert Owned(s, a.run); }
  }

  lemma InTimeStep(s: State, a: Action)
    requires Inv(s) && InTime(s)
    ensures InTime(Apply(s, a))
  {
    StepKeeps(s, a);
    SendAtKept(s, a);
    NotesInTime(s, a);
    var t := Apply(s, a);
    forall e: nat | e < |t.execs| && t.execs[e].status != Pending ensures Reached(t, e) {
      LeavesPendingInTime(s, a, e);
    }
    RowsInTime(s, a);
  }

  /** A pending execution leaves that status by a run of its deliver job. */
  lemma LeavesPendingBy(s: State, a: Action, e: nat)
    requires Inv(s) && e < |Apply(s, a).execs| && Apply(s, a).execs[e].status != Pending
    ensures e < |s.execs| && (s.execs[e].status == Pending ==> Job(e, Deliver) in s.queue)
  {
    if a.Finish? && CanFinish(s, a.run) { assert Owned(s, a.run); }
  }

  lemma LeavesPendingInTime(s: State, a: Action, e: nat)
    requires Inv(s) && InTime(s) && e < |Apply(s, a).execs| && Apply(s, a).execs[e].status != Pending
    requires |Apply(s, a).tally| == |Apply(s, a).execs|
    ensures Reached(Apply(s, a), e)
  {
    LeavesPendingBy(s, a, e);
    SendAtKept(s, a);
    assert Reached(s, e);
  }

  /** Where a queued job comes from. */
  lemma JobFrom(s: State, a: Action, j: Job)
    requires j in Apply(s, a).queue
    ensures j in s.queue ||
      (a.Dispatch? && a.row in s.outbox && RowDue(s.outbox[a.row], s.clock)
       && j == Job(s.outbox[a.row].exec, s.outbox[a.row].task))
  {
  }

  /** Where an outbox row comes from. */
  lemma RowFrom(s: State, a: Action, r: nat)
    requires r in Apply(s, a).outbox
    ensures var row := Apply(s, a).outbox[r];
      || (r in s.outbox && row.exec == s.outbox[r].exec && row.task == s.outbox[r].task && row.scheduledAt == s.outbox[r].scheduledAt)
      || row.task == Retry
      || (a.Fire? && a.cue < |s.cues| && row.exec == |s.execs| && row.scheduledAt == a.sendAt)
  {
  }

  lemma RowsInTime(s: State, a: Action)
    requires Inv(s) && InTime(s) && Inv(Apply(s, a))
    ensures var t := Apply(s, a);
      && (forall r | r in t.outbox && t.outbox[r].task == Deliver :: t.outbox[r].scheduledAt == t.tally[t.outbox[r].exec].sendAt)
      && (forall j | j in t.queue && j.task == Deliver :: Reached(t, j.exec))
  {
    var t := Apply(s, a);
    SendAtKept(s, a);
    forall r | r in t.outbox && t.outbox[r].task == Deliver ensures t.outbox[r].scheduledAt == t.tally[t.outbox[r].exec].sendAt {
      RowFrom(s, a, r);
      if a.Fire? && a.cue < |s.cues| { FireColumns(s, a.cue, a.sendAt); }
    }
    forall j | j in t.queue && j.task == Deliver ensures Reached(t, j.exec) {
      JobFrom(s, a, j);
    }
  }

  lemma {:induction false} InTimeRun(s: State, acts: seq<Action>)
    requires Inv(s) && InTime(s)
    ensures Inv(Play(s, acts)) && InTime(Play(s, acts))
  {
    if acts != [] {
      InTimeRun(s, acts[..|acts| - 1]);
      StepKeeps(Play(s, acts[..|acts| - 1]), acts[|acts| - 1]);
      InTimeStep(Play(s, acts[..|acts| - 1]), acts[|acts| - 1]);
    }
  }

  /** In every run, no execution is POSTed before the time it was to be sent. */
  lemma SendAtIsHonoured(init: State, acts: seq<Action>, e: nat, i: nat)
    requires Initial(init) && e < |Play(init, acts).execs| && e < |Play(init, acts).tally|
    requires i < |Play(init, acts).tally[e].notes| && Play(init, acts).tally[e].sendAt.Some?
    ensures Play(init, acts).tally[e].notes[i].at >= Play(init, acts).tally[e].sendAt.value
  {
    InitialInv(init);
    InTimeRun(init, acts);
  }

  /** A fire makes one pending execution and one deliver row for its send time. */
  lemma FireColumns(s: State, cue: nat, sendAt: Option<Time>)
    requires cue < |s.cues|
    ensures var t := Apply(s, Fire(cue, sendAt));
      && t.execs == s.execs + [Execution(cue, Pending, 0, None, s.clock)]
      && t.outbox == s.outbox[s.nextRow := Row(|s.execs|, Deliver, sendAt, false, 0, s.clock)]
      && t.tally == s.tally + [Tally(0, 0, sendAt, [])]
  {
  }

  /** The outbox loses exactly dispatched rows more than seven days old. */
  lemma ReapedIff(s: State, row: nat)
    requires row in s.outbox
    ensures row !in Apply(s, Reap(row)).outbox <==> s.outbox[row].dispatched && s.outbox[row].createdAt < s.clock - 604800.0
  {
  }

  /** What the environment may do: time passes and never goes back; a run vanishes; an enqueue
      survives its lost transaction; a heartbeat touches a row; and a run is live for 40 s. */
  lemma EnvironmentColumns(s: State, now: Time, r: nat, row: nat, e: nat)
    ensures Apply(s, Tick(now)) == s.(clock := if s.clock <= now then now else s.clock)
    ensures Apply(s, Crash(r)) == s.(runs := map q | q in s.runs && q != r :: s.runs[q])
    ensures row in s.outbox && RowDue(s.outbox[row], s.clock) ==>
              Apply(s, Dispatch(row, RolledBack)) == s.(queue := s.queue + {Job(s.outbox[row].exec, s.outbox[row].task)})
    ensures e < |s.execs| ==> Apply(s, Touch(e)) == s.(execs := s.execs[e := s.execs[e].(updatedAt := s.clock)])
    ensures r in s.runs ==> (Live(s, r) <==> s.clock <= s.runs[r].claimedAt + 40.0)
  {
    assert (map q | q in s.runs && q != r :: s.runs[q]) == s.runs - {r};
  }
}
