/** What the execution protocol guarantees over whole runs, and where it does not. */
module ExecutionTheorems {
  import opened Common
  import opened ExecutionProtocol

  // ----- safety -----

  /** No execution has two live attempts. */
  predicate OneOwner(s: State) {
    forall r, q | r in s.runs && q in s.runs && Live(s, r) && Live(s, q) && s.runs[r].exec == s.runs[q].exec :: r == q
  }

  /** A live attempt means `delivering`. */
  predicate Delivers(s: State) {
    forall r | r in s.runs && Live(s, r) ::
      s.runs[r].exec < |s.execs| && s.execs[s.runs[r].exec].status == Delivering
  }

  /** `attempts` is the number of recorded POSTs and within budget, strictly so while
      the execution is open; `run_count` is the sum of a cue's `attempts`. */
  predicate AttemptsAccounted(s: State) {
    && |s.tally| == |s.execs|
    && (forall e | 0 <= e < |s.execs| ::
          && s.execs[e].cue < |s.cues|
          && s.execs[e].attempts == s.tally[e].recorded <= s.cues[s.execs[e].cue].maxAttempts
          && (Open(s.execs[e].status) ==> s.execs[e].attempts < s.cues[s.execs[e].cue].maxAttempts))
    && (forall c | 0 <= c < |s.cues| :: s.cues[c].runCount == AttemptsOf(s.execs, c))
  }

  lemma InvAccounted(s: State)
    requires Inv(s)
    ensures AttemptsAccounted(s)
  {
    forall e | 0 <= e < |s.execs|
      ensures s.execs[e].attempts == s.tally[e].recorded <= s.cues[s.execs[e].cue].maxAttempts
      ensures Open(s.execs[e].status) ==> s.execs[e].attempts < s.cues[s.execs[e].cue].maxAttempts
    {
      assert Charged(s, e);
    }
  }

  /** In every run from a fresh database, under crashes, duplicated jobs, lost dispatch
      transactions and quota writes on whatever row: attempts exclude each other, the
      accounts balance, and nothing open is without a carrier: a row or a job, a due time,
      or, while delivering, the stale threshold from its last touch. */
  lemma SafeInEveryRun(init: State, acts: seq<Action>)
    requires Initial(init)
    ensures OneOwner(Play(init, acts))
    ensures AttemptsAccounted(Play(init, acts))
    ensures forall e: nat | e < |Play(init, acts).execs| :: Carried(Play(init, acts), e)
    ensures var s := Play(init, acts);
      forall e: nat, now: Time | e < |s.execs| && s.execs[e].status == Delivering && now > s.clock + 300.0 ::
        IsStale(s.execs[e], now)
  {
    InitialInv(init);
    RunKeeps(init, acts);
    InvAccounted(Play(init, acts));
  }

  /** One step takes a live attempt's row from `delivering`, leaving the attempt live, if
      and only if it is the quota branch of the execution's deliver job. */
  lemma OwnershipLostIff(s: State, a: Action, r: nat)
    requires Inv(s) && r in s.runs && Live(s, r) && s.execs[s.runs[r].exec].status == Delivering
    requires r in Apply(s, a).runs && Live(Apply(s, a), r)
    ensures var e := s.runs[r].exec;
      e < |Apply(s, a).execs| &&
      (Apply(s, a).execs[e].status != Delivering <==> a.QuotaBlock? && a.job == Job(e, Deliver) && a.job in s.queue)
  {
    assert Owned(s, r);
    match a
    case Finish(q, ok) =>
      if CanFinish(s, q) { assert Owned(s, q); }
    case RecoverStale(e) =>
      RecoverKeeps(s, e);
    case _ =>
  }

  /** A run after a step is a run from before it, or one that has just won its claim. */
  lemma RunOrigin(s: State, a: Action, r: nat)
    requires Inv(s) && r in Apply(s, a).runs && Live(Apply(s, a), r)
    ensures var t := Apply(s, a);
      if r in s.runs then Live(s, r) && t.runs[r].exec == s.runs[r].exec
      else t.runs[r].exec < |t.execs| && t.execs[t.runs[r].exec].status == Delivering
  {
  }

  lemma ConfinedStepDelivers(s: State, a: Action)
    requires Inv(s) && Delivers(s) && Confined(s, a)
    ensures Delivers(Apply(s, a))
  {
    var t := Apply(s, a);
    forall r | r in t.runs && Live(t, r)
      ensures t.runs[r].exec < |t.execs| && t.execs[t.runs[r].exec].status == Delivering
    {
      RunOrigin(s, a, r);
      if r in s.runs { OwnershipLostIff(s, a, r); }
    }
  }

  lemma ConfinedPrefix(s: State, acts: seq<Action>)
    requires ConfinedRun(s, acts) && acts != []
    ensures ConfinedRun(s, acts[..|acts| - 1]) && Confined(Play(s, acts[..|acts| - 1]), acts[|acts| - 1])
  {
    var n := |acts| - 1;
    forall i | 0 <= i < n ensures Confined(Play(s, acts[..n][..i]), acts[..n][i]) {
      assert acts[..n][..i] == acts[..i];
    }
    assert Confined(Play(s, acts[..n]), acts[n]);
  }

  /** Where quota writes strike only pending executions, a live attempt always means `delivering`. */
  lemma {:induction false} LiveMeansDelivering(s: State, acts: seq<Action>)
    requires Inv(s) && Delivers(s) && ConfinedRun(s, acts)
    ensures Delivers(Play(s, acts))
  {
    if acts != [] {
      ConfinedPrefix(s, acts);
      LiveMeansDelivering(s, acts[..|acts| - 1]);
      RunKeeps(s, acts[..|acts| - 1]);
      ConfinedStepDelivers(Play(s, acts[..|acts| - 1]), acts[|acts| - 1]);
    }
  }

  /** The quota branch strikes a succeeded execution. */
  predicate BlocksSuccess(s: State, a: Action, e: nat)
    requires e < |s.execs|
  {
    a.QuotaBlock? && a.job == Job(e, Deliver) && a.job in s.queue && s.execs[e].status == Success
  }

  /** An attempt that outlived a quota write records a success, or a failure with budget left. */
  predicate RevivesFailed(s: State, a: Action, e: nat)
    requires e < |s.execs|
  {
    && a.Finish? && CanFinish(s, a.run) && s.runs[a.run].exec == e && s.execs[e].status == Failed
    && (a.ok || s.runs[a.run].attempt.value < s.cues[s.execs[e].cue].maxAttempts)
  }

  /** At every state a run can reach, whatever its quota writes struck, one step leaves
      `success` or `failed` if and only if it is the quota branch on a succeeded
      execution, or the outcome write of an attempt still live on a failed one, unless
      that attempt fails too and was the last. */
  lemma TerminalLeftIff(init: State, past: seq<Action>, a: Action, e: nat)
    requires Initial(init)
    requires e < |Play(init, past).execs| && !Open(Play(init, past).execs[e].status)
    ensures var s := Play(init, past);
      e < |Apply(s, a).execs| &&
      (Apply(s, a).execs[e].status != s.execs[e].status <==> BlocksSuccess(s, a, e) || RevivesFailed(s, a, e))
  {
    InitialInv(init);
    RunKeeps(init, past);
    TerminalStep(Play(init, past), a, e);
  }

  lemma TerminalStep(s: State, a: Action, e: nat)
    requires Inv(s) && e < |s.execs| && !Open(s.execs[e].status)
    ensures e < |Apply(s, a).execs|
    ensures Apply(s, a).execs[e].status != s.execs[e].status <==> BlocksSuccess(s, a, e) || RevivesFailed(s, a, e)
  {
    if a.Finish? && CanFinish(s, a.run) {
      assert Owned(s, a.run);
    }
  }

  /** `success` and `failed` are absorbing in every continuation whose quota writes are
      confined, from every state in which live attempts deliver. */
  lemma {:induction false} TerminalAbsorbing(s: State, acts: seq<Action>, e: nat)
    requires Inv(s) && Delivers(s) && ConfinedRun(s, acts) && e < |s.execs| && !Open(s.execs[e].status)
    ensures e < |Play(s, acts).execs|
    ensures Play(s, acts).execs[e].status == s.execs[e].status
  {
    if acts != [] {
      var n := |acts| - 1;
      ConfinedPrefix(s, acts);
      TerminalAbsorbing(s, acts[..n], e);
      RunKeeps(s, acts[..n]);
      LiveMeansDelivering(s, acts[..n]);
      TerminalStep(Play(s, acts[..n]), acts[n], e);
    }
  }

  // ----- progress -----

  lemma PlayLast(s: State, front: seq<Action>, last: Action)
    ensures Play(s, front + [last]) == Apply(Play(s, front), last)
  {
    assert (front + [last])[..|front|] == front;
  }

  lemma PlayAppend(s: State, a: seq<Action>, b: seq<Action>)
    ensures Play(s, a + b) == Play(Play(s, a), b)
  {
    FoldAppend(Apply, s, a, b);
  }

  lemma PlayOne(s: State, a: Action)
    ensures Play(s, [a]) == Apply(s, a)
  {
    PlayLast(s, [], a);
    assert [] + [a] == [a];
  }

  lemma PlayPair(s: State, a: Action, b: Action)
    ensures Play(s, [a, b]) == Apply(Apply(s, a), b)
  {
    PlayOne(s, a);
    PlayLast(s, [a], b);
    assert [a] + [b] == [a, b];
  }

  predicate Undisturbed(acts: seq<Action>) {
    forall i | 0 <= i < |acts| :: !acts[i].QuotaBlock?
  }

  /** Run `r` has just POSTed execution `e`, with the recorded attempts unchanged since `s`. */
  predicate PostedBy(s: State, t: State, e: nat, r: nat) {
    && Inv(t) && CanFinish(t, r) && t.runs[r].exec == e && e < |t.execs| && t.execs[e].status == Delivering
    && e < |s.execs| && e < |t.execs| && t.execs[e].attempts == s.execs[e].attempts
    && e < |s.tally| && e < |t.tally| && s.tally[e].posted < t.tally[e].posted
  }

  lemma FromJob(s: State, e: nat, task: Task) returns (acts: seq<Action>, r: nat)
    requires Inv(s) && e < |s.execs| && s.execs[e].status == ExpectedStatus(task) && Job(e, task) in s.queue
    ensures Undisturbed(acts) && PostedBy(s, Play(s, acts), e, r)
  {
    r := s.nextRun;
    acts := [Claim(Job(e, task), false), Post(r)];
    PlayPair(s, acts[0], acts[1]);
    StepKeeps(s, acts[0]);
    StepKeeps(Apply(s, acts[0]), acts[1]);
  }

  /** An undispatched row can become a job, now or once it is due. */
  lemma RowBecomesJob(s: State, row: nat) returns (acts: seq<Action>)
    requires Inv(s) && row in s.outbox && !s.outbox[row].dispatched
    ensures var r, t := s.outbox[row], Play(s, acts);
      Inv(t) && t.execs == s.execs && t.tally == s.tally && Job(r.exec, r.task) in t.queue
    ensures Undisturbed(acts)
  {
    var due := s.outbox[row].scheduledAt;
    acts := [Tick(if due.Some? && s.clock < due.value then due.value else s.clock), Dispatch(row, Sent)];
    PlayPair(s, acts[0], acts[1]);
    StepKeeps(s, acts[0]);
    StepKeeps(Apply(s, acts[0]), acts[1]);
  }

  lemma FromTicket(s: State, e: nat, task: Task) returns (acts: seq<Action>, r: nat)
    requires Inv(s) && e < |s.execs| && s.execs[e].status == ExpectedStatus(task) && Ticket(s.queue, s.outbox, e, task)
    ensures Undisturbed(acts) && PostedBy(s, Play(s, acts), e, r)
  {
    if Job(e, task) in s.queue {
      acts, r := FromJob(s, e, task);
    } else {
      var row :| row in s.outbox && s.outbox[row].exec == e && s.outbox[row].task == task && !s.outbox[row].dispatched;
      var first := RowBecomesJob(s, row);
      var rest;
      rest, r := FromJob(Play(s, first), e, task);
      PlayAppend(s, first, rest);
      acts := first + rest;
    }
  }

  /** A retrying execution can become a retry row once its backoff is over. */
  lemma RetryBecomesRow(s: State, e: nat) returns (acts: seq<Action>)
    requires Inv(s) && e < |s.execs| && s.execs[e].status == Retrying
    ensures var t := Play(s, acts);
      && Inv(t) && |t.execs| == |s.execs| && t.execs[e].status == RetryReady
      && t.execs[e].attempts == s.execs[e].attempts && t.tally == s.tally
    ensures Undisturbed(acts)
  {
    assert Carried(s, e);
    var due := s.execs[e].nextRetry.value;
    var now := if s.clock < due then due else s.clock;
    acts := [Tick(now), PollRetry(e)];
    PlayPair(s, Tick(now), PollRetry(e));
    StepKeeps(s, Tick(now));
    var t := s.(clock := now);
    assert Apply(s, Tick(now)) == t;
    StepKeeps(t, PollRetry(e));
    DuePolled(t, e);
  }

  lemma DuePolled(s: State, e: nat)
    requires e < |s.execs| && RetryDue(s.execs[e], s.clock)
    ensures var t := Apply(s, PollRetry(e));
      && |t.execs| == |s.execs| && t.execs[e].status == RetryReady
      && t.execs[e].attempts == s.execs[e].attempts && t.tally == s.tally
  {
  }

  lemma FromRetrying(s: State, e: nat) returns (acts: seq<Action>, r: nat)
    requires Inv(s) && e < |s.execs| && s.execs[e].status == Retrying
    ensures Undisturbed(acts) && PostedBy(s, Play(s, acts), e, r)
  {
    var first := RetryBecomesRow(s, e);
    assert Carried(Play(s, first), e);
    var rest;
    rest, r := FromTicket(Play(s, first), e, Retry);
    PlayAppend(s, first, rest);
    acts := first + rest;
  }

  lemma FromDelivering(s: State, e: nat) returns (acts: seq<Action>, r: nat)
    requires Inv(s) && e < |s.execs| && s.execs[e].status == Delivering
    ensures Undisturbed(acts) && PostedBy(s, Play(s, acts), e, r)
  {
    var first := [Tick(s.clock + STALE_AFTER + 1.0), RecoverStale(e)];
    PlayPair(s, first[0], first[1]);
    StepKeeps(s, first[0]);
    RecoverKeeps(Apply(s, first[0]), e);
    var rest;
    rest, r := FromRetrying(Play(s, first), e);
    PlayAppend(s, first, rest);
    acts := first + rest;
  }

  /** From every state a run can reach, an open execution can be POSTed again. */
  lemma CanStillPost(s: State, e: nat) returns (acts: seq<Action>, r: nat)
    requires Inv(s) && e < |s.execs| && Open(s.execs[e].status)
    ensures Undisturbed(acts) && PostedBy(s, Play(s, acts), e, r)
  {
    assert Carried(s, e);
    match s.execs[e].status
    case Pending => acts, r := FromTicket(s, e, Deliver);
    case RetryReady => acts, r := FromTicket(s, e, Retry);
    case Retrying => acts, r := FromRetrying(s, e);
    case Delivering => acts, r := FromDelivering(s, e);
  }

  /** No execution is lost: whatever happened before, every open execution has a
      continuation in which it is delivered. */
  lemma NoExecutionIsLost(init: State, past: seq<Action>, e: nat) returns (future: seq<Action>)
    requires Initial(init)
    requires e < |Play(init, past).execs| && Open(Play(init, past).execs[e].status)
    ensures e < |Play(init, past + future).execs| && Play(init, past + future).execs[e].status == Success
    ensures Undisturbed(future)
  {
    InitialInv(init);
    RunKeeps(init, past);
    var s := Play(init, past);
    var acts, r := CanStillPost(s, e);
    future := acts + [Finish(r, true)];
    assert future[..|future| - 1] == acts;
    PlayAppend(init, past, future);
  }

  // ----- where the obvious claim fails -----

  /** Crashed attempts are never charged: from any open execution and for every `n`
      there is a continuation with at least `n` more POSTs and no recorded attempt. */
  lemma {:induction false} CrashesAreNeverCharged(s: State, e: nat, n: nat) returns (acts: seq<Action>)
    requires Inv(s) && e < |s.execs| && Open(s.execs[e].status)
    ensures Undisturbed(acts) && Inv(Play(s, acts))
    ensures e < |Play(s, acts).execs| && Open(Play(s, acts).execs[e].status)
    ensures Play(s, acts).execs[e].attempts == s.execs[e].attempts
    ensures Play(s, acts).tally[e].posted >= s.tally[e].posted + n
  {
    if n == 0 {
      acts := [];
    } else {
      var before := CrashesAreNeverCharged(s, e, n - 1);
      var t := Play(s, before);
      var again, r := CanStillPost(t, e);
      acts := before + again + [Crash(r)];
      assert acts[..|acts| - 1] == before + again;
      PlayAppend(s, before, again);
      var u := Play(t, again);
      assert Owned(u, r);
      StepKeeps(u, Crash(r));
    }
  }

  /** A one-cue database. */
  function OneCue(): State {
    State(0.0, [Cue(3, [1, 5, 15], 0)], [], map[], 0, {}, map[], 0, [])
  }

  /** A deliver job run twice: the first run succeeds, the second meets an exhausted quota. */
  function QuotaAfterSuccess(): seq<Action> {
    [Fire(0, None), Dispatch(0, Sent), Claim(Job(0, Deliver), true), Post(0), Finish(0, true),
     QuotaBlock(Job(0, Deliver), false)]
  }

  lemma {:induction false} PlayStep(s: State, acts: seq<Action>, i: nat)
    requires i < |acts|
    ensures Play(s, acts[..i + 1]) == Apply(Play(s, acts[..i]), acts[i])
  {
    assert acts[..i + 1][..i] == acts[..i];
  }

  /** Without confinement `success` is not absorbing: the second run of a duplicated
      deliver job turns a delivered execution into a failed one. */
  lemma QuotaBlockOverwritesSuccess()
    ensures Initial(OneCue())
    ensures var acts := QuotaAfterSuccess();
      && |Play(OneCue(), acts[..5]).execs| == 1 && Play(OneCue(), acts[..5]).execs[0].status == Success
      && |Play(OneCue(), acts).execs| == 1 && Play(OneCue(), acts).execs[0].status == Failed
  {
    var acts, done := QuotaAfterSuccess(), FirstThree() + [Post(0), Finish(0, true)];
    FirstClaim();
    FirstSuccess();
    assert acts[..5] == done && acts[..|acts| - 1] == done;
    PlayAppend(OneCue(), FirstThree(), [Post(0), Finish(0, true)]);
  }

  function FirstThree(): seq<Action> {
    [Fire(0, None), Dispatch(0, Sent), Claim(Job(0, Deliver), true)]
  }

  /** One execution, claimed by a run of a job that stays queued. */
  function Claimed(): State {
    OneCue().(
      execs := [Execution(0, Delivering, 0, None, 0.0)],
      outbox := map[0 := Row(0, Deliver, None, true, 0, 0.0)], nextRow := 1,
      queue := {Job(0, Deliver)}, runs := map[0 := Run(0, 0.0, None)], nextRun := 1, tally := [Tally(0, 0, None, [])])
  }

  lemma FirstClaim()
    ensures Play(OneCue(), FirstThree()) == Claimed()
  {
    var s0, acts := OneCue(), FirstThree();
    PlayStep(s0, acts, 0);
    PlayStep(s0, acts, 1);
    PlayStep(s0, acts, 2);
    assert acts[..0] == [] && acts[..3] == acts;
    var s1 := Apply(s0, acts[0]);
    assert s1.outbox == map[0 := Row(0, Deliver, None, false, 0, 0.0)] && s1.nextRow == 1;
    var s2 := Apply(s1, acts[1]);
    assert s2.outbox == map[0 := Row(0, Deliver, None, true, 0, 0.0)] && s2.queue == {Job(0, Deliver)};
  }

  /** The first attempt has succeeded; the job is still queued. */
  function Succeeded(): State {
    Claimed().(cues := [Cue(3, [1, 5, 15], 1)], execs := [Execution(0, Success, 1, None, 0.0)],
               runs := map[], tally := [Tally(1, 1, None, [PostedAt(0.0)])])
  }

  lemma NotesOfOnePost()
    ensures [] + [PostedAt(0.0)] == [PostedAt(0.0)] && [PostedAt(0.0)] + [] == [PostedAt(0.0)]
  {
  }

  lemma FirstSuccess()
    ensures Play(Claimed(), [Post(0), Finish(0, true)]) == Succeeded()
  {
    PlayPair(Claimed(), Post(0), Finish(0, true));
    var posted := Claimed().(runs := map[0 := Run(0, 0.0, Some(1))], tally := [Tally(1, 0, None, [PostedAt(0.0)])]);
    NotesOfOnePost();
    assert Apply(Claimed(), Post(0)) == posted;
    assert Apply(posted, Finish(0, true)) == Succeeded();
  }

  /** A deliver job run twice: the second run meets an exhausted quota while the first delivers. */
  function QuotaDuringAttempt(): seq<Action> {
    [Fire(0, None), Dispatch(0, Sent), Claim(Job(0, Deliver), true), QuotaBlock(Job(0, Deliver), false),
     Post(0), Finish(0, true)]
  }

  /** The claimed execution after the second run's quota write. */
  function Struck(): State {
    Claimed().(execs := [Execution(0, Failed, 0, None, 0.0)], queue := {})
  }

  lemma StrikeAndRevive()
    ensures Apply(Claimed(), QuotaBlock(Job(0, Deliver), false)) == Struck()
    ensures Play(Struck(), [Post(0), Finish(0, true)]) == Succeeded().(queue := {})
  {
    assert {Job(0, Deliver)} - {Job(0, Deliver)} == {};
    PlayPair(Struck(), Post(0), Finish(0, true));
    var posted := Struck().(runs := map[0 := Run(0, 0.0, Some(1))], tally := [Tally(1, 0, None, [PostedAt(0.0)])]);
    NotesOfOnePost();
    assert Apply(Struck(), Post(0)) == posted;
    assert Apply(posted, Finish(0, true)) == Succeeded().(queue := {});
  }

  /** Nor is `failed` absorbing, nor does a live attempt always mean `delivering`: the
      quota write fails the row under a live attempt, whose outcome then revives it. */
  lemma QuotaBlockDuringAttempt()
    ensures Initial(OneCue())
    ensures var acts := QuotaDuringAttempt();
      && Play(OneCue(), acts[..4]) == Struck() && 0 in Struck().runs && Live(Struck(), 0)
      && Struck().execs[0].status == Failed && !Delivers(Struck())
      && |Play(OneCue(), acts).execs| == 1 && Play(OneCue(), acts).execs[0].status == Success
  {
    var acts := QuotaDuringAttempt();
    FirstClaim();
    StrikeAndRevive();
    PlayStep(OneCue(), acts, 3);
    assert acts[..3] == FirstThree();
    PlayAppend(OneCue(), acts[..4], [Post(0), Finish(0, true)]);
    assert acts == acts[..4] + [Post(0), Finish(0, true)];
  }
}
