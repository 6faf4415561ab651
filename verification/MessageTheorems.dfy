/** What message delivery guarantees over whole runs, and exactly where it does not. */
module MessageTheorems {
  import opened Common
  import opened RetryAfter
  import opened MessageProtocol

  lemma PlayLast(w: World, front: seq<Action>, last: Action)
    ensures Play(w, front + [last]) == Apply(Play(w, front), last)
  {
    assert (front + [last])[..|front|] == front;
  }

  lemma PlayAppend(w: World, a: seq<Action>, b: seq<Action>)
    ensures Play(w, a + b) == Play(Play(w, a), b)
  {
    FoldAppend(Apply, w, a, b);
  }

  lemma PlayOne(w: World, a: Action)
    ensures Play(w, [a]) == Apply(w, a)
  {
    PlayLast(w, [], a);
    assert [] + [a] == [a];
  }

  lemma PlayPair(w: World, a: Action, b: Action)
    ensures Play(w, [a, b]) == Apply(Apply(w, a), b)
  {
    PlayOne(w, a);
    PlayLast(w, [a], b);
    assert [a] + [b] == [a, b];
  }

  // ----- every run, duplicated jobs included -----

  /** At most one push attempt is in flight in every interleaving. */
  lemma OnePushInFlight(init: World, acts: seq<Action>)
    requires Initial(init)
    ensures var w := Play(init, acts);
      forall i: nat, j: nat | i < |w.pushes| && j < |w.pushes| && Live(w, i) && Live(w, j) :: i == j
  {
    InitialInv(init);
    RunKeeps(init, acts);
  }

  lemma NothingForgottenStep(w: World, a: Action)
    ensures |w.pushes| <= |Apply(w, a).pushes| && (w.polled ==> Apply(w, a).polled)
  {
  }

  lemma {:induction false} NothingForgotten(w: World, acts: seq<Action>)
    ensures |Play(w, acts).pushes| >= |w.pushes|
    ensures w.polled ==> Play(w, acts).polled
  {
    if acts != [] {
      NothingForgotten(w, acts[..|acts| - 1]);
      NothingForgottenStep(Play(w, acts[..|acts| - 1]), acts[|acts| - 1]);
    }
  }

  /** A message leaves `queued` once: flipped by an inbox poll it is never pushed in any
      continuation, and once pushed it is never flipped. */
  lemma QueuedIsLeftOnce(init: World, past: seq<Action>, future: seq<Action>)
    requires Initial(init)
    ensures Play(init, past).polled ==> Play(init, past + future).pushes == []
    ensures Play(init, past).pushes != [] ==> !Play(init, past + future).polled
  {
    InitialInv(init);
    RunKeeps(init, past + future);
    PlayAppend(init, past, future);
    NothingForgotten(Play(init, past), future);
  }

  /** The outcome write of an attempt still in flight, and so claimed before. */
  predicate LateOutcome(w: World, a: Action) {
    a.Finish? && a.push < |w.pushes| && Live(w, a.push)
  }

  /** The write of a request that loaded the row before it became terminal: a read, or an
      ack of a message that has expired. */
  predicate LateMark(w: World, a: Action) {
    a.StoreMark? && a.req in w.marks && (w.marks[a.req] ==> w.msg.state == Expired)
  }

  /** One step leaves `acked` or `expired` if and only if it is a late outcome or a late mark. */
  lemma TerminalLeftIff(w: World, a: Action)
    requires Inv(w) && IsTerminal(w.msg.state) && !w.msg.gone
    ensures Apply(w, a).msg.state != w.msg.state <==> LateOutcome(w, a) || LateMark(w, a)
  {
  }

  lemma TerminalStep(w: World, a: Action)
    requires Inv(w) && IsTerminal(w.msg.state) && !PushOpen(w) && w.marks == map[]
    ensures var v := Apply(w, a);
      v.msg.state == w.msg.state && v.pushes == w.pushes && !PushOpen(v) && v.marks == map[]
  {
    if a.Finish? || a.Crash? {
      assert a.push < |w.pushes| ==> !Live(w, a.push);
      assert Apply(w, a) == w;
    }
  }

  /** With no attempt in flight and no request holding an older row, `acked` and `expired` are absorbing. */
  lemma {:induction false} TerminalAbsorbing(w: World, acts: seq<Action>)
    requires Inv(w) && IsTerminal(w.msg.state) && !PushOpen(w) && w.marks == map[]
    ensures Play(w, acts).msg.state == w.msg.state && !PushOpen(Play(w, acts))
    ensures Play(w, acts).pushes == w.pushes && Play(w, acts).marks == map[]
  {
    if acts != [] {
      TerminalAbsorbing(w, acts[..|acts| - 1]);
      RunKeeps(w, acts[..|acts| - 1]);
      TerminalStep(Play(w, acts[..|acts| - 1]), acts[|acts| - 1]);
    }
  }

  /** No push is forgotten: in every run, a message in `delivering` is stale, and so
      recoverable, once 300 s have passed from now, whatever became of its attempt. */
  lemma DeliveringGoesStale(init: World, acts: seq<Action>, now: Time)
    requires Initial(init)
    requires var w := Play(init, acts); w.msg.state == Delivering && now > w.clock + 300.0
    ensures IsStale(Play(init, acts).msg, now)
  {
    InitialInv(init);
    RunKeeps(init, acts);
  }

  /** The send time has come, or none was set. */
  predicate Reached(w: World) {
    w.msg.sendAt.Some? ==> w.clock >= w.msg.sendAt.value
  }

  predicate LateEnough(r: Row, sendAt: Option<Time>) {
    r.task == DeliverMessage && sendAt.Some? ==> r.scheduledAt.Some? && r.scheduledAt.value >= sendAt.value
  }

  /** Deliver rows wait for the send time; once a deliver job is out, or anything was pushed
      or polled, it has come. */
  predicate InTime(w: World) {
    && (forall i | 0 <= i < |w.rows| :: LateEnough(w.rows[i], w.msg.sendAt))
    && (forall k | 0 <= k < |w.queue| && w.queue[k].task == DeliverMessage :: Reached(w))
    && (w.pushes != [] || w.polled ==> Reached(w))
    && (forall i | 0 <= i < |w.pushes| && w.msg.sendAt.Some? :: w.pushes[i].start >= w.msg.sendAt.value)
  }

  lemma ReapedInTime(rows: seq<Row>, i: nat, sendAt: Option<Time>)
    requires i < |rows| && forall k | 0 <= k < |rows| :: LateEnough(rows[k], sendAt)
    ensures forall k | 0 <= k < |Without(rows, i)| :: LateEnough(Without(rows, i)[k], sendAt)
  {
    forall k | 0 <= k < |rows| - 1 ensures LateEnough(Without(rows, i)[k], sendAt) {
      assert Without(rows, i)[k] == rows[if k < i then k else k + 1];
    }
  }

  lemma RowsInTime(w: World, a: Action)
    requires Inv(w) && InTime(w)
    ensures var v := Apply(w, a);
      && v.msg.sendAt == w.msg.sendAt && w.clock <= v.clock
      && forall i | 0 <= i < |v.rows| :: LateEnough(v.rows[i], v.msg.sendAt)
  {
    if a.Reap? {
      if a.row < |w.rows| { ReapedInTime(w.rows, a.row, w.msg.sendAt); }
    } else if a.Recycle? && a.job < |w.queue| {
      assert w.queue[a.job].task == DeliverMessage ==> Reached(w);
    }
  }

  /** Where a queued job comes from. */
  lemma JobFrom(w: World, a: Action, j: Job)
    requires j in Apply(w, a).queue
    ensures j in w.queue ||
      (a.Dispatch? && a.row < |w.rows| && RowDue(w.rows[a.row], w.clock) && j == Job(w.rows[a.row].task, w.rows[a.row].attempt))
  {
  }

  lemma JobsInTime(w: World, a: Action)
    requires Inv(w) && InTime(w) && Apply(w, a).msg.sendAt == w.msg.sendAt && w.clock <= Apply(w, a).clock
    ensures forall k | 0 <= k < |Apply(w, a).queue| && Apply(w, a).queue[k].task == DeliverMessage :: Reached(Apply(w, a))
  {
    var v := Apply(w, a);
    forall k | 0 <= k < |v.queue| && v.queue[k].task == DeliverMessage ensures Reached(v) {
      JobFrom(w, a, v.queue[k]);
      if v.queue[k] in w.queue {
        var j :| 0 <= j < |w.queue| && w.queue[j] == v.queue[k];
      } else {
        assert LateEnough(w.rows[a.row], w.msg.sendAt);
      }
    }
  }

  lemma TakenInTime(w: World, a: Action)
    requires Inv(w) && InTime(w)
    ensures Apply(w, a).pushes != [] || Apply(w, a).polled ==> Reached(Apply(w, a))
  {
    if a.Claim? && a.job < |w.queue| { assert w.queue[a.job].task == DeliverMessage ==> Reached(w); }
  }

  lemma PushesInTime(w: World, a: Action)
    requires Inv(w) && InTime(w) && (Apply(w, a).pushes != [] ==> Reached(Apply(w, a)))
    ensures var v := Apply(w, a);
      forall i | 0 <= i < |v.pushes| && v.msg.sendAt.Some? :: v.pushes[i].start >= v.msg.sendAt.value
  {
  }

  lemma {:induction false} InTimeRun(w: World, acts: seq<Action>)
    requires Inv(w) && InTime(w)
    ensures InTime(Play(w, acts))
  {
    if acts != [] {
      var v, a := Play(w, acts[..|acts| - 1]), acts[|acts| - 1];
      InTimeRun(w, acts[..|acts| - 1]);
      RunKeeps(w, acts[..|acts| - 1]);
      RowsInTime(v, a);
      JobsInTime(v, a);
      TakenInTime(v, a);
      PushesInTime(v, a);
    }
  }

  /** In every run, duplicated jobs and cap recycles included, no message is pushed or
      handed to a poll before the time it was to be sent. */
  lemma SendAtIsHonoured(init: World, acts: seq<Action>)
    requires Initial(init) && init.msg.sendAt.Some?
    ensures var w := Play(init, acts);
      && (forall i | 0 <= i < |w.pushes| :: w.pushes[i].start >= init.msg.sendAt.value)
      && (w.polled ==> w.clock >= init.msg.sendAt.value)
  {
    InitialInv(init);
    InTimeRun(init, acts);
    SendAtFixed(init, acts);
  }

  lemma SendAtStep(w: World, a: Action)
    ensures Apply(w, a).msg.sendAt == w.msg.sendAt
  {
  }

  lemma {:induction false} SendAtFixed(w: World, acts: seq<Action>)
    ensures Play(w, acts).msg.sendAt == w.msg.sendAt
  {
    if acts != [] {
      SendAtFixed(w, acts[..|acts| - 1]);
      SendAtStep(Play(w, acts[..|acts| - 1]), acts[|acts| - 1]);
    }
  }

  /** A job sent back over the cap: the same task and attempt, undispatched, due in 30 s. */
  lemma RecycleColumns(w: World, k: nat)
    requires k < |w.queue| && !w.msg.gone && w.reachable
    ensures var v := Apply(w, Recycle(k, false));
      && v.msg == w.msg && v.pushes == w.pushes && v.queue == w.queue[..k] + w.queue[k + 1..]
      && v.rows == w.rows + [Row(w.queue[k].task, w.queue[k].attempt, Some(w.clock + 30.0), false, w.clock)]
  {
  }

  /** What the environment may do: time passes and never goes back; an attempt is lost; a job
      survives its lost transaction, or dies unread; the recipient comes and goes; and an
      attempt is live for 40 s. */
  lemma EnvironmentColumns(w: World, now: Time, i: nat, row: nat, k: nat, on: bool)
    ensures Apply(w, Tick(now)) == w.(clock := if w.clock <= now then now else w.clock)
    ensures Apply(w, Reach(on)) == w.(reachable := on)
    ensures i < |w.pushes| ==>
              (Live(w, i) <==> w.pushes[i].outcome == InFlight && w.clock <= w.pushes[i].start + 40.0)
    ensures i < |w.pushes| && Live(w, i) ==>
              Apply(w, Crash(i)) == w.(pushes := w.pushes[i := Push(w.pushes[i].start, w.pushes[i].attempt, Lost)])
    ensures row < |w.rows| && RowDue(w.rows[row], w.clock) ==>
              Apply(w, Dispatch(row, RolledBack)) == w.(queue := w.queue + [Job(w.rows[row].task, w.rows[row].attempt)])
    ensures k < |w.queue| ==> Apply(w, Die(k, false)) == w.(queue := w.queue[..k] + w.queue[k + 1..])
    ensures k < |w.queue| ==> Apply(w, Die(k, true)) == w
  {
  }

  /** A retryable result's row is inserted even where the message has been deleted meanwhile. */
  lemma FinishOfDeleted(w: World, i: nat, v: Verdict)
    requires i < |w.pushes| && Live(w, i) && w.msg.gone
    ensures var u := Apply(w, Finish(i, v));
      && u.msg == w.msg
      && (v.Retryable? && w.pushes[i].attempt < 4 ==>
            |u.rows| == |w.rows| + 1 && u.rows[|w.rows|].task == RetryMessage && u.rows[|w.rows|].attempt == w.pushes[i].attempt + 1)
  {
  }

  /** The outbox loses exactly dispatched rows more than seven days old. */
  lemma ReapedIff(w: World, i: nat)
    requires i < |w.rows|
    ensures Apply(w, Reap(i)).rows == w.rows[..i] + w.rows[i + 1..] || Apply(w, Reap(i)).rows == w.rows
    ensures |Apply(w, Reap(i)).rows| < |w.rows| <==> w.rows[i].dispatched && w.rows[i].createdAt < w.clock - 604800.0
  {
  }

  // ----- each row consumed once, no row of a live message reaped -----

  /** At most four push attempts, counting retries, recycles, crashes and stale recovery. */
  lemma AtMostFourPushes(init: World, acts: seq<Action>)
    requires Initial(init) && CarefulRun(init, acts)
    ensures |Play(init, acts).pushes| <= 4
  {
    InitialInv(init);
    CarefulRunOrderly(init, acts);
  }

  /** The header is a number of seconds, `digits`, between white space. */
  predicate DelaySeconds(header: Option<string>, before: string, digits: string, after: string) {
    && header == Some(before + digits + after) && digits != "" && (forall c | c in digits :: IsDigit(c))
    && (forall c | c in before :: IsSpace(c)) && (forall c | c in after :: IsSpace(c))
  }

  /** Consecutive attempts of one message, in order: nothing follows a success or a
      terminal refusal; after a retryable result the next attempt waits out both its
      backoff entry and any `Retry-After` seconds; after a lost attempt it waits out the
      stale threshold; and starts are at least 60 s apart. */
  lemma AttemptsAreSpaced(init: World, acts: seq<Action>, i: nat)
    requires Initial(init) && CarefulRun(init, acts)
    requires i + 1 < |Play(init, acts).pushes|
    ensures var p, q := Play(init, acts).pushes[i], Play(init, acts).pushes[i + 1];
      && p.attempt > i && q.start >= p.start + 60.0
      && (p.outcome.Came? ==>
            && p.outcome.verdict.Retryable?
            && q.start >= p.outcome.at + (if p.attempt == 1 then 60.0 else if p.attempt == 2 then 300.0 else 900.0)
            && forall before, digits, after | DelaySeconds(p.outcome.verdict.retryAfter, before, digits, after) ::
                 q.start >= p.outcome.at + DecimalValue(digits) as real)
      && (!p.outcome.Came? ==> q.start > p.start + 300.0)
  {
    InitialInv(init);
    CarefulRunOrderly(init, acts);
    RunKeeps(init, acts);
    var w := Play(init, acts);
    var p, q := w.pushes[i], w.pushes[i + 1];
    assert Spaced(w.pushes) && Ready(p, q.start);
    if p.outcome.Came? {
      var header := p.outcome.verdict.retryAfter;
      NeverBelowOwnMinimum(header, BackoffSeconds(p.attempt));
      forall before, digits, after | DelaySeconds(header, before, digits, after)
        ensures q.start >= p.outcome.at + DecimalValue(digits) as real
      {
        HonoursDelaySeconds(before, digits, after, BackoffSeconds(p.attempt));
      }
    }
  }

  /** A message waiting for a retry has a row or a job that will retry it. */
  predicate Carried(w: World) {
    w.msg.state == RetryReady ==> DispatchedCount(w.rows) < |w.rows| || w.queue != []
  }

  lemma DispatchCarries(w: World, i: nat, result: DispatchResult)
    requires Carried(w) && result != RolledBack
    ensures Carried(Apply(w, Dispatch(i, result)))
  {
    if i < |w.rows| && RowDue(w.rows[i], w.clock) { CountFlip(w.rows, i); }
  }

  /** A claim by the retry job leaves `retry_ready`; no other job can be queued there. */
  lemma ClaimCarries(w: World, k: nat)
    requires Inv(w) && Orderly(w) && Carried(w) && w.reachable
    ensures Carried(Apply(w, Claim(k, false)))
  {
    if k < |w.queue| { assert JobOk(w.pushes, w.clock, w.queue[k]); }
  }

  lemma RecycleCarries(w: World, k: nat, redelivered: bool)
    requires Inv(w) && Carried(w) && w.reachable
    ensures Carried(Apply(w, Recycle(k, redelivered)))
  {
    if k < |w.queue| { CountAppend(w.rows, [RecycledRow(w.queue[k], w.clock)]); }
  }

  lemma FinishCarries(w: World, i: nat, verdict: Verdict)
    requires Inv(w) && Carried(w)
    ensures Carried(Apply(w, Finish(i, verdict)))
  {
    if i < |w.pushes| && Live(w, i) {
      CountAppend(w.rows, RoutedRows(w.pushes[i].attempt, verdict, w.clock));
    }
  }

  lemma RecoverCarries(w: World)
    requires Carried(w)
    ensures Carried(Apply(w, RecoverStale))
  {
    CountAppend(w.rows, RecoveredRows(DispatchedCount(w.rows), w.clock));
  }

  /** The other steps bring no message to `retry_ready` and take no row or job from one. */
  lemma OthersCarry(w: World, a: Action)
    requires Carried(w) && Careful(w, a)
    requires !(a.Dispatch? || a.Claim? || a.Recycle? || a.Die? || a.Finish? || a.RecoverStale?)
    ensures Carried(Apply(w, a))
  {
    assert Apply(w, a).msg.state == RetryReady ==> w.msg.state == RetryReady;
    assert Apply(w, a).queue == w.queue;
    if a.Reap? && a.row < |w.rows| && w.rows[a.row].dispatched {
      CountWithout(w.rows, a.row);
    }
  }

  /** A run of the retry job that dies before its claim, or finds no webhook to push to
      (or an agent or the user gone), and returns. */
  predicate Strands(w: World, a: Action) {
    && w.msg.state == RetryReady
    && (a.Die? || ((a.Claim? || a.Recycle?) && !w.reachable))
    && a.job < |w.queue|
  }

  /** The only job is consumed and nothing else happens. */
  lemma UnservedStrands(w: World, a: Action)
    requires Inv(w) && Orderly(w) && Careful(w, a) && Strands(w, a)
    ensures !Carried(Apply(w, a))
  {
    ConsumeOrderly(w, a.job);
    assert Apply(w, a) == w.(queue := []);
  }

  /** One step strands a message in `retry_ready` if and only if it runs the retry job
      while the recipient cannot be reached, or dies before the claim. */
  lemma StrandedIff(w: World, a: Action)
    requires Inv(w) && Orderly(w) && Careful(w, a) && Carried(w)
    ensures !Carried(Apply(w, a)) <==> Strands(w, a)
  {
    if Strands(w, a) {
      UnservedStrands(w, a);
    } else {
      match a
      case Dispatch(i, result) => DispatchCarries(w, i, result);
      case Claim(k, redelivered) => if w.reachable { ClaimCarries(w, k); }
      case Recycle(k, redelivered) => if w.reachable { RecycleCarries(w, k, redelivered); }
      case Die(k, redelivered) =>
      case Finish(i, v) => FinishCarries(w, i, v);
      case RecoverStale => RecoverCarries(w);
      case _ => OthersCarry(w, a);
    }
  }

  /** In `retry_ready` or past it, with no attempt in flight and nothing to start one. */
  predicate Stranded(w: World) {
    && w.msg.state in {RetryReady, Read, Acked, Expired} && !PushOpen(w)
    && w.queue == [] && DispatchedCount(w.rows) == |w.rows|
  }

  /** With no job, no undispatched row and nothing in flight, most steps find nothing to do. */
  lemma NothingToDo(w: World, a: Action)
    requires w.queue == [] && w.msg.state != Delivering
    requires forall i | 0 <= i < |w.rows| :: w.rows[i].dispatched
    requires forall i: nat | i < |w.pushes| :: !Live(w, i)
    requires a.Dispatch? || a.Claim? || a.Recycle? || a.Die? || a.RecoverStale? || a.Finish? || a.Crash?
    ensures Apply(w, a) == w
  {
  }

  lemma LastNotLive(w: World)
    requires Inv(w) && !PushOpen(w)
    ensures forall i: nat | i < |w.pushes| :: !Live(w, i)
  {
  }

  lemma QuietStranded(w: World, a: Action)
    requires Stranded(w)
    requires a.Poll? || a.LoadMark? || a.StoreMark? || a.Expire? || a.Delete? || a.Reach?
    ensures Stranded(Apply(w, a)) && Apply(w, a).pushes == w.pushes
  {
    QuietStep(w, a);
  }

  lemma TickStranded(w: World, now: Time)
    requires Stranded(w)
    ensures Stranded(Apply(w, Tick(now))) && Apply(w, Tick(now)).pushes == w.pushes
  {
  }

  lemma ReapStranded(w: World, i: nat)
    requires Stranded(w)
    ensures Stranded(Apply(w, Reap(i))) && Apply(w, Reap(i)).pushes == w.pushes
  {
    if i < |w.rows| && w.rows[i].dispatched { CountWithout(w.rows, i); }
  }

  lemma StrandedStep(w: World, a: Action)
    requires Inv(w) && Stranded(w)
    ensures Stranded(Apply(w, a)) && Apply(w, a).pushes == w.pushes
  {
    if a.Tick? {
      TickStranded(w, a.now);
    } else if a.Reap? {
      ReapStranded(w, a.row);
    } else if a.Poll? || a.LoadMark? || a.StoreMark? || a.Expire? || a.Delete? || a.Reach? {
      QuietStranded(w, a);
    } else {
      AllDispatched(w.rows);
      LastNotLive(w);
      NothingToDo(w, a);
    }
  }

  lemma {:induction false} StaysStranded(w: World, acts: seq<Action>)
    requires Inv(w) && Stranded(w)
    ensures Stranded(Play(w, acts)) && Play(w, acts).pushes == w.pushes
  {
    if acts != [] {
      var n := |acts| - 1;
      StaysStranded(w, acts[..n]);
      RunKeeps(w, acts[..n]);
      StrandedStep(Play(w, acts[..n]), acts[n]);
    }
  }

  /** Stranded is for good: no continuation pushes the message again, even if the
      recipient can be reached again, and only the recipient or expiry moves it. */
  lemma StrandedForGood(w: World, acts: seq<Action>)
    requires Inv(w) && !Carried(w)
    ensures Play(w, acts).pushes == w.pushes && Play(w, acts).queue == []
    ensures Play(w, acts).msg.state in {RetryReady, Read, Acked, Expired}
  {
    StaysStranded(w, acts);
  }

  predicate StrandedAt(w: World, acts: seq<Action>, i: nat)
    requires i < |acts|
  {
    Strands(Play(w, acts[..i]), acts[i])
  }

  predicate WasStranded(w: World, acts: seq<Action>) {
    exists i: nat | i < |acts| :: StrandedAt(w, acts, i)
  }

  lemma WasStrandedStep(w: World, front: seq<Action>, last: Action)
    ensures WasStranded(w, front + [last]) <==> WasStranded(w, front) || Strands(Play(w, front), last)
  {
    var acts, n := front + [last], |front|;
    assert acts[..n] == front && acts[n] == last;
    forall i: nat | i < n ensures StrandedAt(w, acts, i) == StrandedAt(w, front, i) {
      assert acts[..i] == front[..i];
    }
    if Strands(Play(w, front), last) { assert StrandedAt(w, acts, n); }
    if i: nat :| i < n && StrandedAt(w, front, i) { assert StrandedAt(w, acts, i); }
    if WasStranded(w, acts) {
      var i: nat :| i < |acts| && StrandedAt(w, acts, i);
      assert i < n ==> StrandedAt(w, front, i);
    }
  }

  lemma CarefulFront(w: World, acts: seq<Action>)
    requires CarefulRun(w, acts) && acts != []
    ensures CarefulRun(w, acts[..|acts| - 1]) && Careful(Play(w, acts[..|acts| - 1]), acts[|acts| - 1])
  {
    var n := |acts| - 1;
    forall i | 0 <= i < n ensures Careful(Play(w, acts[..n][..i]), acts[..n][i]) {
      assert acts[..n][..i] == acts[..i];
    }
    assert Careful(Play(w, acts[..n]), acts[n]);
  }

  lemma {:induction false} StrandedSoFar(init: World, acts: seq<Action>)
    requires Initial(init) && CarefulRun(init, acts)
    ensures WasStranded(init, acts) ==> Stranded(Play(init, acts))
    ensures !Carried(Play(init, acts)) ==> WasStranded(init, acts)
  {
    if acts != [] {
      var front, last := acts[..|acts| - 1], acts[|acts| - 1];
      var w := Play(init, front);
      CarefulFront(init, acts);
      StrandedSoFar(init, front);
      InitialInv(init);
      RunKeeps(init, front);
      CarefulRunOrderly(init, front);
      assert acts == front + [last];
      WasStrandedStep(init, front, last);
      if WasStranded(init, front) {
        StrandedStep(w, last);
      } else {
        StrandedIff(w, last);
        if Strands(w, last) {
          StepKeeps(w, last);
          assert Stranded(Apply(w, last));
        }
      }
    }
  }

  /** Over whole careful runs: a message waits in `retry_ready` with nothing to retry it if
      and only if it is in `retry_ready` and some run of its job found no webhook there or
      died before the claim. */
  lemma StrandedRunIff(init: World, acts: seq<Action>)
    requires Initial(init) && CarefulRun(init, acts)
    ensures !Carried(Play(init, acts)) <==> Play(init, acts).msg.state == RetryReady && WasStranded(init, acts)
  {
    StrandedSoFar(init, acts);
  }

  // ----- why the conditions are needed -----

  /** A message just created for an agent with a webhook, to be sent now. */
  predicate Fresh(w: World) {
    Initial(w) && w.reachable && w.msg.sendAt.None?
  }

  /** Its first push: dispatch, then claim. */
  function Pushed(w: World): World
    requires Fresh(w)
  {
    w.(msg := w.msg.(state := Delivering, startedAt := Some(w.clock)),
       rows := [w.rows[0].(dispatched := true)],
       pushes := [Push(w.clock, 1, InFlight)])
  }

  lemma FirstPush(w: World)
    requires Fresh(w)
    ensures Play(w, [Dispatch(0, Sent), Claim(0, false)]) == Pushed(w)
    ensures Inv(Pushed(w))
  {
    var u := Apply(w, Dispatch(0, Sent));
    assert u == w.(queue := [Job(DeliverMessage, 1)], rows := [w.rows[0].(dispatched := true)]);
    assert Apply(u, Claim(0, false)) == Pushed(w);
    PlayPair(w, Dispatch(0, Sent), Claim(0, false));
  }

  /** The recipient acks, load and store together. */
  lemma AckNow(w: World)
    requires WillMark(w.msg, true) && w.marks == map[]
    ensures Play(w, [LoadMark(0, true), StoreMark(0)]) == w.(msg := Marked(w.msg, true, w.clock))
  {
    PlayPair(w, LoadMark(0, true), StoreMark(0));
    assert (map[0 := true]) - {0} == map[];
  }

  /** An outcome can overwrite a terminal state: if the recipient acks while the push is
      in flight, the late result puts the message back to `delivered`. */
  lemma LateOutcomeOverwritesAck(w: World)
    requires Fresh(w)
    ensures var acked := [Dispatch(0, Sent), Claim(0, false)] + [LoadMark(0, true), StoreMark(0)];
      Play(w, acked).msg.state == Acked && Play(w, acked + [Finish(0, Ok)]).msg.state == Delivered
  {
    var first, ack := [Dispatch(0, Sent), Claim(0, false)], [LoadMark(0, true), StoreMark(0)];
    FirstPush(w);
    AckNow(Pushed(w));
    PlayAppend(w, first, ack);
    assert (first + ack + [Finish(0, Ok)])[..4] == first + ack;
  }

  /** A read request that loaded the row before the ack was stored overwrites the ack. */
  lemma LateReadOverwritesAck(w: World)
    requires Fresh(w)
    ensures var acked := [LoadMark(0, false), LoadMark(1, true)] + [StoreMark(1)];
      Play(w, acked).msg.state == Acked && Play(w, acked + [StoreMark(0)]).msg.state == Read
  {
    var load := [LoadMark(0, false), LoadMark(1, true)];
    PlayPair(w, load[0], load[1]);
    var loaded := w.(marks := map[0 := false, 1 := true]);
    assert Apply(Apply(w, load[0]), load[1]) == loaded;
    assert (load + [StoreMark(1)])[..2] == load;
    assert Play(w, load + [StoreMark(1)]) == Apply(loaded, StoreMark(1));
    assert (load + [StoreMark(1)] + [StoreMark(0)])[..3] == load + [StoreMark(1)];
  }

  /** A retry job that the queue keeps redelivering carries its old attempt number, so
      the budget never runs out, nor does it wait: for every `n` there is a run with `n`
      more pushes, all at one moment. */
  lemma {:induction false} DuplicatedRetryJob(w: World, n: nat) returns (acts: seq<Action>)
    requires Inv(w) && w.reachable && w.msg.state == RetryReady && w.queue == [Job(RetryMessage, 2)]
    ensures |Play(w, acts).pushes| == |w.pushes| + n
    ensures forall j | |w.pushes| <= j < |w.pushes| + n :: Play(w, acts).pushes[j].start == w.clock
    ensures Play(w, acts).pushes[..|w.pushes|] == w.pushes
    ensures forall i | 0 <= i < |acts| :: !acts[i].Reap?
    decreases n
  {
    if n == 0 {
      acts := [];
    } else {
      var v := DuplicateRun(w);
      var rest := DuplicatedRetryJob(v, n - 1);
      acts := [Claim(0, true), Finish(|w.pushes|, Retryable(None))] + rest;
      PlayAppend(w, [Claim(0, true), Finish(|w.pushes|, Retryable(None))], rest);
      StartsExtend(w.pushes, v.pushes, Play(v, rest).pushes, n, w.clock);
    }
  }

  lemma StartsExtend(before: seq<Push>, one: seq<Push>, all: seq<Push>, n: nat, now: Time)
    requires n >= 1 && |one| == |before| + 1 && one[..|before|] == before && one[|before|].start == now
    requires |all| == |one| + n - 1 && all[..|one|] == one
    requires forall j | |one| <= j < |one| + n - 1 :: all[j].start == now
    ensures |all| == |before| + n && all[..|before|] == before
    ensures forall j | |before| <= j < |before| + n :: all[j].start == now
  {
    assert all[|before|] == all[..|one|][|before|];
    assert all[..|before|] == all[..|one|][..|before|];
  }

  /** One run of a redelivered retry job, with a retryable result. */
  lemma DuplicateRun(w: World) returns (v: World)
    requires Inv(w) && w.reachable && w.msg.state == RetryReady && w.queue == [Job(RetryMessage, 2)]
    ensures v == Play(w, [Claim(0, true), Finish(|w.pushes|, Retryable(None))])
    ensures Inv(v) && v.reachable && v.msg.state == RetryReady && v.queue == w.queue && v.clock == w.clock
    ensures |v.pushes| == |w.pushes| + 1 && v.pushes[|w.pushes|].start == w.clock && v.pushes[..|w.pushes|] == w.pushes
  {
    var u := Apply(w, Claim(0, true));
    v := Apply(u, Finish(|w.pushes|, Retryable(None)));
    StepKeeps(w, Claim(0, true));
    StepKeeps(u, Finish(|w.pushes|, Retryable(None)));
    PlayPair(w, Claim(0, true), Finish(|w.pushes|, Retryable(None)));
  }

  /** The first result was retryable, and a minute has passed. */
  function RetryDueWorld(w: World): World
    requires Fresh(w)
  {
    Pushed(w).(clock := w.clock + 60.0,
               msg := w.msg.(state := RetryReady, startedAt := None),
               rows := Pushed(w).rows + [Row(RetryMessage, 2, Some(w.clock + 60.0), false, w.clock)],
               pushes := [Push(w.clock, 1, Came(Retryable(None), w.clock))])
  }

  lemma RetryableFirstResult(w: World)
    requires Fresh(w)
    ensures Play(Pushed(w), [Finish(0, Retryable(None)), Tick(w.clock + 60.0)]) == RetryDueWorld(w)
  {
    PlayPair(Pushed(w), Finish(0, Retryable(None)), Tick(w.clock + 60.0));
    assert RoutedRows(1, Retryable(None), w.clock) == [Row(RetryMessage, 2, Some(w.clock + 60.0), false, w.clock)];
  }

  /** After that minute, the retry job is queued. */
  lemma FirstRetry(w: World) returns (acts: seq<Action>)
    requires Fresh(w)
    ensures Inv(Play(w, acts)) && Play(w, acts).reachable && Play(w, acts).msg.state == RetryReady
    ensures Play(w, acts).queue == [Job(RetryMessage, 2)] && |Play(w, acts).pushes| == 1
    ensures DispatchedCount(Play(w, acts).rows) == |Play(w, acts).rows|
    ensures forall i | 0 <= i < |acts| :: !acts[i].Reap?
  {
    var first, second := [Dispatch(0, Sent), Claim(0, false)], [Finish(0, Retryable(None)), Tick(w.clock + 60.0)];
    FirstPush(w);
    RetryableFirstResult(w);
    PlayAppend(w, first, second);
    var v := RetryDueWorld(w);
    assert Play(w, first + second) == v;
    acts := first + second + [Dispatch(1, Sent)];
    assert acts[..|acts| - 1] == first + second;
    InitialInv(w);
    RunKeeps(w, acts);
    RetryRowsDispatched(w);
    SecondDispatch(w, v);
  }

  lemma SecondDispatch(w: World, v: World)
    requires Fresh(w) && v == RetryDueWorld(w)
    ensures var u := Apply(v, Dispatch(1, Sent));
      u.reachable && u.msg.state == RetryReady && u.queue == [Job(RetryMessage, 2)] && |u.pushes| == 1
  {
  }

  lemma RetryRowsDispatched(w: World)
    requires Fresh(w)
    ensures var rows := Apply(RetryDueWorld(w), Dispatch(1, Sent)).rows; DispatchedCount(rows) == |rows| == 2
  {
    var rows := RetryDueWorld(w).rows;
    CountAppend([rows[0]], [rows[1]]);
    assert rows == [rows[0]] + [rows[1]] && [rows[0]][..0] == [] && [rows[1]][..0] == [];
    CountFlip(rows, 1);
  }

  /** A webhook cleared between a retryable result and its retry does strand the message. */
  lemma ClearedWebhookStrands(w: World) returns (acts: seq<Action>)
    requires Fresh(w)
    ensures Play(w, acts).msg.state == RetryReady && !Carried(Play(w, acts))
  {
    var first := FirstRetry(w);
    var v := Play(w, first);
    acts := first + [Reach(false), Claim(0, false)];
    PlayAppend(w, first, [Reach(false), Claim(0, false)]);
    PlayPair(v, Reach(false), Claim(0, false));
    assert Without(v.queue, 0) == [];
  }

  /** Duplicated jobs break the budget of every fresh message, by any amount, and with it
      the spacing and the backoff: all pushes but the first start at one moment. */
  lemma DuplicatesBreakTheBudget(w: World, n: nat) returns (acts: seq<Action>)
    requires Fresh(w)
    ensures |Play(w, acts).pushes| > n
    ensures forall j, k | 1 <= j < k < |Play(w, acts).pushes| ::
              Play(w, acts).pushes[j].start == Play(w, acts).pushes[k].start
    ensures forall i | 0 <= i < |acts| :: !acts[i].Reap?
  {
    var first := FirstRetry(w);
    var rest := DuplicatedRetryJob(Play(w, first), n);
    PlayAppend(w, first, rest);
    acts := first + rest;
  }

  predicate ConsumesOnce(a: Action) {
    match a
    case Claim(_, redelivered) => !redelivered
    case Recycle(_, redelivered) => !redelivered
    case Die(_, redelivered) => !redelivered
    case Dispatch(_, result) => result != RolledBack
    case _ => true
  }

  /** Delivering, with the one row that led to it dispatched. */
  predicate MidPush(w: World) {
    && Inv(w) && w.reachable && w.msg.state == Delivering && w.queue == []
    && |w.rows| == 1 && w.rows[0].dispatched && w.rows[0].createdAt <= w.clock
  }

  /** A crashed push, left for a week, reaped and then recovered: attempt one again. */
  function Recovered(w: World, later: Time): World {
    w.(clock := later, msg := w.msg.(state := RetryReady, startedAt := None),
       rows := [Row(RetryMessage, 1, Some(later), false, later)])
  }

  lemma ReapedThenRecovered(w: World, later: Time) returns (acts: seq<Action>)
    requires MidPush(w) && later == w.clock + 8.0 * DAY
    ensures Play(w, acts) == Recovered(w, later)
    ensures forall i | 0 <= i < |acts| :: ConsumesOnce(acts[i])
  {
    ReapTheRow(w, later);
    PlayPair(w, Tick(later), Reap(0));
    PlayAppend(w, [Tick(later), Reap(0)], [RecoverStale]);
    var reaped := w.(clock := later, rows := []);
    assert [RecoverStale][..0] == [] && Play(reaped, [RecoverStale]) == Apply(reaped, RecoverStale);
    acts := [Tick(later), Reap(0)] + [RecoverStale];
  }

  lemma ReapTheRow(w: World, later: Time)
    requires MidPush(w) && later == w.clock + 8.0 * DAY
    ensures Apply(Apply(w, Tick(later)), Reap(0)) == w.(clock := later, rows := [])
    ensures Apply(w.(clock := later, rows := []), RecoverStale) == Recovered(w, later)
  {
    assert Without(w.rows, 0) == [];
  }

  function PushedAgain(v: World): World {
    v.(msg := v.msg.(state := Delivering, startedAt := Some(v.clock)),
       rows := [Row(RetryMessage, 1, Some(v.clock), true, v.clock)],
       pushes := v.pushes + [Push(v.clock, 1, InFlight)])
  }

  lemma RecoveredThenPushed(v: World) returns (acts: seq<Action>)
    requires v.reachable && v.msg.state == RetryReady && !v.msg.gone && v.queue == []
    requires v.rows == [Row(RetryMessage, 1, Some(v.clock), false, v.clock)]
    ensures Play(v, acts) == PushedAgain(v)
    ensures forall i | 0 <= i < |acts| :: ConsumesOnce(acts[i])
  {
    var u := Apply(v, Dispatch(0, Sent));
    assert u == v.(rows := [Row(RetryMessage, 1, Some(v.clock), true, v.clock)], queue := [Job(RetryMessage, 1)]);
    assert Without(u.queue, 0) == [];
    PlayPair(v, Dispatch(0, Sent), Claim(0, false));
    acts := [Dispatch(0, Sent), Claim(0, false)];
  }

  /** One such week adds a push and leaves the message as it was found. */
  lemma CrashedForAWeek(w: World) returns (acts: seq<Action>)
    requires MidPush(w)
    ensures MidPush(Play(w, acts)) && |Play(w, acts).pushes| == |w.pushes| + 1
    ensures forall i | 0 <= i < |acts| :: ConsumesOnce(acts[i])
  {
    var later := w.clock + 8.0 * DAY;
    var wait := ReapedThenRecovered(w, later);
    var again := RecoveredThenPushed(Recovered(w, later));
    PlayAppend(w, wait, again);
    acts := wait + again;
    RunKeeps(w, acts);
  }

  lemma {:induction false} ReapedRows(w: World, n: nat) returns (acts: seq<Action>)
    requires MidPush(w)
    ensures |Play(w, acts).pushes| == |w.pushes| + n
    ensures forall i | 0 <= i < |acts| :: ConsumesOnce(acts[i])
    decreases n
  {
    if n == 0 {
      acts := [];
    } else {
      var week := CrashedForAWeek(w);
      var rest := ReapedRows(Play(w, week), n - 1);
      PlayAppend(w, week, rest);
      acts := week + rest;
    }
  }

  /** Reaping the rows of a live message resets the count that stale recovery charges:
      with every job consumed once, the budget still breaks by any amount. */
  lemma ReapingBreaksTheBudget(w: World, n: nat) returns (acts: seq<Action>)
    requires Fresh(w)
    ensures |Play(w, acts).pushes| > n
    ensures forall i | 0 <= i < |acts| :: ConsumesOnce(acts[i])
  {
    var first := [Dispatch(0, Sent), Claim(0, false)];
    FirstPush(w);
    var rest := ReapedRows(Pushed(w), n);
    PlayAppend(w, first, rest);
    acts := first + rest;
  }
}
