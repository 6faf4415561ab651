/** The life of one message under push delivery, inbox polling, user steps, expiry and
    stale recovery, as a state machine over its row, its outbox rows and its jobs.

    Messages do not share rows, so a whole database is one such machine per message
    under a common clock. An action whose guard fails changes nothing. */
module MessageProtocol {
  import opened Common
  import opened RetryAfter

  const ATTEMPT_LIFETIME: Time := 40.0
  const STALE_AFTER: Time := 300.0
  const OUTBOX_RETENTION: Time := 7.0 * DAY
  const HARD_DELETE_AFTER: Time := 7.0 * DAY
  const RECYCLE_DELAY: Time := 30.0

  /** One initial attempt and `MESSAGE_RETRY_MAX_ATTEMPTS` = 3 retries. */
  const MAX_TOTAL_ATTEMPTS: nat := 4
  const BACKOFF_MINUTES: seq<int> := [1, 5, 15]

  datatype DeliveryState = Queued | Delivering | RetryReady | Delivered | Read | Acked | Expired | Failed

  datatype Message = Message(
    state: DeliveryState,
    startedAt: Option<Time>,
    sendAt: Option<Time>,
    expiresAt: Time,
    ackedAt: Option<Time>,
    gone: bool)

  datatype Task = DeliverMessage | RetryMessage

  /** An outbox row of this message; `attempt` is its payload's, 1 for a first delivery. */
  datatype Row = Row(task: Task, attempt: nat, scheduledAt: Option<Time>, dispatched: bool, createdAt: Time)

  datatype Job = Job(task: Task, attempt: nat)

  /** What a push attempt comes back with, after classification. */
  datatype Verdict = Ok | Retryable(retryAfter: Option<string>) | Terminal

  datatype Outcome =
    | InFlight
    | Lost
    | Came(verdict: Verdict, at: Time)

  /** One claimed push attempt, and so at most one POST. */
  datatype Push = Push(start: Time, attempt: nat, outcome: Outcome)

  /** `marks` are the read and ack requests (true for an ack) that have loaded the row and
      not yet written it. `reachable`: the recipient has a webhook, and sender, recipient and user exist. */
  datatype World = World(
    clock: Time,
    msg: Message,
    rows: seq<Row>,
    queue: seq<Job>,
    pushes: seq<Push>,
    polled: bool,
    reachable: bool,
    marks: map<nat, bool>)

  datatype DispatchResult = Sent | EnqueueFailed | RolledBack

  datatype Action =
    | Tick(now: Time)
    | Dispatch(row: nat, result: DispatchResult)
    | Claim(job: nat, redelivered: bool)
    | Recycle(job: nat, redelivered: bool)
    | Die(job: nat, redelivered: bool)
    | Reach(on: bool)
    | Finish(push: nat, verdict: Verdict)
    | Crash(push: nat)
    | Poll
    | LoadMark(req: nat, ack: bool)
    | StoreMark(req: nat)
    | Expire
    | Delete
    | RecoverStale
    | Reap(row: nat)

  // ----- what each transaction decides -----

  function BackoffSeconds(attempt: nat): int {
    BACKOFF_MINUTES[Max(0, Min(attempt - 1, |BACKOFF_MINUTES| - 1))] * 60
  }

  function RetryDelay(attempt: nat, retryAfter: Option<string>): int {
    ParseRetryAfter(retryAfter, BackoffSeconds(attempt))
  }

  /** `_route_attempt_outcome`: the state written, and the retry row inserted if any. */
  function RoutedState(attempt: nat, v: Verdict): DeliveryState {
    if v.Ok? then Delivered
    else if v.Retryable? && attempt < MAX_TOTAL_ATTEMPTS then RetryReady
    else Failed
  }

  function RoutedRows(attempt: nat, v: Verdict, now: Time): seq<Row> {
    if v.Retryable? && attempt < MAX_TOTAL_ATTEMPTS then
      [Row(RetryMessage, attempt + 1, Some(now + RetryDelay(attempt, v.retryAfter) as real), false, now)]
    else []
  }

  /** `recover_stale_message_deliveries`: charge one attempt per dispatched row. */
  function RecoveredState(dispatched: nat): DeliveryState {
    if dispatched < MAX_TOTAL_ATTEMPTS then RetryReady else Failed
  }

  function RecoveredRows(dispatched: nat, now: Time): seq<Row> {
    if dispatched < MAX_TOTAL_ATTEMPTS then [Row(RetryMessage, dispatched + 1, Some(now), false, now)] else []
  }

  function DispatchedCount(rows: seq<Row>): (n: nat)
    ensures n <= |rows|
  {
    if rows == [] then 0
    else DispatchedCount(rows[..|rows| - 1]) + if rows[|rows| - 1].dispatched then 1 else 0
  }

  function ExpectedState(task: Task): DeliveryState {
    match task
    case DeliverMessage => Queued
    case RetryMessage => RetryReady
  }

  predicate IsStale(m: Message, now: Time) {
    !m.gone && m.state == Delivering && m.startedAt.Some? && m.startedAt.value < now - STALE_AFTER
  }

  /** The predicate of the inbox UPDATE, apart from the addressee. */
  predicate PollFlips(m: Message, now: Time) {
    !m.gone && m.state == Queued && (m.sendAt.None? || m.sendAt.value <= now)
  }

  predicate IsTerminal(st: DeliveryState) {
    st == Acked || st == Expired
  }

  predicate CanExpire(m: Message, now: Time) {
    !m.gone && m.expiresAt < now && !IsTerminal(m.state)
  }

  predicate CanDelete(m: Message, now: Time) {
    && !m.gone
    && (|| (m.state == Acked && m.ackedAt.Some? && m.ackedAt.value < now - HARD_DELETE_AFTER)
        || (m.state == Expired && m.expiresAt < now - HARD_DELETE_AFTER))
  }

  predicate RowDue(r: Row, now: Time) {
    !r.dispatched && (r.scheduledAt.None? || r.scheduledAt.value <= now)
  }

  // ----- the steps -----

  predicate Live(w: World, i: nat)
    requires i < |w.pushes|
  {
    w.pushes[i].outcome.InFlight? && w.clock <= w.pushes[i].start + ATTEMPT_LIFETIME
  }

  function Without<T>(s: seq<T>, i: nat): seq<T>
    requires i < |s|
  {
    s[..i] + s[i + 1..]
  }

  function Consume(queue: seq<Job>, k: nat, redelivered: bool): seq<Job>
    requires k < |queue|
  {
    if redelivered then queue else Without(queue, k)
  }

  function ApplyDispatch(w: World, i: nat, result: DispatchResult): World {
    if i < |w.rows| && RowDue(w.rows[i], w.clock) then
      var job := Job(w.rows[i].task, w.rows[i].attempt);
      match result
      case Sent => w.(queue := w.queue + [job], rows := w.rows[i := w.rows[i].(dispatched := true)])
      case EnqueueFailed => w
      case RolledBack => w.(queue := w.queue + [job])
    else w
  }

  /** `_load_message_context`: a job run goes on only with its message, agents, user and webhook. */
  predicate Loads(w: World) {
    !w.msg.gone && w.reachable
  }

  /** A job run under the cap: claim by conditional UPDATE, then push. */
  function ApplyClaim(w: World, k: nat, redelivered: bool): World {
    if k < |w.queue| then
      var job := w.queue[k];
      var w1 := w.(queue := Consume(w.queue, k, redelivered));
      if Loads(w) && w.msg.state == ExpectedState(job.task) then
        w1.(msg := w.msg.(state := Delivering, startedAt := Some(w.clock)),
            pushes := w.pushes + [Push(w.clock, job.attempt, InFlight)])
      else w1
    else w
  }

  function RecycledRow(job: Job, now: Time): Row {
    Row(job.task, job.attempt, Some(now + RECYCLE_DELAY), false, now)
  }

  /** A job run over the per-user cap: the same payload goes back to the outbox, 30 s later. */
  function ApplyRecycle(w: World, k: nat, redelivered: bool): World {
    if k < |w.queue| then
      var w1 := w.(queue := Consume(w.queue, k, redelivered));
      if Loads(w) then w1.(rows := w.rows + [RecycledRow(w.queue[k], w.clock)]) else w1
    else w
  }

  /** The outcome write: by id alone, whatever the state has become meanwhile. */
  function ApplyFinish(w: World, i: nat, v: Verdict): World {
    if i < |w.pushes| && Live(w, i) then
      var n := w.pushes[i].attempt;
      w.(msg := if w.msg.gone then w.msg else w.msg.(state := RoutedState(n, v), startedAt := None),
         rows := w.rows + RoutedRows(n, v, w.clock),
         pushes := w.pushes[i := w.pushes[i].(outcome := Came(v, w.clock))])
    else w
  }

  function ApplyRecover(w: World): World {
    if IsStale(w.msg, w.clock) then
      var n := DispatchedCount(w.rows);
      w.(msg := w.msg.(state := RecoveredState(n), startedAt := None), rows := w.rows + RecoveredRows(n, w.clock))
    else w
  }

  /** `mark_read` and `mark_acked` after their load: refused on a terminal row (an ack of an
      acked one succeeds without a write), and nothing to do for a second read. */
  predicate WillMark(m: Message, ack: bool) {
    !m.gone && !IsTerminal(m.state) && (m.state == Read ==> ack)
  }

  function Marked(m: Message, ack: bool, now: Time): Message {
    if ack then m.(state := Acked, ackedAt := Some(now)) else m.(state := Read)
  }

  /** The write of a request that has loaded the row: by id, whatever the row has become. */
  function ApplyStore(w: World, req: nat): World {
    if req in w.marks then
      w.(marks := w.marks - {req}, msg := if w.msg.gone then w.msg else Marked(w.msg, w.marks[req], w.clock))
    else w
  }

  function Apply(w: World, a: Action): World {
    match a
    case Tick(now) => if w.clock <= now then w.(clock := now) else w
    case Dispatch(i, result) => ApplyDispatch(w, i, result)
    case Claim(k, redelivered) => ApplyClaim(w, k, redelivered)
    case Recycle(k, redelivered) => ApplyRecycle(w, k, redelivered)
    case Die(k, redelivered) => if k < |w.queue| then w.(queue := Consume(w.queue, k, redelivered)) else w
    case Reach(on) => w.(reachable := on)
    case Finish(i, v) => ApplyFinish(w, i, v)
    case Crash(i) =>
      if i < |w.pushes| && Live(w, i) then w.(pushes := w.pushes[i := w.pushes[i].(outcome := Lost)]) else w
    case Poll =>
      if PollFlips(w.msg, w.clock) then w.(msg := w.msg.(state := Delivered), polled := true) else w
    case LoadMark(req, ack) =>
      if req !in w.marks && WillMark(w.msg, ack) then w.(marks := w.marks[req := ack]) else w
    case StoreMark(req) => ApplyStore(w, req)
    case Expire => if CanExpire(w.msg, w.clock) then w.(msg := w.msg.(state := Expired)) else w
    case Delete => if CanDelete(w.msg, w.clock) then w.(msg := w.msg.(gone := true)) else w
    case RecoverStale => ApplyRecover(w)
    case Reap(i) =>
      if i < |w.rows| && w.rows[i].dispatched && w.rows[i].createdAt < w.clock - OUTBOX_RETENTION
      then w.(rows := Without(w.rows, i)) else w
  }

  function Play(w: World, acts: seq<Action>): World {
    Fold(Apply, w, acts)
  }

  /** As `create_message` leaves it: queued, with one deferred or immediate deliver row
      if the recipient has a webhook, and none otherwise. */
  predicate Initial(w: World) {
    && w.msg.state == Queued && w.msg.startedAt == None && !w.msg.gone
    && w.queue == [] && w.pushes == [] && !w.polled && w.marks == map[]
    && w.rows == (if w.reachable then [Row(DeliverMessage, 1, w.msg.sendAt, false, w.clock)] else [])
  }

  // ----- what holds in every run, duplicated jobs included -----

  predicate PushOpen(w: World) {
    |w.pushes| > 0 && Live(w, |w.pushes| - 1)
  }

  predicate History(w: World) {
    && (forall i | 0 <= i < |w.pushes| ::
          && w.pushes[i].start <= w.clock
          && (w.pushes[i].outcome.Came? ==> w.pushes[i].start <= w.pushes[i].outcome.at <= w.clock))
    && (forall i: nat | i < |w.pushes| - 1 :: !Live(w, i))
  }

  predicate Inv(w: World) {
    && History(w)
    && (PushOpen(w) ==> w.msg.state in {Delivering, Read, Acked, Expired})
    && (w.msg.state == Delivering ==>
          && w.pushes != [] && w.msg.startedAt == Some(w.pushes[|w.pushes| - 1].start)
          && !w.pushes[|w.pushes| - 1].outcome.Came?)
    && (w.msg.state == Queued ==> w.pushes == [] && !w.polled)
    && (w.polled ==> w.pushes == [] && w.msg.state in {Delivered, Read, Acked, Expired})
    && (w.msg.state == RetryReady ==> w.pushes != [])
    && (w.msg.gone ==> IsTerminal(w.msg.state))
  }

  lemma StepHistory(w: World, a: Action)
    requires Inv(w)
    ensures History(Apply(w, a))
  {
    var v := Apply(w, a);
    forall i: nat | i < |v.pushes| - 1 ensures !Live(v, i) {
      assert i < |w.pushes| - 1 ==> !Live(w, i);
    }
  }

  /** Steps of push attempts: claim, outcome, crash, and the passing of time. */
  lemma AttemptStepKeeps(w: World, a: Action)
    requires Inv(w) && (a.Claim? || a.Finish? || a.Crash? || a.Tick?)
    ensures Inv(Apply(w, a))
  {
    StepHistory(w, a);
  }

  lemma StepKeeps(w: World, a: Action)
    requires Inv(w)
    ensures Inv(Apply(w, a))
  {
    if a.Claim? || a.Finish? || a.Crash? || a.Tick? {
      AttemptStepKeeps(w, a);
    } else {
      var v := Apply(w, a);
      assert v.pushes == w.pushes && v.clock == w.clock && PushOpen(v) == PushOpen(w);
      StepHistory(w, a);
    }
  }

  lemma {:induction false} RunKeeps(w: World, acts: seq<Action>)
    requires Inv(w)
    ensures Inv(Play(w, acts))
  {
    if acts != [] {
      RunKeeps(w, acts[..|acts| - 1]);
      StepKeeps(Play(w, acts[..|acts| - 1]), acts[|acts| - 1]);
    }
  }

  // ----- what holds when each row is consumed once -----

  /** Nothing can bring the message back to push delivery. */
  predicate Settled(w: World) {
    w.msg.gone || (w.msg.state !in {Queued, Delivering, RetryReady} && !PushOpen(w))
  }

  /** Each outbox row is consumed at most once, and no row of a live message is reaped. */
  predicate Careful(w: World, a: Action) {
    match a
    case Dispatch(i, result) => result != RolledBack
    case Claim(k, redelivered) => !redelivered
    case Recycle(k, redelivered) => !redelivered
    case Die(k, redelivered) => !redelivered
    case Reap(i) => Settled(w)
    case _ => true
  }

  predicate CarefulRun(w: World, acts: seq<Action>) {
    forall i | 0 <= i < |acts| :: Careful(Play(w, acts[..i]), acts[i])
  }

  /** `t` is late enough to start the attempt after `p`, and there may be one at all. */
  predicate Ready(p: Push, t: Time) {
    match p.outcome
    case Came(Retryable(header), at) => t >= at + RetryDelay(p.attempt, header) as real
    case Came(_, _) => false
    case _ => t > p.start + STALE_AFTER
  }

  predicate ReadyAfterLast(pushes: seq<Push>, t: Time) {
    pushes != [] ==> Ready(pushes[|pushes| - 1], t)
  }

  /** A ticket to one more attempt: its number is beyond every attempt made. */
  predicate Numbered(made: nat, task: Task, attempt: nat) {
    match task
    case DeliverMessage => attempt == 1 && made == 0
    case RetryMessage => made < attempt <= MAX_TOTAL_ATTEMPTS
  }

  predicate RowOk(pushes: seq<Push>, r: Row) {
    !r.dispatched ==>
      && Numbered(|pushes|, r.task, r.attempt)
      && (if r.scheduledAt.Some? then ReadyAfterLast(pushes, r.scheduledAt.value) else pushes == [])
  }

  predicate JobOk(pushes: seq<Push>, now: Time, j: Job) {
    Numbered(|pushes|, j.task, j.attempt) && ReadyAfterLast(pushes, now)
  }

  predicate RowsOk(pushes: seq<Push>, rows: seq<Row>) {
    forall i | 0 <= i < |rows| :: RowOk(pushes, rows[i])
  }

  predicate JobsOk(pushes: seq<Push>, now: Time, queue: seq<Job>) {
    forall k | 0 <= k < |queue| :: JobOk(pushes, now, queue[k])
  }

  /** Attempts are numbered within the budget, and each was ready when it started. */
  predicate Spaced(pushes: seq<Push>) {
    && |pushes| <= MAX_TOTAL_ATTEMPTS
    && (forall i | 0 <= i < |pushes| :: i < pushes[i].attempt <= MAX_TOTAL_ATTEMPTS)
    && (forall i | 0 <= i < |pushes| - 1 :: Ready(pushes[i], pushes[i + 1].start))
  }

  function Tickets(w: World): nat {
    |w.rows| - DispatchedCount(w.rows) + |w.queue| + if PushOpen(w) then 1 else 0
  }

  /** At most one ticket, none while delivering; and attempts so far, with the one queued,
      never exceed the dispatched rows of a live message. */
  predicate Counted(w: World) {
    && Tickets(w) <= 1
    && (w.msg.state == Delivering && !w.msg.gone ==> |w.queue| == 0 && DispatchedCount(w.rows) == |w.rows|)
    && (!Settled(w) ==> |w.pushes| + |w.queue| <= DispatchedCount(w.rows))
  }

  predicate Orderly(w: World) {
    Counted(w) && Spaced(w.pushes) && RowsOk(w.pushes, w.rows) && JobsOk(w.pushes, w.clock, w.queue)
  }

  lemma {:induction false} CountAppend(rows: seq<Row>, more: seq<Row>)
    ensures DispatchedCount(rows + more) == DispatchedCount(rows) + DispatchedCount(more)
  {
    if more == [] {
      assert rows + more == rows;
    } else {
      var n := |more| - 1;
      assert (rows + more)[..|rows + more| - 1] == rows + more[..n];
      CountAppend(rows, more[..n]);
    }
  }

  lemma CountThree(a: seq<Row>, r: Row, b: seq<Row>)
    ensures DispatchedCount(a + [r] + b) == DispatchedCount(a) + (if r.dispatched then 1 else 0) + DispatchedCount(b)
  {
    CountAppend(a + [r], b);
    assert (a + [r])[..|a|] == a;
  }

  /** Splitting at `i` isolates one row's contribution. */
  lemma CountAt(rows: seq<Row>, i: nat)
    requires i < |rows|
    ensures DispatchedCount(rows)
         == DispatchedCount(rows[..i]) + (if rows[i].dispatched then 1 else 0) + DispatchedCount(rows[i + 1..])
  {
    CountThree(rows[..i], rows[i], rows[i + 1..]);
    assert rows == rows[..i] + [rows[i]] + rows[i + 1..];
  }

  lemma CountFlip(rows: seq<Row>, i: nat)
    requires i < |rows| && !rows[i].dispatched
    ensures DispatchedCount(rows[i := rows[i].(dispatched := true)]) == DispatchedCount(rows) + 1
  {
    var flipped := rows[i := rows[i].(dispatched := true)];
    CountAt(rows, i);
    CountAt(flipped, i);
    assert flipped[..i] == rows[..i] && flipped[i + 1..] == rows[i + 1..];
  }

  lemma CountWithout(rows: seq<Row>, i: nat)
    requires i < |rows| && rows[i].dispatched
    ensures DispatchedCount(Without(rows, i)) == DispatchedCount(rows) - 1
  {
    CountAt(rows, i);
    CountAppend(rows[..i], rows[i + 1..]);
  }

  lemma {:induction false} AllDispatched(rows: seq<Row>)
    requires DispatchedCount(rows) == |rows|
    ensures forall i | 0 <= i < |rows| :: rows[i].dispatched
  {
    if rows != [] {
      AllDispatched(rows[..|rows| - 1]);
    }
  }

  /** With nothing undispatched, every row is fine whatever was pushed. */
  lemma DispatchedRowsOk(pushes: seq<Push>, rows: seq<Row>)
    requires DispatchedCount(rows) == |rows|
    ensures RowsOk(pushes, rows)
  {
    AllDispatched(rows);
  }

  lemma AppendedRowsOk(pushes: seq<Push>, rows: seq<Row>, more: seq<Row>)
    requires RowsOk(pushes, rows) && RowsOk(pushes, more)
    ensures RowsOk(pushes, rows + more)
  {
  }

  lemma TickOrderly(w: World, now: Time)
    requires Inv(w) && Orderly(w)
    ensures Orderly(Apply(w, Tick(now)))
  {
    if w.clock <= now {
      forall k | 0 <= k < |w.queue| ensures JobOk(w.pushes, now, w.queue[k]) {
        assert JobOk(w.pushes, w.clock, w.queue[k]);
        if w.pushes != [] { ReadyLater(w.pushes[|w.pushes| - 1], w.clock, now); }
      }
      var v := w.(clock := now);
      assert PushOpen(v) ==> PushOpen(w);
      assert Settled(w) ==> Settled(v);
    }
  }

  /** Later is at least as ready. */
  lemma ReadyLater(p: Push, t: Time, u: Time)
    requires Ready(p, t) && t <= u
    ensures Ready(p, u)
  {
  }

  lemma FlippedRowsOk(pushes: seq<Push>, rows: seq<Row>, i: nat)
    requires RowsOk(pushes, rows) && i < |rows|
    ensures RowsOk(pushes, rows[i := rows[i].(dispatched := true)])
  {
  }

  lemma DispatchOrderly(w: World, i: nat, result: DispatchResult)
    requires Inv(w) && Orderly(w) && result != RolledBack
    ensures Orderly(Apply(w, Dispatch(i, result)))
  {
    if i < |w.rows| && RowDue(w.rows[i], w.clock) && result == Sent {
      var v := Apply(w, Dispatch(i, result));
      CountFlip(w.rows, i);
      FlippedRowsOk(w.pushes, w.rows, i);
      assert RowOk(w.pushes, w.rows[i]);
      assert w.queue == [];
      DueIsReady(w.pushes, w.rows[i], w.clock);
      assert v.pushes == w.pushes && v.msg == w.msg && v.clock == w.clock && PushOpen(v) == PushOpen(w);
    }
  }

  /** A due row makes a job whose attempt may start now. */
  lemma DueIsReady(pushes: seq<Push>, r: Row, now: Time)
    requires RowOk(pushes, r) && RowDue(r, now)
    ensures JobOk(pushes, now, Job(r.task, r.attempt))
  {
    if pushes != [] { ReadyLater(pushes[|pushes| - 1], r.scheduledAt.value, now); }
  }

  lemma NextPushSpaced(pushes: seq<Push>, now: Time, job: Job)
    requires Spaced(pushes) && JobOk(pushes, now, job)
    ensures Spaced(pushes + [Push(now, job.attempt, InFlight)])
  {
  }

  /** The only job is consumed, without effect. */
  lemma ConsumeOrderly(w: World, k: nat)
    requires Inv(w) && Orderly(w) && k < |w.queue|
    ensures Orderly(w.(queue := Consume(w.queue, k, false))) && Consume(w.queue, k, false) == []
    ensures DispatchedCount(w.rows) == |w.rows| && !PushOpen(w)
  {
    var v := w.(queue := Consume(w.queue, k, false));
    assert |w.queue| == 1 && v.queue == [] && PushOpen(v) == PushOpen(w);
  }

  lemma ClaimOrderly(w: World, k: nat)
    requires Inv(w) && Orderly(w)
    ensures Orderly(Apply(w, Claim(k, false)))
  {
    if k < |w.queue| {
      var job := w.queue[k];
      ConsumeOrderly(w, k);
      if Loads(w) && w.msg.state == ExpectedState(job.task) {
        var v := Apply(w, Claim(k, false));
        assert JobOk(w.pushes, w.clock, job);
        NextPushSpaced(w.pushes, w.clock, job);
        DispatchedRowsOk(v.pushes, w.rows);
        assert v.queue == [] && v.rows == w.rows && |v.pushes| == |w.pushes| + 1 && !Settled(w);
      }
    }
  }

  lemma RecycleOrderly(w: World, k: nat)
    requires Inv(w) && Orderly(w)
    ensures Orderly(Apply(w, Recycle(k, false)))
  {
    if k < |w.queue| {
      ConsumeOrderly(w, k);
      if Loads(w) {
        var row := RecycledRow(w.queue[k], w.clock);
        assert JobOk(w.pushes, w.clock, w.queue[k]);
        if w.pushes != [] { ReadyLater(w.pushes[|w.pushes| - 1], w.clock, w.clock + RECYCLE_DELAY); }
        AppendedRowsOk(w.pushes, w.rows, [row]);
        OneMoreTicket(w.(queue := []), row);
      }
    }
  }

  /** With no ticket out and nothing in flight, one new row is one ticket. */
  lemma OneMoreTicket(w: World, row: Row)
    requires Counted(w) && Tickets(w) == 0 && !row.dispatched && (w.msg.gone || w.msg.state != Delivering)
    ensures Counted(w.(rows := w.rows + [row]))
  {
    var v := w.(rows := w.rows + [row]);
    assert [row][..0] == [] && DispatchedCount([row]) == 0;
    CountAppend(w.rows, [row]);
    assert PushOpen(v) == PushOpen(w) && Settled(v) == Settled(w);
  }

  lemma DieOrderly(w: World, k: nat)
    requires Inv(w) && Orderly(w)
    ensures Orderly(Apply(w, Die(k, false)))
  {
    if k < |w.queue| { ConsumeOrderly(w, k); }
  }

  /** An outcome changes only the last attempt, and only its outcome. */
  lemma OutcomeSpaced(pushes: seq<Push>, outcome: Outcome)
    requires Spaced(pushes) && pushes != []
    ensures var n := |pushes| - 1; Spaced(pushes[n := pushes[n].(outcome := outcome)])
  {
  }

  lemma RoutedRowsOk(pushes: seq<Push>, verdict: Verdict, now: Time)
    requires Spaced(pushes) && pushes != []
    requires pushes[|pushes| - 1].outcome == Came(verdict, now)
    ensures RowsOk(pushes, RoutedRows(pushes[|pushes| - 1].attempt, verdict, now))
  {
  }

  /** The attempt in flight is the last, and it is the only ticket. */
  lemma LiveIsOnlyTicket(w: World, i: nat)
    requires Inv(w) && Orderly(w) && i < |w.pushes| && Live(w, i)
    ensures i == |w.pushes| - 1 && DispatchedCount(w.rows) == |w.rows| && w.queue == []
  {
  }

  lemma FinishOrderly(w: World, i: nat, verdict: Verdict)
    requires Inv(w) && Orderly(w)
    ensures Orderly(Apply(w, Finish(i, verdict)))
  {
    if i < |w.pushes| && Live(w, i) {
      LiveIsOnlyTicket(w, i);
      var v := Apply(w, Finish(i, verdict));
      var n := w.pushes[i].attempt;
      OutcomeSpaced(w.pushes, Came(verdict, w.clock));
      DispatchedRowsOk(v.pushes, w.rows);
      RoutedRowsOk(v.pushes, verdict, w.clock);
      AppendedRowsOk(v.pushes, w.rows, RoutedRows(n, verdict, w.clock));
      FinishCounted(w, i, verdict);
    }
  }

  lemma FinishCounted(w: World, i: nat, verdict: Verdict)
    requires Inv(w) && Orderly(w) && i < |w.pushes| && Live(w, i)
    ensures Counted(Apply(w, Finish(i, verdict)))
  {
    LiveIsOnlyTicket(w, i);
    var v, more := Apply(w, Finish(i, verdict)), RoutedRows(w.pushes[i].attempt, verdict, w.clock);
    assert more != [] ==> more[..0] == [];
    assert DispatchedCount(more) == 0;
    CountAppend(w.rows, more);
    assert !PushOpen(v) && |v.pushes| == |w.pushes|;
    assert !Settled(w) || w.msg.gone;
  }

  lemma RecoverOrderly(w: World)
    requires Inv(w) && Orderly(w)
    ensures Orderly(Apply(w, RecoverStale))
  {
    if IsStale(w.msg, w.clock) {
      var n := DispatchedCount(w.rows);
      var more := RecoveredRows(n, w.clock);
      assert n == |w.rows| && !Settled(w) && |w.pushes| <= n && w.queue == [] && !PushOpen(w);
      DispatchedRowsOk(w.pushes, w.rows);
      AppendedRowsOk(w.pushes, w.rows, more);
      RecoverCounted(w);
    }
  }

  lemma RecoverCounted(w: World)
    requires Inv(w) && Orderly(w) && IsStale(w.msg, w.clock)
    ensures Counted(Apply(w, RecoverStale))
  {
    var v, more := Apply(w, RecoverStale), RecoveredRows(DispatchedCount(w.rows), w.clock);
    assert more != [] ==> more[..0] == [];
    assert DispatchedCount(more) == 0;
    CountAppend(w.rows, more);
    assert !PushOpen(w) && !PushOpen(v) && v.pushes == w.pushes && v.queue == [];
  }

  lemma RowsOkWithout(pushes: seq<Push>, rows: seq<Row>, i: nat)
    requires i < |rows| && RowsOk(pushes, rows)
    ensures RowsOk(pushes, Without(rows, i))
  {
    forall j | 0 <= j < |rows| - 1 ensures RowOk(pushes, Without(rows, i)[j]) {
      assert Without(rows, i)[j] == rows[if j < i then j else j + 1];
    }
  }

  lemma ReapOrderly(w: World, i: nat)
    requires Inv(w) && Orderly(w) && Settled(w)
    ensures Orderly(Apply(w, Reap(i)))
  {
    if i < |w.rows| && w.rows[i].dispatched {
      CountWithout(w.rows, i);
      RowsOkWithout(w.pushes, w.rows, i);
      var v := w.(rows := Without(w.rows, i));
      assert PushOpen(v) == PushOpen(w) && Settled(v);
    }
  }

  lemma CrashOrderly(w: World, i: nat)
    requires Inv(w) && Orderly(w)
    ensures Orderly(Apply(w, Crash(i)))
  {
    if i < |w.pushes| && Live(w, i) {
      LiveIsOnlyTicket(w, i);
      var v := Apply(w, Crash(i));
      OutcomeSpaced(w.pushes, Lost);
      DispatchedRowsOk(v.pushes, w.rows);
      assert !PushOpen(v);
    }
  }

  /** Steps that touch only the row's lifecycle columns, or the recipient. */
  lemma QuietOrderly(w: World, a: Action)
    requires Inv(w) && Orderly(w)
    requires a.Poll? || a.LoadMark? || a.StoreMark? || a.Expire? || a.Delete? || a.Reach?
    ensures Orderly(Apply(w, a))
  {
    var v := Apply(w, a);
    QuietStep(w, a);
    assert PushOpen(v) == PushOpen(w) && Tickets(v) == Tickets(w);
  }

  lemma QuietStep(w: World, a: Action)
    requires a.Poll? || a.LoadMark? || a.StoreMark? || a.Expire? || a.Delete? || a.Reach?
    ensures var v := Apply(w, a);
      && v.rows == w.rows && v.queue == w.queue && v.pushes == w.pushes && v.clock == w.clock
      && (v.msg.state == Delivering && !v.msg.gone ==> w.msg.state == Delivering && !w.msg.gone)
      && (Settled(w) ==> Settled(v))
  {
  }

  lemma StepOrderly(w: World, a: Action)
    requires Inv(w) && Orderly(w) && Careful(w, a)
    ensures Orderly(Apply(w, a))
  {
    match a
    case Tick(now) => TickOrderly(w, now);
    case Dispatch(i, result) => DispatchOrderly(w, i, result);
    case Claim(k, redelivered) => ClaimOrderly(w, k);
    case Recycle(k, redelivered) => RecycleOrderly(w, k);
    case Die(k, redelivered) => DieOrderly(w, k);
    case Finish(i, v) => FinishOrderly(w, i, v);
    case Crash(i) => CrashOrderly(w, i);
    case RecoverStale => RecoverOrderly(w);
    case Reap(i) => ReapOrderly(w, i);
    case _ => QuietOrderly(w, a);
  }

  lemma {:induction false} CarefulRunOrderly(w: World, acts: seq<Action>)
    requires Inv(w) && Orderly(w) && CarefulRun(w, acts)
    ensures Orderly(Play(w, acts))
  {
    if acts != [] {
      var n := |acts| - 1;
      forall i | 0 <= i < n ensures Careful(Play(w, acts[..n][..i]), acts[..n][i]) {
        assert acts[..n][..i] == acts[..i];
      }
      CarefulRunOrderly(w, acts[..n]);
      RunKeeps(w, acts[..n]);
      assert Careful(Play(w, acts[..n]), acts[n]);
      StepOrderly(Play(w, acts[..n]), acts[n]);
    }
  }

  lemma InitialInv(w: World)
    requires Initial(w)
    ensures Inv(w) && Orderly(w)
  {
    if w.rows != [] {
      assert w.rows[..0] == [];
    }
  }
}
