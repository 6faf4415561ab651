/** Webhook subscriptions over the event log: the dispatch watermark, the priority-4
    debounce marker and the circuit breaker, as a state machine.

    One `Dispatch` is the processing of one subscription within a cycle: it reads at the
    current clock, POSTs, and writes at `end`; its row is locked meanwhile, and other
    transactions commute with it. A cycle that is lost before commit keeps its POSTs but
    not its row updates; the Redis marker of a POST is there if the run reached its write
    and Redis took it, whether or not the cycle commits. */
module DispatchProtocol {
  import opened Common
  import opened EventLog

  const EVENTS_PER_SUB: nat := 50
  const BREAKER_THRESHOLD: nat := 10
  const BREAKER_PAUSE: Time := 3600.0
  const EVENT_RETENTION: Time := 7.0 * DAY

  datatype Sub = Sub(
    agent: string, kind: string, webhook: bool, detached: bool,
    lastDispatched: Option<nat>, lastAcked: Option<nat>,
    failures: nat, pausedUntil: Option<Time>)

  /** The recipient's Redis marker: the time of its last priority-4 fire, and when the key expires. */
  datatype Marker = Marker(stamp: Time, expiresAt: Time)

  /** A 2xx POST that carried a priority-4 event: whether Redis answered the debounce
      check before it, and whether the marker was written after it. */
  datatype HighFire = HighFire(agent: string, start: Time, end: Time, checked: bool, stamped: bool)

  /** A POST, with its answer and whether its cycle's transaction committed. */
  datatype Try = Try(sub: nat, start: Time, end: Time, ok: bool, committed: bool)

  datatype State = State(
    clock: Time,
    window: Time,
    log: seq<Event>,
    subs: seq<Sub>,
    markers: map<string, Marker>,
    // history
    ever: map<nat, Event>,
    removed: set<nat>,
    delivered: set<(nat, nat)>,
    late: set<(nat, nat)>,
    highFires: seq<HighFire>,
    tries: seq<Try>)

  datatype Action =
    | Tick(now: Time)
    | Emit(event: Event)
    | Cleanup
    | Subscribe(agent: string, kind: string, webhook: bool)
    | Detach(sub: nat)
    | Ack(sub: nat, id: nat)
    | Dispatch(sub: nat, ok: bool, end: Time, redisUp: bool, stamped: bool, committed: bool)

  // ----- decisions of one dispatch -----

  function Watermark(sub: Sub): nat {
    if sub.lastDispatched.Some? then sub.lastDispatched.value else 0
  }

  predicate Wants(sub: Sub, e: Event) {
    e.recipient == sub.agent && e.kind == sub.kind
  }

  function Awaiting(sub: Sub): Event -> bool {
    (e: Event) => Wants(sub, e) && e.id > Watermark(sub)
  }

  /** `_fetch_pending_events_for_sub` */
  function Pending(log: seq<Event>, sub: Sub): seq<Event> {
    Take(Select(log, Awaiting(sub)), EVENTS_PER_SUB)
  }

  predicate IsDue(sub: Sub, now: Time) {
    sub.webhook && !sub.detached && (sub.pausedUntil.None? || sub.pausedUntil.value < now)
  }

  /** Truncation toward zero, as the source's `int()`. */
  function Truncate(x: real): int {
    if x >= 0.0 then x.Floor else -((-x).Floor)
  }

  function MarkerTtl(window: Time): Time {
    Max(1, Truncate(window) + 1) as real
  }

  /** `_is_p4_debounced` */
  predicate Debounced(s: State, agent: string) {
    && agent in s.markers
    && s.clock < s.markers[agent].expiresAt
    && s.clock - s.markers[agent].stamp < s.window
  }

  function NotHigh(): Event -> bool {
    (e: Event) => !IsHigh(e)
  }

  function High(): Event -> bool {
    (e: Event) => IsHigh(e)
  }

  /** `apply_tier_policy`; with Redis down everything fires. */
  function ToFire(events: seq<Event>, debounced: bool): seq<Event> {
    if debounced then Select(events, NotHigh()) else events
  }

  function Deferred(events: seq<Event>, debounced: bool): seq<Event> {
    if debounced then Select(events, High()) else []
  }

  function Below(id: nat): Event -> bool {
    (e: Event) => e.id < id
  }

  function LowestId(events: seq<Event>): nat
    requires events != []
  {
    if |events| == 1 then events[0].id
    else Min(LowestId(events[..|events| - 1]), events[|events| - 1].id)
  }

  /** The watermark a successful fire writes: it must not pass a deferred event. */
  function NewWatermark(old_: nat, fired: seq<Event>, deferred: seq<Event>): nat
    requires fired != []
  {
    if deferred != [] then
      var contiguous := Select(fired, Below(LowestId(deferred)));
      if contiguous != [] then contiguous[|contiguous| - 1].id else old_
    else fired[|fired| - 1].id
  }

  predicate AnyHigh(events: seq<Event>) {
    exists i | 0 <= i < |events| :: IsHigh(events[i])
  }

  function SucceededSub(sub: Sub, watermark: nat): Sub {
    sub.(lastDispatched := Some(watermark), lastAcked := Some(watermark), failures := 0)
  }

  function FailedSub(sub: Sub, now: Time): Sub {
    sub.(failures := sub.failures + 1,
         pausedUntil := if sub.failures + 1 >= BREAKER_THRESHOLD then Some(now + BREAKER_PAUSE) else sub.pausedUntil)
  }

  // ----- the steps -----

  function Debouncing(s: State, i: nat, redisUp: bool): bool
    requires i < |s.subs|
  {
    redisUp && Debounced(s, s.subs[i].agent)
  }

  function Batch(s: State, i: nat): seq<Event>
    requires i < |s.subs|
  {
    Pending(s.log, s.subs[i])
  }

  function FiredNow(s: State, i: nat, redisUp: bool): seq<Event>
    requires i < |s.subs|
  {
    ToFire(Batch(s, i), Debouncing(s, i, redisUp))
  }

  function DeferredNow(s: State, i: nat, redisUp: bool): seq<Event>
    requires i < |s.subs|
  {
    Deferred(Batch(s, i), Debouncing(s, i, redisUp))
  }

  /** The subscription is due and something fires. */
  predicate Fires(s: State, a: Action) {
    && a.Dispatch? && a.sub < |s.subs| && IsDue(s.subs[a.sub], s.clock) && s.clock <= a.end
    && FiredNow(s, a.sub, a.redisUp) != []
  }

  function WatermarkAfter(s: State, a: Action): nat
    requires Fires(s, a)
  {
    NewWatermark(Watermark(s.subs[a.sub]), FiredNow(s, a.sub, a.redisUp), DeferredNow(s, a.sub, a.redisUp))
  }

  function SubAfter(s: State, a: Action): Sub
    requires Fires(s, a)
  {
    var sub := s.subs[a.sub];
    if !a.committed then sub
    else if a.ok then SucceededSub(sub, WatermarkAfter(s, a))
    else FailedSub(sub, a.end)
  }

  predicate Stamps(s: State, a: Action)
    requires Fires(s, a)
  {
    a.ok && AnyHigh(FiredNow(s, a.sub, a.redisUp))
  }

  /** Who was sent what. */
  function Sent(sub: nat, events: seq<Event>): set<(nat, nat)> {
    set id | id in Ids(events) :: (sub, id)
  }

  function ApplyDispatch(s: State, a: Action): State
    requires Fires(s, a)
  {
    var sub := s.subs[a.sub];
    var fired := FiredNow(s, a.sub, a.redisUp);
    s.(clock := a.end,
       subs := s.subs[a.sub := SubAfter(s, a)],
       markers := if Stamps(s, a) && a.stamped
                  then s.markers[sub.agent := Marker(a.end, a.end + MarkerTtl(s.window))] else s.markers,
       delivered := if a.ok then s.delivered + Sent(a.sub, fired) else s.delivered,
       highFires := if Stamps(s, a) then s.highFires + [HighFire(sub.agent, s.clock, a.end, a.redisUp, a.stamped)] else s.highFires,
       tries := s.tries + [Try(a.sub, s.clock, a.end, a.ok, a.committed)])
  }

  /** The new row becomes visible; wherever a watermark already stands at or past its id, it is late. */
  function ApplyEmit(s: State, e: Event): State {
    if e.id >= 1 && e.id !in s.ever then
      s.(log := Insert(s.log, e), ever := s.ever[e.id := e],
         late := s.late + set i | 0 <= i < |s.subs| && Wants(s.subs[i], e) && e.id <= Watermark(s.subs[i]) :: (i, e.id))
    else s
  }

  function Recent(cutoff: Time): Event -> bool {
    (e: Event) => !(e.emittedAt < cutoff)
  }

  function ApplyCleanup(s: State): State {
    var kept := Select(s.log, Recent(s.clock - EVENT_RETENTION));
    s.(log := kept, removed := s.removed + (Ids(s.log) - Ids(kept)))
  }

  function Apply(s: State, a: Action): State {
    match a
    case Tick(now) => if s.clock <= now then s.(clock := now) else s
    case Emit(e) => ApplyEmit(s, e)
    case Cleanup => ApplyCleanup(s)
    case Subscribe(agent, kind, webhook) =>
      s.(subs := s.subs + [Sub(agent, kind, webhook, false, None, None, 0, None)])
    case Detach(i) => if i < |s.subs| then s.(subs := s.subs[i := s.subs[i].(detached := true)]) else s
    case Ack(i, id) =>
      if i < |s.subs| && !s.subs[i].detached && (s.subs[i].lastAcked.None? || s.subs[i].lastAcked.value < id)
      then s.(subs := s.subs[i := s.subs[i].(lastAcked := Some(id))]) else s
    case Dispatch(_, _, _, _, _, _) => if Fires(s, a) then ApplyDispatch(s, a) else s
  }

  function Play(s: State, acts: seq<Action>): State {
    Fold(Apply, s, acts)
  }

  predicate Initial(s: State) {
    && s.log == [] && s.subs == [] && s.markers == map[] && s.ever == map[] && s.removed == {}
    && s.delivered == {} && s.late == {} && s.highFires == [] && s.tries == []
  }

  // ----- watermark safety -----

  /** The live log is what was emitted and not cleaned up, in id order. */
  predicate LogOk(s: State) {
    && Sorted(s.log)
    && (forall e | e in s.log :: e.id in s.ever && s.ever[e.id] == e)
    && (forall id | id in s.ever :: id >= 1 && s.ever[id].id == id && (id in s.removed || s.ever[id] in s.log))
  }

  /** Every event at or below the watermark was in a 2xx batch, or was cleaned up, or
      became visible only after the watermark had passed it. */
  predicate Passed(s: State, i: nat)
    requires i < |s.subs|
  {
    forall id | id in s.ever && Wants(s.subs[i], s.ever[id]) && id <= Watermark(s.subs[i]) ::
      (i, id) in s.delivered || id in s.removed || (i, id) in s.late
  }

  ghost predicate LateOk(s: State) {
    && (forall i, id | (i, id) in s.late ::
          && i < |s.subs| && id in s.ever && id <= Watermark(s.subs[i]) && (i, id) !in s.delivered)
    && (forall i, id | (i, id) in s.delivered :: i < |s.subs| && id in s.ever)
  }

  ghost predicate WatermarksOk(s: State) {
    && LogOk(s)
    && LateOk(s)
    && (forall i: nat | i < |s.subs| :: Passed(s, i))
    && (forall i: nat | i < |s.subs| :: Watermark(s.subs[i]) == 0 || Watermark(s.subs[i]) in s.ever)
  }

  lemma {:induction false} LowestIdBounds(events: seq<Event>, e: Event)
    requires e in events
    ensures LowestId(events) <= e.id
  {
    if |events| > 1 && e != events[|events| - 1] {
      assert events == events[..|events| - 1] + [events[|events| - 1]];
      LowestIdBounds(events[..|events| - 1], e);
    }
  }

  lemma PendingFacts(log: seq<Event>, sub: Sub)
    requires Sorted(log)
    ensures Sorted(Pending(log, sub))
    ensures forall e | e in Pending(log, sub) :: e in log && Wants(sub, e) && e.id > Watermark(sub)
    ensures forall e, f | e in log && Wants(sub, e) && e.id > Watermark(sub) && f in Pending(log, sub) && e.id <= f.id ::
              e in Pending(log, sub)
  {
    var all := Select(log, Awaiting(sub));
    SelectMembers(log, Awaiting(sub));
    SelectSorted(log, Awaiting(sub));
    forall e, f | e in all && f in Take(all, EVENTS_PER_SUB) && e.id <= f.id
      ensures e in Take(all, EVENTS_PER_SUB)
    {
      TakenPrefix(all, EVENTS_PER_SUB, e, f);
    }
  }

  /** A batch splits into what fires and what is deferred; only priority 4 is ever deferred. */
  lemma SplitFacts(events: seq<Event>, debounced: bool)
    ensures forall e :: e in events <==> e in ToFire(events, debounced) || e in Deferred(events, debounced)
    ensures forall e | e in Deferred(events, debounced) :: IsHigh(e) && e !in ToFire(events, debounced)
    ensures Sorted(events) ==> Sorted(ToFire(events, debounced)) && Sorted(Deferred(events, debounced))
  {
    SelectMembers(events, NotHigh());
    SelectMembers(events, High());
    if Sorted(events) {
      SelectSorted(events, NotHigh());
      SelectSorted(events, High());
    }
  }

  /** Before every deferred event. */
  predicate Precedes(f: Event, deferred: seq<Event>) {
    forall d | d in deferred :: f.id < d.id
  }

  /** The new watermark is the old one or a fired event's id, no deferred event is at or
      below it, and it is the highest such: every fired event that precedes all deferred
      ones is at or below it. */
  lemma NewWatermarkFacts(old_: nat, fired: seq<Event>, deferred: seq<Event>)
    requires fired != [] && Sorted(fired)
    requires forall e | e in fired + deferred :: e.id > old_
    ensures var wm := NewWatermark(old_, fired, deferred);
      && old_ <= wm
      && (wm == old_ || exists f | f in fired :: f.id == wm)
      && (forall d | d in deferred :: wm < d.id)
      && (forall f | f in fired && Precedes(f, deferred) :: f.id <= wm)
  {
    forall e: Event | e in fired ensures e.id > old_ { assert e in fired + deferred; }
    forall e: Event | e in deferred ensures e.id > old_ { assert e in fired + deferred; }
    if deferred != [] {
      var low := LowestId(deferred);
      var contiguous := Select(fired, Below(low));
      SelectMembers(fired, Below(low));
      SelectSorted(fired, Below(low));
      if contiguous != [] {
        assert contiguous[|contiguous| - 1] in contiguous;
      }
      forall d | d in deferred ensures NewWatermark(old_, fired, deferred) < d.id {
        LowestIdBounds(deferred, d);
      }
      forall f | f in fired && Precedes(f, deferred) ensures f.id <= NewWatermark(old_, fired, deferred) {
        LowestIdIn(deferred);
        assert f in contiguous;
        LastIsHighest(contiguous, f);
      }
    } else {
      assert fired[|fired| - 1] in fired;
      forall f | f in fired ensures f.id <= fired[|fired| - 1].id { LastIsHighest(fired, f); }
    }
  }

  lemma {:induction false} LowestIdIn(events: seq<Event>)
    requires events != []
    ensures exists d | d in events :: d.id == LowestId(events)
  {
    if |events| == 1 {
      assert events[0] in events;
    } else {
      var n := |events| - 1;
      LowestIdIn(events[..n]);
      var d :| d in events[..n] && d.id == LowestId(events[..n]);
      assert d in events && events[n] in events;
    }
  }

  lemma LastIsHighest(events: seq<Event>, e: Event)
    requires Sorted(events) && e in events
    ensures e.id <= events[|events| - 1].id
  {
    var k :| 0 <= k < |events| && events[k] == e;
  }

  /** After a committed 2xx, a fired event that precedes every deferred one is not pending
      again, and neither is any other that the watermark has passed. */
  lemma FiredIsNotPendingAgain(s: State, a: Action, f: Event)
    requires WatermarksOk(s) && Fires(s, a) && a.ok && a.committed
    requires f in FiredNow(s, a.sub, a.redisUp) && Precedes(f, DeferredNow(s, a.sub, a.redisUp))
    ensures var t := Apply(s, a); f.id <= Watermark(t.subs[a.sub]) && f !in Pending(t.log, t.subs[a.sub])
  {
    var sub := s.subs[a.sub];
    var fired, deferred := FiredNow(s, a.sub, a.redisUp), DeferredNow(s, a.sub, a.redisUp);
    PendingFacts(s.log, sub);
    SplitFacts(Batch(s, a.sub), Debouncing(s, a.sub, a.redisUp));
    forall e: Event | e in fired + deferred ensures e.id > Watermark(sub) { assert e in Batch(s, a.sub); }
    NewWatermarkFacts(Watermark(sub), fired, deferred);
    var t := Apply(s, a);
    PendingFacts(t.log, t.subs[a.sub]);
  }

  /** One dispatch: the watermark moves only over events that are in this 2xx batch. */
  lemma FireCovers(s: State, a: Action, id: nat)
    requires WatermarksOk(s) && Fires(s, a)
    ensures Watermark(s.subs[a.sub]) <= WatermarkAfter(s, a)
    ensures WatermarkAfter(s, a) == Watermark(s.subs[a.sub]) || WatermarkAfter(s, a) in s.ever
    ensures id in s.ever && id !in s.removed && Wants(s.subs[a.sub], s.ever[id]) ==>
            Watermark(s.subs[a.sub]) < id <= WatermarkAfter(s, a) ==> id in Ids(FiredNow(s, a.sub, a.redisUp))
  {
    var sub := s.subs[a.sub];
    var batch := Batch(s, a.sub);
    var fired, deferred := FiredNow(s, a.sub, a.redisUp), DeferredNow(s, a.sub, a.redisUp);
    PendingFacts(s.log, sub);
    SplitFacts(batch, Debouncing(s, a.sub, a.redisUp));
    forall e: Event | e in fired + deferred ensures e.id > Watermark(sub) { assert e in batch; }
    NewWatermarkFacts(Watermark(sub), fired, deferred);
    var wm := WatermarkAfter(s, a);
    if wm != Watermark(sub) {
      var f :| f in fired && f.id == wm;
      assert f in batch;
      if id in s.ever && id !in s.removed && Wants(sub, s.ever[id]) && Watermark(sub) < id <= wm {
        var e := s.ever[id];
        assert e in batch;
        assert e !in deferred;
        IdOf(fired, e);
      }
    }
  }

  /** Nothing late is ever in a batch: batches start above the watermark. */
  lemma FiresAboveWatermark(s: State, a: Action, id: nat)
    requires WatermarksOk(s) && Fires(s, a) && id in Ids(FiredNow(s, a.sub, a.redisUp))
    ensures id > Watermark(s.subs[a.sub]) && id in s.ever
  {
    var fired := FiredNow(s, a.sub, a.redisUp);
    var k :| 0 <= k < |fired| && fired[k].id == id;
    PendingFacts(s.log, s.subs[a.sub]);
    SplitFacts(Batch(s, a.sub), Debouncing(s, a.sub, a.redisUp));
    assert fired[k] in Batch(s, a.sub);
  }

  lemma DispatchKeepsWatermarks(s: State, a: Action)
    requires WatermarksOk(s) && Fires(s, a)
    ensures WatermarksOk(Apply(s, a))
  {
    var t := Apply(s, a);
    var i := a.sub;
    FireCovers(s, a, 0);
    forall k: nat | k < |t.subs| ensures Passed(t, k) {
      assert Passed(s, k);
      if k == i {
        forall id | id in t.ever && Wants(t.subs[i], t.ever[id]) && id <= Watermark(t.subs[i])
          ensures (i, id) in t.delivered || id in t.removed || (i, id) in t.late
        {
          FireCovers(s, a, id);
        }
      }
    }
    forall k, id | (k, id) in t.delivered && (k, id) !in s.delivered
      ensures k == i && id in s.ever && id > Watermark(s.subs[i])
    {
      FiresAboveWatermark(s, a, id);
    }
  }

  lemma EmitKeepsWatermarks(s: State, e: Event)
    requires WatermarksOk(s)
    ensures WatermarksOk(Apply(s, Emit(e)))
  {
    if e.id >= 1 && e.id !in s.ever {
      var t := Apply(s, Emit(e));
      InsertMembers(s.log, e);
      forall x | x in s.log ensures x.id != e.id {}
      InsertSorted(s.log, e);
      forall k: nat | k < |t.subs| ensures Passed(t, k) {
        assert Passed(s, k);
      }
    }
  }

  lemma CleanupKeepsWatermarks(s: State)
    requires WatermarksOk(s)
    ensures WatermarksOk(Apply(s, Cleanup))
  {
    var t := Apply(s, Cleanup);
    var p := Recent(s.clock - EVENT_RETENTION);
    SelectMembers(s.log, p);
    SelectSorted(s.log, p);
    forall id | id in t.ever ensures id in t.removed || t.ever[id] in t.log {
      if id !in s.removed {
        IdOf(s.log, s.ever[id]);
        if id in Ids(t.log) {
          var k :| 0 <= k < |t.log| && t.log[k].id == id;
          assert t.log[k] in t.log;
        }
      }
    }
    forall k: nat | k < |t.subs| ensures Passed(t, k) {
      assert Passed(s, k);
    }
  }

  /** Steps on subscriptions alone, which move no watermark, and the passing of time. */
  lemma SubscriptionKeepsWatermarks(s: State, a: Action)
    requires WatermarksOk(s) && (a.Tick? || a.Subscribe? || a.Detach? || a.Ack?)
    ensures WatermarksOk(Apply(s, a))
  {
    var t := Apply(s, a);
    forall k: nat | k < |t.subs| ensures Passed(t, k) {
      if k < |s.subs| { assert Passed(s, k); }
    }
  }

  lemma StepKeepsWatermarks(s: State, a: Action)
    requires WatermarksOk(s)
    ensures WatermarksOk(Apply(s, a))
  {
    match a
    case Emit(e) => EmitKeepsWatermarks(s, e);
    case Cleanup => CleanupKeepsWatermarks(s);
    case Dispatch(_, _, _, _, _, _) => if Fires(s, a) { DispatchKeepsWatermarks(s, a); }
    case _ => SubscriptionKeepsWatermarks(s, a);
  }

  lemma {:induction false} RunKeepsWatermarks(s: State, acts: seq<Action>)
    requires WatermarksOk(s)
    ensures WatermarksOk(Play(s, acts))
  {
    if acts != [] {
      RunKeepsWatermarks(s, acts[..|acts| - 1]);
      StepKeepsWatermarks(Play(s, acts[..|acts| - 1]), acts[|acts| - 1]);
    }
  }
}
