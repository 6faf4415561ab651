/** The ack watermark of a webhook subscription: the dispatcher writes it without looking,
    and so takes back an explicit ack that ran ahead of dispatch. */
module AckRewind {
  import opened Common
  import opened EventLog
  import opened DispatchProtocol
  import opened DispatchTheorems
  import opened DebounceRefire

  // ----- what the emitters and the API let happen -----

  /** Only `message.delivered` payloads carry a priority. */
  predicate GenuineEvent(e: Event) {
    IsKnown(e.kind) && (IsHigh(e) ==> e.kind == DELIVERED)
  }

  /** Events are of the known types, and so are subscriptions. */
  predicate Genuine(a: Action) {
    match a
    case Emit(e) => GenuineEvent(e)
    case Subscribe(_, kind, _) => IsKnown(kind)
    case _ => true
  }

  predicate GenuineRun(acts: seq<Action>) {
    forall i | 0 <= i < |acts| :: Genuine(acts[i])
  }

  predicate GenuineState(s: State) {
    && (forall e | e in s.log :: GenuineEvent(e))
    && (forall i | 0 <= i < |s.subs| :: IsKnown(s.subs[i].kind))
  }

  lemma GenuineStep(s: State, a: Action)
    requires GenuineState(s) && Genuine(a)
    ensures GenuineState(Apply(s, a))
  {
    if a.Emit? {
      InsertMembers(s.log, a.event);
    } else if a.Cleanup? {
      SelectMembers(s.log, Recent(s.clock - EVENT_RETENTION));
    }
  }

  lemma {:induction false} GenuineKept(s: State, acts: seq<Action>)
    requires GenuineState(s) && GenuineRun(acts)
    ensures GenuineState(Play(s, acts))
  {
    if acts != [] {
      GenuineKept(s, acts[..|acts| - 1]);
      GenuineStep(Play(s, acts[..|acts| - 1]), acts[|acts| - 1]);
    }
  }

  predicate RewindsTo(s: State, i: nat, acts: seq<Action>)
    requires i < |s.subs| && s.subs[i].lastAcked.Some?
  {
    var t := Play(s, acts);
    i < |t.subs| && t.subs[i].lastAcked.Some? && t.subs[i].lastAcked.value < s.subs[i].lastAcked.value
  }

  /** Some continuation leaves subscription `i` acked below what it has acked now. */
  ghost predicate CanBeRewound(s: State, i: nat)
    requires i < |s.subs| && s.subs[i].lastAcked.Some?
  {
    exists acts :: GenuineRun(acts) && RewindsTo(s, i, acts)
  }

  /** Nothing of this subscription is ever held back: its events carry no priority, or there is no window. */
  predicate Plain(window: Time, sub: Sub) {
    window <= 0.0 || sub.kind != DELIVERED
  }

  // ----- acks that are safe: no webhook behind them -----

  lemma UndispatchedStep(s: State, a: Action, i: nat)
    requires i < |s.subs| && s.subs[i].lastAcked.Some? && (!s.subs[i].webhook || s.subs[i].detached)
    ensures var t := Apply(s, a);
      && i < |t.subs| && (!t.subs[i].webhook || t.subs[i].detached)
      && t.subs[i].lastAcked.Some? && s.subs[i].lastAcked.value <= t.subs[i].lastAcked.value
  {
  }

  lemma {:induction false} UndispatchedIsKept(s: State, acts: seq<Action>, i: nat)
    requires i < |s.subs| && s.subs[i].lastAcked.Some? && (!s.subs[i].webhook || s.subs[i].detached)
    ensures var t := Play(s, acts);
      && i < |t.subs| && (!t.subs[i].webhook || t.subs[i].detached)
      && t.subs[i].lastAcked.Some? && s.subs[i].lastAcked.value <= t.subs[i].lastAcked.value
  {
    if acts != [] {
      UndispatchedIsKept(s, acts[..|acts| - 1], i);
      UndispatchedStep(Play(s, acts[..|acts| - 1]), acts[|acts| - 1], i);
    }
  }

  // ----- where a batch ends -----

  /** Waiting for the subscription below the ack. */
  function LowOf(sub: Sub, ack: nat): Event -> bool {
    (e: Event) => Wants(sub, e) && Watermark(sub) < e.id < ack
  }

  function TopOf(sub: Sub, ack: nat): Event -> bool {
    (e: Event) => Wants(sub, e) && e.id >= ack
  }

  /** The next whole batch from this log ends below the ack: something waits below it, and
      either it fills the batch or nothing waits above. */
  predicate Lands(log: seq<Event>, sub: Sub, ack: nat) {
    var low := Select(log, LowOf(sub, ack));
    low != [] && (|low| >= EVENTS_PER_SUB || Select(log, TopOf(sub, ack)) == [])
  }

  lemma {:induction false} SplitPending(log: seq<Event>, sub: Sub, ack: nat)
    requires Sorted(log) && Watermark(sub) < ack
    ensures Select(log, Awaiting(sub)) == Select(log, LowOf(sub, ack)) + Select(log, TopOf(sub, ack))
  {
    if log != [] {
      var n := |log| - 1;
      SplitPending(log[..n], sub, ack);
      if LowOf(sub, ack)(log[n]) {
        forall e | e in log[..n] ensures !TopOf(sub, ack)(e) {
          var k :| 0 <= k < n && log[k] == e;
        }
        SelectNone(log[..n], TopOf(sub, ack));
      }
    }
  }

  lemma LandsIff(log: seq<Event>, sub: Sub, ack: nat)
    requires Sorted(log) && Watermark(sub) < ack && Pending(log, sub) != []
    ensures var batch := Pending(log, sub); batch[|batch| - 1].id < ack <==> Lands(log, sub, ack)
  {
    SplitPending(log, sub, ack);
    var low, top := Select(log, LowOf(sub, ack)), Select(log, TopOf(sub, ack));
    SelectMembers(log, LowOf(sub, ack));
    SelectMembers(log, TopOf(sub, ack));
    var batch := Pending(log, sub);
    var last := batch[|batch| - 1];
    assert last == (low + top)[|batch| - 1];
    if |batch| <= |low| {
      assert last == low[|batch| - 1] && last in low;
    } else {
      assert last == top[|batch| - 1 - |low|] && last in top;
    }
  }

  // ----- acks that are safe: nothing can end a batch below them -----

  /** The log after a cleanup with this cutoff, if any. */
  function Kept(log: seq<Event>, cut: Option<Time>): seq<Event> {
    if cut.None? then log else Select(log, Recent(cut.value))
  }

  /** A cutoff that a cleanup from now on may have. */
  predicate CutOk(s: State, cut: Option<Time>) {
    cut.None? || cut.value >= s.clock - EVENT_RETENTION
  }

  lemma KeptMembers(log: seq<Event>, cut: Option<Time>)
    requires Sorted(log)
    ensures Sorted(Kept(log, cut))
    ensures forall e :: e in Kept(log, cut) <==> e in log && (cut.None? || !(e.emittedAt < cut.value))
  {
    if cut.Some? {
      SelectMembers(log, Recent(cut.value));
      SelectSorted(log, Recent(cut.value));
    }
  }

  predicate UnusedBetween(s: State, sub: Sub, ack: nat) {
    exists id | Watermark(sub) < id < ack :: id !in s.ever
  }

  /** A batch may come to end below the ack: a fresh id fits under it, or what waits now,
      after some cleanup or none, makes such a batch. */
  ghost predicate Opening(s: State, sub: Sub, ack: nat) {
    UnusedBetween(s, sub, ack) || exists cut :: CutOk(s, cut) && Lands(Kept(s.log, cut), sub, ack)
  }

  /** What `log` holds below the ack is what a cleanup left of `was` there, and all it left is still there. */
  ghost predicate SameBelow(was: seq<Event>, log: seq<Event>, sub: Sub, ack: nat, cut: Option<Time>) {
    && (forall e | LowOf(sub, ack)(e) :: e in log <==> e in Kept(was, cut))
    && (forall e | e in Kept(was, cut) :: e in log)
  }

  ghost predicate Guarded(s: State, t: State, i: nat, ack: nat, cut: Option<Time>)
    requires i < |s.subs|
  {
    && WatermarksOk(t) && DebounceOk(t) && GenuineState(t) && s.ever.Keys <= t.ever.Keys && s.clock <= t.clock && t.window == s.window
    && i < |t.subs| && t.subs[i].agent == s.subs[i].agent && t.subs[i].kind == s.subs[i].kind
    && t.subs[i].lastAcked.Some? && t.subs[i].lastAcked.value >= ack
    && (Watermark(t.subs[i]) == Watermark(s.subs[i]) || Watermark(t.subs[i]) >= ack)
    && CutOk(s, cut) && SameBelow(s.log, t.log, s.subs[i], ack, cut)
  }

  /** A plain subscription fires its whole batch. */
  lemma PlainFire(t: State, a: Action)
    requires GenuineState(t) && DebounceOk(t) && Sorted(t.log) && Fires(t, a) && Plain(t.window, t.subs[a.sub])
    ensures var batch := Batch(t, a.sub); batch != [] && WatermarkAfter(t, a) == batch[|batch| - 1].id
  {
    var batch := Batch(t, a.sub);
    PendingFacts(t.log, t.subs[a.sub]);
    if Debouncing(t, a.sub, a.redisUp) {
      NoWindowNoDebounce(t, t.subs[a.sub].agent);
      SelectNone(batch, High());
      SelectAll(batch, NotHigh());
    }
  }

  lemma NoWindowNoDebounce(t: State, agent: string)
    requires DebounceOk(t)
    ensures Debounced(t, agent) ==> t.window > 0.0
  {
    DebouncedIff(t, agent);
  }

  lemma {:induction false} SelectAll(s: seq<Event>, p: Event -> bool)
    requires forall e | e in s :: p(e)
    ensures Select(s, p) == s
  {
    if s != [] {
      assert s[|s| - 1] in s;
      SelectAll(s[..|s| - 1], p);
      assert s == s[..|s| - 1] + [s[|s| - 1]];
    }
  }

  /** With the same events below the ack, a batch that ends there could have come from `s`. */
  lemma SameLanding(s: State, t: State, sub: Sub, ack: nat, cut: Option<Time>)
    requires Sorted(s.log) && Sorted(t.log) && SameBelow(s.log, t.log, sub, ack, cut) && Lands(t.log, sub, ack)
    ensures Lands(Kept(s.log, cut), sub, ack)
  {
    var kept := Kept(s.log, cut);
    KeptMembers(s.log, cut);
    SelectMembers(t.log, LowOf(sub, ack));
    SelectSorted(t.log, LowOf(sub, ack));
    SelectMembers(kept, LowOf(sub, ack));
    SelectSorted(kept, LowOf(sub, ack));
    SortedUnique(Select(t.log, LowOf(sub, ack)), Select(kept, LowOf(sub, ack)));
    SelectMembers(t.log, TopOf(sub, ack));
    SelectMembers(kept, TopOf(sub, ack));
    var top := Select(kept, TopOf(sub, ack));
    assert top != [] ==> top[0] in top && top[0] in Select(t.log, TopOf(sub, ack));
  }

  lemma FireStaysAbove(s: State, t: State, i: nat, ack: nat, cut: Option<Time>, a: Action)
    requires i < |s.subs| && Sorted(s.log) && Guarded(s, t, i, ack, cut) && Watermark(s.subs[i]) < ack
    requires Plain(s.window, s.subs[i]) && !Opening(s, s.subs[i], ack)
    requires Fires(t, a) && a.sub == i
    ensures WatermarkAfter(t, a) >= ack
  {
    FireCovers(t, a, 0);
    if Watermark(t.subs[i]) == Watermark(s.subs[i]) {
      PlainFire(t, a);
      LandsIff(t.log, t.subs[i], ack);
      SameSubSameLanding(t.log, t.subs[i], s.subs[i], ack);
      if Lands(t.log, s.subs[i], ack) {
        SameLanding(s, t, s.subs[i], ack, cut);
      }
    }
  }

  lemma SameSubSameLanding(log: seq<Event>, a: Sub, b: Sub, ack: nat)
    requires a.agent == b.agent && a.kind == b.kind && Watermark(a) == Watermark(b)
    ensures Lands(log, a, ack) == Lands(log, b, ack)
  {
    SelectCongruent(log, LowOf(a, ack), LowOf(b, ack));
    SelectCongruent(log, TopOf(a, ack), TopOf(b, ack));
  }

  lemma EmitSameBelow(s: State, t: State, i: nat, ack: nat, cut: Option<Time>, e: Event)
    requires i < |s.subs| && Guarded(s, t, i, ack, cut) && !UnusedBetween(s, s.subs[i], ack)
    ensures SameBelow(s.log, Apply(t, Emit(e)).log, s.subs[i], ack, cut)
  {
    InsertMembers(t.log, e);
    assert LowOf(s.subs[i], ack)(e) ==> e.id in s.ever;
  }

  lemma CleanupSameBelow(was: seq<Event>, log: seq<Event>, sub: Sub, ack: nat, cut: Option<Time>, c: Time)
    requires Sorted(was) && SameBelow(was, log, sub, ack, cut)
    ensures SameBelow(was, Select(log, Recent(c)), sub, ack, LaterCut(cut, c))
  {
    KeptMembers(was, cut);
    KeptMembers(was, LaterCut(cut, c));
    SelectMembers(log, Recent(c));
  }

  function LaterCut(cut: Option<Time>, c: Time): Option<Time> {
    if cut.None? || cut.value < c then Some(c) else cut
  }

  lemma SameBelowStep(s: State, t: State, i: nat, ack: nat, cut: Option<Time>, a: Action) returns (later: Option<Time>)
    requires WatermarksOk(s) && i < |s.subs| && Guarded(s, t, i, ack, cut) && !UnusedBetween(s, s.subs[i], ack)
    ensures CutOk(s, later) && SameBelow(s.log, Apply(t, a).log, s.subs[i], ack, later)
  {
    later := cut;
    if a.Cleanup? {
      later := LaterCut(cut, t.clock - EVENT_RETENTION);
      CleanupSameBelow(s.log, t.log, s.subs[i], ack, cut, t.clock - EVENT_RETENTION);
    } else if a.Emit? {
      EmitSameBelow(s, t, i, ack, cut, a.event);
    } else {
      assert Apply(t, a).log == t.log;
    }
  }

  /** The subscription's own columns. */
  lemma AckStaysAbove(s: State, t: State, i: nat, ack: nat, cut: Option<Time>, a: Action)
    requires WatermarksOk(s) && i < |s.subs| && Guarded(s, t, i, ack, cut) && Watermark(s.subs[i]) < ack
    requires Plain(s.window, s.subs[i]) && !Opening(s, s.subs[i], ack)
    ensures var u := Apply(t, a);
      && i < |u.subs| && u.subs[i].lastAcked.Some? && u.subs[i].lastAcked.value >= ack
      && (Watermark(u.subs[i]) == Watermark(s.subs[i]) || Watermark(u.subs[i]) >= ack)
  {
    if Fires(t, a) && a.sub == i {
      FireStaysAbove(s, t, i, ack, cut, a);
      OwnFire(t, a);
    } else {
      NoOwnFire(t, a, i);
    }
  }

  lemma OwnFire(t: State, a: Action)
    requires Fires(t, a)
    ensures var u := Apply(t, a);
      && |u.subs| == |t.subs|
      && (if a.ok && a.committed
          then u.subs[a.sub].lastAcked == u.subs[a.sub].lastDispatched == Some(WatermarkAfter(t, a))
          else u.subs[a.sub].lastAcked == t.subs[a.sub].lastAcked && u.subs[a.sub].lastDispatched == t.subs[a.sub].lastDispatched)
  {
  }

  lemma NoOwnFire(t: State, a: Action, i: nat)
    requires i < |t.subs| && t.subs[i].lastAcked.Some? && !(Fires(t, a) && a.sub == i)
    ensures var u := Apply(t, a);
      && i < |u.subs| && u.subs[i].lastDispatched == t.subs[i].lastDispatched
      && u.subs[i].lastAcked.Some? && u.subs[i].lastAcked.value >= t.subs[i].lastAcked.value
  {
  }

  lemma Frame(t: State, a: Action)
    ensures var u := Apply(t, a); t.ever.Keys <= u.ever.Keys && t.clock <= u.clock && u.window == t.window
  {
  }

  lemma GuardedStep(s: State, t: State, i: nat, ack: nat, cut: Option<Time>, a: Action) returns (later: Option<Time>)
    requires WatermarksOk(s) && i < |s.subs| && Guarded(s, t, i, ack, cut) && Watermark(s.subs[i]) < ack
    requires Plain(s.window, s.subs[i]) && !Opening(s, s.subs[i], ack) && Genuine(a)
    ensures Guarded(s, Apply(t, a), i, ack, later)
  {
    later := SameBelowStep(s, t, i, ack, cut, a);
    AckStaysAbove(s, t, i, ack, cut, a);
    StepKeepsWatermarks(t, a);
    StepKeepsMarkers(t, a);
    GenuineStep(t, a);
    WatermarkStep(t, a, i);
    Frame(t, a);
  }

  lemma {:induction false} ClosedIsKept(s: State, acts: seq<Action>, i: nat, ack: nat) returns (cut: Option<Time>)
    requires WatermarksOk(s) && DebounceOk(s) && GenuineState(s) && i < |s.subs| && s.subs[i].lastAcked == Some(ack)
    requires Watermark(s.subs[i]) < ack && Plain(s.window, s.subs[i]) && !Opening(s, s.subs[i], ack) && GenuineRun(acts)
    ensures Guarded(s, Play(s, acts), i, ack, cut)
  {
    if acts == [] {
      cut := None;
    } else {
      var n := |acts| - 1;
      var before := ClosedIsKept(s, acts[..n], i, ack);
      cut := GuardedStep(s, Play(s, acts[..n]), i, ack, before, acts[n]);
    }
  }

  // ----- acks that are not -----

  lemma PlayThree(s: State, a: Action, b: Action, c: Action)
    ensures Play(s, [a, b, c]) == Apply(Apply(Apply(s, a), b), c)
  {
    PlayPair(s, a, b);
    PlayLast(s, [a, b], c);
    assert [a, b] + [c] == [a, b, c];
  }

  /** A time after which every event of the log is past its retention. */
  lemma {:induction false} AllOld(log: seq<Event>, from: Time) returns (now: Time)
    ensures now >= from && forall e | e in log :: e.emittedAt < now - EVENT_RETENTION
  {
    if log == [] {
      now := from;
    } else {
      var n := |log| - 1;
      var before := AllOld(log[..n], from);
      var last := log[n].emittedAt + EVENT_RETENTION + 1.0;
      now := if before < last then last else before;
      assert log == log[..n] + [log[n]];
    }
  }

  /** Subscription `i` of `s` as it is, due, with nothing in the log. */
  ghost predicate Idle(s: State, t: State, i: nat) {
    && WatermarksOk(t) && i < |s.subs| && i < |t.subs| && t.subs[i] == s.subs[i] && t.window == s.window
    && IsDue(t.subs[i], t.clock) && t.log == [] && t.ever == s.ever
  }

  /** A time past the pause of a subscription. */
  function DueAt(s: State, sub: Sub): (now: Time)
    requires sub.webhook && !sub.detached
    ensures now >= s.clock && IsDue(sub, now)
  {
    if sub.pausedUntil.Some? && s.clock <= sub.pausedUntil.value then sub.pausedUntil.value + 1.0 else s.clock
  }

  lemma CleanedUp(s: State)
    requires WatermarksOk(s) && forall e | e in s.log :: e.emittedAt < s.clock - EVENT_RETENTION
    ensures var t := Apply(s, Cleanup);
      WatermarksOk(t) && t.log == [] && t.subs == s.subs && t.clock == s.clock && t.window == s.window && t.ever == s.ever
  {
    StepKeepsWatermarks(s, Cleanup);
    SelectNone(s.log, Recent(s.clock - EVENT_RETENTION));
  }

  /** Wait until the pause is over and the log has been cleaned up. */
  lemma WaitItOut(s: State, i: nat) returns (acts: seq<Action>)
    requires WatermarksOk(s) && i < |s.subs| && s.subs[i].webhook && !s.subs[i].detached
    ensures GenuineRun(acts) && Idle(s, Play(s, acts), i)
  {
    var now := AllOld(s.log, DueAt(s, s.subs[i]));
    StepKeepsWatermarks(s, Tick(now));
    assert Apply(s, Tick(now)) == s.(clock := now);
    CleanedUp(s.(clock := now));
    PlayPair(s, Tick(now), Cleanup);
    acts := [Tick(now), Cleanup];
  }

  lemma PendingOne(e: Event, sub: Sub)
    requires Wants(sub, e) && e.id > Watermark(sub)
    ensures Pending([e], sub) == [e]
  {
    SelectAll([e], Awaiting(sub));
  }

  lemma PendingTwo(e: Event, f: Event, sub: Sub)
    requires Wants(sub, e) && e.id > Watermark(sub) && Wants(sub, f) && f.id > Watermark(sub)
    ensures Pending([e, f], sub) == [e, f]
  {
    SelectAll([e, f], Awaiting(sub));
  }

  // ----- a held-back fire -----

  lemma SelectPair(e: Event, f: Event, p: Event -> bool)
    ensures Select([e, f], p) == (if p(e) then [e] else []) + (if p(f) then [f] else [])
  {
    assert [e, f][..1] == [e] && [e][..0] == [];
    assert Select([e], p) == if p(e) then [e] else [];
  }

  /** A lost cycle: the one pending event, of priority 4, goes out and is marked, and the
      rollback leaves it pending. */
  lemma LostFireStamps(s: State, i: nat, e: Event)
    requires WatermarksOk(s) && s.window > 0.0 && i < |s.subs| && IsDue(s.subs[i], s.clock)
    requires Pending(s.log, s.subs[i]) == [e] && IsHigh(e) && !Debounced(s, s.subs[i].agent)
    ensures var t := Apply(s, Dispatch(i, true, s.clock, true, true, false));
      && WatermarksOk(t) && Debounced(t, s.subs[i].agent)
      && t.log == s.log && t.ever == s.ever && t.clock == s.clock && t.window == s.window && t.subs == s.subs
  {
    var fire := Dispatch(i, true, s.clock, true, true, false);
    StepKeepsWatermarks(s, fire);
    assert FiredNow(s, i, true) == [e] && IsHigh(FiredNow(s, i, true)[0]);
    assert Stamps(s, fire);
    MarkerWrites(s, fire);
    MarkerOutlivesWindow(s.window);
  }

  /** Debounced, with a priority-4 event ahead of an ordinary one: the ordinary one fires,
      the watermark stays, and is written over the ack. */
  lemma HeldBackFire(s: State, i: nat, e: Event, f: Event)
    requires i < |s.subs| && IsDue(s.subs[i], s.clock) && Debounced(s, s.subs[i].agent)
    requires Pending(s.log, s.subs[i]) == [e, f] && IsHigh(e) && !IsHigh(f) && e.id < f.id
    ensures var t := Apply(s, Dispatch(i, true, s.clock, true, true, true));
      |t.subs| == |s.subs| && t.subs[i].lastAcked == Some(Watermark(s.subs[i]))
  {
    var fire := Dispatch(i, true, s.clock, true, true, true);
    SelectPair(e, f, NotHigh());
    SelectPair(e, f, High());
    assert FiredNow(s, i, true) == [f] && DeferredNow(s, i, true) == [e];
    SelectNone([f], Below(e.id));
    assert WatermarkAfter(s, fire) == Watermark(s.subs[i]);
  }

  /** One priority-4 event in the log, pending, and the recipient debounced. */
  ghost predicate Held(s: State, t: State, i: nat, e: Event) {
    && WatermarksOk(t) && i < |s.subs| && i < |t.subs| && t.subs[i] == s.subs[i]
    && IsDue(t.subs[i], t.clock) && Debounced(t, t.subs[i].agent)
    && t.log == [e] && IsHigh(e) && Wants(t.subs[i], e) && Watermark(t.subs[i]) < e.id
    && forall id | id in t.ever :: id <= e.id
  }

  /** A priority-4 event arrives at an idle subscription. */
  lemma OneEmitted(s: State, i: nat, e: Event)
    requires Idle(s, s, i) && Wants(s.subs[i], e) && IsHigh(e) && e.id >= 1 && forall id | id in s.ever :: id < e.id
    ensures var t := Apply(s, Emit(e));
      && WatermarksOk(t) && t.subs == s.subs && t.clock == s.clock && t.window == s.window && t.log == [e]
      && Watermark(s.subs[i]) < e.id && Pending(t.log, s.subs[i]) == [e] && forall id | id in t.ever :: id <= e.id
  {
    EmitAtEnd(s, e);
    PendingOne(e, s.subs[i]);
  }

  lemma HoldOne(s: State, i: nat) returns (acts: seq<Action>, e: Event)
    requires Idle(s, s, i) && s.window > 0.0 && s.subs[i].kind == DELIVERED
    ensures GenuineRun(acts) && Held(s, Play(s, acts), i, e)
  {
    var n := FreshId(s.ever.Keys);
    e := Event(n, s.subs[i].agent, DELIVERED, Number(4), s.clock);
    OneEmitted(s, i, e);
    PlayOne(s, Emit(e));
    var more := HoldEmitted(s, Apply(s, Emit(e)), i, e);
    PlayAppend(s, [Emit(e)], more);
    GenuineAppend([Emit(e)], more);
    acts := [Emit(e)] + more;
  }

  /** Where the recipient is not debounced already, a lost fire sees to it. */
  lemma HoldEmitted(s: State, t: State, i: nat, e: Event) returns (acts: seq<Action>)
    requires WatermarksOk(t) && i < |s.subs| && t.subs == s.subs && t.window > 0.0 && IsDue(t.subs[i], t.clock)
    requires t.log == [e] && IsHigh(e) && Wants(t.subs[i], e) && Watermark(t.subs[i]) < e.id
    requires Pending(t.log, t.subs[i]) == [e] && forall id | id in t.ever :: id <= e.id
    ensures GenuineRun(acts) && Held(s, Play(t, acts), i, e)
  {
    if Debounced(t, t.subs[i].agent) {
      acts := [];
    } else {
      acts := HoldByLostFire(s, t, i, e);
    }
  }

  lemma HoldByLostFire(s: State, t: State, i: nat, e: Event) returns (acts: seq<Action>)
    requires WatermarksOk(t) && i < |s.subs| && t.subs == s.subs && t.window > 0.0 && IsDue(t.subs[i], t.clock)
    requires t.log == [e] && IsHigh(e) && Wants(t.subs[i], e) && Watermark(t.subs[i]) < e.id
    requires Pending(t.log, t.subs[i]) == [e] && !Debounced(t, t.subs[i].agent) && forall id | id in t.ever :: id <= e.id
    ensures GenuineRun(acts) && Held(s, Play(t, acts), i, e)
  {
    LostFireStamps(t, i, e);
    acts := [Dispatch(i, true, t.clock, true, true, false)];
    PlayOne(t, acts[0]);
  }

  lemma FireBehind(s: State, t: State, i: nat, e: Event) returns (acts: seq<Action>)
    requires Held(s, t, i, e) && t.subs[i].kind == DELIVERED
    ensures GenuineRun(acts)
    ensures i < |Play(t, acts).subs| && Play(t, acts).subs[i].lastAcked == Some(Watermark(s.subs[i]))
  {
    var sub := t.subs[i];
    var f := Event(e.id + 1, sub.agent, sub.kind, Number(3), t.clock);
    EmitAtEnd(t, f);
    var u := Apply(t, Emit(f));
    assert u.log == [e, f];
    PendingTwo(e, f, sub);
    HeldBackFire(u, i, e, f);
    acts := [Emit(f), Dispatch(i, true, t.clock, true, true, true)];
    PlayPair(t, acts[0], acts[1]);
  }

  lemma GenuineAppend(a: seq<Action>, b: seq<Action>)
    requires GenuineRun(a) && GenuineRun(b)
    ensures GenuineRun(a + b)
  {
  }

  /** An attached webhook for `message.delivered` can have its watermark written over its ack. */
  lemma RewindToWatermark(s: State, i: nat) returns (acts: seq<Action>)
    requires WatermarksOk(s) && s.window > 0.0 && i < |s.subs| && s.subs[i].webhook && !s.subs[i].detached
    requires s.subs[i].kind == DELIVERED
    ensures GenuineRun(acts)
    ensures i < |Play(s, acts).subs| && Play(s, acts).subs[i].lastAcked == Some(Watermark(s.subs[i]))
  {
    var wait := WaitItOut(s, i);
    var t := Play(s, wait);
    var hold, e := HoldOne(t, i);
    var last := FireBehind(t, Play(t, hold), i, e);
    PlayAppend(t, hold, last);
    PlayAppend(s, wait, hold + last);
    GenuineAppend(hold, last);
    GenuineAppend(wait, hold + last);
    acts := wait + (hold + last);
  }

  // ----- a batch that ends below the ack -----

  /** With Redis away a due subscription fires its whole batch, and its end becomes the ack. */
  lemma WholeFire(t: State, i: nat)
    requires i < |t.subs| && IsDue(t.subs[i], t.clock) && Batch(t, i) != []
    ensures var batch := Batch(t, i); var u := Apply(t, Dispatch(i, true, t.clock, false, false, true));
      |u.subs| == |t.subs| && u.subs[i].lastAcked == Some(batch[|batch| - 1].id)
  {
    assert FiredNow(t, i, false) == Batch(t, i) && DeferredNow(t, i, false) == [];
  }

  lemma RewindByFreshId(s: State, i: nat, id: nat) returns (acts: seq<Action>)
    requires WatermarksOk(s) && i < |s.subs| && s.subs[i].webhook && !s.subs[i].detached && IsKnown(s.subs[i].kind)
    requires Watermark(s.subs[i]) < id && id !in s.ever
    ensures GenuineRun(acts)
    ensures i < |Play(s, acts).subs| && Play(s, acts).subs[i].lastAcked == Some(id)
  {
    var wait := WaitItOut(s, i);
    var t, sub := Play(s, wait), s.subs[i];
    var e := Event(id, sub.agent, sub.kind, Number(3), t.clock);
    var u := Apply(t, Emit(e));
    assert u.log == [e] && u.subs == t.subs && u.clock == t.clock;
    PendingOne(e, sub);
    WholeFire(u, i);
    var last := [Emit(e), Dispatch(i, true, t.clock, false, false, true)];
    PlayPair(t, last[0], last[1]);
    PlayAppend(s, wait, last);
    acts := wait + last;
  }

  /** Clean up with this cutoff, or not at all. */
  lemma CutTo(s: State, i: nat, cut: Option<Time>) returns (acts: seq<Action>)
    requires WatermarksOk(s) && i < |s.subs| && CutOk(s, cut)
    ensures GenuineRun(acts)
    ensures var t := Play(s, acts);
      WatermarksOk(t) && t.log == Kept(s.log, cut) && t.subs == s.subs && s.clock <= t.clock
  {
    if cut.None? {
      acts := [];
    } else {
      var now := cut.value + EVENT_RETENTION;
      var t := s.(clock := now);
      assert Apply(s, Tick(now)) == t;
      StepKeepsWatermarks(s, Tick(now));
      CleanTo(t, cut.value);
      acts := [Tick(now), Cleanup];
      PlayPair(s, Tick(now), Cleanup);
    }
  }

  lemma CleanTo(t: State, c: Time)
    requires WatermarksOk(t) && t.clock == c + EVENT_RETENTION
    ensures var u := Apply(t, Cleanup);
      WatermarksOk(u) && u.log == Select(t.log, Recent(c)) && u.subs == t.subs && u.clock == t.clock
  {
    StepKeepsWatermarks(t, Cleanup);
    assert t.clock - EVENT_RETENTION == c;
  }

  lemma LandingBatch(log: seq<Event>, sub: Sub, ack: nat)
    requires Sorted(log) && Watermark(sub) < ack && Lands(log, sub, ack)
    ensures var batch := Pending(log, sub); batch != [] && batch[|batch| - 1].id < ack
  {
    SplitPending(log, sub, ack);
    assert Pending(log, sub) != [];
    LandsIff(log, sub, ack);
  }

  lemma FireWhenDue(t: State, i: nat, ack: nat) returns (acts: seq<Action>)
    requires WatermarksOk(t) && i < |t.subs| && t.subs[i].webhook && !t.subs[i].detached
    requires Watermark(t.subs[i]) < ack && Lands(t.log, t.subs[i], ack)
    ensures GenuineRun(acts)
    ensures var u := Play(t, acts); i < |u.subs| && u.subs[i].lastAcked.Some? && u.subs[i].lastAcked.value < ack
  {
    var now := DueAt(t, t.subs[i]);
    var u := t.(clock := now);
    assert Apply(t, Tick(now)) == u;
    LandingBatch(t.log, t.subs[i], ack);
    WholeFire(u, i);
    acts := [Tick(now), Dispatch(i, true, now, false, false, true)];
    PlayPair(t, acts[0], acts[1]);
  }

  lemma RewindByCut(s: State, i: nat, ack: nat, cut: Option<Time>) returns (acts: seq<Action>)
    requires WatermarksOk(s) && i < |s.subs| && s.subs[i].webhook && !s.subs[i].detached
    requires Watermark(s.subs[i]) < ack && CutOk(s, cut) && Lands(Kept(s.log, cut), s.subs[i], ack)
    ensures GenuineRun(acts)
    ensures var u := Play(s, acts); i < |u.subs| && u.subs[i].lastAcked.Some? && u.subs[i].lastAcked.value < ack
  {
    var first := CutTo(s, i, cut);
    var last := FireWhenDue(Play(s, first), i, ack);
    PlayAppend(s, first, last);
    GenuineAppend(first, last);
    acts := first + last;
  }

  lemma OpeningRewinds(s: State, i: nat) returns (acts: seq<Action>)
    requires WatermarksOk(s) && i < |s.subs| && s.subs[i].webhook && !s.subs[i].detached && IsKnown(s.subs[i].kind)
    requires s.subs[i].lastAcked.Some? && Watermark(s.subs[i]) < s.subs[i].lastAcked.value
    requires Opening(s, s.subs[i], s.subs[i].lastAcked.value)
    ensures GenuineRun(acts) && RewindsTo(s, i, acts)
  {
    var sub, ack := s.subs[i], s.subs[i].lastAcked.value;
    if UnusedBetween(s, sub, ack) {
      var id :| Watermark(sub) < id < ack && id !in s.ever;
      acts := RewindByFreshId(s, i, id);
    } else {
      var cut :| CutOk(s, cut) && Lands(Kept(s.log, cut), sub, ack);
      acts := RewindByCut(s, i, ack, cut);
    }
  }

  // ----- the exact condition -----

  /** At every state that a run of genuine events and subscriptions can reach: an ack can be
      taken back by some such continuation if and only if its subscription is an attached
      webhook, the ack is ahead of its dispatch watermark, and either events of it can be
      held back, or a batch may come to end below the ack. */
  lemma AckRewoundIff(init: State, past: seq<Action>, i: nat)
    requires Initial(init) && GenuineRun(past)
    requires i < |Play(init, past).subs| && Play(init, past).subs[i].lastAcked.Some?
    ensures var s := Play(init, past); var sub := s.subs[i];
      CanBeRewound(s, i) <==>
        && sub.webhook && !sub.detached && Watermark(sub) < sub.lastAcked.value
        && (!Plain(s.window, sub) || Opening(s, sub, sub.lastAcked.value))
  {
    RunKeepsWatermarks(init, past);
    RunKeepsMarkers(init, past);
    GenuineKept(init, past);
    RewoundIff(Play(init, past), i);
  }

  lemma RewoundIff(s: State, i: nat)
    requires WatermarksOk(s) && DebounceOk(s) && GenuineState(s) && i < |s.subs| && s.subs[i].lastAcked.Some?
    ensures var sub := s.subs[i];
      CanBeRewound(s, i) <==>
        && sub.webhook && !sub.detached && Watermark(sub) < sub.lastAcked.value
        && (!Plain(s.window, sub) || Opening(s, sub, sub.lastAcked.value))
  {
    var sub := s.subs[i];
    if sub.lastAcked.value <= Watermark(sub) {
      forall acts | GenuineRun(acts) ensures !RewindsTo(s, i, acts) { AckBehindIsKept(s, acts, i); }
    } else if !sub.webhook || sub.detached {
      forall acts | GenuineRun(acts) ensures !RewindsTo(s, i, acts) { UndispatchedIsKept(s, acts, i); }
    } else if !Plain(s.window, sub) {
      var acts := RewindToWatermark(s, i);
      assert RewindsTo(s, i, acts);
    } else if Opening(s, sub, sub.lastAcked.value) {
      var acts := OpeningRewinds(s, i);
    } else {
      forall acts | GenuineRun(acts) ensures !RewindsTo(s, i, acts) {
        var cut := ClosedIsKept(s, acts, i, sub.lastAcked.value);
      }
    }
  }

  /** The next id is safe where nothing can be held back: an ack of one past the watermark
      is taken back by no continuation. */
  lemma NextIdIsSafe(s: State, i: nat)
    requires WatermarksOk(s) && DebounceOk(s) && GenuineState(s) && i < |s.subs| && Plain(s.window, s.subs[i])
    requires s.subs[i].lastAcked == Some(Watermark(s.subs[i]) + 1)
    ensures !CanBeRewound(s, i)
  {
    var sub, ack := s.subs[i], s.subs[i].lastAcked.value;
    forall cut ensures !Lands(Kept(s.log, cut), sub, ack) { SelectNone(Kept(s.log, cut), LowOf(sub, ack)); }
    RewoundIff(s, i);
  }

  /** From a fresh database, debounce or no debounce: a subscriber that acks ahead, to any
      `n >= 2`, finds its ack at 1 after the first event is dispatched. */
  lemma AckAheadIsRewound(init: State, agent: string, kind: string, n: nat)
    requires Initial(init) && n >= 2
    ensures var e := Event(1, agent, kind, Number(3), init.clock);
      var acts := [Subscribe(agent, kind, true), Ack(0, n), Emit(e)];
      var before, after := Play(init, acts), Play(init, acts + [Dispatch(0, true, init.clock, false, false, true)]);
      && |before.subs| == 1 && before.subs[0].lastAcked == Some(n)
      && |after.subs| == 1 && after.subs[0].lastAcked == Some(1)
  {
    var e := Event(1, agent, kind, Number(3), init.clock);
    var acts, fire := [Subscribe(agent, kind, true), Ack(0, n), Emit(e)], Dispatch(0, true, init.clock, false, false, true);
    var sub := Sub(agent, kind, true, false, None, Some(n), 0, None);
    PlayThree(init, acts[0], acts[1], acts[2]);
    assert Apply(init, acts[0]).subs == [sub.(lastAcked := None)];
    var acked := init.(subs := [sub]);
    assert Apply(Apply(init, acts[0]), acts[1]) == acked;
    var t := Apply(acked, Emit(e));
    assert t.log == [e] && t.subs == [sub] && t.clock == init.clock;
    assert (acts + [fire])[..3] == acts;
    PendingOne(e, sub);
    WholeFire(t, 0);
  }
}
