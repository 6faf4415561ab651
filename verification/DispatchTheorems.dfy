/** What subscription dispatch guarantees over whole runs. */
module DispatchTheorems {
  import opened Common
  import opened EventLog
  import opened DispatchProtocol

  lemma PlayLast(s: State, front: seq<Action>, last: Action)
    ensures Play(s, front + [last]) == Apply(Play(s, front), last)
  {
    assert (front + [last])[..|front|] == front;
  }

  lemma PlayAppend(s: State, a: seq<Action>, b: seq<Action>)
    ensures Play(s, a + b) == Play(Play(s, a), b)
  {
    FoldAppend(Apply, s, a, b);
  }

  lemma PlayOne(s: State, a: Action)
    ensures Play(s, [a]) == Apply(s, a)
  {
    PlayLast(s, [], a);
    assert [] + [a] == [a];
  }

  lemma PlayPair(s: State, a: Action, b: Action)
    ensures Play(s, [a, b]) == Apply(Apply(s, a), b)
  {
    PlayOne(s, a);
    PlayLast(s, [a], b);
    assert [a] + [b] == [a, b];
  }

  // ----- the watermark -----

  /** In every run: an event of the subscription at or below its watermark was in a 2xx
      batch for it, or was removed by the retention cleanup, or became visible only
      after the watermark stood there; and a late event is in no batch. */
  lemma WatermarkSafety(init: State, acts: seq<Action>, i: nat, id: nat)
    requires Initial(init)
    requires var s := Play(init, acts);
      i < |s.subs| && id in s.ever && Wants(s.subs[i], s.ever[id]) && id <= Watermark(s.subs[i])
    ensures var s := Play(init, acts);
      (i, id) in s.delivered || id in s.removed || (i, id) in s.late
    ensures var s := Play(init, acts); (i, id) in s.late ==> (i, id) !in s.delivered
  {
    RunKeepsWatermarks(init, acts);
    assert Passed(Play(init, acts), i);
  }

  /** Each emitted id exceeds every id seen before. */
  predicate InOrder(s: State, a: Action) {
    a.Emit? ==> forall id | id in s.ever :: id < a.event.id
  }

  predicate InOrderRun(s: State, acts: seq<Action>) {
    forall i | 0 <= i < |acts| :: InOrder(Play(s, acts[..i]), acts[i])
  }

  /** If ids become visible in increasing order, nothing is late. */
  lemma {:induction false} InOrderNothingLate(init: State, acts: seq<Action>)
    requires Initial(init) && InOrderRun(init, acts)
    ensures Play(init, acts).late == {}
  {
    if acts != [] {
      var n := |acts| - 1;
      forall i | 0 <= i < n ensures InOrder(Play(init, acts[..n][..i]), acts[..n][i]) {
        assert acts[..n][..i] == acts[..i];
      }
      InOrderNothingLate(init, acts[..n]);
      RunKeepsWatermarks(init, acts[..n]);
      assert InOrder(Play(init, acts[..n]), acts[n]);
      InOrderStep(Play(init, acts[..n]), acts[n]);
    }
  }

  lemma InOrderStep(s: State, a: Action)
    requires WatermarksOk(s) && InOrder(s, a)
    ensures Apply(s, a).late == s.late
  {
    if a.Emit? {
      forall i: nat | i < |s.subs| ensures !(a.event.id <= Watermark(s.subs[i]) && a.event.id >= 1) {}
    }
  }

  lemma WatermarkStep(s: State, a: Action, i: nat)
    requires WatermarksOk(s) && i < |s.subs|
    ensures var t := Apply(s, a);
      && i < |t.subs| && Watermark(s.subs[i]) <= Watermark(t.subs[i]) && s.late <= t.late
      && t.subs[i].agent == s.subs[i].agent && t.subs[i].kind == s.subs[i].kind
  {
    if Fires(s, a) {
      FireCovers(s, a, 0);
    }
  }

  /** The dispatch watermark never moves back, in any run; nor does a subscription change hands. */
  lemma {:induction false} WatermarkNeverDecreases(s: State, acts: seq<Action>, i: nat)
    requires WatermarksOk(s) && i < |s.subs|
    ensures i < |Play(s, acts).subs|
    ensures Watermark(s.subs[i]) <= Watermark(Play(s, acts).subs[i])
    ensures Play(s, acts).subs[i].agent == s.subs[i].agent && Play(s, acts).subs[i].kind == s.subs[i].kind
    ensures s.late <= Play(s, acts).late
  {
    if acts != [] {
      var n := |acts| - 1;
      WatermarkNeverDecreases(s, acts[..n], i);
      RunKeepsWatermarks(s, acts[..n]);
      WatermarkStep(Play(s, acts[..n]), acts[n], i);
    }
  }

  /** An event that becomes visible at or below a watermark is lost to that subscription
      in every continuation. */
  lemma VisibleTooLateIsLost(s: State, e: Event, i: nat, acts: seq<Action>)
    requires WatermarksOk(s) && i < |s.subs| && Wants(s.subs[i], e)
    requires e.id >= 1 && e.id !in s.ever && e.id <= Watermark(s.subs[i])
    ensures (i, e.id) !in Play(Apply(s, Emit(e)), acts).delivered
  {
    var t := Apply(s, Emit(e));
    StepKeepsWatermarks(s, Emit(e));
    assert (i, e.id) in t.late;
    WatermarkNeverDecreases(t, acts, i);
    RunKeepsWatermarks(t, acts);
  }

  /** A due subscription with `e` in its backlog, Redis down and a 2xx answer: either `e`
      is in the batch, or the watermark moves strictly closer to it. */
  lemma NextBatch(s: State, i: nat, e: Event)
    requires WatermarksOk(s) && i < |s.subs| && IsDue(s.subs[i], s.clock)
    requires e in s.log && Wants(s.subs[i], e) && Watermark(s.subs[i]) < e.id
    ensures var t := Apply(s, Dispatch(i, true, s.clock, false, false, true));
      && WatermarksOk(t) && t.log == s.log && |t.subs| == |s.subs| && Wants(t.subs[i], e)
      && t.subs[i].webhook && !t.subs[i].detached
      && ((i, e.id) in t.delivered || Watermark(s.subs[i]) < Watermark(t.subs[i]) < e.id)
  {
    var fire := Dispatch(i, true, s.clock, false, false, true);
    var batch := Batch(s, i);
    PendingFacts(s.log, s.subs[i]);
    SelectMembers(s.log, Awaiting(s.subs[i]));
    assert e in Select(s.log, Awaiting(s.subs[i]));
    assert FiredNow(s, i, false) == batch && batch != [];
    assert Fires(s, fire);
    StepKeepsWatermarks(s, fire);
    var last := batch[|batch| - 1];
    assert last in batch;
    if e in batch {
      IdOf(batch, e);
    } else {
      assert last.id < e.id;
    }
  }

  /** Dispatching until `e` is in the batch. */
  lemma DrainTo(s: State, i: nat, e: Event) returns (acts: seq<Action>)
    requires WatermarksOk(s) && i < |s.subs| && s.subs[i].webhook && !s.subs[i].detached
    requires e in s.log && Wants(s.subs[i], e) && Watermark(s.subs[i]) < e.id
    ensures (i, e.id) in Play(s, acts).delivered
    decreases e.id - Watermark(s.subs[i])
  {
    var pause := s.subs[i].pausedUntil;
    var due := if pause.Some? && s.clock <= pause.value then pause.value + 1.0 else s.clock;
    var t := Apply(s, Tick(due));
    var fire := Dispatch(i, true, due, false, false, true);
    StepKeepsWatermarks(s, Tick(due));
    NextBatch(t, i, e);
    var u := Apply(t, fire);
    acts := [Tick(due)] + [fire];
    PlayAppend(s, [Tick(due)], [fire]);
    PlayOne(s, Tick(due));
    PlayOne(t, fire);
    if (i, e.id) !in u.delivered {
      var rest := DrainTo(u, i, e);
      PlayAppend(s, acts, rest);
      acts := acts + rest;
    }
  }

  /** Exactly the events visible above the watermark can still be delivered: an attached
      webhook subscription can reach an event in the log if and only if its watermark is below it. */
  lemma DeliverableIff(s: State, i: nat, e: Event)
    requires WatermarksOk(s) && i < |s.subs| && s.subs[i].webhook && !s.subs[i].detached
    requires e in s.log && Wants(s.subs[i], e) && (i, e.id) !in s.delivered
    ensures (exists acts :: (i, e.id) in Play(s, acts).delivered) <==> Watermark(s.subs[i]) < e.id
  {
    if Watermark(s.subs[i]) < e.id {
      var acts := DrainTo(s, i, e);
      assert (i, e.id) in Play(s, acts).delivered;
    } else {
      forall acts ensures (i, e.id) !in Play(s, acts).delivered {
        StuckBelow(s, i, e.id, acts);
      }
    }
  }

  lemma {:induction false} StuckBelow(s: State, i: nat, id: nat, acts: seq<Action>)
    requires WatermarksOk(s) && i < |s.subs| && id <= Watermark(s.subs[i]) && (i, id) !in s.delivered
    ensures (i, id) !in Play(s, acts).delivered
  {
    if acts != [] {
      var n := |acts| - 1;
      StuckBelow(s, i, id, acts[..n]);
      WatermarkNeverDecreases(s, acts[..n], i);
      RunKeepsWatermarks(s, acts[..n]);
      var t := Play(s, acts[..n]);
      if Fires(t, acts[n]) && acts[n].sub == i && id in Ids(FiredNow(t, i, acts[n].redisUp)) {
        FiresAboveWatermark(t, acts[n], id);
      }
    }
  }

  /** Time passes and never goes back; a new subscription starts from nothing; an event becomes
      visible unless its id was; and one is due once its pause is over. */
  lemma EnvironmentColumns(s: State, now: Time, agent: string, kind: string, webhook: bool, e: Event, x: Event)
    ensures Apply(s, Tick(now)) == s.(clock := if s.clock <= now then now else s.clock)
    ensures Apply(s, Subscribe(agent, kind, webhook)).subs
         == s.subs + [Sub(agent, kind, webhook, false, None, None, 0, None)]
    ensures x in Apply(s, Emit(e)).log <==> x in s.log || (x == e && e.id >= 1 && e.id !in s.ever)
    ensures forall sub: Sub :: IsDue(sub, now) <==>
              sub.webhook && !sub.detached && (sub.pausedUntil.None? || sub.pausedUntil.value < now)
  {
    InsertMembers(s.log, e);
  }

  /** The log loses exactly the events emitted more than seven days ago. */
  lemma CleanedUpIff(s: State, e: Event)
    ensures e in Apply(s, Cleanup).log <==> e in s.log && e.emittedAt >= s.clock - 604800.0
  {
    SelectMembers(s.log, Recent(s.clock - EVENT_RETENTION));
  }

  // ----- the ack watermark -----

  /** An explicit ack moves an attached subscription up to the acked id, never down, and no other. */
  lemma AckColumns(s: State, i: nat, id: nat)
    requires i < |s.subs|
    ensures var sub := s.subs[i];
      Apply(s, Ack(i, id)).subs == s.subs[i := sub.(lastAcked :=
        if sub.detached || (sub.lastAcked.Some? && sub.lastAcked.value >= id) then sub.lastAcked else Some(id))]
  {
  }

  lemma DetachColumns(s: State, i: nat)
    requires i < |s.subs|
    ensures Apply(s, Detach(i)).subs == s.subs[i := s.subs[i].(detached := true)]
  {
  }

  lemma {:induction false} DetachedStays(s: State, i: nat, acts: seq<Action>)
    requires i < |s.subs| && s.subs[i].detached
    ensures i < |Play(s, acts).subs| && Play(s, acts).subs[i].detached
    ensures forall m | |s.tries| <= m < |Play(s, acts).tries| :: Play(s, acts).tries[m].sub != i
  {
    if acts != [] {
      DetachedStays(s, i, acts[..|acts| - 1]);
      TriesGrow(s, acts[..|acts| - 1]);
    }
  }

  /** A subscription that is detached is POSTed in no continuation. */
  lemma DetachedIsSilent(s: State, i: nat, acts: seq<Action>)
    requires i < |s.subs|
    ensures var t := Apply(s, Detach(i));
      forall m | |s.tries| <= m < |Play(t, acts).tries| :: Play(t, acts).tries[m].sub != i
  {
    DetachColumns(s, i);
    DetachedStays(Apply(s, Detach(i)), i, acts);
  }

  /** One step lowers an ack at most to the watermark. */
  lemma AckStep(s: State, a: Action, i: nat)
    requires WatermarksOk(s) && i < |s.subs| && s.subs[i].lastAcked.Some?
    ensures var t := Apply(s, a);
      && i < |t.subs| && t.subs[i].lastAcked.Some?
      && (s.subs[i].lastAcked.value <= t.subs[i].lastAcked.value || Watermark(s.subs[i]) <= t.subs[i].lastAcked.value)
  {
    if Fires(s, a) {
      FireCovers(s, a, 0);
    }
  }

  /** An ack at or below the dispatch watermark is never taken back, by no continuation. */
  lemma {:induction false} AckBehindIsKept(s: State, acts: seq<Action>, i: nat)
    requires WatermarksOk(s) && i < |s.subs| && s.subs[i].lastAcked.Some?
    requires s.subs[i].lastAcked.value <= Watermark(s.subs[i])
    ensures i < |Play(s, acts).subs| && Play(s, acts).subs[i].lastAcked.Some?
    ensures s.subs[i].lastAcked.value <= Play(s, acts).subs[i].lastAcked.value
  {
    if acts != [] {
      var n := |acts| - 1;
      AckBehindIsKept(s, acts[..n], i);
      RunKeepsWatermarks(s, acts[..n]);
      WatermarkNeverDecreases(s, acts[..n], i);
      AckStep(Play(s, acts[..n]), acts[n], i);
    }
  }

  // ----- debounce -----

  /** After a fire that left its marker, the next one that looked for it is a window later. */
  predicate FiresApart(fires: seq<HighFire>, window: Time) {
    forall i, j | 0 <= i < j < |fires| && fires[i].agent == fires[j].agent && fires[i].stamped && fires[j].checked ::
      fires[i].end + window <= fires[j].start
  }

  /** `agent` had a stamped priority-4 fire that ended within the last window. */
  predicate RecentFire(fires: seq<HighFire>, agent: string, now: Time, window: Time) {
    exists i | 0 <= i < |fires| :: fires[i].agent == agent && fires[i].stamped && now - fires[i].end < window
  }

  predicate StampedBy(fires: seq<HighFire>, agent: string, stamp: Time) {
    exists i | 0 <= i < |fires| :: fires[i].agent == agent && fires[i].stamped && fires[i].end == stamp
  }

  /** A marker is its recipient's latest stamped priority-4 fire, and carries the TTL. */
  predicate MarkersOk(clock: Time, window: Time, markers: map<string, Marker>, fires: seq<HighFire>) {
    && (forall i | 0 <= i < |fires| ::
          && fires[i].start <= fires[i].end <= clock
          && (fires[i].stamped ==> fires[i].agent in markers && fires[i].end <= markers[fires[i].agent].stamp))
    && (forall agent | agent in markers ::
          && markers[agent].expiresAt == markers[agent].stamp + MarkerTtl(window)
          && StampedBy(fires, agent, markers[agent].stamp))
  }

  predicate DebounceOk(s: State) {
    MarkersOk(s.clock, s.window, s.markers, s.highFires) && FiresApart(s.highFires, s.window)
  }

  lemma MarkerOutlivesWindow(window: Time)
    ensures MarkerTtl(window) > window && (window >= 0.0 ==> MarkerTtl(window) <= window + 1.0)
  {
  }

  /** A recipient is debounced exactly while a stamped fire within the last window says so:
      the marker never expires inside the window. */
  lemma DebouncedIff(s: State, agent: string)
    requires DebounceOk(s)
    ensures Debounced(s, agent) <==> RecentFire(s.highFires, agent, s.clock, s.window)
  {
    MarkerOutlivesWindow(s.window);
    if Debounced(s, agent) {
      var i :| 0 <= i < |s.highFires| && s.highFires[i].agent == agent && s.highFires[i].stamped &&
               s.highFires[i].end == s.markers[agent].stamp;
    }
  }

  /** With the check answered, a priority-4 event fires only to a recipient that is not debounced. */
  lemma StampsOnlyOutsideWindow(s: State, a: Action)
    requires Fires(s, a) && a.redisUp && Stamps(s, a)
    ensures !Debounced(s, s.subs[a.sub].agent)
  {
    var fired := FiredNow(s, a.sub, a.redisUp);
    var k :| 0 <= k < |fired| && IsHigh(fired[k]);
    assert fired[k] in fired;
    SelectMembers(Batch(s, a.sub), NotHigh());
  }

  lemma StampedByMore(fires: seq<HighFire>, f: HighFire, agent: string, stamp: Time)
    requires StampedBy(fires, agent, stamp)
    ensures StampedBy(fires + [f], agent, stamp)
  {
    var i :| 0 <= i < |fires| && fires[i].agent == agent && fires[i].stamped && fires[i].end == stamp;
    assert (fires + [f])[i] == fires[i];
  }

  /** One more fire, with or without a marker of its own. */
  lemma FireKeeps(clock: Time, window: Time, markers: map<string, Marker>, fires: seq<HighFire>, f: HighFire)
    requires MarkersOk(clock, window, markers, fires) && FiresApart(fires, window)
    requires f.start == clock <= f.end && (f.checked ==> !RecentFire(fires, f.agent, clock, window))
    ensures var markers' := if f.stamped then markers[f.agent := Marker(f.end, f.end + MarkerTtl(window))] else markers;
      MarkersOk(f.end, window, markers', fires + [f]) && FiresApart(fires + [f], window)
  {
    var all := fires + [f];
    var markers' := if f.stamped then markers[f.agent := Marker(f.end, f.end + MarkerTtl(window))] else markers;
    assert all[|fires|] == f;
    forall agent | agent in markers' ensures StampedBy(all, agent, markers'[agent].stamp) {
      if !(f.stamped && agent == f.agent) { StampedByMore(fires, f, agent, markers[agent].stamp); }
    }
  }

  /** The columns of the debounce that a dispatch writes. */
  lemma MarkerWrites(s: State, a: Action)
    requires Fires(s, a)
    ensures var t, agent := Apply(s, a), s.subs[a.sub].agent;
      && t.clock == a.end >= s.clock && t.window == s.window
      && t.markers == (if Stamps(s, a) && a.stamped
                       then s.markers[agent := Marker(a.end, a.end + MarkerTtl(s.window))] else s.markers)
      && t.highFires == (if Stamps(s, a)
                         then s.highFires + [HighFire(agent, s.clock, a.end, a.redisUp, a.stamped)] else s.highFires)
  {
  }

  lemma DispatchKeepsMarkers(s: State, a: Action)
    requires DebounceOk(s) && Fires(s, a)
    ensures DebounceOk(Apply(s, a))
  {
    MarkerWrites(s, a);
    if Stamps(s, a) {
      var agent := s.subs[a.sub].agent;
      if a.redisUp {
        StampsOnlyOutsideWindow(s, a);
        DebouncedIff(s, agent);
      }
      FireKeeps(s.clock, s.window, s.markers, s.highFires, HighFire(agent, s.clock, a.end, a.redisUp, a.stamped));
    }
  }

  lemma NoMarkerWrites(s: State, a: Action)
    requires !Fires(s, a)
    ensures var t := Apply(s, a);
      t.window == s.window && t.markers == s.markers && t.highFires == s.highFires && s.clock <= t.clock
  {
  }

  lemma StepKeepsMarkers(s: State, a: Action)
    requires DebounceOk(s)
    ensures DebounceOk(Apply(s, a))
  {
    if Fires(s, a) {
      DispatchKeepsMarkers(s, a);
    } else {
      NoMarkerWrites(s, a);
    }
  }

  lemma {:induction false} RunKeepsMarkers(s: State, acts: seq<Action>)
    requires DebounceOk(s)
    ensures DebounceOk(Play(s, acts))
  {
    if acts != [] {
      var n := |acts| - 1;
      RunKeepsMarkers(s, acts[..n]);
      StepKeepsMarkers(Play(s, acts[..n]), acts[n]);
    }
  }

  /** In every run, whatever cycles are lost and whenever Redis is away: after a fire that
      left its marker, the next fire carrying a priority-4 event to that recipient over any
      of its subscriptions, if it could look, is a window later; and a priority-4 event is
      held back if and only if such a marked fire ended within the last window. */
  lemma HighFiresAreDebounced(init: State, acts: seq<Action>, i: nat)
    requires Initial(init) && i < |Play(init, acts).subs|
    ensures var s := Play(init, acts); FiresApart(s.highFires, s.window)
    ensures var s := Play(init, acts);
      forall e | e in Batch(s, i) && IsHigh(e) ::
        e in DeferredNow(s, i, true) <==> RecentFire(s.highFires, s.subs[i].agent, s.clock, s.window)
  {
    RunKeepsMarkers(init, acts);
    var s := Play(init, acts);
    DebouncedIff(s, s.subs[i].agent);
    SelectMembers(Batch(s, i), High());
  }

  // ----- the circuit breaker -----

  /** Recorded failures of subscription `i` since its last recorded success. */
  function Streak(tries: seq<Try>, i: nat): nat {
    if tries == [] then 0
    else
      var last := tries[|tries| - 1];
      if last.sub != i || !last.committed then Streak(tries[..|tries| - 1], i)
      else if last.ok then 0
      else Streak(tries[..|tries| - 1], i) + 1
  }

  /** From the tenth recorded failure in a row on, a POST is more than an hour after
      every earlier one whose cycle committed. */
  predicate Rested(tries: seq<Try>, m: nat)
    requires m < |tries|
  {
    Streak(tries[..m], tries[m].sub) >= BREAKER_THRESHOLD ==>
      forall k | 0 <= k < m && tries[k].sub == tries[m].sub && tries[k].committed ::
        tries[k].end + BREAKER_PAUSE < tries[m].start
  }

  predicate Paused(s: State, i: nat)
    requires i < |s.subs|
  {
    s.subs[i].failures >= BREAKER_THRESHOLD ==>
      forall k | 0 <= k < |s.tries| && s.tries[k].sub == i && s.tries[k].committed ::
        s.subs[i].pausedUntil.Some? && s.tries[k].end + BREAKER_PAUSE <= s.subs[i].pausedUntil.value
  }

  predicate TriesInTime(s: State) {
    forall m | 0 <= m < |s.tries| :: s.tries[m].sub < |s.subs| && s.tries[m].end <= s.clock
  }

  predicate BreakerOk(s: State) {
    && TriesInTime(s)
    && (forall i: nat | i < |s.subs| :: s.subs[i].failures == Streak(s.tries, i) && Paused(s, i))
    && (forall m: nat | m < |s.tries| :: Rested(s.tries, m))
  }

  lemma {:induction false} NoTriesNoStreak(tries: seq<Try>, i: nat)
    requires forall k | 0 <= k < |tries| :: tries[k].sub != i
    ensures Streak(tries, i) == 0
  {
    if tries != [] {
      NoTriesNoStreak(tries[..|tries| - 1], i);
    }
  }

  lemma NextTryRested(s: State, a: Action)
    requires BreakerOk(s) && Fires(s, a)
    ensures forall m: nat | m < |Apply(s, a).tries| :: Rested(Apply(s, a).tries, m)
  {
    var t := Apply(s, a);
    var n := |s.tries|;
    assert t.tries[..n] == s.tries && Paused(s, a.sub);
    forall m: nat | m < |t.tries| ensures Rested(t.tries, m) {
      if m < n {
        assert t.tries[..m] == s.tries[..m];
        assert Rested(s.tries, m);
      }
    }
  }

  lemma NextTryPaused(s: State, a: Action, i: nat)
    requires BreakerOk(s) && Fires(s, a) && i < |s.subs|
    ensures Apply(s, a).subs[i].failures == Streak(Apply(s, a).tries, i) && Paused(Apply(s, a), i)
  {
    var t := Apply(s, a);
    assert t.tries[..|s.tries|] == s.tries && Paused(s, i);
  }

  lemma StepKeepsBreaker(s: State, a: Action)
    requires BreakerOk(s)
    ensures BreakerOk(Apply(s, a))
  {
    var t := Apply(s, a);
    if Fires(s, a) {
      NextTryRested(s, a);
      forall i: nat | i < |t.subs| ensures t.subs[i].failures == Streak(t.tries, i) && Paused(t, i) {
        NextTryPaused(s, a, i);
      }
    } else {
      assert t.tries == s.tries;
      forall i: nat | i < |t.subs| ensures t.subs[i].failures == Streak(t.tries, i) && Paused(t, i) {
        if i < |s.subs| { assert Paused(s, i); } else { NoTriesNoStreak(s.tries, i); }
      }
    }
  }

  lemma {:induction false} RunKeepsBreaker(s: State, acts: seq<Action>)
    requires BreakerOk(s)
    ensures BreakerOk(Play(s, acts))
  {
    if acts != [] {
      RunKeepsBreaker(s, acts[..|acts| - 1]);
      StepKeepsBreaker(Play(s, acts[..|acts| - 1]), acts[|acts| - 1]);
    }
  }

  /** In every run `consecutive_failures` counts the recorded failures since the last
      recorded success, and once it has reached ten, every POST, recorded or lost, starts
      more than 3600 s after every earlier recorded one, until one succeeds. */
  lemma BreakerHolds(init: State, acts: seq<Action>)
    requires Initial(init)
    ensures var s := Play(init, acts);
      && (forall i: nat | i < |s.subs| :: s.subs[i].failures == Streak(s.tries, i))
      && (forall m: nat | m < |s.tries| && Streak(s.tries[..m], s.tries[m].sub) >= 10 ::
            forall k | 0 <= k < m && s.tries[k].sub == s.tries[m].sub && s.tries[k].committed ::
              s.tries[k].end + 3600.0 < s.tries[m].start)
  {
    RunKeepsBreaker(init, acts);
    var s := Play(init, acts);
    forall m: nat | m < |s.tries| && Streak(s.tries[..m], s.tries[m].sub) >= 10
      ensures forall k | 0 <= k < m && s.tries[k].sub == s.tries[m].sub && s.tries[k].committed ::
                s.tries[k].end + 3600.0 < s.tries[m].start
    {
      assert Rested(s.tries, m);
    }
  }

  lemma {:induction false} TriesGrow(s: State, acts: seq<Action>)
    ensures |s.tries| <= |Play(s, acts).tries| && Play(s, acts).tries[..|s.tries|] == s.tries
  {
    if acts != [] {
      TriesGrow(s, acts[..|acts| - 1]);
      var t := Play(s, acts[..|acts| - 1]);
      assert Apply(t, acts[|acts| - 1]).tries == t.tries || Apply(t, acts[|acts| - 1]).tries[..|t.tries|] == t.tries;
    }
  }

  /** POST `m` goes to subscription `i`, with the breaker still tripped, at most an hour after `time`. */
  predicate TooSoon(tries: seq<Try>, m: nat, i: nat, time: Time) {
    m < |tries| && tries[m].sub == i && Streak(tries[..m], i) >= BREAKER_THRESHOLD && tries[m].start <= time + BREAKER_PAUSE
  }

  ghost predicate CanRepeat(t: State, made: nat, i: nat, time: Time) {
    exists acts, m: nat :: m >= made && TooSoon(Play(t, acts).tries, m, i, time)
  }

  /** At every state a run can reach: a tripped subscription can be POSTed again within an
      hour of the POST just made if and only if that one was lost with its cycle. The
      rollback takes the pause with it. */
  lemma TooSoonIff(init: State, past: seq<Action>, a: Action)
    requires Initial(init) && Fires(Play(init, past), a)
    requires Streak(Apply(Play(init, past), a).tries, a.sub) >= 10
    ensures var t := Apply(Play(init, past), a); CanRepeat(t, |t.tries|, a.sub, a.end) <==> !a.committed
  {
    var s := Play(init, past);
    var t := Apply(s, a);
    RunKeepsBreaker(init, past);
    RunKeepsWatermarks(init, past);
    if a.committed {
      forall acts, m: nat | m >= |t.tries| ensures !TooSoon(Play(t, acts).tries, m, a.sub, a.end) {
        RecordedIsRested(s, a, acts, m);
      }
    } else {
      LostPostRepeats(s, a);
    }
  }

  lemma RecordedIsRested(s: State, a: Action, acts: seq<Action>, m: nat)
    requires BreakerOk(s) && Fires(s, a) && a.committed && m > |s.tries|
    ensures !TooSoon(Play(Apply(s, a), acts).tries, m, a.sub, a.end)
  {
    var t := Apply(s, a);
    StepKeepsBreaker(s, a);
    RunKeepsBreaker(t, acts);
    TriesGrow(t, acts);
    var tries := Play(t, acts).tries;
    assert tries[|s.tries|] == t.tries[..|t.tries|][|s.tries|];
    if m < |tries| { assert Rested(tries, m); }
  }

  /** What a lost dispatch leaves behind fires again at once. */
  lemma LostPostRepeats(s: State, a: Action)
    requires WatermarksOk(s) && Fires(s, a) && !a.committed
    requires Streak(Apply(s, a).tries, a.sub) >= BREAKER_THRESHOLD
    ensures CanRepeat(Apply(s, a), |Apply(s, a).tries|, a.sub, a.end)
  {
    var t, again := Apply(s, a), Dispatch(a.sub, false, a.end, false, false, true);
    assert Batch(t, a.sub) == Batch(s, a.sub);
    SplitFacts(Batch(s, a.sub), Debouncing(s, a.sub, a.redisUp));
    assert FiredNow(s, a.sub, a.redisUp)[0] in FiredNow(s, a.sub, a.redisUp);
    assert Fires(t, again);
    PlayOne(t, again);
    assert Apply(t, again).tries[..|t.tries|] == t.tries;
    assert TooSoon(Play(t, [again]).tries, |t.tries|, a.sub, a.end);
  }
}
