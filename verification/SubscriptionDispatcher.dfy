/** `dispatch_subscription_events` and its helpers, as loops over mutable tables. */
module SubscriptionDispatcher {
  import opened Common
  import opened EventLog
  import opened DispatchProtocol

  /** What the query promises: the first fifty wanted events past the watermark, in id order. */
  predicate IsFetch(log: seq<Event>, sub: Sub, events: seq<Event>) {
    && Sorted(events) && |events| <= 50
    && (forall e | e in events :: e in log && Wants(sub, e) && e.id > Watermark(sub))
    && (forall e, f | e in log && Wants(sub, e) && e.id > Watermark(sub) && f in events && e.id <= f.id :: e in events)
    && (|events| < 50 ==> forall e | e in log && Wants(sub, e) && e.id > Watermark(sub) :: e in events)
  }

  lemma PendingIsFetch(log: seq<Event>, sub: Sub)
    requires Sorted(log)
    ensures IsFetch(log, sub, Pending(log, sub))
  {
    PendingFacts(log, sub);
    SelectMembers(log, Awaiting(sub));
  }

  /** `_fetch_pending_events_for_sub`: scan in id order, stop at the limit. */
  method FetchPendingEvents(log: seq<Event>, sub: Sub) returns (events: seq<Event>)
    requires Sorted(log)
    ensures events == Pending(log, sub)
    ensures IsFetch(log, sub, events)
  {
    events := [];
    var i := 0;
    while i < |log| && |events| < EVENTS_PER_SUB
      invariant i <= |log| && |events| <= EVENTS_PER_SUB
      invariant events == Select(log[..i], Awaiting(sub))
    {
      assert log[..i + 1][..i] == log[..i];
      if Wants(sub, log[i]) && log[i].id > Watermark(sub) {
        events := events + [log[i]];
      }
      i := i + 1;
    }
    ScanIsPending(log, sub, i);
    PendingIsFetch(log, sub);
  }

  lemma ScanIsPending(log: seq<Event>, sub: Sub, i: nat)
    requires i <= |log| && |Select(log[..i], Awaiting(sub))| <= EVENTS_PER_SUB
    requires i == |log| || |Select(log[..i], Awaiting(sub))| == EVENTS_PER_SUB
    ensures Select(log[..i], Awaiting(sub)) == Pending(log, sub)
  {
    assert log == log[..i] + log[i..];
    SelectAppend(log[..i], log[i..], Awaiting(sub));
    assert log[i..] == [] ==> Select(log[i..], Awaiting(sub)) == [];
  }

  /** `apply_tier_policy`, given the answer of the debounce check: two lists, in order. */
  method ApplyTierPolicy(events: seq<Event>, debounced: bool) returns (toFire: seq<Event>, deferred: seq<Event>)
    ensures toFire == ToFire(events, debounced) && deferred == Deferred(events, debounced)
    ensures |toFire| + |deferred| == |events|
    ensures forall e | e in events :: e in deferred <==> debounced && IsHigh(e)
  {
    toFire, deferred := [], [];
    for i := 0 to |events|
      invariant toFire == ToFire(events[..i], debounced) && deferred == Deferred(events[..i], debounced)
      invariant |toFire| + |deferred| == i
    {
      assert events[..i + 1][..i] == events[..i];
      if IsHigh(events[i]) && debounced {
        deferred := deferred + [events[i]];
      } else {
        toFire := toFire + [events[i]];
      }
    }
    assert events[..|events|] == events;
    SelectMembers(events, High());
  }

  /** `min` over the deferred ids. */
  method MinimumId(events: seq<Event>) returns (lowest: nat)
    requires events != []
    ensures lowest == LowestId(events)
  {
    lowest := events[0].id;
    for i := 1 to |events|
      invariant lowest == LowestId(events[..i])
    {
      assert events[..i + 1][..i] == events[..i];
      if events[i].id < lowest {
        lowest := events[i].id;
      }
    }
    assert events[..|events|] == events;
  }

  function LastId(events: seq<Event>, default: nat): nat {
    if events == [] then default else events[|events| - 1].id
  }

  /** The last of the fired ids below a bound, if there is one. */
  method LastBelow(current: nat, fired: seq<Event>, bound: nat) returns (last: nat)
    ensures last == LastId(Select(fired, Below(bound)), current)
  {
    last := current;
    for i := 0 to |fired|
      invariant last == LastId(Select(fired[..i], Below(bound)), current)
    {
      assert fired[..i + 1][..i] == fired[..i];
      if fired[i].id < bound {
        last := fired[i].id;
      }
    }
    assert fired[..|fired|] == fired;
  }

  /** The watermark arithmetic after a 2xx. */
  method ComputeWatermark(current: nat, fired: seq<Event>, deferred: seq<Event>) returns (watermark: nat)
    requires fired != [] && Sorted(fired) && forall e | e in fired + deferred :: e.id > current
    ensures watermark == NewWatermark(current, fired, deferred)
    ensures current <= watermark && forall d | d in deferred :: watermark < d.id
    ensures WatermarkOf(current, fired, deferred, watermark)
    ensures forall f | f in fired && Precedes(f, deferred) :: f.id <= watermark
  {
    if deferred == [] {
      watermark := fired[|fired| - 1].id;
    } else {
      var lowest := MinimumId(deferred);
      watermark := LastBelow(current, fired, lowest);
    }
    NewWatermarkFacts(current, fired, deferred);
    if watermark != current {
      var f :| f in fired && f.id == watermark;
      assert Precedes(f, deferred);
    }
  }

  method HasHigh(events: seq<Event>) returns (found: bool)
    ensures found <==> AnyHigh(events)
  {
    for i := 0 to |events|
      invariant forall k | 0 <= k < i :: !IsHigh(events[k])
    {
      if IsHigh(events[i]) {
        return true;
      }
    }
    return false;
  }

  /** A 2xx, column by column; a cycle that is lost leaves the rows alone. */
  lemma SuccessWrites(s: State, i: nat, end: Time, redisUp: bool, stamped: bool, commits: bool, watermark: nat)
    requires Fires(s, Dispatch(i, true, end, redisUp, stamped, commits))
    requires watermark == NewWatermark(Watermark(s.subs[i]), FiredNow(s, i, redisUp), DeferredNow(s, i, redisUp))
    ensures var t := Apply(s, Dispatch(i, true, end, redisUp, stamped, commits));
      var fired, agent := FiredNow(s, i, redisUp), s.subs[i].agent;
      && t.clock == end && t.window == s.window && t.log == s.log
      && t.ever == s.ever && t.removed == s.removed && t.late == s.late
      && t.subs == (if commits then s.subs[i := SucceededSub(s.subs[i], watermark)] else s.subs)
      && t.markers == (if AnyHigh(fired) && stamped
                       then s.markers[agent := Marker(end, end + MarkerTtl(s.window))] else s.markers)
      && t.highFires == (if AnyHigh(fired) then s.highFires + [HighFire(agent, s.clock, end, redisUp, stamped)] else s.highFires)
      && t.delivered == s.delivered + Sent(i, fired)
      && t.tries == s.tries + [Try(i, s.clock, end, true, commits)]
  {
  }

  /** Both halves of a batch are in order and past the watermark. */
  lemma BatchFacts(s: State, i: nat, redisUp: bool)
    requires Sorted(s.log) && i < |s.subs|
    ensures Sorted(FiredNow(s, i, redisUp))
    ensures forall e | e in FiredNow(s, i, redisUp) + DeferredNow(s, i, redisUp) :: e.id > Watermark(s.subs[i])
  {
    PendingFacts(s.log, s.subs[i]);
    SplitFacts(Batch(s, i), Debouncing(s, i, redisUp));
  }

  /** `wm` is the watermark a 2xx is promised to write: the highest fired id before every
      deferred one, or the current watermark if there is none. */
  predicate WatermarkOf(current: nat, fired: seq<Event>, deferred: seq<Event>, wm: nat) {
    && (wm == current || exists f | f in fired :: f.id == wm && Precedes(f, deferred))
    && current <= wm && (forall f | f in fired && Precedes(f, deferred) :: f.id <= wm)
  }

  lemma PriorityFour(events: seq<Event>)
    ensures AnyHigh(events) <==> exists e | e in events :: e.priority == Number(4)
  {
    if AnyHigh(events) {
      var i :| 0 <= i < |events| && IsHigh(events[i]);
      assert events[i] in events && events[i].priority == Number(4);
    }
    if e :| e in events && e.priority == Number(4) {
      var i :| 0 <= i < |events| && events[i] == e;
      assert IsHigh(events[i]);
    }
  }

  /** What one webhook answered, how long the POST took, and whether the run then got as far
      as its marker, and Redis took it. */
  datatype Answer = Answer(ok: bool, took: Time, stamped: bool)

  class Dispatcher {
    const window: Time
    var clock: Time
    var log: seq<Event>
    var subs: seq<Sub>
    var markers: map<string, Marker>
    ghost var ever: map<nat, Event>
    ghost var removed: set<nat>
    ghost var delivered: set<(nat, nat)>
    ghost var late: set<(nat, nat)>
    ghost var highFires: seq<HighFire>
    ghost var tries: seq<Try>

    ghost function View(): State
      reads this
    {
      State(clock, window, log, subs, markers, ever, removed, delivered, late, highFires, tries)
    }

    constructor (window: Time)
      ensures Initial(View()) && this.window == window
    {
      this.window := window;
      this.clock := 0.0;
      this.log, this.subs, this.markers := [], [], map[];
      this.ever, this.removed, this.delivered, this.late := map[], {}, {}, {};
      this.highFires, this.tries := [], [];
    }

    /** The row and marker writes after a 2xx. */
    method WriteSuccess(
      ghost s: State, i: nat, watermark: nat, high: bool, end: Time, ghost redisUp: bool, stamped: bool, commits: bool)
      requires s == View() && Fires(s, Dispatch(i, true, end, redisUp, stamped, commits))
      requires watermark == WatermarkAfter(s, Dispatch(i, true, end, redisUp, stamped, commits))
      requires high == AnyHigh(FiredNow(s, i, redisUp))
      modifies `clock, `subs, `markers, `delivered, `highFires, `tries
      ensures View() == Apply(s, Dispatch(i, true, end, redisUp, stamped, commits))
      ensures subs == if commits
                      then s.subs[i := s.subs[i].(lastDispatched := Some(watermark), lastAcked := Some(watermark), failures := 0)]
                      else s.subs
      ensures markers == if stamped && high
                         then s.markers[s.subs[i].agent := Marker(end, end + MarkerTtl(window))] else s.markers
    {
      SuccessWrites(s, i, end, redisUp, stamped, commits, watermark);
      var sub := subs[i];
      if commits {
        subs := subs[i := sub.(lastDispatched := Some(watermark), lastAcked := Some(watermark), failures := 0)];
      }
      if high {
        highFires := highFires + [HighFire(sub.agent, clock, end, redisUp, stamped)];
        if stamped {
          markers := markers[sub.agent := Marker(end, end + MarkerTtl(window))];
        }
      }
      delivered := delivered + Sent(i, FiredNow(s, i, redisUp));
      tries := tries + [Try(i, clock, end, true, commits)];
      clock := end;
    }

    /** A 2xx: watermark, ack, failure reset, and the debounce marker. */
    method RecordSuccess(
      ghost s: State, i: nat, fired: seq<Event>, deferred: seq<Event>, end: Time, ghost redisUp: bool, stamped: bool,
      commits: bool)
      requires s == View() && Sorted(log) && Fires(s, Dispatch(i, true, end, redisUp, stamped, commits))
      requires fired == FiredNow(s, i, redisUp) && deferred == DeferredNow(s, i, redisUp)
      modifies `clock, `subs, `markers, `delivered, `highFires, `tries
      ensures View() == Apply(s, Dispatch(i, true, end, redisUp, stamped, commits))
      ensures exists wm: nat ::
                && WatermarkOf(Watermark(s.subs[i]), fired, deferred, wm)
                && subs == if commits
                           then s.subs[i := s.subs[i].(lastDispatched := Some(wm), lastAcked := Some(wm), failures := 0)]
                           else s.subs
      ensures markers == if stamped && exists e | e in fired :: e.priority == Number(4)
                         then s.markers[s.subs[i].agent := Marker(end, end + MarkerTtl(window))] else s.markers
    {
      PriorityFour(fired);
      BatchFacts(s, i, redisUp);
      var watermark := ComputeWatermark(Watermark(subs[i]), fired, deferred);
      assert WatermarkOf(Watermark(s.subs[i]), fired, deferred, watermark);
      var high := HasHigh(fired);
      WriteSuccess(s, i, watermark, high, end, redisUp, stamped, commits);
    }

    /** The writes after any other answer: one more failure, and the breaker at ten. */
    method RecordFailure(ghost s: State, i: nat, end: Time, ghost redisUp: bool, ghost stamped: bool, commits: bool)
      requires s == View() && Fires(s, Dispatch(i, false, end, redisUp, stamped, commits))
      modifies `clock, `subs, `markers, `delivered, `highFires, `tries
      ensures View() == Apply(s, Dispatch(i, false, end, redisUp, stamped, commits))
      ensures var sub := s.subs[i]; var n := sub.failures + 1;
        subs == if commits
                then s.subs[i := sub.(failures := n, pausedUntil := if n >= 10 then Some(end + 3600.0) else sub.pausedUntil)]
                else s.subs
      ensures markers == s.markers
    {
      var sub := subs[i];
      var failures := sub.failures + 1;
      var pausedUntil := if failures >= BREAKER_THRESHOLD then Some(end + BREAKER_PAUSE) else sub.pausedUntil;
      if commits {
        subs := subs[i := sub.(failures := failures, pausedUntil := pausedUntil)];
      }
      tries := tries + [Try(i, clock, end, false, commits)];
      clock := end;
    }

    /** Fetch and split: what this cycle fires for one subscription, and what it defers. */
    method Prepare(i: nat, redisUp: bool) returns (fired: seq<Event>, deferred: seq<Event>)
      requires Sorted(log) && i < |subs|
      ensures fired == FiredNow(View(), i, redisUp) && deferred == DeferredNow(View(), i, redisUp)
    {
      var sub := subs[i];
      var events := FetchPendingEvents(log, sub);
      var debounced :=
        redisUp && sub.agent in markers && clock < markers[sub.agent].expiresAt && clock - markers[sub.agent].stamp < window;
      fired, deferred := ApplyTierPolicy(events, debounced);
    }

    /** The body of the dispatch loop, for one due subscription. */
    method DispatchOne(ghost s: State, i: nat, answer: Answer, redisUp: bool, commits: bool) returns (attempted: bool)
      requires s == View() && Sorted(log) && i < |subs| && IsDue(subs[i], clock) && answer.took >= 0.0
      modifies `clock, `subs, `markers, `delivered, `highFires, `tries
      ensures View() == Apply(s, Dispatch(i, answer.ok, s.clock + answer.took, redisUp, answer.stamped, commits))
      ensures attempted <==> Fires(s, Dispatch(i, answer.ok, s.clock + answer.took, redisUp, answer.stamped, commits))
    {
      var fired, deferred := Prepare(i, redisUp);
      attempted := fired != [];
      if attempted {
        if answer.ok {
          RecordSuccess(s, i, fired, deferred, clock + answer.took, redisUp, answer.stamped, commits);
        } else {
          RecordFailure(s, i, clock + answer.took, redisUp, answer.stamped, commits);
        }
      }
    }

    /** One more subscription of a cycle. */
    method CycleOnce(
      ghost start: State, batch: seq<nat>, answers: seq<Answer>, redisUp: bool, commits: bool, ghost acts: seq<Action>,
      i: nat, attempts: nat)
      returns (count: nat, ghost more: seq<Action>)
      requires InCycle(start, View(), batch, answers, redisUp, commits, acts, i, attempts) && i < |batch|
      requires Sorted(log) && AllDue(start, batch, answers)
      modifies `clock, `subs, `markers, `delivered, `highFires, `tries
      ensures InCycle(start, View(), batch, answers, redisUp, commits, more, i + 1, count) && log == start.log
    {
      ghost var s := View();
      ghost var a := Dispatch(batch[i], answers[i].ok, clock + answers[i].took, redisUp, answers[i].stamped, commits);
      NextInCycle(start, s, batch, answers, redisUp, commits, acts, a, i, attempts);
      var attempted := DispatchOne(s, batch[i], answers[i], redisUp, commits);
      more := acts + [a];
      count := if attempted then attempts + 1 else attempts;
    }

    /** The loop over the due subscriptions. */
    method RunCycle(ghost start: State, batch: seq<nat>, answers: seq<Answer>, redisUp: bool, commits: bool)
      returns (attempts: nat, ghost acts: seq<Action>)
      requires start == View() && Sorted(log) && AllDue(start, batch, answers)
      modifies `clock, `subs, `markers, `delivered, `highFires, `tries
      ensures InCycle(start, View(), batch, answers, redisUp, commits, acts, |batch|, attempts)
    {
      attempts := 0;
      acts := [];
      for i := 0 to |batch|
        invariant InCycle(start, View(), batch, answers, redisUp, commits, acts, i, attempts) && log == start.log
      {
        attempts, acts := CycleOnce(start, batch, answers, redisUp, commits, acts, i, attempts);
      }
    }

    /** One dispatch cycle over the due subscriptions `batch`, in the order the SELECT gave
        them. `commits` says whether its transaction survives: if not, the run dies at or
        after the last of `batch`, before its marker or past it. Each row is read once, in the SELECT, so its
        writes can be left out at once where they would be rolled back. */
    method DispatchSubscriptionEvents(batch: seq<nat>, answers: seq<Answer>, redisUp: bool, commits: bool)
      returns (attempts: nat, ghost acts: seq<Action>)
      requires WatermarksOk(View()) && AllDue(View(), batch, answers)
      modifies `clock, `subs, `markers, `delivered, `highFires, `tries
      ensures WatermarksOk(View()) && View() == Play(old(View()), acts)
      ensures |acts| == |batch| && AsAnswered(batch, answers, redisUp, commits, acts)
      ensures attempts == |tries| - |old(tries)|
      ensures !commits ==> subs == old(subs)
    {
      ghost var start := View();
      attempts, acts := RunCycle(start, batch, answers, redisUp, commits);
      RunKeepsWatermarks(start, acts);
    }
  }

  lemma OneTry(s: State, a: Action)
    requires a.Dispatch?
    ensures |Apply(s, a).tries| == |s.tries| + if Fires(s, a) then 1 else 0
  {
  }

  /** The due-subscriptions SELECT answered `batch`, and each POST will be answered. */
  predicate AllDue(s: State, batch: seq<nat>, answers: seq<Answer>) {
    && |answers| == |batch|
    && (forall i, j | 0 <= i < j < |batch| :: batch[i] != batch[j])
    && (forall i | 0 <= i < |batch| ::
          batch[i] < |s.subs| && IsDue(s.subs[batch[i]], s.clock) && answers[i].took >= 0.0)
  }

  /** The steps of a cycle: the batch in order, each with its webhook's answer, all
      committed or none. */
  predicate AsAnswered(batch: seq<nat>, answers: seq<Answer>, redisUp: bool, commits: bool, acts: seq<Action>) {
    && |acts| <= |batch| == |answers|
    && forall k | 0 <= k < |acts| ::
         && acts[k].Dispatch? && acts[k].sub == batch[k] && acts[k].ok == answers[k].ok
         && acts[k].redisUp == redisUp && acts[k].stamped == answers[k].stamped && acts[k].committed == commits
  }

  /** A cycle after `|acts|` subscriptions: the rest are untouched, and so still due. */
  predicate Cycle(
    start: State, s: State, batch: seq<nat>, answers: seq<Answer>, redisUp: bool, commits: bool, acts: seq<Action>)
  {
    && AsAnswered(batch, answers, redisUp, commits, acts) && s == Play(start, acts)
    && (!commits ==> s.subs == start.subs)
    && s.log == start.log && start.clock <= s.clock && |s.subs| == |start.subs|
    && (forall k | |acts| <= k < |batch| :: batch[k] < |s.subs| && s.subs[batch[k]] == start.subs[batch[k]])
  }

  predicate InCycle(
    start: State, s: State, batch: seq<nat>, answers: seq<Answer>, redisUp: bool, commits: bool, acts: seq<Action>,
    i: nat, attempts: nat)
  {
    Cycle(start, s, batch, answers, redisUp, commits, acts) && |acts| == i && attempts == |s.tries| - |start.tries|
  }

  lemma PlayOneMore(s: State, acts: seq<Action>, a: Action)
    ensures Play(s, acts + [a]) == Apply(Play(s, acts), a)
  {
    assert (acts + [a])[..|acts|] == acts;
  }

  /** What one dispatch leaves alone. */
  predicate OnlySub(s: State, t: State, i: nat) {
    && t.log == s.log && s.clock <= t.clock && |t.subs| == |s.subs|
    && (forall k | 0 <= k < |s.subs| && k != i :: t.subs[k] == s.subs[k])
  }

  lemma DispatchTouchesOneSub(s: State, a: Action)
    requires a.Dispatch?
    ensures OnlySub(s, Apply(s, a), a.sub) && (!a.committed ==> Apply(s, a).subs == s.subs)
  {
  }

  lemma CycleGrows(
    start: State, s: State, t: State, batch: seq<nat>, answers: seq<Answer>, redisUp: bool, commits: bool, acts: seq<Action>, a: Action)
    requires Cycle(start, s, batch, answers, redisUp, commits, acts) && |acts| < |batch|
    requires forall i, j | 0 <= i < j < |batch| :: batch[i] != batch[j]
    requires a.Dispatch? && a.sub == batch[|acts|] && a.ok == answers[|acts|].ok && a.redisUp == redisUp
    requires a.stamped == answers[|acts|].stamped && a.committed == commits
    requires OnlySub(s, t, a.sub) && (!commits ==> t.subs == s.subs) && t == Play(start, acts + [a])
    ensures Cycle(start, t, batch, answers, redisUp, commits, acts + [a])
  {
  }

  lemma StillDue(start: State, s: State, batch: seq<nat>, answers: seq<Answer>, redisUp: bool, commits: bool, acts: seq<Action>)
    requires Cycle(start, s, batch, answers, redisUp, commits, acts) && |acts| < |batch|
    requires IsDue(start.subs[batch[|acts|]], start.clock)
    ensures IsDue(s.subs[batch[|acts|]], s.clock)
  {
  }

  lemma NextInCycle(
    start: State, s: State, batch: seq<nat>, answers: seq<Answer>, redisUp: bool, commits: bool, acts: seq<Action>,
    a: Action, i: nat, attempts: nat)
    requires InCycle(start, s, batch, answers, redisUp, commits, acts, i, attempts) && i < |batch|
    requires AllDue(start, batch, answers)
    requires a == Dispatch(batch[i], answers[i].ok, s.clock + answers[i].took, redisUp, answers[i].stamped, commits)
    ensures a.sub < |s.subs| && IsDue(s.subs[a.sub], s.clock) && s.log == start.log
    ensures InCycle(start, Apply(s, a), batch, answers, redisUp, commits, acts + [a], i + 1,
                    attempts + if Fires(s, a) then 1 else 0)
  {
    StillDue(start, s, batch, answers, redisUp, commits, acts);
    DispatchTouchesOneSub(s, a);
    OneTry(s, a);
    PlayOneMore(start, acts, a);
    CycleGrows(start, s, Apply(s, a), batch, answers, redisUp, commits, acts, a);
  }
}
