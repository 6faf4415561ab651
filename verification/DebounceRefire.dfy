/** Exactly when a priority-4 event can be fired again inside the debounce window. */
module DebounceRefire {
  import opened Common
  import opened EventLog
  import opened DispatchProtocol
  import opened DispatchTheorems

  /** Fire `m` carries a priority-4 event to `agent`, after a check that Redis answered,
      less than a window after `time`. */
  predicate Refire(fires: seq<HighFire>, m: nat, agent: string, time: Time, window: Time) {
    m < |fires| && fires[m].agent == agent && fires[m].checked && fires[m].start < time + window
  }

  ghost predicate CanRefire(t: State, agent: string, time: Time) {
    exists acts, m: nat :: m >= |t.highFires| && Refire(Play(t, acts).highFires, m, agent, time, t.window)
  }

  // ----- a marker keeps the window -----

  lemma {:induction false} FiresGrow(s: State, acts: seq<Action>)
    ensures |s.highFires| <= |Play(s, acts).highFires| && Play(s, acts).highFires[..|s.highFires|] == s.highFires
    ensures Play(s, acts).window == s.window
  {
    if acts != [] {
      var t, a := Play(s, acts[..|acts| - 1]), acts[|acts| - 1];
      FiresGrow(s, acts[..|acts| - 1]);
      if Fires(t, a) { MarkerWrites(t, a); } else { NoMarkerWrites(t, a); }
    }
  }

  lemma MarkedIsNotRefired(t: State, agent: string, time: Time, acts: seq<Action>, m: nat)
    requires DebounceOk(t) && StampedBy(t.highFires, agent, time) && m >= |t.highFires|
    ensures !Refire(Play(t, acts).highFires, m, agent, time, t.window)
  {
    RunKeepsMarkers(t, acts);
    FiresGrow(t, acts);
    var fires := Play(t, acts).highFires;
    var i :| 0 <= i < |t.highFires| && t.highFires[i].agent == agent && t.highFires[i].stamped && t.highFires[i].end == time;
    assert fires[i] == fires[..|t.highFires|][i];
  }

  // ----- without one it is open -----

  /** A due subscription whose batch holds a priority-4 event fires it now. */
  lemma FireNow(s: State, i: nat)
    requires i < |s.subs| && IsDue(s.subs[i], s.clock) && !Debounced(s, s.subs[i].agent) && AnyHigh(Batch(s, i))
    ensures Apply(s, Dispatch(i, true, s.clock, true, true, true)).highFires
         == s.highFires + [HighFire(s.subs[i].agent, s.clock, s.clock, true, true)]
  {
    var fire := Dispatch(i, true, s.clock, true, true, true);
    assert FiredNow(s, i, true) == Batch(s, i) && Batch(s, i) != [];
    assert Fires(s, fire) && Stamps(s, fire);
    MarkerWrites(s, fire);
  }

  /** A batch without priority 4 goes out and touches no marker. */
  lemma PlainBatch(s: State, i: nat)
    requires i < |s.subs| && IsDue(s.subs[i], s.clock) && !AnyHigh(Batch(s, i)) && Batch(s, i) != []
    ensures var t := Apply(s, Dispatch(i, true, s.clock, false, false, true));
      && t.highFires == s.highFires && t.markers == s.markers && t.clock == s.clock && t.window == s.window
      && |t.subs| == |s.subs| && t.subs[i].agent == s.subs[i].agent && IsDue(t.subs[i], t.clock)
  {
    var fire := Dispatch(i, true, s.clock, false, false, true);
    assert FiredNow(s, i, false) == Batch(s, i);
    assert Fires(s, fire) && !Stamps(s, fire);
    MarkerWrites(s, fire);
  }

  /** Dispatching, in no time, until a batch holds a priority-4 event. */
  lemma FireUpTo(s: State, i: nat, e: Event) returns (acts: seq<Action>)
    requires WatermarksOk(s) && i < |s.subs| && IsDue(s.subs[i], s.clock) && !Debounced(s, s.subs[i].agent)
    requires e in s.log && Wants(s.subs[i], e) && IsHigh(e) && Watermark(s.subs[i]) < e.id
    ensures |Play(s, acts).highFires| == |s.highFires| + 1
    ensures Play(s, acts).highFires[|s.highFires|] == HighFire(s.subs[i].agent, s.clock, s.clock, true, true)
    decreases e.id - Watermark(s.subs[i])
  {
    if AnyHigh(Batch(s, i)) {
      FireNow(s, i);
      acts := [Dispatch(i, true, s.clock, true, true, true)];
      PlayOne(s, acts[0]);
    } else {
      var fire := Dispatch(i, true, s.clock, false, false, true);
      NotYet(s, i, e);
      var t := Apply(s, fire);
      PlayOne(s, fire);
      var rest := FireUpTo(t, i, e);
      PlayAppend(s, [fire], rest);
      acts := [fire] + rest;
    }
  }

  lemma NotYet(s: State, i: nat, e: Event)
    requires WatermarksOk(s) && i < |s.subs| && IsDue(s.subs[i], s.clock) && !Debounced(s, s.subs[i].agent)
    requires e in s.log && Wants(s.subs[i], e) && IsHigh(e) && Watermark(s.subs[i]) < e.id && !AnyHigh(Batch(s, i))
    ensures var t := Apply(s, Dispatch(i, true, s.clock, false, false, true));
      && WatermarksOk(t) && t.log == s.log && t.highFires == s.highFires && t.clock == s.clock && |t.subs| == |s.subs|
      && t.subs[i].agent == s.subs[i].agent && IsDue(t.subs[i], t.clock) && !Debounced(t, t.subs[i].agent)
      && Wants(t.subs[i], e) && Watermark(s.subs[i]) < Watermark(t.subs[i]) < e.id
  {
    NextBatchPlain(s, i, e);
    PlainBatch(s, i);
  }

  /** Without a priority-4 event in the batch, `e` is not in it and the watermark moves toward it. */
  lemma NextBatchPlain(s: State, i: nat, e: Event)
    requires WatermarksOk(s) && i < |s.subs| && IsDue(s.subs[i], s.clock)
    requires e in s.log && Wants(s.subs[i], e) && IsHigh(e) && Watermark(s.subs[i]) < e.id && !AnyHigh(Batch(s, i))
    ensures var t := Apply(s, Dispatch(i, true, s.clock, false, false, true));
      && Batch(s, i) != [] && WatermarksOk(t) && t.log == s.log && |t.subs| == |s.subs| && Wants(t.subs[i], e)
      && Watermark(s.subs[i]) < Watermark(t.subs[i]) < e.id
  {
    var batch := Batch(s, i);
    PendingFacts(s.log, s.subs[i]);
    SelectMembers(s.log, Awaiting(s.subs[i]));
    assert e in Select(s.log, Awaiting(s.subs[i]));
    assert e !in batch;
    var last := batch[|batch| - 1];
    assert last in batch && last.id < e.id;
    var fire := Dispatch(i, true, s.clock, false, false, true);
    assert FiredNow(s, i, false) == batch && DeferredNow(s, i, false) == [];
    StepKeepsWatermarks(s, fire);
  }

  lemma {:induction false} FreshId(ids: set<nat>) returns (n: nat)
    ensures n >= 1 && forall id | id in ids :: id < n
    decreases |ids|
  {
    if ids == {} {
      n := 1;
    } else {
      var id :| id in ids;
      var m := FreshId(ids - {id});
      n := if m <= id then id + 1 else m;
      assert ids == (ids - {id}) + {id};
    }
  }

  /** A new event of the newest id is in the log, behind the others. */
  lemma EmitAtEnd(s: State, e: Event)
    requires WatermarksOk(s) && e.id >= 1 && forall id | id in s.ever :: id < e.id
    ensures var t := Apply(s, Emit(e));
      && WatermarksOk(t) && t.log == s.log + [e] && t.ever == s.ever[e.id := e]
      && t.subs == s.subs && t.clock == s.clock && t.window == s.window && t.markers == s.markers
      && t.highFires == s.highFires
  {
    StepKeepsWatermarks(s, Emit(e));
    if s.log != [] { assert s.log[|s.log| - 1] in s.log; }
  }

  /** Wait for a marker to lapse, and let one more priority-4 event come. */
  lemma WaitAndEmit(t: State, i: nat, now: Time, e: Event)
    requires WatermarksOk(t) && i < |t.subs| && IsDue(t.subs[i], t.clock) && t.clock <= now
    requires Wants(t.subs[i], e) && IsHigh(e) && e.id >= 1 && forall id | id in t.ever :: id < e.id
    requires t.subs[i].agent in t.markers ==> t.markers[t.subs[i].agent].stamp + t.window <= now
    ensures var u := Apply(Apply(t, Tick(now)), Emit(e));
      && WatermarksOk(u) && u.clock == now && u.subs == t.subs && u.highFires == t.highFires
      && IsDue(u.subs[i], now) && !Debounced(u, u.subs[i].agent)
      && e in u.log && Watermark(u.subs[i]) < e.id
  {
    StepKeepsWatermarks(t, Tick(now));
    var waited := t.(clock := now);
    assert Apply(t, Tick(now)) == waited;
    EmitAtEnd(waited, e);
    assert (waited.log + [e])[|waited.log|] == e;
  }

  lemma UnmarkedIsRefired(t: State, i: nat)
    requires WatermarksOk(t) && DebounceOk(t) && t.window > 0.0
    requires i < |t.subs| && IsDue(t.subs[i], t.clock) && !StampedBy(t.highFires, t.subs[i].agent, t.clock)
    ensures CanRefire(t, t.subs[i].agent, t.clock)
  {
    var sub := t.subs[i];
    var lapse := if sub.agent in t.markers then t.markers[sub.agent].stamp + t.window else t.clock;
    var now := if t.clock <= lapse then lapse else t.clock;
    if sub.agent in t.markers {
      var k :| 0 <= k < |t.highFires| && t.highFires[k].agent == sub.agent && t.highFires[k].stamped &&
               t.highFires[k].end == t.markers[sub.agent].stamp;
      assert t.markers[sub.agent].stamp < t.clock;
    }
    var n := FreshId(t.ever.Keys);
    var e := Event(n, sub.agent, sub.kind, Number(4), now);
    WaitAndEmit(t, i, now, e);
    var u := Apply(Apply(t, Tick(now)), Emit(e));
    var rest := FireUpTo(u, i, e);
    RefireAfter(t, Tick(now), Emit(e), rest, sub.agent, now);
  }

  lemma RefireAfter(t: State, a: Action, b: Action, rest: seq<Action>, agent: string, now: Time)
    requires var u := Apply(Apply(t, a), b);
      && u.highFires == t.highFires && |Play(u, rest).highFires| == |t.highFires| + 1
      && Play(u, rest).highFires[|t.highFires|] == HighFire(agent, now, now, true, true)
    requires now < t.clock + t.window
    ensures CanRefire(t, agent, t.clock)
  {
    PlayOne(t, a);
    PlayOne(Apply(t, a), b);
    PlayAppend(t, [a], [b]);
    PlayAppend(t, [a] + [b], rest);
    assert Refire(Play(t, [a] + [b] + rest).highFires, |t.highFires|, agent, t.clock, t.window);
  }

  /** At every state a run can reach: after a fire that carries a priority-4 event, some
      continuation fires priority 4 to that recipient again, with Redis answering, less
      than a window later, if and only if there is a window and no fire of that moment left
      its marker: the run died, or Redis failed, between the 2xx and the marker. */
  lemma RefiredIff(init: State, past: seq<Action>, a: Action)
    requires Initial(init) && Fires(Play(init, past), a) && Stamps(Play(init, past), a)
    ensures var t, agent := Apply(Play(init, past), a), Play(init, past).subs[a.sub].agent;
      CanRefire(t, agent, a.end) <==> t.window > 0.0 && !StampedBy(t.highFires, agent, a.end)
  {
    var s := Play(init, past);
    var t, agent := Apply(s, a), s.subs[a.sub].agent;
    RunKeepsMarkers(init, past);
    StepKeepsMarkers(s, a);
    RunKeepsWatermarks(init, past);
    StepKeepsWatermarks(s, a);
    if StampedBy(t.highFires, agent, a.end) {
      forall acts, m: nat | m >= |t.highFires| ensures !Refire(Play(t, acts).highFires, m, agent, a.end, t.window) {
        MarkedIsNotRefired(t, agent, a.end, acts, m);
      }
    } else if t.window <= 0.0 {
      forall acts, m: nat | m >= |t.highFires| ensures !Refire(Play(t, acts).highFires, m, agent, a.end, t.window) {
        LaterFires(t, acts, m);
      }
    } else {
      StillDue(s, a);
      UnmarkedIsRefired(t, a.sub);
    }
  }

  lemma StillDue(s: State, a: Action)
    requires Fires(s, a) && a.ok
    ensures var t := Apply(s, a);
      && |t.subs| == |s.subs| && t.subs[a.sub].agent == s.subs[a.sub].agent && t.clock == a.end
      && IsDue(t.subs[a.sub], t.clock)
  {
  }

  lemma {:induction false} LaterFires(t: State, acts: seq<Action>, m: nat)
    requires m >= |t.highFires|
    ensures t.clock <= Play(t, acts).clock
    ensures m < |Play(t, acts).highFires| ==> t.clock <= Play(t, acts).highFires[m].start
  {
    if acts != [] {
      var u, a := Play(t, acts[..|acts| - 1]), acts[|acts| - 1];
      LaterFires(t, acts[..|acts| - 1], m);
      if Fires(u, a) { MarkerWrites(u, a); } else { NoMarkerWrites(u, a); }
    }
  }

  /** With Redis answering the check, that is: if and only if this very fire was not stamped. */
  lemma CheckedRefiredIff(init: State, past: seq<Action>, a: Action)
    requires Initial(init) && Fires(Play(init, past), a) && Stamps(Play(init, past), a) && a.redisUp
    ensures var t, agent := Apply(Play(init, past), a), Play(init, past).subs[a.sub].agent;
      CanRefire(t, agent, a.end) <==> t.window > 0.0 && !a.stamped
  {
    var s := Play(init, past);
    var t, agent := Apply(s, a), s.subs[a.sub].agent;
    RefiredIff(init, past, a);
    RunKeepsMarkers(init, past);
    MarkerWrites(s, a);
    if a.stamped {
      assert t.highFires[|s.highFires|].end == a.end;
      assert StampedBy(t.highFires, agent, a.end);
    } else if t.window > 0.0 && StampedBy(t.highFires, agent, a.end) {
      var i :| 0 <= i < |t.highFires| && t.highFires[i].agent == agent && t.highFires[i].stamped && t.highFires[i].end == a.end;
      assert s.highFires[i] == t.highFires[i];
      assert RecentFire(s.highFires, agent, s.clock, s.window);
      DebouncedIff(s, agent);
      StampsOnlyOutsideWindow(s, a);
      assert false;
    }
  }
}
