/** The per-user concurrent delivery counter: INCR and EXPIRE on entry, DECR on the way
    out, leaks when a worker dies in between, and a safety TTL that heals them. */
module ConcurrencyCap {
  import opened Common

  const COUNTER_TTL: Time := 600.0
  const ATTEMPT_LIFETIME: Time := 40.0

  /** A worker between its INCR and its DECR; `over` if it came back above the cap. */
  datatype Visit = Visit(since: Time, over: bool)

  /** `counter` is the Redis key: absent, or a value with the time it expires, if any. */
  datatype Key = Absent | Present(value: int, expiresAt: Option<Time>)

  /** `leaks` counts the visits since the key was last absent that ended without a DECR. */
  datatype State = State(clock: Time, cap: nat, counter: Key, inside: map<nat, Visit>, next: nat, leaks: nat)

  datatype Action =
    | Tick(now: Time)
    | Enter
    | Leave(worker: nat)
    | Crash(worker: nat)

  function Incremented(k: Key): int {
    match k
    case Absent => 1
    case Present(v, _) => v + 1
  }

  /** DECR of an absent key makes it -1, with no expiry. */
  function Decremented(k: Key): Key {
    match k
    case Absent => Present(-1, None)
    case Present(v, e) => Present(v - 1, e)
  }

  /** Workers older than the job timeout are killed: whatever they held is leaked. */
  function Killed(inside: map<nat, Visit>, now: Time): set<nat> {
    set w | w in inside && inside[w].since + ATTEMPT_LIFETIME < now
  }

  function Expired(k: Key, now: Time): bool {
    k.Present? && k.expiresAt.Some? && k.expiresAt.value <= now
  }

  function ApplyTick(s: State, now: Time): State {
    if s.clock <= now then
      var dead := Killed(s.inside, now);
      var t := s.(clock := now, inside := s.inside - dead, leaks := s.leaks + |dead|);
      if Expired(s.counter, now) then t.(counter := Absent, leaks := 0) else t
    else s
  }

  function ApplyEnter(s: State): State {
    var current := Incremented(s.counter);
    s.(counter := Present(current, Some(s.clock + COUNTER_TTL)),
       inside := s.inside[s.next := Visit(s.clock, current > s.cap)],
       next := s.next + 1)
  }

  function Apply(s: State, a: Action): State {
    match a
    case Tick(now) => ApplyTick(s, now)
    case Enter => ApplyEnter(s)
    case Leave(w) => if w in s.inside then s.(counter := Decremented(s.counter), inside := s.inside - {w}) else s
    case Crash(w) => if w in s.inside then s.(inside := s.inside - {w}, leaks := s.leaks + 1) else s
  }

  function Play(s: State, acts: seq<Action>): State {
    if acts == [] then s else Apply(Play(s, acts[..|acts| - 1]), acts[|acts| - 1])
  }

  predicate Initial(s: State) {
    s.counter == Absent && s.inside == map[] && s.leaks == 0
  }

  function Value(k: Key): int {
    if k.Present? then k.value else 0
  }

  /** The workers that were let through, and may be delivering. */
  function Holders(s: State): set<nat> {
    set w | w in s.inside && !s.inside[w].over
  }

  /** The counter is exactly the visits in progress plus the leaks; the key outlives
      every visit by far; and those let through fit under the cap. */
  predicate Inv(s: State) {
    && Value(s.counter) == |s.inside| + s.leaks
    && (s.counter.Present? ==> s.counter.expiresAt.Some?)
    && (forall w | w in s.inside ::
          && w < s.next && s.inside[w].since <= s.clock <= s.inside[w].since + ATTEMPT_LIFETIME
          && s.counter.Present? && s.inside[w].since + COUNTER_TTL <= s.counter.expiresAt.value)
    && |Holders(s)| <= s.cap
  }

  lemma RemoveWorkers(m: map<nat, Visit>, gone: set<nat>)
    requires gone <= m.Keys
    ensures |m - gone| == |m| - |gone|
  {
    assert (m - gone).Keys == m.Keys - gone;
  }

  lemma FewerHolders(s: State, t: State)
    requires t.inside.Keys <= s.inside.Keys && forall w | w in t.inside :: t.inside[w] == s.inside[w]
    ensures |Holders(t)| <= |Holders(s)|
  {
    assert Holders(t) <= Holders(s);
    SubsetSize(Holders(t), Holders(s));
  }

  lemma SubsetSize(a: set<nat>, b: set<nat>)
    requires a <= b
    ensures |a| <= |b|
  {
    assert b == a + (b - a);
  }

  lemma TickKeeps(s: State, now: Time)
    requires Inv(s)
    ensures Inv(Apply(s, Tick(now)))
    ensures s.clock <= now && Expired(s.counter, now) ==> Apply(s, Tick(now)).inside == map[]
  {
    if s.clock <= now {
      var dead := Killed(s.inside, now);
      var t := Apply(s, Tick(now));
      RemoveWorkers(s.inside, dead);
      FewerHolders(s, t);
      if Expired(s.counter, now) {
        assert forall w | w in s.inside :: w in dead;
        assert t.inside == map[];
      }
    }
  }

  lemma EnterFits(s: State)
    requires Inv(s)
    ensures |Holders(Apply(s, Enter))| <= s.cap
  {
    var t := Apply(s, Enter);
    if t.inside[s.next].over {
      assert Holders(t) == Holders(s);
    } else {
      assert Holders(t) == Holders(s) + {s.next};
      SubsetSize(Holders(s), s.inside.Keys);
    }
  }

  lemma EnterKeeps(s: State)
    requires Inv(s)
    ensures Inv(Apply(s, Enter))
  {
    var t := Apply(s, Enter);
    assert t.inside.Keys == s.inside.Keys + {s.next};
    assert |t.inside| == |s.inside| + 1;
    EnterFits(s);
  }

  lemma ExitKeeps(s: State, w: nat)
    requires Inv(s)
    ensures Inv(Apply(s, Leave(w))) && Inv(Apply(s, Crash(w)))
  {
    if w in s.inside {
      RemoveWorkers(s.inside, {w});
      FewerHolders(s, Apply(s, Leave(w)));
      FewerHolders(s, Apply(s, Crash(w)));
    }
  }

  lemma {:induction false} RunKeeps(s: State, acts: seq<Action>)
    requires Inv(s)
    ensures Inv(Play(s, acts)) && Play(s, acts).cap == s.cap
  {
    if acts != [] {
      var n := |acts| - 1;
      RunKeeps(s, acts[..n]);
      var t := Play(s, acts[..n]);
      match acts[n]
      case Tick(now) => TickKeeps(t, now);
      case Enter => EnterKeeps(t);
      case Leave(w) => ExitKeeps(t, w);
      case Crash(w) => ExitKeeps(t, w);
    }
  }

  /** In every run the counter equals the visits in progress, over the cap or not, plus
      the leaks, so it is never negative; and at most `cap` workers are delivering. */
  lemma CapHolds(init: State, acts: seq<Action>)
    requires Initial(init)
    ensures var s := Play(init, acts);
      && |Holders(s)| <= init.cap
      && Value(s.counter) == |s.inside| + s.leaks
      && (s.counter.Absent? ==> s.inside == map[])
  {
    assert Holders(init) == {};
    RunKeeps(init, acts);
    var s := Play(init, acts);
    if s.counter.Absent? {
      assert |s.inside| == 0;
    }
  }

  /** The key expires only when nobody is inside, so no DECR ever meets an absent key. */
  lemma ExpiresOnlyWhenIdle(init: State, acts: seq<Action>, now: Time)
    requires Initial(init)
    ensures var s := Play(init, acts);
      s.counter.Present? && Apply(s, Tick(now)).counter.Absent? ==> Apply(s, Tick(now)).inside == map[]
    ensures var s := Play(init, acts);
      forall w | w in s.inside :: s.counter.Present? && s.counter.value > 0
  {
    CapHolds(init, acts);
    assert Holders(init) == {};
    RunKeeps(init, acts);
    var s := Play(init, acts);
    TickKeeps(s, now);
    forall w | w in s.inside ensures s.counter.Present? && s.counter.value > 0 {
      assert w in s.inside.Keys;
    }
  }

  lemma {:induction false} NoEntryNoExtension(s: State, acts: seq<Action>)
    requires Inv(s) && forall i | 0 <= i < |acts| :: !acts[i].Enter?
    ensures var t := Play(s, acts);
      && s.clock <= t.clock
      && (t.counter.Present? ==> s.counter.Present? && t.counter.expiresAt == s.counter.expiresAt
                                 && (t.clock < t.counter.expiresAt.value || t.clock == s.clock))
  {
    if acts != [] {
      var n := |acts| - 1;
      NoEntryNoExtension(s, acts[..n]);
      RunKeeps(s, acts[..n]);
      var t := Play(s, acts[..n]);
      assert !acts[n].Enter?;
      match acts[n]
      case Leave(w) => if w in t.inside { assert t.counter.Present?; }
      case _ =>
    }
  }

  /** Leaks heal: 600 s after the last entry the counter is gone, whatever crashed before,
      and every slot of the cap is free again. */
  lemma LeaksHeal(init: State, past: seq<Action>, quiet: seq<Action>)
    requires Initial(init)
    requires forall i | 0 <= i < |quiet| :: !quiet[i].Enter?
    requires var s := Play(init, past + [Enter]); Play(s, quiet).clock >= s.clock + 600.0
    ensures var s := Play(init, past + [Enter]);
      Play(s, quiet).counter == Absent && Play(s, quiet).inside == map[] && Play(s, quiet).leaks == 0
  {
    assert Holders(init) == {};
    RunKeeps(init, past + [Enter]);
    var s := Play(init, past + [Enter]);
    assert (past + [Enter])[..|past|] == past;
    assert s == Apply(Play(init, past), Enter);
    NoEntryNoExtension(s, quiet);
    RunKeeps(s, quiet);
    var t := Play(s, quiet);
    assert t.counter.Absent?;
    assert |t.inside| == 0;
  }

  lemma KeyStep(s: State, a: Action)
    requires Inv(s) && s.counter.Present? && Apply(s, a).clock < s.counter.expiresAt.value
    ensures var t := Apply(s, a);
      t.counter.Present? && t.counter.expiresAt.Some? && (a.Enter? || t.counter.expiresAt == s.counter.expiresAt)
    ensures a.Enter? ==> Apply(s, a).counter.expiresAt.value == s.clock + 600.0
  {
  }

  lemma {:induction false} KeyStays(s: State, acts: seq<Action>, until: Time)
    requires Inv(s) && s.counter.Present? && s.counter.expiresAt.value >= until
    requires s.clock + 600.0 >= until && Play(s, acts).clock < until
    ensures Play(s, acts).counter.Present? && Play(s, acts).counter.expiresAt.Some?
    ensures Play(s, acts).counter.expiresAt.value >= until
  {
    if acts != [] {
      var n := |acts| - 1;
      var t := Play(s, acts[..n]);
      ClockGrows(s, acts[..n]);
      ClockStep(t, acts[n]);
      KeyStays(s, acts[..n], until);
      RunKeeps(s, acts[..n]);
      KeyStep(t, acts[n]);
    }
  }

  lemma ClockStep(s: State, a: Action)
    ensures s.clock <= Apply(s, a).clock
  {
  }

  lemma {:induction false} ClockGrows(s: State, acts: seq<Action>)
    ensures s.clock <= Play(s, acts).clock
  {
    if acts != [] {
      ClockGrows(s, acts[..|acts| - 1]);
      ClockStep(Play(s, acts[..|acts| - 1]), acts[|acts| - 1]);
    }
  }

  /** The counter lives on for at least 600 s after every entry, whatever follows. */
  lemma KeyOutlivesEntry(init: State, past: seq<Action>, future: seq<Action>)
    requires Initial(init)
    requires var s := Apply(Play(init, past), Enter); Play(s, future).clock < s.clock + 600.0
    ensures Play(Apply(Play(init, past), Enter), future).counter.Present?
  {
    assert Holders(init) == {};
    RunKeeps(init, past);
    EnterKeeps(Play(init, past));
    var s := Apply(Play(init, past), Enter);
    KeyStays(s, future, s.clock + 600.0);
  }

  /** A crash ends a visit without its DECR: the counter keeps the slot as a leak. */
  lemma CrashLeaks(s: State, w: nat)
    requires w in s.inside
    ensures var t := Apply(s, Crash(w));
      w !in t.inside && t.counter == s.counter && t.leaks == s.leaks + 1 && t.inside.Keys == s.inside.Keys - {w}
  {
  }

  /** A visit is cut off exactly when it has lasted more than 40 s. */
  lemma CutOffIff(s: State, now: Time, w: nat)
    requires w in s.inside && s.clock <= now
    ensures w !in Apply(s, Tick(now)).inside <==> s.inside[w].since + 40.0 < now
  {
  }

  const RECYCLE_DELAY: Time := 30.0

  /** The outbox row of a job sent back over the cap: its own task and payload, due 30 s later. */
  datatype Recycled<T> = Recycled(job: T, scheduledAt: Time)

  /** `_check_concurrent_cap_or_recycle` and `_release_concurrent`, for jobs of type `T`. */
  class Gate<T> {
    const cap: nat
    var clock: Time
    var counter: Key
    var inside: map<nat, Visit>
    var next: nat
    var outbox: seq<Recycled<T>>
    ghost var leaks: nat

    ghost function View(): State
      reads this
    {
      State(clock, cap, counter, inside, next, leaks)
    }

    constructor (cap: nat)
      ensures Initial(View()) && this.cap == cap && outbox == []
    {
      this.cap := cap;
      this.clock := 0.0;
      this.counter := Absent;
      this.inside := map[];
      this.next := 0;
      this.outbox := [];
      this.leaks := 0;
    }

    /** INCR and EXPIRE. */
    method Increment() returns (current: int, worker: nat)
      requires Inv(View())
      modifies `counter, `inside, `next
      ensures Inv(View()) && View() == Apply(old(View()), Enter)
      ensures current == old(Value(counter)) + 1 && worker == old(next) && worker in inside
    {
      EnterKeeps(View());
      current, worker := Incremented(counter), next;
      counter := Present(current, Some(clock + COUNTER_TTL));
      inside := inside[worker := Visit(clock, current > cap)];
      next := next + 1;
    }

    /** An admitted job holds a slot; any other has given its increment back, and its
        payload to the outbox. */
    method CheckConcurrentCapOrRecycle(job: T) returns (admitted: bool, worker: nat)
      requires Inv(View())
      modifies `counter, `inside, `next, `outbox
      ensures Inv(View()) && worker == old(next)
      ensures View() == if admitted then Apply(old(View()), Enter) else Apply(Apply(old(View()), Enter), Leave(worker))
      ensures admitted <==> old(Value(counter)) < cap
      ensures admitted <==> worker in inside
      ensures outbox == old(outbox) + if admitted then [] else [Recycled(job, clock + 30.0)]
    {
      var current;
      current, worker := Increment();
      admitted := current <= cap;
      if !admitted {
        ReleaseConcurrent(worker);
        outbox := outbox + [Recycled(job, clock + RECYCLE_DELAY)];
      }
    }

    method ReleaseConcurrent(worker: nat)
      requires Inv(View()) && worker in inside
      modifies `counter, `inside
      ensures Inv(View()) && View() == Apply(old(View()), Leave(worker))
      ensures Value(counter) == old(Value(counter)) - 1
    {
      ExitKeeps(View(), worker);
      counter := Decremented(counter);
      inside := inside - {worker};
    }
  }
}
