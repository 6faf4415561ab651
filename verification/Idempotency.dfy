/** Idempotent sends: the 24-hour window over sends, key freeing and hard deletion. */
module Idempotency {
  import opened Common

  const WINDOW: Time := DAY
  const RETENTION: Time := 7.0 * DAY

  datatype Delivery = Open | Acked | Expired

  /** A messages row. `createdAt` is the start of the inserting transaction. */
  datatype Row = Row(
    user: string, key: Option<string>, fingerprint: Option<string>,
    createdAt: Time, expiresAt: Time, delivery: Delivery, ackedAt: Option<Time>)

  /** A send in progress: `started` is its transaction's start, and `cleared` says that
      its lookup found no message in the window. */
  datatype Request = Request(user: string, key: Option<string>, fingerprint: string, started: Time, cleared: bool)

  /** A message ever created, kept as history after its row is gone. */
  datatype Creation = Creation(user: string, key: Option<string>, fingerprint: string, createdAt: Time)

  /** The row of message `i` is `rows[i]` and its creation `created[i]`. */
  datatype State = State(
    clock: Time, ttl: Time, requests: map<nat, Request>, rows: map<nat, Row>, created: seq<Creation>)

  datatype Action =
    | Tick(now: Time)
    | Begin(req: nat, user: string, key: Option<string>, fingerprint: string)
    | Lookup(req: nat)
    | Insert(req: nat, at: Time)
    | Abandon(req: nat)
    | Ack(id: nat)
    | Reopen(id: nat)
    | ExpireOld
    | FreeKeys
    | DeleteOld

  datatype Answer = Proceed | Replay(id: nat) | Conflict(id: nat)

  /** Row `id` occupies (user, key) in the partial unique index. */
  predicate Holds(rows: map<nat, Row>, user: string, key: Option<string>, id: nat) {
    id in rows && key.Some? && rows[id].user == user && rows[id].key == key
  }

  predicate InWindow(r: Row, now: Time) {
    r.createdAt > now - WINDOW
  }

  /** The rows the idempotency SELECT matches. */
  function Matches(s: State, user: string, key: Option<string>): set<nat> {
    set id | id in s.rows && Holds(s.rows, user, key, id) && InWindow(s.rows[id], s.clock)
  }

  /** Fingerprints are stored only for a non-empty key. */
  function StoredFingerprint(key: Option<string>, fingerprint: string): Option<string> {
    if key.Some? && key.value != "" then Some(fingerprint) else None
  }

  predicate Taken(rows: map<nat, Row>, user: string, key: Option<string>) {
    exists id | id in rows :: Holds(rows, user, key, id)
  }

  /** What the lookup may answer; one answer when at most one row matches. */
  ghost predicate IsAnswer(s: State, user: string, key: Option<string>, fingerprint: string, a: Answer) {
    match a
    case Proceed => Matches(s, user, key) == {}
    case Replay(id) => id in Matches(s, user, key) && s.rows[id].fingerprint == Some(fingerprint)
    case Conflict(id) => id in Matches(s, user, key) && s.rows[id].fingerprint != Some(fingerprint)
  }

  predicate Freeable(r: Row, now: Time) {
    r.key.Some? && r.createdAt < now - WINDOW
  }

  predicate Deletable(r: Row, now: Time) {
    || (r.delivery == Acked && r.ackedAt.Some? && r.ackedAt.value < now - RETENTION)
    || (r.delivery == Expired && r.expiresAt < now - RETENTION)
  }

  function ApplyInsert(s: State, req: nat, at: Time): State
    requires req in s.requests
  {
    var q := s.requests[req];
    if Taken(s.rows, q.user, q.key) then s.(requests := s.requests - {req})
    else s.(requests := s.requests - {req},
            rows := s.rows[|s.created| := Row(
              q.user, q.key, StoredFingerprint(q.key, q.fingerprint), q.started, at + s.ttl, Open, None)],
            created := s.created + [Creation(q.user, q.key, q.fingerprint, q.started)])
  }

  function Apply(s: State, a: Action): State {
    match a
    case Tick(now) => if s.clock <= now then s.(clock := now) else s
    case Begin(req, user, key, fp) =>
      if req in s.requests then s else s.(requests := s.requests[req := Request(user, key, fp, s.clock, false)])
    case Lookup(req) =>
      if req !in s.requests then s
      else if Matches(s, s.requests[req].user, s.requests[req].key) == {} then
        s.(requests := s.requests[req := s.requests[req].(cleared := true)])
      else s.(requests := s.requests - {req})
    case Insert(req, at) =>
      if req in s.requests && s.requests[req].cleared && s.requests[req].started <= at <= s.clock
      then ApplyInsert(s, req, at) else s
    case Abandon(req) => s.(requests := s.requests - {req})
    case Ack(id) =>
      if id in s.rows && s.rows[id].delivery == Open
      then s.(rows := s.rows[id := s.rows[id].(delivery := Acked, ackedAt := Some(s.clock))]) else s
    case Reopen(id) =>
      if id in s.rows then s.(rows := s.rows[id := s.rows[id].(delivery := Open)]) else s
    case ExpireOld => s.(rows := TimedOut(s.rows, s.clock))
    case FreeKeys => s.(rows := Freed(s.rows, s.clock))
    case DeleteOld => s.(rows := Undeleted(s.rows, s.clock))
  }

  function TimedOut(rows: map<nat, Row>, now: Time): map<nat, Row> {
    map id | id in rows ::
      if rows[id].expiresAt < now && rows[id].delivery == Open then rows[id].(delivery := Expired) else rows[id]
  }

  function Undeleted(rows: map<nat, Row>, now: Time): map<nat, Row> {
    map id | id in rows && !Deletable(rows[id], now) :: rows[id]
  }

  function Freed(rows: map<nat, Row>, now: Time): map<nat, Row> {
    map id | id in rows :: if Freeable(rows[id], now) then rows[id].(key := None) else rows[id]
  }

  function Play(s: State, acts: seq<Action>): State {
    Fold(Apply, s, acts)
  }

  predicate Initial(s: State) {
    s.ttl >= 0.0 && s.requests == map[] && s.rows == map[] && s.created == []
  }

  /** A row agrees with the creation it came from, except that its key may be freed. */
  predicate RowOk(s: State, id: nat)
    requires id in s.rows
  {
    && id < |s.created|
    && var r, c := s.rows[id], s.created[id];
       && r.user == c.user && (r.key.None? || r.key == c.key) && r.createdAt == c.createdAt
       && r.fingerprint == StoredFingerprint(c.key, c.fingerprint)
       && r.createdAt <= r.expiresAt && (r.ackedAt.Some? ==> r.createdAt <= r.ackedAt.value)
  }

  /** A message inside the window still has its row, and the row its key. */
  predicate KeyOk(s: State, id: nat)
    requires id < |s.created|
  {
    && s.created[id].createdAt <= s.clock
    && ((id in s.rows && s.rows[id].key == s.created[id].key) || s.created[id].createdAt < s.clock - WINDOW)
  }

  predicate Inv(s: State) {
    && s.ttl >= 0.0
    && (forall id | id in s.rows :: RowOk(s, id))
    && (forall id: nat | id < |s.created| :: KeyOk(s, id))
    && (forall i, j | i in s.rows && j in s.rows && i != j ::
          s.rows[i].key.Some? && s.rows[i].user == s.rows[j].user ==> s.rows[i].key != s.rows[j].key)
    && (forall q | q in s.requests :: s.requests[q].started <= s.clock)
  }

  predicate SameKey(c: Creation, d: Creation) {
    c.user == d.user && c.key.Some? && c.key == d.key
  }

  /** Of two messages with one key, the later is more than `gap` after the earlier. */
  predicate Apart(created: seq<Creation>, gap: Time) {
    forall i, j | 0 <= i < j < |created| && SameKey(created[i], created[j]) ::
      created[j].createdAt - created[i].createdAt > gap
  }

  /** An insert comes at most `limit` after its transaction began. */
  predicate Prompt(s: State, a: Action, limit: Time) {
    a.Insert? && a.req in s.requests ==> s.clock - s.requests[a.req].started <= limit
  }

  predicate PromptRun(s: State, acts: seq<Action>, limit: Time) {
    forall i | 0 <= i < |acts| :: Prompt(Play(s, acts[..i]), acts[i], limit)
  }

  /** Not in the index means the window has closed: the heart of the argument. */
  lemma NotTakenMeansOld(s: State, user: string, key: Option<string>, i: nat)
    requires Inv(s) && !Taken(s.rows, user, key) && i < |s.created|
    requires key.Some? && s.created[i].user == user && s.created[i].key == key
    ensures s.created[i].createdAt < s.clock - WINDOW
  {
    assert KeyOk(s, i);
    assert i in s.rows ==> RowOk(s, i) && !Holds(s.rows, user, key, i);
  }

  lemma RequestsChange(s: State, t: State)
    requires Inv(s) && t == s.(requests := t.requests)
    requires forall q | q in t.requests :: t.requests[q].started <= s.clock
    ensures Inv(t)
  {
    forall id | id in t.rows ensures RowOk(t, id) { assert RowOk(s, id); }
    forall id: nat | id < |t.created| ensures KeyOk(t, id) { assert KeyOk(s, id); }
  }

  lemma InsertKeeps(s: State, req: nat, at: Time)
    requires Inv(s)
    ensures Inv(Apply(s, Insert(req, at)))
  {
    var t := Apply(s, Insert(req, at));
    if |t.created| > |s.created| {
      var q := s.requests[req];
      assert |s.created| !in s.rows;
      forall id | id in t.rows ensures RowOk(t, id) {
        assert id in s.rows ==> RowOk(s, id);
      }
      forall id: nat | id < |t.created| ensures KeyOk(t, id) {
        assert id < |s.created| ==> KeyOk(s, id);
      }
      forall i, j | i in t.rows && j in t.rows && i != j && t.rows[i].key.Some? && t.rows[i].user == t.rows[j].user
        ensures t.rows[i].key != t.rows[j].key
      {
        if i in s.rows && j == |s.created| {
          assert !Holds(s.rows, q.user, q.key, i);
        } else if j in s.rows && i == |s.created| {
          assert !Holds(s.rows, q.user, q.key, j);
        }
      }
    } else {
      RequestsChange(s, t);
    }
  }

  lemma InsertKeepsApart(s: State, req: nat, at: Time, limit: Time)
    requires Inv(s) && Apart(s.created, WINDOW - limit) && Prompt(s, Insert(req, at), limit)
    ensures Apart(Apply(s, Insert(req, at)).created, WINDOW - limit)
  {
    var t := Apply(s, Insert(req, at));
    if |t.created| > |s.created| {
      var q := s.requests[req];
      forall i | 0 <= i < |s.created| && SameKey(s.created[i], t.created[|s.created|])
        ensures t.created[|s.created|].createdAt - s.created[i].createdAt > WINDOW - limit
      {
        NotTakenMeansOld(s, q.user, q.key, i);
      }
    }
  }

  /** Rows whose delivery columns change, in the ways a step may change them. */
  lemma RowsChange(s: State, t: State)
    requires Inv(s) && t == s.(rows := t.rows) && t.rows.Keys <= s.rows.Keys
    requires forall id | id in t.rows ::
               && t.rows[id] == s.rows[id].(key := t.rows[id].key, delivery := t.rows[id].delivery, ackedAt := t.rows[id].ackedAt)
               && (t.rows[id].key == s.rows[id].key || (t.rows[id].key.None? && Freeable(s.rows[id], s.clock)))
               && (t.rows[id].ackedAt == s.rows[id].ackedAt || t.rows[id].ackedAt == Some(s.clock))
    requires forall id | id in s.rows && id !in t.rows :: Deletable(s.rows[id], s.clock)
    ensures Inv(t)
  {
    forall id | id in t.rows ensures RowOk(t, id) { assert RowOk(s, id) && KeyOk(s, id); }
    forall id: nat | id < |t.created| ensures KeyOk(t, id) {
      assert KeyOk(s, id);
      assert id in s.rows ==> RowOk(s, id);
    }
  }

  lemma TickKeeps(s: State, now: Time)
    requires Inv(s)
    ensures Inv(Apply(s, Tick(now)))
  {
    var t := Apply(s, Tick(now));
    forall id | id in t.rows ensures RowOk(t, id) { assert RowOk(s, id); }
    forall id: nat | id < |t.created| ensures KeyOk(t, id) { assert KeyOk(s, id); }
  }

  lemma DeliveryKeeps(s: State, a: Action)
    requires Inv(s) && (a.Ack? || a.Reopen? || a.ExpireOld?)
    ensures Inv(Apply(s, a))
  {
    RowsChange(s, Apply(s, a));
  }

  lemma CleanupKeeps(s: State, a: Action)
    requires Inv(s) && (a.FreeKeys? || a.DeleteOld?)
    ensures Inv(Apply(s, a))
  {
    RowsChange(s, Apply(s, a));
  }

  lemma RequestKeeps(s: State, a: Action)
    requires Inv(s) && (a.Begin? || a.Lookup? || a.Abandon?)
    ensures Inv(Apply(s, a))
  {
    RequestsChange(s, Apply(s, a));
  }

  lemma StepKeeps(s: State, a: Action)
    requires Inv(s)
    ensures Inv(Apply(s, a))
  {
    if a.Insert? {
      InsertKeeps(s, a.req, a.at);
    } else if a.Tick? {
      TickKeeps(s, a.now);
    } else if a.Begin? || a.Lookup? || a.Abandon? {
      RequestKeeps(s, a);
    } else if a.FreeKeys? || a.DeleteOld? {
      CleanupKeeps(s, a);
    } else {
      DeliveryKeeps(s, a);
    }
  }

  lemma StepKeepsApart(s: State, a: Action, limit: Time)
    requires Inv(s) && Apart(s.created, WINDOW - limit) && Prompt(s, a, limit)
    ensures Apart(Apply(s, a).created, WINDOW - limit)
  {
    if a.Insert? {
      InsertKeepsApart(s, a.req, a.at, limit);
    } else {
      assert Apply(s, a).created == s.created;
    }
  }

  lemma {:induction false} RunKeeps(s: State, acts: seq<Action>)
    requires Inv(s)
    ensures Inv(Play(s, acts))
  {
    if acts != [] {
      RunKeeps(s, acts[..|acts| - 1]);
      StepKeeps(Play(s, acts[..|acts| - 1]), acts[|acts| - 1]);
    }
  }

  lemma {:induction false} PromptRunKeepsApart(s: State, acts: seq<Action>, limit: Time)
    requires Inv(s) && Apart(s.created, WINDOW - limit) && PromptRun(s, acts, limit)
    ensures Apart(Play(s, acts).created, WINDOW - limit)
  {
    if acts != [] {
      var n := |acts| - 1;
      forall i | 0 <= i < n ensures Prompt(Play(s, acts[..n][..i]), acts[..n][i], limit) {
        assert acts[..n][..i] == acts[..i];
        assert Prompt(Play(s, acts[..i]), acts[i], limit);
      }
      PromptRunKeepsApart(s, acts[..n], limit);
      RunKeeps(s, acts[..n]);
      assert Prompt(Play(s, acts[..n]), acts[n], limit);
      StepKeepsApart(Play(s, acts[..n]), acts[n], limit);
    }
  }

  /** Over every run of sends, acks, expiry, key freeing and deletion: two messages with
      one user and key were created more than 24 hours apart, less the time a send may
      take from the start of its transaction to its insert. Sends that are one atomic
      step (`limit == 0`) are a full 24 hours apart. */
  lemma SameKeyApart(init: State, acts: seq<Action>, limit: Time, i: nat, j: nat)
    requires Initial(init) && PromptRun(init, acts, limit)
    requires var c := Play(init, acts).created; i < j < |c| && SameKey(c[i], c[j])
    ensures var c := Play(init, acts).created; c[j].createdAt - c[i].createdAt > 24.0 * 3600.0 - limit
  {
    PromptRunKeepsApart(init, acts, limit);
  }

  function EmptyTable(): State {
    State(0.0, 0.0, map[], map[], [])
  }

  /** One message sent at time 0 under the key, seen at time `now`. */
  function Sent(user: string, key: string, now: Time, requests: map<nat, Request>): State {
    State(now, 0.0, requests,
      map[0 := Row(user, Some(key), StoredFingerprint(Some(key), "a"), 0.0, 0.0, Open, None)],
      [Creation(user, Some(key), "a", 0.0)])
  }

  lemma FirstSend(user: string, key: string)
    ensures Play(EmptyTable(), [Begin(0, user, Some(key), "a"), Lookup(0), Insert(0, 0.0)])
         == Sent(user, key, 0.0, map[])
  {
    var s, k := EmptyTable(), Some(key);
    var s1 := s.(requests := map[0 := Request(user, k, "a", 0.0, false)]);
    var s2 := s.(requests := map[0 := Request(user, k, "a", 0.0, true)]);
    assert Apply(s, Begin(0, user, k, "a")) == s1;
    assert Matches(s1, user, k) == {};
    assert Apply(s1, Lookup(0)) == s2;
    assert s2.requests - {0} == map[];
    assert Apply(s2, Insert(0, 0.0)) == Sent(user, key, 0.0, map[]);
    PlayThree(s, Begin(0, user, k, "a"), Lookup(0), Insert(0, 0.0));
  }

  lemma SlowLookup(user: string, key: string, early: Time, limit: Time) returns (acts: seq<Action>)
    requires 0.0 < early < WINDOW
    ensures var s := Sent(user, key, WINDOW - early, map[]);
      && Play(s, acts) == Sent(user, key, WINDOW, map[1 := Request(user, Some(key), "b", WINDOW - early, true)])
      && PromptRun(s, acts, limit)
  {
    var s, k := Sent(user, key, WINDOW - early, map[]), Some(key);
    var s2 := Sent(user, key, WINDOW, map[1 := Request(user, k, "b", WINDOW - early, false)]);
    assert Apply(Apply(s, Begin(1, user, k, "b")), Tick(WINDOW)) == s2;
    assert Matches(s2, user, k) == {};
    assert Apply(s2, Lookup(1)) == s2.(requests := map[1 := Request(user, k, "b", WINDOW - early, true)]);
    PlayThree(s, Begin(1, user, k, "b"), Tick(WINDOW), Lookup(1));
    PromptThree(s, Begin(1, user, k, "b"), Tick(WINDOW), Lookup(1), limit);
    acts := [Begin(1, user, k, "b"), Tick(WINDOW), Lookup(1)];
  }

  lemma LateInsert(user: string, key: string, early: Time, delay: Time) returns (acts: seq<Action>)
    requires 0.0 < early < WINDOW && 0.0 < delay
    ensures var s := Sent(user, key, WINDOW, map[1 := Request(user, Some(key), "b", WINDOW - early, true)]);
      GapIs(Play(s, acts).created, WINDOW - early) && PromptRun(s, acts, early + delay)
  {
    var s := Sent(user, key, WINDOW, map[1 := Request(user, Some(key), "b", WINDOW - early, true)]);
    var t := Apply(Apply(s, Tick(WINDOW + delay)), FreeKeys);
    assert t.requests == s.requests && t.created == s.created && t.clock == WINDOW + delay;
    assert !Taken(t.rows, user, Some(key));
    assert Apply(t, Insert(1, WINDOW)).created == s.created + [Creation(user, Some(key), "b", WINDOW - early)];
    PlayThree(s, Tick(WINDOW + delay), FreeKeys, Insert(1, WINDOW));
    PromptThree(s, Tick(WINDOW + delay), FreeKeys, Insert(1, WINDOW), early + delay);
    acts := [Tick(WINDOW + delay), FreeKeys, Insert(1, WINDOW)];
  }

  lemma PromptThree(s: State, a: Action, b: Action, c: Action, limit: Time)
    requires !a.Insert? && !b.Insert? && Prompt(Apply(Apply(s, a), b), c, limit)
    ensures PromptRun(s, [a, b, c], limit)
  {
    assert [a, b, c][..2] == [a, b] && [a, b, c][..1] == [a] && [a, b, c][..0] == [];
    PlayTwo(s, a, b);
  }

  lemma PromptAppend(s: State, a: seq<Action>, b: seq<Action>, limit: Time)
    requires PromptRun(s, a, limit) && PromptRun(Play(s, a), b, limit)
    ensures PromptRun(s, a + b, limit)
  {
    forall i | 0 <= i < |a + b| ensures Prompt(Play(s, (a + b)[..i]), (a + b)[i], limit) {
      if i < |a| {
        assert (a + b)[..i] == a[..i];
      } else {
        assert (a + b)[..i] == a + b[..i - |a|];
        PlayAppend(s, a, b[..i - |a|]);
        assert Prompt(Play(Play(s, a), b[..i - |a|]), b[i - |a|], limit);
      }
    }
  }

  predicate GapIs(created: seq<Creation>, gap: Time) {
    |created| == 2 && SameKey(created[0], created[1]) && created[1].createdAt - created[0].createdAt == gap
  }

  /** The first send, and the wait up to the second. */
  lemma FirstSendPrompt(user: string, key: string, now: Time, limit: Time) returns (acts: seq<Action>)
    requires now >= 0.0 && limit >= 0.0
    ensures var init := EmptyTable();
      Play(init, acts) == Sent(user, key, now, map[]) && PromptRun(init, acts, limit)
  {
    var init := EmptyTable();
    var begin := Begin(0, user, Some(key), "a");
    FirstSend(user, key);
    assert Apply(Apply(init, begin), Lookup(0)).clock == 0.0;
    assert 0 in Apply(Apply(init, begin), Lookup(0)).requests ==>
             Apply(Apply(init, begin), Lookup(0)).requests[0].started == 0.0;
    PromptThree(init, begin, Lookup(0), Insert(0, 0.0), limit);
    Waited(user, key, now);
    acts := [begin, Lookup(0), Insert(0, 0.0)] + [Tick(now)];
    PlayAppend(init, [begin, Lookup(0), Insert(0, 0.0)], [Tick(now)]);
    PromptAppend(init, [begin, Lookup(0), Insert(0, 0.0)], [Tick(now)], limit);
  }

  /** `created_at` is the transaction's start, so a send may be stored under a time before
      its own lookup: one begun `early` before the window closes, and inserted once the
      key is freed, `delay` after it, comes that much too close while no send of the run
      lasts longer than `early + delay`. */
  lemma SlowSendComesTooClose(early: Time, delay: Time, user: string, key: string) returns (acts: seq<Action>)
    requires 0.0 < early < WINDOW && 0.0 < delay
    ensures var init := EmptyTable();
      Initial(init) && PromptRun(init, acts, early + delay) && GapIs(Play(init, acts).created, WINDOW - early)
  {
    var init, limit := EmptyTable(), early + delay;
    var first := FirstSendPrompt(user, key, WINDOW - early, limit);
    var second := SecondSend(user, key, early, delay);
    Joined(init, first, Sent(user, key, WINDOW - early, map[]), second, limit);
    acts := first + second;
  }

  lemma SecondSend(user: string, key: string, early: Time, delay: Time) returns (acts: seq<Action>)
    requires 0.0 < early < WINDOW && 0.0 < delay
    ensures var s := Sent(user, key, WINDOW - early, map[]);
      PromptRun(s, acts, early + delay) && GapIs(Play(s, acts).created, WINDOW - early)
  {
    var look := SlowLookup(user, key, early, early + delay);
    var late := LateInsert(user, key, early, delay);
    Joined(Sent(user, key, WINDOW - early, map[]), look,
           Sent(user, key, WINDOW, map[1 := Request(user, Some(key), "b", WINDOW - early, true)]), late, early + delay);
    acts := look + late;
  }

  lemma Joined(s: State, a: seq<Action>, mid: State, b: seq<Action>, limit: Time)
    requires mid == Play(s, a) && PromptRun(s, a, limit) && PromptRun(mid, b, limit)
    ensures Play(s, a + b) == Play(mid, b) && PromptRun(s, a + b, limit)
  {
    PlayAppend(s, a, b);
    PromptAppend(s, a, b, limit);
  }

  /** Every run whose sends last at most `limit` keeps messages of one key a full window apart. */
  ghost predicate WindowKept(limit: Time) {
    forall init, acts | Initial(init) && PromptRun(init, acts, limit) :: Apart(Play(init, acts).created, WINDOW)
  }

  /** The 24 hours are kept if and only if sends take no time. */
  lemma WindowKeptIff(limit: Time)
    ensures WindowKept(limit) <==> limit <= 0.0
  {
    if limit <= 0.0 {
      forall init, acts | Initial(init) && PromptRun(init, acts, limit) ensures Apart(Play(init, acts).created, WINDOW) {
        PromptRunKeepsApart(init, acts, limit);
      }
    } else {
      var half := if limit < WINDOW then limit / 2.0 else WINDOW / 2.0;
      var acts := SlowSendComesTooClose(half, limit - half, "", "");
      var init := EmptyTable();
      assert Initial(init) && PromptRun(init, acts, limit) && !Apart(Play(init, acts).created, WINDOW);
    }
  }

  lemma Waited(user: string, key: string, now: Time)
    requires now >= 0.0
    ensures Play(Sent(user, key, 0.0, map[]), [Tick(now)]) == Sent(user, key, now, map[])
  {
    PlayTwo(Sent(user, key, 0.0, map[]), Tick(now), Tick(now));
  }

  lemma PlayAppend(s: State, xs: seq<Action>, ys: seq<Action>)
    ensures Play(s, xs + ys) == Play(Play(s, xs), ys)
  {
    FoldAppend(Apply, s, xs, ys);
  }

  lemma PlayLast(s: State, front: seq<Action>, last: Action)
    ensures Play(s, front + [last]) == Apply(Play(s, front), last)
  {
    assert (front + [last])[..|front|] == front;
  }

  lemma PlayTwo(s: State, a: Action, b: Action)
    ensures Play(s, []) == s && Play(s, [a]) == Apply(s, a) && Play(s, [a, b]) == Apply(Apply(s, a), b)
  {
    PlayLast(s, [], a);
    PlayLast(s, [a], b);
    assert [] + [a] == [a] && [a] + [b] == [a, b];
  }

  lemma PlayThree(s: State, a: Action, b: Action, c: Action)
    ensures Play(s, [a, b, c]) == Apply(Apply(Apply(s, a), b), c)
  {
    PlayTwo(s, a, b);
    PlayLast(s, [a, b], c);
    assert [a, b] + [c] == [a, b, c];
  }

  // ----- the other writes to the table -----

  /** Expiry takes exactly the open messages past their time; nothing else of a row changes. */
  lemma ExpiredIff(s: State, id: nat)
    requires id in s.rows
    ensures var t := Apply(s, ExpireOld);
      && id in t.rows && t.created == s.created
      && t.rows[id] == s.rows[id].(delivery :=
           if s.rows[id].expiresAt < s.clock && s.rows[id].delivery == Open then Expired else s.rows[id].delivery)
  {
  }

  /** Hard deletion takes exactly the messages acked, or past their time and expired, more
      than seven days ago; freeing clears exactly the keys of messages older than 24 hours. */
  lemma CleanedUpIff(s: State, id: nat)
    requires id in s.rows
    ensures id !in Apply(s, DeleteOld).rows <==>
      || (s.rows[id].delivery == Acked && s.rows[id].ackedAt.Some? && s.rows[id].ackedAt.value < s.clock - 604800.0)
      || (s.rows[id].delivery == Expired && s.rows[id].expiresAt < s.clock - 604800.0)
    ensures id in Apply(s, DeleteOld).rows ==> Apply(s, DeleteOld).rows[id] == s.rows[id]
    ensures id in Apply(s, FreeKeys).rows && Apply(s, FreeKeys).rows[id] ==
      s.rows[id].(key := if s.rows[id].createdAt < s.clock - 86400.0 then None else s.rows[id].key)
  {
  }

  /** A send begins with what it was given; one that fails before its insert leaves nothing; a
      late delivery result reopens a message; and time never goes back. */
  lemma EnvironmentColumns(
    s: State, now: Time, req: nat, user: string, key: Option<string>, fingerprint: string, id: nat)
    ensures Apply(s, Tick(now)) == s.(clock := if s.clock <= now then now else s.clock)
    ensures req !in s.requests ==>
              Apply(s, Begin(req, user, key, fingerprint)).requests
              == s.requests[req := Request(user, key, fingerprint, s.clock, false)]
    ensures req !in Apply(s, Abandon(req)).requests && Apply(s, Abandon(req)).rows == s.rows
    ensures id in s.rows ==> Apply(s, Reopen(id)).rows == s.rows[id := s.rows[id].(delivery := Open)]
  {
  }

  lemma AckColumns(s: State, id: nat)
    requires id in s.rows && s.rows[id].delivery == Open
    ensures Apply(s, Ack(id)).rows == s.rows[id := s.rows[id].(delivery := Acked, ackedAt := Some(s.clock))]
  {
  }

  /** A send answered by replay or conflict ends there: no message and no row changes. */
  lemma AnsweredSendChangesNothing(s: State, req: nat, at: Time)
    requires req in s.requests && Matches(s, s.requests[req].user, s.requests[req].key) != {}
    ensures var t := Apply(Apply(s, Lookup(req)), Insert(req, at)); t.rows == s.rows && t.created == s.created
  {
    assert req !in Apply(s, Lookup(req)).requests;
  }

  /** Inside the window, in every run, a lookup under a message's key finds that message:
      the same request is answered with the original, a different one with a conflict, and
      either way the send changes nothing. A message sent under the empty key stored no
      fingerprint and conflicts with everything, its own replay included. */
  lemma ReplayInsideTheWindow(
    init: State, acts: seq<Action>, id: nat, fingerprint: string, a: Answer, req: nat, at: Time)
    requires Initial(init) && id < |Play(init, acts).created|
    requires var s := Play(init, acts); var c := s.created[id];
      c.key.Some? && s.clock < c.createdAt + WINDOW && IsAnswer(s, c.user, c.key, fingerprint, a)
    ensures var s := Play(init, acts); var c := s.created[id];
      a == if c.key.value != "" && fingerprint == c.fingerprint then Replay(id) else Conflict(id)
    ensures var s := Play(init, acts); var c := s.created[id];
      req in s.requests && s.requests[req].user == c.user && s.requests[req].key == c.key ==>
        var t := Apply(Apply(s, Lookup(req)), Insert(req, at)); t.rows == s.rows && t.created == s.created
  {
    RunKeeps(init, acts);
    var s := Play(init, acts);
    var c := s.created[id];
    assert KeyOk(s, id) && RowOk(s, id);
    assert id in Matches(s, c.user, c.key);
    assert forall other | other in Matches(s, c.user, c.key) :: other == id;
    if req in s.requests && s.requests[req].user == c.user && s.requests[req].key == c.key {
      AnsweredSendChangesNothing(s, req, at);
    }
  }

  /** A send not answered from the window is refused by the index exactly while an older
      row keeps the key; a freeing pass leaves that possible only at the exact edge. */
  lemma RefusedOnlyBeforeFreeing(s: State, user: string, key: Option<string>)
    requires Matches(Apply(s, FreeKeys), user, key) == {}
    ensures Taken(Apply(s, FreeKeys).rows, user, key) <==>
              exists id | id in s.rows :: Holds(s.rows, user, key, id) && s.rows[id].createdAt == s.clock - WINDOW
  {
    var t := Apply(s, FreeKeys);
    if Taken(t.rows, user, key) {
      var id :| id in t.rows && Holds(t.rows, user, key, id);
      assert id !in Matches(t, user, key);
      assert Holds(s.rows, user, key, id);
    }
    if id :| id in s.rows && Holds(s.rows, user, key, id) && s.rows[id].createdAt == s.clock - WINDOW {
      assert Holds(t.rows, user, key, id);
    }
  }
}
