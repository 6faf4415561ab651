/** Digest batching: low-priority `message.delivered` events are bundled, per recipient,
    into `message.digest` events, each exactly once. */
module Digest {
  import opened Common
  import opened EventLog

  const EVENT_RETENTION: Time := 7.0 * DAY

  datatype Row = Row(
    id: nat, kind: string, recipient: string, priority: PriorityField,
    key: Option<string>, digestedAt: Option<Time>, emittedAt: Time)

  /** A digest that was actually inserted: its recipient and the ids it bundles. */
  datatype Bundle = Bundle(recipient: string, ids: seq<nat>)

  /** `rows` is the visible table in id order, `used` every id that was ever visible in it. */
  datatype State = State(clock: Time, minBatch: nat, rows: seq<Row>, used: set<nat>, bundles: seq<Bundle>)

  /** Ids come from a sequence: fresh, but they may become visible in any order. */
  datatype Action =
    | Tick(now: Time)
    | Emit(id: nat, kind: string, recipient: string, priority: PriorityField, key: Option<string>)
    | Cleanup
    | DigestRecipient(recipient: string, id: nat)

  /** `payload ->> 'priority' IN ('1', '2')`: the text of the field, number or string alike. */
  predicate LowPriority(p: PriorityField) {
    match p
    case Number(n) => n == 1 || n == 2
    case Text(s) => s == "1" || s == "2"
    case _ => false
  }

  predicate Bundled(r: Row) {
    r.kind == DELIVERED && LowPriority(r.priority)
  }

  predicate Eligible(r: Row, recipient: string) {
    Bundled(r) && r.digestedAt.None? && r.recipient == recipient
  }

  function EligibleIds(rows: seq<Row>, recipient: string): seq<nat> {
    if rows == [] then []
    else
      var last := rows[|rows| - 1];
      EligibleIds(rows[..|rows| - 1], recipient) + if Eligible(last, recipient) then [last.id] else []
  }

  function DigestKey(recipient: string, highest: nat): string {
    DIGEST + ":" + recipient + ":" + Decimal(highest)
  }

  predicate HasKey(rows: seq<Row>, kind: string, key: string) {
    exists r | r in rows :: r.kind == kind && r.key == Some(key)
  }

  /** Where a row lands in the table's id order. */
  function InsertRow(rows: seq<Row>, r: Row): seq<Row> {
    if rows == [] || rows[|rows| - 1].id < r.id then rows + [r]
    else InsertRow(rows[..|rows| - 1], r) + [rows[|rows| - 1]]
  }

  /** `emit_event`: plain insert without a key, upsert with one; a conflict inserts nothing. */
  function EmitRow(s: State, r: Row): State {
    if r.id in s.used || (r.key.Some? && HasKey(s.rows, r.kind, r.key.value)) then s
    else s.(rows := InsertRow(s.rows, r), used := s.used + {r.id})
  }

  function MarkedRow(r: Row, ids: seq<nat>, now: Time): Row {
    if r.id in ids then r.(digestedAt := Some(now)) else r
  }

  function Mark(rows: seq<Row>, ids: seq<nat>, now: Time): (m: seq<Row>)
    ensures |m| == |rows| && forall i | 0 <= i < |rows| :: m[i] == MarkedRow(rows[i], ids, now)
  {
    seq(|rows|, i requires 0 <= i < |rows| => MarkedRow(rows[i], ids, now))
  }

  function DigestRow(s: State, recipient: string, ids: seq<nat>, id: nat): Row
    requires ids != []
  {
    Row(id, DIGEST, recipient, Missing, Some(DigestKey(recipient, ids[|ids| - 1])), None, s.clock)
  }

  /** One recipient's turn in `emit_digests`: upsert the digest, then mark the sources,
      whether or not the upsert inserted anything. */
  function ApplyDigest(s: State, recipient: string, id: nat): State {
    var ids := EligibleIds(s.rows, recipient);
    if ids == [] || |ids| < s.minBatch || id in s.used then s
    else
      var inserted := !HasKey(s.rows, DIGEST, DigestKey(recipient, ids[|ids| - 1]));
      var t := EmitRow(s, DigestRow(s, recipient, ids, id));
      t.(rows := Mark(t.rows, ids, s.clock),
         bundles := if inserted then s.bundles + [Bundle(recipient, ids)] else s.bundles)
  }

  function Unexpired(rows: seq<Row>, cutoff: Time): seq<Row> {
    if rows == [] then []
    else
      var last := rows[|rows| - 1];
      Unexpired(rows[..|rows| - 1], cutoff) + if last.emittedAt < cutoff then [] else [last]
  }

  /** Only the digest emitter emits digests. */
  function Apply(s: State, a: Action): State {
    match a
    case Tick(now) => if s.clock <= now then s.(clock := now) else s
    case Emit(id, kind, recipient, priority, key) =>
      if kind == DIGEST then s else EmitRow(s, Row(id, kind, recipient, priority, key, None, s.clock))
    case Cleanup => s.(rows := Unexpired(s.rows, s.clock - EVENT_RETENTION))
    case DigestRecipient(recipient, id) => ApplyDigest(s, recipient, id)
  }

  function Play(s: State, acts: seq<Action>): State {
    Fold(Apply, s, acts)
  }

  predicate Initial(s: State) {
    s.rows == [] && s.used == {} && s.bundles == []
  }

  // ----- the key names its bundle -----

  lemma {:induction false} NoColonInDecimal(n: nat)
    ensures ':' !in Decimal(n)
  {
    forall c | c in Decimal(n) ensures c != ':' { assert IsDigit(c); }
  }

  /** Two strings cut at their last colon. */
  lemma LastColon(a: string, x: string, b: string, y: string)
    requires ':' !in x && ':' !in y && a + ":" + x == b + ":" + y
    ensures a == b && x == y
  {
    var s, t := a + ":" + x, b + ":" + y;
    assert s[|a|] == ':' && t[|b|] == ':';
    assert s[..|a|] == a && t[..|b|] == b;
    assert s[|a| + 1..] == x && t[|b| + 1..] == y;
  }

  lemma DigestKeyInjective(r: string, n: nat, q: string, m: nat)
    requires DigestKey(r, n) == DigestKey(q, m)
    ensures r == q && n == m
  {
    NoColonInDecimal(n);
    NoColonInDecimal(m);
    LastColon(DIGEST + ":" + r, Decimal(n), DIGEST + ":" + q, Decimal(m));
    assert (DIGEST + ":" + r)[|DIGEST| + 1..] == r && (DIGEST + ":" + q)[|DIGEST| + 1..] == q;
    DecimalRoundTrip(n);
    DecimalRoundTrip(m);
  }

  // ----- the invariant -----

  predicate InSome(bundles: seq<Bundle>, id: nat) {
    exists b | 0 <= b < |bundles| :: id in bundles[b].ids
  }

  predicate Ascending(ids: seq<nat>) {
    forall i, j | 0 <= i < j < |ids| :: ids[i] < ids[j]
  }

  predicate IdOrder(rows: seq<Row>) {
    forall i, j | 0 <= i < j < |rows| :: rows[i].id < rows[j].id
  }

  /** No id is in two bundles, nor twice in one. */
  predicate Disjoint(bundles: seq<Bundle>) {
    && (forall b | 0 <= b < |bundles| :: Ascending(bundles[b].ids) && bundles[b].ids != [])
    && (forall b, c, id | 0 <= b < c < |bundles| && id in bundles[b].ids :: id !in bundles[c].ids)
  }

  /** `recipient` and `key` are those of a bundle. */
  predicate KeyOf(bundles: seq<Bundle>, recipient: string, key: string) {
    exists b | 0 <= b < |bundles| ::
      && bundles[b].ids != [] && recipient == bundles[b].recipient
      && key == DigestKey(bundles[b].recipient, bundles[b].ids[|bundles[b].ids| - 1])
  }

  /** Marked exactly when bundled, and bundled only if of low priority. */
  predicate Marked(rows: seq<Row>, bundles: seq<Bundle>) {
    forall r | r in rows ::
      (r.digestedAt.Some? <==> InSome(bundles, r.id)) && (r.digestedAt.Some? ==> Bundled(r))
  }

  /** Every digest row is addressed to the recipient of the bundle whose key it carries. */
  predicate Keyed(rows: seq<Row>, bundles: seq<Bundle>) {
    forall r | r in rows && r.kind == DIGEST :: r.key.Some? && KeyOf(bundles, r.recipient, r.key.value)
  }

  predicate RowsUsed(rows: seq<Row>, used: set<nat>) {
    forall r | r in rows :: r.id in used
  }

  predicate BundlesUsed(bundles: seq<Bundle>, used: set<nat>) {
    forall b, id | 0 <= b < |bundles| && id in bundles[b].ids :: id in used
  }

  predicate Inv(s: State) {
    && IdOrder(s.rows)
    && RowsUsed(s.rows, s.used)
    && BundlesUsed(s.bundles, s.used)
    && Disjoint(s.bundles)
    && Marked(s.rows, s.bundles)
    && Keyed(s.rows, s.bundles)
  }

  lemma SameRow(rows: seq<Row>, r: Row, q: Row)
    requires IdOrder(rows) && r in rows && q in rows && r.id == q.id
    ensures r == q
  {
    var i :| 0 <= i < |rows| && rows[i] == r;
    var j :| 0 <= j < |rows| && rows[j] == q;
  }

  lemma {:induction false} InsertRowMembers(rows: seq<Row>, r: Row)
    ensures forall x :: x in InsertRow(rows, r) <==> x == r || x in rows
  {
    if rows != [] && rows[|rows| - 1].id >= r.id {
      InsertRowMembers(rows[..|rows| - 1], r);
      assert rows == rows[..|rows| - 1] + [rows[|rows| - 1]];
    }
  }

  lemma {:induction false} InsertRowOrder(rows: seq<Row>, r: Row)
    requires IdOrder(rows) && forall x | x in rows :: x.id != r.id
    ensures IdOrder(InsertRow(rows, r))
  {
    if rows != [] {
      var n := |rows| - 1;
      assert rows[n] in rows;
      if rows[n].id >= r.id {
        forall x | x in rows[..n] ensures x in rows {}
        InsertRowOrder(rows[..n], r);
        InsertRowMembers(rows[..n], r);
        var front := InsertRow(rows[..n], r);
        forall k | 0 <= k < |front| ensures front[k].id < rows[n].id {
          assert front[k] in front;
          if front[k] != r {
            var i :| 0 <= i < n && rows[..n][i] == front[k];
            assert rows[i] == front[k];
          }
        }
      }
    }
  }

  lemma MarkMembers(rows: seq<Row>, ids: seq<nat>, now: Time)
    ensures forall x | x in Mark(rows, ids, now) :: exists r :: r in rows && x == MarkedRow(r, ids, now)
    ensures forall r | r in rows :: MarkedRow(r, ids, now) in Mark(rows, ids, now)
  {
    var marked := Mark(rows, ids, now);
    forall x | x in marked ensures exists r :: r in rows && x == MarkedRow(r, ids, now) {
      var i :| 0 <= i < |marked| && marked[i] == x;
      assert rows[i] in rows;
    }
    forall r | r in rows ensures MarkedRow(r, ids, now) in marked {
      var i :| 0 <= i < |rows| && rows[i] == r;
      assert marked[i] in marked;
    }
  }

  /** A row that keeps its place is marked in place. */
  lemma {:induction false} MarkInserted(rows: seq<Row>, r: Row, ids: seq<nat>, now: Time)
    requires r.id !in ids
    ensures Mark(InsertRow(rows, r), ids, now) == InsertRow(Mark(rows, ids, now), r)
  {
    if rows != [] && rows[|rows| - 1].id >= r.id {
      var n := |rows| - 1;
      MarkInserted(rows[..n], r, ids, now);
      assert Mark(rows, ids, now)[..n] == Mark(rows[..n], ids, now);
      var front := InsertRow(rows[..n], r);
      assert Mark(front + [rows[n]], ids, now) == Mark(front, ids, now) + [MarkedRow(rows[n], ids, now)];
    } else {
      assert Mark(rows + [r], ids, now) == Mark(rows, ids, now) + [r];
    }
  }

  // ----- the waiting events of a recipient -----

  lemma {:induction false} EligibleMembers(rows: seq<Row>, recipient: string)
    ensures forall r | r in rows && Eligible(r, recipient) :: r.id in EligibleIds(rows, recipient)
    ensures forall id | id in EligibleIds(rows, recipient) :: exists r :: r in rows && r.id == id && Eligible(r, recipient)
  {
    if rows != [] {
      var n := |rows| - 1;
      EligibleMembers(rows[..n], recipient);
      assert rows == rows[..n] + [rows[n]];
      forall id | id in EligibleIds(rows, recipient) ensures exists r :: r in rows && r.id == id && Eligible(r, recipient) {
        if id in EligibleIds(rows[..n], recipient) {
          var r :| r in rows[..n] && r.id == id && Eligible(r, recipient);
          assert r in rows;
        } else {
          assert rows[n] in rows && rows[n].id == id;
        }
      }
    }
  }

  lemma {:induction false} EligibleAscending(rows: seq<Row>, recipient: string)
    requires IdOrder(rows)
    ensures Ascending(EligibleIds(rows, recipient))
  {
    if rows != [] {
      var n := |rows| - 1;
      EligibleAscending(rows[..n], recipient);
      EligibleMembers(rows[..n], recipient);
      var front := EligibleIds(rows[..n], recipient);
      forall k | 0 <= k < |front| ensures front[k] < rows[n].id {
        assert front[k] in front;
        var r :| r in rows[..n] && r.id == front[k];
        var i :| 0 <= i < n && rows[i] == r;
      }
    }
  }

  /** Waiting events are in no bundle yet. */
  lemma WaitingIsNew(s: State, recipient: string, id: nat)
    requires Inv(s) && id in EligibleIds(s.rows, recipient)
    ensures id in s.used && !InSome(s.bundles, id)
  {
    EligibleMembers(s.rows, recipient);
    var r :| r in s.rows && r.id == id && Eligible(r, recipient);
  }

  /** The idempotency key of a new digest never collides: its highest event was not yet
      digested, so no earlier bundle ends in it. */
  lemma KeyIsFresh(s: State, recipient: string)
    requires Inv(s) && EligibleIds(s.rows, recipient) != []
    ensures var ids := EligibleIds(s.rows, recipient); !HasKey(s.rows, DIGEST, DigestKey(recipient, ids[|ids| - 1]))
  {
    var ids := EligibleIds(s.rows, recipient);
    var highest := ids[|ids| - 1];
    assert highest in ids;
    WaitingIsNew(s, recipient, highest);
    forall r | r in s.rows && r.kind == DIGEST ensures r.key != Some(DigestKey(recipient, highest)) {
      var key := r.key.value;
      var b :| 0 <= b < |s.bundles| && s.bundles[b].ids != [] && r.recipient == s.bundles[b].recipient &&
               key == DigestKey(s.bundles[b].recipient, s.bundles[b].ids[|s.bundles[b].ids| - 1]);
      var last := s.bundles[b].ids[|s.bundles[b].ids| - 1];
      assert last in s.bundles[b].ids;
      assert InSome(s.bundles, last);
      if key == DigestKey(recipient, highest) {
        DigestKeyInjective(s.bundles[b].recipient, last, recipient, highest);
      }
    }
  }

  // ----- preservation -----

  lemma InSomeAppend(bundles: seq<Bundle>, b: Bundle, id: nat)
    ensures InSome(bundles + [b], id) <==> InSome(bundles, id) || id in b.ids
  {
    var all := bundles + [b];
    if InSome(bundles, id) {
      var k :| 0 <= k < |bundles| && id in bundles[k].ids;
      assert all[k] == bundles[k];
    }
    if id in b.ids {
      assert all[|bundles|] == b;
    }
  }

  lemma KeyOfAppend(bundles: seq<Bundle>, b: Bundle, recipient: string, key: string)
    requires KeyOf(bundles, recipient, key) ||
             (b.ids != [] && recipient == b.recipient && key == DigestKey(b.recipient, b.ids[|b.ids| - 1]))
    ensures KeyOf(bundles + [b], recipient, key)
  {
    var all := bundles + [b];
    if KeyOf(bundles, recipient, key) {
      var k :| 0 <= k < |bundles| && bundles[k].ids != [] && recipient == bundles[k].recipient &&
               key == DigestKey(bundles[k].recipient, bundles[k].ids[|bundles[k].ids| - 1]);
      assert all[k] == bundles[k];
    } else {
      assert all[|bundles|] == b;
    }
  }

  /** Marking a recipient's waiting events keeps marked-iff-bundled, once they are a bundle. */
  lemma MarkKeeps(rows: seq<Row>, bundles: seq<Bundle>, recipient: string, now: Time)
    requires IdOrder(rows) && Marked(rows, bundles)
    ensures var ids := EligibleIds(rows, recipient);
      Marked(Mark(rows, ids, now), bundles + [Bundle(recipient, ids)])
  {
    var ids := EligibleIds(rows, recipient);
    var b := Bundle(recipient, ids);
    EligibleMembers(rows, recipient);
    MarkMembers(rows, ids, now);
    forall x | x in Mark(rows, ids, now)
      ensures x.digestedAt.Some? <==> InSome(bundles + [b], x.id)
      ensures x.digestedAt.Some? ==> Bundled(x)
    {
      var r :| r in rows && x == MarkedRow(r, ids, now);
      InSomeAppend(bundles, b, r.id);
      if r.id in ids {
        var q :| q in rows && q.id == r.id && Eligible(q, recipient);
        SameRow(rows, r, q);
      }
    }
  }

  lemma BundleKeepsDisjoint(bundles: seq<Bundle>, b: Bundle)
    requires Disjoint(bundles) && Ascending(b.ids) && b.ids != []
    requires forall id | id in b.ids :: !InSome(bundles, id)
    ensures Disjoint(bundles + [b])
  {
    var all := bundles + [b];
    forall x, y, id | 0 <= x < y < |all| && id in all[x].ids ensures id !in all[y].ids {
      if y == |bundles| {
        assert InSome(bundles, id);
      }
    }
  }

  /** Marking changes neither the order, the ids nor the keys. */
  lemma MarkFrame(rows: seq<Row>, ids: seq<nat>, now: Time, used: set<nat>, bundles: seq<Bundle>)
    requires IdOrder(rows) && RowsUsed(rows, used) && Keyed(rows, bundles)
    ensures var m := Mark(rows, ids, now); IdOrder(m) && RowsUsed(m, used) && Keyed(m, bundles)
  {
    MarkMembers(rows, ids, now);
    forall x | x in Mark(rows, ids, now) && x.kind == DIGEST ensures x.key.Some? && KeyOf(bundles, x.recipient, x.key.value) {
      var r :| r in rows && x == MarkedRow(r, ids, now);
    }
  }

  /** A fresh, unbundled row fits wherever it lands; a digest needs its key to name a bundle. */
  lemma NewRowKeeps(s: State, r: Row)
    requires Inv(s) && r.id !in s.used && r.digestedAt.None?
    requires r.kind == DIGEST ==> r.key.Some? && KeyOf(s.bundles, r.recipient, r.key.value)
    ensures Inv(s.(rows := InsertRow(s.rows, r), used := s.used + {r.id}))
  {
    InsertRowMembers(s.rows, r);
    forall x | x in s.rows ensures x.id != r.id {}
    InsertRowOrder(s.rows, r);
  }

  /** A turn that meets the threshold: the digest row is inserted, never swallowed by the upsert. */
  lemma TurnEffect(s: State, recipient: string, id: nat)
    requires Inv(s) && id !in s.used
    requires var ids := EligibleIds(s.rows, recipient); ids != [] && |ids| >= s.minBatch
    ensures var ids := EligibleIds(s.rows, recipient);
      Apply(s, DigestRecipient(recipient, id))
        == s.(rows := InsertRow(Mark(s.rows, ids, s.clock), DigestRow(s, recipient, ids, id)), used := s.used + {id},
              bundles := s.bundles + [Bundle(recipient, ids)])
    ensures var d := DigestRow(s, recipient, EligibleIds(s.rows, recipient), id);
      d.id == id && d.kind == DIGEST && d.recipient == recipient && d.digestedAt.None? && d.emittedAt == s.clock
  {
    var ids := EligibleIds(s.rows, recipient);
    KeyIsFresh(s, recipient);
    FreshIsNotWaiting(s, recipient, id);
    DigestSteps(s, recipient, id, ids);
    MarkInserted(s.rows, DigestRow(s, recipient, ids, id), ids, s.clock);
  }

  /** The upsert and the marking, one after the other. */
  lemma DigestSteps(s: State, recipient: string, id: nat, ids: seq<nat>)
    requires ids == EligibleIds(s.rows, recipient) && ids != [] && |ids| >= s.minBatch && id !in s.used
    requires !HasKey(s.rows, DIGEST, DigestKey(recipient, ids[|ids| - 1]))
    ensures Apply(s, DigestRecipient(recipient, id))
         == s.(rows := Mark(InsertRow(s.rows, DigestRow(s, recipient, ids, id)), ids, s.clock), used := s.used + {id},
               bundles := s.bundles + [Bundle(recipient, ids)])
  {
  }

  lemma FreshIsNotWaiting(s: State, recipient: string, id: nat)
    requires Inv(s) && id !in s.used
    ensures id !in EligibleIds(s.rows, recipient)
  {
    EligibleMembers(s.rows, recipient);
  }

  /** The sources marked and the bundle recorded, before the digest row is in. */
  function WithBundle(s: State, recipient: string): State {
    var ids := EligibleIds(s.rows, recipient);
    s.(rows := Mark(s.rows, ids, s.clock), bundles := s.bundles + [Bundle(recipient, ids)])
  }

  lemma BundleKeeps(s: State, recipient: string)
    requires Inv(s) && EligibleIds(s.rows, recipient) != []
    ensures Inv(WithBundle(s, recipient))
  {
    var ids := EligibleIds(s.rows, recipient);
    var b := Bundle(recipient, ids);
    forall id | id in ids ensures id in s.used && !InSome(s.bundles, id) { WaitingIsNew(s, recipient, id); }
    EligibleAscending(s.rows, recipient);
    BundleKeepsDisjoint(s.bundles, b);
    MarkKeeps(s.rows, s.bundles, recipient, s.clock);
    forall r | r in s.rows && r.kind == DIGEST ensures KeyOf(s.bundles + [b], r.recipient, r.key.value) {
      KeyOfAppend(s.bundles, b, r.recipient, r.key.value);
    }
    MarkFrame(s.rows, ids, s.clock, s.used, s.bundles + [b]);
  }

  lemma DigestKeeps(s: State, recipient: string, id: nat)
    requires Inv(s)
    ensures Inv(Apply(s, DigestRecipient(recipient, id)))
  {
    var ids := EligibleIds(s.rows, recipient);
    if ids != [] && |ids| >= s.minBatch && id !in s.used {
      BundleKeeps(s, recipient);
      KeyOfAppend(s.bundles, Bundle(recipient, ids), recipient, DigestKey(recipient, ids[|ids| - 1]));
      var t, d := WithBundle(s, recipient), DigestRow(s, recipient, ids, id);
      NewRowKeeps(t, d);
      TurnEffect(s, recipient, id);
      assert Apply(s, DigestRecipient(recipient, id)) == t.(rows := InsertRow(t.rows, d), used := t.used + {d.id});
    }
  }

  lemma {:induction false} UnexpiredSubset(rows: seq<Row>, cutoff: Time)
    requires IdOrder(rows)
    ensures IdOrder(Unexpired(rows, cutoff))
    ensures forall r | r in Unexpired(rows, cutoff) :: r in rows
  {
    if rows != [] {
      var n := |rows| - 1;
      UnexpiredSubset(rows[..n], cutoff);
      var front := Unexpired(rows[..n], cutoff);
      assert Unexpired(rows, cutoff) == front || Unexpired(rows, cutoff) == front + [rows[n]];
      forall k | 0 <= k < |front| ensures front[k].id < rows[n].id {
        assert front[k] in front && front[k] in rows[..n];
      }
    }
  }

  lemma CleanupKeeps(s: State)
    requires Inv(s)
    ensures Inv(Apply(s, Cleanup))
  {
    UnexpiredSubset(s.rows, s.clock - EVENT_RETENTION);
  }

  lemma StepKeeps(s: State, a: Action)
    requires Inv(s)
    ensures Inv(Apply(s, a))
  {
    match a
    case DigestRecipient(recipient, id) => DigestKeeps(s, recipient, id);
    case Cleanup => CleanupKeeps(s);
    case Emit(id, kind, recipient, priority, key) =>
      if kind != DIGEST && id !in s.used {
        NewRowKeeps(s, Row(id, kind, recipient, priority, key, None, s.clock));
      }
    case _ =>
  }

  lemma {:induction false} RunKeeps(s: State, acts: seq<Action>)
    requires Inv(s)
    ensures Inv(Play(s, acts))
  {
    if acts != [] {
      RunKeeps(s, acts[..|acts| - 1]);
      StepKeeps(Play(s, acts[..|acts| - 1]), acts[|acts| - 1]);
    }
  }

  // ----- over whole runs -----

  /** Digests partition the low-priority events: in every run, whatever the order in which
      ids become visible, an event is marked digested exactly when some inserted digest
      bundles it; no event is in two bundles or twice in one; only low-priority deliveries
      are bundled; and every digest row is addressed to the recipient of its bundle. */
  lemma DigestsPartition(init: State, acts: seq<Action>)
    requires Initial(init)
    ensures Disjoint(Play(init, acts).bundles)
    ensures Marked(Play(init, acts).rows, Play(init, acts).bundles)
    ensures Keyed(Play(init, acts).rows, Play(init, acts).bundles)
  {
    RunKeeps(init, acts);
  }

  lemma {:induction false} NoneEligible(rows: seq<Row>, recipient: string)
    requires forall r | r in rows :: !Eligible(r, recipient)
    ensures EligibleIds(rows, recipient) == []
  {
    if rows != [] {
      assert rows[|rows| - 1] in rows;
      NoneEligible(rows[..|rows| - 1], recipient);
    }
  }

  /** Afterwards nothing of the recipient is left waiting. */
  lemma NothingLeftWaiting(s: State, recipient: string, id: nat)
    requires Inv(s) && id !in s.used
    requires var ids := EligibleIds(s.rows, recipient); ids != [] && |ids| >= s.minBatch
    ensures EligibleIds(Apply(s, DigestRecipient(recipient, id)).rows, recipient) == []
  {
    var ids := EligibleIds(s.rows, recipient);
    TurnEffect(s, recipient, id);
    EligibleMembers(s.rows, recipient);
    MarkMembers(s.rows, ids, s.clock);
    var rows := Apply(s, DigestRecipient(recipient, id)).rows;
    InsertRowMembers(Mark(s.rows, ids, s.clock), DigestRow(s, recipient, ids, id));
    forall x | x in rows ensures !Eligible(x, recipient) {
      if x in Mark(s.rows, ids, s.clock) {
        var r :| r in s.rows && x == MarkedRow(r, ids, s.clock);
      }
    }
    NoneEligible(rows, recipient);
  }

  /** The digest row that a recipient is promised, column by column: undigested, emitted now,
      under the key of its highest bundled id. */
  function PromisedDigest(recipient: string, highest: nat, id: nat, now: Time): Row {
    Row(id, "message.digest", recipient, Missing,
        Some("message.digest:" + recipient + ":" + Decimal(highest)), None, now)
  }

  /** Recipient has enough waiting for a digest. */
  predicate Ripe(s: State, recipient: string) {
    EligibleIds(s.rows, recipient) != [] && |EligibleIds(s.rows, recipient)| >= s.minBatch
  }

  /** From `s` to `t` one digest was inserted for the recipient: it holds exactly its waiting
      events, is addressed to it under the key of the highest, and leaves none waiting. */
  predicate DigestPosted(s: State, t: State, recipient: string, id: nat)
    requires EligibleIds(s.rows, recipient) != []
  {
    var ids := EligibleIds(s.rows, recipient);
    && t.bundles == s.bundles + [Bundle(recipient, ids)]
    && PromisedDigest(recipient, ids[|ids| - 1], id, s.clock) in t.rows
    && EligibleIds(t.rows, recipient) == []
  }

  /** The upsert's conflict path never drops a bundle: in every run, each turn that meets
      the threshold posts its digest. */
  lemma NoBundleIsDropped(init: State, acts: seq<Action>, recipient: string, id: nat)
    requires Initial(init) && id !in Play(init, acts).used && Ripe(Play(init, acts), recipient)
    ensures DigestPosted(Play(init, acts), Play(init, acts + [DigestRecipient(recipient, id)]), recipient, id)
  {
    RunKeeps(init, acts);
    PlayLast(init, acts, DigestRecipient(recipient, id));
    TurnPosts(Play(init, acts), recipient, id);
  }

  lemma TurnPosts(s: State, recipient: string, id: nat)
    requires Inv(s) && id !in s.used && Ripe(s, recipient)
    ensures DigestPosted(s, Apply(s, DigestRecipient(recipient, id)), recipient, id)
  {
    DigestInserted(s, recipient, id);
    NothingLeftWaiting(s, recipient, id);
  }

  lemma PlayLast(s: State, front: seq<Action>, last: Action)
    ensures Play(s, front + [last]) == Apply(Play(s, front), last)
  {
    assert (front + [last])[..|front|] == front;
  }

  lemma DigestInserted(s: State, recipient: string, id: nat)
    requires Inv(s) && id !in s.used
    requires var ids := EligibleIds(s.rows, recipient); ids != [] && |ids| >= s.minBatch
    ensures var ids, t := EligibleIds(s.rows, recipient), Apply(s, DigestRecipient(recipient, id));
      && t.bundles == s.bundles + [Bundle(recipient, ids)]
      && PromisedDigest(recipient, ids[|ids| - 1], id, s.clock) in t.rows
  {
    var ids := EligibleIds(s.rows, recipient);
    TurnEffect(s, recipient, id);
    InsertRowMembers(Mark(s.rows, ids, s.clock), DigestRow(s, recipient, ids, id));
    PromisedColumns(s, recipient, ids, id);
  }

  lemma PromisedColumns(s: State, recipient: string, ids: seq<nat>, id: nat)
    requires ids != []
    ensures DigestRow(s, recipient, ids, id) == PromisedDigest(recipient, ids[|ids| - 1], id, s.clock)
  {
    assert DIGEST + ":" == "message.digest:";
  }

  /** A turn's marks: each bundled row is digested now, every other row is as it was. */
  lemma MarksColumns(s: State, recipient: string, id: nat, r: Row)
    requires Inv(s) && id !in s.used && r in s.rows
    requires var ids := EligibleIds(s.rows, recipient); ids != [] && |ids| >= s.minBatch
    ensures var t := Apply(s, DigestRecipient(recipient, id));
      (if r.id in EligibleIds(s.rows, recipient)
       then Row(r.id, r.kind, r.recipient, r.priority, r.key, Some(s.clock), r.emittedAt) else r) in t.rows
  {
    var ids := EligibleIds(s.rows, recipient);
    TurnEffect(s, recipient, id);
    MarkMembers(s.rows, ids, s.clock);
    InsertRowMembers(Mark(s.rows, ids, s.clock), DigestRow(s, recipient, ids, id));
  }

  /** An emitted event is in the table, waiting, unless its id or its key is taken. */
  lemma EmitColumns(s: State, id: nat, kind: string, recipient: string, priority: PriorityField, key: Option<string>)
    requires id !in s.used && kind != "message.digest" && (key.Some? ==> !HasKey(s.rows, kind, key.value))
    ensures var t := Apply(s, Emit(id, kind, recipient, priority, key));
      forall x :: x in t.rows <==> x in s.rows || x == Row(id, kind, recipient, priority, key, None, s.clock)
  {
    InsertRowMembers(s.rows, Row(id, kind, recipient, priority, key, None, s.clock));
  }

  lemma {:induction false} UnexpiredMembers(rows: seq<Row>, cutoff: Time, x: Row)
    ensures x in Unexpired(rows, cutoff) <==> x in rows && x.emittedAt >= cutoff
  {
    if rows != [] {
      UnexpiredMembers(rows[..|rows| - 1], cutoff, x);
      assert rows == rows[..|rows| - 1] + [rows[|rows| - 1]];
    }
  }

  /** The table loses exactly the rows emitted more than seven days ago. */
  lemma CleanedUpIff(s: State, x: Row)
    ensures x in Apply(s, Cleanup).rows <==> x in s.rows && x.emittedAt >= s.clock - 604800.0
  {
    UnexpiredMembers(s.rows, s.clock - EVENT_RETENTION, x);
  }

  /** What waits for a recipient: its undigested deliveries of priority 1 or 2, as a number or as text. */
  lemma EligibleIff(r: Row, recipient: string)
    ensures Eligible(r, recipient) <==>
      && r.kind == "message.delivered" && r.recipient == recipient && r.digestedAt == None
      && (r.priority == Number(1) || r.priority == Number(2) || r.priority == Text("1") || r.priority == Text("2"))
  {
  }

  lemma TimePasses(s: State, now: Time)
    ensures Apply(s, Tick(now)) == s.(clock := if s.clock <= now then now else s.clock)
  {
  }
}
