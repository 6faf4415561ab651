/** `emit_digests` as its two loops: group by recipient, then one turn per recipient. */
module DigestEmitter {
  import opened Common
  import opened EventLog
  import opened Digest

  predicate Waiting(r: Row) {
    Bundled(r) && r.digestedAt.None?
  }

  /** `groups` holds each recipient's waiting ids, and `order` its keys, once each. */
  ghost predicate Grouped(rows: seq<Row>, order: seq<string>, groups: map<string, seq<nat>>) {
    && (forall i, j | 0 <= i < j < |order| :: order[i] != order[j])
    && (forall r :: r in order <==> r in groups)
    && (forall r :: if r in groups then groups[r] == EligibleIds(rows, r) != [] else EligibleIds(rows, r) == [])
  }

  /** The queue names the recipients with something waiting. */
  ghost predicate Queued(rows: seq<Row>, order: seq<string>) {
    forall r :: r in order <==> EligibleIds(rows, r) != []
  }

  lemma EligibleAppend(rows: seq<Row>, row: Row, r: string)
    ensures EligibleIds(rows + [row], r) == EligibleIds(rows, r) + if Eligible(row, r) then [row.id] else []
  {
    assert (rows + [row])[..|rows|] == rows;
  }

  lemma NotWaiting(rows: seq<Row>, row: Row, order: seq<string>, groups: map<string, seq<nat>>)
    requires Grouped(rows, order, groups) && !Waiting(row)
    ensures Grouped(rows + [row], order, groups)
  {
    forall r ensures EligibleIds(rows + [row], r) == EligibleIds(rows, r) { EligibleAppend(rows, row, r); }
  }

  lemma JoinsGroup(rows: seq<Row>, row: Row, order: seq<string>, groups: map<string, seq<nat>>)
    requires Grouped(rows, order, groups) && Waiting(row) && row.recipient in groups
    ensures Grouped(rows + [row], order, groups[row.recipient := groups[row.recipient] + [row.id]])
  {
    forall r ensures EligibleIds(rows + [row], r) == EligibleIds(rows, r) + if r == row.recipient then [row.id] else [] {
      EligibleAppend(rows, row, r);
    }
  }

  lemma StartsGroup(rows: seq<Row>, row: Row, order: seq<string>, groups: map<string, seq<nat>>)
    requires Grouped(rows, order, groups) && Waiting(row) && row.recipient !in groups
    ensures Grouped(rows + [row], order + [row.recipient], groups[row.recipient := [row.id]])
  {
    forall r ensures EligibleIds(rows + [row], r) == EligibleIds(rows, r) + if r == row.recipient then [row.id] else [] {
      EligibleAppend(rows, row, r);
    }
    assert row.recipient !in order;
  }

  /** `_fetch_undigested_events_grouped_by_recipient`: the dictionary fill. */
  method GroupByRecipient(rows: seq<Row>) returns (order: seq<string>, groups: map<string, seq<nat>>)
    ensures Grouped(rows, order, groups) && Queued(rows, order)
  {
    order, groups := [], map[];
    for i := 0 to |rows|
      invariant Grouped(rows[..i], order, groups)
    {
      assert rows[..i + 1] == rows[..i] + [rows[i]];
      if Waiting(rows[i]) {
        var r := rows[i].recipient;
        if r !in groups {
          StartsGroup(rows[..i], rows[i], order, groups);
          order := order + [r];
          groups := groups[r := [rows[i].id]];
        } else {
          JoinsGroup(rows[..i], rows[i], order, groups);
          groups := groups[r := groups[r] + [rows[i].id]];
        }
      } else {
        NotWaiting(rows[..i], rows[i], order, groups);
      }
    }
    assert rows[..|rows|] == rows;
  }

  lemma {:induction false} SameEligible(a: seq<Row>, b: seq<Row>, r: string)
    requires |a| == |b|
    requires forall i | 0 <= i < |a| :: a[i].id == b[i].id && (Eligible(a[i], r) <==> Eligible(b[i], r))
    ensures EligibleIds(a, r) == EligibleIds(b, r)
  {
    if a != [] {
      SameEligible(a[..|a| - 1], b[..|b| - 1], r);
    }
  }

  /** A row that waits for nobody leaves the waiting events as they were. */
  lemma {:induction false} InsertIneligible(rows: seq<Row>, d: Row, r: string)
    requires !Eligible(d, r)
    ensures EligibleIds(InsertRow(rows, d), r) == EligibleIds(rows, r)
  {
    if rows != [] && rows[|rows| - 1].id >= d.id {
      var n := |rows| - 1;
      InsertIneligible(rows[..n], d, r);
      EligibleAppend(InsertRow(rows[..n], d), rows[n], r);
      EligibleAppend(rows[..n], rows[n], r);
      assert rows == rows[..n] + [rows[n]];
    } else {
      EligibleAppend(rows, d, r);
    }
  }

  /** Marking one recipient's waiting events leaves those of every other. */
  lemma MarkOthers(rows: seq<Row>, q: string, r: string, now: Time)
    requires IdOrder(rows) && q != r
    ensures EligibleIds(Mark(rows, EligibleIds(rows, q), now), r) == EligibleIds(rows, r)
  {
    var ids := EligibleIds(rows, q);
    var marked := Mark(rows, ids, now);
    EligibleMembers(rows, q);
    forall i | 0 <= i < |rows| ensures Eligible(marked[i], r) <==> Eligible(rows[i], r) {
      if rows[i].id in ids {
        var x :| x in rows && x.id == rows[i].id && Eligible(x, q);
        SameRow(rows, x, rows[i]);
      }
    }
    SameEligible(marked, rows, r);
  }

  /** One recipient's turn leaves every other recipient's waiting events as they were. */
  lemma OthersUntouched(s: State, q: string, id: nat, r: string)
    requires Inv(s) && q != r
    ensures EligibleIds(Apply(s, DigestRecipient(q, id)).rows, r) == EligibleIds(s.rows, r)
  {
    var ids := EligibleIds(s.rows, q);
    if ids != [] && |ids| >= s.minBatch && id !in s.used {
      TurnEffect(s, q, id);
      InsertIneligible(Mark(s.rows, ids, s.clock), DigestRow(s, q, ids, id), r);
      MarkOthers(s.rows, q, r, s.clock);
    }
  }

  class Emitter {
    const minBatch: nat
    var clock: Time
    var rows: seq<Row>
    var nextId: nat
    ghost var used: set<nat>
    ghost var bundles: seq<Bundle>

    ghost function View(): State
      reads this
    {
      State(clock, minBatch, rows, used, bundles)
    }

    /** The sequence is ahead of every id it gave out. */
    ghost predicate Valid()
      reads this
    {
      Inv(View()) && forall id | id in used :: id < nextId
    }

    constructor (minBatch: nat)
      ensures Valid() && Initial(View())
    {
      this.minBatch := minBatch;
      this.clock := 0.0;
      this.rows := [];
      this.nextId := 1;
      this.used := {};
      this.bundles := [];
    }

    /** Upsert the digest of one recipient's bundle, then mark its sources. */
    method EmitOne(ghost s: State, recipient: string, ids: seq<nat>)
      requires s == View() && nextId !in used
      requires ids == EligibleIds(s.rows, recipient) && ids != [] && |ids| >= minBatch
      modifies `rows, `nextId, `used, `bundles
      ensures View() == Apply(s, DigestRecipient(recipient, old(nextId))) && nextId == old(nextId) + 1
    {
      var key := DigestKey(recipient, ids[|ids| - 1]);
      if !HasKey(rows, DIGEST, key) {
        rows := InsertRow(rows, Row(nextId, DIGEST, recipient, Missing, Some(key), None, clock));
        used := used + {nextId};
        bundles := bundles + [Bundle(recipient, ids)];
      }
      nextId := nextId + 1;
      rows := Mark(rows, ids, clock);
    }

    /** One digest cycle, in one transaction: `order` is the recipients, `acts` their turns. */
    method EmitDigests() returns (emitted: nat, ghost order: seq<string>, ghost acts: seq<Action>)
      requires Valid()
      modifies `rows, `nextId, `used, `bundles
      ensures Valid() && View() == Play(old(View()), acts) && TurnsOf(order, acts) && |acts| == |order|
      ensures Queued(old(rows), order)
      ensures |bundles| == |old(bundles)| + emitted
      ensures minBatch <= 1 ==> emitted == |order|
    {
      ghost var start := View();
      ghost var s := start;
      var queue, groups := GroupByRecipient(rows);
      order, acts := queue, [];
      FirstTurn(s, queue, groups);
      emitted := 0;
      for i := 0 to |queue|
        invariant s == View() && |acts| == i && Progress(start, s, queue, groups, acts)
        invariant forall id | id in used :: id < nextId
        invariant |s.bundles| == |start.bundles| + emitted
        invariant minBatch <= 1 ==> emitted == i
      {
        var r := queue[i];
        NextTurn(start, s, queue, groups, acts, nextId);
        acts := acts + [DigestRecipient(r, nextId)];
        if |groups[r]| >= minBatch {
          EmitOne(s, r, groups[r]);
          emitted := emitted + 1;
        }
        s := View();
      }
    }
  }

  /** One turn per recipient, in order. */
  predicate TurnsOf(order: seq<string>, acts: seq<Action>) {
    |acts| <= |order| && forall i | 0 <= i < |acts| :: acts[i].DigestRecipient? && acts[i].recipient == order[i]
  }

  /** After the first turns, the queued groups are still what they were. */
  predicate Progress(start: State, s: State, queue: seq<string>, groups: map<string, seq<nat>>, acts: seq<Action>) {
    && TurnsOf(queue, acts) && Inv(s) && s == Play(start, acts) && s.minBatch == start.minBatch
    && forall k | |acts| <= k < |queue| :: queue[k] in groups && groups[queue[k]] == EligibleIds(s.rows, queue[k]) != []
  }

  lemma FirstTurn(s: State, queue: seq<string>, groups: map<string, seq<nat>>)
    requires Inv(s) && Grouped(s.rows, queue, groups)
    ensures Progress(s, s, queue, groups, [])
  {
    forall k | 0 <= k < |queue| ensures queue[k] in groups { assert queue[k] in queue; }
  }

  lemma NextTurn(
    start: State, s: State, queue: seq<string>, groups: map<string, seq<nat>>, acts: seq<Action>, id: nat)
    requires |acts| < |queue| && Progress(start, s, queue, groups, acts) && id !in s.used
    requires forall k, j | 0 <= k < j < |queue| :: queue[k] != queue[j]
    ensures var a := DigestRecipient(queue[|acts|], id); Progress(start, Apply(s, a), queue, groups, acts + [a])
    ensures var t := Apply(s, DigestRecipient(queue[|acts|], id));
      if |groups[queue[|acts|]]| >= s.minBatch then |t.bundles| == |s.bundles| + 1 && t.used == s.used + {id} else t == s
  {
    var r, a := queue[|acts|], DigestRecipient(queue[|acts|], id);
    assert (acts + [a])[..|acts|] == acts;
    DigestKeeps(s, r, id);
    if |groups[r]| >= s.minBatch { TurnEffect(s, r, id); }
    forall k | |acts| < k < |queue| ensures EligibleIds(Apply(s, a).rows, queue[k]) == groups[queue[k]] {
      OthersUntouched(s, r, id, queue[k]);
    }
  }
}
