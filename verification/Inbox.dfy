/** `list_inbox`: the flip of queued messages, and the page that the same call returns. */
module Inbox {
  import opened Common
  import opened MessageProtocol

  datatype Mail = Mail(
    id: string, toAgent: string, fromAgent: string, thread: string,
    state: DeliveryState, sendAt: Option<Time>, createdAt: Time)

  /** The parameters of one call; `gate` and `now` are its two readings of the clock. */
  datatype Query = Query(
    agent: string, states: set<DeliveryState>, since: Option<Time>, thread: Option<string>,
    counterpart: Option<string>, limit: nat, offset: nat, gate: Time, now: Time)

  predicate Due(m: Mail, at: Time) {
    m.sendAt.None? || m.sendAt.value <= at
  }

  predicate From(m: Mail, counterpart: Option<string>) {
    counterpart.None? || m.fromAgent == counterpart.value
  }

  /** The predicates of the UPDATE, which runs only if the filter asks for queued messages. */
  predicate Flips(q: Query, m: Mail) {
    Queued in q.states && m.toAgent == q.agent && m.state == Queued && Due(m, q.now) && From(m, q.counterpart)
  }

  function Flipped(q: Query, m: Mail): Mail {
    if Flips(q, m) then m.(state := Delivered) else m
  }

  /** The base filters of the page. */
  predicate Listed(q: Query, m: Mail) {
    && m.toAgent == q.agent && m.state in q.states && Due(m, q.gate) && From(m, q.counterpart)
    && (q.since.Some? ==> m.createdAt > q.since.value) && (q.thread.Some? ==> m.thread == q.thread.value)
  }

  function AfterFlip(q: Query, table: seq<Mail>): (r: seq<Mail>)
    ensures |r| == |table| && forall i | 0 <= i < |table| :: r[i] == Flipped(q, table[i])
  {
    seq(|table|, i requires 0 <= i < |table| => Flipped(q, table[i]))
  }

  function Matching(q: Query, table: seq<Mail>): seq<Mail> {
    if table == [] then []
    else Matching(q, table[..|table| - 1]) + if Listed(q, table[|table| - 1]) then [table[|table| - 1]] else []
  }

  /** LIMIT and OFFSET. */
  function Slice(s: seq<Mail>, offset: nat, limit: nat): seq<Mail> {
    if |s| <= offset then [] else if |s| <= offset + limit then s[offset..] else s[offset..offset + limit]
  }

  /** The call on a table in the page's order, newest first: the new table and the page. */
  function ListInbox(q: Query, table: seq<Mail>): (seq<Mail>, seq<Mail>) {
    var t := AfterFlip(q, table);
    (t, Slice(Matching(q, t), q.offset, q.limit))
  }

  predicate Distinct(table: seq<Mail>) {
    forall i, j | 0 <= i < j < |table| :: table[i].id != table[j].id
  }

  /** How many listed messages precede position `k`. */
  function Rank(q: Query, table: seq<Mail>, k: nat): nat
    requires k <= |table|
  {
    |Matching(q, table[..k])|
  }

  lemma {:induction false} MatchingAt(q: Query, table: seq<Mail>, k: nat)
    requires k < |table| && Listed(q, table[k])
    ensures Rank(q, table, k) < |Matching(q, table)| && Matching(q, table)[Rank(q, table, k)] == table[k]
  {
    var n := |table| - 1;
    if k < n {
      MatchingAt(q, table[..n], k);
      assert table[..n][..k] == table[..k];
    } else {
      assert table[..k] == table[..n];
    }
  }

  lemma {:induction false} MatchingMembers(q: Query, table: seq<Mail>, m: Mail)
    ensures m in Matching(q, table) <==> m in table && Listed(q, m)
  {
    if table != [] {
      MatchingMembers(q, table[..|table| - 1], m);
      assert table == table[..|table| - 1] + [table[|table| - 1]];
    }
  }

  lemma {:induction false} MatchingDistinct(q: Query, table: seq<Mail>)
    requires Distinct(table)
    ensures Distinct(Matching(q, table))
  {
    if table != [] {
      var n := |table| - 1;
      MatchingDistinct(q, table[..n]);
      var front := Matching(q, table[..n]);
      forall i | 0 <= i < |front| ensures front[i].id != table[n].id {
        MatchingMembers(q, table[..n], front[i]);
        var k :| 0 <= k < n && table[k] == front[i];
      }
    }
  }

  /** LIMIT and OFFSET return the element at `r` exactly if `r` is in their window. */
  lemma InSliceIff(all: seq<Mail>, r: nat, offset: nat, limit: nat)
    requires Distinct(all) && r < |all|
    ensures all[r] in Slice(all, offset, limit) <==> offset <= r < offset + limit
  {
    var page := Slice(all, offset, limit);
    if offset <= r < offset + limit {
      assert page[r - offset] == all[r];
    }
    if all[r] in page {
      var i :| 0 <= i < |page| && page[i] == all[r];
      assert all[offset + i] == all[r];
    }
  }

  /** A listed message is on the page exactly if its rank is in the window. */
  lemma OnPageIff(q: Query, table: seq<Mail>, k: nat)
    requires Distinct(table) && k < |table|
    ensures table[k] in Slice(Matching(q, table), q.offset, q.limit) <==>
              Listed(q, table[k]) && q.offset <= Rank(q, table, k) < q.offset + q.limit
  {
    var all := Matching(q, table);
    if Listed(q, table[k]) {
      MatchingAt(q, table, k);
      MatchingDistinct(q, table);
      InSliceIff(all, Rank(q, table, k), q.offset, q.limit);
    } else {
      MatchingMembers(q, table, table[k]);
      forall m | m in Slice(all, q.offset, q.limit) ensures m in all {}
    }
  }

  /** A poll flips more than it returns: a message it flips is missing from its page if and
      only if the filter leaves out `delivered`, or `since` or the thread filter drops it, or
      it came due between the call's two readings of the clock, or as many listed messages
      are ahead of it as offset and limit leave no room for. */
  lemma FlippedMissingIff(q: Query, table: seq<Mail>, k: nat)
    requires Distinct(table) && k < |table| && Flips(q, table[k])
    ensures var (t, page) := ListInbox(q, table);
      && t[k] == table[k].(state := Delivered)
      && (t[k] !in page <==>
            || Delivered !in q.states
            || (q.since.Some? && table[k].createdAt <= q.since.value)
            || (q.thread.Some? && table[k].thread != q.thread.value)
            || !Due(table[k], q.gate)
            || Rank(q, t, k) < q.offset
            || Rank(q, t, k) >= q.offset + q.limit)
  {
    OnPageIff(q, AfterFlip(q, table), k);
  }

  /** A poll that asks only for queued messages flips them and returns none of them. */
  lemma QueuedFilterReturnsNothingFlipped(q: Query, table: seq<Mail>, k: nat)
    requires Distinct(table) && k < |table| && Flips(q, table[k]) && q.states == {Queued}
    ensures ListInbox(q, table).0[k] !in ListInbox(q, table).1
  {
    FlippedMissingIff(q, table, k);
  }
}
