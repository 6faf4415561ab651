/** The message tables and the code that updates them, for any number of messages.
    Each method is proved to move every message exactly as one step of its own
    protocol machine, or not at all. */
module MessageStore {
  import opened Common
  import opened RetryAfter
  import opened MessageProtocol

  type Id = string

  /** A message row: its addressing and its lifecycle columns. */
  datatype Record = Record(toAgent: string, fromAgent: string, msg: Message)

  datatype Entry = Entry(id: Id, row: Row)

  function RowsOf(outbox: seq<Entry>, id: Id): seq<Row> {
    if outbox == [] then []
    else
      var last := outbox[|outbox| - 1];
      RowsOf(outbox[..|outbox| - 1], id) + if last.id == id then [last.row] else []
  }

  lemma RowsOfLast(outbox: seq<Entry>, id: Id, last: Entry)
    ensures RowsOf(outbox + [last], id) == RowsOf(outbox, id) + if last.id == id then [last.row] else []
  {
    assert (outbox + [last])[..|outbox|] == outbox;
  }

  lemma AddressedLast(to: Id, front: seq<Row>, last: Row)
    ensures Addressed(to, front + [last]) == Addressed(to, front) + [Entry(to, last)]
  {
  }

  lemma {:induction false} RowsOfAddressee(outbox: seq<Entry>, to: Id, rows: seq<Row>)
    ensures RowsOf(outbox + Addressed(to, rows), to) == RowsOf(outbox, to) + rows
  {
    if rows == [] {
      assert outbox + Addressed(to, rows) == outbox;
    } else {
      var front, last := rows[..|rows| - 1], rows[|rows| - 1];
      RowsOfAddressee(outbox, to, front);
      AddressedLast(to, front, last);
      RowsOfLast(outbox + Addressed(to, front), to, Entry(to, last));
      assert rows == front + [last];
      assert outbox + Addressed(to, rows) == outbox + Addressed(to, front) + [Entry(to, last)];
    }
  }

  lemma {:induction false} RowsOfOther(outbox: seq<Entry>, id: Id, to: Id, rows: seq<Row>)
    requires id != to
    ensures RowsOf(outbox + Addressed(to, rows), id) == RowsOf(outbox, id)
  {
    if rows == [] {
      assert outbox + Addressed(to, rows) == outbox;
    } else {
      var front, last := rows[..|rows| - 1], rows[|rows| - 1];
      RowsOfOther(outbox, id, to, front);
      AddressedLast(to, front, last);
      RowsOfLast(outbox + Addressed(to, front), id, Entry(to, last));
      assert rows == front + [last];
      assert outbox + Addressed(to, rows) == outbox + Addressed(to, front) + [Entry(to, last)];
    }
  }

  lemma RowsOfAppend(outbox: seq<Entry>, id: Id, to: Id, rows: seq<Row>)
    ensures RowsOf(outbox + Addressed(to, rows), id) == RowsOf(outbox, id) + if id == to then rows else []
  {
    if id == to { RowsOfAddressee(outbox, to, rows); } else { RowsOfOther(outbox, id, to, rows); }
  }

  function Addressed(to: Id, rows: seq<Row>): seq<Entry> {
    seq(|rows|, i requires 0 <= i < |rows| => Entry(to, rows[i]))
  }

  /** World `w` is what the tables say about message `id` at time `now`. */
  predicate Agrees(w: World, messages: map<Id, Record>, outbox: seq<Entry>, id: Id, now: Time) {
    && w.clock == now
    && w.rows == RowsOf(outbox, id)
    && (if id in messages then w.msg == messages[id].msg && !w.msg.gone else w.msg.gone)
  }

  datatype Result = Done | NotFound | InvalidTransition

  function WithState(r: Record, state: DeliveryState, startedAt: Option<Time>): Record {
    r.(msg := r.msg.(state := state, startedAt := startedAt))
  }

  /** The server's own wait after attempt 1, 2, and 3 or more, in seconds. */
  function OwnWait(attempt: nat): int {
    if attempt <= 1 then 60 else if attempt == 2 then 300 else 900
  }

  /** What is promised of a message whose attempt came back. */
  function OutcomeState(attempt: nat, verdict: Verdict): DeliveryState {
    match verdict
    case Ok => Delivered
    case Retryable(_) => if attempt < 4 then RetryReady else Failed
    case Terminal => Failed
  }

  class Mailbox {
    var messages: map<Id, Record>
    var outbox: seq<Entry>

    ghost predicate Valid()
      reads this
    {
      forall id | id in messages :: !messages[id].msg.gone
    }

    constructor ()
      ensures Valid() && messages == map[] && outbox == []
    {
      messages := map[];
      outbox := [];
    }

    /** `_claim_message`: the conditional UPDATE behind a job at position `k` of the message's queue. */
    method ClaimMessage(id: Id, task: Task, now: Time) returns (claimed: bool)
      requires Valid()
      modifies `messages
      ensures Valid()
      ensures claimed <==> id in old(messages) && old(messages)[id].msg.state == ExpectedState(task)
      ensures forall w: World, k: nat, redelivered ::
                Agrees(w, old(messages), outbox, id, now) && w.reachable && k < |w.queue| && w.queue[k].task == task ==>
                Agrees(Apply(w, Claim(k, redelivered)), messages, outbox, id, now)
      ensures messages == if claimed then old(messages)[id := WithState(old(messages)[id], Delivering, Some(now))]
                          else old(messages)
    {
      claimed := id in messages && messages[id].msg.state == ExpectedState(task);
      if claimed {
        var r := messages[id];
        messages := messages[id := r.(msg := r.msg.(state := Delivering, startedAt := Some(now)))];
      }
    }

    /** `_route_attempt_outcome`: the outcome write and its retry row in one transaction. */
    method RouteAttemptOutcome(id: Id, attempt: nat, verdict: Verdict, now: Time)
      requires Valid()
      modifies this
      ensures Valid()
      ensures forall w: World, i: nat ::
                Agrees(w, old(messages), old(outbox), id, now) && i < |w.pushes| && Live(w, i) && w.pushes[i].attempt == attempt ==>
                Agrees(Apply(w, Finish(i, verdict)), messages, outbox, id, now)
      ensures forall w: World, other | other != id && Agrees(w, old(messages), old(outbox), other, now) ::
                Agrees(w, messages, outbox, other, now)
      ensures messages == if id in old(messages)
                          then old(messages)[id := WithState(old(messages)[id], OutcomeState(attempt, verdict), None)]
                          else old(messages)
      ensures outbox == old(outbox) +
                if verdict.Retryable? && attempt < 4
                then [Entry(id, Row(RetryMessage, attempt + 1,
                                    Some(now + ParseRetryAfter(verdict.retryAfter, OwnWait(attempt)) as real), false, now))]
                else []
    {
      forall other { RowsOfAppend(outbox, other, id, RoutedRows(attempt, verdict, now)); }
      if id in messages {
        var r := messages[id];
        messages := messages[id := r.(msg := r.msg.(state := RoutedState(attempt, verdict), startedAt := None))];
      }
      outbox := outbox + Addressed(id, RoutedRows(attempt, verdict, now));
    }

    /** The UPDATE of `list_inbox`: every due queued message of the agent, from the counterpart if one is named. */
    method FlipInbox(agent: string, counterpart: Option<string>, now: Time)
      requires Valid()
      modifies `messages
      ensures Valid() && messages.Keys == old(messages).Keys
      ensures forall w: World, id | Agrees(w, old(messages), outbox, id, now) ::
                if id in messages && messages[id].toAgent == agent
                   && (counterpart.None? || messages[id].fromAgent == counterpart.value)
                then Agrees(Apply(w, Poll), messages, outbox, id, now)
                else Agrees(w, messages, outbox, id, now)
      ensures forall id | id in messages :: var r := old(messages)[id];
                messages[id] == if r.toAgent == agent && (counterpart.None? || r.fromAgent == counterpart.value)
                                   && r.msg.state == Queued && (r.msg.sendAt.None? || r.msg.sendAt.value <= now)
                                then r.(msg := r.msg.(state := Delivered)) else r
    {
      messages := map id | id in messages ::
        var r := messages[id];
        if r.toAgent == agent && (counterpart.None? || r.fromAgent == counterpart.value) && PollFlips(r.msg, now)
        then r.(msg := r.msg.(state := Delivered)) else r;
    }

    /** The load of `mark_read` (`ack` false) or `mark_acked`, and what it decides: `writes` if a store follows. */
    method LoadMark(id: Id, ack: bool) returns (result: Result, writes: bool)
      requires Valid()
      ensures result.NotFound? <==> id !in messages
      ensures result.InvalidTransition? <==>
                id in messages && IsTerminal(messages[id].msg.state) && !(ack && messages[id].msg.state == Acked)
      ensures writes <==> id in messages && WillMark(messages[id].msg, ack)
      ensures writes ==> result.Done?
    {
      if id !in messages {
        return NotFound, false;
      }
      var state := messages[id].msg.state;
      if ack && state == Acked {
        return Done, false;
      }
      if IsTerminal(state) {
        return InvalidTransition, false;
      }
      return Done, ack || state != Read;
    }

    /** The store: an UPDATE by id, whatever the row has become since the load. */
    method StoreMark(id: Id, ack: bool, now: Time)
      requires Valid()
      modifies `messages
      ensures Valid()
      ensures forall w: World, req: nat ::
                Agrees(w, old(messages), outbox, id, now) && req in w.marks && w.marks[req] == ack ==>
                Agrees(Apply(w, MessageProtocol.StoreMark(req)), messages, outbox, id, now)
      ensures messages.Keys == old(messages).Keys
      ensures forall other | other in messages && other != id :: messages[other] == old(messages)[other]
      ensures id in messages ==>
                messages[id] == old(messages)[id].(msg :=
                  if ack then old(messages)[id].msg.(state := Acked, ackedAt := Some(now))
                  else old(messages)[id].msg.(state := Read))
    {
      if id in messages {
        var r := messages[id];
        messages := messages[id := r.(msg := Marked(r.msg, ack, now))];
      }
    }

    /** `mark_read` or `mark_acked` with nothing in between: refused exactly on a terminal
        row, except that acking an acked one succeeds; and `Done` means marked. */
    method Mark(id: Id, ack: bool, now: Time) returns (result: Result)
      requires Valid()
      modifies `messages
      ensures Valid() && messages.Keys == old(messages).Keys
      ensures forall w: World, req: nat ::
                Agrees(w, old(messages), outbox, id, now) && req !in w.marks ==>
                Agrees(Apply(Apply(w, MessageProtocol.LoadMark(req, ack)), MessageProtocol.StoreMark(req)),
                       messages, outbox, id, now)
      ensures forall other | other in messages && other != id :: messages[other] == old(messages)[other]
      ensures result.InvalidTransition? <==>
                id in old(messages) && IsTerminal(old(messages)[id].msg.state) && !(ack && old(messages)[id].msg.state == Acked)
      ensures !result.Done? ==> messages == old(messages)
      ensures result.Done? ==> id in messages && messages[id].msg.state == if ack then Acked else Read
    {
      var writes;
      result, writes := LoadMark(id, ack);
      if writes {
        StoreMark(id, ack, now);
      }
    }

    /** The attempts that stale recovery charges: dispatched outbox rows naming the message. */
    method CountDispatched(id: Id) returns (n: nat)
      ensures n == DispatchedCount(RowsOf(outbox, id))
    {
      n := 0;
      for i := 0 to |outbox|
        invariant n == DispatchedCount(RowsOf(outbox[..i], id))
      {
        assert outbox[..i + 1][..i] == outbox[..i];
        if outbox[i].id == id {
          var rows := RowsOf(outbox[..i], id);
          assert (rows + [outbox[i].row])[..|rows|] == rows;
          if outbox[i].row.dispatched {
            n := n + 1;
          }
        } else {
          assert RowsOf(outbox[..i + 1], id) == RowsOf(outbox[..i], id);
        }
      }
      assert outbox[..|outbox|] == outbox;
    }

    /** The body of the stale-recovery loop, for one message. */
    method RecoverStaleDelivery(id: Id, now: Time)
      requires Valid() && id in messages && IsStale(messages[id].msg, now)
      modifies this
      ensures Valid() && messages.Keys == old(messages).Keys
      ensures forall other | other in messages && other != id :: messages[other] == old(messages)[other]
      ensures forall w: World | Agrees(w, old(messages), old(outbox), id, now) ::
                Agrees(Apply(w, RecoverStale), messages, outbox, id, now)
      ensures forall w: World, other | other != id && Agrees(w, old(messages), old(outbox), other, now) ::
                Agrees(w, messages, outbox, other, now)
      ensures var charged := DispatchedCount(RowsOf(old(outbox), id));
        && messages[id] == WithState(old(messages)[id], if charged < 4 then RetryReady else Failed, None)
        && outbox == old(outbox) +
             if charged < 4 then [Entry(id, Row(RetryMessage, charged + 1, Some(now), false, now))] else []
    {
      var prior := CountDispatched(id);
      forall other { RowsOfAppend(outbox, other, id, RecoveredRows(prior, now)); }
      outbox := outbox + Addressed(id, RecoveredRows(prior, now));
      var r := messages[id];
      messages := messages[id := r.(msg := r.msg.(state := RecoveredState(prior), startedAt := None))];
    }

    /** `recover_stale_message_deliveries`: `batch` is the answer of its SELECT. */
    method RecoverStaleDeliveries(batch: seq<Id>, now: Time) returns (count: nat)
      requires Valid()
      requires forall i, j | 0 <= i < j < |batch| :: batch[i] != batch[j]
      requires forall i | 0 <= i < |batch| :: batch[i] in messages && IsStale(messages[batch[i]].msg, now)
      modifies this
      ensures Valid() && count == |batch|
      ensures forall w: World, id | Agrees(w, old(messages), old(outbox), id, now) ::
                Agrees(if id in batch then Apply(w, RecoverStale) else w, messages, outbox, id, now)
    {
      count := 0;
      while count < |batch|
        invariant Valid() && count <= |batch| && messages.Keys == old(messages).Keys
        invariant forall i | count <= i < |batch| :: messages[batch[i]] == old(messages)[batch[i]]
        invariant forall w: World, id | Agrees(w, old(messages), old(outbox), id, now) ::
                    Agrees(if id in batch[..count] then Apply(w, RecoverStale) else w, messages, outbox, id, now)
      {
        assert batch[..count + 1] == batch[..count] + [batch[count]];
        RecoverStaleDelivery(batch[count], now);
        count := count + 1;
      }
      assert batch[..count] == batch;
    }

    /** `expire_old_messages`, for real rather than as a dry run. */
    method ExpireOldMessages(now: Time)
      requires Valid()
      modifies `messages
      ensures Valid()
      ensures forall w: World, id | Agrees(w, old(messages), outbox, id, now) ::
                Agrees(Apply(w, Expire), messages, outbox, id, now)
      ensures messages.Keys == old(messages).Keys
      ensures forall id | id in messages :: var r := old(messages)[id];
                messages[id] == if r.msg.expiresAt < now && r.msg.state != Acked && r.msg.state != Expired
                                then r.(msg := r.msg.(state := Expired)) else r
    {
      messages := map id | id in messages ::
        var r := messages[id];
        if CanExpire(r.msg, now) then r.(msg := r.msg.(state := Expired)) else r;
    }

    /** `cleanup_expired_messages`: delete in batches until none is eligible. */
    method CleanupExpiredMessages(batchSize: nat, now: Time) returns (total: nat)
      requires Valid() && batchSize > 0
      modifies `messages
      ensures Valid()
      ensures messages == Survivors(old(messages), now)
      ensures forall id | id in old(messages) :: var m := old(messages)[id].msg;
                id !in messages <==>
                  || (m.state == Acked && m.ackedAt.Some? && m.ackedAt.value < now - 604800.0)
                  || (m.state == Expired && m.expiresAt < now - 604800.0)
      ensures total == |old(messages)| - |messages|
      ensures forall w: World, id | Agrees(w, old(messages), outbox, id, now) ::
                Agrees(Apply(w, Delete), messages, outbox, id, now)
    {
      total := 0;
      ghost var start := messages;
      SurvivorsAgree(start, outbox, now);
      var batch := TakeUpTo(Deletable(messages, now), batchSize);
      while batch != {}
        invariant batch <= Deletable(messages, now)
        invariant batch == {} ==> Deletable(messages, now) == {}
        invariant Survivors(messages, now) == Survivors(start, now)
        invariant total == |start| - |messages|
        decreases |messages|
      {
        RemoveBatch(messages, batch, now);
        messages := messages - batch;
        total := total + |batch|;
        batch := TakeUpTo(Deletable(messages, now), batchSize);
      }
      NoneDeletable(messages, now);
    }
  }

  function Deletable(messages: map<Id, Record>, now: Time): set<Id> {
    set id | id in messages && CanDelete(messages[id].msg, now)
  }

  function Survivors(messages: map<Id, Record>, now: Time): map<Id, Record> {
    map id | id in messages && !CanDelete(messages[id].msg, now) :: messages[id]
  }

  lemma RemoveBatch(messages: map<Id, Record>, batch: set<Id>, now: Time)
    requires batch <= Deletable(messages, now)
    ensures |messages - batch| == |messages| - |batch|
    ensures Survivors(messages - batch, now) == Survivors(messages, now)
  {
    assert (messages - batch).Keys == messages.Keys - batch;
    assert messages.Keys == (messages.Keys - batch) + batch;
  }

  lemma NoneDeletable(messages: map<Id, Record>, now: Time)
    requires Deletable(messages, now) == {}
    ensures Survivors(messages, now) == messages
  {
    assert forall id | id in messages :: id !in Deletable(messages, now);
  }

  /** Deleting every deletable row is one `Delete` step of each message's machine. */
  lemma SurvivorsAgree(messages: map<Id, Record>, outbox: seq<Entry>, now: Time)
    requires forall id | id in messages :: !messages[id].msg.gone
    ensures forall w: World, id | Agrees(w, messages, outbox, id, now) ::
              Agrees(Apply(w, Delete), Survivors(messages, now), outbox, id, now)
  {
  }

  /** SELECT ... LIMIT: some rows, at most `limit`, at least one if there is any. */
  method TakeUpTo(ids: set<Id>, limit: nat) returns (batch: set<Id>)
    requires limit > 0
    ensures batch <= ids && |batch| <= limit && (ids != {} ==> batch != {})
  {
    batch := {};
    var rest := ids;
    while rest != {} && |batch| < limit
      invariant batch <= ids && rest == ids - batch && |batch| <= limit
      decreases |rest|
    {
      var id :| id in rest;
      batch := batch + {id};
      rest := rest - {id};
    }
  }
}
