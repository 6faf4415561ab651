/** Cursor paging over the event log, and the ack watermark that a pull advances. */
module Paging {
  import opened Common
  import opened EventLog

  const MAX_PULL_LIMIT: int := 1000

  predicate Matches(recipient: string, kind: Option<string>, e: Event) {
    e.recipient == recipient && (kind.None? || e.kind == kind.value)
  }

  function After(recipient: string, kind: Option<string>, since: nat): Event -> bool {
    (e: Event) => Matches(recipient, kind, e) && e.id > since
  }

  function EffectiveLimit(limit: int): nat {
    Min(Max(limit, 1), MAX_PULL_LIMIT)
  }

  datatype Page = Page(events: seq<Event>, nextCursor: Option<nat>, hasMore: bool)

  /** `pull_events` */
  function PullEvents(log: seq<Event>, recipient: string, since: nat, limit: int, kind: Option<string>): Page {
    var events := Take(Select(log, After(recipient, kind, since)), EffectiveLimit(limit));
    Page(events, if events == [] then None else Some(events[|events| - 1].id), |events| == EffectiveLimit(limit))
  }

  /** A page is a prefix, by id, of what matches. */
  lemma PageMembers(log: seq<Event>, recipient: string, since: nat, limit: int, kind: Option<string>)
    requires Sorted(log)
    ensures var page := PullEvents(log, recipient, since, limit, kind);
      && Sorted(page.events)
      && (forall e | e in page.events :: e in log && Matches(recipient, kind, e) && since < e.id)
      && (forall e, f | e in log && Matches(recipient, kind, e) && since < e.id && f in page.events && e.id <= f.id ::
            e in page.events)
      && (!page.hasMore ==> forall e | e in log && Matches(recipient, kind, e) && since < e.id :: e in page.events)
  {
    var p := After(recipient, kind, since);
    var all := Select(log, p);
    SelectMembers(log, p);
    SelectSorted(log, p);
    forall e, f | e in all && f in Take(all, EffectiveLimit(limit)) && e.id <= f.id
      ensures e in Take(all, EffectiveLimit(limit))
    {
      TakenPrefix(all, EffectiveLimit(limit), e, f);
    }
    forall e | e in Take(all, EffectiveLimit(limit)) ensures e in all {}
  }

  lemma LastIsGreatest(events: seq<Event>, e: Event)
    requires Sorted(events) && e in events
    ensures e.id <= events[|events| - 1].id
  {
    var k :| 0 <= k < |events| && events[k] == e;
  }

  /** A page holds the first matching events after the cursor; a page that does not ask
      for more has reached the end. */
  lemma PageFacts(log: seq<Event>, recipient: string, since: nat, limit: int, kind: Option<string>)
    requires Sorted(log)
    ensures var page := PullEvents(log, recipient, since, limit, kind);
      && Sorted(page.events)
      && (forall e | e in page.events :: e in log && Matches(recipient, kind, e) && since < e.id)
      && (page.events == [] ==> !page.hasMore)
      && (page.events != [] ==>
            && page.nextCursor == Some(page.events[|page.events| - 1].id)
            && (forall e | e in page.events :: e.id <= page.nextCursor.value)
            && (forall e | e in log && Matches(recipient, kind, e) && since < e.id <= page.nextCursor.value :: e in page.events))
      && (!page.hasMore ==> forall e | e in log && Matches(recipient, kind, e) && since < e.id :: e in page.events)
  {
    PageMembers(log, recipient, since, limit, kind);
    var events := PullEvents(log, recipient, since, limit, kind).events;
    forall e | e in events ensures e.id <= events[|events| - 1].id { LastIsGreatest(events, e); }
    if events != [] { assert events[|events| - 1] in events; }
  }

  // ----- one consumer following its cursor -----

  datatype PullSub = PullSub(kind: string, detached: bool, lastAcked: Option<nat>)

  /** `history` is every event ever emitted, `removed` the ids the cleanup deleted;
      `got` is what the consumer has been handed, `missed` what was deleted before it read
      that far, `late` what became visible only after it had read past its id; `ackedTo` is
      the cursor that the last ack wrote, and `ackedSubs` the subscriptions it was for. */
  datatype State = State(
    recipient: string,
    kind: Option<string>,
    history: seq<Event>,
    removed: set<nat>,
    subs: seq<PullSub>,
    cursor: nat,
    got: seq<Event>,
    missed: set<nat>,
    late: set<nat>,
    ackedTo: Option<nat>,
    ackedSubs: set<nat>)

  datatype Action =
    | Emit(event: Event)
    | Cleanup(cutoff: Time)
    | Subscribe(kind: string)
    | Detach(sub: nat)
    | Pull(limit: int, acks: bool)

  function NotIn(ids: set<nat>): Event -> bool {
    (e: Event) => e.id !in ids
  }

  function LogOf(s: State): seq<Event> {
    Select(s.history, NotIn(s.removed))
  }

  function Old(cutoff: Time): Event -> bool {
    (e: Event) => e.emittedAt < cutoff
  }

  function NextPage(s: State, limit: int): Page {
    PullEvents(LogOf(s), s.recipient, s.cursor, limit, s.kind)
  }

  /** `advance_ack_watermark`: pull subscriptions of the pulled type, forward only. */
  function Advanced(sub: PullSub, kind: Option<string>, id: nat): PullSub {
    if !sub.detached && (kind.None? || sub.kind == kind.value)
       && (sub.lastAcked.None? || sub.lastAcked.value < id)
    then sub.(lastAcked := Some(id)) else sub
  }

  function AdvanceAck(subs: seq<PullSub>, kind: Option<string>, id: nat): (r: seq<PullSub>)
    ensures |r| == |subs| && forall i | 0 <= i < |subs| :: r[i] == Advanced(subs[i], kind, id)
  {
    seq(|subs|, i requires 0 <= i < |subs| => Advanced(subs[i], kind, id))
  }

  /** The subscriptions that an ack is for. */
  function Acking(subs: seq<PullSub>, kind: Option<string>): set<nat> {
    set i: nat | i < |subs| && !subs[i].detached && (kind.None? || subs[i].kind == kind.value)
  }

  /** The endpoint: a page, the cursor it hands back, and the ack that its progress implies,
      unless writing the ack fails, which the endpoint swallows. */
  function ApplyPull(s: State, limit: int, acks: bool): State {
    var page := NextPage(s, limit);
    if page.nextCursor.None? then s
    else
      var t := s.(got := s.got + page.events, cursor := page.nextCursor.value);
      if acks then t.(subs := AdvanceAck(s.subs, s.kind, page.nextCursor.value),
                      ackedTo := page.nextCursor, ackedSubs := Acking(s.subs, s.kind))
      else t
  }

  function UnreadOld(s: State, cutoff: Time): set<nat> {
    set i | 0 <= i < |s.history| && s.history[i].id > s.cursor && s.history[i].emittedAt < cutoff :: s.history[i].id
  }

  /** An insert commits: ids come from a sequence, so a lower one may become visible later. */
  function ApplyEmit(s: State, e: Event): State {
    if e.id >= 1 && e.id !in Ids(s.history) then
      s.(history := Insert(s.history, e), late := if e.id <= s.cursor then s.late + {e.id} else s.late)
    else s
  }

  function Apply(s: State, a: Action): State {
    match a
    case Emit(e) => ApplyEmit(s, e)
    case Cleanup(cutoff) =>
      s.(removed := s.removed + Ids(Select(s.history, Old(cutoff))), missed := s.missed + UnreadOld(s, cutoff))
    case Subscribe(kind) => s.(subs := s.subs + [PullSub(kind, false, None)])
    case Detach(i) => if i < |s.subs| then s.(subs := s.subs[i := s.subs[i].(detached := true)]) else s
    case Pull(limit, acks) => ApplyPull(s, limit, acks)
  }

  function Play(s: State, acts: seq<Action>): State {
    if acts == [] then s else Apply(Play(s, acts[..|acts| - 1]), acts[|acts| - 1])
  }

  predicate Initial(s: State) {
    s.history == [] && s.removed == {} && s.subs == [] && s.cursor == 0 && s.got == [] && s.missed == {} && s.late == {}
    && s.ackedTo == None && s.ackedSubs == {}
  }

  function Handed(recipient: string, kind: Option<string>, cursor: nat, skipped: set<nat>): Event -> bool {
    (e: Event) => Matches(recipient, kind, e) && e.id <= cursor && e.id !in skipped
  }

  /** The conjuncts of the invariant that speak of ids. */
  predicate IdsOk(s: State) {
    && (forall e | e in s.history :: e.id >= 1)
    && s.missed <= s.removed <= Ids(s.history)
    && s.late <= Ids(s.history) && (forall id | id in s.late :: id <= s.cursor)
    && (forall e | e in s.history && e.id in s.removed && e.id > s.cursor :: e.id in s.missed)
    && (s.cursor == 0 || s.cursor in Ids(s.history))
  }

  predicate Inv(s: State) {
    && Sorted(s.history)
    && IdsOk(s)
    && s.got == Select(s.history, Handed(s.recipient, s.kind, s.cursor, s.missed + s.late))
    && (forall i | 0 <= i < |s.subs| && s.subs[i].lastAcked.Some? ::
          s.subs[i].lastAcked.value <= s.cursor && (s.kind.None? || s.kind.value == s.subs[i].kind))
    && (forall i | i in s.ackedSubs :: i < |s.subs| && s.ackedTo.Some? && s.subs[i].lastAcked == s.ackedTo)
  }

  lemma {:induction false} SelectInsert(s: seq<Event>, e: Event, p: Event -> bool)
    requires !p(e)
    ensures Select(Insert(s, e), p) == Select(s, p)
  {
    if s == [] || s[|s| - 1].id < e.id {
      assert (s + [e])[..|s|] == s;
    } else {
      var n := |s| - 1;
      SelectInsert(s[..n], e, p);
      var front := Insert(s[..n], e);
      assert (front + [s[n]])[..|front|] == front;
    }
  }

  lemma IdsInsert(s: seq<Event>, e: Event)
    ensures Ids(Insert(s, e)) == Ids(s) + {e.id}
  {
    InsertMembers(s, e);
    forall id | id in Ids(s) + {e.id} ensures id in Ids(Insert(s, e)) {
      if id in Ids(s) {
        var k :| 0 <= k < |s| && s[k].id == id;
        assert s[k] in s && s[k] in Insert(s, e);
        IdOf(Insert(s, e), s[k]);
      } else {
        assert e in Insert(s, e);
        IdOf(Insert(s, e), e);
      }
    }
    forall id | id in Ids(Insert(s, e)) ensures id in Ids(s) + {e.id} {
      var k :| 0 <= k < |Insert(s, e)| && Insert(s, e)[k].id == id;
      assert Insert(s, e)[k] in Insert(s, e);
    }
  }

  /** A new row changes nothing of what was handed over: it is ahead of the cursor, or late. */
  lemma EmitHandsNothing(s: State, e: Event)
    requires Inv(s) && e.id !in Ids(s.history)
    ensures var late := if e.id <= s.cursor then s.late + {e.id} else s.late;
      Select(Insert(s.history, e), Handed(s.recipient, s.kind, s.cursor, s.missed + late)) == s.got
  {
    var late := if e.id <= s.cursor then s.late + {e.id} else s.late;
    var p, q := Handed(s.recipient, s.kind, s.cursor, s.missed + s.late),
                Handed(s.recipient, s.kind, s.cursor, s.missed + late);
    SelectInsert(s.history, e, q);
    forall x | x in s.history ensures p(x) == q(x) { IdOf(s.history, x); }
    SelectCongruent(s.history, p, q);
  }

  lemma EmitKeepsIds(s: State, e: Event)
    requires IdsOk(s) && e.id >= 1 && e.id !in Ids(s.history)
    ensures IdsOk(Apply(s, Emit(e)))
  {
    InsertMembers(s.history, e);
    IdsInsert(s.history, e);
  }

  lemma EmitKeeps(s: State, e: Event)
    requires Inv(s)
    ensures Inv(Apply(s, Emit(e)))
  {
    if e.id >= 1 && e.id !in Ids(s.history) {
      forall x | x in s.history ensures x.id != e.id { IdOf(s.history, x); }
      EmitHandsNothing(s, e);
      InsertSorted(s.history, e);
      EmitKeepsIds(s, e);
    }
  }

  /** The cleanup's deletions, split by the cursor. */
  lemma OldIds(s: State, cutoff: Time)
    ensures var gone := Ids(Select(s.history, Old(cutoff)));
      && gone <= Ids(s.history)
      && forall id :: id in UnreadOld(s, cutoff) <==> id in gone && id > s.cursor
  {
    var gone := Select(s.history, Old(cutoff));
    SelectMembers(s.history, Old(cutoff));
    forall id | id in UnreadOld(s, cutoff) ensures id in Ids(gone) && id > s.cursor {
      var i :| 0 <= i < |s.history| && s.history[i].id == id && id > s.cursor && s.history[i].emittedAt < cutoff;
      assert s.history[i] in gone;
      IdOf(gone, s.history[i]);
    }
    forall id | id in Ids(gone) ensures id in Ids(s.history) && (id > s.cursor ==> id in UnreadOld(s, cutoff)) {
      var k :| 0 <= k < |gone| && gone[k].id == id;
      assert gone[k] in gone;
      var i :| 0 <= i < |s.history| && s.history[i] == gone[k];
    }
  }

  lemma CleanupKeeps(s: State, cutoff: Time)
    requires Inv(s)
    ensures Inv(Apply(s, Cleanup(cutoff)))
  {
    var t := Apply(s, Cleanup(cutoff));
    OldIds(s, cutoff);
    SelectCongruent(s.history, Handed(s.recipient, s.kind, s.cursor, s.missed + s.late),
                    Handed(s.recipient, s.kind, s.cursor, t.missed + t.late));
  }

  /** What a page adds is what lies between the cursors and was not deleted. */
  lemma GotGrows(s: State, limit: int)
    requires Inv(s) && NextPage(s, limit).events != []
    ensures var page := NextPage(s, limit);
      s.got + page.events == Select(s.history, Handed(s.recipient, s.kind, page.nextCursor.value, s.missed + s.late))
    ensures s.cursor < NextPage(s, limit).nextCursor.value && NextPage(s, limit).nextCursor.value in Ids(s.history)
  {
    var page := NextPage(s, limit);
    var cursor := page.nextCursor.value;
    SelectMembers(s.history, NotIn(s.removed));
    SelectSorted(s.history, NotIn(s.removed));
    PageFacts(LogOf(s), s.recipient, s.cursor, limit, s.kind);
    var before := Handed(s.recipient, s.kind, s.cursor, s.missed + s.late);
    var after := Handed(s.recipient, s.kind, cursor, s.missed + s.late);
    SelectMembers(s.history, before);
    SelectMembers(s.history, after);
    SelectSorted(s.history, before);
    SelectSorted(s.history, after);
    var last := page.events[|page.events| - 1];
    assert last in page.events && last in s.history;
    IdOf(s.history, last);
    Concatenated(s.got, page.events, s.cursor);
    forall e ensures e in s.got + page.events <==> e in Select(s.history, after) {
      if e in Select(s.history, after) && e.id > s.cursor {
        assert e.id !in s.removed;
        assert e in LogOf(s);
      }
    }
    SortedUnique(s.got + page.events, Select(s.history, after));
  }

  lemma Concatenated(low: seq<Event>, high: seq<Event>, mid: nat)
    requires Sorted(low) && Sorted(high)
    requires (forall e | e in low :: e.id <= mid) && (forall e | e in high :: mid < e.id)
    ensures Sorted(low + high)
  {
    forall i | 0 <= i < |low| ensures low[i].id <= mid { assert low[i] in low; }
    forall i | 0 <= i < |high| ensures mid < high[i].id { assert high[i] in high; }
  }

  /** The subscriptions after an ack of `cursor`: none is beyond it, and those it was for are at it. */
  lemma AckKeepsSubs(subs: seq<PullSub>, kind: Option<string>, before: nat, cursor: nat)
    requires before < cursor
    requires forall i | 0 <= i < |subs| && subs[i].lastAcked.Some? ::
               subs[i].lastAcked.value <= before && (kind.None? || kind.value == subs[i].kind)
    ensures var t := AdvanceAck(subs, kind, cursor);
      && (forall i | 0 <= i < |t| && t[i].lastAcked.Some? ::
            t[i].lastAcked.value <= cursor && (kind.None? || kind.value == t[i].kind))
      && (forall i | i in Acking(subs, kind) :: i < |t| && t[i].lastAcked == Some(cursor))
  {
  }

  lemma PullKeepsIds(s: State, limit: int, acks: bool)
    requires Inv(s) && NextPage(s, limit).events != []
    ensures IdsOk(Apply(s, Pull(limit, acks)))
  {
    GotGrows(s, limit);
  }

  lemma PullKeeps(s: State, limit: int, acks: bool)
    requires Inv(s)
    ensures Inv(Apply(s, Pull(limit, acks)))
  {
    var page := NextPage(s, limit);
    if page.events != [] {
      GotGrows(s, limit);
      PullKeepsIds(s, limit, acks);
      AckKeepsSubs(s.subs, s.kind, s.cursor, page.nextCursor.value);
    }
  }

  lemma SubscriptionKeeps(s: State, a: Action)
    requires Inv(s) && (a.Subscribe? || a.Detach?)
    ensures Inv(Apply(s, a))
  {
    assert Apply(s, a) == s.(subs := Apply(s, a).subs);
  }

  lemma SameConsumer(s: State, a: Action)
    ensures Apply(s, a).recipient == s.recipient && Apply(s, a).kind == s.kind
  {
  }

  lemma StepKeeps(s: State, a: Action)
    requires Inv(s)
    ensures Inv(Apply(s, a))
  {
    if a.Emit? {
      EmitKeeps(s, a.event);
    } else if a.Cleanup? {
      CleanupKeeps(s, a.cutoff);
    } else if a.Pull? {
      PullKeeps(s, a.limit, a.acks);
    } else {
      SubscriptionKeeps(s, a);
    }
  }

  lemma {:induction false} RunKeeps(s: State, acts: seq<Action>)
    requires Inv(s)
    ensures Inv(Play(s, acts))
    ensures Play(s, acts).recipient == s.recipient && Play(s, acts).kind == s.kind
  {
    if acts != [] {
      var n := |acts| - 1;
      RunKeeps(s, acts[..n]);
      StepKeeps(Play(s, acts[..n]), acts[n]);
      SameConsumer(Play(s, acts[..n]), acts[n]);
    }
  }

  /** Paging refines the log: a consumer that follows `next_cursor` from 0, with any page
      sizes, while events become visible in any order of ids and are cleaned up, has been
      handed exactly the matching events up to its cursor, in id order, without gap or
      duplicate, short of those that retention deleted before it read that far and those
      that became visible after it had read past them. */
  lemma PagingRefinesTheLog(init: State, acts: seq<Action>)
    requires Initial(init)
    ensures var s := Play(init, acts);
      && Sorted(s.got)
      && s.got == Select(s.history, Handed(init.recipient, init.kind, s.cursor, s.missed + s.late))
      && s.missed <= s.removed
  {
    RunKeeps(init, acts);
    var s := Play(init, acts);
    SelectSorted(s.history, Handed(s.recipient, s.kind, s.cursor, s.missed + s.late));
  }

  /** The event becomes visible ahead of the consumer. */
  predicate AheadOfCursor(s: State, a: Action) {
    a.Emit? && a.event.id >= 1 && a.event.id !in Ids(s.history) ==> s.cursor < a.event.id
  }

  predicate AlwaysAhead(s: State, acts: seq<Action>) {
    forall i | 0 <= i < |acts| :: AheadOfCursor(Play(s, acts[..i]), acts[i])
  }

  lemma AheadUpToLast(s: State, front: seq<Action>, last: Action)
    ensures AlwaysAhead(s, front + [last]) <==> AlwaysAhead(s, front) && AheadOfCursor(Play(s, front), last)
  {
    var acts, n := front + [last], |front|;
    assert acts[..n] == front && acts[n] == last;
    assert forall i | 0 <= i < n :: acts[..i] == front[..i] && acts[i] == front[i];
    if AlwaysAhead(s, acts) {
      forall i | 0 <= i < n ensures AheadOfCursor(Play(s, front[..i]), front[i]) {
        assert AheadOfCursor(Play(s, acts[..i]), acts[i]);
      }
      assert AheadOfCursor(Play(s, acts[..n]), acts[n]);
    }
  }

  /** Nothing is late if and only if every event became visible ahead of the cursor. */
  lemma {:induction false} LateIff(init: State, acts: seq<Action>)
    requires Initial(init)
    ensures Play(init, acts).late == {} <==> AlwaysAhead(init, acts)
  {
    if acts != [] {
      var front, last := acts[..|acts| - 1], acts[|acts| - 1];
      LateIff(init, front);
      assert acts == front + [last];
      AheadUpToLast(init, front, last);
      LateStep(Play(init, front), last);
    }
  }

  lemma LateStep(s: State, a: Action)
    ensures s.late <= Apply(s, a).late
    ensures Apply(s, a).late == {} <==> s.late == {} && AheadOfCursor(s, a)
  {
    if a.Emit? && !AheadOfCursor(s, a) {
      assert a.event.id in Apply(s, a).late;
    }
  }

  lemma {:induction false} LateStays(s: State, acts: seq<Action>)
    ensures s.late <= Play(s, acts).late
  {
    if acts != [] {
      LateStays(s, acts[..|acts| - 1]);
      LateStep(Play(s, acts[..|acts| - 1]), acts[|acts| - 1]);
    }
  }

  /** A late event is handed over in no continuation. */
  lemma LateIsNeverHandedOver(init: State, past: seq<Action>, future: seq<Action>, e: Event)
    requires Initial(init) && e.id in Play(init, past).late
    ensures e !in Play(Play(init, past), future).got
  {
    RunKeeps(init, past);
    var s := Play(init, past);
    RunKeeps(s, future);
    LateStays(s, future);
    var t := Play(s, future);
    SelectMembers(t.history, Handed(t.recipient, t.kind, t.cursor, t.missed + t.late));
  }

  lemma LastPageIsTheEnd(s: State, limit: int, acks: bool)
    requires Inv(s) && !NextPage(s, limit).hasMore
    ensures var t := Apply(s, Pull(limit, acks));
      forall e | e in LogOf(s) && Matches(s.recipient, s.kind, e) :: e in t.got <==> e.id !in s.late
  {
    SelectMembers(s.history, NotIn(s.removed));
    SelectSorted(s.history, NotIn(s.removed));
    SelectMembers(s.history, Handed(s.recipient, s.kind, s.cursor, s.missed + s.late));
    PageFacts(LogOf(s), s.recipient, s.cursor, limit, s.kind);
    var page := NextPage(s, limit);
    forall e | e in LogOf(s) && Matches(s.recipient, s.kind, e)
      ensures e in s.got + page.events <==> e.id !in s.late
    {
      assert e.id <= s.cursor ==> (e in s.got <==> e.id !in s.late);
      assert e in page.events ==> e.id > s.cursor;
    }
  }

  /** `has_more = false` means the end was reached: of the matching events in the log, all
      have now been handed over except the late ones. */
  lemma NoMoreMeansTheEnd(init: State, acts: seq<Action>, limit: int, acks: bool)
    requires Initial(init)
    requires !NextPage(Play(init, acts), limit).hasMore
    ensures var s := Play(init, acts + [Pull(limit, acks)]);
      forall e | e in LogOf(s) && Matches(init.recipient, init.kind, e) :: e in s.got <==> e.id !in s.late
  {
    RunKeeps(init, acts);
    var s := Play(init, acts);
    assert (acts + [Pull(limit, acks)])[..|acts|] == acts;
    assert Play(init, acts + [Pull(limit, acks)]) == Apply(s, Pull(limit, acks));
    LastPageIsTheEnd(s, limit, acks);
  }

  /** For such a consumer, an event of a pull subscription's type at or below its ack
      watermark was handed over if and only if it was neither deleted unread nor late. */
  lemma AckedWasReturned(init: State, acts: seq<Action>, i: nat, e: Event)
    requires Initial(init)
    requires var s := Play(init, acts);
      && i < |s.subs| && s.subs[i].lastAcked.Some?
      && e in s.history && e.recipient == init.recipient && e.kind == s.subs[i].kind && e.id <= s.subs[i].lastAcked.value
    ensures var s := Play(init, acts); e in s.got <==> e.id !in s.missed && e.id !in s.late
  {
    RunKeeps(init, acts);
    var s := Play(init, acts);
    SelectMembers(s.history, Handed(s.recipient, s.kind, s.cursor, s.missed + s.late));
  }

  /** A pull that returns something, column by column: the page is handed over, the cursor
      is its last id, and each attached subscription of the pulled type is acked up to the
      cursor or where it already was beyond it; no other changes. */
  lemma PullColumns(s: State, limit: int)
    requires NextPage(s, limit).events != []
    ensures var events, t := NextPage(s, limit).events, Apply(s, Pull(limit, true));
      && t.got == s.got + events && t.cursor == events[|events| - 1].id && t.history == s.history
      && |t.subs| == |s.subs|
      && forall i | 0 <= i < |s.subs| :: var sub := s.subs[i];
           if !sub.detached && (s.kind.None? || s.kind.value == sub.kind) then
             t.subs[i] == PullSub(sub.kind, false,
               Some(if sub.lastAcked.Some? && sub.lastAcked.value > t.cursor then sub.lastAcked.value else t.cursor))
           else t.subs[i] == sub
  {
  }

  /** A new subscription has acked nothing; an event becomes visible unless its id was; and a
      cleanup removes exactly what was emitted before its cutoff. */
  lemma EnvironmentColumns(s: State, kind: string, e: Event, cutoff: Time, x: Event)
    ensures Apply(s, Subscribe(kind)).subs == s.subs + [PullSub(kind, false, None)]
    ensures x in Apply(s, Emit(e)).history <==> x in s.history || (x == e && e.id >= 1 && e.id !in Ids(s.history))
    ensures Inv(s) ==> (x in LogOf(Apply(s, Cleanup(cutoff))) <==> x in LogOf(s) && x.emittedAt >= cutoff)
  {
    InsertMembers(s.history, e);
    if Inv(s) { CleanupLog(s, cutoff, x); }
  }

  lemma CleanupLog(s: State, cutoff: Time, x: Event)
    requires Inv(s)
    ensures x in LogOf(Apply(s, Cleanup(cutoff))) <==> x in LogOf(s) && x.emittedAt >= cutoff
  {
    var gone := Select(s.history, Old(cutoff));
    var t := Apply(s, Cleanup(cutoff));
    SelectMembers(s.history, Old(cutoff));
    SelectMembers(s.history, NotIn(s.removed));
    SelectMembers(s.history, NotIn(t.removed));
    if x in s.history {
      if x.id in Ids(gone) {
        var k :| 0 <= k < |gone| && gone[k].id == x.id;
        assert gone[k] in gone;
        SameId(s.history, gone[k], x);
      }
      if x.emittedAt < cutoff { IdOf(gone, x); }
    }
  }

  lemma DetachColumns(s: State, i: nat)
    requires i < |s.subs|
    ensures Apply(s, Detach(i)).subs == s.subs[i := PullSub(s.subs[i].kind, true, s.subs[i].lastAcked)]
  {
  }

  predicate AllAck(acts: seq<Action>) {
    forall i | 0 <= i < |acts| && acts[i].Pull? :: acts[i].acks
  }

  lemma {:induction false} AcksKeepUp(s: State, acts: seq<Action>)
    requires AllAck(acts) && (s.cursor > 0 ==> s.ackedTo == Some(s.cursor))
    ensures Play(s, acts).cursor > 0 ==> Play(s, acts).ackedTo == Some(Play(s, acts).cursor)
  {
    if acts != [] {
      var n := |acts| - 1;
      AcksKeepUp(s, acts[..n]);
      assert acts[n].Pull? ==> acts[n].acks;
    }
  }

  /** In every run, each subscription that the last written ack was for stands exactly at the
      cursor of that pull; and if no ack write failed, that is the consumer's cursor. */
  lemma AckFollowsTheCursor(init: State, acts: seq<Action>)
    requires Initial(init)
    ensures var s := Play(init, acts);
      forall i | i in s.ackedSubs :: i < |s.subs| && s.ackedTo.Some? && s.subs[i].lastAcked == s.ackedTo
    ensures var s := Play(init, acts); AllAck(acts) && s.cursor > 0 ==> s.ackedTo == Some(s.cursor)
  {
    RunKeeps(init, acts);
    if AllAck(acts) { AcksKeepUp(init, acts); }
  }

  /** A limit asks for at least one and at most a thousand events. */
  lemma PageSize(log: seq<Event>, recipient: string, since: nat, limit: int, kind: Option<string>)
    ensures var page := PullEvents(log, recipient, since, limit, kind);
      var n := if limit < 1 then 1 else if limit > 1000 then 1000 else limit;
      |page.events| <= n && (page.hasMore <==> |page.events| == n)
  {
  }

  class Subscriptions {
    var subs: seq<PullSub>

    constructor ()
      ensures subs == []
    {
      subs := [];
    }

    /** `advance_ack_watermark`, with the number of rows it updated. */
    method AdvanceAckWatermark(kind: Option<string>, id: nat) returns (updated: nat)
      modifies this
      ensures subs == AdvanceAck(old(subs), kind, id)
      ensures updated == |set i: nat | i < |subs| && subs[i] != old(subs)[i]|
      ensures |subs| == |old(subs)| && forall i | 0 <= i < |subs| :: var sub := old(subs)[i];
                if !sub.detached && (kind.None? || kind.value == sub.kind)
                   && (sub.lastAcked.None? || sub.lastAcked.value < id)
                then subs[i] == PullSub(sub.kind, false, Some(id)) else subs[i] == sub
    {
      var rows := set i: nat | i < |subs| && !subs[i].detached && (kind.None? || subs[i].kind == kind.value)
                               && (subs[i].lastAcked.None? || subs[i].lastAcked.value < id);
      ghost var was := subs;
      updated := |rows|;
      subs := seq(|subs|, i requires 0 <= i < |subs| reads this => if i in rows then subs[i].(lastAcked := Some(id)) else subs[i]);
      assert rows == set i: nat | i < |subs| && subs[i] != was[i];
    }
  }

  /** `_run_long_poll_wait`: `polls[k]` is the log as the k-th internal poll finds it. The
      result is the page of the first poll that finds anything. */
  method LongPollWait(polls: seq<seq<Event>>, recipient: string, since: nat, limit: int, kind: Option<string>)
    returns (page: Page)
    ensures page.events == [] ==>
              forall k | 0 <= k < |polls| :: PullEvents(polls[k], recipient, since, limit, kind).events == []
    ensures page.events != [] ==>
              exists k | 0 <= k < |polls| ::
                && page == PullEvents(polls[k], recipient, since, limit, kind)
                && forall j | 0 <= j < k :: PullEvents(polls[j], recipient, since, limit, kind).events == []
    ensures page.events == [] ==> page.nextCursor.None? && !page.hasMore
  {
    page := Page([], None, false);
    var k := 0;
    while k < |polls| && page.events == []
      invariant k <= |polls|
      invariant page.events == [] ==>
                  && page.nextCursor.None? && !page.hasMore
                  && forall j | 0 <= j < k :: PullEvents(polls[j], recipient, since, limit, kind).events == []
      invariant page.events != [] ==>
                  && k > 0 && page == PullEvents(polls[k - 1], recipient, since, limit, kind)
                  && forall j | 0 <= j < k - 1 :: PullEvents(polls[j], recipient, since, limit, kind).events == []
    {
      page := PullEvents(polls[k], recipient, since, limit, kind);
      k := k + 1;
    }
  }
}
