/** The send and the key-freeing pass on the messages table. */
module IdempotencyStore {
  import opened Common
  import opened Idempotency

  datatype SendResult = Created(id: nat) | Existing(id: nat) | KeyConflict(id: nat) | IndexViolation

  class MessageTable {
    const ttl: Time
    var clock: Time
    var rows: map<nat, Row>
    var nextId: nat
    ghost var created: seq<Creation>

    /** Between transactions no send is in progress. */
    ghost function View(): State
      reads this
    {
      State(clock, ttl, map[], rows, created)
    }

    ghost predicate Valid()
      reads this
    {
      Inv(View()) && nextId == |created|
    }

    constructor (ttl: Time, clock: Time)
      requires ttl >= 0.0
      ensures Valid() && Initial(View()) && this.clock == clock
    {
      this.ttl := ttl;
      this.clock := clock;
      this.rows := map[];
      this.nextId := 0;
      this.created := [];
    }

    /** The idempotency SELECT, and the check that the unique index makes on insert. */
    method FindKey(user: string, key: Option<string>) returns (hit: Option<nat>, taken: bool)
      requires Valid()
      ensures hit.Some? ==> hit.value in Matches(View(), user, key)
      ensures hit.None? ==> Matches(View(), user, key) == {}
      ensures taken <==> Taken(rows, user, key)
    {
      hit, taken := None, false;
      var todo := rows.Keys;
      while todo != {}
        invariant todo <= rows.Keys
        invariant hit.Some? ==> hit.value in Matches(View(), user, key)
        invariant hit.None? ==> forall id | id in Matches(View(), user, key) :: id in todo
        invariant taken ==> Taken(rows, user, key)
        invariant !taken ==> forall id | id in rows && Holds(rows, user, key, id) :: id in todo
        decreases |todo|
      {
        var id :| id in todo;
        if Holds(rows, user, key, id) {
          taken := true;
          if InWindow(rows[id], clock) {
            hit := Some(id);
          }
        }
        todo := todo - {id};
      }
    }

    /** `create_message` from its idempotency check on, as one transaction. */
    method CreateMessage(user: string, key: Option<string>, fingerprint: string) returns (result: SendResult)
      requires Valid()
      modifies `rows, `nextId, `created
      ensures Valid()
      ensures View() == Play(old(View()), [Begin(0, user, key, fingerprint), Lookup(0), Insert(0, clock)])
      ensures match result
        case Created(id) =>
          && id == old(nextId) && nextId == id + 1
          && rows == old(rows)[id := Row(
               user, key, if key.Some? && key.value != "" then Some(fingerprint) else None, clock, clock + ttl, Open, None)]
          && Matches(old(View()), user, key) == {} && !Taken(old(rows), user, key)
        case Existing(id) => IsAnswer(old(View()), user, key, fingerprint, Replay(id)) && View() == old(View())
        case KeyConflict(id) => IsAnswer(old(View()), user, key, fingerprint, Conflict(id)) && View() == old(View())
        case IndexViolation =>
          && IsAnswer(old(View()), user, key, fingerprint, Proceed) && View() == old(View())
          && Taken(rows, user, key)
    {
      ghost var start := View();
      var found, taken := FindKey(user, key);
      AtomicSend(start, user, key, fingerprint);
      if found.Some? {
        if rows[found.value].fingerprint == Some(fingerprint) {
          return Existing(found.value);
        }
        return KeyConflict(found.value);
      }
      if taken {
        return IndexViolation;
      }
      result := Created(nextId);
      rows := rows[nextId := Row(user, key, StoredFingerprint(key, fingerprint), clock, clock + ttl, Open, None)];
      created := created + [Creation(user, key, fingerprint, clock)];
      nextId := nextId + 1;
    }

    /** `free_old_idempotency_keys`, for real: `freed` is the number of rows updated. */
    method FreeOldIdempotencyKeys() returns (freed: nat)
      requires Valid()
      modifies `rows
      ensures Valid() && View() == Apply(old(View()), FreeKeys)
      ensures freed == |set id | id in old(rows) && Freeable(old(rows)[id], clock)|
    {
      ghost var start := View();
      var eligible := set id | id in rows && Freeable(rows[id], clock);
      freed := |eligible|;
      rows := map id | id in rows :: if id in eligible then rows[id].(key := None) else rows[id];
      assert rows == Freed(start.rows, clock);
      CleanupKeeps(start, FreeKeys);
    }
  }

  function NewRow(s: State, user: string, key: Option<string>, fingerprint: string): Row {
    Row(user, key, StoredFingerprint(key, fingerprint), s.clock, s.clock + s.ttl, Open, None)
  }

  /** A send that is one atomic step, in terms of the table before it. */
  function AfterSend(s: State, user: string, key: Option<string>, fingerprint: string): State {
    if Matches(s, user, key) != {} || Taken(s.rows, user, key) then s else
      s.(rows := s.rows[|s.created| := NewRow(s, user, key, fingerprint)],
         created := s.created + [Creation(user, key, fingerprint, s.clock)])
  }

  lemma LookupStep(s: State, user: string, key: Option<string>, fingerprint: string)
    requires s.requests == map[0 := Request(user, key, fingerprint, s.clock, false)]
    ensures Apply(s, Lookup(0)) == s.(requests :=
              if Matches(s, user, key) == {} then map[0 := Request(user, key, fingerprint, s.clock, true)] else map[])
  {
    assert s.requests - {0} == map[];
  }

  lemma InsertStep(s: State, user: string, key: Option<string>, fingerprint: string)
    requires s.requests == map[0 := Request(user, key, fingerprint, s.clock, true)]
    ensures Apply(s, Insert(0, s.clock)) == s.(
              requests := map[],
              rows := if Taken(s.rows, user, key) then s.rows else s.rows[|s.created| := NewRow(s, user, key, fingerprint)],
              created := if Taken(s.rows, user, key) then s.created
                         else s.created + [Creation(user, key, fingerprint, s.clock)])
  {
    assert s.requests - {0} == map[];
  }

  lemma AtomicSteps(s: State, user: string, key: Option<string>, fingerprint: string)
    requires s.requests == map[]
    ensures Play(s, [Begin(0, user, key, fingerprint), Lookup(0), Insert(0, s.clock)])
         == AfterSend(s, user, key, fingerprint)
  {
    PlayThree(s, Begin(0, user, key, fingerprint), Lookup(0), Insert(0, s.clock));
    BeginStep(s, user, key, fingerprint);
    SendSteps(s, s.(requests := map[0 := Request(user, key, fingerprint, s.clock, false)]), user, key, fingerprint);
  }

  lemma SendSteps(s: State, begun: State, user: string, key: Option<string>, fingerprint: string)
    requires s.requests == map[]
    requires begun == s.(requests := map[0 := Request(user, key, fingerprint, s.clock, false)])
    ensures Apply(Apply(begun, Lookup(0)), Insert(0, s.clock)) == AfterSend(s, user, key, fingerprint)
  {
    LookupStep(begun, user, key, fingerprint);
    SameMatches(begun, s, user, key);
    if Matches(s, user, key) == {} {
      FreshSend(s, begun.(requests := map[0 := Request(user, key, fingerprint, s.clock, true)]), user, key, fingerprint);
    } else {
      NoRequest(s);
    }
  }

  lemma FreshSend(s: State, cleared: State, user: string, key: Option<string>, fingerprint: string)
    requires s.requests == map[] && Matches(s, user, key) == {}
    requires cleared == s.(requests := map[0 := Request(user, key, fingerprint, s.clock, true)])
    ensures Apply(cleared, Insert(0, s.clock)) == AfterSend(s, user, key, fingerprint)
  {
    InsertStep(cleared, user, key, fingerprint);
  }

  lemma BeginStep(s: State, user: string, key: Option<string>, fingerprint: string)
    requires s.requests == map[]
    ensures Apply(s, Begin(0, user, key, fingerprint))
         == s.(requests := map[0 := Request(user, key, fingerprint, s.clock, false)])
  {
  }

  lemma NoRequest(s: State)
    requires s.requests == map[]
    ensures Apply(s, Insert(0, s.clock)) == s && s.(requests := map[]) == s
  {
  }

  /** The SELECT reads the table and the clock alone. */
  lemma SameMatches(s: State, t: State, user: string, key: Option<string>)
    requires s.rows == t.rows && s.clock == t.clock
    ensures Matches(s, user, key) == Matches(t, user, key)
  {
  }

  lemma AtomicSend(s: State, user: string, key: Option<string>, fingerprint: string)
    requires Inv(s) && s.requests == map[]
    ensures Play(s, [Begin(0, user, key, fingerprint), Lookup(0), Insert(0, s.clock)])
         == AfterSend(s, user, key, fingerprint)
    ensures Inv(AfterSend(s, user, key, fingerprint))
  {
    AtomicSteps(s, user, key, fingerprint);
    var begin := Begin(0, user, key, fingerprint);
    PlayThree(s, begin, Lookup(0), Insert(0, s.clock));
    RequestKeeps(s, begin);
    RequestKeeps(Apply(s, begin), Lookup(0));
    InsertKeeps(Apply(Apply(s, begin), Lookup(0)), 0, s.clock);
  }
}
