/** Events, their priorities, and order-preserving selections from the log. */
module EventLog {
  import opened Common

  /** The `priority` member of an event payload, as JSON may hold it. */
  datatype PriorityField = Missing | Number(n: int) | Flag(b: bool) | Text(s: string) | Other

  datatype Event = Event(id: nat, recipient: string, kind: string, priority: PriorityField, emittedAt: Time)

  const DELIVERED: string := "message.delivered"
  const DIGEST: string := "message.digest"
  const TURN_PASS: string := "turn.pass"

  /** `KNOWN_EVENT_TYPES`: what can be subscribed to. */
  predicate IsKnown(kind: string) {
    kind == DELIVERED || kind == DIGEST || kind == TURN_PASS
  }

  const PRIORITY_HIGH: int := 4
  const PRIORITY_DEFAULT: int := 3

  /** `_event_priority`: a JSON boolean is an integer to the source language, text is not. */
  function EventPriority(e: Event): int {
    match e.priority
    case Number(n) => if 1 <= n <= 5 then n else PRIORITY_DEFAULT
    case Flag(b) => if b then 1 else PRIORITY_DEFAULT
    case _ => PRIORITY_DEFAULT
  }

  predicate IsHigh(e: Event) {
    EventPriority(e) == PRIORITY_HIGH
  }

  /** A priority counts only as an integer from 1 to 5, or as `true`, which is 1. */
  lemma PriorityColumns(e: Event)
    ensures forall n | 1 <= n <= 5 :: EventPriority(e) == n <==>
              e.priority == Number(n) || (n == 1 && e.priority == Flag(true))
              || (n == 3 && !(exists k | 1 <= k <= 5 :: e.priority == Number(k)) && e.priority != Flag(true))
    ensures IsHigh(e) <==> e.priority == Number(4)
  {
  }

  /** Ids strictly increase: the order `ORDER BY id` gives. */
  predicate Sorted(s: seq<Event>) {
    forall i, j | 0 <= i < j < |s| :: s[i].id < s[j].id
  }

  function Select(s: seq<Event>, p: Event -> bool): seq<Event> {
    if s == [] then []
    else Select(s[..|s| - 1], p) + if p(s[|s| - 1]) then [s[|s| - 1]] else []
  }

  function Take(s: seq<Event>, n: nat): seq<Event> {
    if |s| <= n then s else s[..n]
  }

  function Ids(s: seq<Event>): set<nat> {
    set i | 0 <= i < |s| :: s[i].id
  }

  lemma {:induction false} SelectMembers(s: seq<Event>, p: Event -> bool)
    ensures forall e :: e in Select(s, p) <==> e in s && p(e)
  {
    if s != [] {
      SelectMembers(s[..|s| - 1], p);
      assert s == s[..|s| - 1] + [s[|s| - 1]];
    }
  }

  lemma {:induction false} SelectNone(s: seq<Event>, p: Event -> bool)
    requires forall e | e in s :: !p(e)
    ensures Select(s, p) == []
  {
    if s != [] {
      assert s[|s| - 1] in s;
      SelectNone(s[..|s| - 1], p);
    }
  }

  /** Selecting by two conditions that agree on a sequence gives the same events. */
  lemma {:induction false} SelectCongruent(s: seq<Event>, p: Event -> bool, q: Event -> bool)
    requires forall e | e in s :: p(e) == q(e)
    ensures Select(s, p) == Select(s, q)
  {
    if s != [] {
      assert s[|s| - 1] in s;
      SelectCongruent(s[..|s| - 1], p, q);
    }
  }

  lemma {:induction false} SelectSorted(s: seq<Event>, p: Event -> bool)
    requires Sorted(s)
    ensures Sorted(Select(s, p))
  {
    if s != [] {
      var n := |s| - 1;
      SelectSorted(s[..n], p);
      SelectMembers(s[..n], p);
      var chosen := Select(s[..n], p);
      forall i | 0 <= i < |chosen| ensures chosen[i].id < s[n].id {
        assert chosen[i] in s[..n];
      }
    }
  }

  lemma {:induction false} SelectAppend(s: seq<Event>, t: seq<Event>, p: Event -> bool)
    ensures Select(s + t, p) == Select(s, p) + Select(t, p)
  {
    if t == [] {
      assert s + t == s;
    } else {
      var n := |t| - 1;
      SelectAppend(s, t[..n], p);
      assert (s + t)[..|s + t| - 1] == s + t[..n];
    }
  }

  /** Whatever precedes a taken event by id is taken too. */
  lemma TakenPrefix(s: seq<Event>, n: nat, e: Event, f: Event)
    requires Sorted(s) && e in s && f in Take(s, n) && e.id <= f.id
    ensures e in Take(s, n)
  {
    var i :| 0 <= i < |s| && s[i] == e;
    var j :| 0 <= j < |Take(s, n)| && Take(s, n)[j] == f;
    assert s[j] == f && i <= j;
    assert Take(s, n)[i] == e;
  }

  lemma IdOf(s: seq<Event>, e: Event)
    requires e in s
    ensures e.id in Ids(s)
  {
  }

  /** In id order, the members determine the sequence. */
  lemma SortedFront(s: seq<Event>, e: Event)
    requires Sorted(s) && s != []
    ensures e in s[..|s| - 1] <==> e in s && e != s[|s| - 1]
    ensures e in s ==> e.id <= s[|s| - 1].id
  {
    assert s == s[..|s| - 1] + [s[|s| - 1]];
  }

  lemma {:induction false} SortedUnique(s: seq<Event>, t: seq<Event>)
    requires Sorted(s) && Sorted(t) && forall e :: e in s <==> e in t
    ensures s == t
  {
    assert t != [] ==> t[0] in s;
    if s != [] {
      assert s[0] in t;
      var a, b := s[|s| - 1], t[|t| - 1];
      assert a in t && b in s;
      SortedFront(s, b);
      SortedFront(t, a);
      SameId(s, a, b);
      var front, front' := s[..|s| - 1], t[..|t| - 1];
      forall e ensures e in front <==> e in front' {
        SortedFront(s, e);
        SortedFront(t, e);
      }
      SortedUnique(front, front');
    }
  }

  lemma SameId(s: seq<Event>, a: Event, b: Event)
    requires Sorted(s) && a in s && b in s && a.id == b.id
    ensures a == b
  {
    var i :| 0 <= i < |s| && s[i] == a;
    var j :| 0 <= j < |s| && s[j] == b;
  }

  /** Where a row with a given id lands in an ordered scan. */
  function Insert(s: seq<Event>, e: Event): seq<Event> {
    if s == [] || s[|s| - 1].id < e.id then s + [e]
    else Insert(s[..|s| - 1], e) + [s[|s| - 1]]
  }

  lemma {:induction false} InsertMembers(s: seq<Event>, e: Event)
    ensures forall x :: x in Insert(s, e) <==> x == e || x in s
  {
    if s != [] && s[|s| - 1].id >= e.id {
      InsertMembers(s[..|s| - 1], e);
      assert s == s[..|s| - 1] + [s[|s| - 1]];
    }
  }

  lemma {:induction false} InsertSorted(s: seq<Event>, e: Event)
    requires Sorted(s) && forall x | x in s :: x.id != e.id
    ensures Sorted(Insert(s, e))
  {
    if s != [] && s[|s| - 1].id >= e.id {
      var n := |s| - 1;
      InsertSorted(s[..n], e);
      InsertMembers(s[..n], e);
      var front := Insert(s[..n], e);
      assert s[n] in s;
      forall i | 0 <= i < |front| ensures front[i].id < s[n].id {
        assert front[i] in front;
        if front[i] != e { assert front[i] in s[..n]; }
      }
    }
  }
}
