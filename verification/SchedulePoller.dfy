/** `poll_due_cues`: the batch query, the batch transaction, and the drain loop. */
module SchedulePoller {
  import opened Common
  import opened Schedule

  const MAX_DRAIN_ITERATIONS := 20

  function DueCues(s: State): set<nat> {
    set c: nat | c < |s.cues| && Due(s, c)
  }

  function Turns(batch: seq<nat>): seq<Action> {
    seq(|batch|, i requires 0 <= i < |batch| => Process(batch[i]))
  }

  /** What a batch query may answer: distinct due cues, earliest first. */
  predicate IsBatch(s: State, batch: seq<nat>) {
    && (forall i, j | 0 <= i < j < |batch| :: batch[i] != batch[j])
    && (forall i | 0 <= i < |batch| :: Due(s, batch[i]))
  }

  predicate EarliestFirst(s: State, batch: seq<nat>)
    requires IsBatch(s, batch)
  {
    && (forall i, j | 0 <= i < j < |batch| ::
          s.cues[batch[i]].nextRun.value <= s.cues[batch[j]].nextRun.value)
    && (forall i, c | 0 <= i < |batch| && c in DueCues(s) && c !in batch ::
          s.cues[batch[i]].nextRun.value <= s.cues[c].nextRun.value)
  }

  /** What the query with LIMIT `limit` answers. */
  predicate Answers(s: State, limit: nat, batch: seq<nat>) {
    && IsBatch(s, batch) && EarliestFirst(s, batch)
    && |batch| == (if |DueCues(s)| < limit then |DueCues(s)| else limit)
    && (|batch| < limit ==> forall c | c in DueCues(s) :: c in batch)
  }

  /** The cue is due and its following occurrence has passed as well. */
  predicate FurtherBehind(cron: Cron, s: State, c: nat) {
    Due(s, c) && s.cues[c].recurring && cron(c, s.cues[c].nextRun.value) <= s.clock
  }

  /** What one turn makes of a cue's schedule. */
  predicate Turned(cron: Cron, c: nat, before: Cue, after: Cue) {
    && after.active == before.active && after.recurring == before.recurring && before.nextRun.Some?
    && after.nextRun == if before.recurring then Some(cron(c, before.nextRun.value)) else None
  }

  /** A batch gives each of its cues one turn, whatever the order, and touches no other:
      a cue of the batch stays due exactly when it was further behind. */
  lemma {:induction false} BatchEffect(cron: Cron, s: State, batch: seq<nat>)
    requires |s.turns| == |s.cues| && IsBatch(s, batch)
    ensures var t := Play(cron, s, Turns(batch));
      && t.clock == s.clock && t.first == s.first && |t.turns| == |t.cues| == |s.cues|
      && (forall c: nat | c < |s.cues| && c !in batch :: t.cues[c] == s.cues[c] && t.turns[c] == s.turns[c])
      && (forall c | c in batch ::
            && t.turns[c] == s.turns[c] + 1 && Turned(cron, c, s.cues[c], t.cues[c])
            && (Due(t, c) <==> FurtherBehind(cron, s, c)))
  {
    if batch != [] {
      var n := |batch| - 1;
      var rest := batch[..n];
      assert Turns(batch)[..n] == Turns(rest);
      assert batch == rest + [batch[n]];
      BatchEffect(cron, s, rest);
      assert batch[n] !in rest;
      StillDueIff(cron, Play(cron, s, Turns(rest)), batch[n]);
    }
  }

  /** The drain loop's promise that it stops only when no cue is due, made exact: a
      batch of all the due cues leaves none due if and only if none was further behind. */
  lemma NoneLeftIff(cron: Cron, s: State, batch: seq<nat>)
    requires |s.turns| == |s.cues| && IsBatch(s, batch) && forall c | c in DueCues(s) :: c in batch
    ensures forall c: nat :: Due(Play(cron, s, Turns(batch)), c) <==> FurtherBehind(cron, s, c)
    ensures DueCues(Play(cron, s, Turns(batch))) == {} <==> forall c | c in DueCues(s) :: !FurtherBehind(cron, s, c)
  {
    BatchEffect(cron, s, batch);
    var t := Play(cron, s, Turns(batch));
    forall c: nat ensures Due(t, c) <==> FurtherBehind(cron, s, c) {
      if c < |s.cues| && c !in batch {
        assert c !in DueCues(s);
      }
    }
    assert forall c: nat :: c in DueCues(t) <==> Due(t, c);
    assert forall c: nat :: c in DueCues(s) <==> Due(s, c);
  }

  /** An hourly cue down for `hours` hours: one batch of any size still leaves it due. */
  lemma OutageOutlivesTheDrain(hours: nat)
    requires hours >= 2
    ensures var cron := (c: nat, t: Time) => t + 3600.0;
      var s := State(3600.0 * hours as real, [Cue(true, true, Some(0.0), 0)], map[], [0.0], [0]);
      && Advancing(cron) && Initial(s) && DueCues(s) == {0} && IsBatch(s, [0])
      && Due(Play(cron, s, Turns([0])), 0)
  {
    var cron := (c: nat, t: Time) => t + 3600.0;
    var s := State(3600.0 * hours as real, [Cue(true, true, Some(0.0), 0)], map[], [0.0], [0]);
    BatchEffect(cron, s, [0]);
    assert 0 in [0] && FurtherBehind(cron, s, 0);
  }

  predicate IsEarliest(s: State, rest: set<nat>, c: nat)
    requires rest <= DueCues(s)
  {
    c in rest && forall d | d in rest :: s.cues[c].nextRun.value <= s.cues[d].nextRun.value
  }

  lemma {:induction false} EarliestExists(s: State, rest: set<nat>)
    requires rest != {} && rest <= DueCues(s)
    ensures exists c :: IsEarliest(s, rest, c)
    decreases |rest|
  {
    var c :| c in rest;
    var others := rest - {c};
    assert rest == others + {c};
    if others == {} {
      assert IsEarliest(s, rest, c);
    } else {
      EarliestExists(s, others);
      var e: nat :| IsEarliest(s, others, e);
      assert IsEarliest(s, rest, if s.cues[e].nextRun.value <= s.cues[c].nextRun.value then e else c);
    }
  }

  /** The query reads the clock and the cues alone. */
  lemma SameAnswers(s: State, t: State, limit: nat, batch: seq<nat>)
    requires s.clock == t.clock && s.cues == t.cues && Answers(s, limit, batch)
    ensures Answers(t, limit, batch)
  {
    assert DueCues(s) == DueCues(t);
    assert IsBatch(t, batch);
  }

  /** Taken so far, and left: the earliest first, and each due cue in one of the two. */
  ghost predicate Selecting(s: State, batch: seq<nat>, rest: set<nat>) {
    && rest <= DueCues(s) && |rest| + |batch| == |DueCues(s)|
    && (forall c :: c in DueCues(s) <==> c in rest || c in batch)
    && (forall c | c in rest :: c !in batch)
    && IsBatch(s, batch) && EarliestFirst(s, batch)
  }

  lemma NextIsLatest(s: State, batch: seq<nat>, rest: set<nat>, c: nat)
    requires Selecting(s, batch, rest) && IsEarliest(s, rest, c)
    ensures IsBatch(s, batch + [c]) && EarliestFirst(s, batch + [c])
  {
    assert Due(s, c) && c !in batch;
    assert IsBatch(s, batch + [c]);
    forall i | 0 <= i < |batch| ensures s.cues[batch[i]].nextRun.value <= s.cues[c].nextRun.value {
      assert c in DueCues(s);
    }
    forall d | d in DueCues(s) && d !in batch + [c] ensures s.cues[c].nextRun.value <= s.cues[d].nextRun.value {
      assert d in rest;
    }
  }

  lemma SelectNext(s: State, batch: seq<nat>, rest: set<nat>, c: nat)
    requires Selecting(s, batch, rest) && IsEarliest(s, rest, c)
    ensures Selecting(s, batch + [c], rest - {c})
  {
    NextIsLatest(s, batch, rest, c);
  }

  /** SELECT ... WHERE due ORDER BY next_run LIMIT. */
  method SelectDue(s: State, limit: nat) returns (batch: seq<nat>)
    ensures Answers(s, limit, batch)
  {
    batch := [];
    var rest := DueCues(s);
    while rest != {} && |batch| < limit
      invariant Selecting(s, batch, rest) && |batch| <= limit
      decreases |rest|
    {
      EarliestExists(s, rest);
      var c :| c in rest && IsEarliest(s, rest, c);
      SelectNext(s, batch, rest, c);
      batch := batch + [c];
      rest := rest - {c};
    }
  }

  lemma PlayLast(cron: Cron, s: State, front: seq<Action>, last: Action)
    ensures Play(cron, s, front + [last]) == Apply(cron, Play(cron, s, front), last)
  {
    assert (front + [last])[..|front|] == front;
  }

  lemma PlayAppendLast(cron: Cron, s: State, xs: seq<Action>, front: seq<Action>, last: Action)
    requires Play(cron, s, xs + front) == Play(cron, Play(cron, s, xs), front)
    ensures Play(cron, s, xs + front + [last]) == Play(cron, Play(cron, s, xs), front + [last])
  {
    PlayLast(cron, s, xs + front, last);
    PlayLast(cron, Play(cron, s, xs), front, last);
  }

  lemma {:induction false} PlayAppend(cron: Cron, s: State, xs: seq<Action>, ys: seq<Action>)
    ensures Play(cron, s, xs + ys) == Play(cron, Play(cron, s, xs), ys)
  {
    if ys == [] {
      assert xs + ys == xs;
    } else {
      var front, last := ys[..|ys| - 1], ys[|ys| - 1];
      PlayAppend(cron, s, xs, front);
      PlayAppendLast(cron, s, xs, front, last);
      assert ys == front + [last] && xs + ys == xs + front + [last];
    }
  }

  /** The cue was due at `start` and has had `k` turns since: `next_run` is its k-th
      occurrence from there, or gone with its one turn. */
  predicate TurnedTimes(cron: Cron, start: State, c: nat, after: Cue, k: nat)
    requires c < |start.cues|
  {
    var before := start.cues[c];
    && Due(start, c) && after.active && after.recurring == before.recurring
    && after.nextRun == if before.recurring then Some(Occurrence(cron, c, before.nextRun.value, k)) else None
  }

  /** A cue without a turn since `start` is as it was; the others moved one occurrence a turn. */
  predicate Moved(cron: Cron, start: State, s: State) {
    && s.clock == start.clock && |start.turns| == |start.cues| == |s.cues| == |s.turns|
    && forall c: nat | c < |s.cues| ::
         || (s.turns[c] > start.turns[c] && TurnedTimes(cron, start, c, s.cues[c], s.turns[c] - start.turns[c]))
         || (s.turns[c] == start.turns[c] && s.cues[c] == start.cues[c])
  }

  lemma OneMoreTurn(cron: Cron, start: State, s: State, t: State, c: nat)
    requires Moved(cron, start, s) && Due(s, c) && c < |t.cues| == |t.turns| == |s.cues|
    requires t.turns[c] == s.turns[c] + 1 && Turned(cron, c, s.cues[c], t.cues[c])
    ensures TurnedTimes(cron, start, c, t.cues[c], t.turns[c] - start.turns[c])
  {
    var k, first := s.turns[c] - start.turns[c], start.cues[c].nextRun.value;
    assert s.cues[c].recurring ==> s.cues[c].nextRun == Some(Occurrence(cron, c, first, k));
    assert Occurrence(cron, c, first, k + 1) == cron(c, Occurrence(cron, c, first, k));
  }

  /** Exactly which cues are due after any number of turns: those due at `start` that have
      had none, and the recurring ones whose occurrence after their turns has passed too. */
  ghost predicate Remainder(cron: Cron, start: State, s: State)
    requires Moved(cron, start, s)
  {
    forall c: nat :: Due(s, c) <==>
      && Due(start, c)
      && (|| s.turns[c] == start.turns[c]
          || (start.cues[c].recurring &&
              Occurrence(cron, c, start.cues[c].nextRun.value, s.turns[c] - start.turns[c]) <= start.clock))
  }

  lemma MovedLeaves(cron: Cron, start: State, s: State)
    requires Moved(cron, start, s)
    ensures Remainder(cron, start, s)
  {
  }

  /** Every cue due at `start` has had a turn since. */
  predicate AllTurned(start: State, s: State)
    requires |start.turns| == |start.cues| == |s.turns|
  {
    forall c | c in DueCues(start) :: s.turns[c] > start.turns[c]
  }

  ghost predicate OnlyBehindLeft(cron: Cron, start: State, s: State) {
    forall c: nat :: Due(s, c) <==> FurtherBehind(cron, start, c)
  }

  lemma DrainStep(cron: Cron, start: State, s: State, batch: seq<nat>)
    requires Moved(cron, start, s) && IsBatch(s, batch)
    ensures var t := Play(cron, s, Turns(batch));
      Moved(cron, start, t) && ((forall c | c in DueCues(s) :: c in batch) ==> AllTurned(start, t))
  {
    BatchEffect(cron, s, batch);
    var t := Play(cron, s, Turns(batch));
    forall c: nat | c < |t.cues| && c in batch
      ensures t.turns[c] > start.turns[c] && TurnedTimes(cron, start, c, t.cues[c], t.turns[c] - start.turns[c])
    {
      OneMoreTurn(cron, start, s, t, c);
    }
    if forall c | c in DueCues(s) :: c in batch {
      forall c | c in DueCues(start) ensures t.turns[c] > start.turns[c] {
        if s.cues[c] == start.cues[c] {
          assert c in DueCues(s);
        }
      }
    }
  }

  /** The same tables at another reading of the clock. */
  function At(s: State, now: Time): State {
    s.(clock := now)
  }

  lemma DueGrows(s: State, now: Time)
    requires s.clock <= now
    ensures DueCues(s) <= DueCues(At(s, now)) && |DueCues(s)| <= |DueCues(At(s, now))|
  {
    var a, b := DueCues(s), DueCues(At(s, now));
    assert b == a + (b - a);
  }

  lemma MovedLater(cron: Cron, start: State, s: State, now: Time)
    requires Moved(cron, start, s) && s.clock <= now
    ensures Moved(cron, At(start, now), At(s, now))
  {
    forall c: nat | c < |s.cues| && s.turns[c] > start.turns[c]
      ensures TurnedTimes(cron, At(start, now), c, s.cues[c], s.turns[c] - start.turns[c])
    {
      assert TurnedTimes(cron, start, c, s.cues[c], s.turns[c] - start.turns[c]);
    }
  }

  /** What holds after `i` iterations of the drain, seen at its last reading of the clock;
      `more` until a batch came short. */
  ghost predicate Draining(
    cron: Cron, start: State, s: State, batchSize: nat, i: nat, more: bool, total: nat)
  {
    var at := At(start, s.clock);
    && start.clock <= s.clock && Moved(cron, at, s)
    && (more ==> total == i * batchSize)
    && (i == 0 ==> s == start && more)
    && (more && i > 0 ==> |DueCues(at)| >= batchSize)
    && (!more ==> AllTurned(at, s))
    && (!more && |DueCues(at)| < batchSize ==> OnlyBehindLeft(cron, at, s))
  }

  /** What a poll leaves, seen at its last reading of the clock: the cues still due are
      exactly those whose turns did not catch them up; short of the iteration bound every
      due cue had a turn; and if one batch held all due cues, every one had exactly one. */
  ghost predicate Drained(cron: Cron, start: State, s: State, batchSize: nat, total: nat) {
    var at := At(start, s.clock);
    && start.clock <= s.clock && Moved(cron, at, s) && Remainder(cron, at, s)
    && (total < 20 * batchSize ==> AllTurned(at, s))
    && (|DueCues(at)| < batchSize ==> OnlyBehindLeft(cron, at, s))
  }

  /** One batch of a drain: its reading of the clock and the cues it took. */
  datatype Batch = Batch(now: Time, cues: seq<nat>)

  function StepsOf(b: Batch): seq<Action> {
    [Tick(b.now)] + Turns(b.cues)
  }

  /** The steps of some batches, in order. */
  function Flat(batches: seq<Batch>): seq<Action> {
    if batches == [] then [] else Flat(batches[..|batches| - 1]) + StepsOf(batches[|batches| - 1])
  }

  function Total(batches: seq<Batch>): nat {
    if batches == [] then 0 else Total(batches[..|batches| - 1]) + |batches[|batches| - 1].cues|
  }

  predicate Short(batches: seq<Batch>, batchSize: nat) {
    batches != [] && |batches[|batches| - 1].cues| < batchSize
  }

  /** `batch` may follow in state `s`: it answers the query at its reading of the clock. */
  predicate Follows(s: State, batch: Batch, batchSize: nat) {
    s.clock <= batch.now && Answers(At(s, batch.now), batchSize, batch.cues)
  }

  /** The batches of a drain: each answers the query at its time, and none follows a short one. */
  predicate DrainOf(cron: Cron, start: State, batches: seq<Batch>, batchSize: nat) {
    batches == [] ||
    var front := batches[..|batches| - 1];
    && DrainOf(cron, start, front, batchSize) && !Short(front, batchSize)
    && Follows(Play(cron, start, Flat(front)), batches[|batches| - 1], batchSize)
  }

  lemma PlayBatch(cron: Cron, s: State, b: Batch)
    requires s.clock <= b.now
    ensures Play(cron, s, StepsOf(b)) == Play(cron, At(s, b.now), Turns(b.cues))
  {
    PlayLast(cron, s, [], Tick(b.now));
    assert [] + [Tick(b.now)] == [Tick(b.now)];
    PlayAppend(cron, s, [Tick(b.now)], Turns(b.cues));
  }

  lemma DrainGrows(cron: Cron, start: State, batches: seq<Batch>, batchSize: nat, batch: Batch)
    requires DrainOf(cron, start, batches, batchSize) && !Short(batches, batchSize)
    requires Follows(Play(cron, start, Flat(batches)), batch, batchSize)
    ensures DrainOf(cron, start, batches + [batch], batchSize)
    ensures Total(batches + [batch]) == Total(batches) + |batch.cues|
    ensures Play(cron, start, Flat(batches + [batch]))
         == Play(cron, At(Play(cron, start, Flat(batches)), batch.now), Turns(batch.cues))
    ensures Short(batches + [batch], batchSize) <==> |batch.cues| < batchSize
  {
    assert (batches + [batch])[..|batches|] == batches;
    PlayAppend(cron, start, Flat(batches), StepsOf(batch));
    PlayBatch(cron, Play(cron, start, Flat(batches)), batch);
  }

  ghost predicate DrainsTo(cron: Cron, start: State, batches: seq<Batch>, batchSize: nat, more: bool) {
    Draining(cron, start, Play(cron, start, Flat(batches)), batchSize, |batches|, more, Total(batches))
  }

  lemma DrainKeepsLast(cron: Cron, start: State, front: seq<Batch>, batchSize: nat, batch: Batch)
    requires DrainOf(cron, start, front, batchSize) && !Short(front, batchSize)
    requires Follows(Play(cron, start, Flat(front)), batch, batchSize) && DrainsTo(cron, start, front, batchSize, true)
    ensures DrainsTo(cron, start, front + [batch], batchSize, |batch.cues| == batchSize)
  {
    DrainGrows(cron, start, front, batchSize, batch);
    NextDrain(cron, start, Play(cron, start, Flat(front)), batchSize, |front|, Total(front), batch);
  }

  lemma {:induction false} DrainKeeps(cron: Cron, start: State, batches: seq<Batch>, batchSize: nat)
    requires |start.turns| == |start.cues| && DrainOf(cron, start, batches, batchSize)
    ensures DrainsTo(cron, start, batches, batchSize, !Short(batches, batchSize))
  {
    if batches != [] {
      var front, batch := batches[..|batches| - 1], batches[|batches| - 1];
      DrainKeeps(cron, start, front, batchSize);
      DrainKeepsLast(cron, start, front, batchSize, batch);
      assert batches == front + [batch];
    }
  }

  lemma DrainEnds(cron: Cron, start: State, batches: seq<Batch>, batchSize: nat)
    requires |start.turns| == |start.cues| && DrainOf(cron, start, batches, batchSize)
    requires Short(batches, batchSize) || |batches| == MAX_DRAIN_ITERATIONS
    ensures Drained(cron, start, Play(cron, start, Flat(batches)), batchSize, Total(batches))
  {
    DrainKeeps(cron, start, batches, batchSize);
    var s := Play(cron, start, Flat(batches));
    MovedLeaves(cron, At(start, s.clock), s);
  }

  /** Any batch leaves the tables in shape for the next. */
  lemma DrainShape(cron: Cron, start: State, batches: seq<Batch>, batchSize: nat)
    requires |start.turns| == |start.cues| && DrainOf(cron, start, batches, batchSize)
    ensures var s := Play(cron, start, Flat(batches)); |s.turns| == |s.cues|
  {
    DrainKeeps(cron, start, batches, batchSize);
  }

  lemma NextDrain(cron: Cron, start: State, s: State, batchSize: nat, i: nat, total: nat, batch: Batch)
    requires Draining(cron, start, s, batchSize, i, true, total) && Follows(s, batch, batchSize)
    ensures Draining(cron, start, Play(cron, At(s, batch.now), Turns(batch.cues)), batchSize, i + 1,
                     |batch.cues| == batchSize, total + |batch.cues|)
  {
    var at, u := At(start, batch.now), At(s, batch.now);
    MovedLater(cron, At(start, s.clock), s, batch.now);
    DueGrows(At(start, s.clock), batch.now);
    DrainStep(cron, at, u, batch.cues);
    BatchEffect(cron, u, batch.cues);
    if |batch.cues| < batchSize && i == 0 {
      NoneLeftIff(cron, u, batch.cues);
    }
    DrainJoins(cron, start, u, Play(cron, u, Turns(batch.cues)), batchSize, i, total, |batch.cues|);
  }

  lemma DrainJoins(
    cron: Cron, start: State, u: State, t: State, batchSize: nat, i: nat, total: nat, count: nat)
    requires start.clock <= u.clock == t.clock && Moved(cron, At(start, u.clock), t) && total == i * batchSize
    requires count == (if |DueCues(u)| < batchSize then |DueCues(u)| else batchSize)
    requires if i == 0 then u == At(start, u.clock) else |DueCues(At(start, u.clock))| >= batchSize
    requires count < batchSize ==>
               AllTurned(At(start, u.clock), t) && (i == 0 ==> OnlyBehindLeft(cron, At(start, u.clock), t))
    ensures Draining(cron, start, t, batchSize, i + 1, count == batchSize, total + count)
  {
    assert (i + 1) * batchSize == i * batchSize + batchSize;
  }

  class Poller {
    const cron: Cron
    var clock: Time
    var cues: seq<Cue>
    var execs: map<(nat, Time), Origin>
    ghost var first: seq<Time>
    ghost var turns: seq<nat>

    ghost function View(): State
      reads this
    {
      State(clock, cues, execs, first, turns)
    }

    constructor (cron: Cron, clock: Time, cues: seq<Cue>)
      requires forall i | 0 <= i < |cues| :: cues[i].nextRun.Some? && cues[i].firedCount == 0
      ensures this.cron == cron && this.clock == clock && this.cues == cues && Initial(View())
    {
      this.cron := cron;
      this.clock := clock;
      this.cues := cues;
      this.execs := map[];
      this.first := seq(|cues|, i requires 0 <= i < |cues| => cues[i].nextRun.value);
      this.turns := seq(|cues|, i => 0);
    }

    method ProcessCue(ghost s: State, c: nat)
      requires s == View() && Due(s, c) && |turns| == |cues|
      modifies `cues, `execs, `turns
      ensures View() == Apply(cron, s, Process(c))
    {
      var scheduledFor := cues[c].nextRun.value;
      var cue := cues[c];
      if (c, scheduledFor) !in execs {
        execs := execs[(c, scheduledFor) := Origin.Poller];
        cue := cue.(firedCount := cue.firedCount + 1);
      }
      if cue.recurring {
        cue := cue.(nextRun := Some(cron(c, scheduledFor)));
      } else {
        cue := cue.(nextRun := None);
      }
      cues := cues[c := cue];
      turns := turns[c := turns[c] + 1];
    }

    /** The loop over the selected cues. */
    method TakeTurns(ghost start: State, due: seq<nat>) returns (count: nat)
      requires start == View() && |turns| == |cues| && IsBatch(start, due)
      modifies `cues, `execs, `turns
      ensures View() == Play(cron, start, Turns(due)) && count == |due|
    {
      ghost var s := start;
      count := 0;
      assert Turns(due)[..0] == [];
      while count < |due|
        invariant count <= |due| && s == View() == Play(cron, start, Turns(due)[..count])
        invariant |turns| == |cues| == |start.cues| && clock == start.clock
        invariant forall k | count <= k < |due| :: cues[due[k]] == start.cues[due[k]]
      {
        assert Due(start, due[count]);
        assert Turns(due)[..count + 1][..count] == Turns(due)[..count];
        ProcessCue(s, due[count]);
        s := View();
        count := count + 1;
      }
      assert Turns(due)[..count] == Turns(due);
    }

    /** `_process_cue_batch`: one transaction, at its own reading of the clock. */
    method ProcessCueBatch(ghost start: State, now: Time, batchSize: nat) returns (count: nat, ghost batch: Batch)
      requires start == View() && |turns| == |cues| && clock <= now
      modifies `clock, `cues, `execs, `turns
      ensures Follows(start, batch, batchSize) && batch.now == now && count == |batch.cues|
      ensures View() == Play(cron, At(start, now), Turns(batch.cues))
    {
      clock := now;
      var due := SelectDue(State(clock, cues, execs, [], []), batchSize);
      batch := Batch(now, due);
      SameAnswers(State(clock, cues, execs, [], []), At(start, now), batchSize, due);
      count := TakeTurns(At(start, now), due);
    }

    /** One more batch of a drain. */
    method DrainOnce(ghost start: State, ghost batches: seq<Batch>, now: Time, batchSize: nat)
      returns (count: nat, ghost more: seq<Batch>)
      requires |start.turns| == |start.cues| && DrainOf(cron, start, batches, batchSize) && !Short(batches, batchSize)
      requires View() == Play(cron, start, Flat(batches)) && clock <= now
      modifies `clock, `cues, `execs, `turns
      ensures DrainOf(cron, start, more, batchSize) && |more| == |batches| + 1 && clock == now
      ensures View() == Play(cron, start, Flat(more)) && Total(more) == Total(batches) + count
      ensures Short(more, batchSize) <==> count < batchSize
    {
      ghost var s := View();
      DrainShape(cron, start, batches, batchSize);
      ghost var batch;
      count, batch := ProcessCueBatch(s, now, batchSize);
      DrainGrows(cron, start, batches, batchSize, batch);
      BatchEffect(cron, At(s, now), batch.cues);
      more := batches + [batch];
    }

    /** The drain loop: batches until one comes short, or the bound is reached. */
    method Drain(ghost start: State, readings: seq<Time>, batchSize: nat) returns (total: nat, ghost batches: seq<Batch>)
      requires start == View() && |turns| == |cues| && Readings(clock, readings)
      modifies `clock, `cues, `execs, `turns
      ensures DrainOf(cron, start, batches, batchSize) && total == Total(batches)
      ensures Short(batches, batchSize) || |batches| == 20
      ensures View() == Play(cron, start, Flat(batches))
    {
      total, batches := 0, [];
      var more := true;
      var i := 0;
      while i < MAX_DRAIN_ITERATIONS && more
        invariant 0 <= i == |batches| <= MAX_DRAIN_ITERATIONS && more == !Short(batches, batchSize)
        invariant DrainOf(cron, start, batches, batchSize) && total == Total(batches)
        invariant View() == Play(cron, start, Flat(batches))
        invariant clock == if i == 0 then start.clock else readings[i - 1]
        decreases MAX_DRAIN_ITERATIONS - i
      {
        var count;
        count, batches := DrainOnce(start, batches, readings[i], batchSize);
        total := total + count;
        i := i + 1;
        if count < batchSize {
          more := false;
        }
      }
    }

    /** `poll_due_cues`: `readings` is what its batches find on the clock. */
    method PollDueCues(readings: seq<Time>, batchSize: nat) returns (total: nat, ghost batches: seq<Batch>)
      requires |turns| == |cues| && Readings(clock, readings)
      modifies `clock, `cues, `execs, `turns
      ensures DrainOf(cron, old(View()), batches, batchSize) && total == Total(batches)
      ensures View() == Play(cron, old(View()), Flat(batches))
      ensures Drained(cron, old(View()), View(), batchSize, total)
    {
      ghost var start := View();
      total, batches := Drain(start, readings, batchSize);
      DrainEnds(cron, start, batches, batchSize);
    }
  }

  /** One reading per iteration, none before the one before it. */
  predicate Readings(clock: Time, readings: seq<Time>) {
    && |readings| == MAX_DRAIN_ITERATIONS && clock <= readings[0]
    && forall i | 0 < i < |readings| :: readings[i - 1] <= readings[i]
  }
}
