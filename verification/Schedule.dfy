/** The schedule poller: every occurrence of a cue becomes exactly one execution. */
module Schedule {
  import opened Common

  /** The cron library: the next occurrence of cue `c` strictly after a time. */
  type Cron = (nat, Time) -> Time

  ghost predicate Advancing(cron: Cron) {
    forall c, t :: cron(c, t) > t
  }

  datatype Cue = Cue(active: bool, recurring: bool, nextRun: Option<Time>, firedCount: nat)

  datatype Origin = Poller | Manual

  /** Executions are keyed by the unique pair (cue, scheduled_for). `first` is each cue's
      first occurrence and `turns` how often the poller has processed it: history. */
  datatype State = State(
    clock: Time, cues: seq<Cue>, execs: map<(nat, Time), Origin>, first: seq<Time>, turns: seq<nat>)

  datatype Action =
    | Tick(now: Time)
    | Process(cue: nat)
    | ManualFire(cue: nat, at: Time)

  predicate Due(s: State, c: nat) {
    c < |s.cues| && s.cues[c].active && s.cues[c].nextRun.Some? && s.cues[c].nextRun.value <= s.clock
  }

  /** One iteration of the `_process_cue_batch` loop: insert unless the slot is taken,
      count only what was inserted, and move `next_run` on either way. */
  function ApplyProcess(cron: Cron, s: State, c: nat): State {
    if Due(s, c) && |s.turns| == |s.cues| then
      var cue, t := s.cues[c], s.cues[c].nextRun.value;
      var inserted := (c, t) !in s.execs;
      s.(execs := if inserted then s.execs[(c, t) := Poller] else s.execs,
         cues := s.cues[c := cue.(firedCount := cue.firedCount + if inserted then 1 else 0,
                                  nextRun := if cue.recurring then Some(cron(c, t)) else None)],
         turns := s.turns[c := s.turns[c] + 1])
    else s
  }

  /** A manual fire takes the slot (cue, now or send_at); a taken slot is a constraint error. */
  function Apply(cron: Cron, s: State, a: Action): State {
    match a
    case Tick(now) => if s.clock <= now then s.(clock := now) else s
    case Process(c) => ApplyProcess(cron, s, c)
    case ManualFire(c, at) => if c < |s.cues| && (c, at) !in s.execs then s.(execs := s.execs[(c, at) := Manual]) else s
  }

  function Play(cron: Cron, s: State, acts: seq<Action>): State {
    if acts == [] then s else Apply(cron, Play(cron, s, acts[..|acts| - 1]), acts[|acts| - 1])
  }

  predicate Initial(s: State) {
    && |s.first| == |s.cues| == |s.turns| && s.execs == map[]
    && forall c | 0 <= c < |s.cues| ::
         s.cues[c].nextRun == Some(s.first[c]) && s.cues[c].firedCount == 0 && s.turns[c] == 0
  }

  /** The k-th occurrence of cue `c`. */
  function Occurrence(cron: Cron, c: nat, first: Time, k: nat): Time {
    if k == 0 then first else cron(c, Occurrence(cron, c, first, k - 1))
  }

  lemma {:induction false} OccurrencesIncrease(cron: Cron, c: nat, first: Time, i: nat, j: nat)
    requires Advancing(cron) && i < j
    ensures Occurrence(cron, c, first, i) < Occurrence(cron, c, first, j)
  {
    if i + 1 < j {
      OccurrencesIncrease(cron, c, first, i, j - 1);
    }
  }

  function PollerFires(execs: map<(nat, Time), Origin>, c: nat): set<(nat, Time)> {
    set x | x in execs && x.0 == c && execs[x] == Poller
  }

  /** The first `k` occurrences all have an execution. */
  predicate Filled(cron: Cron, c: nat, first: Time, k: nat, execs: map<(nat, Time), Origin>) {
    forall i: nat | i < k :: (c, Occurrence(cron, c, first, i)) in execs
  }

  /** Slot `t` is one of the first `k` occurrences. */
  predicate IsOccurrence(cron: Cron, c: nat, first: Time, k: nat, t: Time) {
    exists i: nat | i < k :: t == Occurrence(cron, c, first, i)
  }

  predicate OnlyOccurrences(cron: Cron, c: nat, first: Time, k: nat, fires: set<(nat, Time)>) {
    forall x | x in fires :: IsOccurrence(cron, c, first, k, x.1)
  }

  /** A cue `k` turns in: the occurrences before the k-th all have an execution, the
      poller made no others, and `fired_count` counts the ones it made. */
  predicate OnSchedule(cron: Cron, s: State, c: nat)
    requires c < |s.cues| == |s.first| == |s.turns|
  {
    var cue, k := s.cues[c], s.turns[c];
    && (cue.recurring ==> cue.nextRun == Some(Occurrence(cron, c, s.first[c], k)))
    && (!cue.recurring ==> k <= 1 && cue.nextRun == if k == 0 then Some(s.first[c]) else None)
    && Filled(cron, c, s.first[c], k, s.execs)
    && OnlyOccurrences(cron, c, s.first[c], k, PollerFires(s.execs, c))
    && cue.firedCount == |PollerFires(s.execs, c)|
  }

  predicate Inv(cron: Cron, s: State) {
    && |s.first| == |s.cues| == |s.turns|
    && forall c: nat | c < |s.cues| :: OnSchedule(cron, s, c)
  }

  lemma ProcessKeeps(cron: Cron, s: State, c: nat)
    requires Advancing(cron) && Inv(cron, s)
    ensures Inv(cron, Apply(cron, s, Process(c)))
  {
    var t := Apply(cron, s, Process(c));
    if Due(s, c) {
      forall d: nat | d < |t.cues| ensures OnSchedule(cron, t, d) {
        assert OnSchedule(cron, s, d);
        if d != c {
          assert PollerFires(t.execs, d) == PollerFires(s.execs, d);
        } else {
          TurnKeeps(cron, s, c);
        }
      }
    }
  }

  lemma FilledNext(cron: Cron, c: nat, first: Time, k: nat, execs: map<(nat, Time), Origin>, slot: Time, o: Origin)
    requires Filled(cron, c, first, k, execs) && slot == Occurrence(cron, c, first, k)
    ensures Filled(cron, c, first, k + 1, execs[(c, slot) := o])
    ensures (c, slot) in execs ==> Filled(cron, c, first, k + 1, execs)
  {
  }

  lemma OnlyNext(cron: Cron, c: nat, first: Time, k: nat, fires: set<(nat, Time)>, slot: Time)
    requires OnlyOccurrences(cron, c, first, k, fires) && slot == Occurrence(cron, c, first, k)
    ensures OnlyOccurrences(cron, c, first, k + 1, fires + {(c, slot)})
    ensures OnlyOccurrences(cron, c, first, k + 1, fires)
  {
    forall x | x in fires ensures IsOccurrence(cron, c, first, k + 1, x.1) {
      var i: nat :| i < k && x.1 == Occurrence(cron, c, first, i);
      assert i < k + 1;
    }
    assert k < k + 1 && slot == Occurrence(cron, c, first, k);
  }

  /** The slot's execution afterwards, and what the poller has made of it. */
  lemma SlotTaken(cron: Cron, s: State, c: nat)
    requires Due(s, c) && |s.turns| == |s.cues|
    ensures var t, x := Apply(cron, s, Process(c)), (c, s.cues[c].nextRun.value);
      && PollerFires(t.execs, c) == PollerFires(s.execs, c) + (if x in s.execs then {} else {x})
      && (x !in s.execs ==> x !in PollerFires(s.execs, c))
  {
  }

  lemma TurnKeeps(cron: Cron, s: State, c: nat)
    requires Inv(cron, s) && Due(s, c)
    ensures var t := Apply(cron, s, Process(c)); |t.cues| == |t.first| == |t.turns| == |s.cues| && OnSchedule(cron, t, c)
  {
    assert OnSchedule(cron, s, c);
    var k, slot := s.turns[c], s.cues[c].nextRun.value;
    assert slot == Occurrence(cron, c, s.first[c], k);
    SlotTaken(cron, s, c);
    SlotFilled(cron, s, c);
    OnlyNext(cron, c, s.first[c], k, PollerFires(s.execs, c), slot);
    assert s.cues[c].recurring ==> cron(c, slot) == Occurrence(cron, c, s.first[c], k + 1);
  }

  lemma SlotFilled(cron: Cron, s: State, c: nat)
    requires Inv(cron, s) && Due(s, c)
    requires s.cues[c].nextRun.value == Occurrence(cron, c, s.first[c], s.turns[c])
    ensures Filled(cron, c, s.first[c], s.turns[c] + 1, Apply(cron, s, Process(c)).execs)
  {
    assert OnSchedule(cron, s, c);
    FilledNext(cron, c, s.first[c], s.turns[c], s.execs, s.cues[c].nextRun.value, Poller);
  }

  lemma ManualKeeps(cron: Cron, s: State, c: nat, at: Time)
    requires Inv(cron, s)
    ensures Inv(cron, Apply(cron, s, ManualFire(c, at)))
  {
    var t := Apply(cron, s, ManualFire(c, at));
    forall d: nat | d < |t.cues| ensures OnSchedule(cron, t, d) {
      assert OnSchedule(cron, s, d);
      assert PollerFires(t.execs, d) == PollerFires(s.execs, d);
    }
  }

  lemma StepKeeps(cron: Cron, s: State, a: Action)
    requires Advancing(cron) && Inv(cron, s)
    ensures Inv(cron, Apply(cron, s, a))
  {
    match a
    case Tick(now) =>
      forall c: nat | c < |s.cues| ensures OnSchedule(cron, Apply(cron, s, a), c) { assert OnSchedule(cron, s, c); }
    case Process(c) => ProcessKeeps(cron, s, c);
    case ManualFire(c, at) => ManualKeeps(cron, s, c, at);
  }

  lemma {:induction false} RunKeeps(cron: Cron, s: State, acts: seq<Action>)
    requires Advancing(cron) && Inv(cron, s)
    ensures Inv(cron, Play(cron, s, acts))
    ensures Play(cron, s, acts).first == s.first && |Play(cron, s, acts).cues| == |s.cues|
    ensures forall c | 0 <= c < |s.cues| :: Play(cron, s, acts).cues[c].recurring == s.cues[c].recurring
  {
    if acts != [] {
      RunKeeps(cron, s, acts[..|acts| - 1]);
      StepKeeps(cron, Play(cron, s, acts[..|acts| - 1]), acts[|acts| - 1]);
    }
  }

  lemma InitialInv(cron: Cron, s: State)
    requires Initial(s)
    ensures Inv(cron, s)
  {
    forall c: nat | c < |s.cues| ensures OnSchedule(cron, s, c) {
      assert PollerFires(s.execs, c) == {};
    }
  }

  lemma OnScheduleMeans(cron: Cron, s: State, c: nat, i: nat)
    requires Advancing(cron) && c < |s.cues| == |s.first| == |s.turns|
    requires OnSchedule(cron, s, c) && s.cues[c].recurring
    ensures Occurrence(cron, c, s.first[c], i) < s.cues[c].nextRun.value ==>
              (c, Occurrence(cron, c, s.first[c], i)) in s.execs
    ensures forall x | x in PollerFires(s.execs, c) ::
              x.1 < s.cues[c].nextRun.value && IsOccurrence(cron, c, s.first[c], s.turns[c], x.1)
  {
    var k := s.turns[c];
    if k < i { OccurrencesIncrease(cron, c, s.first[c], k, i); }
    forall x | x in PollerFires(s.execs, c) ensures x.1 < s.cues[c].nextRun.value {
      var n: nat :| n < k && x.1 == Occurrence(cron, c, s.first[c], n);
      OccurrencesIncrease(cron, c, s.first[c], n, k);
    }
  }

  /** Schedule completeness: in every run, for every recurring cue, each occurrence from
      the first up to `next_run` has an execution (exactly one, since the slot is the
      key), the poller made none beyond or in between, and `fired_count` is the number
      it made, whatever slots manual fires had taken. */
  lemma EveryOccurrenceFiresOnce(cron: Cron, init: State, acts: seq<Action>, c: nat, i: nat)
    requires Advancing(cron) && Initial(init) && c < |init.cues| && init.cues[c].recurring
    ensures var s := Play(cron, init, acts);
      && |s.cues| == |init.cues| == |s.turns| && s.cues[c].nextRun.Some?
      && (Occurrence(cron, c, init.first[c], i) < s.cues[c].nextRun.value ==>
            (c, Occurrence(cron, c, init.first[c], i)) in s.execs)
      && (forall x | x in PollerFires(s.execs, c) ::
            x.1 < s.cues[c].nextRun.value && IsOccurrence(cron, c, init.first[c], s.turns[c], x.1))
      && s.cues[c].firedCount == |PollerFires(s.execs, c)|
  {
    InitialInv(cron, init);
    RunKeeps(cron, init, acts);
    var s := Play(cron, init, acts);
    assert OnSchedule(cron, s, c);
    OnScheduleMeans(cron, s, c, i);
  }

  /** A processed cue is still due exactly when it is more than one occurrence behind. */
  lemma StillDueIff(cron: Cron, s: State, c: nat)
    requires Due(s, c) && |s.turns| == |s.cues|
    ensures Due(Apply(cron, s, Process(c)), c) <==>
              s.cues[c].recurring && cron(c, s.cues[c].nextRun.value) <= s.clock
  {
  }

  lemma EnvironmentColumns(cron: Cron, s: State, now: Time, c: nat, at: Time)
    ensures Apply(cron, s, Tick(now)) == s.(clock := if s.clock <= now then now else s.clock)
    ensures c < |s.cues| && (c, at) !in s.execs ==>
              Apply(cron, s, ManualFire(c, at)) == s.(execs := s.execs[(c, at) := Manual])
  {
  }
}
