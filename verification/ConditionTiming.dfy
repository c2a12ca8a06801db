/** When transitions happen: the order of a journal, and why and when a timer commits. */
module ConditionTiming {
  import opened Conditions
  import opened ConditionHistory
  import opened ConditionRuns

  // ----- runs of Apply and Advance stay settled and ordered -----

  /** No pending timer is due at or before the clock. */
  ghost predicate Settled(m: Machine) { DueKeys(m, m.logical) == {} }

  ghost predicate NondecreasingAt(js: seq<Transition>)
  {
    forall i, j | 0 <= i < j < |js| :: js[i].at <= js[j].at
  }

  ghost predicate Within(js: seq<Transition>, low: Time, high: Time)
  {
    forall i | 0 <= i < |js| :: low <= js[i].at <= high
  }

  /** Commit times do not decrease and never pass the clock. */
  ghost predicate Ordered(m: Machine) { NondecreasingAt(m.journal) && Within(m.journal, 0, m.logical) }

  lemma OrderedAppend(js: seq<Transition>, out: seq<Transition>, low: Time, high: Time)
    requires NondecreasingAt(js) && Within(js, 0, low)
    requires NondecreasingAt(out) && Within(out, low, high) && low <= high
    ensures NondecreasingAt(js + out) && Within(js + out, 0, high)
  {
    forall i, j | 0 <= i < j < |js + out| ensures (js + out)[i].at <= (js + out)[j].at {
      if i < |js| <= j { assert js[i].at <= low <= out[j - |js|].at; }
    }
  }

  /** One call's output lies between the clock before and the clock after it, in order. */
  ghost predicate TimedStep(m: Machine, st: Step)
  {
    && m.logical <= st.machine.logical
    && st.machine.journal == m.journal + st.out
    && NondecreasingAt(st.out) && Within(st.out, m.logical, st.machine.logical)
    && Settled(st.machine)
  }

  lemma AdvanceTimed(m: Machine, now: Time)
    requires Settled(m)
    ensures TimedStep(m, AdvanceTo(m, now))
    ensures forall i | 0 <= i < |AdvanceTo(m, now).out| :: m.logical < AdvanceTo(m, now).out[i].at
  {
    hide Drain;
    if now != 0 {
      AdvanceFired(m, now);
      var m1, at, out := Tick(m, now), Max(now, m.logical), AdvanceTo(m, now).out;
      forall i | 0 <= i < |out| ensures m.logical < out[i].at <= at {
        KeysOfContains(out, i);
        assert IsDue(m1, out[i].key, at) && out[i].key !in DueKeys(m, m.logical);
        assert TimerFired(out[i]) == KeyTimer(m1, out[i].key);
      }
      forall i, j | 0 <= i < j < |out| ensures out[i].at <= out[j].at {
        assert LessTimer(TimerFired(out[i]), TimerFired(out[j]));
      }
    }
  }

  lemma AbsorbTimed(m: Machine, o: Observation)
    requires Settled(m)
    ensures TimedStep(m, Absorb(m, o))
  {
    AbsorbTracker(m, o);
    AbsorbJournal(m, o);
    var st := Absorb(m, o);
    forall k | k in st.machine.states ensures !IsDue(st.machine, k, m.logical) {
      assert k in m.states ==> k !in DueKeys(m, m.logical);
    }
  }

  lemma AbsorbJournal(m: Machine, o: Observation)
    ensures Absorb(m, o).machine.journal == m.journal + Absorb(m, o).out
    ensures |Absorb(m, o).out| <= 1
  {
  }

  lemma TimedCompose(m: Machine, first: Step, second: Step)
    requires TimedStep(m, first) && TimedStep(first.machine, second)
    ensures TimedStep(m, Step(second.machine, first.out + second.out))
  {
    var out := first.out + second.out;
    assert second.machine.journal == m.journal + out;
    forall i, j | 0 <= i < j < |out| ensures out[i].at <= out[j].at {
      if i < |first.out| <= j {
        assert first.out[i].at <= first.machine.logical <= second.out[j - |first.out|].at;
      }
    }
  }

  lemma ApplyTimed(m: Machine, o: Observation)
    requires Settled(m)
    ensures TimedStep(m, ApplyTo(m, o))
  {
    hide AdvanceTo, Absorb;
    if Accepts(m, o) {
      var m1 := Admit(m, o);
      assert DueKeys(m1, m1.logical) == DueKeys(m, m.logical);
      var advanced := AdvanceTo(m1, ProcessingTime(o));
      AdvanceTimed(m1, ProcessingTime(o));
      AbsorbTimed(advanced.machine, o);
      TimedCompose(m1, advanced, Absorb(advanced.machine, o));
    }
  }

  predicate NoFire(ops: seq<Op>) { forall i | 0 <= i < |ops| :: !ops[i].FireOp? }

  lemma PerformTimed(m: Machine, op: Op)
    requires Settled(m) && !op.FireOp?
    ensures TimedStep(m, Perform(m, op))
  {
    match op
    case ApplyOp(o) => ApplyTimed(m, o);
    case AdvanceOp(now) => AdvanceTimed(m, now);
  }

  /** Whole-run time order: over any sequence of Apply and Advance, late evidence included,
      commit times do not decrease, never pass the clock, and nothing is left overdue. */
  lemma {:induction false} RunTimed(c: RuleConfig, ops: seq<Op>)
    requires NoFire(ops)
    ensures Settled(Run(Init(c), ops).machine) && Ordered(Run(Init(c), ops).machine)
    ensures Run(Init(c), ops).machine.journal == Run(Init(c), ops).out
  {
    if ops == [] {
    } else {
      var n := |ops| - 1;
      assert NoFire(ops[..n]);
      RunTimed(c, ops[..n]);
      var m := Run(Init(c), ops[..n]).machine;
      PerformTimed(m, ops[n]);
      var st := Perform(m, ops[n]);
      OrderedAppend(m.journal, st.out, m.logical, st.machine.logical);
    }
  }

  /** A single Fire may leave others overdue: it keeps the machine settled exactly when every
      timer due by its clock is the one it accepts. */
  lemma FireSettled(m: Machine, timer: Timer, now: Time)
    requires now != 0
    ensures Settled(FireAt(m, timer, now).machine)
       <==> DueKeys(Tick(m, now), Max(now, m.logical)) <= if FireAccepted(m, timer, now) then {timer.key} else {}
  {
    var m1, at := Tick(m, now), Max(now, m.logical);
    if FireAccepted(m, timer, now) {
      ExpireShrinks(m1, timer.key, at, at);
      assert FireAt(m, timer, now).machine.logical == at;
    }
  }

  // Two five-second timers armed at instant 1; firing one at instant 10 leaves the other overdue.
  lemma FireCanLeaveTimersOverdue(a: ConditionKey, b: ConditionKey)
    requires a != b
    ensures var c := RuleConfig("", 0, 5, 5);
      var o := Observation(a, Trigger, True, 1, 1, 0, 0, "", "");
      var m := ApplyTo(ApplyTo(Init(c), o).machine, o.(key := b)).machine;
      Settled(m) && HasTimer(m, Timer(a, Trigger, 6, 1)) && !Settled(FireAt(m, Timer(a, Trigger, 6, 1), 10).machine)
  {
    var c := RuleConfig("", 0, 5, 5);
    var o := Observation(a, Trigger, True, 1, 1, 0, 0, "", "");
    var o' := o.(key := b);
    ArmsFirst(Init(c), o);
    var m1 := ApplyTo(Init(c), o).machine;
    ArmsFirst(m1, o');
    var m := ApplyTo(m1, o').machine;
    ApplyTimed(Init(c), o);
    ApplyTimed(m1, o');
    FireSettled(m, Timer(a, Trigger, 6, 1), 10);
    assert IsDue(Tick(m, 10), b, 10);
  }

  lemma ArmsFirst(m: Machine, o: Observation)
    requires m.config == RuleConfig("", 0, 5, 5) && m.logical <= 1 && o.key !in m.states
    requires o == Observation(o.key, Trigger, True, 1, 1, 0, 0, "", "")
    requires forall k | k in m.states :: Pending(m.states[k]) ==> DueOf(m.config, m.states[k]) == 6
    ensures var m' := ApplyTo(m, o).machine;
      && m'.config == m.config && m'.logical == 1 && m'.states.Keys == m.states.Keys + {o.key}
      && (forall k | k in m.states :: m'.states[k] == m.states[k])
      && HasTimer(m', Timer(o.key, Trigger, 6, 1))
  {
    assert DueKeys(Tick(m, 1), 1) == {};
    AbsorbTracker(Advanced(m, o), o);
  }

  // ----- qualification: why a transition commits -----

  /** The call starts this very timer: its evidence arms the key, for the attempt that follows the
      last one, from a start that lies the configured duration before the due time. */
  ghost predicate ArmsTimer(m: Machine, op: Op, timer: Timer)
  {
    && Arms(m, op, timer.key, timer.direction)
    && timer.attempt == TrackerAt(Advanced(m, op.o), timer.key).attempt + 1
    && timer.dueAt == StartTime(op.o) + DurationFor(m.config, timer.direction)
  }

  /** Call `a` started the timer, and no call after it and before call `n` denied it. */
  ghost predicate ArmedBy(c: RuleConfig, ops: seq<Op>, a: nat, n: nat, timer: Timer)
    requires n <= |ops|
  {
    && a < |ops| && a <= n && ArmsTimer(After(c, ops, a), ops[a], timer)
    && forall l | a < l < n :: !Denies(After(c, ops, l), ops[l], timer.key, timer.direction)
  }

  // A timer pending after a call was pending before it, undenied, or was started by it.
  lemma PendingCause(m: Machine, op: Op, timer: Timer)
    requires HasTimer(Perform(m, op).machine, timer)
    ensures (HasTimer(m, timer) && !Denies(m, op, timer.key, timer.direction)) || ArmsTimer(m, op, timer)
  {
    hide AdvanceTo, ApplyTo, FireAt, HasTimer, ArmsTimer;
    match op
    case AdvanceOp(now) => PendingAdvance(m, now, timer);
    case FireOp(t, at) => PendingFire(m, t, at, timer);
    case ApplyOp(o) => PendingApply(m, o, timer);
  }

  lemma PendingAdvance(m: Machine, now: Time, timer: Timer)
    requires HasTimer(AdvanceTo(m, now).machine, timer)
    ensures HasTimer(m, timer)
  {
    if now != 0 { AdvanceTracker(m, now, timer.key); }
  }

  lemma PendingFire(m: Machine, t: Timer, at: Time, timer: Timer)
    requires HasTimer(FireAt(m, t, at).machine, timer)
    ensures HasTimer(m, timer)
  {
    hide TransitionID, EpisodeID, RecordEpisode;
  }

  lemma PendingApply(m: Machine, o: Observation, timer: Timer)
    requires HasTimer(ApplyTo(m, o).machine, timer)
    ensures (HasTimer(m, timer) && !Denies(m, ApplyOp(o), timer.key, timer.direction))
            || ArmsTimer(m, ApplyOp(o), timer)
  {
    hide AdvanceTo, Absorb;
    if Accepts(m, o) {
      AdvancedTracker(m, o, timer.key);
      AbsorbTracker(Advanced(m, o), o);
    }
  }

  lemma {:induction false} PendingArmed(c: RuleConfig, ops: seq<Op>, n: nat, timer: Timer) returns (a: nat)
    requires n <= |ops| && HasTimer(After(c, ops, n), timer)
    ensures a < n && ArmedBy(c, ops, a, n, timer)
  {
    hide Perform, Denies, ArmsTimer, HasTimer;
    if n == 0 {
      NothingPending(c, timer);
    } else {
      var m := After(c, ops, n - 1);
      AfterNext(c, ops, n - 1);
      PendingCause(m, ops[n - 1], timer);
      if ArmsTimer(m, ops[n - 1], timer) {
        a := n - 1;
      } else {
        a := PendingArmed(c, ops, n - 1, timer);
      }
    }
  }

  lemma NothingPending(c: RuleConfig, timer: Timer)
    ensures !HasTimer(Run(Init(c), []).machine, timer)
  {
  }

  // A transition a call emits fires a timer pending before it, or one its own evidence started.
  lemma EmissionCause(m: Machine, op: Op, i: nat)
    requires i < |Perform(m, op).out|
    ensures var t := Perform(m, op).out[i];
      || (HasTimer(m, TimerFired(t)) && t.at == t.times.dueAt)
      || (ArmsTimer(m, op, TimerFired(t)) && t.times.dueAt <= t.at)
  {
    hide AdvanceTo, ApplyTo, HasTimer, ArmsTimer;
    match op
    case AdvanceOp(now) => AdvanceEmission(m, now, i);
    case FireOp(timer, at) => FireEmission(m, timer, at);
    case ApplyOp(o) => ApplyEmission(m, o, i);
  }

  lemma FireEmission(m: Machine, timer: Timer, at: Time)
    requires FireAt(m, timer, at).out != []
    ensures var out := FireAt(m, timer, at).out;
      |out| == 1 && HasTimer(m, TimerFired(out[0])) && out[0].at == out[0].times.dueAt
  {
    hide TransitionID, EpisodeID, RecordEpisode;
  }

  lemma ApplyEmission(m: Machine, o: Observation, i: nat)
    requires i < |ApplyTo(m, o).out|
    ensures var t := ApplyTo(m, o).out[i];
      || (HasTimer(m, TimerFired(t)) && t.at == t.times.dueAt)
      || (ArmsTimer(m, ApplyOp(o), TimerFired(t)) && t.times.dueAt <= t.at)
  {
    hide AdvanceTo, Absorb;
    var advanced := AdvanceTo(Admit(m, o), ProcessingTime(o));
    if i < |advanced.out| {
      AdvanceEmission(Admit(m, o), ProcessingTime(o), i);
    } else {
      AdvancedTracker(m, o, o.key);
      AbsorbTracker(Advanced(m, o), o);
    }
  }

  lemma AdvanceEmission(m: Machine, now: Time, i: nat)
    requires i < |AdvanceTo(m, now).out|
    ensures var t := AdvanceTo(m, now).out[i]; HasTimer(m, TimerFired(t)) && t.at == t.times.dueAt
  {
    hide Drain;
    AdvanceFired(m, now);
    var out := AdvanceTo(m, now).out;
    KeysOfContains(out, i);
    assert IsDue(Tick(m, now), out[i].key, Max(now, m.logical));
  }

  /** Every commit of a run fires a timer that one call of the run started, by a True observation of
      its key and direction whose start plus the configured duration is the due time; nothing
      denied that timer in between; and it commits at or after that due time. */
  lemma CommitsQualify(c: RuleConfig, ops: seq<Op>, n: nat, i: nat) returns (a: nat)
    requires n < |ops| && i < |Perform(After(c, ops, n), ops[n]).out|
    ensures var t := Perform(After(c, ops, n), ops[n]).out[i];
      && t.times.dueAt <= t.at && ArmedBy(c, ops, a, n, TimerFired(t))
      && (t.direction == Trigger ==> t.times.dueAt == StartTime(ops[a].o) + c.triggerFor)
      && (t.direction == Clear ==> t.times.dueAt == StartTime(ops[a].o) + c.clearFor)
  {
    hide Perform, Denies, ArmsTimer, HasTimer, After;
    var t := Perform(After(c, ops, n), ops[n]).out[i];
    EmissionCause(After(c, ops, n), ops[n], i);
    if ArmsTimer(After(c, ops, n), ops[n], TimerFired(t)) {
      a := n;
    } else {
      a := PendingArmed(c, ops, n, TimerFired(t));
    }
    ArmedDue(c, ops, a, n, TimerFired(t));
  }

  // The due time of a timer, in the configuration's own durations.
  lemma ArmedDue(c: RuleConfig, ops: seq<Op>, a: nat, n: nat, timer: Timer)
    requires n <= |ops| && ArmedBy(c, ops, a, n, timer)
    ensures ops[a].ApplyOp?
    ensures timer.dueAt
         == StartTime(ops[a].o) + match timer.direction case Trigger => c.triggerFor case Clear => c.clearFor
  {
    hide Run, CanArm, Accepts, Denies;
    ConfigKept(c, ops[..a]);
  }

  // ----- each attempt of a key is started at most once -----

  /** The last attempt of a key that was started or cancelled. */
  function AttemptAt(m: Machine, k: ConditionKey): nat { TrackerAt(m, k).attempt }

  lemma AttemptGrows(m: Machine, op: Op, k: ConditionKey)
    ensures AttemptAt(m, k) <= AttemptAt(Perform(m, op).machine, k)
  {
    hide Drain;
    match op
    case AdvanceOp(now) => if now != 0 { AdvanceTracker(m, now, k); }
    case FireOp(t, at) =>
    case ApplyOp(o) =>
      if Accepts(m, o) {
        AdvancedTracker(m, o, k);
        AbsorbTracker(Advanced(m, o), o);
      }
  }

  lemma ArmingTakes(m: Machine, op: Op, timer: Timer)
    requires ArmsTimer(m, op, timer)
    ensures AttemptAt(m, timer.key) < timer.attempt == AttemptAt(Perform(m, op).machine, timer.key)
  {
    hide Drain;
    AdvancedTracker(m, op.o, timer.key);
    AbsorbTracker(Advanced(m, op.o), op.o);
  }

  /** Attempts never go back over a run. */
  lemma {:induction false} AttemptsGrow(c: RuleConfig, ops: seq<Op>, i: nat, j: nat, k: ConditionKey)
    requires i <= j <= |ops|
    ensures AttemptAt(After(c, ops, i), k) <= AttemptAt(After(c, ops, j), k)
  {
    hide Perform, AttemptAt;
    if i < j {
      AttemptsGrow(c, ops, i, j - 1, k);
      AfterNext(c, ops, j - 1);
      AttemptGrows(After(c, ops, j - 1), ops[j - 1], k);
    }
  }

  /** Two calls of a run that start the same attempt of a key are one call, and start one timer: so
      the call that `CommitsQualify` names is the only one behind its commit. */
  lemma ArmedOnce(c: RuleConfig, ops: seq<Op>, p: nat, q: nat, timer: Timer, timer': Timer)
    requires p < |ops| && ArmsTimer(After(c, ops, p), ops[p], timer)
    requires q < |ops| && ArmsTimer(After(c, ops, q), ops[q], timer')
    requires timer.key == timer'.key && timer.attempt == timer'.attempt
    ensures p == q && timer == timer'
  {
    if p < q {
      ArmedBefore(c, ops, p, q, timer, timer');
    } else if q < p {
      ArmedBefore(c, ops, q, p, timer', timer);
    }
  }

  // The later of two calls starts a later attempt.
  lemma ArmedBefore(c: RuleConfig, ops: seq<Op>, p: nat, q: nat, timer: Timer, timer': Timer)
    requires p < q < |ops| && timer.key == timer'.key
    requires ArmsTimer(After(c, ops, p), ops[p], timer) && ArmsTimer(After(c, ops, q), ops[q], timer')
    ensures timer.attempt < timer'.attempt
  {
    hide Perform, AttemptAt, ArmsTimer;
    ArmingTakes(After(c, ops, p), ops[p], timer);
    ArmingTakes(After(c, ops, q), ops[q], timer');
    AfterNext(c, ops, p);
    AttemptsGrow(c, ops, p + 1, q, timer.key);
  }

  lemma PerformConfig(m: Machine, op: Op)
    ensures Perform(m, op).machine.config == m.config
  {
    hide Drain;
    match op
    case AdvanceOp(now) => if now != 0 { AdvanceFired(m, now); }
    case FireOp(t, at) =>
    case ApplyOp(o) =>
      if Accepts(m, o) {
        AdvancedTracker(m, o, o.key);
        AbsorbTracker(Advanced(m, o), o);
      }
  }

  lemma {:induction false} ConfigKept(c: RuleConfig, ops: seq<Op>)
    ensures Run(Init(c), ops).machine.config == c
  {
    if ops == [] {
    } else {
      ConfigKept(c, ops[..|ops| - 1]);
      PerformConfig(Run(Init(c), ops[..|ops| - 1]).machine, ops[|ops| - 1]);
    }
  }

  // ----- fulfilment: a pending timer commits when the clock reaches it -----

  ghost predicate CommitsAtDue(out: seq<Transition>, timer: Timer)
  {
    exists i: nat :: i < |out| && TimerFired(out[i]) == timer && out[i].at == timer.dueAt
  }

  lemma {:induction false} KeysOfIndex(out: seq<Transition>, k: ConditionKey) returns (i: nat)
    requires k in KeysOf(out)
    ensures i < |out| && out[i].key == k
  {
    if out[0].key == k { i := 0; } else {
      i := KeysOfIndex(out[1..], k);
      i := i + 1;
    }
  }

  lemma AdvanceFate(m: Machine, now: Time, timer: Timer)
    requires HasTimer(m, timer)
    ensures var st := AdvanceTo(m, now);
      if st.machine.logical < timer.dueAt || now == 0 then HasTimer(st.machine, timer)
      else CommitsAtDue(st.out, timer)
  {
    hide Drain;
    if now != 0 {
      var out, m1, at := AdvanceTo(m, now).out, Tick(m, now), Max(now, m.logical);
      AdvanceTracker(m, now, timer.key);
      AdvanceFired(m, now);
      if timer.dueAt <= at {
        assert IsDue(m1, timer.key, at);
        var i := KeysOfIndex(out, timer.key);
        assert TimerFired(out[i]) == KeyTimer(m1, timer.key) == timer;
      }
    }
  }

  /** What one Apply or Advance does with a pending timer: commit it once the clock reaches its
      due time, before that call's own evidence; otherwise keep it unless denied. */
  lemma TimerFate(m: Machine, op: Op, timer: Timer)
    requires HasTimer(m, timer) && Settled(m) && !op.FireOp?
    ensures var st := Perform(m, op);
      if timer.dueAt <= st.machine.logical then CommitsAtDue(st.out, timer)
      else if Denies(m, op, timer.key, timer.direction) then !HasTimer(st.machine, timer) && Spent(st.machine, timer)
      else HasTimer(st.machine, timer)
  {
    hide Drain;
    assert timer.key !in DueKeys(m, m.logical);
    match op
    case AdvanceOp(now) => AdvanceFate(m, now, timer);
    case ApplyOp(o) =>
      if Accepts(m, o) {
        var m1 := Admit(m, o);
        assert HasTimer(m1, timer);
        AdvanceFate(m1, ProcessingTime(o), timer);
        var advanced := AdvanceTo(m1, ProcessingTime(o));
        AbsorbTracker(advanced.machine, o);
        if timer.dueAt <= advanced.machine.logical {
          var i: nat :| i < |advanced.out| && TimerFired(advanced.out[i]) == timer && advanced.out[i].at == timer.dueAt;
          assert Perform(m, op).out[i] == advanced.out[i];
        }
      }
  }

  /** Call `l` denies the timer while the clock is still short of its due time. */
  ghost predicate DeniedInTime(c: RuleConfig, ops: seq<Op>, l: nat, timer: Timer)
  {
    && l < |ops|
    && Denies(After(c, ops, l), ops[l], timer.key, timer.direction)
    && After(c, ops, l + 1).logical < timer.dueAt
  }

  lemma PendingNotDue(m: Machine, timer: Timer)
    requires Settled(m) && HasTimer(m, timer)
    ensures m.logical < timer.dueAt
  {
    assert timer.key !in DueKeys(m, m.logical);
  }

  /** From a state with the timer pending, and undenied in time, the run keeps it pending until
      the call that brings the clock to its due time, and that call commits it at that time. */
  lemma {:induction false} TimerFulfilled(c: RuleConfig, ops: seq<Op>, i: nat, j: nat, timer: Timer)
    requires NoFire(ops) && i <= j <= |ops|
    requires HasTimer(After(c, ops, i), timer)
    requires forall l | i <= l < j :: !DeniedInTime(c, ops, l, timer)
    ensures if After(c, ops, j).logical < timer.dueAt then HasTimer(After(c, ops, j), timer)
            else exists l | i <= l < j :: CommitsAtDue(Perform(After(c, ops, l), ops[l]).out, timer)
    decreases j
  {
    hide Perform, Settled;
    RunTimed(c, ops[..i]);
    if i == j {
      PendingNotDue(After(c, ops, i), timer);
    } else {
      var n := j - 1;
      TimerFulfilled(c, ops, i, n, timer);
      AfterNext(c, ops, n);
      RunTimed(c, ops[..n]);
      PerformTimed(After(c, ops, n), ops[n]);
      if After(c, ops, n).logical < timer.dueAt {
        TimerFate(After(c, ops, n), ops[n], timer);
        assert !DeniedInTime(c, ops, n, timer);
      }
    }
  }

  /** No attempt of a key commits twice in any run. */
  lemma AttemptCommitsOnce(c: RuleConfig, ops: seq<Op>, k: ConditionKey, i: nat, j: nat)
    requires var h := History(Run(Init(c), ops).machine.journal, k);
      i < |h| && j < |h| && h[i].attempt == h[j].attempt
    ensures i == j
  {
    InvRun(c, ops);
    assert KeyOK(Run(Init(c), ops).machine, k);
  }
}
