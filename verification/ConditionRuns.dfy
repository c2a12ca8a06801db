/** Whole runs of the condition machine: any sequence of calls on a new reducer. */
module ConditionRuns {
  import opened Conditions
  import opened ConditionHistory

  datatype Op = ApplyOp(o: Observation) | AdvanceOp(now: Time) | FireOp(timer: Timer, at: Time)

  ghost function Perform(m: Machine, op: Op): Step
  {
    match op
    case ApplyOp(o) => ApplyTo(m, o)
    case AdvanceOp(now) => AdvanceTo(m, now)
    case FireOp(timer, at) => FireAt(m, timer, at)
  }

  ghost function Run(m: Machine, ops: seq<Op>): Step
  {
    if ops == [] then Step(m, [])
    else
      var before := Run(m, ops[..|ops| - 1]);
      var last := Perform(before.machine, ops[|ops| - 1]);
      Step(last.machine, before.out + last.out)
  }

  // The state of a new reducer after the first `i` calls.
  ghost function After(c: RuleConfig, ops: seq<Op>, i: nat): Machine
    requires i <= |ops|
  {
    Run(Init(c), ops[..i]).machine
  }

  lemma AfterNext(c: RuleConfig, ops: seq<Op>, i: nat)
    requires i < |ops|
    ensures After(c, ops, i + 1) == Perform(After(c, ops, i), ops[i]).machine
  {
    assert ops[..i + 1][..i] == ops[..i];
  }

  lemma AfterPrefix(c: RuleConfig, ops: seq<Op>, n: nat, i: nat)
    requires i <= n <= |ops|
    ensures After(c, ops[..n], i) == After(c, ops, i)
  {
    assert ops[..n][..i] == ops[..i];
  }

  // ----- the invariant holds after any mix of calls -----

  lemma InvPerform(m: Machine, op: Op)
    requires Inv(m)
    ensures Inv(Perform(m, op).machine)
  {
    match op
    case ApplyOp(o) => InvApply(m, o);
    case AdvanceOp(now) => InvAdvance(m, now);
    case FireOp(timer, at) => InvFire(m, timer, at);
  }

  /** Episodes and histories are well formed after any mix of Apply, Advance and Fire. */
  lemma {:induction false} InvRun(c: RuleConfig, ops: seq<Op>)
    ensures Inv(Run(Init(c), ops).machine)
  {
    if ops == [] {
      InvInit(c);
    } else {
      InvRun(c, ops[..|ops| - 1]);
      InvPerform(Run(Init(c), ops[..|ops| - 1]).machine, ops[|ops| - 1]);
    }
  }

  // ----- what one call does to one tracker -----

  // The machine on which an accepted observation's evidence is absorbed.
  ghost function Advanced(m: Machine, o: Observation): Machine
  {
    AdvanceTo(Admit(m, o), ProcessingTime(o)).machine
  }

  /** The observation starts the timer of its key and direction. */
  ghost predicate Arms(m: Machine, op: Op, k: ConditionKey, d: Direction)
  {
    && op.ApplyOp? && Accepts(m, op.o) && op.o.key == k && op.o.direction == d
    && CanArm(TrackerAt(Advanced(m, op.o), k), op.o)
  }

  /** The observation is evidence against the qualifying interval of `k` in direction `d`. */
  predicate Denies(m: Machine, op: Op, k: ConditionKey, d: Direction)
  {
    op.ApplyOp? && Accepts(m, op.o) && op.o.key == k && op.o.direction == d && op.o.result != True
  }

  predicate HasTimer(m: Machine, timer: Timer)
  {
    timer.key in m.states && Pending(m.states[timer.key]) && KeyTimer(m, timer.key) == timer
  }

  lemma AdvanceFired(m: Machine, now: Time)
    requires now != 0
    ensures var m1 := Tick(m, now); var at := Max(now, m.logical);
      && Fired(m1, AdvanceTo(m, now).machine, DueKeys(m1, at), AdvanceTo(m, now).out)
      && FiredInOrder(AdvanceTo(m, now).out)
      && FiresTimersOf(m1, at, AdvanceTo(m, now).out)
      && KeysOf(AdvanceTo(m, now).out) == DueKeys(m1, at)
      && DueKeys(AdvanceTo(m, now).machine, at) == {}
  {
    DrainFired(Tick(m, now), Max(now, m.logical));
    DrainExact(Tick(m, now), Max(now, m.logical));
  }

  // After an advance a tracker is either untouched or spent.
  lemma AdvanceTracker(m: Machine, now: Time, k: ConditionKey)
    requires now != 0
    ensures var m' := AdvanceTo(m, now).machine; var at := Max(now, m.logical);
      && m'.logical == at && m'.config == m.config && m'.seen == m.seen
      && (k in m'.states <==> k in m.states)
      && (k in m.states ==>
          if IsDue(m, k, at)
          then m'.states[k].phase == SpentPhase(m.states[k].phase) && m'.states[k].attempt == m.states[k].attempt
          else m'.states[k] == m.states[k])
  {
    AdvanceFired(m, now);
    assert IsDue(Tick(m, now), k, Max(now, m.logical)) == IsDue(m, k, Max(now, m.logical));
  }

  lemma AdvancedTracker(m: Machine, o: Observation, k: ConditionKey)
    requires Accepts(m, o)
    ensures var m' := Advanced(m, o); var at := Max(ProcessingTime(o), m.logical);
      && m'.logical == at && m'.config == m.config
      && (k in m'.states <==> k in m.states)
      && (k in m.states ==>
          if IsDue(m, k, at)
          then m'.states[k].phase == SpentPhase(m.states[k].phase) && m'.states[k].attempt == m.states[k].attempt
          else m'.states[k] == m.states[k])
  {
    AdvanceTracker(Admit(m, o), ProcessingTime(o), k);
    assert IsDue(Admit(m, o), k, Max(ProcessingTime(o), m.logical)) == IsDue(m, k, Max(ProcessingTime(o), m.logical));
  }

  /** How absorbing evidence moves the tracker of its key. */
  lemma AbsorbTracker(m: Machine, o: Observation)
    ensures var s, st := TrackerAt(m, o.key), Absorb(m, o);
        var due := StartTime(o) + DurationFor(m.config, o.direction);
      && st.machine.logical == m.logical && st.machine.config == m.config
      && st.machine.states.Keys == m.states.Keys + {o.key}
      && (forall j | j in m.states && j != o.key :: st.machine.states[j] == m.states[j])
      && var s' := st.machine.states[o.key];
        if CanArm(s, o) then
          && s'.attempt == s.attempt + 1
          && (if due <= m.logical
              then !Pending(s') && |st.out| == 1
                && TimerFired(st.out[0]) == Timer(o.key, o.direction, due, s.attempt + 1)
                   && st.out[0].at == m.logical
              else s'.phase == PhaseFor(o.direction) && s'.startedAt == StartTime(o) && st.out == [])
        else if MustCancel(s, o) then s'.attempt == s.attempt + 1 && !Pending(s') && st.out == []
        else s'.attempt == s.attempt && s'.phase == s.phase && s'.startedAt == s.startedAt && st.out == []
  {
    hide TransitionID, EpisodeID, RecordEpisode;
  }

  // ----- the stale-timer fence -----

  /** The timer was issued for an attempt that has since fired or been cancelled. */
  predicate Spent(m: Machine, timer: Timer)
  {
    && timer.key in m.states
    && var s := m.states[timer.key];
       timer.attempt < s.attempt || (timer.attempt == s.attempt && !Pending(s))
  }

  lemma SpentAdvance(m: Machine, now: Time, timer: Timer)
    requires Spent(m, timer)
    ensures Spent(AdvanceTo(m, now).machine, timer)
    ensures forall i | 0 <= i < |AdvanceTo(m, now).out| ::
      AdvanceTo(m, now).out[i].key == timer.key ==> AdvanceTo(m, now).out[i].attempt != timer.attempt
  {
    if now != 0 {
      AdvanceTracker(m, now, timer.key);
      AdvanceFired(m, now);
      var out := AdvanceTo(m, now).out;
      forall i | 0 <= i < |out| ensures out[i].key == timer.key ==> out[i].attempt != timer.attempt {
        KeysOfContains(out, i);
        assert TimerFired(out[i]) == KeyTimer(Tick(m, now), out[i].key);
      }
    }
  }

  /** A spent timer stays spent through any call, and the call commits nothing for its attempt. */
  lemma SpentPerform(m: Machine, op: Op, timer: Timer)
    requires Spent(m, timer)
    ensures Spent(Perform(m, op).machine, timer)
    ensures forall i | 0 <= i < |Perform(m, op).out| ::
      Perform(m, op).out[i].key == timer.key ==> Perform(m, op).out[i].attempt != timer.attempt
  {
    hide FireAt, ApplyTo;
    match op
    case AdvanceOp(now) => SpentAdvance(m, now, timer);
    case FireOp(t, at) => SpentFire(m, t, at, timer);
    case ApplyOp(o) => SpentApply(m, o, timer);
  }

  lemma SpentFire(m: Machine, t: Timer, at: Time, timer: Timer)
    requires Spent(m, timer)
    ensures Spent(FireAt(m, t, at).machine, timer)
    ensures forall i | 0 <= i < |FireAt(m, t, at).out| ::
      FireAt(m, t, at).out[i].key == timer.key ==> FireAt(m, t, at).out[i].attempt != timer.attempt
  {
    hide TransitionID, EpisodeID;
  }

  lemma SpentApply(m: Machine, o: Observation, timer: Timer)
    requires Spent(m, timer)
    ensures Spent(ApplyTo(m, o).machine, timer)
    ensures forall i | 0 <= i < |ApplyTo(m, o).out| ::
      ApplyTo(m, o).out[i].key == timer.key ==> ApplyTo(m, o).out[i].attempt != timer.attempt
  {
    hide AdvanceTo, Absorb;
    if Accepts(m, o) {
      SpentAdvance(Admit(m, o), ProcessingTime(o), timer);
      AbsorbTracker(Advanced(m, o), o);
    }
  }

  /** Over any further run, including any re-arming, a spent timer never commits again. */
  lemma {:induction false} StaleTimerNeverFires(m: Machine, timer: Timer, ops: seq<Op>, at: Time)
    requires Spent(m, timer)
    ensures Spent(Run(m, ops).machine, timer)
    ensures FireAt(Run(m, ops).machine, timer, at).out == []
  {
    if ops == [] {
    } else {
      StaleTimerNeverFires(m, timer, ops[..|ops| - 1], at);
      SpentPerform(Run(m, ops[..|ops| - 1]).machine, ops[|ops| - 1], timer);
    }
  }

  /** A timer pending before a run is pending after it or spent, and if it is not pending then it
      commits nothing ever after, whatever follows. */
  lemma {:induction false} GoneIsSpent(m: Machine, ops: seq<Op>, timer: Timer)
    requires HasTimer(m, timer)
    ensures var m' := Run(m, ops).machine;
      && (HasTimer(m', timer) || Spent(m', timer))
      && (!HasTimer(m', timer) ==> forall more, at :: FireAt(Run(m', more).machine, timer, at).out == [])
  {
    hide Perform, FireAt, HasTimer, Spent;
    var m' := Run(m, ops).machine;
    if ops != [] {
      var n := |ops| - 1;
      GoneIsSpent(m, ops[..n], timer);
      if HasTimer(Run(m, ops[..n]).machine, timer) {
        GoneByCall(Run(m, ops[..n]).machine, ops[n], timer);
      } else {
        SpentPerform(Run(m, ops[..n]).machine, ops[n], timer);
      }
    }
    if !HasTimer(m', timer) {
      forall more, at ensures FireAt(Run(m', more).machine, timer, at).out == [] {
        StaleTimerNeverFires(m', timer, more, at);
      }
    }
  }

  // A pending timer that a call fires or cancels is spent from then on.
  lemma GoneByCall(m: Machine, op: Op, timer: Timer)
    requires HasTimer(m, timer)
    ensures HasTimer(Perform(m, op).machine, timer) || Spent(Perform(m, op).machine, timer)
  {
    hide Commit, AdvanceTo, ApplyTo, FireAt;
    match op
    case AdvanceOp(now) => GoneByAdvance(m, now, timer);
    case FireOp(t, at) => GoneByFire(m, t, at, timer);
    case ApplyOp(o) => GoneByApply(m, o, timer);
  }

  lemma GoneByAdvance(m: Machine, now: Time, timer: Timer)
    requires HasTimer(m, timer)
    ensures HasTimer(AdvanceTo(m, now).machine, timer) || Spent(AdvanceTo(m, now).machine, timer)
  {
    if now != 0 { AdvanceTracker(m, now, timer.key); }
  }

  lemma GoneByFire(m: Machine, t: Timer, at: Time, timer: Timer)
    requires HasTimer(m, timer)
    ensures HasTimer(FireAt(m, t, at).machine, timer) || Spent(FireAt(m, t, at).machine, timer)
  {
    hide TransitionID, EpisodeID;
  }

  lemma GoneByApply(m: Machine, o: Observation, timer: Timer)
    requires HasTimer(m, timer)
    ensures HasTimer(ApplyTo(m, o).machine, timer) || Spent(ApplyTo(m, o).machine, timer)
  {
    hide AdvanceTo, Absorb;
    if Accepts(m, o) {
      AdvancedTracker(m, o, timer.key);
      AbsorbTracker(Advanced(m, o), o);
    }
  }
}
