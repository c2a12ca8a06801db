/** The converse of qualification: a condition that is True long enough does commit. */
module ReplayFulfilment {
  import opened Wrappers
  import opened Bytes
  import opened Conditions
  import opened ConditionRuns
  import opened ConditionTiming
  import opened Events
  import Rules
  import RulePlans
  import opened EvaluationMerge
  import opened Evaluation
  import opened EvaluationRuntime
  import opened PipelineCoupling
  import opened Pipeline
  import opened PipelineIntake
  import opened ReplayTrace
  import opened ReplayQualification
  import opened FileEvidence
  import opened ReplayMeaning

  /** The key can start an interval of this direction: it is inactive, or active, and has no timer. */
  predicate Waiting(m: Machine, k: ConditionKey, d: Direction)
  {
    match d
    case Trigger => k in m.states ==> m.states[k].phase == Inactive
    case Clear => k in m.states && m.states[k].phase == Active
  }

  lemma WaitsOn(m: Machine, now: Time, k: ConditionKey, d: Direction)
    requires Waiting(m, k, d)
    ensures Waiting(AdvanceTo(m, now).machine, k, d)
  {
    if now != 0 { AdvanceTracker(m, now, k); }
  }

  lemma WaitsThrough(m: Machine, o: Observation, k: ConditionKey, d: Direction)
    requires Waiting(m, k, d) && !(o.key == k && o.direction == d)
    ensures Waiting(Absorb(m, o).machine, k, d)
  {
    hide TransitionID, EpisodeID, RecordEpisode;
  }

  // Only its own evidence moves a waiting key.
  lemma WaitingStep(m: Machine, op: Op, k: ConditionKey, d: Direction)
    requires Waiting(m, k, d) && !op.FireOp? && !(op.ApplyOp? && op.o.key == k && op.o.direction == d)
    ensures Waiting(Perform(m, op).machine, k, d)
  {
    hide AdvanceTo, Absorb, Waiting;
    match op
    case AdvanceOp(now) => WaitsOn(m, now, k, d);
    case ApplyOp(o) =>
      if Accepts(m, o) {
        AdmitWaits(m, o, k, d);
        WaitsOn(Admit(m, o), ProcessingTime(o), k, d);
        WaitsThrough(ConditionRuns.Advanced(m, o), o, k, d);
      }
  }

  lemma AdmitWaits(m: Machine, o: Observation, k: ConditionKey, d: Direction)
    ensures Waiting(Admit(m, o), k, d) <==> Waiting(m, k, d)
  {
  }

  lemma {:induction false} WaitingRun(c: RuleConfig, ops: seq<Op>, p: nat, q: nat, k: ConditionKey, d: Direction)
    requires NoFire(ops) && p <= q <= |ops| && Waiting(After(c, ops, p), k, d)
    requires forall n | p <= n < q && ops[n].ApplyOp? :: !(ops[n].o.key == k && ops[n].o.direction == d)
    ensures Waiting(After(c, ops, q), k, d)
  {
    hide Perform, Waiting;
    if p < q {
      WaitingRun(c, ops, p, q - 1, k, d);
      AfterNext(c, ops, q - 1);
      WaitingStep(After(c, ops, q - 1), ops[q - 1], k, d);
    }
  }

  /** A timer's start, or its commit on the spot. */
  ghost predicate StartsOrCommits(m: Machine, o: Observation, due: Time)
  {
    var st := ApplyTo(m, o);
    if due <= st.machine.logical then exists t :: t in st.out && CommitsDue(t, o.key, o.direction, due)
    else exists timer :: HasTimer(st.machine, timer) && TimerIs(timer, o.key, o.direction, due)
  }

  predicate TimerIs(timer: Timer, k: ConditionKey, d: Direction, due: Time)
  {
    timer.key == k && timer.direction == d && timer.dueAt == due
  }

  predicate CommitsDue(t: Transition, k: ConditionKey, d: Direction, due: Time)
  {
    t.key == k && t.direction == d && t.times.dueAt == due && due <= t.at
  }

  lemma TrueStarts(m: Machine, o: Observation)
    requires Waiting(m, o.key, o.direction) && Accepts(m, o) && o.result == True
    ensures StartsOrCommits(m, o, StartTime(o) + DurationFor(m.config, o.direction))
  {
    hide AdvanceTo, Absorb;
    AdmitWaits(m, o, o.key, o.direction);
    WaitsOn(Admit(m, o), ProcessingTime(o), o.key, o.direction);
    var before, due := ConditionRuns.Advanced(m, o), StartTime(o) + DurationFor(m.config, o.direction);
    AdvancedTracker(m, o, o.key);
    AbsorbTracker(before, o);
    var st := Absorb(before, o);
    if due <= before.logical {
      assert st.out[0] in ApplyTo(m, o).out;
      assert TimerFired(st.out[0]).key == o.key;
      assert CommitsDue(st.out[0], o.key, o.direction, due);
    } else {
      var timer := KeyTimer(st.machine, o.key);
      assert HasTimer(ApplyTo(m, o).machine, timer) && TimerIs(timer, o.key, o.direction, due);
    }
  }

  // ----- within a replay -----

  // No call of event `a` before the rule's own observation is evidence of its key and direction.
  lemma OnlyOnce(rules: seq<Rule>, es: seq<Envelope>, ps: Policies, ss: seq<Replay>, i: nat, p: nat, q: nat)
    requires Trace(rules, es, ps, ss) && DistinctLines(es) && i < |rules|
    requires var c := ConfigOf(rules[i]); var ops, ev := RuleOps(rules, es, ss, c), RuleEvents(rules, es, ss, c);
      p < q < |ops| && ops[p].ApplyOp? && ops[q].ApplyOp? && ev[p] == ev[q]
    ensures var ops := RuleOps(rules, es, ss, ConfigOf(rules[i]));
      !(ops[p].o.key == ops[q].o.key && ops[p].o.direction == ops[q].o.direction)
  {
    hide Process, RuleOps, RuleEvents, DistinctLines, ObservedOn, ConfigOf, Running, ObservationID;
    var c := ConfigOf(rules[i]);
    FrontCaused(rules, es, ps, ss, c, p);
    FrontCaused(rules, es, ps, ss, c, q);
    RuleOpsDistinct(rules, es, ps, ss, c);
    var ops := RuleOps(rules, es, ss, c);
    assert ops[p].o.observationID != ops[q].o.observationID;
  }

  // The call that applies the rule's observation of event `a`, with the key still waiting.
  lemma WaitingCall(rules: seq<Rule>, es: seq<Envelope>, ps: Policies, ss: seq<Replay>, i: nat, a: nat, x: Observation)
    returns (q: nat)
    requires Trace(rules, es, ps, ss) && DistinctLines(es) && i < |rules| && a < |es| && i < |ss[a].machines|
    requires ForKey(rules[i], x.key) && x in ObservedOn(rules, ss[a], es[a])
    requires Waiting(ss[a].machines[i], x.key, x.direction)
    ensures var c := ConfigOf(rules[i]); var ops, ev := RuleOps(rules, es, ss, c), RuleEvents(rules, es, ss, c);
      && q < |ops| && ops[q] == ApplyOp(x) && ev[q] == a && Accepts(After(c, ops, q), x)
      && Waiting(After(c, ops, q), x.key, x.direction)
  {
    hide Process, RuleOps, RuleEvents, DistinctLines, ObservedOn, ConfigOf, Running, Accepts, After, Waiting;
    var c := ConfigOf(rules[i]);
    var ops := RuleOps(rules, es, ss, c);
    q := OpAt(rules, es, ss, c, a, x);
    ReplayAccepts(rules, es, ps, ss, i, q);
    CallWithin(rules, es, ss, c, q);
    MachineBefore(rules, es, ps, ss, i, a);
    NoFireOps(rules, es, ss, c);
    var p := |RuleOps(rules, es[..a], ss[..a + 1], c)|;
    forall n | p <= n < q && ops[n].ApplyOp? ensures !(ops[n].o.key == x.key && ops[n].o.direction == x.direction) {
      LaterEvents(rules, es, ss, c, a, n);
      EventsRise(rules, es, ss, c, n, q);
      OnlyOnce(rules, es, ps, ss, i, n, q);
    }
    WaitingRun(c, ops, p, q, x.key, x.direction);
  }

  // The machine of a rule at the end of a replay, as the end of the rule's own run.
  lemma MachineAtEnd(rules: seq<Rule>, es: seq<Envelope>, ps: Policies, ss: seq<Replay>, i: nat)
    requires Trace(rules, es, ps, ss) && i < |rules|
    ensures var c := ConfigOf(rules[i]); var ops := RuleOps(rules, es, ss, c);
      && |ss[|es|].machines| == |rules| && ss[|es|].machines[i] == After(c, ops, |ops|)
      && After(c, ops, |ops|).logical == ss[|es|].logical
      && forall t | t in Run(Init(c), ops).out :: t in ss[|es|].stream
  {
    hide Process, RuleOps, Run, Activated, OfRule, ProcessAll;
    var c := ConfigOf(rules[i]);
    var ops := RuleOps(rules, es, ss, c);
    ReplayIsRun(rules, es, ps, ss, i);
    assert ops[..|ops|] == ops;
    TraceEnds(rules, es, ps, ss);
    assert Running(rules, ProcessAll(rules, es, ps).value);
    forall t | t in Run(Init(c), ops).out ensures t in ss[|es|].stream { OfRuleWithin(ss[|es|].stream, c, t); }
  }

  /** What the whole replay makes of a timer that call `q` left pending, or of a commit it made. */
  lemma StartedFulfilled(rules: seq<Rule>, es: seq<Envelope>, ps: Policies, ss: seq<Replay>, i: nat, q: nat, due: Time)
    returns (timer: Timer)
    requires Trace(rules, es, ps, ss) && i < |rules|
    requires var c := ConfigOf(rules[i]); var ops := RuleOps(rules, es, ss, c);
      && q < |ops| && ops[q].ApplyOp? && StartsOrCommits(After(c, ops, q), ops[q].o, due)
      && forall l, t | q < l < |ops| && TimerIs(t, ops[q].o.key, ops[q].o.direction, due) :: !DeniedInTime(c, ops, l, t)
    ensures var o := RuleOps(rules, es, ss, ConfigOf(rules[i]))[q].o;
      if due <= ss[|es|].logical then exists t :: t in ss[|es|].stream && CommitsDue(t, o.key, o.direction, due)
      else i < |ss[|es|].machines| && HasTimer(ss[|es|].machines[i], timer) && TimerIs(timer, o.key, o.direction, due)
  {
    hide Process, RuleOps, After, Running, Activated, HasTimer, ApplyTo, DeniedInTime, ConfigOf, Run;
    var c := ConfigOf(rules[i]);
    var ops := RuleOps(rules, es, ss, c);
    var o := ops[q].o;
    timer := Timer(o.key, o.direction, due, 0);
    MachineAtEnd(rules, es, ps, ss, i);
    NoFireOps(rules, es, ss, c);
    AfterNext(c, ops, q);
    ClockGrows(c, ops, q + 1, |ops|);
    var st := ApplyTo(After(c, ops, q), o);
    if due <= st.machine.logical {
      var t :| t in st.out && CommitsDue(t, o.key, o.direction, due);
      EmittedInRun(c, ops, q, t);
    } else {
      timer :| HasTimer(st.machine, timer) && TimerIs(timer, o.key, o.direction, due);
      TimerFulfilled(c, ops, q + 1, |ops|, timer);
      if due <= ss[|es|].logical {
        var l :| q + 1 <= l < |ops| && CommitsAtDue(Perform(After(c, ops, l), ops[l]).out, timer);
        var out := Perform(After(c, ops, l), ops[l]).out;
        var e: nat :| e < |out| && TimerFired(out[e]) == timer && out[e].at == timer.dueAt;
        EmittedInRun(c, ops, l, out[e]);
        assert CommitsDue(out[e], o.key, o.direction, due);
      }
    }
  }

  lemma EmittedInRun(c: RuleConfig, ops: seq<Op>, q: nat, t: Transition)
    requires q < |ops| && t in Perform(After(c, ops, q), ops[q]).out
    ensures t in Run(Init(c), ops).out
  {
    hide Perform, Run;
    OutHas(Init(c), ops, q, t);
  }

  lemma {:induction false} ClockGrows(c: RuleConfig, ops: seq<Op>, p: nat, q: nat)
    requires NoFire(ops) && p <= q <= |ops|
    ensures After(c, ops, p).logical <= After(c, ops, q).logical
  {
    hide Perform, Settled;
    if p < q {
      ClockGrows(c, ops, p, q - 1);
      AfterNext(c, ops, q - 1);
      RunTimed(c, ops[..q - 1]);
      PerformTimed(After(c, ops, q - 1), ops[q - 1]);
    }
  }

  // The definition of the rule is True of the key's subject at event `n`, in this direction.
  ghost predicate TrueFor(v: ActiveRule, k: ConditionKey, d: Direction, es: seq<Envelope>, n: nat)
    requires n < |es|
  {
    Concerns(es[n].event, k.subject) && TrueAt(v.definition, d, es, n)
  }

  function DueAfter(v: ActiveRule, d: Direction, es: seq<Envelope>, n: nat): int
    requires n < |es|
  {
    StartAt(d, es, n) + match d case Trigger => v.definition.trigger.for_ case Clear => v.definition.clear.for_
  }

  // The rule's observation of event `a` is True, and starts what is due then.
  lemma TrueObservation(rules: seq<Rule>, es: seq<Envelope>, ps: Policies, ss: seq<Replay>, i: nat, v: ActiveRule,
                        resolver: Option<RulePlans.Groups>, k: ConditionKey, d: Direction, a: nat)
    returns (x: Observation)
    requires Trace(rules, es, ps, ss) && i < |rules| && a < |es|
    requires ActiveOK(v, resolver) && FromActive(rules[i], v, resolver) && ForKey(rules[i], k)
    requires TrueFor(v, k, d, es, a) && k.subject.kind == v.definition.kind
    requires RulePlans.Selected(v.definition, resolver, k.subject.id)
    ensures x in ObservedOn(rules, ss[a], es[a]) && x.key == k && x.direction == d && x.result == True
    ensures StartTime(x) + DurationFor(ConfigOf(rules[i]), d) == DueAfter(v, d, es, a) >= 0
    ensures Targets(rules[i], OccurrenceOf(es[a]))
  {
    hide Process, ObservedOn, Verdict, StartedBy, StartAt, TrueAt, ActiveOK, RulePlans.Selected, ConfigOf, DurationFor;
    ConcernsTarget(es[a].event, k.subject);
    SelectedTargets(rules[i], v, resolver, es[a]);
    x := ObservedThere(rules, ss[a], es[a], i, k, d);
    assert Running(rules, ss[a]) && Process(rules, ss[a], es[a], ps) == Some(ss[a + 1]);
    EventStamped(rules, ss[a], es[a], ps);
    ObservedReads(rules, ss[a], es[a], i, x);
    VerdictIs(rules, es, ps, ss, i, a, v, resolver, d);
    ConditionOf(v.definition);
  }

  lemma SelectedTargets(r: Rule, v: ActiveRule, resolver: Option<RulePlans.Groups>, e: Envelope)
    requires FromActive(r, v, resolver) && Target(e.event).kind == v.definition.kind
    requires RulePlans.Selected(v.definition, resolver, Target(e.event).id)
    ensures Targets(r, OccurrenceOf(e))
  {
  }

  /** A condition that is True long enough commits. Event `a` finds the definition True of a key that has
      no interval running and could start one; every later event about the subject whose clock is short
      of the due time finds it True again. Then once the clock of the replay reaches the due time the
      transition is in the stream, and until then its timer is pending. */
  lemma TrueLongEnough(rules: seq<Rule>, es: seq<Envelope>, ps: Policies, ss: seq<Replay>, i: nat, v: ActiveRule,
                       resolver: Option<RulePlans.Groups>, k: ConditionKey, d: Direction, a: nat)
    returns (timer: Timer)
    requires Trace(rules, es, ps, ss) && DistinctLines(es) && i < |rules| && a < |es|
    requires ActiveOK(v, resolver) && FromActive(rules[i], v, resolver) && ForKey(rules[i], k)
    requires k.subject.kind == v.definition.kind && RulePlans.Selected(v.definition, resolver, k.subject.id)
    requires i < |ss[a].machines| && Waiting(ss[a].machines[i], k, d) && TrueFor(v, k, d, es, a)
    requires forall l | a < l < |es| && Concerns(es[l].event, k.subject)
        && ClockAt(ss[l], es[l]) < DueAfter(v, d, es, a) :: TrueFor(v, k, d, es, l)
    ensures var due := DueAfter(v, d, es, a);
      if due <= ss[|es|].logical then exists t :: t in ss[|es|].stream && CommitsDue(t, k, d, due)
      else i < |ss[|es|].machines| && HasTimer(ss[|es|].machines[i], timer) && TimerIs(timer, k, d, due)
  {
    hide Process, RuleOps, RuleEvents, DistinctLines, ObservedOn, ConfigOf, Running, Accepts, After, Waiting, Verdict,
      ActiveOK, FromActive, RulePlans.Selected, TrueAt, StartAt, ForKey, DurationFor, DueAfter, DeniedInTime, ClockAt,
      StartsOrCommits, StartTime, Targets, StartedBy, Activated, Concerns;
    var c := ConfigOf(rules[i]);
    var ops, ev, due := RuleOps(rules, es, ss, c), RuleEvents(rules, es, ss, c), DueAfter(v, d, es, a);
    var x := TrueObservation(rules, es, ps, ss, i, v, resolver, k, d, a);
    var q := WaitingCall(rules, es, ps, ss, i, a, x);
    AfterConfig(c, ops, q);
    TrueStarts(After(c, ops, q), x);
    forall l, t | q < l < |ops| && TimerIs(t, k, d, due) ensures !DeniedInTime(c, ops, l, t) {
      if DeniedInTime(c, ops, l, t) {
        EventsRise(rules, es, ss, c, q, l);
        DenialIsEvent(rules, es, ps, ss, i, l, t);
        ConcernsTarget(es[ev[l]].event, k.subject);
        VerdictIs(rules, es, ps, ss, i, ev[l], v, resolver, d);
      }
    }
    timer := StartedFulfilled(rules, es, ps, ss, i, q, due);
  }
}
