/** How far a replay's transitions may reach back before the evaluation that earned them. */
module ReplayStart {
  import opened Wrappers
  import opened Bytes
  import opened Conditions
  import opened ConditionRuns
  import opened ConditionTiming
  import opened Events
  import Rules
  import RulePlans
  import Durations
  import opened EvaluationMerge
  import opened EvaluationRuntime
  import opened Evaluation
  import opened PipelineCoupling
  import opened Pipeline
  import opened PipelineIntake
  import opened PipelineRuns
  import opened ReplayTrace
  import opened ReplayQualification

  // ----- exactly when an interval starts at its evaluation -----

  /** A trigger's interval starts when its evidence is evaluated exactly when the event is not late
      and the adherence record of the subject's name shows no earlier onset. */
  lemma StartIsEvaluation(r: Rule, o: Occurrence, t: Time, s: Sources)
    requires RequestOK(o, t)
    ensures StartTime(ObservationFor(r, o, t, Trigger, Some(EvidenceFor(s, Target(o.event))))) == t
       <==> o.effectiveAt == t && (OnsetFor(s, Target(o.event)) == 0 || OnsetFor(s, Target(o.event)) >= t)
  {
    hide ObservationID, Rules.Conjunction, FieldsFor, OnsetFor;
  }

  /** The onset on record moves the start of a trigger's interval exactly when it is earlier than the
      event itself; with none on record the interval would start at the event. */
  lemma OnsetMovesStart(r: Rule, o: Occurrence, t: Time, s: Sources)
    requires RequestOK(o, t)
    ensures var x := ObservationFor(r, o, t, Trigger, Some(EvidenceFor(s, Target(o.event))));
      && StartTime(x.(trueSince := 0)) == o.effectiveAt
      && (StartTime(x) == StartTime(x.(trueSince := 0))
          <==> OnsetFor(s, Target(o.event)) == 0 || OnsetFor(s, Target(o.event)) >= o.effectiveAt)
  {
    hide ObservationID, Rules.Conjunction, FieldsFor, OnsetFor;
  }

  /** The event is not late and, for a trigger, no earlier onset is on record. */
  predicate OnTime(s: Replay, e: Envelope, d: Direction)
  {
    var onset := OnsetFor(Absorbed(s.sources, e.event), Target(e.event));
    Timestamp(e.event) >= s.logical && (d == Trigger ==> onset == 0 || onset >= Timestamp(e.event))
  }

  predicate InInterval(x: Time, start: Time, end: Time) { start <= x <= end }

  /** No instant of the transition's interval is before the True evaluation, of event `a`, that
      started it. */
  ghost predicate Observed(es: seq<Envelope>, ss: seq<Replay>, t: Transition, a: nat)
    requires a < |es| < |ss|
  {
    forall x: Time | InInterval(x, StartedBy(ss[a], es[a], t.direction), t.at) :: ClockAt(ss[a], es[a]) <= x
  }

  lemma ObservedExactly(rules: seq<Rule>, i: nat, es: seq<Envelope>, ss: seq<Replay>, t: Transition, a: nat, b: nat)
    requires |ss| == |es| + 1 && Qualified(rules, i, es, ss, t, a, b)
    ensures Observed(es, ss, t, a) <==> OnTime(ss[a], es[a], t.direction)
  {
    hide OnsetFor, Verdict, Targets, StartsAttempt;
    var start := StartedBy(ss[a], es[a], t.direction);
    assert InInterval(start, start, t.at);
    if Observed(es, ss, t, a) { assert ClockAt(ss[a], es[a]) <= start; }
  }

  /** Every transition of a replay qualifies by exactly one event, the one that started its attempt,
      and its whole interval lies at or after that event's True evaluation exactly when the event
      was on time. */
  lemma ReplayObserved(rules: seq<Rule>, es: seq<Envelope>, ps: Policies, ss: seq<Replay>, b: nat, j: nat)
    returns (i: nat, a: nat)
    requires Trace(rules, es, ps, ss) && DistinctLines(es)
    requires b < |es| && |ss[b].stream| <= j < |ss[b + 1].stream|
    ensures var t := ss[b + 1].stream[j];
      && Qualified(rules, i, es, ss, t, a, b)
      && (forall i', a': nat, b': nat | Qualified(rules, i', es, ss, t, a', b') :: i' == i && a' == a)
      && (Observed(es, ss, t, a) <==> OnTime(ss[a], es[a], t.direction))
  {
    hide Process, Running, Qualified, DistinctLines, OnTime, Observed;
    i, a := ReplayQualified(rules, es, ps, ss, b, j);
    var t := ss[b + 1].stream[j];
    forall i', a': nat, b': nat | Qualified(rules, i', es, ss, t, a', b') ensures i' == i && a' == a {
      QualifiedOnce(rules, es, ps, ss, t, i', a', b', i, a, b);
    }
    ObservedExactly(rules, i, es, ss, t, a, b);
  }

  // ----- the first True evaluation of a key -----

  // A key whose triggers were never True is still inactive.
  predicate Quiet(m: Machine, k: ConditionKey) { k in m.states ==> m.states[k].phase == Inactive }

  predicate NeverTrue(ops: seq<Op>, k: ConditionKey)
  {
    forall q | 0 <= q < |ops| && ops[q].ApplyOp? && ops[q].o.key == k && ops[q].o.direction == Trigger ::
      ops[q].o.result != True
  }

  lemma QuietAdvanced(m: Machine, now: Time, k: ConditionKey)
    requires Quiet(m, k)
    ensures Quiet(AdvanceTo(m, now).machine, k)
  {
    if now != 0 { AdvanceTracker(m, now, k); }
  }

  lemma QuietStep(m: Machine, op: Op, k: ConditionKey)
    requires Quiet(m, k) && !op.FireOp?
    requires op.ApplyOp? && op.o.key == k && op.o.direction == Trigger ==> op.o.result != True
    ensures Quiet(Perform(m, op).machine, k)
  {
    hide AdvanceTo, Absorb;
    match op
    case AdvanceOp(now) => QuietAdvanced(m, now, k);
    case ApplyOp(o) =>
      if Accepts(m, o) {
        QuietAdvanced(Admit(m, o), ProcessingTime(o), k);
        QuietAbsorbed(ConditionRuns.Advanced(m, o), o, k);
      }
  }

  lemma QuietAbsorbed(m: Machine, o: Observation, k: ConditionKey)
    requires Quiet(m, k)
    requires o.key == k && o.direction == Trigger ==> o.result != True
    ensures Quiet(Absorb(m, o).machine, k)
  {
    hide Absorb;
    AbsorbTracker(m, o);
    AbsorbQuiet(m, o);
  }

  lemma AbsorbQuiet(m: Machine, o: Observation)
    ensures Quiet(m, o.key) && (o.direction == Trigger ==> o.result != True) ==> Quiet(Absorb(m, o).machine, o.key)
  {
  }

  lemma {:induction false} QuietRun(c: RuleConfig, ops: seq<Op>, k: ConditionKey)
    requires NoFire(ops) && NeverTrue(ops, k)
    ensures Quiet(Run(Init(c), ops).machine, k)
  {
    hide Perform;
    if ops == [] {
    } else {
      var n := |ops| - 1;
      assert NoFire(ops[..n]) && NeverTrue(ops[..n], k);
      QuietRun(c, ops[..n], k);
      QuietStep(Run(Init(c), ops[..n]).machine, ops[n], k);
    }
  }

  predicate CommitsFor(t: Transition, k: ConditionKey, due: Time, low: Time)
  {
    t.key == k && t.direction == Trigger && t.times.dueAt == due && low <= t.at
  }

  // An inactive key that becomes True with its interval already long enough commits at once.
  lemma CommitsAtOnce(m: Machine, o: Observation)
    requires Quiet(m, o.key) && Accepts(m, o) && o.direction == Trigger && o.result == True
    requires StartTime(o) + DurationFor(m.config, Trigger) <= ProcessingTime(o)
    ensures exists t ::
        t in ApplyTo(m, o).out && CommitsFor(t, o.key, StartTime(o) + DurationFor(m.config, Trigger), ProcessingTime(o))
  {
    hide AdvanceTo, Absorb;
    AdvancedTracker(m, o, o.key);
    QuietAdvanced(Admit(m, o), ProcessingTime(o), o.key);
    var advanced := AdvanceTo(Admit(m, o), ProcessingTime(o));
    AbsorbTracker(advanced.machine, o);
    var out := Absorb(advanced.machine, o).out;
    assert out[0] in ApplyTo(m, o).out;
    assert TimerFired(out[0]).key == o.key;
  }

  /** The transition a late or backdated trigger commits on the spot. */
  ghost predicate CommitsOnTheSpot(r: Rule, s: Replay, e: Envelope, s': Replay, k: ConditionKey)
  {
    exists t :: t in s'.stream && t.key == k && t.direction == Trigger && t.at == ClockAt(s, e)
      && t.times.dueAt == StartedBy(s, e, Trigger) + DurationFor(ConfigOf(r), Trigger)
  }

  /** The first event to find a rule True commits at once, however short it has been True, when its
      start and the rule's duration reach back far enough. */
  lemma FirstTrueCommits(rules: seq<Rule>, es: seq<Envelope>, ps: Policies, ss: seq<Replay>, i: nat, k: ConditionKey)
    requires Trace(rules, es, ps, ss) && DistinctLines(es) && es != [] && i < |rules| && ForKey(rules[i], k)
    requires var n := |es| - 1;
      && Target(es[n].event) == k.subject && Targets(rules[i], OccurrenceOf(es[n]))
      && Verdict(rules[i], ss[n], es[n], Trigger) == Rules.PredicateTrue
      && StartedBy(ss[n], es[n], Trigger) + DurationFor(ConfigOf(rules[i]), Trigger) <= ClockAt(ss[n], es[n])
      && forall l | 0 <= l < n && Target(es[l].event) == k.subject ::
          Verdict(rules[i], ss[l], es[l], Trigger) != Rules.PredicateTrue
    ensures CommitsOnTheSpot(rules[i], ss[|es| - 1], es[|es| - 1], ss[|es|], k)
  {
    hide Process, Verdict, StartedBy, Targets, RuleOps, Run, DistinctLines, ObservedOn, OfRule, ClockAt, ConfigOf,
      Running;
    var n, c := |es| - 1, ConfigOf(rules[i]);
    assert Running(rules, ss[n]) && Process(rules, ss[n], es[n], ps) == Some(ss[n + 1]);
    var x := ObservedThere(rules, ss[n], es[n], i, k, Trigger);
    EventStamped(rules, ss[n], es[n], ps);
    ObservedReads(rules, ss[n], es[n], i, x);
    ObservedCaused(rules, ss[n], es[n], ps, x);
    CausedClock(rules, ss[n], es[n], x);
    var t := FirstTrueCall(rules, es, ps, ss, i, x);
    ReplayIsRun(rules, es, ps, ss, i);
    OfRuleWithin(ss[n + 1].stream, c, t);
    StreamBounded(rules, es, ps, ss, t);
  }

  lemma CausedClock(rules: seq<Rule>, s: Replay, e: Envelope, x: Observation)
    requires Caused(rules, s, e, x)
    ensures ProcessingTime(x) == ClockAt(s, e)
  {
  }

  // The call that applies the first True observation commits it.
  lemma FirstTrueCall(rules: seq<Rule>, es: seq<Envelope>, ps: Policies, ss: seq<Replay>, i: nat, x: Observation)
    returns (t: Transition)
    requires Trace(rules, es, ps, ss) && DistinctLines(es) && es != [] && i < |rules| && ForKey(rules[i], x.key)
    requires x in ObservedOn(rules, ss[|es| - 1], es[|es| - 1]) && x.direction == Trigger && x.result == True
    requires StartTime(x) + DurationFor(ConfigOf(rules[i]), Trigger) <= ProcessingTime(x)
    requires forall l | 0 <= l < |es| - 1 && Target(es[l].event) == x.key.subject ::
        Verdict(rules[i], ss[l], es[l], Trigger) != Rules.PredicateTrue
    ensures t in Run(Init(ConfigOf(rules[i])), RuleOps(rules, es, ss, ConfigOf(rules[i]))).out
    ensures CommitsFor(t, x.key, StartTime(x) + DurationFor(ConfigOf(rules[i]), Trigger), ProcessingTime(x))
  {
    hide Process, Verdict, Targets, After, RuleOps, RuleEvents, Run, Accepts, DistinctLines, ObservedOn, ApplyTo,
      ConfigOf, Running, Quiet, CommitsFor;
    var n, c := |es| - 1, ConfigOf(rules[i]);
    var ops := RuleOps(rules, es, ss, c);
    var q := OpAt(rules, es, ss, c, n, x);
    ReplayAccepts(rules, es, ps, ss, i, q);
    QuietBefore(rules, es, ps, ss, i, x.key, q);
    AfterConfig(c, ops, q);
    CommitsAtOnce(After(c, ops, q), x);
    t :| t in ApplyTo(After(c, ops, q), x).out
      && CommitsFor(t, x.key, StartTime(x) + DurationFor(c, Trigger), ProcessingTime(x));
    AfterIs(c, ops, q);
    OutHas(Init(c), ops, q, t);
  }

  lemma AfterIs(c: RuleConfig, ops: seq<Op>, q: nat)
    requires q <= |ops|
    ensures After(c, ops, q) == Run(Init(c), ops[..q]).machine
  {
  }

  lemma StreamBounded(rules: seq<Rule>, es: seq<Envelope>, ps: Policies, ss: seq<Replay>, t: Transition)
    requires Trace(rules, es, ps, ss) && es != [] && t in ss[|es|].stream
    ensures t.at <= ClockAt(ss[|es| - 1], es[|es| - 1])
  {
    hide Process, EmitAll;
    var n := |es| - 1;
    TraceEnds(rules, es, ps, ss);
    ProcessAllOK(rules, es, ps);
    assert Running(rules, ss[n]) && Process(rules, ss[n], es[n], ps) == Some(ss[n + 1]);
    ProcessRunning(rules, ss[n], es[n], ps);
  }

  lemma QuietBefore(rules: seq<Rule>, es: seq<Envelope>, ps: Policies, ss: seq<Replay>, i: nat, k: ConditionKey, q: nat)
    requires Trace(rules, es, ps, ss) && DistinctLines(es) && es != [] && i < |rules| && ForKey(rules[i], k)
    requires forall l | 0 <= l < |es| - 1 && Target(es[l].event) == k.subject ::
        Verdict(rules[i], ss[l], es[l], Trigger) != Rules.PredicateTrue
    requires var ops := RuleOps(rules, es, ss, ConfigOf(rules[i]));
      q < |ops| && ops[q].ApplyOp? && ops[q].o.key == k && ops[q].o.direction == Trigger
      && RuleEvents(rules, es, ss, ConfigOf(rules[i]))[q] == |es| - 1
    ensures var c := ConfigOf(rules[i]); Quiet(After(c, RuleOps(rules, es, ss, c), q), k)
  {
    hide Process, Verdict, RuleOps, RuleEvents, DistinctLines, ConfigOf, Running;
    var c := ConfigOf(rules[i]);
    var ops := RuleOps(rules, es, ss, c);
    forall p | 0 <= p < q && ops[p].ApplyOp? && ops[p].o.key == k && ops[p].o.direction == Trigger
      ensures ops[p].o.result != True
    {
      NotTrueBefore(rules, es, ps, ss, i, k, p, q);
    }
    NoFireOps(rules, es, ss, c);
    QuietRun(c, ops[..q], k);
  }

  // An earlier trigger observation of the key is of an earlier event.
  lemma NotTrueBefore(rules: seq<Rule>, es: seq<Envelope>, ps: Policies, ss: seq<Replay>, i: nat, k: ConditionKey,
                      p: nat, q: nat)
    requires Trace(rules, es, ps, ss) && DistinctLines(es) && es != [] && i < |rules| && ForKey(rules[i], k)
    requires forall l | 0 <= l < |es| - 1 && Target(es[l].event) == k.subject ::
        Verdict(rules[i], ss[l], es[l], Trigger) != Rules.PredicateTrue
    requires var ops := RuleOps(rules, es, ss, ConfigOf(rules[i]));
      && p < q < |ops| && ops[q].ApplyOp? && ops[q].o.key == k && ops[q].o.direction == Trigger
      && ops[p].ApplyOp? && ops[p].o.key == k && ops[p].o.direction == Trigger
      && RuleEvents(rules, es, ss, ConfigOf(rules[i]))[q] == |es| - 1
    ensures RuleOps(rules, es, ss, ConfigOf(rules[i]))[p].o.result != True
  {
    hide Process, Verdict, Targets, RuleOps, RuleEvents, DistinctLines, ObservedOn, ConfigOf, Running;
    var c := ConfigOf(rules[i]);
    var ops, l := RuleOps(rules, es, ss, c), RuleEvents(rules, es, ss, c)[p];
    FrontCaused(rules, es, ps, ss, c, p);
    FrontCaused(rules, es, ps, ss, c, q);
    EventsRise(rules, es, ss, c, p, q);
    RuleOpsDistinct(rules, es, ps, ss, c);
    assert ops[p].o.observationID != ops[q].o.observationID;
    ObservedReads(rules, ss[l], es[l], i, ops[p].o);
  }

  // ----- two replays that reach back -----

  const AGENT_A := SubjectKey("agent", "a")
  const NO_POLICIES: Policies := map[]

  // The instant, or the duration, of so many seconds.
  function Seconds(n: nat): Time { n * Durations.SECOND }

  const OFF_VIOLATION := Is("adherence.violation", Rules.Boolean(false))

  // One rule on agent "a", True for at least 100 seconds before it triggers.
  function RuleOn(trigger: seq<Rules.Comparison>): Rule
  {
    Rule("r", 1, RulePlans.Plan("agent", [], ["a"], trigger, [OFF_VIOLATION], Seconds(100), 0))
  }

  // A definition of that rule, as its author would submit it.
  function DefinitionOf(trigger: Rules.Expression): ActiveRule
  {
    ActiveRule("r", 1, RulePlans.Definition(1, "On call", "", "agent", ["a"], [],
      RulePlans.Condition(Some(trigger), Seconds(100)), RulePlans.Condition(Some(Rules.Compare(OFF_VIOLATION)), 0),
      RulePlans.Policy(true, true, "supervisors")))
  }

  /** The definition passes validation and compiles to the rule. */
  ghost predicate Activates(v: ActiveRule, r: Rule) { ActivationOK([v], None) && RulesOf([r], [v], None) }

  lemma DefinitionActivates(trigger: Rules.Expression)
    requires Rules.ExpressionOK(trigger, "agent")
    ensures Activates(DefinitionOf(trigger), RuleOn(Rules.Flatten(trigger)))
  {
    hide Rules.ExpressionOK;
    var v, r := DefinitionOf(trigger), RuleOn(Rules.Flatten(trigger));
    assert Rules.Flatten(Rules.Compare(OFF_VIOLATION)) == [OFF_VIOLATION];
    assert Rules.ExpressionOK(Rules.Compare(OFF_VIOLATION), "agent") by { OffViolationOK(); }
    assert RulePlans.Pins([], [], None);
    assert RulePlans.PinnedAll(r.plan, v.definition, None);
    assert FromActive(r, v, None);
    assert ActiveOK(v, None);
    assert [v][..0] == [];
    assert DistinctRevisions([v]);
    assert ActivationOK([v], None);
    assert v in [v] && r in [r];
  }

  lemma OffViolationOK()
    ensures Rules.ExpressionOK(Rules.Compare(OFF_VIOLATION), "agent")
  {
  }

  function Is(field: Text, value: Rules.Operand): Rules.Comparison
  {
    Rules.Comparison(Rules.Field(field), Rules.Equal, value)
  }

  function LineOf(n: nat, e: Event): Envelope { Envelope("demo-events", n, e, "x") }

  function Files(first: Event, second: Event): seq<Envelope> { [LineOf(1, first), LineOf(2, second)] }

  function Check(id: Text, at: Time, onset: Option<Time>): Event
  {
    Adherence(AdherenceCheck(id, at, "a", "available", "on_break", true, onset, []))
  }

  function OnCall(id: Text, at: Time): Event { Agent(AgentStateChange(id, at, "a", None, "on_call", None, [])) }

  lemma FilesAdmissible(r: Rule, first: Event, second: Event)
    requires EventID(first) == "1" && EventID(second) == "2" && Timestamp(first) != 0 && Timestamp(second) != 0
    requires Target(first) == AGENT_A == Target(second) && r == RuleOn(r.plan.trigger)
    ensures Activated([r]) && DistinctLines(Files(first, second))
    ensures ProcessAll([r], Files(first, second), NO_POLICIES).Some?
  {
    hide Process, ProcessAll;
    var es := Files(first, second);
    LineID(1, first);
    LineID(2, second);
    assert Decimal(1) == "1" && Decimal(2) == "2";
    assert OccurrenceID(es[0])[12] == '1' && OccurrenceID(es[1])[12] == '2';
    forall n | 0 <= n < |es| ensures Admissible([r], es[n]) { LineAdmissible(r, es[n]); }
    ReplaySucceeds([r], es, NO_POLICIES);
  }

  lemma LineID(n: nat, e: Event)
    ensures OccurrenceID(LineOf(n, e)) == "demo-events:" + Decimal(n)
  {
  }

  lemma LineAdmissible(r: Rule, e: Envelope)
    requires e.stream == "demo-events" && e.raw == "x" && e.line > 0 && Timestamp(e.event) != 0
    requires EventID(e.event) == "1" || EventID(e.event) == "2"
    requires Target(e.event) == AGENT_A
    ensures Admissible([r], e)
  {
    hide Targets, CanonicalParts, Hex;
    var o := OccurrenceOf(e);
    assert o.id[0] == 'd';
    forall i, d | 0 <= i < |[r]| ensures Distinguished([r][i], o, d) {
      assert ObservationID(o.id, KeyFor([r][i], o), d)[0] == 'e';
    }
  }

  // What a two-event replay does when only the second event finds the rule True.
  lemma SecondCommits(r: Rule, first: Event, second: Event) returns (ss: seq<Replay>)
    requires EventID(first) == "1" && EventID(second) == "2" && Timestamp(first) != 0 && Timestamp(second) != 0
    requires Target(first) == AGENT_A == Target(second) && r == RuleOn(r.plan.trigger)
    requires var held := Absorbed(NO_SOURCES, first); var then_ := Absorbed(held, second);
      && Rules.Conjunction(r.plan.trigger, FieldsFor(held, AGENT_A)) != Rules.PredicateTrue
      && Rules.Conjunction(r.plan.trigger, FieldsFor(then_, AGENT_A)) == Rules.PredicateTrue
      && var onset := OnsetFor(then_, AGENT_A);
         (if onset != 0 && onset <= Timestamp(second) then onset else Timestamp(second))
           + Seconds(100) <= Max(Timestamp(second), Timestamp(first))
    ensures var es := Files(first, second);
      && Trace([r], es, NO_POLICIES, ss) && CommitsOnTheSpot(r, ss[1], es[1], ss[2], ConditionKey("r", 1, AGENT_A))
      && ss[1].logical == Timestamp(first) && ss[1].sources == Absorbed(NO_SOURCES, first) && ss[0] == Begin([r])
  {
    hide Process, ProcessAll, Rules.Conjunction, DistinctLines, CommitsOnTheSpot;
    var es := Files(first, second);
    FilesAdmissible(r, first, second);
    ss := TraceOf([r], es, NO_POLICIES);
    assert Running([r], ss[0]) && Process([r], ss[0], es[0], NO_POLICIES) == Some(ss[1]);
    ProcessRunning([r], ss[0], es[0], NO_POLICIES);
    FirstTrueCommits([r], es, NO_POLICIES, ss, 0, ConditionKey("r", 1, AGENT_A));
  }

  const ON_CALL: seq<Rules.Comparison> := [Is("agent.current_state", Rules.AgentState("on_call"))]
  const VIOLATING_ON_CALL: seq<Rules.Comparison> := [Is("adherence.violation", Rules.Boolean(true))] + ON_CALL

  lemma OnCallVerdicts(at: Time, onset: Option<Time>, then_: Time)
    ensures var held := Absorbed(NO_SOURCES, Check("1", at, onset)); var later := Absorbed(held, OnCall("2", then_));
      && Rules.Conjunction(ON_CALL, FieldsFor(held, AGENT_A)) == Rules.PredicateUnknown
      && Rules.Conjunction(ON_CALL, FieldsFor(later, AGENT_A)) == Rules.PredicateTrue
      && OnsetFor(later, AGENT_A) == if onset.Some? then onset.value else 0
  {
    var held := Absorbed(NO_SOURCES, Check("1", at, onset));
    OneComparison(ON_CALL[0], FieldsFor(held, AGENT_A));
    OneComparison(ON_CALL[0], FieldsFor(Absorbed(held, OnCall("2", then_)), AGENT_A));
  }

  lemma ViolatingVerdicts(at: Time, onset: Option<Time>, then_: Time)
    ensures var held := Absorbed(NO_SOURCES, Check("1", at, onset)); var later := Absorbed(held, OnCall("2", then_));
      && Rules.Conjunction(VIOLATING_ON_CALL, FieldsFor(held, AGENT_A)) == Rules.PredicateUnknown
      && Rules.Conjunction(VIOLATING_ON_CALL, FieldsFor(later, AGENT_A)) == Rules.PredicateTrue
  {
    hide Rules.Conjunction;
    var held := Absorbed(NO_SOURCES, Check("1", at, onset));
    OnCallVerdicts(at, onset, then_);
    AndFirst(VIOLATING_ON_CALL[0], ON_CALL, FieldsFor(held, AGENT_A));
    AndFirst(VIOLATING_ON_CALL[0], ON_CALL, FieldsFor(Absorbed(held, OnCall("2", then_)), AGENT_A));
  }

  lemma AndFirst(c: Rules.Comparison, cs: seq<Rules.Comparison>, fields: Rules.Lookup)
    ensures Rules.Conjunction([c] + cs, fields)
        == Rules.And(Rules.EvaluateComparison(c, fields), Rules.Conjunction(cs, fields))
  {
    assert ([c] + cs)[1..] == cs;
  }

  lemma OneComparison(c: Rules.Comparison, fields: Rules.Lookup)
    ensures Rules.Conjunction([c], fields) == Rules.EvaluateComparison(c, fields)
  {
  }

  /** The replay triggers at `at` for an interval from `start`, though its first event did not find
      the rule True. */
  ghost predicate ReachesBack(r: Rule, es: seq<Envelope>, ss: seq<Replay>, at: Time, start: Time)
  {
    && Trace([r], es, NO_POLICIES, ss) && |es| == 2
    && Verdict(r, ss[0], es[0], Trigger) == Rules.PredicateUnknown
    && exists t :: t in ss[2].stream && t.direction == Trigger && t.at == at && t.times.dueAt == start + Seconds(100)
  }

  lemma ReachesBackIs(r: Rule, es: seq<Envelope>, ss: seq<Replay>, at: Time, start: Time)
    requires Trace([r], es, NO_POLICIES, ss) && |es| == 2 && r == RuleOn(r.plan.trigger)
    requires Verdict(r, ss[0], es[0], Trigger) == Rules.PredicateUnknown
    requires CommitsOnTheSpot(r, ss[1], es[1], ss[2], ConditionKey("r", 1, AGENT_A))
    requires ClockAt(ss[1], es[1]) == at && StartedBy(ss[1], es[1], Trigger) == start
    ensures ReachesBack(r, es, ss, at, start)
  {
    hide Process, Verdict, Running, StartedBy, ClockAt;
  }

  const ON_CALL_EXPRESSION := Rules.Compare(ON_CALL[0])
  const VIOLATING_EXPRESSION :=
    Rules.All([Rules.Compare(VIOLATING_ON_CALL[0]), Rules.Compare(VIOLATING_ON_CALL[1])], false)

  lemma FlattenTwo(c: Rules.Comparison, d: Rules.Comparison)
    ensures Rules.Flatten(Rules.All([Rules.Compare(c), Rules.Compare(d)], false)) == [c, d]
  {
    var inner := [Rules.Compare(c), Rules.Compare(d)];
    assert inner[1..] == [Rules.Compare(d)] && inner[1..][1..] == [];
    assert Rules.FlattenAll(inner[1..]) == Rules.Flatten(Rules.Compare(d)) + Rules.FlattenAll(inner[1..][1..]);
    assert Rules.FlattenAll(inner) == Rules.Flatten(Rules.Compare(c)) + Rules.FlattenAll(inner[1..]);
  }

  /** Both rules below are ones a runtime activates. */
  lemma ReachingRulesActivate()
    ensures Activates(DefinitionOf(ON_CALL_EXPRESSION), RuleOn(ON_CALL))
    ensures Activates(DefinitionOf(VIOLATING_EXPRESSION), RuleOn(VIOLATING_ON_CALL))
  {
    hide Activates;
    FlattenTwo(VIOLATING_ON_CALL[0], VIOLATING_ON_CALL[1]);
    assert VIOLATING_ON_CALL == [VIOLATING_ON_CALL[0], VIOLATING_ON_CALL[1]];
    assert Rules.Flatten(ON_CALL_EXPRESSION) == ON_CALL;
    DefinitionActivates(ON_CALL_EXPRESSION);
    DefinitionActivates(VIOLATING_EXPRESSION);
  }

  /** An onset on record reaches back for a rule that does not compare it: the agent's state is first
      known, and the rule first True, at second 200, and it triggers there for an interval from 10. */
  lemma OnsetReachesBack() returns (ss: seq<Replay>)
    ensures Activates(DefinitionOf(ON_CALL_EXPRESSION), RuleOn(ON_CALL))
    ensures ReachesBack(RuleOn(ON_CALL), Files(Check("1", Seconds(150), Some(Seconds(10))), OnCall("2", Seconds(200))),
                        ss, Seconds(200), Seconds(10))
  {
    hide Trace, Rules.Conjunction, FieldsFor, CommitsOnTheSpot, ReachesBack, Activates;
    ReachingRulesActivate();
    var r, first, second := RuleOn(ON_CALL), Check("1", Seconds(150), Some(Seconds(10))), OnCall("2", Seconds(200));
    OnCallVerdicts(Seconds(150), Some(Seconds(10)), Seconds(200));
    ss := SecondCommits(r, first, second);
    ReachesBackIs(r, Files(first, second), ss, Seconds(200), Seconds(10));
  }

  /** A late event reaches back with no onset at all: the check is evaluated at second 200, the state
      change stamped 50 after it, and the rule, first True at 200, triggers there from 50. */
  lemma LateEventReachesBack() returns (ss: seq<Replay>)
    ensures Activates(DefinitionOf(VIOLATING_EXPRESSION), RuleOn(VIOLATING_ON_CALL))
    ensures ReachesBack(RuleOn(VIOLATING_ON_CALL), Files(Check("1", Seconds(200), None), OnCall("2", Seconds(50))),
                        ss, Seconds(200), Seconds(50))
  {
    hide Trace, Rules.Conjunction, FieldsFor, CommitsOnTheSpot, ReachesBack, Activates;
    ReachingRulesActivate();
    var r, first, second := RuleOn(VIOLATING_ON_CALL), Check("1", Seconds(200), None), OnCall("2", Seconds(50));
    OnCallVerdicts(Seconds(200), None, Seconds(50));
    ViolatingVerdicts(Seconds(200), None, Seconds(50));
    ss := SecondCommits(r, first, second);
    ReachesBackIs(r, Files(first, second), ss, Seconds(200), Seconds(50));
  }
}
