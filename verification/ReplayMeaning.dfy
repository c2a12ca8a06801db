/** What a replay's transitions and notifications mean, in the fields of the rule definitions and of
    the events of the file. */
module ReplayMeaning {
  import opened Wrappers
  import opened Bytes
  import opened Conditions
  import opened ConditionTiming
  import Alerts
  import Notifications
  import opened Events
  import Rules
  import RulePlans
  import opened EvaluationMerge
  import opened Evaluation
  import opened EvaluationRuntime
  import opened PipelineCoupling
  import opened Pipeline
  import opened PipelineIntake
  import opened PipelineRuns
  import opened ReplayTrace
  import opened ReplayQualification
  import opened FileEvidence

  // ----- conditions of a definition -----

  /** The comparisons a validated expression consists of. */
  function Comparisons(x: Rules.Expression): set<Rules.Comparison>
  {
    match x
    case Compare(c) => {c}
    case All(conditions, _) => set i | 0 <= i < |conditions| && conditions[i].Compare? :: conditions[i].c
    case _ => {}
  }

  /** Every comparison of the expression is True on these fields. */
  predicate AllTrue(x: Rules.Expression, fields: Rules.Lookup)
  {
    forall c | c in Comparisons(x) :: Rules.EvaluateComparison(c, fields) == Rules.PredicateTrue
  }

  lemma CompiledTrue(x: Rules.Expression, subject: Text, fields: Rules.Lookup)
    requires Rules.ExpressionOK(x, subject)
    ensures Rules.Conjunction(Rules.Flatten(x), fields) == Rules.PredicateTrue <==> AllTrue(x, fields)
  {
    hide Rules.EvaluateComparison, Rules.ComparisonOK, Rules.Conjunction;
    var cs := Rules.Flatten(x);
    Rules.ConjunctionMeans(cs, fields);
    if x.All? {
      Rules.FlattenCompares(x.conditions);
      forall c ensures c in cs <==> c in Comparisons(x) {
        if c in cs {
          var i :| 0 <= i < |cs| && cs[i] == c;
          assert x.conditions[i].c == c;
        }
        if c in Comparisons(x) {
          var i :| 0 <= i < |x.conditions| && x.conditions[i].Compare? && x.conditions[i].c == c;
          assert cs[i] == c;
        }
      }
    } else {
      assert forall c :: c in cs <==> c in Comparisons(x);
    }
  }

  /** The condition of the definition in this direction. */
  function ConditionIn(d: RulePlans.Definition, direction: Direction): RulePlans.Condition
  {
    match direction case Trigger => d.trigger case Clear => d.clear
  }

  /** The definition's condition is True on the file's events up to and including event `n`. */
  predicate TrueAt(d: RulePlans.Definition, direction: Direction, es: seq<Envelope>, n: nat)
    requires n < |es|
  {
    var x := ConditionIn(d, direction).predicate_;
    x.Some? && AllTrue(x.value, FieldsFor(SourcesOf(es[..n + 1]), Target(es[n].event)))
  }

  /** The instant from which event `n` is taken to qualify the condition: its own, or for a trigger the
      earlier onset on record. */
  function StartAt(direction: Direction, es: seq<Envelope>, n: nat): Time
    requires n < |es|
  {
    var onset, at := OnsetFor(SourcesOf(es[..n + 1]), Target(es[n].event)), Timestamp(es[n].event);
    match direction case Clear => at case Trigger => if 0 < onset <= at then onset else at
  }

  lemma VerdictIs(rules: seq<Rule>, es: seq<Envelope>, ps: Policies, ss: seq<Replay>, i: nat, n: nat, v: ActiveRule,
                  resolver: Option<RulePlans.Groups>, direction: Direction)
    requires Trace(rules, es, ps, ss) && i < |rules| && n < |es|
    requires ActiveOK(v, resolver) && FromActive(rules[i], v, resolver)
    ensures Verdict(rules[i], ss[n], es[n], direction) == Rules.PredicateTrue
       <==> TrueAt(v.definition, direction, es, n)
    ensures StartedBy(ss[n], es[n], direction) == StartAt(direction, es, n)
    ensures DurationFor(ConfigOf(rules[i]), direction) == ConditionIn(v.definition, direction).for_
  {
    hide Process, Running, Activated, Rules.ExpressionOK, Rules.Conjunction, Rules.Flatten, AllTrue, FieldsFor,
      OnsetFor, Absorbed, RulePlans.PinnedAll, RulePlans.Selected;
    ReplaySources(rules, es, ps, ss, n);
    assert es[..n + 1][..n] == es[..n] && es[..n + 1][n] == es[n];
    assert SourcesOf(es[..n + 1]) == Absorbed(ss[n].sources, es[n].event);
    var fields := FieldsFor(SourcesOf(es[..n + 1]), Target(es[n].event));
    CompiledTrue(ConditionIn(v.definition, direction).predicate_.value, v.definition.kind, fields);
  }

  // ----- transitions -----

  /** A snapshot concerns its queue; a state change and an adherence check concern their agent. */
  predicate Concerns(e: Event, subject: SubjectKey)
  {
    match e
    case Queue(q) => subject.kind == "queue" && subject.id == q.queueID
    case Agent(a) => subject.kind == "agent" && subject.id == a.agentID
    case Adherence(c) => subject.kind == "agent" && subject.id == c.agentID
  }

  lemma ConcernsTarget(e: Event, subject: SubjectKey)
    ensures Concerns(e, subject) <==> Target(e) == subject
  {
  }

  /** Event `a` made the condition of the rule True for the subject of the transition, every later event
      about that subject before event `b` found it True again, and the transition is due exactly the
      definition's duration after the start that event `a` claims. */
  ghost predicate Earned(v: ActiveRule, resolver: Option<RulePlans.Groups>, es: seq<Envelope>, t: Transition, a: nat,
                         b: nat)
  {
    && a <= b < |es| && t.key.ruleID == v.id && t.key.revision == v.revision
    && Concerns(es[a].event, t.key.subject) && t.key.subject.kind == v.definition.kind
    && RulePlans.Selected(v.definition, resolver, t.key.subject.id)
    && TrueAt(v.definition, t.direction, es, a)
    && (forall l | a < l < b && Concerns(es[l].event, t.key.subject) :: TrueAt(v.definition, t.direction, es, l))
    && (t.direction == Trigger ==> t.times.dueAt == StartAt(Trigger, es, a) + v.definition.trigger.for_)
    && (t.direction == Clear ==> t.times.dueAt == Timestamp(es[a].event) + v.definition.clear.for_)
    && t.times.dueAt <= t.at
  }

  lemma EarnedFrom(values: seq<ActiveRule>, resolver: Option<RulePlans.Groups>, rules: seq<Rule>, es: seq<Envelope>,
                   ps: Policies, ss: seq<Replay>, t: Transition, i: nat, a: nat, b: nat, v: ActiveRule)
    requires Trace(rules, es, ps, ss) && Qualified(rules, i, es, ss, t, a, b)
    requires ActiveOK(v, resolver) && FromActive(rules[i], v, resolver)
    ensures Earned(v, resolver, es, t, a, b)
  {
    hide Process, Running, Activated, ActiveOK, FromActive, Verdict, StartedBy, StartAt, TrueAt, StartsAttempt,
      DurationFor, Targets, RulePlans.Selected, ConditionIn, ConfigOf, ForKey, ObservationID, Decimal, Concerns;
    VerdictIs(rules, es, ps, ss, i, a, v, resolver, t.direction);
    forall l | a < l < b && Concerns(es[l].event, t.key.subject) ensures TrueAt(v.definition, t.direction, es, l) {
      ConcernsTarget(es[l].event, t.key.subject);
      VerdictIs(rules, es, ps, ss, i, l, v, resolver, t.direction);
    }
    ConcernsTarget(es[a].event, t.key.subject);
    EarnedKey(rules[i], v, resolver, OccurrenceOf(es[a]), t);
    StartOfClear(es, a);
    ConditionOf(v.definition);
  }

  lemma ConditionOf(d: RulePlans.Definition)
    ensures ConditionIn(d, Trigger) == d.trigger && ConditionIn(d, Clear) == d.clear
  {
  }

  // The definition a rule of a runtime was compiled from.
  lemma SourceOf(values: seq<ActiveRule>, resolver: Option<RulePlans.Groups>, rules: seq<Rule>, i: nat)
    returns (v: ActiveRule)
    requires ActivationOK(values, resolver) && RulesOf(rules, values, resolver) && i < |rules|
    ensures v in values && ActiveOK(v, resolver) && FromActive(rules[i], v, resolver)
  {
    hide ActiveOK, FromActive, DistinctRevisions;
    assert rules[i] in rules;
    v :| v in values && FromActive(rules[i], v, resolver);
  }

  /** Every transition of a replay was earned, under the definition of an activated rule, by an event
      of the file. */
  lemma TransitionEarned(values: seq<ActiveRule>, resolver: Option<RulePlans.Groups>, rules: seq<Rule>,
                         es: seq<Envelope>, ps: Policies, ss: seq<Replay>, b: nat, j: nat)
    returns (v: ActiveRule, a: nat)
    requires ActivationOK(values, resolver) && RulesOf(rules, values, resolver)
    requires Trace(rules, es, ps, ss) && DistinctLines(es)
    requires b < |es| && |ss[b].stream| <= j < |ss[b + 1].stream|
    ensures v in values && Earned(v, resolver, es, ss[b + 1].stream[j], a, b)
  {
    hide Process, Running, Activated, Qualified, Earned, ActivationOK, RulesOf, ActiveOK, FromActive, DistinctLines;
    var i;
    i, a := ReplayQualified(rules, es, ps, ss, b, j);
    QualifiedRule(rules, i, es, ss, ss[b + 1].stream[j], a, b);
    v := SourceOf(values, resolver, rules, i);
    EarnedFrom(values, resolver, rules, es, ps, ss, ss[b + 1].stream[j], i, a, b, v);
  }

  lemma QualifiedRule(rules: seq<Rule>, i: nat, es: seq<Envelope>, ss: seq<Replay>, t: Transition, a: nat, b: nat)
    requires |ss| == |es| + 1 && Qualified(rules, i, es, ss, t, a, b)
    ensures i < |rules|
  {
  }

  lemma StartOfClear(es: seq<Envelope>, n: nat)
    requires n < |es|
    ensures StartAt(Clear, es, n) == Timestamp(es[n].event)
  {
  }

  lemma EarnedKey(r: Rule, v: ActiveRule, resolver: Option<RulePlans.Groups>, o: Occurrence, t: Transition)
    requires FromActive(r, v, resolver) && ForKey(r, t.key) && Targets(r, o) && Target(o.event) == t.key.subject
    ensures t.key == ConditionKey(v.id, v.revision, Target(o.event))
    ensures Target(o.event).kind == v.definition.kind && RulePlans.Selected(v.definition, resolver, Target(o.event).id)
  {
  }

  // The event during which an entry of the stream was emitted.
  lemma {:induction false} EmittedAt(rules: seq<Rule>, es: seq<Envelope>, ps: Policies, ss: seq<Replay>, n: nat, j: nat)
    returns (b: nat)
    requires Trace(rules, es, ps, ss) && n <= |es| && j < |ss[n].stream|
    ensures b < n && |ss[b].stream| <= j < |ss[b + 1].stream| && ss[b + 1].stream[j] == ss[n].stream[j]
  {
    hide Process, Running, Activated;
    assert ss[0].stream == [] by { assert Begin(rules).stream == []; }
    if n == 0 {
      assert false;
    } else {
      b := n - 1;
      if j < |ss[b].stream| {
        StreamGrows(rules, es, ps, ss, b);
        b := EmittedAt(rules, es, ps, ss, n - 1, j);
      }
    }
  }

  lemma StreamGrows(rules: seq<Rule>, es: seq<Envelope>, ps: Policies, ss: seq<Replay>, n: nat)
    requires Trace(rules, es, ps, ss) && n < |es|
    ensures ss[n].stream <= ss[n + 1].stream
  {
    hide Process, Running, Activated, ReplayOK;
    TracePrefix(rules, es, ps, ss, n);
    TraceEnds(rules, es[..n], ps, ss[..n + 1]);
    ProcessAllOK(rules, es[..n], ps);
    assert Running(rules, ss[n]) && Process(rules, ss[n], es[n], ps) == Some(ss[n + 1]);
    ProcessOK(rules, ss[n], es[n], ps);
    var fired, applied :| EventEmits(ss[n], ss[n + 1], fired, applied);
  }

  // ----- notifications -----

  /** Every notification of a replay reports, under the policy of its rule, an alert opened by a trigger
      or recovered by a clear of the stream; and every alert transition whose policy asks for it is
      reported. */
  lemma NotificationExplained(rules: seq<Rule>, s: Replay, ps: Policies, n: Notification)
    requires ReplayOK(rules, s, ps) && n in s.emission.output
    ensures Asked(n.alert, ps) && Announces(n, n.alert, ps) && Explained(n.alert, s.stream)
    ensures |s.emission.output| == AskedCount(s.emission.alerts.journal, ps)
  {
    hide ReplayOK, EmitAll, Wanting, AlertsOf, Asked, Announces, Explained;
    OutputAlways(rules, s, ps);
    ReplayAlerts(rules, s, ps);
    var us := s.emission.alerts.journal;
    WantingMeans(us, ps);
    AlertsExplained(s.stream);
    var i :| 0 <= i < |us| && us[i] == n.alert;
  }

  /** From the output back to the file: the alert a notification reports is at the instant, in the
      episode and about the subject of a transition that an event of the file earned under the
      definition of an activated rule; an opening for a trigger, a recovery for a clear. */
  lemma NotificationEarned(values: seq<ActiveRule>, resolver: Option<RulePlans.Groups>, rules: seq<Rule>,
                           es: seq<Envelope>, ps: Policies, ss: seq<Replay>, n: Notification)
    returns (t: Transition, v: ActiveRule, a: nat, b: nat)
    requires ActivationOK(values, resolver) && RulesOf(rules, values, resolver)
    requires Trace(rules, es, ps, ss) && DistinctLines(es) && n in ss[|es|].emission.output
    ensures v in values && Earned(v, resolver, es, t, a, b)
    ensures SameAlert(n.alert, t) && (n.alert.kind == Alerts.Open <==> t.direction == Trigger)
    ensures Asked(n.alert, ps) && Announces(n, n.alert, ps)
  {
    hide Process, Running, Activated, ReplayOK, Earned, ActivationOK, RulesOf, DistinctLines, SameAlert, Asked,
      Announces;
    TraceEnds(rules, es, ps, ss);
    ProcessAllOK(rules, es, ps);
    var s := ss[|es|];
    NotificationExplained(rules, s, ps, n);
    if x :| x in s.stream && Opens(n.alert, x) {
      t := x;
    } else {
      var x, trigger :| x in s.stream && trigger in s.stream && Recovers(n.alert, x, trigger);
      t := x;
    }
    var j :| 0 <= j < |s.stream| && s.stream[j] == t;
    b := EmittedAt(rules, es, ps, ss, |es|, j);
    v, a := TransitionEarned(values, resolver, rules, es, ps, ss, b, j);
  }
}
