/** The in-memory replay object: the runtime, the alert reducer and the planner driven by one
    event after another, proved equal to the replay function. */
module Preview {
  import opened Wrappers
  import opened Bytes
  import opened Conditions
  import Alerts
  import Notifications
  import opened Events
  import RulePlans
  import opened EvaluationMerge
  import opened Evaluation
  import opened EvaluationRuntime
  import opened PipelineCoupling
  import P = Pipeline
  import PipelineIntake

  /** One decoded line of the event file. */
  datatype Line = Line(event: Event, raw: Text)

  const STREAM: Text := "demo-events"

  /** Lines are numbered from one, in physical order. */
  function Envelopes(lines: seq<Line>): (es: seq<P.Envelope>)
    ensures |es| == |lines|
    ensures forall i | 0 <= i < |es| :: es[i] == P.Envelope(STREAM, i + 1, lines[i].event, lines[i].raw)
  {
    if lines == [] then []
    else
      var n := |lines| - 1;
      Envelopes(lines[..n]) + [P.Envelope(STREAM, n + 1, lines[n].event, lines[n].raw)]
  }

  function PolicyOf(p: RulePlans.Policy): Notifications.Policy
  {
    Notifications.Policy(p.onOpen, p.onRecovery, p.audience)
  }

  /** Numbering gives every line its own occurrence identity. */
  lemma LinesDistinct(lines: seq<Line>)
    ensures PipelineIntake.DistinctLines(Envelopes(lines))
  {
    var es := Envelopes(lines);
    forall i, j | 0 <= i < j < |es| ensures P.OccurrenceID(es[i]) != P.OccurrenceID(es[j]) {
      var prefix := STREAM + ":";
      assert P.OccurrenceID(es[i])[|prefix|..] == Decimal(i + 1) && P.OccurrenceID(es[j])[|prefix|..] == Decimal(j + 1);
      if Decimal(i + 1) == Decimal(j + 1) { DecimalInjective(i + 1, j + 1); }
    }
  }

  // Keyed by rule alone, so the last configured revision decides.
  function PoliciesOf(configured: seq<ActiveRule>): Policies
  {
    if configured == [] then map[]
    else
      var last := configured[|configured| - 1];
      PoliciesOf(configured[..|configured| - 1])[last.id := PolicyOf(last.definition.notifications)]
  }

  /** A rule has a policy exactly when it is configured: the one its last configured revision states. */
  lemma {:induction false} PoliciesMean(configured: seq<ActiveRule>, id: Text)
    ensures id in PoliciesOf(configured) <==> exists i :: 0 <= i < |configured| && configured[i].id == id
    ensures forall i | 0 <= i < |configured| && configured[i].id == id
        && (forall j | i < j < |configured| :: configured[j].id != id) ::
          var p, q := PoliciesOf(configured)[id], configured[i].definition.notifications;
          p.onOpen == q.onOpen && p.onRecovery == q.onRecovery && p.audience == q.audience
  {
    if configured != [] {
      var n := |configured| - 1;
      PoliciesMean(configured[..n], id);
      assert forall i | 0 <= i < n :: configured[..n][i] == configured[i];
    }
  }

  class Session {
    const policies: Policies
    const runtime: Runtime
    const alertReducer: Alerts.Reducer
    const planner: Notifications.Planner
    var output: seq<Notification>
    var queues: map<Text, QueueSnapshot>
    var agents: map<Text, AgentStateChange>
    var adherence: map<Text, AdherenceCheck>
    var logical: Time
    ghost var stream: seq<Transition>

    function Emitted(): Emission
      reads `output, alertReducer, planner
    {
      Emission(alertReducer.State(), planner.intents, output)
    }

    function Sources(): P.Sources
      reads `queues, `agents, `adherence
    {
      P.Sources(queues, agents, adherence)
    }

    ghost function State(): (s: P.Replay)
      reads this, alertReducer, planner, runtime, runtime.reducers
      ensures s.machines == runtime.Machines() && s.emission == Emitted() && s.sources == Sources()
      ensures s.logical == logical && s.stream == stream
    {
      P.Replay(runtime.Machines(), Emitted(), Sources(), logical, stream)
    }

    ghost predicate Valid()
      reads this, runtime, runtime.reducers
    {
      runtime.Valid() && runtime.logical == logical
    }

    constructor (policies: Policies, runtime: Runtime)
      requires runtime.Unstarted()
      ensures this.policies == policies && this.runtime == runtime && fresh(alertReducer) && fresh(planner)
      ensures Valid() && State() == P.Begin(runtime.rules)
    {
      hide *;
      this.policies, this.runtime := policies, runtime;
      alertReducer := new Alerts.Reducer();
      planner := new Notifications.Planner();
      output, queues, agents, adherence, logical, stream := [], map[], map[], map[], 0, [];
      new;
      FreshState();
    }

    lemma FreshState()
      requires runtime.Unstarted() && alertReducer.State() == Alerts.NO_ALERTS && planner.intents == map[]
      requires output == [] && queues == map[] && agents == map[] && adherence == map[] && logical == 0 && stream == []
      ensures Valid() && State() == P.Begin(runtime.rules)
    {
    }

    /** Turn condition transitions into alerts, and the alerts their policies want into output. */
    method Emit(transitions: seq<Transition>)
      modifies `output, `stream, alertReducer, planner
      ensures Emitted() == EmitAll(old(Emitted()), transitions, policies)
      ensures stream == old(stream) + transitions
    {
      hide *;
      ghost var start := Emitted();
      EmitNone(start, policies);
      for i := 0 to |transitions|
        invariant stream == old(stream) && Emitted() == EmitAll(start, transitions[..i], policies)
      {
        EmitPush(start, transitions, i, policies);
        EmitTransition(transitions[i]);
      }
      assert transitions[..|transitions|] == transitions;
      stream := stream + transitions;
    }

    method EmitTransition(t: Transition)
      modifies `output, alertReducer, planner
      ensures Emitted() == EmitOne(old(Emitted()), t, policies)
    {
      hide Alerts.ApplyStartTo, Alerts.ApplyClearTo, EmitAlert;
      var us: seq<Alerts.AlertTransition>;
      if t.direction == Trigger {
        us := alertReducer.ApplyStart(Alerts.Start(
          t.episodeID, Alerts.SeriesOf(t.key), t.key.revision, t.at, t.times.effectiveAt, t.times.evidenceAt));
      } else {
        us := alertReducer.ApplyClear(Alerts.Stop(
          t.episodeID, Alerts.SeriesOf(t.key), t.at, t.times.effectiveAt, t.times.evidenceAt));
      }
      ghost var fed := Emitted();
      assert Alerts.AlertStep(alertReducer.State(), us) == Feed(old(alertReducer.State()), t);
      FeedSeries(old(alertReducer.State()), t);
      for i := 0 to |us|
        invariant Emitted() == EmitAlerts(fed, us[..i], policies)
      {
        assert us[..i + 1][..i] == us[..i] && us[i].series == Alerts.SeriesOf(t.key);
        PlanAlert(us[i], PolicyAt(policies, t.key.ruleID));
      }
      assert us[..|us|] == us;
    }

    method PlanAlert(u: Alerts.AlertTransition, p: Notifications.Policy)
      requires p == PolicyAt(policies, u.series.ruleID)
      modifies `output, planner
      ensures Emitted() == EmitAlert(old(Emitted()), u, policies)
    {
      var intent, created := planner.Plan(u, p);
      if created {
        output := output + [Notification(intent.value, u, u.series.ruleID, u.series.subjectKind, u.series.subjectID)];
      }
    }

    // A record replaces the one held for its subject unless it is before it.
    method Record(e: Event)
      modifies `queues, `agents, `adherence
      ensures Sources() == P.Absorbed(old(Sources()), e)
    {
      match e
      case Queue(q) =>
        if q.queueID !in queues || !(q.timestamp < queues[q.queueID].timestamp) { queues := queues[q.queueID := q]; }
      case Agent(a) =>
        if a.agentID !in agents || !(a.timestamp < agents[a.agentID].timestamp) { agents := agents[a.agentID := a]; }
      case Adherence(c) =>
        if c.agentID !in adherence || !(c.timestamp < adherence[c.agentID].timestamp) {
          adherence := adherence[c.agentID := c];
        }
    }

    // Advance the runtime and emit what fires.
    method AdvanceTime(t: Time) returns (ok: bool)
      requires Valid()
      modifies `output, `logical, `stream, alertReducer, planner, runtime, runtime.reducers
      ensures Valid() && runtime.rules == old(runtime.rules) && runtime.reducers == old(runtime.reducers)
      ensures ok <==> t > 0 && old(logical) <= t
      ensures ok ==>
        && P.Running(runtime.rules, old(State()))
        && State() == P.Advanced(runtime.rules, old(State()), t, policies)
    {
      hide *;
      ghost var s := State();
      RunningNow();
      var advanced, fired := runtime.Advance(t);
      if !advanced {
        ValidAgain();
        return false;
      }
      Emit(fired);
      logical := t;
      ok := true;
      ValidAgain();
      AdvancedIs(runtime.rules, s, t, policies, State(), fired);
    }

    // Evaluate the occurrence on the current sources and apply what it observes.
    method Observe(o: Occurrence) returns (ok: bool)
      requires Valid()
      modifies `output, `stream, alertReducer, planner, runtime.reducers
      ensures Valid()
      ensures P.Running(runtime.rules, old(State()))
      ensures ok <==> P.Observable(runtime.rules, o, logical, P.EvidenceFor(old(Sources()), Target(o.event)))
      ensures ok ==> RequestOK(o, logical) && State() == P.Applied(runtime.rules, old(State()), o, policies)
    {
      hide *;
      ghost var s := State();
      RunningNow();
      var evidence := P.EvidenceFor(Sources(), Target(o.event));
      var result := runtime.Evaluate(o, logical, Some(evidence));
      ObservableIs(runtime.rules, o, logical, evidence);
      if result.None? { return false; }
      var applied, committed := runtime.Apply(result.value);
      EvaluationApplies(runtime.rules, o, logical, Some(evidence));
      Emit(committed);
      ok := true;
      ValidAgain();
      AppliedIs(runtime.rules, s, o, policies, State(), committed);
    }

    /** One line of the file. It fails exactly when the replay function does. */
    method Process(e: P.Envelope) returns (ok: bool)
      requires Valid()
      modifies this, alertReducer, planner, runtime, runtime.reducers
      ensures runtime.rules == old(runtime.rules) && runtime.reducers == old(runtime.reducers)
      ensures P.Running(runtime.rules, old(State()))
      ensures ok <==> P.Process(runtime.rules, old(State()), e, policies).Some?
      ensures ok ==> Valid() && Some(State()) == P.Process(runtime.rules, old(State()), e, policies)
    {
      hide *;
      ghost var s := State();
      RunningNow();
      var at := Timestamp(e.event);
      var t := logical;
      if at > logical { t := at; }
      ClockIs(s, e, t);
      ok := AdvanceTime(t);
      ghost var s1 := State();
      ProcessIs(runtime.rules, s, e, policies);
      if !ok { return; }
      RunningNow();
      Record(e.event);
      ValidAgain();
      ghost var s2 := State();
      SourcesIs(s1, s2, e.event);
      ok := Observe(P.OccurrenceOf(e));
    }

    lemma OutputIs()
      ensures State().emission.output == output
    {
    }

    lemma ValidAgain()
      requires runtime.Valid() && runtime.logical == logical
      ensures Valid()
    {
    }

    lemma RunningNow()
      requires Valid()
      ensures Activated(runtime.rules) && P.Running(runtime.rules, State())
      ensures runtime.Valid() && runtime.logical == logical
    {
    }
  }

  lemma EmitNone(e: Emission, ps: Policies)
    ensures EmitAll(e, [], ps) == e
  {
  }

  lemma EmitPush(e: Emission, ts: seq<Transition>, i: nat, ps: Policies)
    requires i < |ts|
    ensures EmitAll(e, ts[..i + 1], ps) == EmitOne(EmitAll(e, ts[..i], ps), ts[i], ps)
  {
    hide EmitOne;
    assert ts[..i + 1][..i] == ts[..i];
  }

  // Whatever a transition emits belongs to the series of its rule.
  lemma FeedSeries(a: Alerts.AlertState, t: Transition)
    ensures forall i | 0 <= i < |Feed(a, t).out| :: Feed(a, t).out[i].series == Alerts.SeriesOf(t.key)
  {
    hide Alerts.SeriesID, Alerts.AlertTransitionID;
  }

  lemma AdvancedIs(rules: seq<Rule>, s: P.Replay, t: Time, ps: Policies, s': P.Replay, out: seq<Transition>)
    requires P.Running(rules, s) && s.logical <= t && t > 0
    requires Apart(s.machines) && ClocksBy(s.machines, t) && MultiStep(s'.machines, out) == AdvanceAll(s.machines, t)
    requires s'.emission == EmitAll(s.emission, out, ps) && s'.sources == s.sources && s'.logical == t
        && s'.stream == s.stream + out
    ensures s' == P.Advanced(rules, s, t, ps)
  {
  }

  lemma AppliedIs(rules: seq<Rule>, s: P.Replay, o: Occurrence, ps: Policies, s': P.Replay, out: seq<Transition>)
    requires P.Running(rules, s) && RequestOK(o, s.logical)
    requires MultiStep(s'.machines, out)
          == ApplyAll(s.machines,
            Evaluation.Observe(rules, o, s.logical, Some(P.EvidenceFor(s.sources, Target(o.event)))))
    requires s'.emission == EmitAll(s.emission, out, ps) && s'.sources == s.sources
    requires s'.logical == s.logical && s'.stream == s.stream + out
    ensures s' == P.Applied(rules, s, o, ps)
  {
  }

  lemma ObservableIs(rules: seq<Rule>, o: Occurrence, t: Time, ev: Evidence)
    ensures P.Observable(rules, o, t, ev) <==>
      RequestOK(o, t) && AllObservationsOK(rules, o, t, Evaluation.Observe(rules, o, t, Some(ev)))
  {
  }

  lemma ClockIs(s: P.Replay, e: P.Envelope, t: Time)
    requires t == if Timestamp(e.event) > s.logical then Timestamp(e.event) else s.logical
    ensures t == P.ClockAt(s, e) && s.logical <= t && P.OccurrenceOf(e).event == e.event
  {
  }

  lemma SourcesIs(s1: P.Replay, s2: P.Replay, e: Event)
    requires s2.machines == s1.machines && s2.emission == s1.emission && s2.logical == s1.logical
        && s2.stream == s1.stream
    requires s2.sources == P.Absorbed(s1.sources, e)
    ensures s2 == s1.(sources := P.Absorbed(s1.sources, e))
  {
  }

  // The steps of the replay function for one event.
  lemma ProcessIs(rules: seq<Rule>, s: P.Replay, e: P.Envelope, ps: Policies)
    requires P.Running(rules, s)
    ensures var t := P.ClockAt(s, e);
      if t == 0 then P.Process(rules, s, e, ps) == None
      else
        var s1 := P.Advanced(rules, s, t, ps);
        var s2 := s1.(sources := P.Absorbed(s1.sources, e.event));
        if !P.Observable(rules, P.OccurrenceOf(e), t, P.EvidenceFor(s2.sources, Target(e.event)))
        then P.Process(rules, s, e, ps) == None
        else P.Process(rules, s, e, ps) == Some(P.Applied(rules, s2, P.OccurrenceOf(e), ps))
  {
    hide P.Advanced, P.Applied, P.Observable;
  }

  method CollectPolicies(configured: seq<ActiveRule>) returns (ps: Policies)
    ensures ps == PoliciesOf(configured)
  {
    ps := map[];
    for i := 0 to |configured|
      invariant ps == PoliciesOf(configured[..i])
    {
      assert configured[..i + 1][..i] == configured[..i];
      ps := ps[configured[i].id := PolicyOf(configured[i].definition.notifications)];
    }
    assert configured[..|configured|] == configured;
  }

  /** The whole replay: it activates, consumes every line, advances once more and returns what it
      planned, exactly as the replay function says, or nothing at all. */
  method Replay(lines: seq<Line>, configured: seq<ActiveRule>)
    returns (ghost rules: seq<Rule>, output: Option<seq<Notification>>)
    ensures output.Some? ==> ActivationOK(configured, None)
    ensures ActivationOK(configured, None) ==>
      && Activated(rules) && RulesOf(rules, configured, None)
      && var s := P.ProcessAll(rules, Envelopes(lines), PoliciesOf(configured));
         && (output.Some? <==> s.Some?)
         && (s.Some? ==> output.value == P.Finish(rules, s.value, PoliciesOf(configured)).emission.output)
  {
    hide *;
    var policies := CollectPolicies(configured);
    var activated := Runtime.Activate(configured, None);
    rules := [];
    if activated.None? { return rules, None; }
    var runtime := activated.value;
    rules := runtime.rules;
    var session := new Session(policies, runtime);
    var es := Envelopes(lines);
    session.RunningNow();
    StartIs(rules, policies);
    for i := 0 to |es|
      invariant fresh(session) && fresh(session.alertReducer) && fresh(session.planner) && fresh(runtime)
      invariant forall r | 0 <= r < |runtime.reducers| :: fresh(runtime.reducers[r])
      invariant session.runtime == runtime && session.policies == policies && runtime.rules == rules
      invariant session.Valid() && Activated(rules)
      invariant P.ProcessAll(rules, es[..i], policies) == Some(session.State())
    {
      NextIs(rules, es, i, policies);
      var ok := session.Process(es[i]);
      if !ok {
        StuckIs(rules, es, i + 1, policies);
        return rules, None;
      }
    }
    assert es[..|es|] == es;
    session.RunningNow();
    ghost var s := session.State();
    FinishIs(rules, s, policies);
    if session.logical != 0 {
      var ok := session.AdvanceTime(session.logical);
    }
    output := Some(session.output);
    session.OutputIs();
  }

  lemma StartIs(rules: seq<Rule>, ps: Policies)
    requires Activated(rules)
    ensures P.ProcessAll(rules, [], ps) == Some(P.Begin(rules))
  {
  }

  lemma NextIs(rules: seq<Rule>, es: seq<P.Envelope>, i: nat, ps: Policies)
    requires Activated(rules) && i < |es| && P.ProcessAll(rules, es[..i], ps).Some?
    ensures P.Running(rules, P.ProcessAll(rules, es[..i], ps).value)
    ensures P.ProcessAll(rules, es[..i + 1], ps) == P.Process(rules, P.ProcessAll(rules, es[..i], ps).value, es[i], ps)
  {
    hide P.Process;
    assert es[..i + 1][..i] == es[..i];
  }

  // A failed line fails the replay.
  lemma {:induction false} StuckIs(rules: seq<Rule>, es: seq<P.Envelope>, i: nat, ps: Policies)
    requires Activated(rules) && i <= |es| && P.ProcessAll(rules, es[..i], ps) == None
    ensures P.ProcessAll(rules, es, ps) == None
    decreases |es| - i
  {
    hide P.Process;
    if i == |es| {
      assert es[..i] == es;
    } else {
      assert es[..i + 1][..i] == es[..i];
      StuckIs(rules, es, i + 1, ps);
    }
  }

  lemma FinishIs(rules: seq<Rule>, s: P.Replay, ps: Policies)
    requires P.Running(rules, s)
    ensures P.Finish(rules, s, ps) == if s.logical == 0 then s else P.Advanced(rules, s, s.logical, ps)
  {
  }
}
