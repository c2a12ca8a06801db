/** Why a transition of a replay was emitted, in terms of the events of its file. */
module ReplayQualification {
  import opened Wrappers
  import opened Bytes
  import opened Conditions
  import opened ConditionRuns
  import opened ConditionTiming
  import opened ConditionIsolation
  import opened Events
  import Rules
  import opened EvaluationMerge
  import opened Evaluation
  import opened PipelineStream
  import opened PipelineCoupling
  import opened Pipeline
  import opened PipelineIntake
  import opened PipelineRuns
  import opened ReplayTrace

  // ----- which event a call belongs to -----

  // The event of each call of `RuleOps`.
  function RuleEvents(rules: seq<Rule>, es: seq<Envelope>, ss: seq<Replay>, c: RuleConfig): (ev: seq<nat>)
    requires |ss| == |es| + 1
    ensures |ev| == |RuleOps(rules, es, ss, c)|
  {
    if es == [] then []
    else
      var n := |es| - 1;
      RuleEvents(rules, es[..n], ss[..n + 1], c) + seq(|EventOps(rules, ss[n], es[n], c)|, i => n)
  }

  /** The call advances to the event's clock, or applies what the rule observed of it. */
  ghost predicate OpOf(rules: seq<Rule>, s: Replay, e: Envelope, c: RuleConfig, op: Op)
  {
    || op == AdvanceOp(ClockAt(s, e))
    || (op.ApplyOp? && op.o in ObservedOn(rules, s, e) && RuleOf(c, op.o.key))
  }

  lemma {:induction false} OpsForIs(xs: seq<Observation>, c: RuleConfig)
    ensures forall op | op in OpsFor(xs, c) :: op.ApplyOp? && op.o in xs && RuleOf(c, op.o.key)
    ensures forall x | x in xs && RuleOf(c, x.key) :: ApplyOp(x) in OpsFor(xs, c)
  {
    hide RuleOf;
    if xs == [] {
    } else {
      var n := |xs| - 1;
      OpsForIs(xs[..n], c);
      assert xs == xs[..n] + [xs[n]];
    }
  }

  lemma {:induction false} OpEvents(rules: seq<Rule>, es: seq<Envelope>, ss: seq<Replay>, c: RuleConfig, q: nat)
    requires |ss| == |es| + 1 && q < |RuleOps(rules, es, ss, c)|
    ensures var a := RuleEvents(rules, es, ss, c)[q];
        a < |es| && OpOf(rules, ss[a], es[a], c, RuleOps(rules, es, ss, c)[q])
  {
    hide ObservedOn, RuleOf;
    if es == [] {
    } else {
      var n := |es| - 1;
      if q < |RuleOps(rules, es[..n], ss[..n + 1], c)| {
        OpEvents(rules, es[..n], ss[..n + 1], c, q);
      } else {
        OpsForIs(ObservedOn(rules, ss[n], es[n]), c);
        var op := RuleOps(rules, es, ss, c)[q];
        assert op in EventOps(rules, ss[n], es[n], c);
      }
    }
  }

  lemma {:induction false} EventsRise(rules: seq<Rule>, es: seq<Envelope>, ss: seq<Replay>, c: RuleConfig, p: nat,
                                      q: nat)
    requires |ss| == |es| + 1 && p <= q < |RuleOps(rules, es, ss, c)|
    ensures RuleEvents(rules, es, ss, c)[p] <= RuleEvents(rules, es, ss, c)[q]
  {
    hide EventOps;
    if es == [] {
    } else {
      var n := |es| - 1;
      var front := RuleOps(rules, es[..n], ss[..n + 1], c);
      if q < |front| {
        EventsRise(rules, es[..n], ss[..n + 1], c, p, q);
      } else if p < |front| {
        OpEvents(rules, es[..n], ss[..n + 1], c, p);
      }
    }
  }

  // The call that applies an observation of event `l`.
  lemma {:induction false} OpAt(rules: seq<Rule>, es: seq<Envelope>, ss: seq<Replay>, c: RuleConfig, l: nat,
                                x: Observation) returns (q: nat)
    requires |ss| == |es| + 1 && l < |es| && x in ObservedOn(rules, ss[l], es[l]) && RuleOf(c, x.key)
    ensures q < |RuleOps(rules, es, ss, c)| && RuleOps(rules, es, ss, c)[q] == ApplyOp(x)
        && RuleEvents(rules, es, ss, c)[q] == l
  {
    hide ObservedOn, RuleOf;
    var n := |es| - 1;
    var front := RuleOps(rules, es[..n], ss[..n + 1], c);
    if l < n {
      q := OpAt(rules, es[..n], ss[..n + 1], c, l, x);
    } else {
      var block := EventOps(rules, ss[n], es[n], c);
      OpsForIs(ObservedOn(rules, ss[n], es[n]), c);
      assert ApplyOp(x) in block;
      var i :| 0 <= i < |block| && block[i] == ApplyOp(x);
      q := |front| + i;
    }
  }

  lemma {:induction false} RuleOpsPrefix(rules: seq<Rule>, es: seq<Envelope>, ss: seq<Replay>, c: RuleConfig, n: nat)
    requires |ss| == |es| + 1 && n <= |es|
    ensures RuleOps(rules, es[..n], ss[..n + 1], c) <= RuleOps(rules, es, ss, c)
    decreases |es| - n
  {
    hide EventOps;
    if n == |es| {
      assert es[..n] == es && ss[..n + 1] == ss;
    } else {
      RuleOpsPrefix(rules, es, ss, c, n + 1);
      assert es[..n + 1][..n] == es[..n] && ss[..n + 2][..n + 1] == ss[..n + 1];
    }
  }

  // ----- every observation of a replay is accepted -----

  /** What is known of an observation an event causes. */
  ghost predicate Caused(rules: seq<Rule>, s: Replay, e: Envelope, x: Observation)
  {
    && x.observationID == ObservationID(OccurrenceID(e), x.key, x.direction)
    && x.processingAt == ClockAt(s, e) > 0 && x.effectiveAt == Timestamp(e.event) && x.key.subject == Target(e.event)
  }

  lemma ObservedCaused(rules: seq<Rule>, s: Replay, e: Envelope, ps: Policies, x: Observation)
    requires Running(rules, s) && Process(rules, s, e, ps).Some? && x in ObservedOn(rules, s, e)
    ensures Caused(rules, s, e, x)
  {
    hide Process, Observe, ObservationID, Rules.Conjunction, EvidenceFor;
    ProcessRunning(rules, s, e, ps);
    var o, t, ev := OccurrenceOf(e), ClockAt(s, e), Some(EvidenceFor(Absorbed(s.sources, e.event), Target(e.event)));
    ObserveDistinct(rules, o, t, ev);
    var n :| 0 <= n < |ObservedOn(rules, s, e)| && ObservedOn(rules, s, e)[n] == x;
    FromRuleNamed(rules, o, t, ev, x);
  }

  /** Applied observations carry identities, all different. */
  ghost predicate DistinctOps(ops: seq<Op>)
  {
    && (forall q | 0 <= q < |ops| && ops[q].ApplyOp? :: ops[q].o.observationID != "")
    && (forall p, q | 0 <= p < q < |ops| && ops[p].ApplyOp? && ops[q].ApplyOp? ::
          ops[p].o.observationID != ops[q].o.observationID)
  }

  // What the fence holds was put there by a call.
  lemma {:induction false} SeenByOps(c: RuleConfig, ops: seq<Op>, id: Text)
    requires id in Run(Init(c), ops).machine.seen
    ensures exists q :: 0 <= q < |ops| && ops[q].ApplyOp? && ops[q].o.observationID == id
  {
    hide Perform, Accepts;
    if ops == [] {
    } else {
      var n := |ops| - 1;
      PerformSeen(Run(Init(c), ops[..n]).machine, ops[n]);
      if id in Run(Init(c), ops[..n]).machine.seen {
        SeenByOps(c, ops[..n], id);
        var q :| 0 <= q < n && ops[..n][q].ApplyOp? && ops[..n][q].o.observationID == id;
        assert ops[q] == ops[..n][q];
      }
    }
  }

  lemma FreshAccepted(c: RuleConfig, ops: seq<Op>, q: nat)
    requires DistinctOps(ops) && q < |ops| && ops[q].ApplyOp? && ForRule(c, ops[q].o.key)
        && ProcessingTime(ops[q].o) != 0
    ensures Accepts(After(c, ops, q), ops[q].o)
  {
    hide Perform, Run, ForRule;
    ConfigKept(c, ops[..q]);
    var m := After(c, ops, q);
    if ops[q].o.observationID in m.seen {
      SeenByOps(c, ops[..q], ops[q].o.observationID);
    }
  }

  lemma {:induction false} OpsForDistinct(xs: seq<Observation>, c: RuleConfig)
    requires DistinctIDs(xs) && forall i | 0 <= i < |xs| :: xs[i].observationID != ""
    ensures DistinctOps(OpsFor(xs, c))
  {
    hide RuleOf;
    if xs == [] {
    } else {
      var n := |xs| - 1;
      OpsForDistinct(xs[..n], c);
      OpsForIs(xs[..n], c);
      var front := OpsFor(xs[..n], c);
      forall op | op in front ensures op.o.observationID != xs[n].observationID {
        var i :| 0 <= i < n && xs[..n][i] == op.o;
        assert xs[i].observationID != xs[n].observationID;
      }
    }
  }

  lemma DistinctConcat(a: seq<Op>, b: seq<Op>)
    requires DistinctOps(a) && DistinctOps(b)
    requires forall x, y | x in a && y in b && x.ApplyOp? && y.ApplyOp? :: x.o.observationID != y.o.observationID
    ensures DistinctOps(a + b)
  {
    var ops := a + b;
    forall p, q | 0 <= p < q < |ops| && ops[p].ApplyOp? && ops[q].ApplyOp?
      ensures ops[p].o.observationID != ops[q].o.observationID
    {
      if p < |a| <= q {
        assert ops[p] in a && ops[q] in b;
      }
    }
  }

  lemma EventOpsDistinct(rules: seq<Rule>, s: Replay, e: Envelope, ps: Policies, c: RuleConfig)
    requires Running(rules, s) && Process(rules, s, e, ps).Some?
    ensures DistinctOps(EventOps(rules, s, e, c))
  {
    hide Process, Observe, ObservationID, Caused, DistinctIDs;
    ProcessRunning(rules, s, e, ps);
    var xs := ObservedOn(rules, s, e);
    ObserveDistinct(rules, OccurrenceOf(e), ClockAt(s, e),
      Some(EvidenceFor(Absorbed(s.sources, e.event), Target(e.event))));
    forall i | 0 <= i < |xs| ensures xs[i].observationID != "" {
      ObservedCaused(rules, s, e, ps, xs[i]);
      CausedNamed(rules, s, e, xs[i]);
    }
    OpsForDistinct(xs, c);
    DistinctConcat([AdvanceOp(ClockAt(s, e))], OpsFor(xs, c));
  }

  lemma CausedNamed(rules: seq<Rule>, s: Replay, e: Envelope, x: Observation)
    requires Caused(rules, s, e, x)
    ensures x.observationID != ""
  {
  }

  // Observations of different occurrences have different identities.
  lemma CausedApart(rules: seq<Rule>, s: Replay, e: Envelope, x: Observation, s': Replay, e': Envelope, x': Observation)
    requires Caused(rules, s, e, x) && Caused(rules, s', e', x') && OccurrenceID(e) != OccurrenceID(e')
    ensures x.observationID != x'.observationID
  {
    hide ObservationID, OccurrenceID;
    if x.observationID == x'.observationID {
      ObservationIDInjective(OccurrenceID(e), x.key, x.direction, OccurrenceID(e'), x'.key, x'.direction);
    }
  }

  lemma {:induction false} RuleOpsDistinct(rules: seq<Rule>, es: seq<Envelope>, ps: Policies, ss: seq<Replay>,
                                           c: RuleConfig)
    requires Trace(rules, es, ps, ss) && DistinctLines(es)
    ensures DistinctOps(RuleOps(rules, es, ss, c))
  {
    hide Process, EventOps, OccurrenceID, Caused, OpOf, DistinctOps;
    if es == [] {
      NoOpsDistinct();
    } else {
      var n := |es| - 1;
      TracePrefix(rules, es, ps, ss, n);
      assert DistinctLines(es[..n]);
      RuleOpsDistinct(rules, es[..n], ps, ss[..n + 1], c);
      assert Running(rules, ss[n]) && Process(rules, ss[n], es[n], ps) == Some(ss[n + 1]);
      EventOpsDistinct(rules, ss[n], es[n], ps, c);
      var a, b := RuleOps(rules, es[..n], ss[..n + 1], c), EventOps(rules, ss[n], es[n], c);
      forall x, y | x in a && y in b && x.ApplyOp? && y.ApplyOp? ensures x.o.observationID != y.o.observationID {
        var q :| 0 <= q < |a| && a[q] == x;
        FrontCaused(rules, es[..n], ps, ss[..n + 1], c, q);
        var l := RuleEvents(rules, es[..n], ss[..n + 1], c)[q];
        BlockCaused(rules, ss[n], es[n], ps, c, y);
        assert es[..n][l] == es[l] && ss[..n + 1][l] == ss[l] && OccurrenceID(es[l]) != OccurrenceID(es[n]);
        CausedApart(rules, ss[l], es[l], x.o, ss[n], es[n], y.o);
      }
      DistinctConcat(a, b);
    }
  }

  lemma NoOpsDistinct()
    ensures DistinctOps([])
  {
  }

  lemma FrontCaused(rules: seq<Rule>, es: seq<Envelope>, ps: Policies, ss: seq<Replay>, c: RuleConfig, q: nat)
    requires Trace(rules, es, ps, ss) && q < |RuleOps(rules, es, ss, c)| && RuleOps(rules, es, ss, c)[q].ApplyOp?
    ensures var l := RuleEvents(rules, es, ss, c)[q]; var o := RuleOps(rules, es, ss, c)[q].o;
      l < |es| && Caused(rules, ss[l], es[l], o) && RuleOf(c, o.key) && o in ObservedOn(rules, ss[l], es[l])
  {
    hide Process, Caused, ObservedOn;
    OpEvents(rules, es, ss, c, q);
    var l := RuleEvents(rules, es, ss, c)[q];
    assert Running(rules, ss[l]) && Process(rules, ss[l], es[l], ps) == Some(ss[l + 1]);
    ObservedCaused(rules, ss[l], es[l], ps, RuleOps(rules, es, ss, c)[q].o);
  }

  lemma BlockCaused(rules: seq<Rule>, s: Replay, e: Envelope, ps: Policies, c: RuleConfig, op: Op)
    requires Running(rules, s) && Process(rules, s, e, ps).Some? && op in EventOps(rules, s, e, c) && op.ApplyOp?
    ensures Caused(rules, s, e, op.o)
  {
    hide Process, Caused, ObservedOn;
    OpsForIs(ObservedOn(rules, s, e), c);
    ObservedCaused(rules, s, e, ps, op.o);
  }

  /** In the replay of a file, every observation a rule makes of an event is accepted by its machine. */
  lemma ReplayAccepts(rules: seq<Rule>, es: seq<Envelope>, ps: Policies, ss: seq<Replay>, i: nat, q: nat)
    requires Trace(rules, es, ps, ss) && DistinctLines(es) && i < |rules|
    requires var ops := RuleOps(rules, es, ss, ConfigOf(rules[i])); q < |ops| && ops[q].ApplyOp?
    ensures var c := ConfigOf(rules[i]); var ops := RuleOps(rules, es, ss, c); Accepts(After(c, ops, q), ops[q].o)
  {
    hide Process, Accepts, After, RuleOps, RuleEvents, DistinctOps, DistinctLines;
    var c := ConfigOf(rules[i]);
    RuleOpsDistinct(rules, es, ps, ss, c);
    FrontCaused(rules, es, ps, ss, c, q);
    FreshAccepted(c, RuleOps(rules, es, ss, c), q);
  }

  // ----- qualification -----

  /** What rule `r` says of its condition in direction `d` when event `e` is evaluated. */
  function Verdict(r: Rule, s: Replay, e: Envelope, d: Direction): Rules.Outcome
  {
    Rules.Conjunction(if d == Trigger
      then r.plan.trigger else r.plan.clear, FieldsFor(Absorbed(s.sources, e.event), Target(e.event)))
  }

  /** The instant from which event `e` is taken to qualify the condition. */
  function StartedBy(s: Replay, e: Envelope, d: Direction): Time
  {
    var onset := OnsetFor(Absorbed(s.sources, e.event), Target(e.event));
    if d == Trigger && onset != 0 && onset <= Timestamp(e.event) then onset else Timestamp(e.event)
  }

  predicate ForKey(r: Rule, k: ConditionKey) { RuleOf(ConfigOf(r), k) }

  /** During event `a` the attempts of `k`, in the machine of rule `i`, reach attempt `n`. */
  predicate StartsAttempt(ss: seq<Replay>, a: nat, i: nat, k: ConditionKey, n: nat)
    requires a + 1 < |ss|
  {
    && i < |ss[a].machines| && i < |ss[a + 1].machines|
    && AttemptAt(ss[a].machines[i], k) < n <= AttemptAt(ss[a + 1].machines[i], k)
  }

  /** Event `a` found the condition of rule `i` True and started the attempt that the transition
      commits; every later event about the subject up to event `b` found it True again; and during
      event `b` the transition commits, at or after the start plus the configured duration. */
  ghost predicate Qualified(rules: seq<Rule>, i: nat, es: seq<Envelope>, ss: seq<Replay>, t: Transition, a: nat,
                            b: nat)
    requires |ss| == |es| + 1
  {
    && a <= b < |es| && i < |rules| && ForKey(rules[i], t.key) && Targets(rules[i], OccurrenceOf(es[a]))
    && Target(es[a].event) == t.key.subject
    && Verdict(rules[i], ss[a], es[a], t.direction) == Rules.PredicateTrue
    && StartsAttempt(ss, a, i, t.key, t.attempt)
    && t.times.dueAt == StartedBy(ss[a], es[a], t.direction) + DurationFor(ConfigOf(rules[i]), t.direction) <= t.at
    && forall l | a < l < b && Target(es[l].event) == t.key.subject ::
        Verdict(rules[i], ss[l], es[l], t.direction) == Rules.PredicateTrue
  }

  // An observation of an event, read back as the rule's verdict and start.
  lemma ObservedReads(rules: seq<Rule>, s: Replay, e: Envelope, i: nat, x: Observation)
    requires Activated(rules) && i < |rules| && x in ObservedOn(rules, s, e) && RuleOf(ConfigOf(rules[i]), x.key)
    ensures Targets(rules[i], OccurrenceOf(e)) && x.key.subject == Target(e.event)
    ensures x.result == TruthOf(Verdict(rules[i], s, e, x.direction))
    ensures Timestamp(e.event) != 0 ==> StartTime(x) == StartedBy(s, e, x.direction)
  {
    hide Observe, ObservationID, Rules.Conjunction, FieldsFor, OnsetFor;
    var o, t, ev := OccurrenceOf(e), ClockAt(s, e), Some(EvidenceFor(Absorbed(s.sources, e.event), Target(e.event)));
    ObserveDistinct(rules, o, t, ev);
    var n :| 0 <= n < |ObservedOn(rules, s, e)| && ObservedOn(rules, s, e)[n] == x;
    assert FromRule(rules, o, t, ev, x);
    var r :| 0 <= r < |rules| && Targets(rules[r], o) && x == ObservationFor(rules[r], o, t, x.direction, ev);
    SameRule(rules, i, r, x.key);
  }

  lemma SameRule(rules: seq<Rule>, i: nat, r: nat, k: ConditionKey)
    requires Activated(rules) && i < |rules| && r < |rules| && ForKey(rules[i], k) && ForKey(rules[r], k)
    ensures i == r
  {
    LessIrreflexive(rules[i].id);
  }

  // The rule's own observation of an event about a subject it selects.
  lemma ObservedThere(rules: seq<Rule>, s: Replay, e: Envelope, i: nat, k: ConditionKey, d: Direction)
    returns (x: Observation)
    requires i < |rules| && ForKey(rules[i], k) && Target(e.event) == k.subject && Targets(rules[i], OccurrenceOf(e))
    ensures x in ObservedOn(rules, s, e) && x.key == k && x.direction == d
  {
    hide Observe, ObservationID, Rules.Conjunction, EvidenceFor;
    var o, t, ev := OccurrenceOf(e), ClockAt(s, e), Some(EvidenceFor(Absorbed(s.sources, e.event), Target(e.event)));
    ObserveHas(rules, o, t, ev, i, d);
    x := ObservationFor(rules[i], o, t, d, ev);
  }

  lemma {:induction false} EmittedByOp(m: Machine, ops: seq<Op>, t: Transition) returns (n: nat, i: nat)
    requires t in Run(m, ops).out
    ensures n < |ops| && i < |Perform(Run(m, ops[..n]).machine, ops[n]).out|
        && Perform(Run(m, ops[..n]).machine, ops[n]).out[i] == t
  {
    hide Perform;
    var last := |ops| - 1;
    var before := Run(m, ops[..last]);
    if t in before.out {
      n, i := EmittedByOp(m, ops[..last], t);
      assert ops[..last][..n] == ops[..n];
    } else {
      var out := Perform(before.machine, ops[last]).out;
      assert t in out;
      n := last;
      i :| 0 <= i < |out| && out[i] == t;
    }
  }

  // The call of event `b` that emits an entry of the stream.
  lemma EmittedDuring(rules: seq<Rule>, es: seq<Envelope>, ps: Policies, ss: seq<Replay>, b: nat, j: nat, i: nat)
    returns (q: nat, e: nat)
    requires Trace(rules, es, ps, ss) && b < |es| && |ss[b].stream| <= j < |ss[b + 1].stream| && i < |rules|
    requires ss[b].stream <= ss[b + 1].stream && ForKey(rules[i], ss[b + 1].stream[j].key)
    ensures var c := ConfigOf(rules[i]); var ops := RuleOps(rules, es, ss, c);
      && q < |ops| && RuleEvents(rules, es, ss, c)[q] == b
      && e < |Perform(After(c, ops, q), ops[q]).out| && Perform(After(c, ops, q), ops[q]).out[e] == ss[b + 1].stream[j]
  {
    hide Process, EventOps, Perform, OfRule, RuleOf, Activated, Running;
    var c, t, s := ConfigOf(rules[i]), ss[b + 1].stream[j], ss[b];
    var block, pre := EventOps(rules, s, es[b], c), RuleOps(rules, es[..b], ss[..b + 1], c);
    assert Running(rules, s) && Process(rules, s, es[b], ps) == Some(ss[b + 1]);
    ProcessRuns(rules, s, es[b], ps, i);
    TracePrefix(rules, es, ps, ss, b);
    ReplayIsRun(rules, es[..b], ps, ss[..b + 1], i);
    NewEntry(s.stream, ss[b + 1].stream, Run(s.machines[i], block).out, j, c);
    var n;
    n, e := EmittedByOp(s.machines[i], block, t);
    q := |pre| + n;
    CallAt(rules, es, ss, c, b, n);
    var ops := RuleOps(rules, es, ss, c);
    assert ops[..q] == (pre + block)[..q] == pre + block[..n] && ops[q] == (pre + block)[q] == block[n];
    RunConcat(Init(c), pre, block[..n]);
  }

  lemma NewEntry(js: seq<Transition>, js': seq<Transition>, out: seq<Transition>, j: nat, c: RuleConfig)
    requires js <= js' && |js| <= j < |js'| && RuleOf(c, js'[j].key) && OfRule(js', c) == OfRule(js, c) + out
    ensures js'[j] in out
  {
    hide RuleOf, OfRule;
    var more := js'[|js|..];
    assert js' == js + more && more[j - |js|] == js'[j];
    OfRuleConcat(js, more, c);
    assert OfRule(more, c) == OfRule(js', c)[|OfRule(js, c)|..] == out;
    OfRuleHas(more, c, j - |js|);
  }

  lemma {:induction false} OfRuleHas(out: seq<Transition>, c: RuleConfig, n: nat)
    requires n < |out| && RuleOf(c, out[n].key)
    ensures out[n] in OfRule(out, c)
  {
    hide RuleOf;
    var last := |out| - 1;
    if n < last { OfRuleHas(out[..last], c, n); }
  }

  // Call `n` of event `b` among all the calls of a rule.
  lemma CallAt(rules: seq<Rule>, es: seq<Envelope>, ss: seq<Replay>, c: RuleConfig, b: nat, n: nat)
    requires |ss| == |es| + 1 && b < |es| && n < |EventOps(rules, ss[b], es[b], c)|
    ensures var pre := RuleOps(rules, es[..b], ss[..b + 1], c); var ops := RuleOps(rules, es, ss, c);
      && |pre| + n < |ops| && pre + EventOps(rules, ss[b], es[b], c) <= ops
      && RuleEvents(rules, es, ss, c)[|pre| + n] == b
  {
    hide EventOps;
    RuleOpsPrefix(rules, es, ss, c, b + 1);
    assert es[..b + 1][..b] == es[..b] && ss[..b + 2][..b + 1] == ss[..b + 1];
    RuleEventsPrefix(rules, es, ss, c, b + 1);
  }

  lemma {:induction false} RuleEventsPrefix(rules: seq<Rule>, es: seq<Envelope>, ss: seq<Replay>, c: RuleConfig, n: nat)
    requires |ss| == |es| + 1 && n <= |es|
    ensures RuleEvents(rules, es[..n], ss[..n + 1], c) <= RuleEvents(rules, es, ss, c)
    decreases |es| - n
  {
    hide EventOps;
    if n == |es| {
      assert es[..n] == es && ss[..n + 1] == ss;
    } else {
      RuleEventsPrefix(rules, es, ss, c, n + 1);
      assert es[..n + 1][..n] == es[..n] && ss[..n + 2][..n + 1] == ss[..n + 1];
    }
  }

  // The call that started the timer, read back as an event.
  lemma ArmingEvent(rules: seq<Rule>, es: seq<Envelope>, ps: Policies, ss: seq<Replay>, i: nat, q: nat, timer: Timer)
    requires Trace(rules, es, ps, ss) && i < |rules| && ForKey(rules[i], timer.key)
    requires var c := ConfigOf(rules[i]); var ops := RuleOps(rules, es, ss, c);
        q < |ops| && ArmsTimer(After(c, ops, q), ops[q], timer)
    ensures var c := ConfigOf(rules[i]); var a := RuleEvents(rules, es, ss, c)[q];
      && a < |es| && Targets(rules[i], OccurrenceOf(es[a])) && Target(es[a].event) == timer.key.subject
      && Verdict(rules[i], ss[a], es[a], timer.direction) == Rules.PredicateTrue
      && timer.dueAt == StartedBy(ss[a], es[a], timer.direction) + DurationFor(c, timer.direction)
  {
    hide Process, ObservedOn, Verdict, StartedBy, Targets, After, RuleOps, RuleEvents, Accepts, ConfigOf;
    var c := ConfigOf(rules[i]);
    var a, op := RuleEvents(rules, es, ss, c)[q], RuleOps(rules, es, ss, c)[q];
    FrontCaused(rules, es, ps, ss, c, q);
    assert Running(rules, ss[a]) && Process(rules, ss[a], es[a], ps) == Some(ss[a + 1]);
    EventStamped(rules, ss[a], es[a], ps);
    ObservedReads(rules, ss[a], es[a], i, op.o);
    AfterConfig(c, RuleOps(rules, es, ss, c), q);
  }

  lemma AfterConfig(c: RuleConfig, ops: seq<Op>, q: nat)
    requires q <= |ops|
    ensures After(c, ops, q).config == c
  {
    ConfigKept(c, ops[..q]);
  }

  lemma EventStamped(rules: seq<Rule>, s: Replay, e: Envelope, ps: Policies)
    requires Running(rules, s) && Process(rules, s, e, ps).Some?
    ensures Timestamp(e.event) != 0 && Timestamp(e.event) <= ClockAt(s, e)
  {
    hide Process;
    ProcessRunning(rules, s, e, ps);
  }

  // No call between two events denied the key, so no event between them was anything but True.
  lemma StaysTrue(rules: seq<Rule>, es: seq<Envelope>, ps: Policies, ss: seq<Replay>, i: nat, p: nat, q: nat, l: nat,
                  k: ConditionKey, d: Direction)
    requires Trace(rules, es, ps, ss) && DistinctLines(es) && i < |rules| && ForKey(rules[i], k)
    requires var c := ConfigOf(rules[i]); var ops, ev := RuleOps(rules, es, ss, c), RuleEvents(rules, es, ss, c);
      && p < q < |ops| && ev[p] < l < ev[q]
      && forall n | p < n < q :: !Denies(After(c, ops, n), ops[n], k, d)
    requires l < |es| && Target(es[l].event) == k.subject && Targets(rules[i], OccurrenceOf(es[l]))
    ensures Verdict(rules[i], ss[l], es[l], d) == Rules.PredicateTrue
  {
    hide Process, ObservedOn, Verdict, Targets, After, RuleOps, RuleEvents, Accepts, DistinctLines;
    var c := ConfigOf(rules[i]);
    var ops, ev := RuleOps(rules, es, ss, c), RuleEvents(rules, es, ss, c);
    var x := ObservedThere(rules, ss[l], es[l], i, k, d);
    var n := OpAt(rules, es, ss, c, l, x);
    if n <= p { EventsRise(rules, es, ss, c, n, p); }
    if q <= n { EventsRise(rules, es, ss, c, q, n); }
    ReplayAccepts(rules, es, ps, ss, i, n);
    assert !Denies(After(c, ops, n), ops[n], k, d);
    ObservedReads(rules, ss[l], es[l], i, x);
  }

  lemma SelectsSubject(r: Rule, e: Envelope, e': Envelope)
    requires Targets(r, OccurrenceOf(e)) && Target(e'.event) == Target(e.event)
    ensures Targets(r, OccurrenceOf(e'))
  {
  }

  // The machine of a rule before event `n`, as a state of the rule's own run.
  lemma MachineBefore(rules: seq<Rule>, es: seq<Envelope>, ps: Policies, ss: seq<Replay>, i: nat, n: nat)
    requires Trace(rules, es, ps, ss) && i < |rules| && n <= |es|
    ensures var c := ConfigOf(rules[i]);
      var ops, pre := RuleOps(rules, es, ss, c), RuleOps(rules, es[..n], ss[..n + 1], c);
      |ss[n].machines| == |rules| && |pre| <= |ops| && ss[n].machines[i] == After(c, ops, |pre|)
  {
    hide Process, RuleOps, Running, Activated, Run;
    var c := ConfigOf(rules[i]);
    TracePrefix(rules, es, ps, ss, n);
    ReplayIsRun(rules, es[..n], ps, ss[..n + 1], i);
    RuleOpsPrefix(rules, es, ss, c, n);
    var ops, pre := RuleOps(rules, es, ss, c), RuleOps(rules, es[..n], ss[..n + 1], c);
    assert ops[..|pre|] == pre;
  }

  // A call of event `a` comes after every call of the events before it, and within those up to it.
  lemma CallWithin(rules: seq<Rule>, es: seq<Envelope>, ss: seq<Replay>, c: RuleConfig, q: nat)
    requires |ss| == |es| + 1 && q < |RuleOps(rules, es, ss, c)|
    ensures var a := RuleEvents(rules, es, ss, c)[q];
      && a < |es| && |RuleOps(rules, es[..a], ss[..a + 1], c)| <= q
      && q < |RuleOps(rules, es[..a + 1], ss[..a + 2], c)|
  {
    hide RuleOps, RuleEvents, OpOf;
    OpEvents(rules, es, ss, c, q);
    var a := RuleEvents(rules, es, ss, c)[q];
    if q < |RuleOps(rules, es[..a], ss[..a + 1], c)| {
      OpEvents(rules, es[..a], ss[..a + 1], c, q);
      RuleEventsPrefix(rules, es, ss, c, a);
    }
    if |RuleOps(rules, es[..a + 1], ss[..a + 2], c)| <= q {
      LaterEvents(rules, es, ss, c, a + 1, q);
    }
  }

  // The event of an arming call is the one during which the key reaches the timer's attempt.
  lemma ArmingReaches(rules: seq<Rule>, es: seq<Envelope>, ps: Policies, ss: seq<Replay>, i: nat, q: nat, timer: Timer)
    requires Trace(rules, es, ps, ss) && i < |rules|
    requires var c := ConfigOf(rules[i]); var ops := RuleOps(rules, es, ss, c);
        q < |ops| && ArmsTimer(After(c, ops, q), ops[q], timer)
    ensures var a := RuleEvents(rules, es, ss, ConfigOf(rules[i]))[q];
        a < |es| && StartsAttempt(ss, a, i, timer.key, timer.attempt)
  {
    hide Process, Running, Activated, RuleOps, RuleEvents, ArmsTimer, AttemptAt, After, ConfigOf, Perform;
    var c := ConfigOf(rules[i]);
    var ops, a := RuleOps(rules, es, ss, c), RuleEvents(rules, es, ss, c)[q];
    CallWithin(rules, es, ss, c, q);
    MachineBefore(rules, es, ps, ss, i, a);
    MachineBefore(rules, es, ps, ss, i, a + 1);
    ArmingTakes(After(c, ops, q), ops[q], timer);
    AfterNext(c, ops, q);
    AttemptsGrow(c, ops, |RuleOps(rules, es[..a], ss[..a + 1], c)|, q, timer.key);
    AttemptsGrow(c, ops, q + 1, |RuleOps(rules, es[..a + 1], ss[..a + 2], c)|, timer.key);
  }

  // The call that emits an entry of the stream, and the call that started its attempt.
  lemma CommitCalls(rules: seq<Rule>, es: seq<Envelope>, ps: Policies, ss: seq<Replay>, b: nat, j: nat)
    returns (i: nat, n: nat, q: nat)
    requires Trace(rules, es, ps, ss) && b < |es| && |ss[b].stream| <= j < |ss[b + 1].stream|
    ensures i < |rules| && ForKey(rules[i], ss[b + 1].stream[j].key)
    ensures var t := ss[b + 1].stream[j];
      var c := ConfigOf(rules[i]); var ops, ev := RuleOps(rules, es, ss, c), RuleEvents(rules, es, ss, c);
      && n <= q < |ops| && ev[q] == b && t.times.dueAt <= t.at && ArmsTimer(After(c, ops, n), ops[n], TimerFired(t))
      && forall l | n < l < q :: !Denies(After(c, ops, l), ops[l], t.key, t.direction)
  {
    hide Process, After, RuleOps, RuleEvents, Denies, Activated, Running, ConfigOf, ArmsTimer, Perform, ForKey;
    var e;
    i := TransitionRule(rules, es, ps, ss, b, j);
    q, e := EmittedDuring(rules, es, ps, ss, b, j, i);
    n := CommitsQualify(ConfigOf(rules[i]), RuleOps(rules, es, ss, ConfigOf(rules[i])), q, e);
  }

  /** Every transition of a replay was earned by its events: the event about the subject that started
      its attempt did so with the rule's compiled condition True on the sources then held; no later
      event about the subject found it otherwise before the commit; and it commits no earlier than
      the start plus the configured duration. */
  lemma ReplayQualified(rules: seq<Rule>, es: seq<Envelope>, ps: Policies, ss: seq<Replay>, b: nat, j: nat)
    returns (i: nat, a: nat)
    requires Trace(rules, es, ps, ss) && DistinctLines(es)
    requires b < |es| && |ss[b].stream| <= j < |ss[b + 1].stream|
    ensures Qualified(rules, i, es, ss, ss[b + 1].stream[j], a, b)
  {
    hide Process, After, RuleOps, RuleEvents, Verdict, StartedBy, Targets, Denies, DistinctLines, Activated,
      Running, ConfigOf, StartsAttempt, ArmsTimer, ForKey;
    var t := ss[b + 1].stream[j];
    var n, q;
    i, n, q := CommitCalls(rules, es, ps, ss, b, j);
    var c := ConfigOf(rules[i]);
    ArmingReaches(rules, es, ps, ss, i, n, TimerFired(t));
    ArmingEvent(rules, es, ps, ss, i, n, TimerFired(t));
    a := RuleEvents(rules, es, ss, c)[n];
    EventsRise(rules, es, ss, c, n, q);
    forall l | a < l < b && Target(es[l].event) == t.key.subject
      ensures Verdict(rules[i], ss[l], es[l], t.direction) == Rules.PredicateTrue
    {
      SelectsSubject(rules[i], es[a], es[l]);
      StaysTrue(rules, es, ps, ss, i, n, q, l, t.key, t.direction);
    }
  }

  lemma MachineAttempts(rules: seq<Rule>, es: seq<Envelope>, ps: Policies, ss: seq<Replay>, i: nat, m: nat, n: nat,
                        k: ConditionKey)
    requires Trace(rules, es, ps, ss) && i < |rules| && m <= n <= |es|
    ensures i < |ss[m].machines| && i < |ss[n].machines|
    ensures AttemptAt(ss[m].machines[i], k) <= AttemptAt(ss[n].machines[i], k)
  {
    hide Process, Running, Activated, RuleOps, AttemptAt, After, ConfigOf;
    MachineBefore(rules, es, ps, ss, i, m);
    MachineBefore(rules, es, ps, ss, i, n);
    var c := ConfigOf(rules[i]);
    assert es[..n][..m] == es[..m] && ss[..n + 1][..m + 1] == ss[..m + 1];
    RuleOpsPrefix(rules, es[..n], ss[..n + 1], c, m);
    AttemptsGrow(c, RuleOps(rules, es, ss, c), |RuleOps(rules, es[..m], ss[..m + 1], c)|,
      |RuleOps(rules, es[..n], ss[..n + 1], c)|, k);
  }

  /** One rule and one event at most earn a transition: the rule that owns its key, and the event
      during which that key reached the attempt. */
  lemma QualifiedOnce(rules: seq<Rule>, es: seq<Envelope>, ps: Policies, ss: seq<Replay>, t: Transition, i: nat,
                      a: nat, b: nat, i': nat, a': nat, b': nat)
    requires Trace(rules, es, ps, ss)
    requires Qualified(rules, i, es, ss, t, a, b) && Qualified(rules, i', es, ss, t, a', b')
    ensures i == i' && a == a'
  {
    hide Process, Running, Activated, AttemptAt, Verdict, StartedBy, Targets, ConfigOf, ForKey;
    SameRule(rules, i, i', t.key);
    if a < a' { MachineAttempts(rules, es, ps, ss, i, a + 1, a', t.key); }
    if a' < a { MachineAttempts(rules, es, ps, ss, i, a' + 1, a, t.key); }
  }

  lemma TransitionRule(rules: seq<Rule>, es: seq<Envelope>, ps: Policies, ss: seq<Replay>, b: nat, j: nat)
    returns (i: nat)
    requires Trace(rules, es, ps, ss) && b < |es| && |ss[b].stream| <= j < |ss[b + 1].stream|
    ensures i < |rules| && ForKey(rules[i], ss[b + 1].stream[j].key) && ss[b].stream <= ss[b + 1].stream
  {
    hide Process, Running, Activated, ReplayOK;
    TracePrefix(rules, es, ps, ss, b);
    TraceEnds(rules, es[..b], ps, ss[..b + 1]);
    ProcessAllOK(rules, es[..b], ps);
    assert Running(rules, ss[b]) && Process(rules, ss[b], es[b], ps) == Some(ss[b + 1]);
    ProcessOK(rules, ss[b], es[b], ps);
    var fired, applied :| EventEmits(ss[b], ss[b + 1], fired, applied);
    StreamOwned(rules, ss[b + 1], ps);
    assert Owned(rules, ss[b + 1].stream[j].key);
    i :| 0 <= i < |rules| && RuleOf(ConfigOf(rules[i]), ss[b + 1].stream[j].key);
  }

  // ----- fulfilment -----

  lemma {:induction false} OutHas(m: Machine, ops: seq<Op>, q: nat, t: Transition)
    requires q < |ops| && t in Perform(Run(m, ops[..q]).machine, ops[q]).out
    ensures t in Run(m, ops).out
  {
    hide Perform;
    var n := |ops| - 1;
    if q < n {
      assert ops[..n][..q] == ops[..q];
      OutHas(m, ops[..n], q, t);
    }
  }

  lemma {:induction false} OfRuleWithin(out: seq<Transition>, c: RuleConfig, t: Transition)
    requires t in OfRule(out, c)
    ensures t in out
  {
    hide RuleOf;
    if out == [] {
    } else {
      var n := |out| - 1;
      if t in OfRule(out[..n], c) { OfRuleWithin(out[..n], c, t); }
    }
  }

  lemma {:induction false} LaterEvents(rules: seq<Rule>, es: seq<Envelope>, ss: seq<Replay>, c: RuleConfig, n: nat,
                                       q: nat)
    requires |ss| == |es| + 1 && n <= |es|
        && |RuleOps(rules, es[..n], ss[..n + 1], c)| <= q < |RuleOps(rules, es, ss, c)|
    ensures n <= RuleEvents(rules, es, ss, c)[q]
  {
    hide EventOps;
    assert es[..|es|] == es && ss[..|es| + 1] == ss;
    if n < |es| {
      var m := |es| - 1;
      if q < |RuleOps(rules, es[..m], ss[..m + 1], c)| {
        assert es[..m][..n] == es[..n] && ss[..m + 1][..n + 1] == ss[..n + 1];
        LaterEvents(rules, es[..m], ss[..m + 1], c, n, q);
      }
    }
  }

  // An accepted observation leaves the clock no earlier than its own stamp.
  lemma ClockReached(m: Machine, o: Observation)
    requires Accepts(m, o)
    ensures ProcessingTime(o) <= ApplyTo(m, o).machine.logical
  {
    hide AdvanceTo, Absorb;
    AdvancedTracker(m, o, o.key);
    AbsorbTracker(ConditionRuns.Advanced(m, o), o);
  }

  // A call that denies the timer in time belongs to an event that found the rule otherwise in time.
  lemma DenialIsEvent(rules: seq<Rule>, es: seq<Envelope>, ps: Policies, ss: seq<Replay>, i: nat, q: nat, timer: Timer)
    requires Trace(rules, es, ps, ss) && i < |rules| && ForKey(rules[i], timer.key)
    requires var c := ConfigOf(rules[i]); DeniedInTime(c, RuleOps(rules, es, ss, c), q, timer)
    ensures var l := RuleEvents(rules, es, ss, ConfigOf(rules[i]))[q];
      && l < |es| && Target(es[l].event) == timer.key.subject && Targets(rules[i], OccurrenceOf(es[l]))
      && ClockAt(ss[l], es[l]) < timer.dueAt && Verdict(rules[i], ss[l], es[l], timer.direction) != Rules.PredicateTrue
  {
    hide Process, ObservedOn, Verdict, Targets, RuleOps, RuleEvents, Accepts, ApplyTo, ConfigOf;
    var c := ConfigOf(rules[i]);
    var ops := RuleOps(rules, es, ss, c);
    var l, o := RuleEvents(rules, es, ss, c)[q], ops[q].o;
    FrontCaused(rules, es, ps, ss, c, q);
    ObservedReads(rules, ss[l], es[l], i, o);
    AfterNext(c, ops, q);
    ClockReached(After(c, ops, q), o);
  }

  lemma NoFireOps(rules: seq<Rule>, es: seq<Envelope>, ss: seq<Replay>, c: RuleConfig)
    requires |ss| == |es| + 1
    ensures NoFire(RuleOps(rules, es, ss, c))
  {
    hide ObservedOn, RuleOps, RuleEvents;
    forall q | 0 <= q < |RuleOps(rules, es, ss, c)| ensures !RuleOps(rules, es, ss, c)[q].FireOp? {
      OpEvents(rules, es, ss, c, q);
    }
  }

  /** A timer pending before event `n`, and found True by every later event about its subject whose
      clock is short of the due time, is still pending at the end or has committed at its due time. */
  lemma ReplayFulfilled(rules: seq<Rule>, es: seq<Envelope>, ps: Policies, ss: seq<Replay>, i: nat, n: nat,
                        timer: Timer)
    requires Trace(rules, es, ps, ss) && i < |rules| && n <= |es| && ForKey(rules[i], timer.key)
    requires i < |ss[n].machines| && HasTimer(ss[n].machines[i], timer)
    requires forall l | n <= l < |es| && Target(es[l].event) == timer.key.subject
        && Targets(rules[i], OccurrenceOf(es[l]))
               && ClockAt(ss[l], es[l]) < timer.dueAt ::
                   Verdict(rules[i], ss[l], es[l], timer.direction) == Rules.PredicateTrue
    ensures i < |ss[|es|].machines|
    ensures if ss[|es|].machines[i].logical < timer.dueAt then HasTimer(ss[|es|].machines[i], timer)
            else exists t :: t in ss[|es|].stream && TimerFired(t) == timer && t.at == timer.dueAt
  {
    hide Process, ObservedOn, Verdict, Targets, RuleOps, RuleEvents, Perform, Running, Activated, ConfigOf, OfRule,
      DeniedInTime;
    var c := ConfigOf(rules[i]);
    var ops, pre := RuleOps(rules, es, ss, c), RuleOps(rules, es[..n], ss[..n + 1], c);
    TracePrefix(rules, es, ps, ss, n);
    ReplayIsRun(rules, es[..n], ps, ss[..n + 1], i);
    ReplayIsRun(rules, es, ps, ss, i);
    RuleOpsPrefix(rules, es, ss, c, n);
    assert ops[..|pre|] == pre && ops[..|ops|] == ops;
    NoFireOps(rules, es, ss, c);
    forall q | |pre| <= q < |ops| ensures !DeniedInTime(c, ops, q, timer) {
      LaterEvents(rules, es, ss, c, n, q);
      if DeniedInTime(c, ops, q, timer) { DenialIsEvent(rules, es, ps, ss, i, q, timer); }
    }
    TimerFulfilled(c, ops, |pre|, |ops|, timer);
    if timer.dueAt <= After(c, ops, |ops|).logical {
      var q :| |pre| <= q < |ops| && CommitsAtDue(Perform(After(c, ops, q), ops[q]).out, timer);
      var out := Perform(After(c, ops, q), ops[q]).out;
      var e: nat :| e < |out| && TimerFired(out[e]) == timer && out[e].at == timer.dueAt;
      OutHas(Init(c), ops, q, out[e]);
      OfRuleWithin(ss[|es|].stream, c, out[e]);
    }
  }
}
