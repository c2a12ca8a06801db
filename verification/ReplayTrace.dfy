/** A replay as the states between its events, and the calls each rule's machine receives in it.
    Whatever is proved of a run of calls thereby holds of a replay. */
module ReplayTrace {
  import opened Wrappers
  import opened Conditions
  import opened ConditionRuns
  import opened ConditionIsolation
  import opened Events
  import opened EvaluationMerge
  import opened Evaluation
  import opened PipelineStream
  import opened PipelineCoupling
  import opened Pipeline

  /** `ss[n]` is the state before event `n`, and the last one the state at the end. */
  ghost predicate Trace(rules: seq<Rule>, es: seq<Envelope>, ps: Policies, ss: seq<Replay>)
  {
    && |ss| == |es| + 1 && Activated(rules) && ss[0] == Begin(rules)
    && forall n | 0 <= n < |es| :: Running(rules, ss[n]) && Process(rules, ss[n], es[n], ps) == Some(ss[n + 1])
  }

  /** Every successful replay has its trace, which ends in the replay's own result. */
  lemma {:induction false} TraceOf(rules: seq<Rule>, es: seq<Envelope>, ps: Policies) returns (ss: seq<Replay>)
    requires Activated(rules) && ProcessAll(rules, es, ps).Some?
    ensures Trace(rules, es, ps, ss) && ProcessAll(rules, es, ps) == Some(ss[|es|])
  {
    hide Process, Activated, Running;
    if es == [] {
      ss := [Begin(rules)];
    } else {
      var n := |es| - 1;
      var front := TraceOf(rules, es[..n], ps);
      ss := front + [ProcessAll(rules, es, ps).value];
      forall i | 0 <= i < |es| ensures Running(rules, ss[i]) && Process(rules, ss[i], es[i], ps) == Some(ss[i + 1]) {
        if i < n { assert es[..n][i] == es[i]; }
      }
    }
  }

  lemma TracePrefix(rules: seq<Rule>, es: seq<Envelope>, ps: Policies, ss: seq<Replay>, n: nat)
    requires Trace(rules, es, ps, ss) && n <= |es|
    ensures Trace(rules, es[..n], ps, ss[..n + 1])
  {
    hide Process, Activated, Running;
  }

  lemma {:induction false} TraceEnds(rules: seq<Rule>, es: seq<Envelope>, ps: Policies, ss: seq<Replay>)
    requires Trace(rules, es, ps, ss)
    ensures ProcessAll(rules, es, ps) == Some(ss[|es|])
  {
    hide Process, Running;
    if es == [] {
    } else {
      var n := |es| - 1;
      TracePrefix(rules, es, ps, ss, n);
      TraceEnds(rules, es[..n], ps, ss[..n + 1]);
    }
  }

  // ----- the calls one machine receives -----

  /** What evaluating an event produces, in the state before it. */
  function ObservedOn(rules: seq<Rule>, s: Replay, e: Envelope): seq<Observation>
  {
    Observe(rules, OccurrenceOf(e), ClockAt(s, e), Some(EvidenceFor(Absorbed(s.sources, e.event), Target(e.event))))
  }

  function OpsFor(xs: seq<Observation>, c: RuleConfig): seq<Op>
  {
    if xs == [] then []
    else
      var n := |xs| - 1;
      if RuleOf(c, xs[n].key) then OpsFor(xs[..n], c) + [ApplyOp(xs[n])] else OpsFor(xs[..n], c)
  }

  /** One event, seen from one rule: advance to the clock, then its own observations in order. */
  function EventOps(rules: seq<Rule>, s: Replay, e: Envelope, c: RuleConfig): seq<Op>
  {
    [AdvanceOp(ClockAt(s, e))] + OpsFor(ObservedOn(rules, s, e), c)
  }

  function RuleOps(rules: seq<Rule>, es: seq<Envelope>, ss: seq<Replay>, c: RuleConfig): seq<Op>
    requires |ss| == |es| + 1
  {
    if es == [] then []
    else
      var n := |es| - 1;
      RuleOps(rules, es[..n], ss[..n + 1], c) + EventOps(rules, ss[n], es[n], c)
  }

  lemma {:induction false} RunConcat(m: Machine, a: seq<Op>, b: seq<Op>)
    ensures var first := Run(m, a); var second := Run(first.machine, b);
      Run(m, a + b) == Step(second.machine, first.out + second.out)
  {
    hide Perform;
    var first := Run(m, a);
    if b == [] {
      assert a + b == a && first.out + [] == first.out;
    } else {
      var n := |b| - 1;
      RunConcat(m, a, b[..n]);
      assert (a + b)[..|a + b| - 1] == a + b[..n];
      var mid := Run(first.machine, b[..n]);
      var last := Perform(mid.machine, b[n]);
      assert first.out + (mid.out + last.out) == (first.out + mid.out) + last.out;
    }
  }

  lemma {:induction false} ApplyAllRuns(rules: seq<Rule>, ms: seq<Machine>, t: Time, xs: seq<Observation>, i: nat)
    requires Activated(rules) && Aligned(rules, ms, t) && i < |rules|
    requires forall n | 0 <= n < |xs| :: ItemOK(rules, t, xs[n])
    ensures Aligned(rules, ApplyAll(ms, xs).machines, t)
    ensures var r := Run(ms[i], OpsFor(xs, ConfigOf(rules[i])));
      ApplyAll(ms, xs).machines[i] == r.machine && OfRule(ApplyAll(ms, xs).out, ConfigOf(rules[i])) == r.out
  {
    hide Activated, ApplyTo, ItemOK, RuleOf, OwnsKeys;
    ApplyAllAligned(rules, ms, t, xs);
    if xs == [] {
    } else {
      var n, c := |xs| - 1, ConfigOf(rules[i]);
      ApplyAllRuns(rules, ms, t, xs[..n], i);
      var before := ApplyAll(ms, xs[..n]);
      var j := ItemOwner(rules, t, xs[n]);
      ApplyStep(rules, before.machines, t, j, xs[n]);
      var st := ApplyTo(before.machines[j], xs[n]);
      OfRuleConcat(before.out, st.out, c);
      OwnerOut(rules, before.machines, t, j, i, xs[n]);
      assert OfRule(before.out, c) + [] == OfRule(before.out, c);
      RunSnoc(ms[i], OpsFor(xs[..n], c), ApplyOp(xs[n]));
    }
  }

  // What an application emits belongs to the rule of its observation.
  lemma OwnerOut(rules: seq<Rule>, ms: seq<Machine>, t: Time, j: nat, i: nat, x: Observation)
    requires Activated(rules) && Aligned(rules, ms, t) && j < |rules| && i < |rules|
    requires RuleOf(ConfigOf(rules[j]), x.key)
    ensures RuleOf(ConfigOf(rules[i]), x.key) <==> i == j
    ensures OfRule(ApplyTo(ms[j], x).out, ConfigOf(rules[i])) == if i == j then ApplyTo(ms[j], x).out else []
  {
    hide ApplyTo;
    AlignedApart(rules, ms, t);
    var out := ApplyTo(ms[j], x).out;
    ApplyKeys(ms[j], x);
    if i == j {
      OfRuleAll(out, ConfigOf(rules[i]));
    } else {
      RulesDiffer(ms, i, j, x.key);
      forall n | 0 <= n < |out| ensures !RuleOf(ConfigOf(rules[i]), out[n].key) { RulesDiffer(ms, i, j, out[n].key); }
      OfRuleNone(out, ConfigOf(rules[i]));
    }
  }

  lemma AdvanceRuns(rules: seq<Rule>, ms: seq<Machine>, t: Time, now: Time, i: nat)
    requires Activated(rules) && Aligned(rules, ms, t) && i < |rules| && t <= now && now > 0
    ensures Apart(ms) && ClocksBy(ms, now) && Aligned(rules, AdvanceAll(ms, now).machines, now)
    ensures var r := Run(ms[i], [AdvanceOp(now)]);
      AdvanceAll(ms, now).machines[i] == r.machine && OfRule(AdvanceAll(ms, now).out, ConfigOf(rules[i])) == r.out
  {
    hide AdvanceAll, AdvanceTo, OwnsKeys, FromDue;
    AdvanceAllAligned(rules, ms, t, now);
    AdvanceAllMerges(ms, now);
    RunOne(ms[i], AdvanceOp(now));
  }

  lemma AlignedLength(rules: seq<Rule>, ms: seq<Machine>, t: Time)
    requires Aligned(rules, ms, t)
    ensures |ms| == |rules|
  {
  }

  lemma ProcessRuns(rules: seq<Rule>, s: Replay, e: Envelope, ps: Policies, i: nat)
    requires Running(rules, s) && Process(rules, s, e, ps).Some? && i < |rules|
    ensures var s' := Process(rules, s, e, ps).value; var c := ConfigOf(rules[i]);
      var r := Run(s.machines[i], EventOps(rules, s, e, c));
      s'.machines[i] == r.machine && OfRule(s'.stream, c) == OfRule(s.stream, c) + r.out
  {
    hide AdvanceAll, ApplyAll, EmitAll, Observe, ObservationOK, OfRule, Aligned, Activated, ItemOK, Run, ConfigOf;
    var t, c := ClockAt(s, e), ConfigOf(rules[i]);
    AlignedLength(rules, s.machines, s.logical);
    AdvanceRuns(rules, s.machines, s.logical, t, i);
    var s1 := Pipeline.Advanced(rules, s, t, ps);
    var xs := ObservedOn(rules, s, e);
    ObserveItems(rules, OccurrenceOf(e), t, Some(EvidenceFor(Absorbed(s.sources, e.event), Target(e.event))));
    ApplyAllRuns(rules, s1.machines, t, xs, i);
    RunConcat(s.machines[i], [AdvanceOp(t)], OpsFor(xs, c));
    var first, second := AdvanceAll(s.machines, t).out, ApplyAll(s1.machines, xs).out;
    OfRuleConcat(s.stream, first, c);
    OfRuleConcat(s.stream + first, second, c);
    assert OfRule(s.stream, c) + (OfRule(first, c) + OfRule(second, c))
      == (OfRule(s.stream, c) + OfRule(first, c)) + OfRule(second, c);
  }

  /** Each rule's machine in a replay is exactly a run of its own calls, and its part of the stream is
      what that run emits. */
  lemma {:induction false} ReplayIsRun(rules: seq<Rule>, es: seq<Envelope>, ps: Policies, ss: seq<Replay>, i: nat)
    requires Trace(rules, es, ps, ss) && i < |rules|
    ensures |ss[|es|].machines| == |rules|
    ensures var c := ConfigOf(rules[i]); var r := Run(Init(c), RuleOps(rules, es, ss, c));
      ss[|es|].machines[i] == r.machine && OfRule(ss[|es|].stream, c) == r.out
  {
    hide Process, EventOps, OfRule, Perform;
    if es == [] {
      assert OfRule([], ConfigOf(rules[i])) == [] by { NothingOfRule(ConfigOf(rules[i])); }
    } else {
      var n, c := |es| - 1, ConfigOf(rules[i]);
      TracePrefix(rules, es, ps, ss, n);
      ReplayIsRun(rules, es[..n], ps, ss[..n + 1], i);
      assert Running(rules, ss[n]) && Process(rules, ss[n], es[n], ps) == Some(ss[n + 1]);
      ProcessRuns(rules, ss[n], es[n], ps, i);
      RunConcat(Init(c), RuleOps(rules, es[..n], ss[..n + 1], c), EventOps(rules, ss[n], es[n], c));
      ProcessRunning(rules, ss[n], es[n], ps);
    }
  }

  lemma NothingOfRule(c: RuleConfig)
    ensures OfRule([], c) == []
  {
  }

  lemma ProcessRunning(rules: seq<Rule>, s: Replay, e: Envelope, ps: Policies)
    requires Running(rules, s) && Process(rules, s, e, ps).Some?
    ensures Running(rules, Process(rules, s, e, ps).value)
    ensures Process(rules, s, e, ps).value.logical == ClockAt(s, e) > 0
    ensures Process(rules, s, e, ps).value.sources == Absorbed(s.sources, e.event)
    ensures RequestOK(OccurrenceOf(e), ClockAt(s, e))
  {
    hide AdvanceAll, ApplyAll, EmitAll, Observe, ObservationOK;
  }
}
