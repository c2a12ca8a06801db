/** What a runtime step adds to the one stream of condition transitions a replay emits. */
module PipelineStream {
  import opened Conditions
  import opened ConditionHistory
  import opened ConditionRuns
  import opened ConditionTiming
  import opened EvaluationMerge
  import opened Evaluation

  /** The key belongs to an activated rule revision. */
  ghost predicate Owned(rules: seq<Rule>, k: ConditionKey)
  {
    exists i :: 0 <= i < |rules| && RuleOf(ConfigOf(rules[i]), k)
  }

  ghost predicate AllOwned(rules: seq<Rule>, out: seq<Transition>)
  {
    forall n | 0 <= n < |out| :: Owned(rules, out[n].key)
  }

  /** A machine that has run only Apply and Advance: well formed and with nothing overdue. */
  ghost predicate Sound(m: Machine) { Inv(m) && Settled(m) }

  ghost predicate AllSound(ms: seq<Machine>) { forall i | 0 <= i < |ms| :: Sound(ms[i]) }

  // Each machine journals its own part of what the step emits.
  ghost predicate Journals(ms: seq<Machine>, ms': seq<Machine>, out: seq<Transition>)
  {
    |ms'| == |ms| && forall i | 0 <= i < |ms| :: ms'[i].journal == ms[i].journal + OfRule(out, ms[i].config)
  }

  /** The step keeps every machine sound, splits its output over their journals, and emits in time
      order between `low` and `high`. */
  ghost predicate StreamStep(rules: seq<Rule>, ms: seq<Machine>, st: MultiStep, low: Time, high: Time)
  {
    && AllSound(st.machines) && Journals(ms, st.machines, st.out) && AllOwned(rules, st.out)
    && NondecreasingAt(st.out) && Within(st.out, low, high)
  }

  // ----- one machine -----

  lemma AdvanceSound(m: Machine, now: Time)
    requires Sound(m) && now > 0
    ensures Sound(AdvanceTo(m, now).machine)
    ensures AdvanceTo(m, now).machine.journal == m.journal + AdvanceTo(m, now).out
  {
    InvAdvance(m, now);
    AdvanceTimed(m, now);
  }

  lemma ApplySound(m: Machine, o: Observation)
    requires Sound(m) && OwnsKeys(m) && RuleOf(m.config, o.key)
    ensures var st := ApplyTo(m, o);
      && Sound(st.machine) && st.machine.journal == m.journal + st.out
      && NondecreasingAt(st.out) && Within(st.out, m.logical, st.machine.logical)
      && forall n | 0 <= n < |st.out| :: RuleOf(m.config, st.out[n].key)
  {
    hide Inv, Settled;
    InvApply(m, o);
    ApplyTimed(m, o);
    ApplyKeys(m, o);
  }

  lemma ApplyKeys(m: Machine, o: Observation)
    requires OwnsKeys(m) && RuleOf(m.config, o.key)
    ensures forall n | 0 <= n < |ApplyTo(m, o).out| :: RuleOf(m.config, ApplyTo(m, o).out[n].key)
  {
    hide AdvanceTo, Absorb;
    if Accepts(m, o) {
      var first := AdvanceTo(Admit(m, o), ProcessingTime(o));
      AdvanceFired(Admit(m, o), ProcessingTime(o));
      AbsorbTracker(first.machine, o);
      forall n | 0 <= n < |first.out| ensures RuleOf(m.config, first.out[n].key) { KeysOfContains(first.out, n); }
    }
  }

  lemma {:induction false} OfRuleAll(out: seq<Transition>, c: RuleConfig)
    requires forall n | 0 <= n < |out| :: RuleOf(c, out[n].key)
    ensures OfRule(out, c) == out
  {
    if out == [] {
    } else {
      OfRuleAll(out[..|out| - 1], c);
    }
  }

  lemma {:induction false} OfRuleNone(out: seq<Transition>, c: RuleConfig)
    requires forall n | 0 <= n < |out| :: !RuleOf(c, out[n].key)
    ensures OfRule(out, c) == []
  {
    if out == [] {
    } else {
      OfRuleNone(out[..|out| - 1], c);
    }
  }

  // ----- the runtime's advance -----

  lemma AdvanceStream(rules: seq<Rule>, ms: seq<Machine>, t: Time, now: Time)
    requires Activated(rules) && Aligned(rules, ms, t) && AllSound(ms) && t <= now && now > 0
    ensures Apart(ms) && ClocksBy(ms, now) && Aligned(rules, AdvanceAll(ms, now).machines, now)
    ensures StreamStep(rules, ms, AdvanceAll(ms, now), t, now)
    ensures forall n | 0 <= n < |AdvanceAll(ms, now).out| :: t < AdvanceAll(ms, now).out[n].at
  {
    hide AdvanceTo, AdvanceAll, Sound, FromDue, OfRule, Owned, Activated, Apart, ClocksBy, Aligned;
    AdvanceAllAligned(rules, ms, t, now);
    AdvanceAllMerges(ms, now);
    var st := AdvanceAll(ms, now);
    forall i: nat | i < |ms|
      ensures Sound(st.machines[i]) && st.machines[i].journal == ms[i].journal + OfRule(st.out, ms[i].config)
    {
      AdvanceSound(ms[i], now);
    }
    DueEntries(rules, ms, t, now, st.out);
  }

  lemma DueEntries(rules: seq<Rule>, ms: seq<Machine>, t: Time, now: Time, out: seq<Transition>)
    requires Aligned(rules, ms, t) && AllSound(ms) && FiredInOrder(out)
    requires forall n | 0 <= n < |out| :: FromDue(ms, now, out[n])
    ensures AllOwned(rules, out) && NondecreasingAt(out) && Within(out, t, now)
    ensures forall n | 0 <= n < |out| :: t < out[n].at
  {
    hide Sound, FromDue, Owned, Aligned;
    forall n | 0 <= n < |out|
      ensures t < out[n].at <= now && out[n].at == out[n].times.dueAt && Owned(rules, out[n].key)
    {
      DueEntry(rules, ms, t, now, out[n]);
    }
    forall a, b | 0 <= a < b < |out| ensures out[a].at <= out[b].at {
      assert LessTimer(TimerFired(out[a]), TimerFired(out[b]));
    }
  }

  lemma DueEntry(rules: seq<Rule>, ms: seq<Machine>, t: Time, now: Time, x: Transition)
    requires Aligned(rules, ms, t) && AllSound(ms) && FromDue(ms, now, x)
    ensures t < x.at <= now && x.at == x.times.dueAt
    ensures Owned(rules, x.key)
  {
    var i: nat, k :| DueAt(ms, now, i, k) && TimerFired(x) == KeyTimer(ms[i], k);
    assert Sound(ms[i]) && k !in DueKeys(ms[i], t);
  }

  // ----- the runtime's application -----

  lemma ApplyOneStream(rules: seq<Rule>, ms: seq<Machine>, t: Time, i: nat, o: Observation)
    requires Activated(rules) && Aligned(rules, ms, t) && AllSound(ms) && t > 0
    requires i < |rules| && RuleOf(ConfigOf(rules[i]), o.key) && o.processingAt == t
    ensures var st := ApplyTo(ms[i], o); StreamStep(rules, ms, MultiStep(ms[i := st.machine], st.out), t, t)
  {
    hide ApplyTo, Sound;
    var st := ApplyTo(ms[i], o);
    assert Sound(ms[i]);
    ApplySound(ms[i], o);
    ApplyOwn(ms[i], o);
    AlignedApart(rules, ms, t);
    OfRuleAll(st.out, ms[i].config);
    forall j: nat | j < |ms| && j != i ensures OfRule(st.out, ms[j].config) == [] {
      forall n | 0 <= n < |st.out| ensures !RuleOf(ms[j].config, st.out[n].key) {
        RulesDiffer(ms, j, i, st.out[n].key);
      }
      OfRuleNone(st.out, ms[j].config);
    }
  }

  lemma StreamCompose(rules: seq<Rule>, ms: seq<Machine>, first: MultiStep, second: MultiStep, low: Time, mid: Time,
                      high: Time)
    requires StreamStep(rules, ms, first, low, mid) && StreamStep(rules, first.machines, second, mid, high)
        && low <= mid <= high
    requires |first.machines| == |ms| && forall i | 0 <= i < |ms| :: first.machines[i].config == ms[i].config
    ensures StreamStep(rules, ms, MultiStep(second.machines, first.out + second.out), low, high)
  {
    hide Sound, Owned, OfRule;
    var out := first.out + second.out;
    forall i | 0 <= i < |ms| ensures second.machines[i].journal == ms[i].journal + OfRule(out, ms[i].config) {
      OfRuleConcat(first.out, second.out, ms[i].config);
    }
    forall n | 0 <= n < |out| ensures Owned(rules, out[n].key) {
      if n >= |first.out| { assert out[n] == second.out[n - |first.out|]; }
    }
    forall a, b | 0 <= a < b < |out| ensures out[a].at <= out[b].at {
      if a < |first.out| <= b { assert first.out[a].at <= mid <= second.out[b - |first.out|].at; }
    }
  }

  lemma StreamNothing(rules: seq<Rule>, ms: seq<Machine>, t: Time)
    requires AllSound(ms)
    ensures StreamStep(rules, ms, MultiStep(ms, []), t, t)
  {
  }

  lemma {:induction false} ApplyStream(rules: seq<Rule>, ms: seq<Machine>, t: Time, xs: seq<Observation>)
    requires Activated(rules) && Aligned(rules, ms, t) && AllSound(ms)
    requires forall n | 0 <= n < |xs| :: ItemOK(rules, t, xs[n])
    ensures Aligned(rules, ApplyAll(ms, xs).machines, t)
    ensures StreamStep(rules, ms, ApplyAll(ms, xs), t, t)
  {
    hide Activated, ApplyTo, ItemOK, Sound;
    ApplyAllAligned(rules, ms, t, xs);
    if xs == [] {
      StreamNothing(rules, ms, t);
    } else {
      var n := |xs| - 1;
      ApplyStream(rules, ms, t, xs[..n]);
      var before := ApplyAll(ms, xs[..n]);
      var i := ItemOwner(rules, t, xs[n]);
      ApplyStep(rules, before.machines, t, i, xs[n]);
      ApplyOneStream(rules, before.machines, t, i, xs[n]);
      var st := ApplyTo(before.machines[i], xs[n]);
      StreamCompose(rules, ms, before, MultiStep(before.machines[i := st.machine], st.out), t, t, t);
    }
  }
}
