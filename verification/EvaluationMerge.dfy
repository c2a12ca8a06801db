/** Firing the due timers of many reducers in one global order, as functions on their machines. */
module EvaluationMerge {
  import opened Bytes
  import opened Conditions
  import opened ConditionHistory
  import opened ConditionLaws

  datatype MultiStep = MultiStep(machines: seq<Machine>, out: seq<Transition>)

  predicate RuleOf(c: RuleConfig, k: ConditionKey) { k.ruleID == c.ruleID && k.revision == c.revision }

  /** Machines of distinct rule revisions, each tracking only its own keys. */
  ghost predicate Apart(ms: seq<Machine>)
  {
    && (forall i, k | 0 <= i < |ms| && k in ms[i].states :: RuleOf(ms[i].config, k))
    && (forall i, j | 0 <= i < j < |ms| ::
          ms[i].config.ruleID != ms[j].config.ruleID || ms[i].config.revision != ms[j].config.revision)
  }

  // The transitions of one rule revision, in order.
  function OfRule(out: seq<Transition>, c: RuleConfig): seq<Transition>
  {
    if out == [] then []
    else
      var front := OfRule(out[..|out| - 1], c);
      if RuleOf(c, out[|out| - 1].key) then front + [out[|out| - 1]] else front
  }

  lemma OfRulePush(out: seq<Transition>, t: Transition, c: RuleConfig)
    ensures OfRule(out + [t], c) == if RuleOf(c, t.key) then OfRule(out, c) + [t] else OfRule(out, c)
  {
    assert (out + [t])[..|out|] == out;
  }

  lemma PushBoth(a: seq<Transition>, front: seq<Transition>, t: Transition, c: RuleConfig)
    requires OfRule(a + front, c) == OfRule(a, c) + OfRule(front, c)
    ensures OfRule((a + front) + [t], c) == OfRule(a, c) + OfRule(front + [t], c)
  {
    hide OfRule, RuleOf;
    OfRulePush(a + front, t, c);
    OfRulePush(front, t, c);
  }

  lemma {:induction false} OfRuleConcat(a: seq<Transition>, b: seq<Transition>, c: RuleConfig)
    ensures OfRule(a + b, c) == OfRule(a, c) + OfRule(b, c)
  {
    hide RuleOf;
    if b == [] {
      assert a + b == a;
    } else {
      var front, t := b[..|b| - 1], b[|b| - 1];
      OfRuleConcat(a, front, c);
      assert a + b == (a + front) + [t] && b == front + [t];
      PushBoth(a, front, t, c);
    }
  }

  // ----- the globally next timer -----

  ghost predicate DueAt(ms: seq<Machine>, now: Time, i: nat, k: ConditionKey)
  {
    i < |ms| && k in DueKeys(ms[i], now)
  }

  /** Key `k` of machine `i` holds the smallest due timer of all. */
  ghost predicate IsNext(ms: seq<Machine>, now: Time, i: nat, k: ConditionKey)
  {
    && DueAt(ms, now, i, k)
    && forall j: nat, l | DueAt(ms, now, j, l) && (j != i || l != k) ::
         LessTimer(KeyTimer(ms[i], k), KeyTimer(ms[j], l))
  }

  predicate NoneDueIn(ms: seq<Machine>, now: Time) { forall i | 0 <= i < |ms| :: DueKeys(ms[i], now) == {} }

  function TotalDue(ms: seq<Machine>, now: Time): nat
  {
    if ms == [] then 0 else |DueKeys(ms[0], now)| + TotalDue(ms[1..], now)
  }

  lemma {:induction false} TotalDueUpdate(ms: seq<Machine>, now: Time, i: nat, m: Machine)
    requires i < |ms| && |DueKeys(m, now)| < |DueKeys(ms[i], now)|
    ensures TotalDue(ms[i := m], now) < TotalDue(ms, now)
  {
    if i == 0 {
      assert ms[0 := m][1..] == ms[1..];
    } else {
      TotalDueUpdate(ms[1..], now, i - 1, m);
      assert ms[i := m][1..] == ms[1..][i - 1 := m];
    }
  }

  // The smallest due timer among the first `n` machines.
  lemma {:induction false} NextExists(ms: seq<Machine>, now: Time)
    requires Apart(ms) && !NoneDueIn(ms, now)
    ensures exists i: nat, k :: IsNext(ms, now, i, k)
  {
    var n := |ms| - 1;
    var front := ms[..n];
    assert Apart(front);
    if NoneDueIn(front, now) {
      forall i: nat | i < n ensures DueKeys(ms[i], now) == {} { assert front[i] == ms[i]; }
      assert DueKeys(ms[n], now) != {};
      assert IsNext(ms, now, n, Least(ms[n], DueKeys(ms[n], now)));
    } else {
      NextExists(front, now);
      var i: nat, k :| IsNext(front, now, i, k);
      assert forall j: nat, l | j < n && DueAt(ms, now, j, l) :: DueAt(front, now, j, l);
      if DueKeys(ms[n], now) == {} {
        assert IsNext(ms, now, i, k);
      } else {
        NextExtends(ms, now, i, k);
      }
    }
  }

  lemma NextExtends(ms: seq<Machine>, now: Time, i: nat, k: ConditionKey)
    requires Apart(ms) && ms != [] && DueKeys(ms[|ms| - 1], now) != {}
    requires i < |ms| - 1 && DueAt(ms, now, i, k)
    requires forall j: nat, l | j < |ms| - 1 && DueAt(ms, now, j, l) && (j != i || l != k) ::
               LessTimer(KeyTimer(ms[i], k), KeyTimer(ms[j], l))
    ensures exists i: nat, k :: IsNext(ms, now, i, k)
  {
    var n := |ms| - 1;
    var l := Least(ms[n], DueKeys(ms[n], now));
    var a, b := KeyTimer(ms[i], k), KeyTimer(ms[n], l);
    LessTimerTotal(a, b);
    if LessTimer(a, b) {
      forall j: nat, x | DueAt(ms, now, j, x) && (j != i || x != k) ensures LessTimer(a, KeyTimer(ms[j], x)) {
        if j == n && x != l { LessTimerTransitive(a, b, KeyTimer(ms[n], x)); }
      }
      assert IsNext(ms, now, i, k);
    } else {
      forall j: nat, x | DueAt(ms, now, j, x) && (j != n || x != l) ensures LessTimer(b, KeyTimer(ms[j], x)) {
        if j < n && (j != i || x != k) { LessTimerTransitive(b, a, KeyTimer(ms[j], x)); }
      }
      assert IsNext(ms, now, n, l);
    }
  }

  lemma NextUnique(ms: seq<Machine>, now: Time, i: nat, k: ConditionKey, j: nat, l: ConditionKey)
    requires IsNext(ms, now, i, k) && IsNext(ms, now, j, l)
    ensures i == j && k == l
  {
    if i != j || k != l { LessTimerAsymmetric(KeyTimer(ms[i], k), KeyTimer(ms[j], l)); }
  }

  ghost function Next(ms: seq<Machine>, now: Time): (n: (nat, ConditionKey))
    requires Apart(ms) && !NoneDueIn(ms, now)
    ensures IsNext(ms, now, n.0, n.1)
  {
    NextExists(ms, now);
    var i: nat, k :| IsNext(ms, now, i, k);
    (i, k)
  }

  // ----- the loop of the runtime -----

  // Clocks that have not passed `now`, as before any advance of the runtime.
  predicate ClocksBy(ms: seq<Machine>, now: Time) { forall i | 0 <= i < |ms| :: ms[i].logical <= now }

  ghost function FireNext(ms: seq<Machine>, now: Time): MultiStep
    requires Apart(ms) && !NoneDueIn(ms, now)
  {
    var (i, k) := Next(ms, now);
    var st := FireAt(ms[i], KeyTimer(ms[i], k), now);
    MultiStep(ms[i := st.machine], st.out)
  }

  // The next timer is the least of its own machine, and firing it is that machine's next drain step.
  lemma NextIsLeast(ms: seq<Machine>, now: Time)
    requires Apart(ms) && !NoneDueIn(ms, now) && ClocksBy(ms, now) && now > 0
    ensures var (i, k) := Next(ms, now);
      && FireAt(ms[i], KeyTimer(ms[i], k), now) == Expire(Tick(ms[i], now), k, now)
      && DueKeys(Tick(ms[i], now), now) == DueKeys(ms[i], now) != {}
      && k == Least(Tick(ms[i], now), DueKeys(ms[i], now))
  {
    var (i, k) := Next(ms, now);
    var m := Tick(ms[i], now);
    assert DueKeys(m, now) == DueKeys(ms[i], now);
    assert IsDue(ms[i], k, now) && Max(now, ms[i].logical) == now;
    forall j | j in DueKeys(m, now) && j != k ensures LessTimer(KeyTimer(m, k), KeyTimer(m, j)) {
      assert DueAt(ms, now, i, j);
    }
    assert IsLeast(m, DueKeys(m, now), k);
    LeastUnique(m, DueKeys(m, now), k, Least(m, DueKeys(m, now)));
  }

  lemma FireNextStep(ms: seq<Machine>, now: Time)
    requires Apart(ms) && !NoneDueIn(ms, now) && ClocksBy(ms, now) && now > 0
    ensures var st := FireNext(ms, now);
      Apart(st.machines) && ClocksBy(st.machines, now) && TotalDue(st.machines, now) < TotalDue(ms, now)
  {
    hide Commit;
    var (i, k) := Next(ms, now);
    NextIsLeast(ms, now);
    var m := Tick(ms[i], now);
    ExpireShrinks(m, k, now, now);
    ExpireFired(m, k, now);
    var m' := Expire(m, k, now).machine;
    TotalDueUpdate(ms, now, i, m');
    var ms' := ms[i := m'];
    forall j, l | 0 <= j < |ms| && l in ms'[j].states ensures RuleOf(ms'[j].config, l) {
      assert l in ms[j].states;
    }
  }

  /** Fire the globally smallest due timer until none is due. */
  ghost function DrainAll(ms: seq<Machine>, now: Time): MultiStep
    requires Apart(ms) && ClocksBy(ms, now) && now > 0
    decreases TotalDue(ms, now)
  {
    if NoneDueIn(ms, now) then MultiStep(ms, [])
    else
      FireNextStep(ms, now);
      var first := FireNext(ms, now);
      var rest := DrainAll(first.machines, now);
      MultiStep(rest.machines, first.out + rest.out)
  }

  /** The synchronising pass: every reducer advances to the same instant, in order. */
  ghost function SyncAll(ms: seq<Machine>, now: Time): MultiStep
  {
    if ms == [] then MultiStep([], [])
    else
      var front := SyncAll(ms[..|ms| - 1], now);
      var last := AdvanceTo(ms[|ms| - 1], now);
      MultiStep(front.machines + [last.machine], front.out + last.out)
  }

  /** One advance of the runtime: the global drain, then the synchronising pass. */
  ghost function AdvanceAll(ms: seq<Machine>, now: Time): MultiStep
    requires Apart(ms) && ClocksBy(ms, now) && now > 0
  {
    var drained := DrainAll(ms, now);
    var synced := SyncAll(drained.machines, now);
    MultiStep(synced.machines, drained.out + synced.out)
  }

  // ----- the merge theorem -----

  /** Machine `i` of `ms'`, advanced to `now`, is machine `i` of `ms` advanced to `now`; and what
      has been emitted for its rule plus what it would still emit is all it would have emitted. */
  ghost predicate Refines(ms: seq<Machine>, ms': seq<Machine>, out: seq<Transition>, now: Time, i: nat)
    requires i < |ms| == |ms'|
  {
    && AdvanceTo(ms'[i], now).machine == AdvanceTo(ms[i], now).machine
    && OfRule(out, ms[i].config) + AdvanceTo(ms'[i], now).out == AdvanceTo(ms[i], now).out
    && ms'[i].config == ms[i].config
  }

  lemma OfRuleOne(t: Transition, c: RuleConfig)
    ensures OfRule([t], c) == if RuleOf(c, t.key) then [t] else []
  {
    OfRulePush([], t, c);
    assert [] + [t] == [t];
  }

  lemma DrainTicked(m: Machine, now: Time)
    requires now > 0 && m.logical <= now
    ensures AdvanceTo(m, now) == Drain(Tick(m, now), now)
    ensures Tick(Tick(m, now), now) == Tick(m, now)
  {
  }

  lemma FireNextRefines(ms: seq<Machine>, now: Time, i: nat)
    requires Apart(ms) && !NoneDueIn(ms, now) && ClocksBy(ms, now) && now > 0 && i < |ms|
    ensures Refines(ms, FireNext(ms, now).machines, FireNext(ms, now).out, now, i)
  {
    hide Commit, RuleOf;
    var (n, k) := Next(ms, now);
    NextIsLeast(ms, now);
    var m := Tick(ms[n], now);
    var st := Expire(m, k, now);
    assert k in ms[n].states && RuleOf(ms[n].config, k);
    ExpireOut(m, k, now);
    OfRuleOne(st.out[0], ms[i].config);
    if i == n {
      ExpireFired(m, k, now);
      DrainTicked(ms[n], now);
      DrainTicked(st.machine, now);
      DrainHead(m, now);
    } else {
      RulesDiffer(ms, i, n, k);
      assert [] + AdvanceTo(ms[i], now).out == AdvanceTo(ms[i], now).out;
    }
  }

  lemma ExpireOut(m: Machine, k: ConditionKey, now: Time)
    requires k in m.states
    ensures var out := Expire(m, k, now).out; out == [out[0]] && out[0].key == k && TimerFired(out[0]) == KeyTimer(m, k)
  {
  }

  lemma RulesDiffer(ms: seq<Machine>, i: nat, j: nat, k: ConditionKey)
    requires Apart(ms) && i < |ms| && j < |ms| && i != j && RuleOf(ms[j].config, k)
    ensures !RuleOf(ms[i].config, k)
  {
    var a, b := if i < j then i else j, if i < j then j else i;
    assert ms[a].config.ruleID != ms[b].config.ruleID || ms[a].config.revision != ms[b].config.revision;
  }

  lemma RefinesTransitive(ms: seq<Machine>, ms1: seq<Machine>, ms2: seq<Machine>,
                          out1: seq<Transition>, out2: seq<Transition>, now: Time, i: nat)
    requires i < |ms| == |ms1| == |ms2|
    requires Refines(ms, ms1, out1, now, i) && Refines(ms1, ms2, out2, now, i)
    ensures Refines(ms, ms2, out1 + out2, now, i)
  {
    hide AdvanceTo;
    var c := ms[i].config;
    OfRuleConcat(out1, out2, c);
    var tail := AdvanceTo(ms2[i], now).out;
    assert OfRule(out1, c) + (OfRule(out2, c) + tail) == (OfRule(out1, c) + OfRule(out2, c)) + tail;
  }

  lemma RefinesSelf(ms: seq<Machine>, now: Time, i: nat)
    requires i < |ms|
    ensures Refines(ms, ms, [], now, i)
  {
    assert [] + AdvanceTo(ms[i], now).out == AdvanceTo(ms[i], now).out;
  }

  lemma {:induction false} DrainAllRefines(ms: seq<Machine>, now: Time)
    requires Apart(ms) && ClocksBy(ms, now) && now > 0
    ensures var st := DrainAll(ms, now);
      && |st.machines| == |ms| && Apart(st.machines) && ClocksBy(st.machines, now) && NoneDueIn(st.machines, now)
      && forall i: nat | i < |ms| :: Refines(ms, st.machines, st.out, now, i)
    decreases TotalDue(ms, now)
  {
    hide FireNext, Refines, AdvanceTo;
    if NoneDueIn(ms, now) {
      forall i: nat | i < |ms| ensures Refines(ms, ms, [], now, i) { RefinesSelf(ms, now, i); }
    } else {
      FireNextStep(ms, now);
      FireNextLength(ms, now);
      var first := FireNext(ms, now);
      DrainAllRefines(first.machines, now);
      var rest := DrainAll(first.machines, now);
      forall i: nat | i < |ms| ensures Refines(ms, rest.machines, first.out + rest.out, now, i) {
        FireNextRefines(ms, now, i);
        RefinesTransitive(ms, first.machines, rest.machines, first.out, rest.out, now, i);
      }
    }
  }

  lemma FireNextLength(ms: seq<Machine>, now: Time)
    requires Apart(ms) && !NoneDueIn(ms, now)
    ensures |FireNext(ms, now).machines| == |ms|
  {
  }

  // Every entry the loop emits fires the timer some machine held when the loop began.
  ghost predicate FromDue(ms: seq<Machine>, now: Time, t: Transition)
  {
    && t.at == t.times.dueAt
    && exists i: nat, k :: DueAt(ms, now, i, k) && TimerFired(t) == KeyTimer(ms[i], k)
  }

  lemma {:induction false} DrainAllOrder(ms: seq<Machine>, now: Time)
    requires Apart(ms) && ClocksBy(ms, now) && now > 0
    ensures FiredInOrder(DrainAll(ms, now).out)
    ensures forall n | 0 <= n < |DrainAll(ms, now).out| :: FromDue(ms, now, DrainAll(ms, now).out[n])
    decreases TotalDue(ms, now)
  {
    hide FireNext, FromDue;
    if !NoneDueIn(ms, now) {
      FireNextStep(ms, now);
      var first := FireNext(ms, now);
      var rest := DrainAll(first.machines, now).out;
      DrainAllOrder(first.machines, now);
      FireNextOut(ms, now);
      var t, out := first.out[0], first.out + rest;
      assert out == [t] + rest;
      forall n | 0 <= n < |rest| ensures LessTimer(TimerFired(t), TimerFired(rest[n])) && FromDue(ms, now, rest[n]) {
        FireNextBefore(ms, now, rest[n]);
      }
      forall n | 0 <= n < |out| ensures FromDue(ms, now, out[n]) {
        if n > 0 { assert out[n] == rest[n - 1]; }
      }
      forall a, b | 0 <= a < b < |out| ensures LessTimer(TimerFired(out[a]), TimerFired(out[b])) {
        if a > 0 { assert out[a] == rest[a - 1] && out[b] == rest[b - 1]; } else { assert out[b] == rest[b - 1]; }
      }
    }
  }

  lemma FireNextOut(ms: seq<Machine>, now: Time)
    requires Apart(ms) && !NoneDueIn(ms, now) && ClocksBy(ms, now) && now > 0
    ensures var out := FireNext(ms, now).out; var (i, k) := Next(ms, now);
      out == [out[0]] && TimerFired(out[0]) == KeyTimer(ms[i], k) && FromDue(ms, now, out[0])
  {
    var (i, k) := Next(ms, now);
    NextIsLeast(ms, now);
    assert KeyTimer(Tick(ms[i], now), k) == KeyTimer(ms[i], k);
    assert DueAt(ms, now, i, k);
  }

  // Whatever is still due after a step was due before it, and comes later in the order.
  lemma FireNextBefore(ms: seq<Machine>, now: Time, t: Transition)
    requires Apart(ms) && !NoneDueIn(ms, now) && ClocksBy(ms, now) && now > 0
    requires FromDue(FireNext(ms, now).machines, now, t)
    ensures var (i, k) := Next(ms, now); LessTimer(KeyTimer(ms[i], k), TimerFired(t)) && FromDue(ms, now, t)
  {
    hide Commit;
    var (i, k) := Next(ms, now);
    NextIsLeast(ms, now);
    var ms', m := FireNext(ms, now).machines, Tick(ms[i], now);
    var j: nat, l :| DueAt(ms', now, j, l) && TimerFired(t) == KeyTimer(ms'[j], l);
    if j == i {
      ExpireShrinks(m, k, now, now);
      ExpireFired(m, k, now);
    }
    assert DueAt(ms, now, j, l) && KeyTimer(ms'[j], l) == KeyTimer(ms[j], l);
  }

  lemma {:induction false} SyncAllExact(ms: seq<Machine>, now: Time)
    ensures |SyncAll(ms, now).machines| == |ms|
    ensures forall i | 0 <= i < |ms| :: SyncAll(ms, now).machines[i] == AdvanceTo(ms[i], now).machine
    ensures now > 0 && ClocksBy(ms, now) && NoneDueIn(ms, now) ==> SyncAll(ms, now).out == []
  {
    hide AdvanceTo, ClocksBy, NoneDueIn;
    if ms == [] {
    } else {
      var n := |ms| - 1;
      SyncAllExact(ms[..n], now);
      if now > 0 && ClocksBy(ms, now) && NoneDueIn(ms, now) {
        SettledFront(ms, now);
        AdvanceNothing(ms[n], now);
      }
    }
  }

  lemma SettledFront(ms: seq<Machine>, now: Time)
    requires ms != [] && ClocksBy(ms, now) && NoneDueIn(ms, now)
    ensures ClocksBy(ms[..|ms| - 1], now) && NoneDueIn(ms[..|ms| - 1], now)
    ensures ms[|ms| - 1].logical <= now && DueKeys(ms[|ms| - 1], now) == {}
  {
  }

  lemma AdvanceNothing(m: Machine, now: Time)
    requires now > 0 && m.logical <= now && DueKeys(m, now) == {}
    ensures AdvanceTo(m, now) == Step(Tick(m, now), [])
  {
    assert DueKeys(Tick(m, now), now) == DueKeys(m, now);
  }

  /** The synchronising pass adds nothing; each rule revision ends exactly where its own Advance
      would have left it and has emitted exactly what that Advance returns; and the whole output is
      in strict canonical order, every entry firing a timer that was due at the start. */
  lemma AdvanceAllMerges(ms: seq<Machine>, now: Time)
    requires Apart(ms) && ClocksBy(ms, now) && now > 0
    ensures var st := AdvanceAll(ms, now);
      && |st.machines| == |ms|
      && st.out == DrainAll(ms, now).out && SyncAll(DrainAll(ms, now).machines, now).out == []
      && FiredInOrder(st.out)
      && (forall n | 0 <= n < |st.out| :: FromDue(ms, now, st.out[n]))
      && forall i: nat | i < |ms| ::
           && st.machines[i] == AdvanceTo(ms[i], now).machine
           && OfRule(st.out, ms[i].config) == AdvanceTo(ms[i], now).out
  {
    hide FromDue;
    DrainAllRefines(ms, now);
    DrainAllOrder(ms, now);
    var drained := DrainAll(ms, now);
    SyncAllExact(drained.machines, now);
    assert drained.out + [] == drained.out;
    forall i: nat | i < |ms|
      ensures AdvanceAll(ms, now).machines[i] == AdvanceTo(ms[i], now).machine
           && OfRule(drained.out, ms[i].config) == AdvanceTo(ms[i], now).out
    {
      assert Refines(ms, drained.machines, drained.out, now, i);
      AdvanceNothing(drained.machines[i], now);
      assert OfRule(drained.out, ms[i].config) + [] == OfRule(drained.out, ms[i].config);
    }
  }

  // ----- the order of one advance, in the fields of its transitions -----

  /** `t` comes before `u`: it was due earlier, or at the same instant for an earlier rule, revision,
      subject kind or subject, in that order, texts compared by bytes. */
  ghost predicate ComesBefore(t: Transition, u: Transition)
  {
    var a, b := t.key, u.key;
    || t.times.dueAt < u.times.dueAt
    || (t.times.dueAt == u.times.dueAt
        && (|| Precedes(a.ruleID, b.ruleID)
            || (a.ruleID == b.ruleID && a.revision < b.revision)
            || (a.ruleID == b.ruleID && a.revision == b.revision && Precedes(a.subject.kind, b.subject.kind))
            || (a.ruleID == b.ruleID && a.revision == b.revision && a.subject.kind == b.subject.kind
                && Precedes(a.subject.id, b.subject.id))))
  }

  // The timers of one key are one timer, so two that fire in order have different keys.
  lemma DueOnce(ms: seq<Machine>, now: Time, t: Transition, u: Transition)
    requires Apart(ms) && FromDue(ms, now, t) && FromDue(ms, now, u) && t.key == u.key
    ensures TimerFired(t) == TimerFired(u)
  {
    var i: nat, k :| DueAt(ms, now, i, k) && TimerFired(t) == KeyTimer(ms[i], k);
    var j: nat, l :| DueAt(ms, now, j, l) && TimerFired(u) == KeyTimer(ms[j], l);
    if i != j { RulesDiffer(ms, i, j, l); }
  }

  /** Every two transitions of an advance are in that order, each at its own due time. */
  lemma AdvanceOrder(ms: seq<Machine>, now: Time, i: nat, j: nat)
    requires Apart(ms) && ClocksBy(ms, now) && now > 0 && i < j < |AdvanceAll(ms, now).out|
    ensures var out := AdvanceAll(ms, now).out;
      ComesBefore(out[i], out[j]) && out[i].at == out[i].times.dueAt && out[j].at == out[j].times.dueAt
  {
    hide AdvanceAll, LessKey, Precedes;
    AdvanceAllMerges(ms, now);
    var out := AdvanceAll(ms, now).out;
    var t, u := out[i], out[j];
    assert FromDue(ms, now, t) && FromDue(ms, now, u);
    assert LessTimer(TimerFired(t), TimerFired(u));
    if t.key == u.key {
      DueOnce(ms, now, t, u);
      LessTimerTotal(TimerFired(t), TimerFired(u));
    }
    LessKeyMeans(t.key, u.key);
  }
}
