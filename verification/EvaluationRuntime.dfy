/** The multi-rule runtime object: one reducer for each activated rule revision. */
module EvaluationRuntime {
  import opened Wrappers
  import opened Bytes
  import opened Conditions
  import opened Events
  import opened ConditionReducer
  import opened EvaluationMerge
  import opened Evaluation
  import RulePlans

  datatype ActiveRule = ActiveRule(id: Text, revision: int, definition: RulePlans.Definition)

  // ----- activation order -----

  predicate LessActive(a: ActiveRule, b: ActiveRule)
  {
    if a.id != b.id then Less(a.id, b.id) else a.revision < b.revision
  }

  predicate SameRevision(a: ActiveRule, b: ActiveRule) { a.id == b.id && a.revision == b.revision }

  lemma LessActiveTotal(a: ActiveRule, b: ActiveRule)
    ensures !LessActive(a, a)
    ensures LessActive(a, b) || LessActive(b, a) || SameRevision(a, b)
    ensures LessActive(a, b) ==> !LessActive(b, a) && !SameRevision(a, b)
  {
    LessTotal(a.id, b.id);
    LessIrreflexive(a.id);
    if Less(a.id, b.id) && Less(b.id, a.id) { LessTransitive(a.id, b.id, a.id); }
  }

  lemma NotLessActive(a: ActiveRule, b: ActiveRule, c: ActiveRule)
    requires !LessActive(b, a) && LessActive(c, a)
    ensures LessActive(c, b)
  {
    LessTotal(a.id, b.id);
    if a.id != b.id && c.id != a.id { LessTransitive(c.id, a.id, b.id); LessIrreflexive(c.id); }
  }

  predicate Unlisted(xs: seq<ActiveRule>, x: ActiveRule) { forall y | y in xs :: !SameRevision(y, x) }

  predicate DistinctRevisions(xs: seq<ActiveRule>)
  {
    xs != [] ==> DistinctRevisions(xs[..|xs| - 1]) && Unlisted(xs[..|xs| - 1], xs[|xs| - 1])
  }

  ghost predicate SortedActive(xs: seq<ActiveRule>) { forall i, j | 0 <= i < j < |xs| :: !LessActive(xs[j], xs[i]) }

  lemma {:induction false} DistinctInsert(a: seq<ActiveRule>, x: ActiveRule, b: seq<ActiveRule>)
    ensures DistinctRevisions(a + [x] + b) <==> DistinctRevisions(a + b) && Unlisted(a + b, x)
  {
    if b == [] {
      assert a + [x] + b == a + [x] && (a + [x])[..|a|] == a && a + b == a;
    } else {
      var front, y := b[..|b| - 1], b[|b| - 1];
      DistinctInsert(a, x, front);
      assert a + [x] + b == (a + [x] + front) + [y] && a + b == (a + front) + [y];
      assert (a + [x] + b)[..|a + [x] + front|] == a + [x] + front && (a + b)[..|a + front|] == a + front;
      UnlistedMore(a + front, x, a + [x] + front, y);
    }
  }

  lemma UnlistedMore(xs: seq<ActiveRule>, x: ActiveRule, xs': seq<ActiveRule>, y: ActiveRule)
    requires forall z :: z in xs' <==> z == x || z in xs
    ensures Unlisted(xs', y) <==> Unlisted(xs, y) && !SameRevision(x, y)
    ensures Unlisted(xs + [y], x) <==> Unlisted(xs, x) && !SameRevision(x, y)
  {
    assert x in xs' && y in xs + [y];
  }

  lemma UnlistedSame(xs: seq<ActiveRule>, ys: seq<ActiveRule>, x: ActiveRule)
    requires forall z :: z in xs <==> z in ys
    ensures Unlisted(xs, x) <==> Unlisted(ys, x)
  {
  }

  // A library sort, by insertion.
  method SortActive(xs: seq<ActiveRule>) returns (out: seq<ActiveRule>)
    ensures SortedActive(out)
    ensures forall x :: x in out <==> x in xs
    ensures DistinctRevisions(out) <==> DistinctRevisions(xs)
  {
    hide SortedActive, Unlisted;
    out := [];
    SortedNone();
    for n := 0 to |xs|
      invariant SortedActive(out)
      invariant forall x :: x in out <==> x in xs[..n]
      invariant DistinctRevisions(out) <==> DistinctRevisions(xs[..n])
    {
      assert xs[..n + 1] == xs[..n] + [xs[n]] && xs[..n + 1][..n] == xs[..n];
      UnlistedSame(out, xs[..n], xs[n]);
      out := InsertActive(out, xs[n]);
    }
    assert xs[..|xs|] == xs;
  }

  lemma SortedNone()
    ensures SortedActive([])
  {
  }

  method InsertActive(xs: seq<ActiveRule>, x: ActiveRule) returns (out: seq<ActiveRule>)
    requires SortedActive(xs)
    ensures SortedActive(out)
    ensures forall y :: y in out <==> y == x || y in xs
    ensures DistinctRevisions(out) <==> DistinctRevisions(xs) && Unlisted(xs, x)
  {
    hide LessActive, DistinctRevisions, Unlisted;
    var i := 0;
    while i < |xs| && !LessActive(x, xs[i])
      invariant i <= |xs|
      invariant forall j | 0 <= j < i :: !LessActive(x, xs[j])
    {
      i := i + 1;
    }
    forall j | i <= j < |xs| ensures !LessActive(xs[j], x) {
      LessActiveTotal(x, xs[i]);
      if i < j && LessActive(xs[j], x) { NotLessActive(x, xs[i], xs[j]); }
    }
    out := xs[..i] + [x] + xs[i..];
    assert xs[..i] + xs[i..] == xs;
    DistinctInsert(xs[..i], x, xs[i..]);
  }

  // ----- the evaluation request -----

  predicate RequestedOK(v: ActiveRule) { v.id != "" && v.revision > 0 && RulePlans.DefinitionOK(v.definition) }

  /** The request constructor: it accepts exactly well-formed occurrences at a clock not before
      them, with valid rules of distinct revisions, and returns those rules in canonical order. */
  method NewEvaluationRequest(o: Occurrence, t: Time, values: seq<ActiveRule>)
    returns (request: Option<seq<ActiveRule>>)
    ensures request.Some? <==> RequestOK(o, t) && DistinctRevisions(values) && forall v | v in values :: RequestedOK(v)
    ensures request.Some? ==> SortedActive(request.value) && forall v :: v in request.value <==> v in values
  {
    hide LessActive, RulePlans.DefinitionOK, OccurrenceOK;
    var ok := ValidateRequest(o, t);
    if !ok { return None; }
    var sorted := SortActive(values);
    for n := 0 to |sorted|
      invariant forall i | 0 <= i < n :: RequestedOK(sorted[i])
      invariant DistinctRevisions(sorted[..n])
    {
      var v := sorted[n];
      assert v in sorted;
      if v.id == "" || v.revision <= 0 { return None; }
      var ok := RulePlans.Validate(v.definition);
      if !ok { return None; }
      if n > 0 && SameRevision(sorted[n - 1], v) {
        RepeatedRevision(sorted, n);
        return None;
      }
      SortedUnlisted(sorted, n);
    }
    assert sorted[..|sorted|] == sorted;
    request := Some(sorted);
  }

  // In a sorted list, a revision that differs from its neighbour differs from everything before it.
  lemma SortedUnlisted(xs: seq<ActiveRule>, n: nat)
    requires SortedActive(xs) && n < |xs| && DistinctRevisions(xs[..n])
    requires n > 0 ==> !SameRevision(xs[n - 1], xs[n])
    ensures DistinctRevisions(xs[..n + 1])
  {
    assert xs[..n + 1][..n] == xs[..n];
    forall y | y in xs[..n] ensures !SameRevision(y, xs[n]) {
      var i :| 0 <= i < n && xs[..n][i] == y;
      if SameRevision(y, xs[n]) { LessActiveTotal(xs[n - 1], xs[n]); }
    }
  }

  // ----- the machines behind a list of reducers -----

  function MachinesOf(rs: seq<Reducer>): (ms: seq<Machine>)
    reads rs
    ensures |ms| == |rs| && forall i | 0 <= i < |rs| :: ms[i] == rs[i].Machine()
  {
    if rs == [] then [] else MachinesOf(rs[..|rs| - 1]) + [rs[|rs| - 1].Machine()]
  }

  ghost predicate Separate(rs: seq<Reducer>) { forall i, j | 0 <= i < j < |rs| :: rs[i] != rs[j] }

  // ----- choosing the next timer -----

  /** The smallest due timer among the first `n` machines, if any. */
  ghost predicate BestOf(ms: seq<Machine>, now: Time, n: nat, best: Option<(nat, Timer)>)
  {
    && (best.None? ==> forall j: nat, l | j < n :: !DueAt(ms, now, j, l))
    && (best.Some? ==>
        var (i, t) := best.value;
        && i < n && DueAt(ms, now, i, t.key) && t == KeyTimer(ms[i], t.key)
        && forall j: nat, l | j < n && DueAt(ms, now, j, l) && (j != i || l != t.key) ::
            LessTimer(t, KeyTimer(ms[j], l)))
  }

  // ----- what activation accepts -----

  predicate ActiveOK(v: ActiveRule, resolver: Option<RulePlans.Groups>)
  {
    v.id != "" && v.revision > 0 && RulePlans.CompileOK(v.definition, resolver)
  }

  predicate ActivationOK(values: seq<ActiveRule>, resolver: Option<RulePlans.Groups>)
  {
    DistinctRevisions(values) && forall v | v in values :: ActiveOK(v, resolver)
  }

  ghost predicate FromActive(r: Rule, v: ActiveRule, resolver: Option<RulePlans.Groups>)
  {
    r.id == v.id && r.revision == v.revision && RulePlans.Compiled(r.plan, v.definition, resolver)
  }

  /** The activated rules are the listed ones, each compiled, and nothing else. */
  ghost predicate RulesOf(rules: seq<Rule>, values: seq<ActiveRule>, resolver: Option<RulePlans.Groups>)
  {
    && (forall r | r in rules :: exists v :: v in values && FromActive(r, v, resolver))
    && (forall v | v in values :: exists r :: r in rules && FromActive(r, v, resolver))
  }

  /** Each activated definition has its rule, under its own name and revision. */
  lemma RuleFor(rules: seq<Rule>, values: seq<ActiveRule>, resolver: Option<RulePlans.Groups>, v: ActiveRule)
    returns (r: Rule)
    requires RulesOf(rules, values, resolver) && v in values
    ensures r in rules && r.id == v.id && r.revision == v.revision && FromActive(r, v, resolver)
  {
    hide FromActive;
    r :| r in rules && FromActive(r, v, resolver);
    FromNamesake(r, v, resolver);
  }

  lemma FromNamesake(r: Rule, v: ActiveRule, resolver: Option<RulePlans.Groups>)
    requires FromActive(r, v, resolver)
    ensures r.id == v.id && r.revision == v.revision
  {
    hide RulePlans.Compiled;
  }

  lemma ActivatedPush(rules: seq<Rule>, rule: Rule)
    requires Activated(rules) && rule.id != "" && rule.revision > 0
    requires rules != [] ==> LessRule(rules[|rules| - 1], rule)
    ensures Activated(rules + [rule])
  {
    forall i | 0 <= i < |rules| ensures LessRule(rules[i], rule) {
      if i < |rules| - 1 { LessRuleTransitive(rules[i], rules[|rules| - 1], rule); }
    }
  }

  lemma LessRuleTransitive(a: Rule, b: Rule, c: Rule)
    requires LessRule(a, b) && LessRule(b, c)
    ensures LessRule(a, c)
  {
    if a.id != b.id && b.id != c.id {
      LessTransitive(a.id, b.id, c.id);
      LessIrreflexive(a.id);
      LessTextAsymmetric(a.id, b.id);
    }
  }

  // The table answers every rule's position and nothing else.
  ghost predicate Indexed(rules: seq<Rule>, byKey: map<(Text, int), nat>)
  {
    && (forall i | 0 <= i < |rules| ::
        (rules[i].id, rules[i].revision) in byKey && byKey[(rules[i].id, rules[i].revision)] == i)
    && (forall key | key in byKey :: byKey[key] < |rules| && key == (rules[byKey[key]].id, rules[byKey[key]].revision))
  }

  lemma SortedSame(sorted: seq<ActiveRule>, values: seq<ActiveRule>, resolver: Option<RulePlans.Groups>)
    requires forall v :: v in sorted <==> v in values
    requires DistinctRevisions(sorted) <==> DistinctRevisions(values)
    ensures ActivationOK(sorted, resolver) <==> ActivationOK(values, resolver)
  {
  }

  lemma SortedRules(sorted: seq<ActiveRule>, values: seq<ActiveRule>, rules: seq<Rule>,
                    resolver: Option<RulePlans.Groups>)
    requires forall v :: v in sorted <==> v in values
    requires |rules| == |sorted| && forall i | 0 <= i < |rules| :: FromActive(rules[i], sorted[i], resolver)
    ensures RulesOf(rules, values, resolver)
  {
    hide FromActive;
    forall r | r in rules ensures exists v :: v in values && FromActive(r, v, resolver) {
      var i :| 0 <= i < |rules| && rules[i] == r;
      assert sorted[i] in values && FromActive(r, sorted[i], resolver);
    }
    forall v | v in values ensures exists r :: r in rules && FromActive(r, v, resolver) {
      assert v in sorted;
      var i :| 0 <= i < |sorted| && sorted[i] == v;
      assert rules[i] in rules && FromActive(rules[i], v, resolver);
    }
  }

  // Validate and compile the sorted list, one rule at a time.
  method CompileAll(sorted: seq<ActiveRule>, resolver: Option<RulePlans.Groups>) returns (rules: Option<seq<Rule>>)
    requires SortedActive(sorted)
    ensures rules.Some? <==> ActivationOK(sorted, resolver)
    ensures rules.Some? ==>
      && Activated(rules.value) && |rules.value| == |sorted|
      && forall i | 0 <= i < |sorted| :: FromActive(rules.value[i], sorted[i], resolver)
  {
    hide RulePlans.Compiled, RulePlans.CompileOK, LessActive;
    var out: seq<Rule> := [];
    for n := 0 to |sorted|
      invariant |out| == n && Activated(out)
      invariant forall i | 0 <= i < n :: ActiveOK(sorted[i], resolver) && FromActive(out[i], sorted[i], resolver)
      invariant DistinctRevisions(sorted[..n])
    {
      var v := sorted[n];
      assert v in sorted;
      if v.id == "" || v.revision <= 0 { return None; }
      if n > 0 && SameRevision(sorted[n - 1], v) {
        RepeatedRevision(sorted, n);
        return None;
      }
      var plan := RulePlans.Compile(v.definition, resolver);
      if plan.None? { return None; }
      var rule := Rule(v.id, v.revision, plan.value);
      assert FromActive(rule, v, resolver);
      if n > 0 { NextRule(sorted[n - 1], out[n - 1], v, rule, resolver); }
      ActivatedPush(out, rule);
      UnlistedNext(sorted, out + [rule], n, resolver);
      out := out + [rule];
    }
    assert sorted[..|sorted|] == sorted;
    rules := Some(out);
  }

  lemma {:induction false} RepeatedRevision(xs: seq<ActiveRule>, n: nat)
    requires 0 < n < |xs| && SameRevision(xs[n - 1], xs[n])
    ensures !DistinctRevisions(xs)
  {
    var front := xs[..|xs| - 1];
    if n == |xs| - 1 {
      assert front[n - 1] in front;
    } else {
      RepeatedRevision(front, n);
    }
  }

  lemma NextRule(a: ActiveRule, ra: Rule, b: ActiveRule, rb: Rule, resolver: Option<RulePlans.Groups>)
    requires FromActive(ra, a, resolver) && FromActive(rb, b, resolver)
    requires !LessActive(b, a) && !SameRevision(a, b)
    ensures LessRule(ra, rb)
  {
    hide RulePlans.Compiled;
    LessActiveTotal(a, b);
  }

  // Strictly ordered rules have distinct revisions.
  lemma UnlistedNext(xs: seq<ActiveRule>, rules: seq<Rule>, n: nat, resolver: Option<RulePlans.Groups>)
    requires n < |xs| && |rules| == n + 1 && Activated(rules) && DistinctRevisions(xs[..n])
    requires forall i | 0 <= i <= n :: FromActive(rules[i], xs[i], resolver)
    ensures DistinctRevisions(xs[..n + 1])
  {
    hide RulePlans.Compiled;
    assert xs[..n + 1][..n] == xs[..n];
    forall y | y in xs[..n] ensures !SameRevision(y, xs[n]) {
      var i :| 0 <= i < n && xs[..n][i] == y;
      assert LessRule(rules[i], rules[n]);
      LessIrreflexive(rules[n].id);
    }
  }

  method NewReducers(rules: seq<Rule>) returns (rs: seq<Reducer>)
    ensures Separate(rs) && (forall i | 0 <= i < |rs| :: fresh(rs[i]))
    ensures MachinesOf(rs) == Started(rules)
  {
    rs := [];
    for n := 0 to |rules|
      invariant |rs| == n && Separate(rs) && (forall i | 0 <= i < |rs| :: fresh(rs[i]))
      invariant forall i | 0 <= i < n :: rs[i].Machine() == Init(ConfigOf(rules[i]))
    {
      var r := new Reducer(ConfigOf(rules[n]));
      rs := rs + [r];
    }
  }

  method IndexRules(rules: seq<Rule>) returns (byKey: map<(Text, int), nat>)
    requires Activated(rules)
    ensures Indexed(rules, byKey)
  {
    byKey := map[];
    for n := 0 to |rules|
      invariant Indexed(rules[..n], byKey)
    {
      forall i | 0 <= i < n ensures (rules[i].id, rules[i].revision) != (rules[n].id, rules[n].revision) {
        assert LessRule(rules[i], rules[n]);
        LessIrreflexive(rules[n].id);
      }
      byKey := byKey[(rules[n].id, rules[n].revision) := n];
    }
    assert rules[..|rules|] == rules;
  }

  lemma StartedAligned(rules: seq<Rule>)
    ensures Aligned(rules, Started(rules), 0)
  {
  }

  class Runtime {
    // Position `i` of both lists is one activated revision.
    var rules: seq<Rule>
    var reducers: seq<Reducer>
    var byKey: map<(Text, int), nat>
    var logical: Time

    function Machines(): (ms: seq<Machine>)
      reads `reducers, reducers
      ensures |ms| == |reducers| && forall i | 0 <= i < |reducers| :: ms[i] == reducers[i].Machine()
    {
      MachinesOf(reducers)
    }

    ghost predicate Valid()
      reads this, reducers
    {
      && Activated(rules) && Separate(reducers) && Aligned(rules, Machines(), logical)
      && Indexed(rules, byKey)
    }

    constructor (rules: seq<Rule>, reducers: seq<Reducer>, byKey: map<(Text, int), nat>)
      ensures this.rules == rules && this.reducers == reducers && this.byKey == byKey && logical == 0
    {
      this.rules, this.reducers, this.byKey, logical := rules, reducers, byKey, 0;
    }

    // Nothing has run yet.
    ghost predicate Unstarted()
      reads this, reducers
    {
      Valid() && logical == 0 && Machines() == Started(rules)
    }

    /** Activate every rule or none: it fails exactly when some rule is unnamed, has no positive
        revision or does not compile, or a revision is listed twice. */
    static method Activate(values: seq<ActiveRule>, resolver: Option<RulePlans.Groups>) returns (rt: Option<Runtime>)
      ensures rt.Some? <==> ActivationOK(values, resolver)
      ensures rt.Some? ==>
        && fresh(rt.value) && (forall i | 0 <= i < |rt.value.reducers| :: fresh(rt.value.reducers[i]))
        && rt.value.Unstarted() && RulesOf(rt.value.rules, values, resolver)
    {
      var sorted := SortActive(values);
      var rules := CompileAll(sorted, resolver);
      if rules.None? {
        SortedSame(sorted, values, resolver);
        return None;
      }
      SortedSame(sorted, values, resolver);
      SortedRules(sorted, values, rules.value, resolver);
      var reducers := NewReducers(rules.value);
      var byKey := IndexRules(rules.value);
      StartedAligned(rules.value);
      var runtime := new Runtime(rules.value, reducers, byKey);
      rt := Some(runtime);
    }

    /** The globally smallest timer due by `now`. */
    method NextDue(now: Time) returns (best: Option<(nat, Timer)>)
      requires Apart(Machines())
      ensures best.None? <==> NoneDueIn(Machines(), now)
      ensures best.Some? ==>
        var (i, t) := best.value;
            i < |reducers| && IsNext(Machines(), now, i, t.key) && t == KeyTimer(Machines()[i], t.key)
    {
      best := None;
      ghost var ms := Machines();
      for i := 0 to |reducers|
        invariant BestOf(ms, now, i, best)
      {
        var timers := reducers[i].Timers();
        best := ScanTimers(ms, now, i, timers, best);
      }
      BestIsNext(ms, now, best);
    }

    /** Fire every due timer in global canonical order, then synchronise the reducers. Refused
        exactly for the zero instant and for an instant before the clock. */
    method Advance(now: Time) returns (ok: bool, out: seq<Transition>)
      requires Valid()
      modifies this, reducers
      ensures Valid() && rules == old(rules) && reducers == old(reducers)
      ensures ok <==> now != 0 && old(logical) <= now
      ensures ok ==>
        && logical == now && Apart(old(Machines())) && ClocksBy(old(Machines()), now)
        && MultiStep(Machines(), out) == AdvanceAll(old(Machines()), now)
      ensures !ok ==> logical == old(logical) && Machines() == old(Machines()) && out == []
    {
      hide *;
      out := [];
      if now == 0 { return false, []; }
      if logical != 0 && now < logical { return false, []; }
      ghost var start := Machines();
      ValidParts(now);
      out := DrainDue(now);
      ghost var drained := Machines();
      var more := Synchronise(now);
      AdvanceAllParts(start, now, MultiStep(drained, out), MultiStep(Machines(), more));
      out := out + more;
      assert MultiStep(Machines(), out) == AdvanceAll(start, now);
      AdvanceAllAligned(rules, start, logical, now);
      logical := now;
      StaysValid(now);
      return true, out;
    }

    // The loop that fires the next due timer until none is left.
    method DrainDue(now: Time) returns (out: seq<Transition>)
      requires Valid() && now > 0 && logical <= now
      modifies reducers
      ensures Apart(old(Machines())) && ClocksBy(old(Machines()), now)
      ensures MultiStep(Machines(), out) == DrainAll(old(Machines()), now)
    {
      hide *;
      out := [];
      ghost var start := Machines();
      ValidParts(now);
      AppendNothing(start, now);
      var more := true;
      while more
        invariant Separate(reducers) && Apart(Machines()) && ClocksBy(Machines(), now)
        invariant DrainAll(start, now)
            == MultiStep(DrainAll(Machines(), now).machines, out + DrainAll(Machines(), now).out)
        invariant !more ==> NoneDueIn(Machines(), now)
        decreases TotalDue(Machines(), now), more
      {
        ghost var ms := Machines();
        var best := NextDue(now);
        if best.None? {
          more := false;
        } else {
          var (i, t) := best.value;
          ChosenIsNext(ms, now, i, t);
          DrainAllUnfold(start, ms, out, now);
          var fired := FireOne(i, t, now);
          out := out + fired;
        }
      }
      DrainAllDone(Machines(), now);
      assert out + [] == out;
    }

    method FireOne(i: nat, t: Timer, now: Time) returns (out: seq<Transition>)
      requires Separate(reducers) && i < |reducers|
      modifies reducers[i]
      ensures var st := FireAt(old(Machines())[i], t, now);
        Machines() == old(Machines())[i := st.machine] && out == st.out
    {
      hide Reducer.Machine, FireAt;
      out := reducers[i].Fire(t, now);
    }

    method AdvanceOne(i: nat, now: Time) returns (out: seq<Transition>)
      requires Separate(reducers) && i < |reducers|
      modifies reducers[i]
      ensures var st := AdvanceTo(old(Machines())[i], now);
        Machines() == old(Machines())[i := st.machine] && out == st.out
    {
      hide Reducer.Machine, AdvanceTo;
      out := reducers[i].Advance(now);
    }

    // The pass that brings every reducer to the same instant.
    method Synchronise(now: Time) returns (out: seq<Transition>)
      requires Separate(reducers)
      modifies reducers
      ensures MultiStep(Machines(), out) == SyncAll(old(Machines()), now)
    {
      hide *;
      out := [];
      ghost var start := Machines();
      SyncNone(now);
      assert start[..0] == [] && start[0..] == start;
      for i := 0 to |reducers|
        invariant i <= |start| == |reducers| && |SyncAll(start[..i], now).machines| == i
        invariant Machines() == SyncAll(start[..i], now).machines + start[i..]
        invariant out == SyncAll(start[..i], now).out
      {
        ghost var ms := Machines();
        SyncPush(start, i, ms, now);
        var more := AdvanceOne(i, now);
        out := out + more;
      }
      assert start[..|start|] == start;
    }

    /** Observe one accepted occurrence. It changes nothing, and is refused exactly when the request
        is malformed, the clock does not match, or an observation fails the result contract. */
    method Evaluate(o: Occurrence, t: Time, e: Option<Evidence>) returns (result: Option<seq<Observation>>)
      requires Valid()
      ensures result.Some? <==>
        RequestOK(o, t) && logical == t && AllObservationsOK(rules, o, t, Observe(rules, o, t, e))
      ensures result.Some? ==> result.value == Observe(rules, o, t, e)
    {
      hide Observe, ObservationFor, ObservationOK, Targets, RequestOK, OccurrenceOK;
      var ok := ValidateRequest(o, t);
      if !ok || logical != t { return None; }
      var out: seq<Observation> := [];
      ObserveNone(o, t, e);
      for i := 0 to |rules|
        invariant out == Observe(rules[..i], o, t, e)
      {
        ObservePush(rules, i, o, t, e);
        if Targets(rules[i], o) {
          out := out + [ObservationFor(rules[i], o, t, Trigger, e), ObservationFor(rules[i], o, t, Clear, e)];
        }
      }
      assert rules[..|rules|] == rules;
      ObserveDistinct(rules, o, t, e);
      result := NewEvaluationResult(rules, o, t, out);
    }

    /** The checks before anything is applied: exactly `Applicable`. */
    method ValidateResult(xs: seq<Observation>) returns (ok: bool)
      requires Valid()
      ensures ok <==> Applicable(rules, logical, xs)
    {
      hide LessObservation, ItemOK, Valid, DistinctIDs, IDSet;
      var seen: set<Text> := {};
      SeenNone();
      for n := 0 to |xs|
        invariant seen == IDSet(xs[..n]) && |seen| == n
        invariant forall i | 0 <= i < n :: ItemOK(rules, logical, xs[i])
        invariant forall i | 0 < i < n :: !LessObservation(xs[i], xs[i - 1])
      {
        SeenNext(xs, n);
        var itemOK := ValidateItem(xs[n]);
        if !itemOK { return false; }
        if xs[n].observationID in seen { return false; }
        seen := seen + {xs[n].observationID};
        if n > 0 && LessObservation(xs[n], xs[n - 1]) { return false; }
      }
      assert xs[..|xs|] == xs;
      DistinctCount(xs);
      ok := true;
    }

    method ValidateItem(x: Observation) returns (ok: bool)
      requires Valid()
      ensures ok <==> ItemOK(rules, logical, x)
    {
      KeyInTable(x.key);
      if (x.key.ruleID, x.key.revision) !in byKey { return false; }
      var i := byKey[(x.key.ruleID, x.key.revision)];
      if !RulePlans.HasTarget(rules[i].plan, x.key.subject.kind, x.key.subject.id) { return false; }
      if x.observationID == "" || x.processingAt != logical { return false; }
      ok := x.effectiveAt != 0 && x.effectiveAt <= x.processingAt;
    }

    // The table answers for exactly one rule.
    lemma KeyInTable(k: ConditionKey)
      requires Valid()
      ensures (k.ruleID, k.revision) in byKey <==> exists r :: 0 <= r < |rules| && RuleOf(ConfigOf(rules[r]), k)
      ensures forall r | 0 <= r < |rules| && RuleOf(ConfigOf(rules[r]), k) :: byKey[(k.ruleID, k.revision)] == r
      ensures (k.ruleID, k.revision) in byKey ==> RuleOf(ConfigOf(rules[byKey[(k.ruleID, k.revision)]]), k)
    {
    }

    /** Record observations in order. Refused, with nothing changed, exactly when they are not
        applicable; otherwise each goes to its own rule's reducer. */
    method Apply(xs: seq<Observation>) returns (ok: bool, out: seq<Transition>)
      requires Valid()
      modifies reducers
      ensures Valid()
      ensures ok <==> Applicable(rules, logical, xs)
      ensures if ok then MultiStep(Machines(), out) == ApplyAll(old(Machines()), xs)
              else Machines() == old(Machines()) && out == []
    {
      hide *;
      out := [];
      ok := ValidateResult(xs);
      if !ok { return; }
      ghost var start := Machines();
      ApplyNone(start);
      for n := 0 to |xs|
        invariant Valid() && MultiStep(Machines(), out) == ApplyAll(start, xs[..n])
      {
        ApplicableItem(xs, n);
        var i := byKey[(xs[n].key.ruleID, xs[n].key.revision)];
        ValidParts(logical);
        ApplyPush(rules, logical, start, xs, n, Machines(), out, i);
        var more := ApplyOne(i, xs[n]);
        StaysValid(logical);
        out := out + more;
      }
      assert xs[..|xs|] == xs;
    }

    lemma ApplicableItem(xs: seq<Observation>, n: nat)
      requires Valid() && Applicable(rules, logical, xs) && n < |xs|
      ensures ItemOK(rules, logical, xs[n])
      ensures (xs[n].key.ruleID, xs[n].key.revision) in byKey
      ensures var i := byKey[(xs[n].key.ruleID, xs[n].key.revision)];
          i < |rules| == |reducers| && RuleOf(ConfigOf(rules[i]), xs[n].key)
    {
      KeyInTable(xs[n].key);
    }

    method ApplyOne(i: nat, o: Observation) returns (out: seq<Transition>)
      requires Separate(reducers) && i < |reducers|
      modifies reducers[i]
      ensures var st := ApplyTo(old(Machines())[i], o);
        Machines() == old(Machines())[i := st.machine] && out == st.out
    {
      hide Reducer.Machine, ApplyTo;
      out := reducers[i].Apply(o);
    }

    twostate lemma StaysValid(now: Time)
      requires old(Valid()) && rules == old(rules) && reducers == old(reducers) && byKey == old(byKey) && logical == now
      requires Aligned(rules, Machines(), now)
      ensures Valid()
    {
    }

    lemma ValidParts(now: Time)
      requires Valid()
      ensures Activated(rules) && Separate(reducers) && Aligned(rules, Machines(), logical) && Apart(Machines())
      ensures logical <= now ==> ClocksBy(Machines(), now)
    {
      AlignedApart(rules, Machines(), logical);
    }
  }

  lemma AdvanceAllParts(ms: seq<Machine>, now: Time, drained: MultiStep, synced: MultiStep)
    requires Apart(ms) && ClocksBy(ms, now) && now > 0
    requires drained == DrainAll(ms, now) && synced == SyncAll(drained.machines, now)
    ensures AdvanceAll(ms, now) == MultiStep(synced.machines, drained.out + synced.out)
  {
  }

  lemma SyncNone(now: Time)
    ensures SyncAll([], now) == MultiStep([], [])
  {
  }

  lemma SyncPush(start: seq<Machine>, i: nat, ms: seq<Machine>, now: Time)
    requires i < |start| && |SyncAll(start[..i], now).machines| == i
        && ms == SyncAll(start[..i], now).machines + start[i..]
    ensures ms[i] == start[i] && |SyncAll(start[..i + 1], now).machines| == i + 1
    ensures ms[i := AdvanceTo(ms[i], now).machine] == SyncAll(start[..i + 1], now).machines + start[i + 1..]
    ensures SyncAll(start[..i], now).out + AdvanceTo(ms[i], now).out == SyncAll(start[..i + 1], now).out
  {
    hide AdvanceTo;
    assert start[..i + 1][..i] == start[..i] && start[..i + 1][i] == start[i];
  }

  lemma AppendNothing(ms: seq<Machine>, now: Time)
    requires Apart(ms) && ClocksBy(ms, now) && now > 0
    ensures DrainAll(ms, now) == MultiStep(DrainAll(ms, now).machines, [] + DrainAll(ms, now).out)
  {
  }

  lemma DrainAllDone(ms: seq<Machine>, now: Time)
    requires Apart(ms) && ClocksBy(ms, now) && now > 0 && NoneDueIn(ms, now)
    ensures DrainAll(ms, now) == MultiStep(ms, [])
  {
  }

  lemma ChosenIsNext(ms: seq<Machine>, now: Time, i: nat, t: Timer)
    requires Apart(ms) && IsNext(ms, now, i, t.key) && t == KeyTimer(ms[i], t.key)
    requires ClocksBy(ms, now) && now > 0
    ensures !NoneDueIn(ms, now)
    ensures var st := FireAt(ms[i], t, now); FireNext(ms, now) == MultiStep(ms[i := st.machine], st.out)
    ensures TotalDue(FireNext(ms, now).machines, now) < TotalDue(ms, now)
  {
    hide FireAt, TotalDue;
    assert t.key in DueKeys(ms[i], now);
    var (j, l) := Next(ms, now);
    NextUnique(ms, now, i, t.key, j, l);
    FireNextStep(ms, now);
  }

  // One iteration of the loop is one unfolding of `DrainAll`.
  lemma DrainAllUnfold(start: seq<Machine>, ms: seq<Machine>, out: seq<Transition>, now: Time)
    requires Apart(start) && ClocksBy(start, now) && Apart(ms) && ClocksBy(ms, now) && now > 0 && !NoneDueIn(ms, now)
    requires DrainAll(start, now) == MultiStep(DrainAll(ms, now).machines, out + DrainAll(ms, now).out)
    ensures var first := FireNext(ms, now);
      && Apart(first.machines) && ClocksBy(first.machines, now)
      && DrainAll(start, now)
         == MultiStep(DrainAll(first.machines, now).machines, (out + first.out) + DrainAll(first.machines, now).out)
  {
    FireNextStep(ms, now);
    var first := FireNext(ms, now);
    var rest := DrainAll(first.machines, now);
    assert out + (first.out + rest.out) == (out + first.out) + rest.out;
  }

  // The inner loop: the due prefix of one reducer's sorted timers.
  method ScanTimers(ghost ms: seq<Machine>, now: Time, i: nat, timers: seq<Timer>, start: Option<(nat, Timer)>)
    returns (best: Option<(nat, Timer)>)
    requires i < |ms| && Apart(ms) && BestOf(ms, now, i, start) && SortedTimers(timers)
    requires forall t :: t in timers <==>
        t.key in ms[i].states && Pending(ms[i].states[t.key]) && t == KeyTimer(ms[i], t.key)
    ensures BestOf(ms, now, i + 1, best)
  {
    best := start;
    var n := 0;
    while n < |timers| && timers[n].dueAt <= now
      invariant n <= |timers|
      invariant n == 0 ==> best == start
      invariant n > 0 ==> timers[0].dueAt <= now && best == Better(start, i, timers[0])
    {
      if n > 0 { NoBetter(start, i, timers[0], timers[n]); }
      if best.None? || LessTimer(timers[n], best.value.1) {
        best := Some((i, timers[n]));
      }
      n := n + 1;
    }
    if n == 0 { NothingDue(ms, now, i, timers, start); } else { FirstDue(ms, now, i, timers, start); }
  }

  // No later timer of the same reducer replaces the choice.
  lemma NoBetter(start: Option<(nat, Timer)>, i: nat, first: Timer, t: Timer)
    requires LessTimer(first, t)
    ensures !LessTimer(t, Better(start, i, first).value.1)
  {
    LessTimerAsymmetric(first, t);
    if start.Some? && LessTimer(t, start.value.1) { LessTimerTransitive(first, t, start.value.1); }
  }

  lemma NothingDue(ms: seq<Machine>, now: Time, i: nat, timers: seq<Timer>, start: Option<(nat, Timer)>)
    requires i < |ms| && BestOf(ms, now, i, start) && SortedTimers(timers)
    requires timers == [] || now < timers[0].dueAt
    requires forall t :: t in timers <==>
        t.key in ms[i].states && Pending(ms[i].states[t.key]) && t == KeyTimer(ms[i], t.key)
    ensures BestOf(ms, now, i + 1, start)
  {
    NoneDue(ms[i], timers, now);
    assert forall l :: !DueAt(ms, now, i, l);
  }

  lemma FirstDue(ms: seq<Machine>, now: Time, i: nat, timers: seq<Timer>, start: Option<(nat, Timer)>)
    requires i < |ms| && Apart(ms) && BestOf(ms, now, i, start) && SortedTimers(timers)
    requires timers != [] && timers[0].dueAt <= now
    requires forall t :: t in timers <==>
        t.key in ms[i].states && Pending(ms[i].states[t.key]) && t == KeyTimer(ms[i], t.key)
    ensures BestOf(ms, now, i + 1, Better(start, i, timers[0]))
  {
    var t := timers[0];
    FirstIsLeast(ms[i], timers, now);
    assert DueAt(ms, now, i, t.key);
    forall l | DueAt(ms, now, i, l) && l != t.key ensures LessTimer(t, KeyTimer(ms[i], l)) {
      assert IsLeast(ms[i], DueKeys(ms[i], now), t.key);
    }
    if start.Some? {
      var (j, u) := start.value;
      if LessTimer(t, u) {
        forall b: nat, l | b < i && DueAt(ms, now, b, l) ensures LessTimer(t, KeyTimer(ms[b], l)) {
          if b != j || l != u.key { LessTimerTransitive(t, u, KeyTimer(ms[b], l)); }
        }
      } else {
        KeysApart(ms, j, i, u.key, t.key);
        LessTimerTotal(u, t);
        forall l | DueAt(ms, now, i, l) ensures LessTimer(u, KeyTimer(ms[i], l)) {
          if l != t.key { LessTimerTransitive(u, t, KeyTimer(ms[i], l)); }
        }
      }
    }
  }

  lemma KeysApart(ms: seq<Machine>, i: nat, j: nat, k: ConditionKey, l: ConditionKey)
    requires Apart(ms) && i < j < |ms| && k in ms[i].states && l in ms[j].states
    ensures k != l
  {
  }

  lemma BestIsNext(ms: seq<Machine>, now: Time, best: Option<(nat, Timer)>)
    requires BestOf(ms, now, |ms|, best)
    ensures best.None? <==> NoneDueIn(ms, now)
    ensures best.Some? ==> var (i, t) := best.value; IsNext(ms, now, i, t.key) && t == KeyTimer(ms[i], t.key)
  {
    if best.None? {
      forall i: nat, l | i < |ms| ensures l !in DueKeys(ms[i], now) { assert !DueAt(ms, now, i, l); }
    } else {
      var (i, t) := best.value;
      assert t.key in DueKeys(ms[i], now);
    }
  }

  function Better(start: Option<(nat, Timer)>, i: nat, t: Timer): Option<(nat, Timer)>
  {
    if start.None? || LessTimer(t, start.value.1) then Some((i, t)) else start
  }
}
