/** Turning an accepted occurrence into canonical observations, and what a runtime accepts. */
module Evaluation {
  import opened Wrappers
  import opened Bytes
  import opened Conditions
  import opened Events
  import Rules
  import RulePlans
  import opened ConditionRuns
  import opened EvaluationMerge

  /** An activated rule revision. */
  datatype Rule = Rule(id: Text, revision: int, plan: RulePlans.Plan)

  function ConfigOf(r: Rule): RuleConfig { RuleConfig(r.id, r.revision, r.plan.triggerFor, r.plan.clearFor) }

  predicate LessRule(a: Rule, b: Rule) { if a.id != b.id then Less(a.id, b.id) else a.revision < b.revision }

  /** Activated rules: named, positive revisions, strictly in canonical order. */
  ghost predicate Activated(rules: seq<Rule>)
  {
    && (forall i | 0 <= i < |rules| :: rules[i].id != "" && rules[i].revision > 0)
    && (forall i, j | 0 <= i < j < |rules| :: LessRule(rules[i], rules[j]))
  }

  datatype Evidence = Evidence(lookup: Rules.Lookup, trueSince: Time, clearTrueSince: Time, reason: Text)

  // ----- observations -----

  function ObservationParts(occurrence: Text, k: ConditionKey, d: Direction): seq<Text>
  {
    [occurrence, k.ruleID, DecimalInt(k.revision), k.subject.kind, k.subject.id, DirectionName(d)]
  }

  function ObservationID(occurrence: Text, k: ConditionKey, d: Direction): (id: Text)
    ensures id != ""
  {
    StableID("evaluation", CanonicalParts(ObservationParts(occurrence, k, d)))
  }

  /** Observation identities separate occurrences, keys and directions. */
  lemma ObservationIDInjective(o: Text, k: ConditionKey, d: Direction, o': Text, k': ConditionKey, d': Direction)
    requires ObservationID(o, k, d) == ObservationID(o', k', d')
    ensures o == o' && k == k' && d == d'
  {
    var a, b := ObservationParts(o, k, d), ObservationParts(o', k', d');
    StableIDInjective("evaluation", a, "evaluation", b);
    assert a[0] == b[0] && a[1] == b[1] && a[2] == b[2] && a[3] == b[3] && a[4] == b[4] && a[5] == b[5];
    DecimalIntInjective(k.revision, k'.revision);
    assert DirectionName(d)[0] == DirectionName(d')[0];
  }

  function TruthOf(r: Rules.Outcome): Truth
  {
    match r case PredicateTrue => True case PredicateFalse => False case PredicateUnknown => Unknown
  }

  function KeyFor(r: Rule, o: Occurrence): ConditionKey { ConditionKey(r.id, r.revision, Target(o.event)) }

  function ObservationFor(r: Rule, o: Occurrence, t: Time, d: Direction, e: Option<Evidence>): Observation
  {
    var comparisons := if d == Trigger then r.plan.trigger else r.plan.clear;
    Observation(
      KeyFor(r, o), d, if e.None? then Unknown else TruthOf(Rules.Conjunction(comparisons, e.value.lookup)),
      o.effectiveAt, t, o.effectiveAt,
      if e.None? then 0 else if d == Trigger then e.value.trueSince else e.value.clearTrueSince,
      ObservationID(o.id, KeyFor(r, o), d), if e.None? then "" else e.value.reason)
  }

  predicate Targets(r: Rule, o: Occurrence) { RulePlans.HasTarget(r.plan, Target(o.event).kind, Target(o.event).id) }

  /** A trigger and a clear observation for each rule that selects the occurrence's subject. */
  function Observe(rules: seq<Rule>, o: Occurrence, t: Time, e: Option<Evidence>): seq<Observation>
  {
    if rules == [] then []
    else
      var n := |rules| - 1;
      var front := Observe(rules[..n], o, t, e);
      if Targets(rules[n], o)
      then front + [ObservationFor(rules[n], o, t, Trigger, e), ObservationFor(rules[n], o, t, Clear, e)]
      else front
  }

  predicate LessObservation(a: Observation, b: Observation)
  {
    if a.key != b.key then LessKey(a.key, b.key)
    else if a.direction != b.direction then a.direction == Trigger
    else Less(a.observationID, b.observationID)
  }

  /** The order of a result: by key, trigger before clear, then by identity. */
  lemma LessObservationMeans(x: Observation, y: Observation)
    ensures var a, b := x.key, y.key;
      LessObservation(x, y) <==>
        || Precedes(a.ruleID, b.ruleID)
        || (a.ruleID == b.ruleID && a.revision < b.revision)
        || (a.ruleID == b.ruleID && a.revision == b.revision && Precedes(a.subject.kind, b.subject.kind))
        || (a.ruleID == b.ruleID && a.revision == b.revision && a.subject.kind == b.subject.kind
            && Precedes(a.subject.id, b.subject.id))
        || (a == b && x.direction == Trigger && y.direction == Clear)
        || (a == b && x.direction == y.direction && Precedes(x.observationID, y.observationID))
  {
    hide Precedes, Less, LessKey;
    LessKeyMeans(x.key, y.key);
    LessKeyTotal(x.key, y.key);
    LessMeans(x.observationID, y.observationID);
  }

  /** What a rule reports of an occurrence: two observations when it selects the subject, none when it
      does not; each with the verdict of its own condition and the instants of the occurrence. */
  lemma ObservesBoth(rules: seq<Rule>, o: Occurrence, t: Time, e: Option<Evidence>, x: Observation)
    ensures x in Observe(rules, o, t, e) <==>
      exists i | 0 <= i < |rules| :: Targets(rules[i], o) && Reports(rules[i], o, t, e, x)
  {
    hide ObservationID, Rules.Conjunction, Targets;
    forall i | 0 <= i < |rules|
      ensures Reports(rules[i], o, t, e, x) <==> x == ObservationFor(rules[i], o, t, x.direction, e)
    {
      ReportsIs(rules[i], o, t, e, x);
    }
    ObserveIs(rules, o, t, e, x);
  }

  /** `x` is what rule `r` reports of the occurrence in the direction of `x`. */
  predicate Reports(r: Rule, o: Occurrence, t: Time, e: Option<Evidence>, x: Observation)
  {
    && x.key == ConditionKey(r.id, r.revision, Target(o.event))
    && x.observationID == ObservationID(o.id, x.key, x.direction)
    && x.effectiveAt == o.effectiveAt && x.evidenceAt == o.effectiveAt && x.processingAt == t
    && match e
       case None => x.result == Unknown && x.trueSince == 0 && x.reason == ""
       case Some(v) =>
         && x.reason == v.reason
         && (x.direction == Trigger ==> x.trueSince == v.trueSince && Tells(x.result, r.plan.trigger, v.lookup))
         && (x.direction == Clear ==> x.trueSince == v.clearTrueSince && Tells(x.result, r.plan.clear, v.lookup))
  }

  predicate Tells(result: Truth, cs: seq<Rules.Comparison>, lookup: Rules.Lookup)
  {
    && (result == True <==> Rules.Conjunction(cs, lookup) == Rules.PredicateTrue)
    && (result == False <==> Rules.Conjunction(cs, lookup) == Rules.PredicateFalse)
  }

  lemma ReportsIs(r: Rule, o: Occurrence, t: Time, e: Option<Evidence>, x: Observation)
    ensures Reports(r, o, t, e, x) <==> x == ObservationFor(r, o, t, x.direction, e)
  {
    hide ObservationID, Rules.Conjunction;
    var y := ObservationFor(r, o, t, x.direction, e);
    assert Reports(r, o, t, e, y);
    if Reports(r, o, t, e, x) { assert x.result == y.result; }
  }

  lemma {:induction false} ObserveIs(rules: seq<Rule>, o: Occurrence, t: Time, e: Option<Evidence>, x: Observation)
    ensures x in Observe(rules, o, t, e) <==>
      exists i | 0 <= i < |rules| :: Targets(rules[i], o) && x == ObservationFor(rules[i], o, t, x.direction, e)
  {
    hide Targets, ObservationID, Rules.Conjunction;
    if rules != [] {
      var n := |rules| - 1;
      ObserveIs(rules[..n], o, t, e, x);
      var a, b := ObservationFor(rules[n], o, t, Trigger, e), ObservationFor(rules[n], o, t, Clear, e);
      assert a.direction == Trigger && b.direction == Clear;
      assert x in [a, b] <==> x == ObservationFor(rules[n], o, t, x.direction, e);
      assert forall i | 0 <= i < n :: rules[..n][i] == rules[i];
    }
  }

  lemma LessObservationTotal(a: Observation, b: Observation)
    ensures !LessObservation(a, a)
    ensures LessObservation(a, b) ==> !LessObservation(b, a)
  {
    LessKeyTotal(a.key, b.key);
    if a.key != b.key && LessKey(a.key, b.key) && LessKey(b.key, a.key) { LessKeyTransitive(a.key, b.key, a.key); }
    LessIrreflexive(a.observationID);
    if Less(a.observationID, b.observationID) { LessTextAsymmetric(a.observationID, b.observationID); }
  }

  lemma NotLessObservation(a: Observation, b: Observation, c: Observation)
    requires !LessObservation(b, a) && LessObservation(c, a)
    ensures LessObservation(c, b)
  {
    LessKeyTotal(a.key, b.key);
    LessKeyTotal(c.key, b.key);
    LessTotal(a.observationID, b.observationID);
    if a.key != b.key && c.key != a.key { LessKeyTransitive(c.key, a.key, b.key); LessKeyTotal(c.key, c.key); }
    if a.observationID != b.observationID && Less(c.observationID, a.observationID)
        && Less(a.observationID, b.observationID) {
      LessTransitive(c.observationID, a.observationID, b.observationID);
    }
  }

  // ----- the evaluation contract -----

  predicate RequestOK(o: Occurrence, t: Time) { OccurrenceOK(o) && t != 0 && o.effectiveAt <= t }

  /** One observation acceptable for the request. */
  predicate ObservationOK(rules: seq<Rule>, o: Occurrence, t: Time, x: Observation)
  {
    && x.observationID != "" && x.observationID != o.sourceEventID
    && (exists i :: 0 <= i < |rules| && rules[i].id == x.key.ruleID && rules[i].revision == x.key.revision)
    && (x.key.subject.kind == "queue" || x.key.subject.kind == "agent") && x.key.subject.id != ""
    && x.effectiveAt != 0 && x.processingAt == t && x.effectiveAt <= x.processingAt
  }

  predicate AllObservationsOK(rules: seq<Rule>, o: Occurrence, t: Time, xs: seq<Observation>)
  {
    forall i | 0 <= i < |xs| :: ObservationOK(rules, o, t, xs[i])
  }

  ghost predicate SortedObservations(xs: seq<Observation>)
  {
    forall i, j | 0 <= i < j < |xs| :: !LessObservation(xs[j], xs[i])
  }

  ghost predicate StrictlySorted(xs: seq<Observation>)
  {
    forall i, j | 0 <= i < j < |xs| :: LessObservation(xs[i], xs[j])
  }

  predicate DistinctIDs(xs: seq<Observation>)
  {
    forall i, j | 0 <= i < j < |xs| :: xs[i].observationID != xs[j].observationID
  }

  function IDSet(xs: seq<Observation>): set<Text> { set x | x in xs :: x.observationID }

  // Counting is blind to order, so a permutation keeps identities distinct.
  lemma {:induction false} DistinctCount(xs: seq<Observation>)
    ensures |IDSet(xs)| <= |xs|
    ensures DistinctIDs(xs) <==> |IDSet(xs)| == |xs|
  {
    if xs == [] {
    } else {
      var n := |xs| - 1;
      var front, id := xs[..n], xs[n].observationID;
      DistinctCount(front);
      assert xs == front + [xs[n]];
      assert IDSet(xs) == IDSet(front) + {id};
      if id in IDSet(front) {
        var x :| x in front && x.observationID == id;
        var i :| 0 <= i < n && front[i] == x;
        assert xs[i].observationID == xs[n].observationID;
      }
    }
  }

  lemma SeenNone()
    ensures IDSet([]) == {}
  {
  }

  lemma SeenNext(xs: seq<Observation>, n: nat)
    requires n < |xs|
    ensures IDSet(xs[..n + 1]) == IDSet(xs[..n]) + {xs[n].observationID}
    ensures xs[n].observationID in IDSet(xs[..n]) ==> !DistinctIDs(xs)
  {
    assert xs[..n + 1] == xs[..n] + [xs[n]];
    if xs[n].observationID in IDSet(xs[..n]) {
      var y :| y in xs[..n] && y.observationID == xs[n].observationID;
      var j :| 0 <= j < n && xs[..n][j] == y;
      assert xs[j].observationID == xs[n].observationID;
    }
  }

  lemma DistinctShuffle(xs: seq<Observation>, ys: seq<Observation>)
    requires multiset(xs) == multiset(ys)
    ensures DistinctIDs(xs) <==> DistinctIDs(ys)
    ensures forall x :: x in xs <==> x in ys
  {
    assert forall x :: (x in xs <==> x in multiset(xs)) && (x in ys <==> x in multiset(ys));
    assert |xs| == |multiset(xs)| == |multiset(ys)| == |ys|;
    DistinctCount(xs);
    DistinctCount(ys);
    assert IDSet(xs) == IDSet(ys);
  }

  // A library sort, by insertion; a list already in strict order is returned as it is.
  method SortObservations(xs: seq<Observation>) returns (out: seq<Observation>)
    ensures SortedObservations(out) && multiset(out) == multiset(xs)
    ensures StrictlySorted(xs) ==> out == xs
  {
    hide LessObservation;
    out := [];
    for n := 0 to |xs|
      invariant SortedObservations(out) && multiset(out) == multiset(xs[..n])
      invariant StrictlySorted(xs) ==> out == xs[..n]
    {
      ghost var was := out;
      out := InsertObservation(out, xs[n]);
      assert xs[..n + 1] == xs[..n] + [xs[n]];
      if StrictlySorted(xs) {
        forall x | x in was ensures !LessObservation(xs[n], x) {
          var i :| 0 <= i < n && xs[..n][i] == x;
          LessObservationTotal(xs[i], xs[n]);
        }
      }
    }
    assert xs[..|xs|] == xs;
  }

  method InsertObservation(xs: seq<Observation>, x: Observation) returns (out: seq<Observation>)
    requires SortedObservations(xs)
    ensures SortedObservations(out) && multiset(out) == multiset(xs + [x])
    ensures (forall y | y in xs :: !LessObservation(x, y)) ==> out == xs + [x]
  {
    hide LessObservation;
    var i := 0;
    while i < |xs| && !LessObservation(x, xs[i])
      invariant i <= |xs|
      invariant forall j | 0 <= j < i :: !LessObservation(x, xs[j])
    {
      i := i + 1;
    }
    forall j | i <= j < |xs| ensures !LessObservation(xs[j], x) {
      LessObservationTotal(x, xs[i]);
      if i < j && LessObservation(xs[j], x) { NotLessObservation(x, xs[i], xs[j]); }
    }
    out := xs[..i] + [x] + xs[i..];
    assert xs == xs[..i] + xs[i..];
  }

  /** The result constructor: it accepts exactly the observations that are each acceptable and
      have distinct identities, and returns them in canonical order. */
  method ValidateRequest(o: Occurrence, t: Time) returns (ok: bool)
    ensures ok <==> RequestOK(o, t)
  {
    var occurrenceOK := ValidateOccurrence(o);
    if !occurrenceOK || t == 0 { return false; }
    ok := !(t < o.effectiveAt);
  }

  // The checks of one observation, in the order they are made.
  method ValidateObservation(rules: seq<Rule>, o: Occurrence, t: Time, x: Observation) returns (ok: bool)
    requires RequestOK(o, t)
    ensures ok <==> ObservationOK(rules, o, t, x)
  {
    if x.observationID == "" || x.observationID == o.sourceEventID { return false; }
    var active := set r | r in rules :: (r.id, r.revision);
    if (x.key.ruleID, x.key.revision) !in active { return false; }
    if (x.key.subject.kind != "queue" && x.key.subject.kind != "agent") || x.key.subject.id == "" { return false; }
    if x.effectiveAt == 0 || x.processingAt == 0 { return false; }
    if x.processingAt != t { return false; }
    ok := !(x.processingAt < x.effectiveAt);
  }

  method NewEvaluationResult(rules: seq<Rule>, o: Occurrence, t: Time, xs: seq<Observation>)
    returns (result: Option<seq<Observation>>)
    ensures result.Some? <==>
      RequestOK(o, t) && DistinctIDs(xs) && AllObservationsOK(rules, o, t, xs)
    ensures result.Some? ==> SortedObservations(result.value) && multiset(result.value) == multiset(xs)
    ensures result.Some? && StrictlySorted(xs) ==> result.value == xs
  {
    hide LessObservation, ObservationOK, SortedObservations, StrictlySorted, DistinctIDs, IDSet;
    var requestOK := ValidateRequest(o, t);
    if !requestOK { return None; }
    var out := SortObservations(xs);
    DistinctShuffle(out, xs);
    SeenNone();
    var seen: set<Text> := {};
    for n := 0 to |out|
      invariant seen == IDSet(out[..n]) && |seen| == n
      invariant forall i | 0 <= i < n :: ObservationOK(rules, o, t, out[i])
    {
      SeenNext(out, n);
      var itemOK := ValidateObservation(rules, o, t, out[n]);
      if !itemOK {
        assert out[n] in xs;
        return None;
      }
      if out[n].observationID in seen { return None; }
      seen := seen + {out[n].observationID};
    }
    assert out[..|out|] == out;
    DistinctCount(out);
    forall i | 0 <= i < |xs| ensures ObservationOK(rules, o, t, xs[i]) { assert xs[i] in out; }
    result := Some(out);
  }

  /** One observation a runtime at clock `logical` accepts. */
  ghost predicate ItemOK(rules: seq<Rule>, logical: Time, x: Observation)
  {
    && (exists r :: 0 <= r < |rules| && RuleOf(ConfigOf(rules[r]), x.key)
          && RulePlans.HasTarget(rules[r].plan, x.key.subject.kind, x.key.subject.id))
    && x.observationID != "" && x.processingAt == logical && x.effectiveAt != 0 && x.effectiveAt <= x.processingAt
  }

  /** What a runtime at clock `logical` accepts. */
  ghost predicate Applicable(rules: seq<Rule>, logical: Time, xs: seq<Observation>)
  {
    && (forall i | 0 <= i < |xs| :: ItemOK(rules, logical, xs[i]))
    && DistinctIDs(xs)
    && (forall i | 0 < i < |xs| :: !LessObservation(xs[i], xs[i - 1]))
  }

  // ----- what evaluation produces -----

  ghost predicate FromRule(rules: seq<Rule>, o: Occurrence, t: Time, e: Option<Evidence>, x: Observation)
  {
    exists r :: 0 <= r < |rules| && Targets(rules[r], o) && x == ObservationFor(rules[r], o, t, x.direction, e)
  }

  lemma FromRuleLater(rules: seq<Rule>, n: nat, o: Occurrence, t: Time, e: Option<Evidence>, x: Observation)
    requires n <= |rules| && FromRule(rules[..n], o, t, e, x)
    ensures FromRule(rules, o, t, e, x)
  {
    var r :| 0 <= r < n && Targets(rules[..n][r], o) && x == ObservationFor(rules[..n][r], o, t, x.direction, e);
    assert rules[r] == rules[..n][r];
  }

  ghost predicate AllFromRules(rules: seq<Rule>, o: Occurrence, t: Time, e: Option<Evidence>, xs: seq<Observation>)
  {
    forall i | 0 <= i < |xs| :: FromRule(rules, o, t, e, xs[i])
  }

  lemma SortedPush(xs: seq<Observation>, x: Observation, y: Observation)
    requires StrictlySorted(xs) && LessObservation(x, y)
    requires forall i | 0 <= i < |xs| :: LessObservation(xs[i], x) && LessObservation(xs[i], y)
    ensures StrictlySorted(xs + [x, y])
  {
    hide LessObservation;
    var out := xs + [x, y];
    forall i, j | 0 <= i < j < |out| ensures LessObservation(out[i], out[j]) {
      if i < |xs| { assert out[i] == xs[i]; }
    }
  }

  lemma {:induction false} ObserveSorted(rules: seq<Rule>, o: Occurrence, t: Time, e: Option<Evidence>)
    requires Activated(rules)
    ensures AllFromRules(rules, o, t, e, Observe(rules, o, t, e))
    ensures StrictlySorted(Observe(rules, o, t, e))
  {
    hide ObservationFor, Targets, FromRule, LessObservation;
    if rules == [] {
    } else {
      var n := |rules| - 1;
      ObserveSorted(rules[..n], o, t, e);
      var front := Observe(rules[..n], o, t, e);
      forall i | 0 <= i < |front| ensures FromRule(rules, o, t, e, front[i]) {
        FromRuleLater(rules, n, o, t, e, front[i]);
      }
      if Targets(rules[n], o) {
        var x, y := ObservationFor(rules[n], o, t, Trigger, e), ObservationFor(rules[n], o, t, Clear, e);
        LastPair(rules, o, t, e);
        forall i | 0 <= i < |front| ensures LessObservation(front[i], x) && LessObservation(front[i], y) {
          EarlierRule(rules, n, o, t, e, front[i]);
        }
        SortedPush(front, x, y);
      }
    }
  }

  lemma LastPair(rules: seq<Rule>, o: Occurrence, t: Time, e: Option<Evidence>)
    requires rules != [] && Targets(rules[|rules| - 1], o)
    ensures var r := rules[|rules| - 1];
        var x, y := ObservationFor(r, o, t, Trigger, e), ObservationFor(r, o, t, Clear, e);
      FromRule(rules, o, t, e, x) && FromRule(rules, o, t, e, y) && LessObservation(x, y)
  {
  }

  lemma EarlierRule(rules: seq<Rule>, n: nat, o: Occurrence, t: Time, e: Option<Evidence>, x: Observation)
    requires Activated(rules) && n < |rules| && FromRule(rules[..n], o, t, e, x)
    ensures LessObservation(x, ObservationFor(rules[n], o, t, Trigger, e))
    ensures LessObservation(x, ObservationFor(rules[n], o, t, Clear, e))
  {
    hide ObservationID;
    var r :| 0 <= r < n && Targets(rules[..n][r], o) && x == ObservationFor(rules[..n][r], o, t, x.direction, e);
    assert LessRule(rules[r], rules[n]);
    LessIrreflexive(rules[r].id);
  }

  lemma IDsFollowOrder(rules: seq<Rule>, o: Occurrence, t: Time, e: Option<Evidence>, x: Observation, y: Observation)
    requires FromRule(rules, o, t, e, x) && FromRule(rules, o, t, e, y) && LessObservation(x, y)
    ensures x.observationID != y.observationID
  {
    if x.observationID == y.observationID {
      ObservationIDInjective(o.id, x.key, x.direction, o.id, y.key, y.direction);
      LessObservationTotal(x, y);
      LessIrreflexive(x.observationID);
    }
  }

  /** Every observation evaluation produces is acceptable for its request, unless the source event
      was itself named with an observation identity. */
  lemma FromRuleOK(rules: seq<Rule>, o: Occurrence, t: Time, e: Option<Evidence>, x: Observation)
    requires FromRule(rules, o, t, e, x) && RequestOK(o, t)
    ensures ItemOK(rules, t, x)
    ensures ObservationOK(rules, o, t, x) <==> x.observationID != o.sourceEventID && Target(o.event).id != ""
  {
    hide ObservationID;
    var r :| 0 <= r < |rules| && Targets(rules[r], o) && x == ObservationFor(rules[r], o, t, x.direction, e);
    assert RuleOf(ConfigOf(rules[r]), x.key);
  }

  /** Whatever evaluation produces at a clock, the runtime at that clock accepts as it stands:
      it is already in strict canonical order, its identities are distinct, its rules and subjects
      are activated, and its times are consistent. */
  lemma EvaluationApplies(rules: seq<Rule>, o: Occurrence, t: Time, e: Option<Evidence>)
    requires Activated(rules) && RequestOK(o, t)
    ensures Applicable(rules, t, Observe(rules, o, t, e)) && StrictlySorted(Observe(rules, o, t, e))
  {
    hide ObservationFor, FromRule, LessObservation, Observe, ItemOK;
    var xs := Observe(rules, o, t, e);
    ObserveDistinct(rules, o, t, e);
    forall i, j | 0 <= i < j < |xs| ensures !LessObservation(xs[j], xs[i]) { LessObservationTotal(xs[i], xs[j]); }
    forall i | 0 <= i < |xs| ensures ItemOK(rules, t, xs[i]) { FromRuleOK(rules, o, t, e, xs[i]); }
  }

  lemma ObserveDistinct(rules: seq<Rule>, o: Occurrence, t: Time, e: Option<Evidence>)
    requires Activated(rules)
    ensures StrictlySorted(Observe(rules, o, t, e)) && DistinctIDs(Observe(rules, o, t, e))
    ensures AllFromRules(rules, o, t, e, Observe(rules, o, t, e))
  {
    hide ObservationFor, FromRule, LessObservation, Observe;
    var xs := Observe(rules, o, t, e);
    ObserveSorted(rules, o, t, e);
    forall i, j | 0 <= i < j < |xs| ensures xs[i].observationID != xs[j].observationID {
      IDsFollowOrder(rules, o, t, e, xs[i], xs[j]);
    }
  }

  lemma ObserveNone(o: Occurrence, t: Time, e: Option<Evidence>)
    ensures Observe([], o, t, e) == []
  {
  }

  lemma ObservePush(rules: seq<Rule>, i: nat, o: Occurrence, t: Time, e: Option<Evidence>)
    requires i < |rules|
    ensures var front := Observe(rules[..i], o, t, e);
      Observe(rules[..i + 1], o, t, e)
      == if Targets(rules[i], o)
         then front + [ObservationFor(rules[i], o, t, Trigger, e), ObservationFor(rules[i], o, t, Clear, e)]
         else front
  {
    hide ObservationFor, Targets;
    assert rules[..i + 1][..i] == rules[..i];
  }

  // ----- applying observations to machines -----

  // The machine of a key's rule revision, or |ms| when none is activated.
  function RuleIndex(ms: seq<Machine>, k: ConditionKey): (i: nat)
    ensures i <= |ms| && (i < |ms| ==> RuleOf(ms[i].config, k))
    ensures forall j | 0 <= j < i :: !RuleOf(ms[j].config, k)
  {
    if ms == [] then 0
    else if RuleOf(ms[0].config, k) then 0
    else 1 + RuleIndex(ms[1..], k)
  }

  /** Each observation goes to its own rule's machine, in order. */
  ghost function ApplyAll(ms: seq<Machine>, xs: seq<Observation>): MultiStep
  {
    if xs == [] then MultiStep(ms, [])
    else
      var n := |xs| - 1;
      var before := ApplyAll(ms, xs[..n]);
      var i := RuleIndex(before.machines, xs[n].key);
      if i == |before.machines| then before
      else
        var st := ApplyTo(before.machines[i], xs[n]);
        MultiStep(before.machines[i := st.machine], before.out + st.out)
  }

  // ----- machines of an activation set -----

  predicate OwnsKeys(m: Machine) { forall k | k in m.states :: RuleOf(m.config, k) }

  /** One machine for each rule, on its own keys, all at the same instant. */
  ghost predicate Aligned(rules: seq<Rule>, ms: seq<Machine>, t: Time)
  {
    && |ms| == |rules|
    && forall i | 0 <= i < |ms| :: ms[i].config == ConfigOf(rules[i]) && OwnsKeys(ms[i]) && ms[i].logical == t
  }

  function Started(rules: seq<Rule>): (ms: seq<Machine>)
    ensures |ms| == |rules|
    ensures forall i | 0 <= i < |rules| :: ms[i] == Init(ConfigOf(rules[i]))
  {
    if rules == [] then [] else Started(rules[..|rules| - 1]) + [Init(ConfigOf(rules[|rules| - 1]))]
  }

  lemma AlignedApart(rules: seq<Rule>, ms: seq<Machine>, t: Time)
    requires Activated(rules) && Aligned(rules, ms, t)
    ensures Apart(ms) && forall now: Time | t <= now :: ClocksBy(ms, now)
  {
    forall i, j | 0 <= i < j < |ms|
      ensures ms[i].config.ruleID != ms[j].config.ruleID || ms[i].config.revision != ms[j].config.revision
    {
      assert LessRule(rules[i], rules[j]);
    }
  }

  // The rule a key belongs to has the index the runtime's table holds.
  lemma IndexIsRule(rules: seq<Rule>, ms: seq<Machine>, t: Time, i: nat, k: ConditionKey)
    requires Activated(rules) && Aligned(rules, ms, t) && i < |rules| && RuleOf(ConfigOf(rules[i]), k)
    ensures RuleIndex(ms, k) == i
  {
    AlignedApart(rules, ms, t);
  }

  lemma AdvanceOwn(m: Machine, now: Time)
    requires OwnsKeys(m) && now > 0 && m.logical <= now
    ensures var m' := AdvanceTo(m, now).machine; OwnsKeys(m') && m'.config == m.config && m'.logical == now
  {
    AdvanceFired(m, now);
  }

  lemma AdvanceAllAligned(rules: seq<Rule>, ms: seq<Machine>, t: Time, now: Time)
    requires Activated(rules) && Aligned(rules, ms, t) && t <= now && now > 0
    ensures Apart(ms) && ClocksBy(ms, now) && Aligned(rules, AdvanceAll(ms, now).machines, now)
  {
    hide AdvanceTo, AdvanceAll, OwnsKeys;
    AlignedApart(rules, ms, t);
    AdvanceAllMerges(ms, now);
    var ms' := AdvanceAll(ms, now).machines;
    forall i | 0 <= i < |ms| ensures ms'[i].config == ConfigOf(rules[i]) && OwnsKeys(ms'[i]) && ms'[i].logical == now {
      AdvanceOwn(ms[i], now);
    }
  }

  lemma ApplyOwn(m: Machine, o: Observation)
    requires OwnsKeys(m) && RuleOf(m.config, o.key) && o.processingAt == m.logical && m.logical > 0
    ensures var m' := ApplyTo(m, o).machine; OwnsKeys(m') && m'.config == m.config && m'.logical == m.logical
  {
    hide AdvanceTo, Absorb;
    if Accepts(m, o) {
      AdvanceOwn(Admit(m, o), o.processingAt);
      AbsorbTracker(Advanced(m, o), o);
    }
  }

  // One applied observation replaces one machine of the set.
  lemma ApplyStep(rules: seq<Rule>, ms: seq<Machine>, t: Time, i: nat, o: Observation)
    requires Activated(rules) && Aligned(rules, ms, t) && t > 0
    requires i < |rules| && RuleOf(ConfigOf(rules[i]), o.key) && o.processingAt == t
    ensures RuleIndex(ms, o.key) == i
    ensures Aligned(rules, ms[i := ApplyTo(ms[i], o).machine], t)
  {
    hide ApplyTo, OwnsKeys;
    IndexIsRule(rules, ms, t, i, o.key);
    ApplyOwn(ms[i], o);
  }

  lemma ItemOwner(rules: seq<Rule>, t: Time, x: Observation) returns (i: nat)
    requires ItemOK(rules, t, x)
    ensures i < |rules| && RuleOf(ConfigOf(rules[i]), x.key) && x.processingAt == t > 0
  {
    i :| i < |rules| && RuleOf(ConfigOf(rules[i]), x.key);
  }

  lemma {:induction false} ApplyAllAligned(rules: seq<Rule>, ms: seq<Machine>, t: Time, xs: seq<Observation>)
    requires Activated(rules) && Aligned(rules, ms, t)
    requires forall n | 0 <= n < |xs| :: ItemOK(rules, t, xs[n])
    ensures Aligned(rules, ApplyAll(ms, xs).machines, t)
  {
    hide Aligned, Activated, ApplyTo, ItemOK;
    if xs == [] {
    } else {
      var n := |xs| - 1;
      ApplyAllAligned(rules, ms, t, xs[..n]);
      var i := ItemOwner(rules, t, xs[n]);
      ApplyStep(rules, ApplyAll(ms, xs[..n]).machines, t, i, xs[n]);
    }
  }

  lemma ApplyNone(ms: seq<Machine>)
    ensures ApplyAll(ms, []) == MultiStep(ms, [])
  {
  }

  lemma ApplyPush(rules: seq<Rule>, t: Time, start: seq<Machine>, xs: seq<Observation>, n: nat,
                  ms: seq<Machine>, out: seq<Transition>, i: nat)
    requires n < |xs| && MultiStep(ms, out) == ApplyAll(start, xs[..n])
    requires Activated(rules) && Aligned(rules, ms, t) && ItemOK(rules, t, xs[n])
    requires i < |rules| && RuleOf(ConfigOf(rules[i]), xs[n].key)
    ensures i < |ms|
    ensures var st := ApplyTo(ms[i], xs[n]); var ms' := ms[i := st.machine];
      ApplyAll(start, xs[..n + 1]) == MultiStep(ms', out + st.out) && Aligned(rules, ms', t)
  {
    hide ApplyTo;
    assert xs[..n + 1][..n] == xs[..n] && xs[..n + 1][n] == xs[n];
    var j := ItemOwner(rules, t, xs[n]);
    ApplyStep(rules, ms, t, i, xs[n]);
  }
}
