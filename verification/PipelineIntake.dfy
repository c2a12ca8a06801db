/** What a replay takes in: when it succeeds, and that its fences drop nothing. */
module PipelineIntake {
  import opened Wrappers
  import opened Bytes
  import opened Conditions
  import opened ConditionHistory
  import ConditionRuns
  import Rules
  import opened Events
  import opened EvaluationMerge
  import opened Evaluation
  import opened PipelineCoupling
  import opened Pipeline

  // ----- when a replay succeeds -----

  // The event is not named like the observation of rule `r` it causes in direction `d`.
  predicate Distinguished(r: Rule, o: Occurrence, d: Direction)
  {
    Targets(r, o) ==> Target(o.event).id != "" && ObservationID(o.id, KeyFor(r, o), d) != o.sourceEventID
  }

  /** The event cannot be mistaken for one of the observations it causes. */
  predicate Unmistaken(rules: seq<Rule>, o: Occurrence)
  {
    forall i, d | 0 <= i < |rules| :: Distinguished(rules[i], o, d)
  }

  lemma {:induction false} ObserveHas(rules: seq<Rule>, o: Occurrence, t: Time, e: Option<Evidence>, i: nat,
                                      d: Direction)
    requires i < |rules| && Targets(rules[i], o)
    ensures ObservationFor(rules[i], o, t, d, e) in Observe(rules, o, t, e)
  {
    hide ObservationFor, Targets;
    var n := |rules| - 1;
    if i < n { ObserveHas(rules[..n], o, t, e, i, d); }
  }

  lemma ObserveOK(rules: seq<Rule>, o: Occurrence, t: Time, e: Option<Evidence>)
    requires Activated(rules) && RequestOK(o, t)
    ensures AllObservationsOK(rules, o, t, Observe(rules, o, t, e)) <==> Unmistaken(rules, o)
  {
    hide Observe, ObservationID, ObservationOK, FromRule, Targets, Rules.Conjunction, Distinguished;
    var xs := Observe(rules, o, t, e);
    ObserveDistinct(rules, o, t, e);
    if AllObservationsOK(rules, o, t, xs) {
      forall i, d | 0 <= i < |rules| ensures Distinguished(rules[i], o, d) {
        if Targets(rules[i], o) {
          ObserveHas(rules, o, t, e, i, d);
          var n :| 0 <= n < |xs| && xs[n] == ObservationFor(rules[i], o, t, d, e);
          FromRuleOK(rules, o, t, e, xs[n]);
        }
        DistinguishedIs(rules[i], o, d);
      }
    }
    if Unmistaken(rules, o) {
      forall n | 0 <= n < |xs| ensures ObservationOK(rules, o, t, xs[n]) {
        FromRuleNamed(rules, o, t, e, xs[n]);
        var i :| 0 <= i < |rules| && Targets(rules[i], o) && xs[n].key == KeyFor(rules[i], o);
        DistinguishedIs(rules[i], o, xs[n].direction);
        FromRuleOK(rules, o, t, e, xs[n]);
      }
    }
  }

  lemma DistinguishedIs(r: Rule, o: Occurrence, d: Direction)
    ensures Distinguished(r, o, d) <==>
      (Targets(r, o) ==> Target(o.event).id != "" && ObservationID(o.id, KeyFor(r, o), d) != o.sourceEventID)
  {
  }

  lemma FromRuleNamed(rules: seq<Rule>, o: Occurrence, t: Time, e: Option<Evidence>, x: Observation)
    requires FromRule(rules, o, t, e, x)
    ensures x.observationID == ObservationID(o.id, x.key, x.direction)
    ensures exists i :: 0 <= i < |rules| && Targets(rules[i], o) && x.key == KeyFor(rules[i], o)
  {
  }

  predicate Admissible(rules: seq<Rule>, e: Envelope)
  {
    OccurrenceOK(OccurrenceOf(e)) && Unmistaken(rules, OccurrenceOf(e))
  }

  lemma ProcessSucceeds(rules: seq<Rule>, s: Replay, e: Envelope, ps: Policies)
    requires Running(rules, s)
    ensures Process(rules, s, e, ps).Some? <==> Admissible(rules, e)
  {
    hide Advanced, Applied, Observe, ObservationOK, Unmistaken;
    var o, t := OccurrenceOf(e), ClockAt(s, e);
    if t != 0 {
      var s1 := Advanced(rules, s, t, ps);
      var ev := EvidenceFor(Absorbed(s1.sources, e.event), Target(e.event));
      if RequestOK(o, t) { ObserveOK(rules, o, t, Some(ev)); }
    }
  }

  /** A replay succeeds exactly when each of its events is admissible on its own: neither the state
      reached nor the order of events can make one fail. */
  lemma {:induction false} ReplaySucceeds(rules: seq<Rule>, es: seq<Envelope>, ps: Policies)
    requires Activated(rules)
    ensures ProcessAll(rules, es, ps).Some? <==> forall n | 0 <= n < |es| :: Admissible(rules, es[n])
  {
    hide Process, Admissible;
    if es == [] {
    } else {
      var n := |es| - 1;
      ReplaySucceeds(rules, es[..n], ps);
      var before := ProcessAll(rules, es[..n], ps);
      if before.Some? { ProcessSucceeds(rules, before.value, es[n], ps); }
      assert forall i | 0 <= i < n :: es[..n][i] == es[i];
    }
  }

  // ----- the occurrence fence -----

  /** Every identity a machine has seen names an observation of one of these occurrences. */
  ghost predicate SeenFrom(m: Machine, ids: set<Text>)
  {
    forall id | id in m.seen :: exists occ, k, d :: occ in ids && id == ObservationID(occ, k, d)
  }

  ghost predicate AllSeenFrom(ms: seq<Machine>, ids: set<Text>) { forall i | 0 <= i < |ms| :: SeenFrom(ms[i], ids) }

  /** Each observation, at its turn, is accepted by the machine of its rule. */
  ghost predicate AllTaken(ms: seq<Machine>, xs: seq<Observation>)
  {
    xs != [] ==>
      var n := |xs| - 1;
      var before := ApplyAll(ms, xs[..n]).machines;
      var i := RuleIndex(before, xs[n].key);
      AllTaken(ms, xs[..n]) && i < |before| && Accepts(before[i], xs[n])
  }

  lemma AdvanceSeen(m: Machine, now: Time)
    ensures AdvanceTo(m, now).machine.seen == m.seen
  {
    if now != 0 { ConditionRuns.AdvanceFired(m, now); }
  }

  lemma ApplySeen(m: Machine, o: Observation)
    ensures ApplyTo(m, o).machine.seen <= m.seen + {o.observationID}
  {
    hide AdvanceTo, Absorb;
    if Accepts(m, o) {
      AdvanceSeen(Admit(m, o), ProcessingTime(o));
      AbsorbSeen(AdvanceTo(Admit(m, o), ProcessingTime(o)).machine, o);
    }
  }

  lemma AbsorbSeen(m: Machine, o: Observation)
    ensures Absorb(m, o).machine.seen == m.seen
  {
  }

  // The machines before the last observation have seen only older occurrences or earlier identities.
  ghost predicate SeenBefore(m: Machine, ids: set<Text>, xs: seq<Observation>)
  {
    forall id | id in m.seen :: id in IDSet(xs) || exists occ, k, d :: occ in ids && id == ObservationID(occ, k, d)
  }

  lemma {:induction false} TakenAll(rules: seq<Rule>, ms: seq<Machine>, t: Time, xs: seq<Observation>, ids: set<Text>,
                                    o: Text)
    requires Activated(rules) && Aligned(rules, ms, t) && AllSeenFrom(ms, ids) && o !in ids
    requires forall n | 0 <= n < |xs| ::
        ItemOK(rules, t, xs[n]) && xs[n].observationID == ObservationID(o, xs[n].key, xs[n].direction)
    requires DistinctIDs(xs)
    ensures AllTaken(ms, xs)
    ensures |ApplyAll(ms, xs).machines| == |ms|
    ensures forall i | 0 <= i < |ms| :: SeenBefore(ApplyAll(ms, xs).machines[i], ids, xs)
  {
    hide Activated, ApplyTo, ItemOK, ObservationID, OwnsKeys, SeenBefore, RuleOf;
    if xs == [] {
      ApplyNone(ms);
      forall i | 0 <= i < |ms| ensures SeenBefore(ms[i], ids, xs) { SeenStart(ms[i], ids); }
    } else {
      var n, x := |xs| - 1, xs[|xs| - 1];
      TakenAll(rules, ms, t, xs[..n], ids, o);
      ApplyAllAligned(rules, ms, t, xs[..n]);
      var before := ApplyAll(ms, xs[..n]).machines;
      var i := ItemOwner(rules, t, x);
      ApplyStep(rules, before, t, i, x);
      SeenNext(xs, n);
      assert xs[..n + 1] == xs;
      TakenOne(rules, before[i], t, i, xs, ids, o);
      TakenPush(ms, xs, before, i);
      ApplySeen(before[i], x);
      forall j | 0 <= j < |ms| ensures SeenBefore(ApplyAll(ms, xs).machines[j], ids, xs) {
        SeenGrows(before[j], ApplyAll(ms, xs).machines[j], ids, xs);
      }
    }
  }

  lemma TakenPush(ms: seq<Machine>, xs: seq<Observation>, before: seq<Machine>, i: nat)
    requires xs != [] && AllTaken(ms, xs[..|xs| - 1]) && before == ApplyAll(ms, xs[..|xs| - 1]).machines
    requires i == RuleIndex(before, xs[|xs| - 1].key) < |before| && Accepts(before[i], xs[|xs| - 1])
    ensures AllTaken(ms, xs)
    ensures ApplyAll(ms, xs).machines == before[i := ApplyTo(before[i], xs[|xs| - 1]).machine]
  {
    hide ApplyTo, Accepts, RuleIndex;
  }

  lemma SeenStart(m: Machine, ids: set<Text>)
    requires SeenFrom(m, ids)
    ensures SeenBefore(m, ids, [])
  {
  }

  lemma SeenGrows(m: Machine, m': Machine, ids: set<Text>, xs: seq<Observation>)
    requires xs != [] && SeenBefore(m, ids, xs[..|xs| - 1]) && m'.seen <= m.seen + {xs[|xs| - 1].observationID}
    ensures SeenBefore(m', ids, xs)
  {
    hide ObservationID;
  }

  lemma TakenOne(rules: seq<Rule>, m: Machine, t: Time, i: nat, xs: seq<Observation>, ids: set<Text>, o: Text)
    requires i < |rules| && m.config == ConfigOf(rules[i]) && xs != [] && o !in ids && DistinctIDs(xs)
    requires SeenBefore(m, ids, xs[..|xs| - 1])
    requires var x := xs[|xs| - 1];
        RuleOf(m.config, x.key) && x.processingAt > 0 && x.observationID == ObservationID(o, x.key, x.direction)
    ensures Accepts(m, xs[|xs| - 1])
  {
    hide ObservationID;
    var n, x := |xs| - 1, xs[|xs| - 1];
    SeenNext(xs, n);
    if x.observationID in m.seen {
      var occ, k, d :| occ in ids && x.observationID == ObservationID(occ, k, d);
      ObservationIDInjective(occ, k, d, o, x.key, x.direction);
    }
  }

  // After the event, what the machines have seen names its occurrence or an older one.
  lemma SeenAfter(m: Machine, ids: set<Text>, xs: seq<Observation>, o: Text)
    requires SeenBefore(m, ids, xs)
    requires forall n | 0 <= n < |xs| :: xs[n].observationID == ObservationID(o, xs[n].key, xs[n].direction)
    ensures SeenFrom(m, ids + {o})
  {
    hide ObservationID;
    forall id | id in m.seen ensures exists occ, k, d :: occ in ids + {o} && id == ObservationID(occ, k, d) {
      if id in IDSet(xs) {
        var x :| x in xs && x.observationID == id;
        assert o in ids + {o} && id == ObservationID(o, x.key, x.direction);
      } else {
        var occ, k, d :| occ in ids && id == ObservationID(occ, k, d);
        assert occ in ids + {o};
      }
    }
  }

  lemma AdvanceAllSeen(rules: seq<Rule>, s: Replay, t: Time, ps: Policies, ids: set<Text>)
    requires Running(rules, s) && s.logical <= t && t > 0 && AllSeenFrom(s.machines, ids)
    ensures AllSeenFrom(Advanced(rules, s, t, ps).machines, ids)
  {
    hide AdvanceAll, AdvanceTo, EmitAll, Activated, Aligned, SeenFrom, FromDue, FiredInOrder;
    AdvanceAllAligned(rules, s.machines, s.logical, t);
    AdvanceAllMerges(s.machines, t);
    forall i: nat | i < |s.machines| ensures SeenFrom(Advanced(rules, s, t, ps).machines[i], ids) {
      AdvanceSeen(s.machines[i], t);
      SeenSame(s.machines[i], AdvanceTo(s.machines[i], t).machine, ids);
    }
  }

  lemma SeenSame(m: Machine, m': Machine, ids: set<Text>)
    requires SeenFrom(m, ids) && m'.seen == m.seen
    ensures SeenFrom(m', ids)
  {
  }

  /** Once time has advanced for the event, each of its observations is accepted. */
  ghost predicate Takes(rules: seq<Rule>, s: Replay, e: Envelope, ps: Policies)
    requires Running(rules, s) && Process(rules, s, e, ps).Some?
  {
    var s1 := Advanced(rules, s, ClockAt(s, e), ps);
    var sources := Absorbed(s1.sources, e.event);
    AllTaken(s1.machines, Observe(rules, OccurrenceOf(e), ClockAt(s, e), Some(EvidenceFor(sources, Target(e.event)))))
  }

  lemma ProcessTakes(rules: seq<Rule>, s: Replay, e: Envelope, ps: Policies, ids: set<Text>)
    requires Running(rules, s) && Process(rules, s, e, ps).Some?
    requires AllSeenFrom(s.machines, ids) && OccurrenceID(e) !in ids
    ensures Takes(rules, s, e, ps)
    ensures AllSeenFrom(Process(rules, s, e, ps).value.machines, ids + {OccurrenceID(e)})
  {
    hide Advanced, Activated, Aligned, AllSeenFrom, Observe, ApplyAll, AllTaken, ObservationID, ObservationOK, EmitAll;
    var t, o := ClockAt(s, e), OccurrenceOf(e);
    var s1 := Advanced(rules, s, t, ps);
    AdvanceAllSeen(rules, s, t, ps, ids);
    var ev := Some(EvidenceFor(Absorbed(s1.sources, e.event), Target(e.event)));
    var xs := Observe(rules, o, t, ev);
    ObserveItems(rules, o, t, ev);
    ObserveDistinct(rules, o, t, ev);
    forall n | 0 <= n < |xs| ensures xs[n].observationID == ObservationID(o.id, xs[n].key, xs[n].direction) {
      FromRuleNamed(rules, o, t, ev, xs[n]);
    }
    TakenAll(rules, s1.machines, t, xs, ids, o.id);
    EventSeen(s1.machines, xs, ids, o.id);
  }

  lemma EventSeen(ms: seq<Machine>, xs: seq<Observation>, ids: set<Text>, o: Text)
    requires |ApplyAll(ms, xs).machines| == |ms| && forall i | 0 <= i < |ms| ::
        SeenBefore(ApplyAll(ms, xs).machines[i], ids, xs)
    requires forall n | 0 <= n < |xs| :: xs[n].observationID == ObservationID(o, xs[n].key, xs[n].direction)
    ensures AllSeenFrom(ApplyAll(ms, xs).machines, ids + {o})
  {
    hide SeenBefore, SeenFrom, ObservationID, ApplyAll;
    forall i | 0 <= i < |ms| ensures SeenFrom(ApplyAll(ms, xs).machines[i], ids + {o}) {
      SeenAfter(ApplyAll(ms, xs).machines[i], ids, xs, o);
    }
  }

  function Occurrences(es: seq<Envelope>): set<Text> { set e | e in es :: OccurrenceID(e) }

  /** No two events of the file carry the same occurrence identity. */
  ghost predicate DistinctLines(es: seq<Envelope>)
  {
    forall i, j | 0 <= i < j < |es| :: OccurrenceID(es[i]) != OccurrenceID(es[j])
  }

  lemma {:induction false} ReplaySeen(rules: seq<Rule>, es: seq<Envelope>, ps: Policies)
    requires Activated(rules) && DistinctLines(es) && ProcessAll(rules, es, ps).Some?
    ensures AllSeenFrom(ProcessAll(rules, es, ps).value.machines, Occurrences(es))
    ensures es != [] ==>
      var before := ProcessAll(rules, es[..|es| - 1], ps); before.Some? && Takes(rules, before.value, es[|es| - 1], ps)
  {
    hide Process, OccurrenceID, Takes, Activated, Aligned;
    if es == [] {
      NothingSeen(rules);
    } else {
      var n := |es| - 1;
      ReplaySeen(rules, es[..n], ps);
      var before := ProcessAll(rules, es[..n], ps).value;
      ProcessTakes(rules, before, es[n], ps, Occurrences(es[..n]));
      assert es == es[..n] + [es[n]];
      assert Occurrences(es) == Occurrences(es[..n]) + {OccurrenceID(es[n])};
    }
  }

  lemma NothingSeen(rules: seq<Rule>)
    requires Activated(rules)
    ensures AllSeenFrom(Begin(rules).machines, {})
  {
  }

  /** In a replay of a file, every observation of every event is accepted by its reducer: the fence
      against repeated evaluations never drops one. */
  lemma FenceDropsNothing(rules: seq<Rule>, es: seq<Envelope>, ps: Policies, n: nat)
    requires Activated(rules) && DistinctLines(es) && ProcessAll(rules, es, ps).Some? && n < |es|
    ensures var before := ProcessAll(rules, es[..n], ps);
      before.Some? && Process(rules, before.value, es[n], ps).Some? && Takes(rules, before.value, es[n], ps)
  {
    hide Process, OccurrenceID, Takes, Activated, Aligned;
    ReplayPrefix(rules, es, ps, n + 1);
    assert es[..n + 1][..n] == es[..n];
    ReplaySeen(rules, es[..n + 1], ps);
  }

  lemma {:induction false} ReplayPrefix(rules: seq<Rule>, es: seq<Envelope>, ps: Policies, n: nat)
    requires Activated(rules) && ProcessAll(rules, es, ps).Some? && n <= |es|
    ensures ProcessAll(rules, es[..n], ps).Some?
    decreases |es|
  {
    hide Process;
    if n == |es| {
      assert es[..n] == es;
    } else {
      ReplayPrefix(rules, es[..|es| - 1], ps, n);
      assert es[..|es| - 1][..n] == es[..n];
    }
  }
}
