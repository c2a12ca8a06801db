/** What every replay keeps, from its first event to the end of its file. */
module PipelineRuns {
  import opened Wrappers
  import opened Bytes
  import opened Conditions
  import opened ConditionHistory
  import opened ConditionTiming
  import opened Alerts
  import Notifications
  import opened Events
  import opened EvaluationMerge
  import opened Evaluation
  import opened PipelineStream
  import opened PipelineCoupling
  import opened Pipeline

  /** Each machine's journal is its own part of the stream. */
  ghost predicate Split(ms: seq<Machine>, stream: seq<Transition>)
  {
    forall i | 0 <= i < |ms| :: ms[i].journal == OfRule(stream, ms[i].config)
  }

  ghost predicate ReplayOK(rules: seq<Rule>, s: Replay, ps: Policies)
  {
    && Running(rules, s) && AllSound(s.machines) && Split(s.machines, s.stream) && AllOwned(rules, s.stream)
    && NondecreasingAt(s.stream) && Within(s.stream, 0, s.logical)
    && s.emission == EmitAll(NO_EMISSION, s.stream, ps)
  }

  lemma BeginOK(rules: seq<Rule>, ps: Policies)
    requires Activated(rules)
    ensures ReplayOK(rules, Begin(rules), ps)
  {
    forall i | 0 <= i < |rules| ensures Sound(Started(rules)[i]) { InvInit(ConfigOf(rules[i])); }
  }

  // One step of the runtime, emitted, keeps the replay well formed.
  lemma StepOK(rules: seq<Rule>, s: Replay, st: MultiStep, t: Time, ps: Policies, s': Replay)
    requires ReplayOK(rules, s, ps) && s.logical <= t
    requires Aligned(rules, st.machines, t) && StreamStep(rules, s.machines, st, s.logical, t)
    requires s' == Replay(st.machines, EmitAll(s.emission, st.out, ps), s.sources, t, s.stream + st.out)
    ensures ReplayOK(rules, s', ps)
  {
    hide Sound, Owned, EmitAll, Activated, OfRule;
    EmitConcat(NO_EMISSION, s.stream, st.out, ps);
    OrderedAppend(s.stream, st.out, s.logical, t);
    forall i | 0 <= i < |st.machines| ensures st.machines[i].journal == OfRule(s'.stream, st.machines[i].config) {
      OfRuleConcat(s.stream, st.out, s.machines[i].config);
    }
    forall n | 0 <= n < |s'.stream| ensures Owned(rules, s'.stream[n].key) {
      if n >= |s.stream| { assert s'.stream[n] == st.out[n - |s.stream|]; }
    }
  }

  lemma AdvancedOK(rules: seq<Rule>, s: Replay, t: Time, ps: Policies)
    requires ReplayOK(rules, s, ps) && s.logical <= t && t > 0
    ensures ReplayOK(rules, Advanced(rules, s, t, ps), ps)
    ensures var s' := Advanced(rules, s, t, ps); exists out ::
      s'.stream == s.stream + out && Within(out, s.logical + 1, t) && s'.sources == s.sources
  {
    hide StreamStep, Aligned, AllSound, AdvanceAll, EmitAll;
    AdvanceStream(rules, s.machines, s.logical, t);
    var st := AdvanceAll(s.machines, t);
    StepOK(rules, s, st, t, ps, Advanced(rules, s, t, ps));
    assert Within(st.out, s.logical + 1, t) by {
      assert StreamStep(rules, s.machines, st, s.logical, t);
      StepWithin(rules, s.machines, st, s.logical, t);
    }
  }

  lemma StepWithin(rules: seq<Rule>, ms: seq<Machine>, st: MultiStep, low: Time, high: Time)
    requires StreamStep(rules, ms, st, low, high)
    ensures Within(st.out, low, high)
  {
  }

  lemma AppliedOK(rules: seq<Rule>, s: Replay, o: Occurrence, ps: Policies)
    requires ReplayOK(rules, s, ps) && RequestOK(o, s.logical)
    ensures ReplayOK(rules, Applied(rules, s, o, ps), ps)
    ensures var s' := Applied(rules, s, o, ps); exists out ::
      s'.stream == s.stream + out && Within(out, s.logical, s.logical)
  {
    hide StreamStep, Aligned, AllSound, ApplyAll, EmitAll, Observe, ItemOK;
    var e := Some(EvidenceFor(s.sources, Target(o.event)));
    var xs := Observe(rules, o, s.logical, e);
    ObserveItems(rules, o, s.logical, e);
    ApplyStream(rules, s.machines, s.logical, xs);
    var st := ApplyAll(s.machines, xs);
    StepOK(rules, s, st, s.logical, ps, Applied(rules, s, o, ps));
    StepWithin(rules, s.machines, st, s.logical, s.logical);
  }

  lemma SourcesOK(rules: seq<Rule>, s: Replay, sources: Sources, ps: Policies)
    requires ReplayOK(rules, s, ps)
    ensures ReplayOK(rules, s.(sources := sources), ps)
  {
  }

  /** One event emits first what fell due after the old clock, then what its own evidence commits,
      which is all at the new clock. So a late event commits nothing in the past. */
  ghost predicate EventEmits(s: Replay, s': Replay, fired: seq<Transition>, applied: seq<Transition>)
  {
    && s'.stream == s.stream + fired + applied
    && Within(fired, s.logical + 1, s'.logical) && Within(applied, s'.logical, s'.logical)
  }

  lemma ProcessOK(rules: seq<Rule>, s: Replay, e: Envelope, ps: Policies)
    requires ReplayOK(rules, s, ps) && Process(rules, s, e, ps).Some?
    ensures var s' := Process(rules, s, e, ps).value;
      ReplayOK(rules, s', ps) && exists fired, applied :: EventEmits(s, s', fired, applied)
  {
    hide ReplayOK, Observable, Advanced, Applied, Running, RequestOK;
    var t := ClockAt(s, e);
    RunningOK(rules, s, ps);
    AdvancedOK(rules, s, t, ps);
    var s1 := Advanced(rules, s, t, ps);
    var s2 := s1.(sources := Absorbed(s1.sources, e.event));
    SourcesOK(rules, s1, s2.sources, ps);
    RunningOK(rules, s2, ps);
    ObservableRequest(rules, OccurrenceOf(e), t, EvidenceFor(s2.sources, Target(e.event)));
    AppliedOK(rules, s2, OccurrenceOf(e), ps);
    var fired :| s1.stream == s.stream + fired && Within(fired, s.logical + 1, t);
    var s' := Applied(rules, s2, OccurrenceOf(e), ps);
    var applied :| s'.stream == s2.stream + applied && Within(applied, t, t);
    assert EventEmits(s, s', fired, applied);
  }

  lemma RunningOK(rules: seq<Rule>, s: Replay, ps: Policies)
    requires ReplayOK(rules, s, ps)
    ensures Running(rules, s)
  {
  }

  lemma ObservableRequest(rules: seq<Rule>, o: Occurrence, t: Time, ev: Evidence)
    requires Observable(rules, o, t, ev)
    ensures RequestOK(o, t)
  {
  }

  lemma {:induction false} ProcessAllOK(rules: seq<Rule>, es: seq<Envelope>, ps: Policies)
    requires Activated(rules) && ProcessAll(rules, es, ps).Some?
    ensures ReplayOK(rules, ProcessAll(rules, es, ps).value, ps)
  {
    hide ReplayOK, Process, Activated;
    if es == [] {
      BeginOK(rules, ps);
    } else {
      var n := |es| - 1;
      ProcessAllOK(rules, es[..n], ps);
      ProcessOK(rules, ProcessAll(rules, es[..n], ps).value, es[n], ps);
    }
  }

  // ----- the end of the file -----

  /** The advance at the end of the file emits nothing and changes nothing, so a caller that
      discards what it returns loses nothing. */
  lemma FinishEmitsNothing(rules: seq<Rule>, s: Replay, ps: Policies)
    requires ReplayOK(rules, s, ps)
    ensures Finish(rules, s, ps) == s
  {
    hide StreamStep, AdvanceAll, AdvanceTo, Sound, EmitAll;
    if s.logical != 0 {
      var now, ms := s.logical, s.machines;
      AdvanceStream(rules, ms, now, now);
      AdvanceAllMerges(ms, now);
      var st := AdvanceAll(ms, now);
      StepWithin(rules, ms, st, now, now);
      assert st.out == [];
      forall i: nat | i < |ms| ensures st.machines[i] == ms[i] {
        assert Sound(ms[i]);
        SoundStays(ms[i], now);
      }
      assert st.machines == ms;
      assert s.stream + [] == s.stream;
      EmitNothing(s.emission, ps);
    }
  }

  lemma SoundStays(m: Machine, now: Time)
    requires Sound(m) && m.logical == now > 0
    ensures AdvanceTo(m, now).machine == m
  {
    AdvanceNothing(m, now);
  }

  lemma EmitNothing(e: Emission, ps: Policies)
    ensures EmitAll(e, [], ps) == e
  {
  }

  // ----- from the stream to the machines -----

  lemma {:induction false} HistoryOfRule(js: seq<Transition>, c: RuleConfig, k: ConditionKey)
    requires RuleOf(c, k)
    ensures History(OfRule(js, c), k) == History(js, k)
  {
    if js == [] {
    } else {
      var n := |js| - 1;
      HistoryOfRule(js[..n], c, k);
      if RuleOf(c, js[n].key) { HistoryPush(OfRule(js[..n], c), js[n], k); }
    }
  }

  lemma {:induction false} HistoryUnowned(rules: seq<Rule>, js: seq<Transition>, k: ConditionKey)
    requires AllOwned(rules, js) && !Owned(rules, k)
    ensures History(js, k) == []
  {
    if js == [] {
    } else {
      HistoryUnowned(rules, js[..|js| - 1], k);
    }
  }

  // The machine of an owned key holds that key's part of the stream.
  lemma OwnedHistory(rules: seq<Rule>, s: Replay, ps: Policies, i: nat, k: ConditionKey)
    requires ReplayOK(rules, s, ps) && i < |rules| && RuleOf(ConfigOf(rules[i]), k)
    ensures History(s.stream, k) == History(s.machines[i].journal, k)
    ensures Chronicle(History(s.stream, k), k)
    ensures k !in s.machines[i].states ==> History(s.stream, k) == []
    ensures k in s.machines[i].states ==>
      var x := s.machines[i].states[k]; var n := |History(s.stream, k)|;
      && (IsOpen(x) <==> Odd(n)) && (Odd(n) ==> x.episodeID == EpisodeID(k, n))
  {
    hide EmitAll, History, Chronicle, EpisodeID, OfRule;
    HistoryOfRule(s.stream, s.machines[i].config, k);
    assert Sound(s.machines[i]) && KeyOK(s.machines[i], k);
  }

  lemma ReplayChronicles(rules: seq<Rule>, s: Replay, ps: Policies)
    requires ReplayOK(rules, s, ps)
    ensures Chronicles(s.stream)
  {
    hide ReplayOK, Chronicle;
    forall k ensures Chronicle(History(s.stream, k), k) {
      if Owned(rules, k) {
        var i :| 0 <= i < |rules| && RuleOf(ConfigOf(rules[i]), k);
        OwnedHistory(rules, s, ps, i, k);
      } else {
        StreamOwned(rules, s, ps);
        HistoryUnowned(rules, s.stream, k);
        EmptyChronicle(k);
      }
    }
  }

  lemma StreamOwned(rules: seq<Rule>, s: Replay, ps: Policies)
    requires ReplayOK(rules, s, ps)
    ensures AllOwned(rules, s.stream)
  {
  }

  lemma EmptyChronicle(k: ConditionKey)
    ensures Chronicle([], k)
  {
  }

  // ----- the end-to-end theorems -----

  /** Key `k` of rule `i` is active or clearing, in the episode `id`. */
  predicate OpenKey(ms: seq<Machine>, i: nat, k: ConditionKey, id: Text)
  {
    i < |ms| && k in ms[i].states && IsOpen(ms[i].states[k]) && ms[i].states[k].episodeID == id
  }

  /** Coupling: the contributors of an alert series are exactly the open episodes of the condition
      keys, of any revision, with its rule and subject, and the series is open exactly when some
      such key is active or clearing. */
  lemma CoupledAlways(rules: seq<Rule>, s: Replay, ps: Policies, k: SeriesKey)
    requires ReplayOK(rules, s, ps)
    ensures var series := SeriesAt(s.emission.alerts, k);
      && (forall id :: id in series.contributors <==>
          exists i: nat, c :: OpenKey(s.machines, i, c, id) && SeriesOf(c) == k)
      && (series.open <==> exists i: nat, c, id :: OpenKey(s.machines, i, c, id) && SeriesOf(c) == k)
  {
    hide ReplayOK, Coupled, SeriesOK, OpenKey, OpenIn;
    ReplayChronicles(rules, s, ps);
    StreamCoupled(s.stream);
    ReplayAlerts(rules, s, ps);
    var a := s.emission.alerts;
    forall id
      ensures id in SeriesAt(a, k).contributors <==>
          exists i: nat, c :: OpenKey(s.machines, i, c, id) && SeriesOf(c) == k
    {
      CoupledAt(s.stream, a, k, id);
      OpenInMachines(rules, s, ps, k, id);
    }
    OpenHasContributor(a, k);
    if id :| id in SeriesAt(a, k).contributors {
      var i: nat, c :| OpenKey(s.machines, i, c, id) && SeriesOf(c) == k;
    }
    if i: nat, c, id :| OpenKey(s.machines, i, c, id) && SeriesOf(c) == k {
      assert id in SeriesAt(a, k).contributors;
    }
  }

  /** And so after every event of every replay. */
  lemma ReplayCoupled(rules: seq<Rule>, es: seq<Envelope>, ps: Policies, k: SeriesKey)
    requires Activated(rules) && ProcessAll(rules, es, ps).Some?
    ensures var s := ProcessAll(rules, es, ps).value; var series := SeriesAt(s.emission.alerts, k);
      && (forall id :: id in series.contributors <==>
          exists i: nat, c :: OpenKey(s.machines, i, c, id) && SeriesOf(c) == k)
      && (series.open <==> exists i: nat, c, id :: OpenKey(s.machines, i, c, id) && SeriesOf(c) == k)
  {
    hide *;
    ProcessAllOK(rules, es, ps);
    CoupledAlways(rules, ProcessAll(rules, es, ps).value, ps, k);
  }

  lemma ReplayAlerts(rules: seq<Rule>, s: Replay, ps: Policies)
    requires ReplayOK(rules, s, ps)
    ensures s.emission == EmitAll(NO_EMISSION, s.stream, ps) && s.emission.alerts == AlertsOf(s.stream)
  {
    EmissionAlerts(s.stream, ps);
  }

  lemma CoupledAt(js: seq<Transition>, a: AlertState, k: SeriesKey, id: Text)
    requires Coupled(js, a)
    ensures id in SeriesAt(a, k).contributors <==> OpenIn(js, k, id)
  {
  }

  lemma OpenHasContributor(a: AlertState, k: SeriesKey)
    requires SeriesOK(a, k)
    ensures SeriesAt(a, k).open <==> exists id :: id in SeriesAt(a, k).contributors
  {
  }

  lemma OpenInMachines(rules: seq<Rule>, s: Replay, ps: Policies, k: SeriesKey, id: Text)
    requires ReplayOK(rules, s, ps)
    ensures OpenIn(s.stream, k, id) <==> exists i: nat, c :: OpenKey(s.machines, i, c, id) && SeriesOf(c) == k
  {
    hide ReplayOK, History, EpisodeID;
    RunningOK(rules, s, ps);
    if OpenIn(s.stream, k, id) {
      var c :| SeriesOf(c) == k && OpenEpisode(s.stream, c, id);
      StreamOwned(rules, s, ps);
      if !Owned(rules, c) { HistoryUnowned(rules, s.stream, c); }
      var i :| 0 <= i < |rules| && RuleOf(ConfigOf(rules[i]), c);
      OwnedHistory(rules, s, ps, i, c);
      assert OpenKey(s.machines, i, c, id);
    }
    if i: nat, c :| OpenKey(s.machines, i, c, id) && SeriesOf(c) == k {
      assert RuleOf(ConfigOf(rules[i]), c);
      OwnedHistory(rules, s, ps, i, c);
      assert OpenEpisode(s.stream, c, id);
    }
  }

  /** Time order, late events included: transitions, alert transitions and notifications come in
      nondecreasing time and never pass the clock. */
  lemma InTimeAlways(rules: seq<Rule>, s: Replay, ps: Policies)
    requires ReplayOK(rules, s, ps)
    ensures NondecreasingAt(s.stream) && Within(s.stream, 0, s.logical)
    ensures AlertsInTime(s.emission.alerts.journal, s.logical) && NotifiedInTime(s.emission.output, s.logical)
  {
    hide Running, AllSound, Split, AllOwned, EmitAll, AlertsInTime, NotifiedInTime;
    ReplayChronicles(rules, s, ps);
    ReplayAlerts(rules, s, ps);
    StreamAlertsInTime(s.stream, s.logical);
    StreamPlanned(s.stream, ps);
    WantingInTime(s.emission.alerts.journal, ps, s.logical);
  }

  /** One notification for each alert transition its rule's policy wants, in order; and no two
      transitions share an identity. */
  lemma OutputAlways(rules: seq<Rule>, s: Replay, ps: Policies)
    requires ReplayOK(rules, s, ps)
    ensures s.emission.output == Wanting(s.emission.alerts.journal, ps)
    ensures forall i, j | 0 <= i < j < |s.stream| :: s.stream[i].id != s.stream[j].id
    ensures forall i, j | 0 <= i < j < |s.stream| && s.stream[i].direction == s.stream[j].direction ::
      s.stream[i].episodeID != s.stream[j].episodeID
    ensures var us := s.emission.alerts.journal; forall i, j | 0 <= i < j < |us| :: us[i].id != us[j].id
    ensures IntentsDistinct(s.emission.output)
  {
    hide ReplayOK, EmitAll, SeriesOK, Coupled, Chronicles, Wanting, AlertsOf;
    ReplayChronicles(rules, s, ps);
    ReplayAlerts(rules, s, ps);
    StreamPlanned(s.stream, ps);
    StreamCoupled(s.stream);
    forall i, j | 0 <= i < j < |s.stream|
      ensures s.stream[i].id != s.stream[j].id
      ensures s.stream[i].direction == s.stream[j].direction ==> s.stream[i].episodeID != s.stream[j].episodeID
    {
      TransitionIDsDistinct(s.stream, i, j);
    }
    var us := s.emission.alerts.journal;
    forall i, j | 0 <= i < j < |us| ensures us[i].id != us[j].id { AlertIDsDistinct(s.emission.alerts, i, j); }
    WantingDistinct(us, ps);
  }

  /** The seven kinds of identifier in the order of their prefixes. */
  function Kinds(k: ConditionKey, d: Direction, n: nat, s: SeriesKey, g: nat, kind: Kind, u: AlertTransition,
                 intent: Text, attempt: nat, occurrence: Text): seq<Text>
  {
    [TransitionID(k, d, n), EpisodeID(k, n), SeriesID(s), AlertTransitionID(s, g, kind), Notifications.IntentID(u),
     Notifications.ClaimToken(intent, attempt), ObservationID(occurrence, k, d)]
  }

  const PREFIXES: seq<Text> :=
    ["condition-transition", "condition-episode", "alert-series", "alert-transition", "notification-intent",
     "delivery-claim", "evaluation"]

  /** The identifiers, spelled out: a prefix and the hexadecimal digits of the length-prefixed parts. */
  lemma ConditionIDsSpell(k: ConditionKey, n: nat, revision: Text)
    requires revision == DecimalInt(k.revision)
    ensures TransitionID(k, Trigger, n) == "condition-transition_"
        + Hex(CanonicalParts([k.ruleID, revision, k.subject.kind, k.subject.id, "trigger", Decimal(n)]))
    ensures TransitionID(k, Clear, n) == "condition-transition_"
        + Hex(CanonicalParts([k.ruleID, revision, k.subject.kind, k.subject.id, "clear", Decimal(n)]))
    ensures EpisodeID(k, n) == "condition-episode_"
        + Hex(CanonicalParts([k.ruleID, revision, k.subject.kind, k.subject.id, Decimal(n)]))
  {
    hide CanonicalParts, Hex, Decimal, DecimalInt;
  }

  lemma ObservationIDsSpell(k: ConditionKey, occurrence: Text, revision: Text)
    requires revision == DecimalInt(k.revision)
    ensures ObservationID(occurrence, k, Trigger) == "evaluation_"
        + Hex(CanonicalParts([occurrence, k.ruleID, revision, k.subject.kind, k.subject.id, "trigger"]))
    ensures ObservationID(occurrence, k, Clear) == "evaluation_"
        + Hex(CanonicalParts([occurrence, k.ruleID, revision, k.subject.kind, k.subject.id, "clear"]))
  {
    hide CanonicalParts, Hex, Decimal, DecimalInt;
  }

  // An alert transition joins its three parts with bars.
  lemma AlertIDsSpell(s: SeriesKey, g: nat, u: AlertTransition, intent: Text)
    ensures SeriesID(s) == "alert-series_" + Hex(CanonicalParts([s.ruleID, s.subjectKind, s.subjectID]))
    ensures AlertTransitionID(s, g, Open) == "alert-transition_" + Hex(SeriesID(s) + "|" + Decimal(g) + "|0")
    ensures AlertTransitionID(s, g, Recovery) == "alert-transition_" + Hex(SeriesID(s) + "|" + Decimal(g) + "|1")
    ensures Notifications.IntentID(u) == "notification-intent_"
        + Hex(CanonicalParts([u.id, Decimal(u.generation), if u.kind == Recovery then "1" else "0"]))
    ensures Notifications.ClaimToken(intent, g) == "delivery-claim_" + Hex(CanonicalParts([intent, Decimal(g)]))
  {
    hide CanonicalParts, Hex;
    assert Decimal(0) == "0" && Decimal(1) == "1";
    assert SeriesID(s) + "|" + Decimal(g) + "|" + Decimal(0) == SeriesID(s) + "|" + Decimal(g) + "|0";
    assert SeriesID(s) + "|" + Decimal(g) + "|" + Decimal(1) == SeriesID(s) + "|" + Decimal(g) + "|1";
  }

  /** Identifiers of different kinds never collide, whatever they name. */
  lemma KindsApart(k: ConditionKey, d: Direction, n: nat, s: SeriesKey, g: nat, kind: Kind, u: AlertTransition,
                   intent: Text, attempt: nat, occurrence: Text, i: nat, j: nat)
    requires i < j < 7
    ensures var ids := Kinds(k, d, n, s, g, kind, u, intent, attempt, occurrence); ids[i] != ids[j]
  {
    hide StableID, CanonicalParts;
    var ids := Kinds(k, d, n, s, g, kind, u, intent, attempt, occurrence);
    var v := KindIs(k, d, n, s, g, kind, u, intent, attempt, occurrence, i);
    var w := KindIs(k, d, n, s, g, kind, u, intent, attempt, occurrence, j);
    PrefixesDistinct(i, j);
    PrefixesApart(PREFIXES[i], v, PREFIXES[j], w);
  }

  lemma KindIs(k: ConditionKey, d: Direction, n: nat, s: SeriesKey, g: nat, kind: Kind, u: AlertTransition,
               intent: Text, attempt: nat, occurrence: Text, i: nat) returns (value: Text)
    requires i < 7
    ensures Kinds(k, d, n, s, g, kind, u, intent, attempt, occurrence)[i] == StableID(PREFIXES[i], value)
  {
    hide StableID, CanonicalParts;
    if i == 0 { value := CanonicalParts(TransitionParts(k, d, n)); }
    else if i == 1 { value := CanonicalParts(EpisodeParts(k, n)); }
    else if i == 2 { value := CanonicalParts([s.ruleID, s.subjectKind, s.subjectID]); }
    else if i == 3 { value := SeriesID(s) + "|" + Decimal(g) + "|" + Decimal(KindCode(kind)); }
    else if i == 4 { value := CanonicalParts([u.id, Decimal(u.generation), Decimal(KindCode(u.kind))]); }
    else if i == 5 { value := CanonicalParts([intent, Decimal(attempt)]); }
    else { value := CanonicalParts(ObservationParts(occurrence, k, d)); }
  }

  lemma PrefixesDistinct(i: nat, j: nat)
    requires i < j < 7
    ensures PREFIXES[i] != PREFIXES[j] && '_' !in PREFIXES[i] && '_' !in PREFIXES[j]
  {
    assert PREFIXES[0][10] == 't' && PREFIXES[1][10] == 'e';
    assert PREFIXES[2][6] == 's' && PREFIXES[3][6] == 't';
    assert PREFIXES[0][0] == 'c' && PREFIXES[1][0] == 'c' && PREFIXES[2][0] == 'a' && PREFIXES[3][0] == 'a'
        && PREFIXES[4][0] == 'n' && PREFIXES[5][0] == 'd' && PREFIXES[6][0] == 'e';
  }

  /** What a whole replay returns, its final advance included: exactly the wanted notifications,
      in time order. */
  lemma ReplayOutput(rules: seq<Rule>, es: seq<Envelope>, ps: Policies)
    requires Activated(rules) && ProcessAll(rules, es, ps).Some?
    ensures var s := ProcessAll(rules, es, ps).value;
      && Finish(rules, s, ps) == s
      && s.emission.output == Wanting(s.emission.alerts.journal, ps)
      && NotifiedInTime(s.emission.output, s.logical)
  {
    hide *;
    ProcessAllOK(rules, es, ps);
    var s := ProcessAll(rules, es, ps).value;
    FinishEmitsNothing(rules, s, ps);
    OutputAlways(rules, s, ps);
    InTimeAlways(rules, s, ps);
  }
}
