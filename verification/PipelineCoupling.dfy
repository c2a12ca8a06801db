/** From condition transitions to alerts to notifications, along one stream. */
module PipelineCoupling {
  import opened Bytes
  import opened Conditions
  import opened ConditionHistory
  import opened ConditionTiming
  import opened Alerts
  import opened Notifications

  datatype Notification = Notification(
    intent: Intent, alert: AlertTransition, ruleID: Text, subjectKind: Text, subjectID: Text)

  type Policies = map<Text, Policy>

  // A rule without a policy gets the zero one, which wants nothing.
  function PolicyAt(ps: Policies, ruleID: Text): Policy
  {
    if ruleID in ps then ps[ruleID] else Policy(false, false, "")
  }

  /** What the emit closure of a replay writes. */
  datatype Emission = Emission(alerts: AlertState, intents: map<Text, Intent>, output: seq<Notification>)

  const NO_EMISSION := Emission(NO_ALERTS, map[], [])

  /** A trigger starts its episode in the series of its rule and subject; a clear stops it. */
  function Feed(a: AlertState, t: Transition): AlertStep
  {
    if t.direction == Trigger then ApplyStartTo(a, StartOf(t)) else ApplyClearTo(a, StopOf(t))
  }

  function NotificationFor(u: AlertTransition, p: Policy): Notification
  {
    Notification(IntentFor(u, p), u, u.series.ruleID, u.series.subjectKind, u.series.subjectID)
  }

  function EmitAlert(e: Emission, u: AlertTransition, ps: Policies): Emission
  {
    var p := PolicyAt(ps, u.series.ruleID);
    var (intents, created) := PlanIn(e.intents, u, p);
    e.(intents := intents, output := if created.Some? then e.output + [NotificationFor(u, p)] else e.output)
  }

  function EmitAlerts(e: Emission, us: seq<AlertTransition>, ps: Policies): Emission
  {
    if us == [] then e else EmitAlert(EmitAlerts(e, us[..|us| - 1], ps), us[|us| - 1], ps)
  }

  function EmitOne(e: Emission, t: Transition, ps: Policies): Emission
  {
    var fed := Feed(e.alerts, t);
    EmitAlerts(e.(alerts := fed.state), fed.out, ps)
  }

  function EmitAll(e: Emission, js: seq<Transition>, ps: Policies): Emission
  {
    if js == [] then e else EmitOne(EmitAll(e, js[..|js| - 1], ps), js[|js| - 1], ps)
  }

  lemma {:induction false} EmitConcat(e: Emission, a: seq<Transition>, b: seq<Transition>, ps: Policies)
    ensures EmitAll(EmitAll(e, a, ps), b, ps) == EmitAll(e, a + b, ps)
  {
    hide EmitOne;
    if b == [] {
      assert a + b == a;
    } else {
      var n := |b| - 1;
      EmitConcat(e, a, b[..n], ps);
      assert (a + b)[..|a + b| - 1] == a + b[..n];
    }
  }

  // ----- the alerts behind a stream -----

  function AlertsOf(js: seq<Transition>): AlertState
  {
    if js == [] then NO_ALERTS else Feed(AlertsOf(js[..|js| - 1]), js[|js| - 1]).state
  }

  lemma {:induction false} EmitAlertsKeep(e: Emission, us: seq<AlertTransition>, ps: Policies)
    ensures EmitAlerts(e, us, ps).alerts == e.alerts
  {
    if us == [] {
    } else {
      EmitAlertsKeep(e, us[..|us| - 1], ps);
    }
  }

  lemma {:induction false} EmissionAlerts(js: seq<Transition>, ps: Policies)
    ensures EmitAll(NO_EMISSION, js, ps).alerts == AlertsOf(js)
  {
    hide Feed, EmitAlerts;
    if js == [] {
    } else {
      var n := |js| - 1;
      EmissionAlerts(js[..n], ps);
      var e := EmitAll(NO_EMISSION, js[..n], ps);
      var fed := Feed(e.alerts, js[n]);
      EmitAlertsKeep(e.(alerts := fed.state), fed.out, ps);
    }
  }

  // ----- the coupling invariant -----

  /** Every key's part of the stream is a chronicle of its own. */
  ghost predicate Chronicles(js: seq<Transition>) { forall k :: Chronicle(History(js, k), k) }

  // The episode that the history of `k` has opened and not yet closed.
  predicate OpenEpisode(js: seq<Transition>, k: ConditionKey, id: Text)
  {
    Odd(|History(js, k)|) && id == EpisodeID(k, |History(js, k)|)
  }

  ghost predicate ClosedEpisode(js: seq<Transition>, k: ConditionKey, id: Text)
  {
    exists i: nat :: Odd(i) && i < |History(js, k)| && id == EpisodeID(k, i)
  }

  ghost predicate OpenIn(js: seq<Transition>, s: SeriesKey, id: Text)
  {
    exists k :: SeriesOf(k) == s && OpenEpisode(js, k, id)
  }

  /** The contributors of a series are exactly the open episodes of every key, of any revision,
      with that rule and subject; the closed episodes are exactly the cleared ones. */
  ghost predicate Coupled(js: seq<Transition>, a: AlertState)
  {
    && (forall s, id :: id in SeriesAt(a, s).contributors <==> OpenIn(js, s, id))
    && (forall id :: id in a.closed <==> exists k :: ClosedEpisode(js, k, id))
  }

  lemma StartEffect(a: AlertState, e: Start)
    requires e.id != "" && e.id !in a.closed && e.id !in SeriesAt(a, e.series).contributors
    ensures var a' := ApplyStartTo(a, e).state;
      && a'.closed == a.closed
      && forall s, id :: id in SeriesAt(a', s).contributors <==>
          id in SeriesAt(a, s).contributors || (s == e.series && id == e.id)
  {
    hide SeriesID, AlertTransitionID;
  }

  lemma StopEffect(a: AlertState, c: Stop)
    requires c.id != "" && c.id !in a.closed && c.id in SeriesAt(a, c.series).contributors
    ensures var a' := ApplyClearTo(a, c).state;
      && a'.closed == a.closed + {c.id}
      && forall s, id :: id in SeriesAt(a', s).contributors <==>
          id in SeriesAt(a, s).contributors && !(s == c.series && id == c.id)
  {
    hide SeriesID, AlertTransitionID;
  }

  // Appending an entry of `t.key` moves only that key's episodes.
  lemma EpisodesAfter(js: seq<Transition>, t: Transition, k: ConditionKey, id: Text)
    requires EntryOK(t, t.key, |History(js, t.key)|)
    ensures k != t.key ==> (OpenEpisode(js + [t], k, id) <==> OpenEpisode(js, k, id))
    ensures k != t.key ==> (ClosedEpisode(js + [t], k, id) <==> ClosedEpisode(js, k, id))
    ensures k == t.key && t.direction == Trigger ==>
      && (OpenEpisode(js + [t], k, id) <==> id == t.episodeID) && !OpenEpisode(js, k, id)
      && (ClosedEpisode(js + [t], k, id) <==> ClosedEpisode(js, k, id))
    ensures k == t.key && t.direction == Clear ==>
      && (OpenEpisode(js, k, id) <==> id == t.episodeID) && !OpenEpisode(js + [t], k, id)
      && (ClosedEpisode(js + [t], k, id) <==> ClosedEpisode(js, k, id) || id == t.episodeID)
  {
    hide EpisodeID, TransitionID, History;
    HistoryPush(js, t, k);
    var n := |History(js, k)|;
    if k == t.key && t.direction == Clear && id == t.episodeID { assert Odd(n) && n < |History(js + [t], k)|; }
  }

  // The episode of an entry is new when it triggers, and open and never cleared when it clears.
  lemma EpisodeStatus(js: seq<Transition>, t: Transition, k: ConditionKey)
    requires EntryOK(t, t.key, |History(js, t.key)|)
    ensures !ClosedEpisode(js, k, t.episodeID)
    ensures OpenEpisode(js, k, t.episodeID) <==> k == t.key && t.direction == Clear
  {
    hide EpisodeID, History;
    var n := OpenerOf(|History(js, t.key)|);
    if i: nat :| Odd(i) && i < |History(js, k)| && t.episodeID == EpisodeID(k, i) {
      EpisodeIDInjective(k, i, t.key, n);
    }
    if OpenEpisode(js, k, t.episodeID) { EpisodeIDInjective(k, |History(js, k)|, t.key, n); }
  }

  lemma CoupledFeed(js: seq<Transition>, a: AlertState, t: Transition)
    requires Coupled(js, a) && EntryOK(t, t.key, |History(js, t.key)|) && t.episodeID != ""
    ensures Coupled(js + [t], Feed(a, t).state)
  {
    hide OpenEpisode, ClosedEpisode, ApplyStartTo, ApplyClearTo, History, EntryOK;
    forall k ensures !ClosedEpisode(js, k, t.episodeID)
                  && (OpenEpisode(js, k, t.episodeID) <==> k == t.key && t.direction == Clear) {
      EpisodeStatus(js, t, k);
    }
    assert t.episodeID !in a.closed;
    var s0, a', js' := SeriesOf(t.key), Feed(a, t).state, js + [t];
    assert t.episodeID in SeriesAt(a, s0).contributors <==> OpenIn(js, s0, t.episodeID);
    if t.direction == Trigger { StartEffect(a, StartOf(t)); } else { StopEffect(a, StopOf(t)); }
    forall s, id ensures id in SeriesAt(a', s).contributors <==> OpenIn(js', s, id) { OpenAfter(js, t, s, id); }
    forall id ensures id in a'.closed <==> exists k :: ClosedEpisode(js', k, id) { ClosedAfter(js, t, id); }
  }

  lemma OpenAfter(js: seq<Transition>, t: Transition, s: SeriesKey, id: Text)
    requires EntryOK(t, t.key, |History(js, t.key)|)
    ensures t.direction == Trigger ==>
        (OpenIn(js + [t], s, id) <==> OpenIn(js, s, id) || (s == SeriesOf(t.key) && id == t.episodeID))
    ensures t.direction == Clear ==>
        (OpenIn(js + [t], s, id) <==> OpenIn(js, s, id) && !(s == SeriesOf(t.key) && id == t.episodeID))
  {
    hide OpenEpisode, ClosedEpisode, History, EntryOK;
    if OpenIn(js + [t], s, id) {
      var k :| SeriesOf(k) == s && OpenEpisode(js + [t], k, id);
      EpisodesAfter(js, t, k, id);
      EpisodeStatus(js, t, k);
    }
    if OpenIn(js, s, id) {
      var k :| SeriesOf(k) == s && OpenEpisode(js, k, id);
      EpisodesAfter(js, t, k, id);
    }
    EpisodesAfter(js, t, t.key, id);
  }

  lemma ClosedAfter(js: seq<Transition>, t: Transition, id: Text)
    requires EntryOK(t, t.key, |History(js, t.key)|)
    ensures (exists k :: ClosedEpisode(js + [t], k, id)) <==>
        (exists k :: ClosedEpisode(js, k, id)) || (t.direction == Clear && id == t.episodeID)
  {
    hide OpenEpisode, ClosedEpisode, History, EntryOK;
    if k :| ClosedEpisode(js + [t], k, id) { EpisodesAfter(js, t, k, id); }
    if k :| ClosedEpisode(js, k, id) { EpisodesAfter(js, t, k, id); }
    EpisodesAfter(js, t, t.key, id);
  }

  /** Coupling, along any stream whose keys each keep a chronicle. */
  lemma {:induction false} StreamCoupled(js: seq<Transition>)
    requires Chronicles(js)
    ensures Coupled(js, AlertsOf(js))
    ensures forall s :: SeriesOK(AlertsOf(js), s)
  {
    hide Coupled, Feed, SeriesOK, EntryOK, Chronicle;
    if js == [] {
      NothingCoupled();
    } else {
      var front, t := js[..|js| - 1], js[|js| - 1];
      assert js == front + [t];
      forall k ensures Chronicle(History(front, k), k) { ChroniclePop(front, t, k); }
      ChroniclePop(front, t, t.key);
      StreamCoupled(front);
      NamedEpisode(t, |History(front, t.key)|);
      CoupledFeed(front, AlertsOf(front), t);
      forall s ensures SeriesOK(AlertsOf(js), s) { FeedKeepsSeries(AlertsOf(front), t, s); }
    }
  }

  lemma NothingCoupled()
    ensures Coupled([], NO_ALERTS) && forall s :: SeriesOK(NO_ALERTS, s)
  {
  }

  lemma NamedEpisode(t: Transition, n: nat)
    requires EntryOK(t, t.key, n)
    ensures t.episodeID != ""
  {
  }

  lemma FeedKeepsSeries(a: AlertState, t: Transition, s: SeriesKey)
    requires SeriesOK(a, s) && SeriesOK(a, SeriesOf(t.key))
    ensures SeriesOK(Feed(a, t).state, s)
  {
    hide SeriesOK, ApplyStartTo, ApplyClearTo;
    if t.direction == Trigger { StartKeepsSeries(a, StartOf(t), s); } else { StopKeepsSeries(a, StopOf(t), s); }
  }

  // ----- what is planned -----

  /** One notification for each alert transition its rule's policy wants, in order. */
  function Wanting(us: seq<AlertTransition>, ps: Policies): seq<Notification>
  {
    if us == [] then []
    else
      var u, front := us[|us| - 1], Wanting(us[..|us| - 1], ps);
      var p := PolicyAt(ps, u.series.ruleID);
      if Wanted(u, p) then front + [NotificationFor(u, p)] else front
  }

  ghost predicate PlanOK(e: Emission, ps: Policies)
  {
    && e.output == Wanting(e.alerts.journal, ps)
    && forall id | id in e.intents :: exists i :: 0 <= i < |e.alerts.journal| && id == IntentID(e.alerts.journal[i])
  }

  lemma FeedJournal(a: AlertState, t: Transition)
    ensures var st := Feed(a, t);
      && st.state.journal == a.journal + st.out && |st.out| <= 1
      && forall i | 0 <= i < |st.out| :: st.out[i].at == t.at
  {
    hide SeriesID, AlertTransitionID;
  }

  lemma PlansNew(e: Emission, a: AlertState, u: AlertTransition, ps: Policies)
    requires PlanOK(e, ps) && a.journal == e.alerts.journal + [u] && forall s :: SeriesOK(a, s)
    ensures PlanOK(EmitAlert(e.(alerts := a), u, ps), ps)
  {
    hide IntentID, SeriesOK, Wanted;
    var n := |e.alerts.journal|;
    assert a.journal[..n] == e.alerts.journal && a.journal[n] == u;
    if IntentID(u) in e.intents {
      var i :| 0 <= i < n && IntentID(u) == IntentID(e.alerts.journal[i]);
      AlertIDsDistinct(a, i, n);
      IntentIDInjective(e.alerts.journal[i], u);
    }
    var e' := EmitAlert(e.(alerts := a), u, ps);
    forall id | id in e'.intents ensures exists i :: 0 <= i < |a.journal| && id == IntentID(a.journal[i]) {
      if id in e.intents {
        var i :| 0 <= i < n && id == IntentID(e.alerts.journal[i]);
        assert a.journal[i] == e.alerts.journal[i];
      } else {
        assert id == IntentID(a.journal[n]);
      }
    }
  }

  lemma EmitAlertsOne(e: Emission, u: AlertTransition, ps: Policies)
    ensures EmitAlerts(e, [u], ps) == EmitAlert(e, u, ps)
  {
    hide EmitAlert;
    assert [u][..0] == [];
  }

  lemma EmitOnePlans(e: Emission, t: Transition, ps: Policies)
    requires PlanOK(e, ps) && forall s :: SeriesOK(Feed(e.alerts, t).state, s)
    ensures PlanOK(EmitOne(e, t, ps), ps)
  {
    hide Feed, EmitAlert, SeriesOK, PlanIn;
    FeedJournal(e.alerts, t);
    var fed := Feed(e.alerts, t);
    if fed.out == [] {
      assert fed.state.journal == e.alerts.journal;
    } else {
      assert fed.out == [fed.out[0]];
      EmitAlertsOne(e.(alerts := fed.state), fed.out[0], ps);
      PlansNew(e, fed.state, fed.out[0], ps);
    }
  }

  /** The planner never collapses two alert transitions: a replay outputs one notification for each
      alert transition its policy wants, in order, and no other. */
  lemma {:induction false} StreamPlanned(js: seq<Transition>, ps: Policies)
    requires Chronicles(js)
    ensures EmitAll(NO_EMISSION, js, ps).output == Wanting(AlertsOf(js).journal, ps)
    ensures PlanOK(EmitAll(NO_EMISSION, js, ps), ps)
  {
    hide Feed, EmitOne, SeriesOK, PlanOK, Chronicle;
    EmissionAlerts(js, ps);
    if js == [] {
      NothingPlanned(ps);
    } else {
      var front, t := js[..|js| - 1], js[|js| - 1];
      assert js == front + [t];
      forall k ensures Chronicle(History(front, k), k) { ChroniclePop(front, t, k); }
      StreamPlanned(front, ps);
      EmissionAlerts(front, ps);
      StreamCoupled(js);
      EmitOnePlans(EmitAll(NO_EMISSION, front, ps), t, ps);
    }
    PlanOutput(EmitAll(NO_EMISSION, js, ps), ps);
  }

  lemma NothingPlanned(ps: Policies)
    ensures PlanOK(NO_EMISSION, ps)
  {
  }

  lemma PlanOutput(e: Emission, ps: Policies)
    requires PlanOK(e, ps)
    ensures e.output == Wanting(e.alerts.journal, ps)
  {
  }

  // ----- what an alert transition says, in the fields of the condition transitions behind it -----

  /** Transition `t` triggered the episode that contributor `c` stands for. */
  predicate Contributes(t: Transition, c: Contributor)
  {
    t.direction == Trigger && c == Contributor(t.episodeID, t.key.revision, t.at, t.times.evidenceAt)
  }

  /** Alert `u` is about the rule and the subject of `t`, in the episode of `t`, at the time of `t`. */
  predicate SameAlert(u: AlertTransition, t: Transition)
  {
    && u.series == SeriesKey(t.key.ruleID, t.key.subject.kind, t.key.subject.id)
    && u.episodeID == t.episodeID && u.at == t.at
    && (t.times.effectiveAt != 0 ==> u.effectiveAt == t.times.effectiveAt)
  }

  /** An opening reports the trigger that opened it. */
  predicate Opens(u: AlertTransition, t: Transition)
  {
    && u.kind == Open && t.direction == Trigger && SameAlert(u, t)
    && u.revision == t.key.revision && u.evidenceAt == t.times.evidenceAt
  }

  /** A recovery reports the clear, with the revision, and if need be the evidence, of the trigger of
      the same episode. */
  predicate Recovers(u: AlertTransition, t: Transition, trigger: Transition)
  {
    && u.kind == Recovery && t.direction == Clear && SameAlert(u, t)
    && trigger.direction == Trigger && trigger.episodeID == t.episodeID && u.revision == trigger.key.revision
    && u.evidenceAt == if t.times.evidenceAt != 0 then t.times.evidenceAt else trigger.times.evidenceAt
  }

  ghost predicate Explained(u: AlertTransition, js: seq<Transition>)
  {
    || (exists t :: t in js && Opens(u, t))
    || (exists t, trigger :: t in js && trigger in js && Recovers(u, t, trigger))
  }

  ghost predicate FromTriggers(a: AlertState, js: seq<Transition>)
  {
    forall s, id | s in a.series && id in a.series[s].contributors ::
      a.series[s].contributors[id].episodeID == id
      && exists t :: t in js && Contributes(t, a.series[s].contributors[id])
  }

  lemma FeedExplained(js: seq<Transition>, a: AlertState, t: Transition)
    requires FromTriggers(a, js)
    ensures FromTriggers(Feed(a, t).state, js + [t])
    ensures forall i | 0 <= i < |Feed(a, t).out| :: Explained(Feed(a, t).out[i], js + [t])
  {
    hide SeriesID, AlertTransitionID;
    var js' := js + [t];
    assert t in js' && forall x | x in js :: x in js';
    var s := SeriesAt(a, SeriesOf(t.key));
    if t.direction == Trigger {
      assert Contributes(t, Contributor(t.episodeID, t.key.revision, t.at, t.times.evidenceAt));
    } else if t.episodeID in s.contributors {
      var x :| x in js && Contributes(x, s.contributors[t.episodeID]);
    }
  }

  /** Every alert transition of a stream is explained by transitions of the stream. */
  lemma {:induction false} AlertsExplained(js: seq<Transition>)
    ensures FromTriggers(AlertsOf(js), js)
    ensures forall i | 0 <= i < |AlertsOf(js).journal| :: Explained(AlertsOf(js).journal[i], js)
  {
    hide Feed, Explained, FromTriggers;
    if js == [] {
      assert FromTriggers(NO_ALERTS, []) by { NothingFrom(); }
    } else {
      var front, t := js[..|js| - 1], js[|js| - 1];
      assert js == front + [t];
      AlertsExplained(front);
      FeedExplained(front, AlertsOf(front), t);
      FeedJournal(AlertsOf(front), t);
      forall u | Explained(u, front) ensures Explained(u, js) { ExplainedLater(u, front, t); }
    }
  }

  lemma NothingFrom()
    ensures FromTriggers(NO_ALERTS, [])
  {
  }

  lemma ExplainedLater(u: AlertTransition, js: seq<Transition>, t: Transition)
    requires Explained(u, js)
    ensures Explained(u, js + [t])
  {
    hide Opens, Recovers;
    assert forall x | x in js :: x in js + [t];
  }

  // ----- what a notification says, in the fields of its alert and of the rule's policy -----

  /** The policy of the rule asks for this kind of alert transition. */
  predicate Asked(u: AlertTransition, ps: Policies)
  {
    u.series.ruleID in ps && match u.kind
      case Open => ps[u.series.ruleID].onOpen
      case Recovery => ps[u.series.ruleID].onRecovery
  }

  /** Notification `n` reports alert transition `u` to the audience of its rule. */
  predicate Announces(n: Notification, u: AlertTransition, ps: Policies)
  {
    && n.alert == u && n.ruleID == u.series.ruleID && n.subjectKind == u.series.subjectKind
    && n.subjectID == u.series.subjectID && u.series.ruleID in ps
    && n.intent.alertTransitionID == u.id && n.intent.seriesID == u.seriesID && n.intent.generation == u.generation
    && n.intent.kind == u.kind && n.intent.audience == ps[u.series.ruleID].audience
    && n.intent.at == u.at && n.intent.effectiveAt == u.effectiveAt && n.intent.evidenceAt == u.evidenceAt
  }

  function AskedCount(us: seq<AlertTransition>, ps: Policies): nat
  {
    if us == [] then 0
    else AskedCount(us[..|us| - 1], ps) + if Asked(us[|us| - 1], ps) then 1 else 0
  }

  /** The output holds one notification for each alert transition the rule's policy asks for, in order,
      and no other. */
  lemma {:induction false} WantingMeans(us: seq<AlertTransition>, ps: Policies)
    ensures |Wanting(us, ps)| == AskedCount(us, ps)
    ensures forall i | 0 <= i < |us| && Asked(us[i], ps) ::
        AskedCount(us[..i], ps) < |Wanting(us, ps)| && Announces(Wanting(us, ps)[AskedCount(us[..i], ps)], us[i], ps)
    ensures forall n | n in Wanting(us, ps) :: n.alert in us && Asked(n.alert, ps) && Announces(n, n.alert, ps)
  {
    hide IntentID;
    if us != [] {
      var n, u := |us| - 1, us[|us| - 1];
      WantingMeans(us[..n], ps);
      forall i | 0 <= i < |us| && Asked(us[i], ps)
        ensures AskedCount(us[..i], ps) < |Wanting(us, ps)|
             && Announces(Wanting(us, ps)[AskedCount(us[..i], ps)], us[i], ps)
      {
        if i < n { assert us[..n][..i] == us[..i] && us[..n][i] == us[i]; }
      }
      assert forall x | x in us[..n] :: x in us;
    }
  }

  // ----- when they happen -----

  ghost predicate AlertsInTime(us: seq<AlertTransition>, high: Time)
  {
    && (forall i, j | 0 <= i < j < |us| :: us[i].at <= us[j].at)
    && forall i | 0 <= i < |us| :: us[i].at <= high
  }

  ghost predicate NotifiedInTime(ns: seq<Notification>, high: Time)
  {
    && (forall i, j | 0 <= i < j < |ns| :: ns[i].intent.at <= ns[j].intent.at)
    && forall i | 0 <= i < |ns| :: ns[i].intent.at == ns[i].alert.at <= high
  }

  lemma {:induction false} StreamAlertsInTime(js: seq<Transition>, high: Time)
    requires NondecreasingAt(js) && Within(js, 0, high)
    ensures AlertsInTime(AlertsOf(js).journal, high)
  {
    hide Feed;
    if js == [] {
    } else {
      var n := |js| - 1;
      StreamAlertsInTime(js[..n], js[n].at);
      FeedJournal(AlertsOf(js[..n]), js[n]);
    }
  }

  lemma {:induction false} WantingInTime(us: seq<AlertTransition>, ps: Policies, high: Time)
    requires AlertsInTime(us, high)
    ensures NotifiedInTime(Wanting(us, ps), high)
  {
    hide IntentID, Wanted;
    if us == [] {
    } else {
      var n := |us| - 1;
      WantingInTime(us[..n], ps, us[n].at);
    }
  }

  // ----- distinct identities -----

  lemma {:induction false} HistoryIndex(js: seq<Transition>, i: nat, n: nat)
    requires i < n <= |js|
    ensures var h := History(js[..n], js[i].key);
      |History(js[..i], js[i].key)| < |h| && h[|History(js[..i], js[i].key)|] == js[i]
  {
    assert js[..n][..n - 1] == js[..n - 1];
    if i < n - 1 { HistoryIndex(js, i, n - 1); }
  }

  /** No two condition transitions of a stream share an identity, and two triggers never share an
      episode. */
  lemma TransitionIDsDistinct(js: seq<Transition>, i: nat, j: nat)
    requires Chronicles(js) && i < j < |js|
    ensures js[i].id != js[j].id
    ensures js[i].direction == js[j].direction ==> js[i].episodeID != js[j].episodeID
  {
    hide TransitionID, EpisodeID, History;
    var t, u, n := js[i], js[j], |js|;
    assert js[..n] == js && Chronicle(History(js, t.key), t.key) && Chronicle(History(js, u.key), u.key);
    HistoryIndex(js, i, n);
    HistoryIndex(js, j, n);
    HistoryIndex(js, i, j);
    var p, q := |History(js[..i], t.key)|, |History(js[..j], u.key)|;
    assert EntryOK(History(js, t.key)[p], t.key, p) && EntryOK(History(js, u.key)[q], u.key, q);
    if t.id == u.id { TransitionIDInjective(t.key, DirectionAt(p), p + 1, u.key, DirectionAt(q), q + 1); }
    if t.direction == u.direction && t.episodeID == u.episodeID {
      EpisodeIDInjective(t.key, OpenerOf(p), u.key, OpenerOf(q));
    }
  }

  ghost predicate IntentsDistinct(ns: seq<Notification>)
  {
    forall i, j | 0 <= i < j < |ns| :: ns[i].intent.id != ns[j].intent.id
  }

  // Distinct alert transitions are planned as distinct intents.
  lemma {:induction false} WantingDistinct(us: seq<AlertTransition>, ps: Policies)
    requires forall i, j | 0 <= i < j < |us| :: us[i].id != us[j].id
    ensures IntentsDistinct(Wanting(us, ps))
    ensures forall i | 0 <= i < |Wanting(us, ps)| ::
        Wanting(us, ps)[i].alert in us && Wanting(us, ps)[i].intent.id == IntentID(Wanting(us, ps)[i].alert)
  {
    hide IntentID, Wanted;
    if us == [] {
    } else {
      var n := |us| - 1;
      var front := Wanting(us[..n], ps);
      WantingDistinct(us[..n], ps);
      forall i | 0 <= i < |front| ensures front[i].alert in us && front[i].intent.id != IntentID(us[n]) {
        var j :| 0 <= j < n && us[..n][j] == front[i].alert;
        assert us[j].id != us[n].id;
        if front[i].intent.id == IntentID(us[n]) { IntentIDInjective(front[i].alert, us[n]); }
      }
    }
  }
}
