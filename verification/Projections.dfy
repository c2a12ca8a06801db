/** Live source views, and the retained histories they must agree with. */
module Projections {
  import opened Wrappers
  import opened Bytes
  import opened Conditions
  import opened Events

  datatype Provenance = Provenance(
    occurrenceID: Text, source: Text, idempotencyKey: Text, ingestPosition: nat, sourceEventID: Text, effectiveAt: Time)

  /** One retained observation of a source. */
  datatype Observed<E> = Observed(provenance: Provenance, event: E)

  datatype QueueState = QueueState(
    queueID: Text, ticketsWaiting: nat, longestWaitSec: nat, slaTargetSec: nat, agentsAvailable: nat,
    agentsOnCall: nat, volumeLast15m: nat, volumeForecastNext15m: Option<nat>, provenance: Provenance)
  datatype AgentState = AgentState(agentID: Text, current: Text, provenance: Provenance)
  datatype AdherenceState = AdherenceState(
    agentID: Text, scheduledState: Text, actualState: Text, inViolation: bool,
    violationStartedAt: Option<Time>, knownViolationSince: Time, provenance: Provenance)

  function ProvenanceOf(o: Occurrence): Provenance
  {
    Provenance(o.id, o.source, o.idempotencyKey, o.ingestPosition, o.sourceEventID, o.effectiveAt)
  }

  predicate Newer(candidate: Provenance, current: Provenance)
  {
    candidate.effectiveAt > current.effectiveAt
    || (candidate.effectiveAt == current.effectiveAt && candidate.ingestPosition > current.ingestPosition)
  }

  function QueueStateOf(x: Observed<QueueSnapshot>): QueueState
  {
    var q := x.event;
    QueueState(q.queueID, q.ticketsWaiting, q.longestWaitSec, q.slaTargetSec, q.agentsAvailable, q.agentsOnCall,
               q.volumeLast15m, q.volumeForecastNext15m, x.provenance)
  }

  function AgentStateOf(x: Observed<AgentStateChange>): AgentState
  {
    AgentState(x.event.agentID, x.event.newState, x.provenance)
  }

  // The violation onset a check establishes, given the state it may replace.
  function OnsetAfter(x: Observed<AdherenceCheck>, prior: Option<AdherenceState>): Time
  {
    if !x.event.inViolation then 0
    else if x.event.violationStartedAt.Some? then x.event.violationStartedAt.value
    else if prior.Some? && prior.value.inViolation && prior.value.knownViolationSince != 0
    then prior.value.knownViolationSince
    else x.provenance.effectiveAt
  }

  function AdherenceStateOf(x: Observed<AdherenceCheck>, prior: Option<AdherenceState>): AdherenceState
  {
    AdherenceState(x.event.agentID, x.event.scheduledState, x.event.actualState, x.event.inViolation,
                   x.event.violationStartedAt, OnsetAfter(x, prior), x.provenance)
  }

  // ----- live values as folds over a history -----

  /** The record the builder holds live after a history. */
  function Live<E>(h: seq<Observed<E>>): (x: Observed<E>)
    requires h != []
    ensures x in h
  {
    var n := |h| - 1;
    if n == 0 then h[0]
    else
      var before := Live(h[..n]);
      if Newer(h[n].provenance, before.provenance) then h[n] else before
  }

  // The records that were live when they were built.
  function LiveRecords<E>(h: seq<Observed<E>>): seq<Observed<E>>
  {
    if h == [] then []
    else
      var n := |h| - 1;
      if n == 0 || Newer(h[n].provenance, Live(h[..n]).provenance)
      then LiveRecords(h[..n]) + [h[n]]
      else LiveRecords(h[..n])
  }

  function LiveAdherence(h: seq<Observed<AdherenceCheck>>): AdherenceState
    requires h != []
  {
    var n := |h| - 1;
    if n == 0 then AdherenceStateOf(h[0], None)
    else
      var before := LiveAdherence(h[..n]);
      if Newer(h[n].provenance, before.provenance) then AdherenceStateOf(h[n], Some(before)) else before
  }

  // ----- what the folds mean -----

  predicate InIngestOrder<E>(h: seq<Observed<E>>)
  {
    forall i, j | 0 <= i < j < |h| :: h[i].provenance.ingestPosition < h[j].provenance.ingestPosition
  }

  /** The live record is the lexicographic maximum of the history by effective time, then position. */
  lemma {:induction false} LiveIsLatest<E>(h: seq<Observed<E>>, i: nat)
    requires InIngestOrder(h) && i < |h|
    ensures h[i] == Live(h) || Newer(Live(h).provenance, h[i].provenance)
  {
    var n := |h| - 1;
    if n > 0 {
      var front := h[..n];
      assert InIngestOrder(front);
      var before := Live(front);
      var j :| 0 <= j < n && front[j] == before;
      assert h[j].provenance.ingestPosition < h[n].provenance.ingestPosition;
      if i < n {
        LiveIsLatest(front, i);
        assert front[i] == h[i];
      }
    }
  }

  /** A later record replaces the live one exactly when it is not before it: the builder's choice
      and the in-memory preview's are the same. */
  lemma {:induction false} LiveAgreesWithPreview<E>(h: seq<Observed<E>>)
    requires InIngestOrder(h) && |h| > 1
    ensures Newer(h[|h| - 1].provenance, Live(h[..|h| - 1]).provenance)
       <==> !(h[|h| - 1].provenance.effectiveAt < Live(h[..|h| - 1]).provenance.effectiveAt)
  {
    var n := |h| - 1;
    var j :| 0 <= j < n && h[..n][j] == Live(h[..n]);
    assert h[j].provenance.ingestPosition < h[n].provenance.ingestPosition;
  }

  lemma {:induction false} LiveRecordsEnd<E>(h: seq<Observed<E>>)
    requires h != []
    ensures LiveRecords(h) != [] && LiveRecords(h)[|LiveRecords(h)| - 1] == Live(h)
  {
    if |h| > 1 { LiveRecordsEnd(h[..|h| - 1]); }
  }

  /** `rs[a..]` is the trailing run of violating records. */
  predicate TrailingRun(rs: seq<Observed<AdherenceCheck>>, a: nat)
  {
    && a < |rs|
    && (forall i | a <= i < |rs| :: rs[i].event.inViolation)
    && (a > 0 ==> !rs[a - 1].event.inViolation)
  }

  /** The latest explicit onset in the run, else the run's first effective time. */
  ghost predicate KnownSince(rs: seq<Observed<AdherenceCheck>>, a: nat, since: Time)
    requires a < |rs|
  {
    || (exists j :: a <= j < |rs| && rs[j].event.violationStartedAt == Some(since)
          && forall l | j < l < |rs| :: rs[l].event.violationStartedAt.None?)
    || ((forall l | a <= l < |rs| :: rs[l].event.violationStartedAt.None?) && since == rs[a].provenance.effectiveAt)
  }

  predicate OnsetsSet(h: seq<Observed<AdherenceCheck>>)
  {
    forall i | 0 <= i < |h| :: h[i].provenance.effectiveAt != 0 && h[i].event.violationStartedAt != Some(0)
  }

  /** The known violation onset is zero when the live record is not violating; otherwise it is the
      onset of the trailing run of violating live records. */
  lemma {:induction false} ViolationOnset(h: seq<Observed<AdherenceCheck>>)
    requires h != [] && OnsetsSet(h)
    ensures var s, rs := LiveAdherence(h), LiveRecords(h);
      && s == AdherenceStateOf(Live(h), None).(knownViolationSince := s.knownViolationSince)
      && rs != [] && rs[|rs| - 1] == Live(h)
      && (if !s.inViolation then s.knownViolationSince == 0
          else s.knownViolationSince != 0
               && exists a: nat :: TrailingRun(rs, a) && KnownSince(rs, a, s.knownViolationSince))
  {
    LiveRecordsEnd(h);
    var n, rs := |h| - 1, LiveRecords(h);
    if n == 0 {
      assert h[..0] == [] && rs == [h[0]];
      if h[0].event.inViolation {
        assert TrailingRun(rs, 0) && KnownSince(rs, 0, LiveAdherence(h).knownViolationSince);
      }
    } else {
      ViolationOnset(h[..n]);
      if Newer(h[n].provenance, Live(h[..n]).provenance) && h[n].event.inViolation {
        OnsetExtends(LiveRecords(h[..n]), h[n], LiveAdherence(h[..n]));
      }
    }
  }

  lemma OnsetExtends(rs: seq<Observed<AdherenceCheck>>, x: Observed<AdherenceCheck>, prior: AdherenceState)
    requires rs != [] && x.event.inViolation
    requires prior.inViolation == rs[|rs| - 1].event.inViolation
    requires prior.inViolation ==> prior.knownViolationSince != 0
    requires prior.inViolation ==> exists a: nat :: TrailingRun(rs, a) && KnownSince(rs, a, prior.knownViolationSince)
    ensures exists a: nat :: TrailingRun(rs + [x], a) && KnownSince(rs + [x], a, OnsetAfter(x, Some(prior)))
  {
    var rs', since := rs + [x], OnsetAfter(x, Some(prior));
    if prior.inViolation {
      var a: nat :| TrailingRun(rs, a) && KnownSince(rs, a, prior.knownViolationSince);
      assert TrailingRun(rs', a);
      if x.event.violationStartedAt.Some? {
        assert rs'[|rs|].event.violationStartedAt == Some(since);
      } else if j :| a <= j < |rs| && rs[j].event.violationStartedAt == Some(since)
                     && forall l | j < l < |rs| :: rs[l].event.violationStartedAt.None? {
        assert rs'[j].event.violationStartedAt == Some(since);
      }
      assert KnownSince(rs', a, since);
    } else {
      assert TrailingRun(rs', |rs|) && KnownSince(rs', |rs|, since);
    }
  }

  // ----- the builder -----

  datatype Update =
    | QueueUpdate(duplicate: bool, queueObservation: Observed<QueueSnapshot>, queue: QueueState, changed: bool)
    | AgentUpdate(duplicate: bool, agentObservation: Observed<AgentStateChange>, agent: AgentState, changed: bool)
    | AdherenceUpdate(duplicate: bool, adherenceObservation: Observed<AdherenceCheck>, adherence: AdherenceState,
      changed: bool)

  predicate UpTo<E>(h: seq<Observed<E>>, last: nat)
  {
    h != [] && InIngestOrder(h) && forall i | 0 <= i < |h| :: h[i].provenance.ingestPosition <= last
  }

  /** A live map holds, for each subject with a history, the fold of that history. */
  predicate QueuesOK(history: map<Text, seq<Observed<QueueSnapshot>>>, live: map<Text, QueueState>, last: nat)
  {
    && live.Keys == history.Keys
    && forall id | id in history :: UpTo(history[id], last) && live[id] == QueueStateOf(Live(history[id]))
  }

  predicate AgentsOK(history: map<Text, seq<Observed<AgentStateChange>>>, live: map<Text, AgentState>, last: nat)
  {
    && live.Keys == history.Keys
    && forall id | id in history :: UpTo(history[id], last) && live[id] == AgentStateOf(Live(history[id]))
  }

  predicate AdherenceOK(history: map<Text, seq<Observed<AdherenceCheck>>>, live: map<Text, AdherenceState>, last: nat)
  {
    && live.Keys == history.Keys
    && forall id | id in history :: UpTo(history[id], last) && live[id] == LiveAdherence(history[id])
  }

  function HistoryAt<E>(history: map<Text, seq<Observed<E>>>, id: Text): seq<Observed<E>>
  {
    if id in history then history[id] else []
  }

  function QueueHistoryWith(h: map<Text, seq<Observed<QueueSnapshot>>>, o: Occurrence)
    : map<Text, seq<Observed<QueueSnapshot>>>
  {
    if o.event.Queue?
    then h[o.event.q.queueID := HistoryAt(h, o.event.q.queueID) + [Observed(ProvenanceOf(o), o.event.q)]]
    else h
  }

  function AgentHistoryWith(h: map<Text, seq<Observed<AgentStateChange>>>, o: Occurrence)
    : map<Text, seq<Observed<AgentStateChange>>>
  {
    if o.event.Agent?
    then h[o.event.a.agentID := HistoryAt(h, o.event.a.agentID) + [Observed(ProvenanceOf(o), o.event.a)]]
    else h
  }

  function AdherenceHistoryWith(h: map<Text, seq<Observed<AdherenceCheck>>>, o: Occurrence)
    : map<Text, seq<Observed<AdherenceCheck>>>
  {
    if o.event.Adherence?
    then h[o.event.c.agentID := HistoryAt(h, o.event.c.agentID) + [Observed(ProvenanceOf(o), o.event.c)]]
    else h
  }

  lemma LivePush<E>(h: seq<Observed<E>>, x: Observed<E>)
    ensures Live(h + [x]) == if h == [] || Newer(x.provenance, Live(h).provenance) then x else Live(h)
  {
    assert (h + [x])[..|h|] == h;
  }

  lemma LiveAdherencePush(h: seq<Observed<AdherenceCheck>>, x: Observed<AdherenceCheck>)
    ensures LiveAdherence(h + [x])
         == if h == [] then AdherenceStateOf(x, None)
            else if Newer(x.provenance, LiveAdherence(h).provenance) then AdherenceStateOf(x, Some(LiveAdherence(h)))
            else LiveAdherence(h)
  {
    assert (h + [x])[..|h|] == h;
    if h == [] { assert h + [x] == [x]; }
  }

  lemma UpToPush<E>(h: seq<Observed<E>>, x: Observed<E>, last: nat)
    requires h == [] || UpTo(h, last)
    requires x.provenance.ingestPosition > last
    ensures UpTo(h + [x], x.provenance.ingestPosition)
  {
  }

  lemma QueuesPush(history: map<Text, seq<Observed<QueueSnapshot>>>, live: map<Text, QueueState>, last: nat, id: Text,
                   x: Observed<QueueSnapshot>)
    requires QueuesOK(history, live, last) && x.provenance.ingestPosition > last
    ensures var changed := id !in live || Newer(x.provenance, live[id].provenance);
      var live' := if changed then live[id := QueueStateOf(x)] else live;
      && QueuesOK(history[id := HistoryAt(history, id) + [x]], live', x.provenance.ingestPosition)
      && (changed <==> live' != live)
  {
    hide Live, InIngestOrder;
    var h := HistoryAt(history, id);
    UpToPush(h, x, last);
    LivePush(h, x);
    forall j | j in history ensures UpTo(history[j], x.provenance.ingestPosition) {
      UpToLater(history[j], last, x.provenance.ingestPosition);
    }
    if id !in live || Newer(x.provenance, live[id].provenance) {
      assert live[id := QueueStateOf(x)][id].provenance == x.provenance;
    }
  }

  lemma AgentsPush(history: map<Text, seq<Observed<AgentStateChange>>>, live: map<Text, AgentState>, last: nat,
                   id: Text, x: Observed<AgentStateChange>)
    requires AgentsOK(history, live, last) && x.provenance.ingestPosition > last
    ensures var changed := id !in live || Newer(x.provenance, live[id].provenance);
      var live' := if changed then live[id := AgentStateOf(x)] else live;
      && AgentsOK(history[id := HistoryAt(history, id) + [x]], live', x.provenance.ingestPosition)
      && (changed <==> live' != live)
  {
    hide Live, InIngestOrder;
    var h := HistoryAt(history, id);
    UpToPush(h, x, last);
    LivePush(h, x);
    forall j | j in history ensures UpTo(history[j], x.provenance.ingestPosition) {
      UpToLater(history[j], last, x.provenance.ingestPosition);
    }
    if id !in live || Newer(x.provenance, live[id].provenance) {
      assert live[id := AgentStateOf(x)][id].provenance == x.provenance;
    }
  }

  lemma AdherencePush(history: map<Text, seq<Observed<AdherenceCheck>>>, live: map<Text, AdherenceState>, last: nat,
                      id: Text, x: Observed<AdherenceCheck>)
    requires AdherenceOK(history, live, last) && x.provenance.ingestPosition > last
    ensures var prior := if id in live then Some(live[id]) else None;
      var changed := prior.None? || Newer(x.provenance, prior.value.provenance);
      var live' := if changed then live[id := AdherenceStateOf(x, prior)] else live;
      && AdherenceOK(history[id := HistoryAt(history, id) + [x]], live', x.provenance.ingestPosition)
      && (changed <==> live' != live)
  {
    hide LiveAdherence, InIngestOrder;
    var h := HistoryAt(history, id);
    UpToPush(h, x, last);
    LiveAdherencePush(h, x);
    forall j | j in history ensures UpTo(history[j], x.provenance.ingestPosition) {
      UpToLater(history[j], last, x.provenance.ingestPosition);
    }
    var prior := if id in live then Some(live[id]) else None;
    if prior.None? || Newer(x.provenance, prior.value.provenance) {
      assert live[id := AdherenceStateOf(x, prior)][id].provenance == x.provenance;
    }
  }

  lemma UpToLater<E>(h: seq<Observed<E>>, last: nat, later: nat)
    requires UpTo(h, last) && last <= later
    ensures UpTo(h, later)
  {
  }

  lemma AllLater(qh: map<Text, seq<Observed<QueueSnapshot>>>, q: map<Text, QueueState>,
                 ah: map<Text, seq<Observed<AgentStateChange>>>, a: map<Text, AgentState>,
                 dh: map<Text, seq<Observed<AdherenceCheck>>>, d: map<Text, AdherenceState>, last: nat, later: nat)
    requires QueuesOK(qh, q, last) && AgentsOK(ah, a, last) && AdherenceOK(dh, d, last) && last <= later
    ensures QueuesOK(qh, q, later) && AgentsOK(ah, a, later) && AdherenceOK(dh, d, later)
  {
    forall id | id in qh ensures UpTo(qh[id], later) { UpToLater(qh[id], last, later); }
    forall id | id in ah ensures UpTo(ah[id], later) { UpToLater(ah[id], last, later); }
    forall id | id in dh ensures UpTo(dh[id], later) { UpToLater(dh[id], last, later); }
  }

  // ----- the live views, field by field -----

  /** Record `i` is the latest of its history: by effective time, and by arrival among equals. */
  predicate LatestIn<E>(h: seq<Observed<E>>, i: nat)
  {
    && i < |h|
    && forall j | 0 <= j < |h| ::
         || h[j].provenance.effectiveAt < h[i].provenance.effectiveAt
         || (h[j].provenance.effectiveAt == h[i].provenance.effectiveAt && j <= i)
  }

  lemma LiveIndex<E>(h: seq<Observed<E>>) returns (i: nat)
    requires h != [] && InIngestOrder(h)
    ensures LatestIn(h, i) && h[i] == Live(h)
  {
    hide Live, Newer;
    i :| 0 <= i < |h| && h[i] == Live(h);
    forall j | 0 <= j < |h|
      ensures || h[j].provenance.effectiveAt < h[i].provenance.effectiveAt
              || (h[j].provenance.effectiveAt == h[i].provenance.effectiveAt && j <= i)
    {
      LiveIsLatest(h, j);
      NewerMeans(h, i, j);
    }
  }

  lemma NewerMeans<E>(h: seq<Observed<E>>, i: nat, j: nat)
    requires InIngestOrder(h) && i < |h| && j < |h|
    ensures Newer(h[i].provenance, h[j].provenance) <==>
      || h[j].provenance.effectiveAt < h[i].provenance.effectiveAt
      || (h[j].provenance.effectiveAt == h[i].provenance.effectiveAt && j < i)
  {
    assert i < j ==> h[i].provenance.ingestPosition < h[j].provenance.ingestPosition;
    assert j < i ==> h[j].provenance.ingestPosition < h[i].provenance.ingestPosition;
  }

  /** The live view of a queue shows every value of the latest snapshot of its history. */
  lemma QueueView(history: map<Text, seq<Observed<QueueSnapshot>>>, live: map<Text, QueueState>, last: nat, id: Text)
    returns (i: nat)
    requires QueuesOK(history, live, last) && id in live
    ensures id in history && LatestIn(history[id], i)
    ensures var x, s := history[id][i], live[id];
      && s.queueID == x.event.queueID && s.ticketsWaiting == x.event.ticketsWaiting
      && s.longestWaitSec == x.event.longestWaitSec && s.slaTargetSec == x.event.slaTargetSec
      && s.agentsAvailable == x.event.agentsAvailable && s.agentsOnCall == x.event.agentsOnCall
      && s.volumeLast15m == x.event.volumeLast15m && s.volumeForecastNext15m == x.event.volumeForecastNext15m
      && s.provenance == x.provenance
  {
    i := LiveIndex(history[id]);
  }

  /** The live view of an agent shows the state that its latest change entered. */
  lemma AgentView(history: map<Text, seq<Observed<AgentStateChange>>>, live: map<Text, AgentState>, last: nat, id: Text)
    returns (i: nat)
    requires AgentsOK(history, live, last) && id in live
    ensures id in history && LatestIn(history[id], i)
    ensures var x, s := history[id][i], live[id];
      s.agentID == x.event.agentID && s.current == x.event.newState && s.provenance == x.provenance
  {
    i := LiveIndex(history[id]);
  }

  lemma {:induction false} LiveAdherenceIs(h: seq<Observed<AdherenceCheck>>)
    requires h != []
    ensures var s, x := LiveAdherence(h), Live(h);
      && s.agentID == x.event.agentID && s.scheduledState == x.event.scheduledState
      && s.actualState == x.event.actualState && s.inViolation == x.event.inViolation
      && s.violationStartedAt == x.event.violationStartedAt && s.provenance == x.provenance
      && (!x.event.inViolation ==> s.knownViolationSince == 0)
      && (x.event.inViolation && x.event.violationStartedAt.Some? ==>
          s.knownViolationSince == x.event.violationStartedAt.value)
  {
    if |h| > 1 { LiveAdherenceIs(h[..|h| - 1]); }
  }

  /** The live view of adherence shows every value of the latest check. Its known onset is zero when
      that check reports no violation, and the check's own onset when it names one. */
  lemma AdherenceView(history: map<Text, seq<Observed<AdherenceCheck>>>, live: map<Text, AdherenceState>, last: nat,
                      id: Text) returns (i: nat)
    requires AdherenceOK(history, live, last) && id in live
    ensures id in history && LatestIn(history[id], i)
    ensures var x, s := history[id][i], live[id];
      && s.agentID == x.event.agentID && s.scheduledState == x.event.scheduledState
      && s.actualState == x.event.actualState && s.inViolation == x.event.inViolation
      && s.violationStartedAt == x.event.violationStartedAt && s.provenance == x.provenance
      && (!x.event.inViolation ==> s.knownViolationSince == 0)
      && (x.event.inViolation && x.event.violationStartedAt.Some? ==>
          s.knownViolationSince == x.event.violationStartedAt.value)
  {
    i := LiveIndex(history[id]);
    LiveAdherenceIs(history[id]);
  }

  /** The record an admitted occurrence leaves: the last of its subject's history, in the
      occurrence's own fields. */
  lemma RecordKept(qs: map<Text, seq<Observed<QueueSnapshot>>>, as_: map<Text, seq<Observed<AgentStateChange>>>,
                   cs: map<Text, seq<Observed<AdherenceCheck>>>, o: Occurrence)
    ensures var qs', as', cs' := QueueHistoryWith(qs, o), AgentHistoryWith(as_, o), AdherenceHistoryWith(cs, o);
      match o.event
      case Queue(q) =>
        && q.queueID in qs' && |qs'[q.queueID]| == |HistoryAt(qs, q.queueID)| + 1
        && OfOccurrence(qs'[q.queueID][|qs'[q.queueID]| - 1], q, o) && as' == as_ && cs' == cs
      case Agent(a) =>
        && a.agentID in as' && |as'[a.agentID]| == |HistoryAt(as_, a.agentID)| + 1
        && OfOccurrence(as'[a.agentID][|as'[a.agentID]| - 1], a, o) && qs' == qs && cs' == cs
      case Adherence(c) =>
        && c.agentID in cs' && |cs'[c.agentID]| == |HistoryAt(cs, c.agentID)| + 1
        && OfOccurrence(cs'[c.agentID][|cs'[c.agentID]| - 1], c, o) && qs' == qs && as' == as_
  {
  }

  predicate OfOccurrence<E(==)>(x: Observed<E>, event: E, o: Occurrence)
  {
    && x.event == event && x.provenance.occurrenceID == o.id && x.provenance.source == o.source
    && x.provenance.idempotencyKey == o.idempotencyKey && x.provenance.ingestPosition == o.ingestPosition
    && x.provenance.sourceEventID == o.sourceEventID && x.provenance.effectiveAt == o.effectiveAt
  }

  class Builder {
    var queues: map<Text, QueueState>
    var agents: map<Text, AgentState>
    var adherence: map<Text, AdherenceState>
    var queueHistory: map<Text, seq<Observed<QueueSnapshot>>>
    var agentHistory: map<Text, seq<Observed<AgentStateChange>>>
    var adherenceHistory: map<Text, seq<Observed<AdherenceCheck>>>
    var occurrences: map<Text, Occurrence>
    var admissions: map<(Text, Text), Text>
    var lastPosition: nat

    ghost predicate Valid()
      reads this
    {
      && QueuesOK(queueHistory, queues, lastPosition)
      && AgentsOK(agentHistory, agents, lastPosition)
      && AdherenceOK(adherenceHistory, adherence, lastPosition)
      && (forall id | id in occurrences :: occurrences[id].id == id && Projected(occurrences[id].event))
    }

    // The subject of an admitted event has a live value of the event's source.
    predicate Projected(e: Event)
      reads this
    {
      match e
      case Queue(q) => q.queueID in queues
      case Agent(a) => a.agentID in agents
      case Adherence(c) => c.agentID in adherence
    }

    constructor ()
      ensures Valid()
      ensures queues == map[] && agents == map[] && adherence == map[]
      ensures queueHistory == map[] && agentHistory == map[] && adherenceHistory == map[]
      ensures occurrences == map[] && admissions == map[] && lastPosition == 0
    {
      queues, agents, adherence := map[], map[], map[];
      queueHistory, agentHistory, adherenceHistory := map[], map[], map[];
      occurrences, admissions, lastPosition := map[], map[], 0;
    }

    /** An occurrence is rejected when malformed, when it contradicts an admitted identity, or when
        a new one reuses an admission key or does not move the ingestion position forward. */
    predicate Admissible(o: Occurrence)
      reads this
    {
      && OccurrenceOK(o)
      && if o.id in occurrences then occurrences[o.id] == o
         else (o.source, o.idempotencyKey) !in admissions && o.ingestPosition > lastPosition
    }

    /** Build one occurrence. Rejected and duplicate occurrences change nothing; a new one is
        appended to its own subject's history and to no other. */
    method Build(o: Occurrence) returns (u: Option<Update>)
      requires Valid()
      modifies this
      ensures Valid()
      ensures u.Some? <==> old(Admissible(o))
      ensures u.Some? ==> (u.value.duplicate <==> o.id in old(occurrences))
      ensures u.None? || u.value.duplicate ==> unchanged(this)
      ensures u.Some? && !u.value.duplicate ==>
        && lastPosition == o.ingestPosition
        && occurrences == old(occurrences)[o.id := o]
        && admissions == old(admissions)[(o.source, o.idempotencyKey) := o.id]
        && queueHistory == QueueHistoryWith(old(queueHistory), o)
        && agentHistory == AgentHistoryWith(old(agentHistory), o)
        && adherenceHistory == AdherenceHistoryWith(old(adherenceHistory), o)
    {
      hide OccurrenceOK, QueuesOK, AgentsOK, AdherenceOK, QueueHistoryWith, AgentHistoryWith, AdherenceHistoryWith;
      var ok := ValidateOccurrence(o);
      if !ok { return None; }
      if o.id in occurrences {
        if occurrences[o.id] != o { return None; }
        var d := Duplicate(o);
        return Some(d);
      }
      if (o.source, o.idempotencyKey) in admissions { return None; }
      if o.ingestPosition <= lastPosition { return None; }
      var x := Project(o);
      occurrences := occurrences[o.id := o];
      admissions := admissions[(o.source, o.idempotencyKey) := o.id];
      lastPosition := o.ingestPosition;
      u := Some(x);
    }

    // Update the one source projection the event belongs to.
    method Project(o: Occurrence) returns (u: Update)
      requires Valid() && o.ingestPosition > lastPosition
      modifies this`queues, this`queueHistory, this`agents, this`agentHistory, this`adherence, this`adherenceHistory
      ensures QueuesOK(queueHistory, queues, o.ingestPosition) && AgentsOK(agentHistory, agents, o.ingestPosition)
      ensures AdherenceOK(adherenceHistory, adherence, o.ingestPosition)
      ensures !u.duplicate && Projected(o.event)
      ensures old(queues).Keys <= queues.Keys && old(agents).Keys <= agents.Keys
          && old(adherence).Keys <= adherence.Keys
      ensures queueHistory == QueueHistoryWith(old(queueHistory), o)
      ensures agentHistory == AgentHistoryWith(old(agentHistory), o)
      ensures adherenceHistory == AdherenceHistoryWith(old(adherenceHistory), o)
    {
      hide QueuesOK, AgentsOK, AdherenceOK;
      AllLater(queueHistory, queues, agentHistory, agents, adherenceHistory, adherence, lastPosition, o.ingestPosition);
      match o.event
      case Queue(q) => u := BuildQueue(o, q);
      case Agent(a) => u := BuildAgentState(o, a);
      case Adherence(c) => u := BuildAdherence(o, c);
    }

    // An admitted occurrence always has a live value to report.
    method Duplicate(o: Occurrence) returns (u: Update)
      requires Valid() && o.id in occurrences && occurrences[o.id] == o
      ensures u.duplicate && !u.changed
      ensures match o.event
        case Queue(q) => u == QueueUpdate(true, Observed(ProvenanceOf(o), q), queues[q.queueID], false)
        case Agent(a) => u == AgentUpdate(true, Observed(ProvenanceOf(o), a), agents[a.agentID], false)
        case Adherence(c) => u == AdherenceUpdate(true, Observed(ProvenanceOf(o), c), adherence[c.agentID], false)
    {
      match o.event
      case Queue(q) => u := QueueUpdate(true, Observed(ProvenanceOf(o), q), queues[q.queueID], false);
      case Agent(a) => u := AgentUpdate(true, Observed(ProvenanceOf(o), a), agents[a.agentID], false);
      case Adherence(c) => u := AdherenceUpdate(true, Observed(ProvenanceOf(o), c), adherence[c.agentID], false);
    }

    method BuildQueue(o: Occurrence, q: QueueSnapshot) returns (u: Update)
      requires o.event == Queue(q)
      requires QueuesOK(queueHistory, queues, lastPosition) && o.ingestPosition > lastPosition
      modifies this`queueHistory, this`queues
      ensures QueuesOK(queueHistory, queues, o.ingestPosition)
      ensures queueHistory == QueueHistoryWith(old(queueHistory), o)
      ensures old(queues).Keys + {q.queueID} == queues.Keys
          && u == QueueUpdate(false, Observed(ProvenanceOf(o), q), queues[q.queueID], queues != old(queues))
    {
      hide QueuesOK, AgentsOK, AdherenceOK;
      var x := Observed(ProvenanceOf(o), q);
      QueuesPush(queueHistory, queues, lastPosition, q.queueID, x);
      queueHistory := queueHistory[q.queueID := HistoryAt(queueHistory, q.queueID) + [x]];
      var candidate := QueueStateOf(x);
      var changed := q.queueID !in queues || Newer(candidate.provenance, queues[q.queueID].provenance);
      if changed { queues := queues[q.queueID := candidate]; }
      u := QueueUpdate(false, x, queues[q.queueID], changed);
    }

    method BuildAgentState(o: Occurrence, a: AgentStateChange) returns (u: Update)
      requires o.event == Agent(a)
      requires AgentsOK(agentHistory, agents, lastPosition) && o.ingestPosition > lastPosition
      modifies this`agentHistory, this`agents
      ensures AgentsOK(agentHistory, agents, o.ingestPosition)
      ensures agentHistory == AgentHistoryWith(old(agentHistory), o)
      ensures old(agents).Keys + {a.agentID} == agents.Keys
          && u == AgentUpdate(false, Observed(ProvenanceOf(o), a), agents[a.agentID], agents != old(agents))
    {
      hide QueuesOK, AgentsOK, AdherenceOK;
      var x := Observed(ProvenanceOf(o), a);
      AgentsPush(agentHistory, agents, lastPosition, a.agentID, x);
      agentHistory := agentHistory[a.agentID := HistoryAt(agentHistory, a.agentID) + [x]];
      var candidate := AgentStateOf(x);
      var changed := a.agentID !in agents || Newer(candidate.provenance, agents[a.agentID].provenance);
      if changed { agents := agents[a.agentID := candidate]; }
      u := AgentUpdate(false, x, agents[a.agentID], changed);
    }

    method BuildAdherence(o: Occurrence, c: AdherenceCheck) returns (u: Update)
      requires o.event == Adherence(c)
      requires AdherenceOK(adherenceHistory, adherence, lastPosition) && o.ingestPosition > lastPosition
      modifies this`adherenceHistory, this`adherence
      ensures AdherenceOK(adherenceHistory, adherence, o.ingestPosition)
      ensures adherenceHistory == AdherenceHistoryWith(old(adherenceHistory), o)
      ensures old(adherence).Keys + {c.agentID} == adherence.Keys
          && u == AdherenceUpdate(false, Observed(ProvenanceOf(o), c), adherence[c.agentID],
              adherence != old(adherence))
    {
      hide QueuesOK, AgentsOK, AdherenceOK;
      var x := Observed(ProvenanceOf(o), c);
      AdherencePush(adherenceHistory, adherence, lastPosition, c.agentID, x);
      adherenceHistory := adherenceHistory[c.agentID := HistoryAt(adherenceHistory, c.agentID) + [x]];
      var prior := if c.agentID in adherence then Some(adherence[c.agentID]) else None;
      var candidate := AdherenceState(c.agentID, c.scheduledState, c.actualState, c.inViolation, c.violationStartedAt,
          0, ProvenanceOf(o));
      if c.inViolation {
        if c.violationStartedAt.Some? {
          candidate := candidate.(knownViolationSince := c.violationStartedAt.value);
        } else if prior.Some? && prior.value.inViolation && prior.value.knownViolationSince != 0 {
          candidate := candidate.(knownViolationSince := prior.value.knownViolationSince);
        } else {
          candidate := candidate.(knownViolationSince := o.effectiveAt);
        }
      }
      var changed := prior.None? || Newer(candidate.provenance, prior.value.provenance);
      if changed { adherence := adherence[c.agentID := candidate]; }
      u := AdherenceUpdate(false, x, adherence[c.agentID], changed);
    }
  }
}
