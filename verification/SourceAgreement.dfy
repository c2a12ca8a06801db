/** The replay's own latest records and the projection builder's histories tell the same story. */
module SourceAgreement {
  import opened Bytes
  import opened Events
  import opened EvaluationMerge
  import opened Evaluation
  import opened Projections
  import opened PipelineCoupling
  import opened Pipeline
  import opened PipelineIntake

  datatype Histories = Histories(
    queues: map<Text, seq<Observed<QueueSnapshot>>>, agents: map<Text, seq<Observed<AgentStateChange>>>,
    adherence: map<Text, seq<Observed<AdherenceCheck>>>)

  /** What the builder retains when it admits the occurrence. */
  function Retained(h: Histories, o: Occurrence): Histories
  {
    Histories(QueueHistoryWith(h.queues, o), AgentHistoryWith(h.agents, o), AdherenceHistoryWith(h.adherence, o))
  }

  function HistoriesOf(es: seq<Envelope>): Histories
  {
    if es == [] then Histories(map[], map[], map[])
        else Retained(HistoriesOf(es[..|es| - 1]), OccurrenceOf(es[|es| - 1]))
  }

  predicate Retaining<E>(history: map<Text, seq<Observed<E>>>, last: nat)
  {
    forall id | id in history :: UpTo(history[id], last)
  }

  predicate QueuesAgree(latest: map<Text, QueueSnapshot>, history: map<Text, seq<Observed<QueueSnapshot>>>)
  {
    && latest.Keys == history.Keys
    && forall id | id in history :: history[id] != []
         && latest[id] == Live(history[id]).event && latest[id].timestamp == Live(history[id]).provenance.effectiveAt
  }

  predicate AgentsAgree(latest: map<Text, AgentStateChange>, history: map<Text, seq<Observed<AgentStateChange>>>)
  {
    && latest.Keys == history.Keys
    && forall id | id in history :: history[id] != []
         && latest[id] == Live(history[id]).event && latest[id].timestamp == Live(history[id]).provenance.effectiveAt
  }

  predicate AdherenceAgrees(latest: map<Text, AdherenceCheck>, history: map<Text, seq<Observed<AdherenceCheck>>>)
  {
    && latest.Keys == history.Keys
    && forall id | id in history :: history[id] != []
         && latest[id] == Live(history[id]).event && latest[id].timestamp == Live(history[id]).provenance.effectiveAt
  }

  /** For every source and subject the replay holds exactly the builder's live record. */
  predicate Agree(s: Sources, h: Histories)
  {
    QueuesAgree(s.queues, h.queues) && AgentsAgree(s.agents, h.agents) && AdherenceAgrees(s.adherence, h.adherence)
  }

  // Appending to one subject's history: the builder and the replay replace the record together.
  lemma ReplaceTogether<E>(history: map<Text, seq<Observed<E>>>, id: Text, x: Observed<E>, last: nat)
    requires Retaining(history, last) && x.provenance.ingestPosition > last
    ensures Retaining(history[id := HistoryAt(history, id) + [x]], x.provenance.ingestPosition)
    ensures Live(HistoryAt(history, id) + [x])
         == if id !in history
           || !(x.provenance.effectiveAt < Live(history[id]).provenance.effectiveAt) then x else Live(history[id])
  {
    hide Live, InIngestOrder;
    var h := HistoryAt(history, id);
    forall j | j in history ensures UpTo(history[j], x.provenance.ingestPosition) {
      UpToLater(history[j], last, x.provenance.ingestPosition);
    }
    UpToPush(h, x, last);
    LivePush(h, x);
    if h != [] {
      assert (h + [x])[..|h|] == h;
      LiveAgreesWithPreview(h + [x]);
    }
  }

  lemma RetainingLater<E>(history: map<Text, seq<Observed<E>>>, last: nat, later: nat)
    requires Retaining(history, last) && last <= later
    ensures Retaining(history, later)
  {
    forall j | j in history ensures UpTo(history[j], later) { UpToLater(history[j], last, later); }
  }

  ghost predicate RetainingAll(h: Histories, last: nat)
  {
    Retaining(h.queues, last) && Retaining(h.agents, last) && Retaining(h.adherence, last)
  }

  lemma QueueStep(latest: map<Text, QueueSnapshot>, history: map<Text, seq<Observed<QueueSnapshot>>>, id: Text,
                  x: Observed<QueueSnapshot>, last: nat)
    requires QueuesAgree(latest, history) && Retaining(history, last) && x.provenance.ingestPosition > last
    requires x.event.timestamp == x.provenance.effectiveAt
    ensures var latest' := if id !in latest
        || !(x.event.timestamp < latest[id].timestamp) then latest[id := x.event] else latest;
      QueuesAgree(latest', history[id := HistoryAt(history, id) + [x]])
  {
    hide Live, UpTo, Retaining;
    ReplaceTogether(history, id, x, last);
  }

  lemma AgentStep(latest: map<Text, AgentStateChange>, history: map<Text, seq<Observed<AgentStateChange>>>, id: Text,
                  x: Observed<AgentStateChange>, last: nat)
    requires AgentsAgree(latest, history) && Retaining(history, last) && x.provenance.ingestPosition > last
    requires x.event.timestamp == x.provenance.effectiveAt
    ensures var latest' := if id !in latest
        || !(x.event.timestamp < latest[id].timestamp) then latest[id := x.event] else latest;
      AgentsAgree(latest', history[id := HistoryAt(history, id) + [x]])
  {
    hide Live, UpTo, Retaining;
    ReplaceTogether(history, id, x, last);
  }

  lemma AdherenceStep(latest: map<Text, AdherenceCheck>, history: map<Text, seq<Observed<AdherenceCheck>>>, id: Text,
                      x: Observed<AdherenceCheck>, last: nat)
    requires AdherenceAgrees(latest, history) && Retaining(history, last) && x.provenance.ingestPosition > last
    requires x.event.timestamp == x.provenance.effectiveAt
    ensures var latest' := if id !in latest
        || !(x.event.timestamp < latest[id].timestamp) then latest[id := x.event] else latest;
      AdherenceAgrees(latest', history[id := HistoryAt(history, id) + [x]])
  {
    hide Live, UpTo, Retaining;
    ReplaceTogether(history, id, x, last);
  }

  lemma AgreeStep(s: Sources, h: Histories, o: Occurrence, last: nat)
    requires Agree(s, h) && RetainingAll(h, last) && o.ingestPosition > last && o.effectiveAt == Timestamp(o.event)
    ensures Agree(Absorbed(s, o.event), Retained(h, o)) && RetainingAll(Retained(h, o), o.ingestPosition)
  {
    hide QueuesAgree, AgentsAgree, AdherenceAgrees, Retaining, Live;
    RetainingLater(h.queues, last, o.ingestPosition);
    RetainingLater(h.agents, last, o.ingestPosition);
    RetainingLater(h.adherence, last, o.ingestPosition);
    match o.event
    case Queue(q) =>
      var x := Observed(ProvenanceOf(o), q);
      QueueStep(s.queues, h.queues, q.queueID, x, last);
      ReplaceTogether(h.queues, q.queueID, x, last);
    case Agent(a) =>
      var x := Observed(ProvenanceOf(o), a);
      AgentStep(s.agents, h.agents, a.agentID, x, last);
      ReplaceTogether(h.agents, a.agentID, x, last);
    case Adherence(c) =>
      var x := Observed(ProvenanceOf(o), c);
      AdherenceStep(s.adherence, h.adherence, c.agentID, x, last);
      ReplaceTogether(h.adherence, c.agentID, x, last);
  }

  /** Lines come in increasing position. */
  predicate InLineOrder(es: seq<Envelope>) { forall i, j | 0 <= i < j < |es| :: es[i].line < es[j].line }

  lemma ProcessSources(rules: seq<Rule>, s: Replay, e: Envelope, ps: Policies)
    requires Running(rules, s) && Process(rules, s, e, ps).Some?
    ensures Process(rules, s, e, ps).value.sources == Absorbed(s.sources, e.event)
  {
    hide AdvanceAll, ApplyAll, EmitAll, Observe;
  }

  /** After any replay, the record used as evidence for a subject is the live record of its retained
      history: the latest by effective time, and by position among equals. */
  lemma {:induction false} ReplayAgrees(rules: seq<Rule>, es: seq<Envelope>, ps: Policies)
    requires Activated(rules) && InLineOrder(es) && (forall i | 0 <= i < |es| :: es[i].line > 0)
        && ProcessAll(rules, es, ps).Some?
    ensures Agree(ProcessAll(rules, es, ps).value.sources, HistoriesOf(es))
    ensures RetainingAll(HistoriesOf(es), if es == [] then 0 else es[|es| - 1].line)
  {
    hide Process, Agree, RetainingAll, Activated, Retained;
    if es == [] {
      NothingAgrees(rules);
    } else {
      var n := |es| - 1;
      ReplayAgrees(rules, es[..n], ps);
      var before := ProcessAll(rules, es[..n], ps).value;
      ProcessSources(rules, before, es[n], ps);
      AgreeStep(before.sources, HistoriesOf(es[..n]), OccurrenceOf(es[n]), if n == 0 then 0 else es[n - 1].line);
    }
  }

  lemma NothingAgrees(rules: seq<Rule>)
    ensures Agree(NO_SOURCES, Histories(map[], map[], map[])) && RetainingAll(Histories(map[], map[], map[]), 0)
  {
  }

  // ----- the builder itself -----

  /** The builder after the first events: exactly their identities, keys, last position and histories. */
  ghost predicate BuiltFrom(occurrences: map<Text, Occurrence>, admissions: map<(Text, Text), Text>, last: nat,
                            h: Histories,
                            es: seq<Envelope>)
  {
    && occurrences.Keys == Occurrences(es)
    && (forall key | key in admissions :: key.1 in Occurrences(es))
    && last == (if es == [] then 0 else es[|es| - 1].line)
    && h == HistoriesOf(es)
  }

  ghost predicate Built(b: Builder, es: seq<Envelope>)
    reads b
  {
    BuiltFrom(b.occurrences, b.admissions, b.lastPosition,
      Histories(b.queueHistory, b.agentHistory, b.adherenceHistory), es)
  }

  lemma NextIsNew(es: seq<Envelope>, n: nat)
    requires n < |es| && DistinctLines(es)
    ensures OccurrenceID(es[n]) !in Occurrences(es[..n])
    ensures Occurrences(es[..n + 1]) == Occurrences(es[..n]) + {OccurrenceID(es[n])}
  {
    hide OccurrenceID;
    assert es[..n + 1] == es[..n] + [es[n]];
  }

  lemma BuiltNext(occurrences: map<Text, Occurrence>, admissions: map<(Text, Text), Text>, last: nat, h: Histories,
                  es: seq<Envelope>, n: nat)
    requires n < |es| && DistinctLines(es) && BuiltFrom(occurrences, admissions, last, h, es[..n])
    ensures var o := OccurrenceOf(es[n]);
      BuiltFrom(occurrences[o.id := o], admissions[(o.source, o.idempotencyKey) := o.id], o.ingestPosition,
                Histories(QueueHistoryWith(h.queues, o), AgentHistoryWith(h.agents, o),
                  AdherenceHistoryWith(h.adherence, o)),
                es[..n + 1])
  {
    hide Occurrences, OccurrenceID, HistoriesOf, QueueHistoryWith, AgentHistoryWith, AdherenceHistoryWith,
      DistinctLines;
    NextIsNew(es, n);
    HistoriesNext(es, n);
  }

  lemma BuilderAdmits(b: Builder, es: seq<Envelope>, n: nat)
    requires n < |es| && DistinctLines(es) && InLineOrder(es) && es[n].line > 0 && Built(b, es[..n])
    requires OccurrenceOK(OccurrenceOf(es[n]))
    ensures b.Admissible(OccurrenceOf(es[n])) && OccurrenceOf(es[n]).id !in b.occurrences
  {
    hide Occurrences, OccurrenceID, OccurrenceOK, HistoriesOf, DistinctLines;
    NextIsNew(es, n);
  }

  // The builder takes the next event as a new occurrence.
  method AdmitNext(b: Builder, es: seq<Envelope>, n: nat)
    requires n < |es| && DistinctLines(es) && InLineOrder(es) && es[n].line > 0
    requires b.Valid() && Built(b, es[..n]) && OccurrenceOK(OccurrenceOf(es[n]))
    modifies b
    ensures b.Valid() && Built(b, es[..n + 1])
  {
    hide Builder.Valid, Builder.Admissible, BuiltFrom, OccurrenceOf, QueueHistoryWith, AgentHistoryWith,
      AdherenceHistoryWith, OccurrenceOK;
    BuilderAdmits(b, es, n);
    BuiltNext(b.occurrences, b.admissions, b.lastPosition,
      Histories(b.queueHistory, b.agentHistory, b.adherenceHistory), es, n);
    var u := b.Build(OccurrenceOf(es[n]));
  }

  /** The projection builder admits every event of a successful replay, as a new occurrence, and ends
      holding the very records the replay used as evidence. */
  method Rebuild(ghost rules: seq<Rule>, es: seq<Envelope>, ghost ps: Policies) returns (b: Builder)
    requires Activated(rules) && ProcessAll(rules, es, ps).Some?
    requires InLineOrder(es) && DistinctLines(es) && forall i | 0 <= i < |es| :: es[i].line > 0
    ensures fresh(b) && b.Valid() && Built(b, es)
    ensures Agree(ProcessAll(rules, es, ps).value.sources,
        Histories(b.queueHistory, b.agentHistory, b.adherenceHistory))
  {
    hide *;
    ReplaySucceeds(rules, es, ps);
    ReplayAgrees(rules, es, ps);
    b := new Builder();
    BuiltNone(b);
    for n := 0 to |es|
      invariant fresh(b) && b.Valid() && Built(b, es[..n])
    {
      AdmissibleOK(rules, es[n]);
      AdmitNext(b, es, n);
    }
    assert es[..|es|] == es;
    BuiltIs(b, es);
  }

  lemma BuiltNone(b: Builder)
    requires b.occurrences == map[] && b.admissions == map[] && b.lastPosition == 0
    requires b.queueHistory == map[] && b.agentHistory == map[] && b.adherenceHistory == map[]
    ensures Built(b, [])
  {
  }

  lemma BuiltIs(b: Builder, es: seq<Envelope>)
    requires Built(b, es)
    ensures Histories(b.queueHistory, b.agentHistory, b.adherenceHistory) == HistoriesOf(es)
  {
  }

  lemma HistoriesNext(es: seq<Envelope>, n: nat)
    requires n < |es|
    ensures var h, o := HistoriesOf(es[..n]), OccurrenceOf(es[n]);
      HistoriesOf(es[..n + 1])
      == Histories(QueueHistoryWith(h.queues, o), AgentHistoryWith(h.agents, o), AdherenceHistoryWith(h.adherence, o))
  {
    hide QueueHistoryWith, AgentHistoryWith, AdherenceHistoryWith;
    assert es[..n + 1][..n] == es[..n] && es[..n + 1][n] == es[n];
  }

  lemma AdmissibleOK(rules: seq<Rule>, e: Envelope)
    requires Admissible(rules, e)
    ensures OccurrenceOK(OccurrenceOf(e))
  {
  }
}
