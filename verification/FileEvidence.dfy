/** What the rules see during a replay, in terms of the events of the file: the latest of each source. */
module FileEvidence {
  import opened Wrappers
  import opened Bytes
  import opened Conditions
  import opened Events
  import Durations
  import Rules
  import opened EvaluationMerge
  import opened Evaluation
  import opened PipelineCoupling
  import opened Pipeline
  import opened ReplayTrace

  datatype Source = QueueSource | AgentSource | AdherenceSource

  /** The event is a record of this source about this subject. */
  predicate About(e: Event, source: Source, id: Text)
  {
    match source
    case QueueSource => e.Queue? && e.q.queueID == id
    case AgentSource => e.Agent? && e.a.agentID == id
    case AdherenceSource => e.Adherence? && e.c.agentID == id
  }

  /** Of the records of the source about the subject, event `l` has the latest time, and comes last in
      the file among those of that time. */
  ghost predicate Latest(es: seq<Envelope>, l: nat, source: Source, id: Text)
  {
    && l < |es| && About(es[l].event, source, id)
    && forall m | 0 <= m < |es| && About(es[m].event, source, id) ::
         || Timestamp(es[m].event) < Timestamp(es[l].event)
         || (Timestamp(es[m].event) == Timestamp(es[l].event) && m <= l)
  }

  ghost predicate NoneAbout(es: seq<Envelope>, source: Source, id: Text)
  {
    forall m | 0 <= m < |es| :: !About(es[m].event, source, id)
  }

  // The record held for a subject, as an event.
  function Held(s: Sources, source: Source, id: Text): Option<Event>
  {
    match source
    case QueueSource => if id in s.queues then Some(Queue(s.queues[id])) else None
    case AgentSource => if id in s.agents then Some(Agent(s.agents[id])) else None
    case AdherenceSource => if id in s.adherence then Some(Adherence(s.adherence[id])) else None
  }

  function SourcesOf(es: seq<Envelope>): Sources
  {
    if es == [] then NO_SOURCES else Absorbed(SourcesOf(es[..|es| - 1]), es[|es| - 1].event)
  }

  lemma HeldStep(s: Sources, e: Event, source: Source, id: Text)
    ensures Held(Absorbed(s, e), source, id)
         == if About(e, source, id)
              && (Held(s, source, id).None? || !(Timestamp(e) < Timestamp(Held(s, source, id).value)))
            then Some(e) else Held(s, source, id)
  {
  }

  lemma {:induction false} HeldLatest(es: seq<Envelope>, source: Source, id: Text)
    ensures match Held(SourcesOf(es), source, id)
      case None => NoneAbout(es, source, id)
      case Some(e) => exists l: nat :: Latest(es, l, source, id) && es[l].event == e
  {
    hide Absorbed, Held, About;
    if es == [] {
      assert Held(NO_SOURCES, source, id) == None by { NothingHeld(source, id); }
    } else {
      var n := |es| - 1;
      HeldLatest(es[..n], source, id);
      var before := Held(SourcesOf(es[..n]), source, id);
      HeldStep(SourcesOf(es[..n]), es[n].event, source, id);
      forall m | 0 <= m < n ensures es[..n][m] == es[m] { }
      if Held(SourcesOf(es), source, id) == Some(es[n].event)
          && About(es[n].event, source, id) && (before.None? || !(Timestamp(es[n].event) < Timestamp(before.value))) {
        if before.Some? {
          var l: nat :| Latest(es[..n], l, source, id) && es[..n][l].event == before.value;
        }
        assert Latest(es, n, source, id);
      } else if before.Some? {
        var l: nat :| Latest(es[..n], l, source, id) && es[..n][l].event == before.value;
        assert Latest(es, l, source, id);
      }
    }
  }

  lemma NothingHeld(source: Source, id: Text)
    ensures Held(NO_SOURCES, source, id) == None
  {
  }

  /** The record held is the latest of the file, and there is none exactly when the file has none. */
  lemma HeldIs(es: seq<Envelope>, source: Source, id: Text, l: nat)
    ensures Latest(es, l, source, id) ==> Held(SourcesOf(es), source, id) == Some(es[l].event)
    ensures NoneAbout(es, source, id) <==> Held(SourcesOf(es), source, id) == None
  {
    hide Held, SourcesOf, About;
    HeldLatest(es, source, id);
  }

  /** What the rules know of an agent after these events: the flag of its latest adherence check, the
      state its latest change entered when that is one of the four, and nothing else. */
  lemma AgentEvidence(es: seq<Envelope>, id: Text, l: nat, name: Text)
    ensures var fields := FieldsFor(SourcesOf(es), SubjectKey("agent", id));
      && (Latest(es, l, AdherenceSource, id) ==>
          Known("adherence.violation", fields) == Some(Rules.Boolean(es[l].event.c.inViolation)))
      && (NoneAbout(es, AdherenceSource, id) <==> Known("adherence.violation", fields) == None)
      && (Latest(es, l, AgentSource, id) ==>
          Known("agent.current_state", fields)
          == if es[l].event.a.newState in {"available", "on_call", "on_break", "in_meeting"}
             then Some(Rules.AgentState(es[l].event.a.newState)) else None)
      && (NoneAbout(es, AgentSource, id) ==> Known("agent.current_state", fields) == None)
      && (name != "adherence.violation" && name != "agent.current_state" ==> Known(name, fields) == None)
  {
    hide SourcesOf, Latest, NoneAbout;
    HeldIs(es, AdherenceSource, id, l);
    HeldIs(es, AgentSource, id, l);
  }

  /** What the rules know of a queue after these events: the fields of its latest snapshot, as
      `QueueEvidence` says a rule sees them, and nothing else. */
  lemma QueueKnown(es: seq<Envelope>, id: Text, l: nat, name: Text)
    requires Latest(es, l, QueueSource, id) && Decodable(es[l].event.q)
    ensures var q, fields := es[l].event.q, FieldsFor(SourcesOf(es), SubjectKey("queue", id));
      && Known("queue.longest_wait", fields) == WaitKnown(q.longestWaitSec)
      && Known("queue.sla_target", fields) == WaitKnown(q.slaTargetSec)
      && Known("queue.tickets_waiting", fields) == CountKnown(q.ticketsWaiting)
      && Known("queue.agents_available", fields) == CountKnown(q.agentsAvailable)
      && Known("queue.agents_on_call", fields) == CountKnown(q.agentsOnCall)
      && Known("queue.volume_last_15m", fields) == CountKnown(q.volumeLast15m)
      && (Known(name, fields).Some? ==>
          name in {"queue.longest_wait", "queue.sla_target", "queue.tickets_waiting", "queue.agents_available",
                   "queue.agents_on_call", "queue.volume_last_15m"})
  {
    hide SourcesOf, WaitKnown, CountKnown, Wrap64, WaitNanos, Rules.ValidFieldValue;
    HeldIs(es, QueueSource, id, l);
    QueueEvidence(es[l].event.q, QueueFields(es[l].event.q));
  }

  // Decoded counts and waits are 64-bit.
  predicate Decodable(q: QueueSnapshot)
  {
    && q.ticketsWaiting < TWO64 && q.agentsAvailable < TWO64 && q.agentsOnCall < TWO64 && q.volumeLast15m < TWO64
    && q.longestWaitSec < TWO64 && q.slaTargetSec < TWO64
  }

  /** Nothing is known of a queue the file has not reported. */
  lemma UnreportedQueue(es: seq<Envelope>, id: Text, name: Text)
    requires NoneAbout(es, QueueSource, id)
    ensures Known(name, FieldsFor(SourcesOf(es), SubjectKey("queue", id))) == None
  {
    hide SourcesOf, NoneAbout;
    HeldIs(es, QueueSource, id, 0);
  }

  /** The onset on record for a subject: that of the latest adherence check of its name, if any. */
  lemma OnsetKnown(es: seq<Envelope>, target: SubjectKey, l: nat)
    ensures Latest(es, l, AdherenceSource, target.id) ==>
        OnsetFor(SourcesOf(es), target)
        == match es[l].event.c.violationStartedAt case None => 0 case Some(onset) => onset
    ensures NoneAbout(es, AdherenceSource, target.id) ==> OnsetFor(SourcesOf(es), target) == 0
  {
    hide SourcesOf, Latest, NoneAbout;
    HeldIs(es, AdherenceSource, target.id, l);
  }

  /** A replay evaluates each event on the records of the file up to and including it, at a clock that
      is the latest time among those events. */
  lemma {:induction false} ReplaySources(rules: seq<Rule>, es: seq<Envelope>, ps: Policies, ss: seq<Replay>, n: nat)
    requires Trace(rules, es, ps, ss) && n <= |es|
    ensures ss[n].sources == SourcesOf(es[..n])
    ensures forall m | 0 <= m < n :: Timestamp(es[m].event) <= ss[n].logical
    ensures n > 0 ==> exists m | 0 <= m < n :: Timestamp(es[m].event) == ss[n].logical
  {
    hide Process, Running, Activated, Absorbed;
    if n == 0 {
      BeginSources(rules);
    } else {
      ReplaySources(rules, es, ps, ss, n - 1);
      assert Running(rules, ss[n - 1]) && Process(rules, ss[n - 1], es[n - 1], ps) == Some(ss[n]);
      ProcessRunning(rules, ss[n - 1], es[n - 1], ps);
      assert es[..n][..n - 1] == es[..n - 1] && es[..n][n - 1] == es[n - 1];
      if ss[n].logical == Timestamp(es[n - 1].event) {
      } else {
        assert n == 1 ==> ss[0].logical == 0 by { BeginSources(rules); }
      }
    }
  }

  lemma BeginSources(rules: seq<Rule>)
    ensures Begin(rules).sources == SourcesOf([]) && Begin(rules).logical == 0
  {
  }
}
