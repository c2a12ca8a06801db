/** The whole deterministic replay as a function of its events, and what every replay keeps. */
module Pipeline {
  import opened Wrappers
  import opened Bytes
  import opened Conditions
  import opened Events
  import Rules
  import Durations
  import opened EvaluationMerge
  import opened Evaluation
  import opened PipelineCoupling

  // ----- the latest source records -----

  datatype Sources = Sources(
    queues: map<Text, QueueSnapshot>, agents: map<Text, AgentStateChange>, adherence: map<Text, AdherenceCheck>)

  const NO_SOURCES := Sources(map[], map[], map[])

  /** A record replaces the one held for its subject unless it is before it. */
  function Absorbed(s: Sources, e: Event): Sources
  {
    match e
    case Queue(q) =>
      if q.queueID !in s.queues || !(q.timestamp < s.queues[q.queueID].timestamp)
      then s.(queues := s.queues[q.queueID := q]) else s
    case Agent(a) =>
      if a.agentID !in s.agents || !(a.timestamp < s.agents[a.agentID].timestamp)
      then s.(agents := s.agents[a.agentID := a]) else s
    case Adherence(c) =>
      if c.agentID !in s.adherence || !(c.timestamp < s.adherence[c.agentID].timestamp)
      then s.(adherence := s.adherence[c.agentID := c]) else s
  }

  // ----- evidence -----

  const TWO63: int := 0x8000_0000_0000_0000
  const TWO64: int := 0x1_0000_0000_0000_0000

  // Conversion and multiplication in the source are modulo 2^64, read back as a signed number.
  function Wrap64(n: int): int { (n + TWO63) % TWO64 - TWO63 }

  function WaitNanos(seconds: nat): int { Wrap64(Wrap64(seconds) * Durations.SECOND) }

  function QueueFields(q: QueueSnapshot): Rules.Lookup
  {
    map["queue.longest_wait" := Rules.Duration(WaitNanos(q.longestWaitSec)),
        "queue.sla_target" := Rules.Duration(WaitNanos(q.slaTargetSec)),
        "queue.tickets_waiting" := Rules.Integer(Wrap64(q.ticketsWaiting)),
        "queue.agents_available" := Rules.Integer(Wrap64(q.agentsAvailable)),
        "queue.agents_on_call" := Rules.Integer(Wrap64(q.agentsOnCall)),
        "queue.volume_last_15m" := Rules.Integer(Wrap64(q.volumeLast15m))]
  }

  function AgentFields(s: Sources, id: Text): Rules.Lookup
  {
    var state: Rules.Lookup := if id in s.agents
        then map["agent.current_state" := Rules.AgentState(s.agents[id].newState)] else map[];
    if id in s.adherence then state["adherence.violation" := Rules.Boolean(s.adherence[id].inViolation)] else state
  }

  function FieldsFor(s: Sources, target: SubjectKey): Rules.Lookup
  {
    if target.kind == "queue" then (if target.id in s.queues then QueueFields(s.queues[target.id]) else map[])
    else AgentFields(s, target.id)
  }

  // The onset comes from the adherence record of that name, whatever the target's kind.
  function OnsetFor(s: Sources, target: SubjectKey): Time
  {
    if target.id in s.adherence && s.adherence[target.id].violationStartedAt.Some?
    then s.adherence[target.id].violationStartedAt.value else 0
  }

  function EvidenceFor(s: Sources, target: SubjectKey): Evidence
  {
    Evidence(FieldsFor(s, target), OnsetFor(s, target), 0, "")
  }

  // ----- what counts and waits read as -----

  const TWO55: int := 0x80_0000_0000_0000
  const YEAR_SECONDS: int := 365 * 24 * 3600

  function Known(name: Text, fields: Rules.Lookup): Option<Rules.Operand>
  {
    Rules.ResolveOperand(Rules.Field(name), fields)
  }

  /** A count reaches the rules as it is below 2^63, and not at all from there on. */
  function CountKnown(n: nat): Option<Rules.Operand> { if n < TWO63 then Some(Rules.Integer(n)) else None }

  /** A wait reaches the rules as its remainder modulo 2^55 seconds, if that is at most a year. */
  function WaitKnown(seconds: nat): Option<Rules.Operand>
  {
    var r := seconds % TWO55;
    if r <= YEAR_SECONDS then Some(Rules.Duration(r * Durations.SECOND)) else None
  }

  /** What a rule sees of any decoded queue snapshot. The forecast never reaches it. */
  lemma QueueEvidence(q: QueueSnapshot, fields: Rules.Lookup)
    requires fields == QueueFields(q)
    requires q.ticketsWaiting < TWO64 && q.agentsAvailable < TWO64 && q.agentsOnCall < TWO64 && q.volumeLast15m < TWO64
    requires q.longestWaitSec < TWO64 && q.slaTargetSec < TWO64
    ensures Known("queue.longest_wait", fields) == WaitKnown(q.longestWaitSec)
    ensures Known("queue.sla_target", fields) == WaitKnown(q.slaTargetSec)
    ensures Known("queue.tickets_waiting", fields) == CountKnown(q.ticketsWaiting)
    ensures Known("queue.agents_available", fields) == CountKnown(q.agentsAvailable)
    ensures Known("queue.agents_on_call", fields) == CountKnown(q.agentsOnCall)
    ensures Known("queue.volume_last_15m", fields) == CountKnown(q.volumeLast15m)
    ensures Known("queue.volume_forecast_next_15m", fields) == None
  {
    hide Wrap64, WaitNanos, WaitKnown, CountKnown, Rules.DurationInvalid;
    WaitReads(q.longestWaitSec);
    WaitReads(q.slaTargetSec);
    CountReads(q.ticketsWaiting);
    CountReads(q.agentsAvailable);
    CountReads(q.agentsOnCall);
    CountReads(q.volumeLast15m);
  }

  lemma CountReads(n: nat)
    requires n < TWO64
    ensures CountKnown(n) == if Wrap64(n) >= 0 then Some(Rules.Integer(Wrap64(n))) else None
  {
  }

  lemma WaitReads(seconds: nat)
    requires seconds < TWO64
    ensures WaitKnown(seconds)
         == if Rules.DurationInvalid(WaitNanos(seconds)) then None else Some(Rules.Duration(WaitNanos(seconds)))
  {
    var r := seconds % TWO55;
    WaitRemainder(seconds);
    if r <= YEAR_SECONDS {
      assert 0 <= r * Durations.SECOND < TWO63;
    } else if !Rules.DurationInvalid(WaitNanos(seconds)) {
      ValidWaitSmall(r);
    }
  }

  // Multiples of 2^55 seconds vanish in the product, because SECOND is a multiple of 2^9.
  lemma WaitRemainder(seconds: nat)
    requires seconds < TWO64
    ensures WaitNanos(seconds) == Wrap64((seconds % TWO55) * Durations.SECOND)
  {
    var a, r := seconds / TWO55, seconds % TWO55;
    assert seconds == a * TWO55 + r;
    var w := Wrap64(seconds);
    assert w == seconds || w == seconds - TWO64;
    WrapShift(r * Durations.SECOND, if w == seconds then a * 1_953_125 else a * 1_953_125 - Durations.SECOND);
  }

  lemma WrapShift(n: int, a: int)
    ensures Wrap64(n + a * TWO64) == Wrap64(n)
  {
    var q, r := (n + TWO63) / TWO64, (n + TWO63) % TWO64;
    assert n + TWO63 == q * TWO64 + r;
    RemainderUnique(n + a * TWO64 + TWO63, q + a, r);
  }

  lemma RemainderUnique(x: int, q: int, r: int)
    requires x == q * TWO64 + r && 0 <= r < TWO64
    ensures x % TWO64 == r
  {
    var p := x / TWO64;
    assert x == p * TWO64 + x % TWO64;
    assert (p - q) * TWO64 == r - x % TWO64;
  }

  // A remainder whose product wraps to a valid duration is that duration.
  lemma ValidWaitSmall(r: nat)
    requires r < TWO55 && !Rules.DurationInvalid(Wrap64(r * Durations.SECOND))
    ensures r <= YEAR_SECONDS
  {
    var v := Wrap64(r * Durations.SECOND);
    var d, b := v / Durations.SECOND, (r * Durations.SECOND + TWO63) / TWO64;
    assert v == d * Durations.SECOND && v == r * Durations.SECOND - b * TWO64;
    assert (r - d) * 1_953_125 == b * TWO55;
    Coprime(r - d, b);
    assert -TWO55 < r - d < TWO55;
  }

  // 1_953_125 is odd, so a multiple of 2^55 among its multiples comes from one.
  lemma Coprime(x: int, b: int)
    requires x * 1_953_125 == b * TWO55
    ensures x % TWO55 == 0
  {
    var u, v := 20211507185753197, -1095668;
    assert u * 1_953_125 + v * TWO55 == 1;
    assert x == u * (x * 1_953_125) + (x * v) * TWO55;
    assert x == (u * b + x * v) * TWO55;
  }

  /** So a rule sees a wait's own length exactly up to a year, sees a wrong length exactly when the
      wait is at least 2^55 seconds and a year or less past a multiple of that, and sees nothing of
      any other wait. */
  lemma WaitFaithful(q: QueueSnapshot)
    requires q.longestWaitSec < TWO64
    ensures var w, known := q.longestWaitSec, Known("queue.longest_wait", QueueFields(q));
      && (known == Some(Rules.Duration(w * Durations.SECOND)) <==> w <= YEAR_SECONDS)
      && (known.Some? && known != Some(Rules.Duration(w * Durations.SECOND)) <==>
          w >= TWO55 && w % TWO55 <= YEAR_SECONDS)
  {
    hide Wrap64, WaitNanos, Rules.DurationInvalid;
    WaitReads(q.longestWaitSec);
    assert Known("queue.longest_wait", QueueFields(q)) == WaitKnown(q.longestWaitSec);
  }

  // 2^55 seconds read as no wait at all.
  lemma HugeWaitReadsZero(q: QueueSnapshot)
    requires q.longestWaitSec == 0x80_0000_0000_0000
    ensures Known("queue.longest_wait", QueueFields(q)) == Some(Rules.Duration(0))
  {
    hide Wrap64, WaitNanos, Rules.DurationInvalid;
    WaitReads(q.longestWaitSec);
  }

  // ----- one event -----

  datatype Envelope = Envelope(stream: Text, line: nat, event: Event, raw: Text)

  function OccurrenceID(e: Envelope): Text { e.stream + ":" + Decimal(e.line) }

  function OccurrenceOf(e: Envelope): Occurrence
  {
    Occurrence(OccurrenceID(e), e.stream, OccurrenceID(e), e.line, EventID(e.event), Timestamp(e.event), e.event, e.raw)
  }

  /** Everything a replay holds between events; `stream` is every condition transition so far. */
  datatype Replay = Replay(
    machines: seq<Machine>, emission: Emission, sources: Sources, logical: Time, stream: seq<Transition>)

  function Begin(rules: seq<Rule>): Replay { Replay(Started(rules), NO_EMISSION, NO_SOURCES, 0, []) }

  ghost predicate Running(rules: seq<Rule>, s: Replay) { Activated(rules) && Aligned(rules, s.machines, s.logical) }

  // The clock never moves back, even for a late event.
  function ClockAt(s: Replay, e: Envelope): Time { Max(Timestamp(e.event), s.logical) }

  // The runtime advances to `t` and what fires is emitted.
  ghost function Advanced(rules: seq<Rule>, s: Replay, t: Time, ps: Policies): (s': Replay)
    requires Running(rules, s) && s.logical <= t && t > 0
    ensures Running(rules, s') && s'.logical == t
  {
    AdvanceAllAligned(rules, s.machines, s.logical, t);
    var st := AdvanceAll(s.machines, t);
    Replay(st.machines, EmitAll(s.emission, st.out, ps), s.sources, t, s.stream + st.out)
  }

  ghost predicate Observable(rules: seq<Rule>, o: Occurrence, t: Time, ev: Evidence)
  {
    RequestOK(o, t) && AllObservationsOK(rules, o, t, Observe(rules, o, t, Some(ev)))
  }

  ghost function Applied(rules: seq<Rule>, s: Replay, o: Occurrence, ps: Policies): (s': Replay)
    requires Running(rules, s) && RequestOK(o, s.logical)
    ensures Running(rules, s') && s'.logical == s.logical
  {
    var xs := Observe(rules, o, s.logical, Some(EvidenceFor(s.sources, Target(o.event))));
    ObserveItems(rules, o, s.logical, Some(EvidenceFor(s.sources, Target(o.event))));
    ApplyAllAligned(rules, s.machines, s.logical, xs);
    var st := ApplyAll(s.machines, xs);
    s.(machines := st.machines, emission := EmitAll(s.emission, st.out, ps), stream := s.stream + st.out)
  }

  lemma ObserveItems(rules: seq<Rule>, o: Occurrence, t: Time, e: Option<Evidence>)
    requires Activated(rules) && RequestOK(o, t)
    ensures forall n | 0 <= n < |Observe(rules, o, t, e)| :: ItemOK(rules, t, Observe(rules, o, t, e)[n])
  {
    hide ItemOK, Observe;
    EvaluationApplies(rules, o, t, e);
  }

  /** One event: advance, update the sources, observe, apply. None is an error, which ends the replay. */
  ghost function Process(rules: seq<Rule>, s: Replay, e: Envelope, ps: Policies): (r: Option<Replay>)
    requires Running(rules, s)
    ensures r.Some? ==> Running(rules, r.value) && r.value.logical == ClockAt(s, e)
  {
    var t := ClockAt(s, e);
    if t == 0 then None
    else
      var s1 := Advanced(rules, s, t, ps);
      var s2 := s1.(sources := Absorbed(s1.sources, e.event));
      if !Observable(rules, OccurrenceOf(e), t, EvidenceFor(s2.sources, Target(e.event))) then None
      else Some(Applied(rules, s2, OccurrenceOf(e), ps))
  }

  ghost function ProcessAll(rules: seq<Rule>, es: seq<Envelope>, ps: Policies): (r: Option<Replay>)
    requires Activated(rules)
    ensures r.Some? ==> Running(rules, r.value)
  {
    if es == [] then Some(Begin(rules))
    else
      var before := ProcessAll(rules, es[..|es| - 1], ps);
      if before.None? then None else Process(rules, before.value, es[|es| - 1], ps)
  }

  /** The end of the file: one more advance to the instant already reached. */
  ghost function Finish(rules: seq<Rule>, s: Replay, ps: Policies): Replay
    requires Running(rules, s)
  {
    if s.logical == 0 then s else Advanced(rules, s, s.logical, ps)
  }
}
