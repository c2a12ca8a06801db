/** Decoded source events and the accepted occurrences that carry them. */
module Events {
  import opened Wrappers
  import opened Bytes
  import opened Conditions

  datatype QueueSnapshot = QueueSnapshot(
    eventID: Text, timestamp: Time, queueID: Text, ticketsWaiting: nat, longestWaitSec: nat, slaTargetSec: nat,
    agentsAvailable: nat, agentsOnCall: nat, volumeLast15m: nat, volumeForecastNext15m: Option<nat>)
  datatype AgentStateChange = AgentStateChange(
    eventID: Text, timestamp: Time, agentID: Text, previousState: Option<Text>, newState: Text,
    previousStateDurationSec: Option<nat>, queueIDs: seq<Text>)
  datatype AdherenceCheck = AdherenceCheck(
    eventID: Text, timestamp: Time, agentID: Text, scheduledState: Text, actualState: Text,
    inViolation: bool, violationStartedAt: Option<Time>, queueIDs: seq<Text>)
  datatype Event = Queue(q: QueueSnapshot) | Agent(a: AgentStateChange) | Adherence(c: AdherenceCheck)

  function EventID(e: Event): Text
  {
    match e case Queue(q) => q.eventID case Agent(a) => a.eventID case Adherence(c) => c.eventID
  }

  function Timestamp(e: Event): Time
  {
    match e case Queue(q) => q.timestamp case Agent(a) => a.timestamp case Adherence(c) => c.timestamp
  }

  /** The one subject an event is evidence about. Its queue lists are never consulted. */
  function Target(e: Event): SubjectKey
  {
    match e
    case Queue(q) => SubjectKey("queue", q.queueID)
    case Agent(a) => SubjectKey("agent", a.agentID)
    case Adherence(c) => SubjectKey("agent", c.agentID)
  }

  datatype Occurrence = Occurrence(
    id: Text, source: Text, idempotencyKey: Text, ingestPosition: nat, sourceEventID: Text,
    effectiveAt: Time, event: Event, raw: Text)

  predicate OccurrenceOK(o: Occurrence)
  {
    && o.id != "" && o.source != "" && o.idempotencyKey != "" && o.ingestPosition != 0 && o.sourceEventID != ""
    && o.id != o.sourceEventID && o.idempotencyKey != o.sourceEventID
    && o.effectiveAt != 0
    && EventID(o.event) == o.sourceEventID && Timestamp(o.event) == o.effectiveAt
    && o.raw != ""
  }

  /** The checks in the order they are made; the first that fails rejects. */
  method ValidateOccurrence(o: Occurrence) returns (ok: bool)
    ensures ok <==> OccurrenceOK(o)
  {
    if o.id == "" || o.source == "" || o.idempotencyKey == "" { return false; }
    if o.ingestPosition == 0 || o.sourceEventID == "" { return false; }
    if o.id == o.sourceEventID || o.idempotencyKey == o.sourceEventID { return false; }
    if o.effectiveAt == 0 { return false; }
    if EventID(o.event) != o.sourceEventID { return false; }
    if Timestamp(o.event) != o.effectiveAt { return false; }
    ok := o.raw != "";
  }
}
