/** The timed condition machine, as functions on its state.
    A method of `ConditionReducer.Reducer` is proved to compute each of them. */
module Conditions {
  import opened Wrappers
  import opened Bytes

  // Instants and durations are naturals; 0 is the unset instant.
  type Time = nat

  datatype SubjectKey = SubjectKey(kind: Text, id: Text)
  datatype ConditionKey = ConditionKey(ruleID: Text, revision: int, subject: SubjectKey)
  datatype Truth = Unknown | False | True
  datatype Direction = Trigger | Clear
  datatype Times = Times(effectiveAt: Time, dueAt: Time, processingAt: Time, evidenceAt: Time)
  datatype Observation = Observation(
    key: ConditionKey, direction: Direction, result: Truth, effectiveAt: Time, processingAt: Time,
    evidenceAt: Time, trueSince: Time, observationID: Text, reason: Text)
  datatype Transition = Transition(
    id: Text, episodeID: Text, key: ConditionKey, direction: Direction, at: Time, times: Times,
    reason: Text, attempt: nat)
  datatype Episode = Episode(
    id: Text, key: ConditionKey, trigger: Transition, clear: Option<Transition>, openedAt: Time, closedAt: Time)
  datatype RuleConfig = RuleConfig(ruleID: Text, revision: int, triggerFor: nat, clearFor: nat)
  datatype Phase = Inactive | Triggering | Active | Clearing
  datatype Tracker = Tracker(
    phase: Phase, attempt: nat, startedAt: Time, effectiveAt: Time, evidenceAt: Time,
    reason: Text, episodeID: Text, sequence: nat)
  datatype Timer = Timer(key: ConditionKey, direction: Direction, dueAt: Time, attempt: nat)

  const FRESH_TRACKER := Tracker(Inactive, 0, 0, 0, 0, "", "", 0)

  /** Everything a reducer remembers. `journal` is its list of transitions. */
  datatype Machine = Machine(
    config: RuleConfig, states: map<ConditionKey, Tracker>, seen: set<Text>,
    episodes: map<Text, Episode>, journal: seq<Transition>, logical: Time)

  /** The state after one call and the transitions the call returned. */
  datatype Step = Step(machine: Machine, out: seq<Transition>)

  function Init(config: RuleConfig): Machine { Machine(config, map[], {}, map[], [], 0) }

  // ----- phases and timers -----

  function PhaseFor(d: Direction): Phase { if d == Clear then Clearing else Triggering }

  function DirectionFor(p: Phase): Direction { if p == Clearing then Clear else Trigger }

  function DurationFor(c: RuleConfig, d: Direction): nat { if d == Clear then c.clearFor else c.triggerFor }

  predicate Pending(s: Tracker) { s.phase == Triggering || s.phase == Clearing }

  function DueOf(c: RuleConfig, s: Tracker): Time { s.startedAt + DurationFor(c, DirectionFor(s.phase)) }

  function TimerOf(c: RuleConfig, k: ConditionKey, s: Tracker): Timer
  {
    Timer(k, DirectionFor(s.phase), DueOf(c, s), s.attempt)
  }

  // The timer whose firing a transition records.
  function TimerFired(t: Transition): Timer { Timer(t.key, t.direction, t.times.dueAt, t.attempt) }

  // ----- canonical order -----

  predicate LessKey(a: ConditionKey, b: ConditionKey)
  {
    if a.ruleID != b.ruleID then Less(a.ruleID, b.ruleID)
    else if a.revision != b.revision then a.revision < b.revision
    else if a.subject.kind != b.subject.kind then Less(a.subject.kind, b.subject.kind)
    else Less(a.subject.id, b.subject.id)
  }

  predicate LessTimer(a: Timer, b: Timer)
  {
    if a.dueAt != b.dueAt then a.dueAt < b.dueAt
    else if a.key != b.key then LessKey(a.key, b.key)
    else a.attempt < b.attempt
  }

  lemma LessKeyTotal(a: ConditionKey, b: ConditionKey)
    ensures !LessKey(a, a)
    ensures a == b || LessKey(a, b) || LessKey(b, a)
  {
    LessIrreflexive(a.subject.id);
    LessTotal(a.ruleID, b.ruleID);
    LessTotal(a.subject.kind, b.subject.kind);
    LessTotal(a.subject.id, b.subject.id);
  }

  lemma LessTextAsymmetric(a: Text, b: Text)
    requires Less(a, b)
    ensures a != b && !Less(b, a)
  {
    LessIrreflexive(a);
    if Less(b, a) { LessTransitive(a, b, a); }
  }

  lemma LessKeyTransitive(a: ConditionKey, b: ConditionKey, c: ConditionKey)
    requires LessKey(a, b) && LessKey(b, c)
    ensures LessKey(a, c)
  {
    if a.ruleID != b.ruleID { LessTextAsymmetric(a.ruleID, b.ruleID); }
    if a.ruleID != b.ruleID && b.ruleID != c.ruleID {
      LessTransitive(a.ruleID, b.ruleID, c.ruleID);
    }
    if a.subject.kind != b.subject.kind && Less(a.subject.kind, b.subject.kind) {
      LessTextAsymmetric(a.subject.kind, b.subject.kind);
      if Less(b.subject.kind, c.subject.kind) {
        LessTransitive(a.subject.kind, b.subject.kind, c.subject.kind);
      }
    }
    if Less(a.subject.id, b.subject.id) && Less(b.subject.id, c.subject.id) {
      LessTransitive(a.subject.id, b.subject.id, c.subject.id);
    }
  }

  // LessTimer is a strict total order on timers of distinct keys.
  lemma LessTimerTotal(a: Timer, b: Timer)
    ensures !LessTimer(a, a)
    ensures a.key != b.key ==> LessTimer(a, b) || LessTimer(b, a)
  {
    LessKeyTotal(a.key, b.key);
  }

  lemma LessTimerTransitive(a: Timer, b: Timer, c: Timer)
    requires LessTimer(a, b) && LessTimer(b, c)
    ensures LessTimer(a, c)
  {
    if a.key != b.key && b.key != c.key && LessKey(a.key, b.key) && LessKey(b.key, c.key) {
      LessKeyTransitive(a.key, b.key, c.key);
      LessKeyTotal(a.key, a.key);
    }
  }

  lemma LessTimerAsymmetric(a: Timer, b: Timer)
    requires LessTimer(a, b)
    ensures !LessTimer(b, a)
  {
    LessTimerTotal(a, b);
    if LessTimer(b, a) { LessTimerTransitive(a, b, a); }
  }

  /** The canonical order of keys: rule, revision, subject kind, subject, texts compared by bytes. */
  lemma LessKeyMeans(a: ConditionKey, b: ConditionKey)
    ensures LessKey(a, b) <==>
      || Precedes(a.ruleID, b.ruleID)
      || (a.ruleID == b.ruleID && a.revision < b.revision)
      || (a.ruleID == b.ruleID && a.revision == b.revision && Precedes(a.subject.kind, b.subject.kind))
      || (a.ruleID == b.ruleID && a.revision == b.revision && a.subject.kind == b.subject.kind
          && Precedes(a.subject.id, b.subject.id))
  {
    hide Precedes, Less;
    LessMeans(a.ruleID, b.ruleID);
    LessMeans(a.subject.kind, b.subject.kind);
    LessMeans(a.subject.id, b.subject.id);
    LessIrreflexive(a.ruleID);
    LessIrreflexive(a.subject.kind);
  }

  // ----- identifiers -----

  function DirectionName(d: Direction): Text { if d == Clear then "clear" else "trigger" }

  function TransitionParts(k: ConditionKey, d: Direction, n: nat): seq<Text>
  {
    [k.ruleID, DecimalInt(k.revision), k.subject.kind, k.subject.id, DirectionName(d), Decimal(n)]
  }

  function EpisodeParts(k: ConditionKey, n: nat): seq<Text>
  {
    [k.ruleID, DecimalInt(k.revision), k.subject.kind, k.subject.id, Decimal(n)]
  }

  function TransitionID(k: ConditionKey, d: Direction, n: nat): (id: Text)
    ensures id != []
  {
    StableID("condition-transition", CanonicalParts(TransitionParts(k, d, n)))
  }

  function EpisodeID(k: ConditionKey, n: nat): (id: Text)
    ensures id != []
  {
    StableID("condition-episode", CanonicalParts(EpisodeParts(k, n)))
  }

  lemma TransitionIDInjective(k: ConditionKey, d: Direction, n: nat, k': ConditionKey, d': Direction, n': nat)
    requires TransitionID(k, d, n) == TransitionID(k', d', n')
    ensures k == k' && d == d' && n == n'
  {
    var a, b := TransitionParts(k, d, n), TransitionParts(k', d', n');
    StableIDInjective("condition-transition", a, "condition-transition", b);
    assert a[1] == b[1] && a[4] == b[4] && a[5] == b[5];
    DecimalIntInjective(k.revision, k'.revision);
    DecimalInjective(n, n');
    assert DirectionName(d)[0] == DirectionName(d')[0];
    assert a[0] == b[0] && a[2] == b[2] && a[3] == b[3];
  }

  lemma EpisodeIDInjective(k: ConditionKey, n: nat, k': ConditionKey, n': nat)
    requires EpisodeID(k, n) == EpisodeID(k', n')
    ensures k == k' && n == n'
  {
    var a, b := EpisodeParts(k, n), EpisodeParts(k', n');
    StableIDInjective("condition-episode", a, "condition-episode", b);
    assert a[1] == b[1] && a[4] == b[4];
    DecimalIntInjective(k.revision, k'.revision);
    DecimalInjective(n, n');
    assert a[0] == b[0] && a[2] == b[2] && a[3] == b[3];
  }

  // ----- committing one transition -----

  function NewTransition(
    k: ConditionKey, s: Tracker, d: Direction, at: Time, due: Time, processing: Time,
    effectiveAt: Time, evidenceAt: Time, reason: Text): Transition
  {
    Transition(
      TransitionID(k, d, s.sequence + 1),
      if d == Trigger then EpisodeID(k, s.sequence + 1) else s.episodeID,
      k, d, at,
      Times(if effectiveAt == 0 then at else effectiveAt, due, processing,
            if evidenceAt == 0 then s.evidenceAt else evidenceAt),
      reason, s.attempt)
  }

  function CommittedTracker(s: Tracker, t: Transition): Tracker
  {
    s.(phase := if t.direction == Clear then Inactive else Active,
       sequence := s.sequence + 1,
       episodeID := if t.direction == Trigger then t.episodeID else "")
  }

  /** What one transition does to the episode table. */
  function RecordEpisode(es: map<Text, Episode>, t: Transition): map<Text, Episode>
  {
    if t.direction == Trigger then
      es[t.episodeID := Episode(t.episodeID, t.key, t, None, t.at, 0)]
    else if t.episodeID != "" && t.episodeID in es then
      es[t.episodeID := es[t.episodeID].(clear := Some(t), closedAt := t.at)]
    else es
  }

  function Commit(
    m: Machine, k: ConditionKey, d: Direction, at: Time, due: Time, processing: Time,
    effectiveAt: Time, evidenceAt: Time, reason: Text): Step
    requires k in m.states
  {
    var s := m.states[k];
    var t := NewTransition(k, s, d, at, due, processing, effectiveAt, evidenceAt, reason);
    Step(m.(states := m.states[k := CommittedTracker(s, t)],
            episodes := RecordEpisode(m.episodes, t),
            journal := m.journal + [t]),
         [t])
  }

  /** Firing the pending timer of `k` at logical time `now`. */
  function Expire(m: Machine, k: ConditionKey, now: Time): Step
    requires k in m.states
  {
    var s := m.states[k];
    var due := DueOf(m.config, s);
    Commit(m, k, DirectionFor(s.phase), due, due, now, s.effectiveAt, s.evidenceAt, s.reason)
  }

  // ----- advancing the clock -----

  predicate IsDue(m: Machine, k: ConditionKey, now: Time)
  {
    k in m.states && Pending(m.states[k]) && DueOf(m.config, m.states[k]) <= now
  }

  function DueKeys(m: Machine, now: Time): set<ConditionKey>
  {
    set k | k in m.states && IsDue(m, k, now)
  }

  function KeyTimer(m: Machine, k: ConditionKey): Timer
    requires k in m.states
  {
    TimerOf(m.config, k, m.states[k])
  }

  /** `k` holds the smallest timer among the keys of `due`. */
  ghost predicate IsLeast(m: Machine, due: set<ConditionKey>, k: ConditionKey)
  {
    && due <= m.states.Keys && k in due
    && forall j | j in due && j != k :: LessTimer(KeyTimer(m, k), KeyTimer(m, j))
  }

  lemma {:induction false} LeastExists(m: Machine, due: set<ConditionKey>)
    requires due <= m.states.Keys && due != {}
    ensures exists k :: IsLeast(m, due, k)
    decreases |due|
  {
    var k :| k in due;
    if due == {k} {
      assert IsLeast(m, due, k);
    } else {
      var rest := due - {k};
      assert due == rest + {k};
      LeastExists(m, rest);
      var l :| IsLeast(m, rest, l);
      LessTimerTotal(KeyTimer(m, k), KeyTimer(m, l));
      if LessTimer(KeyTimer(m, k), KeyTimer(m, l)) {
        forall j | j in due && j != k ensures LessTimer(KeyTimer(m, k), KeyTimer(m, j)) {
          if j != l { LessTimerTransitive(KeyTimer(m, k), KeyTimer(m, l), KeyTimer(m, j)); }
        }
        assert IsLeast(m, due, k);
      } else {
        assert IsLeast(m, due, l);
      }
    }
  }

  lemma LeastUnique(m: Machine, due: set<ConditionKey>, k: ConditionKey, l: ConditionKey)
    requires IsLeast(m, due, k) && IsLeast(m, due, l)
    ensures k == l
  {
    if k != l { LessTimerAsymmetric(KeyTimer(m, k), KeyTimer(m, l)); }
  }

  ghost function Least(m: Machine, due: set<ConditionKey>): (k: ConditionKey)
    requires due <= m.states.Keys && due != {}
    ensures IsLeast(m, due, k)
  {
    LeastExists(m, due);
    var k :| IsLeast(m, due, k);
    k
  }

  lemma ExpireShrinks(m: Machine, k: ConditionKey, now: Time, p: Time)
    requires IsDue(m, k, now)
    ensures DueKeys(Expire(m, k, p).machine, now) == DueKeys(m, now) - {k}
  {
  }

  /** Fire the smallest due timer until none is due. */
  ghost function Drain(m: Machine, now: Time): Step
    decreases |DueKeys(m, now)|
  {
    if DueKeys(m, now) == {} then Step(m, [])
    else
      var k := Least(m, DueKeys(m, now));
      ExpireShrinks(m, k, now, now);
      var first := Expire(m, k, now);
      var rest := Drain(first.machine, now);
      Step(rest.machine, first.out + rest.out)
  }

  function Max(a: nat, b: nat): nat { if a < b then b else a }

  function Tick(m: Machine, now: Time): Machine { m.(logical := Max(now, m.logical)) }

  ghost function AdvanceTo(m: Machine, now: Time): Step
  {
    if now == 0 then Step(m, []) else Drain(Tick(m, now), Max(now, m.logical))
  }

  // ----- a claimed timer callback -----

  predicate FireAccepted(m: Machine, timer: Timer, now: Time)
  {
    && now != 0
    && timer.key in m.states
    && var s := m.states[timer.key];
      && timer.dueAt <= Max(now, m.logical)
      && s.attempt == timer.attempt
      && s.phase == PhaseFor(timer.direction)
      && timer.dueAt == s.startedAt + DurationFor(m.config, timer.direction)
  }

  function FireAt(m: Machine, timer: Timer, now: Time): Step
  {
    if now == 0 then Step(m, [])
    else if FireAccepted(m, timer, now) then Expire(Tick(m, now), timer.key, Max(now, m.logical))
    else Step(Tick(m, now), [])
  }

  // ----- applying one observation -----

  function ProcessingTime(o: Observation): Time { if o.processingAt == 0 then o.effectiveAt else o.processingAt }

  predicate ForRule(c: RuleConfig, k: ConditionKey)
  {
    c.ruleID == "" || (k.ruleID == c.ruleID && k.revision == c.revision)
  }

  predicate Accepts(m: Machine, o: Observation)
  {
    && ForRule(m.config, o.key)
    && ProcessingTime(o) != 0
    && (o.observationID == "" || o.observationID !in m.seen)
  }

  function EffectiveTime(o: Observation): Time { if o.effectiveAt == 0 then ProcessingTime(o) else o.effectiveAt }

  // The instant the qualifying interval is taken to begin.
  function StartTime(o: Observation): Time
  {
    if o.trueSince != 0 && o.trueSince <= EffectiveTime(o) then o.trueSince else EffectiveTime(o)
  }

  function Admit(m: Machine, o: Observation): Machine
  {
    if o.observationID == "" then m else m.(seen := m.seen + {o.observationID})
  }

  function TrackerAt(m: Machine, k: ConditionKey): Tracker
  {
    if k in m.states then m.states[k] else FRESH_TRACKER
  }

  function Touched(s: Tracker, o: Observation): Tracker
  {
    s.(effectiveAt := EffectiveTime(o),
       evidenceAt := if o.evidenceAt == 0 then EffectiveTime(o) else o.evidenceAt,
       reason := o.reason)
  }

  predicate CanArm(s: Tracker, o: Observation)
  {
    o.result == True && s.phase == (if o.direction == Trigger then Inactive else Active)
  }

  predicate MustCancel(s: Tracker, o: Observation)
  {
    o.result != True && s.phase == PhaseFor(o.direction)
  }

  function Armed(s: Tracker, o: Observation): Tracker
  {
    s.(startedAt := StartTime(o), phase := PhaseFor(o.direction), attempt := s.attempt + 1)
  }

  function Cancelled(s: Tracker, d: Direction): Tracker
  {
    s.(phase := if d == Trigger then Inactive else Active, attempt := s.attempt + 1)
  }

  /** Arm the timer of `k`; qualify at once when it is already due. */
  function StartTimer(m: Machine, o: Observation): Step
    requires o.key in m.states
  {
    var armed := m.(states := m.states[o.key := Armed(m.states[o.key], o)]);
    var due := StartTime(o) + DurationFor(m.config, o.direction);
    if due <= m.logical
    then Commit(armed, o.key, o.direction, m.logical, due, m.logical, EffectiveTime(o), o.evidenceAt, o.reason)
    else Step(armed, [])
  }

  /** The evidence half of an application, after time has advanced. */
  function Absorb(m: Machine, o: Observation): Step
  {
    var s := TrackerAt(m, o.key);
    var m1 := m.(states := m.states[o.key := Touched(s, o)]);
    if CanArm(s, o) then StartTimer(m1, o)
    else if MustCancel(s, o)
    then Step(m.(states := m.states[o.key := Cancelled(Touched(s, o), o.direction)]), [])
    else Step(m1, [])
  }

  ghost function ApplyTo(m: Machine, o: Observation): Step
  {
    if !Accepts(m, o) then Step(m, [])
    else
      var advanced := AdvanceTo(Admit(m, o), ProcessingTime(o));
      var absorbed := Absorb(advanced.machine, o);
      Step(absorbed.machine, advanced.out + absorbed.out)
  }
}
