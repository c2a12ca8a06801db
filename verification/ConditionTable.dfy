/** What the condition machine does, in the fields of the observation, the tracker and the
    configuration: clocks, acceptance, and the table of phases. */
module ConditionTable {
  import opened Bytes
  import opened Conditions
  import opened ConditionHistory
  import opened ConditionRuns
  import opened ConditionTiming

  // ----- the clock -----

  /** Every call moves the clock forward to its own instant, and only there: an accepted observation
      to its processing time, or to its effective time when it carries none. */
  lemma ClockMoves(m: Machine, op: Op)
    ensures var now := match op
      case AdvanceOp(t) => t
      case FireOp(_, t) => t
      case ApplyOp(o) => if !Accepts(m, o) then 0 else if o.processingAt != 0 then o.processingAt else o.effectiveAt;
      Perform(m, op).machine.logical == if now > m.logical then now else m.logical
  {
    hide Drain, TransitionID, EpisodeID, RecordEpisode;
    match op
    case AdvanceOp(now) => if now != 0 { AdvanceFired(m, now); }
    case FireOp(t, at) =>
    case ApplyOp(o) =>
      if Accepts(m, o) {
        AdvancedTracker(m, o, o.key);
        AbsorbTracker(Advanced(m, o), o);
      }
  }

  // ----- which observations a run accepts -----

  /** Call `p` applied an observation of this identity, and it was accepted. */
  ghost predicate Took(c: RuleConfig, ops: seq<Op>, p: nat, id: Text)
  {
    p < |ops| && ops[p].ApplyOp? && ops[p].o.observationID == id && Accepts(After(c, ops, p), ops[p].o)
  }

  lemma SeenStep(m: Machine, op: Op)
    ensures Perform(m, op).machine.seen
         == if op.ApplyOp? && Accepts(m, op.o) && op.o.observationID != ""
            then m.seen + {op.o.observationID} else m.seen
  {
    hide Drain, TransitionID, EpisodeID, RecordEpisode;
    match op
    case AdvanceOp(now) => if now != 0 { AdvanceFired(m, now); }
    case FireOp(t, at) =>
    case ApplyOp(o) =>
      if Accepts(m, o) {
        AdvanceFired(Admit(m, o), ProcessingTime(o));
        AbsorbSeen(Advanced(m, o), o);
      }
  }

  lemma AbsorbSeen(m: Machine, o: Observation)
    ensures Absorb(m, o).machine.seen == m.seen
  {
    hide TransitionID, EpisodeID, RecordEpisode;
  }

  lemma {:induction false} SeenIs(c: RuleConfig, ops: seq<Op>, n: nat, id: Text)
    requires n <= |ops| && id != ""
    ensures id in After(c, ops, n).seen <==> exists p | 0 <= p < n :: Took(c, ops, p, id)
  {
    hide Perform, Accepts;
    if n > 0 {
      SeenIs(c, ops, n - 1, id);
      AfterNext(c, ops, n - 1);
      SeenStep(After(c, ops, n - 1), ops[n - 1]);
      if id in After(c, ops, n).seen && id !in After(c, ops, n - 1).seen { assert Took(c, ops, n - 1, id); }
      if Took(c, ops, n - 1, id) { assert id in After(c, ops, n).seen; }
    }
  }

  /** Of a run's calls exactly those are accepted whose key is of the rule, which carry an instant, and
      whose identity, if they have one, no earlier accepted call carried. */
  lemma AcceptedExactly(c: RuleConfig, ops: seq<Op>, n: nat)
    requires n < |ops| && ops[n].ApplyOp?
    ensures var o := ops[n].o;
      Accepts(After(c, ops, n), o) <==>
        && (c.ruleID == "" || (o.key.ruleID == c.ruleID && o.key.revision == c.revision))
        && (o.processingAt != 0 || o.effectiveAt != 0)
        && (o.observationID == "" || forall p | 0 <= p < n :: !Took(c, ops, p, o.observationID))
  {
    hide Perform, Took, Run;
    ConfigKept(c, ops[..n]);
    if ops[n].o.observationID != "" { SeenIs(c, ops, n, ops[n].o.observationID); }
  }

  // ----- the table of phases -----

  /** Time alone: a triggering key is active, and a clearing one inactive, once its own duration has
      passed since its start; no other key changes. */
  lemma TimePasses(m: Machine, now: Time, k: ConditionKey)
    requires now != 0 && k in m.states
    ensures var at := if now > m.logical then now else m.logical;
      var s, states := m.states[k], AdvanceTo(m, now).machine.states;
      k in states
      && if s.phase == Triggering && s.startedAt + m.config.triggerFor <= at then states[k].phase == Active
         else if s.phase == Clearing && s.startedAt + m.config.clearFor <= at then states[k].phase == Inactive
         else states[k] == s
  {
    AdvanceTracker(m, now, k);
  }

  /** The instant an accepted observation speaks of, and the start of the interval it claims. */
  function SpeaksOf(o: Observation): Time
  {
    if o.effectiveAt != 0 then o.effectiveAt else o.processingAt
  }

  function ClaimedStart(o: Observation): Time
  {
    if 0 < o.trueSince <= SpeaksOf(o) then o.trueSince else SpeaksOf(o)
  }

  function ClaimedDue(c: RuleConfig, o: Observation): Time
  {
    match o.direction
    case Trigger => ClaimedStart(o) + c.triggerFor
    case Clear => ClaimedStart(o) + c.clearFor
  }

  /** Evidence, on the machine that has advanced to its instant. A True trigger of an inactive key and a
      True clear of an active one start an interval, and commit at the clock when it has already
      lasted; anything else than True ends the interval of its own direction; nothing else moves. */
  lemma EvidenceDecides(m: Machine, o: Observation)
    requires Accepts(m, o)
    ensures var before := Advanced(m, o); var st := Absorb(before, o);
      var s, clock, due := TrackerAt(before, o.key), before.logical, ClaimedDue(m.config, o);
      && o.key in st.machine.states
      && var s' := st.machine.states[o.key];
         match (o.direction, s.phase)
         case (Trigger, Inactive) =>
           if o.result == True && due <= clock then s'.phase == Active && CommitsNow(st.out, o, due, clock)
           else if o.result == True then s'.phase == Triggering && s'.startedAt == ClaimedStart(o) && st.out == []
           else s'.phase == Inactive && st.out == []
         case (Clear, Active) =>
           if o.result == True && due <= clock then s'.phase == Inactive && CommitsNow(st.out, o, due, clock)
           else if o.result == True then s'.phase == Clearing && s'.startedAt == ClaimedStart(o) && st.out == []
           else s'.phase == Active && st.out == []
         case (Trigger, Triggering) =>
           st.out == [] && if o.result == True then s'.phase == Triggering && s'.startedAt == s.startedAt
                           else s'.phase == Inactive
         case (Clear, Clearing) =>
           st.out == [] && if o.result == True then s'.phase == Clearing && s'.startedAt == s.startedAt
                           else s'.phase == Active
         case _ => st.out == [] && s'.phase == s.phase && s'.startedAt == s.startedAt
  {
    hide AdvanceTo, TransitionID, EpisodeID, RecordEpisode;
    AdvancedTracker(m, o, o.key);
  }

  predicate CommitsNow(out: seq<Transition>, o: Observation, due: Time, clock: Time)
  {
    && |out| == 1 && out[0].key == o.key && out[0].direction == o.direction
    && out[0].at == clock && out[0].times.dueAt == due
  }

  // ----- a claimed timer callback -----

  /** A callback commits exactly for the timer its key has pending, once due at the clock it is given. */
  lemma FireExactly(m: Machine, timer: Timer, now: Time)
    ensures var clock := if now > m.logical then now else m.logical;
      FireAt(m, timer, now).out != [] <==> now != 0 && HasTimer(m, timer) && timer.dueAt <= clock
    ensures timer.key in m.states && HasTimer(m, timer) ==>
      var s := m.states[timer.key];
      match timer.direction
      case Trigger => s.phase == Triggering && timer.dueAt == s.startedAt + m.config.triggerFor
      case Clear => s.phase == Clearing && timer.dueAt == s.startedAt + m.config.clearFor
  {
    hide TransitionID, EpisodeID, RecordEpisode;
  }
}
