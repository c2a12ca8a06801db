/** Whose evidence a transition reports: the latest accepted observation of its key. */
module ConditionEvidence {
  import opened Conditions
  import opened ConditionRuns

  function EvidenceTime(o: Observation): Time { if o.evidenceAt == 0 then EffectiveTime(o) else o.evidenceAt }

  /** The tracker shows the times and reason of the observation. */
  predicate Stamped(s: Tracker, o: Observation)
  {
    s.effectiveAt == EffectiveTime(o) != 0 && s.evidenceAt == EvidenceTime(o) && s.reason == o.reason
  }

  /** The transition reports the times and reason of the observation. */
  predicate Carries(t: Transition, o: Observation)
  {
    t.times.effectiveAt == EffectiveTime(o) && t.times.evidenceAt == EvidenceTime(o) && t.reason == o.reason
  }

  predicate SameStamp(s: Tracker, s': Tracker)
  {
    s'.effectiveAt == s.effectiveAt && s'.evidenceAt == s.evidenceAt && s'.reason == s.reason
  }

  // The transition reports what its tracker showed.
  predicate Reports(s: Tracker, t: Transition)
  {
    && t.reason == s.reason && t.times.evidenceAt == s.evidenceAt
    && (s.effectiveAt != 0 ==> t.times.effectiveAt == s.effectiveAt)
  }

  ghost predicate KeepsStamps(m: Machine, m': Machine)
  {
    m'.states.Keys == m.states.Keys && forall k | k in m.states :: SameStamp(m.states[k], m'.states[k])
  }

  ghost predicate AllReport(m: Machine, out: seq<Transition>)
  {
    forall i | 0 <= i < |out| :: out[i].key in m.states && Reports(m.states[out[i].key], out[i])
  }

  lemma ExpireStamps(m: Machine, k: ConditionKey, now: Time)
    requires k in m.states
    ensures KeepsStamps(m, Expire(m, k, now).machine) && AllReport(m, Expire(m, k, now).out)
  {
    hide TransitionID, EpisodeID, RecordEpisode;
  }

  lemma {:induction false} DrainStamps(m: Machine, now: Time)
    ensures KeepsStamps(m, Drain(m, now).machine) && AllReport(m, Drain(m, now).out)
    decreases |DueKeys(m, now)|
  {
    hide Expire;
    if DueKeys(m, now) == {} {
    } else {
      var k := Least(m, DueKeys(m, now));
      ExpireShrinks(m, k, now, now);
      ExpireStamps(m, k, now);
      DrainStamps(Expire(m, k, now).machine, now);
    }
  }

  lemma AdvanceStamps(m: Machine, now: Time)
    ensures KeepsStamps(m, AdvanceTo(m, now).machine) && AllReport(m, AdvanceTo(m, now).out)
  {
    hide Drain;
    if now != 0 { DrainStamps(Tick(m, now), Max(now, m.logical)); }
  }

  lemma FireStamps(m: Machine, timer: Timer, at: Time)
    ensures KeepsStamps(m, FireAt(m, timer, at).machine) && AllReport(m, FireAt(m, timer, at).out)
  {
    hide Expire;
    if FireAccepted(m, timer, at) { ExpireStamps(Tick(m, at), timer.key, Max(at, m.logical)); }
  }

  lemma AbsorbStamps(m: Machine, o: Observation)
    requires ProcessingTime(o) != 0
    ensures var st := Absorb(m, o);
      && st.machine.states.Keys == m.states.Keys + {o.key} && Stamped(st.machine.states[o.key], o)
      && (forall k | k in m.states && k != o.key :: st.machine.states[k] == m.states[k])
      && forall i | 0 <= i < |st.out| :: st.out[i].key == o.key && Carries(st.out[i], o)
  {
    hide TransitionID, EpisodeID, RecordEpisode;
  }

  // ----- over whole runs -----

  /** Call `i` of the run is an accepted observation of `k`. */
  ghost predicate Observes(c: RuleConfig, ops: seq<Op>, i: nat, k: ConditionKey)
  {
    i < |ops| && ops[i].ApplyOp? && ops[i].o.key == k && Accepts(After(c, ops, i), ops[i].o)
  }

  /** Call `a` is the latest accepted observation of `k` before call `n`. */
  ghost predicate LatestBefore(c: RuleConfig, ops: seq<Op>, a: nat, n: nat, k: ConditionKey)
  {
    a < n && Observes(c, ops, a, k) && forall l: nat | a < l < n :: !Observes(c, ops, l, k)
  }

  lemma ObservesPrefix(c: RuleConfig, ops: seq<Op>, n: nat, i: nat, k: ConditionKey)
    requires i < n <= |ops|
    ensures Observes(c, ops[..n], i, k) <==> Observes(c, ops, i, k)
  {
    hide Accepts, After;
    AfterPrefix(c, ops, n, i);
  }

  lemma LatestPrefix(c: RuleConfig, ops: seq<Op>, n: nat, a: nat, k: ConditionKey)
    requires n <= |ops| && LatestBefore(c, ops[..n], a, n, k)
    ensures LatestBefore(c, ops, a, n, k)
  {
    hide Observes;
    forall l: nat | a <= l < n ensures Observes(c, ops[..n], l, k) <==> Observes(c, ops, l, k) {
      ObservesPrefix(c, ops, n, l, k);
    }
  }

  // What one call does to the stamp of one tracker.
  lemma PerformStamps(m: Machine, op: Op, k: ConditionKey)
    requires k in Perform(m, op).machine.states
    ensures var s' := Perform(m, op).machine.states[k];
      if op.ApplyOp? && op.o.key == k && Accepts(m, op.o) then Stamped(s', op.o)
      else k in m.states && SameStamp(m.states[k], s')
  {
    hide AdvanceTo, Absorb, FireAt;
    match op
    case AdvanceOp(now) => AdvanceStamps(m, now);
    case FireOp(timer, at) => FireStamps(m, timer, at);
    case ApplyOp(o) =>
      if Accepts(m, o) {
        AdvanceStamps(Admit(m, o), ProcessingTime(o));
        AbsorbStamps(Advanced(m, o), o);
      }
  }

  lemma {:induction false} TrackerStamped(c: RuleConfig, ops: seq<Op>, k: ConditionKey)
    requires k in Run(Init(c), ops).machine.states
    ensures exists a: nat :: LatestBefore(c, ops, a, |ops|, k) && Stamped(Run(Init(c), ops).machine.states[k], ops[a].o)
  {
    hide Perform, Stamped, Accepts;
    if ops == [] {
    } else {
      var n := |ops| - 1;
      var m := After(c, ops, n);
      PerformStamps(m, ops[n], k);
      if Observes(c, ops, n, k) {
        assert LatestBefore(c, ops, n, |ops|, k);
      } else {
        TrackerStamped(c, ops[..n], k);
        var a: nat :| LatestBefore(c, ops[..n], a, n, k) && Stamped(m.states[k], ops[..n][a].o);
        LatestPrefix(c, ops, n, a, k);
        StampedSame(m.states[k], Run(Init(c), ops).machine.states[k], ops[a].o);
        assert LatestBefore(c, ops, a, |ops|, k);
      }
    }
  }

  lemma StampedSame(s: Tracker, s': Tracker, o: Observation)
    requires Stamped(s, o) && SameStamp(s, s')
    ensures Stamped(s', o)
  {
  }

  // A transition a call emits reports the tracker before it, or the call's own observation.
  lemma EmissionReports(m: Machine, op: Op, i: nat)
    requires i < |Perform(m, op).out|
    ensures var t := Perform(m, op).out[i];
      || (t.key in m.states && Reports(m.states[t.key], t))
      || (op.ApplyOp? && op.o.key == t.key && Accepts(m, op.o) && Carries(t, op.o))
  {
    hide AdvanceTo, Absorb, FireAt;
    match op
    case AdvanceOp(now) => AdvanceStamps(m, now);
    case FireOp(timer, at) => FireStamps(m, timer, at);
    case ApplyOp(o) =>
      AdvanceStamps(Admit(m, o), ProcessingTime(o));
      AbsorbStamps(Advanced(m, o), o);
  }

  /** Every transition of a run reports the times and the reason of one observation: its key's latest
      accepted one before the call that emits it, or the one that very call applies. */
  lemma TransitionsCarryEvidence(c: RuleConfig, ops: seq<Op>, n: nat, i: nat)
    requires n < |ops| && i < |Perform(After(c, ops, n), ops[n]).out|
    ensures var t := Perform(After(c, ops, n), ops[n]).out[i];
      || (exists a: nat :: LatestBefore(c, ops, a, n, t.key) && Carries(t, ops[a].o))
      || (Observes(c, ops, n, t.key) && Carries(t, ops[n].o))
  {
    hide Perform, Accepts;
    var m, t := After(c, ops, n), Perform(After(c, ops, n), ops[n]).out[i];
    EmissionReports(m, ops[n], i);
    if t.key in m.states && Reports(m.states[t.key], t) {
      TrackerStamped(c, ops[..n], t.key);
      var a: nat :| LatestBefore(c, ops[..n], a, n, t.key) && Stamped(m.states[t.key], ops[..n][a].o);
      LatestPrefix(c, ops, n, a, t.key);
      assert Carries(t, ops[a].o);
    }
  }
}
