/** The reducer object: fields updated in place, each method proved against the machine functions. */
module ConditionReducer {
  import opened Wrappers
  import opened Bytes
  import opened Conditions

  // ----- the sorted timer list -----

  ghost predicate SortedTimers(ts: seq<Timer>)
  {
    forall i, j | 0 <= i < j < |ts| :: LessTimer(ts[i], ts[j])
  }

  // A library sort under a strict order, by insertion.
  method SortTimers(ts: seq<Timer>) returns (out: seq<Timer>)
    requires forall i, j | 0 <= i < j < |ts| :: ts[i].key != ts[j].key
    ensures SortedTimers(out)
    ensures forall t :: t in out <==> t in ts
  {
    out := [];
    for n := 0 to |ts|
      invariant SortedTimers(out)
      invariant forall t :: t in out <==> t in ts[..n]
    {
      out := InsertTimer(out, ts[n]);
      assert ts[..n + 1] == ts[..n] + [ts[n]];
    }
    assert ts[..|ts|] == ts;
  }

  method InsertTimer(ts: seq<Timer>, t: Timer) returns (out: seq<Timer>)
    requires SortedTimers(ts)
    requires forall u | u in ts :: u.key != t.key
    ensures SortedTimers(out)
    ensures forall u :: u in out <==> u == t || u in ts
  {
    var i := 0;
    while i < |ts| && LessTimer(ts[i], t)
      invariant i <= |ts|
      invariant forall j | 0 <= j < i :: LessTimer(ts[j], t)
    {
      i := i + 1;
    }
    forall j | i <= j < |ts| ensures LessTimer(t, ts[j]) {
      LessTimerTotal(t, ts[i]);
      if i < j { LessTimerTransitive(t, ts[i], ts[j]); }
    }
    out := ts[..i] + [t] + ts[i..];
  }

  class Reducer {
    const config: RuleConfig
    var states: map<ConditionKey, Tracker>
    var seenOccurrences: set<Text>
    var episodes: map<Text, Episode>
    var transitions: seq<Transition>
    var logical: Time

    function Machine(): Machine
      reads this
    {
      Conditions.Machine(config, states, seenOccurrences, episodes, transitions, logical)
    }

    constructor (config: RuleConfig)
      ensures Machine() == Init(config)
    {
      this.config := config;
      states, seenOccurrences, episodes, transitions, logical := map[], {}, map[], [], 0;
    }

    /** The pending timers, in canonical order. */
    method Timers() returns (ts: seq<Timer>)
      ensures SortedTimers(ts)
      ensures forall t :: t in ts <==>
          t.key in states && Pending(states[t.key]) && t == TimerOf(config, t.key, states[t.key])
    {
      ts := [];
      var rest := states.Keys;
      while rest != {}
        invariant rest <= states.Keys
        invariant forall i, j | 0 <= i < j < |ts| :: ts[i].key != ts[j].key
        invariant forall t :: t in ts <==>
          t.key in states.Keys - rest && Pending(states[t.key]) && t == TimerOf(config, t.key, states[t.key])
        decreases |rest|
      {
        var k :| k in rest;
        if Pending(states[k]) {
          ts := ts + [TimerOf(config, k, states[k])];
        }
        rest := rest - {k};
      }
      ts := SortTimers(ts);
    }

    /** Journal one transition and move its tracker. */
    method Commit(k: ConditionKey, d: Direction, at: Time, due: Time, processing: Time,
                  effectiveAt: Time, evidenceAt: Time, reason: Text) returns (out: seq<Transition>)
      requires k in states
      modifies this
      ensures Step(Machine(), out)
           == Conditions.Commit(old(Machine()), k, d, at, due, processing, effectiveAt, evidenceAt, reason)
    {
      var s := states[k];
      s := s.(phase := if d == Clear then Inactive else Active, sequence := s.sequence + 1);
      var id := TransitionID(k, d, s.sequence);
      var episodeID := s.episodeID;
      if d == Trigger {
        episodeID := EpisodeID(k, s.sequence);
      }
      var t := Transition(id, episodeID, k, d, at, Times(effectiveAt, due, processing, evidenceAt), reason, s.attempt);
      if effectiveAt == 0 { t := t.(times := t.times.(effectiveAt := at)); }
      if evidenceAt == 0 { t := t.(times := t.times.(evidenceAt := s.evidenceAt)); }
      if d == Trigger {
        s := s.(episodeID := episodeID);
        episodes := episodes[episodeID := Episode(episodeID, k, t, None, at, 0)];
      } else {
        if episodeID != "" {
          if episodeID in episodes {
            episodes := episodes[episodeID := episodes[episodeID].(clear := Some(t), closedAt := at)];
          }
        }
        s := s.(episodeID := "");
      }
      states := states[k := s];
      transitions := transitions + [t];
      out := [t];
    }

    /** Fire every timer due through `now`, smallest first. */
    method Advance(now: Time) returns (out: seq<Transition>)
      modifies this
      ensures Step(Machine(), out) == AdvanceTo(old(Machine()), now)
    {
      hide Conditions.Commit, Drain, IsDue, Least;
      out := [];
      if now == 0 { return; }
      var at := now;
      if at < logical { at := logical; }
      logical := at;
      ghost var start := Machine();
      var more := true;
      while more
        invariant logical == at
        invariant Drain(start, at) == Step(Drain(Machine(), at).machine, out + Drain(Machine(), at).out)
        invariant !more ==> DueKeys(Machine(), at) == {}
        decreases |DueKeys(Machine(), at)|, more
      {
        var timers := Timers();
        ghost var m := Machine();
        if timers == [] || at < timers[0].dueAt {
          NoneDue(m, timers, at);
          more := false;
        } else {
          var chosen := timers[0];
          FirstIsLeast(m, timers, at);
          DrainUnfold(start, m, out, chosen.key, at);
          var s := states[chosen.key];
          var first := Commit(chosen.key, chosen.direction, chosen.dueAt, chosen.dueAt, at,
                              s.effectiveAt, s.evidenceAt, s.reason);
          assert Step(Machine(), first) == Expire(m, chosen.key, at);
          ExpireKeepsClock(m, chosen.key, at);
          out := out + first;
        }
      }
      DrainDone(Machine(), at);
      assert out + [] == out;
    }

    /** Apply one claimed timer callback. */
    method Fire(timer: Timer, now: Time) returns (out: seq<Transition>)
      modifies this
      ensures Step(Machine(), out) == FireAt(old(Machine()), timer, now)
    {
      hide Conditions.Commit;
      out := [];
      if now == 0 { return; }
      if now >= logical { logical := now; }
      if timer.key !in states { return; }
      var s := states[timer.key];
      if logical < timer.dueAt || s.attempt != timer.attempt || s.phase != PhaseFor(timer.direction) {
        return;
      }
      var canonicalDue := s.startedAt + DurationFor(config, timer.direction);
      if timer.dueAt != canonicalDue { return; }
      out := Commit(timer.key, timer.direction, timer.dueAt, timer.dueAt, logical,
                    s.effectiveAt, s.evidenceAt, s.reason);
    }

    method Start(o: Observation) returns (out: seq<Transition>)
      requires o.key in states
      modifies this
      ensures Step(Machine(), out) == StartTimer(old(Machine()), o)
    {
      hide Conditions.Commit;
      var start := EffectiveTime(o);
      if o.trueSince != 0 && o.trueSince <= start { start := o.trueSince; }
      var s := states[o.key];
      states := states[o.key := s.(startedAt := start, phase := PhaseFor(o.direction), attempt := s.attempt + 1)];
      var due := start + DurationFor(config, o.direction);
      out := [];
      if due <= logical {
        var commitAt := due;
        if commitAt < logical { commitAt := logical; }
        out := Commit(o.key, o.direction, commitAt, due, logical, EffectiveTime(o), o.evidenceAt, o.reason);
      }
    }

    /** Apply one evaluated observation: advance first, then arm or cancel. */
    method Apply(o: Observation) returns (out: seq<Transition>)
      modifies this
      ensures Step(Machine(), out) == ApplyTo(old(Machine()), o)
    {
      out := [];
      if config.ruleID != "" && (o.key.ruleID != config.ruleID || o.key.revision != config.revision) { return; }
      var processing := o.processingAt;
      if processing == 0 { processing := o.effectiveAt; }
      if processing == 0 { return; }
      if o.observationID != "" {
        if o.observationID in seenOccurrences { return; }
        seenOccurrences := seenOccurrences + {o.observationID};
      }
      out := Advance(processing);
      var more := Absorb(o, processing);
      out := out + more;
    }

    /** The evidence half of `Apply`. */
    method Absorb(o: Observation, processing: Time) returns (out: seq<Transition>)
      requires processing == ProcessingTime(o)
      modifies this
      ensures Step(Machine(), out) == Conditions.Absorb(old(Machine()), o)
    {
      out := [];
      if o.key !in states { states := states[o.key := FRESH_TRACKER]; }
      var s := states[o.key];
      var effectiveAt := o.effectiveAt;
      if effectiveAt == 0 { effectiveAt := processing; }
      s := s.(effectiveAt := effectiveAt, evidenceAt := o.evidenceAt, reason := o.reason);
      if s.evidenceAt == 0 { s := s.(evidenceAt := effectiveAt); }
      states := states[o.key := s];
      assert states == old(states)[o.key := Touched(TrackerAt(old(Machine()), o.key), o)];
      if o.direction == Trigger {
        if o.result == True && s.phase == Inactive {
          out := Start(o);
        } else if o.result != True && s.phase == Triggering {
          states := states[o.key := s.(phase := Inactive, attempt := s.attempt + 1)];
          assert states == old(states)[o.key := Cancelled(s, Trigger)];
        }
      } else {
        if o.result == True && s.phase == Active {
          out := Start(o);
        } else if o.result != True && s.phase == Clearing {
          states := states[o.key := s.(phase := Active, attempt := s.attempt + 1)];
          assert states == old(states)[o.key := Cancelled(s, Clear)];
        }
      }
    }
  }

  lemma NoneDue(m: Machine, timers: seq<Timer>, now: Time)
    requires SortedTimers(timers) && (timers == [] || now < timers[0].dueAt)
    requires forall t :: t in timers <==> t.key in m.states && Pending(m.states[t.key]) && t == KeyTimer(m, t.key)
    ensures DueKeys(m, now) == {}
  {
    forall k | k in m.states && Pending(m.states[k]) ensures now < KeyTimer(m, k).dueAt {
      assert KeyTimer(m, k) in timers;
      var i :| 0 <= i < |timers| && timers[i] == KeyTimer(m, k);
      assert i > 0 ==> LessTimer(timers[0], timers[i]);
    }
  }

  lemma ExpireKeepsClock(m: Machine, k: ConditionKey, now: Time)
    requires k in m.states
    ensures Expire(m, k, now).machine.logical == m.logical
  {
  }

  lemma DrainDone(m: Machine, now: Time)
    requires DueKeys(m, now) == {}
    ensures Drain(m, now) == Step(m, [])
  {
  }

  // One iteration of the loop is one unfolding of `Drain`.
  lemma DrainUnfold(start: Machine, m: Machine, out: seq<Transition>, k: ConditionKey, now: Time)
    requires Drain(start, now) == Step(Drain(m, now).machine, out + Drain(m, now).out)
    requires DueKeys(m, now) != {} && k == Least(m, DueKeys(m, now))
    ensures var first := Expire(m, k, now);
      && Drain(start, now)
         == Step(Drain(first.machine, now).machine, (out + first.out) + Drain(first.machine, now).out)
      && |DueKeys(first.machine, now)| < |DueKeys(m, now)|
  {
    hide Conditions.Commit, Least;
    ExpireShrinks(m, k, now, now);
    var first := Expire(m, k, now);
    assert out + (first.out + Drain(first.machine, now).out) == (out + first.out) + Drain(first.machine, now).out;
  }

  // The head of a sorted timer list is the least due key.
  lemma FirstIsLeast(m: Machine, timers: seq<Timer>, now: Time)
    requires SortedTimers(timers) && timers != [] && timers[0].dueAt <= now
    requires forall t :: t in timers <==> t.key in m.states && Pending(m.states[t.key]) && t == KeyTimer(m, t.key)
    ensures IsDue(m, timers[0].key, now) && KeyTimer(m, timers[0].key) == timers[0]
    ensures DueKeys(m, now) != {} && timers[0].key == Least(m, DueKeys(m, now))
  {
    var due, k := DueKeys(m, now), timers[0].key;
    assert timers[0] in timers;
    assert k in due;
    forall j | j in due && j != k ensures LessTimer(KeyTimer(m, k), KeyTimer(m, j)) {
      assert KeyTimer(m, j) in timers;
      var i :| 0 <= i < |timers| && timers[i] == KeyTimer(m, j);
    }
    assert IsLeast(m, due, k);
    LeastUnique(m, due, k, Least(m, due));
  }
}
