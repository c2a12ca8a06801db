/** What every call keeps: per-key histories, the episode table, and the order of a drain. */
module ConditionHistory {
  import opened Wrappers
  import opened Bytes
  import opened Conditions

  // ----- the part of a journal that belongs to one key -----

  function History(js: seq<Transition>, k: ConditionKey): seq<Transition>
  {
    if js == [] then []
    else
      var h := History(js[..|js| - 1], k);
      if js[|js| - 1].key == k then h + [js[|js| - 1]] else h
  }

  lemma HistoryPush(js: seq<Transition>, t: Transition, k: ConditionKey)
    ensures History(js + [t], k) == if t.key == k then History(js, k) + [t] else History(js, k)
  {
    assert (js + [t])[..|js|] == js;
  }

  lemma {:induction false} HistoryAppend(js: seq<Transition>, more: seq<Transition>, k: ConditionKey)
    ensures History(js + more, k) == History(js, k) + History(more, k)
  {
    if more == [] {
      assert js + more == js;
    } else {
      var front, t := more[..|more| - 1], more[|more| - 1];
      HistoryAppend(js, front, k);
      HistoryPush(js + front, t, k);
      assert js + more == (js + front) + [t];
    }
  }

  // ----- what a key's history looks like -----

  // Recursive, so that parity needs no arithmetic.
  predicate Odd(n: nat) { n > 0 && !Odd(n - 1) }

  function DirectionAt(i: nat): Direction { if Odd(i) then Clear else Trigger }

  // The ordinal of the trigger that opened the episode of entry `i`, counted from 1.
  function OpenerOf(i: nat): (n: nat)
    ensures n >= 1 && Odd(n) && !Odd(n - 1) && i <= n <= i + 1
  {
    if Odd(i) then i else i + 1
  }

  predicate EntryOK(t: Transition, k: ConditionKey, i: nat)
  {
    && t.key == k
    && t.direction == DirectionAt(i)
    && t.id == TransitionID(k, DirectionAt(i), i + 1)
    && t.episodeID == EpisodeID(k, OpenerOf(i))
    && t.times.dueAt <= t.at
  }

  /** Commits alternate from Trigger; a clear carries its trigger's episode; times do not
      decrease and every attempt commits at most once. */
  ghost predicate Chronicle(h: seq<Transition>, k: ConditionKey)
  {
    && (forall i | 0 <= i < |h| :: EntryOK(h[i], k, i))
    && (forall i, j | 0 <= i < j < |h| :: h[i].at <= h[j].at && h[i].attempt < h[j].attempt)
  }

  predicate IsOpen(s: Tracker) { s.phase == Active || s.phase == Clearing }

  predicate TrackerOK(c: RuleConfig, logical: Time, s: Tracker, h: seq<Transition>, k: ConditionKey)
  {
    && s.sequence == |h|
    && s.episodeID == (if Odd(|h|) then EpisodeID(k, |h|) else "")
    && (IsOpen(s) <==> Odd(|h|))
    && (h != [] ==>
        var last := h[|h| - 1];
        && last.at <= logical
        && last.attempt <= s.attempt
        && (Pending(s) ==> last.attempt < s.attempt && last.at < DueOf(c, s)))
  }

  ghost predicate KeyOK(m: Machine, k: ConditionKey)
  {
    var h := History(m.journal, k);
    && Chronicle(h, k)
    && (k !in m.states ==> h == [])
    && (k in m.states ==> TrackerOK(m.config, m.logical, m.states[k], h, k))
  }

  /** The episode table a journal implies. */
  function EpisodesOf(js: seq<Transition>): map<Text, Episode>
  {
    if js == [] then map[] else RecordEpisode(EpisodesOf(js[..|js| - 1]), js[|js| - 1])
  }

  ghost predicate Inv(m: Machine)
  {
    && (forall k :: KeyOK(m, k))
    && m.episodes == EpisodesOf(m.journal)
  }

  // ----- every call keeps the invariant -----

  lemma InvInit(c: RuleConfig)
    ensures Inv(Init(c))
  {
  }

  lemma InvTick(m: Machine, now: Time)
    requires Inv(m)
    ensures Inv(Tick(m, now))
  {
    forall k ensures KeyOK(Tick(m, now), k) { assert KeyOK(m, k); }
  }

  lemma InvAdmit(m: Machine, o: Observation)
    requires Inv(m)
    ensures Inv(Admit(m, o))
  {
    forall k ensures KeyOK(Admit(m, o), k) { assert KeyOK(m, k); }
  }

  lemma InvTracker(m: Machine, k: ConditionKey, s: Tracker)
    requires Inv(m) && TrackerOK(m.config, m.logical, s, History(m.journal, k), k)
    ensures Inv(m.(states := m.states[k := s]))
  {
    var m' := m.(states := m.states[k := s]);
    forall j ensures KeyOK(m', j) { assert KeyOK(m, j); }
  }

  // Key `k` may commit `d` at `at`, whatever phase its tracker is in.
  ghost predicate Ready(m: Machine, k: ConditionKey, d: Direction, at: Time, due: Time)
  {
    && k in m.states
    && var h, s := History(m.journal, k), m.states[k];
      && Chronicle(h, k)
      && s.sequence == |h| && d == DirectionAt(|h|)
      && (d == Clear ==> s.episodeID == EpisodeID(k, |h|))
      && due <= at <= m.logical
      && (h != [] ==> h[|h| - 1].at <= at && h[|h| - 1].attempt < s.attempt)
  }

  lemma ChroniclePush(h: seq<Transition>, k: ConditionKey, t: Transition)
    requires Chronicle(h, k) && EntryOK(t, k, |h|)
    requires h != [] ==> h[|h| - 1].at <= t.at && h[|h| - 1].attempt < t.attempt
    ensures Chronicle(h + [t], k)
  {
    var h' := h + [t];
    forall i, j | 0 <= i < j < |h'| ensures h'[i].at <= h'[j].at && h'[i].attempt < h'[j].attempt {
      if j == |h| {
        assert i < |h| - 1 ==> h[i].at <= h[|h| - 1].at && h[i].attempt < h[|h| - 1].attempt;
      } else {
        assert h'[i] == h[i] && h'[j] == h[j];
      }
    }
    forall i | 0 <= i < |h'| ensures EntryOK(h'[i], k, i) {
      assert i < |h| ==> EntryOK(h[i], k, i);
    }
  }

  lemma NewEntryOK(k: ConditionKey, s: Tracker, d: Direction, at: Time, due: Time, processing: Time,
                   effectiveAt: Time, evidenceAt: Time, reason: Text)
    requires d == DirectionAt(s.sequence) && due <= at
    requires d == Clear ==> s.episodeID == EpisodeID(k, s.sequence)
    ensures EntryOK(NewTransition(k, s, d, at, due, processing, effectiveAt, evidenceAt, reason), k, s.sequence)
  {
  }

  lemma CommittedOK(c: RuleConfig, logical: Time, s: Tracker, h: seq<Transition>, k: ConditionKey, t: Transition)
    requires s.sequence == |h| && EntryOK(t, k, |h|) && t.at <= logical && t.attempt == s.attempt
    ensures TrackerOK(c, logical, CommittedTracker(s, t), h + [t], k)
  {
  }

  lemma InvCommit(m: Machine, k: ConditionKey, d: Direction, at: Time, due: Time, processing: Time,
                  effectiveAt: Time, evidenceAt: Time, reason: Text)
    requires forall j | j != k :: KeyOK(m, j)
    requires Ready(m, k, d, at, due) && m.episodes == EpisodesOf(m.journal)
    ensures Inv(Commit(m, k, d, at, due, processing, effectiveAt, evidenceAt, reason).machine)
  {
    var s, h := m.states[k], History(m.journal, k);
    var t := NewTransition(k, s, d, at, due, processing, effectiveAt, evidenceAt, reason);
    NewEntryOK(k, s, d, at, due, processing, effectiveAt, evidenceAt, reason);
    ChroniclePush(h, k, t);
    CommittedOK(m.config, m.logical, s, h, k, t);
    var m' := Commit(m, k, d, at, due, processing, effectiveAt, evidenceAt, reason).machine;
    InvPush(m, m', k, t);
  }

  // One entry for `k` was appended and only `k` changed.
  lemma InvPush(m: Machine, m': Machine, k: ConditionKey, t: Transition)
    requires forall j | j != k :: KeyOK(m, j)
    requires m.episodes == EpisodesOf(m.journal)
    requires m'.config == m.config && m'.logical == m.logical && t.key == k
    requires m'.journal == m.journal + [t] && m'.episodes == RecordEpisode(m.episodes, t)
    requires k in m.states && k in m'.states && m'.states == m.states[k := m'.states[k]]
    requires Chronicle(History(m.journal, k) + [t], k)
    requires TrackerOK(m.config, m.logical, m'.states[k], History(m.journal, k) + [t], k)
    ensures Inv(m')
  {
    assert m'.journal[..|m.journal|] == m.journal;
    forall j ensures KeyOK(m', j) {
      HistoryPush(m.journal, t, j);
      if j != k { assert KeyOK(m, j); }
    }
  }

  lemma PendingReady(m: Machine, k: ConditionKey, now: Time)
    requires KeyOK(m, k) && IsDue(m, k, now) && now <= m.logical
    ensures Ready(m, k, DirectionFor(m.states[k].phase), DueOf(m.config, m.states[k]), DueOf(m.config, m.states[k]))
  {
  }

  lemma InvExpire(m: Machine, k: ConditionKey, now: Time)
    requires Inv(m) && IsDue(m, k, now) && now <= m.logical
    ensures Inv(Expire(m, k, now).machine)
  {
    var s := m.states[k];
    assert KeyOK(m, k);
    PendingReady(m, k, now);
    InvCommit(m, k, DirectionFor(s.phase), DueOf(m.config, s), DueOf(m.config, s), now, s.effectiveAt, s.evidenceAt,
      s.reason);
  }

  lemma {:induction false} InvDrain(m: Machine, now: Time)
    requires Inv(m) && now <= m.logical
    ensures Inv(Drain(m, now).machine)
    decreases |DueKeys(m, now)|
  {
    if DueKeys(m, now) == {} {
    } else {
      var k := Least(m, DueKeys(m, now));
      ExpireShrinks(m, k, now, now);
      InvExpire(m, k, now);
      InvDrain(Expire(m, k, now).machine, now);
    }
  }

  lemma InvAdvance(m: Machine, now: Time)
    requires Inv(m)
    ensures Inv(AdvanceTo(m, now).machine)
  {
    InvTick(m, now);
    InvDrain(Tick(m, now), Max(now, m.logical));
  }

  lemma InvFire(m: Machine, timer: Timer, now: Time)
    requires Inv(m)
    ensures Inv(FireAt(m, timer, now).machine)
  {
    InvTick(m, now);
    if FireAccepted(m, timer, now) {
      InvExpire(Tick(m, now), timer.key, Max(now, m.logical));
    }
  }

  lemma ArmedReady(m: Machine, o: Observation, armed: Machine, at: Time, due: Time)
    requires KeyOK(m, o.key) && o.key in m.states && CanArm(m.states[o.key], o)
    requires armed == m.(states := m.states[o.key := Armed(m.states[o.key], o)])
    requires due <= at == m.logical
    ensures Ready(armed, o.key, o.direction, at, due)
  {
  }

  lemma InvStart(m: Machine, o: Observation)
    requires Inv(m) && o.key in m.states && CanArm(m.states[o.key], o)
    ensures Inv(StartTimer(m, o).machine)
  {
    hide Commit;
    var k, s := o.key, Armed(m.states[o.key], o);
    var due := StartTime(o) + DurationFor(m.config, o.direction);
    assert KeyOK(m, k);
    if due <= m.logical {
      InvQualify(m, o, m.(states := m.states[k := s]), due);
    } else {
      InvTracker(m, k, s);
    }
  }

  // An observation whose interval is already long enough arms and commits at once.
  lemma InvQualify(m: Machine, o: Observation, armed: Machine, due: Time)
    requires Inv(m) && o.key in m.states && CanArm(m.states[o.key], o)
    requires armed == m.(states := m.states[o.key := Armed(m.states[o.key], o)])
    requires due <= m.logical
    ensures Inv(Commit(armed, o.key, o.direction, m.logical, due, m.logical, EffectiveTime(o), o.evidenceAt,
        o.reason).machine)
  {
    assert KeyOK(m, o.key);
    ArmedReady(m, o, armed, m.logical, due);
    forall j | j != o.key ensures KeyOK(armed, j) { assert KeyOK(m, j); }
    InvCommit(armed, o.key, o.direction, m.logical, due, m.logical, EffectiveTime(o), o.evidenceAt, o.reason);
  }

  lemma InvAbsorb(m: Machine, o: Observation)
    requires Inv(m)
    ensures Inv(Absorb(m, o).machine)
  {
    hide Commit;
    var k, s := o.key, TrackerAt(m, o.key);
    assert KeyOK(m, k);
    InvTracker(m, k, Touched(s, o));
    if CanArm(s, o) {
      InvStart(m.(states := m.states[k := Touched(s, o)]), o);
    } else if MustCancel(s, o) {
      InvTracker(m, k, Cancelled(Touched(s, o), o.direction));
    }
  }

  lemma InvApply(m: Machine, o: Observation)
    requires Inv(m)
    ensures Inv(ApplyTo(m, o).machine)
  {
    if Accepts(m, o) {
      InvAdmit(m, o);
      InvAdvance(Admit(m, o), ProcessingTime(o));
      InvAbsorb(AdvanceTo(Admit(m, o), ProcessingTime(o)).machine, o);
    }
  }

  // ----- the episode table -----

  function EpisodeFor(id: Text, h: seq<Transition>, k: ConditionKey, i: nat): Episode
    requires i < |h|
  {
    Episode(id, k, h[i],
            if i + 1 < |h| then Some(h[i + 1]) else None, h[i].at,
            if i + 1 < |h| then h[i + 1].at else 0)
  }

  // Row `id` is the episode that entry `i` of the history opened.
  ghost predicate Recorded(es: map<Text, Episode>, id: Text, h: seq<Transition>, k: ConditionKey, i: nat)
  {
    i < |h| && !Odd(i) && id in es && es[id] == EpisodeFor(id, h, k, i)
  }

  // Row `id` was opened by some trigger of its own key.
  ghost predicate RowOK(es: map<Text, Episode>, js: seq<Transition>, id: Text)
  {
    && id in es
    && exists i: nat :: Recorded(es, id, History(js, es[id].key), es[id].key, i) && id == EpisodeID(es[id].key, i + 1)
  }

  // Every trigger of `k` opened its own row, closed by the next entry if there is one.
  ghost predicate TriggersRecorded(es: map<Text, Episode>, js: seq<Transition>, k: ConditionKey)
  {
    forall i: nat | i < |History(js, k)| && !Odd(i) :: Recorded(es, EpisodeID(k, i + 1), History(js, k), k, i)
  }

  // One more transition updates the row it belongs to and no other.
  lemma RowStep(es: map<Text, Episode>, h: seq<Transition>, t: Transition, k: ConditionKey, i: nat, n: nat, id: Text)
    requires t.direction == DirectionAt(n) && t.episodeID != ""
    requires t.key == k ==> n == |h|
    requires !Odd(i) && (i < |h| || (t.key == k && i == |h|))
    requires i < |h| ==> Recorded(es, id, h, k, i)
    requires id == t.episodeID <==> t.key == k && i + 1 == OpenerOf(n)
    ensures Recorded(RecordEpisode(es, t), id, if t.key == k then h + [t] else h, k, i)
  {
  }

  lemma {:induction false} EpisodeRows(js: seq<Transition>)
    requires forall k :: Chronicle(History(js, k), k)
    ensures forall k :: TriggersRecorded(EpisodesOf(js), js, k)
    ensures forall id | id in EpisodesOf(js) :: RowOK(EpisodesOf(js), js, id)
  {
    if js == [] {
    } else {
      var front, t := js[..|js| - 1], js[|js| - 1];
      assert js == front + [t];
      forall k ensures Chronicle(History(front, k), k) { ChroniclePop(front, t, k); }
      ChroniclePop(front, t, t.key);
      EpisodeRows(front);
      forall k ensures TriggersRecorded(EpisodesOf(js), js, k) { TriggersPush(front, t, k); }
      forall id | id in EpisodesOf(js) ensures RowOK(EpisodesOf(js), js, id) { RowPush(front, t, id); }
    }
  }

  lemma ChroniclePop(js: seq<Transition>, t: Transition, k: ConditionKey)
    requires Chronicle(History(js + [t], k), k)
    ensures Chronicle(History(js, k), k)
    ensures t.key == k ==> EntryOK(t, k, |History(js, k)|)
  {
    HistoryPush(js, t, k);
    var h, h' := History(js, k), History(js + [t], k);
    assert forall i | 0 <= i < |h| :: h[i] == h'[i];
    if t.key == k { assert EntryOK(h'[|h|], k, |h|); }
  }

  // The episode identifier of entry `i` names its opener and nothing else.
  lemma RowIdentity(js: seq<Transition>, t: Transition, k: ConditionKey, i: nat)
    requires EntryOK(t, t.key, |History(js, t.key)|)
    ensures EpisodeID(k, i + 1) == t.episodeID ==> k == t.key && i + 1 == OpenerOf(|History(js, t.key)|)
  {
    var n := OpenerOf(|History(js, t.key)|);
    if EpisodeID(k, i + 1) == EpisodeID(t.key, n) { EpisodeIDInjective(k, i + 1, t.key, n); }
  }

  lemma TriggersPush(js: seq<Transition>, t: Transition, k: ConditionKey)
    requires TriggersRecorded(EpisodesOf(js), js, k)
    requires EntryOK(t, t.key, |History(js, t.key)|)
    ensures TriggersRecorded(EpisodesOf(js + [t]), js + [t], k)
  {
    var es := EpisodesOf(js);
    EpisodesPush(js, t);
    HistoryPush(js, t, k);
    forall i: nat | i < |History(js + [t], k)| && !Odd(i)
      ensures Recorded(EpisodesOf(js + [t]), EpisodeID(k, i + 1), History(js + [t], k), k, i)
    {
      RowIdentity(js, t, k, i);
      RowStep(es, History(js, k), t, k, i, |History(js, t.key)|, EpisodeID(k, i + 1));
    }
  }

  lemma EpisodesPush(js: seq<Transition>, t: Transition)
    ensures EpisodesOf(js + [t]) == RecordEpisode(EpisodesOf(js), t)
  {
    assert (js + [t])[..|js|] == js;
  }

  lemma RowPush(js: seq<Transition>, t: Transition, id: Text)
    requires TriggersRecorded(EpisodesOf(js + [t]), js + [t], t.key)
    requires id in EpisodesOf(js) ==> RowOK(EpisodesOf(js), js, id)
    requires EntryOK(t, t.key, |History(js, t.key)|)
    requires id in EpisodesOf(js + [t])
    ensures RowOK(EpisodesOf(js + [t]), js + [t], id)
  {
    hide EpisodesOf, History, EpisodeID, TransitionID, RowOK, TriggersRecorded, EntryOK;
    EpisodesPush(js, t);
    if id == t.episodeID { OwnRow(js, t); } else { OtherRow(js, t, id); }
  }

  // The row a transition opens or closes.
  lemma OwnRow(js: seq<Transition>, t: Transition)
    requires TriggersRecorded(EpisodesOf(js + [t]), js + [t], t.key)
    requires EntryOK(t, t.key, |History(js, t.key)|)
    ensures RowOK(EpisodesOf(js + [t]), js + [t], t.episodeID)
  {
    hide EpisodesOf, History, EpisodeID, TransitionID;
    var i := OpenerOf(|History(js, t.key)|) - 1;
    HistoryPush(js, t, t.key);
    assert Recorded(EpisodesOf(js + [t]), EpisodeID(t.key, i + 1), History(js + [t], t.key), t.key, i);
  }

  // Every other row is left as it was.
  lemma OtherRow(js: seq<Transition>, t: Transition, id: Text)
    requires id != t.episodeID && EntryOK(t, t.key, |History(js, t.key)|)
    requires id in EpisodesOf(js) && RowOK(EpisodesOf(js), js, id)
    ensures RowOK(EpisodesOf(js + [t]), js + [t], id)
  {
    hide EpisodesOf, History, EpisodeID, TransitionID, EpisodeFor;
    var es, es', n := EpisodesOf(js), EpisodesOf(js + [t]), |History(js, t.key)|;
    EpisodesPush(js, t);
    var k := es[id].key;
    var i: nat :| Recorded(es, id, History(js, k), k, i) && id == EpisodeID(k, i + 1);
    HistoryPush(js, t, k);
    RowIdentity(js, t, k, i);
    RowStep(es, History(js, k), t, k, i, n, id);
    RowKey(es', id, History(js + [t], k), k, i);
  }

  lemma RowKey(es: map<Text, Episode>, id: Text, h: seq<Transition>, k: ConditionKey, i: nat)
    requires Recorded(es, id, h, k, i)
    ensures es[id].key == k
  {
  }

  /** The episode table of any machine a run can reach: a key's triggers and the rows of the
      table correspond one to one. */
  lemma EpisodeTable(m: Machine)
    requires Inv(m)
    ensures forall k :: TriggersRecorded(m.episodes, m.journal, k)
    ensures forall id | id in m.episodes :: RowOK(m.episodes, m.journal, id)
  {
    forall k ensures Chronicle(History(m.journal, k), k) { assert KeyOK(m, k); }
    EpisodeRows(m.journal);
  }

  /** A closed episode does not close before it opened; an open one belongs to an active or
      clearing key, whose tracker carries its identifier. */
  lemma RowMeaning(m: Machine, id: Text)
    requires Inv(m) && id in m.episodes
    ensures var e := m.episodes[id];
      && e.id == id == e.trigger.episodeID && e.trigger.direction == Trigger && e.trigger.key == e.key
      && (e.clear.Some? ==>
          && e.clear.value.direction == Clear && e.clear.value.key == e.key
          && e.clear.value.episodeID == id && e.openedAt <= e.closedAt)
      && (e.clear.None? ==>
          e.key in m.states && IsOpen(m.states[e.key]) && m.states[e.key].episodeID == id)
  {
    EpisodeTable(m);
    assert RowOK(m.episodes, m.journal, id);
    var k := m.episodes[id].key;
    var h := History(m.journal, k);
    var i: nat :| Recorded(m.episodes, id, h, k, i) && id == EpisodeID(k, i + 1);
    assert KeyOK(m, k);
    assert EntryOK(h[i], k, i);
    if i + 1 < |h| { assert EntryOK(h[i + 1], k, i + 1); }
  }

  /** A key has an open episode exactly while it is active or clearing, and only one. */
  lemma OneOpenEpisode(m: Machine, k: ConditionKey, id: Text)
    requires Inv(m)
    ensures (id in m.episodes && m.episodes[id].key == k && m.episodes[id].clear.None?)
       <==> (k in m.states && IsOpen(m.states[k]) && m.states[k].episodeID == id)
  {
    EpisodeTable(m);
    assert KeyOK(m, k) && TriggersRecorded(m.episodes, m.journal, k);
    if id in m.episodes { RowMeaning(m, id); }
    if k in m.states && IsOpen(m.states[k]) && m.states[k].episodeID == id {
      var i := |History(m.journal, k)| - 1;
      assert Recorded(m.episodes, EpisodeID(k, i + 1), History(m.journal, k), k, i);
    }
  }

  // ----- what a drain emits -----

  ghost predicate FiredInOrder(out: seq<Transition>)
  {
    forall i, j | 0 <= i < j < |out| :: LessTimer(TimerFired(out[i]), TimerFired(out[j]))
  }

  function KeysOf(out: seq<Transition>): set<ConditionKey>
  {
    if out == [] then {} else {out[0].key} + KeysOf(out[1..])
  }

  lemma {:induction false} KeysOfContains(out: seq<Transition>, i: nat)
    requires i < |out|
    ensures out[i].key in KeysOf(out)
  {
    if i > 0 { KeysOfContains(out[1..], i - 1); }
  }

  /** Each entry of `out` fires, at `now`, the timer its key had in `m`. */
  ghost predicate FiresTimersOf(m: Machine, now: Time, out: seq<Transition>)
  {
    forall i | 0 <= i < |out| ::
      && out[i].key in m.states && TimerFired(out[i]) == KeyTimer(m, out[i].key)
      && out[i].at == out[i].times.dueAt && out[i].times.processingAt == now
  }

  // Everything but the trackers, the episodes and the journal is left alone.
  ghost predicate SameFrame(m: Machine, m': Machine)
  {
    m'.config == m.config && m'.logical == m.logical && m'.seen == m.seen && m'.states.Keys == m.states.Keys
  }

  function SpentPhase(p: Phase): Phase { if p == Clearing then Inactive else Active }

  // Trackers outside `due` are untouched; inside, the timer is spent.
  ghost predicate OnlySpent(m: Machine, m': Machine, due: set<ConditionKey>)
  {
    && m'.states.Keys == m.states.Keys
    && (forall k | k in m.states && k !in due :: m'.states[k] == m.states[k])
    && (forall k | k in m.states && k in due ::
          && m'.states[k].phase == SpentPhase(m.states[k].phase)
          && m'.states[k].attempt == m.states[k].attempt)
  }

  // `due` was spent, `out` was journalled, and nothing else happened.
  ghost predicate Fired(m: Machine, m': Machine, due: set<ConditionKey>, out: seq<Transition>)
  {
    SameFrame(m, m') && OnlySpent(m, m', due) && m'.journal == m.journal + out
  }

  lemma ExpireFired(m: Machine, k: ConditionKey, now: Time)
    requires IsDue(m, k, now)
    ensures Fired(m, Expire(m, k, now).machine, {k}, Expire(m, k, now).out)
  {
  }

  lemma FiredTransitive(m: Machine, m1: Machine, m2: Machine, k: ConditionKey, due: set<ConditionKey>,
                        out1: seq<Transition>, out2: seq<Transition>)
    requires Fired(m, m1, {k}, out1) && Fired(m1, m2, due - {k}, out2) && k in due
    ensures Fired(m, m2, due, out1 + out2)
  {
    assert m.journal + (out1 + out2) == (m.journal + out1) + out2;
  }

  lemma DrainNothing(m: Machine, now: Time)
    requires DueKeys(m, now) == {}
    ensures Drain(m, now) == Step(m, []) && Fired(m, m, {}, [])
  {
  }

  lemma {:induction false} DrainFired(m: Machine, now: Time)
    ensures Fired(m, Drain(m, now).machine, DueKeys(m, now), Drain(m, now).out)
    ensures DueKeys(Drain(m, now).machine, now) == {}
    decreases |DueKeys(m, now)|
  {
    hide Expire, Fired;
    if DueKeys(m, now) == {} {
      DrainNothing(m, now);
    } else {
      var k := Least(m, DueKeys(m, now));
      ExpireShrinks(m, k, now, now);
      ExpireFired(m, k, now);
      var first := Expire(m, k, now);
      DrainFired(first.machine, now);
      var rest := Drain(first.machine, now);
      FiredTransitive(m, first.machine, rest.machine, k, DueKeys(m, now), first.out, rest.out);
    }
  }

  /** A drain fires exactly the due timers, each once, in strict canonical order. */
  lemma {:induction false} DrainExact(m: Machine, now: Time)
    ensures FiredInOrder(Drain(m, now).out)
    ensures FiresTimersOf(m, now, Drain(m, now).out)
    ensures KeysOf(Drain(m, now).out) == DueKeys(m, now)
    decreases |DueKeys(m, now)|
  {
    if DueKeys(m, now) == {} {
    } else {
      var k := Least(m, DueKeys(m, now));
      ExpireShrinks(m, k, now, now);
      var first := Expire(m, k, now);
      var rest := Drain(first.machine, now).out;
      DrainExact(first.machine, now);
      DrainOrder(m, k, now, first, rest);
      assert (first.out + rest)[1..] == rest;
    }
  }

  // The head precedes everything the rest of the drain fires.
  lemma DrainOrder(m: Machine, k: ConditionKey, now: Time, first: Step, rest: seq<Transition>)
    requires IsLeast(m, DueKeys(m, now), k) && first == Expire(m, k, now)
    requires KeysOf(rest) == DueKeys(m, now) - {k}
    requires FiredInOrder(rest) && FiresTimersOf(first.machine, now, rest)
    ensures FiredInOrder(first.out + rest) && FiresTimersOf(m, now, first.out + rest)
  {
    var t, out := first.out[0], first.out + rest;
    assert TimerFired(t) == KeyTimer(m, k);
    forall j: nat | j < |rest|
      ensures LessTimer(TimerFired(t), TimerFired(rest[j]))
      ensures rest[j].key in m.states && TimerFired(rest[j]) == KeyTimer(m, rest[j].key)
    {
      KeysOfContains(rest, j);
    }
    assert forall j | 0 < j < |out| :: out[j] == rest[j - 1];
  }
}
