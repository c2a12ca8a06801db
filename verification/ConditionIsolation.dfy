/** Non-interference: what a reducer of many keys does to one key is what a reducer that only
    ever saw that key would do under the same clock. */
module ConditionIsolation {
  import opened Bytes
  import opened Conditions
  import opened ConditionHistory
  import opened ConditionRuns
  import opened ConditionTiming
  import opened ConditionLaws

  /** The part of a machine that concerns `k`, with the observation fence cut down to `own`. */
  function View(m: Machine, k: ConditionKey, own: set<Text>): Machine
  {
    var h := History(m.journal, k);
    Machine(m.config, if k in m.states then map[k := m.states[k]] else map[], m.seen * own,
            EpisodesOf(h), h, m.logical)
  }

  ghost predicate ViewStep(st: Step, solo: Step, k: ConditionKey, own: set<Text>)
  {
    View(st.machine, k, own) == solo.machine && History(st.out, k) == solo.out
  }

  lemma HistoryOne(t: Transition, k: ConditionKey)
    ensures History([t], k) == if t.key == k then [t] else []
  {
    HistoryPush([], t, k);
    assert [] + [t] == [t];
  }

  // One committed transition, seen from `k`.
  lemma ViewPush(m: Machine, s: Tracker, es: map<Text, Episode>, t: Transition, k: ConditionKey, own: set<Text>)
    requires t.key in m.states
    ensures History([t], k) == if t.key == k then [t] else []
    ensures var v := View(m, k, own);
      View(m.(states := m.states[t.key := s], episodes := es, journal := m.journal + [t]), k, own)
      == if t.key == k
         then v.(states := v.states[k := s], episodes := RecordEpisode(v.episodes, t), journal := v.journal + [t])
         else v
  {
    hide History, EpisodesOf, RecordEpisode;
    HistoryPush(m.journal, t, k);
    HistoryOne(t, k);
    EpisodesPush(History(m.journal, k), t);
    if t.key == k {
      assert map[k := m.states[k]][k := s] == map[k := s];
    }
  }

  lemma ViewCommit(m: Machine, l: ConditionKey, d: Direction, at: Time, due: Time, processing: Time,
                   effectiveAt: Time, evidenceAt: Time, reason: Text, k: ConditionKey, own: set<Text>)
    requires l in m.states
    ensures var st := Commit(m, l, d, at, due, processing, effectiveAt, evidenceAt, reason);
      if l == k
      then ViewStep(st, Commit(View(m, k, own), k, d, at, due, processing, effectiveAt, evidenceAt, reason), k, own)
      else ViewStep(st, Step(View(m, k, own), []), k, own)
  {
    hide EpisodeID, TransitionID, EpisodesOf, History;
    var st := Commit(m, l, d, at, due, processing, effectiveAt, evidenceAt, reason);
    ViewPush(m, st.machine.states[l], st.machine.episodes, st.out[0], k, own);
  }

  lemma ViewExpire(m: Machine, l: ConditionKey, p: Time, k: ConditionKey, own: set<Text>)
    requires l in m.states
    ensures if l == k then ViewStep(Expire(m, l, p), Expire(View(m, k, own), k, p), k, own)
            else ViewStep(Expire(m, l, p), Step(View(m, k, own), []), k, own)
  {
    hide Commit;
    var s := m.states[l];
    var due := DueOf(m.config, s);
    ViewCommit(m, l, DirectionFor(s.phase), due, due, p, s.effectiveAt, s.evidenceAt, s.reason, k, own);
  }

  lemma ViewDue(m: Machine, now: Time, k: ConditionKey, own: set<Text>)
    ensures DueKeys(View(m, k, own), now) == if k in DueKeys(m, now) then {k} else {}
    ensures k in DueKeys(m, now) ==> Least(View(m, k, own), DueKeys(View(m, k, own), now)) == k
  {
    var v := View(m, k, own);
    assert IsDue(v, k, now) == IsDue(m, k, now);
    if k in DueKeys(m, now) {
      assert DueKeys(v, now) == {k};
      assert Least(v, {k}) in {k};
    }
  }

  lemma ViewConcat(a: seq<Transition>, b: seq<Transition>, k: ConditionKey, x: seq<Transition>, y: seq<Transition>)
    requires History(a, k) == x && History(b, k) == y
    ensures History(a + b, k) == x + y
  {
    HistoryAppend(a, b, k);
  }

  lemma {:induction false} ViewDrain(m: Machine, now: Time, k: ConditionKey, own: set<Text>)
    ensures ViewStep(Drain(m, now), Drain(View(m, k, own), now), k, own)
    decreases |DueKeys(m, now)|
  {
    hide Expire, View;
    ViewDue(m, now, k, own);
    if DueKeys(m, now) == {} {
    } else {
      var l, v := Least(m, DueKeys(m, now)), View(m, k, own);
      var first := Expire(m, l, now);
      DrainHead(m, now);
      ViewExpire(m, l, now, k, own);
      ViewDrain(first.machine, now, k, own);
      var rest := Drain(first.machine, now);
      if l == k {
        DrainHead(v, now);
        ViewConcat(first.out, rest.out, k, Expire(v, k, now).out, Drain(Expire(v, k, now).machine, now).out);
      } else {
        ViewConcat(first.out, rest.out, k, [], Drain(v, now).out);
        assert [] + Drain(v, now).out == Drain(v, now).out;
      }
    }
  }

  lemma ViewAdvance(m: Machine, now: Time, k: ConditionKey, own: set<Text>)
    ensures ViewStep(AdvanceTo(m, now), AdvanceTo(View(m, k, own), now), k, own)
  {
    hide Drain;
    if now != 0 {
      ViewDrain(Tick(m, now), Max(now, m.logical), k, own);
      assert View(Tick(m, now), k, own) == Tick(View(m, k, own), now);
    }
  }

  lemma ViewAbsorbOther(m: Machine, o: Observation, k: ConditionKey, own: set<Text>)
    requires o.key != k
    ensures ViewStep(Absorb(m, o), Step(View(m, k, own), []), k, own)
  {
    hide Commit;
    var s := TrackerAt(m, o.key);
    var m1 := m.(states := m.states[o.key := Touched(s, o)]);
    var armed := m1.(states := m1.states[o.key := Armed(m1.states[o.key], o)]);
    var due := StartTime(o) + DurationFor(m.config, o.direction);
    ViewCommit(armed, o.key, o.direction, m.logical, due, m.logical, EffectiveTime(o), o.evidenceAt, o.reason, k, own);
    assert View(armed, k, own) == View(m, k, own);
  }

  lemma ViewAbsorbOwn(m: Machine, o: Observation, own: set<Text>)
    ensures ViewStep(Absorb(m, o), Absorb(View(m, o.key, own), o), o.key, own)
  {
    hide Commit;
    var k, s := o.key, TrackerAt(m, o.key);
    var v := View(m, k, own);
    assert TrackerAt(v, k) == s;
    var m1, v1 := m.(states := m.states[k := Touched(s, o)]), v.(states := v.states[k := Touched(s, o)]);
    assert View(m1, k, own) == v1;
    if CanArm(s, o) {
      ViewStart(m1, o, own);
    } else if MustCancel(s, o) {
      var c := Cancelled(Touched(s, o), o.direction);
      assert View(m.(states := m.states[k := c]), k, own) == v.(states := v.states[k := c]);
    }
  }

  lemma ViewStart(m: Machine, o: Observation, own: set<Text>)
    requires o.key in m.states
    ensures ViewStep(StartTimer(m, o), StartTimer(View(m, o.key, own), o), o.key, own)
  {
    hide Commit;
    var k, v := o.key, View(m, o.key, own);
    var s := Armed(m.states[k], o);
    var armed := m.(states := m.states[k := s]);
    assert View(armed, k, own) == v.(states := v.states[k := s]);
    var due := StartTime(o) + DurationFor(m.config, o.direction);
    ViewCommit(armed, k, o.direction, m.logical, due, m.logical, EffectiveTime(o), o.evidenceAt, o.reason, k, own);
  }

  /** What the other keys' calls look like to `k`: clock steps, or nothing when they are dropped. */
  function Seen(m: Machine, op: Op, k: ConditionKey): seq<Op>
  {
    match op
    case ApplyOp(o) =>
      if o.key == k then [op] else if Accepts(m, o) then [AdvanceOp(ProcessingTime(o))] else []
    case _ => [op]
  }

  lemma RunOne(m: Machine, op: Op)
    ensures Run(m, [op]) == Perform(m, op)
  {
    assert [op][..0] == [];
    assert [] + Perform(m, op).out == Perform(m, op).out;
  }

  // The identities `k` has used once the call is made.
  function UsedBy(m: Machine, op: Op, k: ConditionKey, own: set<Text>): set<Text>
  {
    if op.ApplyOp? && op.o.key == k && Accepts(m, op.o) && op.o.observationID != ""
    then own + {op.o.observationID}
    else own
  }

  /** The fence drops an observation of `k` over an identity that only another key has used. */
  predicate Dropped(m: Machine, op: Op, k: ConditionKey, own: set<Text>)
  {
    && op.ApplyOp? && op.o.key == k && ForRule(m.config, k) && ProcessingTime(op.o) != 0
    && op.o.observationID != "" && op.o.observationID in m.seen && op.o.observationID !in own
  }

  /** Alone, `k` would accept what the shared reducer rejects exactly when the fence drops it so. */
  lemma FenceInterferes(m: Machine, op: Op, k: ConditionKey, own: set<Text>)
    requires op.ApplyOp? && op.o.key == k
    ensures Accepts(View(m, k, own), op.o) != Accepts(m, op.o) <==> Dropped(m, op, k, own)
  {
  }

  lemma ViewPerform(m: Machine, op: Op, k: ConditionKey, own: set<Text>)
    requires !op.FireOp? && own <= m.seen && !Dropped(m, op, k, own)
    ensures ViewStep(Perform(m, op), Run(View(m, k, own), Seen(m, op, k)), k, UsedBy(m, op, k, own))
  {
    hide AdvanceTo, Absorb, View;
    var v, own' := View(m, k, own), UsedBy(m, op, k, own);
    if Seen(m, op, k) != [] { RunOne(v, Seen(m, op, k)[0]); }
    match op
    case AdvanceOp(now) => ViewAdvance(m, now, k, own);
    case ApplyOp(o) =>
      if o.key == k { FenceInterferes(m, op, k, own); }
      if Accepts(m, o) {
        var m1 := Admit(m, o);
        var advanced := AdvanceTo(m1, ProcessingTime(o));
        ViewAdvance(m1, ProcessingTime(o), k, own');
        ViewAdmit(m, o, k, own);
        if o.key == k {
          ViewAbsorbOwn(advanced.machine, o, own');
          ViewConcat(advanced.out, Absorb(advanced.machine, o).out, k,
                     AdvanceTo(Admit(v, o), ProcessingTime(o)).out,
                     Absorb(AdvanceTo(Admit(v, o), ProcessingTime(o)).machine, o).out);
        } else {
          ViewAbsorbOther(advanced.machine, o, k, own');
          ViewConcat(advanced.out, Absorb(advanced.machine, o).out, k, AdvanceTo(v, ProcessingTime(o)).out, []);
          assert AdvanceTo(v, ProcessingTime(o)).out + [] == AdvanceTo(v, ProcessingTime(o)).out;
        }
      }
  }

  // Whatever identity another key uses, the part of the fence that `k` filled stays the same.
  lemma ViewAdmit(m: Machine, o: Observation, k: ConditionKey, own: set<Text>)
    requires own <= m.seen && Accepts(m, o)
    ensures View(Admit(m, o), k, UsedBy(m, ApplyOp(o), k, own))
         == if o.key == k then Admit(View(m, k, own), o) else View(m, k, own)
  {
    var own', v := UsedBy(m, ApplyOp(o), k, own), View(m, k, own);
    assert Admit(m, o).seen * own' == if o.key == k then Admit(v, o).seen else v.seen;
  }

  lemma PerformSeen(m: Machine, op: Op)
    ensures Perform(m, op).machine.seen == if op.ApplyOp? && Accepts(m, op.o) then Admit(m, op.o).seen else m.seen
  {
    hide Drain, Absorb;
    match op
    case AdvanceOp(now) => if now != 0 { AdvanceFired(m, now); }
    case FireOp(timer, at) =>
    case ApplyOp(o) =>
      if Accepts(m, o) {
        AdvanceFired(Admit(m, o), ProcessingTime(o));
        AbsorbSeen(Advanced(m, o), o);
      }
  }

  /** The run of `k` alone: its own observations and the others' clock steps. */
  ghost function SoloOps(c: RuleConfig, ops: seq<Op>, k: ConditionKey): seq<Op>
  {
    if ops == [] then []
    else SoloOps(c, ops[..|ops| - 1], k) + Seen(Run(Init(c), ops[..|ops| - 1]).machine, ops[|ops| - 1], k)
  }

  lemma RunSnoc(m: Machine, ops: seq<Op>, op: Op)
    ensures Run(m, ops + [op])
         == Step(Perform(Run(m, ops).machine, op).machine, Run(m, ops).out + Perform(Run(m, ops).machine, op).out)
  {
    assert (ops + [op])[..|ops|] == ops;
  }

  /** The identities of the observations of `k` that the run has accepted. */
  ghost function OwnUsed(c: RuleConfig, ops: seq<Op>, k: ConditionKey): set<Text>
  {
    if ops == [] then {}
    else UsedBy(Run(Init(c), ops[..|ops| - 1]).machine, ops[|ops| - 1], k, OwnUsed(c, ops[..|ops| - 1], k))
  }

  /** At call `i` the fence drops an observation of `k` that `k` alone would accept. */
  ghost predicate DroppedAt(c: RuleConfig, ops: seq<Op>, i: nat, k: ConditionKey)
  {
    i < |ops| && Dropped(After(c, ops, i), ops[i], k, OwnUsed(c, ops[..i], k))
  }

  /** At call `i` the shared reducer and the reducer of `k` alone agree on an observation of `k`. */
  ghost predicate AgreeAt(c: RuleConfig, ops: seq<Op>, i: nat, k: ConditionKey)
  {
    i < |ops| && ops[i].ApplyOp? && ops[i].o.key == k ==>
      (Accepts(After(c, ops, i), ops[i].o) <==> Accepts(Run(Init(c), SoloOps(c, ops[..i], k)).machine, ops[i].o))
  }

  lemma PrefixAt(c: RuleConfig, ops: seq<Op>, n: nat, i: nat, k: ConditionKey)
    requires i < n <= |ops|
    ensures DroppedAt(c, ops[..n], i, k) <==> DroppedAt(c, ops, i, k)
    ensures AgreeAt(c, ops[..n], i, k) <==> AgreeAt(c, ops, i, k)
  {
    hide Dropped, Accepts, Run;
    assert ops[..n][..i] == ops[..i] && ops[..n][i] == ops[i];
  }

  lemma OwnSeen(m: Machine, op: Op, k: ConditionKey, own: set<Text>)
    requires own <= m.seen
    ensures UsedBy(m, op, k, own) <= Perform(m, op).machine.seen
  {
    hide Perform;
    PerformSeen(m, op);
  }

  /** Non-interference over whole runs of Apply and Advance: unless the fence drops an observation of
      `k` for an identity that only another key has used, the shared reducer does to `k` what a
      reducer of `k` alone does. Another key may freely reuse what `k` has used. */
  lemma {:induction false} KeysDoNotInterfere(c: RuleConfig, ops: seq<Op>, k: ConditionKey)
    requires NoFire(ops) && forall i: nat :: !DroppedAt(c, ops, i, k)
    ensures ViewStep(Run(Init(c), ops), Run(Init(c), SoloOps(c, ops, k)), k, OwnUsed(c, ops, k))
    ensures OwnUsed(c, ops, k) <= Run(Init(c), ops).machine.seen
  {
    hide View, Perform, Dropped, UsedBy, Seen;
    if ops == [] {
      ViewInit(c, k, {});
    } else {
      var n := |ops| - 1;
      var front, op := ops[..n], ops[n];
      assert NoFire(front);
      forall i: nat ensures !DroppedAt(c, front, i, k) { if i < n { PrefixAt(c, ops, n, i, k); } }
      KeysDoNotInterfere(c, front, k);
      assert !DroppedAt(c, ops, n, k);
      KeysStep(c, front, op, k);
      assert ops == front + [op];
    }
  }

  lemma KeysStep(c: RuleConfig, front: seq<Op>, op: Op, k: ConditionKey)
    requires var own := OwnUsed(c, front, k); var m := Run(Init(c), front).machine;
      && ViewStep(Run(Init(c), front), Run(Init(c), SoloOps(c, front, k)), k, own)
      && !op.FireOp? && own <= m.seen && !Dropped(m, op, k, own)
    ensures var ops := front + [op];
      && ViewStep(Run(Init(c), ops), Run(Init(c), SoloOps(c, ops, k)), k, OwnUsed(c, ops, k))
      && OwnUsed(c, ops, k) <= Run(Init(c), ops).machine.seen
  {
    hide View, Perform, Dropped, UsedBy;
    var ops, own := front + [op], OwnUsed(c, front, k);
    assert ops[..|ops| - 1] == front;
    var before, solo := Run(Init(c), front), Run(Init(c), SoloOps(c, front, k));
    ViewPerform(before.machine, op, k, own);
    OwnSeen(before.machine, op, k, own);
    var more := Seen(before.machine, op, k);
    if more == [] {
      assert SoloOps(c, front, k) + more == SoloOps(c, front, k);
      assert solo.out + [] == solo.out;
    } else {
      assert more == [more[0]];
      RunOne(solo.machine, more[0]);
      RunSnoc(Init(c), SoloOps(c, front, k), more[0]);
    }
    ViewConcat(before.out, Perform(before.machine, op).out, k, solo.out, Run(solo.machine, more).out);
  }

  /** Both directions, over any run of Apply and Advance: the shared reducer and the reducer of `k`
      alone agree on every observation of `k` exactly when the fence never drops one for another
      key's identity. */
  lemma {:induction false} AgreeExactly(c: RuleConfig, ops: seq<Op>, k: ConditionKey)
    requires NoFire(ops)
    ensures (forall i: nat :: AgreeAt(c, ops, i, k)) <==> (forall i: nat :: !DroppedAt(c, ops, i, k))
  {
    hide View, Perform, Dropped, UsedBy, Seen, Accepts;
    if ops == [] {
      assert forall i: nat :: AgreeAt(c, ops, i, k) && !DroppedAt(c, ops, i, k);
    } else {
      var n := |ops| - 1;
      var front := ops[..n];
      assert NoFire(front);
      AgreeExactly(c, front, k);
      forall i: nat | i < n
        ensures AgreeAt(c, front, i, k) <==> AgreeAt(c, ops, i, k)
        ensures DroppedAt(c, front, i, k) <==> DroppedAt(c, ops, i, k)
      {
        PrefixAt(c, ops, n, i, k);
      }
      AgreeLast(c, ops, k);
    }
  }

  // With nothing dropped before it, the last call decides both sides alike.
  lemma AgreeLast(c: RuleConfig, ops: seq<Op>, k: ConditionKey)
    requires ops != [] && NoFire(ops)
    ensures (forall i: nat | i < |ops| - 1 :: !DroppedAt(c, ops, i, k)) ==>
      (AgreeAt(c, ops, |ops| - 1, k) <==> !DroppedAt(c, ops, |ops| - 1, k))
  {
    hide View, Perform, Dropped, UsedBy, Seen, Accepts;
    var n := |ops| - 1;
    var front, op := ops[..n], ops[n];
    if forall i: nat | i < n :: !DroppedAt(c, ops, i, k) {
      forall i: nat ensures !DroppedAt(c, front, i, k) { if i < n { PrefixAt(c, ops, n, i, k); } }
      assert NoFire(front);
      KeysDoNotInterfere(c, front, k);
      if op.ApplyOp? && op.o.key == k {
        FenceInterferes(After(c, ops, n), op, k, OwnUsed(c, front, k));
      } else {
        NotDropped(After(c, ops, n), op, k, OwnUsed(c, front, k));
      }
    }
  }

  lemma NotDropped(m: Machine, op: Op, k: ConditionKey, own: set<Text>)
    ensures Dropped(m, op, k, own) ==> op.ApplyOp? && op.o.key == k
  {
  }

  lemma ViewInit(c: RuleConfig, k: ConditionKey, own: set<Text>)
    ensures View(Init(c), k, own) == Init(c)
  {
  }

  lemma SharedIdentityInterferes(a: ConditionKey, b: ConditionKey)
    requires a != b
    ensures var c := RuleConfig("", 0, 0, 0);
      var o := Observation(a, Trigger, True, 1, 1, 0, 0, "x", "");
      var solo := ApplyTo(Init(c), o.(key := b));
      var both := ApplyTo(ApplyTo(Init(c), o).machine, o.(key := b));
      |solo.out| == 1 && both.out == []
  {
    var c := RuleConfig("", 0, 0, 0);
    var o := Observation(a, Trigger, True, 1, 1, 0, 0, "x", "");
    var m1 := Admit(Init(c), o);
    assert DueKeys(Tick(m1, 1), 1) == {};
    AbsorbTracker(Tick(m1, 1), o);
    AbsorbTracker(Tick(m1, 1), o.(key := b));
    AdvanceTracker(m1, 1, a);
    AbsorbSeen(Advanced(Init(c), o), o);
  }

  lemma AbsorbSeen(m: Machine, o: Observation)
    ensures Absorb(m, o).machine.seen == m.seen
  {
  }

  // ----- the episode table, cut down to one key -----

  lemma {:induction false} HistoryIdempotent(js: seq<Transition>, k: ConditionKey)
    ensures History(History(js, k), k) == History(js, k)
  {
    if js == [] {
    } else {
      var front, t := js[..|js| - 1], js[|js| - 1];
      HistoryIdempotent(front, k);
      HistoryPush(History(front, k), t, k);
    }
  }

  lemma {:induction false} HistoryOther(js: seq<Transition>, k: ConditionKey, j: ConditionKey)
    requires j != k
    ensures History(History(js, k), j) == []
  {
    if js == [] {
    } else {
      var front, t := js[..|js| - 1], js[|js| - 1];
      HistoryOther(front, k, j);
      HistoryPush(History(front, k), t, j);
    }
  }

  lemma ViewRows(m: Machine, k: ConditionKey)
    requires Inv(m)
    ensures var h := History(m.journal, k); var es := EpisodesOf(h);
      && TriggersRecorded(es, h, k)
      && (forall id | id in es :: RowOK(es, h, id))
      && (forall j | j != k :: History(h, j) == [])
      && History(h, k) == h
  {
    var h := History(m.journal, k);
    HistoryIdempotent(m.journal, k);
    forall j | j != k ensures History(h, j) == [] { HistoryOther(m.journal, k, j); }
    forall j ensures Chronicle(History(h, j), j) { assert KeyOK(m, k); }
    EpisodeRows(h);
  }

  /** The episodes a view holds are exactly the reducer's episodes of that key. */
  lemma ViewEpisodes(m: Machine, k: ConditionKey, own: set<Text>, id: Text)
    requires Inv(m)
    ensures (id in m.episodes && m.episodes[id].key == k)
       <==> (id in View(m, k, own).episodes)
    ensures id in View(m, k, own).episodes ==> View(m, k, own).episodes[id] == m.episodes[id]
  {
    hide EpisodeID, EpisodesOf;
    var h := History(m.journal, k);
    ViewRows(m, k);
    EpisodeTable(m);
    var es := EpisodesOf(h);
    if id in m.episodes && m.episodes[id].key == k {
      assert RowOK(m.episodes, m.journal, id);
      var i: nat :| Recorded(m.episodes, id, h, k, i) && id == EpisodeID(k, i + 1);
      assert Recorded(es, EpisodeID(k, i + 1), h, k, i);
    }
    if id in es {
      assert RowOK(es, h, id);
      var j := es[id].key;
      var i: nat :| Recorded(es, id, History(h, j), j, i) && id == EpisodeID(j, i + 1);
      assert TriggersRecorded(m.episodes, m.journal, k);
      assert Recorded(m.episodes, EpisodeID(k, i + 1), h, k, i);
    }
  }
}
