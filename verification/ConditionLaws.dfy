/** Two laws of the condition machine: advancing splits, and keys do not interfere. */
module ConditionLaws {
  import opened Wrappers
  import opened Bytes
  import opened Conditions
  import opened ConditionRuns

  // ----- Advance splits -----

  // The processing time is the one field that records when a timer was noticed.
  function Erase(t: Transition): Transition { t.(times := t.times.(processingAt := 0)) }

  function EraseAll(js: seq<Transition>): seq<Transition> { seq(|js|, i requires 0 <= i < |js| => Erase(js[i])) }

  function EraseEpisode(e: Episode): Episode
  {
    e.(trigger := Erase(e.trigger), clear := if e.clear.Some? then Some(Erase(e.clear.value)) else None)
  }

  function EraseTable(es: map<Text, Episode>): map<Text, Episode>
  {
    map id | id in es :: EraseEpisode(es[id])
  }

  /** Equal up to processing times. */
  ghost predicate Similar(m: Machine, m': Machine)
  {
    && m.config == m'.config && m.states == m'.states && m.seen == m'.seen && m.logical == m'.logical
    && EraseAll(m.journal) == EraseAll(m'.journal)
    && EraseTable(m.episodes) == EraseTable(m'.episodes)
  }

  lemma EraseConcat(a: seq<Transition>, b: seq<Transition>)
    ensures EraseAll(a + b) == EraseAll(a) + EraseAll(b)
  {
  }

  lemma EraseRecord(es: map<Text, Episode>, es': map<Text, Episode>, t: Transition, t': Transition)
    requires EraseTable(es) == EraseTable(es') && Erase(t) == Erase(t')
    ensures EraseTable(RecordEpisode(es, t)) == EraseTable(RecordEpisode(es', t'))
  {
    var r, r' := RecordEpisode(es, t), RecordEpisode(es', t');
    assert es.Keys == EraseTable(es).Keys == EraseTable(es').Keys == es'.Keys;
    assert t.episodeID == Erase(t).episodeID == t'.episodeID && t.direction == Erase(t).direction == t'.direction;
    assert t.at == Erase(t).at == t'.at && t.key == Erase(t).key == t'.key;
    forall id | id in r ensures EraseEpisode(r[id]) == EraseEpisode(r'[id]) {
      if id in es {
        assert EraseEpisode(es[id]) == EraseTable(es)[id] == EraseTable(es')[id] == EraseEpisode(es'[id]);
      }
    }
  }

  lemma SimilarExpire(m: Machine, m': Machine, k: ConditionKey, p: Time, p': Time)
    requires Similar(m, m') && k in m.states
    ensures Similar(Expire(m, k, p).machine, Expire(m', k, p').machine)
    ensures EraseAll(Expire(m, k, p).out) == EraseAll(Expire(m', k, p').out)
  {
    var a, b := Expire(m, k, p), Expire(m', k, p');
    var t, t' := a.out[0], b.out[0];
    assert Erase(t) == Erase(t');
    EraseRecord(m.episodes, m'.episodes, t, t');
    EraseConcat(m.journal, [t]);
    EraseConcat(m'.journal, [t']);
  }

  // Machines with the same trackers have the same due keys, hence the same least one.
  lemma SimilarDue(m: Machine, m': Machine, now: Time)
    requires Similar(m, m')
    ensures DueKeys(m, now) == DueKeys(m', now)
    ensures DueKeys(m, now) != {} ==> Least(m, DueKeys(m, now)) == Least(m', DueKeys(m', now))
  {
    var due := DueKeys(m, now);
    assert due == DueKeys(m', now);
    if due != {} {
      assert IsLeast(m', due, Least(m, due));
      LeastUnique(m', due, Least(m, due), Least(m', due));
    }
  }

  // The least timer due by `t1` is also the least due by any later `t2`.
  lemma LeastEarlier(m: Machine, t1: Time, t2: Time)
    requires t1 <= t2 && DueKeys(m, t1) != {}
    ensures DueKeys(m, t2) != {} && Least(m, DueKeys(m, t1)) == Least(m, DueKeys(m, t2))
  {
    var k := Least(m, DueKeys(m, t1));
    assert IsDue(m, k, t1) && k in DueKeys(m, t2);
    forall j | j in DueKeys(m, t2) && j != k ensures LessTimer(KeyTimer(m, k), KeyTimer(m, j)) {
      assert j in DueKeys(m, t1) || t1 < DueOf(m.config, m.states[j]);
    }
    assert IsLeast(m, DueKeys(m, t2), k);
    LeastUnique(m, DueKeys(m, t2), k, Least(m, DueKeys(m, t2)));
  }

  lemma EraseHeads(a: seq<Transition>, a': seq<Transition>, b: seq<Transition>, b': seq<Transition>)
    requires EraseAll(a) == EraseAll(a') && EraseAll(b) == EraseAll(b')
    ensures EraseAll(a + b) == EraseAll(a' + b')
  {
    EraseConcat(a, b);
    EraseConcat(a', b');
  }

  lemma DrainHead(m: Machine, now: Time)
    requires DueKeys(m, now) != {}
    ensures var k := Least(m, DueKeys(m, now)); var first := Expire(m, k, now);
      && |DueKeys(first.machine, now)| < |DueKeys(m, now)|
      && Drain(m, now) == Step(Drain(first.machine, now).machine, first.out + Drain(first.machine, now).out)
  {
    ExpireShrinks(m, Least(m, DueKeys(m, now)), now, now);
  }

  lemma {:induction false} DrainSimilar(m: Machine, m': Machine, now: Time)
    requires Similar(m, m')
    ensures Similar(Drain(m, now).machine, Drain(m', now).machine)
    ensures EraseAll(Drain(m, now).out) == EraseAll(Drain(m', now).out)
    decreases |DueKeys(m, now)|
  {
    hide Similar, Expire, EraseAll;
    SimilarDue(m, m', now);
    if DueKeys(m, now) == {} {
    } else {
      var k := Least(m, DueKeys(m, now));
      var e, e' := Expire(m, k, now), Expire(m', k, now);
      DrainHead(m, now);
      SimilarKeys(m, m', k);
      SimilarExpire(m, m', k, now, now);
      DrainSimilar(e.machine, e'.machine, now);
      EraseHeads(e.out, e'.out, Drain(e.machine, now).out, Drain(e'.machine, now).out);
    }
  }

  lemma SimilarKeys(m: Machine, m': Machine, k: ConditionKey)
    requires Similar(m, m') && k in m.states
    ensures k in m'.states
  {
  }

  // A drain up to `t1` followed by one up to `t2` against a single drain up to `t2`.
  lemma {:induction false} DrainSplits(m: Machine, m': Machine, t1: Time, t2: Time)
    requires Similar(m, m') && t1 <= t2
    ensures var first := Drain(m, t1); var second := Drain(first.machine, t2);
      && Similar(second.machine, Drain(m', t2).machine)
      && EraseAll(first.out + second.out) == EraseAll(Drain(m', t2).out)
    decreases |DueKeys(m, t1)|
  {
    hide Similar, Expire, EraseAll;
    if DueKeys(m, t1) == {} {
      DrainSimilar(m, m', t2);
      assert [] + Drain(m, t2).out == Drain(m, t2).out;
    } else {
      var k := Least(m, DueKeys(m, t1));
      LeastEarlier(m, t1, t2);
      SimilarDue(m, m', t2);
      SimilarKeys(m, m', k);
      var e, e' := Expire(m, k, t1), Expire(m', k, t2);
      DrainHead(m, t1);
      DrainHead(m', t2);
      SimilarExpire(m, m', k, t1, t2);
      DrainSplits(e.machine, e'.machine, t1, t2);
      var a, b := Drain(e.machine, t1), Drain(Drain(e.machine, t1).machine, t2);
      EraseHeads(e.out, e'.out, a.out + b.out, Drain(e'.machine, t2).out);
      assert e.out + (a.out + b.out) == (e.out + a.out) + b.out;
    }
  }

  // A drain ignores the clock it runs under.
  lemma {:induction false} DrainIgnoresClock(m: Machine, logical: Time, now: Time)
    ensures Drain(m.(logical := logical), now)
         == Step(Drain(m, now).machine.(logical := logical), Drain(m, now).out)
    decreases |DueKeys(m, now)|
  {
    var m' := m.(logical := logical);
    assert DueKeys(m', now) == DueKeys(m, now);
    if DueKeys(m, now) == {} {
    } else {
      var k := Least(m, DueKeys(m, now));
      assert IsLeast(m', DueKeys(m, now), k);
      LeastUnique(m', DueKeys(m, now), k, Least(m', DueKeys(m, now)));
      ExpireIgnoresClock(m, logical, k, now);
      DrainHead(m, now);
      DrainHead(m', now);
      DrainIgnoresClock(Expire(m, k, now).machine, logical, now);
    }
  }

  lemma ExpireIgnoresClock(m: Machine, logical: Time, k: ConditionKey, now: Time)
    requires k in m.states
    ensures Expire(m.(logical := logical), k, now)
         == Step(Expire(m, k, now).machine.(logical := logical), Expire(m, k, now).out)
  {
  }

  /** Advancing to `t1` and then to `t2` emits the same transitions in the same order, and ends
      in the same state, as advancing to `t2` at once - up to the recorded processing times. */
  lemma AdvanceSplits(m: Machine, t1: Time, t2: Time)
    requires 0 < t1 <= t2
    ensures var first := AdvanceTo(m, t1); var second := AdvanceTo(first.machine, t2); var once := AdvanceTo(m, t2);
      && Similar(second.machine, once.machine)
      && EraseAll(first.out + second.out) == EraseAll(once.out)
  {
    hide Drain, EraseAll;
    var at1, at2 := Max(t1, m.logical), Max(t2, m.logical);
    var first := AdvanceTo(m, t1);
    AdvanceFired(m, t1);
    assert Max(t2, first.machine.logical) == at2;
    DrainSplits(Tick(m, t1), Tick(m, t1), at1, at2);
    DrainIgnoresClock(first.machine, at2, at2);
    DrainIgnoresClock(Tick(m, t1), at2, at2);
    assert Tick(m, t1).(logical := at2) == Tick(m, t2);
    SimilarClock(Drain(first.machine, at2).machine, Drain(Tick(m, t1), at2).machine, at2);
  }

  lemma SimilarClock(m: Machine, m': Machine, logical: Time)
    requires Similar(m, m')
    ensures Similar(m.(logical := logical), m'.(logical := logical))
  {
  }
}
