/** Alert series: condition episodes contribute to one series per rule and subject. */
module Alerts {
  import opened Bytes
  import opened Conditions
  import opened ConditionHistory

  datatype SeriesKey = SeriesKey(ruleID: Text, subjectKind: Text, subjectID: Text)
  datatype Contributor = Contributor(episodeID: Text, revision: int, openedAt: Time, evidenceAt: Time)
  datatype Start = Start(
    id: Text, series: SeriesKey, revision: int, at: Time, effectiveAt: Time, evidenceAt: Time)
  datatype Stop = Stop(id: Text, series: SeriesKey, at: Time, effectiveAt: Time, evidenceAt: Time)
  datatype Kind = Open | Recovery
  datatype AlertTransition = AlertTransition(
    id: Text, series: SeriesKey, seriesID: Text, generation: nat, kind: Kind, at: Time,
    effectiveAt: Time, evidenceAt: Time, episodeID: Text, revision: int)
  datatype Series = Series(generation: nat, open: bool, contributors: map<Text, Contributor>)

  const EMPTY_SERIES := Series(0, false, map[])

  /** Everything the alert reducer remembers. */
  datatype AlertState = AlertState(series: map<SeriesKey, Series>, closed: set<Text>, journal: seq<AlertTransition>)
  datatype AlertStep = AlertStep(state: AlertState, out: seq<AlertTransition>)

  const NO_ALERTS := AlertState(map[], {}, [])

  function SeriesID(k: SeriesKey): Text
  {
    StableID("alert-series", CanonicalParts([k.ruleID, k.subjectKind, k.subjectID]))
  }

  function KindCode(k: Kind): nat { if k == Open then 0 else 1 }

  function AlertTransitionID(k: SeriesKey, generation: nat, kind: Kind): Text
  {
    StableID("alert-transition", SeriesID(k) + "|" + Decimal(generation) + "|" + Decimal(KindCode(kind)))
  }

  function SeriesAt(a: AlertState, k: SeriesKey): Series { if k in a.series then a.series[k] else EMPTY_SERIES }

  // ----- the two operations -----

  function NonZero(t: Time, fallback: Time): Time { if t == 0 then fallback else t }

  function OpenTransition(e: Start, generation: nat): AlertTransition
  {
    AlertTransition(AlertTransitionID(e.series, generation, Open), e.series, SeriesID(e.series), generation, Open,
                    e.at, NonZero(NonZero(e.effectiveAt, e.at), e.evidenceAt), e.evidenceAt, e.id, e.revision)
  }

  function RecoveryTransition(c: Stop, generation: nat, from: Contributor): AlertTransition
  {
    AlertTransition(AlertTransitionID(c.series, generation, Recovery), c.series, SeriesID(c.series), generation,
                    Recovery, c.at, NonZero(c.effectiveAt, c.at), NonZero(c.evidenceAt, from.evidenceAt), c.id,
                    from.revision)
  }

  function ApplyStartTo(a: AlertState, e: Start): AlertStep
  {
    if e.id == "" || e.id in a.closed then AlertStep(a, [])
    else
      var s := SeriesAt(a, e.series);
      if e.id in s.contributors then AlertStep(a.(series := a.series[e.series := s]), [])
      else
        var joined := s.contributors[e.id := Contributor(e.id, e.revision, e.at, e.evidenceAt)];
        if s.open then AlertStep(a.(series := a.series[e.series := s.(contributors := joined)]), [])
        else
          var t := OpenTransition(e, s.generation + 1);
          var raised := a.series[e.series := Series(s.generation + 1, true, joined)];
          AlertStep(AlertState(raised, a.closed, a.journal + [t]), [t])
  }

  function ApplyClearTo(a: AlertState, c: Stop): AlertStep
  {
    if c.id == "" || c.id in a.closed then AlertStep(a, [])
    else
      var s := SeriesAt(a, c.series);
      if c.id !in s.contributors then AlertStep(a.(series := a.series[c.series := s]), [])
      else
        var left, closed := s.contributors - {c.id}, a.closed + {c.id};
        if left != map[] || !s.open
        then AlertStep(AlertState(a.series[c.series := s.(contributors := left)], closed, a.journal), [])
        else
          var t := RecoveryTransition(c, s.generation, s.contributors[c.id]);
          AlertStep(AlertState(a.series[c.series := Series(s.generation, false, left)], closed, a.journal + [t]), [t])
  }

  class Reducer {
    var series: map<SeriesKey, Series>
    var closed: set<Text>
    var transitions: seq<AlertTransition>

    function State(): AlertState
      reads this
    {
      AlertState(series, closed, transitions)
    }

    constructor ()
      ensures State() == NO_ALERTS
    {
      series, closed, transitions := map[], {}, [];
    }

    method Get(k: SeriesKey) returns (s: Series)
      modifies this
      ensures s == old(SeriesAt(State(), k))
      ensures State() == old(State()).(series := old(series)[k := s])
    {
      if k !in series { series := series[k := EMPTY_SERIES]; }
      s := series[k];
      assert series == old(series)[k := s];
    }

    method ApplyStart(e: Start) returns (out: seq<AlertTransition>)
      modifies this
      ensures AlertStep(State(), out) == ApplyStartTo(old(State()), e)
    {
      out := [];
      if e.id == "" || e.id in closed { return; }
      var s := Get(e.series);
      if e.id in s.contributors { return; }
      s := s.(contributors := s.contributors[e.id := Contributor(e.id, e.revision, e.at, e.evidenceAt)]);
      var wasOpen := s.open;
      if !wasOpen {
        s := s.(open := true, generation := s.generation + 1);
        var effectiveAt := e.effectiveAt;
        if effectiveAt == 0 { effectiveAt := e.at; }
        if effectiveAt == 0 { effectiveAt := e.evidenceAt; }
        var t := AlertTransition(AlertTransitionID(e.series, s.generation, Open), e.series, SeriesID(e.series),
                                 s.generation, Open, e.at, effectiveAt, e.evidenceAt, e.id, e.revision);
        transitions := transitions + [t];
        out := [t];
      }
      series := series[e.series := s];
    }

    method ApplyClear(c: Stop) returns (out: seq<AlertTransition>)
      modifies this
      ensures AlertStep(State(), out) == ApplyClearTo(old(State()), c)
    {
      out := [];
      if c.id == "" || c.id in closed { return; }
      var s := Get(c.series);
      if c.id !in s.contributors { return; }
      var from := s.contributors[c.id];
      s := s.(contributors := s.contributors - {c.id});
      closed := closed + {c.id};
      if s.contributors == map[] && s.open {
        s := s.(open := false);
        var effectiveAt, evidenceAt := c.effectiveAt, c.evidenceAt;
        if effectiveAt == 0 { effectiveAt := c.at; }
        if evidenceAt == 0 { evidenceAt := from.evidenceAt; }
        var t := AlertTransition(AlertTransitionID(c.series, s.generation, Recovery), c.series, SeriesID(c.series),
                                 s.generation, Recovery, c.at, effectiveAt, evidenceAt, c.id, from.revision);
        transitions := transitions + [t];
        out := [t];
      }
      series := series[c.series := s];
    }

    /** Apply a complete condition episode: its start and, once cleared, its end. */
    method ApplyEpisode(e: Episode) returns (out: seq<AlertTransition>)
      modifies this
      ensures AlertStep(State(), out) == ApplyEpisodeTo(old(State()), e)
    {
      hide ApplyStartTo, ApplyClearTo;
      out := ApplyStart(Start(e.id, SeriesOf(e.key), e.key.revision, e.trigger.at,
                              e.trigger.times.effectiveAt, e.trigger.times.evidenceAt));
      if e.clear.Some? {
        var c := e.clear.value;
        var more := ApplyClear(Stop(e.id, SeriesOf(e.key), c.at, c.times.effectiveAt, c.times.evidenceAt));
        out := out + more;
      }
    }
  }

  // ----- identity of alert transitions -----

  lemma SeriesIDInjective(k: SeriesKey, l: SeriesKey)
    requires SeriesID(k) == SeriesID(l)
    ensures k == l
  {
    var a, b := [k.ruleID, k.subjectKind, k.subjectID], [l.ruleID, l.subjectKind, l.subjectID];
    StableIDInjective("alert-series", a, "alert-series", b);
    assert a[0] == b[0] && a[1] == b[1] && a[2] == b[2];
  }

  lemma NoBar(k: SeriesKey)
    ensures '|' !in SeriesID(k)
  {
    assert forall c | c in Hex(CanonicalParts([k.ruleID, k.subjectKind, k.subjectID])) :: IsHex(c);
  }

  lemma AlertTransitionIDInjective(k: SeriesKey, g: nat, kind: Kind, k': SeriesKey, g': nat, kind': Kind)
    requires AlertTransitionID(k, g, kind) == AlertTransitionID(k', g', kind')
    ensures k == k' && g == g' && kind == kind'
  {
    hide SeriesID, CanonicalParts, Decimal;
    var n, n' := Decimal(KindCode(kind)), Decimal(KindCode(kind'));
    var x, x' := Decimal(g) + ['|'] + n, Decimal(g') + ['|'] + n';
    var v, v' := SeriesID(k) + "|" + Decimal(g) + "|" + n, SeriesID(k') + "|" + Decimal(g') + "|" + n';
    SplitUnique('_', "alert-transition", Hex(v), "alert-transition", Hex(v'));
    HexInjective(v, v');
    NoBar(k);
    NoBar(k');
    assert v == SeriesID(k) + ['|'] + x && v' == SeriesID(k') + ['|'] + x';
    SplitUnique('|', SeriesID(k), x, SeriesID(k'), x');
    SeriesIDInjective(k, k');
    assert AllDigits(Decimal(g)) && AllDigits(Decimal(g')) && !IsDigit('|');
    SplitUnique('|', Decimal(g), n, Decimal(g'), n');
    DecimalInjective(g, g');
    DecimalInjective(KindCode(kind), KindCode(kind'));
  }

  // ----- the life of one series -----

  datatype Call = StartCall(e: Start) | StopCall(c: Stop)

  function Perform(a: AlertState, call: Call): AlertStep
  {
    match call
    case StartCall(e) => ApplyStartTo(a, e)
    case StopCall(c) => ApplyClearTo(a, c)
  }

  function Run(calls: seq<Call>): AlertState
  {
    if calls == [] then NO_ALERTS else Perform(Run(calls[..|calls| - 1]), calls[|calls| - 1]).state
  }

  function OfSeries(js: seq<AlertTransition>, k: SeriesKey): seq<AlertTransition>
  {
    if js == [] then []
    else
      var front := OfSeries(js[..|js| - 1], k);
      if js[|js| - 1].series == k then front + [js[|js| - 1]] else front
  }

  lemma OfSeriesPush(js: seq<AlertTransition>, t: AlertTransition, k: SeriesKey)
    ensures OfSeries(js + [t], k) == if t.series == k then OfSeries(js, k) + [t] else OfSeries(js, k)
  {
    assert (js + [t])[..|js|] == js;
  }

  // Half of `n`, rounded up: the generation of the last of `n` alternating transitions.
  function Pairs(n: nat): nat { if n == 0 then 0 else if Odd(n) then Pairs(n - 1) + 1 else Pairs(n - 1) }

  predicate AlertEntryOK(t: AlertTransition, k: SeriesKey, i: nat)
  {
    && t.series == k && t.seriesID == SeriesID(k)
    && t.kind == (if Odd(i) then Recovery else Open)
    && t.generation == Pairs(i + 1)
    && t.id == AlertTransitionID(k, t.generation, t.kind)
  }

  /** A series alternates Open and Recovery with generations 1,1,2,2,...; it is open after an odd
      number of transitions, and open exactly while it has contributors. */
  ghost predicate SeriesOK(a: AlertState, k: SeriesKey)
  {
    var h, s := OfSeries(a.journal, k), SeriesAt(a, k);
    && (forall i | 0 <= i < |h| :: AlertEntryOK(h[i], k, i))
    && s.generation == Pairs(|h|)
    && (s.open <==> Odd(|h|))
    && (s.open <==> s.contributors != map[])
    && (forall id | id in s.contributors :: id != "" && s.contributors[id].episodeID == id)
  }

  lemma SeriesPush(a: AlertState, a': AlertState, k: SeriesKey, s: Series, t: AlertTransition, l: SeriesKey)
    requires SeriesOK(a, l)
    requires a'.series == a.series[k := s] && a'.journal == a.journal + [t]
    requires AlertEntryOK(t, k, |OfSeries(a.journal, k)|)
    requires l == k ==>
      && s.generation == Pairs(|OfSeries(a.journal, k)| + 1)
      && s.open == Odd(|OfSeries(a.journal, k)| + 1) && (s.open <==> s.contributors != map[])
      && (forall id | id in s.contributors :: id != "" && s.contributors[id].episodeID == id)
    ensures SeriesOK(a', l)
  {
    hide SeriesID, AlertTransitionID;
    OfSeriesPush(a.journal, t, l);
  }

  lemma SeriesKept(a: AlertState, a': AlertState, k: SeriesKey, s: Series, l: SeriesKey)
    requires SeriesOK(a, l)
    requires a'.series == a.series[k := s] && a'.journal == a.journal
    requires l == k ==>
      && s.generation == SeriesAt(a, k).generation && s.open == SeriesAt(a, k).open
      && (s.open <==> s.contributors != map[])
      && (forall id | id in s.contributors :: id != "" && s.contributors[id].episodeID == id)
    ensures SeriesOK(a', l)
  {
  }

  lemma StartKeepsSeries(a: AlertState, e: Start, l: SeriesKey)
    requires SeriesOK(a, l) && SeriesOK(a, e.series)
    ensures SeriesOK(ApplyStartTo(a, e).state, l)
  {
    hide SeriesID, AlertTransitionID;
    var a', k, s := ApplyStartTo(a, e).state, e.series, SeriesAt(a, e.series);
    if e.id != "" && e.id !in a.closed {
      var joined := s.contributors[e.id := Contributor(e.id, e.revision, e.at, e.evidenceAt)];
      if e.id in s.contributors {
        SeriesKept(a, a', k, s, l);
      } else if s.open {
        SeriesKept(a, a', k, s.(contributors := joined), l);
      } else {
        assert e.id in joined;
        SeriesPush(a, a', k, Series(s.generation + 1, true, joined), OpenTransition(e, s.generation + 1), l);
      }
    }
  }

  lemma StopKeepsSeries(a: AlertState, c: Stop, l: SeriesKey)
    requires SeriesOK(a, l) && SeriesOK(a, c.series)
    ensures SeriesOK(ApplyClearTo(a, c).state, l)
  {
    hide SeriesID, AlertTransitionID;
    var a', k, s := ApplyClearTo(a, c).state, c.series, SeriesAt(a, c.series);
    if c.id != "" && c.id !in a.closed {
      var left := s.contributors - {c.id};
      if c.id !in s.contributors {
        SeriesKept(a, a', k, s, l);
      } else if left != map[] || !s.open {
        SeriesKept(a, a', k, s.(contributors := left), l);
      } else {
        SeriesPush(a, a', k, Series(s.generation, false, left),
          RecoveryTransition(c, s.generation, s.contributors[c.id]), l);
      }
    }
  }

  /** The life of a series, over any sequence of starts and clears whatsoever. */
  lemma {:induction false} SeriesLife(calls: seq<Call>, k: SeriesKey)
    ensures SeriesOK(Run(calls), k)
  {
    if calls == [] {
    } else {
      var front, call := calls[..|calls| - 1], calls[|calls| - 1];
      SeriesLife(front, k);
      match call
      case StartCall(e) => SeriesLife(front, e.series); StartKeepsSeries(Run(front), e, k);
      case StopCall(c) => SeriesLife(front, c.series); StopKeepsSeries(Run(front), c, k);
    }
  }

  /** So opens never trail recoveries, and lead by at most one. */
  lemma {:induction false} OpensLead(h: seq<AlertTransition>, k: SeriesKey)
    requires forall i | 0 <= i < |h| :: AlertEntryOK(h[i], k, i)
    ensures CountKind(h, Open) == CountKind(h, Recovery) + if Odd(|h|) then 1 else 0
  {
    if h == [] {
    } else {
      OpensLead(h[..|h| - 1], k);
    }
  }

  function CountKind(h: seq<AlertTransition>, kind: Kind): nat
  {
    if h == [] then 0 else CountKind(h[..|h| - 1], kind) + if h[|h| - 1].kind == kind then 1 else 0
  }

  // ----- distinct identities -----

  lemma {:induction false} PairsMonotone(m: nat, n: nat)
    requires m <= n
    ensures Pairs(m) <= Pairs(n)
  {
    if m < n { PairsMonotone(m, n - 1); }
  }

  // A generation and a kind name one position.
  lemma PairsInjective(i: nat, j: nat)
    requires i < j && Pairs(i + 1) == Pairs(j + 1)
    ensures Odd(i) != Odd(j)
  {
    PairsMonotone(i + 1, j);
    PairsMonotone(j, j + 1);
    if j > i + 1 {
      PairsMonotone(i + 1, j - 1);
      assert Pairs(j + 1) == Pairs(j - 1) + 1;
    }
  }

  // Where entry `i` of a journal stands among the transitions of its series.
  lemma {:induction false} OfSeriesIndex(js: seq<AlertTransition>, i: nat, n: nat)
    requires i < n <= |js|
    ensures var h := OfSeries(js[..n], js[i].series);
      |OfSeries(js[..i], js[i].series)| < |h| && h[|OfSeries(js[..i], js[i].series)|] == js[i]
  {
    assert js[..n][..n - 1] == js[..n - 1];
    if i < n - 1 { OfSeriesIndex(js, i, n - 1); }
  }

  /** No two alert transitions of a well-formed journal share an identity. */
  lemma AlertIDsDistinct(a: AlertState, i: nat, j: nat)
    requires (forall k :: SeriesOK(a, k)) && i < j < |a.journal|
    ensures a.journal[i].id != a.journal[j].id
  {
    hide AlertTransitionID, SeriesID, OfSeries;
    var t, u, n := a.journal[i], a.journal[j], |a.journal|;
    assert a.journal[..n] == a.journal && SeriesOK(a, t.series) && SeriesOK(a, u.series);
    OfSeriesIndex(a.journal, i, n);
    OfSeriesIndex(a.journal, j, n);
    OfSeriesIndex(a.journal, i, j);
    var p, q := |OfSeries(a.journal[..i], t.series)|, |OfSeries(a.journal[..j], u.series)|;
    assert AlertEntryOK(OfSeries(a.journal, t.series)[p], t.series, p);
    assert AlertEntryOK(OfSeries(a.journal, u.series)[q], u.series, q);
    if t.id == u.id {
      AlertTransitionIDInjective(t.series, t.generation, t.kind, u.series, u.generation, u.kind);
      PairsInjective(p, q);
    }
  }

  // ----- closed episodes -----

  function CallSeries(call: Call): SeriesKey { if call.StartCall? then call.e.series else call.c.series }

  function CallEpisode(call: Call): Text { if call.StartCall? then call.e.id else call.c.id }

  /** Each episode identifier is used with one series. */
  ghost predicate OneSeriesEach(calls: seq<Call>, home: Text -> SeriesKey)
  {
    forall i | 0 <= i < |calls| :: CallSeries(calls[i]) == home(CallEpisode(calls[i]))
  }

  // ----- exactly when a closed episode still contributes -----

  /** No closed episode contributes to any series. */
  ghost predicate ClosedClear(a: AlertState)
  {
    forall k, id | id in SeriesAt(a, k).contributors :: id !in a.closed
  }

  /** The call is an effective clear of an episode that another series also holds. */
  ghost predicate Strands(a: AlertState, call: Call)
  {
    && call.StopCall? && call.c.id != "" && call.c.id !in a.closed
    && call.c.id in SeriesAt(a, call.c.series).contributors
    && exists k :: k != call.c.series && call.c.id in SeriesAt(a, k).contributors
  }

  // Whether an identifier contributes to a series after a call, and whether it is closed.
  lemma PerformEffect(a: AlertState, call: Call, k: SeriesKey, id: Text)
    ensures var a' := Perform(a, call).state;
      && (id in SeriesAt(a', k).contributors <==>
          || (id in SeriesAt(a, k).contributors
              && !(call.StopCall? && call.c.id == id && call.c.series == k && id != "" && id !in a.closed))
          || (call.StartCall? && call.e.id == id && call.e.series == k && id != "" && id !in a.closed))
      && (id in a'.closed <==>
          || id in a.closed
          || (call.StopCall? && call.c.id == id && id != "" && id in SeriesAt(a, call.c.series).contributors))
  {
    hide SeriesID, AlertTransitionID;
  }

  // From a clear state, one call leaves a closed episode contributing exactly when it strands it.
  lemma ClosedStep(a: AlertState, call: Call)
    requires ClosedClear(a)
    ensures ClosedClear(Perform(a, call).state) <==> !Strands(a, call)
  {
    hide Perform;
    var a' := Perform(a, call).state;
    forall k, id ensures id in SeriesAt(a', k).contributors && id in a'.closed ==> Strands(a, call) {
      PerformEffect(a, call, k, id);
    }
    if Strands(a, call) {
      var id := call.c.id;
      var k :| k != call.c.series && id in SeriesAt(a, k).contributors;
      PerformEffect(a, call, k, id);
    }
  }

  lemma StrandedStays(a: AlertState, call: Call)
    requires !ClosedClear(a)
    ensures !ClosedClear(Perform(a, call).state)
  {
    hide Perform;
    var k, id :| id in SeriesAt(a, k).contributors && id in a.closed;
    PerformEffect(a, call, k, id);
  }

  /** Call `i` of the run strands the episode it clears. */
  ghost predicate StrandsAt(calls: seq<Call>, i: nat) { i < |calls| && Strands(Run(calls[..i]), calls[i]) }

  lemma StrandsPrefix(calls: seq<Call>, n: nat, i: nat)
    requires i < n <= |calls|
    ensures StrandsAt(calls[..n], i) <==> StrandsAt(calls, i)
  {
    hide Run, Strands;
    assert calls[..n][..i] == calls[..i];
  }

  /** Over any calls at all: no closed episode contributes at the end exactly when no call of the run
      cleared an episode that another series held. */
  lemma {:induction false} ClosedExactly(calls: seq<Call>)
    ensures ClosedClear(Run(calls)) <==> forall i: nat :: !StrandsAt(calls, i)
  {
    hide Perform, Strands, ClosedClear;
    if calls == [] {
      NothingClosed();
    } else {
      var n := |calls| - 1;
      ClosedExactly(calls[..n]);
      forall i: nat | i < n ensures StrandsAt(calls[..n], i) <==> StrandsAt(calls, i) { StrandsPrefix(calls, n, i); }
      assert StrandsAt(calls, n) <==> Strands(Run(calls[..n]), calls[n]);
      if ClosedClear(Run(calls[..n])) {
        ClosedStep(Run(calls[..n]), calls[n]);
      } else {
        StrandedStays(Run(calls[..n]), calls[n]);
      }
    }
  }

  lemma NothingClosed()
    ensures ClosedClear(NO_ALERTS)
  {
  }

  // Every contributor is in the series its identifier belongs to.
  ghost predicate AtHome(a: AlertState, home: Text -> SeriesKey)
  {
    forall k, id | id in SeriesAt(a, k).contributors :: home(id) == k
  }

  lemma {:induction false} ContributorsAtHome(calls: seq<Call>, home: Text -> SeriesKey)
    requires OneSeriesEach(calls, home)
    ensures AtHome(Run(calls), home)
  {
    hide Perform;
    if calls == [] {
    } else {
      var n := |calls| - 1;
      assert OneSeriesEach(calls[..n], home);
      ContributorsAtHome(calls[..n], home);
      forall k, id | id in SeriesAt(Run(calls), k).contributors ensures home(id) == k {
        PerformEffect(Run(calls[..n]), calls[n], k, id);
      }
    }
  }

  /** So when every episode keeps to one series, a closed episode never contributes again. */
  lemma ClosedNeverContributes(calls: seq<Call>, home: Text -> SeriesKey)
    requires OneSeriesEach(calls, home)
    ensures ClosedClear(Run(calls)) && AtHome(Run(calls), home)
  {
    hide Perform, ClosedClear, Run;
    ContributorsAtHome(calls, home);
    forall i: nat ensures !StrandsAt(calls, i) {
      if i < |calls| {
        assert OneSeriesEach(calls[..i], home);
        ContributorsAtHome(calls[..i], home);
      }
    }
    ClosedExactly(calls);
  }

  /** An episode used with two series breaks that: cleared in one, it stays in the other. */
  lemma TwoSeriesStrand(k: SeriesKey, l: SeriesKey)
    requires k != l
    ensures var start := Start("e", k, 1, 1, 1, 1);
      var a := Run([StartCall(start), StartCall(start.(series := l)), StopCall(Stop("e", k, 2, 2, 2))]);
      "e" in a.closed && "e" in SeriesAt(a, l).contributors && SeriesAt(a, l).open
  {
    hide SeriesID, AlertTransitionID;
    var start := Start("e", k, 1, 1, 1, 1);
    var calls := [StartCall(start), StartCall(start.(series := l)), StopCall(Stop("e", k, 2, 2, 2))];
    assert calls[..2] == [calls[0], calls[1]] && calls[..2][..1] == [calls[0]] && [calls[0]][..0] == [];
    var a1 := Perform(NO_ALERTS, calls[0]).state;
    assert Run([calls[0]]) == a1;
    var a2 := Perform(a1, calls[1]).state;
    assert Run(calls[..2]) == a2;
    assert Run(calls) == Perform(a2, calls[2]).state;
  }

  // ----- complete condition episodes -----

  function SeriesOf(k: ConditionKey): SeriesKey { SeriesKey(k.ruleID, k.subject.kind, k.subject.id) }

  function StartOf(t: Transition): Start
  {
    Start(t.episodeID, SeriesOf(t.key), t.key.revision, t.at, t.times.effectiveAt, t.times.evidenceAt)
  }

  function StopOf(t: Transition): Stop
  {
    Stop(t.episodeID, SeriesOf(t.key), t.at, t.times.effectiveAt, t.times.evidenceAt)
  }

  function ApplyEpisodeTo(a: AlertState, e: Episode): AlertStep
  {
    var start := ApplyStartTo(a,
        StartOf(e.trigger).(id := e.id, series := SeriesOf(e.key), revision := e.key.revision));
    if e.clear.None? then start
    else
      var closed := ApplyClearTo(start.state, StopOf(e.clear.value).(id := e.id, series := SeriesOf(e.key)));
      AlertStep(closed.state, start.out + closed.out)
  }

  /** Applying the same episode again, open or closed, emits nothing and changes nothing. */
  lemma EpisodeIdempotent(a: AlertState, e: Episode)
    ensures var once := ApplyEpisodeTo(a, e).state; ApplyEpisodeTo(once, e) == AlertStep(once, [])
  {
    hide SeriesID, AlertTransitionID;
    var once := ApplyEpisodeTo(a, e).state;
    if e.clear.Some? && e.id != "" {
      assert e.id in once.closed;
    } else if e.id != "" && e.id !in a.closed {
      var k := SeriesOf(e.key);
      assert e.id in once.series[k].contributors && once.series[k := once.series[k]] == once.series;
    }
  }
}
