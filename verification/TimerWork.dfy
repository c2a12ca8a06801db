/** The durable timer table: replacement by generation, leases, and fenced completion. Each
    transaction is one atomic step. Identity columns are row positions. */
module TimerWork {
  import opened Wrappers
  import opened Bytes
  import opened Conditions

  datatype Status = Pending | Claimed | Done | Cancelled
  datatype Row = Row(
    key: Text, dueAt: Time, phase: Text, generation: nat, status: Status, claimToken: Text, claimedUntil: Option<Time>)

  /** The rows of `timers`, and `condition_trackers` reduced to its generation column. */
  datatype TimerTables = TimerTables(rows: seq<Row>, generations: map<Text, nat>)

  predicate IsLive(r: Row) { r.status == Pending || r.status == Claimed }

  predicate IsTimerPhase(phase: Text) { phase == "trigger" || phase == "clear" }

  // ----- the steps -----

  function CancelLive(rows: seq<Row>, key: Text): seq<Row>
  {
    seq(|rows|, i requires 0 <= i < |rows| =>
      if rows[i].key == key && IsLive(rows[i]) then rows[i].(status := Cancelled, claimedUntil := None) else rows[i])
  }

  predicate CanReplace(t: TimerTables, key: Text, phase: Text) { IsTimerPhase(phase) && key in t.generations }

  function Replaced(t: TimerTables, key: Text, phase: Text, dueAt: Time): TimerTables
    requires CanReplace(t, key, phase)
  {
    var generation := t.generations[key] + 1;
    TimerTables(CancelLive(t.rows, key) + [Row(key, dueAt, phase, generation, Pending, "", None)],
           t.generations[key := generation])
  }

  /** A row a worker whose clock reads `now` may claim. */
  predicate Claimable(r: Row, now: Time)
  {
    IsLive(r) && r.dueAt <= now && (r.claimedUntil.None? || r.claimedUntil.value <= now)
  }

  function ClaimRows(rows: seq<Row>, chosen: set<nat>, until: Time, token: Text): seq<Row>
  {
    seq(|rows|, i requires 0 <= i < |rows| =>
      if i in chosen then rows[i].(status := Claimed, claimToken := token, claimedUntil := Some(until)) else rows[i])
  }

  /** The row is leased under the token, and the lease still runs. */
  predicate Leased(t: TimerTables, id: nat, token: Text, now: Time)
  {
    && id < |t.rows|
    && var r := t.rows[id];
       r.status == Claimed && r.claimToken == token && r.claimedUntil.Some? && r.claimedUntil.value > now
  }

  predicate Completable(t: TimerTables, id: nat, generation: nat, token: Text, now: Time)
  {
    Leased(t, id, token, now) && t.rows[id].generation == generation
  }

  function Completed(t: TimerTables, id: nat): TimerTables
    requires id < |t.rows|
  {
    t.(rows := t.rows[id := t.rows[id].(status := Done, claimedUntil := None)])
  }

  // ----- what every step keeps -----

  /** A live row carries its tracker's current generation, generations are unique per key, no row is
      ahead of its tracker, and only a claim holds a lease. */
  predicate TablesOK(t: TimerTables)
  {
    && (forall i | 0 <= i < |t.rows| ::
          && t.rows[i].key in t.generations
          && t.rows[i].generation <= t.generations[t.rows[i].key]
          && (IsLive(t.rows[i]) ==> t.rows[i].generation == t.generations[t.rows[i].key])
          && (t.rows[i].claimedUntil.Some? <==> t.rows[i].status == Claimed))
    && (forall i, j | 0 <= i < j < |t.rows| && t.rows[i].key == t.rows[j].key ::
        t.rows[i].generation < t.rows[j].generation)
  }

  class Store {
    var rows: seq<Row>
    var generations: map<Text, nat>

    function Tables(): TimerTables
      reads this
    {
      TimerTables(rows, generations)
    }

    constructor ()
      ensures Tables() == TimerTables([], map[]) && TablesOK(Tables())
    {
      rows, generations := [], map[];
    }

    /** Advance the generation, cancel what the key had, insert the new timer. The unique index on
        key and generation is never violated. */
    method ReplaceTimer(key: Text, phase: Text, dueAt: Time) returns (generation: Option<nat>)
      requires TablesOK(Tables())
      modifies this
      ensures TablesOK(Tables())
      ensures generation.Some? <==> old(CanReplace(Tables(), key, phase))
      ensures generation.None? ==> Tables() == old(Tables())
      ensures Tables() == Act(old(Tables()), Replace(key, phase, dueAt))
      ensures generation.Some? ==>
        && Tables() == Replaced(old(Tables()), key, phase, dueAt)
        && generation.value == generations[key] == old(generations)[key] + 1
        && |rows| == |old(rows)| + 1
        && rows[|old(rows)|] == Row(key, dueAt, phase, generation.value, Pending, "", None)
        && (forall i | 0 <= i < |old(rows)| ::
            if old(rows)[i].key == key && (old(rows)[i].status == Pending || old(rows)[i].status == Claimed)
            then rows[i] == old(rows)[i].(status := Cancelled, claimedUntil := None)
            else rows[i] == old(rows)[i])
        && (forall k | k in old(generations) && k != key :: k in generations && generations[k] == old(generations)[k])
        && forall i | 0 <= i < |old(rows)| && old(rows)[i].key == key :: old(rows)[i].generation < generation.value
    {
      hide TablesOK, CancelLive;
      if phase != "trigger" && phase != "clear" { return None; }
      if key !in generations { return None; }
      ReplacedKeeps(Tables(), key, phase, dueAt);
      CancelledRows(Tables(), key);
      generations := generations[key := generations[key] + 1];
      rows := CancelLive(rows, key);
      rows := rows + [Row(key, dueAt, phase, generations[key], Pending, "", None)];
      generation := Some(generations[key]);
    }

    /** Lease up to `limit` claimable rows. `chosen` is the database's choice among them: rows
        another transaction holds locked are skipped. */
    method ClaimDueTimers(now: Time, limit: int, lease: int, token: Text, chosen: set<nat>) returns (ok: bool)
      requires TablesOK(Tables())
      requires |chosen| <= (if limit > 0 then limit else 0)
      requires forall i | i in chosen :: i < |rows| && Claimable(rows[i], now)
      modifies this
      ensures TablesOK(Tables())
      ensures ok <==> limit > 0 && token != "" && lease > 0
      ensures generations == old(generations)
      ensures rows == if ok then ClaimRows(old(rows), chosen, now + lease, token) else old(rows)
      ensures ok ==> forall i | i in chosen ::
        && i < |old(rows)| && old(rows)[i].dueAt <= now
        && (old(rows)[i].status == Pending || old(rows)[i].status == Claimed)
        && (old(rows)[i].claimedUntil.None? || old(rows)[i].claimedUntil.value <= now)
        && rows[i] == old(rows)[i].(status := Claimed, claimToken := token, claimedUntil := Some(now + lease))
      ensures forall i | 0 <= i < |old(rows)| && i !in chosen :: rows[i] == old(rows)[i]
      ensures lease >= 0 ==> Tables() == Act(old(Tables()), Claim(now, lease, token, chosen))
    {
      hide TablesOK, ClaimRows, Claimable, Act;
      if lease >= 0 { ClaimActs(Tables(), now, lease, token, chosen); }
      if limit <= 0 || token == "" || lease <= 0 { return false; }
      ClaimedRows(Tables(), chosen, now, now + lease, token);
      ClaimKeeps(Tables(), chosen, now + lease, token);
      rows := ClaimRows(rows, chosen, now + lease, token);
      ok := true;
    }

    /** Fenced by generation, token and an unexpired lease. */
    method CompleteTimer(id: nat, generation: nat, token: Text, now: Time) returns (ok: bool)
      requires TablesOK(Tables())
      modifies this
      ensures TablesOK(Tables())
      ensures ok <==> old(Completable(Tables(), id, generation, token, now))
      ensures Tables() == if ok then Completed(old(Tables()), id) else old(Tables())
      ensures Tables() == Act(old(Tables()), Complete(id, generation, token, now))
      ensures ok <==>
        && id < |old(rows)| && old(rows)[id].status == Claimed && old(rows)[id].generation == generation
        && old(rows)[id].claimToken == token
        && old(rows)[id].claimedUntil.Some? && now < old(rows)[id].claimedUntil.value
      ensures ok ==> rows == old(rows)[id := old(rows)[id].(status := Done, claimedUntil := None)]
    {
      if id >= |rows| { return false; }
      var r := rows[id];
      if r.generation != generation || r.status != Claimed || r.claimToken != token { return false; }
      if r.claimedUntil.None? || r.claimedUntil.value <= now { return false; }
      rows := rows[id := r.(status := Done, claimedUntil := None)];
      ok := true;
    }
  }

  lemma ClaimedRows(t: TimerTables, chosen: set<nat>, now: Time, until: Time, token: Text)
    requires forall i | i in chosen :: i < |t.rows| && Claimable(t.rows[i], now)
    ensures forall i | i in chosen :: i < |t.rows| && IsLive(t.rows[i])
    ensures var after := ClaimRows(t.rows, chosen, until, token);
      && |after| == |t.rows|
      && (forall i | i in chosen ::
          && i < |t.rows| && t.rows[i].dueAt <= now
          && (t.rows[i].status == Pending || t.rows[i].status == Claimed)
          && (t.rows[i].claimedUntil.None? || t.rows[i].claimedUntil.value <= now)
          && after[i] == t.rows[i].(status := Claimed, claimToken := token, claimedUntil := Some(until)))
      && forall i | 0 <= i < |t.rows| && i !in chosen :: after[i] == t.rows[i]
  {
  }

  // A claim of nothing changes nothing, so a claim refused for its limit is one of nothing.
  lemma ClaimActs(t: TimerTables, now: Time, lease: nat, token: Text, chosen: set<nat>)
    requires forall i | i in chosen :: i < |t.rows| && Claimable(t.rows[i], now)
    ensures Act(t, Claim(now, lease, token, chosen))
         == if lease > 0 && token != "" then t.(rows := ClaimRows(t.rows, chosen, now + lease, token)) else t
    ensures ClaimRows(t.rows, {}, now + lease, token) == t.rows
  {
  }

  lemma CancelledRows(t: TimerTables, key: Text)
    requires TablesOK(t) && key in t.generations
    ensures |CancelLive(t.rows, key)| == |t.rows|
    ensures forall i | 0 <= i < |t.rows| ::
      CancelLive(t.rows, key)[i]
      == if t.rows[i].key == key && (t.rows[i].status == Pending || t.rows[i].status == Claimed)
         then t.rows[i].(status := Cancelled, claimedUntil := None) else t.rows[i]
    ensures forall i | 0 <= i < |t.rows| && t.rows[i].key == key :: t.rows[i].generation < t.generations[key] + 1
  {
  }

  lemma ReplacedKeeps(t: TimerTables, key: Text, phase: Text, dueAt: Time)
    requires TablesOK(t) && CanReplace(t, key, phase)
    ensures TablesOK(Replaced(t, key, phase, dueAt))
  {
    var n, t' := |t.rows|, Replaced(t, key, phase, dueAt);
    forall i, j | 0 <= i < j < |t'.rows| && t'.rows[i].key == t'.rows[j].key
      ensures t'.rows[i].generation < t'.rows[j].generation
    {
      if j < n {
        assert t.rows[i].generation < t.rows[j].generation;
      } else {
        assert t.rows[i].generation <= t.generations[key];
      }
    }
  }

  lemma ClaimKeeps(t: TimerTables, chosen: set<nat>, until: Time, token: Text)
    requires TablesOK(t) && forall i | i in chosen :: i < |t.rows| && IsLive(t.rows[i])
    ensures TablesOK(t.(rows := ClaimRows(t.rows, chosen, until, token)))
  {
    var t' := t.(rows := ClaimRows(t.rows, chosen, until, token));
    forall i, j | 0 <= i < j < |t'.rows| && t'.rows[i].key == t'.rows[j].key
      ensures t'.rows[i].generation < t'.rows[j].generation
    {
      assert t.rows[i].generation < t.rows[j].generation;
    }
  }

  /** A key has at most one pending-or-claimed timer. */
  lemma OneLiveTimer(t: TimerTables, i: nat, j: nat)
    requires TablesOK(t) && i < |t.rows| && j < |t.rows|
    requires t.rows[i].key == t.rows[j].key
    ensures IsLive(t.rows[i]) && IsLive(t.rows[j]) ==> i == j
  {
    assert i < j ==> t.rows[i].generation < t.rows[j].generation;
    assert j < i ==> t.rows[j].generation < t.rows[i].generation;
  }

  // ----- any interleaving of steps by any workers -----

  datatype Action =
    | Track(key: Text)
    | Replace(key: Text, phase: Text, dueAt: Time)
    | Claim(now: Time, lease: nat, token: Text, chosen: set<nat>)
    | Complete(id: nat, generation: nat, token: Text, now: Time)

  /** The effect of an action; a rejected one, or a choice the database would not make, does nothing. */
  function Act(t: TimerTables, a: Action): TimerTables
  {
    match a
    case Track(key) => if key in t.generations then t else t.(generations := t.generations[key := 0])
    case Replace(key, phase, dueAt) => if CanReplace(t, key, phase) then Replaced(t, key, phase, dueAt) else t
    case Claim(now, lease, token, chosen) =>
      if lease > 0 && token != "" && (forall i | i in chosen :: i < |t.rows| && Claimable(t.rows[i], now))
      then t.(rows := ClaimRows(t.rows, chosen, now + lease, token)) else t
    case Complete(id, generation, token, now) =>
      if Completable(t, id, generation, token, now) then Completed(t, id) else t
  }

  function ActAll(t: TimerTables, actions: seq<Action>): TimerTables
  {
    if actions == [] then t else Act(ActAll(t, actions[..|actions| - 1]), actions[|actions| - 1])
  }

  lemma ActKeeps(t: TimerTables, a: Action)
    requires TablesOK(t)
    ensures TablesOK(Act(t, a))
  {
    hide TablesOK, Replaced, ClaimRows, Completed, Completable;
    match a
    case Track(key) => TrackKeeps(t, key);
    case Replace(key, phase, dueAt) => if CanReplace(t, key, phase) { ReplacedKeeps(t, key, phase, dueAt); }
    case Claim(now, lease, token, chosen) =>
      if lease > 0 && token != "" && (forall i | i in chosen :: i < |t.rows| && Claimable(t.rows[i], now)) {
        ClaimKeeps(t, chosen, now + lease, token);
      }
    case Complete(id, generation, token, now) =>
      if Completable(t, id, generation, token, now) { CompleteKeeps(t, id, generation, token, now); }
  }

  lemma TrackKeeps(t: TimerTables, key: Text)
    requires TablesOK(t)
    ensures TablesOK(t.(generations := t.generations[key := if key in t.generations then t.generations[key] else 0]))
  {
  }

  lemma CompleteKeeps(t: TimerTables, id: nat, generation: nat, token: Text, now: Time)
    requires TablesOK(t) && Completable(t, id, generation, token, now)
    ensures TablesOK(Completed(t, id))
  {
  }

  /** The table invariant holds under every interleaving. */
  lemma {:induction false} TablesAlwaysOK(t: TimerTables, actions: seq<Action>)
    requires TablesOK(t)
    ensures TablesOK(ActAll(t, actions))
  {
    if actions == [] {
    } else {
      TablesAlwaysOK(t, actions[..|actions| - 1]);
      ActKeeps(ActAll(t, actions[..|actions| - 1]), actions[|actions| - 1]);
    }
  }

  /** A row that is done or cancelled is frozen: no interleaving changes or completes it again. */
  lemma {:induction false} SettledRowFrozen(t: TimerTables, actions: seq<Action>, id: nat)
    requires id < |t.rows| && !IsLive(t.rows[id])
    ensures var t' := ActAll(t, actions); id < |t'.rows| && t'.rows[id] == t.rows[id]
    ensures forall g, token, now :: !Completable(ActAll(t, actions), id, g, token, now)
  {
    if actions == [] {
    } else {
      SettledRowFrozen(t, actions[..|actions| - 1], id);
      var before := ActAll(t, actions[..|actions| - 1]);
      assert !Claimable(before.rows[id], 0);
      match actions[|actions| - 1]
      case Claim(now, lease, token, chosen) => assert !Claimable(before.rows[id], now);
      case _ =>
    }
  }

  /** Once a key's timer is replaced, its older timers - leased ones included - never complete. */
  lemma ReplacedNeverCompletes(t: TimerTables, key: Text, phase: Text, dueAt: Time, actions: seq<Action>, id: nat,
                               generation: nat, token: Text, now: Time)
    requires TablesOK(t) && CanReplace(t, key, phase)
    requires id < |t.rows| && t.rows[id].key == key
    ensures !Completable(ActAll(Replaced(t, key, phase, dueAt), actions), id, generation, token, now)
  {
    SettledRowFrozen(Replaced(t, key, phase, dueAt), actions, id);
  }

  /** A completion succeeds at most once per timer, and only for the current generation. */
  lemma CompletesOnce(t: TimerTables, id: nat, g: nat, token: Text, now: Time, actions: seq<Action>, g': nat,
                      token': Text, now': Time)
    requires TablesOK(t) && Completable(t, id, g, token, now)
    ensures g == t.generations[t.rows[id].key]
    ensures !Completable(ActAll(Completed(t, id), actions), id, g', token', now')
  {
    SettledRowFrozen(Completed(t, id), actions, id);
  }

  predicate UsesToken(a: Action, token: Text) { a.Claim? && a.token == token }

  /** A worker whose lease was taken over under another token is fenced off for good, whatever its
      clock says, as long as nobody claims with its token again. */
  lemma {:induction false} SupersededNeverCompletes(t: TimerTables, actions: seq<Action>, id: nat, token: Text, g: nat,
                                                    now: Time)
    requires id < |t.rows| && t.rows[id].claimToken != token
    requires forall i | 0 <= i < |actions| :: !UsesToken(actions[i], token)
    ensures var t' := ActAll(t, actions); id < |t'.rows| && t'.rows[id].claimToken != token
    ensures !Completable(ActAll(t, actions), id, g, token, now)
  {
    if actions == [] {
    } else {
      var n := |actions| - 1;
      assert !UsesToken(actions[n], token);
      SupersededNeverCompletes(t, actions[..n], id, token, g, now);
    }
  }

  lemma LapsedStep(t: TimerTables, a: Action, id: nat, token: Text, now: Time)
    requires !Leased(t, id, token, now) && !UsesToken(a, token)
    ensures !Leased(Act(t, a), id, token, now)
  {
  }

  /** A lease that has lapsed stays lost at every clock from then on: over any interleaving in which
      nobody claims with its token, its holder completes nothing, taken over or not. */
  lemma {:induction false} LapsedNeverCompletes(t: TimerTables, actions: seq<Action>, id: nat, token: Text, now: Time)
    requires !Leased(t, id, token, now)
    requires forall i | 0 <= i < |actions| :: !UsesToken(actions[i], token)
    ensures forall later, g | now <= later :: !Completable(ActAll(t, actions), id, g, token, later)
    ensures !Leased(ActAll(t, actions), id, token, now)
  {
    hide Act;
    if actions != [] {
      var n := |actions| - 1;
      assert !UsesToken(actions[n], token);
      LapsedNeverCompletes(t, actions[..n], id, token, now);
      LapsedStep(ActAll(t, actions[..n]), actions[n], id, token, now);
    }
  }

  /** A due row that is not settled can be claimed exactly when nobody's lease on it still runs. */
  lemma ClaimableExactly(t: TimerTables, id: nat, now: Time)
    requires TablesOK(t) && id < |t.rows| && t.rows[id].dueAt <= now
    ensures Claimable(t.rows[id], now) <==>
      && (t.rows[id].status == Pending || t.rows[id].status == Claimed)
      && forall token :: !Leased(t, id, token, now)
  {
    if forall token :: !Leased(t, id, token, now) { assert !Leased(t, id, t.rows[id].claimToken, now); }
  }
}
