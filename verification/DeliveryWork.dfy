/** The durable notification outbox: intents, leases, delivery attempts and visible deliveries.
    Each transaction is one atomic step. Identity columns are row positions. */
module DeliveryWork {
  import opened Wrappers
  import opened Bytes
  import opened Conditions

  datatype IntentState = Pending | Claimed | Delivered | Failed
  datatype AttemptState = Started | Succeeded | AttemptFailed
  // A row of notification_intents; `dedupe` stands for transition, audience and type together.
  datatype Intent = Intent(
    dedupe: Text, generation: nat, payload: Text, state: IntentState, claimToken: Text, claimedUntil: Option<Time>,
    deliveredAt: Time)
  datatype Attempt = Attempt(intent: nat, number: nat, state: AttemptState, message: Text, finishedAt: Time)
  // A row of notification_deliveries, keyed by intent.
  datatype Visible = Visible(attempt: nat, deliveredAt: Time, message: Text)

  datatype Outbox = Outbox(intents: seq<Intent>, attempts: seq<Attempt>, deliveries: map<nat, Visible>)

  const EMPTY_OUTBOX := Outbox([], [], map[])

  // ----- the steps -----

  predicate Claimable(i: Intent, now: Time)
  {
    i.state != Delivered && (i.claimedUntil.None? || i.claimedUntil.value <= now)
  }

  predicate CanChoose(b: Outbox, chosen: set<nat>, now: Time)
  {
    forall i | i in chosen :: i < |b.intents| && Claimable(b.intents[i], now)
  }

  function ClaimIntents(intents: seq<Intent>, chosen: set<nat>, until: Time, token: Text): seq<Intent>
  {
    seq(|intents|, i requires 0 <= i < |intents| =>
      if i in chosen
      then intents[i].(state := Claimed, claimToken := token, claimedUntil := Some(until))
      else intents[i])
  }

  /** The worker holds an unexpired lease on the intent. */
  predicate Holds(b: Outbox, i: nat, token: Text, now: Time)
  {
    && i < |b.intents|
    && var n := b.intents[i];
       n.state == Claimed && n.claimToken == token && n.claimedUntil.Some? && n.claimedUntil.value > now
  }

  // COALESCE(MAX(attempt_number), 0) over the attempts of one intent.
  function MaxNumber(attempts: seq<Attempt>, i: nat): nat
  {
    if attempts == [] then 0
    else
      var n := |attempts| - 1;
      var front := MaxNumber(attempts[..n], i);
      if attempts[n].intent == i then Max(front, attempts[n].number) else front
  }

  function Begun(b: Outbox, i: nat): Outbox
  {
    b.(attempts := b.attempts + [Attempt(i, MaxNumber(b.attempts, i) + 1, Started, "", 0)])
  }

  predicate CanFinish(b: Outbox, i: nat, a: nat, token: Text, now: Time)
  {
    Holds(b, i, token, now) && a < |b.attempts| && b.attempts[a].intent == i
  }

  function Finished(b: Outbox, i: nat, a: nat, success: bool, message: Text, deliveryAt: Time): Outbox
    requires i < |b.intents| && a < |b.attempts|
  {
    var attempts := b.attempts[a := b.attempts[a].(
      state := if success then Succeeded else AttemptFailed, message := message, finishedAt := deliveryAt)];
    if success
    then Outbox(b.intents[i := b.intents[i].(state := Delivered, deliveredAt := deliveryAt, claimedUntil := None)],
                attempts, b.deliveries[i := Visible(a, deliveryAt, message)])
    else Outbox(b.intents[i := b.intents[i].(state := Failed, claimedUntil := None)], attempts, b.deliveries)
  }

  // ----- what every step keeps -----

  function CountOf(attempts: seq<Attempt>, i: nat): nat
  {
    if attempts == [] then 0
    else CountOf(attempts[..|attempts| - 1], i) + if attempts[|attempts| - 1].intent == i then 1 else 0
  }

  /** The attempts of each intent are numbered 1..n in order. */
  predicate Numbered(attempts: seq<Attempt>)
  {
    forall a | 0 <= a < |attempts| :: attempts[a].number == CountOf(attempts[..a + 1], attempts[a].intent)
  }

  /** An intent is delivered exactly when it has a visible delivery, and then exactly one of its
      attempts - the one that delivery names - succeeded. Only a claim holds a lease. */
  predicate OutboxOK(b: Outbox)
  {
    && Numbered(b.attempts)
    && (forall a | 0 <= a < |b.attempts| :: b.attempts[a].intent < |b.intents|)
    && (forall i | 0 <= i < |b.intents| :: b.intents[i].state == Delivered <==> i in b.deliveries)
    && (forall i | i in b.deliveries ::
          && i < |b.intents| && b.deliveries[i].attempt < |b.attempts|
          && b.attempts[b.deliveries[i].attempt].intent == i)
    && (forall a | 0 <= a < |b.attempts| ::
          b.attempts[a].state == Succeeded
          <==> b.attempts[a].intent in b.deliveries && b.deliveries[b.attempts[a].intent].attempt == a)
    && (forall i | 0 <= i < |b.intents| :: b.intents[i].claimedUntil.Some? <==> b.intents[i].state == Claimed)
    && (forall i, j | 0 <= i < j < |b.intents| :: b.intents[i].dedupe != b.intents[j].dedupe)
  }

  lemma CountPush(attempts: seq<Attempt>, x: Attempt, i: nat)
    ensures CountOf(attempts + [x], i) == CountOf(attempts, i) + if x.intent == i then 1 else 0
  {
    assert (attempts + [x])[..|attempts|] == attempts;
  }

  // With numbers 1..n in order, the maximum is the count, and no two attempts share a number.
  lemma {:induction false} MaxIsCount(attempts: seq<Attempt>, i: nat)
    requires Numbered(attempts)
    ensures MaxNumber(attempts, i) == CountOf(attempts, i)
  {
    if attempts == [] {
    } else {
      var n := |attempts| - 1;
      var front := attempts[..n];
      forall a | 0 <= a < n ensures front[a].number == CountOf(front[..a + 1], front[a].intent) {
        assert front[..a + 1] == attempts[..a + 1];
      }
      MaxIsCount(front, i);
      assert attempts[..n + 1] == attempts;
    }
  }

  lemma {:induction false} CountGrows(attempts: seq<Attempt>, m: nat, n: nat, i: nat)
    requires m <= n <= |attempts|
    ensures CountOf(attempts[..m], i) <= CountOf(attempts[..n], i)
  {
    if m < n {
      CountGrows(attempts, m, n - 1, i);
      assert attempts[..n][..n - 1] == attempts[..n - 1];
    }
  }

  /** The attempts of an intent are numbered 1..n: each of its attempts has a number in that range,
      no two of them the same, and every number in the range is taken. */
  lemma NumbersExact(attempts: seq<Attempt>, i: nat, k: nat)
    requires Numbered(attempts)
    ensures forall a | 0 <= a < |attempts| && attempts[a].intent == i :: 1 <= attempts[a].number <= CountOf(attempts, i)
    ensures forall a, c | 0 <= a < c < |attempts| && attempts[a].intent == attempts[c].intent == i ::
        attempts[a].number < attempts[c].number
    ensures 1 <= k <= CountOf(attempts, i) ==>
        exists a :: 0 <= a < |attempts| && attempts[a].intent == i && attempts[a].number == k
  {
    hide CountOf, Numbered;
    forall a | 0 <= a < |attempts| && attempts[a].intent == i ensures 1 <= attempts[a].number <= CountOf(attempts, i) {
      NumberBounds(attempts, a);
    }
    forall a, c | 0 <= a < c < |attempts| && attempts[a].intent == attempts[c].intent == i
      ensures attempts[a].number < attempts[c].number
    {
      NumbersIncrease(attempts, a, c);
    }
    if 1 <= k <= CountOf(attempts, i) {
      assert attempts[..|attempts|] == attempts;
      var a := NumberTaken(attempts, |attempts|, i, k);
      NumberBounds(attempts, a);
    }
  }

  lemma NumberBounds(attempts: seq<Attempt>, a: nat)
    requires Numbered(attempts) && a < |attempts|
    ensures 1 <= attempts[a].number <= CountOf(attempts, attempts[a].intent)
    ensures attempts[a].number == CountOf(attempts[..a + 1], attempts[a].intent)
  {
    hide CountOf;
    assert attempts[..|attempts|] == attempts;
    CountGrows(attempts, a + 1, |attempts|, attempts[a].intent);
    CountNext(attempts, a);
  }

  lemma NumbersIncrease(attempts: seq<Attempt>, a: nat, c: nat)
    requires Numbered(attempts) && a < c < |attempts| && attempts[a].intent == attempts[c].intent
    ensures attempts[a].number < attempts[c].number
  {
    hide CountOf;
    CountGrows(attempts, a + 1, c, attempts[a].intent);
    CountNext(attempts, c);
  }

  lemma CountNext(attempts: seq<Attempt>, a: nat)
    requires a < |attempts|
    ensures CountOf(attempts[..a + 1], attempts[a].intent) == CountOf(attempts[..a], attempts[a].intent) + 1
  {
    assert attempts[..a + 1][..a] == attempts[..a];
  }

  lemma {:induction false} NumberTaken(attempts: seq<Attempt>, n: nat, i: nat, k: nat) returns (a: nat)
    requires n <= |attempts| && 1 <= k <= CountOf(attempts[..n], i)
    ensures a < n && attempts[a].intent == i && CountOf(attempts[..a + 1], i) == k
  {
    assert attempts[..n][..n - 1] == attempts[..n - 1];
    if k <= CountOf(attempts[..n - 1], i) {
      a := NumberTaken(attempts, n - 1, i, k);
    } else {
      a := n - 1;
    }
  }

  lemma NumberedPush(attempts: seq<Attempt>, i: nat)
    requires Numbered(attempts)
    ensures Numbered(attempts + [Attempt(i, MaxNumber(attempts, i) + 1, Started, "", 0)])
  {
    var x := Attempt(i, MaxNumber(attempts, i) + 1, Started, "", 0);
    var after := attempts + [x];
    MaxIsCount(attempts, i);
    CountPush(attempts, x, i);
    forall a | 0 <= a < |after| ensures after[a].number == CountOf(after[..a + 1], after[a].intent) {
      if a < |attempts| { assert after[..a + 1] == attempts[..a + 1]; } else { assert after[..a + 1] == after; }
    }
  }

  lemma {:induction false} CountSame(xs: seq<Attempt>, ys: seq<Attempt>, i: nat)
    requires |xs| == |ys| && forall a | 0 <= a < |xs| :: xs[a].intent == ys[a].intent
    ensures CountOf(xs, i) == CountOf(ys, i)
  {
    if xs == [] {
    } else {
      CountSame(xs[..|xs| - 1], ys[..|ys| - 1], i);
    }
  }

  lemma NumberedSame(xs: seq<Attempt>, ys: seq<Attempt>)
    requires Numbered(xs) && |xs| == |ys|
    requires forall a | 0 <= a < |xs| :: xs[a].intent == ys[a].intent && xs[a].number == ys[a].number
    ensures Numbered(ys)
  {
    forall a | 0 <= a < |ys| ensures ys[a].number == CountOf(ys[..a + 1], ys[a].intent) {
      CountSame(xs[..a + 1], ys[..a + 1], ys[a].intent);
    }
  }

  lemma OutboxNumbered(b: Outbox)
    requires OutboxOK(b)
    ensures Numbered(b.attempts)
  {
  }

  lemma BegunKeeps(b: Outbox, i: nat)
    requires OutboxOK(b) && i < |b.intents|
    ensures OutboxOK(Begun(b, i))
  {
    hide Numbered, MaxNumber;
    NumberedPush(b.attempts, i);
  }

  lemma FinishedKeeps(b: Outbox, i: nat, a: nat, success: bool, message: Text, deliveryAt: Time)
    requires OutboxOK(b) && i < |b.intents| && b.intents[i].state == Claimed
    requires a < |b.attempts| && b.attempts[a].intent == i
    ensures OutboxOK(Finished(b, i, a, success, message, deliveryAt))
  {
    hide Numbered;
    NumberedSame(b.attempts, Finished(b, i, a, success, message, deliveryAt).attempts);
  }

  lemma ClaimKeeps(b: Outbox, chosen: set<nat>, now: Time, until: Time, token: Text)
    requires OutboxOK(b) && CanChoose(b, chosen, now)
    ensures OutboxOK(b.(intents := ClaimIntents(b.intents, chosen, until, token)))
  {
    hide Numbered;
  }

  // ----- creating intents -----

  // The row with this dedupe key, if any; the unique index makes it unique.
  function Find(intents: seq<Intent>, dedupe: Text): Option<nat>
  {
    if intents == [] then None
    else if intents[|intents| - 1].dedupe == dedupe then Some(|intents| - 1)
    else Find(intents[..|intents| - 1], dedupe)
  }

  lemma {:induction false} FindExact(intents: seq<Intent>, dedupe: Text)
    ensures Find(intents, dedupe).Some? ==>
      Find(intents, dedupe).value < |intents| && intents[Find(intents, dedupe).value].dedupe == dedupe
    ensures Find(intents, dedupe).None? <==> forall i | 0 <= i < |intents| :: intents[i].dedupe != dedupe
  {
    if intents == [] {
    } else {
      FindExact(intents[..|intents| - 1], dedupe);
    }
  }

  function Inserted(b: Outbox, dedupe: Text, generation: nat, payload: Text): Outbox
  {
    b.(intents := b.intents + [Intent(dedupe, generation, payload, Pending, "", None, 0)])
  }

  lemma InsertedKeeps(b: Outbox, dedupe: Text, generation: nat, payload: Text)
    requires OutboxOK(b) && Find(b.intents, dedupe).None?
    ensures OutboxOK(Inserted(b, dedupe, generation, payload))
  {
    hide Numbered;
    FindExact(b.intents, dedupe);
  }

  // ----- the store -----

  datatype Ensured = Created(id: nat) | Existing(id: nat) | Conflict

  // Row `i` holds exactly this data.
  predicate Stored(intents: seq<Intent>, i: nat, dedupe: Text, generation: nat, payload: Text)
  {
    i < |intents| && intents[i].dedupe == dedupe && intents[i].generation == generation && intents[i].payload == payload
  }

  lemma OneOfKey(b: Outbox, i: nat, dedupe: Text)
    requires OutboxOK(b) && i < |b.intents| && b.intents[i].dedupe == dedupe
    ensures forall j: nat | j < |b.intents| && b.intents[j].dedupe == dedupe :: j == i
  {
    hide Numbered;
  }

  class Store {
    var intents: seq<Intent>
    var attempts: seq<Attempt>
    var deliveries: map<nat, Visible>

    function Contents(): Outbox
      reads this
    {
      Outbox(intents, attempts, deliveries)
    }

    constructor ()
      ensures Contents() == EMPTY_OUTBOX && OutboxOK(Contents())
    {
      intents, attempts, deliveries := [], [], map[];
    }

    /** Insert unless the transition already has its intent; stored intent data is immutable. */
    method EnsureIntent(dedupe: Text, generation: nat, payload: Text) returns (r: Ensured)
      requires OutboxOK(Contents())
      modifies this
      ensures OutboxOK(Contents())
      ensures r.Created? <==> forall i | 0 <= i < |old(intents)| :: old(intents)[i].dedupe != dedupe
      ensures r.Created? ==>
        && r.id == |old(intents)| && Contents() == Inserted(old(Contents()), dedupe, generation, payload)
        && intents == old(intents) + [Intent(dedupe, generation, payload, Pending, "", None, 0)]
        && attempts == old(attempts) && deliveries == old(deliveries)
      ensures !r.Created? ==> Contents() == old(Contents())
      ensures Contents() == Act(old(Contents()), Create(dedupe, generation, payload))
      ensures r.Existing? <==> exists i: nat :: Stored(old(intents), i, dedupe, generation, payload)
      ensures r.Existing? ==> Stored(intents, r.id, dedupe, generation, payload)
    {
      hide Numbered;
      FindExact(intents, dedupe);
      var found := Find(intents, dedupe);
      if found.None? {
        InsertedKeeps(Contents(), dedupe, generation, payload);
        intents := intents + [Intent(dedupe, generation, payload, Pending, "", None, 0)];
        return Created(|intents| - 1);
      }
      var row := intents[found.value];
      OneOfKey(Contents(), found.value, dedupe);
      if row.generation != generation || row.payload != payload { return Conflict; }
      assert Stored(intents, found.value, dedupe, generation, payload);
      return Existing(found.value);
    }

    /** Lease up to `limit` intents. `chosen` is the database's choice among the claimable ones. */
    method ClaimNotificationIntents(now: Time, limit: int, lease: int, token: Text, chosen: set<nat>) returns (ok: bool)
      requires OutboxOK(Contents())
      requires CanChoose(Contents(), chosen, now) && |chosen| <= (if limit > 0 then limit else 0)
      modifies this`intents
      ensures OutboxOK(Contents())
      ensures ok <==> limit > 0 && token != "" && lease > 0
      ensures intents == if ok then ClaimIntents(old(intents), chosen, now + lease, token) else old(intents)
      ensures ok ==> forall i | i in chosen ::
        && i < |old(intents)| && old(intents)[i].state != Delivered
        && (old(intents)[i].claimedUntil.None? || old(intents)[i].claimedUntil.value <= now)
        && intents[i] == old(intents)[i].(state := Claimed, claimToken := token, claimedUntil := Some(now + lease))
      ensures forall i | 0 <= i < |old(intents)| && i !in chosen :: intents[i] == old(intents)[i]
      ensures lease >= 0 ==> Contents() == Act(old(Contents()), Claim(now, lease, token, chosen))
    {
      hide OutboxOK, ClaimIntents, CanChoose, Act;
      if lease >= 0 { ClaimActs(Contents(), now, lease, token, chosen); }
      if limit <= 0 || token == "" { return false; }
      if lease <= 0 { return false; }
      ClaimKeeps(Contents(), chosen, now, now + lease, token);
      ClaimedRows(Contents(), chosen, now, now + lease, token);
      intents := ClaimIntents(intents, chosen, now + lease, token);
      ok := true;
    }

    /** Append an attempt under the lease; its number follows the intent's highest. */
    method BeginDeliveryAttempt(i: nat, token: Text, now: Time) returns (attempt: Option<nat>)
      requires OutboxOK(Contents())
      modifies this`attempts
      ensures OutboxOK(Contents())
      ensures attempt.Some? <==> old(Holds(Contents(), i, token, now))
      ensures Contents() == if attempt.Some? then Begun(old(Contents()), i) else old(Contents())
      ensures Contents() == Act(old(Contents()), Begin(i, token, now))
      ensures attempt.Some? ==>
          && attempt.value == |old(attempts)|
          && attempts == old(attempts) + [Attempt(i, CountOf(old(attempts), i) + 1, Started, "", 0)]
    {
      hide OutboxOK, MaxNumber, CountOf;
      if i >= |intents| { return None; }
      var n := intents[i];
      if n.state != Claimed || n.claimToken != token || n.claimedUntil.None? || n.claimedUntil.value <= now {
        return None;
      }
      BegunKeeps(Contents(), i);
      OutboxNumbered(Contents());
      MaxIsCount(attempts, i);
      attempts := attempts + [Attempt(i, MaxNumber(attempts, i) + 1, Started, "", 0)];
      attempt := Some(|attempts| - 1);
    }

    /** Finish an attempt under the lease. The insert of the visible delivery never finds a row for
        the intent already there. */
    method FinishDeliveryAttempt(i: nat, a: nat, token: Text, success: bool, message: Text, deliveryAt: Time, now: Time)
      returns (ok: bool)
      requires OutboxOK(Contents())
      modifies this
      ensures OutboxOK(Contents())
      ensures ok <==> old(CanFinish(Contents(), i, a, token, now))
      ensures Contents()
           == if ok then Finished(old(Contents()), i, a, success, message, deliveryAt) else old(Contents())
      ensures ok ==> i !in old(deliveries)
      ensures Contents() == Act(old(Contents()), Finish(i, a, token, success, message, deliveryAt, now))
      ensures ok ==>
        && attempts == old(attempts)[a := old(attempts)[a].(
            state := if success then Succeeded else AttemptFailed, message := message, finishedAt := deliveryAt)]
        && (success ==>
            && intents == old(intents)[i := old(intents)[i].(
                state := Delivered, deliveredAt := deliveryAt, claimedUntil := None)]
            && deliveries == old(deliveries)[i := Visible(a, deliveryAt, message)])
        && (!success ==>
            && intents == old(intents)[i := old(intents)[i].(state := Failed, claimedUntil := None)]
            && deliveries == old(deliveries))
    {
      if i >= |intents| || a >= |attempts| || attempts[a].intent != i { return false; }
      var n := intents[i];
      if n.state != Claimed || n.claimToken != token || n.claimedUntil.None? || n.claimedUntil.value <= now {
        return false;
      }
      FinishedKeeps(Contents(), i, a, success, message, deliveryAt);
      var state := if success then Succeeded else AttemptFailed;
      attempts := attempts[a := attempts[a].(state := state, message := message, finishedAt := deliveryAt)];
      if success {
        deliveries := deliveries[i := Visible(a, deliveryAt, message)];
        intents := intents[i := n.(state := Delivered, deliveredAt := deliveryAt, claimedUntil := None)];
      } else {
        intents := intents[i := n.(state := Failed, claimedUntil := None)];
      }
      ok := true;
    }

    /** The replay's delivery of an intent it has just created, on a store where no other intent is
        outstanding: whichever row the database offers it is that one, and it ends delivered. */
    method Deliver(i: nat, at: Time, chosen: set<nat>) returns (ok: bool)
      requires OutboxOK(Contents())
      requires i < |intents| && Outstanding(Contents(), i)
      requires CanChoose(Contents(), chosen, at) && |chosen| <= 1 && (chosen == {} ==> NoneClaimable(Contents(), at))
      modifies this
      ensures OutboxOK(Contents())
      ensures ok && Contents() == DeliveredNow(old(Contents()), i, at)
    {
      var token := "demo-" + Decimal(i);
      OnlyChoice(Contents(), i, at, chosen);
      var claimed := ClaimNotificationIntents(at, 1, MINUTE, token, chosen);
      var attempt := BeginDeliveryAttempt(i, token, at);
      ok := FinishDeliveryAttempt(i, attempt.value, token, true, STUB_MESSAGE, at, at);
    }
  }

  lemma ClaimedRows(b: Outbox, chosen: set<nat>, now: Time, until: Time, token: Text)
    requires CanChoose(b, chosen, now)
    ensures var after := ClaimIntents(b.intents, chosen, until, token);
      && |after| == |b.intents|
      && (forall i | i in chosen ::
          && i < |b.intents| && b.intents[i].state != Delivered
          && (b.intents[i].claimedUntil.None? || b.intents[i].claimedUntil.value <= now)
          && after[i] == b.intents[i].(state := Claimed, claimToken := token, claimedUntil := Some(until)))
      && forall i | 0 <= i < |b.intents| && i !in chosen :: after[i] == b.intents[i]
  {
  }

  // A claim of nothing changes nothing, so a claim refused for its limit is one of nothing.
  lemma ClaimActs(b: Outbox, now: Time, lease: nat, token: Text, chosen: set<nat>)
    requires CanChoose(b, chosen, now)
    ensures Act(b, Claim(now, lease, token, chosen))
         == if lease > 0 && token != "" then b.(intents := ClaimIntents(b.intents, chosen, now + lease, token)) else b
    ensures ClaimIntents(b.intents, {}, now + lease, token) == b.intents
  {
  }

  const MINUTE := 60_000_000_000
  const STUB_MESSAGE: Text := "delivered by deterministic demo replay"

  // ----- the replay's deliveries -----

  /** Row `i` is fresh and every other intent is already delivered. */
  predicate Outstanding(b: Outbox, i: nat)
  {
    && i < |b.intents| && b.intents[i].state == Pending
    && forall j | 0 <= j < |b.intents| && j != i :: b.intents[j].state == Delivered
  }

  predicate NoneClaimable(b: Outbox, now: Time) { forall i | 0 <= i < |b.intents| :: !Claimable(b.intents[i], now) }

  lemma OnlyChoice(b: Outbox, i: nat, at: Time, chosen: set<nat>)
    requires OutboxOK(b) && Outstanding(b, i) && CanChoose(b, chosen, at)
    requires chosen == {} ==> NoneClaimable(b, at)
    ensures chosen == {i}
  {
    assert Claimable(b.intents[i], at);
    assert chosen <= {i};
  }

  function DeliveredNow(b: Outbox, i: nat, at: Time): Outbox
    requires i < |b.intents|
  {
    var claimed := b.(intents := ClaimIntents(b.intents, {i}, at + MINUTE, "demo-" + Decimal(i)));
    Finished(Begun(claimed, i), i, |b.attempts|, true, STUB_MESSAGE, at)
  }

  predicate AllDelivered(b: Outbox) { forall i | 0 <= i < |b.intents| :: b.intents[i].state == Delivered }

  datatype Planned = Planned(dedupe: Text, generation: nat, payload: Text, at: Time)

  /** Persisting planned intents in order: create, and deliver at once what was created. */
  function Persist(b: Outbox, ps: seq<Planned>): Outbox
  {
    if ps == [] then b
    else
      var before, p := Persist(b, ps[..|ps| - 1]), ps[|ps| - 1];
      if Find(before.intents, p.dedupe).Some? then before
      else DeliveredNow(Inserted(before, p.dedupe, p.generation, p.payload), |before.intents|, p.at)
  }

  lemma DeliveredNowKeeps(b: Outbox, i: nat, at: Time)
    requires OutboxOK(b) && Outstanding(b, i)
    ensures OutboxOK(DeliveredNow(b, i, at)) && AllDelivered(DeliveredNow(b, i, at))
    ensures |DeliveredNow(b, i, at).intents| == |b.intents| && |DeliveredNow(b, i, at).attempts| == |b.attempts| + 1
    ensures DeliveredNow(b, i, at).attempts[|b.attempts|].intent == i
  {
    hide OutboxOK, MaxNumber, Decimal;
    var token := "demo-" + Decimal(i);
    OutstandingClaimable(b, i, at);
    ClaimKeeps(b, {i}, at, at + MINUTE, token);
    var claimed := b.(intents := ClaimIntents(b.intents, {i}, at + MINUTE, token));
    BegunKeeps(claimed, i);
    FinishedKeeps(Begun(claimed, i), i, |b.attempts|, true, STUB_MESSAGE, at);
  }

  lemma OutstandingClaimable(b: Outbox, i: nat, at: Time)
    requires OutboxOK(b) && Outstanding(b, i)
    ensures Claimable(b.intents[i], at)
  {
    hide Numbered;
  }

  /** Every planned identity has a delivered intent, and intent `i` is delivered by attempt `i`. */
  ghost predicate DeliversEach(b: Outbox, ps: seq<Planned>)
  {
    && OutboxOK(b) && AllDelivered(b)
    && |b.attempts| == |b.intents| && (forall i | 0 <= i < |b.intents| :: b.attempts[i].intent == i)
    && (forall n | 0 <= n < |ps| :: Find(b.intents, ps[n].dedupe).Some?)
  }

  /** However many intents a replay plans, each distinct one ends delivered by its single attempt. */
  lemma {:induction false} ReplayDeliversEach(ps: seq<Planned>)
    ensures DeliversEach(Persist(EMPTY_OUTBOX, ps), ps)
  {
    hide DeliversEach, DeliveredNow, Inserted, Find;
    if ps == [] {
      NothingPlanned();
    } else {
      var n := |ps| - 1;
      ReplayDeliversEach(ps[..n]);
      assert ps == ps[..n] + [ps[n]];
      PersistStep(Persist(EMPTY_OUTBOX, ps[..n]), ps[..n], ps[n]);
    }
  }

  lemma NothingPlanned()
    ensures DeliversEach(EMPTY_OUTBOX, [])
  {
  }

  lemma PersistStep(before: Outbox, ps: seq<Planned>, p: Planned)
    requires DeliversEach(before, ps)
    ensures var inserted := Inserted(before, p.dedupe, p.generation, p.payload);
      var after :=
        if Find(before.intents, p.dedupe).Some? then before else DeliveredNow(inserted, |before.intents|, p.at);
      DeliversEach(after, ps + [p])
  {
    hide Numbered, DeliveredNow, Find, OutboxOK;
    if Find(before.intents, p.dedupe).None? {
      var i, inserted := |before.intents|, Inserted(before, p.dedupe, p.generation, p.payload);
      InsertedKeeps(before, p.dedupe, p.generation, p.payload);
      DeliveredNowKeeps(inserted, i, p.at);
      DeliveredNowSame(inserted, i, p.at);
      var b := DeliveredNow(inserted, i, p.at);
      forall q: Planned | q == p || Find(before.intents, q.dedupe).Some? ensures Find(b.intents, q.dedupe).Some? {
        FindStays(before.intents, b.intents, p.dedupe, q.dedupe);
      }
    }
  }

  lemma FindStays(before: seq<Intent>, after: seq<Intent>, added: Text, dedupe: Text)
    requires |after| == |before| + 1 && after[|before|].dedupe == added
    requires forall j | 0 <= j < |before| :: after[j].dedupe == before[j].dedupe
    requires dedupe == added || Find(before, dedupe).Some?
    ensures Find(after, dedupe).Some?
  {
    FindExact(before, dedupe);
    FindExact(after, dedupe);
  }

  lemma DeliveredNowSame(b: Outbox, i: nat, at: Time)
    requires i < |b.intents|
    ensures var b' := DeliveredNow(b, i, at);
      && |b'.intents| == |b.intents| && (forall j | 0 <= j < |b.intents| :: b'.intents[j].dedupe == b.intents[j].dedupe)
      && |b'.attempts| > |b.attempts|
          && (forall a | 0 <= a < |b.attempts| :: b'.attempts[a].intent == b.attempts[a].intent)
  {
    hide Decimal, MaxNumber;
  }

  // ----- any interleaving of steps by any workers -----

  datatype Action =
    | Create(dedupe: Text, generation: nat, payload: Text)
    | Claim(now: Time, lease: nat, token: Text, chosen: set<nat>)
    | Begin(i: nat, token: Text, now: Time)
    | Finish(i: nat, a: nat, token: Text, success: bool, message: Text, deliveryAt: Time, now: Time)

  predicate ClaimHappens(b: Outbox, a: Action)
  {
    a.Claim? && a.lease > 0 && a.token != "" && CanChoose(b, a.chosen, a.now)
  }

  /** The effect of an action; a rejected one, or a choice the database would not make, does nothing. */
  function Act(b: Outbox, a: Action): Outbox
  {
    match a
    case Create(dedupe, generation, payload) =>
      if Find(b.intents, dedupe).None? then Inserted(b, dedupe, generation, payload) else b
    case Claim(now, lease, token, chosen) =>
      if ClaimHappens(b, a) then b.(intents := ClaimIntents(b.intents, chosen, now + lease, token)) else b
    case Begin(i, token, now) => if Holds(b, i, token, now) then Begun(b, i) else b
    case Finish(i, n, token, success, message, deliveryAt, now) =>
      if CanFinish(b, i, n, token, now) then Finished(b, i, n, success, message, deliveryAt) else b
  }

  function ActAll(b: Outbox, actions: seq<Action>): Outbox
  {
    if actions == [] then b else Act(ActAll(b, actions[..|actions| - 1]), actions[|actions| - 1])
  }

  lemma ActKeeps(b: Outbox, a: Action)
    requires OutboxOK(b)
    ensures OutboxOK(Act(b, a))
  {
    hide OutboxOK, Begun, Finished, Inserted, ClaimIntents;
    match a
    case Create(dedupe, generation, payload) =>
      if Find(b.intents, dedupe).None? { InsertedKeeps(b, dedupe, generation, payload); }
    case Claim(now, lease, token, chosen) => if ClaimHappens(b, a) { ClaimKeeps(b, chosen, now, now + lease, token); }
    case Begin(i, token, now) => if Holds(b, i, token, now) { BegunKeeps(b, i); }
    case Finish(i, n, token, success, message, deliveryAt, now) =>
      if CanFinish(b, i, n, token, now) { FinishedKeeps(b, i, n, success, message, deliveryAt); }
  }

  /** Over any interleaving, with any tokens and any clocks, the outbox stays consistent. */
  lemma {:induction false} OutboxAlwaysOK(b: Outbox, actions: seq<Action>)
    requires OutboxOK(b)
    ensures OutboxOK(ActAll(b, actions))
  {
    if actions == [] {
    } else {
      OutboxAlwaysOK(b, actions[..|actions| - 1]);
      ActKeeps(ActAll(b, actions[..|actions| - 1]), actions[|actions| - 1]);
    }
  }

  lemma ActOnDelivered(b: Outbox, a: Action, i: nat)
    requires i < |b.intents| && b.intents[i].state == Delivered
    ensures var b' := Act(b, a);
      && i < |b'.intents| && b'.intents[i] == b.intents[i]
      && |b.attempts| <= |b'.attempts|
      && (i in b.deliveries ==> i in b'.deliveries && b'.deliveries[i] == b.deliveries[i])
      && (forall n | 0 <= n < |b.attempts| && b.attempts[n].intent == i :: b'.attempts[n] == b.attempts[n])
      && (forall n | 0 <= n < |b.attempts| :: b'.attempts[n].intent == b.attempts[n].intent)
      && (forall n | |b.attempts| <= n < |b'.attempts| :: b'.attempts[n].intent != i)
  {
    hide MaxNumber, Find;
    if ClaimHappens(b, a) { assert !Claimable(b.intents[i], a.now); }
  }

  /** Delivered is absorbing: the intent, its visible delivery and its attempts never change again,
      and no further attempt is made. */
  lemma {:induction false} DeliveredForever(b: Outbox, actions: seq<Action>, i: nat)
    requires OutboxOK(b) && i < |b.intents| && b.intents[i].state == Delivered
    ensures var b' := ActAll(b, actions);
      && i < |b'.intents| && b'.intents[i] == b.intents[i]
      && |b.attempts| <= |b'.attempts|
      && i in b.deliveries && i in b'.deliveries && b'.deliveries[i] == b.deliveries[i]
      && (forall n | 0 <= n < |b.attempts| && b.attempts[n].intent == i :: b'.attempts[n] == b.attempts[n])
      && (forall n | |b.attempts| <= n < |b'.attempts| :: b'.attempts[n].intent != i)
  {
    hide Act, Numbered;
    if actions == [] {
    } else {
      var n := |actions| - 1;
      DeliveredForever(b, actions[..n], i);
      ActOnDelivered(ActAll(b, actions[..n]), actions[n], i);
    }
  }

  predicate UsesToken(a: Action, token: Text) { a.Claim? && a.token == token }

  /** A worker whose lease was taken over under another token neither begins nor finishes anything
      on the intent again, whatever its clock says, as long as nobody claims with its token. */
  lemma {:induction false} SupersededNeverFinishes(b: Outbox, actions: seq<Action>, i: nat, token: Text, a: nat,
                                                   now: Time)
    requires i < |b.intents| && b.intents[i].claimToken != token
    requires forall n | 0 <= n < |actions| :: !UsesToken(actions[n], token)
    ensures var b' := ActAll(b, actions); i < |b'.intents| && b'.intents[i].claimToken != token
    ensures !CanFinish(ActAll(b, actions), i, a, token, now) && !Holds(ActAll(b, actions), i, token, now)
  {
    hide MaxNumber, Find;
    if actions == [] {
    } else {
      var n := |actions| - 1;
      assert !UsesToken(actions[n], token);
      SupersededNeverFinishes(b, actions[..n], i, token, a, now);
    }
  }

  lemma NotHeldStep(b: Outbox, a: Action, i: nat, token: Text, now: Time)
    requires !Holds(b, i, token, now) && !UsesToken(a, token)
    ensures !Holds(Act(b, a), i, token, now)
  {
    hide MaxNumber, Find;
  }

  /** A lease that has lapsed, or was never held, stays lost at every clock from then on: over any
      interleaving in which nobody claims with its token, its holder neither begins nor finishes
      anything on the intent, whether or not anyone has taken over. */
  lemma {:induction false} LapsedNeverFinishes(b: Outbox, actions: seq<Action>, i: nat, token: Text, now: Time)
    requires !Holds(b, i, token, now)
    requires forall n | 0 <= n < |actions| :: !UsesToken(actions[n], token)
    ensures forall t | now <= t ::
        !Holds(ActAll(b, actions), i, token, t) && forall a :: !CanFinish(ActAll(b, actions), i, a, token, t)
  {
    hide Act, Holds;
    if actions == [] {
      forall t | now <= t ensures !Holds(b, i, token, t) { NotHeldLater(b, i, token, now, t); }
    } else {
      var n := |actions| - 1;
      assert !UsesToken(actions[n], token);
      LapsedNeverFinishes(b, actions[..n], i, token, now);
      forall t | now <= t ensures !Holds(ActAll(b, actions), i, token, t) {
        NotHeldStep(ActAll(b, actions[..n]), actions[n], i, token, t);
      }
    }
  }

  lemma NotHeldLater(b: Outbox, i: nat, token: Text, now: Time, t: Time)
    requires !Holds(b, i, token, now) && now <= t
    ensures !Holds(b, i, token, t)
  {
  }

  /** An undelivered intent can be claimed exactly when nobody's lease on it still runs. */
  lemma ClaimableExactly(b: Outbox, i: nat, now: Time)
    requires OutboxOK(b) && i < |b.intents|
    ensures Claimable(b.intents[i], now) <==>
      b.intents[i].state != Delivered && forall token :: !Holds(b, i, token, now)
  {
    hide Numbered;
    if forall token :: !Holds(b, i, token, now) { assert !Holds(b, i, b.intents[i].claimToken, now); }
  }
}
