/** Planning notification intents, and the in-memory delivery fence. */
module Notifications {
  import opened Wrappers
  import opened Bytes
  import opened Conditions
  import opened Alerts

  datatype Policy = Policy(onOpen: bool, onRecovery: bool, audience: Text)
  datatype Intent = Intent(
    id: Text, alertTransitionID: Text, seriesID: Text, generation: nat, kind: Kind, audience: Text,
    at: Time, effectiveAt: Time, evidenceAt: Time)

  // ----- planning -----

  function IntentID(t: AlertTransition): Text
  {
    StableID("notification-intent", CanonicalParts([t.id, Decimal(t.generation), Decimal(KindCode(t.kind))]))
  }

  lemma IntentIDInjective(t: AlertTransition, u: AlertTransition)
    requires IntentID(t) == IntentID(u)
    ensures t.id == u.id && t.generation == u.generation && t.kind == u.kind
  {
    var a, b := [t.id, Decimal(t.generation), Decimal(KindCode(t.kind))],
        [u.id, Decimal(u.generation), Decimal(KindCode(u.kind))];
    StableIDInjective("notification-intent", a, "notification-intent", b);
    assert a[0] == b[0] && a[1] == b[1] && a[2] == b[2];
    DecimalInjective(t.generation, u.generation);
    DecimalInjective(KindCode(t.kind), KindCode(u.kind));
  }

  predicate Wanted(t: AlertTransition, p: Policy) { if t.kind == Open then p.onOpen else p.onRecovery }

  function IntentFor(t: AlertTransition, p: Policy): Intent
  {
    Intent(IntentID(t), t.id, t.seriesID, t.generation, t.kind, p.audience, t.at, t.effectiveAt, t.evidenceAt)
  }

  /** The planner's table after planning one transition, and the intent it created, if any. */
  function PlanIn(intents: map<Text, Intent>, t: AlertTransition, p: Policy): (map<Text, Intent>, Option<Intent>)
  {
    if !Wanted(t, p) || IntentID(t) in intents then (intents, None)
    else (intents[IntentID(t) := IntentFor(t, p)], Some(IntentFor(t, p)))
  }

  class Planner {
    var intents: map<Text, Intent>

    constructor ()
      ensures intents == map[]
    {
      intents := map[];
    }

    /** Replaying a transition returns the original intent and creates nothing. */
    method Plan(t: AlertTransition, p: Policy) returns (intent: Option<Intent>, created: bool)
      modifies this
      ensures (intents, if created then intent else None) == PlanIn(old(intents), t, p)
      ensures intent.Some? <==> (t.kind == Open && p.onOpen) || (t.kind == Recovery && p.onRecovery)
      ensures created <==> intent.Some? && IntentID(t) !in old(intents)
      ensures created ==>
        var i := intent.value;
        && i.id == IntentID(t) && i.alertTransitionID == t.id && i.seriesID == t.seriesID
        && i.generation == t.generation && i.kind == t.kind && i.audience == p.audience
        && i.at == t.at && i.effectiveAt == t.effectiveAt && i.evidenceAt == t.evidenceAt
      ensures intent.Some? ==> IntentID(t) in intents && intents[IntentID(t)] == intent.value
    {
      if (t.kind == Open && !p.onOpen) || (t.kind == Recovery && !p.onRecovery) { return None, false; }
      var id := IntentID(t);
      if id in intents { return Some(intents[id]), false; }
      var i := Intent(id, t.id, t.seriesID, t.generation, t.kind, p.audience, t.at, t.effectiveAt, t.evidenceAt);
      intents := intents[id := i];
      return Some(i), true;
    }
  }

  // ----- delivery -----

  datatype Status = Pending | Claimed | Delivered | Failed
  datatype Attempt = Attempt(number: nat, token: Text, status: Status, startedAt: Time, finishedAt: Time, error: Text)
  datatype Delivery = Delivery(intentID: Text, status: Status, claimToken: Text, attempts: seq<Attempt>)

  function ClaimToken(intentID: Text, n: nat): (t: Text)
    ensures t != ""
  {
    StableID("delivery-claim", CanonicalParts([intentID, Decimal(n)]))
  }

  lemma ClaimTokenInjective(i: Text, m: nat, j: Text, n: nat)
    requires ClaimToken(i, m) == ClaimToken(j, n)
    ensures i == j && m == n
  {
    var a, b := [i, Decimal(m)], [j, Decimal(n)];
    StableIDInjective("delivery-claim", a, "delivery-claim", b);
    assert a[0] == b[0] && a[1] == b[1];
    DecimalInjective(m, n);
  }

  /** Every attempt but the last failed, the last shows the delivery's own status, attempts are
      numbered 1..n with their own tokens, and a token is held exactly while claimed. */
  predicate DeliveryOK(d: Delivery)
  {
    && (d.status == Pending <==> d.attempts == [])
    && (forall i | 0 <= i < |d.attempts| ::
        d.attempts[i].number == i + 1 && d.attempts[i].token == ClaimToken(d.intentID, i + 1))
    && (forall i | 0 <= i < |d.attempts| - 1 :: d.attempts[i].status == Failed)
    && (d.attempts != [] ==> d.attempts[|d.attempts| - 1].status == d.status)
    && d.claimToken == (if d.status == Claimed then ClaimToken(d.intentID, |d.attempts|) else "")
  }

  predicate TableOK(ds: map<Text, Delivery>) { forall id | id in ds :: ds[id].intentID == id && DeliveryOK(ds[id]) }

  function BeginIn(d: Delivery, at: Time): Delivery
  {
    var n := |d.attempts| + 1;
    var token := ClaimToken(d.intentID, n);
    d.(status := Claimed, claimToken := token, attempts := d.attempts + [Attempt(n, token, Claimed, at, 0, "")])
  }

  function SettleIn(d: Delivery, status: Status, at: Time, error: Option<Text>): Delivery
    requires d.attempts != []
  {
    var n := |d.attempts| - 1;
    var a := d.attempts[n].(status := status, finishedAt := at);
    d.(status := status, claimToken := "",
       attempts := d.attempts[n := if error.Some? then a.(error := error.value) else a])
  }

  // The token is the current claim of the delivery.
  predicate HoldsClaim(d: Delivery, token: Text) { d.status == Claimed && d.claimToken == token && d.attempts != [] }

  datatype DeliveryCall =
    | BeginCall(at: Time)
    | CompleteCall(token: Text, at: Time)
    | FailCall(token: Text, at: Time, error: Option<Text>)

  /** What a call does to a delivery; rejected calls leave it alone. */
  function CallOn(d: Delivery, call: DeliveryCall): Delivery
  {
    match call
    case BeginCall(at) => if d.status == Pending || d.status == Failed then BeginIn(d, at) else d
    case CompleteCall(token, at) => if HoldsClaim(d, token) then SettleIn(d, Delivered, at, None) else d
    case FailCall(token, at, error) => if HoldsClaim(d, token) then SettleIn(d, Failed, at, error) else d
  }

  /** `d'` is `d` with one more attempt, claimed at `at` under its own token. */
  predicate Started(d: Delivery, d': Delivery, at: Time)
  {
    && d'.intentID == d.intentID && d'.status == Claimed && |d'.attempts| == |d.attempts| + 1
    && (forall i | 0 <= i < |d.attempts| :: d'.attempts[i] == d.attempts[i])
    && var a := d'.attempts[|d.attempts|];
       a.number == |d.attempts| + 1 && a.token == d'.claimToken && a.status == Claimed
       && a.startedAt == at && a.finishedAt == 0 && a.error == ""
  }

  /** `d'` is `d` with its last attempt settled at `at`, and no claim left. */
  predicate Settled(d: Delivery, d': Delivery, status: Status, at: Time, error: Option<Text>)
  {
    && d'.intentID == d.intentID && d'.status == status && d'.claimToken == ""
    && 0 < |d.attempts| == |d'.attempts|
    && (forall i | 0 <= i < |d.attempts| - 1 :: d'.attempts[i] == d.attempts[i])
    && var a, a' := d.attempts[|d.attempts| - 1], d'.attempts[|d.attempts| - 1];
       a'.number == a.number && a'.token == a.token && a'.startedAt == a.startedAt
       && a'.status == status && a'.finishedAt == at
       && a'.error == match error case None => a.error case Some(text) => text
  }

  function Called(ds: map<Text, Delivery>, id: Text, call: DeliveryCall): map<Text, Delivery>
  {
    if id in ds then ds[id := CallOn(ds[id], call)] else ds
  }

  class DeliveryReducer {
    var deliveries: map<Text, Delivery>

    constructor ()
      ensures deliveries == map[]
    {
      deliveries := map[];
    }

    method Ensure(id: Text) returns (d: Delivery)
      requires TableOK(deliveries)
      modifies this
      ensures TableOK(deliveries)
      ensures deliveries
           == if id in old(deliveries) then old(deliveries) else old(deliveries)[id := Delivery(id, Pending, "", [])]
      ensures d == deliveries[id]
    {
      if id in deliveries { return deliveries[id]; }
      d := Delivery(id, Pending, "", []);
      deliveries := deliveries[id := d];
    }

    /** Succeeds exactly when the delivery exists and is pending or failed. */
    method Begin(id: Text, at: Time) returns (d: Option<Delivery>)
      requires TableOK(deliveries)
      modifies this
      ensures TableOK(deliveries)
      ensures d.Some? <==>
          id in old(deliveries) && (old(deliveries)[id].status == Pending || old(deliveries)[id].status == Failed)
      ensures d.Some? ==> id in deliveries && d.value == deliveries[id] && Started(old(deliveries)[id], d.value, at)
      ensures deliveries == Called(old(deliveries), id, BeginCall(at))
    {
      hide ClaimToken, DeliveryOK;
      if id !in deliveries { return None; }
      var x := deliveries[id];
      if x.status == Delivered || x.status == Claimed { return None; }
      var n := |x.attempts| + 1;
      var token := ClaimToken(id, n);
      x := x.(status := Claimed, claimToken := token, attempts := x.attempts + [Attempt(n, token, Claimed, at, 0, "")]);
      BeginKeeps(deliveries[id], at);
      deliveries := deliveries[id := x];
      d := Some(x);
    }

    /** Succeeds exactly for the current claim; every stale or duplicate callback changes nothing. */
    method Complete(id: Text, token: Text, at: Time) returns (d: Option<Delivery>)
      requires TableOK(deliveries)
      modifies this
      ensures TableOK(deliveries)
      ensures d.Some? <==> id in old(deliveries) && HoldsClaim(old(deliveries)[id], token)
      ensures d.Some? ==>
          id in deliveries && d.value == deliveries[id] && Settled(old(deliveries)[id], d.value, Delivered, at, None)
      ensures deliveries == Called(old(deliveries), id, CompleteCall(token, at))
    {
      hide ClaimToken;
      if id !in deliveries { return None; }
      var x := deliveries[id];
      if x.status != Claimed || x.claimToken != token || x.attempts == [] { return None; }
      var n := |x.attempts| - 1;
      var a := x.attempts[n];
      if a.status != Claimed || a.token != token { return None; }
      SettleKeeps(x, Delivered, at, None);
      x := x.(status := Delivered, claimToken := "",
        attempts := x.attempts[n := a.(status := Delivered, finishedAt := at)]);
      deliveries := deliveries[id := x];
      d := Some(x);
    }

    /** The same fence; a failed delivery can be begun again. */
    method Fail(id: Text, token: Text, at: Time, err: Option<Text>) returns (d: Option<Delivery>)
      requires TableOK(deliveries)
      modifies this
      ensures TableOK(deliveries)
      ensures d.Some? <==> id in old(deliveries) && HoldsClaim(old(deliveries)[id], token)
      ensures d.Some? ==>
          id in deliveries && d.value == deliveries[id] && Settled(old(deliveries)[id], d.value, Failed, at, err)
      ensures deliveries == Called(old(deliveries), id, FailCall(token, at, err))
    {
      hide ClaimToken;
      if id !in deliveries { return None; }
      var x := deliveries[id];
      if x.status != Claimed || x.claimToken != token || x.attempts == [] { return None; }
      var n := |x.attempts| - 1;
      var a := x.attempts[n];
      if a.status != Claimed || a.token != token { return None; }
      a := a.(status := Failed, finishedAt := at);
      if err.Some? { a := a.(error := err.value); }
      SettleKeeps(x, Failed, at, err);
      x := x.(status := Failed, claimToken := "", attempts := x.attempts[n := a]);
      deliveries := deliveries[id := x];
      d := Some(x);
    }
  }

  lemma BeginKeeps(d: Delivery, at: Time)
    requires DeliveryOK(d) && (d.status == Pending || d.status == Failed)
    ensures DeliveryOK(BeginIn(d, at))
  {
    hide ClaimToken;
  }

  lemma SettleKeeps(d: Delivery, status: Status, at: Time, error: Option<Text>)
    requires DeliveryOK(d) && d.status == Claimed && (status == Delivered || status == Failed)
    ensures DeliveryOK(SettleIn(d, status, at, error))
  {
    hide ClaimToken;
  }

  // ----- call sequences on one delivery -----

  function CallsOn(d: Delivery, calls: seq<DeliveryCall>): Delivery
  {
    if calls == [] then d else CallOn(CallsOn(d, calls[..|calls| - 1]), calls[|calls| - 1])
  }

  // One call keeps the delivery well formed and every settled attempt as it is.
  ghost predicate Fenced(d: Delivery, d': Delivery)
  {
    && d'.intentID == d.intentID && |d.attempts| <= |d'.attempts|
    && (forall i | 0 <= i < |d.attempts| && d.attempts[i].status != Claimed :: d'.attempts[i] == d.attempts[i])
    && (d.status == Delivered ==> d' == d)
  }

  lemma CallFenced(d: Delivery, call: DeliveryCall)
    requires DeliveryOK(d)
    ensures DeliveryOK(CallOn(d, call)) && Fenced(d, CallOn(d, call))
  {
    hide ClaimToken;
    match call
    case BeginCall(at) => if d.status == Pending || d.status == Failed { BeginKeeps(d, at); }
    case CompleteCall(token, at) => if d.status == Claimed { SettleKeeps(d, Delivered, at, None); }
    case FailCall(token, at, error) => if d.status == Claimed { SettleKeeps(d, Failed, at, error); }
  }

  /** Over any call sequence the delivery stays well formed; an attempt once settled is never
      rewritten; and a delivered one is never touched again. */
  lemma {:induction false} DeliveryFence(d: Delivery, calls: seq<DeliveryCall>)
    requires DeliveryOK(d)
    ensures DeliveryOK(CallsOn(d, calls)) && Fenced(d, CallsOn(d, calls))
  {
    hide DeliveryOK, CallOn;
    if calls == [] {
    } else {
      var n := |calls| - 1;
      DeliveryFence(d, calls[..n]);
      CallFenced(CallsOn(d, calls[..n]), calls[n]);
    }
  }

  /** At most one attempt is ever delivered, and only the last one. */
  lemma OneDelivered(d: Delivery, i: nat)
    requires DeliveryOK(d) && i < |d.attempts|
    ensures d.attempts[i].status == Delivered <==> d.status == Delivered && i == |d.attempts| - 1
  {
  }

  /** A token settles its own attempt or nothing: once that attempt is settled, no call with the
      token succeeds again. */
  lemma TokenSettlesOnce(d: Delivery, i: nat, calls: seq<DeliveryCall>, at: Time, error: Option<Text>)
    requires DeliveryOK(d) && i < |d.attempts| && d.attempts[i].status != Claimed
    ensures var d' := CallsOn(d, calls); var token := d.attempts[i].token;
      CallOn(d', CompleteCall(token, at)) == d' && CallOn(d', FailCall(token, at, error)) == d'
  {
    hide ClaimToken;
    DeliveryFence(d, calls);
    var d' := CallsOn(d, calls);
    assert d'.attempts[i] == d.attempts[i];
    if d'.status == Claimed && d'.claimToken == d.attempts[i].token {
      ClaimTokenInjective(d'.intentID, |d'.attempts|, d.intentID, i + 1);
    }
  }
}
