/** Validating a rule definition and compiling it to a pinned plan. */
module RulePlans {
  import opened Wrappers
  import opened Bytes
  import opened Rules

  datatype Policy = Policy(onOpen: bool, onRecovery: bool, audience: Text)
  datatype Condition = Condition(predicate_: Option<Expression>, for_: int)
  datatype Definition = Definition(
    schemaVersion: int, name: Text, description: Text, kind: Text, ids: seq<Text>, groupIDs: seq<Text>,
    trigger: Condition, clear: Condition, notifications: Policy)

  datatype GroupSnapshot = GroupSnapshot(kind: Text, revision: int, members: seq<Text>)
  // What the configured-group resolver answers; a missing identifier is a resolution error.
  type Groups = map<Text, GroupSnapshot>

  // The configured-group revision a plan was compiled against.
  datatype PinnedGroup = PinnedGroup(id: Text, revision: int, members: seq<Text>)

  datatype Plan = Plan(
    subject: Text, pinned: seq<PinnedGroup>, targetIDs: seq<Text>, trigger: seq<Comparison>, clear: seq<Comparison>,
    triggerFor: nat, clearFor: nat)

  // ----- validation of a whole definition -----

  predicate Distinct(xs: seq<Text>) { forall i, j | 0 <= i < j < |xs| :: xs[i] != xs[j] }

  predicate SelectorsOK(xs: seq<Text>) { Distinct(xs) && "" !in xs }

  predicate ConditionOK(c: Condition, kind: Text)
  {
    c.predicate_.Some? && ExpressionOK(c.predicate_.value, kind) && !DurationInvalid(c.for_)
  }

  predicate DefinitionOK(d: Definition)
  {
    && d.schemaVersion == 1
    && 0 < |d.name| <= 200 && |d.description| <= 2000
    && (d.kind == QUEUE || d.kind == AGENT)
    && (d.ids != [] || d.groupIDs != [])
    && SelectorsOK(d.ids) && SelectorsOK(d.groupIDs)
    && ConditionOK(d.trigger, d.kind) && ConditionOK(d.clear, d.kind)
    && 0 < |d.notifications.audience| <= 200
  }

  method ValidateSelectors(es: ErrorList, xs: seq<Text>)
    modifies es
    ensures old(es.errors) <= es.errors
    ensures es.errors == old(es.errors) <==> SelectorsOK(xs)
  {
    var seen: set<Text> := {};
    for i := 0 to |xs|
      invariant seen == set x | x in xs[..i]
      invariant old(es.errors) <= es.errors
      invariant es.errors == old(es.errors) <==> SelectorsOK(xs[..i])
    {
      assert xs[..i + 1] == xs[..i] + [xs[i]];
      if xs[i] == "" { es.Add(InvalidSelector); }
      if xs[i] in seen { es.Add(DuplicateSelector); } else { seen := seen + {xs[i]}; }
    }
    assert xs[..|xs|] == xs;
  }

  method ValidateCondition(es: ErrorList, c: Condition, kind: Text)
    modifies es
    ensures old(es.errors) <= es.errors
    ensures es.errors == old(es.errors) <==> ConditionOK(c, kind)
  {
    if c.predicate_.None? {
      es.Add(Required);
    } else {
      var more := ValidateExpression(c.predicate_.value, kind);
      es.errors := es.errors + more.errors;
    }
    if DurationInvalid(c.for_) { es.Add(InvalidDuration); }
  }

  /** A definition is rejected exactly when it breaks one of the listed conditions. */
  method Validate(d: Definition) returns (ok: bool)
    ensures ok <==> DefinitionOK(d)
  {
    var es := new ErrorList();
    if d.schemaVersion != 1 { es.Add(InvalidSchemaVersion); }
    if d.name == "" { es.Add(Required); } else if |d.name| > 200 { es.Add(SizeLimit); }
    if |d.description| > 2000 { es.Add(SizeLimit); }
    if d.kind != QUEUE && d.kind != AGENT { es.Add(InvalidSubjectKind); }
    if d.ids == [] && d.groupIDs == [] { es.Add(EmptyTargets); }
    ValidateSelectors(es, d.ids);
    ValidateSelectors(es, d.groupIDs);
    ValidateCondition(es, d.trigger, d.kind);
    ValidateCondition(es, d.clear, d.kind);
    if d.notifications.audience == "" { es.Add(Required); }
        else if |d.notifications.audience| > 200 { es.Add(SizeLimit); }
    ok := es.errors == [];
  }

  // ----- canonical identifier lists -----

  ghost predicate SortedTexts(xs: seq<Text>) { forall i, j | 0 <= i < j < |xs| :: !Bytes.Less(xs[j], xs[i]) }

  ghost predicate StrictlySorted(xs: seq<Text>) { forall i, j | 0 <= i < j < |xs| :: Bytes.Less(xs[i], xs[j]) }

  lemma NotLessTransitive(a: Text, b: Text, c: Text)
    requires !Bytes.Less(b, a) && !Bytes.Less(c, b)
    ensures !Bytes.Less(c, a)
  {
    LessTotal(a, b);
    LessTotal(b, c);
    if Bytes.Less(c, a) {
      if a != b { LessTransitive(c, a, b); }
    }
  }

  // A library sort, by insertion.
  method SortTexts(xs: seq<Text>) returns (out: seq<Text>)
    ensures SortedTexts(out) && forall x :: x in out <==> x in xs
  {
    out := [];
    for n := 0 to |xs|
      invariant SortedTexts(out)
      invariant forall x :: x in out <==> x in xs[..n]
    {
      var i := 0;
      while i < |out| && !Bytes.Less(xs[n], out[i])
        invariant i <= |out|
        invariant forall j | 0 <= j < i :: !Bytes.Less(xs[n], out[j])
      {
        i := i + 1;
      }
      forall j | i <= j < |out| ensures !Bytes.Less(out[j], xs[n]) {
        LessTotal(xs[n], out[i]);
        if Bytes.Less(out[i], xs[n]) { LessTransitive(xs[n], out[i], xs[n]); LessIrreflexive(xs[n]); }
        if i < j { NotLessTransitive(xs[n], out[i], out[j]); }
      }
      ghost var was := out;
      out := out[..i] + [xs[n]] + out[i..];
      assert was == was[..i] + was[i..];
      assert xs[..n + 1] == xs[..n] + [xs[n]];
    }
    assert xs[..|xs|] == xs;
  }

  /** Sort a copy and compact it in place: strictly sorted, with exactly the given identifiers. */
  method CanonicalIDs(values: seq<Text>) returns (out: seq<Text>)
    ensures StrictlySorted(out) && forall x :: x in out <==> x in values
  {
    hide SortedTexts, StrictlySorted;
    var sorted := SortTexts(values);
    NothingSorted();
    var a := new Text[|sorted|](i requires 0 <= i < |sorted| => sorted[i]);
    var end := 0;
    for i := 0 to a.Length
      invariant end <= i
      invariant forall j | i <= j < a.Length :: a[j] == sorted[j]
      invariant StrictlySorted(a[..end])
      invariant forall x :: x in a[..end] <==> x in sorted[..i]
      invariant end > 0 ==> i > 0 && a[end - 1] == sorted[i - 1]
    {
      assert sorted[..i + 1] == sorted[..i] + [sorted[i]];
      if end > 0 && a[end - 1] == a[i] {
        continue;
      }
      ghost var before := a[..end];
      KeepNext(sorted, before, i);
      a[end] := a[i];
      assert a[..end + 1] == before + [sorted[i]];
      end := end + 1;
    }
    out := a[..end];
    assert sorted[..|sorted|] == sorted;
  }

  lemma NothingSorted()
    ensures StrictlySorted([])
  {
  }

  lemma KeepNext(sorted: seq<Text>, kept: seq<Text>, i: nat)
    requires SortedTexts(sorted) && StrictlySorted(kept) && i < |sorted|
    requires kept != [] ==> i > 0 && kept[|kept| - 1] == sorted[i - 1] != sorted[i]
    ensures StrictlySorted(kept + [sorted[i]])
  {
    hide SortedTexts;
    forall j | 0 <= j < |kept| ensures Bytes.Less(kept[j], sorted[i]) { BelowLast(sorted, kept, j, i); }
  }

  // Everything kept so far is below the next distinct value.
  lemma BelowLast(sorted: seq<Text>, kept: seq<Text>, j: nat, i: nat)
    requires SortedTexts(sorted) && StrictlySorted(kept) && j < |kept| && 0 < i < |sorted|
    requires kept[|kept| - 1] == sorted[i - 1] != sorted[i]
    ensures Bytes.Less(kept[j], sorted[i])
  {
    LessTotal(sorted[i - 1], sorted[i]);
    assert !Bytes.Less(sorted[i], sorted[i - 1]);
    if j < |kept| - 1 { LessTransitive(kept[j], kept[|kept| - 1], sorted[i]); }
  }

  // ----- compilation -----

  predicate GroupOK(groups: Groups, id: Text, kind: Text)
  {
    id in groups && groups[id].kind == kind && groups[id].revision > 0
  }

  predicate CompileOK(d: Definition, resolver: Option<Groups>)
  {
    && DefinitionOK(d)
    && (d.groupIDs != [] ==> resolver.Some?)
    && (forall g | g in d.groupIDs :: resolver.Some? && GroupOK(resolver.value, g, d.kind))
  }

  /** A subject is selected by name or through a configured group. */
  ghost predicate Selected(d: Definition, resolver: Option<Groups>, id: Text)
  {
    id in d.ids
    || exists g :: g in d.groupIDs && resolver.Some? && g in resolver.value && id in resolver.value[g].members
  }

  predicate HasTarget(p: Plan, kind: Text, id: Text) { p.subject == kind && id in p.targetIDs }

  /** One pinned group: the revision the resolver answered, with its members in canonical order. */
  ghost predicate PinnedOK(p: PinnedGroup, resolver: Option<Groups>)
  {
    && resolver.Some? && p.id in resolver.value && p.revision == resolver.value[p.id].revision
    && StrictlySorted(p.members) && forall x :: x in p.members <==> x in resolver.value[p.id].members
  }

  /** The pinned groups are those of the given list, in its order. */
  ghost predicate Pins(pinned: seq<PinnedGroup>, groupIDs: seq<Text>, resolver: Option<Groups>)
  {
    && |pinned| == |groupIDs|
    && forall i | 0 <= i < |pinned| :: pinned[i].id == groupIDs[i] && PinnedOK(pinned[i], resolver)
  }

  /** The groups of the definition are each pinned once, in canonical order. */
  ghost predicate PinnedAll(p: Plan, d: Definition, resolver: Option<Groups>)
  {
    exists ids :: Pins(p.pinned, ids, resolver) && StrictlySorted(ids) && forall g :: g in ids <==> g in d.groupIDs
  }

  /** The plan of a definition: exactly the named and configured subjects, in canonical order. */
  ghost predicate Compiled(p: Plan, d: Definition, resolver: Option<Groups>)
  {
    && (forall kind, id :: HasTarget(p, kind, id) <==> kind == d.kind && Selected(d, resolver, id))
    && StrictlySorted(p.targetIDs) && PinnedAll(p, d, resolver)
    && d.trigger.predicate_.Some? && d.clear.predicate_.Some?
    && p.trigger == Flatten(d.trigger.predicate_.value) && p.clear == Flatten(d.clear.predicate_.value)
    && p.triggerFor == d.trigger.for_ && p.clearFor == d.clear.for_
  }

  /** A compiled plan selects exactly the subjects the definition names or its groups contain, and pins
      each of its groups at the revision and with the members the resolver answered. */
  lemma PlanMeans(p: Plan, d: Definition, resolver: Option<Groups>, g: Text, id: Text)
    requires Compiled(p, d, resolver)
    ensures HasTarget(p, d.kind, id) <==>
      || id in d.ids
      || exists g ::
          g in d.groupIDs && resolver.Some? && g in resolver.value && id in resolver.value[g].members
    ensures g in d.groupIDs ==>
      && resolver.Some? && g in resolver.value
      && exists i :: 0 <= i < |p.pinned| && p.pinned[i].id == g && p.pinned[i].revision == resolver.value[g].revision
          && forall x :: x in p.pinned[i].members <==> x in resolver.value[g].members
    ensures |p.pinned| == |set g | g in d.groupIDs|
  {
    var ids :| Pins(p.pinned, ids, resolver) && StrictlySorted(ids) && forall g :: g in ids <==> g in d.groupIDs;
    if g in d.groupIDs {
      var i :| 0 <= i < |ids| && ids[i] == g;
      assert p.pinned[i].id == g && PinnedOK(p.pinned[i], resolver);
    }
    StrictCount(ids);
    assert (set g | g in ids) == (set g | g in d.groupIDs);
  }

  lemma {:induction false} StrictCount(xs: seq<Text>)
    requires StrictlySorted(xs)
    ensures |set x | x in xs| == |xs|
  {
    if xs != [] {
      var n := |xs| - 1;
      StrictCount(xs[..n]);
      LessIrreflexive(xs[n]);
      assert forall i | 0 <= i < n :: Bytes.Less(xs[i], xs[n]);
      assert xs[n] !in xs[..n];
      assert xs == xs[..n] + [xs[n]];
      assert (set x | x in xs) == (set x | x in xs[..n]) + {xs[n]};
    }
  }

  method PinNext(pinned: seq<PinnedGroup>, ids: seq<Text>, resolver: Option<Groups>, id: Text, members: seq<Text>)
    returns (pinned': seq<PinnedGroup>)
    requires Pins(pinned, ids, resolver) && resolver.Some? && id in resolver.value
    requires StrictlySorted(members) && forall x :: x in members <==> x in resolver.value[id].members
    ensures Pins(pinned', ids + [id], resolver)
  {
    hide StrictlySorted;
    pinned' := pinned + [PinnedGroup(id, resolver.value[id].revision, members)];
  }

  lemma DefinitionParts(d: Definition)
    ensures DefinitionOK(d) ==>
      d.trigger.predicate_.Some? && d.clear.predicate_.Some? && d.trigger.for_ >= 0 && d.clear.for_ >= 0
  {
  }

  lemma NothingPinned(resolver: Option<Groups>)
    ensures Pins([], [], resolver)
  {
  }

  /** Compilation succeeds exactly on valid definitions whose groups resolve. */
  method Compile(d: Definition, resolver: Option<Groups>) returns (r: Option<Plan>)
    ensures r.Some? <==> CompileOK(d, resolver)
    ensures r.Some? ==> Compiled(r.value, d, resolver)
  {
    hide Pins, StrictlySorted, DefinitionOK;
    DefinitionParts(d);
    var ok := Validate(d);
    if !ok { return None; }
    if d.groupIDs != [] && resolver.None? { return None; }
    var targets := CanonicalIDs(d.ids);
    var groupIDs := CanonicalIDs(d.groupIDs);
    var pinned: seq<PinnedGroup> := [];
    NothingPinned(resolver);
    for i := 0 to |groupIDs|
      invariant forall g | g in groupIDs[..i] :: resolver.Some? && GroupOK(resolver.value, g, d.kind)
      invariant Pins(pinned, groupIDs[..i], resolver)
      invariant forall x :: x in targets <==>
        x in d.ids || exists g ::
          g in groupIDs[..i] && resolver.Some? && g in resolver.value && x in resolver.value[g].members
    {
      var id := groupIDs[i];
      assert id in groupIDs && id in d.groupIDs;
      assert groupIDs[..i + 1] == groupIDs[..i] + [id];
      if id !in resolver.value { return None; }
      var snapshot := resolver.value[id];
      if snapshot.kind != d.kind || snapshot.revision <= 0 { return None; }
      var members := CanonicalIDs(snapshot.members);
      pinned := PinNext(pinned, groupIDs[..i], resolver, id, members);
      targets := targets + members;
    }
    assert groupIDs[..|groupIDs|] == groupIDs;
    targets := CanonicalIDs(targets);
    r := Some(Plan(d.kind, pinned, targets, Flatten(d.trigger.predicate_.value), Flatten(d.clear.predicate_.value),
                   d.trigger.for_, d.clear.for_));
  }
}
