/** Rule expressions: typed operands, validation, flattening and three-valued evaluation. */
module Rules {
  import opened Wrappers
  import opened Bytes
  import Durations

  // ----- the field catalog -----

  datatype FieldType = NoType | DurationType | CountType | BooleanType | AgentStateType
  datatype FieldSpec = FieldSpec(name: Text, subject: Text, typ: FieldType)

  const QUEUE: Text := "queue"
  const AGENT: Text := "agent"

  function FieldCatalog(): map<Text, FieldSpec>
  {
    map[
      "queue.longest_wait" := FieldSpec("queue.longest_wait", QUEUE, DurationType),
      "queue.sla_target" := FieldSpec("queue.sla_target", QUEUE, DurationType),
      "queue.tickets_waiting" := FieldSpec("queue.tickets_waiting", QUEUE, CountType),
      "queue.agents_available" := FieldSpec("queue.agents_available", QUEUE, CountType),
      "queue.agents_on_call" := FieldSpec("queue.agents_on_call", QUEUE, CountType),
      "queue.volume_last_15m" := FieldSpec("queue.volume_last_15m", QUEUE, CountType),
      "queue.volume_forecast_next_15m" := FieldSpec("queue.volume_forecast_next_15m", QUEUE, CountType),
      "adherence.violation" := FieldSpec("adherence.violation", AGENT, BooleanType),
      "agent.current_state" := FieldSpec("agent.current_state", AGENT, AgentStateType)
    ]
  }

  predicate ValidAgentState(s: Text) { s == "available" || s == "on_call" || s == "on_break" || s == "in_meeting" }

  // ----- operands, comparisons, expressions -----

  datatype Operand =
    | Field(name: Text)
    | Integer(n: int)
    | Duration(nanos: int)
    | Boolean(b: bool)
    | AgentState(state: Text)
    | OtherOperand

  datatype Operator = Equal | NotEqual | Greater | GreaterOrEqual | Less | LessOrEqual | OtherOperator

  datatype Comparison = Comparison(left: Operand, operator: Operator, right: Operand)

  /** An expression as the decoder or a caller may build it: `All` may be held by pointer or by
      value, pointers may be nil, and other implementations of the interface are unsupported. */
  datatype Expression =
    | Compare(c: Comparison)
    | NilCompare
    | All(conditions: seq<Expression>, byValue: bool)
    | NilAll
    | Unsupported

  // ----- three-valued evaluation -----

  datatype Outcome = PredicateUnknown | PredicateFalse | PredicateTrue

  // What projections know, by field name.
  type Lookup = map<Text, Operand>

  predicate DurationInvalid(d: int) { d < 0 || d % Durations.SECOND != 0 || d > Durations.YEAR }

  predicate ValidFieldValue(v: Operand, typ: FieldType)
  {
    match typ
    case CountType => v.Integer? && v.n >= 0
    case DurationType => v.Duration? && !DurationInvalid(v.nanos)
    case BooleanType => v.Boolean?
    case AgentStateType => v.AgentState? && ValidAgentState(v.state)
    case NoType => false
  }

  function ResolveOperand(o: Operand, lookup: Lookup): Option<Operand>
  {
    if !o.Field? then (if o.OtherOperand? then None else Some(o))
    else if o.name !in FieldCatalog() then None
    else if o.name in lookup && ValidFieldValue(lookup[o.name], FieldCatalog()[o.name].typ) then Some(lookup[o.name])
    else None
  }

  function CompareInt(a: int, b: int): int { if a < b then -1 else if a > b then 1 else 0 }

  function CompareBool(a: bool, b: bool): int { if a == b then 0 else if !a then -1 else 1 }

  function CompareString(a: Text, b: Text): int
  {
    if Bytes.Less(a, b) then -1 else if Bytes.Less(b, a) then 1 else 0
  }

  // None when the two operands have different kinds.
  function Relation(a: Operand, b: Operand): Option<int>
  {
    match (a, b)
    case (Integer(m), Integer(n)) => Some(CompareInt(m, n))
    case (Duration(m), Duration(n)) => Some(CompareInt(m, n))
    case (Boolean(m), Boolean(n)) => Some(CompareBool(m, n))
    case (AgentState(m), AgentState(n)) => Some(CompareString(m, n))
    case _ => None
  }

  function Judge(relation: int, op: Operator): Outcome
  {
    match op
    case Equal => Verdict(relation == 0)
    case NotEqual => Verdict(relation != 0)
    case Greater => Verdict(relation > 0)
    case GreaterOrEqual => Verdict(relation >= 0)
    case Less => Verdict(relation < 0)
    case LessOrEqual => Verdict(relation <= 0)
    case OtherOperator => PredicateUnknown
  }

  function Verdict(b: bool): Outcome { if b then PredicateTrue else PredicateFalse }

  function EvaluateComparison(c: Comparison, lookup: Lookup): Outcome
  {
    var left, right := ResolveOperand(c.left, lookup), ResolveOperand(c.right, lookup);
    if left.None? || right.None? then PredicateUnknown
    else
      var relation := Relation(left.value, right.value);
      if relation.None? then PredicateUnknown else Judge(relation.value, c.operator)
  }

  /** What a comparison says. It is Unknown exactly when an operand is unknown, the kinds differ or the
      operator is none of the six; otherwise it is True when the relation it names holds between the
      values. False comes before True, and agent states compare as text. */
  lemma ComparisonMeans(c: Comparison, lookup: Lookup)
    ensures var l, r := ResolveOperand(c.left, lookup), ResolveOperand(c.right, lookup);
      var v := EvaluateComparison(c, lookup);
      if l.None? || r.None? || c.operator.OtherOperator? then v == PredicateUnknown
      else
        match (l.value, r.value)
        case (Integer(m), Integer(n)) => v != PredicateUnknown && (v == PredicateTrue <==>
          match c.operator case Equal => m == n case NotEqual => m != n case Greater => m > n
            case GreaterOrEqual => m >= n case Less => m < n case LessOrEqual => m <= n)
        case (Duration(m), Duration(n)) => v != PredicateUnknown && (v == PredicateTrue <==>
          match c.operator case Equal => m == n case NotEqual => m != n case Greater => m > n
            case GreaterOrEqual => m >= n case Less => m < n case LessOrEqual => m <= n)
        case (Boolean(m), Boolean(n)) => v != PredicateUnknown && (v == PredicateTrue <==>
          match c.operator case Equal => m == n case NotEqual => m != n case Greater => m && !n
            case GreaterOrEqual => m || !n case Less => !m && n case LessOrEqual => !m || n)
        case (AgentState(m), AgentState(n)) => v != PredicateUnknown && (v == PredicateTrue <==>
          match c.operator case Equal => m == n case NotEqual => m != n case Greater => Precedes(n, m)
            case GreaterOrEqual => !Precedes(m, n) case Less => Precedes(m, n) case LessOrEqual => !Precedes(n, m))
        case _ => v == PredicateUnknown
  {
    hide ResolveOperand, Precedes, Bytes.Less;
    var l, r := ResolveOperand(c.left, lookup), ResolveOperand(c.right, lookup);
    if l.Some? && r.Some? && l.value.AgentState? && r.value.AgentState? {
      StringsCompare(l.value.state, r.value.state);
    }
  }

  lemma StringsCompare(m: Text, n: Text)
    ensures CompareString(m, n) == 0 <==> m == n
    ensures CompareString(m, n) < 0 <==> Precedes(m, n)
    ensures CompareString(m, n) > 0 <==> Precedes(n, m)
  {
    hide Precedes, Bytes.Less;
    LessMeans(m, n);
    LessMeans(n, m);
    LessTotal(m, n);
    LessIrreflexive(m);
    if Bytes.Less(m, n) && Bytes.Less(n, m) { LessTransitive(m, n, m); }
  }

  // A field whose value is known and legal.
  predicate KnownDuration(lookup: Lookup, f: Text)
  {
    f in lookup && lookup[f].Duration? && 0 <= lookup[f].nanos <= 31_536_000_000_000_000
    && lookup[f].nanos % 1_000_000_000 == 0
  }

  predicate KnownCount(lookup: Lookup, f: Text) { f in lookup && lookup[f].Integer? && lookup[f].n >= 0 }

  predicate KnownState(lookup: Lookup, f: Text)
  {
    f in lookup && lookup[f].AgentState?
    && lookup[f].state in {"available", "on_call", "on_break", "in_meeting"}
  }

  /** What an operand resolves to: a constant to itself; one of the nine fields to its value when that
      is known and legal for the field; and nothing else to anything. */
  lemma ResolveMeans(o: Operand, lookup: Lookup)
    ensures ResolveOperand(o, lookup)
         == if !o.Field? then (if o.OtherOperand? then None else Some(o))
            else if (o.name in {"queue.longest_wait", "queue.sla_target"} && KnownDuration(lookup, o.name))
              || (o.name in {"queue.tickets_waiting", "queue.agents_available", "queue.agents_on_call",
                             "queue.volume_last_15m", "queue.volume_forecast_next_15m"} && KnownCount(lookup, o.name))
              || (o.name == "adherence.violation" && o.name in lookup && lookup[o.name].Boolean?)
              || (o.name == "agent.current_state" && KnownState(lookup, o.name))
            then Some(lookup[o.name]) else None
  {
  }

  // Strong Kleene conjunction.
  function And(a: Outcome, b: Outcome): Outcome
  {
    if a == PredicateFalse || b == PredicateFalse then PredicateFalse
    else if a == PredicateUnknown || b == PredicateUnknown then PredicateUnknown
    else PredicateTrue
  }

  function Conjunction(cs: seq<Comparison>, lookup: Lookup): Outcome
  {
    if cs == [] then PredicateTrue else And(EvaluateComparison(cs[0], lookup), Conjunction(cs[1..], lookup))
  }

  /** The loop stops at the first False and remembers an Unknown; it computes the conjunction. */
  method EvaluateAll(cs: seq<Comparison>, lookup: Lookup) returns (r: Outcome)
    ensures r == Conjunction(cs, lookup)
  {
    var unknown := false;
    for i := 0 to |cs|
      invariant Conjunction(cs, lookup)
             == And(if unknown then PredicateUnknown else PredicateTrue, Conjunction(cs[i..], lookup))
    {
      assert cs[i..][0] == cs[i] && cs[i..][1..] == cs[i + 1..];
      var result := EvaluateComparison(cs[i], lookup);
      if result == PredicateFalse { return PredicateFalse; }
      if result == PredicateUnknown { unknown := true; }
    }
    assert cs[|cs|..] == [];
    r := if unknown then PredicateUnknown else PredicateTrue;
  }

  // False iff some comparison is False; otherwise Unknown iff some comparison is Unknown.
  lemma {:induction false} ConjunctionMeans(cs: seq<Comparison>, lookup: Lookup)
    ensures Conjunction(cs, lookup) == PredicateFalse
       <==> exists c :: c in cs && EvaluateComparison(c, lookup) == PredicateFalse
    ensures Conjunction(cs, lookup) == PredicateTrue
       <==> forall c :: c in cs ==> EvaluateComparison(c, lookup) == PredicateTrue
  {
    if cs == [] {
    } else {
      ConjunctionMeans(cs[1..], lookup);
      assert forall c :: c in cs <==> c == cs[0] || c in cs[1..];
    }
  }

  /** Order and repetition do not matter. */
  lemma ConjunctionOrder(cs: seq<Comparison>, ds: seq<Comparison>, lookup: Lookup)
    requires forall c :: c in cs <==> c in ds
    ensures Conjunction(cs, lookup) == Conjunction(ds, lookup)
  {
    ConjunctionMeans(cs, lookup);
    ConjunctionMeans(ds, lookup);
  }

  lemma {:induction false} ConjunctionConcat(cs: seq<Comparison>, ds: seq<Comparison>, lookup: Lookup)
    ensures Conjunction(cs + ds, lookup) == And(Conjunction(cs, lookup), Conjunction(ds, lookup))
  {
    if cs == [] {
      assert cs + ds == ds;
    } else {
      ConjunctionConcat(cs[1..], ds, lookup);
      assert (cs + ds)[1..] == cs[1..] + ds;
    }
  }

  /** Learning more fields never changes a True or a False. */
  lemma {:induction false} KnowledgeMonotone(cs: seq<Comparison>, less: Lookup, more: Lookup)
    requires forall f | f in less :: f in more && more[f] == less[f]
    requires Conjunction(cs, less) != PredicateUnknown
    ensures Conjunction(cs, more) == Conjunction(cs, less)
  {
    ConjunctionMeans(cs, less);
    ConjunctionMeans(cs, more);
    forall c | c in cs
      ensures EvaluateComparison(c, less) == PredicateUnknown
           || EvaluateComparison(c, more) == EvaluateComparison(c, less)
    {
      ResolveMonotone(c.left, less, more);
      ResolveMonotone(c.right, less, more);
    }
  }

  lemma ResolveMonotone(o: Operand, less: Lookup, more: Lookup)
    requires forall f | f in less :: f in more && more[f] == less[f]
    ensures ResolveOperand(o, less).Some? ==> ResolveOperand(o, more) == ResolveOperand(o, less)
  {
  }

  // ----- flattening -----

  function Flatten(x: Expression): seq<Comparison>
  {
    match x
    case Compare(c) => [c]
    case All(conditions, _) => FlattenAll(conditions)
    case _ => []
  }

  function FlattenAll(xs: seq<Expression>): seq<Comparison>
  {
    if xs == [] then [] else Flatten(xs[0]) + FlattenAll(xs[1..])
  }

  /** The three-valued meaning of an expression tree; nothing is demanded by a nil. */
  function Meaning(x: Expression, lookup: Lookup): Outcome
  {
    match x
    case Compare(c) => EvaluateComparison(c, lookup)
    case All(conditions, _) => MeaningAll(conditions, lookup)
    case _ => PredicateTrue
  }

  function MeaningAll(xs: seq<Expression>, lookup: Lookup): Outcome
  {
    if xs == [] then PredicateTrue else And(Meaning(xs[0], lookup), MeaningAll(xs[1..], lookup))
  }

  /** Compiling to a flat conjunction preserves the meaning of the whole tree. */
  lemma {:induction false} FlattenMeaning(x: Expression, lookup: Lookup)
    ensures Conjunction(Flatten(x), lookup) == Meaning(x, lookup)
  {
    match x
    case Compare(c) =>
      assert [c][1..] == [];
    case All(conditions, _) => FlattenAllMeaning(conditions, lookup);
    case _ =>
  }

  lemma {:induction false} FlattenAllMeaning(xs: seq<Expression>, lookup: Lookup)
    ensures Conjunction(FlattenAll(xs), lookup) == MeaningAll(xs, lookup)
  {
    if xs == [] {
    } else {
      FlattenMeaning(xs[0], lookup);
      FlattenAllMeaning(xs[1..], lookup);
      ConjunctionConcat(Flatten(xs[0]), FlattenAll(xs[1..]), lookup);
    }
  }

  // ----- validation -----

  datatype Code =
    | InvalidSchemaVersion | Required | SizeLimit | InvalidSubjectKind | EmptyTargets | InvalidSelector
    | DuplicateSelector | InvalidDuration | InvalidValue | UnknownField | SubjectMismatch | TypeMismatch
    | InvalidOperator | UnsupportedExpression | UnsupportedOperand

  class ErrorList {
    var errors: seq<Code>

    constructor ()
      ensures errors == []
    {
      errors := [];
    }

    method Add(code: Code)
      modifies this
      ensures errors == old(errors) + [code]
    {
      errors := errors + [code];
    }
  }

  const MAX_EXPRESSION_NODES := 32

  predicate AllowedOperatorType(t: FieldType, op: Operator)
  {
    match t
    case DurationType => !op.OtherOperator?
    case CountType => !op.OtherOperator?
    case BooleanType => op.Equal? || op.NotEqual?
    case AgentStateType => op.Equal? || op.NotEqual?
    case NoType => false
  }

  // The type an operand contributes; NoType when it has none for this subject.
  function OperandType(o: Operand, subject: Text): FieldType
  {
    match o
    case Field(name) =>
      if name in FieldCatalog() && FieldCatalog()[name].subject == subject then FieldCatalog()[name].typ else NoType
    case Integer(_) => CountType
    case Duration(_) => DurationType
    case Boolean(_) => BooleanType
    case AgentState(_) => AgentStateType
    case OtherOperand => NoType
  }

  predicate OperandOK(o: Operand, subject: Text)
  {
    OperandType(o, subject) != NoType && (!o.Field? ==> ValidFieldValue(o, OperandType(o, subject)))
  }

  /** A comparison is well typed: known operands of one type, legal values, a legal operator. */
  predicate ComparisonOK(c: Comparison, subject: Text)
  {
    && OperandOK(c.left, subject) && OperandOK(c.right, subject)
    && OperandType(c.left, subject) == OperandType(c.right, subject)
    && AllowedOperatorType(OperandType(c.left, subject), c.operator)
  }

  /** Which operands a rule on a subject may use, and the type each has. */
  lemma OperandMeans(o: Operand, subject: Text)
    ensures OperandOK(o, subject) <==>
      match o
      case Field(f) =>
        || (subject == "agent" && f in {"adherence.violation", "agent.current_state"})
        || (subject == "queue" && f in {"queue.longest_wait", "queue.sla_target", "queue.tickets_waiting",
              "queue.agents_available", "queue.agents_on_call", "queue.volume_last_15m",
              "queue.volume_forecast_next_15m"})
      case Integer(n) => n >= 0
      case Duration(d) => 0 <= d <= 31_536_000_000_000_000 && d % 1_000_000_000 == 0
      case Boolean(_) => true
      case AgentState(s) => s in {"available", "on_call", "on_break", "in_meeting"}
      case OtherOperand => false
    ensures OperandOK(o, subject) ==>
      match OperandType(o, subject)
      case DurationType => o.Duration? || (o.Field? && o.name in {"queue.longest_wait", "queue.sla_target"})
      case CountType => o.Integer? || (o.Field? && o.name in {"queue.tickets_waiting", "queue.agents_available",
          "queue.agents_on_call", "queue.volume_last_15m", "queue.volume_forecast_next_15m"})
      case BooleanType => o.Boolean? || o == Field("adherence.violation")
      case AgentStateType => o.AgentState? || o == Field("agent.current_state")
      case NoType => false
  {
  }

  /** Only waits and counts are ordered; everything else is compared for equality alone. */
  lemma OperatorMeans(c: Comparison, subject: Text)
    ensures ComparisonOK(c, subject) <==>
      && OperandOK(c.left, subject) && OperandOK(c.right, subject)
      && OperandType(c.left, subject) == OperandType(c.right, subject)
      && (c.operator == Equal || c.operator == NotEqual
          || (c.operator != OtherOperator
              && (OperandType(c.left, subject) == DurationType || OperandType(c.left, subject) == CountType)))
  {
  }

  /** At most 31 comparisons in one rule condition, 30 when the conjunction is held by value. */
  lemma ExpressionBounds(x: Expression, subject: Text)
    ensures ExpressionOK(x, subject) ==> x.Compare? || (x.All? && 1 <= |x.conditions| <= (if x.byValue then 30 else 31))
    ensures x.All? && 1 <= |x.conditions| <= (if x.byValue then 30 else 31)
        && (forall i | 0 <= i < |x.conditions| :: x.conditions[i].Compare? && ComparisonOK(x.conditions[i].c, subject))
        ==> ExpressionOK(x, subject)
  {
  }

  /** One comparison, or a nonempty flat list of them within the node limit. An `All` held by
      value is visited twice and so counts for two nodes. */
  predicate ExpressionOK(x: Expression, subject: Text)
  {
    match x
    case Compare(c) => ComparisonOK(c, subject)
    case All(conditions, byValue) =>
      && 0 < |conditions| <= MAX_EXPRESSION_NODES - (if byValue then 2 else 1)
      && forall i | 0 <= i < |conditions| :: conditions[i].Compare? && ComparisonOK(conditions[i].c, subject)
    case _ => false
  }

  method ValidateOperand(es: ErrorList, o: Operand, subject: Text) returns (t: FieldType)
    modifies es
    ensures t == OperandType(o, subject)
    ensures old(es.errors) <= es.errors
    ensures es.errors == old(es.errors) <==> OperandOK(o, subject)
  {
    match o
    case Field(name) =>
      if name !in FieldCatalog() { es.Add(UnknownField); return NoType; }
      if FieldCatalog()[name].subject != subject { es.Add(SubjectMismatch); return NoType; }
      return FieldCatalog()[name].typ;
    case Integer(n) =>
      if n < 0 { es.Add(InvalidValue); }
      return CountType;
    case Duration(d) =>
      if DurationInvalid(d) { es.Add(InvalidDuration); }
      return DurationType;
    case Boolean(_) => return BooleanType;
    case AgentState(s) =>
      if !ValidAgentState(s) { es.Add(InvalidValue); }
      return AgentStateType;
    case OtherOperand =>
      es.Add(UnsupportedOperand);
      return NoType;
  }

  method ValidateCompare(es: ErrorList, c: Comparison, subject: Text)
    modifies es
    ensures old(es.errors) <= es.errors
    ensures es.errors == old(es.errors) <==> ComparisonOK(c, subject)
  {
    var left := ValidateOperand(es, c.left, subject);
    var right := ValidateOperand(es, c.right, subject);
    if left == NoType || right == NoType { return; }
    if left != right {
      es.Add(TypeMismatch);
      return;
    }
    if !AllowedOperatorType(left, c.operator) { es.Add(InvalidOperator); }
  }

  // One visited node below an `All`; `count` is the visitor's captured node count.
  method WalkCondition(es: ErrorList, x: Expression, count: nat, subject: Text) returns (count': nat)
    requires x.Compare? || x.NilCompare?
    modifies es
    ensures old(es.errors) <= es.errors
    ensures count' == count + 1
    ensures es.errors == old(es.errors) <==>
            x.Compare? && ComparisonOK(x.c, subject) && count' <= MAX_EXPRESSION_NODES
  {
    count' := count + 1;
    if count' > MAX_EXPRESSION_NODES {
      es.Add(SizeLimit);
      return;
    }
    if x.NilCompare? { es.Add(UnsupportedExpression); } else { ValidateCompare(es, x.c, subject); }
  }

  /** Validation reports nothing exactly on the well-formed expressions. */
  method ValidateExpression(x: Expression, subject: Text) returns (es: ErrorList)
    ensures fresh(es)
    ensures es.errors == [] <==> ExpressionOK(x, subject)
  {
    es := new ErrorList();
    match x
    case Compare(c) => ValidateCompare(es, c, subject);
    case All(conditions, byValue) =>
      var count := if byValue then 2 else 1;
      if conditions == [] { es.Add(UnsupportedExpression); }
      for i := 0 to |conditions|
        invariant count <= (if byValue then 2 else 1) + i
        invariant es.errors == [] ==> count == (if byValue then 2 else 1) + i
        invariant es.errors == [] <==>
          && conditions != []
          && (forall j | 0 <= j < i :: conditions[j].Compare? && ComparisonOK(conditions[j].c, subject))
          && (i > 0 ==> (if byValue then 2 else 1) + i <= MAX_EXPRESSION_NODES)
      {
        if conditions[i].Compare? || conditions[i].NilCompare? {
          count := WalkCondition(es, conditions[i], count, subject);
        } else {
          es.Add(UnsupportedExpression);
        }
      }
    case _ => es.Add(UnsupportedExpression);
  }

  // ----- soundness of validation -----

  /** Every field of the subject is known with a value of its declared type. */
  ghost predicate TotalLookup(lookup: Lookup, subject: Text)
  {
    forall f | f in FieldCatalog() && FieldCatalog()[f].subject == subject ::
      f in lookup && ValidFieldValue(lookup[f], FieldCatalog()[f].typ)
  }

  lemma ResolvedType(o: Operand, subject: Text, lookup: Lookup)
    requires OperandOK(o, subject) && TotalLookup(lookup, subject)
    ensures ResolveOperand(o, lookup).Some?
    ensures ValidFieldValue(ResolveOperand(o, lookup).value, OperandType(o, subject))
  {
    hide FieldCatalog;
  }

  lemma WellTypedDecides(c: Comparison, subject: Text, lookup: Lookup)
    requires ComparisonOK(c, subject) && TotalLookup(lookup, subject)
    ensures EvaluateComparison(c, lookup) != PredicateUnknown
  {
    hide FieldCatalog, ResolveOperand, OperandType;
    ResolvedType(c.left, subject, lookup);
    ResolvedType(c.right, subject, lookup);
  }

  lemma {:induction false} FlattenCompares(xs: seq<Expression>)
    requires forall i | 0 <= i < |xs| :: xs[i].Compare?
    ensures |FlattenAll(xs)| == |xs| && forall i | 0 <= i < |xs| :: FlattenAll(xs)[i] == xs[i].c
  {
    if xs == [] {
    } else {
      FlattenCompares(xs[1..]);
    }
  }

  /** A validated expression, compiled and evaluated under complete well-typed knowledge, is
      never Unknown - and it has something to evaluate. */
  lemma ValidatedIsDecided(x: Expression, subject: Text, lookup: Lookup)
    requires ExpressionOK(x, subject) && TotalLookup(lookup, subject)
    ensures Flatten(x) != [] && Conjunction(Flatten(x), lookup) != PredicateUnknown
  {
    hide FieldCatalog, OperandType;
    var cs := Flatten(x);
    if x.All? { FlattenCompares(x.conditions); }
    forall c | c in cs ensures EvaluateComparison(c, lookup) != PredicateUnknown {
      WellTypedDecides(c, subject, lookup);
    }
    ConjunctionMeans(cs, lookup);
  }
}
