/** semantics.py: what one delegation link must satisfy. */
module Delegation {
  import opened Prelude
  import opened Canonical
  import opened PythonEquality

  // ------------------------------------------------------------------- data

  datatype ResourceRule = Exact(uri: string) | Prefix(uri: string)

  datatype ConstraintValue = TextValue(text: string) | ListValue(items: seq<string>)

  /** The three constraint operators with the values the schema admits for each. */
  datatype Rule = Equals(value: ConstraintValue) | DecimalLte(bound: string) | SetSubset(members: seq<string>)

  datatype Constraint = Constraint(name: string, rule: Rule, critical: bool)

  datatype Grant = Grant(grantId: string, action: string, resource: ResourceRule, constraints: seq<Constraint>)

  datatype SatisfactionPoint = BeforeAction | DuringExecution | BeforeCompletion

  datatype Obligation = Obligation(obligationId: string, mandatory: bool, point: SatisfactionPoint, body: Value)

  datatype BudgetItem = BudgetItem(dimension: string, quantity: string, unit: string)

  datatype CapsuleRef = CapsuleRef(capsuleId: string, taskId: string, digest: string)

  datatype Freshness =
    | OnlineStrict(endpoint: string)
    | BoundedStale(endpoint: string, maxStaleness: nat)
    | OfflineUntilExpiry

  datatype Replay = SingleUse | MultiUse(maxUses: Option<nat>)

  datatype Kind = Root | Derived

  /** A capsule without its proof. `rest` holds the members the kernel never looks at. */
  datatype Capsule = Capsule(
    kind: Kind,
    capsuleId: string,
    taskId: string,
    workflowId: string,
    issuer: string,
    delegator: Option<string>,
    subject: string,
    parent: Option<CapsuleRef>,
    authority: seq<Grant>,
    obligations: seq<Obligation>,
    budgets: seq<BudgetItem>,
    delegationDepth: nat,
    notBefore: int,
    expiresAt: int,
    freshness: Freshness,
    replay: Replay,
    rest: Value)

  // --------------------------------------------------------------- decimals

  function DigitsValue(s: string): nat {
    if s == "" || !('0' <= s[|s| - 1] <= '9') then 0
    else 10 * DigitsValue(s[..|s| - 1]) + (s[|s| - 1] as int - '0' as int)
  }

  function PowerOfTen(n: nat): nat
    ensures PowerOfTen(n) > 0
  {
    if n == 0 then 1 else 10 * PowerOfTen(n - 1)
  }

  /** The position of the decimal point, or the length of the text. */
  function PointAt(s: string): (k: nat)
    ensures k <= |s|
  {
    if s == "" || s[0] == '.' then 0 else 1 + PointAt(s[1..])
  }

  /** `Decimal(text)` for texts of the schema's decimal pattern. */
  function DecimalOf(s: string): real {
    var k := PointAt(s);
    var fraction := if k < |s| then s[k + 1..] else "";
    DigitsValue(s[..k]) as real + DigitsValue(fraction) as real / PowerOfTen(|fraction|) as real
  }

  // -------------------------------------------------------------- authority

  /** `_constraint_map`: the last constraint of a name wins. */
  function ConstraintMap(constraints: seq<Constraint>): map<string, Constraint> {
    if constraints == [] then map[]
    else
      var last := constraints[|constraints| - 1];
      ConstraintMap(constraints[..|constraints| - 1])[last.name := last]
  }

  /** `_constraint_attenuates`. */
  predicate Attenuates(child: Constraint, parent: Constraint) {
    match parent.rule
    case Equals(value) => child.rule.Equals? && child.rule.value == value
    case DecimalLte(bound) => child.rule.DecimalLte? && DecimalOf(child.rule.bound) <= DecimalOf(bound)
    case SetSubset(members) => child.rule.SetSubset? && forall x :: x in child.rule.members ==> x in members
  }

  /** `_resource_contained`. */
  predicate ResourceContained(child: ResourceRule, parent: ResourceRule) {
    match parent
    case Exact(uri) => child.Exact? && child.uri == uri
    case Prefix(uri) => StartsWith(child.uri, uri)
  }

  /** `_resource_matches` of the kernel. */
  predicate ResourceMatches(rule: ResourceRule, resource: string) {
    match rule
    case Exact(uri) => resource == uri
    case Prefix(uri) => StartsWith(resource, uri)
  }

  /** `_grant_contained`. */
  predicate GrantContained(child: Grant, parent: Grant) {
    && child.action == parent.action
    && ResourceContained(child.resource, parent.resource)
    && var mine, theirs := ConstraintMap(child.constraints), ConstraintMap(parent.constraints);
       forall name :: name in theirs ==> name in mine && Attenuates(mine[name], theirs[name])
  }

  predicate AuthorityContained(child: Capsule, parent: Capsule) {
    forall i :: 0 <= i < |child.authority| ==>
      exists j :: 0 <= j < |parent.authority| && GrantContained(child.authority[i], parent.authority[j])
  }

  // ------------------------------------------------- obligations and budgets

  /** What `!=` compares: the body is free-form JSON, compared as Python compares it. */
  predicate SameObligation(a: Obligation, b: Obligation) {
    && a.obligationId == b.obligationId && a.mandatory == b.mandatory && a.point == b.point
    && PythonEqual(a.body, b.body)
  }

  predicate Carries(obligations: seq<Obligation>, o: Obligation) {
    exists i :: 0 <= i < |obligations| && SameObligation(obligations[i], o)
  }

  function ObligationMap(obligations: seq<Obligation>): map<string, Obligation> {
    if obligations == [] then map[]
    else
      var last := obligations[|obligations| - 1];
      ObligationMap(obligations[..|obligations| - 1])[last.obligationId := last]
  }

  /** `_validate_obligations`: the first mandatory obligation that is missing or changed decides. */
  function CheckObligations(inherited: seq<Obligation>, mine: map<string, Obligation>): Result<(), ErrorCode> {
    if inherited == [] then Ok(())
    else
      var o := inherited[0];
      if !o.mandatory then CheckObligations(inherited[1..], mine)
      else if o.obligationId !in mine then Err(ObligationRemoved)
      else if !SameObligation(mine[o.obligationId], o) then Err(ObligationModified)
      else CheckObligations(inherited[1..], mine)
  }

  function BudgetMap(budgets: seq<BudgetItem>): map<string, BudgetItem> {
    if budgets == [] then map[]
    else
      var last := budgets[|budgets| - 1];
      BudgetMap(budgets[..|budgets| - 1])[last.dimension := last]
  }

  predicate DistinctDimensions(budgets: seq<BudgetItem>) {
    forall i, j :: 0 <= i < j < |budgets| ==> budgets[i].dimension != budgets[j].dimension
  }

  /** The dimensions in order of first occurrence: the order in which a Python dict lists them. */
  function Dimensions(budgets: seq<BudgetItem>): seq<string> {
    if budgets == [] then []
    else
      var dims, last := Dimensions(budgets[..|budgets| - 1]), budgets[|budgets| - 1].dimension;
      if last in dims then dims else dims + [last]
  }

  /** `_validate_child_budget`, dimension by dimension. */
  function CheckBudgets(dims: seq<string>, mine: map<string, BudgetItem>, theirs: map<string, BudgetItem>): Result<(), ErrorCode>
    requires forall d :: d in dims ==> d in mine
  {
    if dims == [] then Ok(())
    else
      var d := dims[0];
      if d !in theirs then Err(BudgetOverallocated)
      else if mine[d].unit != theirs[d].unit then Err(BudgetUnitMismatch)
      else if DecimalOf(mine[d].quantity) > DecimalOf(theirs[d].quantity) then Err(BudgetOverallocated)
      else CheckBudgets(dims[1..], mine, theirs)
  }

  lemma {:induction false} DimensionsAre(budgets: seq<BudgetItem>)
    ensures forall d :: d in Dimensions(budgets) <==> d in BudgetMap(budgets)
  {
    if budgets != [] {
      DimensionsAre(budgets[..|budgets| - 1]);
    }
  }

  lemma {:induction false} BudgetMapIs(budgets: seq<BudgetItem>)
    ensures forall d :: d in BudgetMap(budgets) ==> BudgetMap(budgets)[d] in budgets && BudgetMap(budgets)[d].dimension == d
    ensures DistinctDimensions(budgets) ==>
      forall i :: 0 <= i < |budgets| ==> budgets[i].dimension in BudgetMap(budgets) && BudgetMap(budgets)[budgets[i].dimension] == budgets[i]
  {
    if budgets != [] {
      var front := budgets[..|budgets| - 1];
      BudgetMapIs(front);
      assert budgets == front + [budgets[|budgets| - 1]];
    }
  }

  // -------------------------------------------------------------- delegation

  predicate BindsParent(hash: Capsule -> string, parent: Capsule, child: Capsule)
    requires child.parent.Some?
  {
    && child.kind == Derived
    && child.parent.value == CapsuleRef(parent.capsuleId, parent.taskId, hash(parent))
    && child.workflowId == parent.workflowId
  }

  /** `validate_delegation`, in the order of its checks. */
  function ValidateDelegation(hash: Capsule -> string, parent: Capsule, child: Capsule, ancestors: seq<string>): Result<(), ErrorCode> {
    if child.parent.None? || !BindsParent(hash, parent, child) then Err(ParentMismatch)
    else if child.capsuleId == parent.capsuleId || child.capsuleId in ancestors then Err(LineageCycle)
    else if parent.delegationDepth == 0 || child.delegationDepth > parent.delegationDepth - 1 then Err(DelegationDepthExceeded)
    else if child.notBefore < parent.notBefore || child.expiresAt > parent.expiresAt then Err(TemporalExpansion)
    else if !AuthorityContained(child, parent) then Err(AuthorityExpansion)
    else
      var obligations := CheckObligations(parent.obligations, ObligationMap(child.obligations));
      if obligations.Err? then obligations
      else
        DimensionsAre(child.budgets);
        CheckBudgets(Dimensions(child.budgets), BudgetMap(child.budgets), BudgetMap(parent.budgets))
  }

  // ------------------------------------------------------- orders, link by link

  lemma AttenuatesReflexive(c: Constraint)
    ensures Attenuates(c, c)
  {
    hide DecimalOf;
  }

  lemma AttenuatesTransitive(a: Constraint, b: Constraint, c: Constraint)
    requires Attenuates(a, b) && Attenuates(b, c)
    ensures Attenuates(a, c)
  {
    hide DecimalOf;
  }

  lemma PrefixTransitive(a: string, b: string, c: string)
    requires StartsWith(a, b) && StartsWith(b, c)
    ensures StartsWith(a, c)
  {
    assert a[..|c|] == a[..|b|][..|c|];
  }

  lemma PrefixReflexive(a: string)
    ensures StartsWith(a, a)
  {
  }

  /** Containment of resource rules is exact: it holds when and only when every resource the child
      rule matches is matched by the parent rule. */
  lemma ResourceContainedExact(child: ResourceRule, parent: ResourceRule)
    ensures ResourceContained(child, parent) <==>
      forall r :: ResourceMatches(child, r) ==> ResourceMatches(parent, r)
  {
    PrefixReflexive(child.uri);
    if ResourceContained(child, parent) {
      forall r | ResourceMatches(child, r) ensures ResourceMatches(parent, r) {
        if child.Prefix? {
          PrefixTransitive(r, child.uri, parent.uri);
        }
      }
    } else {
      assert ResourceMatches(child, child.uri);
      if parent.Exact? && child.uri == parent.uri {
        var longer := child.uri + "/";
        assert longer[..|child.uri|] == child.uri;
        assert ResourceMatches(child, longer) && |longer| != |parent.uri|;
        assert !ResourceMatches(parent, longer);
      } else {
        assert !ResourceMatches(parent, child.uri);
      }
    }
  }

  lemma ResourceContainedTransitive(a: ResourceRule, b: ResourceRule, c: ResourceRule)
    requires ResourceContained(a, b) && ResourceContained(b, c)
    ensures ResourceContained(a, c)
  {
    if c.Prefix? {
      if b.Prefix? {
        PrefixTransitive(a.uri, b.uri, c.uri);
      }
    }
  }

  /** What a constraint can be asked about: one value, an amount, or a set of texts. */
  datatype Sample = ValueSample(value: ConstraintValue) | AmountSample(amount: real) | SetSample(members: set<string>)

  /** The samples a rule leaves room for. */
  predicate Admits(rule: Rule, x: Sample) {
    match rule
    case Equals(value) => x == ValueSample(value)
    case DecimalLte(bound) => x.AmountSample? && x.amount <= DecimalOf(bound)
    case SetSubset(members) => x.SetSample? && forall m :: m in x.members ==> m in members
  }

  /** Attenuation of constraints is exact too: it holds when and only when the parent's rule admits whatever
      the child's admits. */
  lemma AttenuatesExact(child: Constraint, parent: Constraint)
    ensures Attenuates(child, parent) <==> forall x :: Admits(child.rule, x) ==> Admits(parent.rule, x)
  {
    hide DecimalOf;
    if !Attenuates(child, parent) {
      var x := match child.rule
        case Equals(value) => ValueSample(value)
        case DecimalLte(bound) => AmountSample(DecimalOf(bound))
        case SetSubset(members) => SetSample(set m | m in members);
      assert Admits(child.rule, x);
      assert !Admits(parent.rule, x);
    }
  }

  /** Of several entries under one name the last counts, for constraints, obligations and budgets alike. */
  lemma {:induction false} LastConstraintCounts(constraints: seq<Constraint>, i: nat)
    requires i < |constraints| && forall j :: i < j < |constraints| ==> constraints[j].name != constraints[i].name
    ensures constraints[i].name in ConstraintMap(constraints) && ConstraintMap(constraints)[constraints[i].name] == constraints[i]
    decreases |constraints|
  {
    if i < |constraints| - 1 {
      LastConstraintCounts(constraints[..|constraints| - 1], i);
    }
  }

  lemma {:induction false} LastObligationCounts(obligations: seq<Obligation>, i: nat)
    requires i < |obligations| && forall j :: i < j < |obligations| ==> obligations[j].obligationId != obligations[i].obligationId
    ensures var m := ObligationMap(obligations);
      obligations[i].obligationId in m && m[obligations[i].obligationId] == obligations[i]
    decreases |obligations|
  {
    if i < |obligations| - 1 {
      LastObligationCounts(obligations[..|obligations| - 1], i);
    }
  }

  lemma {:induction false} LastBudgetCounts(budgets: seq<BudgetItem>, i: nat)
    requires i < |budgets| && forall j :: i < j < |budgets| ==> budgets[j].dimension != budgets[i].dimension
    ensures budgets[i].dimension in BudgetMap(budgets) && BudgetMap(budgets)[budgets[i].dimension] == budgets[i]
    decreases |budgets|
  {
    if i < |budgets| - 1 {
      LastBudgetCounts(budgets[..|budgets| - 1], i);
    }
  }

  /** Grants contained in one another form a chain of any length. */
  lemma GrantContainedTransitive(a: Grant, b: Grant, c: Grant)
    requires GrantContained(a, b) && GrantContained(b, c)
    ensures GrantContained(a, c)
  {
    hide Attenuates, ResourceContained, ConstraintMap;
    ResourceContainedTransitive(a.resource, b.resource, c.resource);
    var ma, mb, mc := ConstraintMap(a.constraints), ConstraintMap(b.constraints), ConstraintMap(c.constraints);
    forall name | name in mc ensures name in ma && Attenuates(ma[name], mc[name]) {
      AttenuatesTransitive(ma[name], mb[name], mc[name]);
    }
  }

  lemma {:induction false} ConstraintMapIs(constraints: seq<Constraint>)
    ensures forall n :: n in ConstraintMap(constraints) ==>
      ConstraintMap(constraints)[n] in constraints && ConstraintMap(constraints)[n].name == n
    ensures forall c :: c in constraints ==> c.name in ConstraintMap(constraints)
  {
    if constraints != [] {
      var front, last := constraints[..|constraints| - 1], constraints[|constraints| - 1];
      ConstraintMapIs(front);
      assert constraints == front + [last];
    }
  }

  lemma {:induction false} ObligationMapIs(obligations: seq<Obligation>)
    ensures forall k :: k in ObligationMap(obligations) ==> ObligationMap(obligations)[k] in obligations
  {
    if obligations != [] {
      ObligationMapIs(obligations[..|obligations| - 1]);
      assert obligations == obligations[..|obligations| - 1] + [obligations[|obligations| - 1]];
    }
  }

  lemma {:induction false} CheckedObligations(inherited: seq<Obligation>, mine: map<string, Obligation>)
    requires CheckObligations(inherited, mine).Ok?
    ensures forall o :: o in inherited && o.mandatory ==> o.obligationId in mine && SameObligation(mine[o.obligationId], o)
  {
    if inherited != [] {
      CheckedObligations(inherited[1..], mine);
      assert inherited == [inherited[0]] + inherited[1..];
    }
  }

  /** A link hands on every mandatory obligation, unchanged as far as Python can tell. */
  lemma ObligationsInherited(parent: Capsule, child: Capsule, o: Obligation)
    requires CheckObligations(parent.obligations, ObligationMap(child.obligations)).Ok?
    requires o in parent.obligations && o.mandatory
    ensures Carries(child.obligations, o)
  {
    hide SameObligation;
    var mine := ObligationMap(child.obligations);
    CheckedObligations(parent.obligations, mine);
    ObligationMapIs(child.obligations);
    var i :| 0 <= i < |child.obligations| && child.obligations[i] == mine[o.obligationId];
  }

  /** Budgets shrink: dimension by dimension, same unit, no larger quantity. */
  ghost predicate BudgetsWithin(mine: map<string, BudgetItem>, theirs: map<string, BudgetItem>) {
    forall d :: d in mine ==>
      d in theirs && mine[d].unit == theirs[d].unit && DecimalOf(mine[d].quantity) <= DecimalOf(theirs[d].quantity)
  }

  lemma {:induction false} CheckedBudgets(dims: seq<string>, mine: map<string, BudgetItem>, theirs: map<string, BudgetItem>)
    requires forall d :: d in dims ==> d in mine
    requires CheckBudgets(dims, mine, theirs).Ok?
    ensures forall d :: d in dims ==>
      d in theirs && mine[d].unit == theirs[d].unit && DecimalOf(mine[d].quantity) <= DecimalOf(theirs[d].quantity)
  {
    hide DecimalOf;
    if dims != [] {
      CheckedBudgets(dims[1..], mine, theirs);
      assert dims == [dims[0]] + dims[1..];
    }
  }

  lemma {:induction false} ObligationsCheckOut(inherited: seq<Obligation>, mine: map<string, Obligation>)
    requires forall o :: o in inherited && o.mandatory ==> o.obligationId in mine && SameObligation(mine[o.obligationId], o)
    ensures CheckObligations(inherited, mine).Ok?
  {
    if inherited != [] {
      assert inherited[0] in inherited;
      ObligationsCheckOut(inherited[1..], mine);
    }
  }

  lemma {:induction false} BudgetsCheckOut(dims: seq<string>, mine: map<string, BudgetItem>, theirs: map<string, BudgetItem>)
    requires (forall d :: d in dims ==> d in mine) && BudgetsWithin(mine, theirs)
    ensures CheckBudgets(dims, mine, theirs).Ok?
  {
    hide DecimalOf;
    if dims != [] {
      assert dims[0] in dims;
      BudgetsCheckOut(dims[1..], mine, theirs);
    }
  }

  lemma BudgetsWithinTransitive(a: map<string, BudgetItem>, b: map<string, BudgetItem>, c: map<string, BudgetItem>)
    requires BudgetsWithin(a, b) && BudgetsWithin(b, c)
    ensures BudgetsWithin(a, c)
  {
    hide DecimalOf;
  }

  /** The delegation rules as one condition. */
  ghost predicate MayDelegate(hash: Capsule -> string, parent: Capsule, child: Capsule, ancestors: seq<string>) {
    && child.kind == Derived
    && child.parent == Some(CapsuleRef(parent.capsuleId, parent.taskId, hash(parent)))
    && child.workflowId == parent.workflowId
    && child.capsuleId != parent.capsuleId && child.capsuleId !in ancestors
    && child.delegationDepth < parent.delegationDepth
    && parent.notBefore <= child.notBefore && child.expiresAt <= parent.expiresAt
    && AuthorityContained(child, parent)
    && (forall o :: o in parent.obligations && o.mandatory ==>
          o.obligationId in ObligationMap(child.obligations) && SameObligation(ObligationMap(child.obligations)[o.obligationId], o))
    && BudgetsWithin(BudgetMap(child.budgets), BudgetMap(parent.budgets))
  }

  /** `validate_delegation` accepts exactly the links that meet the rules. */
  lemma ValidateDelegationIff(hash: Capsule -> string, parent: Capsule, child: Capsule, ancestors: seq<string>)
    ensures ValidateDelegation(hash, parent, child, ancestors).Ok? <==> MayDelegate(hash, parent, child, ancestors)
  {
    hide AuthorityContained, CheckBudgets, CheckObligations, DecimalOf, BudgetMap, ObligationMap, BudgetsWithin, SameObligation;
    var mine, theirs := BudgetMap(child.budgets), BudgetMap(parent.budgets);
    DimensionsAre(child.budgets);
    if ValidateDelegation(hash, parent, child, ancestors).Ok? {
      CheckedObligations(parent.obligations, ObligationMap(child.obligations));
      CheckedWithin(child.budgets, theirs);
    }
    if MayDelegate(hash, parent, child, ancestors) {
      ObligationsCheckOut(parent.obligations, ObligationMap(child.obligations));
      BudgetsCheckOut(Dimensions(child.budgets), mine, theirs);
    }
  }

  /** What each refusal says of the two capsules, and that the checks before it passed. */
  lemma RefusalTells(hash: Capsule -> string, parent: Capsule, child: Capsule, ancestors: seq<string>)
    requires ValidateDelegation(hash, parent, child, ancestors).Err?
    ensures var bound := child.kind == Derived && child.workflowId == parent.workflowId &&
                         child.parent == Some(CapsuleRef(parent.capsuleId, parent.taskId, hash(parent)));
            var cyclic := child.capsuleId in [parent.capsuleId] + ancestors;
            var deep := child.delegationDepth >= parent.delegationDepth;
            var early := child.notBefore < parent.notBefore || parent.expiresAt < child.expiresAt;
      match ValidateDelegation(hash, parent, child, ancestors).error
      case ParentMismatch => !bound
      case LineageCycle => bound && cyclic
      case DelegationDepthExceeded => bound && !cyclic && deep
      case TemporalExpansion => bound && !cyclic && !deep && early
      case AuthorityExpansion => bound && !cyclic && !deep && !early && !AuthorityContained(child, parent)
      case ObligationRemoved =>
        bound && !cyclic && !deep && !early && AuthorityContained(child, parent) &&
        exists o :: o in parent.obligations && o.mandatory && o.obligationId !in ObligationMap(child.obligations)
      case ObligationModified =>
        bound && !cyclic && !deep && !early && AuthorityContained(child, parent) &&
        exists o :: Changed(o, parent.obligations, ObligationMap(child.obligations))
      case BudgetUnitMismatch =>
        bound && !cyclic && !deep && !early && AuthorityContained(child, parent) &&
        exists d :: d in BudgetMap(child.budgets) && d in BudgetMap(parent.budgets) &&
          BudgetMap(child.budgets)[d].unit != BudgetMap(parent.budgets)[d].unit
      case BudgetOverallocated =>
        bound && !cyclic && !deep && !early && AuthorityContained(child, parent) &&
        exists d :: d in BudgetMap(child.budgets) && Exceeded(BudgetMap(child.budgets)[d], BudgetMap(parent.budgets))
      case _ => false
  {
    hide AuthorityContained, DecimalOf, BudgetMap, ObligationMap, SameObligation;
    DimensionsAre(child.budgets);
    BudgetMapIs(child.budgets);
    if CheckObligations(parent.obligations, ObligationMap(child.obligations)).Err? {
      ObligationRefusal(parent.obligations, ObligationMap(child.obligations));
    } else if CheckBudgets(Dimensions(child.budgets), BudgetMap(child.budgets), BudgetMap(parent.budgets)).Err? {
      BudgetRefusal(Dimensions(child.budgets), BudgetMap(child.budgets), BudgetMap(parent.budgets));
    }
  }

  ghost predicate Changed(o: Obligation, inherited: seq<Obligation>, mine: map<string, Obligation>) {
    o in inherited && o.mandatory && o.obligationId in mine && !SameObligation(mine[o.obligationId], o)
  }

  /** In another dimension than the parent's, or more than the parent holds in the same unit. */
  ghost predicate Exceeded(item: BudgetItem, theirs: map<string, BudgetItem>) {
    item.dimension !in theirs ||
    (item.unit == theirs[item.dimension].unit && DecimalOf(item.quantity) > DecimalOf(theirs[item.dimension].quantity))
  }

  lemma {:induction false} ObligationRefusal(inherited: seq<Obligation>, mine: map<string, Obligation>)
    requires CheckObligations(inherited, mine).Err?
    ensures match CheckObligations(inherited, mine).error
      case ObligationRemoved => exists o :: o in inherited && o.mandatory && o.obligationId !in mine
      case ObligationModified => exists o :: Changed(o, inherited, mine)
      case _ => false
  {
    hide SameObligation;
    var o := inherited[0];
    assert inherited == [o] + inherited[1..];
    if o.mandatory && o.obligationId !in mine {
    } else if o.mandatory && !SameObligation(mine[o.obligationId], o) {
      assert Changed(o, inherited, mine);
    } else {
      ObligationRefusal(inherited[1..], mine);
      forall p | Changed(p, inherited[1..], mine) ensures Changed(p, inherited, mine) {
      }
    }
  }

  lemma {:induction false} BudgetRefusal(dims: seq<string>, mine: map<string, BudgetItem>, theirs: map<string, BudgetItem>)
    requires (forall d :: d in dims ==> d in mine && mine[d].dimension == d) && CheckBudgets(dims, mine, theirs).Err?
    ensures match CheckBudgets(dims, mine, theirs).error
      case BudgetUnitMismatch => exists d :: d in mine && d in theirs && mine[d].unit != theirs[d].unit
      case BudgetOverallocated => exists d :: d in mine && Exceeded(mine[d], theirs)
      case _ => false
  {
    hide DecimalOf;
    var d := dims[0];
    assert d in dims;
    if d !in theirs || mine[d].unit != theirs[d].unit || DecimalOf(mine[d].quantity) > DecimalOf(theirs[d].quantity) {
    } else {
      BudgetRefusal(dims[1..], mine, theirs);
    }
  }

  lemma CheckedWithin(budgets: seq<BudgetItem>, theirs: map<string, BudgetItem>)
    requires forall d :: d in Dimensions(budgets) <==> d in BudgetMap(budgets)
    requires CheckBudgets(Dimensions(budgets), BudgetMap(budgets), theirs).Ok?
    ensures BudgetsWithin(BudgetMap(budgets), theirs)
  {
    hide DecimalOf;
    CheckedBudgets(Dimensions(budgets), BudgetMap(budgets), theirs);
  }

  /** Everything an accepted link guarantees about its two capsules. */
  ghost predicate Link(hash: Capsule -> string, parent: Capsule, child: Capsule) {
    && child.parent == Some(CapsuleRef(parent.capsuleId, parent.taskId, hash(parent)))
    && child.workflowId == parent.workflowId
    && child.delegationDepth < parent.delegationDepth
    && parent.notBefore <= child.notBefore && child.expiresAt <= parent.expiresAt
    && AuthorityContained(child, parent)
    && (forall o :: o in parent.obligations && o.mandatory ==> Carries(child.obligations, o))
    && BudgetsWithin(BudgetMap(child.budgets), BudgetMap(parent.budgets))
  }

  lemma ValidatedIsLink(hash: Capsule -> string, parent: Capsule, child: Capsule, ancestors: seq<string>)
    requires ValidateDelegation(hash, parent, child, ancestors).Ok?
    ensures Link(hash, parent, child)
    ensures child.capsuleId != parent.capsuleId && child.capsuleId !in ancestors
  {
    hide AuthorityContained, CheckBudgets, CheckObligations, DecimalOf, BudgetMap, ObligationMap, SameObligation;
    forall o | o in parent.obligations && o.mandatory ensures Carries(child.obligations, o) {
      ObligationsInherited(parent, child, o);
    }
    DimensionsAre(child.budgets);
    CheckedBudgets(Dimensions(child.budgets), BudgetMap(child.budgets), BudgetMap(parent.budgets));
  }
}
