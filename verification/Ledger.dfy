/** allocation.py: budgets handed to children, never beyond what the parent holds. */
module Ledger {
  import opened Prelude
  import opened Delegation
  import opened Decimals

  /** One child's share: a budget vector, in the order its dict lists it. */
  datatype Allocation = Allocation(child: string, vector: seq<BudgetItem>)

  datatype Account = Account(limits: seq<BudgetItem>, allocations: seq<Allocation>)

  type Accounts = map<string, Account>

  /** `child_allocations` is a dict: a child appears once. */
  predicate DistinctChildren(batch: seq<Allocation>) {
    forall i, j :: 0 <= i < j < |batch| ==> batch[i].child != batch[j].child
  }

  predicate Named(child: string, allocations: seq<Allocation>) {
    exists i :: 0 <= i < |allocations| && allocations[i].child == child
  }

  function AllItems(allocations: seq<Allocation>): seq<BudgetItem> {
    if allocations == [] then [] else allocations[0].vector + AllItems(allocations[1..])
  }

  type Totals = map<string, Decimal>

  /** `_accumulate`, item by item. */
  function Accumulated(limits: map<string, BudgetItem>, totals: Totals, items: seq<BudgetItem>): Result<Totals, ErrorCode>
    requires limits.Keys == totals.Keys
    decreases |items|
  {
    if items == [] then Ok(totals)
    else
      var item := items[0];
      if item.dimension !in limits then Err(BudgetOverallocated)
      else if item.unit != limits[item.dimension].unit then Err(BudgetUnitMismatch)
      else
        var total := Add(totals[item.dimension], Quantity(item.quantity));
        Accumulated(limits, totals[item.dimension := total], items[1..])
  }

  function ZeroTotals(limits: map<string, BudgetItem>): Totals {
    map d | d in limits :: ZERO
  }

  predicate Overdrawn(limits: map<string, BudgetItem>, totals: Totals)
    requires limits.Keys == totals.Keys
  {
    exists d :: d in totals && Exceeds(totals[d], Quantity(limits[d].quantity))
  }

  /** The outcome of the whole summation. */
  function CheckTotals(limits: map<string, BudgetItem>, items: seq<BudgetItem>): Result<(), ErrorCode> {
    AccumulatedIs(limits, ZeroTotals(limits), items);
    match Accumulated(limits, ZeroTotals(limits), items)
    case Err(e) => Err(e)
    case Ok(totals) => if Overdrawn(limits, totals) then Err(BudgetOverallocated) else Ok(())
  }

  /** `allocate_batch`. */
  function Allocate(accounts: Accounts, parent: string, batch: seq<Allocation>): (Accounts, Result<(), ErrorCode>) {
    if exists i :: 0 <= i < |batch| && !DistinctDimensions(batch[i].vector) then (accounts, Err(UnsupportedSemantics))
    else if parent !in accounts then (accounts, Err(AllocationConflict))
    else
      var account := accounts[parent];
      if exists i :: 0 <= i < |batch| && Named(batch[i].child, account.allocations) then (accounts, Err(AllocationConflict))
      else
        var checked := CheckTotals(BudgetMap(account.limits), AllItems(account.allocations + batch));
        if checked.Err? then (accounts, checked)
        else (accounts[parent := account.(allocations := account.allocations + batch)], Ok(()))
  }

  /** `register_parent`. */
  function Register(hash: Capsule -> string, accounts: Accounts, parent: Capsule): (Accounts, Result<string, ErrorCode>) {
    var digest := hash(parent);
    if !DistinctDimensions(parent.budgets) then (accounts, Err(UnsupportedSemantics))
    else if digest in accounts then
      if BudgetMap(accounts[digest].limits) != BudgetMap(parent.budgets) then (accounts, Err(AllocationConflict))
      else (accounts, Ok(digest))
    else (accounts[digest := Account(parent.budgets, [])], Ok(digest))
  }

  // ------------------------------------------------------- what totals mean

  predicate Matches(limits: map<string, BudgetItem>, item: BudgetItem) {
    item.dimension in limits && item.unit == limits[item.dimension].unit
  }

  predicate AllMatch(limits: map<string, BudgetItem>, items: seq<BudgetItem>) {
    forall i :: 0 <= i < |items| ==> Matches(limits, items[i])
  }

  /** The quantities of one dimension, in the order they are added. */
  function Amounts(d: string, items: seq<BudgetItem>): seq<Decimal> {
    if items == [] then []
    else (if items[0].dimension == d then [Quantity(items[0].quantity)] else []) + Amounts(d, items[1..])
  }

  lemma {:induction false} AccumulatedIs(limits: map<string, BudgetItem>, totals: Totals, items: seq<BudgetItem>)
    requires limits.Keys == totals.Keys
    ensures var r := Accumulated(limits, totals, items);
      && (r.Ok? <==> AllMatch(limits, items))
      && (r.Ok? ==> r.value.Keys == totals.Keys)
      && (r.Ok? ==> forall d :: d in totals ==> r.value[d] == RunningSum(totals[d], Amounts(d, items)))
    decreases |items|
  {
    hide Add, Quantity;
    if items != [] {
      var item := items[0];
      if Matches(limits, item) {
        var next := totals[item.dimension := Add(totals[item.dimension], Quantity(item.quantity))];
        AccumulatedIs(limits, next, items[1..]);
        assert forall i :: 1 <= i < |items| ==> items[i] == items[1..][i - 1];
        forall d | d in totals ensures RunningSum(totals[d], Amounts(d, items)) == RunningSum(next[d], Amounts(d, items[1..])) {
          if d == item.dimension {
            assert Amounts(d, items)[1..] == Amounts(d, items[1..]);
          } else {
            assert Amounts(d, items) == Amounts(d, items[1..]);
          }
        }
      }
    }
  }

  /** The exact sum of one dimension. */
  function Spent(d: string, items: seq<BudgetItem>): real
    decreases |items|
  {
    if items == [] then 0.0
    else (if items[0].dimension == d then DecimalOf(items[0].quantity) else 0.0) + Spent(d, items[1..])
  }

  predicate ItemsAtScale(items: seq<BudgetItem>, scale: nat) {
    forall i :: 0 <= i < |items| ==> Quantity(items[i].quantity).places <= scale
  }

  /** Every quantity is a multiple of 10^-scale and no limit reaches 10^(28-scale). */
  predicate Precise(limits: map<string, BudgetItem>, items: seq<BudgetItem>, scale: nat) {
    && ItemsAtScale(items, scale)
    && (forall d :: d in limits ==>
          Quantity(limits[d].quantity).places <= scale && Scaled(Quantity(limits[d].quantity), scale) < P28)
  }

  lemma {:induction false} AmountsAreExact(d: string, items: seq<BudgetItem>, scale: nat)
    requires ItemsAtScale(items, scale)
    ensures AtScale(Amounts(d, items), scale)
    ensures ExactSum(Amounts(d, items), scale) as real == Spent(d, items) * PowerOfTen(scale) as real
  {
    hide Scaled, Quantity, DecimalOf, PowerOfTen, ExactSum;
    if items == [] {
      NothingSpent(d, scale);
    } else {
      var head, rest := items[0], items[1..];
      AmountsAreExact(d, rest, scale);
      if head.dimension == d {
        var q := Quantity(head.quantity);
        QuantityIsDecimal(head.quantity, scale);
        assert Amounts(d, items) == [q] + Amounts(d, rest);
        OneMore(q, Amounts(d, rest), scale);
        assert Spent(d, items) == DecimalOf(head.quantity) + Spent(d, rest);
        Distribute(DecimalOf(head.quantity), Spent(d, rest), PowerOfTen(scale) as real);
        AddReals(Scaled(q, scale), ExactSum(Amounts(d, rest), scale));
      } else {
        assert Amounts(d, items) == Amounts(d, rest);
      }
    }
  }

  lemma NothingSpent(d: string, scale: nat)
    ensures Amounts(d, []) == [] && ExactSum([], scale) == 0 && Spent(d, []) == 0.0
  {
  }

  lemma OneMore(q: Decimal, qs: seq<Decimal>, scale: nat)
    requires q.places <= scale && AtScale(qs, scale)
    ensures AtScale([q] + qs, scale) && ExactSum([q] + qs, scale) == Scaled(q, scale) + ExactSum(qs, scale)
  {
    hide Scaled;
    assert ([q] + qs)[1..] == qs;
  }

  lemma AddReals(a: nat, b: nat)
    ensures (a + b) as real == a as real + b as real
  {
  }

  lemma Distribute(x: real, y: real, k: real)
    ensures (x + y) * k == x * k + y * k
  {
  }

  lemma CompareScaled(x: real, y: real, k: real)
    requires k > 0.0
    ensures x <= y <==> x * k <= y * k
  {
    if x <= y {
      assert (y - x) * k >= 0.0;
    } else {
      assert (x - y) * k > 0.0;
    }
  }

  /** Rounding never changes the verdict: a dimension passes exactly when the true sum is within the limit. */
  lemma DimensionPassesIff(limits: map<string, BudgetItem>, d: string, items: seq<BudgetItem>, scale: nat)
    requires d in limits && Precise(limits, items, scale)
    ensures !Exceeds(RunningSum(ZERO, Amounts(d, items)), Quantity(limits[d].quantity)) <==>
            Spent(d, items) <= DecimalOf(limits[d].quantity)
  {
    hide Scaled, Quantity, DecimalOf, PowerOfTen, Exceeds, RunningSum, ExactSum, Spent, Amounts;
    var limit, qs := Quantity(limits[d].quantity), Amounts(d, items);
    AmountsAreExact(d, items, scale);
    WithinLimitIff(qs, limit, scale);
    QuantityIsDecimal(limits[d].quantity, scale);
    CompareScaled(Spent(d, items), DecimalOf(limits[d].quantity), PowerOfTen(scale) as real);
  }

  /** Within the limits: dimensions known, units equal, true sums no larger than the limits. */
  ghost predicate Fits(limits: map<string, BudgetItem>, items: seq<BudgetItem>) {
    AllMatch(limits, items) && forall d :: d in limits ==> Spent(d, items) <= DecimalOf(limits[d].quantity)
  }

  lemma CheckTotalsIff(limits: map<string, BudgetItem>, items: seq<BudgetItem>, scale: nat)
    requires Precise(limits, items, scale)
    ensures CheckTotals(limits, items).Ok? <==> Fits(limits, items)
  {
    hide Quantity, DecimalOf, Exceeds, RunningSum, Spent, Amounts, Accumulated, Precise;
    AccumulatedIs(limits, ZeroTotals(limits), items);
    if AllMatch(limits, items) {
      var totals := Accumulated(limits, ZeroTotals(limits), items).value;
      forall d | d in limits
        ensures !Exceeds(totals[d], Quantity(limits[d].quantity)) <==> Spent(d, items) <= DecimalOf(limits[d].quantity)
      {
        DimensionPassesIff(limits, d, items, scale);
      }
    }
  }

  /** What a batch must meet, in exact arithmetic. */
  ghost predicate Grantable(account: Account, batch: seq<Allocation>) {
    && (forall i :: 0 <= i < |batch| ==> DistinctDimensions(batch[i].vector))
    && (forall i :: 0 <= i < |batch| ==> !Named(batch[i].child, account.allocations))
    && Fits(BudgetMap(account.limits), AllItems(account.allocations + batch))
  }

  ghost predicate PreciseFor(account: Account, batch: seq<Allocation>, scale: nat) {
    Precise(BudgetMap(account.limits), AllItems(account.allocations + batch), scale)
  }

  /** A batch is taken as a whole or refused as a whole, and the exact sums decide. */
  lemma AllocateIff(accounts: Accounts, parent: string, batch: seq<Allocation>, scale: nat)
    requires parent in accounts ==> PreciseFor(accounts[parent], batch, scale)
    ensures var (after, r) := Allocate(accounts, parent, batch);
      && (r.Ok? <==> parent in accounts && Grantable(accounts[parent], batch))
      && after == if r.Err? then accounts
                  else accounts[parent := accounts[parent].(allocations := accounts[parent].allocations + batch)]
  {
    hide CheckTotals, Fits, Precise, DistinctDimensions, Named, BudgetMap, AllItems;
    if parent in accounts {
      CheckTotalsIff(BudgetMap(accounts[parent].limits), AllItems(accounts[parent].allocations + batch), scale);
    }
  }

  lemma {:induction false} AccumulationRefusal(limits: map<string, BudgetItem>, totals: Totals, items: seq<BudgetItem>)
    requires limits.Keys == totals.Keys && Accumulated(limits, totals, items).Err?
    ensures match Accumulated(limits, totals, items).error
      case BudgetUnitMismatch =>
        exists item :: item in items && item.dimension in limits && item.unit != limits[item.dimension].unit
      case BudgetOverallocated => exists item :: item in items && item.dimension !in limits
      case _ => false
    decreases |items|
  {
    hide Add, Quantity;
    var item := items[0];
    assert item in items;
    if Matches(limits, item) {
      var next := totals[item.dimension := Add(totals[item.dimension], Quantity(item.quantity))];
      AccumulationRefusal(limits, next, items[1..]);
      assert forall x :: x in items[1..] ==> x in items;
    }
  }

  /** Some dimension is unknown to the parent, or the true sum of one exceeds the parent's limit. */
  ghost predicate Overasked(limits: map<string, BudgetItem>, items: seq<BudgetItem>) {
    || (exists item :: item in items && item.dimension !in limits)
    || (exists d :: d in limits && Spent(d, items) > DecimalOf(limits[d].quantity))
  }

  lemma TotalsRefusal(limits: map<string, BudgetItem>, items: seq<BudgetItem>, scale: nat)
    requires Precise(limits, items, scale) && CheckTotals(limits, items).Err?
    ensures match CheckTotals(limits, items).error
      case BudgetUnitMismatch =>
        exists item :: item in items && item.dimension in limits && item.unit != limits[item.dimension].unit
      case BudgetOverallocated => Overasked(limits, items)
      case _ => false
  {
    hide Quantity, DecimalOf, Exceeds, RunningSum, Spent, Amounts, Accumulated, Precise;
    AccumulatedIs(limits, ZeroTotals(limits), items);
    if Accumulated(limits, ZeroTotals(limits), items).Err? {
      AccumulationRefusal(limits, ZeroTotals(limits), items);
    } else {
      var totals := Accumulated(limits, ZeroTotals(limits), items).value;
      var d :| d in totals && Exceeds(totals[d], Quantity(limits[d].quantity));
      DimensionPassesIff(limits, d, items, scale);
    }
  }

  /** What each refusal of a batch says. */
  lemma AllocationRefusalTells(accounts: Accounts, parent: string, batch: seq<Allocation>, scale: nat)
    requires parent in accounts ==> PreciseFor(accounts[parent], batch, scale)
    requires Allocate(accounts, parent, batch).1.Err?
    ensures var repeats := exists i :: 0 <= i < |batch| && !DistinctDimensions(batch[i].vector);
            var clashes := parent !in accounts ||
                           exists i :: 0 <= i < |batch| && Named(batch[i].child, accounts[parent].allocations);
            var limits := if parent in accounts then BudgetMap(accounts[parent].limits) else map[];
            var items := if parent in accounts then AllItems(accounts[parent].allocations + batch) else [];
      match Allocate(accounts, parent, batch).1.error
      case UnsupportedSemantics => repeats
      case AllocationConflict => !repeats && clashes
      case BudgetUnitMismatch =>
        !repeats && !clashes &&
        exists item :: item in items && item.dimension in limits && item.unit != limits[item.dimension].unit
      case BudgetOverallocated => !repeats && !clashes && Overasked(limits, items)
      case _ => false
  {
    hide CheckTotals, Precise, DistinctDimensions, Named, BudgetMap, AllItems, Overasked;
    if parent in accounts {
      var limits, items := BudgetMap(accounts[parent].limits), AllItems(accounts[parent].allocations + batch);
      if CheckTotals(limits, items).Err? {
        TotalsRefusal(limits, items, scale);
      }
    }
  }

  /** What registration answers: a parent with a repeated dimension is refused, one already known under its
      digest only with the same lines, and nothing known is ever replaced. */
  lemma RegistrationTells(hash: Capsule -> string, accounts: Accounts, parent: Capsule)
    ensures var (after, r) := Register(hash, accounts, parent); var digest := hash(parent);
      && (r == Err(UnsupportedSemantics) <==> !DistinctDimensions(parent.budgets))
      && (r == Err(AllocationConflict) <==>
            DistinctDimensions(parent.budgets) && digest in accounts && BudgetMap(accounts[digest].limits) != BudgetMap(parent.budgets))
      && (r.Ok? ==> r.value == digest && digest in after && BudgetMap(after[digest].limits) == BudgetMap(parent.budgets))
      && (forall d :: d in accounts ==> d in after && after[d] == accounts[d])
      && (forall d :: d in after && d !in accounts ==> d == digest && r.Ok? && after[d].allocations == [])
  {
    hide DistinctDimensions, BudgetMap;
  }

  // ---------------------------------------------------------- conservation

  /** No parent's children hold more than the parent. */
  ghost predicate Conserved(accounts: Accounts) {
    forall p :: p in accounts ==> Sound(accounts[p])
  }

  ghost predicate Sound(account: Account) {
    && DistinctDimensions(account.limits)
    && DistinctChildren(account.allocations)
    && Fits(BudgetMap(account.limits), AllItems(account.allocations))
  }

  datatype LedgerCall = RegisterParent(parent: Capsule) | AllocateBatch(parentDigest: string, batch: seq<Allocation>)

  function LedgerStep(hash: Capsule -> string, accounts: Accounts, call: LedgerCall): Accounts {
    match call
    case RegisterParent(parent) => Register(hash, accounts, parent).0
    case AllocateBatch(digest, batch) => Allocate(accounts, digest, batch).0
  }

  function RunLedger(hash: Capsule -> string, accounts: Accounts, calls: seq<LedgerCall>): Accounts {
    if calls == [] then accounts
    else LedgerStep(hash, RunLedger(hash, accounts, calls[..|calls| - 1]), calls[|calls| - 1])
  }

  /** What the callers provide: non-negative decimals of bounded precision, and dicts of children. */
  ghost predicate WellFormedCall(call: LedgerCall, scale: nat) {
    match call
    case RegisterParent(parent) => Precise(BudgetMap(parent.budgets), [], scale)
    case AllocateBatch(_, batch) => DistinctChildren(batch) && ItemsAtScale(AllItems(batch), scale)
  }

  ghost predicate PreciseAccounts(accounts: Accounts, scale: nat) {
    forall p :: p in accounts ==> PreciseFor(accounts[p], [], scale)
  }

  lemma {:induction false} AllItemsAppend(a: seq<Allocation>, b: seq<Allocation>)
    ensures AllItems(a + b) == AllItems(a) + AllItems(b)
  {
    if a == [] {
      assert a + b == b;
    } else {
      assert (a + b)[1..] == a[1..] + b;
      AllItemsAppend(a[1..], b);
    }
  }

  lemma {:induction false} SpentAppend(d: string, a: seq<BudgetItem>, b: seq<BudgetItem>)
    ensures Spent(d, a + b) == Spent(d, a) + Spent(d, b)
    decreases |a|
  {
    hide DecimalOf;
    if a == [] {
      assert a + b == b;
    } else {
      assert (a + b)[1..] == a[1..] + b;
      SpentAppend(d, a[1..], b);
    }
  }

  lemma DecimalNotNegative(s: string)
    ensures DecimalOf(s) >= 0.0
  {
    hide DigitsValue, PowerOfTen;
  }

  lemma {:induction false} SpentNotNegative(d: string, items: seq<BudgetItem>)
    ensures Spent(d, items) >= 0.0
    decreases |items|
  {
    hide DecimalOf;
    if items != [] {
      DecimalNotNegative(items[0].quantity);
      SpentNotNegative(d, items[1..]);
    }
  }

  lemma PreciseJoins(account: Account, batch: seq<Allocation>, scale: nat)
    requires PreciseFor(account, [], scale) && ItemsAtScale(AllItems(batch), scale)
    ensures PreciseFor(account, batch, scale)
  {
    hide Quantity, Scaled, BudgetMap;
    AllItemsAppend(account.allocations, batch);
    assert account.allocations + [] == account.allocations;
  }

  lemma GrantedStaysSound(account: Account, batch: seq<Allocation>)
    requires Sound(account) && DistinctChildren(batch) && Grantable(account, batch)
    ensures Sound(account.(allocations := account.allocations + batch))
  {
    hide Fits, BudgetMap, AllItems;
    var joined := account.allocations + batch;
    var n := |account.allocations|;
    forall i, j | 0 <= i < j < |joined| ensures joined[i].child != joined[j].child {
      if i < n <= j {
        assert !Named(batch[j - n].child, account.allocations);
      }
    }
  }

  predicate Fails(hash: Capsule -> string, accounts: Accounts, call: LedgerCall) {
    match call
    case RegisterParent(parent) => Register(hash, accounts, parent).1.Err?
    case AllocateBatch(digest, batch) => Allocate(accounts, digest, batch).1.Err?
  }

  /** The same parent, with the same allocations and possibly more. */
  ghost predicate Extends(before: Account, after: Account) {
    before.limits == after.limits && before.allocations <= after.allocations
  }

  /** One call: a failed call changes nothing, registering again never resets, nothing allocated is
      ever taken back, and every parent stays within its budget. */
  lemma LedgerStepKeeps(hash: Capsule -> string, accounts: Accounts, call: LedgerCall, scale: nat)
    requires Conserved(accounts) && PreciseAccounts(accounts, scale) && WellFormedCall(call, scale)
    ensures var after := LedgerStep(hash, accounts, call);
      && Conserved(after) && PreciseAccounts(after, scale)
      && (forall p :: p in accounts ==> p in after && Extends(accounts[p], after[p]))
      && (Fails(hash, accounts, call) ==> after == accounts)
      && (call.RegisterParent? && hash(call.parent) in accounts ==> after == accounts)
  {
    hide Fits, Precise, BudgetMap, Grantable, AllItems, CheckTotals, DistinctChildren, DistinctDimensions;
    match call
    case RegisterParent(parent) => RegisteredIsSound(parent, scale);
    case AllocateBatch(digest, batch) =>
      if digest in accounts {
        var account := accounts[digest];
        PreciseJoins(account, batch, scale);
        AllocateIff(accounts, digest, batch, scale);
        if Allocate(accounts, digest, batch).1.Ok? {
          GrantedStaysSound(account, batch);
          var joined := account.allocations + batch;
          assert joined + [] == joined && account.allocations <= joined;
        }
      }
  }

  lemma RegisteredIsSound(parent: Capsule, scale: nat)
    requires Precise(BudgetMap(parent.budgets), [], scale)
    ensures DistinctDimensions(parent.budgets) ==> Sound(Account(parent.budgets, []))
    ensures PreciseFor(Account(parent.budgets, []), [], scale)
  {
    hide DecimalOf, BudgetMap;
    var limits := BudgetMap(parent.budgets);
    assert AllItems([]) == [];
    assert Account(parent.budgets, []).allocations + [] == [];
    forall d | d in limits ensures Spent(d, []) <= DecimalOf(limits[d].quantity) {
      DecimalNotNegative(limits[d].quantity);
    }
  }

  /** Conservation over any sequence of calls, from an empty ledger. */
  lemma {:induction false} LedgerConserves(hash: Capsule -> string, calls: seq<LedgerCall>, scale: nat)
    requires forall i :: 0 <= i < |calls| ==> WellFormedCall(calls[i], scale)
    ensures Conserved(RunLedger(hash, map[], calls)) && PreciseAccounts(RunLedger(hash, map[], calls), scale)
  {
    hide Conserved, PreciseAccounts, WellFormedCall, LedgerStep;
    if calls == [] {
      LedgerStartsConserved(scale);
    } else {
      LedgerConserves(hash, calls[..|calls| - 1], scale);
      LedgerStepKeeps(hash, RunLedger(hash, map[], calls[..|calls| - 1]), calls[|calls| - 1], scale);
    }
  }

  lemma LedgerStartsConserved(scale: nat)
    ensures Conserved(map[]) && PreciseAccounts(map[], scale)
  {
  }

  /** Registering a parent whose dimensions are distinct always succeeds, first time or not: a digest
      stands for one capsule. */
  ghost predicate Registered(hash: Capsule -> string, accounts: Accounts) {
    forall c: Capsule :: hash(c) in accounts ==> accounts[hash(c)].limits == c.budgets
  }

  lemma RegisterAgain(hash: Capsule -> string, accounts: Accounts, call: LedgerCall)
    requires Registered(hash, accounts)
    requires forall a: Capsule, b: Capsule :: hash(a) == hash(b) ==> a == b
    ensures Registered(hash, LedgerStep(hash, accounts, call))
    ensures call.RegisterParent? ==>
      var (after, r) := Register(hash, accounts, call.parent);
      && (r.Ok? <==> DistinctDimensions(call.parent.budgets))
      && (r.Err? ==> r.error == UnsupportedSemantics)
      && (hash(call.parent) in accounts ==> after == accounts)
  {
    hide CheckTotals, BudgetMap, DistinctDimensions;
  }

  // ----------------------------------------------- batches, split and shuffled

  function Flatten(batches: seq<seq<Allocation>>): seq<Allocation> {
    if batches == [] then [] else batches[0] + Flatten(batches[1..])
  }

  /** The batches one after the other, as long as they succeed. */
  function AllocateAll(accounts: Accounts, parent: string, batches: seq<seq<Allocation>>): (Accounts, bool)
    decreases |batches|
  {
    if batches == [] then (accounts, true)
    else
      var (after, r) := Allocate(accounts, parent, batches[0]);
      if r.Err? then (after, false) else AllocateAll(after, parent, batches[1..])
  }

  lemma FitsPrefix(limits: map<string, BudgetItem>, a: seq<BudgetItem>, b: seq<BudgetItem>)
    requires Fits(limits, a + b)
    ensures Fits(limits, a)
  {
    hide DecimalOf, Spent, Matches;
    forall i | 0 <= i < |a| ensures Matches(limits, a[i]) {
      assert (a + b)[i] == a[i];
    }
    forall d | d in limits ensures Spent(d, a) <= DecimalOf(limits[d].quantity) {
      SpentAppend(d, a, b);
      SpentNotNegative(d, b);
    }
  }

  lemma NamedAppend(c: string, a: seq<Allocation>, b: seq<Allocation>)
    ensures Named(c, a + b) <==> Named(c, a) || Named(c, b)
  {
    if Named(c, a) {
      var i :| 0 <= i < |a| && a[i].child == c;
      assert (a + b)[i].child == c;
    }
    if Named(c, b) {
      var i :| 0 <= i < |b| && b[i].child == c;
      assert (a + b)[|a| + i].child == c;
    }
  }

  /** Granting in two goes is granting at once. */
  lemma GrantableSplits(account: Account, first: seq<Allocation>, rest: seq<Allocation>)
    requires DistinctChildren(first + rest)
    ensures Grantable(account, first + rest) <==>
      Grantable(account, first) && Grantable(account.(allocations := account.allocations + first), rest)
  {
    hide Fits, DistinctDimensions, BudgetMap, AllItems, Named;
    var both := first + rest;
    var later := account.(allocations := account.allocations + first);
    assert account.allocations + both == later.allocations + rest;
    forall i | 0 <= i < |rest|
      ensures Named(rest[i].child, later.allocations) <==> Named(rest[i].child, account.allocations)
    {
      NamedAppend(rest[i].child, account.allocations, first);
      NotNamedBefore(first, rest, i);
    }
    assert forall i :: 0 <= i < |first| ==> both[i] == first[i];
    assert forall i :: 0 <= i < |rest| ==> both[|first| + i] == rest[i];
    AllItemsAppend(later.allocations, rest);
    if Grantable(account, both) {
      FitsPrefix(BudgetMap(account.limits), AllItems(later.allocations), AllItems(rest));
    }
    assert Grantable(account, both) ==> Grantable(account, first) && Grantable(later, rest);
    if Grantable(account, first) && Grantable(later, rest) {
      forall i | 0 <= i < |both| ensures DistinctDimensions(both[i].vector) && !Named(both[i].child, account.allocations) {
        if i >= |first| {
          assert both[i] == rest[i - |first|];
        }
      }
    }
  }

  lemma NotNamedBefore(first: seq<Allocation>, rest: seq<Allocation>, i: nat)
    requires DistinctChildren(first + rest) && i < |rest|
    ensures !Named(rest[i].child, first)
  {
    var both := first + rest;
    forall j | 0 <= j < |first| ensures first[j].child != rest[i].child {
      assert both[j] == first[j] && both[|first| + i] == rest[i];
    }
  }

  lemma FirstFails(accounts: Accounts, parent: string, batches: seq<seq<Allocation>>)
    requires batches != []
    ensures Allocate(accounts, parent, batches[0]).1.Err? ==> !AllocateAll(accounts, parent, batches).1
  {
    hide Allocate;
  }

  lemma {:induction false} SequenceIsBatch(accounts: Accounts, parent: string, batches: seq<seq<Allocation>>, scale: nat)
    requires parent in accounts && Sound(accounts[parent]) && DistinctChildren(Flatten(batches))
    requires PreciseFor(accounts[parent], [], scale) && ItemsAtScale(AllItems(Flatten(batches)), scale)
    ensures var (after, ok) := AllocateAll(accounts, parent, batches);
      && (ok <==> Grantable(accounts[parent], Flatten(batches)))
      && (ok ==> after == accounts[parent := accounts[parent].(allocations := accounts[parent].allocations + Flatten(batches))])
    decreases |batches|
  {
    hide Grantable, Sound, PreciseFor, ItemsAtScale, AllItems, DistinctChildren, Allocate;
    var account := accounts[parent];
    if batches == [] {
      NothingIsGrantable(account);
      assert account.allocations + [] == account.allocations;
    } else {
      var first, rest := batches[0], Flatten(batches[1..]);
      assert Flatten(batches) == first + rest;
      PartsKeep(first, rest, scale);
      PreciseJoins(account, first, scale);
      AllocateIff(accounts, parent, first, scale);
      GrantableSplits(account, first, rest);
      FirstFails(accounts, parent, batches);
      if Grantable(account, first) {
        var later := account.(allocations := account.allocations + first);
        GrantedStaysSound(account, first);
        PreciseLater(account, first, scale);
        var after := Allocate(accounts, parent, first).0;
        SequenceIsBatch(after, parent, batches[1..], scale);
        assert later.allocations + rest == account.allocations + Flatten(batches);
      }
    }
  }

  lemma PartsKeep(first: seq<Allocation>, rest: seq<Allocation>, scale: nat)
    requires DistinctChildren(first + rest) && ItemsAtScale(AllItems(first + rest), scale)
    ensures DistinctChildren(first) && DistinctChildren(rest)
    ensures ItemsAtScale(AllItems(first), scale) && ItemsAtScale(AllItems(rest), scale)
  {
    hide Quantity, AllItems;
    AllItemsAppend(first, rest);
    var a, b := AllItems(first), AllItems(rest);
    assert forall i :: 0 <= i < |a| ==> (a + b)[i] == a[i];
    assert forall i :: 0 <= i < |b| ==> (a + b)[|a| + i] == b[i];
    assert forall i :: 0 <= i < |first| ==> (first + rest)[i] == first[i];
    assert forall i :: 0 <= i < |rest| ==> (first + rest)[|first| + i] == rest[i];
  }

  lemma NothingIsGrantable(account: Account)
    requires Sound(account)
    ensures Grantable(account, [])
  {
    assert account.allocations + [] == account.allocations;
  }

  lemma PreciseLater(account: Account, first: seq<Allocation>, scale: nat)
    requires PreciseFor(account, first, scale)
    ensures PreciseFor(account.(allocations := account.allocations + first), [], scale)
  {
    assert account.allocations + first + [] == account.allocations + first;
  }

  /** `a` and `b` hold the same allocations. */
  ghost predicate Shuffled(a: seq<Allocation>, b: seq<Allocation>) {
    multiset(a) == multiset(b)
  }

  lemma WithoutOne(s: seq<Allocation>, k: nat)
    requires k < |s|
    ensures s == s[..k] + [s[k]] + s[k + 1..]
    ensures multiset(s[..k] + s[k + 1..]) == multiset(s) - multiset{s[k]}
  {
    assert s == s[..k] + [s[k]] + s[k + 1..];
  }

  /** The first of `a` taken out of both. */
  lemma TakeOut(a: seq<Allocation>, b: seq<Allocation>) returns (k: nat, rest: seq<Allocation>)
    requires Shuffled(a, b) && a != []
    ensures k < |b| && b[k] == a[0] && rest == b[..k] + b[k + 1..] && b == b[..k] + [b[k]] + b[k + 1..]
    ensures Shuffled(a[1..], rest)
  {
    SameMembers(a, b);
    assert a[0] in b;
    k :| 0 <= k < |b| && b[k] == a[0];
    rest := b[..k] + b[k + 1..];
    WithoutOne(b, k);
    WithoutOne(a, 0);
    assert a[..0] + a[1..] == a[1..];
  }

  lemma SpentMoves(d: string, x: seq<Allocation>, a: Allocation, y: seq<Allocation>)
    ensures Spent(d, AllItems(x + [a] + y)) == Spent(d, a.vector) + Spent(d, AllItems(x + y))
  {
    hide Spent, AllItems;
    AllItemsAppend(x + [a], y);
    AllItemsAppend(x, [a]);
    AllItemsAppend(x, y);
    AllItemsOne(a);
    SpentAppend(d, AllItems(x + [a]), AllItems(y));
    SpentAppend(d, AllItems(x), a.vector);
    SpentAppend(d, AllItems(x), AllItems(y));
  }

  lemma AllItemsOne(a: Allocation)
    ensures AllItems([a]) == a.vector
  {
    assert [a][1..] == [];
  }

  /** The exact sum does not depend on the order of the children. */
  lemma {:induction false} SpentShuffles(d: string, a: seq<Allocation>, b: seq<Allocation>)
    requires Shuffled(a, b)
    ensures Spent(d, AllItems(a)) == Spent(d, AllItems(b))
    decreases |a|
  {
    hide Spent, AllItems;
    if a == [] {
      assert |multiset(b)| == 0;
      assert b == [];
    } else {
      var k, rest := TakeOut(a, b);
      SpentShuffles(d, a[1..], rest);
      SpentMoves(d, b[..k], b[k], b[k + 1..]);
      SpentMoves(d, [], a[0], a[1..]);
      assert [] + [a[0]] + a[1..] == a && [] + a[1..] == a[1..];
    }
  }

  lemma {:induction false} AllMatchEach(limits: map<string, BudgetItem>, a: seq<Allocation>)
    ensures AllMatch(limits, AllItems(a)) <==> forall i :: 0 <= i < |a| ==> AllMatch(limits, a[i].vector)
  {
    hide Matches;
    if a != [] {
      AllMatchEach(limits, a[1..]);
      var x, y := a[0].vector, AllItems(a[1..]);
      assert AllMatch(limits, x + y) <==> AllMatch(limits, x) && AllMatch(limits, y) by {
        assert forall i :: 0 <= i < |x| ==> (x + y)[i] == x[i];
        assert forall i :: 0 <= i < |y| ==> (x + y)[|x| + i] == y[i];
        assert forall i :: |x| <= i < |x + y| ==> (x + y)[i] == y[i - |x|];
      }
      assert forall i :: 1 <= i < |a| ==> a[i] == a[1..][i - 1];
      assert forall i :: 0 <= i < |a| - 1 ==> a[1..][i] == a[i + 1];
    }
  }

  lemma SameMembers(a: seq<Allocation>, b: seq<Allocation>)
    requires Shuffled(a, b)
    ensures forall x :: x in a <==> x in b
  {
    forall x ensures x in a <==> x in b {
      assert x in multiset(a) <==> x in multiset(b);
    }
  }

  lemma GrantableShuffles(account: Account, a: seq<Allocation>, b: seq<Allocation>)
    requires Shuffled(a, b) && Grantable(account, a)
    ensures Grantable(account, b)
  {
    hide DistinctDimensions, BudgetMap, AllItems, Named, Spent, DecimalOf, AllMatch;
    SameMembers(a, b);
    var limits := BudgetMap(account.limits);
    var x, y := account.allocations + a, account.allocations + b;
    assert Shuffled(x, y);
    SameMembers(x, y);
    AllMatchEach(limits, x);
    AllMatchEach(limits, y);
    forall i | 0 <= i < |y| ensures AllMatch(limits, y[i].vector) {
      assert y[i] in x;
      var j :| 0 <= j < |x| && x[j] == y[i];
    }
    forall d | d in limits ensures Spent(d, AllItems(y)) <= DecimalOf(limits[d].quantity) {
      SpentShuffles(d, x, y);
    }
    forall i | 0 <= i < |b| ensures DistinctDimensions(b[i].vector) && !Named(b[i].child, account.allocations) {
      assert b[i] in a;
      var j :| 0 <= j < |a| && a[j] == b[i];
    }
  }

  lemma {:induction false} DistinctShuffles(a: seq<Allocation>, b: seq<Allocation>)
    requires Shuffled(a, b) && DistinctChildren(a)
    ensures DistinctChildren(b)
    decreases |a|
  {
    if a != [] {
      var k, rest := TakeOut(a, b);
      DistinctShuffles(a[1..], rest);
      FirstIsAlone(a, rest);
      InsertDistinct(b, k, rest);
    }
  }

  lemma FirstIsAlone(a: seq<Allocation>, rest: seq<Allocation>)
    requires a != [] && DistinctChildren(a) && Shuffled(a[1..], rest)
    ensures forall x :: x in rest ==> x.child != a[0].child
  {
    SameMembers(a[1..], rest);
    forall x | x in rest ensures x.child != a[0].child {
      assert x in a[1..];
      var j :| 0 <= j < |a| - 1 && a[1..][j] == x;
      assert a[j + 1] == x;
    }
  }

  lemma InsertDistinct(b: seq<Allocation>, k: nat, rest: seq<Allocation>)
    requires k < |b| && rest == b[..k] + b[k + 1..] && DistinctChildren(rest)
    requires forall x :: x in rest ==> x.child != b[k].child
    ensures DistinctChildren(b)
  {
    forall i, j | 0 <= i < j < |b| ensures b[i].child != b[j].child {
      var i', j' := if i < k then i else i - 1, if j < k then j else j - 1;
      if i != k {
        assert b[i] == rest[i'];
      }
      if j != k {
        assert b[j] == rest[j'];
      }
    }
  }

  lemma {:induction false} ItemsAtScaleShuffles(a: seq<Allocation>, b: seq<Allocation>, scale: nat)
    requires Shuffled(a, b) && ItemsAtScale(AllItems(a), scale)
    ensures ItemsAtScale(AllItems(b), scale)
  {
    ItemsAtScaleEach(a, scale);
    ItemsAtScaleEach(b, scale);
    SameMembers(a, b);
    forall i | 0 <= i < |b| ensures ItemsAtScale(b[i].vector, scale) {
      assert b[i] in a;
      var j :| 0 <= j < |a| && a[j] == b[i];
    }
  }

  lemma {:induction false} ItemsAtScaleEach(a: seq<Allocation>, scale: nat)
    ensures ItemsAtScale(AllItems(a), scale) <==> forall i :: 0 <= i < |a| ==> ItemsAtScale(a[i].vector, scale)
  {
    hide Quantity;
    if a != [] {
      ItemsAtScaleEach(a[1..], scale);
      var x, y := a[0].vector, AllItems(a[1..]);
      assert ItemsAtScale(x + y, scale) <==> ItemsAtScale(x, scale) && ItemsAtScale(y, scale) by {
        assert forall i :: 0 <= i < |x| ==> (x + y)[i] == x[i];
        assert forall i :: 0 <= i < |y| ==> (x + y)[|x| + i] == y[i];
        assert forall i :: |x| <= i < |x + y| ==> (x + y)[i] == y[i - |x|];
      }
      assert forall i :: 1 <= i < |a| ==> a[i] == a[1..][i - 1];
      assert forall i :: 0 <= i < |a| - 1 ==> a[1..][i] == a[i + 1];
    }
  }

  /** Equal as Python dicts: the order in which a parent's children were added may differ. */
  ghost predicate SameLedger(a: Accounts, b: Accounts, parent: string) {
    && a.Keys == b.Keys && parent in a
    && (forall p :: p in a && p != parent ==> a[p] == b[p])
    && a[parent].limits == b[parent].limits
    && Shuffled(a[parent].allocations, b[parent].allocations)
  }

  /** A batch and any split of it into batches, in any order, succeed together, and then leave the
      same ledger up to the order of the children. */
  lemma AnySplitAnyOrder(accounts: Accounts, parent: string, batch: seq<Allocation>, batches: seq<seq<Allocation>>, scale: nat)
    requires Conserved(accounts) && PreciseAccounts(accounts, scale)
    requires DistinctChildren(batch) && ItemsAtScale(AllItems(batch), scale)
    requires batches != [] && Shuffled(batch, Flatten(batches))
    ensures var (whole, r) := Allocate(accounts, parent, batch);
      var (pieces, ok) := AllocateAll(accounts, parent, batches);
      && (r.Ok? <==> ok)
      && (ok ==> SameLedger(whole, pieces, parent))
  {
    hide Grantable, Sound, PreciseFor, ItemsAtScale, AllItems, DistinctChildren, Allocate;
    var flat := Flatten(batches);
    if parent !in accounts {
      AllocateIff(accounts, parent, batch, scale);
      AllocateIff(accounts, parent, batches[0], scale);
      FirstFails(accounts, parent, batches);
    } else {
      var account := accounts[parent];
      PreciseJoins(account, batch, scale);
      AllocateIff(accounts, parent, batch, scale);
      DistinctShuffles(batch, flat);
      ItemsAtScaleShuffles(batch, flat, scale);
      SequenceIsBatch(accounts, parent, batches, scale);
      if Grantable(account, batch) {
        GrantableShuffles(account, batch, flat);
      }
      if Grantable(account, flat) {
        GrantableShuffles(account, flat, batch);
      }
      assert Shuffled(account.allocations + batch, account.allocations + flat);
    }
  }

  // ------------------------------------------------------------- the object

  class AllocationLedger {
    var parents: Accounts

    constructor ()
      ensures parents == map[]
    {
      parents := map[];
    }

    /** `_vector`. */
    static method Vector(items: seq<BudgetItem>) returns (r: Result<seq<BudgetItem>, ErrorCode>)
      ensures r == if DistinctDimensions(items) then Ok(items) else Err(UnsupportedSemantics)
    {
      var result: seq<BudgetItem> := [];
      var seen: set<string> := {};
      for i := 0 to |items|
        invariant result == items[..i] && DistinctDimensions(items[..i])
        invariant seen == set j | 0 <= j < i :: items[j].dimension
      {
        var dimension := items[i].dimension;
        if dimension in seen {
          assert !DistinctDimensions(items);
          return Err(UnsupportedSemantics);
        }
        result, seen := result + [items[i]], seen + {dimension};
      }
      assert items[..|items|] == items;
      return Ok(result);
    }

    method RegisterParent(hash: Capsule -> string, parent: Capsule) returns (r: Result<string, ErrorCode>)
      modifies this
      ensures (parents, r) == Register(hash, old(parents), parent)
    {
      var digest := hash(parent);
      var limits := Vector(parent.budgets);
      if limits.Err? {
        return Err(limits.error);
      }
      if digest in parents && BudgetMap(parents[digest].limits) != BudgetMap(limits.value) {
        return Err(AllocationConflict);
      }
      if digest !in parents {
        parents := parents[digest := Account(limits.value, [])];
      }
      return Ok(digest);
    }

    method AllocateBatch(parentDigest: string, children: seq<Allocation>) returns (r: Result<(), ErrorCode>)
      modifies this
      ensures (parents, r) == Allocate(old(parents), parentDigest, children)
    {
      hide Accumulated, Exceeds, Quantity, BudgetMap, DistinctDimensions, CheckTotals;
      var requested := Requests(children);
      if requested.Err? {
        return Err(requested.error);
      }
      if parentDigest !in parents {
        return Err(AllocationConflict);
      }
      var account := parents[parentDigest];
      if exists i :: 0 <= i < |children| && Named(children[i].child, account.allocations) {
        return Err(AllocationConflict);
      }
      var checked := Sum(account, requested.value);
      if checked.Err? {
        return Err(checked.error);
      }
      parents := parents[parentDigest := account.(allocations := account.allocations + requested.value)];
      return Ok(());
    }

    /** The vectors of the request, checked one by one. */
    static method Requests(children: seq<Allocation>) returns (r: Result<seq<Allocation>, ErrorCode>)
      ensures r == if forall i :: 0 <= i < |children| ==> DistinctDimensions(children[i].vector)
                   then Ok(children) else Err(UnsupportedSemantics)
    {
      hide DistinctDimensions;
      var requested: seq<Allocation> := [];
      for i := 0 to |children|
        invariant requested == children[..i]
        invariant forall j :: 0 <= j < i ==> DistinctDimensions(children[j].vector)
      {
        var vector := Vector(children[i].vector);
        if vector.Err? {
          return Err(vector.error);
        }
        requested := requested + [Allocation(children[i].child, vector.value)];
      }
      assert children[..|children|] == children;
      return Ok(requested);
    }

    /** The summation over what is allocated and what is asked for. */
    static method Sum(account: Account, requested: seq<Allocation>) returns (r: Result<(), ErrorCode>)
      ensures r == CheckTotals(BudgetMap(account.limits), AllItems(account.allocations + requested))
    {
      hide Accumulated, Exceeds, Quantity, BudgetMap, AllItems;
      var limits := BudgetMap(account.limits);
      var totals := ZeroTotals(limits);
      AllItemsAppend(account.allocations, requested);
      var held, asked := AllItems(account.allocations), AllItems(requested);
      AccumulatedAppend(limits, totals, held, asked);
      var first := AccumulateAll(limits, totals, account.allocations);
      if first.Err? {
        return Err(first.error);
      }
      AccumulatedIs(limits, totals, held);
      AccumulatedIs(limits, first.value, asked);
      var second := AccumulateAll(limits, first.value, requested);
      if second.Err? {
        return Err(second.error);
      }
      if Overdrawn(limits, second.value) {
        return Err(BudgetOverallocated);
      }
      return Ok(());
    }

    static method AccumulateAll(limits: map<string, BudgetItem>, totals: Totals, allocations: seq<Allocation>)
      returns (r: Result<Totals, ErrorCode>)
      requires limits.Keys == totals.Keys
      ensures r == Accumulated(limits, totals, AllItems(allocations))
    {
      hide Accumulated;
      var sums := totals;
      assert allocations[0..] == allocations;
      for i := 0 to |allocations|
        invariant limits.Keys == sums.Keys
        invariant Accumulated(limits, totals, AllItems(allocations)) == Accumulated(limits, sums, AllItems(allocations[i..]))
      {
        assert allocations[i..][0] == allocations[i] && allocations[i..][1..] == allocations[i + 1..];
        AccumulatedAppend(limits, sums, allocations[i].vector, AllItems(allocations[i + 1..]));
        AccumulatedIs(limits, sums, allocations[i].vector);
        var next := Accumulate(limits, sums, allocations[i].vector);
        if next.Err? {
          return next;
        }
        sums := next.value;
      }
      AccumulatedNothing(limits, sums);
      return Ok(sums);
    }

    /** `_accumulate`. */
    static method Accumulate(limits: map<string, BudgetItem>, totals: Totals, vector: seq<BudgetItem>)
      returns (r: Result<Totals, ErrorCode>)
      requires limits.Keys == totals.Keys
      ensures r == Accumulated(limits, totals, vector)
    {
      hide Add, Quantity;
      var sums := totals;
      assert vector[0..] == vector;
      for i := 0 to |vector|
        invariant limits.Keys == sums.Keys
        invariant Accumulated(limits, totals, vector) == Accumulated(limits, sums, vector[i..])
      {
        var item := vector[i];
        assert vector[i..][0] == item && vector[i..][1..] == vector[i + 1..];
        if item.dimension !in limits {
          return Err(BudgetOverallocated);
        }
        if item.unit != limits[item.dimension].unit {
          return Err(BudgetUnitMismatch);
        }
        sums := sums[item.dimension := Add(sums[item.dimension], Quantity(item.quantity))];
      }
      return Ok(sums);
    }

    method Snapshot(parentDigest: string) returns (r: Result<Account, ErrorCode>)
      ensures r == if parentDigest in parents then Ok(parents[parentDigest]) else Err(AllocationConflict)
    {
      if parentDigest !in parents {
        return Err(AllocationConflict);
      }
      return Ok(parents[parentDigest]);
    }
  }

  lemma AccumulatedNothing(limits: map<string, BudgetItem>, totals: Totals)
    requires limits.Keys == totals.Keys
    ensures Accumulated(limits, totals, []) == Ok(totals)
  {
  }

  lemma {:induction false} AccumulatedAppend(limits: map<string, BudgetItem>, totals: Totals, a: seq<BudgetItem>, b: seq<BudgetItem>)
    requires limits.Keys == totals.Keys
    ensures var first := Accumulated(limits, totals, a);
      && (first.Ok? ==> first.value.Keys == limits.Keys)
      && Accumulated(limits, totals, a + b) == if first.Err? then first else Accumulated(limits, first.value, b)
    decreases |a|
  {
    hide Add, Quantity;
    if a == [] {
      assert a + b == b;
    } else {
      assert (a + b)[1..] == a[1..] + b;
      if Matches(limits, a[0]) {
        AccumulatedAppend(limits, totals[a[0].dimension := Add(totals[a[0].dimension], Quantity(a[0].quantity))], a[1..], b);
      }
    }
  }
}
