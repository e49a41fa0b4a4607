/** Budgets over written numbers: what the ledger and a delegation link decide about the numbers that
    were printed into the quantities. */
module WrittenBudgets {
  import opened Delegation
  import opened Decimals
  import opened Ledger
  import opened WrittenDecimals

  /** A budget line with its quantity as a number. */
  datatype Line = Line(dimension: string, quantity: Written, unit: string) {
    function Item(): BudgetItem {
      BudgetItem(dimension, quantity.Text(), unit)
    }

    predicate Proper() {
      Digits(quantity.fraction)
    }
  }

  /** One child's share. */
  datatype Share = Share(child: string, vector: seq<Line>)

  function Items(lines: seq<Line>): (r: seq<BudgetItem>)
    ensures |r| == |lines| && forall i :: 0 <= i < |r| ==> r[i] == lines[i].Item()
  {
    seq(|lines|, i requires 0 <= i < |lines| => lines[i].Item())
  }

  function Printed(shares: seq<Share>): (r: seq<Allocation>)
    ensures |r| == |shares|
    ensures forall i :: 0 <= i < |r| ==> r[i] == Allocation(shares[i].child, Items(shares[i].vector))
  {
    seq(|shares|, i requires 0 <= i < |shares| => Allocation(shares[i].child, Items(shares[i].vector)))
  }

  predicate AllProper(lines: seq<Line>) {
    forall i :: 0 <= i < |lines| ==> lines[i].Proper()
  }

  predicate DistinctLines(lines: seq<Line>) {
    forall i, j :: 0 <= i < j < |lines| ==> lines[i].dimension != lines[j].dimension
  }

  function AllLines(shares: seq<Share>): seq<Line> {
    if shares == [] then [] else shares[0].vector + AllLines(shares[1..])
  }

  /** The sum of the numbers written for one dimension. */
  function Total(d: string, lines: seq<Line>): real {
    if lines == [] then 0.0
    else (if lines[0].dimension == d then lines[0].quantity.Amount() else 0.0) + Total(d, lines[1..])
  }

  /** A line of the parent in the same dimension and unit. */
  ghost predicate Covers(limit: Line, asked: Line) {
    limit.dimension == asked.dimension && limit.unit == asked.unit
  }

  ghost predicate Covered(limits: seq<Line>, asked: Line) {
    exists j :: 0 <= j < |limits| && Covers(limits[j], asked)
  }

  /** The numbers asked for stay within the numbers granted. */
  ghost predicate Within(limits: seq<Line>, asked: seq<Line>) {
    && (forall i :: 0 <= i < |asked| ==> Covered(limits, asked[i]))
    && (forall j :: 0 <= j < |limits| ==> Total(limits[j].dimension, asked) <= limits[j].quantity.Amount())
  }

  lemma {:induction false} SpentIsTotal(d: string, lines: seq<Line>)
    requires AllProper(lines)
    ensures Spent(d, Items(lines)) == Total(d, lines)
  {
    hide DecimalOf, Written.Amount, Written.Text;
    if lines != [] {
      DecimalIsWritten(lines[0].quantity);
      SpentIsTotal(d, lines[1..]);
      assert Items(lines)[1..] == Items(lines[1..]);
    }
  }

  lemma ItemsAppend(a: seq<Line>, b: seq<Line>)
    ensures Items(a + b) == Items(a) + Items(b)
  {
  }

  lemma {:induction false} AllItemsOfPrinted(shares: seq<Share>)
    ensures AllItems(Printed(shares)) == Items(AllLines(shares))
  {
    if shares != [] {
      AllItemsOfPrinted(shares[1..]);
      assert Printed(shares)[1..] == Printed(shares[1..]);
      ItemsAppend(shares[0].vector, AllLines(shares[1..]));
    }
  }

  lemma LimitsAre(limits: seq<Line>)
    requires DistinctLines(limits)
    ensures forall j :: 0 <= j < |limits| ==>
      limits[j].dimension in BudgetMap(Items(limits)) && BudgetMap(Items(limits))[limits[j].dimension] == limits[j].Item()
    ensures forall d :: d in BudgetMap(Items(limits)) ==> exists j :: 0 <= j < |limits| && limits[j].dimension == d
  {
    hide BudgetMap;
    var items := Items(limits);
    BudgetMapIs(items);
    forall j | 0 <= j < |limits|
      ensures limits[j].dimension in BudgetMap(items) && BudgetMap(items)[limits[j].dimension] == limits[j].Item()
    {
      assert items[j] == limits[j].Item();
    }
    forall d | d in BudgetMap(items) ensures exists j :: 0 <= j < |limits| && limits[j].dimension == d {
      var j :| 0 <= j < |items| && items[j] == BudgetMap(items)[d];
      assert items[j] == limits[j].Item();
    }
  }

  lemma MatchesIffCovered(limits: seq<Line>, line: Line)
    requires DistinctLines(limits)
    ensures Matches(BudgetMap(Items(limits)), line.Item()) <==> Covered(limits, line)
  {
    hide BudgetMap;
    LimitsAre(limits);
    var m := BudgetMap(Items(limits));
    if Matches(m, line.Item()) {
      var j :| 0 <= j < |limits| && limits[j].dimension == line.dimension;
      assert m[line.dimension] == limits[j].Item();
      assert Covers(limits[j], line);
    }
    if Covered(limits, line) {
      var j :| 0 <= j < |limits| && Covers(limits[j], line);
      assert m[limits[j].dimension] == limits[j].Item();
      assert Matches(m, line.Item());
    }
  }

  lemma AllMatchIff(limits: seq<Line>, asked: seq<Line>)
    requires DistinctLines(limits)
    ensures AllMatch(BudgetMap(Items(limits)), Items(asked)) <==>
      forall i :: 0 <= i < |asked| ==> Covered(limits, asked[i])
  {
    hide BudgetMap, Matches, Covered;
    var m := BudgetMap(Items(limits));
    forall i | 0 <= i < |asked|
      ensures Matches(m, Items(asked)[i]) <==> Covered(limits, asked[i])
    {
      MatchesIffCovered(limits, asked[i]);
    }
  }

  /** The ledger's sums compare the numbers written. */
  lemma FitsIffWithin(limits: seq<Line>, asked: seq<Line>)
    requires DistinctLines(limits) && AllProper(limits) && AllProper(asked)
    ensures Fits(BudgetMap(Items(limits)), Items(asked)) <==> Within(limits, asked)
  {
    hide BudgetMap, DecimalOf, Written.Amount, Spent, Total, AllMatch, Covered, Line.Item;
    var m := BudgetMap(Items(limits));
    AllMatchIff(limits, asked);
    LimitsAre(limits);
    forall j | 0 <= j < |limits|
      ensures Spent(limits[j].dimension, Items(asked)) == Total(limits[j].dimension, asked)
      ensures DecimalOf(m[limits[j].dimension].quantity) == limits[j].quantity.Amount()
    {
      SpentIsTotal(limits[j].dimension, asked);
      LineIsWritten(limits[j]);
    }
    if Within(limits, asked) {
      forall d | d in m ensures Spent(d, Items(asked)) <= DecimalOf(m[d].quantity) {
        var j :| 0 <= j < |limits| && limits[j].dimension == d;
        assert Total(limits[j].dimension, asked) <= limits[j].quantity.Amount();
      }
    } else if Fits(m, Items(asked)) {
      forall j | 0 <= j < |limits| ensures Total(limits[j].dimension, asked) <= limits[j].quantity.Amount() {
        assert limits[j].dimension in m;
      }
      assert false;
    }
  }

  lemma LineIsWritten(line: Line)
    requires line.Proper()
    ensures DecimalOf(line.Item().quantity) == line.quantity.Amount()
    ensures Quantity(line.Item().quantity).places == |line.quantity.fraction|
  {
    hide DecimalOf, Written.Amount, Quantity, Written.Text;
    DecimalIsWritten(line.quantity);
  }

  /** No more than `scale` digits after the point, and limits below 10^(28 - scale). */
  ghost predicate Short(limits: seq<Line>, asked: seq<Line>, scale: nat) {
    && (forall i :: 0 <= i < |asked| ==> |asked[i].quantity.fraction| <= scale)
    && (forall j :: 0 <= j < |limits| ==>
          |limits[j].quantity.fraction| <= scale &&
          limits[j].quantity.Amount() * PowerOfTen(scale) as real < P28 as real)
  }

  lemma ShortIsPrecise(limits: seq<Line>, asked: seq<Line>, scale: nat)
    requires DistinctLines(limits) && AllProper(limits) && AllProper(asked) && Short(limits, asked, scale)
    ensures Precise(BudgetMap(Items(limits)), Items(asked), scale)
  {
    hide BudgetMap, DecimalOf, Written.Amount, Line.Item, Quantity, Scaled, PowerOfTen;
    var m := BudgetMap(Items(limits));
    LimitsAre(limits);
    forall i | 0 <= i < |asked| ensures Quantity(Items(asked)[i].quantity).places <= scale {
      LineIsWritten(asked[i]);
    }
    forall d | d in m ensures Quantity(m[d].quantity).places <= scale && Scaled(Quantity(m[d].quantity), scale) < P28 {
      var j :| 0 <= j < |limits| && limits[j].dimension == d;
      LineIsWritten(limits[j]);
      QuantityIsDecimal(m[d].quantity, scale);
    }
  }

  /** `allocate_batch` on printed numbers: a batch is granted exactly when its vectors name each dimension
      once, its children are new, its units are the parent's and, per dimension, the numbers already
      allocated and the numbers asked for add up to no more than the number the parent was given. */
  lemma PrintedAllocateIff(accounts: Accounts, parent: string, limits: seq<Line>, held: seq<Share>, batch: seq<Share>, scale: nat)
    requires parent in accounts && accounts[parent] == Account(Items(limits), Printed(held))
    requires DistinctLines(limits) && AllProper(limits) && AllProper(AllLines(held + batch))
    requires Short(limits, AllLines(held + batch), scale)
    ensures Allocate(accounts, parent, Printed(batch)).1.Ok? <==>
      && (forall i :: 0 <= i < |batch| ==> DistinctLines(batch[i].vector))
      && (forall i, j :: 0 <= i < |batch| && 0 <= j < |held| ==> batch[i].child != held[j].child)
      && Within(limits, AllLines(held + batch))
  {
    hide Within, Fits, BudgetMap, Precise, Allocate, Short, AllProper;
    assert Printed(held) + Printed(batch) == Printed(held + batch);
    AllItemsOfPrinted(held + batch);
    ShortIsPrecise(limits, AllLines(held + batch), scale);
    AllocateIff(accounts, parent, Printed(batch), scale);
    FitsIffWithin(limits, AllLines(held + batch));
    NamesOfPrinted(held, batch);
  }

  lemma NamesOfPrinted(held: seq<Share>, batch: seq<Share>)
    ensures (forall i :: 0 <= i < |batch| ==> DistinctDimensions(Printed(batch)[i].vector)) <==>
            (forall i :: 0 <= i < |batch| ==> DistinctLines(batch[i].vector))
    ensures (forall i :: 0 <= i < |batch| ==> !Named(Printed(batch)[i].child, Printed(held))) <==>
            (forall i, j :: 0 <= i < |batch| && 0 <= j < |held| ==> batch[i].child != held[j].child)
  {
    forall i | 0 <= i < |batch|
      ensures DistinctDimensions(Printed(batch)[i].vector) <==> DistinctLines(batch[i].vector)
      ensures !Named(Printed(batch)[i].child, Printed(held)) <==> forall j :: 0 <= j < |held| ==> batch[i].child != held[j].child
    {
      assert Printed(batch)[i] == Allocation(batch[i].child, Items(batch[i].vector));
      DistinctItems(batch[i].vector);
    }
  }

  lemma DistinctItems(lines: seq<Line>)
    ensures DistinctDimensions(Items(lines)) <==> DistinctLines(lines)
  {
    assert forall i :: 0 <= i < |lines| ==> Items(lines)[i].dimension == lines[i].dimension;
  }

  ghost predicate Backed(mine: Line, theirs: seq<Line>) {
    exists j :: 0 <= j < |theirs| && Covers(theirs[j], mine) && mine.quantity.Amount() <= theirs[j].quantity.Amount()
  }

  /** The budget half of a delegation link on printed numbers: each of the child's lines names a line of
      the parent in the same unit with a number at least as large. */
  lemma PrintedBudgetsIff(mine: seq<Line>, theirs: seq<Line>)
    requires DistinctLines(mine) && DistinctLines(theirs) && AllProper(mine) && AllProper(theirs)
    ensures BudgetsWithin(BudgetMap(Items(mine)), BudgetMap(Items(theirs))) <==>
      forall i :: 0 <= i < |mine| ==> Backed(mine[i], theirs)
  {
    hide BudgetMap, DecimalOf, Written.Amount, Backed;
    var m, t := BudgetMap(Items(mine)), BudgetMap(Items(theirs));
    LimitsAre(mine);
    forall i | 0 <= i < |mine| ensures ItemWithin(mine[i].Item(), t) <==> Backed(mine[i], theirs) {
      WithinIffBacked(mine[i], theirs);
    }
    forall d | d in m ensures exists i :: 0 <= i < |mine| && mine[i].dimension == d && m[d] == mine[i].Item() {
      var i :| 0 <= i < |mine| && mine[i].dimension == d;
      assert m[d] == mine[i].Item();
    }
  }

  ghost predicate ItemWithin(item: BudgetItem, theirs: map<string, BudgetItem>) {
    && item.dimension in theirs && item.unit == theirs[item.dimension].unit
    && DecimalOf(item.quantity) <= DecimalOf(theirs[item.dimension].quantity)
  }

  lemma WithinIffBacked(line: Line, theirs: seq<Line>)
    requires DistinctLines(theirs) && AllProper(theirs) && line.Proper()
    ensures ItemWithin(line.Item(), BudgetMap(Items(theirs))) <==> Backed(line, theirs)
  {
    hide BudgetMap, DecimalOf, Written.Amount, Written.Text;
    var t := BudgetMap(Items(theirs));
    LimitsAre(theirs);
    LineIsWritten(line);
    if line.dimension in t {
      var j :| 0 <= j < |theirs| && theirs[j].dimension == line.dimension;
      LineIsWritten(theirs[j]);
      assert t[line.dimension] == theirs[j].Item();
    }
  }
}
