/** The decimal arithmetic of the budget ledger: exact values read from texts, sums rounded to the 28
    significant digits of Python's default decimal context. */
module Decimals {
  import opened Delegation

  /** A non-negative decimal, digits / 10^places. */
  datatype Decimal = Decimal(digits: nat, places: nat)

  const ZERO := Decimal(0, 0)

  /** 10^28 and 10^27: integers below the first are exact in the default context. */
  const P28: nat := 10_000_000_000_000_000_000_000_000_000
  const P27: nat := 1_000_000_000_000_000_000_000_000_000

  /** The weight of the last of the 28 digits kept. */
  function Unit(n: nat): (u: nat)
    ensures u >= 1
  {
    if n < P28 then 1 else 10 * Unit(n / 10)
  }

  /** Rounding to a multiple of `u`, ties to the even multiple. */
  function HalfEven(n: nat, u: nat): nat
    requires u >= 1
  {
    var q, r := n / u, n % u;
    if 2 * r > u || (2 * r == u && q % 2 == 1) then (q + 1) * u else q * u
  }

  function Round28(n: nat): nat {
    HalfEven(n, Unit(n))
  }

  /** The value counted in units of 10^-scale. */
  function Scaled(d: Decimal, scale: nat): nat
    requires d.places <= scale
  {
    d.digits * PowerOfTen(scale - d.places)
  }

  function Wider(a: Decimal, b: Decimal): (p: nat)
    ensures p >= a.places && p >= b.places
  {
    if a.places < b.places then b.places else a.places
  }

  function Add(a: Decimal, b: Decimal): Decimal {
    var p := Wider(a, b);
    Decimal(Round28(Scaled(a, p) + Scaled(b, p)), p)
  }

  predicate Exceeds(a: Decimal, b: Decimal) {
    Scaled(a, Wider(a, b)) > Scaled(b, Wider(a, b))
  }

  /** `Decimal(text)`, which never rounds. */
  function Quantity(text: string): Decimal {
    var k := PointAt(text);
    var fraction := if k < |text| then text[k + 1..] else "";
    Decimal(DigitsValue(text[..k]) * PowerOfTen(|fraction|) + DigitsValue(fraction), |fraction|)
  }

  // --------------------------------------------------------- integer facts

  lemma TimesGrows(a: nat, b: nat, c: nat)
    requires a <= b
    ensures a * c <= b * c
  {
    assert b * c - a * c == (b - a) * c;
  }

  lemma NextMultipleExceeds(d: nat, q: nat, r: nat, q': nat)
    requires q < q' && r < d
    ensures d * q + r < d * q'
  {
    TimesGrows(q + 1, q', d);
    assert (q + 1) * d == d * q + d && q' * d == d * q';
  }

  lemma DivisionUnique(d: nat, q: nat, r: nat, q': nat, r': nat)
    requires d * q + r == d * q' + r' && r < d && r' < d
    ensures q == q' && r == r'
  {
    if q < q' {
      NextMultipleExceeds(d, q, r, q');
    } else if q' < q {
      NextMultipleExceeds(d, q', r', q);
    }
  }

  lemma QuotientIs(n: nat, d: nat, q: nat, r: nat)
    requires d >= 1 && n == d * q + r && r < d
    ensures n / d == q && n % d == r
  {
    DivisionUnique(d, q, r, n / d, n % d);
  }

  lemma Regroup(a: nat, b: nat, t: nat, x: nat, y: nat)
    requires x < a && y < b
    ensures a * (b * t + y) + x == (a * b) * t + (a * y + x)
    ensures a * y + x < a * b
  {
    assert a * (b * t + y) == a * (b * t) + a * y;
    assert a * (b * t) == (a * b) * t;
    TimesGrows(y + 1, b, a);
    assert (y + 1) * a == a * y + a && b * a == a * b;
  }

  lemma TimesPositive(a: nat, b: nat)
    requires a >= 1 && b >= 1
    ensures a * b >= 1
  {
    TimesGrows(1, a, b);
  }

  lemma QuotientParts(n: nat, a: nat, b: nat, t: nat, x: nat, y: nat)
    requires n == a * (b * t + y) + x && x < a && y < b && a * b >= 1
    ensures n / (a * b) == t
  {
    Regroup(a, b, t, x, y);
    QuotientIs(n, a * b, t, a * y + x);
  }

  lemma DivisionParts(n: nat, d: nat)
    requires d >= 1
    ensures n == d * (n / d) + n % d && n % d < d
  {
  }

  lemma QuotientOfQuotient(n: nat, a: nat, b: nat)
    requires a >= 1 && b >= 1
    ensures a * b >= 1 && n / (a * b) == (n / a) / b
  {
    TimesPositive(a, b);
    var q, x := n / a, n % a;
    DivisionParts(n, a);
    var t, y := q / b, q % b;
    DivisionParts(q, b);
    QuotientParts(n, a, b, t, x, y);
  }

  lemma {:induction false} UnitKeepsDigits(n: nat)
    requires n >= P28
    ensures Unit(n) >= 10 && n / Unit(n) >= P27
  {
    var m := n / 10;
    if m >= P28 {
      UnitKeepsDigits(m);
      QuotientOfQuotient(n, 10, Unit(m));
    }
  }

  lemma {:induction false} PowerAdds(a: nat, b: nat)
    ensures PowerOfTen(a + b) == PowerOfTen(a) * PowerOfTen(b)
  {
    if a > 0 {
      PowerAdds(a - 1, b);
      assert PowerOfTen(a + b) == 10 * PowerOfTen(a - 1 + b);
    }
  }

  // --------------------------------------------------------------- rounding

  /** Up to 28 digits nothing is lost; beyond, rounding never falls back below 10^28. */
  lemma RoundExactBelow(n: nat)
    ensures n < P28 ==> Round28(n) == n
    ensures n >= P28 ==> Round28(n) >= P28
  {
    if n >= P28 {
      UnitKeepsDigits(n);
      var q, u := n / Unit(n), Unit(n);
      TimesGrows(P27, q, u);
      assert (q + 1) * u == q * u + u;
    } else {
      assert n / 1 == n && n % 1 == 0;
    }
  }

  /** A multiple of the unit, no further from n than half a unit, and the even one of two that are equally near. */
  predicate NearestEven(n: nat, u: nat, r: nat)
    requires u >= 1
  {
    && r % u == 0
    && 2 * r <= 2 * n + u && 2 * n <= 2 * r + u
    && (2 * r == 2 * n + u || 2 * n == 2 * r + u ==> (r / u) % 2 == 0)
  }

  /** How far the k-th multiple is from the q-th. */
  lemma MultiplesApart(u: nat, q: nat, k: nat)
    ensures k == q ==> k * u == q * u
    ensures k == q + 1 ==> k * u == q * u + u
    ensures k < q ==> k * u + u <= q * u
    ensures k > q + 1 ==> q * u + 2 * u <= k * u
  {
    if k < q {
      TimesGrows(k + 1, q, u);
      assert (k + 1) * u == k * u + u;
    } else if k > q + 1 {
      TimesGrows(q + 2, k, u);
      assert (q + 2) * u == q * u + 2 * u;
    }
  }

  lemma NearestMultiple(u: nat, a: nat, x: nat, c: nat, q: nat, k: nat)
    requires u >= 1 && x < u
    requires k == q ==> c == a
    requires k == q + 1 ==> c == a + u
    requires k < q ==> c + u <= a
    requires k > q + 1 ==> a + 2 * u <= c
    ensures k == (if 2 * x > u || (2 * x == u && q % 2 == 1) then q + 1 else q) <==>
      && 2 * c <= 2 * (a + x) + u && 2 * (a + x) <= 2 * c + u
      && (2 * c == 2 * (a + x) + u || 2 * (a + x) == 2 * c + u ==> k % 2 == 0)
  {
  }

  /** Rounding to the unit is rounding to the nearest multiple, ties to even: no other number qualifies. */
  lemma HalfEvenIff(n: nat, u: nat, r: nat)
    requires u >= 1
    ensures r == HalfEven(n, u) <==> NearestEven(n, u, r)
  {
    var q, x := n / u, n % u;
    DivisionParts(n, u);
    assert n == q * u + x;
    if r % u == 0 {
      var k := r / u;
      DivisionParts(r, u);
      assert r == k * u;
      MultiplesApart(u, q, k);
      MultiplesApart(u, k, q);
      NearestMultiple(u, q * u, x, k * u, q, k);
      MultiplesApart(u, k, q + 1);
    } else {
      HalfEvenIsMultiple(n, u);
    }
  }

  lemma HalfEvenIsMultiple(n: nat, u: nat)
    requires u >= 1
    ensures HalfEven(n, u) % u == 0
  {
    var q := n / u;
    QuotientIs(q * u, u, q, 0);
    QuotientIs((q + 1) * u, u, q + 1, 0);
  }

  /** The unit is a power of ten and leaves exactly 28 digits of a longer number. */
  lemma {:induction false} UnitLeavesDigits(n: nat) returns (k: nat)
    ensures Unit(n) == PowerOfTen(k)
    ensures n >= P28 ==> P27 <= n / Unit(n) < P28
    ensures n < P28 ==> k == 0
  {
    if n < P28 {
      k := 0;
    } else {
      var m := n / 10;
      var j := UnitLeavesDigits(m);
      k := j + 1;
      UnitKeepsDigits(n);
      QuotientOfQuotient(n, 10, Unit(m));
      assert Unit(n) == 10 * Unit(m);
    }
  }

  /** Rounding looks at significant digits only: it commutes with scaling by ten. */
  lemma RoundScalesByTen(n: nat)
    ensures Round28(10 * n) == 10 * Round28(n)
  {
    if 10 * n < P28 {
      RoundExactBelow(n);
      RoundExactBelow(10 * n);
    } else {
      var u := Unit(n);
      assert (10 * n) / 10 == n;
      assert Unit(10 * n) == 10 * u;
      var q, r := n / u, n % u;
      assert 10 * n == (10 * u) * q + 10 * r;
      QuotientIs(10 * n, 10 * u, q, 10 * r);
      assert (q + 1) * (10 * u) == 10 * ((q + 1) * u) && q * (10 * u) == 10 * (q * u);
    }
  }

  lemma {:induction false} RoundScales(n: nat, k: nat)
    ensures Round28(n * PowerOfTen(k)) == Round28(n) * PowerOfTen(k)
  {
    hide Round28;
    if k > 0 {
      RoundScales(n, k - 1);
      var t := PowerOfTen(k - 1);
      RoundScalesByTen(n * t);
      assert n * PowerOfTen(k) == 10 * (n * t);
      assert Round28(n) * PowerOfTen(k) == 10 * (Round28(n) * t);
    }
  }

  /** Below half of the last digit's weight an addend vanishes. */
  lemma SmallAddendVanishes(n: nat, u: nat, x: nat)
    requires u >= 1 && n % u == 0 && 2 * x < u
    ensures HalfEven(n + x, u) == n
  {
    QuotientIs(n + x, u, n / u, x);
    assert (n / u) * u == n;
  }

  // ------------------------------------------------------ scaled arithmetic

  lemma Rescale(d: Decimal, p: nat, scale: nat)
    requires d.places <= p <= scale
    ensures Scaled(d, scale) == Scaled(d, p) * PowerOfTen(scale - p)
  {
    PowerAdds(p - d.places, scale - p);
    assert d.digits * (PowerOfTen(p - d.places) * PowerOfTen(scale - p))
        == d.digits * PowerOfTen(p - d.places) * PowerOfTen(scale - p);
  }

  /** At any common scale, addition is integer addition followed by rounding. */
  lemma AddScaled(a: Decimal, b: Decimal, scale: nat)
    requires a.places <= scale && b.places <= scale
    ensures Add(a, b).places <= scale
    ensures Scaled(Add(a, b), scale) == Round28(Scaled(a, scale) + Scaled(b, scale))
  {
    hide Round28;
    var p := Wider(a, b);
    var k := PowerOfTen(scale - p);
    Rescale(a, p, scale);
    Rescale(b, p, scale);
    RoundScales(Scaled(a, p) + Scaled(b, p), scale - p);
    assert (Scaled(a, p) + Scaled(b, p)) * k == Scaled(a, p) * k + Scaled(b, p) * k;
  }

  lemma ExceedsScaled(a: Decimal, b: Decimal, scale: nat)
    requires a.places <= scale && b.places <= scale
    ensures Exceeds(a, b) <==> Scaled(a, scale) > Scaled(b, scale)
  {
    hide Scaled, PowerOfTen;
    var p := Wider(a, b);
    Rescale(a, p, scale);
    Rescale(b, p, scale);
    var x, y, k := Scaled(a, p), Scaled(b, p), PowerOfTen(scale - p);
    if x > y {
      TimesGrows(y + 1, x, k);
      assert (y + 1) * k == y * k + k;
    } else {
      TimesGrows(x, y, k);
    }
  }

  /** Whole part, fraction and their scales, as the two readings share them. */
  lemma QuantityParts(text: string, scale: nat) returns (w: nat, f: nat, p: nat, m: nat)
    requires Quantity(text).places <= scale
    ensures p > 0 && PowerOfTen(scale) == m * p
    ensures Scaled(Quantity(text), scale) == (w * p + f) * m
    ensures DecimalOf(text) == w as real + f as real / p as real
  {
    hide DigitsValue, PointAt, PowerOfTen;
    var k := PointAt(text);
    var fraction := if k < |text| then text[k + 1..] else "";
    w, f, p := DigitsValue(text[..k]), DigitsValue(fraction), PowerOfTen(|fraction|);
    m := PowerOfTen(scale - |fraction|);
    PowerAdds(scale - |fraction|, |fraction|);
  }

  /** A quantity is the same number for the ledger and for the delegation checks. */
  lemma QuantityIsDecimal(text: string, scale: nat)
    requires Quantity(text).places <= scale
    ensures Scaled(Quantity(text), scale) as real == DecimalOf(text) * PowerOfTen(scale) as real
  {
    hide Scaled, Quantity, DecimalOf, PowerOfTen;
    var w, f, p, m := QuantityParts(text, scale);
    RealScale(w, f, p, m, Scaled(Quantity(text), scale), PowerOfTen(scale), DecimalOf(text));
  }

  lemma RealScale(w: nat, f: nat, p: nat, m: nat, x: nat, y: nat, d: real)
    requires p > 0 && x == (w * p + f) * m && y == m * p && d == w as real + f as real / p as real
    ensures x as real == d * y as real
  {
    var whole := w * p;
    RealProduct(w, p, whole);
    RealProduct(whole + f, m, x);
    RealProduct(m, p, y);
    RealParts(w as real, f as real, p as real, m as real, whole as real, x as real, y as real, d);
  }

  lemma RealProduct(a: nat, b: nat, c: nat)
    requires c == a * b
    ensures c as real == a as real * b as real
  {
  }

  lemma RealParts(w: real, f: real, p: real, m: real, whole: real, x: real, y: real, d: real)
    requires p > 0.0 && whole == w * p && x == (whole + f) * m && y == m * p && d == w + f / p
    ensures x == d * y
  {
    RealRegroup(w, f, p, m, f / p);
  }

  lemma RealRegroup(w: real, f: real, p: real, m: real, q: real)
    requires q * p == f
    ensures (w + q) * (m * p) == (w * p + f) * m
  {
    assert (w + q) * (m * p) == (w * p + q * p) * m;
  }

  // ----------------------------------------------------------- running sums

  /** `totals[dimension] += quantity`, one quantity after the other. */
  function RunningSum(acc: Decimal, qs: seq<Decimal>): Decimal
    decreases |qs|
  {
    if qs == [] then acc else RunningSum(Add(acc, qs[0]), qs[1..])
  }

  predicate AtScale(qs: seq<Decimal>, scale: nat) {
    forall i :: 0 <= i < |qs| ==> qs[i].places <= scale
  }

  function ExactSum(qs: seq<Decimal>, scale: nat): nat
    requires AtScale(qs, scale)
  {
    if qs == [] then 0 else Scaled(qs[0], scale) + ExactSum(qs[1..], scale)
  }

  lemma {:induction false} RunningSumIs(acc: Decimal, qs: seq<Decimal>, scale: nat)
    requires acc.places <= scale && AtScale(qs, scale)
    ensures RunningSum(acc, qs).places <= scale
    ensures var exact := Scaled(acc, scale) + ExactSum(qs, scale);
      if exact < P28 then Scaled(RunningSum(acc, qs), scale) == exact else Scaled(RunningSum(acc, qs), scale) >= P28
    decreases |qs|
  {
    hide Round28, Scaled, Add;
    if qs == [] {
    } else {
      AddScaled(acc, qs[0], scale);
      RoundExactBelow(Scaled(acc, scale) + Scaled(qs[0], scale));
      RunningSumIs(Add(acc, qs[0]), qs[1..], scale);
    }
  }

  lemma ZeroScaled(scale: nat)
    ensures Scaled(ZERO, scale) == 0
  {
  }

  /** The ledger's test on a running total answers the exact question. */
  ghost predicate Exact(limit: Decimal, scale: nat)
    requires limit.places <= scale
  {
    forall qs | AtScale(qs, scale) :: !Exceeds(RunningSum(ZERO, qs), limit) <==> ExactSum(qs, scale) <= Scaled(limit, scale)
  }

  lemma WithinLimitIff(qs: seq<Decimal>, limit: Decimal, scale: nat)
    requires AtScale(qs, scale) && limit.places <= scale && Scaled(limit, scale) < P28
    ensures !Exceeds(RunningSum(ZERO, qs), limit) <==> ExactSum(qs, scale) <= Scaled(limit, scale)
  {
    hide Scaled, RunningSum, Exceeds;
    ZeroScaled(scale);
    RunningSumIs(ZERO, qs, scale);
    ExceedsScaled(RunningSum(ZERO, qs), limit, scale);
  }

  // ------------------------------------------------- past 28 digits it fails

  function Ones(n: nat, scale: nat): (qs: seq<Decimal>)
    ensures AtScale(qs, scale)
  {
    if n == 0 then [] else [Decimal(1, scale)] + Ones(n - 1, scale)
  }

  lemma {:induction false} OnesSum(n: nat, scale: nat)
    ensures ExactSum(Ones(n, scale), scale) == n
  {
    if n > 0 {
      OnesSum(n - 1, scale);
      assert Ones(n, scale)[1..] == Ones(n - 1, scale);
      assert Scaled(Decimal(1, scale), scale) == 1;
    }
  }

  /** A rounded total of 29 digits or more does not notice single units. */
  lemma {:induction false} OnesVanish(f: nat, n: nat, scale: nat)
    requires f >= P28 && f % Unit(f) == 0 && Unit(f + 1) == Unit(f)
    ensures RunningSum(Decimal(f, scale), Ones(n, scale)) == Decimal(f, scale)
  {
    if n > 0 {
      UnitKeepsDigits(f);
      SmallAddendVanishes(f, Unit(f), 1);
      var acc, one := Decimal(f, scale), Decimal(1, scale);
      assert Scaled(acc, scale) == f && Scaled(one, scale) == 1;
      assert Add(acc, one) == acc;
      OnesVanish(f, n - 1, scale);
      assert Ones(n, scale)[1..] == Ones(n - 1, scale);
    }
  }

  lemma {:induction false} UnitSteady(n: nat, u: nat, x: nat)
    requires n >= P28 && u == Unit(n) && n % u == 0 && x < u
    ensures Unit(n + x) == u
  {
    var m := n / 10;
    if m >= P28 {
      var v := Unit(m);
      assert u == 10 * v;
      MultipleOfTen(n, v);
      var y := x / 10;
      assert (n + x) / 10 == m + y;
      UnitSteady(m, v, y);
    } else {
      assert u == 10;
      assert n % 10 == 0;
      assert (n + x) / 10 == m;
    }
  }

  lemma MultipleOfTen(n: nat, v: nat)
    requires v >= 1 && n % (10 * v) == 0
    ensures n % 10 == 0 && (n / 10) % v == 0
  {
    var t := n / (10 * v);
    assert n == (10 * v) * t;
    assert n == 10 * (v * t);
    assert n / 10 == v * t;
    QuotientIs(v * t, v, t, 0);
  }

  /** Truncation to the last digit kept. */
  lemma Truncated(n: nat) returns (f: nat)
    requires n >= P28
    ensures P28 <= f <= n && f % Unit(f) == 0 && Unit(f + 1) == Unit(f)
  {
    UnitKeepsDigits(n);
    var u, q := Unit(n), n / Unit(n);
    f := q * u;
    assert f + n % u == n;
    TimesGrows(P27, q, u);
    QuotientIs(f, u, q, 0);
    UnitOfTruncated(n, u, f);
    UnitSteady(f, Unit(f), 1);
  }

  lemma {:induction false} UnitOfTruncated(n: nat, u: nat, f: nat)
    requires n >= P28 && u == Unit(n) && f == (n / u) * u && f >= P28
    ensures Unit(f) == u && Unit(f) >= 10
  {
    var m := n / 10;
    UnitKeepsDigits(n);
    if m >= P28 {
      var v := Unit(m);
      QuotientOfQuotient(n, 10, v);
      var g := (m / v) * v;
      assert f == 10 * g;
      UnitKeepsDigits(m);
      assert g >= P27 * v && v >= 10;
      UnitOfTruncated(m, v, g);
    } else {
      assert u == 10 && f == m * 10;
      assert f / 10 == m;
    }
  }

  /** The ledger's rounded arithmetic decides exactly when, and only when, the limit has at most 28
      digits at the scale of the quantities. */
  lemma ExactIff(limit: Decimal, scale: nat)
    requires limit.places <= scale
    ensures Exact(limit, scale) <==> Scaled(limit, scale) < P28
  {
    var bound := Scaled(limit, scale);
    if bound < P28 {
      forall qs | AtScale(qs, scale)
        ensures !Exceeds(RunningSum(ZERO, qs), limit) <==> ExactSum(qs, scale) <= bound
      {
        WithinLimitIff(qs, limit, scale);
      }
    } else {
      var qs := Overlooked(limit, scale);
      assert AtScale(qs, scale);
    }
  }

  /** Past 28 digits some quantities exceed the limit unnoticed. */
  lemma Overlooked(limit: Decimal, scale: nat) returns (qs: seq<Decimal>)
    requires limit.places <= scale && Scaled(limit, scale) >= P28
    ensures AtScale(qs, scale)
    ensures ExactSum(qs, scale) > Scaled(limit, scale) && !Exceeds(RunningSum(ZERO, qs), limit)
  {
    hide Exceeds;
    var bound := Scaled(limit, scale);
    var f := Truncated(bound);
    var n := bound - f + 1;
    var first := Decimal(f, scale);
    qs := [first] + Ones(n, scale);
    assert qs[1..] == Ones(n, scale);
    OnesSum(n, scale);
    assert Scaled(first, scale) == f;
    assert Add(ZERO, first) == first by {
      SmallAddendVanishes(f, Unit(f), 0);
    }
    OnesVanish(f, n, scale);
    assert RunningSum(ZERO, qs) == first;
    ExceedsScaled(first, limit, scale);
  }
}
