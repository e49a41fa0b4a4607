/** Python's `==` on JSON values. It compares numbers by value, so it cannot tell True from 1, nor 2 from 2.0. */
module PythonEquality {
  import opened Canonical
  import opened Doubles

  /** Equal values have equal normal forms: booleans and integral floats become integers, at any depth. */
  function Normal(v: Value): Value {
    match v
    case Bool(b) => Int(if b then 1 else 0)
    case Float(x) => if x.Floor as real == x then Int(x.Floor) else v
    case List(items) => List(seq(|items|, i requires 0 <= i < |items| => Normal(items[i])))
    case Dict(members) => Dict(map k | k in members :: Normal(members[k]))
    case _ => v
  }

  predicate PythonEqual(v: Value, w: Value) {
    Normal(v) == Normal(w)
  }

  /** What a JSON document can hold: the accepted values and finite floats. */
  predicate Json(v: Value) {
    match v
    case List(items) => forall i :: 0 <= i < |items| ==> Json(items[i])
    case Dict(members) => forall k :: k in members ==> Json(members[k])
    case ForeignKeyDict | NonFiniteFloat(_) | Foreign(_) => false
    case _ => true
  }

  /** Holds no boolean, no integral float, and no integer that is a float (every integer below 2^53 is). */
  ghost predicate Rigid(v: Value) {
    match v
    case Bool(_) => false
    case Int(n) => !IsDouble(n as real)
    case Float(x) => x.Floor as real != x
    case List(items) => forall i :: 0 <= i < |items| ==> Rigid(items[i])
    case Dict(members) => forall k :: k in members ==> Rigid(members[k])
    case _ => true
  }

  /** Holds no boolean and neither of the integers 0 and 1. */
  predicate Bitless(v: Value) {
    match v
    case Bool(_) => false
    case Int(n) => n != 0 && n != 1
    case List(items) => forall i :: 0 <= i < |items| ==> Bitless(items[i])
    case Dict(members) => forall k :: k in members ==> Bitless(members[k])
    case _ => true
  }

  /** Nothing else is equal to `v`: among values without floats a value without bits, among all JSON
      values a rigid one. */
  lemma {:induction false} EqualIsSame(v: Value, w: Value)
    requires PythonEqual(v, w)
    requires (Accepted(v) && Accepted(w) && Bitless(v)) || Rigid(v)
    ensures v == w
    decreases v
  {
    match v
    case Int(n) =>
      if w.Bool? {
        SmallIntegerIsDouble(n);
      }
    case List(items) =>
      forall i | 0 <= i < |items| ensures items[i] == w.items[i] {
        assert Normal(v).items[i] == Normal(w).items[i];
        EqualIsSame(items[i], w.items[i]);
      }
    case Dict(members) =>
      assert Normal(v).members.Keys == members.Keys && Normal(w).members.Keys == w.members.Keys;
      forall k | k in members ensures members[k] == w.members[k] {
        assert Normal(v).members[k] == Normal(w).members[k];
        EqualIsSame(members[k], w.members[k]);
      }
      assert members == w.members;
    case _ =>
  }

  lemma ItemTwin(v: Value, i: nat, twin: Value)
    requires v.List? && i < |v.items| && PythonEqual(v.items[i], twin) && twin != v.items[i]
    ensures PythonEqual(v, List(v.items[i := twin])) && v != List(v.items[i := twin])
  {
    var w := List(v.items[i := twin]);
    assert w.items[i] != v.items[i];
    assert Normal(w).items == Normal(v).items;
  }

  lemma MemberTwin(v: Value, k: string, twin: Value)
    requires v.Dict? && k in v.members && PythonEqual(v.members[k], twin) && twin != v.members[k]
    ensures PythonEqual(v, Dict(v.members[k := twin])) && v != Dict(v.members[k := twin])
  {
    var w := Dict(v.members[k := twin]);
    assert w.members[k] != v.members[k];
    assert Normal(w).members == Normal(v).members;
  }

  /** A different value, just as acceptable, that `==` cannot tell apart. */
  lemma {:induction false} BitTwin(v: Value) returns (w: Value)
    requires Accepted(v) && !Bitless(v)
    ensures Accepted(w) && PythonEqual(v, w) && v != w && (v.Dict? ==> w.Dict?)
    decreases v
  {
    match v
    case Bool(b) => w := Int(if b then 1 else 0);
    case Int(n) => w := Bool(n == 1);
    case List(items) =>
      var i :| 0 <= i < |items| && !Bitless(items[i]);
      var twin := BitTwin(items[i]);
      w := List(items[i := twin]);
      ItemTwin(v, i, twin);
    case Dict(members) =>
      var k :| k in members && !Bitless(members[k]);
      var twin := BitTwin(members[k]);
      w := Dict(members[k := twin]);
      MemberTwin(v, k, twin);
  }

  /** A different JSON value that `==` cannot tell apart. */
  lemma {:induction false} LooseTwin(v: Value) returns (w: Value)
    requires Json(v) && !Rigid(v)
    ensures Json(w) && PythonEqual(v, w) && v != w && (v.Dict? ==> w.Dict?)
    decreases v
  {
    match v
    case Bool(b) => w := Int(if b then 1 else 0);
    case Int(n) => w := Float(n as real);
    case Float(x) => w := Int(x.Floor);
    case List(items) =>
      var i :| 0 <= i < |items| && !Rigid(items[i]);
      var twin := LooseTwin(items[i]);
      w := List(items[i := twin]);
      ItemTwin(v, i, twin);
    case Dict(members) =>
      var k :| k in members && !Rigid(members[k]);
      var twin := LooseTwin(members[k]);
      w := Dict(members[k := twin]);
      MemberTwin(v, k, twin);
  }

  /** The number a value stands for in a comparison. */
  function NumberOf(v: Value): (n: seq<real>) {
    match v
    case Bool(b) => [if b then 1.0 else 0.0]
    case Int(n) => [n as real]
    case Float(x) => [x]
    case _ => []
  }

  /** Numbers, booleans among them, are equal by value and equal to nothing else; lists and objects are equal
      member by member; texts and null only to themselves. */
  lemma {:induction false} EqualityIs(v: Value, w: Value)
    requires Json(v) && Json(w)
    ensures PythonEqual(v, w) <==>
      if NumberOf(v) != [] || NumberOf(w) != [] then NumberOf(v) == NumberOf(w)
      else if v.List? && w.List? then
        |v.items| == |w.items| && forall i :: 0 <= i < |v.items| ==> PythonEqual(v.items[i], w.items[i])
      else if v.Dict? && w.Dict? then
        v.members.Keys == w.members.Keys && forall k :: k in v.members ==> PythonEqual(v.members[k], w.members[k])
      else v == w
  {
    if v.List? && w.List? {
      ListsEqualIff(v, w);
    } else if v.Dict? && w.Dict? {
      DictsEqualIff(v, w);
    }
  }

  lemma ListsEqualIff(v: Value, w: Value)
    requires v.List? && w.List?
    ensures PythonEqual(v, w) <==>
      |v.items| == |w.items| && forall i :: 0 <= i < |v.items| ==> PythonEqual(v.items[i], w.items[i])
  {
    var a, b := Normal(v).items, Normal(w).items;
    assert |a| == |v.items| && |b| == |w.items|;
    assert forall i :: 0 <= i < |a| ==> a[i] == Normal(v.items[i]);
    assert forall i :: 0 <= i < |b| ==> b[i] == Normal(w.items[i]);
    if PythonEqual(v, w) {
      forall i | 0 <= i < |v.items| ensures PythonEqual(v.items[i], w.items[i]) {
        assert a[i] == b[i];
      }
    }
    if |a| == |b| && forall i :: 0 <= i < |a| ==> PythonEqual(v.items[i], w.items[i]) {
      assert a == b;
    }
  }

  lemma DictsEqualIff(v: Value, w: Value)
    requires v.Dict? && w.Dict?
    ensures PythonEqual(v, w) <==>
      v.members.Keys == w.members.Keys && forall k :: k in v.members ==> PythonEqual(v.members[k], w.members[k])
  {
    var a, b := Normal(v).members, Normal(w).members;
    assert a.Keys == v.members.Keys && b.Keys == w.members.Keys;
    if PythonEqual(v, w) {
      forall k | k in v.members ensures PythonEqual(v.members[k], w.members[k]) {
        assert a[k] == b[k];
      }
    }
    if a.Keys == b.Keys && forall k :: k in v.members ==> PythonEqual(v.members[k], w.members[k]) {
      assert a == b;
    }
  }

  lemma PythonEqualSymmetric(v: Value, w: Value)
    ensures PythonEqual(v, w) <==> PythonEqual(w, v)
  {
  }

  /** Among JSON values, `==` with this value means being this value exactly when it is rigid. */
  lemma EqualityIsExactIff(v: Value)
    requires Json(v)
    ensures (forall w :: Json(w) && PythonEqual(v, w) ==> w == v) <==> Rigid(v)
  {
    hide Rigid, PythonEqual, Json, Bitless;
    if Rigid(v) {
      forall w | Json(w) && PythonEqual(v, w) ensures w == v {
        EqualIsSame(v, w);
      }
    } else {
      var w := LooseTwin(v);
    }
  }

  /** Among the values that can be canonicalised, exactly when it holds no boolean and neither 0 nor 1. */
  lemma AcceptedEqualityIsExactIff(v: Value)
    requires Accepted(v)
    ensures (forall w :: Accepted(w) && PythonEqual(v, w) ==> w == v) <==> Bitless(v)
  {
    hide Rigid, PythonEqual, Accepted, Bitless;
    if Bitless(v) {
      forall w | Accepted(w) && PythonEqual(v, w) ensures w == v {
        EqualIsSame(v, w);
      }
    } else {
      var w := BitTwin(v);
    }
  }
}
