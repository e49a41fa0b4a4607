/** The two string orders the library sorts by, and `sorted` over a set of strings. */
module Ordering {
  import opened Prelude
  import opened Unicode

  /** Lexicographic order on sequences of numbers, as Python compares `bytes` and `str`. */
  predicate LexLeq(a: seq<int>, b: seq<int>) {
    |a| == 0 ||
    (|b| > 0 && (a[0] < b[0] || (a[0] == b[0] && LexLeq(a[1..], b[1..]))))
  }

  lemma {:induction false} LexTotal(a: seq<int>, b: seq<int>)
    ensures LexLeq(a, b) || LexLeq(b, a)
  {
    if |a| > 0 && |b| > 0 && a[0] == b[0] {
      LexTotal(a[1..], b[1..]);
    }
  }

  lemma {:induction false} LexAntisymmetric(a: seq<int>, b: seq<int>)
    requires LexLeq(a, b) && LexLeq(b, a)
    ensures a == b
  {
    if |a| > 0 {
      LexAntisymmetric(a[1..], b[1..]);
      assert a == [a[0]] + a[1..] && b == [b[0]] + b[1..];
    }
  }

  lemma {:induction false} LexTransitive(a: seq<int>, b: seq<int>, c: seq<int>)
    requires LexLeq(a, b) && LexLeq(b, c)
    ensures LexLeq(a, c)
  {
    if |a| > 0 && a[0] == b[0] == c[0] {
      LexTransitive(a[1..], b[1..], c[1..]);
    }
  }

  /** `CodePoint` is Python's `sorted` on `str`; `Utf16` is `key=_utf16_sort_key`. */
  datatype Collation = CodePoint | Utf16

  function Key(c: Collation, s: string): seq<int> {
    match c
    case CodePoint => CodePoints(s)
    case Utf16 => Utf16Bytes(s)
  }

  predicate Before(c: Collation, x: string, y: string) {
    LexLeq(Key(c, x), Key(c, y))
  }

  lemma KeyInjective(c: Collation, x: string, y: string)
    requires Key(c, x) == Key(c, y)
    ensures x == y
  {
    match c
    case CodePoint => CodePointsInjective(x, y);
    case Utf16 => Utf16BytesInjective(x, y);
  }

  predicate IsLeast(c: Collation, k: string, s: set<string>) {
    k in s && forall x :: x in s ==> Before(c, k, x)
  }

  lemma {:induction false} LeastExists(c: Collation, s: set<string>)
    requires s != {}
    ensures exists k :: IsLeast(c, k, s)
    decreases |s|
  {
    var x :| x in s;
    var rest := s - {x};
    if rest == {} {
      LexTotal(Key(c, x), Key(c, x));
      assert s == {x} + rest;
      assert IsLeast(c, x, s);
    } else {
      LeastExists(c, rest);
      var k :| IsLeast(c, k, rest);
      LexTotal(Key(c, x), Key(c, k));
      LexTotal(Key(c, x), Key(c, x));
      if Before(c, x, k) {
        forall y | y in s ensures Before(c, x, y) {
          if y != x {
            assert y in rest;
            LexTransitive(Key(c, x), Key(c, k), Key(c, y));
          }
        }
        assert IsLeast(c, x, s);
      } else {
        assert IsLeast(c, k, s);
      }
    }
  }

  lemma LeastUnique(c: Collation, s: set<string>)
    ensures forall k, l :: IsLeast(c, k, s) && IsLeast(c, l, s) ==> k == l
  {
    forall k, l | IsLeast(c, k, s) && IsLeast(c, l, s) ensures k == l {
      LexAntisymmetric(Key(c, k), Key(c, l));
      KeyInjective(c, k, l);
    }
  }

  function Least(c: Collation, s: set<string>): (k: string)
    requires s != {}
    ensures IsLeast(c, k, s)
  {
    LeastExists(c, s);
    LeastUnique(c, s);
    var k :| k in s && IsLeast(c, k, s);
    k
  }

  /** Comparing big-endian bytes compares 16-bit code units, which is the member order RFC 8785
      section 3.2.3 asks for. */
  lemma {:induction false} ByteOrderIsCodeUnitOrder(u: seq<int>, v: seq<int>)
    requires forall i :: 0 <= i < |u| ==> 0 <= u[i] < 0x1_0000
    requires forall i :: 0 <= i < |v| ==> 0 <= v[i] < 0x1_0000
    ensures LexLeq(BigEndian(u), BigEndian(v)) <==> LexLeq(u, v)
  {
    if u != [] && v != [] {
      var a, b := BigEndian(u), BigEndian(v);
      assert a[1..][1..] == BigEndian(u[1..]) && b[1..][1..] == BigEndian(v[1..]);
      assert a[0] == u[0] / 256 && b[0] == v[0] / 256;
      assert a[1..][0] == u[0] % 256 && b[1..][0] == v[0] % 256;
      ByteOrderIsCodeUnitOrder(u[1..], v[1..]);
    }
  }

  /** `sorted(s)` under the given order. */
  function Sorted(c: Collation, s: set<string>): (r: seq<string>)
    ensures |r| == |s|
    ensures forall x :: x in r <==> x in s
    decreases |s|
  {
    if s == {} then [] else
      var k := Least(c, s);
      [k] + Sorted(c, s - {k})
  }

  lemma SortedStep(c: Collation, s: set<string>)
    requires s != {}
    ensures Sorted(c, s)[0] == Least(c, s)
    ensures Sorted(c, s)[1..] == Sorted(c, s - {Least(c, s)})
  {
  }

  ghost predicate Ascending(c: Collation, r: seq<string>) {
    forall i, j :: 0 <= i < j < |r| ==> Before(c, r[i], r[j])
  }

  lemma {:induction false} SortedAscending(c: Collation, s: set<string>)
    ensures Distinct(Sorted(c, s)) && Ascending(c, Sorted(c, s))
    decreases |s|
  {
    hide Before;
    if s != {} {
      var k := Least(c, s);
      var rest := Sorted(c, s - {k});
      assert forall x :: x in rest ==> x in s - {k};
      SortedAscending(c, s - {k});
      assert Sorted(c, s) == [k] + rest;
      LeastFirst(c, k, rest);
    }
  }

  lemma LeastFirst(c: Collation, k: string, rest: seq<string>)
    requires Distinct(rest) && Ascending(c, rest)
    requires forall x :: x in rest ==> x != k && Before(c, k, x)
    ensures Distinct([k] + rest) && Ascending(c, [k] + rest)
  {
    hide Before;
    var r := [k] + rest;
    forall i, j | 0 <= i < j < |r| ensures Before(c, r[i], r[j]) && r[i] != r[j] {
      assert r[j] == rest[j - 1];
      if i > 0 {
        assert r[i] == rest[i - 1];
      } else {
        assert rest[j - 1] in rest;
      }
    }
  }
}
