/** Values shared by every layer of the store: block contents, slot headers, and a few facts
    about finite sets, maps and integer division that the layers above keep needing. */
module Common {

  datatype Option<+T> = None | Some(value: T)

  /** The bytes of one 4096-byte block; their number never matters here. */
  datatype Data = Data(bytes: seq<bv8>)

  /** A block's content together with the number of the write that produced it.  The code
      stores only the bytes; the stamp tells apart two writes of equal bytes. */
  datatype Cell = Cell(data: Data, stamp: nat)

  /** The self-describing header of a buffer slot: the status word and the block number. */
  datatype Header = Header(valid: bool, block: nat)

  /** The naturals lo, lo+1, .., hi-1. */
  ghost function Range(lo: nat, hi: nat): (s: set<nat>)
    ensures forall x :: x in s <==> lo <= x < hi
  {
    if lo < hi then Range(lo, hi - 1) + {hi - 1} else {}
  }

  lemma {:induction false} RangeSize(lo: nat, hi: nat)
    requires lo <= hi
    ensures |Range(lo, hi)| == hi - lo
  {
    if lo < hi {
      RangeSize(lo, hi - 1);
    }
  }

  lemma {:induction false} SubsetSize<T>(a: set<T>, b: set<T>)
    requires a <= b
    ensures |a| <= |b|
    ensures |a| == |b| ==> a == b
  {
    if a == {} {
    } else {
      var x :| x in a;
      SubsetSize(a - {x}, b - {x});
      assert a == (a - {x}) + {x} && b == (b - {x}) + {x};
    }
  }

  /** A set of naturals between lo and lo+n has n members exactly when nothing there is missing. */
  lemma FullRange(s: set<nat>, lo: nat, n: nat)
    requires forall x :: x in s ==> lo <= x < lo + n
    ensures |s| <= n
    ensures |s| == n <==> forall x: nat :: lo <= x < lo + n ==> x in s
  {
    hide Range;
    RangeSize(lo, lo + n);
    SubsetSize(s, Range(lo, lo + n));
    if forall x: nat :: lo <= x < lo + n ==> x in s {
      assert s == Range(lo, lo + n);
    }
  }

  lemma FullSet(s: set<nat>, n: nat)
    requires forall x :: x in s ==> x < n
    ensures |s| <= n
    ensures |s| == n <==> forall x: nat :: x < n ==> x in s
  {
    FullRange(s, 0, n);
  }

  ghost predicate Injective(m: map<nat, nat>) {
    forall k, l :: k in m && l in m && m[k] == m[l] ==> k == l
  }

  lemma {:induction false} InjectiveSize(m: map<nat, nat>)
    requires Injective(m)
    ensures |m| == |m.Values|
  {
    if m == map[] {
      assert m.Values == {};
    } else {
      var k :| k in m;
      var r := m - {k};
      RemoveKey(m, k);
      InjectiveSize(r);
      assert m.Keys == r.Keys + {k};
      assert m.Values == r.Values + {m[k]};
    }
  }

  lemma RemoveOne<K, V>(m: map<K, V>, k: K)
    requires k in m
    ensures |m - {k}| == |m| - 1
  {
    assert m.Keys == (m - {k}).Keys + {k};
  }

  /** Dropping one key of an injective map drops exactly its value. */
  lemma RemoveKey(m: map<nat, nat>, k: nat)
    requires Injective(m) && k in m
    ensures Injective(m - {k})
    ensures (m - {k}).Values == m.Values - {m[k]}
    ensures |m - {k}| == |m| - 1
  {
    var r := m - {k};
    assert forall l :: l in r ==> l in m && r[l] == m[l];
    forall x | x in m.Values - {m[k]} ensures x in r.Values {
      var l :| l in m && m[l] == x;
      assert l in r && r[l] == x;
    }
    assert m.Keys == r.Keys + {k};
  }

  /** Adding a fresh key with a value no other key has keeps a map injective. */
  lemma AddKey(m: map<nat, nat>, k: nat, x: nat)
    requires Injective(m) && k !in m && (forall l :: l in m ==> m[l] != x)
    ensures Injective(m[k := x])
    ensures |m[k := x]| == |m| + 1
  {
    assert m[k := x].Keys == m.Keys + {k};
  }

  // ----- unsigned division -----

  /** Unsigned division and remainder, by repeated subtraction: what / and % compute, in a form
      that costs the proofs above no nonlinear arithmetic. */
  function Div(a: nat, n: nat): nat
    requires n > 0
  {
    if a < n then 0 else 1 + Div(a - n, n)
  }

  function Mod(a: nat, n: nat): (r: nat)
    requires n > 0
    ensures r < n
  {
    if a < n then a else Mod(a - n, n)
  }

  lemma {:induction false} DivModMeaning(a: nat, n: nat)
    requires n > 0
    ensures Div(a, n) == a / n && Mod(a, n) == a % n
  {
    DivModSum(a, n);
    QuotientUnique(a, n, Div(a, n), Mod(a, n));
  }

  lemma {:induction false} DivModSum(a: nat, n: nat)
    requires n > 0
    ensures a == Div(a, n) * n + Mod(a, n)
  {
    if a >= n {
      DivModSum(a - n, n);
    }
  }

  lemma QuotientUnique(a: nat, n: nat, q: nat, r: nat)
    requires 0 < n && r < n && a == q * n + r
    ensures q == a / n && r == a % n
  {
    var p, t := a / n, a % n;
    assert a == p * n + t;
    if q > p {
      AtLeast(q - p, n);
      Distribute(q, p, n);
    } else if q < p {
      AtLeast(p - q, n);
      Distribute(p, q, n);
    }
  }

  lemma {:induction false} AtLeast(x: nat, n: nat)
    requires x > 0
    ensures x * n >= n
  {
    if x > 1 {
      AtLeast(x - 1, n);
      Distribute(x, 1, n);
    }
  }

  lemma Distribute(x: int, y: int, n: int)
    ensures (x - y) * n == x * n - y * n
  {
  }

  lemma ModOnce(a: nat, n: nat)
    requires n > 0 && a < n + n
    ensures Mod(a, n) == if a < n then a else a - n
  {
    if a >= n {
      assert Mod(a - n, n) == a - n;
    }
  }

  /** C division of a signed by a positive integer: truncation toward zero. */
  function TruncDiv(a: int, n: nat): int
    requires n > 0
  {
    if a >= 0 then Div(a, n) else 0 - Div(-a, n)
  }

  lemma {:induction false} DivBound(a: nat, n: nat)
    requires n > 0
    ensures Div(a, n) <= a
    ensures Div(a, n) == 0 <==> a < n
  {
    if a >= n {
      DivBound(a - n, n);
    }
  }

  // ----- products -----

  /** x * e, written so that it stays linear in the proofs. */
  function Scale(x: nat, e: nat): nat {
    if x == 0 then 0 else Scale(x - 1, e) + e
  }

  lemma {:induction false} ScaleIsProduct(x: nat, e: nat)
    ensures Scale(x, e) == x * e
  {
    if x > 0 {
      ScaleIsProduct(x - 1, e);
      Distribute(x, 1, e);
    }
  }

  lemma ScaleZero(e: nat)
    ensures Scale(0, e) == 0
  {
  }

  lemma {:induction false} ScaleSum(x: nat, y: nat, e: nat)
    ensures Scale(x + y, e) == Scale(x, e) + Scale(y, e)
  {
    if y > 0 {
      ScaleSum(x, y - 1, e);
    }
  }

  lemma ScaleMono(x: nat, y: nat, e: nat)
    requires x <= y
    ensures Scale(x, e) <= Scale(y, e)
    ensures x < y && e > 0 ==> Scale(x, e) < Scale(y, e)
  {
    ScaleSum(x, y - x, e);
    if x < y { ScaleSum(y - x - 1, 1, e); }
  }
}
