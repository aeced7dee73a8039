/** The counting bloom filter of mix_bloom_filter.c over the packed 4-bit counters of mix_bitmap.c.
    The hash function stays open: h(key, i) is the value that hash_func reduces for function i. */
module BloomFilter {
  import opened Common
  import opened Bitmap
  import Counters

  // ----- the counters as values -----

  /** The counter of key in the slice of function i; the slices are per counters long. */
  function Slot(per: nat, h: (nat, nat) -> nat, key: nat, i: nat): nat
    requires per > 0
  {
    Scale(i, per) + Mod(h(key, i), per)
  }

  /** Each function has a slice of its own, in which its own hash picks the counter. */
  lemma SlotExact(per: nat, h: (nat, nat) -> nat, key: nat, i: nat)
    requires per > 0
    ensures Slot(per, h, key, i) / per == i && Slot(per, h, key, i) % per == h(key, i) % per
  {
    DivModMeaning(h(key, i), per);
    ScaleIsProduct(i, per);
    QuotientUnique(Slot(per, h, key, i), per, i, Mod(h(key, i), per));
  }

  /** One of the first n functions sends key to counter c. */
  ghost predicate Touches(n: nat, per: nat, h: (nat, nat) -> nat, key: nat, c: nat)
    requires per > 0
  {
    exists i: nat :: i < n && Slot(per, h, key, i) == c
  }

  /** So counter c belongs to the function of its slice, and to the keys that function takes there. */
  lemma TouchesExact(n: nat, per: nat, h: (nat, nat) -> nat, key: nat, c: nat)
    requires per > 0
    ensures Touches(n, per, h, key, c) <==> c / per < n && h(key, c / per) % per == c % per
  {
    hide Slot;
    if i: nat :| i < n && Slot(per, h, key, i) == c {
      SlotExact(per, h, key, i);
    }
    if c / per < n && h(key, c / per) % per == c % per {
      SlotExact(per, h, key, c / per);
      SameParts(Slot(per, h, key, c / per), c, per);
    }
  }

  /** The function of the counter's slice takes key there. */
  predicate Picks(per: nat, h: (nat, nat) -> nat, key: nat, c: nat)
    requires per > 0
  {
    h(key, c / per) % per == c % per
  }

  lemma SlotInSlice(n: nat, per: nat, h: (nat, nat) -> nat, key: nat, i: nat)
    requires per > 0
    ensures Scale(i, per) <= Slot(per, h, key, i) < Scale(i + 1, per)
    ensures i < n ==> Slot(per, h, key, i) < Scale(n, per)
  {
    if i < n { ScaleMono(i + 1, n, per); }
  }

  /** Different functions use different counters. */
  lemma TouchesNext(n: nat, per: nat, h: (nat, nat) -> nat, key: nat)
    requires per > 0
    ensures forall c: nat :: Touches(n + 1, per, h, key, c) <==> Touches(n, per, h, key, c) || c == Slot(per, h, key, n)
    ensures !Touches(n, per, h, key, Slot(per, h, key, n))
  {
    hide Scale, Slot;
    forall i: nat | i < n ensures Slot(per, h, key, i) < Slot(per, h, key, n) {
      SlotInSlice(n, per, h, key, i);
      SlotInSlice(n, per, h, key, n);
    }
    forall c: nat ensures Touches(n + 1, per, h, key, c) <==> Touches(n, per, h, key, c) || c == Slot(per, h, key, n) {
      if c == Slot(per, h, key, n) {
        assert n < n + 1;
      } else if i: nat :| i < n + 1 && Slot(per, h, key, i) == c {
        assert i < n;
      }
    }
  }

  function Raise(c: nat): nat {
    if c == 15 then 15 else c + 1
  }

  function Lower(c: nat): nat {
    if c == 0 then 0 else c - 1
  }

  /** The counters after an add that has gone through the first n functions. */
  ghost function Added(n: nat, per: nat, h: (nat, nat) -> nat, cs: seq<nat>, key: nat): (r: seq<nat>)
    requires per > 0
    ensures |r| == |cs|
  {
    seq(|cs|, c requires 0 <= c < |cs| => if Touches(n, per, h, key, c) then Raise(cs[c]) else cs[c])
  }

  ghost function Removed(n: nat, per: nat, h: (nat, nat) -> nat, cs: seq<nat>, key: nat): (r: seq<nat>)
    requires per > 0
    ensures |r| == |cs|
  {
    seq(|cs|, c requires 0 <= c < |cs| => if Touches(n, per, h, key, c) then Lower(cs[c]) else cs[c])
  }

  /** The test of the first n functions. */
  ghost predicate Positive(n: nat, per: nat, h: (nat, nat) -> nat, cs: seq<nat>, key: nat)
    requires per > 0
  {
    forall i: nat :: i < n ==> Slot(per, h, key, i) < |cs| && cs[Slot(per, h, key, i)] > 0
  }

  /** How many of the keys use counter c. */
  ghost function Load(n: nat, per: nat, h: (nat, nat) -> nat, keys: seq<nat>, c: nat): nat
    requires per > 0
  {
    if keys == [] then 0
    else (if Touches(n, per, h, keys[0], c) then 1 else 0) + Load(n, per, h, keys[1..], c)
  }

  /** Every counter is the number of live keys that use it. */
  ghost predicate Exact(n: nat, per: nat, h: (nat, nat) -> nat, cs: seq<nat>, keys: seq<nat>)
    requires per > 0
  {
    |cs| == Scale(n, per) && forall c: nat :: c < |cs| ==> cs[c] == Load(n, per, h, keys, c)
  }

  /** The keys with one occurrence of key taken out. */
  function Without(keys: seq<nat>, key: nat): seq<nat> {
    if keys == [] then []
    else if keys[0] == key then keys[1..]
    else [keys[0]] + Without(keys[1..], key)
  }

  lemma {:induction false} WithoutIsRemoval(keys: seq<nat>, key: nat)
    ensures multiset(Without(keys, key)) == multiset(keys) - multiset{key}
    ensures key !in keys ==> Without(keys, key) == keys
  {
    if keys != [] {
      assert keys == [keys[0]] + keys[1..];
      if keys[0] != key {
        WithoutIsRemoval(keys[1..], key);
        assert multiset(Without(keys, key)) == multiset{keys[0]} + multiset(Without(keys[1..], key));
      }
    }
  }

  lemma {:induction false} LoadAppend(n: nat, per: nat, h: (nat, nat) -> nat, keys: seq<nat>, key: nat, c: nat)
    requires per > 0
    ensures Load(n, per, h, keys + [key], c) == Load(n, per, h, keys, c) + if Touches(n, per, h, key, c) then 1 else 0
  {
    if keys == [] {
      assert (keys + [key])[1..] == [];
    } else {
      assert (keys + [key])[1..] == keys[1..] + [key];
      LoadAppend(n, per, h, keys[1..], key, c);
    }
  }

  lemma {:induction false} LoadWithout(n: nat, per: nat, h: (nat, nat) -> nat, keys: seq<nat>, key: nat, c: nat)
    requires per > 0 && key in keys
    ensures Load(n, per, h, keys, c) == Load(n, per, h, Without(keys, key), c) + if Touches(n, per, h, key, c) then 1 else 0
  {
    hide Touches;
    if keys[0] != key {
      var w := Without(keys[1..], key);
      assert ([keys[0]] + w)[1..] == w;
      LoadWithout(n, per, h, keys[1..], key, c);
    }
  }

  /** Some key uses counter c. */
  ghost predicate Used(n: nat, per: nat, h: (nat, nat) -> nat, keys: seq<nat>, c: nat)
    requires per > 0
  {
    exists k :: k in keys && Touches(n, per, h, k, c)
  }

  lemma {:induction false} LoadPositive(n: nat, per: nat, h: (nat, nat) -> nat, keys: seq<nat>, c: nat)
    requires per > 0
    ensures Load(n, per, h, keys, c) > 0 <==> Used(n, per, h, keys, c)
  {
    hide Touches;
    if keys != [] {
      LoadPositive(n, per, h, keys[1..], c);
      if k :| k in keys && Touches(n, per, h, k, c) {
        assert k == keys[0] || k in keys[1..];
      }
    }
  }

  // ----- what the operations keep -----

  /** No counter of the key is at its limit: checked before the add. */
  ghost predicate RoomFor(n: nat, per: nat, h: (nat, nat) -> nat, cs: seq<nat>, key: nat)
    requires per > 0
  {
    forall c: nat :: c < |cs| && Touches(n, per, h, key, c) ==> cs[c] != 15
  }

  /** Adding keeps the counters exact if and only if none of the key's counters is full. */
  lemma AddExact(n: nat, per: nat, h: (nat, nat) -> nat, cs: seq<nat>, keys: seq<nat>, key: nat)
    requires per > 0 && Exact(n, per, h, cs, keys)
    ensures Exact(n, per, h, Added(n, per, h, cs, key), keys + [key]) <==> RoomFor(n, per, h, cs, key)
  {
    hide Touches, Load, Scale;
    var r := Added(n, per, h, cs, key);
    forall c: nat | c < |cs|
      ensures r[c] == Load(n, per, h, keys + [key], c) <==> Touches(n, per, h, key, c) ==> cs[c] != 15
    {
      LoadAppend(n, per, h, keys, key, c);
    }
  }

  /** None of the key's counters counts anything. */
  ghost predicate Untouched(n: nat, per: nat, h: (nat, nat) -> nat, cs: seq<nat>, key: nat)
    requires per > 0
  {
    forall c: nat :: c < |cs| && Touches(n, per, h, key, c) ==> cs[c] == 0
  }

  /** Removing keeps the counters exact if and only if the key is live, or nothing is counted there. */
  lemma RemoveExact(n: nat, per: nat, h: (nat, nat) -> nat, cs: seq<nat>, keys: seq<nat>, key: nat)
    requires per > 0 && Exact(n, per, h, cs, keys)
    ensures Exact(n, per, h, Removed(n, per, h, cs, key), Without(keys, key)) <==> key in keys || Untouched(n, per, h, cs, key)
  {
    hide Touches, Load, Scale;
    var r := Removed(n, per, h, cs, key);
    WithoutIsRemoval(keys, key);
    forall c: nat | c < |cs|
      ensures r[c] == Load(n, per, h, Without(keys, key), c) <==> key in keys || (Touches(n, per, h, key, c) ==> cs[c] == 0)
    {
      if key in keys { LoadWithout(n, per, h, keys, key, c); }
    }
  }

  /** Some live key has the same remainder of its i-th hash. */
  ghost predicate Meets(per: nat, h: (nat, nat) -> nat, keys: seq<nat>, key: nat, i: nat)
    requires per > 0
  {
    exists k :: k in keys && h(k, i) % per == h(key, i) % per
  }

  lemma UsedIsMet(n: nat, per: nat, h: (nat, nat) -> nat, keys: seq<nat>, key: nat, i: nat)
    requires per > 0 && i < n
    ensures Used(n, per, h, keys, Slot(per, h, key, i)) <==> Meets(per, h, keys, key, i)
  {
    hide Slot;
    var c := Slot(per, h, key, i);
    SlotExact(per, h, key, i);
    if k :| k in keys && Touches(n, per, h, k, c) {
      var j: nat :| j < n && Slot(per, h, k, j) == c;
      SlotExact(per, h, k, j);
    }
    if k :| k in keys && h(k, i) % per == h(key, i) % per {
      SlotExact(per, h, k, i);
      SameParts(Slot(per, h, k, i), c, per);
      assert Touches(n, per, h, k, c);
    }
  }

  lemma SameParts(a: nat, b: nat, per: nat)
    requires per > 0 && a / per == b / per && a % per == b % per
    ensures a == b
  {
    assert a == a / per * per + a % per && b == b / per * per + b % per;
  }

  /** The test says yes exactly when every function takes the key to where it takes some live key ... */
  lemma PositiveExact(n: nat, per: nat, h: (nat, nat) -> nat, cs: seq<nat>, keys: seq<nat>, key: nat)
    requires per > 0 && Exact(n, per, h, cs, keys)
    ensures Positive(n, per, h, cs, key) <==> forall i: nat :: i < n ==> exists k :: k in keys && h(k, i) % per == h(key, i) % per
  {
    PositiveUsed(n, per, h, cs, keys, key);
    forall i: nat | i < n ensures Used(n, per, h, keys, Slot(per, h, key, i)) <==> Meets(per, h, keys, key, i) {
      UsedIsMet(n, per, h, keys, key, i);
    }
    hide Positive, Used, Slot;
    if Positive(n, per, h, cs, key) {
      forall i: nat | i < n ensures exists k :: k in keys && h(k, i) % per == h(key, i) % per {
        assert Used(n, per, h, keys, Slot(per, h, key, i));
      }
    }
    if forall i: nat :: i < n ==> exists k :: k in keys && h(k, i) % per == h(key, i) % per {
      forall i: nat | i < n ensures Used(n, per, h, keys, Slot(per, h, key, i)) {
        var k :| k in keys && h(k, i) % per == h(key, i) % per;
        assert Meets(per, h, keys, key, i);
      }
    }
  }

  lemma PositiveUsed(n: nat, per: nat, h: (nat, nat) -> nat, cs: seq<nat>, keys: seq<nat>, key: nat)
    requires per > 0 && Exact(n, per, h, cs, keys)
    ensures Positive(n, per, h, cs, key) <==> forall i: nat :: i < n ==> Used(n, per, h, keys, Slot(per, h, key, i))
  {
    hide Used, Slot, Scale, Load;
    forall i: nat | i < n
      ensures Slot(per, h, key, i) < |cs| && (cs[Slot(per, h, key, i)] > 0 <==> Used(n, per, h, keys, Slot(per, h, key, i)))
    {
      SlotInSlice(n, per, h, key, i);
      LoadPositive(n, per, h, keys, Slot(per, h, key, i));
    }
  }

  /** ... and so of every live key. */
  lemma NoFalseNegative(n: nat, per: nat, h: (nat, nat) -> nat, cs: seq<nat>, keys: seq<nat>, key: nat)
    requires per > 0 && Exact(n, per, h, cs, keys) && key in keys
    ensures Positive(n, per, h, cs, key)
  {
    PositiveUsed(n, per, h, cs, keys, key);
    forall i: nat | i < n ensures Used(n, per, h, keys, Slot(per, h, key, i)) {
      assert Touches(n, per, h, key, Slot(per, h, key, i));
    }
  }

  // ----- runs -----

  datatype Op = Add(key: nat) | Remove(key: nat)

  ghost function After(n: nat, per: nat, h: (nat, nat) -> nat, cs: seq<nat>, ops: seq<Op>): seq<nat>
    requires per > 0
    decreases |ops|
  {
    if ops == [] then cs
    else match ops[0]
      case Add(k) => After(n, per, h, Added(n, per, h, cs, k), ops[1..])
      case Remove(k) => After(n, per, h, Removed(n, per, h, cs, k), ops[1..])
  }

  function Live(keys: seq<nat>, ops: seq<Op>): seq<nat>
    decreases |ops|
  {
    if ops == [] then keys
    else match ops[0]
      case Add(k) => Live(keys + [k], ops[1..])
      case Remove(k) => Live(Without(keys, k), ops[1..])
  }

  /** Every add finds room and every remove is of a live key. */
  ghost predicate Proper(n: nat, per: nat, h: (nat, nat) -> nat, cs: seq<nat>, keys: seq<nat>, ops: seq<Op>)
    requires per > 0
    decreases |ops|
  {
    if ops == [] then true
    else match ops[0]
      case Add(k) => RoomFor(n, per, h, cs, k) && Proper(n, per, h, Added(n, per, h, cs, k), keys + [k], ops[1..])
      case Remove(k) => k in keys && Proper(n, per, h, Removed(n, per, h, cs, k), Without(keys, k), ops[1..])
  }

  /** Over any proper run the counters stay exact and no live key tests negative. */
  lemma {:induction false} RunExact(n: nat, per: nat, h: (nat, nat) -> nat, cs: seq<nat>, keys: seq<nat>, ops: seq<Op>)
    requires per > 0 && Exact(n, per, h, cs, keys) && Proper(n, per, h, cs, keys, ops)
    ensures Exact(n, per, h, After(n, per, h, cs, ops), Live(keys, ops))
    ensures forall key :: key in Live(keys, ops) ==> Positive(n, per, h, After(n, per, h, cs, ops), key)
    decreases |ops|
  {
    hide Exact, RoomFor, Added, Removed, Without;
    if ops == [] {
      forall key | key in keys ensures Positive(n, per, h, cs, key) {
        NoFalseNegative(n, per, h, cs, keys, key);
      }
    } else {
      match ops[0]
      case Add(k) =>
        AddExact(n, per, h, cs, keys, k);
        RunExact(n, per, h, Added(n, per, h, cs, k), keys + [k], ops[1..]);
      case Remove(k) =>
        RemoveExact(n, per, h, cs, keys, k);
        RunExact(n, per, h, Removed(n, per, h, cs, k), Without(keys, k), ops[1..]);
    }
  }

  /** header->count over a run. */
  function CountAfter(count: nat, ops: seq<Op>): nat
    requires count < Counters.WORD()
    decreases |ops|
  {
    if ops == [] then count
    else CountAfter(if ops[0].Add? then Counters.Add32(count, 1) else Counters.Sub32(count, 1), ops[1..])
  }

  /** Over any proper run the header counts the live keys, modulo its 32 bits. */
  lemma {:induction false} RunCount(n: nat, per: nat, h: (nat, nat) -> nat, cs: seq<nat>, keys: seq<nat>, ops: seq<Op>)
    requires per > 0 && Proper(n, per, h, cs, keys, ops)
    ensures CountAfter(Mod(|keys|, Counters.WORD()), ops) == Mod(|Live(keys, ops)|, Counters.WORD())
    decreases |ops|
  {
    hide RoomFor, Added, Removed, Mod, Counters.WORD;
    if ops != [] {
      var w := Counters.WORD();
      match ops[0]
      case Add(k) =>
        Counters.ModSum(|keys|, 1, w);
        RunCount(n, per, h, Added(n, per, h, cs, k), keys + [k], ops[1..]);
      case Remove(k) =>
        WithoutShorter(keys, k);
        OneLess(|keys|, w);
        RunCount(n, per, h, Removed(n, per, h, cs, k), Without(keys, k), ops[1..]);
    }
  }

  lemma {:induction false} WithoutShorter(keys: seq<nat>, key: nat)
    ensures |Without(keys, key)| == if key in keys then |keys| - 1 else |keys|
  {
    if keys != [] && keys[0] != key { WithoutShorter(keys[1..], key); }
  }

  lemma OneLess(x: nat, w: nat)
    requires x > 0 && w > 0
    ensures Mod(Mod(x, w) + w - 1, w) == Mod(x - 1, w)
  {
    Counters.ModSum(x, w - 1, w);
    assert Mod(x + w - 1, w) == Mod(x - 1, w);
  }

  // ----- what an overflow costs -----

  /** m adds of one key, then m - 1 removes. */
  function AllButOne(key: nat, m: nat): seq<Op>
    requires m > 0
  {
    seq(m, _ => Add(key)) + seq(m - 1, _ => Remove(key))
  }

  function Least(x: nat, y: nat): nat {
    if x < y then x else y
  }

  /** The counters of key raised by k, to 15 at most. */
  ghost function RaisedBy(n: nat, per: nat, h: (nat, nat) -> nat, cs: seq<nat>, key: nat, k: nat): (r: seq<nat>)
    requires per > 0
    ensures |r| == |cs|
  {
    seq(|cs|, c requires 0 <= c < |cs| => if Touches(n, per, h, key, c) then Least(15, cs[c] + k) else cs[c])
  }

  ghost function LoweredBy(n: nat, per: nat, h: (nat, nat) -> nat, cs: seq<nat>, key: nat, k: nat): (r: seq<nat>)
    requires per > 0
    ensures |r| == |cs|
  {
    seq(|cs|, c requires 0 <= c < |cs| => if Touches(n, per, h, key, c) then cs[c] - Least(cs[c], k) else cs[c])
  }

  lemma {:induction false} AfterAdds(n: nat, per: nat, h: (nat, nat) -> nat, cs: seq<nat>, key: nat, k: nat, rest: seq<Op>)
    requires per > 0 && forall c :: 0 <= c < |cs| ==> cs[c] <= 15
    ensures After(n, per, h, cs, seq(k, _ => Add(key)) + rest) == After(n, per, h, RaisedBy(n, per, h, cs, key, k), rest)
    decreases k
  {
    hide Touches;
    var ops := seq(k, _ => Add(key)) + rest;
    if k == 0 {
      assert ops == rest && RaisedBy(n, per, h, cs, key, 0) == cs;
    } else {
      var one := Added(n, per, h, cs, key);
      assert ops[1..] == seq(k - 1, _ => Add(key)) + rest;
      AfterAdds(n, per, h, one, key, k - 1, rest);
      assert RaisedBy(n, per, h, one, key, k - 1) == RaisedBy(n, per, h, cs, key, k);
    }
  }

  lemma {:induction false} AfterRemoves(n: nat, per: nat, h: (nat, nat) -> nat, cs: seq<nat>, key: nat, k: nat)
    requires per > 0
    ensures After(n, per, h, cs, seq(k, _ => Remove(key))) == LoweredBy(n, per, h, cs, key, k)
    decreases k
  {
    hide Touches;
    var ops := seq(k, _ => Remove(key));
    if k == 0 {
      assert LoweredBy(n, per, h, cs, key, 0) == cs;
    } else {
      var one := Removed(n, per, h, cs, key);
      assert ops[1..] == seq(k - 1, _ => Remove(key));
      AfterRemoves(n, per, h, one, key, k - 1);
      assert LoweredBy(n, per, h, one, key, k - 1) == LoweredBy(n, per, h, cs, key, k);
    }
  }

  lemma {:induction false} LiveAdds(key: nat, a: nat, k: nat, rest: seq<Op>)
    ensures Live(seq(a, _ => key), seq(k, _ => Add(key)) + rest) == Live(seq(a + k, _ => key), rest)
    decreases k
  {
    var ops := seq(k, _ => Add(key)) + rest;
    if k == 0 {
      assert ops == rest;
    } else {
      assert ops[1..] == seq(k - 1, _ => Add(key)) + rest;
      assert seq(a, _ => key) + [key] == seq(a + 1, _ => key);
      LiveAdds(key, a + 1, k - 1, rest);
    }
  }

  lemma {:induction false} LiveRemoves(key: nat, a: nat, k: nat)
    requires k <= a
    ensures Live(seq(a, _ => key), seq(k, _ => Remove(key))) == seq(a - k, _ => key)
    decreases k
  {
    if k > 0 {
      assert seq(k, _ => Remove(key))[1..] == seq(k - 1, _ => Remove(key));
      assert Without(seq(a, _ => key), key) == seq(a - 1, _ => key);
      LiveRemoves(key, a - 1, k - 1);
    }
  }

  lemma OneLives(key: nat, m: nat)
    requires m > 0
    ensures Live([], AllButOne(key, m)) == [key]
  {
    assert seq(0, _ => key) == [];
    LiveAdds(key, 0, m, seq(m - 1, _ => Remove(key)));
    LiveRemoves(key, m, m - 1);
    assert seq(1, _ => key) == [key];
  }

  /** What is left of one of the key's counters. */
  lemma LeftOver(n: nat, per: nat, h: (nat, nat) -> nat, key: nat, m: nat, i: nat)
    requires per > 0 && i < n && m > 0
    ensures var left := After(n, per, h, seq(Scale(n, per), _ => 0), AllButOne(key, m));
            Slot(per, h, key, i) < |left| && (left[Slot(per, h, key, i)] > 0 <==> m <= 15)
  {
    hide Scale, Slot, After;
    var zero: seq<nat> := seq(Scale(n, per), _ => 0);
    AfterAdds(n, per, h, zero, key, m, seq(m - 1, _ => Remove(key)));
    AfterRemoves(n, per, h, RaisedBy(n, per, h, zero, key, m), key, m - 1);
    SlotInSlice(n, per, h, key, i);
    assert Touches(n, per, h, key, Slot(per, h, key, i));
  }

  /** The limit is exact: of m adds and m - 1 removes of one key, one occurrence stays live, and the
      test still finds it if and only if m is at most 15. */
  lemma OverflowExact(n: nat, per: nat, h: (nat, nat) -> nat, key: nat, m: nat)
    requires per > 0 && n > 0 && m > 0
    ensures Live([], AllButOne(key, m)) == [key]
    ensures Positive(n, per, h, After(n, per, h, seq(Scale(n, per), _ => 0), AllButOne(key, m)), key) <==> m <= 15
  {
    hide Scale, Live, After, AllButOne, Slot;
    OneLives(key, m);
    forall i: nat | i < n
      ensures var left := After(n, per, h, seq(Scale(n, per), _ => 0), AllButOne(key, m));
              Slot(per, h, key, i) < |left| && (left[Slot(per, h, key, i)] > 0 <==> m <= 15)
    {
      LeftOver(n, per, h, key, m, i);
    }
    LeftOver(n, per, h, key, m, 0);
  }

  // ----- the filter -----

  /** The first n counters that follow byte offset. */
  function LoadsOf(s: seq<bv8>, offset: nat, n: nat): (cs: seq<nat>)
    requires offset + (n + 1) / 2 <= |s|
    ensures |cs| == n && forall c :: 0 <= c < n ==> cs[c] == Counter(s, offset, c) < 16
  {
    seq(n, c requires 0 <= c < n => Counter(s, offset, c))
  }

  /** A change of one counter changes one load. */
  lemma OneLoad(s: seq<bv8>, t: seq<bv8>, offset: nat, n: nat, index: nat, v: nat)
    requires offset + (n + 1) / 2 <= |s| && index < n && OneCounter(s, t, offset, index, v)
    ensures |t| == |s| && LoadsOf(t, offset, n) == LoadsOf(s, offset, n)[index := v] && t[..offset] == s[..offset]
  {
    hide Counter;
  }

  lemma NothingDone(per: nat, h: (nat, nat) -> nat, cs: seq<nat>, key: nat)
    requires per > 0
    ensures Added(0, per, h, cs, key) == cs && Removed(0, per, h, cs, key) == cs
  {
  }

  lemma AddedNext(n: nat, per: nat, h: (nat, nat) -> nat, cs: seq<nat>, key: nat)
    requires per > 0 && Slot(per, h, key, n) < |cs|
    ensures var r, i := Added(n, per, h, cs, key), Slot(per, h, key, n); Added(n + 1, per, h, cs, key) == r[i := Raise(r[i])]
  {
    TouchesNext(n, per, h, key);
    hide Touches, Slot;
  }

  lemma RemovedNext(n: nat, per: nat, h: (nat, nat) -> nat, cs: seq<nat>, key: nat)
    requires per > 0 && Slot(per, h, key, n) < |cs|
    ensures var r, i := Removed(n, per, h, cs, key), Slot(per, h, key, n); Removed(n + 1, per, h, cs, key) == r[i := Lower(r[i])]
  {
    TouchesNext(n, per, h, key);
    hide Touches, Slot;
  }

  /** Which counters an add and a remove change. */
  lemma ChangedIs(n: nat, per: nat, h: (nat, nat) -> nat, cs: seq<nat>, key: nat)
    requires per > 0 && |cs| == Scale(n, per)
    ensures forall c: nat :: c < |cs| ==>
              Added(n, per, h, cs, key)[c] == (if Picks(per, h, key, c) then Raise(cs[c]) else cs[c]) &&
              Removed(n, per, h, cs, key)[c] == if Picks(per, h, key, c) then Lower(cs[c]) else cs[c]
  {
    hide Touches, Scale;
    forall c: nat | c < |cs| ensures Touches(n, per, h, key, c) <==> Picks(per, h, key, c) {
      TouchesExact(n, per, h, key, c);
      ScaleIsProduct(n, per);
      InSlices(c, n, per);
    }
  }

  lemma InSlices(c: nat, n: nat, per: nat)
    requires per > 0 && c < n * per
    ensures c / per < n
  {
    var q := c / per;
    assert c == q * per + c % per;
    if q >= n {
      Product(q, n, per);
    }
  }

  lemma {:induction false} Product(q: nat, n: nat, per: nat)
    requires q >= n
    ensures q * per >= n * per
  {
    if q > n {
      Product(q - 1, n, per);
      Distribute(q, 1, per);
    }
  }

  class CountingBloom {
    const funcs: nat
    const per: nat
    const h: (nat, nat) -> nat
    /** The counters follow the 16-byte header. */
    const offset: nat
    const bitmap: MixBitmap
    /** header->count, 32 bits wide. */
    var count: nat

    ghost predicate Valid()
      reads this
    {
      Sized() && count < Counters.WORD()
    }

    ghost predicate Sized() {
      per > 0 && offset + (Scale(funcs, per) + 1) / 2 <= bitmap.bits.Length
    }

    ghost function Loads(): (cs: seq<nat>)
      requires Sized()
      reads bitmap.bits
      ensures |cs| == Scale(funcs, per)
    {
      LoadsOf(bitmap.bits[..], offset, Scale(funcs, per))
    }

    /** mix_counting_bloom_filter_init, with the sizes computed. */
    constructor (funcs: nat, per: nat, h: (nat, nat) -> nat)
      requires per > 0
      ensures Valid() && this.funcs == funcs && this.per == per && this.h == h && count == 0 && fresh(bitmap.bits)
      ensures Exact(funcs, per, h, Loads(), [])
    {
      this.funcs, this.per, this.h := funcs, per, h;
      offset := 16;
      bitmap := new MixBitmap((Scale(funcs, per) + 1) / 2 + 16);
      count := 0;
      new;
      forall c: nat | c < Scale(funcs, per) ensures Loads()[c] == 0 { assert bitmap.bits[offset + c / 2] == 0; }
    }

    /** The loop of add, remove and test goes through the functions: the counter of function i. */
    method Index(key: nat, i: nat) returns (index: nat)
      requires Valid() && i < funcs
      ensures index / per == i && index % per == h(key, i) % per
      ensures index == Slot(per, h, key, i) && index < Scale(funcs, per) && offset + index / 2 < bitmap.bits.Length
    {
      SlotInSlice(funcs, per, h, key, i);
      SlotExact(per, h, key, i);
      hide Scale, Mod;
      index := Mod(h(key, i), per) + Scale(i, per);
    }

    method RaiseOne(index: nat)
      requires Valid() && index < Scale(funcs, per)
      modifies bitmap.bits
      ensures Loads() == old(Loads())[index := Raise(old(Loads())[index])] && bitmap.bits[..offset] == old(bitmap.bits[..offset])
    {
      hide Scale, Counter, OneCounter;
      ghost var s := bitmap.bits[..];
      var ret := bitmap.Increment(index, offset);
      if ret == 0 { OneLoad(s, bitmap.bits[..], offset, Scale(funcs, per), index, Counter(s, offset, index) + 1); }
    }

    method LowerOne(index: nat)
      requires Valid() && index < Scale(funcs, per)
      modifies bitmap.bits
      ensures Loads() == old(Loads())[index := Lower(old(Loads())[index])] && bitmap.bits[..offset] == old(bitmap.bits[..offset])
    {
      hide Scale, Counter, OneCounter;
      ghost var s := bitmap.bits[..];
      var ret := bitmap.Decrement(index, offset);
      if ret == 0 { OneLoad(s, bitmap.bits[..], offset, Scale(funcs, per), index, Counter(s, offset, index) - 1); }
    }

    /** mix_counting_bloom_filter_add. */
    method Add(key: nat)
      requires Valid()
      modifies this`count, bitmap.bits
      ensures Valid() && Loads() == Added(funcs, per, h, old(Loads()), key) && count == Counters.Add32(old(count), 1)
      ensures forall c: nat :: c < |Loads()| ==>
                Loads()[c] == if Picks(per, h, key, c) then Raise(old(Loads())[c]) else old(Loads())[c]
      ensures bitmap.bits[..offset] == old(bitmap.bits[..offset])
    {
      hide Scale, Added, Loads;
      var i := 0;
      ghost var cs := Loads();
      NothingDone(per, h, cs, key);
      ChangedIs(funcs, per, h, cs, key);
      while i < funcs
        invariant i <= funcs && count == old(count) && Loads() == Added(i, per, h, cs, key) && bitmap.bits[..offset] == old(bitmap.bits[..offset])
      {
        var index := Index(key, i);
        AddedNext(i, per, h, cs, key);
        RaiseOne(index);
        i := i + 1;
      }
      count := Counters.Add32(count, 1);
    }

    /** mix_counting_bloom_filter_remove. */
    method Remove(key: nat)
      requires Valid()
      modifies this`count, bitmap.bits
      ensures Valid() && Loads() == Removed(funcs, per, h, old(Loads()), key) && count == Counters.Sub32(old(count), 1)
      ensures forall c: nat :: c < |Loads()| ==>
                Loads()[c] == if Picks(per, h, key, c) then Lower(old(Loads())[c]) else old(Loads())[c]
      ensures bitmap.bits[..offset] == old(bitmap.bits[..offset])
    {
      hide Scale, Removed, Loads;
      var i := 0;
      ghost var cs := Loads();
      NothingDone(per, h, cs, key);
      ChangedIs(funcs, per, h, cs, key);
      while i < funcs
        invariant i <= funcs && count == old(count) && Loads() == Removed(i, per, h, cs, key) && bitmap.bits[..offset] == old(bitmap.bits[..offset])
      {
        var index := Index(key, i);
        RemovedNext(i, per, h, cs, key);
        LowerOne(index);
        i := i + 1;
      }
      count := Counters.Sub32(count, 1);
    }

    /** mix_counting_bloom_filter_test. */
    method Test(key: nat) returns (r: bool)
      requires Valid()
      ensures r <==> Positive(funcs, per, h, Loads(), key)
    {
      hide Scale, Slot;
      var i := 0;
      while i < funcs
        invariant i <= funcs && Positive(i, per, h, Loads(), key)
      {
        var index := Index(key, i);
        var some := bitmap.Check(index, offset);
        if !some { return false; }
        i := i + 1;
      }
      return true;
    }
  }
}
