/** The arithmetic of mix_queue.c: powers of two, masks, and 32-bit counters that run freely and
    wrap around. */
module Counters {
  import opened Common

  function Pow2(k: nat): (p: nat)
    ensures p > 0
  {
    if k == 0 then 1 else 2 * Pow2(k - 1)
  }

  /** Bitwise conjunction of naturals. */
  function BitAnd(x: nat, y: nat): nat {
    if x == 0 || y == 0 then 0
    else (if x % 2 == 1 && y % 2 == 1 then 1 else 0) + 2 * BitAnd(x / 2, y / 2)
  }

  lemma {:induction false} ModDouble(x: nat, m: nat)
    requires m > 0
    ensures Mod(x, 2 * m) == 2 * Mod(x / 2, m) + x % 2
  {
    if x < 2 * m {
    } else {
      ModDouble(x - 2 * m, m);
      assert (x - 2 * m) / 2 == x / 2 - m && (x - 2 * m) % 2 == x % 2;
    }
  }

  /** Masking with 2^k - 1 is the remainder modulo 2^k. */
  lemma {:induction false} MaskIsMod(x: nat, k: nat)
    ensures BitAnd(x, Pow2(k) - 1) == Mod(x, Pow2(k))
  {
    if k == 0 {
      ModOne(x);
    } else if x == 0 {
    } else {
      var m := Pow2(k - 1);
      assert (2 * m - 1) / 2 == m - 1 && (2 * m - 1) % 2 == 1;
      MaskIsMod(x / 2, k - 1);
      ModDouble(x, m);
    }
  }

  lemma {:induction false} ModOne(x: nat)
    ensures Mod(x, 1) == 0
  {
    if x > 0 { ModOne(x - 1); }
  }

  // ----- sums and remainders -----

  /** Adding a multiple of n changes no remainder modulo n. */
  lemma {:induction false} ModPlus(x: nat, w: nat, n: nat)
    requires n > 0 && Mod(w, n) == 0
    ensures Mod(x + w, n) == Mod(x, n)
    decreases w
  {
    if w >= n {
      ModPlus(x, w - n, n);
    }
  }

  /** A remainder modulo a multiple of n has the same remainder modulo n. */
  lemma {:induction false} ModMod(x: nat, w: nat, n: nat)
    requires n > 0 && w > 0 && Mod(w, n) == 0
    ensures Mod(Mod(x, w), n) == Mod(x, n)
  {
    if x >= w {
      ModMod(x - w, w, n);
      ModPlus(x - w, w, n);
    }
  }

  lemma {:induction false} ModSum(x: nat, y: nat, n: nat)
    requires n > 0
    ensures Mod(Mod(x, n) + y, n) == Mod(x + y, n)
  {
    if x >= n {
      ModSum(x - n, y, n);
    }
  }

  /** Two naturals less than n apart have different remainders modulo n. */
  lemma {:induction false} ModDistinct(a: nat, b: nat, n: nat)
    requires 0 < n && a < b < a + n
    ensures Mod(a, n) != Mod(b, n)
  {
    if a >= n {
      ModDistinct(a - n, b - n, n);
    } else if b >= n {
      assert Mod(b - n, n) == b - n;
    }
  }

  lemma {:induction false} PowDivides(k: nat, l: nat)
    requires k <= l
    ensures Mod(Pow2(l), Pow2(k)) == 0
    decreases l - k
  {
    var n := Pow2(k);
    if k == l {
      assert Mod(n - n, n) == 0;
    } else {
      PowDivides(k, l - 1);
      ModPlus(Pow2(l - 1), Pow2(l - 1), n);
    }
  }

  lemma {:induction false} PowGrows(k: nat, l: nat)
    requires k < l
    ensures 2 * Pow2(k) <= Pow2(l)
    decreases l
  {
    if k + 1 < l { PowGrows(k, l - 1); }
  }

  // ----- 32-bit counters -----

  /** The number of values of an unsigned int. */
  function WORD(): (w: nat)
    ensures w > 0
  {
    Pow2(32)
  }

  lemma WordIs()
    ensures WORD() == 0x1_0000_0000
  {
    hide Pow2;
    FourBits();
    PowSum(4, 4);
    PowSum(8, 8);
    PowSum(16, 16);
  }

  lemma FourBits()
    ensures Pow2(4) == 0x10
  {
    assert Pow2(3) == 8;
  }

  lemma {:induction false} PowSum(k: nat, l: nat)
    ensures Pow2(k + l) == Pow2(k) * Pow2(l)
  {
    if l > 0 {
      PowSum(k, l - 1);
      assert Pow2(k + l) == 2 * Pow2(k + (l - 1));
    }
  }

  function Add32(a: nat, b: nat): (c: nat)
    ensures c < WORD()
  {
    Mod(a + b, WORD())
  }

  function Sub32(a: nat, b: nat): (c: nat)
    requires b < WORD()
    ensures c < WORD()
  {
    Mod(a + WORD() - b, WORD())
  }

  /** The difference of two wrapped counters is the difference of the counts, as long as that fits. */
  lemma {:induction false} Sub32Exact(total: nat, gone: nat)
    requires gone <= total < gone + WORD()
    ensures Sub32(Mod(total, WORD()), Mod(gone, WORD())) == total - gone
  {
    hide Pow2;
    var w := WORD();
    if gone >= w {
      Sub32Exact(total - w, gone - w);
    } else {
      ModOnce(total, w);
      assert Mod(gone, w) == gone;
      if total < w { ModOnce(total + w - gone, w); } else { assert Mod(total - gone, w) == total - gone; }
    }
  }

  // ----- roundup_pow_of_two -----

  /** The position of the highest set bit, counted from 1; 0 for 0. */
  function Fls(x: nat): nat {
    if x == 0 then 0 else 1 + Fls(x / 2)
  }

  function RoundUp(x: nat): nat
    requires x > 0
  {
    Pow2(Fls(x - 1))
  }

  lemma {:induction false} FlsBounds(x: nat)
    ensures x < Pow2(Fls(x))
    ensures x > 0 ==> Pow2(Fls(x)) <= 2 * x
  {
    if x > 0 {
      FlsBounds(x / 2);
      if x / 2 == 0 { assert x == 1; }
    }
  }

  ghost predicate IsPow2(x: nat) {
    exists k: nat :: Pow2(k) == x
  }

  lemma {:induction false} PowStrict(k: nat, l: nat)
    requires Pow2(k) < Pow2(l)
    ensures 2 * Pow2(k) <= Pow2(l)
  {
    if k < l {
      PowGrows(k, l);
    } else if l < k {
      PowGrows(l, k);
    }
  }

  /** roundup_pow_of_two gives the least power of two that is not below x. */
  lemma RoundUpLeast(x: nat)
    requires x > 0
    ensures IsPow2(RoundUp(x)) && x <= RoundUp(x)
    ensures forall p: nat :: IsPow2(p) && x <= p ==> RoundUp(x) <= p
    ensures RoundUp(x) == x <==> IsPow2(x)
  {
    var k := Fls(x - 1);
    FlsBounds(x - 1);
    assert Pow2(k) == RoundUp(x);
    forall p: nat | IsPow2(p) && x <= p ensures RoundUp(x) <= p {
      var l: nat :| Pow2(l) == p;
      if p < RoundUp(x) {
        PowStrict(l, k);
      }
    }
  }
}
