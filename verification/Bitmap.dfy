/** The bitmap of mix_bitmap.c: a byte array whose bits are set, cleared and searched in place,
    specified as a set of bit numbers; and the packed 4-bit counters of the same array. */
module Bitmap {
  import opened Common
  import opened Counters
  import Metadata

  // ----- one byte -----

  /** 1 << i. */
  function Mask(i: nat): bv8
    requires i < 8
  {
    match i
    case 0 => 0x01
    case 1 => 0x02
    case 2 => 0x04
    case 3 => 0x08
    case 4 => 0x10
    case 5 => 0x20
    case 6 => 0x40
    case 7 => 0x80
  }

  lemma MasksApart(i: nat, j: nat)
    requires i < 8 && j < 8
    ensures Mask(i) & Mask(j) == if i == j then Mask(i) else 0
    ensures Mask(i) != 0
  {
  }

  lemma OrElsewhere(b: bv8, m: bv8, n: bv8)
    ensures m & n == 0 ==> (b | m) & n == b & n
    ensures (b | m) & m == m
  {
  }

  lemma ClearElsewhere(b: bv8, m: bv8, n: bv8)
    ensures m & n == 0 ==> (b & !m) & n == b & n
    ensures (b & !m) & m == 0
  {
  }

  predicate BitOf(b: bv8, i: nat)
    requires i < 8
  {
    b & Mask(i) != 0
  }

  lemma SetBitOf(b: bv8, i: nat, j: nat)
    requires i < 8 && j < 8
    ensures BitOf(b | Mask(i), j) <==> i == j || BitOf(b, j)
  {
    MasksApart(i, j);
    OrElsewhere(b, Mask(i), Mask(j));
  }

  lemma ClearBitOf(b: bv8, i: nat, j: nat)
    requires i < 8 && j < 8
    ensures BitOf(b & !Mask(i), j) <==> i != j && BitOf(b, j)
  {
    MasksApart(i, j);
    ClearElsewhere(b, Mask(i), Mask(j));
  }

  // ----- the array -----

  predicate One(s: seq<bv8>, k: nat) {
    k / 8 < |s| && BitOf(s[k / 8], k % 8)
  }

  ghost function Ones(s: seq<bv8>): (r: set<nat>)
    ensures forall k: nat :: k in r <==> One(s, k)
  {
    set k: nat | k < 8 * |s| && One(s, k)
  }

  lemma OnesSet(s: seq<bv8>, k: nat)
    requires k / 8 < |s|
    ensures Ones(s[k / 8 := s[k / 8] | Mask(k % 8)]) == Ones(s) + {k}
  {
    var t := s[k / 8 := s[k / 8] | Mask(k % 8)];
    forall l: nat ensures One(t, l) <==> One(s, l) || l == k {
      if l / 8 == k / 8 { SetBitOf(s[k / 8], k % 8, l % 8); }
    }
  }

  lemma OnesCleared(s: seq<bv8>, k: nat)
    requires k / 8 < |s|
    ensures Ones(s[k / 8 := s[k / 8] & !Mask(k % 8)]) == Ones(s) - {k}
  {
    var t := s[k / 8 := s[k / 8] & !Mask(k % 8)];
    forall l: nat ensures One(t, l) <==> One(s, l) && l != k {
      if l / 8 == k / 8 { ClearBitOf(s[k / 8], k % 8, l % 8); }
    }
  }

  lemma NoOnes(b: bv8, i: nat)
    requires i < 8 && b == 0
    ensures !BitOf(b, i)
  {
  }

  // ----- packed counters: two to a byte, the even one in the high half -----

  function Nibble(b: bv8, odd: bool): (x: bv8)
    ensures x < 16
  {
    if odd then b & 0x0f else (b & 0xf0) >> 4
  }

  /** The byte after the increment, as the code adds to the whole byte. */
  function Up(b: bv8, odd: bool): bv8 {
    if odd then (b & 0xf0) + ((b & 0x0f) + 0x01) else (b & 0x0f) + ((b & 0xf0) + 0x10)
  }

  function Down(b: bv8, odd: bool): bv8 {
    if odd then (b & 0xf0) + ((b & 0x0f) - 0x01) else (b & 0x0f) + ((b & 0xf0) - 0x10)
  }

  /** Neither carries into the other half. */
  lemma UpApart(b: bv8, odd: bool)
    requires Nibble(b, odd) != 15
    ensures Nibble(Up(b, odd), odd) == Nibble(b, odd) + 1 && Nibble(Up(b, odd), !odd) == Nibble(b, !odd)
  {
  }

  lemma DownApart(b: bv8, odd: bool)
    requires Nibble(b, odd) != 0
    ensures Nibble(Down(b, odd), odd) == Nibble(b, odd) - 1 && Nibble(Down(b, odd), !odd) == Nibble(b, !odd)
  {
  }

  /** A half byte as a number. */
  function Value(x: bv8): (v: nat)
    requires x < 16
    ensures v < 16 && (v == 15 <==> x == 15) && (v == 0 <==> x == 0)
  {
    match x
    case 0 => 0
    case 1 => 1
    case 2 => 2
    case 3 => 3
    case 4 => 4
    case 5 => 5
    case 6 => 6
    case 7 => 7
    case 8 => 8
    case 9 => 9
    case 10 => 10
    case 11 => 11
    case 12 => 12
    case 13 => 13
    case 14 => 14
    case _ => 15
  }

  lemma ValueNext(x: bv8)
    requires x < 15
    ensures Value(x + 1) == Value(x) + 1
  {
  }

  /** Counter index of those that start at byte offset. */
  function Counter(s: seq<bv8>, offset: nat, index: nat): (v: nat)
    requires offset + index / 2 < |s|
    ensures v < 16
  {
    Value(Nibble(s[offset + index / 2], index % 2 != 0))
  }

  /** t is s with counter index at v; nothing else has changed. */
  ghost predicate OneCounter(s: seq<bv8>, t: seq<bv8>, offset: nat, index: nat, v: nat)
    requires offset + index / 2 < |s|
  {
    && |t| == |s| && Counter(t, offset, index) == v
    && (forall j: nat :: j != index && offset + j / 2 < |s| ==> Counter(t, offset, j) == Counter(s, offset, j))
    && (forall k :: 0 <= k < |s| && k != offset + index / 2 ==> t[k] == s[k])
  }

  lemma Raised(s: seq<bv8>, offset: nat, index: nat)
    requires offset + index / 2 < |s| && Counter(s, offset, index) != 15
    ensures var a := offset + index / 2; OneCounter(s, s[a := Up(s[a], index % 2 != 0)], offset, index, Counter(s, offset, index) + 1)
  {
    var a, odd := offset + index / 2, index % 2 != 0;
    UpApart(s[a], odd);
    ValueNext(Nibble(s[a], odd));
    hide Nibble, Up, Value;
    SameByte(index);
  }

  lemma Lowered(s: seq<bv8>, offset: nat, index: nat)
    requires offset + index / 2 < |s| && Counter(s, offset, index) != 0
    ensures var a := offset + index / 2; OneCounter(s, s[a := Down(s[a], index % 2 != 0)], offset, index, Counter(s, offset, index) - 1)
  {
    var a, odd := offset + index / 2, index % 2 != 0;
    DownApart(s[a], odd);
    ValueNext(Nibble(s[a], odd) - 1);
    hide Nibble, Down, Value;
    SameByte(index);
  }

  lemma SameByte(index: nat)
    ensures forall j: nat :: j != index && j / 2 == index / 2 ==> (j % 2 != 0) == !(index % 2 != 0)
  {
  }

  /** mix_bitmap_t. */
  class MixBitmap {
    const bits: array<bv8>
    const bytes: nat
    var nextBit: nat

    ghost predicate Valid()
      reads this
    {
      bytes <= bits.Length && (bytes > 0 ==> nextBit < 8 * bytes)
    }

    /** The bits that are set. */
    ghost function Set(): set<nat>
      reads this, bits
    {
      Ones(bits[..])
    }

    /** mix_bitmap_init: despite its name the parameter counts bits, and as many bytes are allocated. */
    constructor (size: nat)
      ensures Valid() && fresh(bits) && Set() == {} && bytes == size / 8 && nextBit == 0 && bits.Length == size
      ensures forall k :: 0 <= k < size ==> bits[k] == 0
    {
      bytes := size / 8;
      nextBit := 0;
      bits := new bv8[size](_ => 0);
      new;
      forall k: nat ensures !One(bits[..], k) { if k / 8 < size { NoOnes(bits[k / 8], k % 8); } }
    }

    method TestBit(nr: nat) returns (r: bool)
      requires nr / 8 < bits.Length
      ensures r <==> nr in Set()
    {
      r := bits[nr / 8] & Mask(nr % 8) != 0;
    }

    /** Returns the old bit. */
    method SetBit(nr: nat) returns (was: bool)
      requires nr / 8 < bits.Length
      modifies bits
      ensures was <==> nr in old(Set())
      ensures Set() == old(Set()) + {nr}
    {
      hide Mask, One, BitOf, Ones;
      was := TestBit(nr);
      OnesSet(bits[..], nr);
      var i, m := nr / 8, Mask(nr % 8);
      bits[i] := bits[i] | m;
      assert bits[..] == old(bits[..])[i := old(bits[i]) | m];
    }

    method ClearBit(nr: nat) returns (was: bool)
      requires nr / 8 < bits.Length
      modifies bits
      ensures was <==> nr in old(Set())
      ensures Set() == old(Set()) - {nr}
    {
      hide Mask, One, BitOf, Ones;
      was := TestBit(nr);
      OnesCleared(bits[..], nr);
      var i, m := nr / 8, Mask(nr % 8);
      bits[i] := bits[i] & !m;
      assert bits[..] == old(bits[..])[i := old(bits[i]) & !m];
    }

    /** mix_bitmap_clear. */
    method Clear()
      requires Valid()
      modifies this`nextBit, bits
      ensures Valid() && nextBit == 0
      ensures forall k: nat :: k in Set() <==> k in old(Set()) && k >= 8 * bytes
    {
      forall k | 0 <= k < bytes {
        bits[k] := 0;
      }
      nextBit := 0;
      forall k: nat ensures One(bits[..], k) <==> One(old(bits[..]), k) && k >= 8 * bytes {
        if k / 8 < bytes { NoOnes(bits[k / 8], k % 8); }
      }
    }

    /** mix_bitmap_next_zero_bit: takes the first zero bit met when walking round from nextBit.
        Without a zero bit the walk of the code would not end. */
    method NextZeroBit() returns (z: nat)
      requires Valid() && exists y: nat :: y < 8 * bytes && y !in Set()
      modifies this`nextBit, bits
      ensures Valid() && z < 8 * bytes && z !in old(Set())
      ensures z == Metadata.FirstZero(old(Set()), 8 * bytes, old(nextBit))
      ensures Set() == old(Set()) + {z}
      ensures nextBit == Div(z + 1, 8 * bytes)
    {
      hide One, Ones, Mod, Div, Metadata.ZeroFrom;
      var n := 8 * bytes;
      ghost var y: nat :| y < n && y !in Set();
      ghost var far := Metadata.AroundHits(nextBit, y, n);
      ghost var d := 0;
      z := nextBit;
      ModOnce(z, n);
      var one := TestBit(z);
      while one
        invariant Set() == old(Set()) && nextBit == old(nextBit)
        invariant z < n && d <= far && z == Metadata.Around(nextBit, d, n)
        invariant one <==> z in Set()
        invariant forall e: nat :: e < d ==> Metadata.Around(nextBit, e, n) in Set()
        decreases far - d, one
      {
        ModSum(nextBit + d, 1, n);
        z := Mod(z + 1, n);
        d := d + 1;
        one := TestBit(z);
      }
      Metadata.FirstZeroIs(Set(), n, nextBit, z, d, 0);
      var was := SetBit(z);
      NextBitInside(z, n);
      nextBit := Div(z + 1, n);
    }

    /** mix_counting_bitmap_increment: a full counter stays as it is and -1 is returned. */
    method Increment(index: nat, offset: nat) returns (ret: int)
      requires offset + index / 2 < bits.Length
      modifies bits
      ensures var c := Counter(old(bits[..]), offset, index);
              if c == 15 then ret == -1 && bits[..] == old(bits[..]) else ret == 0 && OneCounter(old(bits[..]), bits[..], offset, index, c + 1)
    {
      var access, odd := index / 2 + offset, index % 2 != 0;
      var temp := Nibble(bits[access], odd);
      var n := Up(bits[access], odd);
      if temp == 15 { return -1; }
      Raised(bits[..], offset, index);
      hide OneCounter, Up, Value;
      bits[access] := n;
      assert bits[..] == old(bits[..])[access := n];
      return 0;
    }

    /** mix_counting_bitmap_decrement: a zero counter stays as it is and -1 is returned. */
    method Decrement(index: nat, offset: nat) returns (ret: int)
      requires offset + index / 2 < bits.Length
      modifies bits
      ensures var c := Counter(old(bits[..]), offset, index);
              if c == 0 then ret == -1 && bits[..] == old(bits[..]) else ret == 0 && OneCounter(old(bits[..]), bits[..], offset, index, c - 1)
    {
      var access, odd := index / 2 + offset, index % 2 != 0;
      var temp := Nibble(bits[access], odd);
      var n := Down(bits[access], odd);
      if temp == 0 { return -1; }
      Lowered(bits[..], offset, index);
      hide OneCounter, Down, Value;
      bits[access] := n;
      assert bits[..] == old(bits[..])[access := n];
      return 0;
    }

    /** mix_counting_bitmap_check: not zero, where the code returns the masked byte. */
    method Check(index: nat, offset: nat) returns (r: bool)
      requires offset + index / 2 < bits.Length
      ensures r <==> Counter(bits[..], offset, index) > 0
    {
      var access := index / 2 + offset;
      if index % 2 != 0 {
        r := bits[access] & 0x0f != 0;
      } else {
        r := bits[access] & 0xf0 != 0;
      }
      HighHalf(bits[access]);
    }
  }

  lemma HighHalf(b: bv8)
    ensures b & 0xf0 != 0 <==> (b & 0xf0) >> 4 != 0
  {
  }

  lemma NextBitInside(z: nat, n: nat)
    requires z < n && n >= 8
    ensures Div(z + 1, n) <= 1 < n
  {
    if z + 1 >= n { assert Div(z + 1 - n, n) == 0; }
  }
}
