/** What one buffer segment keeps in memory about its slots -- hash index, bitmap, rotating
    search position and used count -- as values, with the operations of mix_meta.c on them.
    Each operation is given as the code has it and, where the code misses its purpose, also
    with the one expression repaired; a Variant says which of the two is meant. */
module Metadata {
  import opened Common

  datatype Meta = Meta(index: map<nat, nat>, bitmap: set<nat>, nextBit: nat, used: int)

  /** One flag for each expression in which the code misses its purpose; false is the code. */
  datatype Variant = Variant(
    wholeBit: bool,   // mix_write_redirect_blockmeta: marks the slot's own bit and always indexes
    clearAll: bool,   // mix_clear_block: passes over blocks that are not buffered
    trueDrain: bool,  // mix_migrate_segment: waits until nothing is queued or executing
    based: bool)      // migrate: adds the segment's base to the slot it copies and clears

  const AS_WRITTEN := Variant(false, false, false, false)
  const REPAIRED := Variant(true, true, true, true)

  const EMPTY := Meta(map[], {}, 0, 0)

  /** The index, the bitmap and the count agree: distinct blocks have distinct slots, their bits
      are set, and there are exactly as many set bits as blocks. */
  ghost predicate Sound(per: nat, m: Meta) {
    && Injective(m.index)
    && (forall k :: k in m.index ==> m.index[k] in m.bitmap)
    && (forall o :: o in m.bitmap ==> o < per)
    && m.used == |m.index| == |m.bitmap|
  }

  /** By counting, the bitmap is then exactly the set of slots in use. */
  lemma SoundBitmap(per: nat, m: Meta)
    requires Sound(per, m)
    ensures m.bitmap == m.index.Values
  {
    InjectiveSize(m.index);
    SubsetSize(m.index.Values, m.bitmap);
  }

  /** The slot of a buffered block, as mix_buffer_block_test finds it: through the index, then
      double-checked against the bitmap. */
  function BlockTest(per: nat, m: Meta, b: nat): Option<nat>
    requires per > 0
  {
    if b in m.index && Mod(m.index[b], per) in m.bitmap then Some(m.index[b]) else None
  }

  lemma BlockTestIsIndex(per: nat, m: Meta, b: nat)
    requires per > 0 && Sound(per, m)
    ensures BlockTest(per, m, b) == if b in m.index then Some(m.index[b]) else None
  {
    if b in m.index {
      assert Mod(m.index[b], per) == m.index[b];
    }
  }

  // ----- allocation -----

  /** Bits that the bitmap really holds for a segment of per slots: whole bytes only. */
  function Bits(per: nat): nat {
    per / 8 * 8
  }

  /** The first zero bit met when walking round from from, or n when there is none. */
  function FirstZero(bits: set<nat>, n: nat, from: nat): (z: nat)
    requires from < n
  {
    ZeroFrom(bits, n, from, 0)
  }

  function ZeroFrom(bits: set<nat>, n: nat, from: nat, d: nat): nat
    requires from < n
    decreases n - d
  {
    if d >= n then n
    else if Around(from, d, n) !in bits then Around(from, d, n)
    else ZeroFrom(bits, n, from, d + 1)
  }

  /** z is the first zero in circular order from from: d steps away, with ones before it. */
  ghost predicate IsFirstZero(bits: set<nat>, n: nat, from: nat, z: nat, d: nat)
    requires n > 0
  {
    && d < n
    && z == Around(from, d, n)
    && z !in bits
    && forall e: nat :: e < d ==> Around(from, e, n) in bits
  }

  function Around(from: nat, e: nat, n: nat): nat
    requires n > 0
  {
    Mod(from + e, n)
  }

  /** Walking n steps meets every bit. */
  lemma AroundHits(from: nat, z: nat, n: nat) returns (d: nat)
    requires from < n && z < n
    ensures d < n && Around(from, d, n) == z
  {
    d := if from <= z then z - from else z + n - from;
    ModOnce(from + d, n);
  }

  /** Whatever position is the first zero, the search function returns it. */
  lemma {:induction false} FirstZeroIs(bits: set<nat>, n: nat, from: nat, z: nat, d: nat, c: nat)
    requires from < n && IsFirstZero(bits, n, from, z, d) && c <= d
    ensures ZeroFrom(bits, n, from, c) == z
    decreases d - c
  {
    if c < d {
      assert Around(from, c, n) in bits;
      FirstZeroIs(bits, n, from, z, d, c + 1);
    }
  }

  /** The search succeeds whenever some bit is zero. */
  lemma FirstZeroFound(bits: set<nat>, n: nat, from: nat, y: nat) returns (d: nat)
    requires from < n && y < n && y !in bits
    ensures IsFirstZero(bits, n, from, FirstZero(bits, n, from), d)
  {
    var e := AroundHits(from, y, n);
    d := 0;
    while Around(from, d, n) in bits
      invariant d <= e
      invariant forall c: nat :: c < d ==> Around(from, c, n) in bits
      decreases e - d
    {
      d := d + 1;
    }
    FirstZeroIs(bits, n, from, Around(from, d, n), d, 0);
  }

  /** Some bit is zero: without one the search of the code does not end. */
  ghost predicate Findable(per: nat, m: Meta) {
    exists z: nat :: z < Bits(per) && z !in m.bitmap
  }

  /** mix_get_next_free_block refuses exactly the segments whose count has reached per. */
  predicate Full(per: nat, m: Meta) {
    m.used == per
  }

  /** The guard is exact: with per a multiple of 8 the count reaches per just when the search
      would find no zero bit. */
  lemma FullExact(per: nat, m: Meta)
    requires Sound(per, m) && per % 8 == 0
    ensures Full(per, m) <==> forall z: nat :: z < Bits(per) ==> z in m.bitmap
  {
    FullSet(m.bitmap, per);
    assert Bits(per) == per;
  }

  /** Without that, the guard lets through a segment in which no bit is zero, on which the
      search never ends: slots per/8*8 .. per-1 have no bit. */
  lemma GuardNeedsWholeBytes(per: nat)
    ensures per % 8 == 0 <==>
            forall m: Meta :: Sound(per, m) && !Full(per, m) ==> exists z: nat :: z < Bits(per) && z !in m.bitmap
  {
    if per % 8 == 0 {
      forall m: Meta | Sound(per, m) && !Full(per, m)
        ensures exists z: nat :: z < Bits(per) && z !in m.bitmap
      {
        FullExact(per, m);
      }
    } else {
      var m := Identity(Bits(per));
      assert m.used < per;
      assert Sound(per, m);
      assert forall z: nat :: z < Bits(per) ==> z in m.bitmap;
    }
  }

  /** The metadata that sends block k to slot k, for every k below n. */
  ghost function Identity(n: nat): (m: Meta)
    ensures Sound(n, m) && m.used == n
    ensures m.index.Keys == m.bitmap == Range(0, n)
    ensures forall k :: k in m.index ==> m.index[k] == k
  {
    RangeSize(0, n);
    var index := map k | k in Range(0, n) :: k;
    assert index.Keys == Range(0, n);
    assert |index| == |index.Keys|;
    Meta(index, Range(0, n), 0, n)
  }

  /** The bit that mix_write_redirect_blockmeta tests and sets for a slot: the code divides by
      the number of segments, truncating, although the allocator hands out whole bit numbers. */
  function BlockmetaBit(v: Variant, segs: nat, idx: nat, slot: nat): int
    requires segs > 0
  {
    if v.wholeBit then slot else TruncDiv(slot - idx, segs)
  }

  /** mix_write_redirect_blockmeta.  The code enters the block in the index only when the bit it
      looks at was already set. */
  function Index(v: Variant, segs: nat, idx: nat, m: Meta, b: nat, slot: nat): Meta
    requires segs > idx
  {
    var bit := BlockmetaBit(v, segs, idx, slot);
    if bit >= 0 && bit !in m.bitmap then
      m.(bitmap := m.bitmap + {bit})
    else
      m.(index := m.index[b := slot], used := m.used + 1)
  }

  /** mix_bitmap_next_zero_bit on a segment that has a zero bit: the slot and the new metadata. */
  function Take(per: nat, m: Meta): (Meta, nat)
    requires Bits(per) > m.nextBit
  {
    var n := Bits(per);
    var z := FirstZero(m.bitmap, n, m.nextBit);
    (m.(bitmap := m.bitmap + {z}, nextBit := Div(z + 1, n)), z)
  }

  /** The two steps of a small write to an unbuffered block: take a slot, enter it in the index. */
  function Reserve(v: Variant, segs: nat, idx: nat, per: nat, m: Meta, b: nat): (Meta, nat)
    requires segs > idx && Bits(per) > m.nextBit
  {
    var (t, slot) := Take(per, m);
    (Index(v, segs, idx, t, b, slot), slot)
  }

  /** A segment that is not full hands out a slot that nothing occupies. */
  lemma TakeFree(per: nat, m: Meta) returns (d: nat)
    requires Sound(per, m) && per % 8 == 0 && Bits(per) > m.nextBit && !Full(per, m)
    ensures var z := Take(per, m).1;
            && IsFirstZero(m.bitmap, Bits(per), m.nextBit, z, d)
            && z < per && z !in m.bitmap
            && Take(per, m).0 == m.(bitmap := m.bitmap + {z}, nextBit := if z + 1 == per then 1 else 0)
  {
    hide FirstZero, Div, Mod, Sound;
    FullExact(per, m);
    var y: nat :| y < Bits(per) && y !in m.bitmap;
    d := FirstZeroFound(m.bitmap, Bits(per), m.nextBit, y);
    NextBitIs(FirstZero(m.bitmap, Bits(per), m.nextBit), Bits(per));
  }

  lemma NextBitIs(z: nat, n: nat)
    requires z < n
    ensures Div(z + 1, n) == if z + 1 == n then 1 else 0
  {
    assert z + 1 >= n ==> Div(z + 1 - n, n) == 0;
  }

  /** The bits between the starting point and the first zero are ones. */
  lemma PassedOver(bits: set<nat>, n: nat, from: nat, z: nat, d: nat, bit: nat)
    requires from <= bit < n && z < n && (bit < z || z < from) && IsFirstZero(bits, n, from, z, d)
    ensures bit in bits
  {
    ModOnce(from + d, n);
    ModOnce(bit, n);
    assert Around(from, bit - from, n) == bit;
  }

  /** Exactly when the bit that the code looks at is set does the block become indexed in a
      sound way; otherwise the block stays unindexed and a wrong bit is left set. */
  lemma IndexExact(v: Variant, segs: nat, idx: nat, per: nat, m: Meta, b: nat, slot: nat)
    requires idx < segs && Sound(per, m) && b !in m.index && slot < per && slot !in m.bitmap
    ensures var t := m.(bitmap := m.bitmap + {slot});
            var r := Index(v, segs, idx, t, b, slot);
            var bit := BlockmetaBit(v, segs, idx, slot);
            && (Sound(per, r) <==> bit in t.bitmap)
            && (b in r.index <==> bit in t.bitmap)
            && (Sound(per, r) ==> r == Meta(m.index[b := slot], t.bitmap, m.nextBit, m.used + 1))
            && (!Sound(per, r) ==> bit >= 0 && r == Meta(m.index, t.bitmap + {bit}, m.nextBit, m.used))
  {
    hide BlockmetaBit, Injective;
    AddKey(m.index, b, slot);
    BitInRange(v, segs, idx, slot);
    var t := m.(bitmap := m.bitmap + {slot});
    var bit := BlockmetaBit(v, segs, idx, slot);
    if bit !in t.bitmap {
      assert |m.bitmap + {slot} + {bit}| == |m.bitmap| + 2;
    }
  }

  lemma BitInRange(v: Variant, segs: nat, idx: nat, slot: nat)
    requires idx < segs
    ensures 0 <= BlockmetaBit(v, segs, idx, slot) <= slot
    ensures !v.wholeBit ==> (BlockmetaBit(v, segs, idx, slot) == 0 <==> slot < idx + segs)
  {
    if slot >= idx {
      DivBound(slot - idx, segs);
    } else {
      DivBound(idx - slot, segs);
    }
  }

  /** As C divides: slots idx+segs*k .. idx+segs*(k+1)-1 look at bit k, and so do the slots before them at bit 0. */
  lemma BlockmetaBitIs(segs: nat, idx: nat, slot: nat)
    requires idx < segs
    ensures BlockmetaBit(AS_WRITTEN, segs, idx, slot) == if slot < idx then 0 else (slot - idx) / segs
    ensures BlockmetaBit(REPAIRED, segs, idx, slot) == slot
  {
    if slot >= idx {
      DivModMeaning(slot - idx, segs);
    } else {
      DivBound(idx - slot, segs);
    }
  }

  /** The code's small write indexes its block, soundly, in all but one situation: the search
      position has been pushed to 1, slot 0 has been freed since, and one of the slots
      1 .. idx+segs-1 is free too.  Then index and count stay as they were, while two bits are set. */
  lemma ReserveExact(v: Variant, segs: nat, idx: nat, per: nat, m: Meta, b: nat)
    requires idx < segs && Sound(per, m) && per % 8 == 0 && Bits(per) > 1 >= m.nextBit
    requires b !in m.index && !Full(per, m)
    ensures var (r, slot) := Reserve(v, segs, idx, per, m, b);
            && (Sound(per, r) <==> ReserveSafe(v, segs, idx, per, m))
            && (b in r.index <==> ReserveSafe(v, segs, idx, per, m))
            && (Sound(per, r) ==> r == Meta(m.index[b := slot], m.bitmap + {slot}, r.nextBit, m.used + 1))
            && (!Sound(per, r) ==> slot != 0 && 0 !in m.bitmap && r == Meta(m.index, m.bitmap + {0, slot}, r.nextBit, m.used))
            && slot < per && slot !in m.bitmap && r.nextBit == if slot + 1 == per then 1 else 0
  {
    hide FirstZero, IsFirstZero, Sound, BlockmetaBit, Div, ReserveSafe;
    var d := TakeFree(per, m);
    var slot := Take(per, m).1;
    var n := m.(nextBit := Take(per, m).0.nextBit);
    SoundAnywhere(per, m, n);
    assert n.(bitmap := m.bitmap + {slot}) == Take(per, m).0;
    IndexExact(v, segs, idx, per, n, b, slot);
    BitIsSetExact(v, segs, idx, per, m, d);
  }

  lemma SoundAnywhere(per: nat, m: Meta, n: Meta)
    requires Sound(per, m) && n == m.(nextBit := n.nextBit)
    ensures Sound(per, n)
  {
  }

  /** After the allocation, the bit that the code looks at is set in all but that situation. */
  lemma BitIsSetExact(v: Variant, segs: nat, idx: nat, per: nat, m: Meta, d: nat)
    requires idx < segs && Bits(per) > 1 >= m.nextBit
    requires var slot := Take(per, m).1; slot < Bits(per) && slot !in m.bitmap && IsFirstZero(m.bitmap, Bits(per), m.nextBit, slot, d)
    ensures var slot := Take(per, m).1;
            && (BlockmetaBit(v, segs, idx, slot) in m.bitmap + {slot} <==> ReserveSafe(v, segs, idx, per, m))
            && (!ReserveSafe(v, segs, idx, per, m) ==> slot != 0 && BlockmetaBit(v, segs, idx, slot) == 0)
  {
    hide FirstZero, IsFirstZero, TruncDiv;
    var slot, n := Take(per, m).1, Bits(per);
    BitInRange(v, segs, idx, slot);
    var bit: nat := BlockmetaBit(v, segs, idx, slot);
    if m.nextBit <= bit < slot {
      PassedOver(m.bitmap, n, m.nextBit, slot, d, bit);
    }
    if m.nextBit == 1 && (slot == 0 || slot >= idx + segs) {
      forall o: nat | 1 <= o < idx + segs && o < n ensures o in m.bitmap {
        PassedOver(m.bitmap, n, 1, slot, d, o);
      }
    }
  }

  /** When a small write may take its slot without harm, seen from the search position and the
      bitmap before the write. */
  ghost predicate ReserveSafe(v: Variant, segs: nat, idx: nat, per: nat, m: Meta) {
    || v.wholeBit || m.nextBit == 0 || 0 in m.bitmap
    || forall o: nat :: 1 <= o < idx + segs && o < Bits(per) ==> o in m.bitmap
  }

  // ----- release -----

  /** One round of the loop of mix_clear_block on a buffered block. */
  function ClearBlock(per: nat, m: Meta, b: nat): Meta
    requires per > 0 && b in m.index
  {
    m.(index := m.index - {b}, bitmap := m.bitmap - {Mod(m.index[b], per)}, used := m.used - 1)
  }

  lemma ClearSound(per: nat, m: Meta, b: nat)
    requires per > 0 && Sound(per, m) && b in m.index
    ensures Sound(per, ClearBlock(per, m, b))
  {
    RemoveKey(m.index, b);
    assert Mod(m.index[b], per) == m.index[b];
  }

  /** The blocks off+k .. off+len-1 that mix_clear_block has dealt with from round k on. */
  function ClearRange(v: Variant, per: nat, m: Meta, off: nat, len: nat, k: nat): Meta
    requires per > 0
    decreases len - k
  {
    if k >= len then m
    else if off + k in m.index then ClearRange(v, per, ClearBlock(per, m, off + k), off, len, k + 1)
    else if v.clearAll then ClearRange(v, per, m, off, len, k + 1)
    else m
  }

  /** Among off+k .. off+len-1, every buffered block comes before every unbuffered one. */
  ghost predicate PrefixBuffered(m: Meta, off: nat, len: nat, k: nat) {
    forall b, c :: off + k <= b < c < off + len && c in m.index ==> b in m.index
  }

  /** The loop never touches a block outside off+k .. off+len-1, and keeps the metadata sound. */
  lemma {:induction false} ClearRangeSound(v: Variant, per: nat, m: Meta, off: nat, len: nat, k: nat)
    requires per > 0 && Sound(per, m)
    ensures var r := ClearRange(v, per, m, off, len, k);
            && Sound(per, r)
            && (forall b :: b in r.index ==> b in m.index && r.index[b] == m.index[b])
            && (forall b :: b in m.index && !(off + k <= b < off + len) ==> b in r.index)
    decreases len - k
  {
    hide Sound, Mod;
    if k < len {
      if off + k in m.index {
        ClearSound(per, m, off + k);
        ClearRangeSound(v, per, ClearBlock(per, m, off + k), off, len, k + 1);
      } else if v.clearAll {
        ClearRangeSound(v, per, m, off, len, k + 1);
      }
    }
  }

  /** The loop, from round k on, comes to block b and finds it buffered. */
  ghost predicate Reached(v: Variant, m: Meta, off: nat, len: nat, k: nat, b: nat) {
    && off + k <= b < off + len && b in m.index
    && (v.clearAll || forall c: nat :: off + k <= c < b ==> c in m.index)
  }

  /** Which blocks the loop takes out of the index: those of the task, as far as it gets. */
  lemma {:induction false} ClearRangeIndex(v: Variant, per: nat, m: Meta, off: nat, len: nat, k: nat)
    requires per > 0
    ensures var r := ClearRange(v, per, m, off, len, k);
            && (forall b: nat :: b in r.index <==> b in m.index && !Reached(v, m, off, len, k, b))
            && (forall b :: b in r.index ==> r.index[b] == m.index[b])
    decreases len - k
  {
    hide Mod, Reached;
    if k < len && off + k in m.index {
      var c := ClearBlock(per, m, off + k);
      ClearRangeIndex(v, per, c, off, len, k + 1);
      ReachedNext(v, m, c, off, len, k);
    } else if k < len && v.clearAll {
      ClearRangeIndex(v, per, m, off, len, k + 1);
      ReachedLater(v, m, off, len, k);
    } else {
      ReachedNone(v, m, off, len, k);
    }
  }

  /** Every block that leaves frees its slot and is counted off; nothing else changes. */
  ghost predicate FreedBy(per: nat, m: Meta, r: Meta)
    requires per > 0
  {
    && (forall b :: b in r.index ==> b in m.index && r.index[b] == m.index[b])
    && (forall o: nat :: o in r.bitmap <==> o in m.bitmap && !FreesSlot(per, m, r, o))
    && r.nextBit == m.nextBit && m.used - r.used == |m.index| - |r.index|
  }

  ghost predicate FreesSlot(per: nat, m: Meta, r: Meta, o: nat)
    requires per > 0
  {
    exists b :: b in m.index && b !in r.index && Mod(m.index[b], per) == o
  }

  lemma {:induction false} ClearRangeFrees(v: Variant, per: nat, m: Meta, off: nat, len: nat, k: nat)
    requires per > 0
    ensures FreedBy(per, m, ClearRange(v, per, m, off, len, k))
    decreases len - k
  {
    hide Mod, FreedBy;
    if k < len && off + k in m.index {
      ClearRangeFrees(v, per, ClearBlock(per, m, off + k), off, len, k + 1);
      FreedNext(per, m, ClearRange(v, per, m, off, len, k), off + k);
    } else if k < len && v.clearAll {
      ClearRangeFrees(v, per, m, off, len, k + 1);
    } else {
      FreedNone(per, m);
    }
  }

  lemma FreedNone(per: nat, m: Meta)
    requires per > 0
    ensures FreedBy(per, m, m)
  {
  }

  lemma FreedNext(per: nat, m: Meta, r: Meta, b: nat)
    requires per > 0 && b in m.index && FreedBy(per, ClearBlock(per, m, b), r)
    ensures FreedBy(per, m, r)
  {
    hide Mod;
    var c := ClearBlock(per, m, b);
    RemoveOne(m.index, b);
    forall o: nat ensures FreesSlot(per, m, r, o) <==> FreesSlot(per, c, r, o) || o == Mod(m.index[b], per) {
      if k :| k in m.index && k !in r.index && Mod(m.index[k], per) == o {
        assert k == b || (k in c.index && c.index[k] == m.index[k]);
      }
      if k :| k in c.index && k !in r.index && Mod(c.index[k], per) == o {
        assert k in m.index && c.index[k] == m.index[k];
      }
      assert b !in c.index;
    }
    hide FreesSlot;
  }

  lemma ReachedNone(v: Variant, m: Meta, off: nat, len: nat, k: nat)
    requires k >= len || (off + k !in m.index && !v.clearAll)
    ensures forall b: nat :: !Reached(v, m, off, len, k, b)
  {
    forall b: nat ensures !Reached(v, m, off, len, k, b) {
      var first := off + k;
      assert first < b && first !in m.index ==> !forall c: nat :: first <= c < b ==> c in m.index;
    }
  }

  lemma ReachedNext(v: Variant, m: Meta, c: Meta, off: nat, len: nat, k: nat)
    requires k < len && off + k in m.index && c.index == m.index - {off + k}
    ensures forall b: nat :: Reached(v, m, off, len, k, b) <==> b == off + k || Reached(v, c, off, len, k + 1, b)
  {
    forall b: nat ensures Reached(v, m, off, len, k, b) <==> b == off + k || Reached(v, c, off, len, k + 1, b) {
      assert forall a: nat :: off + k < a ==> (a in m.index <==> a in c.index);
      if Reached(v, c, off, len, k + 1, b) && !v.clearAll {
        forall a: nat | off + k <= a < b ensures a in m.index {
          if a > off + k { assert a in c.index; }
        }
      }
      if Reached(v, m, off, len, k, b) && b != off + k && !v.clearAll {
        forall a: nat | off + (k + 1) <= a < b ensures a in c.index {
          assert a in m.index;
        }
      }
    }
  }

  lemma ReachedLater(v: Variant, m: Meta, off: nat, len: nat, k: nat)
    requires k < len && off + k !in m.index && v.clearAll
    ensures forall b: nat :: Reached(v, m, off, len, k, b) <==> Reached(v, m, off, len, k + 1, b)
  {
  }

  /** None of the blocks off+k .. off+len-1 is buffered. */
  ghost predicate NoneBuffered(m: Meta, off: nat, len: nat, k: nat) {
    forall b :: off + k <= b < off + len ==> b !in m.index
  }

  /** The loop of mix_clear_block leaves no block of the task buffered exactly when the buffered
      ones come first. */
  lemma {:induction false} ClearRangeExact(v: Variant, per: nat, m: Meta, off: nat, len: nat, k: nat)
    requires per > 0 && Sound(per, m)
    ensures NoneBuffered(ClearRange(v, per, m, off, len, k), off, len, k)
            <==> v.clearAll || PrefixBuffered(m, off, len, k)
    decreases len - k
  {
    if k < len && off + k in m.index {
      var c := ClearBlock(per, m, off + k);
      ClearSound(per, m, off + k);
      ClearRangeSound(v, per, c, off, len, k + 1);
      ClearRangeExact(v, per, c, off, len, k + 1);
      PrefixAfterFirst(m, c, off, len, k);
      NoneStep(ClearRange(v, per, c, off, len, k + 1), off, len, k);
    } else if k < len && v.clearAll {
      ClearRangeSound(v, per, m, off, len, k + 1);
      ClearRangeExact(v, per, m, off, len, k + 1);
      NoneStep(ClearRange(v, per, m, off, len, k + 1), off, len, k);
    } else if k < len {
      PrefixWithoutFirst(m, off, len, k);
    }
  }

  lemma PrefixWithoutFirst(m: Meta, off: nat, len: nat, k: nat)
    requires k < len && off + k !in m.index
    ensures PrefixBuffered(m, off, len, k) <==> NoneBuffered(m, off, len, k)
  {
    if PrefixBuffered(m, off, len, k) {
      forall b: nat | off + k <= b < off + len ensures b !in m.index {
        assert off + k < b && b in m.index ==> off + k in m.index;
      }
    }
  }

  lemma NoneStep(r: Meta, off: nat, len: nat, k: nat)
    requires k < len && off + k !in r.index
    ensures NoneBuffered(r, off, len, k) <==> NoneBuffered(r, off, len, k + 1)
  {
  }

  lemma PrefixAfterFirst(m: Meta, c: Meta, off: nat, len: nat, k: nat)
    requires off + k in m.index && c.index == m.index - {off + k}
    ensures PrefixBuffered(m, off, len, k) <==> PrefixBuffered(c, off, len, k + 1)
  {
    assert forall b :: b in c.index <==> b in m.index && b != off + k;
    if PrefixBuffered(c, off, len, k + 1) {
      forall a, b | off + k <= a < b < off + len && b in m.index ensures a in m.index {
        assert a != off + k ==> b in c.index && a in c.index;
      }
    }
  }

  // ----- headers and recovery -----

  /** The valid headers describe exactly the given block-to-slot map. */
  ghost predicate Match(headers: seq<Header>, live: map<nat, nat>) {
    && (forall b :: b in live ==> live[b] < |headers| && headers[live[b]] == Header(true, b))
    && (forall o :: 0 <= o < |headers| && headers[o].valid ==> headers[o].block in live && live[headers[o].block] == o)
  }

  lemma MatchUnique(headers: seq<Header>, l: map<nat, nat>, m: map<nat, nat>)
    requires Match(headers, l) && Match(headers, m)
    ensures l == m
  {
    forall b | b in l ensures b in m && m[b] == l[b] {
      assert headers[l[b]].valid;
    }
    forall b | b in m ensures b in l {
      assert headers[m[b]].valid;
    }
  }

  lemma MatchInjective(headers: seq<Header>, live: map<nat, nat>)
    requires Match(headers, live)
    ensures Injective(live)
  {
    forall k, l | k in live && l in live && live[k] == live[l] ensures k == l {
      assert headers[live[k]].block == k;
    }
  }

  /** mix_hash_put and its two companions, for the header of slot o. */
  function RebuildSlot(m: Meta, h: Header, o: nat): Meta {
    if h.valid then Meta(m.index[h.block := o], m.bitmap + {o}, m.nextBit, m.used + 1) else m
  }

  /** mix_buffer_rebuild on the first n headers, starting from m. */
  function Rebuild(m: Meta, headers: seq<Header>, n: nat): Meta
    requires n <= |headers|
  {
    if n == 0 then m else RebuildSlot(Rebuild(m, headers, n - 1), headers[n - 1], n - 1)
  }

  /** Part of a block-to-slot map that lies below slot n. */
  ghost function Below(live: map<nat, nat>, n: nat): map<nat, nat> {
    map b | b in live && live[b] < n :: live[b]
  }

  lemma {:induction false} RebuildPart(headers: seq<Header>, live: map<nat, nat>, n: nat)
    requires Match(headers, live) && n <= |headers|
    ensures var r := Rebuild(EMPTY, headers, n);
            Sound(n, r) && r.index == Below(live, n) && r.nextBit == 0
  {
    if n == 0 {
      assert Below(live, 0) == map[];
    } else {
      RebuildPart(headers, live, n - 1);
      BelowStep(headers, live, n - 1);
      RebuildSlotSound(Rebuild(EMPTY, headers, n - 1), headers[n - 1], n - 1);
    }
  }

  lemma RebuildSlotSound(m: Meta, h: Header, o: nat)
    requires Sound(o, m) && (h.valid ==> h.block !in m.index)
    ensures Sound(o + 1, RebuildSlot(m, h, o))
  {
    if h.valid {
      AddKey(m.index, h.block, o);
      assert o !in m.bitmap;
    }
  }

  lemma BelowStep(headers: seq<Header>, live: map<nat, nat>, n: nat)
    requires Match(headers, live) && n < |headers|
    ensures var h := headers[n];
            && Below(live, n + 1) == (if h.valid then Below(live, n)[h.block := n] else Below(live, n))
            && (h.valid ==> h.block !in Below(live, n))
  {
    MatchInjective(headers, live);
    forall b | b in live && live[b] == n ensures headers[n] == Header(true, b) {}
  }

  /** Rebuild round trip: from an empty index, the headers of a segment give back the index, the
      bitmap and the count they describe. */
  lemma RebuildRoundTrip(headers: seq<Header>, m: Meta)
    requires Match(headers, m.index) && Sound(|headers|, m)
    ensures Rebuild(EMPTY, headers, |headers|) == m.(nextBit := 0)
  {
    RebuildPart(headers, m.index, |headers|);
    assert Below(m.index, |headers|) == m.index;
    SoundBitmap(|headers|, m);
    SoundBitmap(|headers|, Rebuild(EMPTY, headers, |headers|));
  }

  /** Clearing the header of a block's slot takes that block, and no other, out of the headers. */
  lemma MatchCleared(headers: seq<Header>, live: map<nat, nat>, b: nat)
    requires Match(headers, live) && b in live
    ensures live[b] < |headers| && Match(headers[live[b] := headers[live[b]].(valid := false)], live - {b})
  {
    var o := live[b];
    var after := headers[o := headers[o].(valid := false)];
    forall p | 0 <= p < |after| && after[p].valid ensures after[p].block in live - {b} && live[after[p].block] == p {
      assert headers[p].valid && p != o;
    }
  }

  /** What mix_bitmap_clear leaves: it clears whole bytes. */
  ghost function Wiped(per: nat, m: Meta): Meta {
    m.(bitmap := (set o | o in m.bitmap && o >= Bits(per)), nextBit := 0)
  }

  /** A drained segment is as good as new exactly when no bit lies past the last whole byte. */
  lemma WipedExact(per: nat, m: Meta)
    requires Sound(per, m)
    ensures Wiped(per, Meta(map[], m.bitmap, m.nextBit, m.used - |m.index|)) == EMPTY <==> forall o :: o in m.bitmap ==> o < Bits(per)
  {
    var w := set o | o in m.bitmap && o >= Bits(per);
    if w == {} {
      forall o | o in m.bitmap ensures o < Bits(per) { assert o !in w; }
    }
    assert Wiped(per, Meta(map[], m.bitmap, m.nextBit, m.used - |m.index|)) == Meta(map[], w, 0, 0);
  }

  /** What mix_segment_clear leaves of the headers. */
  function Invalidated(headers: seq<Header>): (w: seq<Header>)
    ensures |w| == |headers|
  {
    seq(|headers|, o requires 0 <= o < |headers| => headers[o].(valid := false))
  }

  /** mix_rebuild clears every header before the workers rebuild, so it restores what was there
      exactly when there was nothing. */
  lemma WipeThenRebuildExact(headers: seq<Header>, m: Meta)
    requires Match(headers, m.index) && Sound(|headers|, m)
    ensures Rebuild(EMPTY, Invalidated(headers), |headers|) == EMPTY
    ensures Rebuild(EMPTY, Invalidated(headers), |headers|) == m.(nextBit := 0) <==> m.index == map[]
  {
    RebuildRoundTrip(Invalidated(headers), EMPTY);
  }

  /** Which blocks and slots a rebuild takes in. */
  lemma {:induction false} RebuildTakes(headers: seq<Header>, n: nat)
    requires n <= |headers|
    ensures var r := Rebuild(EMPTY, headers, n);
            && (forall b :: b in r.index <==> exists o :: 0 <= o < n && headers[o] == Header(true, b))
            && (forall o :: o in r.bitmap <==> 0 <= o < n && headers[o].valid)
  {
    if n > 0 {
      RebuildTakes(headers, n - 1);
      var q, r, h := Rebuild(EMPTY, headers, n - 1), Rebuild(EMPTY, headers, n), headers[n - 1];
      forall b ensures b in r.index <==> exists o :: 0 <= o < n && headers[o] == Header(true, b) {
        if o :| 0 <= o < n && headers[o] == Header(true, b) {
          assert o < n - 1 ==> b in q.index;
        }
        if b in r.index {
          if h == Header(true, b) { assert headers[n - 1] == Header(true, b); } else { assert b in q.index; }
        }
      }
    }
  }

  /** mix_buffer_write stores a header word by word, the status before the block number.  When power
      fails between the two words, the rebuild finds the state before or after the write if and only
      if the slot's old header already had the block's number. */
  lemma TornHeaderExact(headers: seq<Header>, live: map<nat, nat>, o: nat, b: nat)
    requires Match(headers, live) && o < |headers| && !headers[o].valid && b !in live
    ensures var n := |headers|;
            var torn := Rebuild(EMPTY, headers[o := headers[o].(valid := true)], n);
            torn == Rebuild(EMPTY, headers, n) || torn == Rebuild(EMPTY, headers[o := Header(true, b)], n) <==> headers[o].block == b
  {
    var n, k := |headers|, headers[o].block;
    var whole, part := headers[o := Header(true, b)], headers[o := headers[o].(valid := true)];
    RebuildTakes(headers, n);
    RebuildTakes(whole, n);
    RebuildTakes(part, n);
    hide Rebuild, Match;
    assert o in Rebuild(EMPTY, part, n).bitmap && o !in Rebuild(EMPTY, headers, n).bitmap;
    if k != b {
      assert whole[o] == Header(true, b) && b in Rebuild(EMPTY, whole, n).index;
      NotDescribed(headers, live, b);
      assert b !in Rebuild(EMPTY, part, n).index;
    }
  }

  lemma NotDescribed(headers: seq<Header>, live: map<nat, nat>, b: nat)
    requires Match(headers, live) && b !in live
    ensures forall o :: 0 <= o < |headers| ==> headers[o] != Header(true, b)
  {
  }
}
