/** One segment's metadata as mix_meta.c keeps it -- hash, bitmap and used count, updated in place
    -- proved to behave as the values of module Metadata, with the code's expressions as written. */
module SegmentMeta {
  import opened Common
  import opened Chains
  import opened ChainedHash
  import opened Bitmap
  import opened Metadata

  class Segment {
    const segs: nat
    const idx: nat
    const per: nat
    const hash: MixHash
    const bitmap: MixBitmap
    var used: int
    // for the proofs: the map that the hash stands for
    ghost var index: map<nat, nat>

    ghost predicate Valid()
      reads this, hash, hash.repr, bitmap, bitmap.bits
    {
      && idx < segs && per > 0
      && hash.Valid() && hash.Counted() && Unique(hash.Table()) && Placed(hash.Table(), hash.h) && Stands(hash.Table(), hash.h, index)
      && bitmap.Valid() && bitmap.bytes == per / 8 && bitmap.bits.Length == per
      && this !in hash.repr && bitmap !in hash.repr && bitmap.bits !in hash.repr
    }

    /** Everything the segment's metadata consists of. */
    ghost function Repr(): set<object>
      reads this, hash
    {
      hash.repr + {this, bitmap, bitmap.bits}
    }

    ghost function Abs(): Meta
      reads this, bitmap, bitmap.bits
    {
      Meta(index, bitmap.Set(), bitmap.nextBit, used)
    }

    constructor (segs: nat, idx: nat, per: nat, buckets: nat, h: nat -> nat)
      requires idx < segs && per > 0 && buckets > 0 && forall k: nat :: h(k) < buckets
      ensures Valid() && Abs() == EMPTY && this.segs == segs && this.idx == idx && this.per == per
      ensures fresh(hash.repr) && fresh(bitmap) && fresh(bitmap.bits)
    {
      this.segs, this.idx, this.per := segs, idx, per;
      hash := new MixHash(buckets, h);
      bitmap := new MixBitmap(per);
      used := 0;
      index := map[];
    }

    /** mix_buffer_block_test. */
    method Test(b: nat) returns (r: Option<nat>)
      requires Valid()
      ensures r == BlockTest(per, Abs(), b)
      ensures r.Some? <==> b in Abs().index && Abs().index[b] % per in Abs().bitmap
      ensures r.Some? ==> r.value == Abs().index[b]
    {
      if b in index { DivModMeaning(index[b], per); }
      r := hash.Get(b);
      if r.Some? {
        var one := bitmap.TestBit(Mod(r.value, per));
        if !one { r := None; }
      }
    }

    /** mix_get_next_free_block.  Past its guard the code searches for a zero bit without end; for
        sound metadata and per divisible by 8 there is one (Metadata.FullExact). */
    method NextFree() returns (r: Option<nat>)
      requires Valid() && (Full(per, Abs()) || exists z: nat :: z < Bits(per) && z !in Abs().bitmap)
      modifies bitmap`nextBit, bitmap.bits
      ensures Valid()
      ensures if Full(per, old(Abs())) then r == None && Abs() == old(Abs())
              else old(Abs()).nextBit < Bits(per) && r == Some(Take(per, old(Abs())).1) && Abs() == Take(per, old(Abs())).0
    {
      if used == per { return None; }
      var z: nat := bitmap.NextZeroBit();
      return Some(z);
    }

    /** mix_write_redirect_blockmeta, for a block that is not in the index. */
    method WriteBlockmeta(b: nat, slot: nat)
      requires Valid() && b !in Abs().index && slot < per
      modifies this`used, this`index, hash.repr, bitmap.bits
      ensures Valid() && fresh(hash.repr - old(hash.repr))
      ensures Abs() == Index(AS_WRITTEN, segs, idx, old(Abs()), b, slot)
    {
      BitInRange(AS_WRITTEN, segs, idx, slot);
      hide Stands, Unique, Placed, Ones;
      var bit: nat := TruncDiv(slot - idx, segs);
      var was := bitmap.SetBit(bit);
      if was {
        assert bitmap.Set() == old(bitmap.Set());
        Enter(b, slot);
      }
    }

    /** mix_hash_put and the count. */
    method Enter(b: nat, slot: nat)
      requires Valid() && b !in index
      modifies this`used, this`index, hash.repr
      ensures Valid() && fresh(hash.repr - old(hash.repr))
      ensures var m := old(Abs()); Abs() == m.(index := m.index[b := slot], used := m.used + 1)
    {
      ghost var t := hash.Table();
      PutStands(t, hash.h, index, b, slot);
      UniqueAfterPut(t, hash.h, index, b, slot);
      hide Stands, Unique, Placed;
      hash.Put(b, slot);
      index := index[b := slot];
      used := used + 1;
    }

    /** mix_hash_delete of a buffered block, and the count. */
    method Leave(b: nat)
      requires Valid() && b in index
      modifies this`used, this`index, hash.repr
      ensures Valid() && hash.repr == old(hash.repr)
      ensures var m := old(Abs()); Abs() == m.(index := m.index - {b}, used := m.used - 1)
    {
      hide Stands, Unique, Placed, Drop, Find, Count;
      LeaveTable(hash.Table(), hash.h, index, b);
      hash.Delete(b);
      index := index - {b};
      used := used - 1;
    }

    /** The three steps that free the slot of a buffered block. */
    method Release(b: nat, value: nat)
      requires Valid() && b in index && index[b] == value
      modifies this`used, this`index, hash.repr, bitmap.bits
      ensures Valid() && hash.repr == old(hash.repr)
      ensures Abs() == ClearBlock(per, old(Abs()), b)
    {
      hide Stands, Unique, Placed, Ones;
      Leave(b);
      var bit := Mod(value, per);
      var was := bitmap.ClearBit(bit);
    }

    /** mix_hash_get, in terms of the map. */
    method Lookup(b: nat) returns (r: Option<nat>)
      requires Valid()
      ensures r == if b in index then Some(index[b]) else None
    {
      r := hash.Get(b);
    }

    /** mix_clear_block, which returns at the first block that is not buffered; headers is the
        NVM's header area, in which this segment's slots start at base. */
    method ClearBlocks(off: nat, len: nat, headers: array<Header>, base: nat)
      requires Valid() && headers !in hash.repr && headers as object != bitmap.bits && per > 0 && base + per <= headers.Length
      modifies this`used, this`index, hash.repr, bitmap.bits, headers
      ensures Valid() && hash.repr == old(hash.repr)
      ensures Abs() == ClearRange(AS_WRITTEN, per, old(Abs()), off, len, 0)
      ensures HeadersLeft(per, base, old(Abs()).index, Abs().index, old(headers[..]), headers[..])
      ensures forall b :: b in old(Abs()).index && b !in Abs().index ==>
                var a := base + Mod(old(Abs()).index[b], per); headers[a] == old(headers[..])[a].(valid := false)
      ensures forall o :: 0 <= o < headers.Length && headers[o] != old(headers[..])[o] ==>
                exists b :: b in old(Abs()).index && b !in Abs().index && o == base + Mod(old(Abs()).index[b], per)
    {
      hide *;
      ghost var m, hs := Abs(), headers[..];
      ClearLoop(off, len, headers, base, m, hs);
      LeftMeans(per, base, m.index, Abs().index, hs, headers[..]);
    }

    /** The loop of mix_clear_block. */
    method ClearLoop(off: nat, len: nat, headers: array<Header>, base: nat, ghost m: Meta, ghost hs: seq<Header>)
      requires Valid() && headers !in hash.repr && headers as object != bitmap.bits && per > 0 && base + per <= headers.Length
      requires Abs() == m && headers[..] == hs
      modifies this`used, this`index, hash.repr, bitmap.bits, headers
      ensures Valid() && hash.repr == old(hash.repr)
      ensures Abs() == ClearRange(AS_WRITTEN, per, m, off, len, 0)
      ensures HeadersLeft(per, base, m.index, Abs().index, hs, headers[..])
    {
      hide Stands, Unique, Placed, Ones, Valid, HeadersLeft;
      var i := 0;
      NoneLeft(per, base, m.index, hs);
      while i < len
        invariant i <= len && Valid() && hash.repr == old(hash.repr)
        invariant ClearRange(AS_WRITTEN, per, Abs(), off, len, i) == ClearRange(AS_WRITTEN, per, m, off, len, 0)
        invariant Part(Abs().index, m.index)
        invariant HeadersLeft(per, base, m.index, Abs().index, hs, headers[..])
      {
        var value := Lookup(off + i);
        if value.None? { return; }
        ghost var n, ks := Abs(), headers[..];
        Release(off + i, value.value);
        var a := base + Mod(value.value, per);
        headers[a] := headers[a].(valid := false);
        assert headers[..] == ks[a := ks[a].(valid := false)];
        OneLeft(per, base, m.index, n.index, off + i, hs, ks);
        i := i + 1;
      }
    }

    /** mix_buffer_rebuild, into empty metadata, from headers whose valid ones name distinct blocks:
        some map live is what they describe. */
    method RebuildFrom(headers: array<Header>, base: nat, ghost live: map<nat, nat>)
      requires Valid() && Abs() == EMPTY && headers !in hash.repr && headers as object != bitmap.bits
      requires base + per <= headers.Length && Match(headers[base..base + per], live)
      modifies this`used, this`index, hash.repr, bitmap.bits
      ensures Valid() && fresh(hash.repr - old(hash.repr))
      ensures Abs() == Rebuild(EMPTY, headers[base..base + per], per)
      ensures Abs().index == live && Sound(per, Abs())
    {
      hide Stands, Unique, Placed, Ones, Valid, Rebuild, Match, Sound;
      ghost var hs := headers[base..base + per];
      RebuildNone(hs);
      var off := 0;
      while off < per
        invariant off <= per && Valid() && fresh(hash.repr - old(hash.repr)) && headers !in hash.repr
        invariant headers[base..base + per] == hs && Abs() == Rebuild(EMPTY, hs, off)
      {
        var h := headers[base + off];
        assert h == hs[off];
        RebuildOne(hs, live, off);
        if h.valid {
          var was := Mark(off);
          Enter(h.block, off);
        }
        off := off + 1;
      }
      RebuildPart(hs, live, per);
      assert Below(live, per) == live by { BelowAll(hs, live); }
    }

    /** mix_hash_get_entry_by_idx: the head of a bucket leaves the index; the count follows later. */
    method PopEntry(i: nat) returns (r: Option<Entry>)
      requires Valid() && i < |hash.buckets|
      modifies this`index, hash.repr
      ensures Valid() && hash.repr == old(hash.repr)
      ensures var l, m := old(hash.Table())[i], old(Abs());
              if l == [] then r == None && hash.Table() == old(hash.Table()) && Abs() == m
              else r == Some(l[0]) && hash.Table() == old(hash.Table())[i := l[1..]] && Abs() == m.(index := m.index - {l[0].key})
    {
      ghost var t := hash.Table();
      PopTable(t, hash.h, index, i);
      hide Stands, Unique, Placed, Ones, Find, Drop, Count;
      r := hash.PopAt(i);
      if r.Some? {
        index := index - {r.value.key};
      }
      assert hash.Valid() && hash.Counted() && bitmap.Valid();
      assert Stands(hash.Table(), hash.h, index) && Unique(hash.Table()) && Placed(hash.Table(), hash.h);
      assert Valid();
    }

    /** used_block_num--. */
    method Uncount()
      requires Valid()
      modifies this`used
      ensures Valid() && hash.Table() == old(hash.Table())
      ensures Abs() == old(Abs()).(used := old(Abs()).used - 1)
    {
      hide Stands, Unique, Placed, Ones;
      used := used - 1;
    }

    /** mix_bitmap_clear of the segment's bitmap. */
    method WipeBitmap()
      requires Valid()
      modifies bitmap`nextBit, bitmap.bits
      ensures Valid() && hash.Table() == old(hash.Table())
      ensures Abs() == Wiped(per, old(Abs()))
    {
      hide Stands, Unique, Placed, Ones;
      bitmap.Clear();
    }

    method Mark(bit: nat) returns (was: bool)
      requires Valid() && bit < per
      modifies bitmap.bits
      ensures Valid() && Abs() == old(Abs()).(bitmap := old(Abs()).bitmap + {bit})
    {
      hide Stands, Unique, Placed, Ones;
      was := bitmap.SetBit(bit);
    }
  }

  lemma RebuildNone(hs: seq<Header>)
    ensures Rebuild(EMPTY, hs, 0) == EMPTY
  {
  }

  /** One more header: its block is not in the index yet. */
  lemma RebuildOne(hs: seq<Header>, live: map<nat, nat>, o: nat)
    requires Match(hs, live) && o < |hs|
    ensures var m := Rebuild(EMPTY, hs, o);
            var r := Rebuild(EMPTY, hs, o + 1);
            if hs[o].valid then hs[o].block !in m.index && r == Meta(m.index[hs[o].block := o], m.bitmap + {o}, m.nextBit, m.used + 1) else r == m
  {
    RebuildPart(hs, live, o);
    BelowStep(hs, live, o);
  }

  lemma BelowAll(hs: seq<Header>, live: map<nat, nat>)
    requires Match(hs, live)
    ensures Below(live, |hs|) == live
  {
  }

  lemma PopTable(t: Table, h: nat -> nat, m: map<nat, nat>, i: nat)
    requires Stands(t, h, m) && Unique(t) && Placed(t, h) && i < |t|
    ensures t[i] != [] ==> var u := t[i := t[i][1..]]; Stands(u, h, m - {t[i][0].key}) && Unique(u) && Placed(u, h)
  {
    if t[i] != [] {
      var key := t[i][0].key;
      assert h(key) == i && Find(t[i], key).Some? && Count(t[i], key) <= 1;
      PopIsDrop(t[i]);
      DeleteStandsExact(t, h, m, key);
      UniqueAfterDrop(t, h, i, key);
    }
  }

  lemma LeaveTable(t: Table, h: nat -> nat, m: map<nat, nat>, b: nat)
    requires Stands(t, h, m) && Unique(t) && Placed(t, h) && b in m
    ensures h(b) < |t| && Holds(t[h(b)], b)
    ensures var u := t[h(b) := Drop(t[h(b)], b)];
            Stands(u, h, m - {b}) && Unique(u) && Placed(u, h)
  {
    assert h(b) < |t| && Find(t[h(b)], b).Some?;
    assert Count(t[h(b)], b) <= 1;
    DeleteStandsExact(t, h, m, b);
    UniqueAfterDrop(t, h, h(b), b);
  }

  // ----- the headers of blocks that leave the index -----

  /** Some of the entries of before. */
  predicate Part(after: map<nat, nat>, before: map<nat, nat>) {
    forall b :: b in after ==> b in before && after[b] == before[b]
  }

  /** Header o is that of the slot of a block that has left the index. */
  ghost predicate SlotLeft(per: nat, base: nat, before: map<nat, nat>, after: map<nat, nat>, o: nat)
    requires per > 0
  {
    exists b :: b in before && b !in after && base + Mod(before[b], per) == o
  }

  /** The headers of the blocks that have left the index are invalid; all others, in this segment and
      elsewhere, are what they were. */
  ghost predicate HeadersLeft(per: nat, base: nat, before: map<nat, nat>, after: map<nat, nat>, was: seq<Header>, now: seq<Header>)
    requires per > 0
  {
    && |now| == |was|
    && forall o: nat :: o < |was| ==> now[o] == if SlotLeft(per, base, before, after, o) then was[o].(valid := false) else was[o]
  }

  lemma LeftMeans(per: nat, base: nat, before: map<nat, nat>, after: map<nat, nat>, was: seq<Header>, now: seq<Header>)
    requires per > 0 && base + per <= |was| && HeadersLeft(per, base, before, after, was, now)
    ensures |now| == |was|
    ensures forall b :: b in before && b !in after ==> var a := base + Mod(before[b], per); now[a] == was[a].(valid := false)
    ensures forall o :: 0 <= o < |was| && now[o] != was[o] ==> exists b :: b in before && b !in after && o == base + Mod(before[b], per)
  {
    hide Mod;
    forall b | b in before && b !in after ensures var a := base + Mod(before[b], per); now[a] == was[a].(valid := false) {
      LeftOne(per, base, before, after, was, now, b);
    }
    forall o | 0 <= o < |was| && now[o] != was[o] ensures exists b :: b in before && b !in after && o == base + Mod(before[b], per) {
      assert SlotLeft(per, base, before, after, o);
    }
  }

  lemma LeftOne(per: nat, base: nat, before: map<nat, nat>, after: map<nat, nat>, was: seq<Header>, now: seq<Header>, b: nat)
    requires per > 0 && base + per <= |was| && HeadersLeft(per, base, before, after, was, now) && b in before && b !in after
    ensures var a := base + Mod(before[b], per); a < |now| == |was| && now[a] == was[a].(valid := false)
  {
    hide Mod;
    assert SlotLeft(per, base, before, after, base + Mod(before[b], per));
  }

  lemma NoneLeft(per: nat, base: nat, m: map<nat, nat>, hs: seq<Header>)
    requires per > 0
    ensures HeadersLeft(per, base, m, m, hs, hs)
  {
  }

  lemma OneLeft(per: nat, base: nat, before: map<nat, nat>, after: map<nat, nat>, b: nat, was: seq<Header>, now: seq<Header>)
    requires per > 0 && base + per <= |was| && Part(after, before) && b in after && HeadersLeft(per, base, before, after, was, now)
    ensures var a := base + Mod(after[b], per);
            HeadersLeft(per, base, before, after - {b}, was, now[a := now[a].(valid := false)])
  {
    hide Mod;
    var a := base + Mod(after[b], per);
    forall o: nat ensures SlotLeft(per, base, before, after - {b}, o) <==> SlotLeft(per, base, before, after, o) || o == a {
      if k :| k in before && k !in after - {b} && base + Mod(before[k], per) == o {
        assert k == b || k !in after;
      }
      if k :| k in before && k !in after && base + Mod(before[k], per) == o {
        assert k !in after - {b};
      }
      assert b in before && b !in after - {b};
    }
    hide SlotLeft;
  }

  /** A block that stays has a slot of its own; one that leaves has none left. */
  lemma OwnSlots(per: nat, base: nat, m: Meta, after: map<nat, nat>, b: nat)
    requires per > 0 && Sound(per, m) && Part(after, m.index) && b in m.index
    ensures m.index[b] < per
    ensures SlotLeft(per, base, m.index, after, base + m.index[b]) <==> b !in after
  {
    forall k | k in m.index ensures Mod(m.index[k], per) == m.index[k] < per {}
    hide Mod;
    if b !in after { assert base + Mod(m.index[b], per) == base + m.index[b]; }
  }

  /** Where blocks leave the index and their headers are cleared, and no others, the segment's headers
      describe what remains. */
  lemma ClearKeepsMatch(per: nat, base: nat, m: Meta, after: map<nat, nat>, was: seq<Header>, now: seq<Header>)
    requires per > 0 && Sound(per, m) && base + per <= |was| && Match(was[base..base + per], m.index)
    requires Part(after, m.index) && HeadersLeft(per, base, m.index, after, was, now)
    ensures Match(now[base..base + per], after)
  {
    hide Sound, SlotLeft;
    var hs, ks := was[base..base + per], now[base..base + per];
    forall b | b in after ensures after[b] < |ks| && ks[after[b]] == Header(true, b) {
      OwnSlots(per, base, m, after, b);
      assert hs[m.index[b]] == Header(true, b);
    }
    forall o | 0 <= o < |ks| && ks[o].valid ensures ks[o].block in after && after[ks[o].block] == o {
      assert now[base + o] == was[base + o] == hs[o];
      OwnSlots(per, base, m, after, hs[o].block);
    }
  }
}
