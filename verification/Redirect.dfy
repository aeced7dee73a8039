/** What redirect_read and redirect_write of src/nvm_worker.c compute, on values: the maximal runs of
    misses that a read posts to the SSD, the hits it copies, and the slot a small write takes. */
module Redirect {
  import opened Common
  import opened Metadata

  /** A task posted to the SSD queue; at is where in the caller's buffer its data belongs. */
  datatype Task =
    | WriteTask(off: nat, data: seq<Data>)
    | ReadTask(off: nat, len: nat, at: nat)

  // ----- the posted reads -----

  predicate Hit(per: nat, m: Meta, b: nat)
    requires per > 0
  {
    BlockTest(per, m, b).Some?
  }

  /** t reads a maximal run of misses of the request off .. off+len-1 to its place in the buffer. */
  ghost predicate MaximalRun(per: nat, m: Meta, off: nat, len: nat, at: nat, t: Task)
    requires per > 0
  {
    && t.ReadTask? && t.len > 0
    && off <= t.off && t.off + t.len <= off + len
    && t.at == at + (t.off - off)
    && (forall b: nat :: t.off <= b < t.off + t.len ==> !Hit(per, m, b))
    && (t.off == off || Hit(per, m, t.off - 1))
    && (t.off + t.len == off + len || Hit(per, m, t.off + t.len))
  }

  predicate Reads(t: Task, b: nat) {
    t.ReadTask? && t.off <= b < t.off + t.len
  }

  /** The posted reads are the maximal runs of misses among the first n blocks, in order, each once. */
  ghost predicate Coalesced(per: nat, m: Meta, off: nat, len: nat, at: nat, n: nat, ps: seq<Task>)
    requires per > 0
  {
    && (forall j :: 0 <= j < |ps| ==> MaximalRun(per, m, off, len, at, ps[j]))
    && (forall j, k :: 0 <= j < k < |ps| ==> ps[j].off + ps[j].len < ps[k].off)
    && (forall b: nat :: off <= b < off + n && !Hit(per, m, b) ==> exists j :: 0 <= j < |ps| && Reads(ps[j], b))
    && forall j :: 0 <= j < |ps| ==> ps[j].off + ps[j].len <= off + n
  }

  /** What mix_read_from_buffer copies for a hit. */
  ghost function Buffered(per: nat, m: Meta, base: nat, slots: seq<Data>, b: nat): Data
    requires per > 0
  {
    match BlockTest(per, m, b)
    case Some(o) => if base + o < |slots| then slots[base + o] else Data([])
    case None => Data([])
  }

  /** now is before with the hits among blocks off .. off+n-1 copied to their places from at on. */
  ghost predicate Delivered(per: nat, m: Meta, base: nat, slots: seq<Data>, off: nat, at: nat, n: nat, before: seq<Data>, now: seq<Data>)
    requires per > 0
  {
    && |now| == |before|
    && forall k: nat :: k < |now| ==>
         now[k] == if at <= k < at + n && Hit(per, m, off + k - at) then Buffered(per, m, base, slots, off + k - at) else before[k]
  }

  lemma DeliverNext(per: nat, m: Meta, base: nat, slots: seq<Data>, off: nat, at: nat, n: nat, before: seq<Data>, now: seq<Data>)
    requires per > 0 && Delivered(per, m, base, slots, off, at, n, before, now) && at + n < |now|
    ensures if Hit(per, m, off + n) then Delivered(per, m, base, slots, off, at, n + 1, before, now[at + n := Buffered(per, m, base, slots, off + n)])
            else Delivered(per, m, base, slots, off, at, n + 1, before, now)
  {
  }

  function CountHits(per: nat, m: Meta, off: nat, n: nat): nat
    requires per > 0
  {
    if n == 0 then 0 else CountHits(per, m, off, n - 1) + if Hit(per, m, off + n - 1) then 1 else 0
  }

  /** What the test of block off+n says about it, and about the buffer once it is handled. */
  lemma TestedSlot(per: nat, m: Meta, base: nat, slots: seq<Data>, off: nat, at: nat, n: nat, before: seq<Data>, now: seq<Data>, r: Option<nat>)
    requires per > 0 && r == BlockTest(per, m, off + n) && Delivered(per, m, base, slots, off, at, n, before, now) && at + n < |now|
    requires base + per <= |slots| && forall b :: b in m.index ==> m.index[b] < per
    ensures Hit(per, m, off + n) == r.Some?
    ensures CountHits(per, m, off, n + 1) == CountHits(per, m, off, n) + if r.Some? then 1 else 0
    ensures r.None? ==> Delivered(per, m, base, slots, off, at, n + 1, before, now)
    ensures r.Some? ==> r.value < per && Delivered(per, m, base, slots, off, at, n + 1, before, now[at + n := slots[base + r.value]])
  {
    DeliverNext(per, m, base, slots, off, at, n, before, now);
  }

  /** Posting the run of misses l blocks long that ends before block off+n. */
  lemma RunPosted(per: nat, m: Meta, off: nat, len: nat, at: nat, n: nat, l: nat, ps: seq<Task>)
    requires per > 0 && 0 < l <= n <= len && Coalesced(per, m, off, len, at, n - l, ps)
    requires MaximalRun(per, m, off, len, at, ReadTask(off + n - l, l, at + n - l))
    ensures Coalesced(per, m, off, len, at, n, ps + [ReadTask(off + n - l, l, at + n - l)])
  {
    var t := ReadTask(off + n - l, l, at + n - l);
    var qs := ps + [t];
    forall b: nat | off <= b < off + n && !Hit(per, m, b) ensures exists j :: 0 <= j < |qs| && Reads(qs[j], b) {
      if b < off + n - l {
        var j :| 0 <= j < |ps| && Reads(ps[j], b);
        assert Reads(qs[j], b);
      } else {
        assert Reads(qs[|ps|], b);
      }
    }
    assert !Hit(per, m, t.off);
    forall j | 0 <= j < |ps| ensures ps[j].off + ps[j].len < t.off {
      assert MaximalRun(per, m, off, len, at, ps[j]);
    }
  }

  lemma Appended(a: seq<Task>, b: seq<Task>, t: Task)
    ensures (a + b) + [t] == a + (b + [t])
  {
  }

  /** The l blocks before block off+i are misses, and the one before them is not. */
  ghost predicate OpenRun(per: nat, m: Meta, off: nat, i: nat, l: nat)
    requires per > 0 && l <= i
  {
    && (forall b: nat :: off + i - l <= b < off + i ==> !Hit(per, m, b))
    && (l == i || Hit(per, m, off + i - l - 1))
  }

  /** Before block off+i: all runs but the last, l blocks long and still open, are posted. */
  ghost predicate Midway(per: nat, m: Meta, off: nat, len: nat, at: nat, i: nat, l: nat, ps: seq<Task>)
    requires per > 0
  {
    && l <= i && Coalesced(per, m, off, len, at, i - l, ps)
    && if l > 0 then OpenRun(per, m, off, i, l) else i == 0 || Hit(per, m, off + i - 1)
  }

  lemma NothingRead(per: nat, m: Meta, base: nat, slots: seq<Data>, off: nat, len: nat, at: nat, before: seq<Data>)
    requires per > 0
    ensures Midway(per, m, off, len, at, 0, 0, []) && CountHits(per, m, off, 0) == 0
    ensures Delivered(per, m, base, slots, off, at, 0, before, before)
  {
  }

  lemma OneMore(per: nat, m: Meta, off: nat, len: nat, at: nat, i: nat, l: nat, ps: seq<Task>)
    requires per > 0 && Midway(per, m, off, len, at, i, l, ps) && !Hit(per, m, off + i)
    ensures Midway(per, m, off, len, at, i + 1, l + 1, ps)
  {
    assert i + 1 - (l + 1) == i - l;
    hide Coalesced, Hit;
  }

  lemma RunEnds(per: nat, m: Meta, off: nat, len: nat, at: nat, i: nat, l: nat, ps: seq<Task>)
    requires per > 0 && i <= len && Midway(per, m, off, len, at, i, l, ps) && (i == len || Hit(per, m, off + i))
    ensures l == 0 ==> Coalesced(per, m, off, len, at, i, ps)
    ensures 0 < l <= i ==> Coalesced(per, m, off, len, at, i, ps + [ReadTask(off + i - l, l, at + i - l)])
  {
    if l > 0 {
      RunPosted(per, m, off, len, at, i, l, ps);
    }
  }

  lemma Extended(per: nat, m: Meta, off: nat, len: nat, at: nat, i: nat, ps: seq<Task>)
    requires per > 0 && Coalesced(per, m, off, len, at, i, ps) && Hit(per, m, off + i)
    ensures Midway(per, m, off, len, at, i + 1, 0, ps)
  {
  }

  // ----- completion -----

  function Length(t: Task): nat {
    match t
    case ReadTask(_, len, _) => len
    case WriteTask(_, data) => |data|
  }

  /** The blocks that the posted reads will credit. */
  function Total(ps: seq<Task>): nat {
    if ps == [] then 0 else Total(ps[..|ps| - 1]) + Length(ps[|ps| - 1])
  }

  lemma {:induction false} OnlyHits(per: nat, m: Meta, off: nat, a: nat, n: nat)
    requires per > 0 && a <= n && forall b: nat :: off + a <= b < off + n ==> Hit(per, m, b)
    ensures CountHits(per, m, off, n) == CountHits(per, m, off, a) + n - a
  {
    if a < n {
      OnlyHits(per, m, off, a, n - 1);
    }
  }

  lemma {:induction false} OnlyMisses(per: nat, m: Meta, off: nat, a: nat, n: nat)
    requires per > 0 && a <= n && forall b: nat :: off + a <= b < off + n ==> !Hit(per, m, b)
    ensures CountHits(per, m, off, n) == CountHits(per, m, off, a)
  {
    if a < n {
      OnlyMisses(per, m, off, a, n - 1);
    }
  }

  /** The blocks copied at once and the blocks of the posted reads are all blocks, each once: the
      credits of a read add up to its length. */
  lemma {:induction false} CreditsAddUp(per: nat, m: Meta, off: nat, len: nat, at: nat, n: nat, ps: seq<Task>)
    requires per > 0 && Coalesced(per, m, off, len, at, n, ps)
    ensures CountHits(per, m, off, n) + Total(ps) == n
    decreases |ps|
  {
    if ps == [] {
      OnlyHits(per, m, off, 0, n);
    } else {
      var k := |ps| - 1;
      var t := ps[k];
      assert MaximalRun(per, m, off, len, at, t);
      var a, e := t.off - off, t.off - off + t.len;
      WithoutLast(per, m, off, len, at, n, ps);
      CreditsAddUp(per, m, off, len, at, a, ps[..k]);
      OnlyMisses(per, m, off, a, e);
      forall b: nat | off + e <= b < off + n ensures Hit(per, m, b) {}
      OnlyHits(per, m, off, e, n);
    }
  }

  lemma WithoutLast(per: nat, m: Meta, off: nat, len: nat, at: nat, n: nat, ps: seq<Task>)
    requires per > 0 && Coalesced(per, m, off, len, at, n, ps) && ps != []
    ensures var t := ps[|ps| - 1]; t.off >= off && Coalesced(per, m, off, len, at, t.off - off, ps[..|ps| - 1])
  {
    var k := |ps| - 1;
    var t, qs := ps[k], ps[..k];
    assert MaximalRun(per, m, off, len, at, t);
    forall b: nat | off <= b < t.off && !Hit(per, m, b) ensures exists j :: 0 <= j < |qs| && Reads(qs[j], b) {
      var j :| 0 <= j < |ps| && Reads(ps[j], b);
      assert qs[j] == ps[j];
    }
    forall j | 0 <= j < |qs| ensures MaximalRun(per, m, off, len, at, qs[j]) && qs[j].off + qs[j].len <= t.off {
      assert qs[j] == ps[j] && MaximalRun(per, m, off, len, at, ps[j]);
    }
  }

  // ----- small writes -----

  /** The block is not buffered and the segment is full: a migration comes first. */
  predicate Overflows(per: nat, m: Meta, b: nat)
    requires per > 0
  {
    BlockTest(per, m, b).None? && Full(per, m)
  }

  /** The metadata after a small write to block b, and the slot it uses. */
  function SmallMeta(segs: nat, idx: nat, per: nat, m: Meta, b: nat): (Meta, nat)
    requires idx < segs && per > 0 && m.nextBit < Bits(per)
  {
    match BlockTest(per, m, b)
    case Some(o) => (m, o)
    case None => Reserve(AS_WRITTEN, segs, idx, per, if Full(per, m) then EMPTY else m, b)
  }

  lemma SlotAvailable(per: nat, m: Meta)
    requires Sound(per, m) && per % 8 == 0 && per > 0
    ensures Full(per, m) || exists z: nat :: z < Bits(per) && z !in m.bitmap
    ensures !Full(per, EMPTY) && 0 < Bits(per) && 0 !in EMPTY.bitmap && EMPTY.nextBit == 0 && EMPTY.index == map[] && Sound(per, EMPTY)
  {
    FullExact(per, m);
  }

  lemma Reserving(segs: nat, idx: nat, per: nat, m: Meta, b: nat)
    requires idx < segs && Sound(per, m) && per % 8 == 0 && m.nextBit < Bits(per)
    ensures var (r, slot) := Reserve(AS_WRITTEN, segs, idx, per, m, b);
            && slot == Take(per, m).1 && r == Index(AS_WRITTEN, segs, idx, Take(per, m).0, b, slot)
            && (!Full(per, m) ==> slot < per)
    ensures Take(per, m).0.index == m.index
  {
    hide FirstZero, Index, Sound;
    if !Full(per, m) {
      var d := TakeFree(per, m);
    }
  }

  lemma Tested(segs: nat, idx: nat, per: nat, m: Meta, b: nat)
    requires idx < segs && Sound(per, m) && per > 0 && m.nextBit < Bits(per)
    ensures var t := BlockTest(per, m, b);
            if t.None? then b !in m.index && (Overflows(per, m, b) <==> Full(per, m)) &&
                            SmallMeta(segs, idx, per, m, b) == Reserve(AS_WRITTEN, segs, idx, per, if Full(per, m) then EMPTY else m, b)
            else t.value < per && !Overflows(per, m, b) && SmallMeta(segs, idx, per, m, b) == (m, t.value)
  {
    BlockTestIsIndex(per, m, b);
    hide Reserve;
  }

  /** When a small write can be read back; checked before the write. */
  ghost predicate WriteSafe(segs: nat, idx: nat, per: nat, m: Meta, b: nat)
  {
    b in m.index || Full(per, m) || ReserveSafe(AS_WRITTEN, segs, idx, per, m)
  }

  lemma SmallMetaExact(segs: nat, idx: nat, per: nat, m: Meta, b: nat)
    requires idx < segs && Sound(per, m) && per % 8 == 0 && Bits(per) > 1 >= m.nextBit
    ensures var (n, slot) := SmallMeta(segs, idx, per, m, b);
            && slot < per && (b in n.index <==> WriteSafe(segs, idx, per, m, b)) && (Sound(per, n) <==> b in n.index)
            && (b in m.index ==> slot == m.index[b])
            && (b in n.index ==> n.index == (if Overflows(per, m, b) then map[] else m.index)[b := slot])
            && (b !in n.index ==> slot != 0 && 0 !in m.bitmap && n == Meta(m.index, m.bitmap + {0, slot}, n.nextBit, m.used))
  {
    Tested(segs, idx, per, m, b);
    BlockTestIsIndex(per, m, b);
    SlotAvailable(per, m);
    hide Sound, Reserve, Take;
    if b !in m.index {
      ReserveExact(AS_WRITTEN, segs, idx, per, if Full(per, m) then EMPTY else m, b);
    }
  }

  /** A small write can be read back from the buffer exactly in the situations WriteSafe; then no
      other block of the buffer is touched, except that an overflow has moved them all to the SSD. */
  lemma SmallWriteExact(segs: nat, idx: nat, per: nat, base: nat, m: Meta, slots: seq<Data>, b: nat, data: Data)
    requires idx < segs && Sound(per, m) && per % 8 == 0 && Bits(per) > 1 >= m.nextBit && base + per <= |slots|
    ensures var (n, slot) := SmallMeta(segs, idx, per, m, b);
            && slot < per && (Hit(per, n, b) <==> WriteSafe(segs, idx, per, m, b))
            && (Hit(per, n, b) ==> Sound(per, n) && Buffered(per, n, base, slots[base + slot := data], b) == data)
            && (Hit(per, n, b) ==> forall k: nat :: k != b ==>
                  (Hit(per, n, k) <==> Hit(per, m, k) && !Overflows(per, m, b)) &&
                  (Hit(per, n, k) ==> Buffered(per, n, base, slots[base + slot := data], k) == Buffered(per, m, base, slots, k)))
  {
    hide SmallMeta, WriteSafe, Mod;
    SmallMetaExact(segs, idx, per, m, b);
    var (n, slot) := SmallMeta(segs, idx, per, m, b);
    if b in n.index {
      BlockTestIsIndex(per, n, b);
      forall k: nat | k != b
        ensures Hit(per, n, k) <==> Hit(per, m, k) && !Overflows(per, m, b)
        ensures Hit(per, n, k) ==> Buffered(per, n, base, slots[base + slot := data], k) == Buffered(per, m, base, slots, k)
      {
        BlockTestIsIndex(per, n, k);
        BlockTestIsIndex(per, m, k);
        if k in n.index { assert n.index[k] != n.index[b]; }
      }
    }
  }

  lemma MatchPut(headers: seq<Header>, live: map<nat, nat>, b: nat, slot: nat)
    requires Match(headers, live) && slot < |headers| && Injective(live[b := slot]) && (b in live ==> live[b] == slot)
    ensures Match(headers[slot := Header(true, b)], live[b := slot])
  {
    var hs, l := headers[slot := Header(true, b)], live[b := slot];
    forall k | k in l ensures l[k] < |hs| && hs[l[k]] == Header(true, k) {
      if k != b { assert l[k] != l[b]; }
    }
    forall o | 0 <= o < |hs| && hs[o].valid ensures hs[o].block in l && l[hs[o].block] == o {
      if o != slot { assert headers[o].valid && live[headers[o].block] == o; }
    }
  }

  /** Such a write keeps the headers in step with the index. */
  lemma SmallWriteKeepsMatch(segs: nat, idx: nat, per: nat, base: nat, m: Meta, headers: seq<Header>, b: nat)
    requires idx < segs && Sound(per, m) && per % 8 == 0 && Bits(per) > 1 >= m.nextBit && base + per <= |headers|
    requires Match(headers[base..base + per], m.index) && WriteSafe(segs, idx, per, m, b) && !Overflows(per, m, b)
    ensures var (n, slot) := SmallMeta(segs, idx, per, m, b);
            slot < per && Match(headers[base + slot := Header(true, b)][base..base + per], n.index)
  {
    hide Match, Sound, SmallMeta;
    SmallMetaExact(segs, idx, per, m, b);
    var (n, slot) := SmallMeta(segs, idx, per, m, b);
    OneSlotEach(per, n);
    var hs := headers[base..base + per];
    assert headers[base + slot := Header(true, b)][base..base + per] == hs[slot := Header(true, b)];
    MatchPut(hs, m.index, b, slot);
  }

  lemma OneSlotEach(per: nat, m: Meta)
    requires Sound(per, m)
    ensures Injective(m.index)
  {
  }
}
