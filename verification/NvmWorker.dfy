/** An NVM worker's handling of one task, as src/nvm_worker.c executes it in place: redirect_read
    with its coalescing of misses, redirect_write, and -- all threads one after the other -- the
    passes of a migration. */
module NvmWorker {
  import opened Common
  import opened Chains
  import opened Metadata
  import opened SegmentMeta
  import opened Redirect
  import opened Drain
  import Barrier

  class Worker {
    const seg: Segment
    /** First slot of the segment: idx * per_block_num. */
    const base: nat
    const slots: array<Data>
    const headers: array<Header>
    const ssd: array<Data>
    var queue: seq<Task>

    ghost predicate Valid()
      reads seg, seg.hash, seg.hash.repr, seg.bitmap, seg.bitmap.bits
    {
      && seg.Valid() && base + seg.per <= slots.Length == headers.Length
      && slots != ssd && headers as object != slots && headers as object != ssd
      && this !in seg.Repr() && slots !in seg.Repr() && headers !in seg.Repr() && ssd !in seg.Repr()
    }

    constructor (seg: Segment, base: nat, slots: array<Data>, headers: array<Header>, ssd: array<Data>)
      requires seg.Valid() && base + seg.per <= slots.Length == headers.Length
      requires slots != ssd && headers as object != slots && headers as object != ssd
      requires slots !in seg.Repr() && headers !in seg.Repr() && ssd !in seg.Repr()
      ensures Valid() && queue == [] && this.seg == seg && this.base == base
      ensures this.slots == slots && this.headers == headers && this.ssd == ssd
    {
      this.seg, this.base, this.slots, this.headers, this.ssd := seg, base, slots, headers, ssd;
      queue := [];
    }

    /** What a read leaves as it is: the segment's metadata m and the slots' data ss. */
    ghost predicate Stays(m: Meta, ss: seq<Data>)
      reads seg, seg.hash, seg.hash.repr, seg.bitmap, seg.bitmap.bits, slots
    {
      Valid() && seg.Abs() == m && slots[..] == ss && forall b :: b in m.index ==> m.index[b] < seg.per
    }

    /** mix_post_task_to_ssd. */
    method Post(t: Task, ghost m: Meta, ghost ss: seq<Data>)
      requires Stays(m, ss)
      modifies this`queue
      ensures Stays(m, ss) && queue == old(queue) + [t]
    {
      hide Segment.Valid, Segment.Abs;
      queue := queue + [t];
    }

    /** The end of a run of misses: posts its read, if there is one. */
    method PostRun(off: nat, len: nat, at: nat, i: nat, run: Option<nat>, runLen: nat, ghost m: Meta, ghost ss: seq<Data>, ghost before: seq<Task>, ghost ps: seq<Task>)
      returns (ghost qs: seq<Task>)
      requires Stays(m, ss) && seg.per > 0
      requires i <= len && Midway(seg.per, m, off, len, at, i, runLen, ps) && (i == len || Hit(seg.per, m, off + i))
      requires runLen <= i && run == (if runLen == 0 then None else Some(off + i - runLen)) && queue == before + ps
      modifies this`queue
      ensures Stays(m, ss) && queue == before + qs && Coalesced(seg.per, m, off, len, at, i, qs)
    {
      RunEnds(seg.per, m, off, len, at, i, runLen, ps);
      hide *;
      qs := ps;
      if run.Some? {
        var t := ReadTask(run.value, runLen, at + (run.value - off));
        assert t == ReadTask(off + i - runLen, runLen, at + i - runLen);
        Appended(before, ps, t);
        Post(t, m, ss);
        qs := ps + [t];
      }
    }

    /** mix_read_from_buffer of one block. */
    method CopyBlock(slot: nat, dst: array<Data>, k: nat, ghost m: Meta, ghost ss: seq<Data>)
      requires Stays(m, ss) && dst != slots && dst !in seg.Repr() && base + slot < |ss| && k < dst.Length
      modifies dst
      ensures Stays(m, ss) && dst[..] == old(dst[..])[k := ss[base + slot]]
    {
      hide Segment.Valid, Segment.Abs;
      dst[k] := slots[base + slot];
    }

    /** mix_buffer_block_test of the block after n, and what it means for the read so far. */
    method TestNext(off: nat, at: nat, n: nat, ghost m: Meta, ghost ss: seq<Data>, ghost before: seq<Data>, ghost now: seq<Data>) returns (r: Option<nat>)
      requires Stays(m, ss) && seg.per > 0 && at + n < |now|
      requires Delivered(seg.per, m, base, ss, off, at, n, before, now)
      ensures r.Some? == Hit(seg.per, m, off + n)
      ensures CountHits(seg.per, m, off, n + 1) == CountHits(seg.per, m, off, n) + if r.Some? then 1 else 0
      ensures r.None? ==> Delivered(seg.per, m, base, ss, off, at, n + 1, before, now)
      ensures r.Some? ==> base + r.value < |ss| && Delivered(seg.per, m, base, ss, off, at, n + 1, before, now[at + n := ss[base + r.value]])
    {
      hide Delivered, Hit, CountHits, Segment.Valid, Segment.Abs, BlockTest;
      r := seg.Test(off + n);
      TestedSlot(seg.per, m, base, ss, off, at, n, before, now, r);
    }

    /** redirect_read: returns how many blocks it copied from the buffer itself. */
    method RedirectRead(off: nat, len: nat, dst: array<Data>, at: nat) returns (ret: nat, ghost posted: seq<Task>)
      requires Valid() && at + len <= dst.Length && dst != slots && dst !in seg.Repr()
      requires forall b :: b in seg.Abs().index ==> seg.Abs().index[b] < seg.per
      modifies this`queue, dst
      ensures Valid() && seg.Abs() == old(seg.Abs())
      ensures queue == old(queue) + posted && Coalesced(seg.per, seg.Abs(), off, len, at, len, posted)
      ensures ret == CountHits(seg.per, seg.Abs(), off, len)
      ensures Delivered(seg.per, seg.Abs(), base, slots[..], off, at, len, old(dst[..]), dst[..])
    {
      ghost var m, ss := seg.Abs(), slots[..];
      ret, posted := ReadLoop(off, len, dst, at, m, ss);
      hide Segment.Valid, Segment.Abs, Delivered, Coalesced, CountHits;
    }

    /** The loop of redirect_read. */
    method ReadLoop(off: nat, len: nat, dst: array<Data>, at: nat, ghost m: Meta, ghost ss: seq<Data>) returns (ret: nat, ghost posted: seq<Task>)
      requires Stays(m, ss) && seg.per > 0 && at + len <= dst.Length && dst != slots && dst !in seg.Repr()
      modifies this`queue, dst
      ensures Stays(m, ss)
      ensures queue == old(queue) + posted && Coalesced(seg.per, m, off, len, at, len, posted)
      ensures ret == CountHits(seg.per, m, off, len)
      ensures Delivered(seg.per, m, base, ss, off, at, len, old(dst[..]), dst[..])
    {
      hide *;
      ret, posted := 0, [];
      NothingRead(seg.per, m, base, ss, off, len, at, dst[..]);
      var run: Option<nat> := None;  // read_task.offset, None for -1
      var runLen: nat := 0;
      var i: nat := 0;
      while i < len
        invariant i <= len && Stays(m, ss)
        invariant queue == old(queue) + posted && Midway(seg.per, m, off, len, at, i, runLen, posted)
        invariant runLen <= i && run == (if runLen == 0 then None else Some(off + i - runLen))
        invariant ret == CountHits(seg.per, m, off, i)
        invariant Delivered(seg.per, m, base, ss, off, at, i, old(dst[..]), dst[..])
      {
        var r := TestNext(off, at, i, m, ss, old(dst[..]), dst[..]);
        if r.None? {
          OneMore(seg.per, m, off, len, at, i, runLen, posted);
          if run.None? { run := Some(off + i); }
          runLen := runLen + 1;
        } else {
          posted := PostRun(off, len, at, i, run, runLen, m, ss, old(queue), posted);
          Extended(seg.per, m, off, len, at, i, posted);
          CopyBlock(r.value, dst, at + i, m, ss);
          ret := ret + 1;
          run, runLen := None, 0;
        }
        i := i + 1;
      }
      posted := PostRun(off, len, at, len, run, runLen, m, ss, old(queue), posted);
    }

    // ----- migration -----

    /** The segment's metadata and the arrays are as s says. */
    ghost predicate Shows(s: Snap)
      reads seg, seg.hash, seg.hash.repr, seg.bitmap, seg.bitmap.bits, slots, headers, ssd
    {
      && Valid() && seg.hash.Table() == s.table && seg.Abs() == s.meta
      && slots[..] == s.slots && headers[..] == s.headers && ssd[..] == s.ssd
    }

    /** The pop of mix_hash_get_entry_by_idx. */
    method PopHead(i: nat, ghost s: Snap) returns (r: Option<Entry>)
      requires Shows(s) && i < |s.table|
      modifies seg`index, seg.hash.repr
      ensures seg.hash.repr == old(seg.hash.repr)
      ensures if s.table[i] == [] then r == None && Shows(s) else r == Some(s.table[i][0]) && Shows(Popped(s, i))
    {
      hide Segment.Valid, Segment.Abs;
      r := seg.PopEntry(i);
    }

    /** migrate_from_buffer_to_ssd: mix_buffer_read, mix_ssd_write, mix_buffer_clear. */
    method CopyToSsd(e: Entry, ghost s: Snap)
      requires Shows(s) && |s.headers| == |s.slots| && e.slot < |s.slots| && e.key < |s.ssd|
      modifies ssd, headers
      ensures Shows(Copied(s, e))
    {
      hide Segment.Valid, Segment.Abs;
      ssd[e.key] := slots[e.slot];
      headers[e.slot] := headers[e.slot].(valid := false);
    }

    /** used_block_num--. */
    method CountDown(ghost s: Snap)
      requires Shows(s)
      modifies seg`used
      ensures Shows(Uncounted(s))
    {
      hide Segment.Valid, Segment.Abs;
      seg.Uncount();
    }

    /** mix_segment_migration_end, once all threads have counted. */
    method ClearBitmap(ghost s: Snap)
      requires Shows(s)
      modifies seg.bitmap`nextBit, seg.bitmap.bits
      ensures Shows(Cleared(seg.per, s))
    {
      hide Segment.Valid, Segment.Abs;
      seg.WipeBitmap();
    }

    /** One turn of the inner loop of migrate. */
    method MoveEntry(i: nat, ghost s: Snap) returns (more: bool, ghost t: Snap)
      requires Shows(s) && i < |s.table| && Ready(seg.hash.h, s)
      modifies seg`index, seg`used, seg.hash.repr, ssd, headers
      ensures seg.hash.repr == old(seg.hash.repr) && Shows(t) && more == (s.table[i] != [])
      ensures more ==> |s.headers| == |s.slots| && s.table[i][0].slot < |s.slots| && s.table[i][0].key < |s.ssd| && t == Moved(s, i)
      ensures !more ==> t == s
    {
      hide *;
      if s.table[i] != [] { MovedReady(seg.hash.h, s, i); }
      var e := PopHead(i, s);
      more, t := e.Some?, s;
      if more {
        CopyToSsd(e.value, Popped(s, i));
        CountDown(Copied(Popped(s, i), e.value));
        t := Moved(s, i);
      }
    }

    /** The inner loop of migrate: pops until bucket i is empty. */
    method DrainBucket(i: nat, ghost s: Snap, ghost from: Snap) returns (ghost t: Snap)
      requires Shows(from) && Draining(seg.hash.h, s, from) && i < |from.table|
      modifies seg`index, seg`used, seg.hash.repr, ssd, headers
      ensures seg.hash.repr == old(seg.hash.repr) && Shows(t) && Draining(seg.hash.h, s, t)
      ensures Onward(from, t) && |t.table| == |from.table| && t.table[i] == []
    {
      hide PartDrained, Ready, Shows, Moved;
      t := from;
      var more := true;
      while more
        invariant seg.hash.repr == old(seg.hash.repr) && Shows(t) && Draining(seg.hash.h, s, t)
        invariant Onward(from, t) && (!more ==> t.table[i] == [])
        decreases |t.table[i]|, more
      {
        ghost var u := t;
        if u.table[i] != [] { DrainOne(seg.hash.h, s, u, i); }
        more, t := MoveEntry(i, u);
      }
    }

    lemma TableSize(s: Snap)
      requires Shows(s)
      ensures |s.table| == |seg.hash.buckets|
    {
    }

    /** The pass of migration thread k through its stride of buckets. */
    method DrainStride(k: nat, threads: nat, ghost s: Snap, ghost from: Snap) returns (ghost t: Snap)
      requires Shows(from) && Draining(seg.hash.h, s, from) && k < threads
      modifies seg`index, seg`used, seg.hash.repr, ssd, headers
      ensures seg.hash.repr == old(seg.hash.repr) && Shows(t) && Draining(seg.hash.h, s, t)
      ensures Onward(from, t) && Barrier.Drained(threads, t.table, k, |t.table|)
    {
      hide *;
      TableSize(from);
      OnwardSelf(from);
      ghost var h := seg.hash.h;
      t := from;
      var size := |seg.hash.buckets|;
      var j := k;
      StrideBegins(threads, t, k);
      while j < size
        invariant seg.hash.repr == old(seg.hash.repr) && Shows(t) && Draining(h, s, t) && |t.table| == size
        invariant Onward(from, t) && Striding(threads, t, k, j)
      {
        ghost var u := t;
        t := DrainBucket(j, s, u);
        OnwardOn(from, u, t);
        StrideOn(threads, u, t, k, j);
        j := j + threads;
      }
      StrideEnds(threads, t, k, j);
    }

    /** The passes of all threads. */
    method DrainAll(threads: nat, ghost s: Snap) returns (ghost t: Snap)
      requires Shows(s) && Draining(seg.hash.h, s, s) && threads > 0
      modifies seg`index, seg`used, seg.hash.repr, ssd, headers
      ensures seg.hash.repr == old(seg.hash.repr) && Shows(t) && AllMoved(s, t)
    {
      ghost var h := seg.hash.h;
      hide *;
      t := s;
      var k := 0;
      NoStride(threads, t);
      while k < threads
        invariant k <= threads && seg.hash.repr == old(seg.hash.repr) && Shows(t) && Draining(h, s, t) && StridesDrained(threads, t, k)
      {
        ghost var u := t;
        t := DrainStride(k, threads, s, u);
        StridesStay(threads, u, t, k);
        k := k + 1;
      }
      AllDrained(h, threads, s, t);
    }

    lemma RoundBegins(s: Snap)
      requires Valid() && Injective(seg.Abs().index) && s == Snap(seg.hash.Table(), seg.Abs(), slots[..], headers[..], ssd[..])
      requires forall b :: b in seg.Abs().index ==> b < ssd.Length && seg.Abs().index[b] < seg.per
      ensures Shows(s) && Draining(seg.hash.h, s, s)
    {
    }

    lemma RoundEnds(s: Snap, t: Snap)
      requires AllMoved(s, t) && Shows(Cleared(seg.per, t))
      ensures Valid() && slots[..] == s.slots
      ensures var m := s.meta; seg.Abs() == Wiped(seg.per, Meta(map[], m.bitmap, m.nextBit, m.used - |m.index|))
      ensures ssd[..] == DrainedSsd(s.meta.index, s.slots, s.ssd) && headers[..] == DrainedHeaders(s.meta.index, s.headers)
    {
      RoundArrays(s, t);
      hide Segment.Valid, DrainedSsd, DrainedHeaders;
    }

    /** mix_migrate_segment once the SSD queue is drained, with the threads' passes one after the
        other (module Barrier has them interleaved). */
    method MigrateSegment(threads: nat)
      requires Valid() && threads > 0 && Injective(seg.Abs().index)
      requires forall b :: b in seg.Abs().index ==> b < ssd.Length && seg.Abs().index[b] < seg.per
      modifies seg`index, seg`used, seg.hash.repr, seg.bitmap`nextBit, seg.bitmap.bits, ssd, headers
      ensures Valid() && seg.hash.repr == old(seg.hash.repr) && slots[..] == old(slots[..])
      ensures var m := old(seg.Abs()); seg.Abs() == Wiped(seg.per, Meta(map[], m.bitmap, m.nextBit, m.used - |m.index|))
      ensures ssd[..] == old(DrainedSsd(seg.Abs().index, slots[..], ssd[..]))
      ensures headers[..] == old(DrainedHeaders(seg.Abs().index, headers[..]))
    {
      hide *;
      ghost var s := Snap(seg.hash.Table(), seg.Abs(), slots[..], headers[..], ssd[..]);
      RoundBegins(s);
      ghost var t := DrainAll(threads, s);
      ClearBitmap(t);
      RoundEnds(s, t);
    }

    // ----- redirect_write -----

    /** What a write finds or leaves: the metadata and the three arrays. */
    ghost predicate Holds(m: Meta, ss: seq<Data>, hs: seq<Header>, ds: seq<Data>)
      reads seg, seg.hash, seg.hash.repr, seg.bitmap, seg.bitmap.bits, slots, headers, ssd
    {
      Valid() && seg.Abs() == m && slots[..] == ss && headers[..] == hs && ssd[..] == ds
    }

    /** mix_buffer_block_test. */
    method FindSlot(b: nat, ghost m: Meta, ghost ss: seq<Data>, ghost hs: seq<Header>, ghost ds: seq<Data>) returns (r: Option<nat>)
      requires Holds(m, ss, hs, ds) && seg.per > 0
      ensures r == BlockTest(seg.per, m, b)
    {
      hide Segment.Valid, Segment.Abs, BlockTest;
      r := seg.Test(b);
    }

    /** mix_get_next_free_block. */
    method TakeSlot(ghost m: Meta, ghost ss: seq<Data>, ghost hs: seq<Header>, ghost ds: seq<Data>) returns (r: Option<nat>)
      requires Holds(m, ss, hs, ds) && (Full(seg.per, m) || exists z: nat :: z < Bits(seg.per) && z !in m.bitmap)
      modifies seg.bitmap`nextBit, seg.bitmap.bits
      ensures if Full(seg.per, m) then r == None && Holds(m, ss, hs, ds)
              else m.nextBit < Bits(seg.per) && r == Some(Take(seg.per, m).1) && Holds(Take(seg.per, m).0, ss, hs, ds)
    {
      hide Segment.Valid, Segment.Abs, Take;
      r := seg.NextFree();
    }

    /** mix_write_redirect_blockmeta. */
    method EnterBlock(b: nat, slot: nat, ghost m: Meta, ghost ss: seq<Data>, ghost hs: seq<Header>, ghost ds: seq<Data>)
      requires Holds(m, ss, hs, ds) && b !in m.index && slot < seg.per && seg.idx < seg.segs
      modifies seg`used, seg`index, seg.hash.repr, seg.bitmap.bits
      ensures fresh(seg.hash.repr - old(seg.hash.repr))
      ensures Holds(Index(AS_WRITTEN, seg.segs, seg.idx, m, b, slot), ss, hs, ds)
    {
      hide Segment.Valid, Segment.Abs, Index;
      seg.WriteBlockmeta(b, slot);
    }

    /** mix_buffer_write of a block: first its data, then its header. */
    method StoreBlock(b: nat, slot: nat, data: Data, ghost m: Meta, ghost ss: seq<Data>, ghost hs: seq<Header>, ghost ds: seq<Data>)
      requires Holds(m, ss, hs, ds) && slot < seg.per
      modifies slots, headers
      ensures base + slot < |ss| == |hs|
      ensures Holds(m, ss[base + slot := data], hs[base + slot := Header(true, b)], ds)
    {
      hide Segment.Valid, Segment.Abs;
      slots[base + slot] := data;
      headers[base + slot] := Header(true, b);
    }

    /** mix_migrate_segment of a sound segment leaves it as good as new. */
    method Migrate(threads: nat, ghost m: Meta, ghost ss: seq<Data>, ghost hs: seq<Header>, ghost ds: seq<Data>)
      requires Holds(m, ss, hs, ds) && Sound(seg.per, m) && seg.per % 8 == 0 && threads > 0 && forall b :: b in m.index ==> b < |ds|
      modifies seg`index, seg`used, seg.hash.repr, seg.bitmap`nextBit, seg.bitmap.bits, ssd, headers
      ensures seg.hash.repr == old(seg.hash.repr) && forall b :: b in m.index ==> m.index[b] < |ss|
      ensures Holds(EMPTY, ss, DrainedHeaders(m.index, hs), DrainedSsd(m.index, ss, ds))
    {
      WipedExact(seg.per, m);
      hide Segment.Valid, Segment.Abs, DrainedHeaders, DrainedSsd;
      MigrateSegment(threads);
    }

    /** The slot for a block that is not buffered: the next free one, after a migration if need be;
        the block is entered in the index. */
    method NewSlot(b: nat, threads: nat, ghost m: Meta, ghost ss: seq<Data>, ghost hs: seq<Header>, ghost ds: seq<Data>) returns (slot: nat)
      requires Holds(m, ss, hs, ds) && Sound(seg.per, m) && seg.per % 8 == 0 && threads > 0 && forall k :: k in m.index ==> k < |ds|
      requires b !in m.index && seg.idx < seg.segs && 0 < seg.per && m.nextBit < Bits(seg.per)
      modifies seg`used, seg`index, seg.hash.repr, seg.bitmap`nextBit, seg.bitmap.bits, ssd, headers
      ensures fresh(seg.hash.repr - old(seg.hash.repr)) && forall k :: k in m.index ==> m.index[k] < |ss|
      ensures var per := seg.per;
              var n := if Full(per, m) then EMPTY else m;
              slot == Reserve(AS_WRITTEN, seg.segs, seg.idx, per, n, b).1 < per &&
              Holds(Reserve(AS_WRITTEN, seg.segs, seg.idx, per, n, b).0, ss,
                    if Full(per, m) then DrainedHeaders(m.index, hs) else hs, if Full(per, m) then DrainedSsd(m.index, ss, ds) else ds)
    {
      hide *;
      ghost var segs, idx, per := seg.segs, seg.idx, seg.per;
      SlotAvailable(per, m);
      SlotsInArray(m, ss, hs, ds);
      Reserving(segs, idx, per, m, b);
      Reserving(segs, idx, per, EMPTY, b);
      var r := TakeSlot(m, ss, hs, ds);
      if r.None? {
        Migrate(threads, m, ss, hs, ds);
        r := TakeSlot(EMPTY, ss, DrainedHeaders(m.index, hs), DrainedSsd(m.index, ss, ds));
        slot := r.value;
        EnterBlock(b, slot, Take(per, EMPTY).0, ss, DrainedHeaders(m.index, hs), DrainedSsd(m.index, ss, ds));
      } else {
        slot := r.value;
        EnterBlock(b, slot, Take(per, m).0, ss, hs, ds);
      }
    }

    lemma SlotsInArray(m: Meta, ss: seq<Data>, hs: seq<Header>, ds: seq<Data>)
      requires Holds(m, ss, hs, ds) && Sound(seg.per, m)
      ensures forall b :: b in m.index ==> m.index[b] < |ss|
    {
      hide Segment.Valid, Segment.Abs;
    }

    /** redirect_write of one block (threshold is 1). */
    method SmallWrite(b: nat, data: Data, threads: nat)
      requires Valid() && Sound(seg.per, seg.Abs()) && seg.per % 8 == 0 && threads > 0
      requires forall k :: k in seg.Abs().index ==> k < ssd.Length
      modifies seg`used, seg`index, seg.hash.repr, seg.bitmap`nextBit, seg.bitmap.bits, slots, headers, ssd
      ensures Valid() && fresh(seg.hash.repr - old(seg.hash.repr))
      ensures old(seg.Abs()).nextBit < Bits(seg.per) && forall k :: k in old(seg.Abs()).index ==> old(seg.Abs()).index[k] < slots.Length
      ensures var m, per := old(seg.Abs()), seg.per;
              var (n, slot) := SmallMeta(seg.segs, seg.idx, per, m, b);
              && seg.Abs() == n && base + slot < slots.Length
              && slots[..] == old(slots[..])[base + slot := data]
              && headers[..] == (if Overflows(per, m, b) then DrainedHeaders(m.index, old(headers[..])) else old(headers[..]))[base + slot := Header(true, b)]
              && ssd[..] == if Overflows(per, m, b) then DrainedSsd(m.index, old(slots[..]), old(ssd[..])) else old(ssd[..])
    {
      hide *;
      ghost var m, ss, hs, ds := seg.Abs(), slots[..], headers[..], ssd[..];
      WriteBegins(m, ss, hs, ds);
      SlotsInArray(m, ss, hs, ds);
      ghost var per := seg.per;
      Tested(seg.segs, seg.idx, per, m, b);
      var r := FindSlot(b, m, ss, hs, ds);
      var slot: nat;
      if r.None? {
        slot := NewSlot(b, threads, m, ss, hs, ds);
        ghost var n := SmallMeta(seg.segs, seg.idx, per, m, b).0;
        ghost var ns, nd := if Full(per, m) then DrainedHeaders(m.index, hs) else hs, if Full(per, m) then DrainedSsd(m.index, ss, ds) else ds;
        StoreBlock(b, slot, data, n, ss, ns, nd);
        WriteEnds(n, ss[base + slot := data], ns[base + slot := Header(true, b)], nd);
      } else {
        slot := r.value;
        StoreBlock(b, slot, data, m, ss, hs, ds);
        WriteEnds(m, ss[base + slot := data], hs[base + slot := Header(true, b)], ds);
      }
    }

    lemma WriteEnds(m: Meta, ss: seq<Data>, hs: seq<Header>, ds: seq<Data>)
      requires Holds(m, ss, hs, ds)
      ensures Valid() && seg.Abs() == m && slots[..] == ss && headers[..] == hs && ssd[..] == ds
    {
    }

    lemma WriteBegins(m: Meta, ss: seq<Data>, hs: seq<Header>, ds: seq<Data>)
      requires Valid() && seg.Abs() == m && slots[..] == ss && headers[..] == hs && ssd[..] == ds && seg.per % 8 == 0
      ensures Holds(m, ss, hs, ds) && seg.idx < seg.segs && 0 < seg.per && m.nextBit < Bits(seg.per)
    {
    }

    /** redirect_write of a longer range: to the SSD's queue, then out of the buffer -- up to the
        first block that is not in it. */
    method LargeWrite(off: nat, data: seq<Data>)
      requires Valid() && |data| > 1
      modifies this`queue, seg`used, seg`index, seg.hash.repr, seg.bitmap.bits, headers
      ensures Valid() && seg.hash.repr == old(seg.hash.repr) && queue == old(queue) + [WriteTask(off, data)]
      ensures seg.Abs() == ClearRange(AS_WRITTEN, seg.per, old(seg.Abs()), off, |data|, 0)
      ensures HeadersLeft(seg.per, base, old(seg.Abs()).index, seg.Abs().index, old(headers[..]), headers[..])
      ensures forall b :: b in old(seg.Abs()).index && b !in seg.Abs().index ==>
                var a := base + Mod(old(seg.Abs()).index[b], seg.per); headers[a] == old(headers[..])[a].(valid := false)
      ensures forall o :: 0 <= o < headers.Length && headers[o] != old(headers[..])[o] ==>
                exists b :: b in old(seg.Abs()).index && b !in seg.Abs().index && o == base + Mod(old(seg.Abs()).index[b], seg.per)
      ensures slots[..] == old(slots[..]) && ssd[..] == old(ssd[..])
    {
      hide *;
      ghost var m, ss, hs, ds := seg.Abs(), slots[..], headers[..], ssd[..];
      LargeBegins(m, ss, hs, ds);
      queue := queue + [WriteTask(off, data)];
      ghost var ks := ClearBuffered(off, |data|, m, ss, hs, ds);
      ghost var n := ClearRange(AS_WRITTEN, seg.per, m, off, |data|, 0);
      LargeEnds(n, ss, ks, ds);
      LeftMeans(seg.per, base, m.index, n.index, hs, ks);
    }

    lemma LargeBegins(m: Meta, ss: seq<Data>, hs: seq<Header>, ds: seq<Data>)
      requires Valid() && seg.Abs() == m && slots[..] == ss && headers[..] == hs && ssd[..] == ds
      ensures Holds(m, ss, hs, ds) && 0 < seg.per && base + seg.per <= |hs| && this !in seg.hash.repr
    {
    }

    lemma LargeEnds(m: Meta, ss: seq<Data>, hs: seq<Header>, ds: seq<Data>)
      requires Holds(m, ss, hs, ds)
      ensures Valid() && seg.Abs() == m && slots[..] == ss && headers[..] == hs && ssd[..] == ds
    {
    }

    /** mix_clear_block. */
    method ClearBuffered(off: nat, len: nat, ghost m: Meta, ghost ss: seq<Data>, ghost hs: seq<Header>, ghost ds: seq<Data>) returns (ghost ks: seq<Header>)
      requires Holds(m, ss, hs, ds) && seg.per > 0
      modifies seg`used, seg`index, seg.hash.repr, seg.bitmap.bits, headers
      ensures seg.hash.repr == old(seg.hash.repr)
      ensures Holds(ClearRange(AS_WRITTEN, seg.per, m, off, len, 0), ss, ks, ds)
      ensures HeadersLeft(seg.per, base, m.index, ClearRange(AS_WRITTEN, seg.per, m, off, len, 0).index, hs, ks)
    {
      hide Segment.Valid, Segment.Abs, ClearRange, HeadersLeft;
      seg.ClearBlocks(off, len, headers, base);
      ks := headers[..];
    }
  }
}
