/** What a migration round does to a segment and to the SSD, on values: migrate pops the entries of
    every bucket, copies each block to the SSD and clears its header, as src/mix_meta.c has it --
    with the bare slot number. */
module Drain {
  import opened Common
  import opened Chains
  import opened Metadata
  import Barrier

  /** A segment's hash and metadata, and the arrays that a migration touches. */
  datatype Snap = Snap(table: Table, meta: Meta, slots: seq<Data>, headers: seq<Header>, ssd: seq<Data>)

  /** The table stands for the index, and every buffered block has its place on the SSD. */
  ghost predicate Ready(h: nat -> nat, s: Snap) {
    && Stands(s.table, h, s.meta.index) && Unique(s.table) && Placed(s.table, h) && Injective(s.meta.index)
    && |s.headers| == |s.slots|
    && forall b :: b in s.meta.index ==> b < |s.ssd| && s.meta.index[b] < |s.slots|
  }

  /** The head of bucket i, popped. */
  ghost function Popped(s: Snap, i: nat): Snap
    requires i < |s.table| && s.table[i] != []
  {
    s.(table := s.table[i := s.table[i][1..]], meta := s.meta.(index := s.meta.index - {s.table[i][0].key}))
  }

  /** The popped entry's block, copied to the SSD, and its header cleared. */
  ghost function Copied(s: Snap, e: Entry): Snap
    requires e.slot < |s.slots| && e.slot < |s.headers| && e.key < |s.ssd|
  {
    s.(headers := s.headers[e.slot := s.headers[e.slot].(valid := false)], ssd := s.ssd[e.key := s.slots[e.slot]])
  }

  ghost function Uncounted(s: Snap): Snap {
    s.(meta := s.meta.(used := s.meta.used - 1))
  }

  /** The head of bucket i, migrated. */
  ghost function Moved(s: Snap, i: nat): Snap
    requires i < |s.table| && s.table[i] != [] && |s.headers| == |s.slots|
    requires s.table[i][0].slot < |s.slots| && s.table[i][0].key < |s.ssd|
  {
    Uncounted(Copied(Popped(s, i), s.table[i][0]))
  }

  lemma HeadIsIndexed(h: nat -> nat, s: Snap, i: nat)
    requires Ready(h, s) && i < |s.table| && s.table[i] != []
    ensures var e := s.table[i][0];
            h(e.key) == i && e.key in s.meta.index && s.meta.index[e.key] == e.slot && e.slot < |s.slots| && e.key < |s.ssd|
  {
    var e := s.table[i][0];
    assert h(e.key) == i;
    assert Find(s.table[i], e.key) == Some(e.slot);
  }

  lemma MovedReady(h: nat -> nat, s: Snap, i: nat)
    requires Ready(h, s) && i < |s.table| && s.table[i] != []
    ensures |s.headers| == |s.slots| && s.table[i][0].slot < |s.slots| && s.table[i][0].key < |s.ssd|
    ensures |Popped(s, i).headers| == |s.slots| && |Popped(s, i).ssd| == |s.ssd| && Popped(s, i).slots == s.slots
    ensures Ready(h, Moved(s, i)) && Moved(s, i) == Uncounted(Copied(Popped(s, i), s.table[i][0]))
  {
    HeadIsIndexed(h, s, i);
    var e := s.table[i][0];
    PopIsDrop(s.table[i]);
    assert Count(s.table[i], e.key) <= 1;
    DeleteStandsExact(s.table, h, s.meta.index, e.key);
    UniqueAfterDrop(s.table, h, i, e.key);
    RemoveKey(s.meta.index, e.key);
  }

  /** The block has been migrated: it was in the index and no longer is. */
  predicate Gone(s: Snap, t: Snap, b: nat) {
    b in s.meta.index && b !in t.meta.index
  }

  ghost predicate Freed(s: Snap, t: Snap, o: nat) {
    exists b :: Gone(s, t, b) && b in s.meta.index && s.meta.index[b] == o
  }

  /** Part of the way from s: the blocks that are gone from the index, and no others, are on the SSD
      with the contents of the slots that bear their numbers, and those slots' headers are invalid. */
  ghost predicate PartDrained(s: Snap, t: Snap) {
    && t.slots == s.slots && |t.ssd| == |s.ssd| && |t.headers| == |s.headers| == |s.slots| && |t.table| == |s.table|
    && (forall b :: b in s.meta.index ==> s.meta.index[b] < |s.slots|)
    && (forall b :: b in t.meta.index ==> b in s.meta.index && t.meta.index[b] == s.meta.index[b])
    && t.meta.used - |t.meta.index| == s.meta.used - |s.meta.index|
    && t.meta.bitmap == s.meta.bitmap && t.meta.nextBit == s.meta.nextBit
    && GoneToSsd(s, t) && HeadersFreed(s, t)
  }

  ghost predicate GoneToSsd(s: Snap, t: Snap)
    requires |t.ssd| == |s.ssd| && forall b :: b in s.meta.index ==> s.meta.index[b] < |s.slots|
  {
    forall b: nat :: b < |s.ssd| ==> t.ssd[b] == if Gone(s, t, b) then s.slots[s.meta.index[b]] else s.ssd[b]
  }

  ghost predicate HeadersFreed(s: Snap, t: Snap)
    requires |t.headers| == |s.headers|
  {
    forall o: nat :: o < |s.headers| ==> t.headers[o] == if Freed(s, t, o) then s.headers[o].(valid := false) else s.headers[o]
  }

  lemma MoveOne(h: nat -> nat, s: Snap, t: Snap, i: nat)
    requires PartDrained(s, t) && Ready(h, t) && i < |t.table| && t.table[i] != []
    ensures |t.headers| == |t.slots| && t.table[i][0].slot < |t.slots| && t.table[i][0].key < |t.ssd| && PartDrained(s, Moved(t, i))
  {
    HeadIsIndexed(h, t, i);
    var e, u := t.table[i][0], Moved(t, i);
    RemoveKey(t.meta.index, e.key);
    assert u.ssd == t.ssd[e.key := s.slots[e.slot]] && u.headers == t.headers[e.slot := t.headers[e.slot].(valid := false)];
    assert forall b :: Gone(s, u, b) <==> Gone(s, t, b) || b == e.key;
    OneGone(s, t, u, e);
    OneFreed(s, t, u, e);
    hide Ready, Stands, Unique, Placed, Find, Count, Injective, Gone, GoneToSsd, HeadersFreed;
  }

  lemma OneGone(s: Snap, t: Snap, u: Snap, e: Entry)
    requires |u.ssd| == |t.ssd| == |s.ssd| && (forall b :: b in s.meta.index ==> s.meta.index[b] < |s.slots|) && GoneToSsd(s, t)
    requires e.slot < |s.slots| && e.key < |t.ssd| && u.ssd == t.ssd[e.key := s.slots[e.slot]]
    requires e.key in s.meta.index && s.meta.index[e.key] == e.slot && forall b :: Gone(s, u, b) <==> Gone(s, t, b) || b == e.key
    ensures GoneToSsd(s, u)
  {
    hide Gone;
  }

  lemma OneFreed(s: Snap, t: Snap, u: Snap, e: Entry)
    requires |u.headers| == |t.headers| == |s.headers| && HeadersFreed(s, t)
    requires e.slot < |t.headers| && u.headers == t.headers[e.slot := t.headers[e.slot].(valid := false)]
    requires e.key in s.meta.index && s.meta.index[e.key] == e.slot && forall b :: Gone(s, u, b) <==> Gone(s, t, b) || b == e.key
    ensures HeadersFreed(s, u)
  {
    hide Gone;
    forall o: nat ensures Freed(s, u, o) <==> Freed(s, t, o) || o == e.slot {
      if o == e.slot { assert Gone(s, u, e.key); }
      if Freed(s, t, o) {
        var b :| Gone(s, t, b) && b in s.meta.index && s.meta.index[b] == o;
        assert Gone(s, u, b);
      }
    }
  }

  /** No bucket empty in s is filled again in t. */
  predicate Onward(s: Snap, t: Snap) {
    |t.table| == |s.table| && forall b :: 0 <= b < |s.table| && s.table[b] == [] ==> t.table[b] == []
  }

  /** What every pop of a round keeps: the way from s to t, and that no bucket fills again. */
  ghost predicate Draining(h: nat -> nat, s: Snap, t: Snap) {
    Ready(h, t) && PartDrained(s, t)
  }

  lemma DrainOne(h: nat -> nat, s: Snap, t: Snap, i: nat)
    requires Draining(h, s, t) && i < |t.table| && t.table[i] != []
    ensures |t.headers| == |t.slots| && t.table[i][0].slot < |t.slots| && t.table[i][0].key < |t.ssd|
    ensures Draining(h, s, Moved(t, i)) && Onward(t, Moved(t, i)) && Moved(t, i).table[i] == t.table[i][1..]
  {
    MovedReady(h, t, i);
    MoveOne(h, s, t, i);
    MovedTable(t, i);
    hide Ready, PartDrained, Moved;
  }

  lemma MovedTable(s: Snap, i: nat)
    requires i < |s.table| && s.table[i] != [] && |s.headers| == |s.slots|
    requires s.table[i][0].slot < |s.slots| && s.table[i][0].key < |s.ssd|
    ensures Onward(s, Moved(s, i)) && Moved(s, i).table == s.table[i := s.table[i][1..]]
  {
  }

  lemma OnwardSelf(s: Snap)
    ensures Onward(s, s)
  {
  }

  lemma OnwardOn(s: Snap, t: Snap, u: Snap)
    requires Onward(s, t) && Onward(t, u)
    ensures Onward(s, u)
  {
  }

  /** A thread's stride, drained up to bucket j, stays drained. */
  lemma StayDrained(n: nat, s: Snap, t: Snap, k: nat, j: nat)
    requires n > 0 && Onward(s, t) && Barrier.Drained(n, s.table, k, j)
    ensures Barrier.Drained(n, t.table, k, j)
  {
  }

  /** Thread k has come to bucket j of its stride. */
  ghost predicate Striding(n: nat, s: Snap, k: nat, j: nat)
    requires n > 0
  {
    Mod(j, n) == k && Barrier.Drained(n, s.table, k, j)
  }

  lemma StrideBegins(n: nat, s: Snap, k: nat)
    requires k < n
    ensures Striding(n, s, k, k)
  {
    Barrier.FirstBucket(n, s.table, k);
  }

  lemma StrideOn(n: nat, s: Snap, t: Snap, k: nat, j: nat)
    requires k < n && Striding(n, s, k, j) && Onward(s, t) && j < |t.table| && t.table[j] == []
    ensures Striding(n, t, k, j + n)
  {
    StayDrained(n, s, t, k, j);
    Barrier.NextBucket(n, t.table, k, j);
  }

  lemma StrideEnds(n: nat, s: Snap, k: nat, j: nat)
    requires n > 0 && Striding(n, s, k, j) && j >= |s.table|
    ensures Barrier.Drained(n, s.table, k, |s.table|)
  {
    Barrier.EndOfStride(n, s.table, k, j);
  }

  /** The strides of the first k threads are drained. */
  ghost predicate StridesDrained(n: nat, s: Snap, k: nat)
    requires n > 0
  {
    forall l: nat :: l < k ==> Barrier.Drained(n, s.table, l, |s.table|)
  }

  lemma NoStride(n: nat, s: Snap)
    requires n > 0
    ensures StridesDrained(n, s, 0)
  {
  }

  lemma StridesStay(n: nat, s: Snap, t: Snap, k: nat)
    requires n > 0 && Onward(s, t) && StridesDrained(n, s, k) && Barrier.Drained(n, t.table, k, |t.table|)
    ensures StridesDrained(n, t, k + 1)
  {
    forall l: nat | l < k ensures Barrier.Drained(n, t.table, l, |t.table|) {
      StayDrained(n, s, t, l, |s.table|);
    }
  }

  /** A whole round: nothing is left in the index, and every block that was there is on the SSD. */
  ghost predicate AllMoved(s: Snap, t: Snap) {
    && t.slots == s.slots && |t.ssd| == |s.ssd| && |t.headers| == |s.headers| == |s.slots|
    && t.meta == Meta(map[], s.meta.bitmap, s.meta.nextBit, s.meta.used - |s.meta.index|)
    && (forall b :: b in s.meta.index ==> s.meta.index[b] < |s.slots|)
    && (forall b: nat :: b < |s.ssd| ==> t.ssd[b] == if b in s.meta.index then s.slots[s.meta.index[b]] else s.ssd[b])
    && forall o: nat :: o < |s.headers| ==> t.headers[o] == if o in s.meta.index.Values then s.headers[o].(valid := false) else s.headers[o]
  }

  /** All strides drained means all buckets empty, and so all blocks migrated. */
  lemma AllDrained(h: nat -> nat, n: nat, s: Snap, t: Snap)
    requires n > 0 && Draining(h, s, t) && StridesDrained(n, t, n)
    ensures AllMoved(s, t)
  {
    forall i | 0 <= i < |t.table| ensures t.table[i] == [] {
      assert Barrier.Drained(n, t.table, Mod(i, n), |t.table|);
    }
    EmptyStands(t.table, h, t.meta.index);
    hide Ready, Stands, Placed, Unique;
    forall o: nat ensures Freed(s, t, o) <==> o in s.meta.index.Values {
      if o in s.meta.index.Values {
        var b :| b in s.meta.index && s.meta.index[b] == o;
        assert Gone(s, t, b);
      }
    }
  }

  /** The SSD after a round. */
  ghost function DrainedSsd(index: map<nat, nat>, slots: seq<Data>, ssd: seq<Data>): (r: seq<Data>)
    requires forall b :: b in index ==> index[b] < |slots|
    ensures |r| == |ssd|
    ensures forall b: nat :: b < |ssd| ==> r[b] == if b in index then slots[index[b]] else ssd[b]
  {
    seq(|ssd|, b requires 0 <= b < |ssd| => if b in index then slots[index[b]] else ssd[b])
  }

  /** The headers after a round. */
  ghost function DrainedHeaders(index: map<nat, nat>, headers: seq<Header>): (r: seq<Header>)
    ensures |r| == |headers|
    ensures forall o: nat :: o < |headers| ==> r[o] == if exists b :: b in index && index[b] == o then headers[o].(valid := false) else headers[o]
  {
    seq(|headers|, o requires 0 <= o < |headers| => if o in index.Values then headers[o].(valid := false) else headers[o])
  }

  lemma RoundArrays(s: Snap, t: Snap)
    requires AllMoved(s, t)
    ensures t.ssd == DrainedSsd(s.meta.index, s.slots, s.ssd) && t.headers == DrainedHeaders(s.meta.index, s.headers)
  {
  }

  /** The last step of the round: mix_bitmap_clear. */
  ghost function Cleared(per: nat, s: Snap): Snap {
    s.(meta := Wiped(per, s.meta))
  }

  /** Migrating with the bare slot number copies every block's own data, whatever the slots hold,
      exactly for the segment that starts at slot 0 -- or an empty one. */
  lemma BareSlotExact(per: nat, base: nat, index: map<nat, nat>)
    requires forall b :: b in index ==> index[b] < per
    ensures (forall slots: seq<Data>, b :: |slots| >= base + per && b in index ==> slots[index[b]] == slots[base + index[b]])
            <==> base == 0 || index == map[]
  {
    if base > 0 && index != map[] {
      var b :| b in index;
      var slots: seq<Data> := seq(base + per, o requires 0 <= o < base + per => Data(if o == index[b] then [0] else []));
      assert slots[index[b]] != slots[base + index[b]];
    }
  }
}
