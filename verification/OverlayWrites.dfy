/** The steps of an NVM worker on writes and migration keep the invariant. */
module OverlayWrites {
  import opened Common
  import opened Metadata
  import opened Overlay
  import opened OverlayInvariant
  import opened OverlaySteps

  /** Nothing that belongs to another segment than i differs between s and t. */
  ghost predicate Elsewhere(g: Config, i: nat, s: State, t: State)
    requires Shaped(g, s)
  {
    && |t.segs| == |s.segs| && |t.ssd| == |s.ssd| && |t.abs| == |s.abs| && |t.done| == |s.done|
    && (forall k :: 0 <= k < |s.segs| && k != i ==> t.segs[k] == s.segs[k])
    && s.clock <= t.clock
    && forall b: nat :: b < g.disk && Route(g, b) != i ==> SameBlock(s, t, b)
  }

  ghost predicate SameBlock(s: State, t: State, b: nat)
    requires |t.ssd| == |s.ssd| && |t.abs| == |s.abs| && |t.done| == |s.done|
    requires b < |s.ssd| && b < |s.abs| && b < |s.done|
  {
    && t.ssd[b] == s.ssd[b] && t.abs[b] == s.abs[b] && t.done[b] == s.done[b]
    && SameClaims(s, t, b)
  }

  ghost predicate SameClaims(s: State, t: State, b: nat) {
    forall r: nat ::
      Wanted(t, r, b) == Wanted(s, r, b) && Copied(t, r, b) == Copied(s, r, b) && Credited(t, r, b) == Credited(s, r, b)
  }

  lemma Glue(g: Config, i: nat, s: State, t: State)
    requires Inv(g, s) && i < g.segs && Elsewhere(g, i, s, t)
    requires LocalOk(g, i, t.segs[i])
    requires forall b: nat :: Mine(g, i, b) ==> BlockOkAt(g, t, b)
    requires forall r: nat, b: nat :: Mine(g, i, b) ==> ClaimOkAt(g, t, r, b)
    requires forall r :: 0 <= r < |t.reqs| ==> ReqOk(g, t.reqs[r])
    ensures Inv(g, t)
  {
    hide LocalOk, BlockOk, ClaimOk;
    assert Shaped(g, t) by { LocalSizes(g, i, t.segs[i]); }
    forall b: nat | b < g.disk ensures BlockOkAt(g, t, b) {
      if Route(g, b) == i {
        assert Mine(g, i, b);
      } else {
        assert BlockOkAt(g, s, b) && SameBlock(s, t, b);
        var c := s.segs[Route(g, b)];
        BlockLater(c.pc, Pending(c), b, SlotCell(c, b), s.ssd[b], s.abs[b], s.done[b], s.clock, t.clock);
      }
    }
    forall r: nat, b: nat | b < g.disk ensures ClaimOkAt(g, t, r, b) {
      if Route(g, b) == i {
        assert Mine(g, i, b);
      } else {
        assert ClaimOkAt(g, s, r, b) && SameBlock(s, t, b);
      }
    }
  }

  lemma LocalSizes(g: Config, i: nat, c: Seg)
    requires LocalOk(g, i, c)
    ensures |c.slots| == |c.headers| == g.per
  {
  }

  /** A worker that is not reading keeps every claim, whatever it does to the slots. */
  lemma ClaimsKept(g: Config, i: nat, s: State, t: State)
    requires Inv(g, s) && Shaped(g, s) && i < g.segs && Shaped(g, t)
    requires Pending(t.segs[i]) == Pending(s.segs[i]) && t.segs[i].exec == s.segs[i].exec
    requires !s.segs[i].pc.Scan? && !t.segs[i].pc.Scan?
    requires forall b: nat :: Mine(g, i, b) ==> t.ssd[b] == s.ssd[b] || !CoveredBy(Pending(s.segs[i]), b)
    requires t.reqs == s.reqs
    ensures forall r: nat, b: nat :: Mine(g, i, b) ==> ClaimOkAt(g, t, r, b)
  {
    hide Inv, LocalOk, BlockOk;
    forall r: nat, b: nat | Mine(g, i, b) ensures ClaimOkAt(g, t, r, b) {
      ClaimPart(g, s, r, b);
      ClaimElsewhere(s.segs[i].pc, t.segs[i].pc, Pending(s.segs[i]), s.segs[i].exec, r, b, s.ssd[b], t.ssd[b], s.abs[b], t.abs[b],
                     Wanted(s, r, b), Copied(s, r, b), Credited(s, r, b));
    }
  }

  /** A block of a read is kept by a worker that does not scan; its SSD copy may change if no task covers it. */
  lemma ClaimElsewhere(pc: Pc, next: Pc, p: seq<Task>, e: Exec, r: nat, b: nat, x: Cell, y: Cell, a: Cell, z: Cell, w: Option<Cell>, c: Option<Cell>, cr: bool)
    requires ClaimOk(pc, p, e, r, b, x, a, w, c, cr) && !pc.Scan? && !next.Scan? && (y == x || !CoveredBy(p, b))
    ensures ClaimOk(next, p, e, r, b, y, z, w, c, cr)
  {
    hide After;
    if !CoveredBy(p, b) {
      forall j | 0 <= j < |p| ensures !Reads(p[j], r, b) { assert !Covers(p[j], b); }
    }
  }

  // ----- accepting a write -----

  lemma LocalBeginSmall(g: Config, i: nat, c: Seg, off: nat, cell: Cell)
    requires LocalOk(g, i, c) && c.pc.Idle? && Mine(g, i, off)
    ensures LocalOk(g, i, c.(pc := Look(off, cell)))
    ensures Live(c.(pc := Look(off, cell))) == Live(c)
  {
  }

  lemma LocalPost(g: Config, i: nat, c: Seg, t: Task)
    requires LocalOk(g, i, c) && TaskOk(g, i, t) && !c.pc.Migrate?
    ensures LocalOk(g, i, Post(c, t)) && Pending(Post(c, t)) == Pending(c) + [t] && Live(Post(c, t)) == Live(c)
  {
    var d := Post(c, t);
    assert Pending(d) == Pending(c) + [t];
    assert Live(d) == Live(c);
    assert MetaOk(g, d) && PcOk(g, i, d);
  }

  lemma LocalBeginLarge(g: Config, i: nat, c: Seg, off: nat, cells: seq<Cell>)
    requires LocalOk(g, i, c) && c.pc.Idle? && (forall b: nat :: off <= b < off + |cells| ==> Mine(g, i, b))
    ensures var d := Post(c, Write(off, cells)).(pc := Clear(off, cells, 0));
            LocalOk(g, i, d) && Pending(d) == Pending(c) + [Write(off, cells)] && Live(d) == Live(c)
  {
    hide Match, Sound;
    LocalPost(g, i, c, Write(off, cells));
  }

  lemma StepBeginSmall(v: Variant, g: Config, s: State, i: nat, off: nat, data: seq<Data>)
    requires Inv(g, s) && Enabled(v, g, s, BeginWrite(i, off, data)) && |data| == 1
    ensures Inv(g, Do(v, g, s, BeginWrite(i, off, data)))
  {
    hide Inv, LocalOk, ClaimOk, BlockOk, Live;
    var t := Do(v, g, s, BeginWrite(i, off, data));
    var c := s.segs[i];
    LocalPart(g, s, i);
    assert Mine(g, i, off);
    LocalBeginSmall(g, i, c, off, Cell(data[0], s.clock));
    forall b: nat | Mine(g, i, b) ensures BlockOkAt(g, t, b) {
      BlockPart(g, s, b);
      BlockLook(Pending(c), b, Cell(data[0], s.clock), off, SlotCell(c, b), s.ssd[b], s.abs[b], s.done[b], s.clock);
    }
    ClaimsKept(g, i, s, t);
    ReqPart(g, s);
    Glue(g, i, s, t);
  }

  lemma StepBeginLarge(v: Variant, g: Config, s: State, i: nat, off: nat, data: seq<Data>)
    requires Inv(g, s) && Enabled(v, g, s, BeginWrite(i, off, data)) && |data| > 1
    ensures Inv(g, Do(v, g, s, BeginWrite(i, off, data)))
  {
    hide Inv, LocalOk, BlockOk, ClaimOk;
    var t := Do(v, g, s, BeginWrite(i, off, data));
    var c := s.segs[i];
    var cells := t.segs[i].pc.cells;
    LocalPart(g, s, i);
    LocalBeginLarge(g, i, c, off, cells);
    forall b: nat | Mine(g, i, b) ensures BlockOkAt(g, t, b) {
      BlockPart(g, s, b);
      BlockLarge(Pending(c), b, off, cells, SlotCell(c, b), s.ssd[b], s.abs[b], s.done[b], s.clock);
    }
    forall r: nat, b: nat | Mine(g, i, b) ensures ClaimOkAt(g, t, r, b) {
      ClaimPart(g, s, r, b);
      ClaimPosted(c.pc, Pending(c), Write(off, cells), c.exec, r, b, s.ssd[b], s.abs[b], Wanted(s, r, b), Copied(s, r, b), Credited(s, r, b));
      ClaimElsewhere(c.pc, t.segs[i].pc, Pending(t.segs[i]), c.exec, r, b, s.ssd[b], s.ssd[b], s.abs[b], s.abs[b],
                     Wanted(s, r, b), Copied(s, r, b), Credited(s, r, b));
    }
    ReqPart(g, s);
    Glue(g, i, s, t);
  }

  // ----- a small write -----

  /** When Lookup is sound: the slot it takes gets indexed (Metadata.ReserveExact). */
  ghost predicate LookupSafe(v: Variant, g: Config, i: nat, c: Seg)
    requires Sane(g) && c.pc.Look? && c.meta.nextBit < Bits(g.per)
  {
    BlockTest(g.per, c.meta, c.pc.b).Some? || Full(g.per, c.meta) || ReserveSafe(v, g.segs, i, g.per, c.meta)
  }

  lemma LocalLookupHit(v: Variant, g: Config, i: nat, c: Seg)
    requires Sane(g) && i < g.segs && LocalOk(g, i, c) && c.pc.Look? && c.meta.nextBit < Bits(g.per)
    requires c.pc.b in c.meta.index || Full(g.per, c.meta)
    ensures var d := DoLookup(v, g, i, c);
            && LocalOk(g, i, d) && Live(d) == Live(c)
            && d.pc == if c.pc.b in c.meta.index then PutData(c.pc.b, c.pc.cell, c.meta.index[c.pc.b], false) else Wait(c.pc.b, c.pc.cell)
  {
    hide Sound;
    BlockTestIsIndex(g.per, c.meta, c.pc.b);
  }

  lemma LocalLookupMiss(v: Variant, g: Config, i: nat, c: Seg)
    requires Sane(g) && i < g.segs && LocalOk(g, i, c) && c.pc.Look? && c.meta.nextBit < Bits(g.per)
    requires c.pc.b !in c.meta.index && !Full(g.per, c.meta) && ReserveSafe(v, g.segs, i, g.per, c.meta)
    ensures var d := DoLookup(v, g, i, c);
            && LocalOk(g, i, d) && Live(d) == Live(c)
            && d.pc.PutData? && d.pc.isNew && d.pc.b == c.pc.b && d.pc.cell == c.pc.cell
  {
    hide Sound, Reserve, ReserveSafe;
    var d := DoLookup(v, g, i, c);
    var b := c.pc.b;
    BlockTestIsIndex(g.per, c.meta, b);
    ReserveExact(v, g.segs, i, g.per, c.meta, b);
    assert d.meta.index == c.meta.index[b := d.pc.slot];
    assert d.meta.index - {b} == c.meta.index;
    assert Pending(d) == Pending(c);
  }

  lemma LocalLookup(v: Variant, g: Config, i: nat, c: Seg)
    requires Sane(g) && i < g.segs && LocalOk(g, i, c) && c.pc.Look? && c.meta.nextBit < Bits(g.per)
    requires LookupSafe(v, g, i, c)
    ensures var d := DoLookup(v, g, i, c);
            && LocalOk(g, i, d) && Live(d) == Live(c)
            && (d.pc.PutData? || d.pc.Wait?) && d.pc.b == c.pc.b && d.pc.cell == c.pc.cell
            && d == c.(meta := d.meta, pc := d.pc)
  {
    hide Reserve, ReserveSafe, Match;
    BlockTestIsIndex(g.per, c.meta, c.pc.b);
    if c.pc.b in c.meta.index || Full(g.per, c.meta) { LocalLookupHit(v, g, i, c); } else { LocalLookupMiss(v, g, i, c); }
  }

  lemma StepLookup(v: Variant, g: Config, s: State, i: nat)
    requires Inv(g, s) && Enabled(v, g, s, Lookup(i)) && LookupSafe(v, g, i, s.segs[i])
    ensures Inv(g, Do(v, g, s, Lookup(i)))
  {
    hide Inv, ClaimOk, LocalOk, LookupSafe, DoLookup, Live, BlockOk;
    var t := Do(v, g, s, Lookup(i));
    var c := s.segs[i];
    LocalPart(g, s, i);
    LocalLookup(v, g, i, c);
    forall b: nat | Mine(g, i, b) ensures BlockOkAt(g, t, b) {
      BlockPart(g, s, b);
      assert SlotCell(t.segs[i], b) == SlotCell(c, b);
      BlockPlain(c.pc, t.segs[i].pc, Pending(c), b, SlotCell(c, b), s.ssd[b], s.abs[b], s.done[b], s.clock);
    }
    ClaimsKept(g, i, s, t);
    ReqPart(g, s);
    Glue(g, i, s, t);
  }

  lemma LocalStoreData(g: Config, i: nat, c: Seg)
    requires LocalOk(g, i, c) && c.pc.PutData?
    ensures var d := c.(slots := Put(c.slots, c.pc.slot, c.pc.cell), pc := PutHeader(c.pc.b, c.pc.cell, c.pc.slot, c.pc.isNew));
            && LocalOk(g, i, d)
            && (!c.pc.isNew ==> SlotCell(c, c.pc.b).Some?)
            && forall b :: SlotCell(d, b) == if b == c.pc.b && !c.pc.isNew then Some(c.pc.cell) else SlotCell(c, b)
  {
    var d := c.(slots := Put(c.slots, c.pc.slot, c.pc.cell), pc := PutHeader(c.pc.b, c.pc.cell, c.pc.slot, c.pc.isNew));
    assert Live(d) == Live(c);
    assert c.pc.slot in c.meta.bitmap;
    forall b | b in Live(c) && b != c.pc.b ensures Live(c)[b] != c.pc.slot {
      assert c.meta.index[b] == Live(c)[b];
    }
  }

  lemma StepStoreData(v: Variant, g: Config, s: State, i: nat)
    requires Inv(g, s) && Enabled(v, g, s, StoreData(i))
    ensures Inv(g, Do(v, g, s, StoreData(i)))
  {
    hide Inv, ClaimOk, LocalOk, SlotCell, BlockOk;
    var t := Do(v, g, s, StoreData(i));
    var c := s.segs[i];
    LocalPart(g, s, i);
    LocalStoreData(g, i, c);
    forall b: nat | Mine(g, i, b) ensures BlockOkAt(g, t, b) {
      BlockPart(g, s, b);
      BlockDataStored(Pending(c), b, c.pc, t.segs[i].pc, SlotCell(c, b), s.ssd[b], s.abs[b], s.done[b], s.clock);
    }
    ClaimsKept(g, i, s, t);
    ReqPart(g, s);
    Glue(g, i, s, t);
  }

  lemma LocalStoreHeader(g: Config, i: nat, c: Seg)
    requires LocalOk(g, i, c) && c.pc.PutHeader?
    ensures var d := c.(headers := Put(c.headers, c.pc.slot, Header(true, c.pc.b)), pc := Idle);
            && LocalOk(g, i, d)
            && Mine(g, i, c.pc.b)
            && forall b :: SlotCell(d, b) == if b == c.pc.b then Some(c.pc.cell) else SlotCell(c, b)
  {
    var d := c.(headers := Put(c.headers, c.pc.slot, Header(true, c.pc.b)), pc := Idle);
    var b := c.pc.b;
    assert Live(d) == c.meta.index;
    assert forall k :: k in c.meta.index && k != b ==> k in Live(c) && Live(c)[k] == c.meta.index[k] != c.pc.slot;
    assert Match(d.headers, Live(d));
  }

  lemma StepStoreHeader(v: Variant, g: Config, s: State, i: nat)
    requires Inv(g, s) && Enabled(v, g, s, StoreHeader(i))
    ensures Inv(g, Do(v, g, s, StoreHeader(i)))
  {
    hide Inv, ClaimOk, LocalOk, SlotCell, BlockOk;
    var t := Do(v, g, s, StoreHeader(i));
    var c := s.segs[i];
    LocalPart(g, s, i);
    LocalStoreHeader(g, i, c);
    forall b: nat | Mine(g, i, b) ensures BlockOkAt(g, t, b) {
      BlockPart(g, s, b);
      BlockHeaderStored(Pending(c), c.pc, b, SlotCell(c, b), s.ssd[b], s.abs[b], s.done[b], s.clock);
    }
    ClaimsKept(g, i, s, t);
    ReqPart(g, s);
    Glue(g, i, s, t);
  }

  // ----- clearing after a large write -----

  /** When the loop may return at an unbuffered block: no later block is buffered either. */
  ghost predicate ClearSafe(v: Variant, c: Seg)
    requires c.pc.Clear?
  {
    v.clearAll || NoneBuffered(c.meta, c.pc.off, |c.pc.cells|, c.pc.k) || c.pc.off + c.pc.k in c.meta.index
  }

  lemma LocalClearHit(v: Variant, g: Config, i: nat, c: Seg)
    requires Sane(g) && LocalOk(g, i, c) && c.pc.Clear? && c.pc.k < |c.pc.cells| && c.pc.off + c.pc.k in c.meta.index
    ensures LocalOk(g, i, DoClearNext(v, g, c))
  {
    hide Match, Sound, DoClearNext;
    var b0 := c.pc.off + c.pc.k;
    var d := DoClearNext(v, g, c);
    MatchCleared(c.headers, c.meta.index, b0);
    ClearHitMeta(v, g, c);
    assert Live(d) == c.meta.index - {b0};
    assert forall b :: b in d.meta.index ==> b in c.meta.index && b != b0;
    assert PcOk(g, i, d);
    assert Pending(d) == Pending(c);
  }

  lemma ClearHitSlots(v: Variant, g: Config, i: nat, c: Seg)
    requires Sane(g) && LocalOk(g, i, c) && c.pc.Clear? && c.pc.k < |c.pc.cells| && c.pc.off + c.pc.k in c.meta.index
    ensures var d := DoClearNext(v, g, c);
            var b0 := c.pc.off + c.pc.k;
            && c.meta.index[b0] < |c.slots| && SlotCell(c, b0) == Some(c.slots[c.meta.index[b0]])
            && forall b :: SlotCell(d, b) == if b == b0 then None else SlotCell(c, b)
  {
    hide Match, Sound, DoClearNext;
    ClearHitMeta(v, g, c);
  }

  lemma ClearHitMeta(v: Variant, g: Config, c: Seg)
    requires g.per > 0 && Sound(g.per, c.meta) && |c.headers| == g.per
    requires c.pc.Clear? && c.pc.k < |c.pc.cells| && c.pc.off + c.pc.k in c.meta.index
    ensures var d := DoClearNext(v, g, c);
            var b0 := c.pc.off + c.pc.k;
            var o := c.meta.index[b0];
            && Sound(g.per, d.meta)
            && o < g.per
            && d.meta.index == c.meta.index - {b0} && d.meta.nextBit == c.meta.nextBit
            && d == c.(headers := c.headers[o := c.headers[o].(valid := false)], meta := d.meta, pc := Clear(c.pc.off, c.pc.cells, c.pc.k + 1))
  {
    var b0 := c.pc.off + c.pc.k;
    ClearSound(g.per, c.meta, b0);
    assert Mod(c.meta.index[b0], g.per) == c.meta.index[b0];
  }

  lemma LocalClearMiss(v: Variant, g: Config, i: nat, c: Seg)
    requires Sane(g) && LocalOk(g, i, c) && c.pc.Clear? && ClearSafe(v, c)
    requires !(c.pc.k < |c.pc.cells| && c.pc.off + c.pc.k in c.meta.index)
    ensures var d := DoClearNext(v, g, c);
            && LocalOk(g, i, d)
            && (forall b :: SlotCell(d, b) == SlotCell(c, b))
            && (d.pc.Clear? ==> SlotCell(c, c.pc.off + c.pc.k).None?)
            && (d.pc.Idle? ==> forall b :: InClear(c.pc, b) ==> SlotCell(c, b).None?)
  {
    hide Sound, Match;
    var d := DoClearNext(v, g, c);
    assert Live(d) == Live(c);
    if d.pc.Idle? && c.pc.k < |c.pc.cells| {
      assert NoneBuffered(c.meta, c.pc.off, |c.pc.cells|, c.pc.k);
    }
  }

  lemma ClearedElsewhere(v: Variant, g: Config, s: State, i: nat)
    requires Inv(g, s) && Enabled(v, g, s, ClearNext(i))
    ensures Elsewhere(g, i, s, Do(v, g, s, ClearNext(i)))
  {
    hide Inv, LocalOk, DoClearNext;
    var c := s.segs[i];
    var t := Do(v, g, s, ClearNext(i));
    LocalPart(g, s, i);
    ClearIsMine(g, i, c);
    forall b: nat | b < g.disk && Route(g, b) != i ensures SameBlock(s, t, b) {
      assert !InClear(c.pc, b);
    }
  }

  lemma ClearIsMine(g: Config, i: nat, c: Seg)
    requires LocalOk(g, i, c) && c.pc.Clear?
    ensures forall b: nat :: InClear(c.pc, b) ==> Mine(g, i, b)
  {
  }

  lemma StepClearHit(v: Variant, g: Config, s: State, i: nat)
    requires Inv(g, s) && Enabled(v, g, s, ClearNext(i))
    requires var c := s.segs[i]; c.pc.k < |c.pc.cells| && c.pc.off + c.pc.k in c.meta.index
    ensures Inv(g, Do(v, g, s, ClearNext(i)))
  {
    hide Inv, ClaimOk, LocalOk, SlotCell, BlockOk, Elsewhere;
    var t := Do(v, g, s, ClearNext(i));
    var c := s.segs[i];
    LocalPart(g, s, i);
    LocalClearHit(v, g, i, c);
    ClearHitSlots(v, g, i, c);
    forall b: nat | Mine(g, i, b) ensures BlockOkAt(g, t, b) {
      BlockPart(g, s, b);
      if b == c.pc.off + c.pc.k {
        BlockCleared(c.pc, Pending(c), b, SlotCell(c, b), s.ssd[b], s.abs[b], s.done[b], s.clock);
      } else {
        BlockNotCleared(c.pc, Pending(c), b, SlotCell(c, b), s.ssd[b], s.abs[b], s.done[b], s.clock);
      }
    }
    ClearedElsewhere(v, g, s, i);
    ClaimsKept(g, i, s, t);
    ReqPart(g, s);
    Glue(g, i, s, t);
  }

  lemma StepClearMiss(v: Variant, g: Config, s: State, i: nat)
    requires Inv(g, s) && Enabled(v, g, s, ClearNext(i)) && ClearSafe(v, s.segs[i])
    requires var c := s.segs[i]; !(c.pc.k < |c.pc.cells| && c.pc.off + c.pc.k in c.meta.index)
    ensures Inv(g, Do(v, g, s, ClearNext(i)))
  {
    hide Inv, ClaimOk, LocalOk, SlotCell, BlockOk, Elsewhere, ClearSafe;
    var t := Do(v, g, s, ClearNext(i));
    var c := s.segs[i];
    LocalPart(g, s, i);
    LocalClearMiss(v, g, i, c);
    forall b: nat | Mine(g, i, b) ensures BlockOkAt(g, t, b) {
      BlockPart(g, s, b);
      if t.segs[i].pc.Idle? {
        BlockAllCleared(c.pc, Pending(c), b, SlotCell(c, b), s.ssd[b], s.abs[b], s.done[b], s.clock);
      } else {
        BlockNotCleared(c.pc, Pending(c), b, SlotCell(c, b), s.ssd[b], s.abs[b], s.done[b], s.clock);
      }
    }
    ClearedElsewhere(v, g, s, i);
    ClaimsKept(g, i, s, t);
    ReqPart(g, s);
    Glue(g, i, s, t);
  }
}
