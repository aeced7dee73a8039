/** The steps of a migration round keep the invariant.  Any number of threads may hold entries at
    the same time: held is every entry popped from the index and not yet cleared. */
module OverlayMigration {
  import opened Common
  import opened Metadata
  import opened Overlay
  import opened OverlayInvariant
  import opened OverlaySteps
  import opened OverlayWrites

  lemma StepDrain(v: Variant, g: Config, s: State, i: nat)
    requires Inv(g, s) && Enabled(v, g, s, Drain(i)) && Harmless(s.segs[i])
    ensures Inv(g, Do(v, g, s, Drain(i)))
  {
    hide Inv, LocalOk, ClaimOk, BlockOk, Live;
    var t := Do(v, g, s, Drain(i));
    var c := s.segs[i];
    LocalPart(g, s, i);
    LocalDrain(g, i, c);
    KeepBlocks(g, i, s, t);
    ClaimsKept(g, i, s, t);
    ReqPart(g, s);
    Glue(g, i, s, t);
  }

  lemma LocalDrain(g: Config, i: nat, c: Seg)
    requires LocalOk(g, i, c) && c.pc.Wait? && Harmless(c)
    ensures var d := c.(pc := Migrate(c.pc.b, c.pc.cell, map[], {}, 0));
            LocalOk(g, i, d) && Live(d) == Live(c)
  {
    var d := c.(pc := Migrate(c.pc.b, c.pc.cell, map[], {}, 0));
    assert Live(d) == c.meta.index;
    assert Pending(d) == Pending(c);
  }

  /** Steps of segment i that leave every slot cell and the media alone keep its blocks. */
  lemma KeepBlocks(g: Config, i: nat, s: State, t: State)
    requires Inv(g, s) && Shaped(g, s) && i < g.segs && Shaped(g, t) && t == s.(segs := s.segs[i := t.segs[i]])
    requires var c, d := s.segs[i], t.segs[i];
             && Pending(d) == Pending(c) && Live(d) == Live(c) && d.slots == c.slots
             && !c.pc.Clear? && !c.pc.PutHeader? && !d.pc.Clear? && !d.pc.PutHeader?
             && (d.pc.Look? || d.pc.Wait? || d.pc.Migrate? || d.pc.PutData? ==>
                   (c.pc.Look? || c.pc.Wait? || c.pc.Migrate? || c.pc.PutData?) && d.pc.b == c.pc.b && d.pc.cell == c.pc.cell)
             && (d.pc.Migrate? && d.pc.copied != {} ==> c.pc.Migrate? && d.pc.copied <= c.pc.copied)
    ensures forall b: nat :: Mine(g, i, b) ==> BlockOkAt(g, t, b)
  {
    hide Inv, LocalOk, ClaimOk, BlockOk, Live;
    var c, d := s.segs[i], t.segs[i];
    forall b: nat | Mine(g, i, b) ensures BlockOkAt(g, t, b) {
      BlockPart(g, s, b);
      BlockPlain(c.pc, d.pc, Pending(c), b, SlotCell(c, b), s.ssd[b], s.abs[b], s.done[b], s.clock);
    }
  }

  /** During a round only the entries, the counts and the headers change. */
  lemma LocalRound(g: Config, i: nat, c: Seg, d: Seg)
    requires LocalOk(g, i, c) && c.pc.Migrate? && d.pc.Migrate?
    requires d == c.(headers := d.headers, meta := d.meta, pc := d.pc) && d.pc.b == c.pc.b && d.pc.cell == c.pc.cell
    requires |d.headers| == |c.headers| && MetaOk(g, d) && Match(d.headers, Live(d))
    requires Live(d).Keys <= Live(c).Keys
    ensures LocalOk(g, i, d) && Pending(d) == Pending(c)
  {
    hide Match, MetaOk;
    assert Pending(d) == Pending(c);
    assert forall b :: b in Live(d) ==> b in Live(c);
  }

  lemma LocalPop(g: Config, i: nat, c: Seg, b: nat)
    requires LocalOk(g, i, c) && c.pc.Migrate? && b in c.meta.index
    ensures LocalOk(g, i, DoPop(c, b)) && Live(DoPop(c, b)) == Live(c)
  {
    hide Match;
    var d := DoPop(c, b);
    MoveEntry(c.meta.index, c.pc.held, b);
    MoveEntrySize(c.meta.index, c.pc.held, b);
    LocalRound(g, i, c, d);
  }

  /** Moving an entry from the index to the held ones changes neither their union nor their number. */
  lemma MoveEntry(index: map<nat, nat>, held: map<nat, nat>, b: nat)
    requires b in index && index.Keys !! held.Keys
    ensures (index - {b}) + held[b := index[b]] == index + held
  {
  }

  lemma MoveEntrySize(index: map<nat, nat>, held: map<nat, nat>, b: nat)
    requires b in index && index.Keys !! held.Keys
    ensures |index - {b}| + |held[b := index[b]]| == |index| + |held|
    ensures (index - {b}).Keys !! held[b := index[b]].Keys
  {
    var i2, h2 := index - {b}, held[b := index[b]];
    assert i2.Keys == index.Keys - {b};
    assert h2.Keys == held.Keys + {b};
    assert |i2.Keys| == |index.Keys| - 1 && |h2.Keys| == |held.Keys| + 1;
  }

  /** Letting go of a held entry. */
  lemma DropEntry(index: map<nat, nat>, held: map<nat, nat>, b: nat)
    requires b in held && index.Keys !! held.Keys
    ensures index + (held - {b}) == (index + held) - {b}
    ensures |held - {b}| == |held| - 1
  {
    RemoveOne(held, b);
  }

  lemma StepPop(v: Variant, g: Config, s: State, i: nat, b: nat)
    requires Inv(g, s) && Enabled(v, g, s, Pop(i, b))
    ensures Inv(g, Do(v, g, s, Pop(i, b)))
  {
    hide Inv, LocalOk, ClaimOk, BlockOk, Live;
    var t := Do(v, g, s, Pop(i, b));
    LocalPart(g, s, i);
    LocalPop(g, i, s.segs[i], b);
    KeepBlocks(g, i, s, t);
    ClaimsKept(g, i, s, t);
    ReqPart(g, s);
    Glue(g, i, s, t);
  }

  /** When Copy and Wipe are sound: the slot that the worker's thread addresses is its own segment's. */
  predicate OwnBase(v: Variant, i: nat) {
    Source(v, i) == i
  }

  lemma LocalCopy(g: Config, i: nat, c: Seg, b: nat)
    requires LocalOk(g, i, c) && c.pc.Migrate? && b in c.pc.held
    ensures var d := c.(pc := Migrate(c.pc.b, c.pc.cell, c.pc.held, c.pc.copied + {b}, c.pc.spent));
            && LocalOk(g, i, d) && Live(d) == Live(c)
            && SlotCell(c, b) == Some(c.slots[c.pc.held[b]])
            && Mine(g, i, b)
            && Pending(d) == Pending(c) && !CoveredBy(Pending(c), b)
  {
    hide Match;
    LiveBound(c);
    var d := c.(pc := Migrate(c.pc.b, c.pc.cell, c.pc.held, c.pc.copied + {b}, c.pc.spent));
    assert b in Live(c) && Live(c)[b] == c.pc.held[b];
    assert Pending(d) == Pending(c);
  }

  lemma LiveBound(c: Seg)
    requires Match(c.headers, Live(c))
    ensures forall b :: b in Live(c) ==> Live(c)[b] < |c.headers|
  {
  }

  lemma {:induction false} AfterNothing(p: seq<Task>, n: nat, b: nat, x: Cell)
    requires n <= |p| && !CoveredBy(p, b)
    ensures After(p, n, b, x) == x
  {
    if n > 0 {
      assert !Covers(p[n - 1], b);
      AfterNothing(p, n - 1, b, x);
    }
  }

  lemma NotWritten(p: seq<Task>, b: nat)
    requires !CoveredBy(p, b)
    ensures forall j :: 0 <= j < |p| ==> !Writes(p[j], b)
  {
    forall j | 0 <= j < |p| ensures !Writes(p[j], b) { assert !Covers(p[j], b); }
  }

  lemma BlockCopied(pc: Pc, next: Pc, p: seq<Task>, b: nat, o: Cell, x: Cell, a: Cell, d: Cell, clock: nat)
    requires BlockOk(pc, p, b, Some(o), x, a, d, clock) && pc.Migrate? && next.Migrate? && !CoveredBy(p, b)
    requires Small(next, b) ==> Small(pc, b) && next.cell == pc.cell
    ensures BlockOk(next, p, b, Some(o), o, a, d, clock)
  {
    NotWritten(p, b);
  }

  lemma StepCopy(v: Variant, g: Config, s: State, i: nat, b: nat)
    requires Inv(g, s) && Enabled(v, g, s, Copy(i, b)) && OwnBase(v, i)
    ensures Inv(g, Do(v, g, s, Copy(i, b)))
  {
    hide Route, Mod, Div, Older, Ascending, Inv, LocalOk, ClaimOk, BlockOk, Live, ClaimOkAt, After, SsdOk;
    var t := Do(v, g, s, Copy(i, b));
    var c := s.segs[i];
    LocalPart(g, s, i);
    LocalCopy(g, i, c, b);
    forall k: nat | Mine(g, i, k) ensures BlockOkAt(g, t, k) {
      BlockPart(g, s, k);
      assert SlotCell(t.segs[i], k) == SlotCell(c, k);
      if k == b {
        BlockCopied(c.pc, t.segs[i].pc, Pending(c), k, SlotCell(c, k).value, s.ssd[k], s.abs[k], s.done[k], s.clock);
      } else {
        BlockPlain(c.pc, t.segs[i].pc, Pending(c), k, SlotCell(c, k), s.ssd[k], s.abs[k], s.done[k], s.clock);
      }
    }
    ClaimsKept(g, i, s, t);
    ReqPart(g, s);
    Glue(g, i, s, t);
  }

  lemma LocalWipe(g: Config, i: nat, c: Seg, b: nat)
    requires LocalOk(g, i, c) && c.pc.Migrate? && b in c.pc.held && b in c.pc.copied
    ensures var d := DoWipe(c.(headers := Invalidate(c.headers, c.pc.held[b])), b);
            && LocalOk(g, i, d)
            && Live(d) == Live(c) - {b}
            && Pending(d) == Pending(c) && !CoveredBy(Pending(c), b)
  {
    hide Match, MetaOk, PcOk, CoveredBy;
    var d := DoWipe(c.(headers := Invalidate(c.headers, c.pc.held[b])), b);
    HeldPart(g, i, c, b);
    MatchCleared(c.headers, Live(c), b);
    WipedLive(g, c, b);
    LocalRound(g, i, c, d);
  }

  lemma HeldPart(g: Config, i: nat, c: Seg, b: nat)
    requires LocalOk(g, i, c) && c.pc.Migrate? && b in c.pc.held
    ensures b in Live(c) && Live(c)[b] == c.pc.held[b] && !CoveredBy(Pending(c), b)
  {
    hide Match, Sound, CoveredBy, TaskOk, Pending;
  }

  lemma WipedLive(g: Config, c: Seg, b: nat)
    requires MetaOk(g, c) && c.pc.Migrate? && b in c.pc.held && b in c.pc.copied
    ensures var d := DoWipe(c.(headers := Invalidate(c.headers, c.pc.held[b])), b);
            Live(d) == Live(c) - {b} && MetaOk(g, d)
  {
    hide Sound, Invalidate;
    DropEntry(c.meta.index, c.pc.held, b);
  }

  lemma WipedSlots(c: Seg, d: Seg, b: nat)
    requires Match(c.headers, Live(c)) && |c.headers| == |c.slots| && d.slots == c.slots && Live(d) == Live(c) - {b} && b in Live(c)
    ensures SlotCell(c, b).Some?
    ensures forall k :: SlotCell(d, k) == if k == b then None else SlotCell(c, k)
  {
  }

  lemma RoundSlots(g: Config, i: nat, c: Seg, b: nat)
    requires LocalOk(g, i, c) && c.pc.Migrate? && b in c.pc.held && b in c.pc.copied
    ensures var d := DoWipe(c.(headers := Invalidate(c.headers, c.pc.held[b])), b);
            && SlotCell(c, b).Some?
            && forall k :: SlotCell(d, k) == if k == b then None else SlotCell(c, k)
  {
    LocalWipe(g, i, c, b);
    hide SlotCell, Sound, PcOk, TaskOk, Match;
    WipedSlots(c, DoWipe(c.(headers := Invalidate(c.headers, c.pc.held[b])), b), b);
  }

  lemma BlockWiped(pc: Pc, next: Pc, p: seq<Task>, b: nat, o: Option<Cell>, x: Cell, a: Cell, d: Cell, clock: nat)
    requires BlockOk(pc, p, b, o, x, a, d, clock) && pc.Migrate? && b in pc.copied && next.Migrate? && b !in next.copied
    requires !CoveredBy(p, b)
    requires Small(next, b) ==> Small(pc, b) && next.cell == pc.cell
    ensures BlockOk(next, p, b, None, x, a, d, clock)
  {
    NotWritten(p, b);
    AfterNothing(p, |p|, b, x);
  }

  lemma StepWipe(v: Variant, g: Config, s: State, i: nat, b: nat)
    requires Inv(g, s) && Enabled(v, g, s, Wipe(i, b)) && OwnBase(v, i)
    ensures Inv(g, Do(v, g, s, Wipe(i, b)))
  {
    hide Inv, LocalOk, ClaimOk, BlockOk, SlotCell, Live;
    var t := Do(v, g, s, Wipe(i, b));
    var c := s.segs[i];
    LocalPart(g, s, i);
    LocalWipe(g, i, c, b);
    RoundSlots(g, i, c, b);
    assert t.segs[i] == DoWipe(c.(headers := Invalidate(c.headers, c.pc.held[b])), b);
    forall k: nat | Mine(g, i, k) ensures BlockOkAt(g, t, k) {
      BlockPart(g, s, k);
      if k == b {
        BlockWiped(c.pc, t.segs[i].pc, Pending(c), k, SlotCell(c, k), s.ssd[k], s.abs[k], s.done[k], s.clock);
      } else {
        BlockPlain(c.pc, t.segs[i].pc, Pending(c), k, SlotCell(c, k), s.ssd[k], s.abs[k], s.done[k], s.clock);
      }
    }
    ClaimsKept(g, i, s, t);
    ReqPart(g, s);
    Glue(g, i, s, t);
  }

  lemma LocalUncount(g: Config, i: nat, c: Seg)
    requires LocalOk(g, i, c) && c.pc.Migrate? && c.pc.spent > 0
    ensures var d := c.(meta := c.meta.(used := c.meta.used - 1), pc := c.pc.(spent := c.pc.spent - 1));
            LocalOk(g, i, d) && Live(d) == Live(c)
  {
    hide Match;
    var d := c.(meta := c.meta.(used := c.meta.used - 1), pc := c.pc.(spent := c.pc.spent - 1));
    assert Live(d) == Live(c) && Pending(d) == Pending(c);
  }

  lemma StepUncount(v: Variant, g: Config, s: State, i: nat)
    requires Inv(g, s) && Enabled(v, g, s, Uncount(i))
    ensures Inv(g, Do(v, g, s, Uncount(i)))
  {
    hide Inv, LocalOk, ClaimOk, BlockOk, Live;
    var t := Do(v, g, s, Uncount(i));
    LocalPart(g, s, i);
    LocalUncount(g, i, s.segs[i]);
    KeepBlocks(g, i, s, t);
    ClaimsKept(g, i, s, t);
    ReqPart(g, s);
    Glue(g, i, s, t);
  }

  /** At the end of a round the segment is empty, so that the small write that waited for it is
      now certain to find a slot. */
  lemma LocalEndRound(g: Config, i: nat, c: Seg)
    requires LocalOk(g, i, c) && c.pc.Migrate? && c.meta.index == map[] && c.pc.held == map[] && c.pc.spent == 0
    ensures LocalOk(g, i, DoEndRound(c)) && Live(DoEndRound(c)) == Live(c)
    ensures DoEndRound(c).meta == EMPTY
  {
    hide Match;
    var d := DoEndRound(c);
    assert Live(d) == Live(c) && Pending(d) == Pending(c);
  }

  lemma StepEndRound(v: Variant, g: Config, s: State, i: nat)
    requires Inv(g, s) && Enabled(v, g, s, EndRound(i))
    ensures Inv(g, Do(v, g, s, EndRound(i)))
    ensures Do(v, g, s, EndRound(i)).segs[i].meta == EMPTY
  {
    hide Inv, LocalOk, ClaimOk, BlockOk, Live;
    var t := Do(v, g, s, EndRound(i));
    LocalPart(g, s, i);
    LocalEndRound(g, i, s.segs[i]);
    KeepBlocks(g, i, s, t);
    ClaimsKept(g, i, s, t);
    ReqPart(g, s);
    Glue(g, i, s, t);
  }
}
