/** The guarantees of the store, over all runs and in terms of what callers and the media see. */
module OverlayResults {
  import opened Common
  import opened Metadata
  import opened Overlay
  import opened OverlayInvariant
  import opened OverlaySteps
  import opened OverlayWrites
  import opened OverlayMigration
  import opened OverlayReads
  import opened OverlaySafety

  // ----- the store is a block array -----

  /** The view of a block is the abstract block, but for a write that the segment's worker is in
      the middle of: that block shows the old or the new content. */
  lemma ViewIsArray(g: Config, s: State, b: nat)
    requires Inv(g, s) && b < g.disk
    ensures var pc := s.segs[Route(g, b)].pc;
            if Overwritten(pc, b) then View(g, s, b) == pc.cell
            else if InClear(pc, b) then View(g, s, b) == s.abs[b] || View(g, s, b) == pc.cells[b - pc.off]
            else View(g, s, b) == s.abs[b]
  {
    hide LocalOk, ClaimOk;
    ViewIs(g, s, b);
    BlockPart(g, s, b);
  }

  predicate WorkerOf(e: Step, i: nat) {
    !e.Open? && !e.Crash? && !e.Fetch? && !e.Raise? && !e.Lower? && !e.Transfer? && !e.Complete? && e.i == i
  }

  predicate Begins(e: Step, i: nat) {
    (e.BeginWrite? || e.BeginRead?) && e.i == i
  }

  /** No power failure, and worker i takes no new task. */
  predicate Undisturbed(es: seq<Step>, i: nat) {
    forall k :: 0 <= k < |es| ==> !es[k].Crash? && !Begins(es[k], i)
  }

  lemma OthersPc(v: Variant, g: Config, s: State, e: Step, i: nat)
    requires Enabled(v, g, s, e) && !e.Crash? && !WorkerOf(e, i) && i < g.segs
    ensures Do(v, g, s, e).segs[i].pc == s.segs[i].pc
    ensures |Do(v, g, s, e).abs| == |s.abs|
    ensures !e.StoreHeader? && !e.ClearNext? ==> Do(v, g, s, e).abs == s.abs
  {
    hide Reserve, BlockTest, Mine, Route, Mod, Div, PutRange, Full, ClearBlock, Rebuild, Claim, ScanReqs, Recovery;
  }

  lemma OthersAbs(v: Variant, g: Config, s: State, e: Step, i: nat)
    requires Inv(g, s) && Enabled(v, g, s, e) && (e.StoreHeader? || e.ClearNext?) && e.i != i && i < g.segs
    ensures |Do(v, g, s, e).abs| == |s.abs|
    ensures forall b: nat :: Mine(g, i, b) ==> Do(v, g, s, e).abs[b] == s.abs[b]
  {
    hide Inv, LocalOk, DoClearNext;
    LocalPart(g, s, e.i);
    if e.ClearNext? {
      ClearIsMine(g, e.i, s.segs[e.i]);
      assert forall b: nat :: Mine(g, i, b) ==> !InClear(s.segs[e.i].pc, b);
    } else {
      HeaderIsMine(g, e.i, s.segs[e.i]);
    }
  }

  lemma HeaderIsMine(g: Config, i: nat, c: Seg)
    requires LocalOk(g, i, c) && c.pc.PutHeader?
    ensures Mine(g, i, c.pc.b)
  {
  }

  /** Worker i is where it was, and its blocks of the array are what they were. */
  ghost predicate LeavesAlone(g: Config, s: State, t: State, i: nat)
    requires Shaped(g, s) && Shaped(g, t) && i < g.segs
  {
    t.segs[i].pc == s.segs[i].pc && forall b: nat :: Mine(g, i, b) ==> t.abs[b] == s.abs[b]
  }

  /** The steps of other threads leave worker i alone. */
  lemma OthersStep(v: Variant, g: Config, s: State, e: Step, i: nat)
    requires Inv(g, s) && Enabled(v, g, s, e) && !e.Crash? && !WorkerOf(e, i) && i < g.segs
    requires Shaped(g, Do(v, g, s, e))
    ensures LeavesAlone(g, s, Do(v, g, s, e), i)
  {
    hide Inv, Do, Enabled;
    InvShaped(g, s);
    OthersPc(v, g, s, e, i);
    if e.StoreHeader? || e.ClearNext? {
      OthersAbs(v, g, s, e, i);
    }
  }

  /** Worker i is processing the write of the given cells at off. */
  predicate Processing(pc: Pc, off: nat, cells: seq<Cell>) {
    if pc.Clear? then pc.off == off && pc.cells == cells
    else (pc.Look? || pc.Wait? || pc.Migrate? || pc.PutData? || pc.PutHeader?) && pc.b == off && cells == [pc.cell]
  }

  /** The step goes on with the write, or it is through and the array has the new cells. */
  ghost predicate GoesOn(s: State, t: State, i: nat, off: nat, cells: seq<Cell>)
    requires i < |t.segs|
  {
    if Processing(t.segs[i].pc, off, cells) then t.abs == s.abs
    else t.segs[i].pc.Idle? && t.abs == PutRange(s.abs, off, cells)
  }

  lemma PutOne(s: seq<Cell>, off: nat, x: Cell)
    requires off < |s|
    ensures s[off := x] == PutRange(s, off, [x])
  {
  }

  /** The last step of a small write. */
  lemma OwnHeader(v: Variant, g: Config, s: State, i: nat, off: nat, cells: seq<Cell>)
    requires Inv(g, s) && Enabled(v, g, s, StoreHeader(i)) && Processing(s.segs[i].pc, off, cells)
    ensures var t := Do(v, g, s, StoreHeader(i)); i < |t.segs| && GoesOn(s, t, i, off, cells)
  {
    hide Inv, LocalOk, PutRange, Mod;
    LocalPart(g, s, i);
    HeaderIsMine(g, i, s.segs[i]);
    PutOne(s.abs, off, s.segs[i].pc.cell);
  }

  lemma OwnClear(v: Variant, g: Config, s: State, i: nat, off: nat, cells: seq<Cell>)
    requires Enabled(v, g, s, ClearNext(i)) && Processing(s.segs[i].pc, off, cells)
    ensures var t := Do(v, g, s, ClearNext(i)); i < |t.segs| && GoesOn(s, t, i, off, cells)
  {
    hide ClearBlock, Mod;
  }

  lemma OwnOther(v: Variant, g: Config, s: State, e: Step, i: nat, off: nat, cells: seq<Cell>)
    requires Enabled(v, g, s, e) && WorkerOf(e, i) && Processing(s.segs[i].pc, off, cells) && !e.StoreHeader? && !e.ClearNext?
    ensures var t := Do(v, g, s, e); i < |t.segs| && GoesOn(s, t, i, off, cells)
  {
    hide Reserve, BlockTest, Full, Mod, PutRange;
  }

  /** One step of worker i on the write. */
  lemma OwnStep(v: Variant, g: Config, s: State, e: Step, i: nat, off: nat, cells: seq<Cell>)
    requires Inv(g, s) && Enabled(v, g, s, e) && WorkerOf(e, i) && Processing(s.segs[i].pc, off, cells)
    ensures var t := Do(v, g, s, e); i < |t.segs| && GoesOn(s, t, i, off, cells)
  {
    hide Inv, Do, Enabled, GoesOn, Processing;
    if e.StoreHeader? {
      OwnHeader(v, g, s, i, off, cells);
    } else if e.ClearNext? {
      OwnClear(v, g, s, i, off, cells);
    } else {
      OwnOther(v, g, s, e, i, off, cells);
    }
  }

  /** How far the write has got. */
  ghost predicate Underway(g: Config, t: State, i: nat, off: nat, cells: seq<Cell>, base: seq<Cell>)
    requires Shaped(g, t) && |base| == g.disk && i < g.segs
  {
    if Processing(t.segs[i].pc, off, cells) then forall b: nat :: Mine(g, i, b) ==> t.abs[b] == base[b]
    else t.segs[i].pc.Idle? && forall b: nat :: Mine(g, i, b) ==> t.abs[b] == PutRange(base, off, cells)[b]
  }

  lemma IdleBegins(v: Variant, g: Config, s: State, e: Step, i: nat)
    requires Enabled(v, g, s, e) && WorkerOf(e, i) && s.segs[i].pc.Idle?
    ensures Begins(e, i)
  {
  }

  lemma UnderwayStep(v: Variant, g: Config, s: State, e: Step, i: nat, off: nat, cells: seq<Cell>, base: seq<Cell>)
    requires Inv(g, s) && Enabled(v, g, s, e) && i < g.segs && !e.Crash? && !Begins(e, i)
    requires |base| == g.disk && Shaped(g, s) && Underway(g, s, i, off, cells, base)
    requires Shaped(g, Do(v, g, s, e))
    ensures Underway(g, Do(v, g, s, e), i, off, cells, base)
  {
    hide Inv, Do, Enabled, Route, Mod, Div;
    if !WorkerOf(e, i) {
      OthersStep(v, g, s, e, i);
    } else if Processing(s.segs[i].pc, off, cells) {
      OwnStep(v, g, s, e, i, off, cells);
    } else {
      IdleBegins(v, g, s, e, i);
    }
  }

  lemma {:induction false} UnderwayRun(v: Variant, g: Config, s: State, es: seq<Step>, t: State, i: nat, off: nat, cells: seq<Cell>, base: seq<Cell>)
    requires Inv(g, s) && Run(v, g, s, es, t) && AllBenign(v, g, s, es) && i < g.segs && Undisturbed(es, i)
    requires |base| == g.disk && Underway(g, s, i, off, cells, base)
    ensures Inv(g, t) && Underway(g, t, i, off, cells, base)
    decreases es
  {
    hide Inv, Do, Enabled, Benign, Underway;
    InvShaped(g, s);
    if es != [] {
      var m := Do(v, g, s, es[0]);
      StepSafe(v, g, s, es[0]);
      InvShaped(g, m);
      UnderwayStep(v, g, s, es[0], i, off, cells, base);
      assert Undisturbed(es[1..], i);
      UnderwayRun(v, g, m, es[1..], t, i, off, cells, base);
    }
  }

  lemma InvShaped(g: Config, s: State)
    requires Inv(g, s)
    ensures Shaped(g, s)
  {
  }

  /** A write, small or large, changes the view of exactly its blocks to exactly its data, whatever
      all the other threads -- its own SSD worker, migrations, other segments -- do meanwhile. */
  lemma WriteTakesEffect(v: Variant, g: Config, s: State, es: seq<Step>, t: State, i: nat, off: nat, data: seq<Data>, b: nat)
    requires Inv(g, s) && es != [] && es[0] == BeginWrite(i, off, data) && Run(v, g, s, es, t) && AllBenign(v, g, s, es)
    requires Undisturbed(es[1..], i) && i < |t.segs| && t.segs[i].pc.Idle? && Mine(g, i, b)
    ensures Inv(g, t)
    ensures if off <= b < off + |data| then View(g, t, b).data == data[b - off] else View(g, t, b) == View(g, s, b)
  {
    hide Inv, Benign, Do, Enabled;
    var m := Do(v, g, s, es[0]);
    WriteBegins(v, g, s, i, off, data, b);
    StepSafe(v, g, s, es[0]);
    InvShaped(g, m);
    var cells := WriteCells(data, s.clock);
    UnderwayRun(v, g, m, es[1..], t, i, off, cells, s.abs);
    InvShaped(g, t);
    ViewIsArray(g, t, b);
  }

  lemma WriteBegins(v: Variant, g: Config, s: State, i: nat, off: nat, data: seq<Data>, b: nat)
    requires Inv(g, s) && Enabled(v, g, s, BeginWrite(i, off, data)) && Mine(g, i, b)
    ensures var m := Do(v, g, s, BeginWrite(i, off, data));
            && i < |m.segs| && m.abs == s.abs && Processing(m.segs[i].pc, off, WriteCells(data, s.clock))
    ensures Shaped(g, s) && View(g, s, b) == s.abs[b]
  {
    hide Inv, Post;
    assert |data| == 1 ==> WriteCells(data, s.clock) == [Cell(data[0], s.clock)];
    ViewIsArray(g, s, b);
  }

  // ----- reads -----

  /** What a read was promised for a block it keeps being promised. */
  lemma PromiseStep(v: Variant, g: Config, s: State, e: Step, r: nat, b: nat)
    requires Enabled(v, g, s, e) && !e.Crash? && Wanted(s, r, b).Some? && b < g.disk
    ensures Wanted(Do(v, g, s, e), r, b) == Wanted(s, r, b)
  {
    assert b in s.reqs[r].want;
  }

  lemma {:induction false} PromiseRun(v: Variant, g: Config, s: State, es: seq<Step>, t: State, r: nat, b: nat)
    requires Inv(g, s) && Run(v, g, s, es, t) && AllBenign(v, g, s, es) && Wanted(s, r, b).Some? && b < g.disk
    requires forall k :: 0 <= k < |es| ==> !es[k].Crash?
    ensures Inv(g, t) && Wanted(t, r, b) == Wanted(s, r, b)
    decreases es
  {
    hide Inv, Do, Enabled, Benign;
    if es != [] {
      StepSafe(v, g, s, es[0]);
      PromiseStep(v, g, s, es[0], r, b);
      PromiseRun(v, g, Do(v, g, s, es[0]), es[1..], t, r, b);
    }
  }

  /** The credits of a read reach its length exactly when each of its blocks has been credited, and a
      credited block has been copied as promised. */
  lemma ReadAccounting(g: Config, s: State, r: nat)
    requires Inv(g, s) && r < |s.reqs|
    ensures var q := s.reqs[r];
            && (q.ret == q.len <==> forall b: nat :: q.off <= b < q.off + q.len ==> b in q.credited)
            && (forall b :: b in q.credited ==> b in q.got && b in q.want && q.got[b] == q.want[b])
  {
    hide Inv;
    ReqPart(g, s);
    FullRange(s.reqs[r].credited, s.reqs[r].off, s.reqs[r].len);
    forall b | b in s.reqs[r].credited ensures b in s.reqs[r].got && b in s.reqs[r].want && s.reqs[r].got[b] == s.reqs[r].want[b] {
      CreditedIsWanted(g, s, r, b);
    }
  }

  lemma CreditedIsWanted(g: Config, s: State, r: nat, b: nat)
    requires Inv(g, s) && r < |s.reqs| && b in s.reqs[r].credited && ReqOk(g, s.reqs[r])
    ensures b in s.reqs[r].got && b in s.reqs[r].want && s.reqs[r].got[b] == s.reqs[r].want[b]
  {
    hide Inv;
    ClaimPart(g, s, r, b);
  }

  /** A read returns, for each block, the view at the moment its worker accepted it: this is what
      is copied if anything is, and when the credits reach the length it has been copied. */
  lemma ReadReturnsView(v: Variant, g: Config, s: State, es: seq<Step>, t: State, i: nat, r: nat, off: nat, len: nat, b: nat)
    requires Inv(g, s) && es != [] && es[0] == BeginRead(i, r, off, len) && Run(v, g, s, es, t) && AllBenign(v, g, s, es)
    requires (forall k :: 0 <= k < |es| ==> !es[k].Crash?) && off <= b < off + len && b < g.disk
    ensures Inv(g, t) && r < |t.reqs|
    ensures Copied(t, r, b).Some? ==> Copied(t, r, b) == Some(View(g, s, b))
    ensures t.reqs[r].ret == t.reqs[r].len ==> Copied(t, r, b) == Some(View(g, s, b))
  {
    hide Inv, Benign, LocalOk, BlockOk, ClaimOk;
    var m := Do(v, g, s, es[0]);
    assert Mine(g, i, b);
    StepSafe(v, g, s, es[0]);
    ViewIsArray(g, s, b);
    assert Wanted(m, r, b) == Some(View(g, s, b));
    PromiseRun(v, g, m, es[1..], t, r, b);
    CopiedIsWanted(g, t, r, b);
    ReadAccounting(g, t, r);
    ReqPart(g, t);
  }

  lemma CopiedIsWanted(g: Config, s: State, r: nat, b: nat)
    requires Inv(g, s) && b < g.disk
    ensures Copied(s, r, b).Some? ==> Copied(s, r, b) == Wanted(s, r, b)
  {
    ClaimPart(g, s, r, b);
  }

  // ----- migration -----

  /** A migration that begins with no pending task over a buffered block changes the view of no
      block of its segment, however long it takes and whatever other threads do meanwhile. */
  lemma MigrationKeepsView(v: Variant, g: Config, s: State, es: seq<Step>, t: State, i: nat, b: nat)
    requires Inv(g, s) && i < g.segs && s.segs[i].pc.Wait? && Run(v, g, s, es, t) && AllBenign(v, g, s, es) && Undisturbed(es, i)
    requires Mine(g, i, b) && i < |t.segs| && (t.segs[i].pc.Migrate? || t.segs[i].pc.Look?)
    ensures Inv(g, t) && View(g, t, b) == View(g, s, b)
  {
    hide Inv, Benign, LocalOk, BlockOk, ClaimOk, Do, Enabled;
    InvShaped(g, s);
    var off, cells := s.segs[i].pc.b, [s.segs[i].pc.cell];
    UnderwayRun(v, g, s, es, t, i, off, cells, s.abs);
    ViewIsArray(g, s, b);
    InvShaped(g, t);
    assert Processing(t.segs[i].pc, off, cells);
    ViewIsArray(g, t, b);
  }

  /** The small write that waited for the round finds a slot, in a segment then empty. */
  lemma SlotAfterMigration(v: Variant, g: Config, s: State, i: nat)
    requires Inv(g, s) && Enabled(v, g, s, EndRound(i))
    ensures var t := Do(v, g, s, EndRound(i));
            && Enabled(v, g, t, Lookup(i)) && Benign(v, g, t, Lookup(i))
            && Do(v, g, t, Lookup(i)).segs[i].pc.PutData?
  {
    StepEndRound(v, g, s, i);
    hide Inv, Reserve, Do;
    var t := Do(v, g, s, EndRound(i));
    InvShaped(g, t);
    EndRoundDoes(v, g, s, i);
    LookupEmpty(v, g, i, t.segs[i]);
    DoLookupDoes(v, g, t, i);
  }

  lemma EndRoundDoes(v: Variant, g: Config, s: State, i: nat)
    requires Enabled(v, g, s, EndRound(i))
    ensures Do(v, g, s, EndRound(i)).segs[i] == DoEndRound(s.segs[i])
    ensures Do(v, g, s, EndRound(i)).segs[i].pc.Look?
  {
  }

  lemma DoLookupDoes(v: Variant, g: Config, s: State, i: nat)
    requires Shaped(g, s) && i < g.segs && s.segs[i].pc.Look? && s.segs[i].meta.nextBit < Bits(g.per) && Findable(g.per, s.segs[i].meta)
    ensures Enabled(v, g, s, Lookup(i)) && Do(v, g, s, Lookup(i)).segs[i] == DoLookup(v, g, i, s.segs[i])
  {
  }

  lemma LookupEmpty(v: Variant, g: Config, i: nat, c: Seg)
    requires Sane(g) && i < g.segs && c.pc.Look? && c.meta == EMPTY
    ensures c.meta.nextBit < Bits(g.per) && Findable(g.per, c.meta) && LookupSafe(v, g, i, c) && DoLookup(v, g, i, c).pc.PutData?
  {
    hide Reserve;
    assert 0 < Bits(g.per) && 0 !in c.meta.bitmap;
  }

  /** Whenever Lookup goes on to the slot, the slot it takes held no block. */
  lemma SlotIsFree(v: Variant, g: Config, s: State, i: nat)
    requires Inv(g, s) && Enabled(v, g, s, Lookup(i)) && LookupSafe(v, g, i, s.segs[i])
    ensures var d := DoLookup(v, g, i, s.segs[i]);
            d.pc.PutData? && d.pc.isNew ==>
              && d.pc.slot < g.per && d.pc.slot !in s.segs[i].meta.bitmap
              && !s.segs[i].headers[d.pc.slot].valid
  {
    var c := s.segs[i];
    LocalPart(g, s, i);
    hide Inv, Reserve, ReserveSafe;
    BlockTestIsIndex(g.per, c.meta, c.pc.b);
    if c.pc.b !in c.meta.index && !Full(g.per, c.meta) {
      ReserveExact(v, g.segs, i, g.per, c.meta, c.pc.b);
    }
  }
}
