/** Each step keeps the part of the invariant that concerns one block, and one block of one read. */
module OverlaySteps {
  import opened Common
  import opened Metadata
  import opened Overlay
  import opened OverlayInvariant

  // ----- appending to, working on, and finishing the pending tasks -----

  lemma {:induction false} AfterAppend(p: seq<Task>, t: Task, n: nat, b: nat, x: Cell)
    requires n <= |p|
    ensures After(p + [t], n, b, x) == After(p, n, b, x)
  {
    if n > 0 {
      AfterAppend(p, t, n - 1, b, x);
    }
  }

  /** Two queues that differ in their first task only, by one block already on the SSD. */
  ghost predicate HeadDone(p: seq<Task>, q: seq<Task>, b: nat, x: Cell, y: Cell) {
    && |p| == |q| > 0 && p[1..] == q[1..]
    && p[0].Write? && p[0].cells != []
    && q[0] == Write(p[0].off + 1, p[0].cells[1..])
    && y == if b == p[0].off then p[0].cells[0] else x
  }

  lemma {:induction false} AfterHead(p: seq<Task>, q: seq<Task>, n: nat, b: nat, x: Cell, y: Cell)
    requires HeadDone(p, q, b, x, y) && 0 < n <= |p|
    ensures After(q, n, b, y) == After(p, n, b, x)
  {
    if n == 1 {
      assert After(q, 0, b, y) == y;
    } else {
      AfterHead(p, q, n - 1, b, x, y);
      assert p[n - 1] == p[1..][n - 2] == q[1..][n - 2] == q[n - 1];
    }
  }

  lemma {:induction false} AfterDrop(p: seq<Task>, n: nat, b: nat, x: Cell)
    requires 0 < n <= |p| && !Writes(p[0], b)
    ensures After(p[1..], n - 1, b, x) == After(p, n, b, x)
  {
    if n > 1 {
      AfterDrop(p, n - 1, b, x);
    }
  }

  lemma SupersededPosted(p: seq<Task>, t: Task, b: nat, d: Cell)
    requires Superseded(p, b, d) && (Writes(t, b) ==> CellAt(t, b).stamp > d.stamp)
    ensures Superseded(p + [t], b, d)
  {
    hide Writes, CellAt;
    var j :| 0 <= j < |p| && Writes(p[j], b) && d.stamp < CellAt(p[j], b).stamp;
    assert (p + [t])[j] == p[j];
  }

  /** What is there after the pending writes is what was there before, or one of them. */
  lemma {:induction false} LastIsPending(p: seq<Task>, n: nat, b: nat, x: Cell)
    requires n <= |p| && After(p, n, b, x) != x
    ensures exists j :: 0 <= j < n && Writes(p[j], b) && CellAt(p[j], b) == After(p, n, b, x)
  {
    if n > 0 && !Writes(p[n - 1], b) {
      LastIsPending(p, n - 1, b, x);
    }
  }

  /** Posting a task that does not write b leaves b alone. */
  lemma BlockPosted(pc: Pc, p: seq<Task>, t: Task, b: nat, o: Option<Cell>, x: Cell, a: Cell, d: Cell, clock: nat)
    requires BlockOk(pc, p, b, o, x, a, d, clock) && !Writes(t, b)
    ensures BlockOk(pc, p + [t], b, o, x, a, d, clock)
  {
    hide Writes, CellAt, Superseded;
    if Superseded(p, b, d) { SupersededPosted(p, t, b, d); }
    AfterAppend(p, t, |p|, b, x);
    forall j | 0 <= j < |p + [t]| && Writes((p + [t])[j], b) ensures j < |p| && (p + [t])[j] == p[j] {}
  }

  lemma BlockLater(pc: Pc, p: seq<Task>, b: nat, o: Option<Cell>, x: Cell, a: Cell, d: Cell, clock: nat, later: nat)
    requires BlockOk(pc, p, b, o, x, a, d, clock) && clock <= later
    ensures BlockOk(pc, p, b, o, x, a, d, later)
  {
  }

  /** The writes of b that are left are those there were, less the first if it was of b. */
  lemma StillWrites(p: seq<Task>, q: seq<Task>, b: nat, x: Cell, y: Cell)
    requires HeadDone(p, q, b, x, y)
    ensures forall j :: 0 <= j < |q| && Writes(q[j], b) ==>
              Writes(p[j], b) && CellAt(q[j], b) == CellAt(p[j], b) && (b == p[0].off ==> j > 0)
    ensures b == p[0].off ==> Writes(p[0], b) && CellAt(p[0], b) == y
    ensures forall j :: 0 <= j < |p| && Writes(p[j], b) && (j > 0 || b != p[0].off) ==> Writes(q[j], b) && CellAt(q[j], b) == CellAt(p[j], b)
  {
    forall j | 0 <= j < |p| && Writes(p[j], b) && (j > 0 || b != p[0].off) ensures Writes(q[j], b) && CellAt(q[j], b) == CellAt(p[j], b) {
      if j > 0 { assert q[j] == q[1..][j - 1] == p[1..][j - 1] == p[j]; }
    }
    forall j | 0 <= j < |q| && Writes(q[j], b) ensures Writes(p[j], b) && CellAt(q[j], b) == CellAt(p[j], b) {
      if j > 0 { assert q[j] == q[1..][j - 1] == p[1..][j - 1] == p[j]; }
    }
  }

  lemma StillSuperseded(p: seq<Task>, q: seq<Task>, b: nat, x: Cell, y: Cell, d: Cell)
    requires HeadDone(p, q, b, x, y)
    ensures Superseded(p, b, d) && (b == p[0].off ==> y.stamp < d.stamp) ==> Superseded(q, b, d)
  {
    hide Writes, CellAt;
    StillWrites(p, q, b, x, y);
    if Superseded(p, b, d) && (b == p[0].off ==> y.stamp < d.stamp) {
      var j :| 0 <= j < |p| && Writes(p[j], b) && d.stamp < CellAt(p[j], b).stamp;
      assert Writes(q[j], b);
    }
  }

  /** The SSD worker stores another block than b. */
  lemma BlockPassed(pc: Pc, p: seq<Task>, q: seq<Task>, b: nat, o: Option<Cell>, x: Cell, a: Cell, d: Cell, clock: nat)
    requires BlockOk(pc, p, b, o, x, a, d, clock) && HeadDone(p, q, b, x, x) && b != p[0].off
    ensures BlockOk(pc, q, b, o, x, a, d, clock)
  {
    hide Writes, CellAt, After;
    StillWrites(p, q, b, x, x);
    StillSuperseded(p, q, b, x, x, d);
    AfterHead(p, q, |p|, b, x, x);
  }

  /** The SSD worker stores block b, whose content is now y. */
  lemma BlockReached(pc: Pc, p: seq<Task>, q: seq<Task>, b: nat, o: Option<Cell>, x: Cell, y: Cell, a: Cell, d: Cell, clock: nat)
    requires BlockOk(pc, p, b, o, x, a, d, clock) && HeadDone(p, q, b, x, y) && b == p[0].off
    requires pc.Migrate? && o.Some? ==> !CoveredBy(p, b)
    ensures BlockOk(pc, q, b, o, y, a, Newer(y, d), clock)
  {
    hide Writes, CellAt, After;
    StillWrites(p, q, b, x, y);
    StillSuperseded(p, q, b, x, y, d);
    AfterHead(p, q, |p|, b, x, y);
  }

  /** The SSD worker stores one block of the oldest task. */
  lemma BlockStored(pc: Pc, p: seq<Task>, q: seq<Task>, b: nat, o: Option<Cell>, x: Cell, a: Cell, d: Cell, clock: nat)
    requires BlockOk(pc, p, b, o, x, a, d, clock) && |p| > 0 && p[0].Write? && p[0].cells != []
    requires q == [Write(p[0].off + 1, p[0].cells[1..])] + p[1..]
    requires pc.Migrate? && o.Some? ==> !CoveredBy(p, b)
    ensures var y := p[0].cells[0];
            if b == p[0].off then
              BlockOk(pc, q, b, o, y, a, Newer(y, d), clock)
            else BlockOk(pc, q, b, o, x, a, d, clock)
  {
    hide BlockOk, Newer;
    if b == p[0].off {
      BlockReached(pc, p, q, b, o, x, p[0].cells[0], a, d, clock);
    } else {
      BlockPassed(pc, p, q, b, o, x, a, d, clock);
    }
  }

  /** The SSD worker is done with the oldest task. */
  lemma BlockFinished(pc: Pc, p: seq<Task>, b: nat, o: Option<Cell>, x: Cell, a: Cell, d: Cell, clock: nat)
    requires BlockOk(pc, p, b, o, x, a, d, clock) && |p| > 0 && !Writes(p[0], b)
    ensures BlockOk(pc, p[1..], b, o, x, a, d, clock)
  {
    AfterDrop(p, |p|, b, x);
  }

  /** A large write of this block is posted. */
  lemma BlockLarge(p: seq<Task>, b: nat, off: nat, cells: seq<Cell>, o: Option<Cell>, x: Cell, a: Cell, d: Cell, clock: nat)
    requires BlockOk(Idle, p, b, o, x, a, d, clock)
    requires forall j :: 0 <= j < |cells| ==> cells[j].stamp == clock
    ensures BlockOk(Clear(off, cells, 0), p + [Write(off, cells)], b, o, x, a, d, clock + 1)
  {
    var t := Write(off, cells);
    if Superseded(p, b, d) { SupersededPosted(p, t, b, d); }
    hide Superseded;
    if Writes(t, b) {
      assert (p + [t])[|p|] == t;
    } else {
      AfterAppend(p, t, |p|, b, x);
    }
  }

  /** The worker moves on without touching this block. */
  lemma BlockPlain(pc: Pc, next: Pc, p: seq<Task>, b: nat, o: Option<Cell>, x: Cell, a: Cell, d: Cell, clock: nat)
    requires BlockOk(pc, p, b, o, x, a, d, clock)
    requires !InClear(pc, b) && !InClear(next, b) && !Overwritten(pc, b) && !Overwritten(next, b)
    requires Small(next, b) ==> Small(pc, b) && next.cell == pc.cell
    requires next.Migrate? && b in next.copied ==> pc.Migrate? && b in pc.copied
    ensures BlockOk(next, p, b, o, x, a, d, clock)
  {
  }

  lemma BlockLook(p: seq<Task>, b: nat, cell: Cell, off: nat, o: Option<Cell>, x: Cell, a: Cell, d: Cell, clock: nat)
    requires BlockOk(Idle, p, b, o, x, a, d, clock) && cell.stamp == clock
    ensures BlockOk(Look(off, cell), p, b, o, x, a, d, clock + 1)
  {
  }

  lemma BlockDataStored(p: seq<Task>, b: nat, pc: Pc, next: Pc, o: Option<Cell>, x: Cell, a: Cell, d: Cell, clock: nat)
    requires BlockOk(pc, p, b, o, x, a, d, clock) && pc.PutData? && next == PutHeader(pc.b, pc.cell, pc.slot, pc.isNew)
    requires pc.b == b && !pc.isNew ==> o.Some?
    ensures BlockOk(next, p, b, if b == pc.b && !pc.isNew then Some(pc.cell) else o, x, a, d, clock)
  {
  }

  lemma BlockHeaderStored(p: seq<Task>, pc: Pc, b: nat, o: Option<Cell>, x: Cell, a: Cell, d: Cell, clock: nat)
    requires BlockOk(pc, p, b, o, x, a, d, clock) && pc.PutHeader?
    ensures if b == pc.b then BlockOk(Idle, p, b, Some(pc.cell), x, pc.cell, pc.cell, clock)
            else BlockOk(Idle, p, b, o, x, a, d, clock)
  {
  }

  /** The slot of a block of a large write is cleared. */
  lemma BlockCleared(pc: Pc, p: seq<Task>, b: nat, o: Option<Cell>, x: Cell, a: Cell, d: Cell, clock: nat)
    requires BlockOk(pc, p, b, o, x, a, d, clock) && InClear(pc, b) && b == pc.off + pc.k && o.Some?
    ensures BlockOk(Clear(pc.off, pc.cells, pc.k + 1), p, b, None, x, a, d, clock)
  {
    if x != d {
      LastIsPending(p, |p|, b, x);
    }
  }

  lemma BlockNotCleared(pc: Pc, p: seq<Task>, b: nat, o: Option<Cell>, x: Cell, a: Cell, d: Cell, clock: nat)
    requires BlockOk(pc, p, b, o, x, a, d, clock) && pc.Clear? && (b != pc.off + pc.k || o.None?)
    ensures BlockOk(Clear(pc.off, pc.cells, pc.k + 1), p, b, o, x, a, d, clock)
  {
  }

  /** The large write is processed. */
  lemma BlockAllCleared(pc: Pc, p: seq<Task>, b: nat, o: Option<Cell>, x: Cell, a: Cell, d: Cell, clock: nat)
    requires BlockOk(pc, p, b, o, x, a, d, clock) && pc.Clear? && (InClear(pc, b) ==> o.None?)
    ensures BlockOk(Idle, p, b, o, x, if InClear(pc, b) then pc.cells[b - pc.off] else a, d, clock)
  {
  }

  // ----- one block of one read -----

  lemma ClaimPosted(pc: Pc, p: seq<Task>, t: Task, e: Exec, r: nat, b: nat, x: Cell, a: Cell, w: Option<Cell>, c: Option<Cell>, cr: bool)
    requires ClaimOk(pc, p, e, r, b, x, a, w, c, cr) && !Reads(t, r, b)
    ensures ClaimOk(pc, p + [t], e, r, b, x, a, w, c, cr)
  {
    forall j | 0 <= j <= |p| ensures After(p + [t], j, b, x) == After(p, j, b, x) { AfterAppend(p, t, j, b, x); }
    if Owned(p, r, b) {
      var j :| 0 <= j < |p| && Reads(p[j], r, b);
      assert Reads((p + [t])[j], r, b);
    }
  }

  /** The scan hands the blocks of its run of misses over to a posted read. */
  lemma ClaimHandedOver(pc: Pc, p: seq<Task>, t: Task, e: Exec, r: nat, b: nat, x: Cell, a: Cell, w: Option<Cell>, c: Option<Cell>, cr: bool, next: Pc)
    requires ClaimOk(pc, p, e, r, b, x, a, w, c, cr)
    requires Reads(t, r, b) && ScanOwns(pc, r, b) && !ScanOwns(next, r, b) && (next.Scan? ==> b !in next.hits)
    requires After(p, |p|, b, x) == a
    ensures ClaimOk(next, p + [t], e, r, b, x, a, w, c, cr)
  {
    forall j | 0 <= j <= |p| ensures After(p + [t], j, b, x) == After(p, j, b, x) { AfterAppend(p, t, j, b, x); }
    assert Reads((p + [t])[|p|], r, b);
  }

  lemma ClaimStored(pc: Pc, p: seq<Task>, q: seq<Task>, e: Exec, f: Exec, r: nat, b: nat, x: Cell, y: Cell, a: Cell, w: Option<Cell>, c: Option<Cell>, cr: bool)
    requires ClaimOk(pc, p, e, r, b, x, a, w, c, cr) && HeadDone(p, q, b, x, y) && !f.Fetching?
    ensures ClaimOk(pc, q, f, r, b, y, a, w, c, cr)
  {
    forall j | 0 <= j < |q| ensures Reads(q[j], r, b) <==> Reads(p[j], r, b) {
      if j > 0 { assert p[j] == p[1..][j - 1] == q[1..][j - 1] == q[j]; }
    }
    forall j | 0 < j <= |q| ensures After(q, j, b, y) == After(p, j, b, x) { AfterHead(p, q, j, b, x, y); }
    if Owned(p, r, b) {
      var j :| 0 <= j < |p| && Reads(p[j], r, b);
      assert Reads(q[j], r, b);
    }
  }

  /** The oldest task goes, and it was not reading this block. */
  lemma ClaimDropped(pc: Pc, p: seq<Task>, e: Exec, f: Exec, r: nat, b: nat, x: Cell, a: Cell, w: Option<Cell>, c: Option<Cell>, cr: bool)
    requires ClaimOk(pc, p, e, r, b, x, a, w, c, cr) && |p| > 0 && !Writes(p[0], b) && !Reads(p[0], r, b) && !f.Fetching?
    ensures ClaimOk(pc, p[1..], f, r, b, x, a, w, c, cr)
  {
    forall j | 0 < j <= |p| ensures After(p[1..], j - 1, b, x) == After(p, j, b, x) { AfterDrop(p, j, b, x); }
    if Owned(p, r, b) {
      var j :| 0 <= j < |p| && Reads(p[j], r, b);
      assert Reads(p[1..][j - 1], r, b);
    }
  }

  /** The oldest task has read this block and is done: the block is credited. */
  lemma ClaimFinished(pc: Pc, p: seq<Task>, e: Exec, f: Exec, r: nat, b: nat, x: Cell, a: Cell, w: Option<Cell>, c: Option<Cell>, cr: bool)
    requires ClaimOk(pc, p, e, r, b, x, a, w, c, cr) && |p| > 0 && Reads(p[0], r, b) && c.Some? && !f.Fetching?
    ensures !cr && ClaimOk(pc, p[1..], f, r, b, x, a, w, c, true)
  {
    assert !Owned(p[1..], r, b) by {
      forall j | 0 <= j < |p| - 1 ensures !Reads(p[1..][j], r, b) { assert p[1..][j] == p[j + 1]; }
    }
  }

  /** The scan moves on and its relation to this block does not change. */
  lemma ClaimScanSame(pc: Pc, next: Pc, p: seq<Task>, e: Exec, r: nat, b: nat, x: Cell, a: Cell, w: Option<Cell>, c: Option<Cell>, cr: bool)
    requires ClaimOk(pc, p, e, r, b, x, a, w, c, cr)
    requires ScanOwns(next, r, b) <==> ScanOwns(pc, r, b)
    requires next.Scan? && next.req == r && b in next.hits ==> pc.Scan? && pc.req == r && b in pc.hits
    ensures ClaimOk(next, p, e, r, b, x, a, w, c, cr)
  {
  }

  /** A read accepts the block: it is promised the block's present content. */
  lemma ClaimTaken(next: Pc, p: seq<Task>, e: Exec, r: nat, b: nat, x: Cell, a: Cell, c: Option<Cell>, cr: bool)
    requires ClaimOk(Idle, p, e, r, b, x, a, None, c, cr) && ScanOwns(next, r, b) && next.hits == {}
    ensures ClaimOk(next, p, e, r, b, x, a, Some(a), c, cr)
  {
    assert forall j :: 0 <= j < |p| && Reads(p[j], r, b) ==> Owned(p, r, b);
  }

  /** The scan copies a buffered block. */
  lemma ClaimHit(pc: Pc, next: Pc, p: seq<Task>, e: Exec, r: nat, b: nat, x: Cell, a: Cell, w: Option<Cell>, c: Option<Cell>, cr: bool)
    requires ClaimOk(pc, p, e, r, b, x, a, w, c, cr) && ScanOwns(pc, r, b) && ScanOwns(next, r, b)
    ensures ClaimOk(next, p, e, r, b, x, a, w, Some(a), cr)
  {
  }

  /** The scan ends, and a block it copied is credited. */
  lemma ClaimCredited(pc: Pc, p: seq<Task>, e: Exec, r: nat, b: nat, x: Cell, a: Cell, w: Option<Cell>, c: Option<Cell>, cr: bool)
    requires ClaimOk(pc, p, e, r, b, x, a, w, c, cr) && ScanOwns(pc, r, b) && b in pc.hits
    ensures !cr && ClaimOk(Idle, p, e, r, b, x, a, w, c, true)
  {
    assert forall j :: 0 <= j < |p| ==> !Reads(p[j], r, b);
  }

  /** The SSD worker copies a block of the oldest task, a read. */
  lemma ClaimFetched(pc: Pc, p: seq<Task>, e: Exec, f: Exec, r: nat, b: nat, x: Cell, a: Cell, w: Option<Cell>, c: Option<Cell>, cr: bool)
    requires ClaimOk(pc, p, e, r, b, x, a, w, c, cr) && |p| > 0 && Reads(p[0], r, b)
    ensures ClaimOk(pc, p, f, r, b, x, a, w, Some(x), cr)
  {
    assert After(p, 0, b, x) == x;
    assert Owned(p, r, b);
  }

  /** The SSD worker's position matters only to the blocks it has fetched. */
  lemma ClaimExec(pc: Pc, p: seq<Task>, e: Exec, f: Exec, r: nat, b: nat, x: Cell, a: Cell, w: Option<Cell>, c: Option<Cell>, cr: bool)
    requires ClaimOk(pc, p, e, r, b, x, a, w, c, cr) && (Fetched(f, r, b) ==> Fetched(e, r, b))
    ensures ClaimOk(pc, p, f, r, b, x, a, w, c, cr)
  {
  }
}
