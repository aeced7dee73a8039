/** The steps of an SSD worker, and the crash, keep the invariant. */
module OverlaySsd {
  import opened Common
  import opened Metadata
  import opened Overlay
  import opened OverlayInvariant
  import opened OverlaySteps
  import opened OverlayWrites
  import opened OverlayMigration
  import opened OverlayReads

  /** A step of the SSD worker leaves everything else of the segment alone. */
  lemma SameSlots(c: Seg, d: Seg)
    requires d.meta == c.meta && d.pc == c.pc && d.slots == c.slots
    ensures Live(d) == Live(c) && forall b :: SlotCell(d, b) == SlotCell(c, b)
  {
    assert Live(d) == Live(c);
  }

  /** q covers no block that p does not. */
  ghost predicate Fewer(p: seq<Task>, q: seq<Task>) {
    forall b: nat :: CoveredBy(q, b) ==> CoveredBy(p, b)
  }

  lemma LocalExec(g: Config, i: nat, c: Seg, d: Seg)
    requires LocalOk(g, i, c) && d == c.(queue := d.queue, exec := d.exec, empty := d.empty)
    requires Fewer(Pending(c), Pending(d))
    requires forall t :: t in Pending(d) ==> TaskOk(g, i, t)
    ensures LocalOk(g, i, d) && Live(d) == Live(c) && forall b :: SlotCell(d, b) == SlotCell(c, b)
  {
    hide Match, Sound, Pending, TaskOk, Mine, SlotCell, CoveredBy;
    SameSlots(c, d);
    assert MetaOk(g, d);
    assert PcOk(g, i, d);
  }

  lemma TasksOk(g: Config, i: nat, c: Seg)
    requires LocalOk(g, i, c)
    ensures forall t :: t in Pending(c) ==> TaskOk(g, i, t)
    ensures c.pc.Migrate? ==> forall b: nat :: SlotCell(c, b).Some? ==> !CoveredBy(Pending(c), b)
  {
  }

  /** The worker takes a task, finds none, or adjusts its flag: the pending tasks stay the same. */
  lemma StepFlag(g: Config, s: State, i: nat, d: Seg)
    requires Inv(g, s) && Shaped(g, s) && i < g.segs && Pending(d) == Pending(s.segs[i])
    requires d == s.segs[i].(queue := d.queue, exec := d.exec, empty := d.empty)
    requires d.exec.Fetching? ==> d.exec.count == 0 || d.exec == s.segs[i].exec
    ensures Inv(g, SetSeg(s, i, d))
  {
    hide Inv, LocalOk, ClaimOk, BlockOk, Live, ReqOk, SlotCell;
    var c := s.segs[i];
    var t := SetSeg(s, i, d);
    LocalPart(g, s, i);
    TasksOk(g, i, c);
    LocalExec(g, i, c, d);
    forall b: nat | Mine(g, i, b) ensures BlockOkAt(g, t, b) {
      BlockPart(g, s, b);
    }
    forall q: nat, b: nat | Mine(g, i, b) ensures ClaimOkAt(g, t, q, b) {
      ClaimPart(g, s, q, b);
      ClaimExec(c.pc, Pending(c), c.exec, d.exec, q, b, s.ssd[b], s.abs[b], Wanted(s, q, b), Copied(s, q, b), Credited(s, q, b));
    }
    ReqPart(g, s);
    Glue(g, i, s, t);
  }

  lemma StepFetch(g: Config, s: State, i: nat)
    requires Inv(g, s) && Shaped(g, s) && i < g.segs && s.segs[i].exec.Resting?
    ensures Inv(g, SetSeg(s, i, DoFetch(s.segs[i])))
  {
    var c, d := s.segs[i], DoFetch(s.segs[i]);
    LocalPart(g, s, i);
    TasksOk(g, i, c);
    hide Inv, LocalOk;
    assert Pending(d) == Pending(c);
    StepFlag(g, s, i, d);
  }

  lemma StepRaise(g: Config, s: State, i: nat)
    requires Inv(g, s) && Shaped(g, s) && i < g.segs && s.segs[i].exec.Polled?
    ensures Inv(g, SetSeg(s, i, s.segs[i].(exec := Resting, empty := true)))
  {
    var c, d := s.segs[i], s.segs[i].(exec := Resting, empty := true);
    LocalPart(g, s, i);
    TasksOk(g, i, c);
    hide Inv, LocalOk;
    assert Pending(d) == Pending(c);
    StepFlag(g, s, i, d);
  }

  lemma StepLower(g: Config, s: State, i: nat)
    requires Inv(g, s) && Shaped(g, s) && i < g.segs && (s.segs[i].exec.Storing? || s.segs[i].exec.Fetching?)
    ensures Inv(g, SetSeg(s, i, s.segs[i].(empty := false)))
  {
    var c, d := s.segs[i], s.segs[i].(empty := false);
    hide Inv, LocalOk;
    assert Pending(d) == Pending(c);
    StepFlag(g, s, i, d);
  }

  // ----- writing -----

  lemma StepStore(g: Config, s: State, i: nat, t: State)
    requires Inv(g, s) && Shaped(g, s) && i < g.segs && s.segs[i].exec.Storing? && s.segs[i].exec.cells != [] && !s.segs[i].empty
    requires s.segs[i].exec.off < g.disk
    requires var c := s.segs[i];
             var b, x := c.exec.off, c.exec.cells[0];
             t == s.(segs := s.segs[i := c.(exec := Storing(c.exec.off + 1, c.exec.cells[1..]))],
                     ssd := s.ssd[b := x], done := s.done[b := Newer(x, s.done[b])])
    ensures Inv(g, t)
  {
    hide Inv, LocalOk, ClaimOk, BlockOk, Live, ReqOk, SlotCell;
    var c, d := s.segs[i], t.segs[i];
    var p, q := Pending(c), Pending(d);
    LocalPart(g, s, i);
    TasksOk(g, i, c);
    StoredTasks(g, i, c, d);
    LocalExec(g, i, c, d);
    LocalSizes(g, i, d);
    assert Mine(g, i, c.exec.off);
    forall b: nat | Mine(g, i, b) ensures BlockOkAt(g, t, b) {
      BlockPart(g, s, b);
      BlockStored(c.pc, p, q, b, SlotCell(c, b), s.ssd[b], s.abs[b], s.done[b], s.clock);
    }
    forall r: nat, b: nat | Mine(g, i, b) ensures ClaimOkAt(g, t, r, b) {
      ClaimPart(g, s, r, b);
      ClaimStored(c.pc, p, q, c.exec, d.exec, r, b, s.ssd[b], t.ssd[b], s.abs[b], Wanted(s, r, b), Copied(s, r, b), Credited(s, r, b));
    }
    ReqPart(g, s);
    Glue(g, i, s, t);
  }

  lemma StoredTasks(g: Config, i: nat, c: Seg, d: Seg)
    requires c.exec.Storing? && c.exec.cells != [] && !c.empty && d == c.(exec := Storing(c.exec.off + 1, c.exec.cells[1..]))
    requires forall t :: t in Pending(c) ==> TaskOk(g, i, t)
    ensures Pending(c)[0] == Write(c.exec.off, c.exec.cells)
    ensures Pending(d) == [Write(c.exec.off + 1, c.exec.cells[1..])] + Pending(c)[1..]
    ensures forall t :: t in Pending(d) ==> TaskOk(g, i, t)
    ensures Fewer(Pending(c), Pending(d)) && Mine(g, i, c.exec.off)
  {
    assert Pending(c)[1..] == c.queue;
    var h := Pending(c)[0];
    assert TaskOk(g, i, h) && Writes(h, c.exec.off);
    assert forall b: nat :: Writes(Pending(d)[0], b) ==> Writes(h, b);
  }

  // ----- reading -----

  lemma StepLoad(g: Config, s: State, i: nat, t: State)
    requires Inv(g, s) && Shaped(g, s) && i < g.segs && s.segs[i].exec.Fetching? && !s.segs[i].empty
    requires s.segs[i].exec.count < s.segs[i].exec.len && s.segs[i].exec.req < |s.reqs| && s.segs[i].exec.off + s.segs[i].exec.count < g.disk
    requires var c := s.segs[i];
             var Fetching(r, off, len, count) := c.exec;
             t == s.(segs := s.segs[i := c.(exec := Fetching(r, off, len, count + 1))],
                     reqs := s.reqs[r := Got(s.reqs[r], off + count, s.ssd[off + count])])
    ensures Inv(g, t)
  {
    hide Inv, LocalOk, ClaimOk, BlockOk, Live, ReqOk, SlotCell, Elsewhere;
    var c, d := s.segs[i], t.segs[i];
    var p := Pending(c);
    var r, b0 := c.exec.req, c.exec.off + c.exec.count;
    LocalPart(g, s, i);
    TasksOk(g, i, c);
    assert p[0] == Read(r, c.exec.off, c.exec.len) && Pending(d) == p;
    assert TaskOk(g, i, p[0]) && Reads(p[0], r, b0);
    LocalExec(g, i, c, d);
    LocalSizes(g, i, d);
    forall b: nat | Mine(g, i, b) ensures BlockOkAt(g, t, b) {
      BlockPart(g, s, b);
    }
    forall q: nat, b: nat | Mine(g, i, b) ensures ClaimOkAt(g, t, q, b) {
      ClaimPart(g, s, q, b);
      if q == r && b == b0 {
        ClaimFetched(c.pc, p, c.exec, d.exec, q, b, s.ssd[b], s.abs[b], Wanted(s, q, b), Copied(s, q, b), Credited(s, q, b));
      } else {
        ClaimExec(c.pc, p, c.exec, d.exec, q, b, s.ssd[b], s.abs[b], Wanted(s, q, b), Copied(s, q, b), Credited(s, q, b));
      }
    }
    LoadedReq(g, s, i);
    ReqElsewhere(g, i, s, t, r, Got(s.reqs[r], b0, s.ssd[b0]));
    Glue(g, i, s, t);
  }

  lemma LoadedReq(g: Config, s: State, i: nat)
    requires Inv(g, s) && Shaped(g, s) && i < g.segs && s.segs[i].exec.Fetching?
    requires s.segs[i].exec.count < s.segs[i].exec.len && s.segs[i].exec.req < |s.reqs| && s.segs[i].exec.off + s.segs[i].exec.count < g.disk
    ensures var Fetching(r, off, _, count) := s.segs[i].exec; ReqOk(g, Got(s.reqs[r], off + count, s.ssd[off + count]))
    ensures forall r :: 0 <= r < |s.reqs| ==> ReqOk(g, s.reqs[r])
  {
    hide LocalOk, BlockOk, Live, SlotCell;
    var c := s.segs[i];
    var b := c.exec.off + c.exec.count;
    LocalPart(g, s, i);
    TasksOk(g, i, c);
    var p := Pending(c);
    assert TaskOk(g, i, p[0]) && Reads(p[0], c.exec.req, b);
    ClaimPart(g, s, c.exec.req, b);
    ReqPart(g, s);
  }

  // ----- finishing a task -----

  lemma FinishedTasks(g: Config, i: nat, c: Seg)
    requires (c.exec.Storing? || c.exec.Fetching?) && !c.empty
    requires forall t :: t in Pending(c) ==> TaskOk(g, i, t)
    ensures Pending(c.(exec := Resting)) == Pending(c)[1..]
    ensures Pending(c)[0] == (if c.exec.Storing? then Write(c.exec.off, c.exec.cells) else Read(c.exec.req, c.exec.off, c.exec.len))
    ensures forall t :: t in Pending(c.(exec := Resting)) ==> TaskOk(g, i, t)
    ensures Fewer(Pending(c), Pending(c.(exec := Resting)))
  {
  }

  lemma StepWritten(g: Config, s: State, i: nat)
    requires Inv(g, s) && Shaped(g, s) && i < g.segs && s.segs[i].exec.Storing? && s.segs[i].exec.cells == [] && !s.segs[i].empty
    ensures Inv(g, SetSeg(s, i, s.segs[i].(exec := Resting)))
  {
    hide Inv, LocalOk, ClaimOk, BlockOk, Live, ReqOk, SlotCell;
    var c, d := s.segs[i], s.segs[i].(exec := Resting);
    var t := SetSeg(s, i, d);
    LocalPart(g, s, i);
    TasksOk(g, i, c);
    FinishedTasks(g, i, c);
    LocalExec(g, i, c, d);
    forall b: nat | Mine(g, i, b) ensures BlockOkAt(g, t, b) {
      BlockPart(g, s, b);
      BlockFinished(c.pc, Pending(c), b, SlotCell(c, b), s.ssd[b], s.abs[b], s.done[b], s.clock);
    }
    forall q: nat, b: nat | Mine(g, i, b) ensures ClaimOkAt(g, t, q, b) {
      ClaimPart(g, s, q, b);
      ClaimDropped(c.pc, Pending(c), c.exec, d.exec, q, b, s.ssd[b], s.abs[b], Wanted(s, q, b), Copied(s, q, b), Credited(s, q, b));
    }
    ReqPart(g, s);
    Glue(g, i, s, t);
  }

  lemma StepLoaded(g: Config, s: State, i: nat, t: State)
    requires Inv(g, s) && Shaped(g, s) && i < g.segs && s.segs[i].exec.Fetching? && !s.segs[i].empty
    requires s.segs[i].exec.count == s.segs[i].exec.len && s.segs[i].exec.req < |s.reqs|
    requires var c := s.segs[i];
             var Fetching(r, off, len, _) := c.exec;
             t == s.(segs := s.segs[i := c.(exec := Resting)], reqs := s.reqs[r := Credit(s.reqs[r], len, Range(off, off + len))])
    ensures Inv(g, t)
  {
    hide Inv, LocalOk, ClaimOk, BlockOk, Live, ReqOk, SlotCell, Elsewhere;
    var c, d := s.segs[i], t.segs[i];
    var p := Pending(c);
    var Fetching(r, off, len, _) := c.exec;
    LocalPart(g, s, i);
    TasksOk(g, i, c);
    FinishedTasks(g, i, c);
    LocalExec(g, i, c, d);
    LocalSizes(g, i, d);
    forall b: nat | Mine(g, i, b) ensures BlockOkAt(g, t, b) {
      BlockPart(g, s, b);
      BlockFinished(c.pc, p, b, SlotCell(c, b), s.ssd[b], s.abs[b], s.done[b], s.clock);
    }
    forall q: nat, b: nat | Mine(g, i, b) ensures ClaimOkAt(g, t, q, b) {
      ClaimPart(g, s, q, b);
      if q == r && off <= b < off + len {
        FetchedIsCopied(g, s, i, b);
        ClaimFinished(c.pc, p, c.exec, d.exec, q, b, s.ssd[b], s.abs[b], Wanted(s, q, b), Copied(s, q, b), Credited(s, q, b));
      } else {
        ClaimDropped(c.pc, p, c.exec, d.exec, q, b, s.ssd[b], s.abs[b], Wanted(s, q, b), Copied(s, q, b), Credited(s, q, b));
      }
    }
    CreditedReq(g, s, i);
    forall b: nat | b < g.disk && Route(g, b) != i ensures b !in Range(off, off + len) {
      if off <= b < off + len { FetchedIsCopied(g, s, i, b); }
    }
    ReqElsewhere(g, i, s, t, r, Credit(s.reqs[r], len, Range(off, off + len)));
    Glue(g, i, s, t);
  }

  /** The blocks of a read that the SSD worker has finished are copied and not credited yet. */
  lemma FetchedIsCopied(g: Config, s: State, i: nat, b: nat)
    requires Inv(g, s) && Shaped(g, s) && i < g.segs && s.segs[i].exec.Fetching? && s.segs[i].exec.count == s.segs[i].exec.len
    requires s.segs[i].exec.off <= b < s.segs[i].exec.off + s.segs[i].exec.len
    ensures Mine(g, i, b)
    ensures Copied(s, s.segs[i].exec.req, b).Some? && !Credited(s, s.segs[i].exec.req, b)
  {
    hide LocalOk, BlockOk, Live, SlotCell;
    var p, r := Pending(s.segs[i]), s.segs[i].exec.req;
    LocalPart(g, s, i);
    TasksOk(g, i, s.segs[i]);
    assert TaskOk(g, i, p[0]) && Reads(p[0], r, b);
    ClaimPart(g, s, r, b);
    assert Owned(p, r, b);
  }

  lemma FetchedIsGot(g: Config, s: State, i: nat, b: nat)
    requires Inv(g, s) && Shaped(g, s) && i < g.segs && s.segs[i].exec.Fetching? && s.segs[i].exec.count == s.segs[i].exec.len
    requires s.segs[i].exec.off <= b < s.segs[i].exec.off + s.segs[i].exec.len && s.segs[i].exec.req < |s.reqs|
    ensures var q := s.reqs[s.segs[i].exec.req]; b in q.got && b !in q.credited
  {
    hide Inv;
    FetchedIsCopied(g, s, i, b);
  }

  lemma CreditedReq(g: Config, s: State, i: nat)
    requires Inv(g, s) && Shaped(g, s) && i < g.segs && s.segs[i].exec.Fetching?
    requires s.segs[i].exec.count == s.segs[i].exec.len && s.segs[i].exec.req < |s.reqs|
    ensures var x := s.segs[i].exec; ReqOk(g, Credit(s.reqs[x.req], x.len, Range(x.off, x.off + x.len)))
    ensures forall r :: 0 <= r < |s.reqs| ==> ReqOk(g, s.reqs[r])
  {
    hide Inv, ReqOk, Credit, Range;
    var r, off, len := s.segs[i].exec.req, s.segs[i].exec.off, s.segs[i].exec.len;
    var q, range := s.reqs[r], Range(off, off + len);
    ReqPart(g, s);
    forall b | b in range ensures b in q.got && b !in q.credited {
      FetchedIsGot(g, s, i, b);
    }
    RangeSize(off, off + len);
    CreditReqOk(g, q, len, range);
  }

  // ----- power failure -----

  lemma RestartLocal(g: Config, i: nat, c: Seg)
    requires LocalOk(g, i, c)
    ensures LocalOk(g, i, Restart(c)) && Live(Restart(c)) == Live(c)
    ensures forall b :: SlotCell(Restart(c), b) == SlotCell(c, b)
  {
    var d := Restart(c);
    RebuildPart(c.headers, Live(c), |c.headers|);
    assert Below(Live(c), |c.headers|) == Live(c);
  }

  lemma StepCrash(v: Variant, g: Config, s: State)
    requires Inv(g, s)
    ensures Inv(g, Do(v, g, s, Crash))
  {
    hide LocalOk, ClaimOk, SlotCell, Live, Rebuild;
    var t := Do(v, g, s, Crash);
    forall i | 0 <= i < g.segs ensures LocalOk(g, i, t.segs[i]) && |t.segs[i].slots| == |t.segs[i].headers| == g.per {
      RestartLocal(g, i, s.segs[i]);
    }
    forall b: nat | b < g.disk ensures BlockOkAt(g, t, b) {
      CrashBlock(g, s, b);
    }
    forall r: nat, b: nat | b < g.disk ensures ClaimOkAt(g, t, r, b) {
      CrashClaim(r, b, t.ssd[b], t.abs[b]);
    }
  }

  lemma CrashClaim(r: nat, b: nat, x: Cell, a: Cell)
    ensures ClaimOk(Idle, [], Resting, r, b, x, a, None, None, false)
  {
  }

  lemma CrashBlock(g: Config, s: State, b: nat)
    requires Inv(g, s) && b < g.disk
    ensures var c := s.segs[Route(g, b)];
            var left := Recovery(g, s, b);
            && SlotCell(Restart(c), b) == SlotCell(c, b)
            && BlockOk(Idle, [], b, SlotCell(c, b), s.ssd[b], left, left, s.clock)
  {
    hide ClaimOk, LocalOk;
    LocalPart(g, s, Route(g, b));
    RestartLocal(g, Route(g, b), s.segs[Route(g, b)]);
    BlockPart(g, s, b);
    ViewIs(g, s, b);
  }
}
