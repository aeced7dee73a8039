/** The steps of an NVM worker on reads and of an SSD worker keep the invariant. */
module OverlayReads {
  import opened Common
  import opened Metadata
  import opened Overlay
  import opened OverlayInvariant
  import opened OverlaySteps
  import opened OverlayWrites
  import opened OverlayMigration

  lemma StepOpen(v: Variant, g: Config, s: State, off: nat, len: nat)
    requires Inv(g, s) && Enabled(v, g, s, Open(off, len))
    ensures Inv(g, Do(v, g, s, Open(off, len)))
  {
    hide Inv, LocalOk, ClaimOk, BlockOk;
    var t := Do(v, g, s, Open(off, len));
    LocalPart(g, s, 0);
    forall b: nat | b < g.disk ensures BlockOkAt(g, t, b) { BlockPart(g, s, b); }
    forall r: nat, b: nat | b < g.disk ensures ClaimOkAt(g, t, r, b) { ClaimPart(g, s, r, b); }
    ReqPart(g, s);
    Glue(g, 0, s, t);
  }

  // ----- the scan of redirect_read -----

  lemma LocalScan(g: Config, i: nat, c: Seg, next: Pc)
    requires LocalOk(g, i, c) && (c.pc.Idle? || c.pc.Scan?) && (next.Idle? || next.Scan?)
    requires PcOk(g, i, c.(pc := next))
    ensures LocalOk(g, i, c.(pc := next)) && Live(c.(pc := next)) == Live(c) == c.meta.index
  {
  }

  predicate Within(g: Config, q: Req, b: nat) {
    b < g.disk && q.off <= b < q.off + q.len
  }

  lemma ClaimedReq(g: Config, s: State, q: Req, off: nat, len: nat)
    requires Shaped(g, s) && ReqOk(g, q)
    requires forall b: nat :: off <= b < off + len ==> Within(g, q, b)
    ensures var d := Claim(q, off, len, s.abs);
            && ReqOk(g, d) && d.got == q.got && d.credited == q.credited
            && forall b: nat :: b < g.disk ==> Entry(d.want, b) == if off <= b < off + len then Some(s.abs[b]) else Entry(q.want, b)
  {
    var d := Claim(q, off, len, s.abs);
    forall b | b in d.want ensures Within(g, q, b) {
      assert b in q.want || off <= b < off + len;
    }
  }

  /** A step that rewrites one request, at blocks of segment i only. */
  lemma ReqElsewhere(g: Config, i: nat, s: State, t: State, r: nat, q: Req)
    requires Shaped(g, s) && i < g.segs && r < |s.reqs| && t == s.(segs := t.segs, reqs := s.reqs[r := q])
    requires |t.segs| == |s.segs| && forall k :: 0 <= k < |s.segs| && k != i ==> t.segs[k] == s.segs[k]
    requires forall b: nat :: b < g.disk && Route(g, b) != i ==>
               Entry(q.want, b) == Entry(s.reqs[r].want, b) && Entry(q.got, b) == Entry(s.reqs[r].got, b)
               && (b in q.credited <==> b in s.reqs[r].credited)
    ensures Elsewhere(g, i, s, t)
  {
  }

  lemma StepBeginRead(v: Variant, g: Config, s: State, i: nat, r: nat, off: nat, len: nat)
    requires Inv(g, s) && Enabled(v, g, s, BeginRead(i, r, off, len))
    ensures Inv(g, Do(v, g, s, BeginRead(i, r, off, len)))
  {
    hide Inv, LocalOk, ClaimOk, BlockOk, Live, Claim, ReqOk, Elsewhere;
    var t := Do(v, g, s, BeginRead(i, r, off, len));
    var c, next := s.segs[i], t.segs[i].pc;
    LocalPart(g, s, i);
    LocalScan(g, i, c, next);
    KeepReadBlocks(g, i, s, t);
    ReqPart(g, s);
    forall b: nat | off <= b < off + len ensures Within(g, s.reqs[r], b) {
      assert Mine(g, i, b);
    }
    ClaimedReq(g, s, s.reqs[r], off, len);
    forall q: nat, b: nat | Mine(g, i, b) ensures ClaimOkAt(g, t, q, b) {
      ClaimPart(g, s, q, b);
      BeginReadClaim(g, s, i, r, off, len, q, b, next);
    }
    ReqElsewhere(g, i, s, t, r, Claim(s.reqs[r], off, len, s.abs));
    Glue(g, i, s, t);
  }

  lemma BeginReadClaim(g: Config, s: State, i: nat, r: nat, off: nat, len: nat, q: nat, b: nat, next: Pc)
    requires Shaped(g, s) && i < g.segs && s.segs[i].pc.Idle? && Mine(g, i, b) && ClaimOkAt(g, s, q, b)
    requires next == Scan(r, off, len, 0, 0, 0, {})
    requires q == r && off <= b < off + len ==> Wanted(s, q, b).None?
    ensures ClaimOk(next, Pending(s.segs[i]), s.segs[i].exec, q, b, s.ssd[b], s.abs[b],
                    if q == r && off <= b < off + len then Some(s.abs[b]) else Wanted(s, q, b), Copied(s, q, b), Credited(s, q, b))
  {
    hide ClaimOk;
    var c := s.segs[i];
    if q == r && off <= b < off + len {
      ClaimTaken(next, Pending(c), c.exec, q, b, s.ssd[b], s.abs[b], Copied(s, q, b), Credited(s, q, b));
    } else {
      ClaimScanSame(c.pc, next, Pending(c), c.exec, q, b, s.ssd[b], s.abs[b], Wanted(s, q, b), Copied(s, q, b), Credited(s, q, b));
    }
  }

  /** As KeepBlocks, for steps that also touch the read requests. */
  lemma KeepReadBlocks(g: Config, i: nat, s: State, t: State)
    requires Inv(g, s) && Shaped(g, s) && i < g.segs && Shaped(g, t) && t == s.(segs := s.segs[i := t.segs[i]], reqs := t.reqs)
    requires var c, d := s.segs[i], t.segs[i];
             && Pending(d) == Pending(c) && Live(d) == Live(c) && d.slots == c.slots
             && (d.pc == c.pc || ((c.pc.Idle? || c.pc.Scan?) && (d.pc.Idle? || d.pc.Scan?)))
    ensures forall b: nat :: Mine(g, i, b) ==> BlockOkAt(g, t, b)
  {
    hide Inv, LocalOk, ClaimOk, BlockOk, Live;
    var c, d := s.segs[i], t.segs[i];
    forall b: nat | Mine(g, i, b) ensures BlockOkAt(g, t, b) {
      BlockPart(g, s, b);
      if d.pc != c.pc {
        BlockPlain(c.pc, d.pc, Pending(c), b, SlotCell(c, b), s.ssd[b], s.abs[b], s.done[b], s.clock);
      }
    }
  }

  /** The pending tasks once the worker has posted its run of misses. */
  function RunPosted(pc: Pc, p: seq<Task>): seq<Task>
    requires pc.Scan? && pc.miss <= pc.k
  {
    if pc.miss > 0 then p + [Read(pc.req, pc.off + pc.k - pc.miss, pc.miss)] else p
  }

  /** The worker posts the run of misses that ends at its position and moves on. */
  lemma LocalPostRun(g: Config, i: nat, c: Seg, next: Pc)
    requires LocalOk(g, i, c) && c.pc.Scan? && (next.Idle? || next.Scan?)
    requires PcOk(g, i, c.(pc := next))
    ensures var d := PostRun(c).(pc := next);
            && LocalOk(g, i, d) && Live(d) == Live(c)
            && Pending(d) == RunPosted(c.pc, Pending(c))
            && (d.pc.Idle? || d.pc.Scan?) && d.slots == c.slots && d.exec == c.exec
  {
    hide Match, Sound;
    if c.pc.miss > 0 {
      LocalPost(g, i, c, Read(c.pc.req, c.pc.off + c.pc.k - c.pc.miss, c.pc.miss));
    }
    LocalScan(g, i, PostRun(c), next);
  }

  lemma BlockPostRun(g: Config, s: State, i: nat, b: nat, d: Seg)
    requires Inv(g, s) && i < g.segs && Shaped(g, s) && Mine(g, i, b) && s.segs[i].pc.Scan? && s.segs[i].pc.miss <= s.segs[i].pc.k
    requires d.pc.Idle? || d.pc.Scan?
    requires var c := s.segs[i]; Pending(d) == RunPosted(c.pc, Pending(c))
    ensures BlockOk(d.pc, Pending(d), b, SlotCell(s.segs[i], b), s.ssd[b], s.abs[b], s.done[b], s.clock)
  {
    hide Inv, LocalOk, BlockOk, Live, SlotCell;
    var c := s.segs[i];
    BlockPart(g, s, b);
    if c.pc.miss > 0 {
      BlockPosted(c.pc, Pending(c), Read(c.pc.req, c.pc.off + c.pc.k - c.pc.miss, c.pc.miss), b, SlotCell(c, b), s.ssd[b], s.abs[b], s.done[b], s.clock);
    }
    BlockPlain(c.pc, d.pc, Pending(d), b, SlotCell(c, b), s.ssd[b], s.abs[b], s.done[b], s.clock);
  }

  /** A block that the scan finds unbuffered is, on the SSD and after the pending writes, what it
      should be; a buffered one is so in its slot. */
  lemma ScannedContent(g: Config, s: State, i: nat, b: nat)
    requires Inv(g, s) && Shaped(g, s) && i < g.segs && Mine(g, i, b) && s.segs[i].pc.Scan?
    ensures var c := s.segs[i];
            && (b !in c.meta.index ==> After(Pending(c), |Pending(c)|, b, s.ssd[b]) == s.abs[b])
            && (b in c.meta.index ==> c.meta.index[b] < |c.slots| && c.slots[c.meta.index[b]] == s.abs[b])
            && BlockTest(g.per, c.meta, b) == (if b in c.meta.index then Some(c.meta.index[b]) else None)
  {
    BlockPart(g, s, b);
    LocalPart(g, s, i);
    hide Inv;
    BlockTestIsIndex(g.per, s.segs[i].meta, b);
    LiveBound(s.segs[i]);
  }

  lemma MissFound(g: Config, s: State, i: nat)
    requires Inv(g, s) && Shaped(g, s) && i < g.segs && s.segs[i].pc.Scan?
    requires var pc := s.segs[i].pc; pc.k < pc.len && pc.off + pc.k !in s.segs[i].meta.index
    ensures BlockTest(g.per, s.segs[i].meta, s.segs[i].pc.off + s.segs[i].pc.k).None?
  {
    hide Inv, BlockOk, ClaimOk;
  }

  lemma MissStep(v: Variant, g: Config, s: State, i: nat)
    requires Enabled(v, g, s, ScanNext(i)) && s.segs[i].pc.k < s.segs[i].pc.len
    requires BlockTest(g.per, s.segs[i].meta, s.segs[i].pc.off + s.segs[i].pc.k).None?
    ensures var pc := s.segs[i].pc;
            && Shaped(g, Do(v, g, s, ScanNext(i)))
            && Do(v, g, s, ScanNext(i)) == s.(segs := s.segs[i := s.segs[i].(pc := Scan(pc.req, pc.off, pc.len, pc.k + 1, pc.miss + 1, pc.ret, pc.hits))])
  {
    hide BlockTest, Route, Mod, Div;
  }

  lemma MissDoes(v: Variant, g: Config, s: State, i: nat)
    requires Inv(g, s) && Enabled(v, g, s, ScanNext(i))
    requires var pc := s.segs[i].pc; pc.k < pc.len && pc.off + pc.k !in s.segs[i].meta.index
    ensures var pc := s.segs[i].pc;
            && Shaped(g, s) && Shaped(g, Do(v, g, s, ScanNext(i)))
            && Do(v, g, s, ScanNext(i)) == s.(segs := s.segs[i := s.segs[i].(pc := Scan(pc.req, pc.off, pc.len, pc.k + 1, pc.miss + 1, pc.ret, pc.hits))])
  {
    hide Inv, Do, BlockTest;
    MissFound(g, s, i);
    MissStep(v, g, s, i);
  }

  lemma StepScanMiss(v: Variant, g: Config, s: State, i: nat)
    requires Inv(g, s) && Enabled(v, g, s, ScanNext(i))
    requires var pc := s.segs[i].pc; pc.k < pc.len && pc.off + pc.k !in s.segs[i].meta.index
    ensures Inv(g, Do(v, g, s, ScanNext(i)))
  {
    hide Inv, LocalOk, ClaimOk, BlockOk, Live, Do;
    var t := Do(v, g, s, ScanNext(i));
    MissDoes(v, g, s, i);
    var c := s.segs[i];
    LocalPart(g, s, i);
    ScanIsMine(g, i, c);
    var next := Scan(c.pc.req, c.pc.off, c.pc.len, c.pc.k + 1, c.pc.miss + 1, c.pc.ret, c.pc.hits);
    LocalScanMiss(g, i, c);
    KeepReadBlocks(g, i, s, t);
    forall q: nat, b: nat | Mine(g, i, b) ensures ClaimOkAt(g, t, q, b) {
      ClaimPart(g, s, q, b);
      ClaimScanSame(c.pc, next, Pending(c), c.exec, q, b, s.ssd[b], s.abs[b], Wanted(s, q, b), Copied(s, q, b), Credited(s, q, b));
    }
    ReqPart(g, s);
    Glue(g, i, s, t);
  }

  lemma ScanIsMine(g: Config, i: nat, c: Seg)
    requires LocalOk(g, i, c) && c.pc.Scan?
    ensures forall b: nat :: c.pc.off <= b < c.pc.off + c.pc.len ==> Mine(g, i, b)
    ensures forall b :: b in c.pc.hits ==> c.pc.off <= b < c.pc.off + c.pc.k - c.pc.miss
    ensures forall b :: c.pc.off + c.pc.k - c.pc.miss <= b < c.pc.off + c.pc.k ==> b !in c.meta.index
    ensures c.pc.miss <= c.pc.k <= c.pc.len && c.pc.ret == |c.pc.hits|
  {
  }

  lemma LocalScanMiss(g: Config, i: nat, c: Seg)
    requires LocalOk(g, i, c) && c.pc.Scan? && c.pc.k < c.pc.len && c.pc.off + c.pc.k !in c.meta.index
    ensures var d := c.(pc := Scan(c.pc.req, c.pc.off, c.pc.len, c.pc.k + 1, c.pc.miss + 1, c.pc.ret, c.pc.hits));
            LocalOk(g, i, d) && Live(d) == Live(c)
  {
    hide Match, Sound;
    LocalScan(g, i, c, Scan(c.pc.req, c.pc.off, c.pc.len, c.pc.k + 1, c.pc.miss + 1, c.pc.ret, c.pc.hits));
  }

  lemma LocalScanHit(g: Config, i: nat, c: Seg)
    requires LocalOk(g, i, c) && c.pc.Scan? && c.pc.k < c.pc.len && c.pc.off + c.pc.k in c.meta.index
    ensures var d := PostRun(c).(pc := HitPc(c.pc));
            && LocalOk(g, i, d) && Live(d) == Live(c)
            && Pending(d) == RunPosted(c.pc, Pending(c))
            && (d.pc.Idle? || d.pc.Scan?) && d.slots == c.slots && d.exec == c.exec
  {
    hide Match, Sound;
    LocalPostRun(g, i, c, HitPc(c.pc));
  }

  /** A claim, after the worker has posted its run of misses and moved on from Scan to next. */
  lemma ClaimRunPosted(pc: Pc, next: Pc, p: seq<Task>, e: Exec, q: nat, b: nat, x: Cell, a: Cell, w: Option<Cell>, c: Option<Cell>, cr: bool)
    requires ClaimOk(pc, p, e, q, b, x, a, w, c, cr) && pc.Scan? && 0 < pc.miss <= pc.k <= pc.len
    requires forall k :: k in pc.hits ==> k < pc.off + pc.k - pc.miss
    requires q == pc.req && pc.off + pc.k - pc.miss <= b < pc.off + pc.k ==> After(p, |p|, b, x) == a && !ScanOwns(next, q, b) && (next.Scan? ==> b !in next.hits)
    requires !(q == pc.req && pc.off + pc.k - pc.miss <= b < pc.off + pc.k) ==>
               (ScanOwns(next, q, b) <==> ScanOwns(pc, q, b)) && (next.Scan? && next.req == q && b in next.hits ==> pc.req == q && b in pc.hits)
    ensures ClaimOk(next, p + [Read(pc.req, pc.off + pc.k - pc.miss, pc.miss)], e, q, b, x, a, w, c, cr)
  {
    hide ClaimOk;
    var t := Read(pc.req, pc.off + pc.k - pc.miss, pc.miss);
    if Reads(t, q, b) {
      ClaimHandedOver(pc, p, t, e, q, b, x, a, w, c, cr, next);
    } else {
      ClaimPosted(pc, p, t, e, q, b, x, a, w, c, cr);
      ClaimScanSame(pc, next, p + [t], e, q, b, x, a, w, c, cr);
    }
  }

  /** Where the scan goes on from a buffered block. */
  function HitPc(pc: Pc): Pc
    requires pc.Scan?
  {
    Scan(pc.req, pc.off, pc.len, pc.k + 1, 0, pc.ret + 1, pc.hits + {pc.off + pc.k})
  }

  /** Who owns a block before and after the scan hits a buffered one. */
  lemma HitOwns(pc: Pc, q: nat, b: nat)
    requires pc.Scan? && pc.miss <= pc.k < pc.len && (forall k :: k in pc.hits ==> k < pc.off + pc.k - pc.miss)
    ensures q == pc.req && b == pc.off + pc.k ==> ScanOwns(pc, q, b) && ScanOwns(HitPc(pc), q, b)
    ensures q == pc.req && pc.off + pc.k - pc.miss <= b < pc.off + pc.k ==> !ScanOwns(HitPc(pc), q, b) && b !in HitPc(pc).hits
    ensures !(q == pc.req && pc.off + pc.k - pc.miss <= b <= pc.off + pc.k) ==>
              (ScanOwns(HitPc(pc), q, b) <==> ScanOwns(pc, q, b)) && (pc.req == q && b in HitPc(pc).hits ==> b in pc.hits)
  {
  }

  lemma StepScanHit(g: Config, s: State, i: nat, t: State)
    requires Inv(g, s) && Shaped(g, s) && i < g.segs && s.segs[i].pc.Scan? && s.segs[i].pc.req < |s.reqs|
    requires var pc := s.segs[i].pc; pc.miss <= pc.k < pc.len && pc.off + pc.k in s.segs[i].meta.index && pc.off + pc.k < g.disk
    requires var c := s.segs[i];
             var b0 := c.pc.off + c.pc.k;
             t == s.(segs := s.segs[i := PostRun(c).(pc := HitPc(c.pc))],
                     reqs := s.reqs[c.pc.req := Got(s.reqs[c.pc.req], b0, s.abs[b0])])
    ensures Inv(g, t)
  {
    hide Inv, LocalOk, ClaimOk, BlockOk, Live, ReqOk, Elsewhere, PostRun, HitPc, RunPosted;
    var c, d := s.segs[i], t.segs[i];
    var b0 := c.pc.off + c.pc.k;
    LocalPart(g, s, i);
    ScanIsMine(g, i, c);
    assert Mine(g, i, b0);
    LocalScanHit(g, i, c);
    LocalSizes(g, i, d);
    forall b: nat | Mine(g, i, b) ensures BlockOkAt(g, t, b) {
      BlockPostRun(g, s, i, b, d);
      assert SlotCell(d, b) == SlotCell(c, b);
    }
    forall q: nat, b: nat | Mine(g, i, b) ensures ClaimOkAt(g, t, q, b) {
      ClaimPart(g, s, q, b);
      ScannedContent(g, s, i, b);
      ScanHitClaim(c.pc, Pending(c), c.exec, q, b, s.ssd[b], s.abs[b], Wanted(s, q, b), Copied(s, q, b), Credited(s, q, b));
    }
    HitReqs(g, s, i, b0);
    ReqElsewhere(g, i, s, t, c.pc.req, Got(s.reqs[c.pc.req], b0, s.abs[b0]));
    Glue(g, i, s, t);
  }

  lemma HitReqs(g: Config, s: State, i: nat, b0: nat)
    requires Inv(g, s) && Shaped(g, s) && i < g.segs && s.segs[i].pc.Scan? && s.segs[i].pc.req < |s.reqs| && Mine(g, i, b0)
    requires b0 == s.segs[i].pc.off + s.segs[i].pc.k && s.segs[i].pc.k < s.segs[i].pc.len
    ensures var r := s.segs[i].pc.req; ReqOk(g, Got(s.reqs[r], b0, s.abs[b0]))
    ensures forall r :: 0 <= r < |s.reqs| ==> ReqOk(g, s.reqs[r])
  {
    var r := s.segs[i].pc.req;
    ClaimPart(g, s, r, b0);
    ReqPart(g, s);
  }

  lemma ScanHitClaim(pc: Pc, p: seq<Task>, e: Exec, q: nat, b: nat, x: Cell, a: Cell, w: Option<Cell>, c: Option<Cell>, cr: bool)
    requires ClaimOk(pc, p, e, q, b, x, a, w, c, cr) && pc.Scan? && pc.miss <= pc.k < pc.len
    requires forall k :: k in pc.hits ==> k < pc.off + pc.k - pc.miss
    requires pc.off + pc.k - pc.miss <= b < pc.off + pc.k ==> After(p, |p|, b, x) == a
    ensures ClaimOk(HitPc(pc), RunPosted(pc, p), e, q, b, x, a, w, if q == pc.req && b == pc.off + pc.k then Some(a) else c, cr)
  {
    hide ClaimOk, ScanOwns;
    HitOwns(pc, q, b);
    var t := Read(pc.req, pc.off + pc.k - pc.miss, pc.miss);
    if q == pc.req && b == pc.off + pc.k {
      if pc.miss > 0 {
        ClaimPosted(pc, p, t, e, q, b, x, a, w, c, cr);
      }
      ClaimHit(pc, HitPc(pc), RunPosted(pc, p), e, q, b, x, a, w, c, cr);
    } else if pc.miss > 0 {
      ClaimRunPosted(pc, HitPc(pc), p, e, q, b, x, a, w, c, cr);
    } else {
      ClaimScanSame(pc, HitPc(pc), p, e, q, b, x, a, w, c, cr);
    }
  }

  lemma StepScanEnd(g: Config, s: State, i: nat, t: State)
    requires Inv(g, s) && Shaped(g, s) && i < g.segs && s.segs[i].pc.Scan? && s.segs[i].pc.req < |s.reqs|
    requires s.segs[i].pc.miss <= s.segs[i].pc.k && s.segs[i].pc.len <= s.segs[i].pc.k
    requires var c := s.segs[i];
             t == s.(segs := s.segs[i := PostRun(c).(pc := Idle)],
                     reqs := s.reqs[c.pc.req := Credit(s.reqs[c.pc.req], c.pc.ret, c.pc.hits)])
    ensures Inv(g, t)
  {
    hide Inv, LocalOk, ClaimOk, BlockOk, Live, ReqOk, Elsewhere, PostRun, RunPosted;
    var c, d := s.segs[i], t.segs[i];
    LocalPart(g, s, i);
    ScanIsMine(g, i, c);
    LocalPostRun(g, i, c, Idle);
    LocalSizes(g, i, d);
    forall b: nat | Mine(g, i, b) ensures BlockOkAt(g, t, b) {
      BlockPostRun(g, s, i, b, d);
      assert SlotCell(d, b) == SlotCell(c, b);
    }
    forall q: nat, b: nat | Mine(g, i, b) ensures ClaimOkAt(g, t, q, b) {
      ClaimPart(g, s, q, b);
      ScannedContent(g, s, i, b);
      ScanEndClaim(c.pc, Pending(c), c.exec, q, b, s.ssd[b], s.abs[b], Wanted(s, q, b), Copied(s, q, b), Credited(s, q, b));
    }
    EndReqs(g, s, i);
    assert forall b: nat :: b < g.disk && Route(g, b) != i ==> b !in c.pc.hits by {
      assert forall b: nat :: b in c.pc.hits ==> Mine(g, i, b);
    }
    ReqElsewhere(g, i, s, t, c.pc.req, Credit(s.reqs[c.pc.req], c.pc.ret, c.pc.hits));
    Glue(g, i, s, t);
  }

  /** Crediting copied blocks that were not credited yet. */
  lemma CreditReqOk(g: Config, q: Req, n: nat, bs: set<nat>)
    requires ReqOk(g, q) && bs <= q.got.Keys && bs !! q.credited && |bs| == n
    ensures ReqOk(g, Credit(q, n, bs))
  {
    assert |q.credited + bs| == |q.credited| + |bs|;
  }

  lemma EndReqs(g: Config, s: State, i: nat)
    requires Inv(g, s) && Shaped(g, s) && i < g.segs && s.segs[i].pc.Scan? && s.segs[i].pc.req < |s.reqs|
    ensures var pc := s.segs[i].pc; ReqOk(g, Credit(s.reqs[pc.req], pc.ret, pc.hits))
    ensures forall r :: 0 <= r < |s.reqs| ==> ReqOk(g, s.reqs[r])
  {
    hide Inv, LocalOk, BlockOk;
    var pc := s.segs[i].pc;
    var q := s.reqs[pc.req];
    LocalPart(g, s, i);
    ScanIsMine(g, i, s.segs[i]);
    ReqPart(g, s);
    forall b | b in pc.hits ensures b in q.got && b !in q.credited {
      assert Mine(g, i, b);
      ClaimPart(g, s, pc.req, b);
    }
    CreditReqOk(g, q, pc.ret, pc.hits);
  }

  lemma ScanEndClaim(pc: Pc, p: seq<Task>, e: Exec, q: nat, b: nat, x: Cell, a: Cell, w: Option<Cell>, c: Option<Cell>, cr: bool)
    requires ClaimOk(pc, p, e, q, b, x, a, w, c, cr) && pc.Scan? && pc.miss <= pc.k == pc.len
    requires forall k :: k in pc.hits ==> pc.off <= k < pc.off + pc.k - pc.miss
    requires pc.off + pc.k - pc.miss <= b < pc.off + pc.k ==> After(p, |p|, b, x) == a
    ensures ClaimOk(Idle, RunPosted(pc, p), e, q, b, x, a, w, c, cr || (q == pc.req && b in pc.hits))
  {
    hide ClaimOk;
    var t := Read(pc.req, pc.off + pc.k - pc.miss, pc.miss);
    if q == pc.req && b in pc.hits {
      if pc.miss > 0 {
        ClaimPosted(pc, p, t, e, q, b, x, a, w, c, cr);
      }
      ClaimCredited(pc, RunPosted(pc, p), e, q, b, x, a, w, c, cr);
    } else if pc.miss > 0 {
      ClaimRunPosted(pc, Idle, p, e, q, b, x, a, w, c, cr);
    } else {
      ClaimScanSame(pc, Idle, p, e, q, b, x, a, w, c, cr);
    }
  }
}
