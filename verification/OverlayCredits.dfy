/** The accounting of reads, in every run of the code as written: each block that a read's worker has
    accepted is in exactly one place -- being scanned, in one queued or executing task, or credited --
    whatever the index, the bitmap and the migrations do meanwhile. */
module OverlayCredits {
  import opened Common
  import opened Metadata
  import opened Overlay
  import opened OverlayInvariant
  import opened OverlayOrigins
  import opened OverlaySafety

  function One(c: bool): nat {
    if c then 1 else 0
  }

  /** How many of the tasks read block b for request r. */
  function Load(p: seq<Task>, r: nat, b: nat): nat {
    if p == [] then 0 else One(Reads(p[0], r, b)) + Load(p[1..], r, b)
  }

  lemma {:induction false} LoadAppend(p: seq<Task>, t: Task, r: nat, b: nat)
    ensures Load(p + [t], r, b) == Load(p, r, b) + One(Reads(t, r, b))
  {
    if p == [] {
      assert p + [t] == [t];
    } else {
      LoadAppend(p[1..], t, r, b);
      assert (p + [t])[1..] == p[1..] + [t];
    }
  }

  // ----- the balance -----

  /** Every block of the scan is the segment's; the hits come before the run of misses. */
  ghost predicate ScanShape(g: Config, i: nat, pc: Pc) {
    pc.Scan? ==>
      && pc.miss <= pc.k <= pc.len && pc.ret == |pc.hits|
      && (forall b: nat :: pc.off <= b < pc.off + pc.len ==> Mine(g, i, b))
      && forall b :: b in pc.hits ==> pc.off <= b < pc.off + pc.k - pc.miss
  }

  ghost predicate LoadsMine(g: Config, i: nat, c: Seg) {
    forall r: nat, b: nat :: Load(Pending(c), r, b) > 0 ==> Mine(g, i, b)
  }

  ghost predicate Balanced(c: Seg, r: nat, b: nat, wanted: bool, credited: bool) {
    Load(Pending(c), r, b) + One(ScanOwns(c.pc, r, b)) + One(credited) == One(wanted)
  }

  ghost predicate Counted(g: Config, q: Req) {
    && q.ret == |q.credited| && q.credited <= q.want.Keys
    && forall b :: b in q.want ==> q.off <= b < q.off + q.len && b < g.disk
  }

  ghost predicate SegOk(g: Config, s: State, i: nat)
    requires Shaped(g, s) && i < g.segs
  {
    && ScanShape(g, i, s.segs[i].pc) && LoadsMine(g, i, s.segs[i])
    && forall r: nat, b: nat :: Mine(g, i, b) ==> Balanced(s.segs[i], r, b, Wanted(s, r, b).Some?, Credited(s, r, b))
  }

  ghost predicate Accounted(g: Config, s: State) {
    && Shaped(g, s)
    && (forall i: nat :: i < g.segs ==> SegOk(g, s, i))
    && forall r :: 0 <= r < |s.reqs| ==> Counted(g, s.reqs[r])
  }

  lemma InitAccounted(g: Config, s: State)
    requires Init(g, s)
    ensures Accounted(g, s)
  {
  }

  // ----- steps that move no block of a read -----

  ghost predicate SameLoads(c: Seg, d: Seg) {
    && (c.pc.Scan? || d.pc.Scan? ==> d.pc == c.pc)
    && forall r: nat, b: nat :: Load(Pending(d), r, b) == Load(Pending(c), r, b)
  }

  /** Only the copied contents may differ. */
  ghost predicate SameReqs(s: State, t: State) {
    |t.reqs| == |s.reqs| && forall r :: 0 <= r < |s.reqs| ==> t.reqs[r] == s.reqs[r].(got := t.reqs[r].got)
  }

  ghost predicate Unmoved(g: Config, s: State, t: State)
    requires Shaped(g, s) && Shaped(g, t)
  {
    SameReqs(s, t) && forall i: nat :: i < g.segs ==> SameLoads(s.segs[i], t.segs[i])
  }

  lemma UnmovedAccounted(g: Config, s: State, t: State)
    requires Accounted(g, s) && Shaped(g, t) && Unmoved(g, s, t)
    ensures Accounted(g, t)
  {
    hide Load, Pending, Mine;
    forall i: nat | i < g.segs ensures SegOk(g, t, i) {
      assert SegOk(g, s, i) && SameLoads(s.segs[i], t.segs[i]);
      forall r: nat, b: nat | Mine(g, i, b) ensures Balanced(t.segs[i], r, b, Wanted(t, r, b).Some?, Credited(t, r, b)) {
        assert Balanced(s.segs[i], r, b, Wanted(s, r, b).Some?, Credited(s, r, b));
      }
    }
  }

  lemma SameTasks(c: Seg, d: Seg)
    requires d.queue == c.queue && d.exec == c.exec && (c.pc.Scan? || d.pc.Scan? ==> d.pc == c.pc)
    ensures SameLoads(c, d)
  {
    assert Pending(d) == Pending(c);
  }

  /** The steps of a worker on its small writes and in the clearing loop, and the first of all writes. */
  lemma WritesUnmoved(v: Variant, g: Config, s: State, e: Step)
    requires Enabled(v, g, s, e) && (e.Lookup? || e.StoreData? || e.StoreHeader? || e.ClearNext? || e.BeginWrite?)
    requires Shaped(g, Do(v, g, s, e))
    ensures Unmoved(g, s, Do(v, g, s, e))
  {
    hide Reserve, BlockTest, Full, Mod, Div, Mine, ClearBlock, PutRange, Load, Pending, SameLoads;
    var t := Do(v, g, s, e);
    forall i: nat | i < g.segs ensures SameLoads(s.segs[i], t.segs[i]) {
      if e.BeginWrite? && |e.data| > 1 && i == e.i {
        PostedWrite(s.segs[i], t.segs[i], e.off, WriteCells(e.data, s.clock));
      } else {
        SameTasks(s.segs[i], t.segs[i]);
      }
    }
  }

  lemma PostedWrite(c: Seg, d: Seg, off: nat, cells: seq<Cell>)
    requires d.queue == c.queue + [Write(off, cells)] && d.exec == c.exec && !c.pc.Scan? && !d.pc.Scan?
    ensures SameLoads(c, d)
  {
    assert Pending(d) == Pending(c) + [Write(off, cells)];
    forall r: nat, b: nat ensures Load(Pending(d), r, b) == Load(Pending(c), r, b) {
      LoadAppend(Pending(c), Write(off, cells), r, b);
    }
  }

  lemma RoundUnmoved(v: Variant, g: Config, s: State, e: Step)
    requires Enabled(v, g, s, e) && (e.Drain? || e.Pop? || e.Copy? || e.Wipe? || e.Uncount? || e.EndRound?)
    requires Shaped(g, Do(v, g, s, e))
    ensures Unmoved(g, s, Do(v, g, s, e))
  {
    hide Mod, Div, Load, Pending, SameLoads, Invalidate;
    var t := Do(v, g, s, e);
    forall i: nat | i < g.segs ensures SameLoads(s.segs[i], t.segs[i]) {
      SameTasks(s.segs[i], t.segs[i]);
    }
  }

  /** The SSD worker's steps, but for the end of a read. */
  lemma SsdUnmoved(v: Variant, g: Config, s: State, e: Step)
    requires Enabled(v, g, s, e) && (e.Fetch? || e.Raise? || e.Lower? || e.Transfer? || (e.Complete? && s.segs[e.i].exec.Storing?))
    requires Shaped(g, Do(v, g, s, e))
    ensures Unmoved(g, s, Do(v, g, s, e))
  {
    hide Mod, Div, Load, Pending, SameLoads, DoFetch, DoTransfer;
    var t := Do(v, g, s, e);
    forall i: nat | i < g.segs ensures SameLoads(s.segs[i], t.segs[i]) {
      if i == e.i {
        SsdLoads(s.segs[i]);
        if e.Lower? { SameTasks(s.segs[i], t.segs[i]); }
      } else {
        SameTasks(s.segs[i], t.segs[i]);
      }
    }
  }

  lemma SsdLoads(c: Seg)
    ensures c.exec.Resting? ==> SameLoads(c, DoFetch(c))
    ensures c.exec.Polled? ==> SameLoads(c, c.(exec := Resting, empty := true))
    ensures (c.exec.Storing? && c.exec.cells != []) || c.exec.Fetching? ==> SameLoads(c, DoTransfer(c))
    ensures c.exec.Storing? ==> SameLoads(c, c.(exec := Resting))
  {
    hide Load;
    if c.exec.Storing? {
      StoringLoads(c);
      if c.exec.cells != [] { StoringLoads(DoTransfer(c)); }
    } else if c.exec.Resting? {
      assert Pending(DoFetch(c)) == Pending(c);
    }
  }

  /** A write counts for no read. */
  lemma StoringLoads(c: Seg)
    requires c.exec.Storing?
    ensures forall r: nat, b: nat :: Load(Pending(c), r, b) == Load(c.queue, r, b)
    ensures Pending(c.(exec := Resting)) == c.queue
  {
    assert Pending(c)[1..] == c.queue;
  }

  // ----- steps that move blocks of a read -----

  /** A step of segment i that touches one request, and there only blocks of its own. */
  lemma MovedAccounted(g: Config, s: State, t: State, i: nat, r: nat)
    requires Accounted(g, s) && Shaped(g, t) && i < g.segs && r < |s.reqs| == |t.reqs|
    requires t.segs == s.segs[i := t.segs[i]] && t.reqs == s.reqs[r := t.reqs[r]]
    requires SegOk(g, t, i) && Counted(g, t.reqs[r])
    requires forall b: nat :: b < g.disk && !Mine(g, i, b) ==> Wanted(t, r, b).Some? == Wanted(s, r, b).Some? && Credited(t, r, b) == Credited(s, r, b)
    ensures Accounted(g, t)
  {
    hide Load, Pending;
    forall k: nat | k < g.segs ensures SegOk(g, t, k) {
      assert SegOk(g, s, k);
      forall q: nat, b: nat | Mine(g, k, b) ensures Balanced(t.segs[k], q, b, Wanted(t, q, b).Some?, Credited(t, q, b)) {
        assert Balanced(s.segs[k], q, b, Wanted(s, q, b).Some?, Credited(s, q, b));
      }
    }
  }

  lemma OpenAccounted(v: Variant, g: Config, s: State, off: nat, len: nat)
    requires Accounted(g, s)
    ensures Enabled(v, g, s, Open(off, len)) && Accounted(g, Do(v, g, s, Open(off, len)))
  {
    hide Load, Pending, Mine;
    var t := Do(v, g, s, Open(off, len));
    forall k: nat | k < g.segs ensures SegOk(g, t, k) {
      assert SegOk(g, s, k);
      forall q: nat, b: nat | Mine(g, k, b) ensures Balanced(t.segs[k], q, b, Wanted(t, q, b).Some?, Credited(t, q, b)) {
        assert Balanced(s.segs[k], q, b, Wanted(s, q, b).Some?, Credited(s, q, b));
      }
    }
  }

  lemma CrashAccounted(v: Variant, g: Config, s: State)
    requires Accounted(g, s) && Enabled(v, g, s, Crash)
    ensures Accounted(g, Do(v, g, s, Crash))
  {
    hide Rebuild, Recovery, Mine;
    var t := Do(v, g, s, Crash);
    assert forall k: nat :: k < g.segs ==> Pending(t.segs[k]) == [] && t.segs[k].pc == Idle;
  }

  lemma BeginAccounted(v: Variant, g: Config, s: State, i: nat, r: nat, off: nat, len: nat)
    requires Accounted(g, s) && Enabled(v, g, s, BeginRead(i, r, off, len))
    ensures Accounted(g, Do(v, g, s, BeginRead(i, r, off, len)))
  {
    hide Load, Route;
    var t := Do(v, g, s, BeginRead(i, r, off, len));
    var c, d := s.segs[i], t.segs[i];
    assert SegOk(g, s, i);
    assert Pending(d) == Pending(c);
    forall q: nat, b: nat | Mine(g, i, b) ensures Balanced(d, q, b, Wanted(t, q, b).Some?, Credited(t, q, b)) {
      assert Balanced(c, q, b, Wanted(s, q, b).Some?, Credited(s, q, b));
    }
    MovedAccounted(g, s, t, i, r);
  }

  lemma PostRunLoad(c: Seg, r: nat, b: nat)
    requires c.pc.Scan? && c.pc.miss <= c.pc.k
    ensures Load(Pending(PostRun(c)), r, b) == Load(Pending(c), r, b) + One(r == c.pc.req && c.pc.off + c.pc.k - c.pc.miss <= b < c.pc.off + c.pc.k)
  {
    if c.pc.miss > 0 {
      var t := Read(c.pc.req, c.pc.off + c.pc.k - c.pc.miss, c.pc.miss);
      LoadAppend(Pending(c), t, r, b);
      assert Pending(PostRun(c)) == Pending(c) + [t];
    }
  }

  /** The segment after a step of its scan: the run before position k may have been posted, and the
      rest of the scan, with the credits given, is what was left of it. */
  lemma ScanSeg(g: Config, s: State, t: State, i: nat)
    requires Shaped(g, s) && Shaped(g, t) && i < g.segs && SegOk(g, s, i) && s.segs[i].pc.Scan? && s.segs[i].pc.miss <= s.segs[i].pc.k
    requires Pending(t.segs[i]) == Pending(PostRun(s.segs[i])) && ScanShape(g, i, t.segs[i].pc)
    requires forall q: nat, b: nat :: Wanted(t, q, b).Some? == Wanted(s, q, b).Some?
    requires var pc, next := s.segs[i].pc, t.segs[i].pc;
             forall q: nat, b: nat :: One(ScanOwns(pc, q, b)) + One(Credited(s, q, b)) ==
               One(ScanOwns(next, q, b)) + One(Credited(t, q, b)) + One(q == pc.req && pc.off + pc.k - pc.miss <= b < pc.off + pc.k)
    ensures SegOk(g, t, i)
  {
    hide Load, Pending, Route, PostRun, ScanOwns, Wanted, Credited;
    var c, d := s.segs[i], t.segs[i];
    forall q: nat, b: nat | Load(Pending(d), q, b) > 0 ensures Mine(g, i, b) {
      PostRunLoad(c, q, b);
    }
    forall q: nat, b: nat | Mine(g, i, b) ensures Balanced(d, q, b, Wanted(t, q, b).Some?, Credited(t, q, b)) {
      assert Balanced(c, q, b, Wanted(s, q, b).Some?, Credited(s, q, b));
      PostRunLoad(c, q, b);
    }
  }

  lemma MissAccounted(v: Variant, g: Config, s: State, i: nat)
    requires Accounted(g, s) && Enabled(v, g, s, ScanNext(i)) && s.segs[i].pc.k < s.segs[i].pc.len
    requires BlockTest(g.per, s.segs[i].meta, s.segs[i].pc.off + s.segs[i].pc.k).None?
    ensures Accounted(g, Do(v, g, s, ScanNext(i)))
  {
    hide Load, Route, BlockTest;
    var t := Do(v, g, s, ScanNext(i));
    var c, d := s.segs[i], t.segs[i];
    assert SegOk(g, s, i);
    assert Pending(d) == Pending(c);
    assert t.reqs == s.reqs;
    forall q: nat, b: nat | Mine(g, i, b) ensures Balanced(d, q, b, Wanted(t, q, b).Some?, Credited(t, q, b)) {
      assert Balanced(c, q, b, Wanted(s, q, b).Some?, Credited(s, q, b));
    }
    MovedAccounted(g, s, t, i, c.pc.req);
  }

  /** What ScanNext does at a hit. */
  lemma HitDoes(v: Variant, g: Config, s: State, i: nat)
    requires Enabled(v, g, s, ScanNext(i)) && s.segs[i].pc.k < s.segs[i].pc.len
    requires BlockTest(g.per, s.segs[i].meta, s.segs[i].pc.off + s.segs[i].pc.k).Some?
    ensures var t := Do(v, g, s, ScanNext(i));
            var c := s.segs[i];
            && t.segs == s.segs[i := PostRun(c).(pc := Scan(c.pc.req, c.pc.off, c.pc.len, c.pc.k + 1, 0, c.pc.ret + 1, c.pc.hits + {c.pc.off + c.pc.k}))]
            && SameReqs(s, t) && t.reqs == s.reqs[c.pc.req := t.reqs[c.pc.req]] && Shaped(g, t)
  {
    hide Route, BlockTest, PostRun;
    var t := Do(v, g, s, ScanNext(i));
    var c := s.segs[i];
    StepAdds(v, g, s, ScanNext(i));
    assert t.reqs == s.reqs[c.pc.req := t.reqs[c.pc.req]];
  }

  lemma HitAccounted(v: Variant, g: Config, s: State, i: nat)
    requires Accounted(g, s) && Enabled(v, g, s, ScanNext(i)) && s.segs[i].pc.k < s.segs[i].pc.len
    requires BlockTest(g.per, s.segs[i].meta, s.segs[i].pc.off + s.segs[i].pc.k).Some?
    ensures Accounted(g, Do(v, g, s, ScanNext(i)))
  {
    hide Load, Route, BlockTest, PostRun, Do;
    var t := Do(v, g, s, ScanNext(i));
    var c := s.segs[i];
    HitDoes(v, g, s, i);
    assert SegOk(g, s, i);
    assert Pending(t.segs[i]) == Pending(PostRun(c));
    assert |c.pc.hits + {c.pc.off + c.pc.k}| == |c.pc.hits| + 1;
    ScanSeg(g, s, t, i);
    MovedAccounted(g, s, t, i, c.pc.req);
  }

  /** Blocks that are neither credited nor lost sight of become credited. */
  lemma CreditCounted(g: Config, q: Req, n: nat, bs: set<nat>)
    requires Counted(g, q) && |bs| == n && bs !! q.credited && bs <= q.want.Keys
    ensures Counted(g, Credit(q, n, bs))
  {
    assert |q.credited + bs| == |q.credited| + |bs|;
  }

  lemma EndAccounted(v: Variant, g: Config, s: State, i: nat)
    requires Accounted(g, s) && Enabled(v, g, s, ScanNext(i)) && s.segs[i].pc.k >= s.segs[i].pc.len
    ensures Accounted(g, Do(v, g, s, ScanNext(i)))
  {
    hide Load, Route, PostRun;
    var t := Do(v, g, s, ScanNext(i));
    var c := s.segs[i];
    var r, hits := c.pc.req, c.pc.hits;
    assert SegOk(g, s, i);
    forall b | b in hits ensures Mine(g, i, b) && !Credited(s, r, b) && Wanted(s, r, b).Some? {
      assert Mine(g, i, b);
      assert Balanced(c, r, b, Wanted(s, r, b).Some?, Credited(s, r, b));
    }
    StepAdds(v, g, s, ScanNext(i));
    assert Pending(t.segs[i]) == Pending(PostRun(c));
    CreditCounted(g, s.reqs[r], c.pc.ret, hits);
    ScanSeg(g, s, t, i);
    MovedAccounted(g, s, t, i, r);
  }

  /** What the SSD worker is about to credit has been accepted, and not been credited yet. */
  lemma AboutToCredit(g: Config, s: State, i: nat, b: nat)
    requires Accounted(g, s) && i < g.segs && s.segs[i].exec.Fetching? && s.segs[i].exec.req < |s.reqs|
    requires s.segs[i].exec.off <= b < s.segs[i].exec.off + s.segs[i].exec.len
    ensures Mine(g, i, b) && b in s.reqs[s.segs[i].exec.req].want && b !in s.reqs[s.segs[i].exec.req].credited
  {
    hide Route;
    var c, r := s.segs[i], s.segs[i].exec.req;
    assert SegOk(g, s, i);
    assert Reads(Pending(c)[0], r, b);
    assert Load(Pending(c), r, b) > 0;
    assert Balanced(c, r, b, Wanted(s, r, b).Some?, Credited(s, r, b));
  }

  /** The finished task is gone from the queue, and its blocks are credited instead. */
  lemma LoadedSeg(g: Config, s: State, t: State, i: nat)
    requires Accounted(g, s) && Shaped(g, t) && i < g.segs && s.segs[i].exec.Fetching? && s.segs[i].exec.req < |s.reqs| == |t.reqs|
    requires t.segs[i] == s.segs[i].(exec := Resting)
    requires var x := s.segs[i].exec; t.reqs == s.reqs[x.req := Credit(s.reqs[x.req], x.len, Range(x.off, x.off + x.len))]
    ensures SegOk(g, t, i)
  {
    hide Route, Range, ScanOwns, Load, Pending;
    var c, d := s.segs[i], t.segs[i];
    var r, off, len := c.exec.req, c.exec.off, c.exec.len;
    assert SegOk(g, s, i);
    forall q: nat, b: nat | Load(Pending(d), q, b) > 0 ensures Mine(g, i, b) {
      LoadOfHead(c, q, b);
    }
    forall q: nat, b: nat | Mine(g, i, b) ensures Balanced(d, q, b, Wanted(t, q, b).Some?, Credited(t, q, b)) {
      assert Balanced(c, q, b, Wanted(s, q, b).Some?, Credited(s, q, b));
      LoadOfHead(c, q, b);
    }
  }

  lemma LoadOfHead(c: Seg, r: nat, b: nat)
    requires c.exec.Fetching?
    ensures Load(Pending(c), r, b) == One(r == c.exec.req && c.exec.off <= b < c.exec.off + c.exec.len) + Load(Pending(c.(exec := Resting)), r, b)
  {
    assert Pending(c)[1..] == c.queue == Pending(c.(exec := Resting));
  }

  lemma LoadedDoes(v: Variant, g: Config, s: State, i: nat)
    requires Enabled(v, g, s, Complete(i)) && s.segs[i].exec.Fetching?
    ensures var t, x := Do(v, g, s, Complete(i)), s.segs[i].exec;
            && Shaped(g, t) && t.segs == s.segs[i := s.segs[i].(exec := Resting)]
            && t.reqs == s.reqs[x.req := Credit(s.reqs[x.req], x.len, Range(x.off, x.off + x.len))]
  {
    hide Route, Range;
  }

  /** The SSD worker's credit at the end of a read. */
  lemma LoadedAccounted(v: Variant, g: Config, s: State, i: nat)
    requires Accounted(g, s) && Enabled(v, g, s, Complete(i)) && s.segs[i].exec.Fetching?
    ensures Accounted(g, Do(v, g, s, Complete(i)))
  {
    hide Route, Range, SegOk, Load, Pending, Do;
    var t := Do(v, g, s, Complete(i));
    LoadedDoes(v, g, s, i);
    var r, off, len := s.segs[i].exec.req, s.segs[i].exec.off, s.segs[i].exec.len;
    forall b | b in Range(off, off + len) ensures Mine(g, i, b) && b in s.reqs[r].want && b !in s.reqs[r].credited {
      AboutToCredit(g, s, i, b);
    }
    RangeSize(off, off + len);
    CreditCounted(g, s.reqs[r], len, Range(off, off + len));
    LoadedSeg(g, s, t, i);
    MovedAccounted(g, s, t, i, r);
  }

  // ----- runs -----

  lemma StepAccounted(v: Variant, g: Config, s: State, e: Step)
    requires Accounted(g, s) && Enabled(v, g, s, e)
    ensures Accounted(g, Do(v, g, s, e))
  {
    hide Do, Accounted, Unmoved;
    StepAdds(v, g, s, e);
    match e
    case Open(off, len) => OpenAccounted(v, g, s, off, len);
    case Crash => CrashAccounted(v, g, s);
    case BeginRead(i, r, off, len) => BeginAccounted(v, g, s, i, r, off, len);
    case ScanNext(i) => ScanAccounted(v, g, s, i);
    case Complete(i) =>
      if s.segs[i].exec.Fetching? {
        LoadedAccounted(v, g, s, i);
      } else {
        SsdUnmoved(v, g, s, e);
        UnmovedAccounted(g, s, Do(v, g, s, e));
      }
    case _ =>
      if e.Drain? || e.Pop? || e.Copy? || e.Wipe? || e.Uncount? || e.EndRound? {
        RoundUnmoved(v, g, s, e);
      } else if e.Fetch? || e.Raise? || e.Lower? || e.Transfer? {
        SsdUnmoved(v, g, s, e);
      } else {
        WritesUnmoved(v, g, s, e);
      }
      UnmovedAccounted(g, s, Do(v, g, s, e));
  }

  lemma ScanAccounted(v: Variant, g: Config, s: State, i: nat)
    requires Accounted(g, s) && Enabled(v, g, s, ScanNext(i))
    ensures Accounted(g, Do(v, g, s, ScanNext(i)))
  {
    hide Accounted, Do;
    var pc := s.segs[i].pc;
    if pc.k >= pc.len {
      EndAccounted(v, g, s, i);
    } else if BlockTest(g.per, s.segs[i].meta, pc.off + pc.k).Some? {
      HitAccounted(v, g, s, i);
    } else {
      MissAccounted(v, g, s, i);
    }
  }

  lemma {:induction false} RunAccounted(v: Variant, g: Config, s: State, es: seq<Step>, t: State)
    requires Accounted(g, s) && Run(v, g, s, es, t)
    ensures Accounted(g, t)
    decreases es
  {
    hide Accounted, Do, Enabled;
    if es != [] {
      StepAccounted(v, g, s, es[0]);
      RunAccounted(v, g, Do(v, g, s, es[0]), es[1..], t);
    }
  }

  /** In every run of the code as written, faults and all: a read is never credited for more than its
      length, and has its full length exactly when each of its blocks has been credited, once. */
  lemma CreditsExact(v: Variant, g: Config, s: State, es: seq<Step>, t: State, r: nat)
    requires Init(g, s) && Run(v, g, s, es, t) && r < |t.reqs|
    ensures var q := t.reqs[r];
            && q.ret == |q.credited| <= q.len
            && (q.ret == q.len <==> forall b: nat :: q.off <= b < q.off + q.len ==> b in q.credited)
  {
    hide Init, SegOk;
    InitAccounted(g, s);
    RunAccounted(v, g, s, es, t);
    FullRange(t.reqs[r].credited, t.reqs[r].off, t.reqs[r].len);
  }

  /** Where every worker is done with what it accepted, exactly the accepted blocks are credited. */
  lemma AllCredited(g: Config, t: State, r: nat)
    requires Accounted(g, t) && r < |t.reqs|
    requires forall i :: 0 <= i < |t.segs| ==> !t.segs[i].pc.Scan? && Pending(t.segs[i]) == []
    ensures t.reqs[r].credited == t.reqs[r].want.Keys
    ensures t.reqs[r].ret == |t.reqs[r].want|
  {
    var q := t.reqs[r];
    forall b | b in q.want ensures b in q.credited {
      var i := Route(g, b);
      assert SegOk(g, t, i) && Mine(g, i, b);
      assert Balanced(t.segs[i], r, b, Wanted(t, r, b).Some?, Credited(t, r, b));
    }
  }

  /** And no credit is lost: once every worker is done with what it accepted, exactly the accepted
      blocks are credited, so that a read accepted in full has its waiter released. */
  lemma NoCreditLost(v: Variant, g: Config, s: State, es: seq<Step>, t: State, r: nat)
    requires Init(g, s) && Run(v, g, s, es, t) && r < |t.reqs|
    requires forall i :: 0 <= i < |t.segs| ==> !t.segs[i].pc.Scan? && Pending(t.segs[i]) == []
    ensures t.reqs[r].credited == t.reqs[r].want.Keys
    ensures |t.reqs[r].want| == t.reqs[r].len ==> t.reqs[r].ret == t.reqs[r].len
  {
    hide Init, Accounted;
    InitAccounted(g, s);
    RunAccounted(v, g, s, es, t);
    AllCredited(g, t, r);
  }
}
