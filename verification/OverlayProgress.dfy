/** That things can go on: from every state a run reaches, the SSD worker can work off its queue, a read
    that was accepted can be completed, and a worker can finish what it is doing. */
module OverlayProgress {
  import opened Common
  import opened Metadata
  import opened Overlay
  import opened OverlayInvariant
  import opened OverlaySteps
  import opened OverlayMigration
  import opened OverlayOrigins
  import opened OverlaySafety
  import opened OverlayResults
  import opened OverlayCrash
  import opened OverlayCredits

  // ----- tasks stay on the device and within their requests -----

  predicate TaskFits(g: Config, n: nat, t: Task) {
    match t
    case Write(off, cells) => off + |cells| <= g.disk
    case Read(r, off, len) => r < n && off + len <= g.disk
  }

  predicate ExecFits(g: Config, n: nat, e: Exec) {
    match e
    case Storing(off, cells) => off + |cells| <= g.disk
    case Fetching(r, off, len, count) => r < n && count <= len && off + len <= g.disk
    case _ => true
  }

  predicate PcFits(g: Config, n: nat, pc: Pc) {
    match pc
    case Scan(r, off, len, k, miss, _, _) => r < n && miss <= k <= len && off + len <= g.disk
    case _ => true
  }

  ghost predicate SegFits(g: Config, n: nat, c: Seg) {
    (forall t :: t in c.queue ==> TaskFits(g, n, t)) && ExecFits(g, n, c.exec) && PcFits(g, n, c.pc)
  }

  ghost predicate Fits(g: Config, s: State) {
    Shaped(g, s) && forall i: nat :: i < g.segs ==> SegFits(g, |s.reqs|, s.segs[i])
  }

  lemma InitFits(g: Config, s: State)
    requires Init(g, s)
    ensures Fits(g, s)
  {
  }

  lemma LastInside(g: Config, i: nat, off: nat, len: nat)
    requires len > 0 && forall b: nat :: off <= b < off + len ==> Mine(g, i, b)
    ensures off + len <= g.disk
  {
    assert Mine(g, i, off + (len - 1));
  }

  predicate PostsOrReads(e: Step) {
    e.BeginWrite? || e.BeginRead? || e.ScanNext?
  }

  /** The step changes no other segment's queue and worker, and its own still fits. */
  ghost predicate StepFits(g: Config, s: State, e: Step, t: State) {
    !e.Open? && !e.Crash? && e.i < |t.segs| && |t.reqs| == |s.reqs| && SegFits(g, |s.reqs|, t.segs[e.i])
  }

  lemma PostFits(v: Variant, g: Config, s: State, e: Step)
    requires Fits(g, s) && Enabled(v, g, s, e) && PostsOrReads(e)
    ensures StepFits(g, s, e, Do(v, g, s, e))
  {
    hide BlockTest, Mod, Div, Route, Claim, TaskFits;
    var n, c := |s.reqs|, s.segs[e.i];
    assert SegFits(g, n, c);
    if e.BeginWrite? {
      LastInside(g, e.i, e.off, |e.data|);
      WriteFits(g, n, e.off, WriteCells(e.data, s.clock));
    } else if e.BeginRead? {
      LastInside(g, e.i, e.off, e.len);
    } else {
      ScanFits(g, n, c);
    }
  }

  lemma SsdFits(v: Variant, g: Config, s: State, e: Step)
    requires Fits(g, s) && Enabled(v, g, s, e) && (OfSsd(e) || e.Transfer?)
    ensures StepFits(g, s, e, Do(v, g, s, e))
  {
    hide Mod, Div, Route, TaskFits, DoFetch;
    assert SegFits(g, |s.reqs|, s.segs[e.i]);
    FetchFits(g, |s.reqs|, s.segs[e.i]);
  }

  lemma RestFits(v: Variant, g: Config, s: State, e: Step)
    requires Fits(g, s) && Enabled(v, g, s, e) && !PostsOrReads(e) && !OfSsd(e) && !e.Transfer? && !e.Open? && !e.Crash?
    ensures StepFits(g, s, e, Do(v, g, s, e))
  {
    hide Reserve, BlockTest, Full, Mod, Div, Route, ClearBlock, PutRange, Invalidate, Findable, TaskFits;
    assert SegFits(g, |s.reqs|, s.segs[e.i]);
  }

  lemma StepKeepsFits(v: Variant, g: Config, s: State, e: Step)
    requires Fits(g, s) && Enabled(v, g, s, e)
    ensures Fits(g, Do(v, g, s, e))
  {
    hide Do, Enabled;
    StepAdds(v, g, s, e);
    if e.Open? || e.Crash? {
      FreshFits(v, g, s, e);
    } else {
      if PostsOrReads(e) { PostFits(v, g, s, e); } else if OfSsd(e) || e.Transfer? { SsdFits(v, g, s, e); } else { RestFits(v, g, s, e); }
      forall k: nat | k < g.segs && k != e.i ensures SegFits(g, |s.reqs|, Do(v, g, s, e).segs[k]) {
        OthersQueue(v, g, s, e, k);
        assert SegFits(g, |s.reqs|, s.segs[k]);
      }
    }
  }

  lemma FreshFits(v: Variant, g: Config, s: State, e: Step)
    requires Fits(g, s) && Enabled(v, g, s, e) && (e.Open? || e.Crash?) && Shaped(g, Do(v, g, s, e))
    ensures Fits(g, Do(v, g, s, e))
  {
    hide Rebuild, Recovery, Route;
    forall k: nat | k < g.segs ensures SegFits(g, |Do(v, g, s, e).reqs|, Do(v, g, s, e).segs[k]) {
      assert SegFits(g, |s.reqs|, s.segs[k]);
    }
  }

  lemma {:induction false} RunFits(v: Variant, g: Config, s: State, es: seq<Step>, t: State)
    requires Fits(g, s) && Run(v, g, s, es, t)
    ensures Fits(g, t)
    decreases es
  {
    hide Fits, Do, Enabled;
    if es != [] {
      StepKeepsFits(v, g, s, es[0]);
      RunFits(v, g, Do(v, g, s, es[0]), es[1..], t);
    }
  }

  lemma WriteFits(g: Config, n: nat, off: nat, cells: seq<Cell>)
    requires off + |cells| <= g.disk
    ensures TaskFits(g, n, Write(off, cells))
  {
  }

  lemma ScanFits(g: Config, n: nat, c: Seg)
    requires SegFits(g, n, c) && c.pc.Scan? && g.per > 0
    ensures SegFits(g, n, DoScanNext(g, c))
  {
    hide BlockTest;
  }

  lemma FetchFits(g: Config, n: nat, c: Seg)
    requires SegFits(g, n, c)
    ensures SegFits(g, n, DoFetch(c))
  {
    if c.queue != [] { assert c.queue[0] in c.queue; }
  }

  // ----- working off a queue -----

  predicate OfSsdWorker(e: Step, i: nat) {
    (OfSsd(e) || e.Transfer?) && e.i == i
  }

  predicate SsdDone(c: Seg) {
    c.exec.Resting? && c.queue == []
  }

  /** What the SSD worker does next. */
  function SsdNext(i: nat, c: Seg): Step {
    match c.exec
    case Resting => Fetch(i)
    case Polled => Raise(i)
    case Storing(_, cells) => if c.empty then Lower(i) else if cells != [] then Transfer(i) else Complete(i)
    case Fetching(_, _, len, count) => if c.empty then Lower(i) else if count < len then Transfer(i) else Complete(i)
  }

  /** It can always do it. */
  lemma SsdCan(v: Variant, g: Config, s: State, i: nat)
    requires Fits(g, s) && i < g.segs
    ensures Enabled(v, g, s, SsdNext(i, s.segs[i]))
  {
    hide TaskFits, Route, Mod, Div;
    assert SegFits(g, |s.reqs|, s.segs[i]);
  }

  /** How much of the task at hand is left. */
  function ExecLeft(c: Seg): nat {
    match c.exec
    case Resting => 0
    case Polled => 1
    case Storing(_, cells) => |cells| + 1 + if c.empty then 1 else 0
    case Fetching(_, _, len, count) => (if count < len then len - count else 0) + 1 + if c.empty then 1 else 0
  }

  /** From s to t only the SSD worker of segment i has worked, and what its queue will make of the SSD
      is what it would have been. */
  ghost predicate Worked(g: Config, s: State, t: State, i: nat)
    requires Shaped(g, s) && i < g.segs
  {
    && Shaped(g, t) && SameRest(s, t, i) && SameClaims(s, t)
    && forall b: nat :: b < g.disk ==>
         After(Pending(t.segs[i]), |Pending(t.segs[i])|, b, t.ssd[b]) == After(Pending(s.segs[i]), |Pending(s.segs[i])|, b, s.ssd[b])
  }

  predicate SameRest(s: State, t: State, i: nat) {
    && i < |s.segs| == |t.segs| && t.segs == s.segs[i := t.segs[i]] && t.abs == s.abs && t.clock == s.clock
    && t.segs[i] == s.segs[i].(queue := t.segs[i].queue, exec := t.segs[i].exec, empty := t.segs[i].empty)
  }

  /** The reads and what they have been promised. */
  predicate SameClaims(s: State, t: State) {
    && |t.reqs| == |s.reqs|
    && forall r :: 0 <= r < |s.reqs| ==> t.reqs[r].want == s.reqs[r].want && t.reqs[r].off == s.reqs[r].off && t.reqs[r].len == s.reqs[r].len
  }

  lemma WorkedSelf(g: Config, s: State, i: nat)
    requires Shaped(g, s) && i < g.segs
    ensures Worked(g, s, s, i)
  {
    hide After, Pending;
    assert s.segs == s.segs[i := s.segs[i]];
  }

  lemma WorkedOn(g: Config, s: State, m: State, t: State, i: nat)
    requires Shaped(g, s) && Shaped(g, m) && i < g.segs && Worked(g, s, m, i) && Worked(g, m, t, i)
    ensures Worked(g, s, t, i)
  {
    hide After, Pending;
  }

  /** The segment after the SSD worker's next step. */
  function SsdSeg(c: Seg): Seg {
    match c.exec
    case Resting => DoFetch(c)
    case Polled => c.(exec := Resting, empty := true)
    case Storing(_, cells) => if c.empty then c.(empty := false) else if cells != [] then DoTransfer(c) else c.(exec := Resting)
    case Fetching(_, _, len, count) => if c.empty then c.(empty := false) else if count < len then DoTransfer(c) else c.(exec := Resting)
  }

  predicate StoresNext(c: Seg, b: nat) {
    c.exec.Storing? && !c.empty && c.exec.cells != [] && c.exec.off == b
  }

  lemma SsdMoves(v: Variant, g: Config, s: State, i: nat)
    requires Shaped(g, s) && i < g.segs && Enabled(v, g, s, SsdNext(i, s.segs[i]))
    ensures Do(v, g, s, SsdNext(i, s.segs[i])).segs == s.segs[i := SsdSeg(s.segs[i])]
  {
    hide Route, Mod, Div, DoFetch, DoTransfer, Credit, Got, Newer;
  }

  lemma SsdReqs(v: Variant, g: Config, s: State, i: nat)
    requires Shaped(g, s) && i < g.segs && Enabled(v, g, s, SsdNext(i, s.segs[i]))
    ensures var t := Do(v, g, s, SsdNext(i, s.segs[i])); SameClaims(s, t) && t.abs == s.abs && t.clock == s.clock
  {
    hide Route, Mod, Div, DoFetch, DoTransfer, Newer, Range;
  }

  /** The step shows in block b only if it is the one stored next. */
  lemma SsdDoes(v: Variant, g: Config, s: State, i: nat)
    requires Shaped(g, s) && i < g.segs && Enabled(v, g, s, SsdNext(i, s.segs[i]))
    ensures var t := Do(v, g, s, SsdNext(i, s.segs[i]));
            && t.segs == s.segs[i := SsdSeg(s.segs[i])] && t.abs == s.abs && t.clock == s.clock && SameClaims(s, t) && |t.ssd| == |s.ssd|
            && forall b: nat :: b < g.disk ==> t.ssd[b] == if StoresNext(s.segs[i], b) then s.segs[i].exec.cells[0] else s.ssd[b]
  {
    hide Route, Mod, Div, DoFetch, DoTransfer, SsdSeg, SameClaims, Credit, Got, Newer;
    SsdMoves(v, g, s, i);
    SsdReqs(v, g, s, i);
  }

  lemma SsdAfter(c: Seg, b: nat, x: Cell)
    ensures var y := if StoresNext(c, b) then c.exec.cells[0] else x;
            After(Pending(SsdSeg(c)), |Pending(SsdSeg(c))|, b, y) == After(Pending(c), |Pending(c)|, b, x)
  {
    var p, q := Pending(c), Pending(SsdSeg(c));
    hide After;
    if c.exec.Storing? && !c.empty && c.exec.cells != [] {
      assert p[1..] == c.queue == q[1..];
      AfterHead(p, q, |p|, b, x, if StoresNext(c, b) then c.exec.cells[0] else x);
    } else if (c.exec.Storing? && !c.empty) || (c.exec.Fetching? && !c.empty && c.exec.count >= c.exec.len) {
      assert p[1..] == c.queue == q;
      AfterDrop(p, |p|, b, x);
    } else {
      assert p == q;
    }
  }

  lemma SsdShorter(c: Seg)
    requires !SsdDone(c)
    ensures var d := SsdSeg(c);
            |d.queue| <= |c.queue| && (|d.queue| == |c.queue| ==> ExecLeft(d) < ExecLeft(c))
            && d == c.(queue := d.queue, exec := d.exec, empty := d.empty)
  {
  }

  /** One step of it. */
  lemma SsdWorks(v: Variant, g: Config, s: State, i: nat)
    requires Fits(g, s) && i < g.segs && !SsdDone(s.segs[i]) && Enabled(v, g, s, SsdNext(i, s.segs[i]))
    ensures var t := Do(v, g, s, SsdNext(i, s.segs[i]));
            && Fits(g, t) && Shaped(g, s) && Worked(g, s, t, i) && |t.segs[i].queue| <= |s.segs[i].queue|
            && (|t.segs[i].queue| == |s.segs[i].queue| ==> ExecLeft(t.segs[i]) < ExecLeft(s.segs[i]))
  {
    hide SegFits, Do, Enabled, After, Pending, SsdSeg, ExecLeft, SsdDone, StoresNext;
    var e := SsdNext(i, s.segs[i]);
    StepKeepsFits(v, g, s, e);
    SsdDoes(v, g, s, i);
    SsdShorter(s.segs[i]);
    forall b: nat | b < g.disk
      ensures After(Pending(SsdSeg(s.segs[i])), |Pending(SsdSeg(s.segs[i]))|, b, Do(v, g, s, e).ssd[b]) == After(Pending(s.segs[i]), |Pending(s.segs[i])|, b, s.ssd[b])
    {
      SsdAfter(s.segs[i], b, s.ssd[b]);
    }
  }

  predicate OnlySsd(es: seq<Step>, i: nat) {
    forall e :: e in es ==> OfSsdWorker(e, i)
  }

  lemma SsdNextIsSsd(i: nat, c: Seg)
    ensures OfSsdWorker(SsdNext(i, c), i)
  {
  }

  lemma FirstThen(v: Variant, g: Config, s: State, e: Step, es: seq<Step>, t: State)
    requires Enabled(v, g, s, e) && Run(v, g, Do(v, g, s, e), es, t)
    ensures Run(v, g, s, [e] + es, t)
  {
    hide Enabled, Do;
    assert ([e] + es)[1..] == es;
  }

  lemma {:induction false} WorkOff(v: Variant, g: Config, s: State, i: nat) returns (es: seq<Step>, t: State)
    requires Fits(g, s) && i < g.segs
    ensures Run(v, g, s, es, t) && OnlySsd(es, i) && Fits(g, t)
    ensures Shaped(g, s) && Worked(g, s, t, i) && SsdDone(t.segs[i])
    decreases |s.segs[i].queue|, ExecLeft(s.segs[i])
  {
    hide SegFits, Do, Enabled, Run, Worked, SsdDone, SsdNext, ExecLeft, OfSsdWorker;
    if SsdDone(s.segs[i]) {
      es, t := [], s;
      Start(v, g, s);
      WorkedSelf(g, s, i);
    } else {
      var e := SsdNext(i, s.segs[i]);
      SsdCan(v, g, s, i);
      SsdWorks(v, g, s, i);
      SsdNextIsSsd(i, s.segs[i]);
      var m := Do(v, g, s, e);
      var rest;
      rest, t := WorkOff(v, g, m, i);
      es := [e] + rest;
      FirstThen(v, g, s, e, rest, t);
      WorkedOn(g, s, m, t, i);
    }
  }

  lemma DoneMeans(g: Config, s: State, t: State, i: nat)
    requires Shaped(g, s) && i < g.segs && Worked(g, s, t, i) && SsdDone(t.segs[i])
    ensures Pending(t.segs[i]) == [] && t.segs[i].pc == s.segs[i].pc && t.segs[i].meta == s.segs[i].meta
    ensures forall b: nat :: b < g.disk ==> t.ssd[b] == After(Pending(s.segs[i]), |Pending(s.segs[i])|, b, s.ssd[b])
  {
    assert Pending(t.segs[i]) == [];
  }

  /** From every state a run reaches, and whatever faults it took to get there, the SSD worker of a
      segment can work off its queue by steps of its own; the SSD then has every pending write, in order. */
  lemma QueueDrains(v: Variant, g: Config, init: State, before: seq<Step>, s: State, i: nat) returns (es: seq<Step>, t: State)
    requires Init(g, init) && Run(v, g, init, before, s) && i < g.segs
    ensures Run(v, g, s, es, t) && OnlySsd(es, i) && Shaped(g, s) && Shaped(g, t)
    ensures Pending(t.segs[i]) == []
    ensures forall b: nat :: b < g.disk ==> t.ssd[b] == After(Pending(s.segs[i]), |Pending(s.segs[i])|, b, s.ssd[b])
  {
    hide Init, Run, SegFits, Worked, SsdDone, Pending, After;
    InitFits(g, init);
    RunFits(v, g, init, before, s);
    es, t := WorkOff(v, g, s, i);
    DoneMeans(g, s, t, i);
  }

  // ----- completing a read -----

  /** Only segment i has changed, and no read has been promised anything new. */
  ghost predicate OnlyHere(s: State, t: State, i: nat) {
    i < |s.segs| == |t.segs| && t.segs == s.segs[i := t.segs[i]] && SameClaims(s, t) && t.abs == s.abs
  }

  lemma HereSelf(s: State, i: nat)
    requires i < |s.segs|
    ensures OnlyHere(s, s, i)
  {
    assert s.segs == s.segs[i := s.segs[i]];
  }

  lemma HereOn(s: State, m: State, t: State, i: nat)
    requires OnlyHere(s, m, i) && OnlyHere(m, t, i)
    ensures OnlyHere(s, t, i)
  {
  }

  /** One round of the loop of redirect_read. */
  lemma ScanOn(v: Variant, g: Config, s: State, i: nat)
    requires Fits(g, s) && i < g.segs && s.segs[i].pc.Scan?
    ensures Enabled(v, g, s, ScanNext(i))
    ensures var t := Do(v, g, s, ScanNext(i));
            && OnlyHere(s, t, i)
            && if s.segs[i].pc.k < s.segs[i].pc.len then t.segs[i].pc.Scan? && t.segs[i].pc.len == s.segs[i].pc.len && t.segs[i].pc.k == s.segs[i].pc.k + 1
               else t.segs[i].pc.Idle?
  {
    hide TaskFits, Route, Mod, Div, BlockTest;
    assert SegFits(g, |s.reqs|, s.segs[i]);
  }

  /** Steps that serve reads: with these nothing is written into the buffer, and none of them is ever out
      of place. */
  predicate Serves(es: seq<Step>) {
    forall e :: e in es ==> e.Open? || e.BeginRead? || e.ScanNext? || OfSsd(e) || e.Transfer?
  }

  lemma SsdServes(es: seq<Step>, i: nat)
    requires OnlySsd(es, i)
    ensures Serves(es)
  {
  }

  lemma {:induction false} ServesBenign(v: Variant, g: Config, s: State, es: seq<Step>)
    requires Serves(es)
    ensures AllBenign(v, g, s, es)
    decreases es
  {
    hide Do, Enabled;
    if es != [] && Enabled(v, g, s, es[0]) {
      assert es[0] in es;
      ServesBenign(v, g, Do(v, g, s, es[0]), es[1..]);
    }
  }

  lemma {:induction false} ScanEnds(v: Variant, g: Config, s: State, i: nat) returns (es: seq<Step>, t: State)
    requires Fits(g, s) && i < g.segs && s.segs[i].pc.Scan?
    ensures Run(v, g, s, es, t) && OnlyOf(es, i) && Serves(es) && Fits(g, t) && OnlyHere(s, t, i) && t.segs[i].pc.Idle?
    decreases s.segs[i].pc.len + 1 - s.segs[i].pc.k
  {
    hide SegFits, Do, Enabled, Run;
    ScanOn(v, g, s, i);
    StepKeepsFits(v, g, s, ScanNext(i));
    var m := Do(v, g, s, ScanNext(i));
    if m.segs[i].pc.Idle? {
      es, t := [ScanNext(i)], m;
      Start(v, g, m);
      FirstThen(v, g, s, ScanNext(i), [], m);
      assert [ScanNext(i)] + [] == [ScanNext(i)];
    } else {
      ScanBound(g, m, i);
      var rest;
      rest, t := ScanEnds(v, g, m, i);
      es := [ScanNext(i)] + rest;
      FirstThen(v, g, s, ScanNext(i), rest, t);
      HereOn(s, m, t, i);
    }
  }

  lemma ScanBound(g: Config, s: State, i: nat)
    requires Fits(g, s) && i < g.segs && s.segs[i].pc.Scan?
    ensures s.segs[i].pc.k <= s.segs[i].pc.len
  {
    assert SegFits(g, |s.reqs|, s.segs[i]);
  }

  ghost predicate Settled(c: Seg) {
    !c.pc.Scan? && Pending(c) == []
  }

  /** The worker and the SSD worker of one segment finish with the reads that they have. */
  lemma SettleSegment(v: Variant, g: Config, s: State, i: nat) returns (es: seq<Step>, t: State)
    requires Fits(g, s) && i < g.segs
    ensures Run(v, g, s, es, t) && Serves(es) && Fits(g, t) && OnlyHere(s, t, i) && Settled(t.segs[i])
  {
    hide SegFits, Run, Pending, SameClaims, After;
    var fs, m := [], s;
    if s.segs[i].pc.Scan? {
      fs, m := ScanEnds(v, g, s, i);
    } else {
      Start(v, g, s);
      HereSelf(s, i);
    }
    var gs;
    gs, t := WorkOff(v, g, m, i);
    DoneMeans(g, m, t, i);
    SsdServes(gs, i);
    es := fs + gs;
    Join(v, g, s, fs, m, gs, t);
    HereOn(s, m, t, i);
  }

  lemma {:induction false} SettleAll(v: Variant, g: Config, s: State, k: nat) returns (es: seq<Step>, t: State)
    requires Fits(g, s) && k <= g.segs
    ensures Run(v, g, s, es, t) && Serves(es) && Fits(g, t) && SameClaims(s, t) && t.abs == s.abs
    ensures forall i :: 0 <= i < k ==> Settled(t.segs[i])
  {
    hide SegFits, Run, Settled;
    if k == 0 {
      es, t := [], s;
      Start(v, g, s);
    } else {
      var fs, m := SettleAll(v, g, s, k - 1);
      var gs;
      gs, t := SettleSegment(v, g, m, k - 1);
      es := fs + gs;
      Join(v, g, s, fs, m, gs, t);
    }
  }

  /** From every state a run reaches, faults and all, a read that has been accepted in full can be
      completed: some continuation releases its waiter. */
  lemma ReadCompletes(v: Variant, g: Config, init: State, before: seq<Step>, s: State, r: nat) returns (es: seq<Step>, t: State)
    requires Init(g, init) && Run(v, g, init, before, s) && r < |s.reqs| && |s.reqs[r].want| == s.reqs[r].len
    ensures Run(v, g, s, es, t) && Serves(es) && SameClaims(s, t) && t.abs == s.abs
    ensures t.reqs[r].ret == t.reqs[r].len
  {
    hide Init, Run, SegFits, Accounted, Pending;
    InitFits(g, init);
    RunFits(v, g, init, before, s);
    es, t := SettleAll(v, g, s, g.segs);
    Join(v, g, init, before, s, es, t);
    InitAccounted(g, init);
    RunAccounted(v, g, init, before + es, t);
    AllCredited(g, t, r);
  }

  // ----- a read from its arrival -----

  ghost predicate AllIdle(s: State) {
    forall i :: 0 <= i < |s.segs| ==> s.segs[i].pc.Idle?
  }

  /** The piece belongs to segment i and to request r, and none of it has been accepted yet. */
  ghost predicate Acceptable(g: Config, s: State, i: nat, r: nat, off: nat, len: nat)
    requires r < |s.reqs|
  {
    forall b: nat :: off <= b < off + len ==>
      Mine(g, i, b) && s.reqs[r].off <= b < s.reqs[r].off + s.reqs[r].len && b !in s.reqs[r].want
  }

  /** An idle worker can take on any piece of a request that is its own and not accepted yet, and get
      through it; just the blocks of the piece are accepted with it. */
  lemma PieceAccepted(v: Variant, g: Config, s: State, i: nat, r: nat, off: nat, len: nat) returns (es: seq<Step>, t: State)
    requires Fits(g, s) && i < g.segs && s.segs[i].pc.Idle? && r < |s.reqs| && len > 0
    requires Acceptable(g, s, i, r, off, len)
    ensures Run(v, g, s, es, t) && es != [] && es[0] == BeginRead(i, r, off, len) && i < |t.segs| && t.segs[i].pc.Idle?
    ensures r < |t.reqs| && forall b: nat :: b in t.reqs[r].want <==> b in s.reqs[r].want || off <= b < off + len
  {
    hide Run, SegFits, Do, Enabled, Acceptable;
    var e := BeginRead(i, r, off, len);
    PieceBegins(v, g, s, i, r, off, len);
    StepKeepsFits(v, g, s, e);
    var m := Do(v, g, s, e);
    var rest;
    rest, t := ScanEnds(v, g, m, i);
    es := [e] + rest;
    FirstThen(v, g, s, e, rest, t);
  }

  lemma PieceBegins(v: Variant, g: Config, s: State, i: nat, r: nat, off: nat, len: nat)
    requires Fits(g, s) && i < g.segs && s.segs[i].pc.Idle? && r < |s.reqs| && len > 0
    requires Acceptable(g, s, i, r, off, len)
    ensures Enabled(v, g, s, BeginRead(i, r, off, len))
    ensures var t := Do(v, g, s, BeginRead(i, r, off, len));
            && i < |t.segs| && t.segs[i].pc.Scan? && r < |t.reqs|
            && forall b: nat :: b in t.reqs[r].want <==> b in s.reqs[r].want || off <= b < off + len
  {
    hide SegFits, Route, Range, Claim;
    ClaimKeys(s.reqs[r], off, len, s.abs);
    InsideDisk(g, s, i, r, off, len);
  }

  lemma InsideDisk(g: Config, s: State, i: nat, r: nat, off: nat, len: nat)
    requires r < |s.reqs| && Acceptable(g, s, i, r, off, len) && len > 0
    ensures off + len <= g.disk
  {
    LastInside(g, i, off, len);
  }

  lemma ClaimKeys(q: Req, off: nat, len: nat, abs: seq<Cell>)
    ensures forall b: nat :: b in Claim(q, off, len, abs).want <==> b in q.want || (off <= b < off + len && b < |abs|)
  {
    hide Range;
  }

  /** Request r is for the blocks off .. off+len-1, the first k of which have been accepted. */
  ghost predicate AcceptedTo(s: State, r: nat, off: nat, len: nat, k: nat) {
    && r < |s.reqs| && s.reqs[r].off == off && s.reqs[r].len == len && s.reqs[r].want.Keys == Range(off, off + k)
    && forall b :: b in s.reqs[r].want ==> b < |s.abs| && s.reqs[r].want[b] == s.abs[b]
  }

  /** The worker of the next block takes it on. */
  lemma TakeOn(v: Variant, g: Config, s: State, r: nat, off: nat, len: nat, k: nat)
    requires Fits(g, s) && AllIdle(s) && AcceptedTo(s, r, off, len, k) && k < len && off + len <= g.disk
    ensures var i := Route(g, off + k);
            && Enabled(v, g, s, BeginRead(i, r, off + k, 1))
            && var t := Do(v, g, s, BeginRead(i, r, off + k, 1));
               && t.segs[i].pc.Scan? && AcceptedTo(t, r, off, len, k + 1) && t.abs == s.abs
               && |t.reqs| == |s.reqs| && (forall j :: 0 <= j < g.segs && j != i ==> t.segs[j] == s.segs[j])
  {
    hide SegFits, Route, Range;
    var b, i := off + k, Route(g, off + k);
    var t := Do(v, g, s, BeginRead(i, r, b, 1));
    assert Range(off, off + (k + 1)) == Range(off, off + k) + {b};
    assert t.reqs[r].want.Keys == Range(off, off + (k + 1));
  }

  lemma {:induction false} AcceptAll(v: Variant, g: Config, s: State, r: nat, off: nat, len: nat, k: nat) returns (es: seq<Step>, t: State)
    requires Fits(g, s) && AllIdle(s) && AcceptedTo(s, r, off, len, k) && k <= len && off + len <= g.disk
    ensures Run(v, g, s, es, t) && Serves(es) && Fits(g, t) && AcceptedTo(t, r, off, len, len) && t.abs == s.abs
    decreases len - k
  {
    hide SegFits, Do, Enabled, Run, Route, Range;
    if k == len {
      es, t := [], s;
      Start(v, g, s);
    } else {
      var i := Route(g, off + k);
      var e := BeginRead(i, r, off + k, 1);
      TakeOn(v, g, s, r, off, len, k);
      StepKeepsFits(v, g, s, e);
      var a := Do(v, g, s, e);
      var fs, m := ScanEnds(v, g, a, i);
      FirstThen(v, g, s, e, fs, m);
      var gs;
      gs, t := AcceptAll(v, g, m, r, off, len, k + 1);
      es := ([e] + fs) + gs;
      Join(v, g, s, [e] + fs, m, gs, t);
    }
  }

  lemma ReadRun(v: Variant, g: Config, init: State, before: seq<Step>, s: State, off: nat, len: nat) returns (es: seq<Step>, t: State)
    requires Init(g, init) && Run(v, g, init, before, s) && AllIdle(s) && off + len <= g.disk
    ensures Run(v, g, s, es, t) && es != [] && es[0] == Open(off, len) && Serves(es)
    ensures var r := |s.reqs|; t.abs == s.abs && AcceptedTo(t, r, off, len, len) && t.reqs[r].ret == len
  {
    hide Init, Run, SegFits, Range;
    InitFits(g, init);
    RunFits(v, g, init, before, s);
    var r, e := |s.reqs|, Open(off, len);
    var m := Do(v, g, s, e);
    StepKeepsFits(v, g, s, e);
    Start(v, g, m);
    FirstThen(v, g, s, e, [], m);
    assert [e] + [] == [e];
    assert m.reqs[r].want.Keys == Range(off, off + 0);
    var fs, u := AcceptAll(v, g, m, r, off, len, 0);
    Join(v, g, s, [e], m, fs, u);
    Join(v, g, init, before, s, [e] + fs, u);
    RangeSize(off, off + len);
    assert |u.reqs[r].want| == |u.reqs[r].want.Keys|;
    var gs;
    gs, t := ReadCompletes(v, g, init, before + ([e] + fs), u, r);
    es := ([e] + fs) + gs;
    Join(v, g, s, [e] + fs, u, gs, t);
    assert Serves([e] + fs);
  }

  /** From every state that a run reaches with its workers idle, a read of any blocks of the device can be
      served from its arrival to the release of its waiter; and where the invariant holds it returns
      what the store's view was when it arrived. */
  lemma ReadServed(v: Variant, g: Config, init: State, before: seq<Step>, s: State, off: nat, len: nat) returns (es: seq<Step>, t: State)
    requires Init(g, init) && Run(v, g, init, before, s) && AllIdle(s) && off + len <= g.disk
    ensures Run(v, g, s, es, t) && es != [] && es[0] == Open(off, len)
    ensures var r := |s.reqs|; r < |t.reqs| && t.reqs[r].off == off && t.reqs[r].ret == t.reqs[r].len == len
    ensures Inv(g, s) ==> forall b: nat :: off <= b < off + len ==>
              Shaped(g, s) && b < g.disk && Copied(t, |s.reqs|, b) == Some(View(g, s, b))
  {
    hide Init, Run, Inv;
    es, t := ReadRun(v, g, init, before, s, off, len);
    if Inv(g, s) {
      ServesBenign(v, g, s, es);
      RunSafe(v, g, s, es, t);
      InvShaped(g, s);
      forall b: nat | off <= b < off + len ensures b < g.disk && Copied(t, |s.reqs|, b) == Some(View(g, s, b)) {
        ServedBlock(g, s, t, |s.reqs|, off, len, b);
      }
    }
  }

  lemma ServedBlock(g: Config, s: State, t: State, r: nat, off: nat, len: nat, b: nat)
    requires Inv(g, s) && Inv(g, t) && Shaped(g, s) && AllIdle(s) && off <= b < off + len <= g.disk
    requires t.abs == s.abs && AcceptedTo(t, r, off, len, len) && t.reqs[r].ret == len
    ensures Copied(t, r, b) == Some(View(g, s, b))
  {
    hide Inv;
    ReadAccounting(g, t, r);
    ViewIsArray(g, s, b);
  }

  // ----- a worker finishes what it is doing -----

  /** A step of segment i with which neither worker of it takes on anything from outside. */
  predicate Of(e: Step, i: nat) {
    !e.Open? && !e.Crash? && !e.BeginWrite? && !e.BeginRead? && e.i == i
  }

  predicate OnlyOf(es: seq<Step>, i: nat) {
    forall e :: e in es ==> Of(e, i)
  }

  lemma SsdIsOf(es: seq<Step>, i: nat)
    requires OnlySsd(es, i)
    ensures OnlyOf(es, i)
  {
  }

  /** The data and the header, stored. */
  lemma PutReturns(v: Variant, g: Config, s: State, i: nat) returns (es: seq<Step>, t: State)
    requires Shaped(g, s) && i < g.segs && (s.segs[i].pc.PutData? || s.segs[i].pc.PutHeader?)
    ensures Run(v, g, s, es, t) && OnlyOf(es, i) && Shaped(g, t) && t.segs[i].pc.Idle?
  {
    hide Run, Route, Mod, Div;
    var m := s;
    es := [];
    Start(v, g, s);
    if s.segs[i].pc.PutData? {
      m := Do(v, g, s, StoreData(i));
      Then(v, g, s, [], s, StoreData(i));
      es := [] + [StoreData(i)];
    }
    Then(v, g, s, es, m, StoreHeader(i));
    es := es + [StoreHeader(i)];
    t := Do(v, g, m, StoreHeader(i));
  }

  /** A segment, empty since its round, has a slot. */
  lemma EmptyReturns(v: Variant, g: Config, s: State, i: nat) returns (es: seq<Step>, t: State)
    requires Shaped(g, s) && i < g.segs && s.segs[i].pc.Look? && s.segs[i].meta == EMPTY
    ensures Run(v, g, s, es, t) && OnlyOf(es, i) && Shaped(g, t) && t.segs[i].pc.Idle?
  {
    hide Run, Reserve, Do, Enabled, ReserveSafe;
    LookupEmpty(v, g, i, s.segs[i]);
    DoLookupDoes(v, g, s, i);
    StepAdds(v, g, s, Lookup(i));
    var m := Do(v, g, s, Lookup(i));
    var rest;
    rest, t := PutReturns(v, g, m, i);
    es := [Lookup(i)] + rest;
    FirstThen(v, g, s, Lookup(i), rest, t);
  }

  // ----- a round -----

  /** Blocks of the device, in slots of the segment. */
  predicate InPlace(g: Config, m: map<nat, nat>) {
    forall b :: b in m ==> b < g.disk && m[b] < g.per
  }

  /** What every step of a round keeps, whichever slots its threads address. */
  ghost predicate RoundShape(g: Config, c: Seg) {
    c.pc.Migrate? && MetaOk(g, c) && InPlace(g, c.meta.index) && InPlace(g, c.pc.held)
  }

  /** Steps still to be done: four for each entry of the index, three for one held, two for one copied. */
  function RoundLeft(c: Seg): int
    requires c.pc.Migrate?
  {
    4 * |c.meta.index| + 3 * |c.pc.held| - |c.pc.copied| + c.pc.spent
  }

  /** What comes next in a round whose threads work one after the other. */
  ghost function RoundNext(i: nat, c: Seg): Step
    requires c.pc.Migrate?
  {
    if c.pc.spent > 0 then Uncount(i)
    else if b :| b in c.pc.copied then Wipe(i, b)
    else if b :| b in c.pc.held then Copy(i, b)
    else if b :| b in c.meta.index then Pop(i, b)
    else EndRound(i)
  }

  /** The segment after a step of its round, but for its headers. */
  ghost function RoundSeg(c: Seg, e: Step): Seg
    requires c.pc.Migrate? && (e.Pop? ==> e.b in c.meta.index)
  {
    match e
    case Pop(_, b) => DoPop(c, b)
    case Copy(_, b) => c.(pc := c.pc.(copied := c.pc.copied + {b}))
    case Wipe(_, b) => DoWipe(c, b)
    case Uncount(_) => c.(meta := c.meta.(used := c.meta.used - 1), pc := c.pc.(spent := if c.pc.spent > 0 then c.pc.spent - 1 else 0))
    case _ => DoEndRound(c)
  }

  lemma RoundEnabled(v: Variant, g: Config, s: State, i: nat)
    requires Shaped(g, s) && i < g.segs && RoundShape(g, s.segs[i])
    ensures var e := RoundNext(i, s.segs[i]);
            && Enabled(v, g, s, e) && IsRound(e) && e.i == i && (e.Pop? ==> e.b in s.segs[i].meta.index)
            && (e.EndRound? ==> s.segs[i].meta.used == 0)
  {
    hide Route, Mod, Div, RoundNext, Sound;
    RoundEmpty(i, s.segs[i]);
    CopyIsNew(i, s.segs[i]);
  }

  predicate IsRound(e: Step) {
    e.Pop? || e.Copy? || e.Wipe? || e.Uncount? || e.EndRound?
  }

  lemma RoundDoes(v: Variant, g: Config, s: State, i: nat, e: Step)
    requires Enabled(v, g, s, e) && IsRound(e) && e.i == i
    ensures var t := Do(v, g, s, e);
            |t.segs| == g.segs && t.segs[i] == RoundSeg(s.segs[i], e).(headers := t.segs[i].headers)
  {
    hide Route, Mod, Div, Invalidate;
  }

  lemma RoundCan(v: Variant, g: Config, s: State, i: nat)
    requires Shaped(g, s) && i < g.segs && RoundShape(g, s.segs[i])
    ensures var e := RoundNext(i, s.segs[i]);
            && Enabled(v, g, s, e) && Of(e, i) && (e.Pop? ==> e.b in s.segs[i].meta.index)
            && (e.EndRound? ==> s.segs[i].meta.used == 0)
            && var t := Do(v, g, s, e);
               |t.segs| == g.segs && t.segs[i] == RoundSeg(s.segs[i], e).(headers := t.segs[i].headers)
  {
    hide Do, Enabled, RoundNext, RoundSeg;
    RoundEnabled(v, g, s, i);
    RoundDoes(v, g, s, i, RoundNext(i, s.segs[i]));
  }

  lemma LeftNonNegative(g: Config, c: Seg)
    requires RoundShape(g, c)
    ensures RoundLeft(c) >= 0
  {
    SubsetSize(c.pc.copied, c.pc.held.Keys);
    assert |c.pc.held| == |c.pc.held.Keys|;
  }

  lemma PopLeft(g: Config, c: Seg, b: nat)
    requires RoundShape(g, c) && b in c.meta.index
    ensures var d := DoPop(c, b); RoundShape(g, d) && RoundLeft(d) == RoundLeft(c) - 1
  {
    MoveEntrySize(c.meta.index, c.pc.held, b);
    RemoveOne(c.meta.index, b);
  }

  lemma CopyLeft(g: Config, c: Seg, b: nat)
    requires RoundShape(g, c) && b in c.pc.held && b !in c.pc.copied
    ensures var d := c.(pc := c.pc.(copied := c.pc.copied + {b})); RoundShape(g, d) && RoundLeft(d) == RoundLeft(c) - 1
  {
  }

  lemma WipeLeft(g: Config, c: Seg, b: nat)
    requires RoundShape(g, c) && b in c.pc.copied
    ensures var d := DoWipe(c, b); RoundShape(g, d) && RoundLeft(d) == RoundLeft(c) - 1
  {
    DropEntry(c.meta.index, c.pc.held, b);
  }

  lemma RoundOn(g: Config, i: nat, c: Seg)
    requires RoundShape(g, c)
    ensures var e := RoundNext(i, c);
            && (e.Pop? ==> e.b in c.meta.index)
            && var d := RoundSeg(c, e);
               if e.EndRound? then c.meta.index == map[] && c.pc.held == map[] else RoundShape(g, d) && 0 <= RoundLeft(d) < RoundLeft(c)
  {
    hide MetaOk, InPlace, DoPop, DoWipe, RoundLeft;
    var e := RoundNext(i, c);
    var d := RoundSeg(c, e);
    RoundEmpty(i, c);
    match e {
      case Pop(_, b) => PopLeft(g, c, b);
      case Copy(_, b) => CopyIsNew(i, c); CopyLeft(g, c, b);
      case Wipe(_, b) => WipeLeft(g, c, b);
      case Uncount(_) => UncountLeft(g, i, c);
      case _ =>
    }
    if !e.EndRound? { LeftNonNegative(g, d); }
  }

  lemma CopyIsNew(i: nat, c: Seg)
    requires c.pc.Migrate?
    ensures RoundNext(i, c).Copy? ==> RoundNext(i, c).b !in c.pc.copied
    ensures RoundNext(i, c).EndRound? ==> c.pc.spent == 0
    ensures Of(RoundNext(i, c), i)
  {
  }

  lemma UncountLeft(g: Config, i: nat, c: Seg)
    requires RoundShape(g, c) && c.pc.spent > 0
    ensures var d := RoundSeg(c, Uncount(i)); RoundShape(g, d) && RoundLeft(d) == RoundLeft(c) - 1
  {
  }

  lemma RoundEmpty(i: nat, c: Seg)
    requires c.pc.Migrate?
    ensures var e := RoundNext(i, c);
            match e
            case Pop(_, b) => b in c.meta.index
            case Copy(_, b) => b in c.pc.held
            case Wipe(_, b) => b in c.pc.copied
            case Uncount(_) => c.pc.spent > 0
            case _ => e.EndRound? && c.meta.index == map[] && c.pc.held == map[]
  {
    assert c.pc.held == map[] || exists b :: b in c.pc.held;
    assert c.meta.index == map[] || exists b :: b in c.meta.index;
  }

  /** A round, begun at any point and with whatever its threads hold, can be brought to its end, and
      leaves the segment as good as new. */
  lemma {:induction false} RoundEnds(v: Variant, g: Config, s: State, i: nat) returns (es: seq<Step>, t: State)
    requires Shaped(g, s) && i < g.segs && RoundShape(g, s.segs[i])
    ensures Run(v, g, s, es, t) && OnlyOf(es, i) && Shaped(g, t) && t.segs[i].pc.Look? && t.segs[i].meta == EMPTY
    decreases RoundLeft(s.segs[i])
  {
    hide MetaOk, InPlace, Do, Enabled, Run, RoundLeft, RoundNext, RoundSeg;
    var c := s.segs[i];
    var e := RoundNext(i, c);
    RoundCan(v, g, s, i);
    RoundOn(g, i, c);
    StepAdds(v, g, s, e);
    var m := Do(v, g, s, e);
    if e.EndRound? {
      es, t := [e], m;
      Start(v, g, m);
      FirstThen(v, g, s, e, [], m);
      assert [e] + [] == [e];
      EndMeta(c, e);
    } else {
      SameShape(g, RoundSeg(c, e), m.segs[i]);
      LeftNonNegative(g, c);
      var rest;
      rest, t := RoundEnds(v, g, m, i);
      es := [e] + rest;
      FirstThen(v, g, s, e, rest, t);
    }
  }

  lemma EndMeta(c: Seg, e: Step)
    requires c.pc.Migrate? && e.EndRound? && c.meta.index == map[] && c.meta.used == 0
    ensures RoundSeg(c, e).meta == EMPTY && RoundSeg(c, e).pc.Look?
  {
  }

  /** Headers play no part in it. */
  lemma SameShape(g: Config, c: Seg, d: Seg)
    requires RoundShape(g, c) && d == c.(headers := d.headers)
    ensures RoundShape(g, d) && RoundLeft(d) == RoundLeft(c)
  {
  }

  lemma RoundReturns(v: Variant, g: Config, s: State, i: nat) returns (es: seq<Step>, t: State)
    requires Shaped(g, s) && i < g.segs && RoundShape(g, s.segs[i])
    ensures Run(v, g, s, es, t) && OnlyOf(es, i) && t.segs != [] && i < |t.segs| && t.segs[i].pc.Idle?
  {
    hide Run, RoundShape;
    var fs, m := RoundEnds(v, g, s, i);
    var gs;
    gs, t := EmptyReturns(v, g, m, i);
    es := fs + gs;
    Join(v, g, s, fs, m, gs, t);
  }

  // ----- a small write that has to wait -----

  /** Sound metadata over blocks of the device. */
  ghost predicate MetaFits(g: Config, m: Meta) {
    Sound(g.per, m) && m.nextBit <= 1 && InPlace(g, m.index)
  }

  /** The SSD worker works off its queue, finds it empty and says so, and the round begins. */
  lemma WaitEnds(v: Variant, g: Config, s: State, i: nat) returns (es: seq<Step>, t: State)
    requires Fits(g, s) && i < g.segs && s.segs[i].pc.Wait? && MetaFits(g, s.segs[i].meta)
    ensures Run(v, g, s, es, t) && OnlyOf(es, i) && Shaped(g, t) && RoundShape(g, t.segs[i])
  {
    hide SegFits, Run, After, MetaFits, RoundShape, Do, Enabled;
    var fs, m := WorkOff(v, g, s, i);
    DoneMeans(g, s, m, i);
    var gs;
    gs, t := RoundBegins(v, g, m, i);
    es := fs + gs;
    Join(v, g, s, fs, m, gs, t);
    SsdIsOf(fs, i);
  }

  lemma RoundBegins(v: Variant, g: Config, s: State, i: nat) returns (es: seq<Step>, t: State)
    requires Shaped(g, s) && i < g.segs && s.segs[i].pc.Wait? && SsdDone(s.segs[i]) && MetaFits(g, s.segs[i].meta)
    ensures Run(v, g, s, es, t) && OnlyOf(es, i) && Shaped(g, t) && RoundShape(g, t.segs[i])
  {
    hide Run, Route, Mod, Div, MetaFits, RoundShape;
    var a := Do(v, g, s, Fetch(i));
    Start(v, g, s);
    Then(v, g, s, [], s, Fetch(i));
    var b := Do(v, g, a, Raise(i));
    Then(v, g, s, [] + [Fetch(i)], a, Raise(i));
    assert Pending(b.segs[i]) == [];
    Then(v, g, s, [] + [Fetch(i)] + [Raise(i)], b, Drain(i));
    es := [] + [Fetch(i)] + [Raise(i)] + [Drain(i)];
    t := Do(v, g, b, Drain(i));
    FreshRound(g, s.segs[i], t.segs[i]);
  }

  lemma FreshRound(g: Config, c: Seg, d: Seg)
    requires c.pc.Wait? && MetaFits(g, c.meta)
    requires d.meta == c.meta && d.pc == Migrate(c.pc.b, c.pc.cell, map[], {}, 0)
    ensures RoundShape(g, d)
  {
  }

  lemma WaitReturns(v: Variant, g: Config, s: State, i: nat) returns (es: seq<Step>, t: State)
    requires Fits(g, s) && i < g.segs && s.segs[i].pc.Wait? && MetaFits(g, s.segs[i].meta)
    ensures Run(v, g, s, es, t) && OnlyOf(es, i) && i < |t.segs| && t.segs[i].pc.Idle?
  {
    hide Run, RoundShape, MetaFits, SegFits;
    var fs, m := WaitEnds(v, g, s, i);
    var gs;
    gs, t := RoundReturns(v, g, m, i);
    es := fs + gs;
    Join(v, g, s, fs, m, gs, t);
  }

  /** Sound metadata never makes the search for a zero bit run for ever. */
  lemma LookupCan(v: Variant, g: Config, s: State, i: nat)
    requires Shaped(g, s) && i < g.segs && s.segs[i].pc.Look? && MetaFits(g, s.segs[i].meta)
    ensures Enabled(v, g, s, Lookup(i))
    ensures var t := Do(v, g, s, Lookup(i));
            && |t.segs| == g.segs && |t.reqs| == |s.reqs|
            && (t.segs[i].pc.PutData? || (t.segs[i].pc.Wait? && t.segs[i].meta == s.segs[i].meta))
  {
    hide Reserve, BlockTest, Route, Mod, Div, Sound;
    var m := s.segs[i].meta;
    FullExact(g.per, m);
  }

  lemma LookReturns(v: Variant, g: Config, s: State, i: nat) returns (es: seq<Step>, t: State)
    requires Fits(g, s) && i < g.segs && s.segs[i].pc.Look? && MetaFits(g, s.segs[i].meta)
    ensures Run(v, g, s, es, t) && OnlyOf(es, i) && i < |t.segs| && t.segs[i].pc.Idle?
  {
    hide Run, Do, Enabled, MetaFits, SegFits;
    LookupCan(v, g, s, i);
    StepKeepsFits(v, g, s, Lookup(i));
    var m := Do(v, g, s, Lookup(i));
    var rest;
    if m.segs[i].pc.PutData? {
      rest, t := PutReturns(v, g, m, i);
    } else {
      rest, t := WaitReturns(v, g, m, i);
    }
    es := [Lookup(i)] + rest;
    FirstThen(v, g, s, Lookup(i), rest, t);
  }

  // ----- the clearing loop -----

  lemma ClearOn(v: Variant, g: Config, s: State, i: nat)
    requires Shaped(g, s) && i < g.segs && s.segs[i].pc.Clear?
    ensures Enabled(v, g, s, ClearNext(i))
    ensures var t := Do(v, g, s, ClearNext(i));
            && |t.segs| == g.segs
            && (t.segs[i].pc.Idle? || (s.segs[i].pc.k < |s.segs[i].pc.cells| && t.segs[i].pc == Clear(s.segs[i].pc.off, s.segs[i].pc.cells, s.segs[i].pc.k + 1)))
  {
    hide Route, Mod, Div, ClearBlock, Invalidate;
  }

  lemma {:induction false} ClearReturns(v: Variant, g: Config, s: State, i: nat) returns (es: seq<Step>, t: State)
    requires Shaped(g, s) && i < g.segs && s.segs[i].pc.Clear?
    ensures Run(v, g, s, es, t) && OnlyOf(es, i) && i < |t.segs| && t.segs[i].pc.Idle?
    decreases if s.segs[i].pc.k < |s.segs[i].pc.cells| then |s.segs[i].pc.cells| - s.segs[i].pc.k else 0
  {
    hide Run, Do, Enabled;
    ClearOn(v, g, s, i);
    StepAdds(v, g, s, ClearNext(i));
    var m := Do(v, g, s, ClearNext(i));
    var rest;
    if m.segs[i].pc.Idle? {
      rest, t := [], m;
      Start(v, g, m);
    } else {
      rest, t := ClearReturns(v, g, m, i);
    }
    es := [ClearNext(i)] + rest;
    FirstThen(v, g, s, ClearNext(i), rest, t);
  }

  // ----- any worker -----

  lemma LiveInPlace(g: Config, i: nat, c: Seg)
    requires LocalOk(g, i, c)
    ensures MetaOk(g, c) && InPlace(g, Live(c))
  {
    hide PcOk, MetaOk, TaskOk, Route;
    LiveBound(c);
  }

  lemma WorkerFits(g: Config, i: nat, c: Seg)
    requires Sane(g) && LocalOk(g, i, c)
    ensures c.pc.Look? || c.pc.Wait? ==> MetaFits(g, c.meta)
    ensures c.pc.Migrate? ==> RoundShape(g, c)
  {
    hide LocalOk, Sound;
    LiveInPlace(g, i, c);
    if c.pc.Migrate? { RoundInPlace(g, c); }
  }

  lemma RoundInPlace(g: Config, c: Seg)
    requires c.pc.Migrate? && MetaOk(g, c) && InPlace(g, Live(c))
    ensures InPlace(g, c.meta.index) && InPlace(g, c.pc.held)
  {
    forall b | b in c.meta.index ensures b < g.disk && c.meta.index[b] < g.per {
      assert b in Live(c) && Live(c)[b] == c.meta.index[b];
    }
    forall b | b in c.pc.held ensures b < g.disk && c.pc.held[b] < g.per {
      assert b in Live(c) && Live(c)[b] == c.pc.held[b];
    }
  }

  lemma ScanReturns(v: Variant, g: Config, s: State, i: nat) returns (es: seq<Step>, t: State)
    requires Fits(g, s) && i < g.segs && s.segs[i].pc.Scan?
    ensures Run(v, g, s, es, t) && OnlyOf(es, i) && i < |t.segs| && t.segs[i].pc.Idle?
  {
    es, t := ScanEnds(v, g, s, i);
  }

  /** Whatever a worker is doing, in any state that keeps the invariant, it can come to the end of it,
      by its own steps and those of its SSD worker and migration threads alone. */
  lemma WorkerReturns(v: Variant, g: Config, s: State, i: nat) returns (es: seq<Step>, t: State)
    requires Inv(g, s) && Fits(g, s) && i < g.segs
    ensures Run(v, g, s, es, t) && OnlyOf(es, i) && i < |t.segs| && t.segs[i].pc.Idle?
  {
    hide Inv, LocalOk, SegFits, MetaFits, RoundShape, Run;
    LocalPart(g, s, i);
    WorkerFits(g, i, s.segs[i]);
    match s.segs[i].pc {
      case Idle =>
        es, t := [], s;
        Start(v, g, s);
      case Look(_, _) => es, t := LookReturns(v, g, s, i);
      case Wait(_, _) => es, t := WaitReturns(v, g, s, i);
      case Migrate(_, _, _, _, _) => es, t := RoundReturns(v, g, s, i);
      case PutData(_, _, _, _) => es, t := PutReturns(v, g, s, i);
      case PutHeader(_, _, _, _) => es, t := PutReturns(v, g, s, i);
      case Clear(_, _, _) => es, t := ClearReturns(v, g, s, i);
      case Scan(_, _, _, _, _, _, _) => es, t := ScanReturns(v, g, s, i);
    }
  }

  // ----- a write from its arrival -----

  lemma OfIsUndisturbed(es: seq<Step>, e: Step, i: nat)
    requires OnlyOf(es, i)
    ensures Undisturbed(([e] + es)[1..], i)
  {
    assert ([e] + es)[1..] == es;
    forall k | 0 <= k < |es| ensures !es[k].Crash? && !Begins(es[k], i) {
      assert es[k] in es;
    }
  }

  /** From every state that benign steps reach, an idle worker can bring any write of its blocks to the
      end; and by the repaired code it then has taken effect. */
  lemma WriteServed(v: Variant, g: Config, init: State, before: seq<Step>, s: State, i: nat, off: nat, data: seq<Data>) returns (es: seq<Step>, t: State)
    requires Init(g, init) && Run(v, g, init, before, s) && AllBenign(v, g, init, before)
    requires i < |s.segs| && s.segs[i].pc.Idle? && |data| > 0 && forall b: nat :: off <= b < off + |data| ==> Mine(g, i, b)
    ensures Run(v, g, s, es, t) && es != [] && es[0] == BeginWrite(i, off, data) && i < |t.segs| && t.segs[i].pc.Idle?
    ensures v == REPAIRED ==> Inv(g, s) && Inv(g, t) && forall b: nat :: Mine(g, i, b) ==>
              if off <= b < off + |data| then View(g, t, b).data == data[b - off] else View(g, t, b) == View(g, s, b)
  {
    hide Init, Inv, Run, Fits, Do, Route, AllBenign;
    InitInv(g, init);
    RunSafe(v, g, init, before, s);
    InitFits(g, init);
    RunFits(v, g, init, before, s);
    InvShaped(g, s);
    var e := BeginWrite(i, off, data);
    var m := Do(v, g, s, e);
    StepSafe(v, g, s, e);
    StepKeepsFits(v, g, s, e);
    var rest;
    rest, t := WorkerReturns(v, g, m, i);
    es := [e] + rest;
    FirstThen(v, g, s, e, rest, t);
    OfIsUndisturbed(rest, e, i);
    if v == REPAIRED {
      RepairedRun(g, s, es, t);
      RunSafe(v, g, s, es, t);
      InvShaped(g, t);
      forall b: nat | Mine(g, i, b)
        ensures if off <= b < off + |data| then View(g, t, b).data == data[b - off] else View(g, t, b) == View(g, s, b)
      {
        WriteTakesEffect(v, g, s, es, t, i, off, data, b);
      }
    }
  }
}
