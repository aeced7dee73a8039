/** What power failure costs: at every step boundary a restart gives back a block's newest completed
    content, except in a window that large writes open; and exactly which steps open and close it. */
module OverlayCrash {
  import opened Common
  import opened Metadata
  import opened Overlay
  import opened OverlayInvariant
  import opened OverlaySteps
  import opened OverlayWrites
  import opened OverlayMigration
  import opened OverlaySsd
  import opened OverlayOrigins
  import opened OverlaySafety
  import opened OverlayResults

  /** The content a small write has stored in the slot but not yet reported as complete. */
  predicate InFlight(s: State, i: nat, b: nat, x: Cell)
    requires i < |s.segs|
  {
    Overwritten(s.segs[i].pc, b) && s.segs[i].pc.cell == x
  }

  /** Recovery gives the newest completed content of the block, or that of the small write that
      power failure interrupted. */
  ghost predicate CrashSafe(g: Config, s: State, b: nat)
    requires Shaped(g, s) && b < g.disk
  {
    Recovery(g, s, b) == s.done[b] || InFlight(s, Route(g, b), b, Recovery(g, s, b))
  }

  // ----- states -----

  /** The SSD has the content of the large write that the segment's worker is clearing up after. */
  ghost predicate StoredByClear(g: Config, s: State, b: nat)
    requires Shaped(g, s) && b < g.disk
  {
    var pc := s.segs[Route(g, b)].pc;
    InClear(pc, b) && s.ssd[b] == pc.cells[b - pc.off]
  }

  ghost predicate PendingWrite(g: Config, s: State, b: nat)
    requires Shaped(g, s)
  {
    var p := Pending(s.segs[Route(g, b)]);
    exists j :: 0 <= j < |p| && Writes(p[j], b)
  }

  /** What CrashSafe amounts to for a block with a slot and for one without. */
  lemma CrashCases(g: Config, s: State, b: nat)
    requires Inv(g, s) && Shaped(g, s) && b < g.disk
    ensures var c := s.segs[Route(g, b)];
            CrashSafe(g, s, b) <==> if b in Live(c) then !StoredByClear(g, s, b) else s.ssd[b] == s.done[b]
    ensures var c := s.segs[Route(g, b)]; b in Live(c) <==> Holder(c.headers, b).Some?
  {
    hide ClaimOk, Inv;
    var c := s.segs[Route(g, b)];
    LocalPart(g, s, Route(g, b));
    LiveBound(c);
    HolderIsLive(c, b);
    ViewIs(g, s, b);
    BlockPart(g, s, b);
  }

  /** At every step boundary: a block with a valid header is safe if and only if no large write has
      reached its SSD copy and not yet its slot; one without is safe unless a large write over it is
      queued or executing. */
  lemma CrashExact(g: Config, s: State, b: nat)
    requires Inv(g, s) && Shaped(g, s) && b < g.disk
    ensures Holder(s.segs[Route(g, b)].headers, b).Some? ==> (CrashSafe(g, s, b) <==> !StoredByClear(g, s, b))
    ensures Holder(s.segs[Route(g, b)].headers, b).None? && !PendingWrite(g, s, b) ==> CrashSafe(g, s, b)
  {
    hide ClaimOk, LocalOk;
    CrashCases(g, s, b);
    BlockPart(g, s, b);
  }

  // ----- steps -----

  /** The step leaves a block without a copy of its newest completed content: the clearing loop
      clears its slot while the large write has not reached the SSD and the SSD has something else;
      or the large write reaches the SSD while the slot still has its header. */
  ghost predicate Opens(g: Config, s: State, e: Step, b: nat)
    requires Shaped(g, s) && b < g.disk
  {
    var i := Route(g, b);
    var c := s.segs[i];
    match e
    case ClearNext(k) => k == i && Clears(c, b) && s.ssd[b] != c.pc.cells[c.pc.k] && s.ssd[b] != c.slots[c.meta.index[b]]
    case Transfer(k) =>
      k == i && Stores(c, b) && InClear(c.pc, b) && Holder(c.headers, b).Some? && c.exec.cells[0] == c.pc.cells[b - c.pc.off]
    case _ => false
  }

  /** The step makes up for it: the other half of the large write, or a small write, or giving up. */
  ghost predicate Closes(g: Config, s: State, e: Step, b: nat)
    requires Shaped(g, s) && b < g.disk
  {
    var i := Route(g, b);
    var c := s.segs[i];
    match e
    case ClearNext(k) => k == i && Clears(c, b) && s.ssd[b] == c.pc.cells[c.pc.k]
    case Transfer(k) => k == i && Stores(c, b) && Holder(c.headers, b).None? && s.done[b].stamp < c.exec.cells[0].stamp
    case StoreHeader(k) => k == i && c.pc.PutHeader? && c.pc.b == b
    case Crash => true
    case _ => false
  }

  /** The next step of the clearing loop clears block b. */
  predicate Clears(c: Seg, b: nat) {
    && c.pc.Clear? && c.pc.k < |c.pc.cells| && b == c.pc.off + c.pc.k
    && b in c.meta.index && c.meta.index[b] < |c.slots|
  }

  /** The next block the SSD worker stores is b. */
  predicate Stores(c: Seg, b: nat) {
    c.exec.Storing? && c.exec.cells != [] && c.exec.off == b
  }

  /** Nothing that CrashCases looks at differs at block b. */
  ghost predicate Alike(g: Config, s: State, t: State, b: nat)
    requires Shaped(g, s) && Shaped(g, t) && b < g.disk
  {
    && (b in Live(t.segs[Route(g, b)]) <==> b in Live(s.segs[Route(g, b)]))
    && t.ssd[b] == s.ssd[b] && t.done[b] == s.done[b]
    && (b in Live(s.segs[Route(g, b)]) ==> (StoredByClear(g, t, b) <==> StoredByClear(g, s, b)))
  }

  lemma AlikeSafe(g: Config, s: State, t: State, b: nat)
    requires Inv(g, s) && Inv(g, t) && Shaped(g, s) && Shaped(g, t) && b < g.disk && Alike(g, s, t, b)
    ensures CrashSafe(g, t, b) <==> CrashSafe(g, s, b)
  {
    hide Inv, CrashSafe, Live, StoredByClear, Holder;
    CrashCases(g, s, b);
    CrashCases(g, t, b);
  }

  /** Steps of segment k that leave its live blocks, the media and the clearing loop alone. */
  lemma QuietSegment(g: Config, s: State, t: State, k: nat, b: nat)
    requires Shaped(g, s) && Shaped(g, t) && k < g.segs && b < g.disk
    requires t.ssd == s.ssd && t.done == s.done && t.segs == s.segs[k := t.segs[k]]
    requires Live(t.segs[k]) == Live(s.segs[k])
    requires t.segs[k].pc == s.segs[k].pc || (!t.segs[k].pc.Clear? && !s.segs[k].pc.Clear?)
    ensures Alike(g, s, t, b)
  {
    hide Live;
  }

  predicate OfWorker(e: Step) {
    e.BeginWrite? || e.Lookup? || e.StoreData? || e.BeginRead? || e.ScanNext?
  }

  predicate OfRound(e: Step) {
    e.Drain? || e.Pop? || e.Uncount? || e.EndRound?
  }

  predicate OfSsd(e: Step) {
    e.Fetch? || e.Raise? || e.Lower? || e.Complete?
  }

  lemma LookupQuiet(v: Variant, g: Config, s: State, i: nat, b: nat)
    requires Inv(g, s) && Enabled(v, g, s, Lookup(i)) && LookupSafe(v, g, i, s.segs[i]) && Shaped(g, Do(v, g, s, Lookup(i))) && b < g.disk
    ensures Alike(g, s, Do(v, g, s, Lookup(i)), b)
  {
    hide Inv, LocalOk, LookupSafe, DoLookup, Live, Alike;
    LocalPart(g, s, i);
    LocalLookup(v, g, i, s.segs[i]);
    LookupPc(v, g, i, s.segs[i]);
    QuietSegment(g, s, Do(v, g, s, Lookup(i)), i, b);
  }

  lemma LookupPc(v: Variant, g: Config, i: nat, c: Seg)
    requires Sane(g) && i < g.segs && c.pc.Look? && c.meta.nextBit < Bits(g.per)
    ensures !DoLookup(v, g, i, c).pc.Clear?
  {
    hide Reserve, BlockTest, Full;
  }

  /** The worker's steps before a write takes effect, and its reads. */
  lemma WorkerQuiet(v: Variant, g: Config, s: State, e: Step, b: nat)
    requires Inv(g, s) && Enabled(v, g, s, e) && Benign(v, g, s, e) && OfWorker(e) && Shaped(g, Do(v, g, s, e)) && b < g.disk
    ensures Alike(g, s, Do(v, g, s, e), b)
  {
    hide Inv, LocalOk, LookupSafe, DoLookup, Match, Harmless, ScanReqs, Claim, Alike;
    if e.BeginWrite? && |e.data| > 1 {
      BeginLargeAlike(v, g, s, e.i, e.off, e.data, b);
    } else if e.Lookup? {
      LookupQuiet(v, g, s, e.i, b);
    } else {
      StepLive(v, g, s, e);
      QuietSegment(g, s, Do(v, g, s, e), e.i, b);
    }
  }

  lemma StepLive(v: Variant, g: Config, s: State, e: Step)
    requires Enabled(v, g, s, e) && (e.BeginWrite? || e.StoreData? || e.BeginRead? || e.ScanNext?) && (e.BeginWrite? ==> |e.data| == 1)
    ensures var t := Do(v, g, s, e);
            && |t.segs| == |s.segs| && t.ssd == s.ssd && t.done == s.done && t.segs == s.segs[e.i := t.segs[e.i]]
            && Live(t.segs[e.i]) == Live(s.segs[e.i]) && !t.segs[e.i].pc.Clear? && !s.segs[e.i].pc.Clear?
  {
    hide BlockTest, ScanReqs, Claim, Mine;
  }

  lemma BeginLargeAlike(v: Variant, g: Config, s: State, i: nat, off: nat, data: seq<Data>, b: nat)
    requires Inv(g, s) && Enabled(v, g, s, BeginWrite(i, off, data)) && |data| > 1 && Shaped(g, Do(v, g, s, BeginWrite(i, off, data))) && b < g.disk
    ensures Alike(g, s, Do(v, g, s, BeginWrite(i, off, data)), b)
  {
    hide Inv, LocalOk;
    BlockPart(g, s, b);
    var t := Do(v, g, s, BeginWrite(i, off, data));
    assert Live(t.segs[i]) == Live(s.segs[i]);
  }

  /** Of a step of a round but Copy and Wipe: what it leaves alone. */
  lemma RoundFrame(v: Variant, g: Config, s: State, e: Step)
    requires Enabled(v, g, s, e) && OfRound(e)
    ensures var t := Do(v, g, s, e);
            && |t.segs| == |s.segs| && t.ssd == s.ssd && t.done == s.done && t.segs == s.segs[e.i := t.segs[e.i]]
            && !t.segs[e.i].pc.Clear? && !s.segs[e.i].pc.Clear?
  {
  }

  lemma RoundLive(v: Variant, g: Config, s: State, e: Step)
    requires Inv(g, s) && Enabled(v, g, s, e) && Benign(v, g, s, e) && OfRound(e)
    ensures var t := Do(v, g, s, e); |t.segs| == |s.segs| && Live(t.segs[e.i]) == Live(s.segs[e.i])
  {
    hide Inv, LocalOk, Live, Harmless, Mod, Div;
    var c := s.segs[e.i];
    LocalPart(g, s, e.i);
    match e {
      case Drain(i) => LocalDrain(g, i, c);
      case Pop(i, k) => LocalPop(g, i, c, k);
      case Uncount(i) => LocalUncount(g, i, c);
      case EndRound(i) => LocalEndRound(g, i, c);
    }
  }

  lemma RoundQuiet(v: Variant, g: Config, s: State, e: Step, b: nat)
    requires Inv(g, s) && Enabled(v, g, s, e) && Benign(v, g, s, e) && OfRound(e) && Shaped(g, Do(v, g, s, e)) && b < g.disk
    ensures Alike(g, s, Do(v, g, s, e), b)
  {
    hide Inv, Live, Alike, Do, Benign;
    RoundFrame(v, g, s, e);
    RoundLive(v, g, s, e);
    QuietSegment(g, s, Do(v, g, s, e), e.i, b);
  }

  lemma SsdQuiet(v: Variant, g: Config, s: State, e: Step, b: nat)
    requires Enabled(v, g, s, e) && (OfSsd(e) || (e.Transfer? && s.segs[e.i].exec.Fetching?)) && Shaped(g, Do(v, g, s, e)) && b < g.disk
    ensures Alike(g, s, Do(v, g, s, e), b)
  {
    var t := Do(v, g, s, e);
    SameSlots(s.segs[e.i], t.segs[e.i]);
    hide Live, SlotCell;
    QuietSegment(g, s, t, e.i, b);
  }

  /** Exactly the steps that Opens names make a safe block unsafe, and exactly those that Closes
      names make it safe again. */
  ghost predicate Verdict(g: Config, s: State, e: Step, t: State, b: nat)
    requires Shaped(g, s) && Shaped(g, t) && b < g.disk
  {
    if CrashSafe(g, s, b) then CrashSafe(g, t, b) <==> !Opens(g, s, e, b) else CrashSafe(g, t, b) <==> Closes(g, s, e, b)
  }

  lemma CopyVerdict(v: Variant, g: Config, s: State, i: nat, k: nat, b: nat)
    requires Inv(g, s) && Enabled(v, g, s, Copy(i, k)) && b < g.disk
    requires Inv(g, Do(v, g, s, Copy(i, k))) && Shaped(g, Do(v, g, s, Copy(i, k)))
    ensures Verdict(g, s, Copy(i, k), Do(v, g, s, Copy(i, k)), b)
  {
    hide Inv, LocalOk, CrashSafe, Live, Holder;
    var t := Do(v, g, s, Copy(i, k));
    LocalPart(g, s, i);
    LocalCopy(g, i, s.segs[i], k);
    CrashCases(g, s, b);
    CrashCases(g, t, b);
    HeldIsLive(s.segs[i], k);
  }

  lemma HeldIsLive(c: Seg, b: nat)
    requires c.pc.Migrate? && b in c.pc.held
    ensures b in Live(c)
  {
  }

  lemma WipeVerdict(v: Variant, g: Config, s: State, i: nat, k: nat, b: nat)
    requires Inv(g, s) && Enabled(v, g, s, Wipe(i, k)) && OwnBase(v, i) && b < g.disk
    requires Inv(g, Do(v, g, s, Wipe(i, k))) && Shaped(g, Do(v, g, s, Wipe(i, k)))
    ensures Verdict(g, s, Wipe(i, k), Do(v, g, s, Wipe(i, k)), b)
  {
    hide Inv, LocalOk, CrashSafe, Live, Holder, ClaimOk;
    var t := Do(v, g, s, Wipe(i, k));
    var c := s.segs[i];
    LocalPart(g, s, i);
    LocalWipe(g, i, c, k);
    RoundSlots(g, i, c, k);
    BlockPart(g, s, b);
    CrashCases(g, s, b);
    CrashCases(g, t, b);
    HeldIsLive(c, k);
    LiveIsMine(g, i, c, k);
  }

  lemma LiveIsMine(g: Config, i: nat, c: Seg, b: nat)
    requires LocalOk(g, i, c) && b in Live(c)
    ensures Mine(g, i, b)
  {
  }

  lemma HeaderLive(c: Seg, d: Seg)
    requires c.pc.PutHeader? && c.pc.b in c.meta.index && d.meta == c.meta && d.pc.Idle?
    ensures c.pc.b in Live(d) && forall b :: b != c.pc.b ==> (b in Live(d) <==> b in Live(c))
  {
  }

  lemma HeaderVerdict(v: Variant, g: Config, s: State, i: nat, b: nat)
    requires Inv(g, s) && Enabled(v, g, s, StoreHeader(i)) && b < g.disk
    requires Inv(g, Do(v, g, s, StoreHeader(i))) && Shaped(g, Do(v, g, s, StoreHeader(i)))
    ensures Verdict(g, s, StoreHeader(i), Do(v, g, s, StoreHeader(i)), b)
  {
    hide Inv, LocalOk, CrashSafe, Live, Alike;
    var t := Do(v, g, s, StoreHeader(i));
    var c := s.segs[i];
    LocalPart(g, s, i);
    PutIsIndexed(g, i, c);
    HeaderLive(c, t.segs[i]);
    if b == c.pc.b {
      CrashCases(g, t, b);
    } else {
      HeaderAlike(g, s, i, t, b);
      AlikeSafe(g, s, t, b);
    }
  }

  lemma HeaderAlike(g: Config, s: State, i: nat, t: State, b: nat)
    requires Shaped(g, s) && Shaped(g, t) && i < g.segs && b < g.disk && s.segs[i].pc.PutHeader? && t.segs[i].pc.Idle?
    requires t.segs == s.segs[i := t.segs[i]] && t.ssd == s.ssd && t.done[b] == s.done[b]
    requires b in Live(t.segs[i]) <==> b in Live(s.segs[i])
    ensures Alike(g, s, t, b)
  {
    hide Live;
  }

  lemma PutIsIndexed(g: Config, i: nat, c: Seg)
    requires LocalOk(g, i, c) && c.pc.PutHeader?
    ensures c.pc.b in c.meta.index && Mine(g, i, c.pc.b)
  {
  }

  /** A buffered block of a large write, before its slot is cleared. */
  lemma ClearCase(pc: Pc, p: seq<Task>, b: nat, o: Cell, x: Cell, a: Cell, d: Cell, clock: nat)
    requires BlockOk(pc, p, b, Some(o), x, a, d, clock) && InClear(pc, b)
    ensures if x == pc.cells[b - pc.off] then x == d else d == o
  {
  }

  lemma ClearVerdict(v: Variant, g: Config, s: State, i: nat, b: nat)
    requires Inv(g, s) && Enabled(v, g, s, ClearNext(i)) && ClearSafe(v, s.segs[i]) && b < g.disk
    requires Inv(g, Do(v, g, s, ClearNext(i))) && Shaped(g, Do(v, g, s, ClearNext(i)))
    ensures Verdict(g, s, ClearNext(i), Do(v, g, s, ClearNext(i)), b)
  {
    hide Inv, LocalOk, CrashSafe, Alike, BlockOk, ClearSafe, DoClearNext, SlotCell;
    var t := Do(v, g, s, ClearNext(i));
    var c := s.segs[i];
    LocalPart(g, s, i);
    if c.pc.k < |c.pc.cells| && c.pc.off + c.pc.k in c.meta.index {
      ClearHitSlots(v, g, i, c);
      ClearHitIndex(v, g, i, c);
      ClearIsMine(g, i, c);
      if b == c.pc.off + c.pc.k {
        BlockPart(g, s, b);
        ClearCase(c.pc, Pending(c), b, SlotCell(c, b).value, s.ssd[b], s.abs[b], s.done[b], s.clock);
        CrashCases(g, s, b);
        CrashCases(g, t, b);
      } else {
        ClearAlike(g, s, i, t, b);
        AlikeSafe(g, s, t, b);
      }
    } else {
      MissIndex(v, g, i, c);
      ClearAlike(g, s, i, t, b);
      AlikeSafe(g, s, t, b);
    }
  }

  lemma ClearHitIndex(v: Variant, g: Config, i: nat, c: Seg)
    requires Sane(g) && LocalOk(g, i, c) && c.pc.Clear? && c.pc.k < |c.pc.cells| && c.pc.off + c.pc.k in c.meta.index
    ensures var d := DoClearNext(v, g, c);
            Live(c) == c.meta.index && Live(d) == c.meta.index - {c.pc.off + c.pc.k} && d.pc == Clear(c.pc.off, c.pc.cells, c.pc.k + 1)
  {
    hide Match, Sound, DoClearNext;
    ClearHitMeta(v, g, c);
  }

  lemma MissIndex(v: Variant, g: Config, i: nat, c: Seg)
    requires Sane(g) && LocalOk(g, i, c) && c.pc.Clear? && ClearSafe(v, c)
    requires !(c.pc.k < |c.pc.cells| && c.pc.off + c.pc.k in c.meta.index)
    ensures var d := DoClearNext(v, g, c);
            && Live(d) == Live(c) == c.meta.index
            && if d.pc.Clear? then d.pc == Clear(c.pc.off, c.pc.cells, c.pc.k + 1) else d.pc.Idle? && forall b: nat :: InClear(c.pc, b) ==> b !in c.meta.index
  {
    hide Match, Sound;
    if c.pc.k < |c.pc.cells| && !v.clearAll { assert NoneBuffered(c.meta, c.pc.off, |c.pc.cells|, c.pc.k); }
  }

  lemma ClearAlike(g: Config, s: State, i: nat, t: State, b: nat)
    requires Shaped(g, s) && Shaped(g, t) && i < g.segs && b < g.disk && s.segs[i].pc.Clear?
    requires t.segs == s.segs[i := t.segs[i]] && t.ssd == s.ssd && t.done == s.done
    requires b in Live(t.segs[i]) <==> b in Live(s.segs[i])
    requires var pc, next := s.segs[i].pc, t.segs[i].pc;
             next == Clear(pc.off, pc.cells, pc.k + 1) || (next.Idle? && (InClear(pc, b) ==> b !in Live(s.segs[i])))
    ensures Alike(g, s, t, b)
  {
    hide Live;
  }

  /** What the SSD worker may be about to store. */
  lemma StoreCase(pc: Pc, p: seq<Task>, b: nat, o: Option<Cell>, x: Cell, a: Cell, d: Cell, clock: nat)
    requires BlockOk(pc, p, b, o, x, a, d, clock) && |p| > 0 && Writes(p[0], b)
    ensures o.None? ==> if x == d then CellAt(p[0], b).stamp > d.stamp else CellAt(p[0], b).stamp != d.stamp
    ensures o.Some? && InClear(pc, b) ==> x != pc.cells[b - pc.off]
  {
  }

  lemma StoreVerdict(v: Variant, g: Config, s: State, i: nat, b: nat)
    requires Inv(g, s) && Enabled(v, g, s, Transfer(i)) && s.segs[i].exec.Storing? && b < g.disk
    requires Inv(g, Do(v, g, s, Transfer(i))) && Shaped(g, Do(v, g, s, Transfer(i)))
    ensures Verdict(g, s, Transfer(i), Do(v, g, s, Transfer(i)), b)
  {
    hide Route, Mod, Div, Inv, LocalOk, CrashSafe, BlockOk, Live, Holder;
    var t := Do(v, g, s, Transfer(i));
    var c := s.segs[i];
    LocalPart(g, s, i);
    TasksOk(g, i, c);
    StoredTasks(g, i, c, t.segs[i]);
    SameSlots(c, t.segs[i]);
    CrashCases(g, s, b);
    CrashCases(g, t, b);
    if b == c.exec.off {
      BlockPart(g, s, b);
      StoreCase(c.pc, Pending(c), b, SlotCell(c, b), s.ssd[b], s.abs[b], s.done[b], s.clock);
      LiveHasCell(g, i, c, b);
    }
  }

  lemma LiveHasCell(g: Config, i: nat, c: Seg, b: nat)
    requires LocalOk(g, i, c)
    ensures b in Live(c) <==> SlotCell(c, b).Some?
  {
    LiveBound(c);
  }

  /** For every step of a run, in any state that keeps the invariant: it makes a safe block unsafe
      exactly when Opens holds before it, and an unsafe one safe exactly when Closes does. */
  lemma CrashStepExact(v: Variant, g: Config, s: State, e: Step, b: nat)
    requires Inv(g, s) && Enabled(v, g, s, e) && Benign(v, g, s, e) && b < g.disk
    ensures Inv(g, Do(v, g, s, e)) && Shaped(g, Do(v, g, s, e)) && Verdict(g, s, e, Do(v, g, s, e), b)
  {
    StepSafe(v, g, s, e);
    hide Inv, Do, CrashSafe, Alike, OwnBase, ClearSafe, LookupSafe, Harmless;
    var t := Do(v, g, s, e);
    InvShaped(g, t);
    if e.Copy? {
      CopyVerdict(v, g, s, e.i, e.b, b);
    } else if e.Wipe? {
      WipeVerdict(v, g, s, e.i, e.b, b);
    } else if e.StoreHeader? {
      HeaderVerdict(v, g, s, e.i, b);
    } else if e.ClearNext? {
      ClearVerdict(v, g, s, e.i, b);
    } else if e.Transfer? && s.segs[e.i].exec.Storing? {
      StoreVerdict(v, g, s, e.i, b);
    } else if e.Crash? {
      CrashVerdict(v, g, s, b);
    } else {
      QuietAlike(v, g, s, e, b);
      AlikeSafe(g, s, t, b);
    }
  }

  lemma CrashVerdict(v: Variant, g: Config, s: State, b: nat)
    requires Inv(g, s) && Enabled(v, g, s, Crash) && b < g.disk
    requires Inv(g, Do(v, g, s, Crash)) && Shaped(g, Do(v, g, s, Crash))
    ensures Verdict(g, s, Crash, Do(v, g, s, Crash), b)
  {
    hide Inv, CrashSafe, LocalOk, Live, Recovery, Rebuild;
    var t := Do(v, g, s, Crash);
    CrashCases(g, t, b);
    LocalPart(g, s, Route(g, b));
    CrashBlock(g, s, b);
    CrashCases(g, s, b);
  }

  lemma QuietAlike(v: Variant, g: Config, s: State, e: Step, b: nat)
    requires Inv(g, s) && Enabled(v, g, s, e) && Benign(v, g, s, e) && Shaped(g, Do(v, g, s, e)) && b < g.disk
    requires !e.Copy? && !e.Wipe? && !e.StoreHeader? && !e.ClearNext? && !e.Crash? && !(e.Transfer? && s.segs[e.i].exec.Storing?)
    ensures Alike(g, s, Do(v, g, s, e), b)
  {
    if e.Open? {
    } else {
      hide Inv, Do, Alike, Benign;
      if OfWorker(e) {
        WorkerQuiet(v, g, s, e, b);
      } else if OfRound(e) {
        RoundQuiet(v, g, s, e, b);
      } else {
        SsdQuiet(v, g, s, e, b);
      }
    }
  }

  // ----- runs without large writes -----

  ghost predicate OnlyReads(c: Seg) {
    !c.pc.Clear? && forall j :: 0 <= j < |Pending(c)| ==> Pending(c)[j].Read?
  }

  /** No large write is queued, executing, or being cleared up after. */
  ghost predicate NoLarge(s: State) {
    forall i :: 0 <= i < |s.segs| ==> OnlyReads(s.segs[i])
  }

  lemma ScanOnlyReads(g: Config, c: Seg)
    requires OnlyReads(c) && c.pc.Scan? && c.pc.miss <= c.pc.k && g.per > 0
    ensures OnlyReads(DoScanNext(g, c))
  {
    hide BlockTest;
    var d := DoScanNext(g, c);
    assert Pending(d) == Pending(c) || Pending(d) == Pending(c) + [Read(c.pc.req, c.pc.off + c.pc.k - c.pc.miss, c.pc.miss)];
  }

  lemma SsdOnlyReads(c: Seg, d: Seg)
    requires OnlyReads(c) && d.pc == c.pc && (Pending(d) == Pending(c) || (Pending(c) != [] && Pending(d) == Pending(c)[1..]))
    ensures OnlyReads(d)
  {
  }

  lemma NotStoring(c: Seg)
    requires OnlyReads(c)
    ensures !c.exec.Storing?
  {
    assert |Pending(c)| > 0 ==> Pending(c)[0].Read?;
  }

  lemma SameQueue(c: Seg, d: Seg)
    requires OnlyReads(c) && d.queue == c.queue && d.exec == c.exec && !d.pc.Clear?
    ensures OnlyReads(d)
  {
    assert Pending(d) == Pending(c);
  }

  lemma OwnOnlyReads(v: Variant, g: Config, s: State, e: Step)
    requires Enabled(v, g, s, e) && !e.Open? && !e.Crash? && OnlyReads(s.segs[e.i]) && (e.BeginWrite? ==> |e.data| == 1)
    ensures e.i < |Do(v, g, s, e).segs| && OnlyReads(Do(v, g, s, e).segs[e.i])
  {
    hide OnlyReads, Reserve, BlockTest, Rebuild, Recovery, Mine, Claim, ScanReqs, PutRange, Full, Pending;
    var c := s.segs[e.i];
    var d := Do(v, g, s, e).segs[e.i];
    NotStoring(c);
    if e.ScanNext? {
      ScanOnlyReads(g, c);
    } else if e.Fetch? || e.Raise? || e.Transfer? || e.Complete? {
      SsdPending(c);
      SsdOnlyReads(c, d);
    } else {
      NotClear(c);
      SameQueue(c, d);
    }
  }

  lemma NotClear(c: Seg)
    requires OnlyReads(c)
    ensures !c.pc.Clear?
  {
  }

  /** What the SSD worker's steps leave pending. */
  lemma SsdPending(c: Seg)
    ensures c.exec.Resting? ==> Pending(DoFetch(c)) == Pending(c)
    ensures c.exec.Polled? ==> Pending(c.(exec := Resting, empty := true)) == Pending(c)
    ensures c.exec.Fetching? ==> Pending(DoTransfer(c)) == Pending(c) != [] && Pending(c.(exec := Resting)) == Pending(c)[1..]
  {
  }

  /** A step of segment k leaves the queues and the workers of the other segments alone. */
  lemma OthersQueue(v: Variant, g: Config, s: State, e: Step, i: nat)
    requires Enabled(v, g, s, e) && !e.Open? && !e.Crash? && i < g.segs && i != e.i
    ensures var t := Do(v, g, s, e);
            |t.segs| == |s.segs| && t.segs[i].queue == s.segs[i].queue && t.segs[i].exec == s.segs[i].exec && t.segs[i].pc == s.segs[i].pc
  {
    hide Reserve, BlockTest, Mine, Claim, ScanReqs, PutRange, Full, Mod, Div;
  }

  lemma OthersOnlyReads(v: Variant, g: Config, s: State, e: Step, i: nat)
    requires Enabled(v, g, s, e) && !e.Open? && !e.Crash? && i < g.segs && i != e.i && i < |s.segs| && OnlyReads(s.segs[i])
    ensures i < |Do(v, g, s, e).segs| && OnlyReads(Do(v, g, s, e).segs[i])
  {
    hide Do, Enabled;
    OthersQueue(v, g, s, e, i);
    assert Pending(Do(v, g, s, e).segs[i]) == Pending(s.segs[i]);
  }

  lemma NoLargeStep(v: Variant, g: Config, s: State, e: Step)
    requires Enabled(v, g, s, e) && NoLarge(s) && (e.BeginWrite? ==> |e.data| == 1)
    ensures NoLarge(Do(v, g, s, e))
  {
    if e.Crash? || e.Open? {
      FreshOnlyReads(v, g, s, e);
    } else {
      LargeElsewhere(v, g, s, e);
    }
  }

  lemma FreshOnlyReads(v: Variant, g: Config, s: State, e: Step)
    requires Enabled(v, g, s, e) && NoLarge(s) && (e.Crash? || e.Open?)
    ensures NoLarge(Do(v, g, s, e))
  {
    hide Rebuild, Recovery;
  }

  lemma LargeElsewhere(v: Variant, g: Config, s: State, e: Step)
    requires Enabled(v, g, s, e) && NoLarge(s) && (e.BeginWrite? ==> |e.data| == 1) && !e.Crash? && !e.Open?
    ensures NoLarge(Do(v, g, s, e))
  {
    hide Do, OnlyReads, Pending;
    var t := Do(v, g, s, e);
    OwnOnlyReads(v, g, s, e);
    ShapedStep(v, g, s, e);
    forall i | 0 <= i < |t.segs| && i != e.i ensures OnlyReads(t.segs[i]) {
      OthersOnlyReads(v, g, s, e, i);
    }
  }

  lemma ShapedStep(v: Variant, g: Config, s: State, e: Step)
    requires Enabled(v, g, s, e)
    ensures |Do(v, g, s, e).segs| == |s.segs| == g.segs
  {
    hide Do, Enabled;
    StepAdds(v, g, s, e);
    EnabledShaped(v, g, s, e);
  }

  /** Small writes, reads, migrations and further power failures alone never lose a completed
      write, wherever power fails. */
  lemma {:induction false} SmallWritesCrashSafe(v: Variant, g: Config, s: State, es: seq<Step>, t: State, b: nat)
    requires Inv(g, s) && NoLarge(s) && Run(v, g, s, es, t) && AllBenign(v, g, s, es) && b < g.disk
    requires forall k :: 0 <= k < |es| && es[k].BeginWrite? ==> |es[k].data| == 1
    ensures Inv(g, t) && Shaped(g, t) && CrashSafe(g, t, b)
    decreases es
  {
    hide Inv, Do, Enabled, Benign, CrashSafe, NoLarge;
    if es == [] {
      InvShaped(g, s);
      NoLargeIsSafe(g, s, b);
    } else {
      StepSafe(v, g, s, es[0]);
      NoLargeStep(v, g, s, es[0]);
      SmallWritesCrashSafe(v, g, Do(v, g, s, es[0]), es[1..], t, b);
    }
  }

  lemma NoLargeIsSafe(g: Config, s: State, b: nat)
    requires Inv(g, s) && Shaped(g, s) && NoLarge(s) && b < g.disk
    ensures CrashSafe(g, s, b)
  {
    hide Inv, CrashSafe, Holder, Pending;
    CrashExact(g, s, b);
    var c := s.segs[Route(g, b)];
    assert OnlyReads(c);
  }

  /** The restarted index is the one the headers described, and the array goes on from what
      recovery found. */
  lemma CrashRebuilds(v: Variant, g: Config, s: State, i: nat, b: nat)
    requires Inv(g, s) && Shaped(g, s) && i < g.segs && b < g.disk
    ensures var t := Do(v, g, s, Crash);
            && Shaped(g, t) && Inv(g, t)
            && t.segs[i].meta.index == Live(s.segs[i])
            && t.segs[i].meta.used == |Live(s.segs[i])|
            && t.segs[i].pc.Idle? && Pending(t.segs[i]) == [] && !t.segs[i].empty
            && View(g, t, b) == Recovery(g, s, b)
  {
    hide Inv, Do;
    var t := Do(v, g, s, Crash);
    StepSafe(v, g, s, Crash);
    CrashDoes(v, g, s, i, b);
    InvShaped(g, t);
    ViewIsArray(g, t, b);
    LocalPart(g, s, i);
    RestartIndex(g, i, s.segs[i]);
  }

  lemma CrashDoes(v: Variant, g: Config, s: State, i: nat, b: nat)
    requires Shaped(g, s) && i < g.segs && b < g.disk
    ensures var t := Do(v, g, s, Crash);
            && Shaped(g, t) && t.segs[i] == Restart(s.segs[i]) && t.segs[Route(g, b)].pc.Idle? && t.abs[b] == Recovery(g, s, b)
  {
    hide Rebuild, Recovery, Route;
  }

  lemma RestartIndex(g: Config, i: nat, c: Seg)
    requires LocalOk(g, i, c)
    ensures Restart(c).meta.index == Live(c) && Restart(c).meta.used == |Live(c)|
  {
    RebuildPart(c.headers, Live(c), |c.headers|);
    assert Below(Live(c), |c.headers|) == Live(c);
  }
}
