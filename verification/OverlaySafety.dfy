/** What the transition system guarantees: each step keeps the invariant exactly when the code's
    expression that decides it is right, and every run made of such steps behaves as a block
    array, answers reads exactly, and survives power failure but for one window. */
module OverlaySafety {
  import opened Common
  import opened Metadata
  import opened Overlay
  import opened OverlayInvariant
  import opened OverlaySteps
  import opened OverlayWrites
  import opened OverlayMigration
  import opened OverlayReads
  import opened OverlaySsd
  import opened OverlayOrigins

  /** The condition, visible before the step, under which the code's expression does what it is
      for; the repaired expressions need none. */
  ghost predicate Benign(v: Variant, g: Config, s: State, e: Step)
    requires Enabled(v, g, s, e)
  {
    match e
    case Lookup(i) => LookupSafe(v, g, i, s.segs[i])
    case Drain(i) => Harmless(s.segs[i])
    case Copy(i, b) => OwnBase(v, i)
    case Wipe(i, b) => OwnBase(v, i)
    case ClearNext(i) => ClearSafe(v, s.segs[i])
    case _ => true
  }

  lemma RepairedIsBenign(g: Config, s: State, e: Step)
    requires Enabled(REPAIRED, g, s, e)
    ensures Benign(REPAIRED, g, s, e)
  {
  }

  // ----- every benign step keeps the invariant -----

  lemma WorkerStep(v: Variant, g: Config, s: State, e: Step)
    requires Inv(g, s) && Enabled(v, g, s, e) && Benign(v, g, s, e)
    requires e.BeginWrite? || e.Lookup? || e.StoreData? || e.StoreHeader? || e.ClearNext?
    ensures Inv(g, Do(v, g, s, e))
  {
    hide Inv, Do, LookupSafe, ClearSafe;
    match e
    case BeginWrite(i, off, data) =>
      if |data| == 1 { StepBeginSmall(v, g, s, i, off, data); } else { StepBeginLarge(v, g, s, i, off, data); }
    case Lookup(i) => StepLookup(v, g, s, i);
    case StoreData(i) => StepStoreData(v, g, s, i);
    case StoreHeader(i) => StepStoreHeader(v, g, s, i);
    case ClearNext(i) =>
      var c := s.segs[i];
      if c.pc.k < |c.pc.cells| && c.pc.off + c.pc.k in c.meta.index { StepClearHit(v, g, s, i); } else { StepClearMiss(v, g, s, i); }
  }

  lemma MigrationStep(v: Variant, g: Config, s: State, e: Step)
    requires Inv(g, s) && Enabled(v, g, s, e) && Benign(v, g, s, e)
    requires e.Drain? || e.Pop? || e.Copy? || e.Wipe? || e.Uncount? || e.EndRound?
    ensures Inv(g, Do(v, g, s, e))
  {
    hide Inv, Do, OwnBase;
    match e
    case Drain(i) => StepDrain(v, g, s, i);
    case Pop(i, b) => StepPop(v, g, s, i, b);
    case Copy(i, b) => StepCopy(v, g, s, i, b);
    case Wipe(i, b) => StepWipe(v, g, s, i, b);
    case Uncount(i) => StepUncount(v, g, s, i);
    case EndRound(i) => StepEndRound(v, g, s, i);
  }

  lemma ScanStep(v: Variant, g: Config, s: State, i: nat)
    requires Inv(g, s) && Enabled(v, g, s, ScanNext(i))
    ensures Inv(g, Do(v, g, s, ScanNext(i)))
  {
    hide Inv, LocalOk, PostRun, BlockTest, Do, Match;
    var c := s.segs[i];
    LocalPart(g, s, i);
    ScanIsMine(g, i, c);
    ScanDoes(v, g, s, i);
    if c.pc.k >= c.pc.len {
      StepScanEnd(g, s, i, Do(v, g, s, ScanNext(i)));
    } else if c.pc.off + c.pc.k in c.meta.index {
      StepScanHit(g, s, i, Do(v, g, s, ScanNext(i)));
    } else {
      StepScanMiss(v, g, s, i);
    }
  }

  /** What ScanNext does at the end of the scan and at a buffered block. */
  lemma ScanDoes(v: Variant, g: Config, s: State, i: nat)
    requires Inv(g, s) && Enabled(v, g, s, ScanNext(i))
    ensures var c := s.segs[i];
            var t := Do(v, g, s, ScanNext(i));
            var b := c.pc.off + c.pc.k;
            && (c.pc.k >= c.pc.len ==>
                  t == s.(segs := s.segs[i := PostRun(c).(pc := Idle)], reqs := s.reqs[c.pc.req := Credit(s.reqs[c.pc.req], c.pc.ret, c.pc.hits)]))
            && (c.pc.k < c.pc.len ==> b < g.disk)
            && (c.pc.k < c.pc.len && b in c.meta.index ==>
                  t == s.(segs := s.segs[i := PostRun(c).(pc := HitPc(c.pc))], reqs := s.reqs[c.pc.req := Got(s.reqs[c.pc.req], b, s.abs[b])]))
  {
    hide Inv, LocalOk, PostRun, BlockTest;
    var c := s.segs[i];
    LocalPart(g, s, i);
    ScanIsMine(g, i, c);
    if c.pc.k < c.pc.len {
      assert Mine(g, i, c.pc.off + c.pc.k);
      ScannedContent(g, s, i, c.pc.off + c.pc.k);
    }
  }

  lemma SsdStep(v: Variant, g: Config, s: State, e: Step)
    requires Inv(g, s) && Enabled(v, g, s, e)
    requires e.Fetch? || e.Raise? || e.Lower? || e.Transfer? || e.Complete?
    ensures Inv(g, Do(v, g, s, e))
  {
    hide Inv, DoFetch;
    match e
    case Fetch(i) => StepFetch(g, s, i);
    case Raise(i) => StepRaise(g, s, i);
    case Lower(i) => StepLower(g, s, i);
    case Transfer(i) =>
      if s.segs[i].exec.Storing? { StepStore(g, s, i, Do(v, g, s, e)); } else { StepLoad(g, s, i, Do(v, g, s, e)); }
    case Complete(i) =>
      if s.segs[i].exec.Storing? { StepWritten(g, s, i); } else { StepLoaded(g, s, i, Do(v, g, s, e)); }
  }

  /** Every step whose condition holds keeps the invariant. */
  lemma StepSafe(v: Variant, g: Config, s: State, e: Step)
    requires Inv(g, s) && Enabled(v, g, s, e) && Benign(v, g, s, e)
    ensures Inv(g, Do(v, g, s, e))
  {
    hide Inv, Do, Enabled, Benign;
    match e
    case Open(off, len) => StepOpen(v, g, s, off, len);
    case BeginRead(i, r, off, len) => StepBeginRead(v, g, s, i, r, off, len);
    case ScanNext(i) => ScanStep(v, g, s, i);
    case Crash => StepCrash(v, g, s);
    case BeginWrite(_, _, _) => WorkerStep(v, g, s, e);
    case Lookup(_) => WorkerStep(v, g, s, e);
    case StoreData(_) => WorkerStep(v, g, s, e);
    case StoreHeader(_) => WorkerStep(v, g, s, e);
    case ClearNext(_) => WorkerStep(v, g, s, e);
    case Drain(_) => MigrationStep(v, g, s, e);
    case Pop(_, _) => MigrationStep(v, g, s, e);
    case Copy(_, _) => MigrationStep(v, g, s, e);
    case Wipe(_, _) => MigrationStep(v, g, s, e);
    case Uncount(_) => MigrationStep(v, g, s, e);
    case EndRound(_) => MigrationStep(v, g, s, e);
    case Fetch(_) => SsdStep(v, g, s, e);
    case Raise(_) => SsdStep(v, g, s, e);
    case Lower(_) => SsdStep(v, g, s, e);
    case Transfer(_) => SsdStep(v, g, s, e);
    case Complete(_) => SsdStep(v, g, s, e);
  }

  // ----- and no other does -----

  lemma BadLookup(v: Variant, g: Config, s: State, i: nat)
    requires Inv(g, s) && Enabled(v, g, s, Lookup(i)) && !LookupSafe(v, g, i, s.segs[i])
    ensures !Inv(g, Do(v, g, s, Lookup(i)))
    ensures s.segs[i].pc.b !in Do(v, g, s, Lookup(i)).segs[i].meta.index
  {
    var c := s.segs[i];
    var t := Do(v, g, s, Lookup(i));
    LocalPart(g, s, i);
    BlockTestIsIndex(g.per, c.meta, c.pc.b);
    hide Inv, Match;
    ReserveExact(v, g.segs, i, g.per, c.meta, c.pc.b);
    if Inv(g, t) {
      LocalPart(g, t, i);
    }
  }

  lemma BadDrain(v: Variant, g: Config, s: State, i: nat)
    requires Inv(g, s) && Enabled(v, g, s, Drain(i)) && !Harmless(s.segs[i])
    ensures !Inv(g, Do(v, g, s, Drain(i)))
  {
    var t := Do(v, g, s, Drain(i));
    assert Pending(t.segs[i]) == Pending(s.segs[i]);
    if Inv(g, t) {
      LocalPart(g, t, i);
    }
  }

  lemma BadCopy(v: Variant, g: Config, s: State, i: nat, b: nat)
    requires Inv(g, s) && OneOrigin(g, s) && Enabled(v, g, s, Copy(i, b)) && !OwnBase(v, i)
    ensures !Inv(g, Do(v, g, s, Copy(i, b)))
  {
    hide ClaimOk, Match, Sound, From;
    OtherSlotDiffers(g, s, i, b, Source(v, i));
    var t := Do(v, g, s, Copy(i, b));
    LocalPart(g, s, i);
    LocalCopy(g, i, s.segs[i], b);
    if Inv(g, t) {
      BlockPart(g, t, b);
    }
  }

  /** An entry let go of while its own header stays valid. */
  lemma LocalBadWipe(g: Config, i: nat, c: Seg, b: nat)
    requires LocalOk(g, i, c) && c.pc.Migrate? && b in c.pc.held && b in c.pc.copied
    ensures !LocalOk(g, i, DoWipe(c, b))
  {
    hide Match, Sound, TaskOk, Mine;
    var d := DoWipe(c, b);
    assert b in Live(c) && b !in Live(d);
    if LocalOk(g, i, d) {
      MatchUnique(c.headers, Live(c), Live(d));
    }
  }

  lemma BadWipe(v: Variant, g: Config, s: State, i: nat, b: nat)
    requires Inv(g, s) && Enabled(v, g, s, Wipe(i, b)) && !OwnBase(v, i)
    ensures !Inv(g, Do(v, g, s, Wipe(i, b)))
  {
    hide Inv, LocalOk;
    var t := Do(v, g, s, Wipe(i, b));
    LocalPart(g, s, i);
    LocalBadWipe(g, i, s.segs[i], b);
    assert t.segs[i] == DoWipe(s.segs[i], b);
    if Inv(g, t) {
      LocalPart(g, t, i);
    }
  }

  /** The loop returns at an unbuffered block while b is still buffered. */
  lemma LocalBadClear(v: Variant, g: Config, i: nat, c: Seg) returns (b: nat)
    requires Sane(g) && LocalOk(g, i, c) && c.pc.Clear? && !ClearSafe(v, c)
    ensures InClear(c.pc, b) && Mine(g, i, b) && c.pc.k < |c.pc.cells| && c.pc.off + c.pc.k !in c.meta.index
    ensures var d := DoClearNext(v, g, c);
            && d == c.(pc := Idle) && SlotCell(d, b) == SlotCell(c, b) && SlotCell(c, b).Some?
            && Holder(d.headers, b) == Some(Live(c)[b]) && b in Live(c) && SlotCell(c, b).value == c.slots[Live(c)[b]]
  {
    b :| c.pc.off + c.pc.k <= b < c.pc.off + |c.pc.cells| && b in c.meta.index;
    LiveBound(c);
    HolderIsLive(c, b);
    hide Match, Sound;
  }

  lemma BlockBadClear(pc: Pc, p: seq<Task>, b: nat, o: Cell, x: Cell, a: Cell, d: Cell, clock: nat)
    requires BlockOk(pc, p, b, Some(o), x, a, d, clock) && InClear(pc, b)
    ensures o.stamp < pc.cells[b - pc.off].stamp
    ensures !BlockOk(Idle, p, b, Some(o), x, pc.cells[b - pc.off], d, clock)
  {
  }

  /** The block that stays buffered: the view of it is that of an older write. */
  lemma BadClear(v: Variant, g: Config, s: State, i: nat) returns (b: nat)
    requires Inv(g, s) && Enabled(v, g, s, ClearNext(i)) && !ClearSafe(v, s.segs[i])
    ensures !Inv(g, Do(v, g, s, ClearNext(i)))
    ensures InClear(s.segs[i].pc, b) && b < g.disk && Shaped(g, Do(v, g, s, ClearNext(i))) && Do(v, g, s, ClearNext(i)).segs[i].pc.Idle?
    ensures View(g, Do(v, g, s, ClearNext(i)), b).stamp < s.segs[i].pc.cells[b - s.segs[i].pc.off].stamp
  {
    hide Inv, LocalOk, ClearSafe, BlockOk, DoClearNext, Live, SlotCell;
    var t := Do(v, g, s, ClearNext(i));
    var c := s.segs[i];
    LocalPart(g, s, i);
    b := LocalBadClear(v, g, i, c);
    BlockPart(g, s, b);
    BlockBadClear(c.pc, Pending(c), b, SlotCell(c, b).value, s.ssd[b], s.abs[b], s.done[b], s.clock);
    assert Pending(t.segs[i]) == Pending(c);
    if Inv(g, t) {
      BlockPart(g, t, b);
    }
  }

  /** For every state that keeps the invariant and every step the code can take there, the next
      state keeps it exactly when the step's condition holds. */
  lemma StepExact(v: Variant, g: Config, s: State, e: Step)
    requires Inv(g, s) && OneOrigin(g, s) && Enabled(v, g, s, e)
    ensures Inv(g, Do(v, g, s, e)) <==> Benign(v, g, s, e)
  {
    hide Inv, Do, LookupSafe, OwnBase, ClearSafe;
    if Benign(v, g, s, e) {
      StepSafe(v, g, s, e);
    } else {
      match e
      case Lookup(i) => BadLookup(v, g, s, i);
      case Drain(i) => BadDrain(v, g, s, i);
      case Copy(i, b) => BadCopy(v, g, s, i, b);
      case Wipe(i, b) => BadWipe(v, g, s, i, b);
      case ClearNext(i) => var b := BadClear(v, g, s, i);
    }
  }

  // ----- runs -----

  /** A run from s to t: any steps of any threads, in any order. */
  ghost predicate Run(v: Variant, g: Config, s: State, es: seq<Step>, t: State)
    decreases es
  {
    if es == [] then t == s
    else Enabled(v, g, s, es[0]) && Run(v, g, Do(v, g, s, es[0]), es[1..], t)
  }

  /** No run, of the code as written or repaired, gives content of one write to two segments. */
  lemma {:induction false} RunOrigin(v: Variant, g: Config, s: State, es: seq<Step>, t: State)
    requires OneOrigin(g, s) && Run(v, g, s, es, t)
    ensures OneOrigin(g, t)
    decreases es
  {
    hide Do, Enabled, OneOrigin;
    if es != [] {
      StepOrigin(v, g, s, es[0]);
      RunOrigin(v, g, Do(v, g, s, es[0]), es[1..], t);
    }
  }

  lemma Start(v: Variant, g: Config, s: State)
    ensures Run(v, g, s, [], s)
  {
  }

  lemma {:induction false} Then(v: Variant, g: Config, s: State, es: seq<Step>, t: State, e: Step)
    requires Run(v, g, s, es, t) && Enabled(v, g, t, e)
    ensures Run(v, g, s, es + [e], Do(v, g, t, e))
    decreases es
  {
    hide Do, Enabled;
    if es == [] {
      assert ([e])[1..] == [];
      assert Run(v, g, Do(v, g, s, e), [], Do(v, g, s, e));
    } else {
      Then(v, g, Do(v, g, s, es[0]), es[1..], t, e);
      assert (es + [e])[1..] == es[1..] + [e];
    }
  }

  lemma {:induction false} Join(v: Variant, g: Config, s: State, es: seq<Step>, m: State, fs: seq<Step>, t: State)
    requires Run(v, g, s, es, m) && Run(v, g, m, fs, t)
    ensures Run(v, g, s, es + fs, t)
    decreases es
  {
    hide Do, Enabled;
    if es == [] {
      assert es + fs == fs;
    } else {
      Join(v, g, Do(v, g, s, es[0]), es[1..], m, fs, t);
      assert (es + fs)[1..] == es[1..] + fs;
    }
  }

  ghost predicate AllBenign(v: Variant, g: Config, s: State, es: seq<Step>)
    decreases es
  {
    es != [] ==> (Enabled(v, g, s, es[0]) ==> Benign(v, g, s, es[0]) && AllBenign(v, g, Do(v, g, s, es[0]), es[1..]))
  }

  lemma {:induction false} RunSafe(v: Variant, g: Config, s: State, es: seq<Step>, t: State)
    requires Inv(g, s) && Run(v, g, s, es, t) && AllBenign(v, g, s, es)
    ensures Inv(g, t)
    decreases es
  {
    hide Inv, Do, Enabled, Benign;
    if es != [] {
      StepSafe(v, g, s, es[0]);
      RunSafe(v, g, Do(v, g, s, es[0]), es[1..], t);
    }
  }

  lemma {:induction false} RepairedRun(g: Config, s: State, es: seq<Step>, t: State)
    requires Run(REPAIRED, g, s, es, t)
    ensures AllBenign(REPAIRED, g, s, es)
    decreases es
  {
    hide Do, Enabled, Benign;
    if es != [] {
      RepairedIsBenign(g, s, es[0]);
      RepairedRun(g, Do(REPAIRED, g, s, es[0]), es[1..], t);
    }
  }

  /** So in every state that benign steps reach from a formatted store, the step that comes next is safe
      exactly when its condition holds: the conditions can be checked one step at a time, on the state. */
  lemma ReachedExact(v: Variant, g: Config, content: seq<Data>, es: seq<Step>, t: State, e: Step)
    requires Sane(g) && |content| == g.disk
    requires Run(v, g, Formatted(g, content), es, t) && AllBenign(v, g, Formatted(g, content), es) && Enabled(v, g, t, e)
    ensures Inv(g, t) && (Inv(g, Do(v, g, t, e)) <==> Benign(v, g, t, e))
  {
    hide Inv, Do, Enabled, Benign, OneOrigin, Run, Init;
    var s := Formatted(g, content);
    InitInv(g, s);
    InitOrigin(g, content);
    RunSafe(v, g, s, es, t);
    RunOrigin(v, g, s, es, t);
    StepExact(v, g, t, e);
  }
}
