/** Where the slots' contents come from: no two segments ever hold content of the same write.  So a
    round that reads another segment's slot always moves the wrong content. */
module OverlayOrigins {
  import opened Common
  import opened Metadata
  import opened Overlay
  import opened OverlayInvariant
  import opened OverlayMigration

  predicate HasCell(pc: Pc) {
    pc.Look? || pc.Wait? || pc.Migrate? || pc.PutData? || pc.PutHeader?
  }

  /** The segment has content of write x in a slot, or is about to store it. */
  ghost predicate From(c: Seg, x: nat) {
    || (exists o :: 0 <= o < |c.slots| && c.slots[o].stamp == x)
    || (HasCell(c.pc) && c.pc.cell.stamp == x)
  }

  /** Every write but number 0, which stands for what was there before, has gone to one segment only. */
  ghost predicate OneOrigin(g: Config, s: State) {
    && Shaped(g, s)
    && s.clock > 0
    && (forall i, x: nat :: 0 <= i < g.segs && From(s.segs[i], x) ==> x < s.clock)
    && forall i, k, x: nat :: 0 <= i < g.segs && 0 <= k < g.segs && x > 0 && From(s.segs[i], x) && From(s.segs[k], x) ==> i == k
  }

  lemma InitOrigin(g: Config, content: seq<Data>)
    requires Sane(g) && |content| == g.disk
    ensures OneOrigin(g, Formatted(g, content))
  {
  }

  /** A step adds no content to a segment but that of the small write that begins there. */
  ghost predicate AddsOnly(e: Step, k: nat, c: Seg, d: Seg, clock: nat) {
    forall x: nat :: From(d, x) ==> From(c, x) || (e.BeginWrite? && e.i == k && x == clock)
  }

  lemma SlotsKept(e: Step, k: nat, c: Seg, d: Seg, clock: nat)
    requires d.slots == c.slots && (HasCell(d.pc) ==> HasCell(c.pc) && d.pc.cell == c.pc.cell)
    ensures AddsOnly(e, k, c, d, clock)
  {
  }

  /** Slots, and contents on their way to one, are as before. */
  ghost predicate SameContents(g: Config, s: State, t: State)
    requires Shaped(g, s)
  {
    && Shaped(g, t) && t.clock == s.clock
    && forall k :: 0 <= k < g.segs ==>
         && t.segs[k].slots == s.segs[k].slots
         && (HasCell(t.segs[k].pc) ==> HasCell(s.segs[k].pc) && t.segs[k].pc.cell == s.segs[k].pc.cell)
  }

  lemma WorkerContents(v: Variant, g: Config, s: State, e: Step)
    requires Enabled(v, g, s, e) && (e.Lookup? || e.StoreHeader? || e.ClearNext? || e.BeginRead?)
    ensures SameContents(g, s, Do(v, g, s, e))
  {
    hide Reserve, BlockTest, Full, Mod, Div, Mine, Claim, ClearBlock;
  }

  lemma ScanContents(v: Variant, g: Config, s: State, i: nat)
    requires Enabled(v, g, s, ScanNext(i))
    ensures SameContents(g, s, Do(v, g, s, ScanNext(i)))
  {
    hide BlockTest, Mod, Div, Mine, ScanReqs;
  }

  lemma RoundContents(v: Variant, g: Config, s: State, e: Step)
    requires Enabled(v, g, s, e) && (e.Drain? || e.Pop? || e.Copy? || e.Wipe? || e.Uncount? || e.EndRound?)
    ensures SameContents(g, s, Do(v, g, s, e))
  {
    hide Mod, Div;
  }

  lemma OtherContents(v: Variant, g: Config, s: State, e: Step)
    requires Enabled(v, g, s, e) && (e.Open? || e.Fetch? || e.Raise? || e.Lower? || e.Transfer? || e.Complete? || e.Crash?)
    ensures SameContents(g, s, Do(v, g, s, e))
  {
    hide Rebuild, Recovery, Mod, Div;
  }

  /** Only StoreData changes slots, and only BeginWrite gives a worker a new content to store. */
  lemma StepContents(v: Variant, g: Config, s: State, e: Step)
    requires Enabled(v, g, s, e) && !e.StoreData? && !e.BeginWrite?
    ensures SameContents(g, s, Do(v, g, s, e))
  {
    hide Do, Enabled, SameContents;
    if e.Drain? || e.Pop? || e.Copy? || e.Wipe? || e.Uncount? || e.EndRound? {
      RoundContents(v, g, s, e);
    } else if e.ScanNext? {
      ScanContents(v, g, s, e.i);
    } else if e.Lookup? || e.StoreHeader? || e.ClearNext? || e.BeginRead? {
      WorkerContents(v, g, s, e);
    } else {
      OtherContents(v, g, s, e);
    }
  }

  lemma StoreAdds(v: Variant, g: Config, s: State, e: Step)
    requires e.StoreData? && Enabled(v, g, s, e)
    ensures var t := Do(v, g, s, e);
            Shaped(g, t) && t.clock == s.clock && forall k: nat :: k < g.segs ==> AddsOnly(e, k, s.segs[k], t.segs[k], s.clock)
  {
  }

  lemma BeginAdds(v: Variant, g: Config, s: State, e: Step)
    requires e.BeginWrite? && Enabled(v, g, s, e)
    ensures var t := Do(v, g, s, e);
            Shaped(g, t) && t.clock == s.clock + 1 && forall k: nat :: k < g.segs ==> AddsOnly(e, k, s.segs[k], t.segs[k], s.clock)
  {
    hide Mine;
  }

  lemma StepAdds(v: Variant, g: Config, s: State, e: Step)
    requires Enabled(v, g, s, e)
    ensures var t := Do(v, g, s, e);
            && Shaped(g, t) && t.clock == (if e.BeginWrite? then s.clock + 1 else s.clock)
            && forall k: nat :: k < g.segs ==> AddsOnly(e, k, s.segs[k], t.segs[k], s.clock)
  {
    hide Do, Enabled, AddsOnly;
    if e.StoreData? {
      StoreAdds(v, g, s, e);
    } else if e.BeginWrite? {
      BeginAdds(v, g, s, e);
    } else {
      StepContents(v, g, s, e);
      var t := Do(v, g, s, e);
      EnabledShaped(v, g, s, e);
      forall k: nat | k < g.segs ensures AddsOnly(e, k, s.segs[k], t.segs[k], s.clock) {
        SlotsKept(e, k, s.segs[k], t.segs[k], s.clock);
      }
    }
  }

  lemma EnabledShaped(v: Variant, g: Config, s: State, e: Step)
    requires Enabled(v, g, s, e)
    ensures Shaped(g, s)
  {
  }

  lemma StepOrigin(v: Variant, g: Config, s: State, e: Step)
    requires OneOrigin(g, s) && Enabled(v, g, s, e)
    ensures OneOrigin(g, Do(v, g, s, e))
  {
    hide Do, Enabled, From;
    StepAdds(v, g, s, e);
  }

  /** Without the segment's base, what a round copies is never the block's own content. */
  lemma OtherSlotDiffers(g: Config, s: State, i: nat, b: nat, from: nat)
    requires Inv(g, s) && OneOrigin(g, s) && i < g.segs && from < g.segs && from != i
    requires s.segs[i].pc.Migrate? && b in s.segs[i].pc.held && s.segs[i].pc.held[b] < g.per
    ensures s.segs[from].slots[s.segs[i].pc.held[b]] != s.segs[i].slots[s.segs[i].pc.held[b]]
  {
    hide Inv, ClaimOk, Match;
    LocalPart(g, s, i);
    LocalCopy(g, i, s.segs[i], b);
    BlockPart(g, s, b);
    var o := s.segs[i].pc.held[b];
    assert From(s.segs[i], s.segs[i].slots[o].stamp);
    assert From(s.segs[from], s.segs[from].slots[o].stamp);
  }
}
