/** Runs of the code as written, from a formatted store, that end with a reader or a restart finding
    the wrong content.  The configuration is the code's -- four segments, stripes of four blocks --
    with eight slots per segment. */
module OverlayTraces {
  import opened Common
  import opened Metadata
  import opened Overlay
  import opened OverlayInvariant
  import opened OverlayWrites
  import opened OverlayMigration
  import opened OverlayOrigins
  import opened OverlaySafety
  import opened OverlayResults

  const G := Config(4, 8, 4, 256)

  // ----- what a reader finds -----

  /** What a read of block b that its worker accepts now will return: the slot that the index and
      the bitmap name, else what the SSD has once the tasks queued before the read are done. */
  ghost function Seen(g: Config, s: State, b: nat): Cell
    requires Shaped(g, s) && b < g.disk
  {
    var c := s.segs[Route(g, b)];
    match BlockTest(g.per, c.meta, b)
    case Some(o) => if o < |c.slots| then c.slots[o] else s.ssd[b]
    case None => After(Pending(c), |Pending(c)|, b, s.ssd[b])
  }

  /** The invariant makes that the view of the block. */
  lemma SeenIsView(g: Config, s: State, b: nat)
    requires Inv(g, s) && Shaped(g, s) && b < g.disk && s.segs[Route(g, b)].pc.Idle?
    ensures Seen(g, s, b) == View(g, s, b)
  {
    hide BlockOk, ClaimOk, Inv;
    var c := s.segs[Route(g, b)];
    ViewIs(g, s, b);
    LocalPart(g, s, Route(g, b));
    BlockTestIsIndex(g.per, c.meta, b);
    LiveBounded(c);
  }

  /** What Seen says is what happens: a read of the block, posted now and processed by its worker, has
      copied Seen if it found a slot, and else has queued behind the pending tasks that make it Seen. */
  lemma SeenIsRead(v: Variant, g: Config, s: State, i: nat, b: nat) returns (es: seq<Step>, t: State)
    requires Shaped(g, s) && Mine(g, i, b) && s.segs[i].pc.Idle?
    requires BlockTest(g.per, s.segs[i].meta, b).Some? ==> BlockTest(g.per, s.segs[i].meta, b).value < g.per
    ensures Run(v, g, s, es, t) && Shaped(g, t) && t.segs[i].pc.Idle?
    ensures var r := |s.reqs|;
            && |t.reqs| == r + 1
            && if BlockTest(g.per, s.segs[i].meta, b).Some? then t.reqs[r].got == map[b := Seen(g, s, b)] && t.reqs[r].ret == 1
               else t.segs[i] == Post(s.segs[i], Read(r, b, 1)) && t.ssd == s.ssd
  {
    hide Run, Route, Mod, Div, BlockTest, Do, Enabled;
    var a := ReadBegins(v, g, s, i, b);
    var ds;
    ds, t := ReadEnds(v, g, a, i, b, |s.reqs|);
    Join(v, g, s, [Open(b, 1)] + [BeginRead(i, |s.reqs|, b, 1)], a, ds, t);
    es := [Open(b, 1)] + [BeginRead(i, |s.reqs|, b, 1)] + ds;
  }

  lemma ReadBegins(v: Variant, g: Config, s: State, i: nat, b: nat) returns (t: State)
    requires Shaped(g, s) && Mine(g, i, b) && s.segs[i].pc.Idle?
    ensures Run(v, g, s, [Open(b, 1)] + [BeginRead(i, |s.reqs|, b, 1)], t) && Shaped(g, t)
    ensures t.segs == s.segs[i := s.segs[i].(pc := Scan(|s.reqs|, b, 1, 0, 0, 0, {}))] && t.ssd == s.ssd
    ensures |t.reqs| == |s.reqs| + 1 && t.reqs[|s.reqs|].got == map[] && t.reqs[|s.reqs|].ret == 0
  {
    hide Run, Route, Mod, Div;
    var m := Do(v, g, s, Open(b, 1));
    Start(v, g, s);
    Then(v, g, s, [], s, Open(b, 1));
    Then(v, g, s, [] + [Open(b, 1)], m, BeginRead(i, |s.reqs|, b, 1));
    assert [] + [Open(b, 1)] == [Open(b, 1)];
    t := Do(v, g, m, BeginRead(i, |s.reqs|, b, 1));
  }

  lemma ReadEnds(v: Variant, g: Config, s: State, i: nat, b: nat, r: nat) returns (es: seq<Step>, t: State)
    requires Shaped(g, s) && i < g.segs && s.segs[i].pc == Scan(r, b, 1, 0, 0, 0, {}) && |s.reqs| == r + 1
    requires BlockTest(g.per, s.segs[i].meta, b).Some? ==> BlockTest(g.per, s.segs[i].meta, b).value < g.per
    ensures Run(v, g, s, es, t) && Shaped(g, t) && t.segs[i].pc.Idle? && |t.reqs| == r + 1
    ensures match BlockTest(g.per, s.segs[i].meta, b)
            case Some(o) => t.reqs[r].got == s.reqs[r].got[b := s.segs[i].slots[o]] && t.reqs[r].ret == s.reqs[r].ret + 1
            case None => t.segs[i] == Post(s.segs[i], Read(r, b, 1)).(pc := Idle) && t.ssd == s.ssd
  {
    hide Run, Route, Mod, Div, BlockTest;
    var m := Do(v, g, s, ScanNext(i));
    Start(v, g, s);
    Then(v, g, s, [], s, ScanNext(i));
    Then(v, g, s, [] + [ScanNext(i)], m, ScanNext(i));
    es := [] + [ScanNext(i)] + [ScanNext(i)];
    t := Do(v, g, m, ScanNext(i));
  }

  lemma LiveBounded(c: Seg)
    requires Match(c.headers, Live(c))
    ensures forall b :: b in Live(c) ==> Live(c)[b] < |c.headers|
  {
  }

  // ----- small writes into free slots -----

  /** The state after the rest of a small write that is about to look for a slot and finds one. */
  ghost function AfterPut(s: State, i: nat, b: nat, cell: Cell): State
    requires Shaped(G, s) && i < 4 && b < 256 && s.segs[i].meta.nextBit < 8
    requires Reserve(AS_WRITTEN, 4, i, 8, s.segs[i].meta, b).1 < 8
  {
    var c := s.segs[i];
    var (m, slot) := Reserve(AS_WRITTEN, 4, i, 8, c.meta, b);
    s.(segs := s.segs[i := Seg(m, c.slots[slot := cell], c.headers[slot := Header(true, b)], c.queue, c.exec, c.empty, Idle)],
       abs := s.abs[b := cell], done := s.done[b := cell])
  }

  /** A segment whose worker can go on to a free slot with a new block. */
  ghost predicate Roomy(m: Meta, i: nat, b: nat) {
    && i < 4 && b < 256 && m.nextBit < 8 && BlockTest(8, m, b).None? && !Full(8, m) && Findable(8, m)
    && Reserve(AS_WRITTEN, 4, i, 8, m, b).1 < 8
  }

  lemma LookRun(s: State, i: nat) returns (es: seq<Step>)
    requires Shaped(G, s) && i < 4 && s.segs[i].pc.Look? && Roomy(s.segs[i].meta, i, s.segs[i].pc.b)
    ensures Run(AS_WRITTEN, G, s, es, AfterPut(s, i, s.segs[i].pc.b, s.segs[i].pc.cell))
    ensures Shaped(G, AfterPut(s, i, s.segs[i].pc.b, s.segs[i].pc.cell))
  {
    hide Reserve, BlockTest, Full, Run, Route, Mod, Div;
    var b, cell := s.segs[i].pc.b, s.segs[i].pc.cell;
    FromLook(s, i, b, cell);
    var m := Do(AS_WRITTEN, G, s, Lookup(i));
    Start(AS_WRITTEN, G, s);
    Then(AS_WRITTEN, G, s, [], s, Lookup(i));
    var d := Do(AS_WRITTEN, G, m, StoreData(i));
    Then(AS_WRITTEN, G, s, [] + [Lookup(i)], m, StoreData(i));
    Then(AS_WRITTEN, G, s, [] + [Lookup(i)] + [StoreData(i)], d, StoreHeader(i));
    es := [] + [Lookup(i)] + [StoreData(i)] + [StoreHeader(i)];
    var t, u := Do(AS_WRITTEN, G, d, StoreHeader(i)), AfterPut(s, i, b, cell);
    assert t.segs[i] == u.segs[i];
    assert t.segs == u.segs;
  }

  lemma FromLook(s: State, i: nat, b: nat, cell: Cell)
    requires Shaped(G, s) && i < 4 && s.segs[i].pc == Look(b, cell) && Roomy(s.segs[i].meta, i, b)
    ensures Enabled(AS_WRITTEN, G, s, Lookup(i))
    ensures var c := s.segs[i];
            var (m, slot) := Reserve(AS_WRITTEN, 4, i, 8, c.meta, b);
            Do(AS_WRITTEN, G, s, Lookup(i)) == s.(segs := s.segs[i := c.(meta := m, pc := PutData(b, cell, slot, true))])
  {
    hide Reserve, BlockTest, Full, Mod, Div;
  }

  /** The state after a small write that finds a free slot. */
  ghost function AfterSmall(s: State, i: nat, b: nat, x: Data): State
    requires Shaped(G, s) && i < 4 && Roomy(s.segs[i].meta, i, b)
  {
    AfterPut(s, i, b, Cell(x, s.clock)).(clock := s.clock + 1)
  }

  lemma SmallRun(s: State, i: nat, b: nat, x: Data) returns (es: seq<Step>)
    requires Shaped(G, s) && i < 4 && Mine(G, i, b) && s.segs[i].pc.Idle? && Roomy(s.segs[i].meta, i, b)
    ensures Run(AS_WRITTEN, G, s, es, AfterSmall(s, i, b, x)) && Shaped(G, AfterSmall(s, i, b, x))
  {
    hide Roomy, Run, Mod, Div, Reserve;
    var a := BeginSmall(s, i, b, x);
    SlotInside(s.segs[i].meta, i, b);
    var fs := LookRun(a, i);
    Start(AS_WRITTEN, G, s);
    Then(AS_WRITTEN, G, s, [], s, BeginWrite(i, b, [x]));
    var t, u := AfterPut(a, i, b, Cell(x, s.clock)), AfterSmall(s, i, b, x);
    assert t.segs == u.segs;
    Join(AS_WRITTEN, G, s, [] + [BeginWrite(i, b, [x])], a, fs, u);
    es := [] + [BeginWrite(i, b, [x])] + fs;
  }

  lemma SlotInside(m: Meta, i: nat, b: nat)
    requires Roomy(m, i, b)
    ensures i < 4 && b < 256 && m.nextBit < 8 && Reserve(AS_WRITTEN, 4, i, 8, m, b).1 < 8
  {
  }

  lemma BeginSmall(s: State, i: nat, b: nat, x: Data) returns (t: State)
    requires Shaped(G, s) && i < 4 && Mine(G, i, b) && s.segs[i].pc.Idle?
    ensures Enabled(AS_WRITTEN, G, s, BeginWrite(i, b, [x])) && t == Do(AS_WRITTEN, G, s, BeginWrite(i, b, [x]))
    ensures t == s.(segs := s.segs[i := s.segs[i].(pc := Look(b, Cell(x, s.clock)))], clock := s.clock + 1) && Shaped(G, t)
  {
    hide Mod, Div;
    t := Do(AS_WRITTEN, G, s, BeginWrite(i, b, [x]));
  }

  // ----- filling a segment -----

  /** Nine blocks that belong to segment i. */
  function Blocks(i: nat): seq<nat>
    requires i < 4
  {
    [4 * i, 4 * i + 1, 4 * i + 2, 4 * i + 3, 4 * i + 16, 4 * i + 17, 4 * i + 18, 4 * i + 19, 4 * i + 32]
  }

  lemma BlocksRoute(i: nat, j: nat)
    requires i < 4 && j < 9
    ensures Mine(G, i, Blocks(i)[j])
  {
    hide Div, Mod;
    var b := Blocks(i)[j];
    assert i <= b / 4 && (b / 4) % 4 == i;
    DivModMeaning(b, 4);
    DivModMeaning(b / 4, 4);
  }

  function IndexOf(bs: seq<nat>, k: nat): map<nat, nat>
    requires k <= |bs|
  {
    if k == 0 then map[] else IndexOf(bs, k - 1)[bs[k - 1] := k - 1]
  }

  /** The metadata once the first k blocks of bs have taken slots 0 .. k-1. */
  ghost function MetaOf(bs: seq<nat>, k: nat): Meta
    requires k <= |bs|
  {
    Meta(IndexOf(bs, k), Range(0, k), if k < 8 then 0 else 1, k)
  }

  lemma {:induction false} IndexIs(bs: seq<nat>, k: nat)
    requires k <= |bs| && forall j, l :: 0 <= j < l < |bs| ==> bs[j] != bs[l]
    ensures forall j :: 0 <= j < k ==> bs[j] in IndexOf(bs, k) && IndexOf(bs, k)[bs[j]] == j
    ensures forall b :: b in IndexOf(bs, k) ==> exists j :: 0 <= j < k && b == bs[j]
    ensures |IndexOf(bs, k)| == k
  {
    if k > 0 {
      IndexIs(bs, k - 1);
      assert IndexOf(bs, k).Keys == IndexOf(bs, k - 1).Keys + {bs[k - 1]};
    }
  }

  /** The next block takes slot k, and is indexed. */
  lemma NextSlot(i: nat, bs: seq<nat>, k: nat)
    requires i < 4 && k < 8 && k < |bs| && bs[k] !in IndexOf(bs, k)
    ensures Reserve(AS_WRITTEN, 4, i, 8, MetaOf(bs, k), bs[k]) == (MetaOf(bs, k + 1), k)
  {
    var m := MetaOf(bs, k);
    ModOnce(k, 8);
    forall e: nat | e < k ensures Around(0, e, 8) in m.bitmap { ModOnce(e, 8); }
    assert IsFirstZero(m.bitmap, 8, 0, k, k);
    FirstZeroIs(m.bitmap, 8, 0, k, k, 0);
    BitInRange(AS_WRITTEN, 4, i, k);
    assert Range(0, k) + {k} == Range(0, k + 1);
    hide FirstZero, BlockmetaBit;
  }

  /** Segment i, and nothing else but the notes, has gone from s to t: k blocks of bs with contents ds
      are in its slots 0 .. k-1. */
  ghost predicate FilledTo(s: State, t: State, i: nat, bs: seq<nat>, ds: seq<Data>, k: nat)
    requires Shaped(G, s) && Shaped(G, t) && i < 4 && k <= |bs| && k <= 8 && k <= |ds|
  {
    var c, d := s.segs[i], t.segs[i];
    && t.segs == s.segs[i := d] && t.ssd == s.ssd && t.reqs == s.reqs
    && d.meta == MetaOf(bs, k) && d.queue == c.queue && d.exec == c.exec && d.empty == c.empty && d.pc.Idle?
    && (forall j :: 0 <= j < k ==> d.slots[j].data == ds[j] && d.headers[j] == Header(true, bs[j]))
    && (forall j :: 0 <= j < k ==> bs[j] < 256 && t.abs[bs[j]].data == t.done[bs[j]].data == ds[j])
    && forall b: nat :: b < 256 && b !in bs[..k] ==> t.abs[b] == s.abs[b] && t.done[b] == s.done[b]
  }

  lemma {:induction false} Fill(s: State, i: nat, ds: seq<Data>, k: nat) returns (es: seq<Step>, t: State)
    requires Shaped(G, s) && i < 4 && k <= 8 <= |ds| && s.segs[i].meta == EMPTY && s.segs[i].pc.Idle?
    ensures Run(AS_WRITTEN, G, s, es, t) && Shaped(G, t) && FilledTo(s, t, i, Blocks(i), ds, k)
  {
    hide Run, Reserve, Mine, FilledTo, Shaped, Mod, Div, AfterSmall, BlockTest, Full, IndexOf, MetaOf, Bits;
    if k == 0 {
      es, t := [], s;
      Start(AS_WRITTEN, G, s);
      FilledNone(s, i, Blocks(i), ds);
    } else {
      var fs, u := Fill(s, i, ds, k - 1);
      var gs;
      gs, t := FillOne(s, u, i, ds, k);
      Join(AS_WRITTEN, G, s, fs, u, gs, t);
      es := fs + gs;
    }
  }

  lemma FilledNone(s: State, i: nat, bs: seq<nat>, ds: seq<Data>)
    requires Shaped(G, s) && i < 4 && s.segs[i].meta == EMPTY && s.segs[i].pc.Idle?
    ensures FilledTo(s, s, i, bs, ds, 0)
  {
    assert Range(0, 0) == {};
    assert s.segs == s.segs[i := s.segs[i]];
  }

  lemma FillOne(s: State, u: State, i: nat, ds: seq<Data>, k: nat) returns (gs: seq<Step>, t: State)
    requires Shaped(G, s) && Shaped(G, u) && i < 4 && 0 < k <= 8 <= |ds| && FilledTo(s, u, i, Blocks(i), ds, k - 1)
    ensures Run(AS_WRITTEN, G, u, gs, t) && Shaped(G, t) && FilledTo(s, t, i, Blocks(i), ds, k)
  {
    hide Run, Reserve, Mod, Div, FilledTo, BlockTest, Full, IndexOf, MetaOf;
    var bs := Blocks(i);
    IndexIs(bs, k - 1);
    NextSlot(i, bs, k - 1);
    BlocksRoute(i, k - 1);
    NotFull(bs, k - 1);
    FilledHas(s, u, i, bs, ds, k - 1);
    gs := SmallRun(u, i, bs[k - 1], ds[k - 1]);
    t := AfterSmall(u, i, bs[k - 1], ds[k - 1]);
    FilledNext(s, u, i, bs, ds, k - 1);
  }

  lemma FilledHas(s: State, u: State, i: nat, bs: seq<nat>, ds: seq<Data>, k: nat)
    requires Shaped(G, s) && Shaped(G, u) && i < 4 && k <= |bs| && k <= 8 && k <= |ds| && FilledTo(s, u, i, bs, ds, k)
    ensures u.segs[i].meta == MetaOf(bs, k) && u.segs[i].pc.Idle?
  {
    hide MetaOf;
  }

  lemma FilledNext(s: State, u: State, i: nat, bs: seq<nat>, ds: seq<Data>, k: nat)
    requires Shaped(G, s) && Shaped(G, u) && i < 4 && k < |bs| && k < 8 && k < |ds| && FilledTo(s, u, i, bs, ds, k)
    requires Mine(G, i, bs[k]) && Roomy(MetaOf(bs, k), i, bs[k]) && bs[k] !in bs[..k]
    requires Reserve(AS_WRITTEN, 4, i, 8, MetaOf(bs, k), bs[k]) == (MetaOf(bs, k + 1), k)
    ensures Shaped(G, AfterSmall(u, i, bs[k], ds[k])) && FilledTo(s, AfterSmall(u, i, bs[k], ds[k]), i, bs, ds, k + 1)
  {
    hide Mod, Div, Reserve, Route, MetaOf;
    var t := AfterSmall(u, i, bs[k], ds[k]);
    assert t.segs == s.segs[i := t.segs[i]];
    assert bs[..k + 1] == bs[..k] + [bs[k]];
  }

  lemma NotFull(bs: seq<nat>, k: nat)
    requires k < 8 && k < |bs| && bs[k] !in IndexOf(bs, k)
    ensures BlockTest(8, MetaOf(bs, k), bs[k]).None? && !Full(8, MetaOf(bs, k)) && MetaOf(bs, k).nextBit < 8 && Findable(8, MetaOf(bs, k))
  {
    assert k < Bits(8) && k !in MetaOf(bs, k).bitmap;
  }

  // ----- migrating a segment -----

  /** The state after one thread has moved block b, in a round of segment i with nothing held: the
      slot and the header are those of segment 0. */
  ghost function AfterMove(s: State, i: nat, b: nat): State
    requires Moving(s, i) && b in s.segs[i].meta.index
  {
    var c := s.segs[i];
    var o := c.meta.index[b];
    var a := s.segs[0].(headers := Invalidate(s.segs[0].headers, o));
    var segs := s.segs[0 := a];
    var d := segs[i].(meta := c.meta.(index := c.meta.index - {b}, used := c.meta.used - 1));
    s.(segs := segs[i := d], ssd := s.ssd[b := s.segs[0].slots[o]])
  }

  /** A round of segment i, between two entries. */
  ghost predicate Moving(s: State, i: nat) {
    && Shaped(G, s) && i < 4
    && s.segs[i].pc.Migrate? && s.segs[i].pc.held == map[] && s.segs[i].pc.copied == {} && s.segs[i].pc.spent == 0
    && forall b :: b in s.segs[i].meta.index ==> b < 256 && s.segs[i].meta.index[b] < 8
  }

  /** Half way: the block is on the SSD, and its entry is held. */
  ghost function Halfway(s: State, i: nat, b: nat): State
    requires Moving(s, i) && b in s.segs[i].meta.index
  {
    var c := s.segs[i];
    var o := c.meta.index[b];
    var d := c.(meta := c.meta.(index := c.meta.index - {b}), pc := c.pc.(held := c.pc.held[b := o], copied := c.pc.copied + {b}));
    s.(segs := s.segs[i := d], ssd := s.ssd[b := s.segs[0].slots[o]])
  }

  lemma MoveCopy(s: State, i: nat, b: nat) returns (es: seq<Step>)
    requires Moving(s, i) && b in s.segs[i].meta.index
    ensures Run(AS_WRITTEN, G, s, es, Halfway(s, i, b))
  {
    hide Run, Route, Mod, Div;
    var a := Do(AS_WRITTEN, G, s, Pop(i, b));
    Start(AS_WRITTEN, G, s);
    Then(AS_WRITTEN, G, s, [], s, Pop(i, b));
    Then(AS_WRITTEN, G, s, [] + [Pop(i, b)], a, Copy(i, b));
    es := [] + [Pop(i, b)] + [Copy(i, b)];
    var t, u := Do(AS_WRITTEN, G, a, Copy(i, b)), Halfway(s, i, b);
    assert t.segs[i] == u.segs[i];
    assert t.segs == u.segs;
  }

  lemma MoveWipe(s: State, i: nat, b: nat) returns (es: seq<Step>)
    requires Moving(s, i) && b in s.segs[i].meta.index
    ensures Run(AS_WRITTEN, G, Halfway(s, i, b), es, AfterMove(s, i, b)) && Moving(AfterMove(s, i, b), i)
  {
    hide Run, Route, Mod, Div;
    var d := Halfway(s, i, b);
    var w := Do(AS_WRITTEN, G, d, Wipe(i, b));
    Start(AS_WRITTEN, G, d);
    Then(AS_WRITTEN, G, d, [], d, Wipe(i, b));
    Then(AS_WRITTEN, G, d, [] + [Wipe(i, b)], w, Uncount(i));
    es := [] + [Wipe(i, b)] + [Uncount(i)];
    var t, u := Do(AS_WRITTEN, G, w, Uncount(i)), AfterMove(s, i, b);
    assert t.segs[i] == u.segs[i];
    assert t.segs == u.segs;
  }

  lemma MoveBlock(s: State, i: nat, b: nat) returns (es: seq<Step>)
    requires Moving(s, i) && b in s.segs[i].meta.index
    ensures Run(AS_WRITTEN, G, s, es, AfterMove(s, i, b)) && Moving(AfterMove(s, i, b), i)
  {
    hide Run, Moving;
    var fs := MoveCopy(s, i, b);
    var gs := MoveWipe(s, i, b);
    Join(AS_WRITTEN, G, s, fs, Halfway(s, i, b), gs, AfterMove(s, i, b));
    es := fs + gs;
  }

  /** From s to t segment i has moved the blocks that its index has lost, and nothing else is new. */
  ghost predicate Moved(s: State, t: State, i: nat)
    requires Moving(s, i) && Moving(t, i)
  {
    && MovedFrame(s, t, i) && MovedMeta(s.segs[i].meta, t.segs[i].meta)
    && MovedMedia(s, s.segs[i].meta.index, t.segs[i].meta.index, t.ssd, t.segs[0].headers)
  }

  ghost predicate MovedFrame(s: State, t: State, i: nat)
    requires Moving(s, i) && Moving(t, i)
  {
    && t == s.(segs := t.segs, ssd := t.ssd)
    && t.segs[i] == s.segs[i].(headers := t.segs[i].headers, meta := t.segs[i].meta)
    && (i != 0 ==> t.segs[i].headers == s.segs[i].headers && t.segs[0] == s.segs[0].(headers := t.segs[0].headers))
    && forall k :: 0 < k < 4 && k != i ==> t.segs[k] == s.segs[k]
  }

  predicate MovedMeta(m: Meta, n: Meta) {
    && n == m.(index := n.index, used := m.used - (|m.index| - |n.index|))
    && forall b :: b in n.index ==> b in m.index && n.index[b] == m.index[b]
  }

  ghost predicate MovedMedia(s: State, before: map<nat, nat>, after: map<nat, nat>, ssd: seq<Cell>, headers: seq<Header>)
    requires Shaped(G, s) && |ssd| == 256 && |headers| == 8
    requires forall b :: b in before ==> b < 256 && before[b] < 8
  {
    && (forall b :: b in before && b !in after ==> ssd[b] == s.segs[0].slots[before[b]] && !headers[before[b]].valid)
    && (forall b: nat :: b < 256 && (b !in before || b in after) ==> ssd[b] == s.ssd[b])
    && forall o :: 0 <= o < 8 && !s.segs[0].headers[o].valid ==> !headers[o].valid
  }

  lemma MovedNone(s: State, i: nat)
    requires Moving(s, i)
    ensures Moved(s, s, i)
  {
  }

  lemma MovedMore(s: State, t: State, i: nat, b: nat)
    requires Moving(s, i) && Moving(t, i) && Moved(s, t, i) && b in t.segs[i].meta.index && Moving(AfterMove(t, i, b), i)
    ensures Moved(s, AfterMove(t, i, b), i)
    ensures |AfterMove(t, i, b).segs[i].meta.index| == |t.segs[i].meta.index| - 1
  {
    hide AfterMove, MovedMedia, MovedFrame, MovedMeta;
    MoreFrame(s, t, i, b);
    MoreMedia(s, t, i, b);
    MoreMeta(s, t, i, b);
  }

  lemma MoreMeta(s: State, t: State, i: nat, b: nat)
    requires Moving(s, i) && Moving(t, i) && MovedMeta(s.segs[i].meta, t.segs[i].meta) && b in t.segs[i].meta.index
    ensures var d := AfterMove(t, i, b); |d.segs| == 4 && MovedMeta(s.segs[i].meta, d.segs[i].meta)
    ensures |AfterMove(t, i, b).segs[i].meta.index| == |t.segs[i].meta.index| - 1
  {
    RemoveOne(t.segs[i].meta.index, b);
  }

  lemma MoreFrame(s: State, t: State, i: nat, b: nat)
    requires Moving(s, i) && Moving(t, i) && MovedFrame(s, t, i) && b in t.segs[i].meta.index && Moving(AfterMove(t, i, b), i)
    ensures MovedFrame(s, AfterMove(t, i, b), i)
  {
  }

  lemma MoreMedia(s: State, t: State, i: nat, b: nat)
    requires Moving(s, i) && Moving(t, i) && Moved(s, t, i) && b in t.segs[i].meta.index && Moving(AfterMove(t, i, b), i)
    ensures var u := AfterMove(t, i, b); MovedMedia(s, s.segs[i].meta.index, u.segs[i].meta.index, u.ssd, u.segs[0].headers)
  {
    hide MovedMedia, Invalidate, Route;
    var index, o := t.segs[i].meta.index, t.segs[i].meta.index[b];
    MediaMore(s, s.segs[i].meta.index, index, t.ssd, t.segs[0].headers, b);
    assert AfterMove(t, i, b).segs[0].headers == Invalidate(t.segs[0].headers, o);
  }

  lemma MediaMore(s: State, before: map<nat, nat>, index: map<nat, nat>, ssd: seq<Cell>, headers: seq<Header>, b: nat)
    requires Shaped(G, s) && |ssd| == 256 && |headers| == 8 && b in index
    requires (forall k :: k in before ==> k < 256 && before[k] < 8) && forall k :: k in index ==> k in before && index[k] == before[k]
    requires MovedMedia(s, before, index, ssd, headers)
    ensures MovedMedia(s, before, index - {b}, ssd[b := s.segs[0].slots[index[b]]], Invalidate(headers, index[b]))
  {
    hide Route;
  }

  lemma {:induction false} MoveAll(s: State, t: State, i: nat) returns (es: seq<Step>, u: State)
    requires Moving(s, i) && Moving(t, i) && Moved(s, t, i)
    ensures Run(AS_WRITTEN, G, t, es, u) && Moving(u, i) && Moved(s, u, i) && u.segs[i].meta.index == map[]
    decreases |t.segs[i].meta.index|
  {
    hide Run, Moved, AfterMove, Mod, Div;
    if t.segs[i].meta.index == map[] {
      es, u := [], t;
      Start(AS_WRITTEN, G, t);
    } else {
      var b :| b in t.segs[i].meta.index;
      var m := AfterMove(t, i, b);
      var fs := MoveBlock(t, i, b);
      MovedMore(s, t, i, b);
      var gs;
      gs, u := MoveAll(s, m, i);
      Join(AS_WRITTEN, G, t, fs, m, gs, u);
      es := fs + gs;
    }
  }

  // ----- a small write that needs a round first -----

  /** A full segment of which the flag says that its queue is empty. */
  ghost predicate FullAndFlagged(s: State, i: nat, b: nat) {
    && Shaped(G, s) && i < 4 && Mine(G, i, b) && s.segs[i].pc.Idle? && s.segs[i].empty
    && b !in s.segs[i].meta.index && s.segs[i].meta.used == |s.segs[i].meta.index| == 8 && s.segs[i].meta.nextBit < 8
    && forall k :: k in s.segs[i].meta.index ==> k < 256 && s.segs[i].meta.index[k] < 8
  }

  /** From the write's arrival to the start of the round. */
  lemma UntilRound(s: State, i: nat, b: nat, x: Data) returns (es: seq<Step>, t: State)
    requires FullAndFlagged(s, i, b)
    ensures Run(AS_WRITTEN, G, s, es, t) && Moving(t, i)
    ensures t == s.(segs := s.segs[i := s.segs[i].(pc := Migrate(b, Cell(x, s.clock), map[], {}, 0))], clock := s.clock + 1)
  {
    hide Run, Route, Mod, Div, Reserve;
    var a := BeginSmall(s, i, b, x);
    Start(AS_WRITTEN, G, s);
    Then(AS_WRITTEN, G, s, [], s, BeginWrite(i, b, [x]));
    var w := Do(AS_WRITTEN, G, a, Lookup(i));
    Then(AS_WRITTEN, G, s, [] + [BeginWrite(i, b, [x])], a, Lookup(i));
    Then(AS_WRITTEN, G, s, [] + [BeginWrite(i, b, [x])] + [Lookup(i)], w, Drain(i));
    es := [] + [BeginWrite(i, b, [x])] + [Lookup(i)] + [Drain(i)];
    t := Do(AS_WRITTEN, G, w, Drain(i));
  }

  /** From the round's end to the write's. */
  lemma AfterRound(s: State, i: nat, b: nat) returns (es: seq<Step>, t: State)
    requires Moving(s, i) && s.segs[i].meta.index == map[] && s.segs[i].meta.used == 0 && s.segs[i].pc.b == b < 256
    ensures Run(AS_WRITTEN, G, s, es, t) && Shaped(G, t)
    ensures var c, cell := s.segs[i], s.segs[i].pc.cell;
            t == s.(segs := s.segs[i := Seg(Meta(map[b := 0], {0}, 0, 1), c.slots[0 := cell], c.headers[0 := Header(true, b)], c.queue, c.exec, c.empty, Idle)],
                    abs := s.abs[b := cell], done := s.done[b := cell])
  {
    hide Run, Route, Mod, Div, Reserve, BlockTest, Full;
    var w := Do(AS_WRITTEN, G, s, EndRound(i));
    assert w.segs[i].meta == EMPTY;
    EmptyIsRoomy(i, b);
    var fs := LookRun(w, i);
    t := AfterPut(w, i, b, w.segs[i].pc.cell);
    Start(AS_WRITTEN, G, s);
    Then(AS_WRITTEN, G, s, [], s, EndRound(i));
    Join(AS_WRITTEN, G, s, [] + [EndRound(i)], w, fs, t);
    es := [] + [EndRound(i)] + fs;
  }

  /** What the write and its round leave: every block that was buffered has on the SSD what segment 0
      had in its slot, and segment 0's headers of these slots are invalid. */
  ghost predicate RoundDone(s: State, t: State, i: nat, b: nat, cell: Cell)
    requires FullAndFlagged(s, i, b) && Shaped(G, t)
  {
    var c, d, index := s.segs[i], t.segs[i], s.segs[i].meta.index;
    && d.meta == Meta(map[b := 0], {0}, 0, 1) && d.queue == c.queue && d.exec == c.exec && d.pc.Idle?
    && d.headers[0] == Header(true, b)
    && t.abs == s.abs[b := cell] && t.done == s.done[b := cell]
    && (forall k :: k in index ==> t.ssd[k] == s.segs[0].slots[index[k]])
    && (forall k :: k in index && (i != 0 || index[k] != 0) ==> !t.segs[0].headers[index[k]].valid)
    && (i != 0 ==> d.headers == c.headers[0 := Header(true, b)])
    && (forall k: nat :: k < 256 && k !in index ==> t.ssd[k] == s.ssd[k])
    && (i != 0 ==> t.segs[0] == s.segs[0].(headers := t.segs[0].headers))
    && forall o :: 0 < o < 8 && !s.segs[0].headers[o].valid ==> !t.segs[0].headers[o].valid
  }

  lemma RoundRun(s: State, i: nat, b: nat, x: Data) returns (es: seq<Step>, t: State)
    requires FullAndFlagged(s, i, b)
    ensures Run(AS_WRITTEN, G, s, es, t) && Shaped(G, t) && RoundDone(s, t, i, b, Cell(x, s.clock))
  {
    hide Run, Route, Mod, Div, RoundDone, Moved;
    var fs, a := UntilRound(s, i, b, x);
    MovedNone(a, i);
    var gs, u := MoveAll(a, a, i);
    MovedEnd(a, u, i);
    var hs;
    hs, t := AfterRound(u, i, b);
    Join(AS_WRITTEN, G, a, gs, u, hs, t);
    Join(AS_WRITTEN, G, s, fs, a, gs + hs, t);
    es := fs + (gs + hs);
    RoundAdds(s, a, u, t, i, b, x);
  }

  lemma MovedEnd(s: State, t: State, i: nat)
    requires Moving(s, i) && Moving(t, i) && Moved(s, t, i) && t.segs[i].meta.index == map[]
    ensures t.segs[i].meta.used == s.segs[i].meta.used - |s.segs[i].meta.index| && t.segs[i].pc == s.segs[i].pc
  {
    hide MovedMedia;
  }

  lemma RoundAdds(s: State, a: State, u: State, t: State, i: nat, b: nat, x: Data)
    requires FullAndFlagged(s, i, b) && Moving(a, i) && Moving(u, i) && Moved(a, u, i) && u.segs[i].meta.index == map[] && Shaped(G, t)
    requires a == s.(segs := s.segs[i := s.segs[i].(pc := Migrate(b, Cell(x, s.clock), map[], {}, 0))], clock := s.clock + 1)
    requires var c, cell := u.segs[i], u.segs[i].pc.cell;
             t == u.(segs := u.segs[i := Seg(Meta(map[b := 0], {0}, 0, 1), c.slots[0 := cell], c.headers[0 := Header(true, b)], c.queue, c.exec, c.empty, Idle)],
                     abs := u.abs[b := cell], done := u.done[b := cell])
    ensures RoundDone(s, t, i, b, Cell(x, s.clock))
  {
    hide Mine, MovedMeta;
  }

  // ----- a large write of two blocks -----

  function Two(x: Data, y: Data, stamp: nat): seq<Cell> {
    [Cell(x, stamp), Cell(y, stamp)]
  }

  lemma BeginLarge(s: State, i: nat, off: nat, x: Data, y: Data) returns (t: State)
    requires Shaped(G, s) && i < 4 && Mine(G, i, off) && Mine(G, i, off + 1) && s.segs[i].pc.Idle?
    ensures Run(AS_WRITTEN, G, s, [BeginWrite(i, off, [x, y])], t) && Shaped(G, t)
    ensures var c, cells := s.segs[i], Two(x, y, s.clock);
            t == s.(segs := s.segs[i := c.(queue := c.queue + [Write(off, cells)], pc := Clear(off, cells, 0))], clock := s.clock + 1)
  {
    hide Route, Mod, Div;
    var e := BeginWrite(i, off, [x, y]);
    t := Do(AS_WRITTEN, G, s, e);
    assert t.segs[i].pc.cells == Two(x, y, s.clock);
    assert [e][1..] == [];
  }

  lemma ClearsOne(s: State, i: nat) returns (t: State)
    requires Shaped(G, s) && i < 4 && s.segs[i].pc.Clear? && s.segs[i].pc.k < |s.segs[i].pc.cells|
    requires var b := s.segs[i].pc.off + s.segs[i].pc.k; b in s.segs[i].meta.index && s.segs[i].meta.index[b] < 8
    ensures Run(AS_WRITTEN, G, s, [ClearNext(i)], t) && Shaped(G, t)
    ensures var c := s.segs[i];
            var b := c.pc.off + c.pc.k;
            t == s.(segs := s.segs[i := c.(headers := Invalidate(c.headers, c.meta.index[b]),
                                           meta := c.meta.(index := c.meta.index - {b}, bitmap := c.meta.bitmap - {c.meta.index[b]}, used := c.meta.used - 1),
                                           pc := Clear(c.pc.off, c.pc.cells, c.pc.k + 1))])
  {
    hide Route, Div;
    var c := s.segs[i];
    ModOnce(c.meta.index[c.pc.off + c.pc.k], 8);
    t := Do(AS_WRITTEN, G, s, ClearNext(i));
    assert [ClearNext(i)][1..] == [];
  }

  lemma ClearEnds(s: State, i: nat) returns (t: State)
    requires Shaped(G, s) && i < 4 && s.segs[i].pc.Clear?
    requires s.segs[i].pc.k < |s.segs[i].pc.cells| ==> s.segs[i].pc.off + s.segs[i].pc.k !in s.segs[i].meta.index
    ensures Run(AS_WRITTEN, G, s, [ClearNext(i)], t) && Shaped(G, t)
    ensures var c := s.segs[i];
            t == s.(segs := s.segs[i := c.(pc := Idle)], abs := PutRange(s.abs, c.pc.off, c.pc.cells))
  {
    hide Route, Div, Mod;
    t := Do(AS_WRITTEN, G, s, ClearNext(i));
    assert [ClearNext(i)][1..] == [];
  }

  // ----- the first block of a segment -----

  /** A small write into an empty segment. */
  lemma FirstSmall(s: State, i: nat, b: nat, x: Data) returns (es: seq<Step>, t: State)
    requires Shaped(G, s) && i < 4 && Mine(G, i, b) && s.segs[i].pc.Idle? && s.segs[i].meta == EMPTY
    ensures Run(AS_WRITTEN, G, s, es, t) && Shaped(G, t)
    ensures var c, cell := s.segs[i], Cell(x, s.clock);
            t == State(s.segs[i := Seg(Meta(map[b := 0], {0}, 0, 1), c.slots[0 := cell], c.headers[0 := Header(true, b)], c.queue, c.exec, c.empty, Idle)],
                       s.ssd, s.reqs, s.clock + 1, s.abs[b := cell], s.done[b := cell])
  {
    hide Run, Reserve, Mod, Div, BlockTest, Full;
    EmptyIsRoomy(i, b);
    es := SmallRun(s, i, b, x);
    t := AfterSmall(s, i, b, x);
  }

  lemma EmptyIsRoomy(i: nat, b: nat)
    requires i < 4 && b < 256
    ensures Roomy(EMPTY, i, b) && Reserve(AS_WRITTEN, 4, i, 8, EMPTY, b) == (Meta(map[b := 0], {0}, 0, 1), 0)
  {
    hide Reserve;
    NextSlot(i, [b], 0);
    NotFull([b], 0);
    assert Range(0, 0) == {} && Range(0, 1) == {0};
    assert MetaOf([b], 0) == EMPTY;
  }

  lemma FormattedIs(content: seq<Data>)
    requires |content| == 256
    ensures Init(G, Formatted(G, content)) && Shaped(G, Formatted(G, content))
    ensures forall b: nat :: b < 256 ==> Formatted(G, content).ssd[b].data == content[b]
  {
  }

  // ----- the runs -----

  /** mix_clear_block returns at a block that is not buffered: block 1 stays buffered under a large
      write of blocks 0 and 1, which has been processed, and is read from its old slot for good. */
  lemma PartlyBuffered(content: seq<Data>, first: Data, x: Data, y: Data) returns (es: seq<Step>, t: State)
    requires |content| == 256
    ensures Run(AS_WRITTEN, G, Formatted(G, content), es, t) && Shaped(G, t) && t.segs[0].pc.Idle?
    ensures t.abs[1].data == y && Seen(G, t, 1).data == first && View(G, t, 1).data == first && Recovery(G, t, 1).data == first
  {
    hide Mod, Div, Run;
    var s := Formatted(G, content);
    FormattedIs(content);
    Routes();
    var fs, u := FirstSmall(s, 0, 1, first);
    var v := BeginLarge(u, 0, 0, x, y);
    t := ClearEnds(v, 0);
    Join(AS_WRITTEN, G, u, [BeginWrite(0, 0, [x, y])], v, [ClearNext(0)], t);
    Join(AS_WRITTEN, G, s, fs, u, [BeginWrite(0, 0, [x, y])] + [ClearNext(0)], t);
    es := fs + ([BeginWrite(0, 0, [x, y])] + [ClearNext(0)]);
    SeenInSlot(t, 0, 1, 0);
  }

  /** The blocks below belong to these segments. */
  lemma Routes()
    ensures Mine(G, 0, 0) && Mine(G, 0, 1) && Mine(G, 0, 2) && Mine(G, 0, 3) && Mine(G, 0, 32) && Mine(G, 1, 4) && Mine(G, 1, 36)
  {
    hide Mod, Div;
    BlocksRoute(0, 0);
    BlocksRoute(0, 1);
    BlocksRoute(0, 2);
    BlocksRoute(0, 3);
    BlocksRoute(0, 8);
    BlocksRoute(1, 0);
    BlocksRoute(1, 8);
  }

  /** A block whose slot o the index, the bitmap and one header name. */
  lemma SeenInSlot(s: State, i: nat, b: nat, o: nat)
    requires Shaped(G, s) && Mine(G, i, b) && o < 8 && b in s.segs[i].meta.index && s.segs[i].meta.index[b] == o && o in s.segs[i].meta.bitmap
    requires forall q :: 0 <= q < 8 ==> (s.segs[i].headers[q] == Header(true, b) <==> q == o)
    ensures Seen(G, s, b) == View(G, s, b) == Recovery(G, s, b) == s.segs[i].slots[o]
  {
    hide Route, Div;
    ModOnce(o, 8);
    var c := s.segs[i];
    assert c.headers[o] == Header(true, b);
    assert Holder(c.headers, b) == Some(o);
  }

  /** A block that neither the index nor a header names. */
  lemma SeenOnSsd(s: State, i: nat, b: nat)
    requires Shaped(G, s) && Mine(G, i, b) && b !in s.segs[i].meta.index
    ensures Seen(G, s, b) == After(Pending(s.segs[i]), |Pending(s.segs[i])|, b, s.ssd[b])
    ensures (forall q :: 0 <= q < 8 ==> s.segs[i].headers[q] != Header(true, b)) ==> View(G, s, b) == Seen(G, s, b) && Recovery(G, s, b) == s.ssd[b]
  {
    hide Route, Div, Mod, After;
  }

  /** The first block of a large write is cleared from the buffer before the SSD has it: a power
      failure now brings back what the SSD had before both writes. */
  lemma ClearedFirst(content: seq<Data>, first: Data, x: Data, y: Data) returns (es: seq<Step>, t: State)
    requires |content| == 256
    ensures Run(AS_WRITTEN, G, Formatted(G, content), es, t) && Shaped(G, t)
    ensures t.done[0].data == first && Recovery(G, t, 0).data == content[0]
  {
    hide Mod, Div, Run;
    var s := Formatted(G, content);
    FormattedIs(content);
    Routes();
    var fs, u := FirstSmall(s, 0, 0, first);
    var v := BeginLarge(u, 0, 0, x, y);
    t := ClearsOne(v, 0);
    Join(AS_WRITTEN, G, u, [BeginWrite(0, 0, [x, y])], v, [ClearNext(0)], t);
    Join(AS_WRITTEN, G, s, fs, u, [BeginWrite(0, 0, [x, y])] + [ClearNext(0)], t);
    es := fs + ([BeginWrite(0, 0, [x, y])] + [ClearNext(0)]);
    assert t.segs[0].headers[0] == Header(false, 0);
    SeenOnSsd(t, 0, 0);
  }

  /** The other way round: the SSD has the first block of the large write, and power fails before the
      loop has cleared the block's slot, which is then found again with the older content. */
  lemma StoredFirst(content: seq<Data>, first: Data, x: Data, y: Data) returns (es: seq<Step>, t: State)
    requires |content| == 256
    ensures Run(AS_WRITTEN, G, Formatted(G, content), es, t) && Shaped(G, t)
    ensures t.done[0].data == x && Recovery(G, t, 0).data == first
  {
    hide Mod, Div, Run;
    var s := Formatted(G, content);
    FormattedIs(content);
    Routes();
    var fs, u := FirstSmall(s, 0, 0, first);
    var v := BeginLarge(u, 0, 0, x, y);
    t := FetchedStored(v, 0, 0, Two(x, y, u.clock));
    Join(AS_WRITTEN, G, u, [BeginWrite(0, 0, [x, y])], v, [Fetch(0)] + [Transfer(0)], t);
    Join(AS_WRITTEN, G, s, fs, u, [BeginWrite(0, 0, [x, y])] + ([Fetch(0)] + [Transfer(0)]), t);
    es := fs + ([BeginWrite(0, 0, [x, y])] + ([Fetch(0)] + [Transfer(0)]));
    SeenInSlot(t, 0, 0, 0);
  }

  /** The SSD worker takes the one queued write and stores its first block. */
  lemma FetchedStored(s: State, i: nat, off: nat, cells: seq<Cell>) returns (t: State)
    requires Shaped(G, s) && i < 4 && s.segs[i].exec.Resting? && !s.segs[i].empty && s.segs[i].queue == [Write(off, cells)]
    requires cells != [] && off < 256
    ensures Run(AS_WRITTEN, G, s, [Fetch(i)] + [Transfer(i)], t) && Shaped(G, t)
    ensures t == s.(segs := s.segs[i := s.segs[i].(queue := [], exec := Storing(off + 1, cells[1..]))],
                    ssd := s.ssd[off := cells[0]], done := s.done[off := Newer(cells[0], s.done[off])])
  {
    hide Run, Route, Mod, Div;
    var m := Do(AS_WRITTEN, G, s, Fetch(i));
    Start(AS_WRITTEN, G, s);
    Then(AS_WRITTEN, G, s, [], s, Fetch(i));
    Then(AS_WRITTEN, G, s, [] + [Fetch(i)], m, Transfer(i));
    assert [] + [Fetch(i)] == [Fetch(i)];
    t := Do(AS_WRITTEN, G, m, Transfer(i));
    assert t.segs[i] == s.segs[i].(queue := [], exec := Storing(off + 1, cells[1..]));
  }

  /** The SSD worker finds its queue empty and says so. */
  lemma FlagRaised(s: State, i: nat) returns (t: State)
    requires Shaped(G, s) && i < 4 && s.segs[i].exec.Resting? && s.segs[i].queue == []
    ensures Run(AS_WRITTEN, G, s, [Fetch(i)] + [Raise(i)], t) && Shaped(G, t)
    ensures t == s.(segs := s.segs[i := s.segs[i].(empty := true)])
  {
    hide Run, Mod, Div;
    var m := Do(AS_WRITTEN, G, s, Fetch(i));
    Start(AS_WRITTEN, G, s);
    Then(AS_WRITTEN, G, s, [], s, Fetch(i));
    Then(AS_WRITTEN, G, s, [] + [Fetch(i)], m, Raise(i));
    assert [] + [Fetch(i)] == [Fetch(i)];
    t := Do(AS_WRITTEN, G, m, Raise(i));
  }

  /** migrate leaves out the segment's base: a round of segment 1 copies the slots of segment 0 over
      segment 1's blocks on the SSD, and invalidates segment 0's headers. */
  lemma MissingBase(content: seq<Data>, x: Data, ds: seq<Data>, y: Data) returns (es: seq<Step>, t: State)
    requires |content| == 256 && |ds| == 8
    ensures Run(AS_WRITTEN, G, Formatted(G, content), es, t) && Shaped(G, t) && t.segs[0].pc.Idle? && t.segs[1].pc.Idle?
    ensures t.abs[4].data == ds[0] && Seen(G, t, 4).data == x && View(G, t, 4).data == x
    ensures t.done[0].data == x && Recovery(G, t, 0).data == content[0]
  {
    hide Mod, Div, Run, FilledTo, FullAndFlagged, RoundDone;
    var s := Formatted(G, content);
    FormattedIs(content);
    Routes();
    var fs, a := FirstSmall(s, 0, 0, x);
    var u := FlagRaised(a, 1);
    var gs, v := Fill(u, 1, ds, 8);
    ReadyForRound(u, v, 1, ds);
    var hs;
    hs, t := RoundRun(v, 1, 36, y);
    Join(AS_WRITTEN, G, u, gs, v, hs, t);
    Join(AS_WRITTEN, G, a, [Fetch(1)] + [Raise(1)], u, gs + hs, t);
    Join(AS_WRITTEN, G, s, fs, a, [Fetch(1)] + [Raise(1)] + (gs + hs), t);
    es := fs + ([Fetch(1)] + [Raise(1)] + (gs + hs));
    BaseLost(s, u, v, t, x, ds, y);
    HeaderLost(s, u, v, t, x, ds, y);
  }

  /** What one block that was buffered has come to. */
  lemma RoundMoves(v: State, t: State, i: nat, b: nat, cell: Cell, k: nat)
    requires FullAndFlagged(v, i, b) && Shaped(G, t) && RoundDone(v, t, i, b, cell) && k in v.segs[i].meta.index
    ensures k < 256 && v.segs[i].meta.index[k] < 8 && t.ssd[k] == v.segs[0].slots[v.segs[i].meta.index[k]] && t.abs[k] == v.abs[k]
    ensures t.segs[i].pc.Idle? && k !in t.segs[i].meta.index && Pending(t.segs[i]) == Pending(v.segs[i])
    ensures i != 0 || v.segs[i].meta.index[k] != 0 ==> !t.segs[0].headers[v.segs[i].meta.index[k]].valid
  {
    hide Mine;
  }

  /** What Fill leaves of the j-th block. */
  lemma Filled(u: State, v: State, i: nat, ds: seq<Data>, j: nat)
    requires Shaped(G, u) && Shaped(G, v) && i < 4 && |ds| == 8 && j < 8 && FilledTo(u, v, i, Blocks(i), ds, 8)
    ensures var b := Blocks(i)[j];
            && b in v.segs[i].meta.index && v.segs[i].meta.index[b] == j && v.segs[i].headers[j] == Header(true, b)
            && v.segs[i].slots[j].data == ds[j] && b < 256 && v.abs[b].data == ds[j]
    ensures Pending(v.segs[i]) == Pending(u.segs[i])
  {
    hide Range;
    IndexIs(Blocks(i), 8);
  }

  /** After a round of segment i no header of it names its block in slot j. */
  lemma NoHeader(u: State, v: State, t: State, i: nat, ds: seq<Data>, cell: Cell, j: nat)
    requires Shaped(G, u) && Shaped(G, v) && Shaped(G, t) && i < 4 && |ds| == 8 && j < 8 && (i == 0 || j == 0)
    requires FilledTo(u, v, i, Blocks(i), ds, 8) && FullAndFlagged(v, i, Blocks(i)[8]) && RoundDone(v, t, i, Blocks(i)[8], cell)
    ensures forall q :: 0 <= q < 8 ==> t.segs[i].headers[q] != Header(true, Blocks(i)[j])
  {
    hide RoundDone, FullAndFlagged, FilledTo;
    var bs := Blocks(i);
    forall q | 0 <= q < 8 ensures t.segs[i].headers[q] != Header(true, bs[j]) {
      Filled(u, v, i, ds, q);
      RoundMoves(v, t, i, bs[8], cell, bs[q]);
      RoundHeaders(v, t, i, bs[8], cell);
    }
  }

  lemma RoundHeaders(v: State, t: State, i: nat, b: nat, cell: Cell)
    requires FullAndFlagged(v, i, b) && Shaped(G, t) && RoundDone(v, t, i, b, cell)
    ensures t.segs[i].headers[0] == Header(true, b)
    ensures i != 0 ==> t.segs[i].headers == v.segs[i].headers[0 := Header(true, b)]
  {
    hide Mine;
  }

  lemma BaseLost(s: State, u: State, v: State, t: State, x: Data, ds: seq<Data>, y: Data)
    requires Init(G, s) && Shaped(G, u) && Shaped(G, v) && Shaped(G, t) && |ds| == 8
    requires BaseStart(s, u, x)
    requires FilledTo(u, v, 1, Blocks(1), ds, 8) && FullAndFlagged(v, 1, 36) && RoundDone(v, t, 1, 36, Cell(y, v.clock))
    ensures t.abs[4].data == ds[0] && Seen(G, t, 4).data == x && View(G, t, 4).data == x
  {
    hide Mod, Div, Route, FullAndFlagged, RoundDone, FilledTo, View;
    Routes();
    Filled(u, v, 1, ds, 0);
    RoundMoves(v, t, 1, 36, Cell(y, v.clock), 4);
    NoHeader(u, v, t, 1, ds, Cell(y, v.clock), 0);
    FillsOnly(u, v, 1, ds);
    SeenOnSsd(t, 1, 4);
    assert Pending(t.segs[1]) == [];
  }

  /** Segment 0 has block 0, segment 1 nothing, and its flag is up. */
  ghost predicate BaseStart(s: State, u: State, x: Data)
    requires Init(G, s) && Shaped(G, u)
  {
    var c, cell := s.segs[0], Cell(x, s.clock);
    && u.segs[0] == Seg(Meta(map[0 := 0], {0}, 0, 1), c.slots[0 := cell], c.headers[0 := Header(true, 0)], c.queue, c.exec, c.empty, Idle)
    && u.segs[1] == s.segs[1].(empty := true) && u.ssd == s.ssd && u.done[0] == cell
  }

  /** Fill changes its own segment only. */
  lemma FillsOnly(u: State, v: State, i: nat, ds: seq<Data>)
    requires Shaped(G, u) && Shaped(G, v) && i < 4 && |ds| == 8 && FilledTo(u, v, i, Blocks(i), ds, 8)
    ensures forall b: nat :: b < 256 && b !in Blocks(i)[..8] ==> b !in v.segs[i].meta.index
    ensures v.ssd == u.ssd && forall k :: 0 <= k < 4 && k != i ==> v.segs[k] == u.segs[k]
    ensures forall b: nat :: b < 256 && b !in Blocks(i)[..8] ==> v.done[b] == u.done[b]
  {
    IndexIs(Blocks(i), 8);
  }

  lemma HeaderLost(s: State, u: State, v: State, t: State, x: Data, ds: seq<Data>, y: Data)
    requires Init(G, s) && Shaped(G, u) && Shaped(G, v) && Shaped(G, t) && |ds| == 8
    requires BaseStart(s, u, x)
    requires FilledTo(u, v, 1, Blocks(1), ds, 8) && FullAndFlagged(v, 1, 36) && RoundDone(v, t, 1, 36, Cell(y, v.clock))
    ensures t.segs[0].pc.Idle? && t.segs[1].pc.Idle?
    ensures t.done[0].data == x && Recovery(G, t, 0) == s.ssd[0]
  {
    hide Mod, Div, Route, FullAndFlagged, FilledTo, RoundDone;
    Routes();
    Filled(u, v, 1, ds, 0);
    FillsOnly(u, v, 1, ds);
    RoundMoves(v, t, 1, 36, Cell(y, v.clock), 4);
    RoundKeeps(v, t, 1, 36, Cell(y, v.clock), 0);
    var h := t.segs[0].headers;
    forall q | 0 <= q < 8 ensures h[q] != Header(true, 0) {
      assert q > 0 ==> !v.segs[0].headers[q].valid;
    }
  }

  /** What a round of another segment does to segment 0, and to a block that it does not move. */
  lemma RoundKeeps(v: State, t: State, i: nat, b: nat, cell: Cell, k: nat)
    requires FullAndFlagged(v, i, b) && Shaped(G, t) && RoundDone(v, t, i, b, cell) && k < 256 && k !in v.segs[i].meta.index && k != b && i != 0
    ensures t.ssd[k] == v.ssd[k] && t.done[k] == v.done[k] && t.segs[i].pc.Idle?
    ensures t.segs[0] == v.segs[0].(headers := t.segs[0].headers)
    ensures forall o :: 0 < o < 8 && !v.segs[0].headers[o].valid ==> !t.segs[0].headers[o].valid
  {
    hide Mine;
  }

  lemma ReadyForRound(s: State, t: State, i: nat, ds: seq<Data>)
    requires Shaped(G, s) && Shaped(G, t) && i < 4 && |ds| == 8 && FilledTo(s, t, i, Blocks(i), ds, 8) && s.segs[i].empty
    ensures FullAndFlagged(t, i, Blocks(i)[8])
  {
    hide Mod, Div, Route;
    BlocksRoute(i, 8);
    IndexIs(Blocks(i), 8);
  }

  /** queue_empty is raised only by a worker that finds its queue empty, and lowered only by one that
      has taken a task: a round begins while a large write that was posted since is still pending over
      a buffered block, and will overwrite the newer content that the round has moved to the SSD. */
  lemma StaleFlag(content: seq<Data>, x: Data, y: Data, ds: seq<Data>, z: Data) returns (es: seq<Step>, t: State)
    requires |content| == 256 && |ds| == 8
    ensures Run(AS_WRITTEN, G, Formatted(G, content), es, t) && Shaped(G, t) && t.segs[0].pc.Idle?
    ensures t.abs[2].data == ds[2] && t.ssd[2].data == ds[2] && Seen(G, t, 2).data == x && View(G, t, 2).data == x
  {
    hide Mod, Div, Run, FilledTo, FullAndFlagged, RoundDone;
    var s := Formatted(G, content);
    FormattedIs(content);
    Routes();
    var u := FlagRaised(s, 0);
    var v := BeginLarge(u, 0, 2, x, y);
    var w := ClearEnds(v, 0);
    var gs, f := Fill(w, 0, ds, 8);
    ReadyForRound(w, f, 0, ds);
    var hs;
    hs, t := RoundRun(f, 0, 32, z);
    var ls := [BeginWrite(0, 2, [x, y])] + [ClearNext(0)];
    Join(AS_WRITTEN, G, u, [BeginWrite(0, 2, [x, y])], v, [ClearNext(0)], w);
    Join(AS_WRITTEN, G, w, gs, f, hs, t);
    Join(AS_WRITTEN, G, u, ls, w, gs + hs, t);
    Join(AS_WRITTEN, G, s, [Fetch(0)] + [Raise(0)], u, ls + (gs + hs), t);
    es := [Fetch(0)] + [Raise(0)] + (ls + (gs + hs));
    Overtaken(w, f, t, Two(x, y, u.clock), ds, z);
  }

  lemma Overtaken(u: State, v: State, t: State, cells: seq<Cell>, ds: seq<Data>, z: Data)
    requires Shaped(G, u) && Shaped(G, v) && Shaped(G, t) && |ds| == 8 && |cells| == 2
    requires u.segs[0].exec == Resting && u.segs[0].queue == [Write(2, cells)]
    requires FilledTo(u, v, 0, Blocks(0), ds, 8) && FullAndFlagged(v, 0, 32) && RoundDone(v, t, 0, 32, Cell(z, v.clock))
    ensures t.segs[0].pc.Idle?
    ensures t.abs[2].data == t.ssd[2].data == ds[2] && Seen(G, t, 2) == View(G, t, 2) == cells[0]
  {
    hide Mod, Div, Route, FullAndFlagged, RoundDone, FilledTo, View, Seen;
    Routes();
    Filled(u, v, 0, ds, 2);
    RoundMoves(v, t, 0, 32, Cell(z, v.clock), 2);
    NoHeader(u, v, t, 0, ds, Cell(z, v.clock), 2);
    SeenOnSsd(t, 0, 2);
    assert Pending(t.segs[0]) == [Write(2, cells)];
  }

  /** mix_write_redirect_blockmeta looks at the wrong bit: once a large write has freed slots 0 and 1
      of a segment whose search position has moved on to 1, a new block is stored in slot 1 and never
      indexed.  It is read from the SSD, and all bits are set in a segment that does not count as full. */
  lemma LostSmallWrite(content: seq<Data>, ds: seq<Data>, x: Data, y: Data, z: Data) returns (es: seq<Step>, t: State)
    requires |content| == 256 && |ds| == 8
    ensures Run(AS_WRITTEN, G, Formatted(G, content), es, t) && Shaped(G, t) && t.segs[0].pc.Idle?
    ensures t.abs[32].data == z && Seen(G, t, 32).data == content[32]
    ensures var m := t.segs[0].meta; !Full(8, m) && m.nextBit < 8 && 33 !in m.index && forall k: nat :: k < 8 ==> k in m.bitmap
  {
    hide Mod, Div, Run, FilledTo, Reserve, BlockTest, Full;
    var s := Formatted(G, content);
    FormattedIs(content);
    Routes();
    var fs, u := Fill(s, 0, ds, 8);
    Filled(s, u, 0, ds, 0);
    Filled(s, u, 0, ds, 1);
    ReadyForLoss(s, u, ds);
    var a := BeginLarge(u, 0, 0, x, y);
    var b := ClearsOne(a, 0);
    var c := ClearsOne(b, 0);
    var d := ClearEnds(c, 0);
    var gs := SmallRun(d, 0, 32, z);
    t := AfterSmall(d, 0, 32, z);
    Join(AS_WRITTEN, G, c, [ClearNext(0)], d, gs, t);
    Join(AS_WRITTEN, G, b, [ClearNext(0)], c, [ClearNext(0)] + gs, t);
    Join(AS_WRITTEN, G, a, [ClearNext(0)], b, [ClearNext(0)] + ([ClearNext(0)] + gs), t);
    Join(AS_WRITTEN, G, u, [BeginWrite(0, 0, [x, y])], a, [ClearNext(0)] + ([ClearNext(0)] + ([ClearNext(0)] + gs)), t);
    es := fs + ([BeginWrite(0, 0, [x, y])] + ([ClearNext(0)] + ([ClearNext(0)] + ([ClearNext(0)] + gs))));
    Join(AS_WRITTEN, G, s, fs, u, [BeginWrite(0, 0, [x, y])] + ([ClearNext(0)] + ([ClearNext(0)] + ([ClearNext(0)] + gs))), t);
    SeenOnSsd(t, 0, 32);
  }

  lemma ReadyForLoss(s: State, u: State, ds: seq<Data>)
    requires Shaped(G, s) && Shaped(G, u) && |ds| == 8 && FilledTo(s, u, 0, Blocks(0), ds, 8)
    ensures u.segs[0].pc.Idle? && u.segs[0].queue == s.segs[0].queue && u.segs[0].exec == s.segs[0].exec && u.ssd == s.ssd
    ensures 32 !in u.segs[0].meta.index && Roomy(Freed(u.segs[0].meta), 0, 32) && LostIn(Freed(u.segs[0].meta))
  {
    hide MetaOf, Reserve, Roomy;
    LossMeta();
  }

  /** The metadata once blocks 0 and 1 have been cleared from slots 0 and 1. */
  function Freed(m: Meta): Meta {
    Meta(m.index - {0} - {1}, m.bitmap - {0} - {1}, m.nextBit, m.used - 1 - 1)
  }

  /** What a write of block 32 would leave. */
  ghost predicate LostIn(n: Meta)
    requires n.nextBit < 8
  {
    var r := Reserve(AS_WRITTEN, 4, 0, 8, n, 32).0;
    r.index == n.index && !Full(8, r) && r.nextBit < 8 && 33 !in r.index && forall k: nat :: k < 8 ==> k in r.bitmap
  }

  /** The search position is at 1: the next block gets slot 1 and no entry. */
  lemma LossMeta()
    ensures var m := MetaOf(Blocks(0), 8);
            32 !in m.index && Roomy(Freed(m), 0, 32) && LostIn(Freed(m))
  {
    hide Div, Mod, Range, IndexOf, Reserve, Roomy, LostIn;
    var bs := Blocks(0);
    FreedBits(bs);
    NotIndexed(bs, 8, 32);
    NotIndexed(bs, 8, 33);
    LossOf(Freed(MetaOf(bs, 8)));
  }

  lemma {:induction false} NotIndexed(bs: seq<nat>, k: nat, b: nat)
    requires k <= |bs| && forall j :: 0 <= j < k ==> bs[j] != b
    ensures b !in IndexOf(bs, k)
  {
    if k > 0 { NotIndexed(bs, k - 1, b); }
  }

  lemma LossOf(n: Meta)
    requires n.nextBit == 1 && n.used == 6 && 0 !in n.bitmap && 1 !in n.bitmap && 32 !in n.index && 33 !in n.index
    requires forall k: nat :: k < 8 ==> k in n.bitmap + {1} + {0}
    ensures Roomy(n, 0, 32) && LostIn(n)
  {
    hide Div, Mod, Reserve;
    assert 0 < Bits(8);
    LossReserve(n);
  }

  lemma FreedBits(bs: seq<nat>)
    requires |bs| >= 8
    ensures var m := MetaOf(bs, 8);
            0 !in Freed(m).bitmap && 1 !in Freed(m).bitmap && forall k: nat :: k < 8 ==> k in Freed(m).bitmap + {1} + {0}
  {
    hide IndexOf;
  }

  lemma LossReserve(n: Meta)
    requires n.nextBit == 1 && 0 !in n.bitmap && 1 !in n.bitmap
    ensures Reserve(AS_WRITTEN, 4, 0, 8, n, 32) == (n.(bitmap := n.bitmap + {1} + {0}, nextBit := 0), 1)
  {
    hide Div;
    ModOnce(1, 8);
    assert IsFirstZero(n.bitmap, 8, 1, 1, 0);
    FirstZeroIs(n.bitmap, 8, 1, 1, 0, 0);
    BitInRange(AS_WRITTEN, 4, 0, 1);
    NextBitIs(1, 8);
    assert 0 !in n.bitmap + {1};
  }

  // ----- a round that begins too early -----

  lemma {:induction false} AfterIsPending(p: seq<Task>, n: nat, b: nat, x: Cell, j: nat)
    requires j < n <= |p| && Writes(p[j], b)
    ensures exists k :: 0 <= k < n && Writes(p[k], b) && CellAt(p[k], b) == After(p, n, b, x)
  {
    if !Writes(p[n - 1], b) {
      AfterIsPending(p, n - 1, b, x, j);
    }
  }

  lemma EarlyPop(v: Variant, g: Config, s: State, i: nat, b: nat) returns (t: State)
    requires Enabled(v, g, s, Drain(i)) && b in s.segs[i].meta.index
    ensures Run(v, g, s, [Drain(i)] + [Pop(i, b)], t)
    ensures var c := s.segs[i];
            t == s.(segs := s.segs[i := c.(meta := c.meta.(index := c.meta.index - {b}),
                                           pc := Migrate(c.pc.b, c.pc.cell, map[][b := c.meta.index[b]], {}, 0))])
  {
    hide Run, Route, Mod, Div;
    var a := Do(v, g, s, Drain(i));
    Start(v, g, s);
    Then(v, g, s, [], s, Drain(i));
    Then(v, g, s, [] + [Drain(i)], a, Pop(i, b));
    assert [] + [Drain(i)] == [Drain(i)];
    t := Do(v, g, a, Pop(i, b));
  }

  /** From the wait's end to the clearing of one block, by one thread. */
  lemma EarlyRound(v: Variant, g: Config, s: State, i: nat, b: nat) returns (t: State)
    requires Enabled(v, g, s, Drain(i)) && Source(v, i) == i && b < g.disk && b in s.segs[i].meta.index && s.segs[i].meta.index[b] < g.per
    ensures Run(v, g, s, [Drain(i)] + [Pop(i, b)] + [Copy(i, b)] + [Wipe(i, b)], t) && Shaped(g, t)
    ensures var c, o := s.segs[i], s.segs[i].meta.index[b];
            && t.ssd == s.ssd[b := c.slots[o]] && Pending(t.segs[i]) == Pending(c)
            && t.segs[i].headers == c.headers[o := c.headers[o].(valid := false)]
  {
    hide Run, Route, Mod, Div;
    var m := EarlyPop(v, g, s, i, b);
    Then(v, g, s, [Drain(i)] + [Pop(i, b)], m, Copy(i, b));
    var u := Do(v, g, m, Copy(i, b));
    Then(v, g, s, [Drain(i)] + [Pop(i, b)] + [Copy(i, b)], u, Wipe(i, b));
    t := Do(v, g, u, Wipe(i, b));
  }

  /** Whenever a round begins with a pending write over a buffered block, moving that block by itself
      gives it back an older content: so no weaker condition at the start of a round would do. */
  lemma DrainHarms(v: Variant, g: Config, s: State, i: nat, b: nat) returns (t: State)
    requires Inv(g, s) && Enabled(v, g, s, Drain(i)) && Source(v, i) == i && b in s.segs[i].meta.index
    requires exists j :: 0 <= j < |Pending(s.segs[i])| && Writes(Pending(s.segs[i])[j], b)
    ensures Run(v, g, s, [Drain(i)] + [Pop(i, b)] + [Copy(i, b)] + [Wipe(i, b)], t) && Shaped(g, t) && b < g.disk
    ensures View(g, t, b).stamp < View(g, s, b).stamp
  {
    hide Inv, Run, Do, Enabled, ClaimOk;
    WaitsLive(v, g, s, i, b);
    var c := s.segs[i];
    t := EarlyRound(v, g, s, i, b);
    BlockPart(g, s, b);
    ViewIs(g, s, b);
    var j :| 0 <= j < |Pending(c)| && Writes(Pending(c)[j], b);
    AfterIsPending(Pending(c), |Pending(c)|, b, t.ssd[b], j);
    assert Holder(t.segs[i].headers, b).None?;
  }

  lemma WaitsLive(v: Variant, g: Config, s: State, i: nat, b: nat)
    requires Inv(g, s) && Enabled(v, g, s, Drain(i)) && b in s.segs[i].meta.index
    ensures Shaped(g, s) && i < g.segs && s.segs[i].pc.Wait? && Mine(g, i, b) && s.segs[i].meta.index[b] < g.per
    ensures SlotCell(s.segs[i], b) == Some(s.segs[i].slots[s.segs[i].meta.index[b]])
    ensures forall o :: 0 <= o < g.per ==> (s.segs[i].headers[o] == Header(true, b) <==> o == s.segs[i].meta.index[b])
  {
    hide ClaimOk, BlockOk;
    LocalPart(g, s, i);
    LiveBound(s.segs[i]);
    assert b in Live(s.segs[i]);
  }

  /** And whenever one begins with a pending read of a buffered block that no pending write covers,
      and the SSD has not the same content yet, the read will not find what it was promised. */
  lemma DrainMisleads(v: Variant, g: Config, s: State, i: nat, b: nat, r: nat, j: nat) returns (t: State)
    requires Inv(g, s) && Enabled(v, g, s, Drain(i)) && Source(v, i) == i && b in s.segs[i].meta.index
    requires j < |Pending(s.segs[i])| && Reads(Pending(s.segs[i])[j], r, b)
    requires forall k :: 0 <= k < |Pending(s.segs[i])| ==> !Writes(Pending(s.segs[i])[k], b)
    requires b < g.disk && s.ssd[b] != View(g, s, b)
    ensures Run(v, g, s, [Drain(i)] + [Pop(i, b)] + [Copy(i, b)] + [Wipe(i, b)], t) && Shaped(g, t)
    ensures Pending(t.segs[i]) == Pending(s.segs[i]) && Wanted(s, r, b) != Some(After(Pending(s.segs[i]), j, b, t.ssd[b]))
  {
    hide Inv, Run, Do, Enabled, BlockOk;
    WaitsLive(v, g, s, i, b);
    var c := s.segs[i];
    t := EarlyRound(v, g, s, i, b);
    ClaimPart(g, s, r, b);
    ViewIs(g, s, b);
    AfterNoWrite(Pending(c), j, b, s.ssd[b]);
    AfterNoWrite(Pending(c), j, b, t.ssd[b]);
  }

  lemma {:induction false} AfterNoWrite(p: seq<Task>, n: nat, b: nat, x: Cell)
    requires n <= |p| && forall k :: 0 <= k < |p| ==> !Writes(p[k], b)
    ensures After(p, n, b, x) == x
  {
    if n > 0 {
      AfterNoWrite(p, n - 1, b, x);
    }
  }

  // ----- a search without end -----

  /** Worker i searches for a zero bit, and there is none. */
  ghost predicate Searching(g: Config, s: State, i: nat) {
    && Shaped(g, s) && i < g.segs && s.segs[i].pc.Look?
    && BlockTest(g.per, s.segs[i].meta, s.segs[i].pc.b).None? && !Full(g.per, s.segs[i].meta) && !Findable(g.per, s.segs[i].meta)
  }

  lemma SearchStep(v: Variant, g: Config, s: State, i: nat, e: Step)
    requires Searching(g, s, i) && Enabled(v, g, s, e) && !e.Crash?
    ensures Searching(g, Do(v, g, s, e), i) && Do(v, g, s, e).segs[i].pc == s.segs[i].pc
  {
    hide Do, Findable, BlockTest, Full;
    StepAdds(v, g, s, e);
    MetaStays(v, g, s, e, i);
  }

  lemma SearchBlocks(v: Variant, g: Config, s: State, e: Step, i: nat)
    requires Searching(g, s, i) && Enabled(v, g, s, e)
    ensures !WorkerOf(e, i)
  {
    hide Findable, BlockTest, Full, Route;
  }

  lemma SsdMeta(v: Variant, g: Config, s: State, e: Step, i: nat)
    requires Enabled(v, g, s, e) && (e.Fetch? || e.Raise? || e.Lower? || e.Transfer? || e.Complete?) && i < g.segs
    ensures |Do(v, g, s, e).segs| == |s.segs| == g.segs && Do(v, g, s, e).segs[i].meta == s.segs[i].meta
  {
    hide Route, Mod, Div, Range, Credit, Newer, Got;
  }

  lemma OthersMeta(v: Variant, g: Config, s: State, e: Step, i: nat)
    requires Enabled(v, g, s, e) && !e.Crash? && i < g.segs && (e.Open? || e.i != i)
    ensures |Do(v, g, s, e).segs| == |s.segs| == g.segs && Do(v, g, s, e).segs[i].meta == s.segs[i].meta
  {
    hide Findable, BlockTest, Full, Reserve, Route, Mod, Div, ScanReqs, PutRange, ClearBlock, Invalidate, Claim, DoFetch, DoTransfer, DoScanNext, DoClearNext, DoLookup, DoBeginWrite, Credit;
  }

  /** No step but a restart gets the worker out of its search, or changes what it searches. */
  lemma MetaStays(v: Variant, g: Config, s: State, e: Step, i: nat)
    requires Searching(g, s, i) && Enabled(v, g, s, e) && !e.Crash?
    ensures |Do(v, g, s, e).segs| == g.segs && Do(v, g, s, e).segs[i].pc == s.segs[i].pc && Do(v, g, s, e).segs[i].meta == s.segs[i].meta
  {
    hide Do, Enabled;
    SearchBlocks(v, g, s, e, i);
    if e.Open? || e.i != i { OthersMeta(v, g, s, e, i); } else { SsdMeta(v, g, s, e, i); }
    OthersPc(v, g, s, e, i);
  }

  predicate NoCrash(es: seq<Step>) {
    forall e :: e in es ==> !e.Crash?
  }

  /** And so the search goes on for ever. */
  lemma {:induction false} SearchNeverEnds(v: Variant, g: Config, s: State, i: nat, es: seq<Step>, t: State)
    requires Searching(g, s, i) && Run(v, g, s, es, t) && NoCrash(es)
    ensures Searching(g, t, i) && t.segs[i].pc == s.segs[i].pc
    decreases es
  {
    hide Do, Enabled, Searching;
    if es != [] {
      SearchStep(v, g, s, i, es[0]);
      SearchNeverEnds(v, g, Do(v, g, s, es[0]), i, es[1..], t);
    }
  }

  /** The small write after a lost one is never done. */
  lemma NextWriteHangs(content: seq<Data>, ds: seq<Data>, x: Data, y: Data, z: Data, w: Data) returns (es: seq<Step>, t: State)
    requires |content| == 256 && |ds| == 8
    ensures Run(AS_WRITTEN, G, Formatted(G, content), es, t) && Shaped(G, t)
    ensures t.segs[0].pc.Look? && t.segs[0].pc.b == 33 && t.segs[0].pc.cell.data == w
    ensures forall fs: seq<Step>, u :: Run(AS_WRITTEN, G, t, fs, u) && NoCrash(fs) ==> |u.segs| == 4 && u.segs[0].pc == t.segs[0].pc
  {
    hide Mod, Div, Run, Route;
    var fs, s := LostSmallWrite(content, ds, x, y, z);
    ThirtyThree();
    t := BeginSmall(s, 0, 33, w);
    Then(AS_WRITTEN, G, Formatted(G, content), fs, s, BeginWrite(0, 33, [w]));
    es := fs + [BeginWrite(0, 33, [w])];
    assert Searching(G, t, 0);
    forall gs: seq<Step>, u | Run(AS_WRITTEN, G, t, gs, u) && NoCrash(gs) ensures |u.segs| == 4 && u.segs[0].pc == t.segs[0].pc {
      SearchNeverEnds(AS_WRITTEN, G, t, 0, gs, u);
    }
  }

  lemma ThirtyThree()
    ensures Mine(G, 0, 33)
  {
    hide Mod, Div;
    DivModMeaning(33, 4);
    DivModMeaning(8, 4);
  }
}
