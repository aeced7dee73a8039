/** The invariant of the transition system: what holds of one segment by itself, of one block
    across the media, and of one block of one read request. */
module OverlayInvariant {
  import opened Common
  import opened Metadata
  import opened Overlay

  // ----- one segment -----

  /** The block-to-slot map that the valid headers describe at this point of the worker. */
  ghost function Live(c: Seg): map<nat, nat> {
    match c.pc
    case PutData(b, _, _, isNew) => if isNew then c.meta.index - {b} else c.meta.index
    case PutHeader(b, _, _, isNew) => if isNew then c.meta.index - {b} else c.meta.index
    case Migrate(_, _, held, _, _) => c.meta.index + held
    case _ => c.meta.index
  }

  ghost predicate MetaOk(g: Config, c: Seg) {
    && c.meta.nextBit <= 1
    && if c.pc.Migrate? then
         && c.meta.index.Keys !! c.pc.held.Keys
         && c.pc.copied <= c.pc.held.Keys
         && c.meta.used == |c.meta.index| + |c.pc.held| + c.pc.spent
       else Sound(g.per, c.meta)
  }

  predicate Covers(t: Task, b: nat) {
    Writes(t, b) || (t.Read? && t.off <= b < t.off + t.len)
  }

  /** Some pending task covers block b. */
  ghost predicate CoveredBy(p: seq<Task>, b: nat) {
    exists j :: 0 <= j < |p| && Covers(p[j], b)
  }

  /** No pending task covers a buffered block: then a migration cannot get in its way. */
  ghost predicate Harmless(c: Seg) {
    forall b: nat :: b in Live(c) ==> !CoveredBy(Pending(c), b)
  }

  ghost predicate PcOk(g: Config, i: nat, c: Seg) {
    match c.pc
    case Idle => true
    case Look(b, cell) => Mine(g, i, b)
    case Wait(b, cell) => Mine(g, i, b) && b !in Live(c)
    case Migrate(b, cell, held, copied, spent) => Mine(g, i, b) && b !in Live(c) && Harmless(c)
    case PutData(b, cell, slot, isNew) => Mine(g, i, b) && b in c.meta.index && c.meta.index[b] == slot
    case PutHeader(b, cell, slot, isNew) =>
      Mine(g, i, b) && b in c.meta.index && c.meta.index[b] == slot < |c.slots| && c.slots[slot] == cell
    case Clear(off, cells, k) =>
      && k <= |cells|
      && (forall b: nat :: off <= b < off + |cells| ==> Mine(g, i, b))
      && forall b :: off <= b < off + k ==> b !in c.meta.index
    case Scan(req, off, len, k, miss, ret, hits) =>
      && miss <= k <= len
      && (forall b: nat :: off <= b < off + len ==> Mine(g, i, b))
      && (forall b :: off + k - miss <= b < off + k ==> b !in c.meta.index)
      && (forall b :: b in hits ==> off <= b < off + k - miss)
      && ret == |hits|
  }

  ghost predicate TaskOk(g: Config, i: nat, t: Task) {
    && (forall b: nat :: Writes(t, b) ==> Mine(g, i, b))
    && (forall r, b: nat :: Reads(t, r, b) ==> Mine(g, i, b))
  }

  ghost predicate LocalOk(g: Config, i: nat, c: Seg) {
    && |c.slots| == |c.headers| == g.per
    && MetaOk(g, c)
    && Match(c.headers, Live(c))
    && (forall b :: b in Live(c) ==> Mine(g, i, b))
    && PcOk(g, i, c)
    && (forall t :: t in Pending(c) ==> TaskOk(g, i, t))
  }

  // ----- one block -----

  /** The buffered cell of block b. */
  ghost function SlotCell(c: Seg, b: nat): Option<Cell> {
    if b in Live(c) && Live(c)[b] < |c.slots| then Some(c.slots[Live(c)[b]]) else None
  }

  /** Pending writes of b carry growing stamps between those of x and the clock. */
  ghost predicate Ascending(p: seq<Task>, b: nat, lo: nat, hi: nat) {
    && (forall j :: 0 <= j < |p| && Writes(p[j], b) ==> lo < CellAt(p[j], b).stamp < hi)
    && (forall j, k :: 0 <= j < k < |p| && Writes(p[j], b) && Writes(p[k], b) ==>
          CellAt(p[j], b).stamp < CellAt(p[k], b).stamp)
  }

  /** Every pending write of b is older than top, unless it is the cell itself. */
  ghost predicate OlderOr(p: seq<Task>, b: nat, top: nat, x: Cell) {
    forall j :: 0 <= j < |p| && Writes(p[j], b) ==> CellAt(p[j], b).stamp < top || CellAt(p[j], b) == x
  }

  ghost predicate Older(p: seq<Task>, b: nat, top: nat) {
    forall j :: 0 <= j < |p| && Writes(p[j], b) ==> CellAt(p[j], b).stamp < top
  }

  predicate InClear(pc: Pc, b: nat) {
    pc.Clear? && pc.off <= b < pc.off + |pc.cells|
  }

  predicate Small(pc: Pc, b: nat) {
    (pc.Look? || pc.Wait? || pc.Migrate? || pc.PutData? || pc.PutHeader?) && pc.b == b
  }

  /** The block is being overwritten in its slot and the data is already there. */
  predicate Overwritten(pc: Pc, b: nat) {
    pc.PutHeader? && pc.b == b && !pc.isNew
  }

  /** A pending write will replace the newest completed content d of block b. */
  ghost predicate Superseded(p: seq<Task>, b: nat, d: Cell) {
    && (exists j :: 0 <= j < |p| && Writes(p[j], b) && d.stamp < CellAt(p[j], b).stamp)
    && forall j :: 0 <= j < |p| && Writes(p[j], b) ==> CellAt(p[j], b).stamp != d.stamp
  }

  /** An unbuffered block: its newest completed content is on the SSD, or a write that will
      replace it is pending. */
  ghost predicate SsdOk(p: seq<Task>, b: nat, x: Cell, d: Cell) {
    d == x || Superseded(p, b, d)
  }

  /** Block b, given the worker's position, the pending tasks, the slot cell o if it is buffered,
      the SSD cell x, the abstract cell a and the newest completed cell d. */
  ghost predicate BlockOk(pc: Pc, p: seq<Task>, b: nat, o: Option<Cell>, x: Cell, a: Cell, d: Cell, clock: nat) {
    && Ascending(p, b, x.stamp, clock) && x.stamp < clock && d.stamp < clock
    && (Small(pc, b) ==> 0 < pc.cell.stamp < clock && Older(p, b, pc.cell.stamp))
    && (o.Some? ==> o.value.stamp > 0)
    && (pc.Migrate? && b in pc.copied ==> o == Some(x))
    && (o.None? ==> SsdOk(p, b, x, d))
    && if InClear(pc, b) then ClearingOk(pc, p, b, o, x, a, d, clock)
       else if Overwritten(pc, b) then o == Some(pc.cell)
       else
         && (o.None? ==> After(p, |p|, b, x) == a)
         && (o.Some? ==> o.value == a == d && Older(p, b, o.value.stamp))
  }

  /** Block b of a large write that is posted and whose buffered copies are being cleared. */
  ghost predicate ClearingOk(pc: Pc, p: seq<Task>, b: nat, o: Option<Cell>, x: Cell, a: Cell, d: Cell, clock: nat)
    requires InClear(pc, b)
  {
    var t := pc.cells[b - pc.off];
    && t.stamp < clock
    && After(p, |p|, b, x) == t
    && (o.Some? ==>
          && b >= pc.off + pc.k
          && o.value == a
          && a.stamp < t.stamp
          && OlderOr(p, b, a.stamp, t)
          && if x.stamp < t.stamp then d == a else x == t == d)
  }

  // ----- one block of one read request -----

  /** The worker's scan still has to copy or to credit block b of request r. */
  predicate ScanOwns(pc: Pc, r: nat, b: nat) {
    pc.Scan? && pc.req == r && pc.off <= b < pc.off + pc.len && (b in pc.hits || b >= pc.off + pc.k - pc.miss)
  }

  predicate Fetched(e: Exec, r: nat, b: nat) {
    e.Fetching? && e.req == r && e.off <= b < e.off + e.count
  }

  ghost predicate Owned(p: seq<Task>, r: nat, b: nat) {
    exists j :: 0 <= j < |p| && Reads(p[j], r, b)
  }

  /** Block b of request r, given its promised cell w, its copied cell c and whether it has been
      credited: a promised block that is not credited yet has exactly one owner, and a pending
      read of it will find the promised cell on the SSD. */
  ghost predicate ClaimOk(pc: Pc, p: seq<Task>, e: Exec, r: nat, b: nat, x: Cell, a: Cell, w: Option<Cell>, c: Option<Cell>, credited: bool) {
    && (w.None? ==> c.None? && !ScanOwns(pc, r, b) && !Owned(p, r, b))
    && (c.Some? ==> c == w)
    && (credited ==> c.Some? && !ScanOwns(pc, r, b) && !Owned(p, r, b))
    && (w.Some? && !credited ==> ScanOwns(pc, r, b) || Owned(p, r, b))
    && (forall j :: 0 <= j < |p| && Reads(p[j], r, b) ==> !ScanOwns(pc, r, b) && w == Some(After(p, j, b, x)))
    && (forall j, k :: 0 <= j < k < |p| ==> !(Reads(p[j], r, b) && Reads(p[k], r, b)))
    && (ScanOwns(pc, r, b) ==> w == Some(a))
    && (pc.Scan? && pc.req == r && b in pc.hits ==> c.Some?)
    && (Fetched(e, r, b) ==> c.Some?)
  }

  ghost predicate ReqOk(g: Config, q: Req) {
    && (forall b :: b in q.want ==> q.off <= b < q.off + q.len && b < g.disk)
    && q.credited <= q.got.Keys <= q.want.Keys
    && q.ret == |q.credited|
  }

  // ----- the whole state -----

  function Entry(m: map<nat, Cell>, b: nat): Option<Cell> {
    if b in m then Some(m[b]) else None
  }

  ghost predicate BlockOkAt(g: Config, s: State, b: nat)
    requires Shaped(g, s) && b < g.disk
  {
    var c := s.segs[Route(g, b)];
    BlockOk(c.pc, Pending(c), b, SlotCell(c, b), s.ssd[b], s.abs[b], s.done[b], s.clock)
  }

  function Wanted(s: State, r: nat, b: nat): Option<Cell> {
    if r < |s.reqs| then Entry(s.reqs[r].want, b) else None
  }

  function Copied(s: State, r: nat, b: nat): Option<Cell> {
    if r < |s.reqs| then Entry(s.reqs[r].got, b) else None
  }

  predicate Credited(s: State, r: nat, b: nat) {
    r < |s.reqs| && b in s.reqs[r].credited
  }

  ghost predicate ClaimOkAt(g: Config, s: State, r: nat, b: nat)
    requires Shaped(g, s) && b < g.disk
  {
    var c := s.segs[Route(g, b)];
    ClaimOk(c.pc, Pending(c), c.exec, r, b, s.ssd[b], s.abs[b], Wanted(s, r, b), Copied(s, r, b), Credited(s, r, b))
  }

  ghost predicate Inv(g: Config, s: State) {
    && Shaped(g, s)
    && s.clock > 0
    && (forall i :: 0 <= i < g.segs ==> LocalOk(g, i, s.segs[i]))
    && (forall b: nat :: b < g.disk ==> BlockOkAt(g, s, b))
    && (forall r: nat, b: nat :: b < g.disk ==> ClaimOkAt(g, s, r, b))
    && (forall r :: 0 <= r < |s.reqs| ==> ReqOk(g, s.reqs[r]))
  }

  /** A formatted buffer over any SSD content: nothing buffered, queued or asked for. */
  ghost predicate Init(g: Config, s: State) {
    && Shaped(g, s)
    && s.clock == 1 && s.reqs == []
    && s.abs == s.done == s.ssd
    && (forall b :: 0 <= b < g.disk ==> s.ssd[b].stamp == 0)
    && forall i :: 0 <= i < g.segs ==>
         var c := s.segs[i];
         && c.meta == EMPTY && c.queue == [] && c.exec == Resting && c.pc == Idle && !c.empty
         && forall o :: 0 <= o < g.per ==> !c.headers[o].valid
  }

  /** Such a state exists for every configuration and every SSD content. */
  ghost function Formatted(g: Config, content: seq<Data>): (s: State)
    requires Sane(g) && |content| == g.disk
    ensures Init(g, s) && forall b: nat :: b < g.disk ==> View(g, s, b).data == content[b]
  {
    var blank := Seg(EMPTY, seq(g.per, _ => Cell(Data([]), 0)), seq(g.per, _ => Header(false, 0)), [], Resting, false, Idle);
    var disk := seq(g.disk, b requires 0 <= b < g.disk => Cell(content[b], 0));
    State(seq(g.segs, _ => blank), disk, [], 1, disk, disk)
  }

  lemma InitLocal(g: Config, s: State, i: nat)
    requires Init(g, s) && i < g.segs
    ensures LocalOk(g, i, s.segs[i]) && Live(s.segs[i]) == map[] && Pending(s.segs[i]) == []
  {
  }

  lemma InitInv(g: Config, s: State)
    requires Init(g, s)
    ensures Inv(g, s)
  {
    hide LocalOk, Live;
    forall i | 0 <= i < g.segs ensures LocalOk(g, i, s.segs[i]) {
      InitLocal(g, s, i);
    }
    forall b: nat | b < g.disk ensures BlockOkAt(g, s, b) {
      InitLocal(g, s, Route(g, b));
    }
    forall r: nat, b: nat | b < g.disk ensures ClaimOkAt(g, s, r, b) {
      InitLocal(g, s, Route(g, b));
    }
  }

  // ----- parts of the invariant -----

  lemma LocalPart(g: Config, s: State, i: nat)
    requires Inv(g, s) && i < g.segs
    ensures LocalOk(g, i, s.segs[i])
  {
  }

  lemma BlockPart(g: Config, s: State, b: nat)
    requires Inv(g, s) && b < g.disk
    ensures BlockOkAt(g, s, b)
  {
  }

  lemma ClaimPart(g: Config, s: State, r: nat, b: nat)
    requires Inv(g, s) && b < g.disk
    ensures ClaimOkAt(g, s, r, b)
  {
  }

  lemma ReqPart(g: Config, s: State)
    requires Inv(g, s)
    ensures forall r :: 0 <= r < |s.reqs| ==> ReqOk(g, s.reqs[r])
  {
  }

  // ----- the views, under the invariant -----

  lemma HolderIsLive(c: Seg, b: nat)
    requires Match(c.headers, Live(c))
    ensures Holder(c.headers, b) == if b in Live(c) then Some(Live(c)[b]) else None
  {
    if Holder(c.headers, b).Some? {
      assert c.headers[Holder(c.headers, b).value].valid;
    }
  }

  lemma ViewIs(g: Config, s: State, b: nat)
    requires Inv(g, s) && b < g.disk
    ensures var c := s.segs[Route(g, b)];
            && View(g, s, b) == (match SlotCell(c, b) case Some(x) => x case None => After(Pending(c), |Pending(c)|, b, s.ssd[b]))
            && Recovery(g, s, b) == (match SlotCell(c, b) case Some(x) => x case None => s.ssd[b])
  {
    HolderIsLive(s.segs[Route(g, b)], b);
  }
}
