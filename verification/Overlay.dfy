/** The whole store as one transition system: per segment an NVM worker (src/nvm_worker.c), its
    metadata, its NVM slots and headers, its SSD queue and its SSD worker (src/ssd_worker.c), and
    one SSD below them all.  Every step is one action of one thread between two points at which
    the others, or a power failure, can be observed; all interleavings are allowed.

    The state also carries what an observer would note down: the block array that the processed
    writes describe (abs), the newest completed content of each block (done), what each read was to
    return (want), and which of its blocks have been credited.  No step consults these notes. */
module Overlay {
  import opened Common
  import opened Metadata

  /** Segments, slots per segment, blocks per stripe, blocks on the SSD. */
  datatype Config = Config(segs: nat, per: nat, stripe: nat, disk: nat)

  predicate Sane(g: Config) {
    g.segs > 0 && g.stripe > 0 && g.per > 0 && g.per % 8 == 0
  }

  /** The segment that every task touching block b is posted to. */
  function Route(g: Config, b: nat): (i: nat)
    requires Sane(g)
    ensures i < g.segs
  {
    Mod(Div(b, g.stripe), g.segs)
  }

  lemma RouteIs(g: Config, b: nat)
    requires Sane(g)
    ensures Route(g, b) == b / g.stripe % g.segs
  {
    DivModMeaning(b, g.stripe);
    DivModMeaning(b / g.stripe, g.segs);
  }

  predicate Mine(g: Config, i: nat, b: nat) {
    Sane(g) && b < g.disk && Route(g, b) == i
  }

  // ----- state -----

  /** A task of an SSD queue. */
  datatype Task =
    | Write(off: nat, cells: seq<Cell>)
    | Read(req: nat, off: nat, len: nat)

  /** What an SSD worker is doing: between tasks, just told that its queue is empty, or busy with
      a task -- the blocks still to be written, or how many were read. */
  datatype Exec =
    | Resting
    | Polled
    | Storing(off: nat, cells: seq<Cell>)
    | Fetching(req: nat, off: nat, len: nat, count: nat)

  /** Where an NVM worker is in redirect_read or redirect_write. */
  datatype Pc =
    | Idle
    | Look(b: nat, cell: Cell)
    | Wait(b: nat, cell: Cell)
    | Migrate(b: nat, cell: Cell, held: map<nat, nat>, copied: set<nat>, spent: nat)
    | PutData(b: nat, cell: Cell, slot: nat, isNew: bool)
    | PutHeader(b: nat, cell: Cell, slot: nat, isNew: bool)
    | Clear(off: nat, cells: seq<Cell>, k: nat)
    | Scan(req: nat, off: nat, len: nat, k: nat, miss: nat, ret: nat, hits: set<nat>)

  /** One segment.  empty is the flag queue_empty. */
  datatype Seg = Seg(
    meta: Meta, slots: seq<Cell>, headers: seq<Header>,
    queue: seq<Task>, exec: Exec, empty: bool, pc: Pc)

  /** A read request: its blocks, what was promised, what was copied, and the credits in ret. */
  datatype Req = Req(off: nat, len: nat, want: map<nat, Cell>, got: map<nat, Cell>, ret: nat, credited: set<nat>)

  datatype State = State(
    segs: seq<Seg>, ssd: seq<Cell>, reqs: seq<Req>,
    clock: nat, abs: seq<Cell>, done: seq<Cell>)

  // ----- tasks -----

  predicate Writes(t: Task, b: nat) {
    t.Write? && t.off <= b < t.off + |t.cells|
  }

  function CellAt(t: Task, b: nat): Cell
    requires Writes(t, b)
  {
    t.cells[b - t.off]
  }

  predicate Reads(t: Task, r: nat, b: nat) {
    t.Read? && t.req == r && t.off <= b < t.off + t.len
  }

  function ExecTasks(e: Exec): seq<Task> {
    match e
    case Resting => []
    case Polled => []
    case Storing(off, cells) => [Write(off, cells)]
    case Fetching(req, off, len, _) => [Read(req, off, len)]
  }

  /** What the SSD worker has still to do, oldest first. */
  function Pending(c: Seg): seq<Task> {
    ExecTasks(c.exec) + c.queue
  }

  /** The content of block b after the first n tasks, starting from x. */
  function After(p: seq<Task>, n: nat, b: nat, x: Cell): Cell
    requires n <= |p|
  {
    if n == 0 then x
    else if Writes(p[n - 1], b) then CellAt(p[n - 1], b)
    else After(p, n - 1, b, x)
  }

  // ----- views of a block -----

  /** A slot whose header claims block b, if there is one. */
  ghost function Holder(headers: seq<Header>, b: nat): (r: Option<nat>)
    ensures r.Some? ==> r.value < |headers| && headers[r.value] == Header(true, b)
    ensures r.None? ==> forall o :: 0 <= o < |headers| ==> headers[o] != Header(true, b)
  {
    if o: nat :| o < |headers| && headers[o] == Header(true, b) then Some(o) else None
  }

  ghost predicate Shaped(g: Config, s: State) {
    && Sane(g)
    && |s.segs| == g.segs
    && |s.ssd| == |s.abs| == |s.done| == g.disk
    && forall i :: 0 <= i < g.segs ==> |s.segs[i].slots| == |s.segs[i].headers| == g.per
  }

  /** The store's content of block b: the valid buffer slot if there is one, else the last pending
      SSD write covering it, else the SSD. */
  ghost function View(g: Config, s: State, b: nat): Cell
    requires Shaped(g, s) && b < g.disk
  {
    var c := s.segs[Route(g, b)];
    match Holder(c.headers, b)
    case Some(o) => c.slots[o]
    case None => After(Pending(c), |Pending(c)|, b, s.ssd[b])
  }

  /** What is left of block b when power fails now and the index is rebuilt from the headers. */
  ghost function Recovery(g: Config, s: State, b: nat): Cell
    requires Shaped(g, s) && b < g.disk
  {
    var c := s.segs[Route(g, b)];
    match Holder(c.headers, b)
    case Some(o) => c.slots[o]
    case None => s.ssd[b]
  }

  // ----- steps -----

  datatype Step =
    | Open(off: nat, len: nat)
    | BeginWrite(i: nat, off: nat, data: seq<Data>)
    | Lookup(i: nat)
    | Drain(i: nat)
    | Pop(i: nat, b: nat)
    | Copy(i: nat, b: nat)
    | Wipe(i: nat, b: nat)
    | Uncount(i: nat)
    | EndRound(i: nat)
    | StoreData(i: nat)
    | StoreHeader(i: nat)
    | ClearNext(i: nat)
    | BeginRead(i: nat, r: nat, off: nat, len: nat)
    | ScanNext(i: nat)
    | Fetch(i: nat)
    | Raise(i: nat)
    | Lower(i: nat)
    | Transfer(i: nat)
    | Complete(i: nat)
    | Crash

  function Post(c: Seg, t: Task): Seg {
    c.(queue := c.queue + [t])
  }

  /** The segment whose slots a migrating thread of segment i really addresses. */
  function Source(v: Variant, i: nat): nat {
    if v.based then i else 0
  }

  /** The blocks of one write all carry its number. */
  function WriteCells(data: seq<Data>, clock: nat): (cells: seq<Cell>)
    ensures |cells| == |data|
  {
    seq(|data|, j requires 0 <= j < |data| => Cell(data[j], clock))
  }

  /** BeginWrite: a piece of one block is a small write; a longer one is posted to the SSD queue
      first, and its buffered copies are cleared next. */
  function DoBeginWrite(c: Seg, off: nat, data: seq<Data>, clock: nat): Seg
    requires |data| > 0
  {
    if |data| == 1 then c.(pc := Look(off, Cell(data[0], clock)))
    else
      var cells := WriteCells(data, clock);
      Post(c, Write(off, cells)).(pc := Clear(off, cells, 0))
  }

  function DoLookup(v: Variant, g: Config, i: nat, c: Seg): Seg
    requires Sane(g) && i < g.segs && c.pc.Look? && c.meta.nextBit < Bits(g.per)
  {
    var Look(b, cell) := c.pc;
    match BlockTest(g.per, c.meta, b)
    case Some(o) => c.(pc := PutData(b, cell, o, false))
    case None =>
      if Full(g.per, c.meta) then c.(pc := Wait(b, cell))
      else
        var (m, slot) := Reserve(v, g.segs, i, g.per, c.meta, b);
        c.(meta := m, pc := PutData(b, cell, slot, true))
  }

  function DoPop(c: Seg, b: nat): Seg
    requires c.pc.Migrate? && b in c.meta.index
  {
    c.(meta := c.meta.(index := c.meta.index - {b}), pc := c.pc.(held := c.pc.held[b := c.meta.index[b]]))
  }

  function Invalidate(headers: seq<Header>, o: nat): seq<Header> {
    if o < |headers| then headers[o := headers[o].(valid := false)] else headers
  }

  function DoWipe(c: Seg, b: nat): Seg
    requires c.pc.Migrate?
  {
    c.(pc := c.pc.(held := c.pc.held - {b}, copied := c.pc.copied - {b}, spent := c.pc.spent + 1))
  }

  function DoEndRound(c: Seg): Seg
    requires c.pc.Migrate?
  {
    c.(meta := c.meta.(bitmap := {}, nextBit := 0), pc := Look(c.pc.b, c.pc.cell))
  }

  /** One round of mix_clear_block, or its return. */
  function DoClearNext(v: Variant, g: Config, c: Seg): Seg
    requires g.per > 0 && c.pc.Clear?
  {
    var Clear(off, cells, k) := c.pc;
    if k < |cells| && off + k in c.meta.index then
      c.(headers := Invalidate(c.headers, Mod(c.meta.index[off + k], g.per)),
         meta := ClearBlock(g.per, c.meta, off + k),
         pc := Clear(off, cells, k + 1))
    else if k < |cells| && v.clearAll then c.(pc := Clear(off, cells, k + 1))
    else c.(pc := Idle)
  }

  /** The read posted for the run of misses that ends before position k. */
  function PostRun(c: Seg): Seg
    requires c.pc.Scan? && c.pc.miss <= c.pc.k
  {
    if c.pc.miss > 0 then Post(c, Read(c.pc.req, c.pc.off + c.pc.k - c.pc.miss, c.pc.miss)) else c
  }

  /** One round of the loop of redirect_read, or its end. */
  function DoScanNext(g: Config, c: Seg): Seg
    requires g.per > 0 && c.pc.Scan? && c.pc.miss <= c.pc.k
  {
    var Scan(req, off, len, k, miss, ret, hits) := c.pc;
    if k >= len then PostRun(c).(pc := Idle)
    else if BlockTest(g.per, c.meta, off + k).Some? then
      PostRun(c).(pc := Scan(req, off, len, k + 1, 0, ret + 1, hits + {off + k}))
    else c.(pc := Scan(req, off, len, k + 1, miss + 1, ret, hits))
  }

  /** get_task_from_ssd_queue: first the dequeue, then -- Raise or Lower -- the flag. */
  function DoFetch(c: Seg): Seg {
    if c.queue == [] then c.(exec := Polled)
    else
      var e := match c.queue[0]
               case Write(off, cells) => Storing(off, cells)
               case Read(req, off, len) => Fetching(req, off, len, 0);
      c.(queue := c.queue[1..], exec := e)
  }

  /** One block of mix_ssd_write or mix_ssd_read. */
  function DoTransfer(c: Seg): Seg
    requires (c.exec.Storing? && c.exec.cells != []) || c.exec.Fetching?
  {
    match c.exec
    case Storing(off, cells) => c.(exec := Storing(off + 1, cells[1..]))
    case Fetching(req, off, len, count) => c.(exec := Fetching(req, off, len, count + 1))
  }

  /** Power failure and mix_buffer_rebuild: the slots and headers stay, all else starts afresh. */
  function Restart(c: Seg): Seg {
    Seg(Rebuild(EMPTY, c.headers, |c.headers|), c.slots, c.headers, [], Resting, false, Idle)
  }

  function Put<T>(s: seq<T>, k: nat, x: T): (t: seq<T>)
    ensures |t| == |s|
  {
    if k < |s| then s[k := x] else s
  }

  function PutRange(s: seq<Cell>, off: nat, cells: seq<Cell>): (t: seq<Cell>)
    ensures |t| == |s|
    ensures forall b: nat :: b < |s| ==> t[b] == if off <= b < off + |cells| then cells[b - off] else s[b]
  {
    seq(|s|, b requires 0 <= b < |s| => if off <= b < off + |cells| then cells[b - off] else s[b])
  }

  function Newer(c: Cell, d: Cell): Cell {
    if c.stamp > d.stamp then c else d
  }

  ghost function Claim(q: Req, off: nat, len: nat, abs: seq<Cell>): Req {
    q.(want := q.want + (map b | b in Range(off, off + len) && b < |abs| :: abs[b]))
  }

  function Got(q: Req, b: nat, x: Cell): Req {
    q.(got := q.got[b := x])
  }

  function Credit(q: Req, n: nat, bs: set<nat>): Req {
    q.(ret := q.ret + n, credited := q.credited + bs)
  }

  ghost predicate Enabled(v: Variant, g: Config, s: State, e: Step) {
    && Shaped(g, s)
    && (!e.Open? && !e.Crash? ==> e.i < g.segs)
    && match e
       case Open(off, len) => true
       case BeginWrite(i, off, data) =>
         s.segs[i].pc.Idle? && |data| > 0 && forall b: nat :: off <= b < off + |data| ==> Mine(g, i, b)
       case Lookup(i) =>
         var c := s.segs[i];
         && c.pc.Look? && c.meta.nextBit < Bits(g.per)
         && (BlockTest(g.per, c.meta, c.pc.b).None? && !Full(g.per, c.meta) ==> Findable(g.per, c.meta))
       case Drain(i) =>
         var c := s.segs[i];
         c.pc.Wait? && if v.trueDrain then Pending(c) == [] else c.empty
       case Pop(i, b) => s.segs[i].pc.Migrate? && b in s.segs[i].meta.index
       case Copy(i, b) =>
         var pc := s.segs[i].pc;
         pc.Migrate? && b in pc.held && b !in pc.copied && pc.held[b] < g.per && b < g.disk
       case Wipe(i, b) => s.segs[i].pc.Migrate? && b in s.segs[i].pc.copied && b in s.segs[i].pc.held
       case Uncount(i) => s.segs[i].pc.Migrate? && s.segs[i].pc.spent > 0
       case EndRound(i) =>
         var c := s.segs[i];
         c.pc.Migrate? && c.meta.index == map[] && c.pc.held == map[] && c.pc.spent == 0
       case StoreData(i) => s.segs[i].pc.PutData?
       case StoreHeader(i) => s.segs[i].pc.PutHeader?
       case ClearNext(i) => s.segs[i].pc.Clear?
       case BeginRead(i, r, off, len) =>
         && s.segs[i].pc.Idle? && len > 0 && r < |s.reqs|
         && forall b: nat :: off <= b < off + len ==>
              Mine(g, i, b) && s.reqs[r].off <= b < s.reqs[r].off + s.reqs[r].len && b !in s.reqs[r].want
       case ScanNext(i) =>
         var pc := s.segs[i].pc;
         pc.Scan? && pc.miss <= pc.k && pc.req < |s.reqs|
       case Fetch(i) => s.segs[i].exec.Resting?
       case Raise(i) => s.segs[i].exec.Polled?
       case Lower(i) => (s.segs[i].exec.Storing? || s.segs[i].exec.Fetching?) && s.segs[i].empty
       case Transfer(i) =>
         var x := s.segs[i].exec;
         && !s.segs[i].empty
         && (|| (x.Storing? && x.cells != [] && x.off < g.disk)
             || (x.Fetching? && x.count < x.len && x.req < |s.reqs| && x.off + x.count < g.disk))
       case Complete(i) =>
         var x := s.segs[i].exec;
         && !s.segs[i].empty
         && ((x.Storing? && x.cells == []) || (x.Fetching? && x.count == x.len && x.req < |s.reqs|))
       case Crash => true
  }

  /** One block of mix_ssd_write or mix_ssd_read, with what it does to the SSD or to the request. */
  function TransferBlock(s: State, i: nat): State
    requires i < |s.segs| && |s.done| == |s.ssd|
    requires var x := s.segs[i].exec;
             || (x.Storing? && x.cells != [] && x.off < |s.ssd|)
             || (x.Fetching? && x.req < |s.reqs| && x.off + x.count < |s.ssd|)
  {
    var c := s.segs[i];
    var t := SetSeg(s, i, DoTransfer(c));
    if c.exec.Storing? then
      var b, x := c.exec.off, c.exec.cells[0];
      t.(ssd := s.ssd[b := x], done := s.done[b := Newer(x, s.done[b])])
    else
      var b := c.exec.off + c.exec.count;
      t.(reqs := s.reqs[c.exec.req := Got(s.reqs[c.exec.req], b, s.ssd[b])])
  }

  /** The end of a task: a read is credited with its length. */
  ghost function CompleteTask(s: State, i: nat): State
    requires i < |s.segs| && (s.segs[i].exec.Storing? || (s.segs[i].exec.Fetching? && s.segs[i].exec.req < |s.reqs|))
  {
    var c := s.segs[i];
    var t := SetSeg(s, i, c.(exec := Resting));
    if c.exec.Storing? then t
    else
      var Fetching(r, off, len, _) := c.exec;
      t.(reqs := s.reqs[r := Credit(s.reqs[r], len, Range(off, off + len))])
  }

  ghost function Do(v: Variant, g: Config, s: State, e: Step): State
    requires Enabled(v, g, s, e)
  {
    match e
    case Open(off, len) => s.(reqs := s.reqs + [Req(off, len, map[], map[], 0, {})])
    case BeginWrite(i, off, data) =>
      SetSeg(s, i, DoBeginWrite(s.segs[i], off, data, s.clock)).(clock := s.clock + 1)
    case Lookup(i) => SetSeg(s, i, DoLookup(v, g, i, s.segs[i]))
    case Drain(i) => SetSeg(s, i, s.segs[i].(pc := Migrate(s.segs[i].pc.b, s.segs[i].pc.cell, map[], {}, 0)))
    case Pop(i, b) => SetSeg(s, i, DoPop(s.segs[i], b))
    case Copy(i, b) =>
      var pc := s.segs[i].pc;
      SetSeg(s, i, s.segs[i].(pc := pc.(copied := pc.copied + {b})))
        .(ssd := Put(s.ssd, b, s.segs[Source(v, i)].slots[pc.held[b]]))
    case Wipe(i, b) =>
      var from := Source(v, i);
      var t := SetSeg(s, from, s.segs[from].(headers := Invalidate(s.segs[from].headers, s.segs[i].pc.held[b])));
      SetSeg(t, i, DoWipe(t.segs[i], b))
    case Uncount(i) =>
      var c := s.segs[i];
      SetSeg(s, i, c.(meta := c.meta.(used := c.meta.used - 1), pc := c.pc.(spent := c.pc.spent - 1)))
    case EndRound(i) => SetSeg(s, i, DoEndRound(s.segs[i]))
    case StoreData(i) =>
      var c := s.segs[i];
      SetSeg(s, i, c.(slots := Put(c.slots, c.pc.slot, c.pc.cell),
                      pc := PutHeader(c.pc.b, c.pc.cell, c.pc.slot, c.pc.isNew)))
    case StoreHeader(i) =>
      var c := s.segs[i];
      SetSeg(s, i, c.(headers := Put(c.headers, c.pc.slot, Header(true, c.pc.b)), pc := Idle))
        .(abs := Put(s.abs, c.pc.b, c.pc.cell), done := Put(s.done, c.pc.b, c.pc.cell))
    case ClearNext(i) =>
      var c := s.segs[i];
      var d := DoClearNext(v, g, c);
      SetSeg(s, i, d).(abs := if d.pc.Idle? then PutRange(s.abs, c.pc.off, c.pc.cells) else s.abs)
    case BeginRead(i, r, off, len) =>
      SetSeg(s, i, s.segs[i].(pc := Scan(r, off, len, 0, 0, 0, {})))
        .(reqs := s.reqs[r := Claim(s.reqs[r], off, len, s.abs)])
    case ScanNext(i) => SetSeg(s, i, DoScanNext(g, s.segs[i])).(reqs := ScanReqs(g, s.reqs, s.segs[i]))
    case Fetch(i) => SetSeg(s, i, DoFetch(s.segs[i]))
    case Raise(i) => SetSeg(s, i, s.segs[i].(exec := Resting, empty := true))
    case Lower(i) => SetSeg(s, i, s.segs[i].(empty := false))
    case Transfer(i) => TransferBlock(s, i)
    case Complete(i) => CompleteTask(s, i)
    case Crash =>
      var left := seq(g.disk, b requires 0 <= b < g.disk => Recovery(g, s, b));
      s.(segs := seq(g.segs, i requires 0 <= i < g.segs => Restart(s.segs[i])),
         reqs := [], abs := left, done := left)
  }

  function SetSeg(s: State, i: nat, c: Seg): State
    requires i < |s.segs|
  {
    s.(segs := s.segs[i := c])
  }

  function ScanReqs(g: Config, reqs: seq<Req>, c: Seg): seq<Req>
    requires Sane(g) && c.pc.Scan? && c.pc.req < |reqs|
  {
    var Scan(r, off, len, k, miss, ret, hits) := c.pc;
    if k >= len then reqs[r := Credit(reqs[r], ret, hits)]
    else
      match BlockTest(g.per, c.meta, off + k)
      case Some(o) => if o < |c.slots| then reqs[r := Got(reqs[r], off + k, c.slots[o])] else reqs
      case None => reqs
  }
}
