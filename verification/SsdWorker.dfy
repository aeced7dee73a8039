/** The SSD worker of one segment (src/ssd_worker.c): it takes tasks off its queue in order and
    executes them; and what this adds to a read that redirect_read has begun. */
module SsdWorker {
  import opened Common
  import opened Metadata
  import opened Redirect

  // ----- tasks as values -----

  /** mix_ssd_write; the blocks past the end of the device are not written. */
  function Stored(ssd: seq<Data>, t: Task): (r: seq<Data>)
    ensures |r| == |ssd|
  {
    match t
    case WriteTask(off, data) => seq(|ssd|, b requires 0 <= b < |ssd| => if off <= b < off + |data| then data[b - off] else ssd[b])
    case ReadTask(_, _, _) => ssd
  }

  /** mix_ssd_read into the request's buffer. */
  function Loaded(buf: seq<Data>, ssd: seq<Data>, t: Task): (r: seq<Data>)
    ensures |r| == |buf|
  {
    match t
    case WriteTask(_, _) => buf
    case ReadTask(off, len, at) =>
      seq(|buf|, x requires 0 <= x < |buf| => if at <= x < at + len && off + x - at < |ssd| then ssd[off + x - at] else buf[x])
  }

  /** The SSD after all tasks. */
  function StoredAll(ssd: seq<Data>, q: seq<Task>): (r: seq<Data>)
    ensures |r| == |ssd|
    decreases |q|
  {
    if q == [] then ssd else StoredAll(Stored(ssd, q[0]), q[1..])
  }

  /** The buffer after all tasks, each read seeing the writes before it. */
  function LoadedAll(buf: seq<Data>, ssd: seq<Data>, q: seq<Task>): (r: seq<Data>)
    ensures |r| == |buf|
    decreases |q|
  {
    if q == [] then buf else LoadedAll(Loaded(buf, ssd, q[0]), Stored(ssd, q[0]), q[1..])
  }

  function Credit(t: Task): nat {
    if t.ReadTask? then t.len else 0
  }

  function Credits(q: seq<Task>): nat {
    if q == [] then 0 else Credit(q[0]) + Credits(q[1..])
  }

  predicate Covers(t: Task, b: nat) {
    t.WriteTask? && t.off <= b < t.off + |t.data|
  }

  /** What the queue will make of block b: the data of the last write over it. */
  function LastWrite(q: seq<Task>, b: nat): Option<Data> {
    if q == [] then None
    else if Covers(q[|q| - 1], b) then Some(q[|q| - 1].data[b - q[|q| - 1].off])
    else LastWrite(q[..|q| - 1], b)
  }

  lemma {:induction false} StoredAppend(ssd: seq<Data>, q: seq<Task>, t: Task)
    ensures StoredAll(ssd, q + [t]) == Stored(StoredAll(ssd, q), t)
    decreases |q|
  {
    hide Stored;
    if q == [] {
      assert (q + [t])[1..] == [];
    } else {
      assert (q + [t])[1..] == q[1..] + [t];
      StoredAppend(Stored(ssd, q[0]), q[1..], t);
    }
  }

  /** First in, first out: a block ends up with the last write over it, or as it was. */
  lemma {:induction false} LastWriteWins(ssd: seq<Data>, q: seq<Task>, b: nat)
    requires b < |ssd|
    ensures StoredAll(ssd, q)[b] == match LastWrite(q, b) case Some(x) => x case None => ssd[b]
    decreases |q|
  {
    if q != [] {
      var k := |q| - 1;
      assert q == q[..k] + [q[k]];
      StoredAppend(ssd, q[..k], q[k]);
      LastWriteWins(ssd, q[..k], b);
    }
  }

  // ----- a read that was begun by redirect_read -----

  predicate OnlyWrites(q: seq<Task>) {
    forall j :: 0 <= j < |q| ==> q[j].WriteTask?
  }

  /** The tasks read blocks of the request at off to their places from at on. */
  predicate InPlace(q: seq<Task>, off: nat, at: nat, disk: nat) {
    forall j :: 0 <= j < |q| ==> q[j].ReadTask? && off <= q[j].off && q[j].at == at + (q[j].off - off) && q[j].off + q[j].len <= disk
  }

  lemma {:induction false} WritesFirst(buf: seq<Data>, ssd: seq<Data>, w: seq<Task>, q: seq<Task>)
    requires OnlyWrites(w)
    ensures LoadedAll(buf, ssd, w + q) == LoadedAll(buf, StoredAll(ssd, w), q)
    decreases |w|
  {
    hide Stored;
    if w == [] {
      assert w + q == q;
    } else {
      assert (w + q)[1..] == w[1..] + q;
      WritesFirst(buf, Stored(ssd, w[0]), w[1..], q);
    }
  }

  /** Some task reads block b. */
  predicate SomeReads(q: seq<Task>, b: nat) {
    exists j :: 0 <= j < |q| && Reads(q[j], b)
  }

  lemma FirstOrRest(q: seq<Task>, b: nat)
    requires q != []
    ensures SomeReads(q, b) <==> Reads(q[0], b) || SomeReads(q[1..], b)
  {
    if j :| 0 <= j < |q| && Reads(q[j], b) {
      assert j > 0 ==> Reads(q[1..][j - 1], b);
    }
    if j :| 0 <= j < |q[1..]| && Reads(q[1..][j], b) {
      assert Reads(q[j + 1], b);
    }
  }

  /** Reads in place fill exactly the places of the blocks that are read. */
  lemma {:induction false} LoadsInPlace(buf: seq<Data>, ssd: seq<Data>, q: seq<Task>, off: nat, at: nat, b: nat)
    requires InPlace(q, off, at, |ssd|) && off <= b && at + (b - off) < |buf| && b < |ssd|
    ensures LoadedAll(buf, ssd, q)[at + (b - off)] == if SomeReads(q, b) then ssd[b] else buf[at + (b - off)]
    decreases |q|
  {
    hide SomeReads;
    if q == [] {
      NoneRead(b);
    } else {
      FirstOrRest(q, b);
      LoadsInPlace(Loaded(buf, ssd, q[0]), ssd, q[1..], off, at, b);
    }
  }

  /** And no place outside them. */
  lemma {:induction false} LoadsElsewhere(buf: seq<Data>, ssd: seq<Data>, q: seq<Task>, lo: nat, hi: nat, x: nat)
    requires x < |buf| && !(lo <= x < hi)
    requires forall j :: 0 <= j < |q| && q[j].ReadTask? ==> lo <= q[j].at && q[j].at + q[j].len <= hi
    ensures LoadedAll(buf, ssd, q)[x] == buf[x]
    decreases |q|
  {
    hide Stored;
    if q != [] {
      LoadsElsewhere(Loaded(buf, ssd, q[0]), Stored(ssd, q[0]), q[1..], lo, hi, x);
    }
  }

  lemma RunsInside(per: nat, m: Meta, off: nat, len: nat, at: nat, ps: seq<Task>)
    requires per > 0 && Coalesced(per, m, off, len, at, len, ps)
    ensures forall j :: 0 <= j < |ps| ==> ps[j].ReadTask? && at <= ps[j].at && ps[j].at + ps[j].len <= at + len
  {
    assert forall j :: 0 <= j < |ps| ==> MaximalRun(per, m, off, len, at, ps[j]);
  }

  /** Nothing outside the request's places changes. */
  lemma ReadElsewhere(per: nat, m: Meta, base: nat, slots: seq<Data>, off: nat, len: nat, at: nat,
                      before: seq<Data>, now: seq<Data>, ssd: seq<Data>, w: seq<Task>, ps: seq<Task>, x: nat)
    requires per > 0 && OnlyWrites(w) && x < |before| && !(at <= x < at + len)
    requires Coalesced(per, m, off, len, at, len, ps) && Delivered(per, m, base, slots, off, at, len, before, now)
    ensures LoadedAll(now, ssd, w + ps)[x] == before[x]
  {
    RunsInside(per, m, off, len, at, ps);
    assert forall j :: 0 <= j < |w| ==> !w[j].ReadTask?;
    hide Coalesced, MaximalRun, Hit;
    LoadsElsewhere(now, ssd, w + ps, at, at + len, x);
  }

  lemma NoneRead(b: nat)
    ensures !SomeReads([], b)
  {
  }

  lemma {:induction false} CreditsAreLengths(q: seq<Task>)
    requires forall j :: 0 <= j < |q| ==> q[j].ReadTask?
    ensures Credits(q) == Total(q)
  {
    if q != [] {
      CreditsAreLengths(q[..|q| - 1]);
      assert q == q[..|q| - 1] + [q[|q| - 1]];
      CreditsAppend(q[..|q| - 1], [q[|q| - 1]]);
    }
  }

  lemma {:induction false} CreditsAppend(p: seq<Task>, q: seq<Task>)
    ensures Credits(p + q) == Credits(p) + Credits(q)
  {
    if p == [] {
      assert p + q == q;
    } else {
      assert (p + q)[1..] == p[1..] + q;
      CreditsAppend(p[1..], q);
    }
  }

  lemma {:induction false} WritesCreditNothing(w: seq<Task>)
    requires OnlyWrites(w)
    ensures Credits(w) == 0
  {
    if w != [] { WritesCreditNothing(w[1..]); }
  }

  lemma RunsInPlace(per: nat, m: Meta, off: nat, len: nat, at: nat, ps: seq<Task>, disk: nat)
    requires per > 0 && off + len <= disk && Coalesced(per, m, off, len, at, len, ps)
    ensures InPlace(ps, off, at, disk)
    ensures forall b: nat :: off <= b < off + len ==> (SomeReads(ps, b) <==> !Hit(per, m, b))
  {
    assert forall j :: 0 <= j < |ps| ==> MaximalRun(per, m, off, len, at, ps[j]);
  }

  /** A whole read: after redirect_read has copied the hits and posted the misses behind the writes w
      that were pending, and the SSD worker has executed them all, every block is in its place --
      from the buffer, else as the last pending write over it has it, else from the SSD -- and the
      credits of both workers add up to the length, each block counted once. */
  lemma ReadComplete(per: nat, m: Meta, base: nat, slots: seq<Data>, off: nat, len: nat, at: nat,
                     before: seq<Data>, now: seq<Data>, ssd: seq<Data>, w: seq<Task>, ps: seq<Task>, b: nat)
    requires per > 0 && off + len <= |ssd| && at + len <= |before| && OnlyWrites(w)
    requires Coalesced(per, m, off, len, at, len, ps) && Delivered(per, m, base, slots, off, at, len, before, now)
    requires off <= b < off + len
    ensures LoadedAll(now, ssd, w + ps)[at + (b - off)] ==
            if Hit(per, m, b) then Buffered(per, m, base, slots, b)
            else match LastWrite(w, b) case Some(x) => x case None => ssd[b]
    ensures CountHits(per, m, off, len) + Credits(w + ps) == len
  {
    RunsInPlace(per, m, off, len, at, ps, |ssd|);
    CreditsAddUp(per, m, off, len, at, len, ps);
    assert forall j :: 0 <= j < |ps| ==> ps[j].ReadTask?;
    hide Coalesced, Hit, SomeReads, MaximalRun;
    WritesFirst(now, ssd, w, ps);
    LoadsInPlace(now, StoredAll(ssd, w), ps, off, at, b);
    LastWriteWins(ssd, w, b);
    var k := at + (b - off);
    assert off + k - at == b;
    CreditsAppend(w, ps);
    WritesCreditNothing(w);
    CreditsAreLengths(ps);
  }

  // ----- the worker -----

  class Worker {
    const ssd: array<Data>
    var queue: seq<Task>
    /** queue_empty. */
    var empty: bool
    /** completed_ssd_write_block_num. */
    var written: nat

    constructor (ssd: array<Data>)
      ensures this.ssd == ssd && queue == [] && !empty && written == 0
    {
      this.ssd, queue, empty, written := ssd, [], false, 0;
    }

    /** mix_post_task_to_ssd: the flag stays as it is, so it can be up with a task waiting. */
    method Post(t: Task)
      modifies this`queue
      ensures queue == old(queue) + [t]
    {
      queue := queue + [t];
    }

    /** get_task_from_ssd_queue. */
    method GetTask() returns (t: Option<Task>)
      modifies this`queue, this`empty
      ensures empty == (old(queue) == [])
      ensures if old(queue) == [] then t == None && queue == [] else t == Some(old(queue)[0]) && queue == old(queue)[1..]
    {
      if queue == [] {
        empty := true;
        return None;
      }
      empty := false;
      t := Some(queue[0]);
      queue := queue[1..];
    }

    /** One task; credit is what is added to the read's ret. */
    method Execute(t: Task, buf: array<Data>) returns (credit: nat)
      requires buf != ssd
      modifies this`written, ssd, buf
      ensures ssd[..] == Stored(old(ssd[..]), t) && buf[..] == Loaded(old(buf[..]), old(ssd[..]), t) && credit == Credit(t)
      ensures written == old(written) + if t.WriteTask? then |t.data| else 0
    {
      match t
      case WriteTask(off, data) =>
        forall b | off <= b < off + |data| && b < ssd.Length { ssd[b] := data[b - off]; }
        written := written + |data|;
        credit := 0;
      case ReadTask(off, len, at) =>
        forall x | at <= x < at + len && x < buf.Length && off + x - at < ssd.Length { buf[x] := ssd[off + x - at]; }
        credit := len;
    }

    /** The loop of ssd_worker, until it finds its queue empty. */
    method Run(buf: array<Data>) returns (credits: nat)
      requires buf != ssd
      modifies this`queue, this`empty, this`written, ssd, buf
      ensures queue == [] && empty && credits == Credits(old(queue))
      ensures ssd[..] == StoredAll(old(ssd[..]), old(queue)) && buf[..] == LoadedAll(old(buf[..]), old(ssd[..]), old(queue))
    {
      hide Stored, Loaded;
      credits := 0;
      var t := GetTask();
      while t.Some?
        invariant t.None? ==> queue == [] && empty
        invariant StoredAll(old(ssd[..]), old(queue)) == StoredAll(ssd[..], Ahead(t, queue))
        invariant LoadedAll(old(buf[..]), old(ssd[..]), old(queue)) == LoadedAll(buf[..], ssd[..], Ahead(t, queue))
        invariant Credits(old(queue)) == credits + Credits(Ahead(t, queue))
        decreases |Ahead(t, queue)|
      {
        assert Ahead(t, queue)[1..] == queue;
        var credit := Execute(t.value, buf);
        credits := credits + credit;
        t := GetTask();
      }
    }
  }

  /** The task at hand and those still queued. */
  function Ahead(t: Option<Task>, q: seq<Task>): seq<Task> {
    if t.Some? then [t.value] + q else q
  }
}
