/** The ring of mix_queue.c: a byte buffer of Capacity() elements addressed by two free-running
    32-bit counters, and its specification, a FIFO of bytes. */
module RingQueue {
  import opened Common
  import opened Counters

  type Byte = bv8

  /** Elements that __mix_queue_init makes room for in a buffer of size bytes. */
  function Elements(size: nat, esize: nat): nat
    requires esize > 0 && size >= esize
  {
    if Div(size, esize) > 0 then RoundUp(Div(size, esize)) else 0
  }

  /** mix_queue_init allocates size bytes; the ring stays inside them exactly when the number of
      whole elements is a power of two. */
  lemma RingFitsExact(size: nat, esize: nat)
    requires esize > 0 && size >= esize
    ensures Elements(size, esize) * esize <= size <==> IsPow2(Div(size, esize))
  {
    var n := Div(size, esize);
    DivBound(size, esize);
    RoundUpLeast(n);
    DivModSum(size, esize);
    hide RoundUp, IsPow2, Div, Mod;
    if RoundUp(n) > n {
      MulMono(n + 1, RoundUp(n), esize);
      Distribute(n + 1, 1, esize);
    }
  }

  lemma {:induction false} MulMono(a: nat, b: nat, c: nat)
    requires a <= b
    ensures a * c <= b * c
  {
    assert (b - a) * c >= 0;
    Distribute(b, a, c);
  }

  /** The n bytes from position p on, going round the end of the buffer. */
  ghost function Bytes(data: seq<Byte>, p: nat, n: nat): (s: seq<Byte>)
    requires p <= |data| && n <= |data|
    ensures |s| == n
  {
    if p + n <= |data| then data[p..p + n] else data[p..] + data[..p + n - |data|]
  }

  /** Storing n bytes at position p and, past the end, at the start: the two memcpy calls. */
  ghost function Stored(data: seq<Byte>, p: nat, src: seq<Byte>): (d: seq<Byte>)
    requires p <= |data| && |src| <= |data|
    ensures |d| == |data|
  {
    var l := if |src| <= |data| - p then |src| else |data| - p;
    src[l..] + data[|src| - l..p] + src[..l] + data[p + l..]
  }

  function Wrap(x: nat, size: nat): (y: int)
    ensures x < size + size ==> 0 <= y < size || size == 0
  {
    if x < size then x else x - size
  }

  lemma BytesAt(data: seq<Byte>, p: nat, n: nat, k: nat)
    requires p < |data| && k < n <= |data|
    ensures Bytes(data, p, n)[k] == data[Wrap(p + k, |data|)]
  {
  }

  lemma StoredAt(data: seq<Byte>, p: nat, src: seq<Byte>, j: nat)
    requires p < |data| && |src| <= |data| && j < |data|
    ensures Stored(data, p, src)[j] ==
            if p <= j < p + |src| then src[j - p]
            else if j + |data| < p + |src| then src[j + |data| - p]
            else data[j]
  {
  }

  /** Storing behind the contents appends to them. */
  lemma StoreAppends(data: seq<Byte>, p: nat, n: nat, src: seq<Byte>)
    requires p < |data| && n + |src| <= |data|
    ensures Bytes(Stored(data, Wrap(p + n, |data|), src), p, n + |src|) == Bytes(data, p, n) + src
  {
    hide Bytes, Stored;
    var q := Wrap(p + n, |data|);
    var d := Stored(data, q, src);
    var l, r := Bytes(d, p, n + |src|), Bytes(data, p, n) + src;
    forall k: nat | k < n + |src| ensures l[k] == r[k] {
      BytesAt(d, p, n + |src|, k);
      StoredAt(data, q, src, Wrap(p + k, |data|));
      if k < n { BytesAt(data, p, n, k); }
    }
  }

  /** Moving the start over m bytes drops exactly those. */
  lemma DropBytes(data: seq<Byte>, p: nat, n: nat, m: nat)
    requires p < |data| && m <= n <= |data|
    ensures Bytes(data, Wrap(p + m, |data|), n - m) == Bytes(data, p, n)[m..]
  {
    hide Bytes;
    var l, r := Bytes(data, Wrap(p + m, |data|), n - m), Bytes(data, p, n)[m..];
    forall k: nat | k < n - m ensures l[k] == r[k] {
      BytesAt(data, p, n, m + k);
      if Wrap(p + m, |data|) < |data| { BytesAt(data, Wrap(p + m, |data|), n - m, k); }
    }
  }

  lemma TakeBytes(data: seq<Byte>, p: nat, n: nat, m: nat)
    requires p < |data| && m <= n <= |data|
    ensures Bytes(data, p, m) == Bytes(data, p, n)[..m]
  {
    forall k: nat | k < m ensures Bytes(data, p, m)[k] == Bytes(data, p, n)[k] {
      BytesAt(data, p, m, k);
      BytesAt(data, p, n, k);
    }
  }

  /** off *= esize, and the like. */
  method Times(x: nat, e: nat) returns (p: nat)
    ensures p == Scale(x, e)
  {
    ScaleIsProduct(x, e);
    p := x * e;
  }

  /** memcpy between two buffers. */
  method Memcpy(dst: array<Byte>, at: nat, src: array<Byte>, from: nat, n: nat)
    requires dst != src && at + n <= dst.Length && from + n <= src.Length
    modifies dst
    ensures dst[..] == old(dst[..at]) + src[from..from + n] + old(dst[at + n..])
  {
    forall k | 0 <= k < n {
      dst[at + k] := src[from + k];
    }
  }

  /** A wrapped counter, masked, is the count modulo the capacity. */
  lemma Masked(total: nat, log: nat)
    requires log <= 32
    ensures BitAnd(Mod(total, WORD()), Pow2(log) - 1) == Mod(total, Pow2(log))
  {
    MaskIsMod(Mod(total, WORD()), log);
    PowDivides(log, 32);
    ModMod(total, WORD(), Pow2(log));
  }

  /** The byte position z elements behind that of element number x. */
  lemma Behind(x: nat, z: nat, cap: nat, e: nat)
    requires 0 < cap && 0 < e && z <= cap
    ensures Scale(Mod(x + z, cap), e) == Wrap(Scale(Mod(x, cap), e) + Scale(z, e), Scale(cap, e))
    ensures Scale(Mod(x + z, cap), e) < Scale(cap, e)
  {
    var o := Mod(x, cap);
    ModSum(x, z, cap);
    ModOnce(o + z, cap);
    ScaleSum(o, z, e);
    ScaleMono(Mod(x + z, cap), cap, e);
    if o + z < cap {
      ScaleMono(o + z, cap, e);
    } else {
      ScaleSum(o + z - cap, cap, e);
    }
  }

  /** The two pieces that __mix_enqueue copies. */
  lemma TwoPieces(data: seq<Byte>, at: nat, s: seq<Byte>, l: nat, one: seq<Byte>, two: seq<Byte>)
    requires at < |data| && |s| <= |data| && l == (if |s| > |data| - at then |data| - at else |s|)
    requires one == data[..at] + s[..l] + data[at + l..]
    requires two == one[..0] + s[l..] + one[|s| - l..]
    ensures two == Stored(data, at, s)
  {
  }

  class MixQueue {
    // counters of elements in and out, modulo 2^32; the mask; the size of an element; the bytes
    var enq: nat
    var deq: nat
    var mask: nat
    var esize: nat
    var data: array<Byte>
    // for the proofs: how many elements ever went in and out, and the power of two
    ghost var sent: nat
    ghost var gone: nat
    ghost var log: nat

    ghost predicate Valid()
      reads this
    {
      && mask + 1 == Pow2(log) && 1 <= log < 32
      && esize > 0 && data.Length == Scale(mask + 1, esize)
      && gone <= sent <= gone + mask + 1
      && enq == Mod(sent, WORD()) && deq == Mod(gone, WORD())
    }

    /** Elements in the queue. */
    ghost function Size(): nat
      reads this
      requires Valid()
    {
      sent - gone
    }

    /** Where the oldest byte is. */
    ghost function Start(): (p: nat)
      reads this
      requires Valid()
    {
      Scale(Mod(gone, mask + 1), esize)
    }

    lemma StartInside()
      requires Valid()
      ensures Start() < data.Length && Scale(Size(), esize) <= data.Length
    {
      hide Pow2, WORD;
      ScaleMono(Mod(gone, mask + 1), mask + 1, esize);
      ScaleMono(Size(), mask + 1, esize);
    }

    /** The queued bytes, oldest first. */
    ghost function Contents(): seq<Byte>
      reads this, data
      requires Valid()
    {
      StartInside();
      Bytes(data[..], Start(), Scale(Size(), esize))
    }

    /** mix_queue_init on size bytes, when it succeeds and the ring stays inside the buffer. */
    constructor (size: nat, esize: nat)
      requires 0 < esize && esize + esize <= size < Pow2(31) && IsPow2(Div(size, esize))
      ensures Valid() && fresh(data) && Contents() == [] && Size() == 0
      ensures mask + 1 == Elements(size, esize) && this.esize == esize
    {
      var n := Elements(size, esize);
      this.esize := esize;
      mask := n - 1;
      enq, deq := 0, 0;
      data := new Byte[n * esize];
      sent, gone := 0, 0;
      log := Fls(Div(size, esize) - 1);
      new;
      ScaleIsProduct(n, esize);
      LogInRange(size, esize);
    }

    /** Where the next element goes: right behind the contents. */
    lemma NextSlot()
      requires Valid()
      ensures BitAnd(enq, mask) == Mod(sent, mask + 1)
      ensures Scale(Mod(sent, mask + 1), esize) == Wrap(Start() + Scale(Size(), esize), data.Length)
      ensures Scale(Mod(sent, mask + 1), esize) < data.Length
    {
      hide Pow2, WORD;
      Masked(sent, log);
      Behind(gone, Size(), mask + 1, esize);
    }

    lemma OldestSlot()
      requires Valid()
      ensures BitAnd(deq, mask) == Mod(gone, mask + 1)
    {
      Masked(gone, log);
    }

    /** __mix_queue_unused. */
    method Unused() returns (l: nat)
      requires Valid()
      ensures l == mask + 1 - Size()
    {
      PowGrows(log, 32);
      Sub32Exact(sent, gone);
      l := mask + 1 - Sub32(enq, deq);
    }

    /** __mix_enqueue: n bytes go to byte position at, in two pieces at the end of the buffer. */
    method CopyIn(src: array<Byte>, n: nat, at: nat)
      requires src != data && n <= data.Length && n <= src.Length && at < data.Length
      modifies data
      ensures data[..] == Stored(old(data[..]), at, src[..n])
    {
      var l := if n > data.Length - at then data.Length - at else n;
      Memcpy(data, at, src, 0, l);
      ghost var one := data[..];
      Memcpy(data, 0, src, l, n - l);
      assert src[..n][..l] == src[0..l] && src[..n][l..] == src[l..l + (n - l)];
      TwoPieces(old(data[..]), at, src[..n], l, one, data[..]);
    }

    /** __mix_dequeue: n bytes come from byte position at, in two pieces at the end of the buffer. */
    method CopyOut(dst: array<Byte>, n: nat, at: nat)
      requires dst != data && n <= data.Length && n <= dst.Length && at < data.Length
      modifies dst
      ensures dst[..] == Bytes(data[..], at, n) + old(dst[n..])
    {
      var l := if n > data.Length - at then data.Length - at else n;
      Memcpy(dst, 0, data, at, l);
      ghost var one := dst[..];
      Memcpy(dst, l, data, 0, n - l);
      assert one[..l] == data[at..at + l] && one[n..] == old(dst[n..]);
      assert Bytes(data[..], at, n) == data[at..at + l] + data[0..n - l];
    }

    /** mix_enqueue: as many of the len elements as there is room for go to the back. */
    method Enqueue(src: array<Byte>, len: nat) returns (n: nat)
      requires Valid() && src != data && src.Length == Scale(len, esize)
      modifies this`enq, this`sent, data
      ensures Valid()
      ensures n == if len > mask + 1 - old(Size()) then mask + 1 - old(Size()) else len
      ensures Size() == old(Size()) + n
      ensures Scale(n, esize) <= src.Length && Contents() == old(Contents()) + src[..Scale(n, esize)]
    {
      hide Pow2, WORD, Add32, BitAnd, Scale, Mod, Bytes, Stored;
      StartInside();
      NextSlot();
      var room := Unused();
      n := if len > room then room else len;
      ScaleSum(Size(), n, esize);
      ScaleMono(Size() + n, mask + 1, esize);
      ScaleMono(n, len, esize);
      var bytes := Times(n, esize);
      var at := Times(BitAnd(enq, mask), esize);
      CopyIn(src, bytes, at);
      StoreAppends(old(data[..]), Start(), Scale(Size(), esize), src[..Scale(n, esize)]);
      Wrapped(sent, n);
      enq := Add32(enq, n);
      sent := sent + n;
    }

    /** mix_dequeue: as many of the len elements as there are come from the front. */
    method Dequeue(dst: array<Byte>, len: nat) returns (n: nat)
      requires Valid() && dst != data && dst.Length == Scale(len, esize)
      modifies this`deq, this`gone, dst
      ensures Valid()
      ensures n == if len > old(Size()) then old(Size()) else len
      ensures Size() == old(Size()) - n
      ensures Scale(n, esize) <= dst.Length && Scale(n, esize) <= |old(Contents())|
      ensures dst[..] == old(Contents())[..Scale(n, esize)] + old(dst[Scale(n, esize)..])
      ensures Contents() == old(Contents())[Scale(n, esize)..]
    {
      hide Pow2, WORD, Add32, BitAnd, Sub32, Scale, Mod, Bytes;
      StartInside();
      OldestSlot();
      PowGrows(log, 32);
      CountersDiffer();
      var l := Sub32(enq, deq);
      if l == 0 {
        n := 0;
        ScaleZero(esize);
        return;
      }
      n := if len > l then l else len;
      ScaleMono(n, Size(), esize);
      ScaleMono(n, len, esize);
      ScaleSum(n, Size() - n, esize);
      var bytes := Times(n, esize);
      var at := Times(BitAnd(deq, mask), esize);
      CopyOut(dst, bytes, at);
      TakeBytes(data[..], Start(), Scale(Size(), esize), Scale(n, esize));
      DropBytes(data[..], Start(), Scale(Size(), esize), Scale(n, esize));
      Behind(gone, n, mask + 1, esize);
      Wrapped(gone, n);
      ghost var p, z := Start(), Scale(Size(), esize);
      deq := Add32(deq, n);
      gone := gone + n;
      assert Start() == Wrap(p + Scale(n, esize), data.Length);
      assert Scale(Size(), esize) == z - Scale(n, esize);
    }

    lemma CountersDiffer()
      requires Valid()
      ensures Sub32(enq, deq) == Size()
    {
      PowGrows(log, 32);
      Sub32Exact(sent, gone);
    }
  }

  /** A counter advanced by n is the wrapped advanced count. */
  lemma Wrapped(total: nat, n: nat)
    ensures Add32(Mod(total, WORD()), n) == Mod(total + n, WORD())
  {
    ModSum(total, n, WORD());
  }

  /** The capacity of a ring that fits its buffer is a power of two from 2 to 2^31. */
  lemma LogInRange(size: nat, esize: nat)
    requires 0 < esize && esize + esize <= size < Pow2(31) && IsPow2(Div(size, esize))
    ensures var k := Fls(Div(size, esize) - 1);
            1 <= k < 32 && Elements(size, esize) == Pow2(k) == Div(size, esize)
  {
    hide Pow2, IsPow2;
    var n := Div(size, esize);
    assert n >= 2 by { assert Div(size - esize, esize) >= 1; }
    DivBound(size, esize);
    RoundUpLeast(n);
    var k := Fls(n - 1);
    if k >= 32 {
      PowGrows(31, k);
    }
  }
}
