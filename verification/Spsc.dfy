/** The ring of mix_queue.c with its producer and its consumer running at the same time: each
    reads the other's counter once, copies, and publishes its own counter.  Every interleaving,
    any number of calls, across the wrap-around of both counters. */
module Spsc {
  import opened Common
  import opened Counters

  type Elem = seq<bv8>

  datatype Producer = PIdle | PCopy(src: seq<Elem>, n: nat, c: nat)

  datatype Consumer = CIdle | CCopy(n: nat, got: seq<Elem>)

  /** sent and received note every element whose publication is through. */
  datatype State = State(
    log: nat, data: seq<Elem>, enq: nat, deq: nat, producer: Producer, consumer: Consumer,
    sent: seq<Elem>, received: seq<Elem>)

  function Cap(s: State): nat {
    Pow2(s.log)
  }

  /** Where the c-th element of a copy goes whose first one is masked from counter x. */
  function Slot(s: State, x: nat, c: nat): int {
    var p := BitAnd(x, Cap(s) - 1) + c;
    if p < Cap(s) then p else p - Cap(s)
  }

  datatype Step =
    | BeginPut(src: seq<Elem>)
    | Smear(junk: Elem)
    | Put
    | PublishPut
    | BeginGet(len: nat)
    | Get
    | PublishGet

  predicate Shaped(s: State) {
    1 <= s.log < 32 && |s.data| == Cap(s) && s.enq < WORD() && s.deq < WORD()
  }

  predicate Enabled(s: State, e: Step) {
    && Shaped(s)
    && match e
       case BeginPut(src) => s.producer.PIdle?
       case Smear(junk) => s.producer.PCopy? && s.producer.c < s.producer.n && 0 <= Slot(s, s.enq, s.producer.c) < Cap(s)
       case Put =>
         && s.producer.PCopy? && s.producer.c < s.producer.n <= |s.producer.src|
         && 0 <= Slot(s, s.enq, s.producer.c) < Cap(s)
       case PublishPut => s.producer.PCopy? && s.producer.c == s.producer.n <= |s.producer.src|
       case BeginGet(len) => s.consumer.CIdle?
       case Get => s.consumer.CCopy? && |s.consumer.got| < s.consumer.n && 0 <= Slot(s, s.deq, |s.consumer.got|) < Cap(s)
       case PublishGet => s.consumer.CCopy? && |s.consumer.got| == s.consumer.n
  }

  /** Smear is a copy caught half-way: the slot holds anything until Put completes it. */
  function Do(s: State, e: Step): State
    requires Enabled(s, e)
  {
    match e
    case BeginPut(src) =>
      var room := Cap(s) - Sub32(s.enq, s.deq);
      s.(producer := PCopy(src, if |src| > room && room >= 0 then room else |src|, 0))
    case Smear(junk) => s.(data := s.data[Slot(s, s.enq, s.producer.c) := junk])
    case Put =>
      var PCopy(src, n, c) := s.producer;
      s.(data := s.data[Slot(s, s.enq, c) := src[c]], producer := PCopy(src, n, c + 1))
    case PublishPut =>
      s.(enq := Add32(s.enq, s.producer.n), sent := s.sent + s.producer.src[..s.producer.n], producer := PIdle)
    case BeginGet(len) =>
      var l := Sub32(s.enq, s.deq);
      if l == 0 then s else s.(consumer := CCopy(if len > l then l else len, []))
    case Get => s.(consumer := CCopy(s.consumer.n, s.consumer.got + [s.data[Slot(s, s.deq, |s.consumer.got|)]]))
    case PublishGet =>
      s.(deq := Add32(s.deq, s.consumer.n), received := s.received + s.consumer.got, consumer := CIdle)
  }

  /** Element number k is in its slot. */
  predicate InSlot(s: State, k: nat, x: Elem) {
    Mod(k, Cap(s)) < |s.data| && s.data[Mod(k, Cap(s))] == x
  }

  ghost predicate Inv(s: State) {
    && Shaped(s)
    && s.enq == Mod(|s.sent|, WORD()) && s.deq == Mod(|s.received|, WORD())
    && s.received <= s.sent && |s.sent| <= |s.received| + Cap(s)
    && (forall k: nat :: |s.received| <= k < |s.sent| ==> InSlot(s, k, s.sent[k]))
    && (s.producer.PCopy? ==>
          var PCopy(src, n, c) := s.producer;
          && c <= n <= |src| && |s.sent| + n <= |s.received| + Cap(s)
          && forall j: nat :: j < c ==> InSlot(s, |s.sent| + j, src[j]))
    && (s.consumer.CCopy? ==>
          var CCopy(n, got) := s.consumer;
          && |got| <= n && |s.received| + n <= |s.sent|
          && got == s.sent[|s.received|..|s.received| + |got|])
  }

  /** The abstract queue. */
  function Queue(s: State): seq<Elem>
    requires |s.received| <= |s.sent|
  {
    s.sent[|s.received|..]
  }

  ghost predicate Init(s: State) {
    Shaped(s) && s.enq == 0 && s.deq == 0 && s.producer == PIdle && s.consumer == CIdle && s.sent == [] && s.received == []
  }

  lemma InitInv(s: State)
    requires Init(s)
    ensures Inv(s)
  {
  }

  /** The slot the code computes is that of the element's number. */
  lemma SlotIs(s: State, total: nat, c: nat)
    requires s.log <= 32 && c <= Cap(s)
    ensures Slot(s, Mod(total, WORD()), c) == Mod(total + c, Cap(s))
    ensures Mod(total + c, Cap(s)) < Cap(s)
  {
    hide BitAnd, Mod, Pow2;
    MaskIsMod(Mod(total, WORD()), s.log);
    PowDivides(s.log, 32);
    ModMod(total, WORD(), Cap(s));
    ModSum(total, c, Cap(s));
    ModOnce(Mod(total, Cap(s)) + c, Cap(s));
  }

  /** Fewer than Cap(s) apart, two elements never share a slot. */
  lemma OtherSlot(s: State, a: nat, b: nat)
    requires a < b < a + Cap(s)
    ensures Mod(a, Cap(s)) != Mod(b, Cap(s))
  {
    ModDistinct(a, b, Cap(s));
  }

  lemma Difference(s: State)
    requires Inv(s)
    ensures Sub32(s.enq, s.deq) == |Queue(s)| <= Cap(s)
  {
    PowGrows(s.log, 32);
    Sub32Exact(|s.sent|, |s.received|);
  }

  lemma Advanced(total: nat, n: nat)
    ensures Add32(Mod(total, WORD()), n) == Mod(total + n, WORD())
  {
    ModSum(total, n, WORD());
  }

  // ----- steps -----

  /** Writing the producer's next slot, whatever goes there, disturbs no published element and no
      element copied so far. */
  lemma WriteOk(s: State, x: Elem)
    requires Inv(s) && s.producer.PCopy? && s.producer.c < s.producer.n
    ensures var p := Slot(s, s.enq, s.producer.c);
            && p == Mod(|s.sent| + s.producer.c, Cap(s)) < Cap(s)
            && Inv(s.(data := s.data[p := x]))
            && InSlot(s.(data := s.data[p := x]), |s.sent| + s.producer.c, x)
  {
    hide Pow2, WORD;
    var c := s.producer.c;
    SlotIs(s, |s.sent|, c);
    var p := Slot(s, s.enq, c);
    var t := s.(data := s.data[p := x]);
    forall k: nat | |s.received| <= k < |s.sent| ensures InSlot(t, k, t.sent[k]) {
      assert InSlot(s, k, s.sent[k]);
      OtherSlot(s, k, |s.sent| + c);
    }
    forall j: nat | j < c ensures InSlot(t, |t.sent| + j, t.producer.src[j]) {
      assert InSlot(s, |s.sent| + j, s.producer.src[j]);
      OtherSlot(s, |s.sent| + j, |s.sent| + c);
    }
  }

  lemma PutOk(s: State)
    requires Inv(s) && Enabled(s, Put)
    ensures Inv(Do(s, Put))
  {
    hide Pow2, WORD, Mod;
    var PCopy(src, n, c) := s.producer;
    WriteOk(s, src[c]);
    var t := Do(s, Put);
    forall j: nat | j < c + 1 ensures InSlot(t, |t.sent| + j, src[j]) {
      if j < c { assert InSlot(s.(data := t.data), |s.sent| + j, src[j]); }
    }
    assert forall k: nat :: |t.received| <= k < |t.sent| ==> InSlot(s.(data := t.data), k, s.sent[k]);
  }

  lemma PublishPutOk(s: State)
    requires Inv(s) && Enabled(s, PublishPut)
    ensures Inv(Do(s, PublishPut))
  {
    hide Pow2, WORD, Add32;
    var t := Do(s, PublishPut);
    var PCopy(src, n, c) := s.producer;
    Advanced(|s.sent|, n);
    forall k: nat | |t.received| <= k < |t.sent| ensures InSlot(t, k, t.sent[k]) {
      if k < |s.sent| { assert InSlot(s, k, s.sent[k]); } else { assert InSlot(s, |s.sent| + (k - |s.sent|), src[k - |s.sent|]); }
    }
  }

  lemma GetOk(s: State)
    requires Inv(s) && Enabled(s, Get)
    ensures Inv(Do(s, Get))
  {
    hide Pow2, WORD, Mod, Slot;
    var k := |s.received| + |s.consumer.got|;
    SlotIs(s, |s.received|, |s.consumer.got|);
    assert InSlot(s, k, s.sent[k]);
    var t := Do(s, Get);
    assert forall j: nat :: |t.received| <= j < |t.sent| ==> InSlot(s, j, s.sent[j]);
    assert t.producer.PCopy? ==> forall j: nat :: j < t.producer.c ==> InSlot(s, |t.sent| + j, t.producer.src[j]);
  }

  lemma PublishGetOk(s: State)
    requires Inv(s) && Enabled(s, PublishGet)
    ensures Inv(Do(s, PublishGet))
  {
    hide Pow2, WORD, Add32;
    var t := Do(s, PublishGet);
    Advanced(|s.received|, s.consumer.n);
    assert t.received == s.sent[..|t.received|];
    assert forall j: nat :: |t.received| <= j < |t.sent| ==> InSlot(s, j, s.sent[j]);
    assert t.producer.PCopy? ==> forall j: nat :: j < t.producer.c ==> InSlot(s, |t.sent| + j, t.producer.src[j]);
  }

  lemma BeginPutOk(s: State, src: seq<Elem>)
    requires Inv(s) && Enabled(s, BeginPut(src))
    ensures Inv(Do(s, BeginPut(src)))
  {
    Difference(s);
    hide Pow2, WORD, Sub32;
    var t := Do(s, BeginPut(src));
    assert t.producer.c == 0;
    assert forall j: nat :: |t.received| <= j < |t.sent| ==> InSlot(s, j, s.sent[j]);
  }

  lemma BeginGetOk(s: State, len: nat)
    requires Inv(s) && Enabled(s, BeginGet(len))
    ensures Inv(Do(s, BeginGet(len)))
  {
    Difference(s);
    hide Pow2, WORD, Sub32, Slot, InSlot, Cap;
    var t := Do(s, BeginGet(len));
    if |Queue(s)| > 0 {
      assert t == s.(consumer := t.consumer) && t.consumer.n <= |Queue(s)|;
      SameSlots(s, t);
    }
  }

  lemma SameSlots(s: State, t: State)
    requires t.log == s.log && t.data == s.data
    ensures Cap(t) == Cap(s)
    ensures forall k: nat, x: Elem :: InSlot(s, k, x) ==> InSlot(t, k, x)
  {
  }

  lemma StepSafe(s: State, e: Step)
    requires Inv(s) && Enabled(s, e)
    ensures Inv(Do(s, e))
  {
    match e
    case BeginPut(src) => BeginPutOk(s, src);
    case BeginGet(len) => BeginGetOk(s, len);
    case Smear(junk) => WriteOk(s, junk);
    case Put => PutOk(s);
    case PublishPut => PublishPutOk(s);
    case Get => GetOk(s);
    case PublishGet => PublishGetOk(s);
  }

  // ----- what every interleaving guarantees -----

  /** Each call takes effect on the abstract queue at once, at its publication, and no other step
      changes the queue: a put appends the elements it copied, a get removes from the front
      exactly the elements it returns, intact. */
  lemma Linearizes(s: State, e: Step)
    requires Inv(s) && Enabled(s, e)
    ensures Inv(Do(s, e))
    ensures Queue(Do(s, e)) ==
            if e.PublishPut? then Queue(s) + s.producer.src[..s.producer.n]
            else if e.PublishGet? then Queue(s)[|s.consumer.got|..]
            else Queue(s)
    ensures e.PublishGet? ==> s.consumer.got == Queue(s)[..s.consumer.n]
  {
    hide Slot, WORD, Pow2, Mod;
    StepSafe(s, e);
  }

  /** A put takes as many of its elements as there is room for when it reads the consumer's
      counter; a get as many as it asks for of those there when it reads the producer's. */
  lemma HowMany(s: State, e: Step)
    requires Inv(s) && Enabled(s, e)
    ensures e.BeginPut? ==>
              var room := Cap(s) - |Queue(s)|;
              Do(s, e).producer == PCopy(e.src, if |e.src| > room then room else |e.src|, 0)
    ensures e.BeginGet? ==>
              var n := |Queue(s)|;
              Do(s, e).consumer == if n == 0 then CIdle else CCopy(if e.len > n then n else e.len, [])
  {
    Difference(s);
  }

  /** No slot is ever being written and read at the same time. */
  lemma RangesDisjoint(s: State, i: nat, j: nat)
    requires Inv(s) && s.producer.PCopy? && s.consumer.CCopy? && i < s.producer.n && j < s.consumer.n
    ensures Slot(s, s.enq, i) != Slot(s, s.deq, j)
  {
    SlotIs(s, |s.sent|, i);
    SlotIs(s, |s.received|, j);
    OtherSlot(s, |s.received| + j, |s.sent| + i);
  }

  ghost predicate Run(s: State, es: seq<Step>, t: State)
    decreases es
  {
    if es == [] then t == s else Enabled(s, es[0]) && Run(Do(s, es[0]), es[1..], t)
  }

  /** First in, first out: over any run nothing is lost, doubled, reordered or torn. */
  lemma {:induction false} Fifo(s: State, es: seq<Step>, t: State)
    requires Inv(s) && Run(s, es, t)
    ensures Inv(t) && s.sent <= t.sent && s.received <= t.received <= t.sent
    decreases es
  {
    hide Slot, WORD, Pow2;
    if es != [] {
      var m := Do(s, es[0]);
      StepSafe(s, es[0]);
      assert s.sent <= m.sent && s.received <= m.received;
      Fifo(m, es[1..], t);
    }
  }

  // ----- every call can return -----

  predicate OfProducer(e: Step) {
    e.BeginPut? || e.Put? || e.PublishPut?
  }

  predicate OfConsumer(e: Step) {
    e.BeginGet? || e.Get? || e.PublishGet?
  }

  /** Whatever the other side has done meanwhile, a put under way ends by its own steps alone, and has
      sent the number of elements it settled on -- none, if there was no room. */
  lemma {:induction false} PutEnds(s: State) returns (es: seq<Step>, t: State)
    requires Inv(s) && s.producer.PCopy?
    ensures Run(s, es, t) && Inv(t) && forall e :: e in es ==> OfProducer(e)
    ensures t.producer == PIdle && t.consumer == s.consumer && t.received == s.received
    ensures Queue(t) == Queue(s) + s.producer.src[..s.producer.n]
    decreases s.producer.n - s.producer.c
  {
    hide Slot, WORD, Pow2, Mod;
    if s.producer.c < s.producer.n {
      WriteOk(s, s.producer.src[s.producer.c]);
      PutOk(s);
      var m := Do(s, Put);
      var rest;
      rest, t := PutEnds(m);
      es := [Put] + rest;
      assert es[1..] == rest;
    } else {
      PublishPutOk(s);
      es, t := [PublishPut], Do(s, PublishPut);
      assert es[1..] == [];
    }
  }

  /** Likewise a get. */
  lemma {:induction false} GetEnds(s: State) returns (es: seq<Step>, t: State)
    requires Inv(s) && s.consumer.CCopy?
    ensures Run(s, es, t) && Inv(t) && forall e :: e in es ==> OfConsumer(e)
    ensures t.consumer == CIdle && t.producer == s.producer && t.sent == s.sent
    ensures s.consumer.n <= |Queue(s)| && Queue(t) == Queue(s)[s.consumer.n..] && t.received == s.received + Queue(s)[..s.consumer.n]
    decreases s.consumer.n - |s.consumer.got|
  {
    hide Slot, WORD, Pow2, Mod;
    if |s.consumer.got| < s.consumer.n {
      ReadInside(s);
      GetOk(s);
      var m := Do(s, Get);
      var rest;
      rest, t := GetEnds(m);
      es := [Get] + rest;
      assert es[1..] == rest;
    } else {
      PublishGetOk(s);
      es, t := [PublishGet], Do(s, PublishGet);
      assert es[1..] == [];
    }
  }

  lemma ReadInside(s: State)
    requires Inv(s) && s.consumer.CCopy? && |s.consumer.got| < s.consumer.n
    ensures Enabled(s, Get)
  {
    hide Pow2, WORD, Mod;
    SlotIs(s, |s.received|, |s.consumer.got|);
  }

  function Least(x: nat, y: nat): nat {
    if x < y then x else y
  }

  /** mix_enqueue, called at any moment, can run to its end, and then has sent as many elements as there
      was room for when it was called. */
  lemma PutReturns(s: State, src: seq<Elem>) returns (es: seq<Step>, t: State)
    requires Inv(s) && s.producer.PIdle?
    ensures Run(s, es, t) && Inv(t) && (forall e :: e in es ==> OfProducer(e)) && t.producer == PIdle
    ensures |Queue(s)| <= Cap(s) && Queue(t) == Queue(s) + src[..Least(|src|, Cap(s) - |Queue(s)|)]
  {
    hide Slot, WORD, Pow2, Mod, Sub32;
    Difference(s);
    BeginPutOk(s, src);
    HowMany(s, BeginPut(src));
    var m := Do(s, BeginPut(src));
    var rest;
    rest, t := PutEnds(m);
    es := [BeginPut(src)] + rest;
    assert es[1..] == rest;
  }

  /** And mix_dequeue, which then has returned as many as it asked for of those there were. */
  lemma GetReturns(s: State, len: nat) returns (es: seq<Step>, t: State)
    requires Inv(s) && s.consumer.CIdle?
    ensures Run(s, es, t) && Inv(t) && (forall e :: e in es ==> OfConsumer(e)) && t.consumer == CIdle
    ensures var n := Least(len, |Queue(s)|); Queue(t) == Queue(s)[n..] && t.received == s.received + Queue(s)[..n]
  {
    hide Slot, WORD, Pow2, Mod, Sub32;
    BeginGetOk(s, len);
    HowMany(s, BeginGet(len));
    var m := Do(s, BeginGet(len));
    if m.consumer.CCopy? {
      var rest;
      rest, t := GetEnds(m);
      es := [BeginGet(len)] + rest;
      assert es[1..] == rest;
    } else {
      es, t := [BeginGet(len)], m;
      assert es[1..] == [];
    }
  }
}
