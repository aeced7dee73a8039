/** The migration barrier of mix_meta.c: an NVM worker that holds the mutex aims all migration
    threads at its segment, raises one flag per thread and waits for a counter; each thread, once
    woken, drains the buckets t, t+n, t+2n, .. of the segment's hash table, one entry at a time.
    Any number of threads, segments and rounds; every interleaving. */
module Barrier {
  import opened Common
  import opened Chains

  datatype Config = Config(threads: nat, segs: nat, buckets: nat)

  /** The reserved key and value that mix_hash_get_entry_by_idx returns for an empty bucket. */
  const NONE: nat := 0xFFFF_FFFF

  predicate Genuine(e: Entry) {
    e.key < NONE && e.slot < NONE
  }

  /** Where a thread is: at its flag, about to read the target, at a bucket, at the three steps
      that follow a pop, and at the two steps that end its pass, in either order. */
  datatype Thread =
    | Spin
    | Woken
    | Scan(seg: nat, j: nat)
    | Held(seg: nat, j: nat, e: Entry)
    | Copied(seg: nat, j: nat, e: Entry)
    | Cleared(seg: nat, j: nat, e: Entry)
    | Through(seg: nat)
    | Lowered(seg: nat)
    | Bumped(seg: nat)

  /** Where the holder of the mutex is. */
  datatype Phase =
    | Free
    | Locked(i: nat)
    | Aimed(i: nat)
    | Raising(i: nat, k: nat)
    | Waiting(i: nat)
    | Passed(i: nat)

  /** done, passes, orig and moved note, for the present round, who has bumped the counter, how
      often each thread has set out, what the table held, and what has reached the SSD. */
  datatype State = State(
    phase: Phase, target: nat, flags: seq<bool>, counts: seq<nat>, threads: seq<Thread>,
    tables: seq<Table>, used: seq<int>,
    done: set<nat>, passes: seq<nat>, orig: multiset<Entry>, moved: multiset<Entry>)

  datatype Step =
    | Touch(i: nat, table: Table)
    | Lock(i: nat)
    | Aim
    | Zero
    | Raise
    | Pass
    | Unlock
    | Notice(k: nat)
    | Depart(k: nat)
    | Pop(k: nat)
    | Copy(k: nat)
    | Clear(k: nat)
    | Uncount(k: nat)
    | First(k: nat)
    | Second(k: nat)

  ghost predicate Shaped(g: Config, s: State) {
    && g.threads > 0
    && |s.flags| == |s.threads| == |s.passes| == g.threads
    && |s.counts| == |s.tables| == |s.used| == g.segs
    && forall i :: 0 <= i < g.segs ==> |s.tables[i]| == g.buckets
  }

  // ----- bags of entries -----

  ghost function Bag(t: Table): multiset<Entry> {
    if t == [] then multiset{} else Bag(t[..|t| - 1]) + multiset(t[|t| - 1])
  }

  ghost function HeldBy(w: Thread): multiset<Entry> {
    if w.Held? then multiset{w.e} else multiset{}
  }

  /** Entries popped and not yet on the SSD. */
  ghost function HeldBag(ws: seq<Thread>): multiset<Entry> {
    if ws == [] then multiset{} else HeldBag(ws[..|ws| - 1]) + HeldBy(ws[|ws| - 1])
  }

  predicate Carries(w: Thread) {
    w.Held? || w.Copied? || w.Cleared?
  }

  /** Threads that have popped an entry and not yet counted it off. */
  ghost function Carrying(ws: seq<Thread>): nat {
    if ws == [] then 0 else Carrying(ws[..|ws| - 1]) + if Carries(ws[|ws| - 1]) then 1 else 0
  }

  /** An equation between sums of bags, with one more bag on both sides. */
  lemma Swap(u: multiset<Entry>, v: multiset<Entry>, a: multiset<Entry>, b: multiset<Entry>, c: multiset<Entry>)
    requires u + a == v + b
    ensures (u + c) + a == (v + c) + b
  {
    assert (u + c) + a == (u + a) + c;
    assert (v + c) + b == (v + b) + c;
  }

  /** Two equations between sums of bags, added and reduced. */
  lemma Cancel(u: multiset<Entry>, v: multiset<Entry>, a: multiset<Entry>, b: multiset<Entry>, m: multiset<Entry>, n: multiset<Entry>)
    requires u + a == v + b && b + n == a + m
    ensures u + n == v + m
  {
    forall x: Entry ensures (u + n)[x] == (v + m)[x] {
      assert (u + a)[x] == (v + b)[x];
      assert (b + n)[x] == (a + m)[x];
    }
  }

  lemma {:induction false} BagUpdate(t: Table, j: nat, l: seq<Entry>)
    requires j < |t|
    ensures Bag(t[j := l]) + multiset(t[j]) == Bag(t) + multiset(l)
  {
    var u := t[j := l];
    var last := |t| - 1;
    assert Bag(u) == Bag(u[..last]) + multiset(u[last]);
    if j == last {
      assert u[..last] == t[..last];
    } else {
      BagUpdate(t[..last], j, l);
      assert u[..last] == t[..last][j := l];
      Swap(Bag(u[..last]), Bag(t[..last]), multiset(t[j]), multiset(l), multiset(t[last]));
    }
  }

  lemma {:induction false} BagEmpty(t: Table)
    requires forall j :: 0 <= j < |t| ==> t[j] == []
    ensures Bag(t) == multiset{}
  {
    if t != [] {
      BagEmpty(t[..|t| - 1]);
    }
  }

  lemma {:induction false} HeldUpdate(ws: seq<Thread>, k: nat, w: Thread)
    requires k < |ws|
    ensures HeldBag(ws[k := w]) + HeldBy(ws[k]) == HeldBag(ws) + HeldBy(w)
  {
    hide HeldBy;
    var us := ws[k := w];
    var last := |ws| - 1;
    assert HeldBag(us) == HeldBag(us[..last]) + HeldBy(us[last]);
    if k == last {
      assert us[..last] == ws[..last];
    } else {
      HeldUpdate(ws[..last], k, w);
      assert us[..last] == ws[..last][k := w];
      Swap(HeldBag(us[..last]), HeldBag(ws[..last]), HeldBy(ws[k]), HeldBy(w), HeldBy(ws[last]));
    }
  }

  lemma {:induction false} CarryingUpdate(ws: seq<Thread>, k: nat, w: Thread)
    requires k < |ws|
    ensures Carrying(ws[k := w]) + (if Carries(ws[k]) then 1 else 0) == Carrying(ws) + (if Carries(w) then 1 else 0)
  {
    hide Carries;
    var us := ws[k := w];
    var last := |ws| - 1;
    if k == last {
      assert us[..last] == ws[..last];
    } else {
      CarryingUpdate(ws[..last], k, w);
      assert us[..last] == ws[..last][k := w];
    }
  }

  lemma {:induction false} NoneCarried(ws: seq<Thread>)
    requires forall k :: 0 <= k < |ws| ==> !Carries(ws[k])
    ensures HeldBag(ws) == multiset{} && Carrying(ws) == 0
  {
    if ws != [] {
      NoneCarried(ws[..|ws| - 1]);
    }
  }

  // ----- steps -----

  /** lowerFirst: lower the flag before bumping the counter; the code has it the other way round. */
  ghost predicate Enabled(lowerFirst: bool, g: Config, s: State, e: Step) {
    && Shaped(g, s)
    && match e
       case Touch(i, table) =>
         i < g.segs && (s.phase.Free? || s.phase.i != i) && |table| == g.buckets
         && forall j, p :: 0 <= j < |table| && 0 <= p < |table[j]| ==> Genuine(table[j][p])
       case Lock(i) => s.phase.Free? && i < g.segs
       case Aim => s.phase.Locked?
       case Zero => s.phase.Aimed? && s.phase.i < g.segs
       case Raise => s.phase.Raising? && s.phase.k < g.threads
       case Pass => s.phase.Waiting? && s.phase.i < g.segs && s.counts[s.phase.i] >= g.threads
       case Unlock => s.phase.Passed? && s.phase.i < g.segs
       case Notice(k) => k < g.threads && s.threads[k].Spin? && s.flags[k]
       case Depart(k) => k < g.threads && s.threads[k].Woken?
       case Pop(k) => k < g.threads && s.threads[k].Scan? && s.threads[k].seg < g.segs
       case Copy(k) => k < g.threads && s.threads[k].Held?
       case Clear(k) => k < g.threads && s.threads[k].Copied?
       case Uncount(k) => k < g.threads && s.threads[k].Cleared? && s.threads[k].seg < g.segs
       case First(k) => k < g.threads && s.threads[k].Through? && s.threads[k].seg < g.segs
       case Second(k) =>
         k < g.threads && if lowerFirst then s.threads[k].Lowered? && s.threads[k].seg < g.segs else s.threads[k].Bumped?
  }

  function Go(s: State, k: nat, w: Thread): State
    requires k < |s.threads|
  {
    s.(threads := s.threads[k := w])
  }

  function Lower(s: State, k: nat, w: Thread): State
    requires k < |s.threads| && k < |s.flags|
  {
    s.(flags := s.flags[k := false], threads := s.threads[k := w])
  }

  function Bump(s: State, k: nat, i: nat, w: Thread): State
    requires k < |s.threads| && i < |s.counts|
  {
    s.(counts := s.counts[i := s.counts[i] + 1], threads := s.threads[k := w], done := s.done + {k})
  }

  /** The inner loop of migrate at one bucket: the next entry, or on to the next bucket of the
      stride, or out. */
  function DoPop(g: Config, s: State, k: nat): State
    requires k < |s.threads| && s.threads[k].Scan? && s.threads[k].seg < |s.tables|
  {
    var Scan(i, j) := s.threads[k];
    var t := s.tables[i];
    if j >= |t| then Go(s, k, Through(i))
    else if t[j] == [] then Go(s, k, Scan(i, j + g.threads))
    else
      var popped := s.(tables := s.tables[i := t[j := t[j][1..]]]);
      if Genuine(t[j][0]) then Go(popped, k, Held(i, j, t[j][0])) else Go(popped, k, Scan(i, j + g.threads))
  }

  ghost function Do(lowerFirst: bool, g: Config, s: State, e: Step): State
    requires Enabled(lowerFirst, g, s, e)
  {
    match e
    case Touch(i, table) => s.(tables := s.tables[i := table], used := s.used[i := |Bag(table)|])
    case Lock(i) =>
      s.(phase := Locked(i), done := {}, passes := seq(g.threads, k => 0), orig := Bag(s.tables[i]), moved := multiset{})
    case Aim => s.(phase := Aimed(s.phase.i), target := s.phase.i)
    case Zero => s.(phase := Raising(s.phase.i, 0), counts := s.counts[s.phase.i := 0])
    case Raise =>
      var Raising(i, k) := s.phase;
      s.(flags := s.flags[k := true], phase := if k + 1 < g.threads then Raising(i, k + 1) else Waiting(i))
    case Pass => s.(phase := Passed(s.phase.i), counts := s.counts[s.phase.i := 0])
    case Unlock => s.(phase := Free)
    case Notice(k) => Go(s, k, Woken)
    case Depart(k) => Go(s, k, Scan(s.target, k)).(passes := s.passes[k := s.passes[k] + 1])
    case Pop(k) => DoPop(g, s, k)
    case Copy(k) =>
      var Held(i, j, x) := s.threads[k];
      Go(s, k, Copied(i, j, x)).(moved := s.moved + multiset{x})
    case Clear(k) =>
      var Copied(i, j, x) := s.threads[k];
      Go(s, k, Cleared(i, j, x))
    case Uncount(k) =>
      var Cleared(i, j, _) := s.threads[k];
      Go(s, k, Scan(i, j)).(used := s.used[i := s.used[i] - 1])
    case First(k) =>
      var i := s.threads[k].seg;
      if lowerFirst then Lower(s, k, Lowered(i)) else Bump(s, k, i, Bumped(i))
    case Second(k) =>
      if lowerFirst then Bump(s, k, s.threads[k].seg, Spin) else Lower(s, k, Spin)
  }

  // ----- invariant -----

  /** Thread k has been woken for the present round. */
  predicate InRound(s: State, k: nat) {
    s.phase.Waiting? || (s.phase.Raising? && k < s.phase.k)
  }

  /** At rest; with the code's order the flag may still be up. */
  predicate AtRest(w: Thread, flag: bool) {
    (w.Spin? && !flag) || (w.Bumped? && flag)
  }

  /** The buckets of thread k below j are drained. */
  ghost predicate Drained(n: nat, t: Table, k: nat, j: int)
    requires n > 0
  {
    forall b: nat :: b < |t| && b < j && Mod(b, n) == k ==> t[b] == []
  }

  /** Thread k is on its way through the round for segment i and has not bumped the counter. */
  ghost predicate OnItsWay(n: nat, t: Table, i: nat, k: nat, w: Thread, flag: bool)
    requires n > 0
  {
    match w
    case Spin => flag
    case Woken => flag
    case Scan(seg, j) => flag && seg == i && Mod(j, n) == k && Drained(n, t, k, j)
    case Held(seg, j, e) => flag && seg == i && Mod(j, n) == k && Drained(n, t, k, j)
    case Copied(seg, j, e) => flag && seg == i && Mod(j, n) == k && Drained(n, t, k, j)
    case Cleared(seg, j, e) => flag && seg == i && Mod(j, n) == k && Drained(n, t, k, j)
    case Through(seg) => flag && seg == i && Drained(n, t, k, |t|)
    case Lowered(seg) => !flag && seg == i && Drained(n, t, k, |t|)
    case Bumped(_) => false
  }

  predicate SetOut(w: Thread) {
    !w.Spin? && !w.Woken?
  }

  ghost predicate ThreadOk(g: Config, s: State, k: nat)
    requires Shaped(g, s) && k < g.threads && (!s.phase.Free? ==> s.phase.i < g.segs)
  {
    var w, flag := s.threads[k], s.flags[k];
    if !InRound(s, k) then AtRest(w, flag)
    else
      var t := s.tables[s.phase.i];
      if k in s.done then AtRest(w, flag) && Drained(g.threads, t, k, |t|) && s.passes[k] == 1
      else OnItsWay(g.threads, t, s.phase.i, k, w, flag) && s.passes[k] == if SetOut(w) then 1 else 0
  }

  ghost predicate PhaseOk(g: Config, s: State)
    requires Shaped(g, s)
  {
    match s.phase
    case Free => true
    case Locked(i) => i < g.segs && s.done == {} && forall k :: 0 <= k < g.threads ==> s.passes[k] == 0
    case Aimed(i) => i < g.segs && s.target == i && s.done == {} && forall k :: 0 <= k < g.threads ==> s.passes[k] == 0
    case Raising(i, m) =>
      i < g.segs && m < g.threads && s.target == i && s.counts[i] == |s.done|
      && (forall k :: k in s.done ==> k < m) && forall k :: m <= k < g.threads ==> s.passes[k] == 0
    case Waiting(i) => i < g.segs && s.target == i && s.counts[i] == |s.done| && forall k :: k in s.done ==> k < g.threads
    case Passed(i) => i < g.segs && s.moved == s.orig
  }

  /** Nothing is lost or doubled: what is left, what is held and what has been written add up to
      what the segment held when the round began, and the used count to what is left or held. */
  ghost predicate Conserved(g: Config, s: State)
    requires Shaped(g, s) && !s.phase.Free? && s.phase.i < g.segs
  {
    && Bag(s.tables[s.phase.i]) + HeldBag(s.threads) + s.moved == s.orig
    && s.used[s.phase.i] == |Bag(s.tables[s.phase.i])| + Carrying(s.threads)
  }

  ghost predicate TableOk(s: State, i: nat)
    requires i < |s.tables| && i < |s.used|
  {
    && (forall j, p :: 0 <= j < |s.tables[i]| && 0 <= p < |s.tables[i][j]| ==> Genuine(s.tables[i][j][p]))
    && (s.phase.Free? || s.phase.i != i ==> s.used[i] == |Bag(s.tables[i])|)
  }

  ghost predicate Inv(g: Config, s: State) {
    && Shaped(g, s)
    && PhaseOk(g, s)
    && (forall k :: 0 <= k < g.threads ==> ThreadOk(g, s, k))
    && (!s.phase.Free? ==> Conserved(g, s))
    && (forall i :: 0 <= i < g.segs ==> TableOk(s, i))
  }

  /** At start-up no flag is up and every thread spins. */
  ghost predicate Init(g: Config, s: State) {
    && Shaped(g, s)
    && s.phase == Free
    && (forall k :: 0 <= k < g.threads ==> s.threads[k] == Spin && !s.flags[k])
    && forall i :: 0 <= i < g.segs ==> TableOk(s, i)
  }

  lemma InitInv(g: Config, s: State)
    requires Init(g, s)
    ensures Inv(g, s)
  {
  }

  /** Raising the flag of a thread that has not lowered it since the last round is no wake-up. */
  predicate Benign(s: State, e: Step) {
    e.Raise? && s.phase.Raising? && s.phase.k < |s.threads| ==> s.threads[s.phase.k].Spin?
  }

  // ----- what the wait guarantees -----

  /** When mix_segment_migration_end passes its wait, every thread has made exactly one pass for
      this segment and is at rest, no entry is held, every bucket is empty, the used count is 0,
      and exactly the segment's entries have been written to the SSD. */
  lemma BarrierHolds(lowerFirst: bool, g: Config, s: State)
    requires Inv(g, s) && Enabled(lowerFirst, g, s, Pass)
    ensures forall k :: 0 <= k < g.threads ==> AtRest(s.threads[k], s.flags[k]) && s.passes[k] == 1
    ensures forall j :: 0 <= j < g.buckets ==> s.tables[s.phase.i][j] == []
    ensures s.used[s.phase.i] == 0 && s.moved == s.orig
  {
    var i := s.phase.i;
    var t := s.tables[i];
    FullSet(s.done, g.threads);
    forall k | 0 <= k < g.threads ensures AtRest(s.threads[k], s.flags[k]) && s.passes[k] == 1 && Drained(g.threads, t, k, |t|) {
      assert ThreadOk(g, s, k) && k in s.done;
    }
    forall j | 0 <= j < g.buckets ensures t[j] == [] {
      assert Drained(g.threads, t, Mod(j, g.threads), |t|);
    }
    BagEmpty(t);
    NoneCarried(s.threads);
  }

  // ----- steps keep the invariant -----

  lemma PassOk(lowerFirst: bool, g: Config, s: State)
    requires Inv(g, s) && Enabled(lowerFirst, g, s, Pass)
    ensures Inv(g, Do(lowerFirst, g, s, Pass))
  {
    var t := Do(lowerFirst, g, s, Pass);
    BarrierHolds(lowerFirst, g, s);
    forall k | 0 <= k < g.threads ensures ThreadOk(g, t, k) {}
    forall i | 0 <= i < g.segs ensures TableOk(t, i) { assert TableOk(s, i); }
  }

  lemma LockOk(lowerFirst: bool, g: Config, s: State, i: nat)
    requires Inv(g, s) && Enabled(lowerFirst, g, s, Lock(i))
    ensures Inv(g, Do(lowerFirst, g, s, Lock(i)))
  {
    var t := Do(lowerFirst, g, s, Lock(i));
    forall k | 0 <= k < g.threads ensures ThreadOk(g, t, k) && !Carries(t.threads[k]) { assert ThreadOk(g, s, k); }
    NoneCarried(s.threads);
    assert TableOk(s, i);
    forall k | 0 <= k < g.segs ensures TableOk(t, k) { assert TableOk(s, k); }
  }

  lemma CoordinatorOk(lowerFirst: bool, g: Config, s: State, e: Step)
    requires Inv(g, s) && Enabled(lowerFirst, g, s, e) && (e.Aim? || e.Zero? || e.Raise?) && Benign(s, e)
    ensures Inv(g, Do(lowerFirst, g, s, e))
  {
    hide Bag, HeldBag, Carrying, Drained;
    var t := Do(lowerFirst, g, s, e);
    forall k | 0 <= k < g.threads ensures ThreadOk(g, t, k) { assert ThreadOk(g, s, k); }
    forall i | 0 <= i < g.segs ensures TableOk(t, i) { assert TableOk(s, i); }
  }

  lemma UnlockOk(lowerFirst: bool, g: Config, s: State)
    requires Inv(g, s) && Enabled(lowerFirst, g, s, Unlock)
    ensures Inv(g, Do(lowerFirst, g, s, Unlock))
  {
    hide Bag, HeldBag, Drained;
    var t := Do(lowerFirst, g, s, Unlock);
    forall k | 0 <= k < g.threads ensures ThreadOk(g, t, k) && !Carries(t.threads[k]) { assert ThreadOk(g, s, k); }
    NoneCarried(s.threads);
    forall i | 0 <= i < g.segs ensures TableOk(t, i) { assert TableOk(s, i); }
  }

  lemma TouchOk(lowerFirst: bool, g: Config, s: State, i: nat, table: Table)
    requires Inv(g, s) && Enabled(lowerFirst, g, s, Touch(i, table))
    ensures Inv(g, Do(lowerFirst, g, s, Touch(i, table)))
  {
    hide HeldBag, Carrying, Drained, Genuine;
    var t := Do(lowerFirst, g, s, Touch(i, table));
    forall k | 0 <= k < g.threads ensures ThreadOk(g, t, k) { assert ThreadOk(g, s, k); }
    forall k | 0 <= k < g.segs ensures TableOk(t, k) { assert TableOk(s, k); }
  }

  /** A thread that is not at rest is in the present round and has not bumped the counter. */
  lemma Active(g: Config, s: State, k: nat)
    requires Inv(g, s) && k < g.threads && !AtRest(s.threads[k], s.flags[k])
    ensures InRound(s, k) && k !in s.done && s.phase.i < g.segs && s.target == s.phase.i
    ensures OnItsWay(g.threads, s.tables[s.phase.i], s.phase.i, k, s.threads[k], s.flags[k])
    ensures s.passes[k] == if SetOut(s.threads[k]) then 1 else 0
  {
    assert ThreadOk(g, s, k);
  }

  /** Gluing: thread k moved, perhaps popping from one of its own buckets. */
  lemma ThreadMoved(g: Config, s: State, t: State, k: nat)
    requires Inv(g, s) && k < g.threads && Shaped(g, t) && InRound(s, k) && s.phase.i < g.segs
    requires t.phase == s.phase && t.target == s.target && t.orig == s.orig
    requires t.threads == s.threads[k := t.threads[k]]
    requires forall m :: 0 <= m < g.threads && m != k ==> t.flags[m] == s.flags[m] && t.passes[m] == s.passes[m]
    requires t.done == s.done || t.done == s.done + {k}
    requires t.counts[s.phase.i] == |t.done|
    requires forall m :: 0 <= m < g.segs && m != s.phase.i ==> t.tables[m] == s.tables[m] && t.used[m] == s.used[m]
    requires forall b: nat :: b < g.buckets ==> IsTail(t.tables[s.phase.i][b], s.tables[s.phase.i][b])
    requires ThreadOk(g, t, k) && Conserved(g, t)
    ensures Inv(g, t)
  {
    forall m | 0 <= m < g.threads ensures ThreadOk(g, t, m) {
      assert ThreadOk(g, s, m);
      if m != k { StillDrained(g, s, t, m); }
    }
    forall i | 0 <= i < g.segs ensures TableOk(t, i) { assert TableOk(s, i); }
  }

  predicate IsTail(a: seq<Entry>, b: seq<Entry>) {
    a == b || (b != [] && a == b[1..])
  }

  lemma StillDrained(g: Config, s: State, t: State, m: nat)
    requires Shaped(g, s) && Shaped(g, t) && s.phase == t.phase && !s.phase.Free? && s.phase.i < g.segs
    requires forall b: nat :: b < g.buckets ==> IsTail(t.tables[s.phase.i][b], s.tables[s.phase.i][b])
    ensures forall j :: Drained(g.threads, s.tables[s.phase.i], m, j) ==> Drained(g.threads, t.tables[s.phase.i], m, j)
  {
  }

  /** Thread k moved without popping: what it held, it holds still or has written. */
  lemma KeepConserved(g: Config, s: State, t: State, k: nat)
    requires Shaped(g, s) && Shaped(g, t) && k < g.threads && !s.phase.Free? && s.phase.i < g.segs && Conserved(g, s)
    requires t.phase == s.phase && t.orig == s.orig && t.threads == s.threads[k := t.threads[k]]
    requires t.tables[s.phase.i] == s.tables[s.phase.i]
    requires HeldBy(t.threads[k]) + t.moved == HeldBy(s.threads[k]) + s.moved
    requires t.used[s.phase.i] - (if Carries(t.threads[k]) then 1 else 0) == s.used[s.phase.i] - (if Carries(s.threads[k]) then 1 else 0)
    ensures Conserved(g, t)
  {
    hide HeldBy, Carries, Bag;
    var w := t.threads[k];
    HeldUpdate(s.threads, k, w);
    CarryingUpdate(s.threads, k, w);
    Cancel(HeldBag(t.threads), HeldBag(s.threads), HeldBy(s.threads[k]), HeldBy(w), s.moved, t.moved);
    var bag := Bag(s.tables[s.phase.i]);
    assert bag + HeldBag(t.threads) + t.moved == bag + (HeldBag(t.threads) + t.moved);
    assert bag + HeldBag(s.threads) + s.moved == bag + (HeldBag(s.threads) + s.moved);
  }

  lemma NoticeOk(lowerFirst: bool, g: Config, s: State, k: nat)
    requires Inv(g, s) && Enabled(lowerFirst, g, s, Notice(k))
    ensures Inv(g, Do(lowerFirst, g, s, Notice(k)))
  {
    hide Conserved;
    var t := Do(lowerFirst, g, s, Notice(k));
    Active(g, s, k);
    KeepConserved(g, s, t, k);
    ThreadMoved(g, s, t, k);
  }

  lemma DepartOk(lowerFirst: bool, g: Config, s: State, k: nat)
    requires Inv(g, s) && Enabled(lowerFirst, g, s, Depart(k))
    ensures Inv(g, Do(lowerFirst, g, s, Depart(k)))
  {
    hide Conserved, Drained;
    var t := Do(lowerFirst, g, s, Depart(k));
    Active(g, s, k);
    KeepConserved(g, s, t, k);
    FirstBucket(g.threads, t.tables[s.phase.i], k);
    ThreadMoved(g, s, t, k);
  }

  /** Bucket k is the first one of thread k's stride. */
  lemma {:induction false} FirstBucket(n: nat, t: Table, k: nat)
    requires k < n
    ensures Mod(k, n) == k && Drained(n, t, k, k)
  {
    forall b: nat | b < |t| && b < k ensures Mod(b, n) != k {}
  }

  /** Between a bucket of a thread's stride and the next lies none of its own. */
  lemma {:induction false} NextBucket(n: nat, t: Table, k: nat, j: nat)
    requires k < n && Mod(j, n) == k && Drained(n, t, k, j) && (j < |t| ==> t[j] == [])
    ensures Mod(j + n, n) == k && Drained(n, t, k, j + n)
  {
    forall b: nat | b < |t| && b < j + n && Mod(b, n) == k ensures t[b] == [] {
      if j < b {
        Between(n, j, b);
      }
    }
  }

  lemma {:induction false} Between(n: nat, j: nat, b: nat)
    requires 0 < n && j < b < j + n
    ensures Mod(b, n) != Mod(j, n)
    decreases j
  {
    if j >= n {
      Between(n, j - n, b - n);
    } else if b >= n {
      assert Mod(b - n, n) == b - n;
    }
  }

  lemma EndOfStride(n: nat, t: Table, k: nat, j: nat)
    requires n > 0 && Drained(n, t, k, j) && j >= |t|
    ensures Drained(n, t, k, |t|)
  {
  }

  lemma PopOk(lowerFirst: bool, g: Config, s: State, k: nat)
    requires Inv(g, s) && Enabled(lowerFirst, g, s, Pop(k))
    ensures Inv(g, Do(lowerFirst, g, s, Pop(k)))
  {
    hide Inv, Conserved, Drained, Bag, ThreadOk, PhaseOk;
    Active(g, s, k);
    var Scan(i, j) := s.threads[k];
    if j >= |s.tables[i]| {
      EndOfStride(g.threads, s.tables[i], k, j);
      MoveOn(g, s, k, Through(i));
    } else if s.tables[i][j] == [] {
      NextBucket(g.threads, s.tables[i], k, j);
      MoveOn(g, s, k, Scan(i, j + g.threads));
    } else {
      PopEntry(g, s, DoPop(g, s, k), k);
    }
  }

  lemma MoveOn(g: Config, s: State, k: nat, w: Thread)
    requires Inv(g, s) && k < g.threads && s.threads[k].Scan? && !s.phase.Free? && s.phase.i < |s.tables| && SetOut(w) && !Carries(w)
    requires g.threads > 0 && OnItsWay(g.threads, s.tables[s.phase.i], s.phase.i, k, w, s.flags[k])
    ensures Inv(g, Go(s, k, w))
  {
    hide OnItsWay;
    var t := Go(s, k, w);
    Active(g, s, k);
    KeepConserved(g, s, t, k);
    hide Conserved;
    ThreadMoved(g, s, t, k);
  }

  lemma PopEntry(g: Config, s: State, t: State, k: nat)
    requires Inv(g, s) && k < g.threads && s.threads[k].Scan? && s.threads[k].seg < g.segs
    requires var Scan(i, j) := s.threads[k]; j < |s.tables[i]| && s.tables[i][j] != []
    requires t == DoPop(g, s, k)
    ensures Inv(g, t)
  {
    PoppedState(g, s, t, k);
    hide Inv, ThreadOk, Conserved, DoPop, IsTail;
    ThreadMoved(g, s, t, k);
  }

  lemma PoppedState(g: Config, s: State, t: State, k: nat)
    requires Inv(g, s) && k < g.threads && s.threads[k].Scan? && s.threads[k].seg < g.segs
    requires var Scan(i, j) := s.threads[k]; j < |s.tables[i]| && s.tables[i][j] != []
    requires t == DoPop(g, s, k)
    ensures var i := s.threads[k].seg;
            && InRound(s, k) && s.phase.i == i
            && t == s.(tables := s.tables[i := t.tables[i]], threads := s.threads[k := t.threads[k]])
            && s.counts[i] == |s.done|
            && Shaped(g, t) && ThreadOk(g, t, k) && Conserved(g, t)
            && forall b: nat :: b < g.buckets ==> IsTail(t.tables[i][b], s.tables[i][b])
  {
    var Scan(i, j) := s.threads[k];
    PopDoes(g, s, k);
    Active(g, s, k);
    hide DoPop, TableOk, Inv, Drained, ThreadOk;
    PopConserved(g, s, t, k);
    hide Conserved;
    PoppedThread(g, s, t, k);
  }

  lemma PopDoes(g: Config, s: State, k: nat)
    requires Inv(g, s) && k < g.threads && s.threads[k].Scan? && s.threads[k].seg < g.segs
    requires var Scan(i, j) := s.threads[k]; j < |s.tables[i]| && s.tables[i][j] != []
    ensures var Scan(i, j) := s.threads[k];
            var l := s.tables[i][j];
            DoPop(g, s, k) == s.(tables := s.tables[i := s.tables[i][j := l[1..]]], threads := s.threads[k := Held(i, j, l[0])])
  {
    var Scan(i, j) := s.threads[k];
    assert TableOk(s, i) && Genuine(s.tables[i][j][0]);
    hide Inv, TableOk;
  }

  lemma PoppedThread(g: Config, s: State, t: State, k: nat)
    requires Shaped(g, s) && Shaped(g, t) && k < g.threads && InRound(s, k) && k !in s.done && s.threads[k].Scan? && s.phase.i == s.threads[k].seg < g.segs
    requires OnItsWay(g.threads, s.tables[s.phase.i], s.phase.i, k, s.threads[k], s.flags[k]) && s.passes[k] == 1
    requires var Scan(i, j) := s.threads[k];
             && j < |s.tables[i]| && s.tables[i][j] != []
             && t == s.(tables := s.tables[i := s.tables[i][j := s.tables[i][j][1..]]], threads := s.threads[k := Held(i, j, s.tables[i][j][0])])
    ensures ThreadOk(g, t, k)
    ensures forall b: nat :: b < g.buckets ==> IsTail(t.tables[s.phase.i][b], s.tables[s.phase.i][b])
  {
    StillDrained(g, s, t, k);
  }

  lemma PopConserved(g: Config, s: State, t: State, k: nat)
    requires Shaped(g, s) && k < g.threads && s.threads[k].Scan? && !s.phase.Free? && s.phase.i == s.threads[k].seg < g.segs && Conserved(g, s)
    requires var Scan(i, j) := s.threads[k];
             && j < |s.tables[i]| && s.tables[i][j] != []
             && t == s.(tables := s.tables[i := s.tables[i][j := s.tables[i][j][1..]]], threads := s.threads[k := Held(i, j, s.tables[i][j][0])])
    ensures Shaped(g, t) && Conserved(g, t)
  {
    hide Bag, HeldBag, Carrying;
    var Scan(i, j) := s.threads[k];
    var l := s.tables[i][j];
    assert l == [l[0]] + l[1..];
    BagUpdate(s.tables[i], j, l[1..]);
    HeldUpdate(s.threads, k, t.threads[k]);
    CarryingUpdate(s.threads, k, t.threads[k]);
    PopConserves(Bag(s.tables[i]), Bag(t.tables[i]), HeldBag(s.threads), HeldBag(t.threads), s.moved, l);
    assert Shaped(g, t);
    assert Carrying(t.threads) == Carrying(s.threads) + 1;
    assert t.used[i] == |Bag(t.tables[i])| + Carrying(t.threads);
    assert Bag(t.tables[i]) + HeldBag(t.threads) + t.moved == t.orig;
  }

  lemma PopConserves(b: multiset<Entry>, c: multiset<Entry>, h: multiset<Entry>, i: multiset<Entry>, m: multiset<Entry>, l: seq<Entry>)
    requires l != [] && c + multiset(l) == b + multiset(l[1..]) && multiset(l) == multiset{l[0]} + multiset(l[1..])
    requires i == h + multiset{l[0]}
    ensures c + i + m == b + h + m && |c| == |b| - 1
  {
    assert c + multiset{l[0]} == b by {
      assert c + multiset{l[0]} + multiset(l[1..]) == b + multiset(l[1..]);
      forall x ensures (c + multiset{l[0]})[x] == b[x] {
        assert (c + multiset{l[0]} + multiset(l[1..]))[x] == (b + multiset(l[1..]))[x];
      }
    }
  }

  lemma CopyOk(lowerFirst: bool, g: Config, s: State, k: nat)
    requires Inv(g, s) && Enabled(lowerFirst, g, s, Copy(k))
    ensures Inv(g, Do(lowerFirst, g, s, Copy(k)))
  {
    hide Conserved, Drained;
    var t := Do(lowerFirst, g, s, Copy(k));
    Active(g, s, k);
    KeepConserved(g, s, t, k);
    ThreadMoved(g, s, t, k);
  }

  lemma ClearOk(lowerFirst: bool, g: Config, s: State, k: nat)
    requires Inv(g, s) && Enabled(lowerFirst, g, s, Clear(k))
    ensures Inv(g, Do(lowerFirst, g, s, Clear(k)))
  {
    hide Conserved, Drained;
    var t := Do(lowerFirst, g, s, Clear(k));
    Active(g, s, k);
    KeepConserved(g, s, t, k);
    ThreadMoved(g, s, t, k);
  }

  lemma UncountOk(lowerFirst: bool, g: Config, s: State, k: nat)
    requires Inv(g, s) && Enabled(lowerFirst, g, s, Uncount(k))
    ensures Inv(g, Do(lowerFirst, g, s, Uncount(k)))
  {
    hide Conserved, Drained;
    var t := Do(lowerFirst, g, s, Uncount(k));
    Active(g, s, k);
    KeepConserved(g, s, t, k);
    ThreadMoved(g, s, t, k);
  }

  lemma LastStepsOk(lowerFirst: bool, g: Config, s: State, e: Step)
    requires Inv(g, s) && Enabled(lowerFirst, g, s, e) && (e.First? || e.Second?)
    ensures Inv(g, Do(lowerFirst, g, s, e))
  {
    if e.First? && lowerFirst { LowerOk(g, s, e.k); }
    else if e.First? { BumpOk(g, s, e.k, Bumped(s.threads[e.k].seg)); }
    else if lowerFirst { BumpOk(g, s, e.k, Spin); }
    else {
      assert ThreadOk(g, s, e.k);
      LateLower(g, s, Lower(s, e.k, Spin), e.k);
    }
  }

  lemma LowerOk(g: Config, s: State, k: nat)
    requires Inv(g, s) && k < g.threads && s.threads[k].Through?
    ensures Inv(g, Lower(s, k, Lowered(s.threads[k].seg)))
  {
    var t := Lower(s, k, Lowered(s.threads[k].seg));
    Active(g, s, k);
    KeepConserved(g, s, t, k);
    hide Conserved, Drained, Inv;
    ThreadMoved(g, s, t, k);
  }

  lemma BumpOk(g: Config, s: State, k: nat, w: Thread)
    requires Inv(g, s) && k < g.threads && (s.threads[k].Through? || s.threads[k].Lowered?) && s.threads[k].seg < g.segs
    requires (s.threads[k].Through? && w == Bumped(s.threads[k].seg)) || (s.threads[k].Lowered? && w == Spin)
    ensures Inv(g, Bump(s, k, s.threads[k].seg, w))
  {
    var t := Bump(s, k, s.threads[k].seg, w);
    Active(g, s, k);
    KeepConserved(g, s, t, k);
    hide Conserved, Drained, Inv;
    ThreadMoved(g, s, t, k);
  }

  /** The code's order: the flag is lowered last, perhaps after the round has ended. */
  lemma LateLower(g: Config, s: State, t: State, k: nat)
    requires Inv(g, s) && k < g.threads && s.threads[k].Bumped? && s.flags[k]
    requires t == Lower(s, k, Spin)
    ensures Inv(g, t)
  {
    hide Conserved, Drained;
    if !s.phase.Free? { KeepConserved(g, s, t, k); }
    forall m | 0 <= m < g.threads ensures ThreadOk(g, t, m) { assert ThreadOk(g, s, m); }
    forall i | 0 <= i < g.segs ensures TableOk(t, i) { assert TableOk(s, i); }
  }

  lemma StepSafe(lowerFirst: bool, g: Config, s: State, e: Step)
    requires Inv(g, s) && Enabled(lowerFirst, g, s, e) && Benign(s, e)
    ensures Inv(g, Do(lowerFirst, g, s, e))
  {
    hide Inv, Do, Enabled, Benign;
    match e
    case Touch(i, table) => TouchOk(lowerFirst, g, s, i, table);
    case Lock(i) => LockOk(lowerFirst, g, s, i);
    case Aim => CoordinatorOk(lowerFirst, g, s, e);
    case Zero => CoordinatorOk(lowerFirst, g, s, e);
    case Raise => CoordinatorOk(lowerFirst, g, s, e);
    case Pass => PassOk(lowerFirst, g, s);
    case Unlock => UnlockOk(lowerFirst, g, s);
    case Notice(k) => NoticeOk(lowerFirst, g, s, k);
    case Depart(k) => DepartOk(lowerFirst, g, s, k);
    case Pop(k) => PopOk(lowerFirst, g, s, k);
    case Copy(k) => CopyOk(lowerFirst, g, s, k);
    case Clear(k) => ClearOk(lowerFirst, g, s, k);
    case Uncount(k) => UncountOk(lowerFirst, g, s, k);
    case First(k) => LastStepsOk(lowerFirst, g, s, e);
    case Second(k) => LastStepsOk(lowerFirst, g, s, e);
  }

  /** A step keeps the invariant exactly when it does not raise the flag of a thread that has still
      to lower it. */
  lemma StepExact(lowerFirst: bool, g: Config, s: State, e: Step)
    requires Inv(g, s) && Enabled(lowerFirst, g, s, e)
    ensures Inv(g, Do(lowerFirst, g, s, e)) <==> Benign(s, e)
  {
    if Benign(s, e) {
      StepSafe(lowerFirst, g, s, e);
    } else {
      var k := s.phase.k;
      assert ThreadOk(g, s, k);
      var t := Do(lowerFirst, g, s, e);
      assert InRound(t, k) && k !in t.done && t.threads[k].Bumped?;
      assert Inv(g, t) ==> ThreadOk(g, t, k);
    }
  }

  // ----- runs -----

  ghost predicate Run(lowerFirst: bool, g: Config, s: State, es: seq<Step>, t: State)
    decreases es
  {
    if es == [] then t == s
    else Enabled(lowerFirst, g, s, es[0]) && Run(lowerFirst, g, Do(lowerFirst, g, s, es[0]), es[1..], t)
  }

  /** With the flag lowered first no thread is ever found with a bumped counter and its flag up. */
  ghost predicate NeverBumped(s: State) {
    forall k :: 0 <= k < |s.threads| ==> !s.threads[k].Bumped?
  }

  lemma RestedIsBenign(g: Config, s: State, e: Step)
    requires Inv(g, s) && NeverBumped(s) && Enabled(true, g, s, e)
    ensures Benign(s, e) && NeverBumped(Do(true, g, s, e))
  {
    if e.Raise? {
      assert ThreadOk(g, s, s.phase.k);
    }
  }

  /** With the flag lowered first the barrier is safe over any number of rounds, and no wake-up is
      ever lost. */
  lemma {:induction false} RunSafe(g: Config, s: State, es: seq<Step>, t: State)
    requires Inv(g, s) && NeverBumped(s) && Run(true, g, s, es, t)
    ensures Inv(g, t) && NeverBumped(t)
    decreases es
  {
    hide Inv, Do, Enabled, Benign, NeverBumped;
    if es != [] {
      RestedIsBenign(g, s, es[0]);
      StepSafe(true, g, s, es[0]);
      RunSafe(g, Do(true, g, s, es[0]), es[1..], t);
    }
  }

  // ----- the lost wake-up of the code's order -----

  /** Thread k has been woken for the round in vain: it spins with its flag lowered, or has only
      that lowering left to do, and has not bumped the counter. */
  ghost predicate Lost(g: Config, s: State, k: nat) {
    && Shaped(g, s)
    && (s.phase.Waiting? || (s.phase.Raising? && k < s.phase.k < g.threads))
    && s.phase.i < g.segs && s.target == s.phase.i && s.counts[s.phase.i] == |s.done|
    && k < g.threads && k !in s.done && ((s.threads[k].Spin? && !s.flags[k]) || s.threads[k].Bumped?)
    && (forall m :: m in s.done ==> m < if s.phase.Raising? then s.phase.k else g.threads)
    && forall m :: 0 <= m < g.threads ==>
         if m in s.done || (s.phase.Raising? && m >= s.phase.k) then AtRest(s.threads[m], s.flags[m])
         else Astray(s.threads[m], s.flags[m], s.phase.i)
  }

  /** Where a thread that has not bumped the counter of a spoiled round for segment i may be. */
  predicate Astray(w: Thread, flag: bool, i: nat) {
    w.Spin? || w.Bumped? || w.Lowered? || (flag && (w.Woken? || w.seg == i))
  }

  lemma LostBlocks(g: Config, s: State, k: nat)
    requires Lost(g, s, k)
    ensures !Enabled(false, g, s, Pass)
  {
    FullSet(s.done, g.threads);
  }

  lemma LostStays(g: Config, s: State, e: Step, k: nat)
    requires Lost(g, s, k) && Enabled(false, g, s, e)
    ensures !e.Pass? && Lost(g, Do(false, g, s, e), k)
  {
    hide Lost, Do, Enabled;
    LostBlocks(g, s, k);
    if OnTheWay(e) { LostOnTheWay(g, s, e, k); } else if e.Pop? { LostOnPop(g, s, e.k, k); } else { LostElsewhere(g, s, e, k); }
  }

  predicate OnTheWay(e: Step) {
    e.Notice? || e.Depart? || e.Copy? || e.Clear? || e.Uncount?
  }

  lemma LostOnTheWay(g: Config, s: State, e: Step, k: nat)
    requires Lost(g, s, k) && Enabled(false, g, s, e) && OnTheWay(e)
    ensures Lost(g, Do(false, g, s, e), k)
  {
  }

  lemma LostOnPop(g: Config, s: State, m: nat, k: nat)
    requires Lost(g, s, k) && Enabled(false, g, s, Pop(m))
    ensures Lost(g, Do(false, g, s, Pop(m)), k)
  {
  }

  lemma LostElsewhere(g: Config, s: State, e: Step, k: nat)
    requires Lost(g, s, k) && Enabled(false, g, s, e) && !OnTheWay(e) && !e.Pop? && !e.Pass?
    ensures Lost(g, Do(false, g, s, e), k)
  {
  }

  /** From then on the wait is never passed again, whatever the threads do. */
  lemma {:induction false} LostForever(g: Config, s: State, es: seq<Step>, t: State, k: nat)
    requires Lost(g, s, k) && Run(false, g, s, es, t)
    ensures Lost(g, t, k) && !Enabled(false, g, t, Pass) && Pass !in es
    decreases es
  {
    hide Do, Lost;
    if es == [] {
      if Enabled(false, g, t, Pass) { LostStays(g, t, Pass, k); }
    } else {
      LostStays(g, s, es[0], k);
      LostForever(g, Do(false, g, s, es[0]), es[1..], t, k);
      assert es == [es[0]] + es[1..];
    }
  }

  /** Raising a flag too early is how a thread gets lost: it then lowers the raised flag. */
  lemma EarlyRaiseLoses(g: Config, s: State)
    requires Inv(g, s) && Enabled(false, g, s, Raise) && !Benign(s, Raise)
    ensures Lost(g, Do(false, g, s, Raise), s.phase.k) && Enabled(false, g, Do(false, g, s, Raise), Second(s.phase.k))
  {
    var k := s.phase.k;
    var t := Do(false, g, s, Raise);
    assert ThreadOk(g, s, k);
    forall m | 0 <= m < g.threads ensures if m in t.done || m > k then AtRest(t.threads[m], t.flags[m]) else Astray(t.threads[m], t.flags[m], s.phase.i) {
      assert ThreadOk(g, s, m);
    }
  }

  // ----- the code's order, over all runs -----

  /** Over every run of the code's order: the invariant holds, or a thread is lost. */
  lemma {:induction false} SafeOrLost(g: Config, s: State, es: seq<Step>, t: State)
    requires Inv(g, s) && Run(false, g, s, es, t)
    ensures Inv(g, t) || exists k: nat :: Lost(g, t, k)
    decreases es
  {
    hide Inv, Do, Enabled, Benign, Lost;
    if es != [] {
      var m := Do(false, g, s, es[0]);
      if Benign(s, es[0]) {
        StepSafe(false, g, s, es[0]);
        SafeOrLost(g, m, es[1..], t);
      } else {
        RaiseOnly(s, es[0]);
        EarlyRaiseLoses(g, s);
        LostForever(g, m, es[1..], t, s.phase.k);
      }
    }
  }

  lemma RaiseOnly(s: State, e: Step)
    requires !Benign(s, e)
    ensures e == Raise && s.phase.Raising?
  {
  }

  /** Whenever the coordinator of the code passes its wait, in any run at all, every thread has made
      exactly one pass for the segment, none holds an entry, every bucket is empty, the used count
      is 0 and exactly the segment's entries have been written: what the code's order can cost is
      only that the wait does not end. */
  lemma WaitIsSafe(g: Config, s: State, es: seq<Step>, t: State)
    requires Inv(g, s) && Run(false, g, s, es, t) && Enabled(false, g, t, Pass)
    ensures forall k :: 0 <= k < g.threads ==> AtRest(t.threads[k], t.flags[k]) && t.passes[k] == 1
    ensures forall j :: 0 <= j < g.buckets ==> t.tables[t.phase.i][j] == []
    ensures t.used[t.phase.i] == 0 && t.moved == t.orig
  {
    SafeOrLost(g, s, es, t);
    hide Inv, Lost;
    if k: nat :| Lost(g, t, k) {
      LostBlocks(g, t, k);
    } else {
      BarrierHolds(false, g, t);
    }
  }

  ghost predicate AllBenign(g: Config, s: State, es: seq<Step>)
    decreases es
  {
    es != [] ==> Enabled(false, g, s, es[0]) ==> Benign(s, es[0]) && AllBenign(g, Do(false, g, s, es[0]), es[1..])
  }

  /** And as long as no flag is raised too early no wake-up is lost either. */
  lemma {:induction false} RunSafeAsWritten(g: Config, s: State, es: seq<Step>, t: State)
    requires Inv(g, s) && Run(false, g, s, es, t) && AllBenign(g, s, es)
    ensures Inv(g, t)
    decreases es
  {
    hide Inv, Do, Enabled, Benign;
    if es != [] {
      StepSafe(false, g, s, es[0]);
      RunSafeAsWritten(g, Do(false, g, s, es[0]), es[1..], t);
    }
  }

  // ----- a run that loses a wake-up -----

  lemma {:induction false} Extend(g: Config, s: State, es: seq<Step>, t: State, e: Step)
    requires Run(false, g, s, es, t) && Enabled(false, g, t, e)
    ensures Run(false, g, s, es + [e], Do(false, g, t, e))
    decreases es
  {
    hide Do, Enabled;
    if es == [] {
      assert ([e])[1..] == [];
      assert Run(false, g, Do(false, g, s, e), [], Do(false, g, s, e));
    } else {
      Extend(g, Do(false, g, s, es[0]), es[1..], t, e);
      assert (es + [e])[1..] == es[1..] + [e];
    }
  }

  /** One more step of a run that keeps the invariant. */
  lemma Onward(g: Config, s: State, es: seq<Step>, t: State, e: Step)
    requires Run(false, g, s, es, t) && Inv(g, t) && Enabled(false, g, t, e) && Benign(t, e)
    ensures Run(false, g, s, es + [e], Do(false, g, t, e)) && Inv(g, Do(false, g, t, e)) && Shaped(g, Do(false, g, t, e))
  {
    hide Inv, Do, Enabled, Benign;
    Extend(g, s, es, t, e);
    StepSafe(false, g, t, e);
    InvShaped(g, Do(false, g, t, e));
  }

  lemma InvShaped(g: Config, s: State)
    requires Inv(g, s)
    ensures Shaped(g, s)
  {
  }

  ghost predicate NothingIn(t: Table) {
    forall j :: 0 <= j < |t| ==> t[j] == []
  }

  /** The round for segment 0, which is empty: the flags of the threads from k on are down. */
  ghost predicate RaisedTo(g: Config, s: State, k: nat)
    requires Shaped(g, s)
  {
    && g.segs > 0 && k <= g.threads && s.target == 0 && s.counts[0] == 0 && NothingIn(s.tables[0])
    && s.phase == (if k < g.threads then Raising(0, k) else Waiting(0))
    && forall m :: 0 <= m < g.threads ==> s.threads[m] == Spin && s.flags[m] == (m < k)
  }

  /** All flags are raised, and the threads below k have made their pass. */
  ghost predicate PassedTo(g: Config, s: State, k: nat)
    requires Shaped(g, s)
  {
    && g.segs > 0 && k <= g.threads && s.target == 0 && s.counts[0] == k && NothingIn(s.tables[0]) && s.phase == Waiting(0)
    && forall m :: 0 <= m < g.threads ==> s.threads[m] == (if m < k then Bumped(0) else Spin) && s.flags[m]
  }

  /** As PassedTo, but that thread k is under way at bucket j. */
  ghost predicate Walking(g: Config, s: State, k: nat, j: nat)
    requires Shaped(g, s)
  {
    && g.segs > 0 && k < g.threads && s.target == 0 && s.counts[0] == k && NothingIn(s.tables[0]) && s.phase == Waiting(0)
    && s.threads[k] == Scan(0, j)
    && (forall m :: 0 <= m < g.threads && m != k ==> s.threads[m] == (if m < k then Bumped(0) else Spin))
    && forall m :: 0 <= m < g.threads ==> s.flags[m]
  }

  lemma Here(g: Config, s: State)
    ensures Run(false, g, s, [], s)
  {
  }

  lemma StartRound(g: Config, s: State) returns (es: seq<Step>, t: State)
    requires Init(g, s) && g.segs > 0
    ensures Run(false, g, s, es, t) && Inv(g, t) && Shaped(g, t) && RaisedTo(g, t, 0)
  {
    hide Inv, Run;
    InitInv(g, s);
    Here(g, s);
    var none: Table := seq(g.buckets, _ => []);
    var a := Do(false, g, s, Touch(0, none));
    Onward(g, s, [], s, Touch(0, none));
    var b := Do(false, g, a, Lock(0));
    Onward(g, s, [] + [Touch(0, none)], a, Lock(0));
    var c := Do(false, g, b, Aim);
    Onward(g, s, [] + [Touch(0, none)] + [Lock(0)], b, Aim);
    t := Do(false, g, c, Zero);
    Onward(g, s, [] + [Touch(0, none)] + [Lock(0)] + [Aim], c, Zero);
    es := [] + [Touch(0, none)] + [Lock(0)] + [Aim] + [Zero];
  }

  lemma {:induction false} RaiseAll(g: Config, s: State, es: seq<Step>, t: State, k: nat) returns (fs: seq<Step>, u: State)
    requires Run(false, g, s, es, t) && Inv(g, t) && Shaped(g, t) && RaisedTo(g, t, k)
    ensures Run(false, g, s, fs, u) && Inv(g, u) && Shaped(g, u) && PassedTo(g, u, 0)
    decreases g.threads - k
  {
    hide Inv, Run;
    fs, u := es, t;
    if k < g.threads {
      Onward(g, s, es, t, Raise);
      fs, u := RaiseAll(g, s, es + [Raise], Do(false, g, t, Raise), k + 1);
    }
  }

  /** Thread k walks its stride and bumps the counter. */
  lemma {:induction false} Walk(g: Config, s: State, es: seq<Step>, t: State, k: nat, j: nat) returns (fs: seq<Step>, u: State)
    requires Run(false, g, s, es, t) && Inv(g, t) && Shaped(g, t) && Walking(g, t, k, j)
    ensures Run(false, g, s, fs, u) && Inv(g, u) && Shaped(g, u) && PassedTo(g, u, k + 1)
    decreases if j < g.buckets then g.buckets - j else 0
  {
    hide Inv, Run;
    var a := Do(false, g, t, Pop(k));
    Onward(g, s, es, t, Pop(k));
    if j < g.buckets {
      fs, u := Walk(g, s, es + [Pop(k)], a, k, j + g.threads);
    } else {
      Onward(g, s, es + [Pop(k)], a, First(k));
      fs, u := es + [Pop(k)] + [First(k)], Do(false, g, a, First(k));
    }
  }

  lemma {:induction false} PassAll(g: Config, s: State, es: seq<Step>, t: State, k: nat) returns (fs: seq<Step>, u: State)
    requires Run(false, g, s, es, t) && Inv(g, t) && Shaped(g, t) && PassedTo(g, t, k)
    ensures Run(false, g, s, fs, u) && Inv(g, u) && Shaped(g, u) && PassedTo(g, u, g.threads)
    decreases g.threads - k
  {
    hide Inv, Run;
    fs, u := es, t;
    if k < g.threads {
      var a := Do(false, g, t, Notice(k));
      Onward(g, s, es, t, Notice(k));
      var b := Do(false, g, a, Depart(k));
      Onward(g, s, es + [Notice(k)], a, Depart(k));
      fs, u := Walk(g, s, es + [Notice(k)] + [Depart(k)], b, k, k);
      fs, u := PassAll(g, s, fs, u, k + 1);
    }
  }

  /** The coordinator passes, and comes to the first flag of the next round before any thread has
      lowered its own. */
  lemma NextRound(g: Config, s: State, es: seq<Step>, t: State) returns (fs: seq<Step>, u: State)
    requires Run(false, g, s, es, t) && Inv(g, t) && Shaped(g, t) && PassedTo(g, t, g.threads)
    ensures Run(false, g, s, fs, u) && Inv(g, u) && Shaped(g, u) && u.phase == Raising(0, 0) && u.threads[0].Bumped?
  {
    hide Inv, Run;
    var a := Do(false, g, t, Pass);
    Onward(g, s, es, t, Pass);
    var b := Do(false, g, a, Unlock);
    Onward(g, s, es + [Pass], a, Unlock);
    var c := Do(false, g, b, Lock(0));
    Onward(g, s, es + [Pass] + [Unlock], b, Lock(0));
    var d := Do(false, g, c, Aim);
    Onward(g, s, es + [Pass] + [Unlock] + [Lock(0)], c, Aim);
    u := Do(false, g, d, Zero);
    Onward(g, s, es + [Pass] + [Unlock] + [Lock(0)] + [Aim], d, Zero);
    fs := es + [Pass] + [Unlock] + [Lock(0)] + [Aim] + [Zero];
  }

  /** It happens, with any number of threads and buckets: two rounds for an empty segment, the
      second begun before thread 0 has lowered the flag of the first.  By LostForever the second
      round never ends. */
  lemma LostWakeup(g: Config, s: State) returns (es: seq<Step>, t: State)
    requires Init(g, s) && g.segs > 0
    ensures Run(false, g, s, es, t) && Lost(g, t, 0)
  {
    var e1, s1 := StartRound(g, s);
    hide Inv, Run, Lost, RaisedTo, PassedTo;
    var e2, s2 := RaiseAll(g, s, e1, s1, 0);
    var e3, s3 := PassAll(g, s, e2, s2, 0);
    var e4, s4 := NextRound(g, s, e3, s3);
    EarlyRaiseLoses(g, s4);
    Extend(g, s, e4, s4, Raise);
    return e4 + [Raise], Do(false, g, s4, Raise);
  }
}
