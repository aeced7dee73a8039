/** That a migration round can come to its end: in both orders of counter and flag, from every state
    that keeps the invariant; and so, for the code's order, exactly when no wake-up has been lost. */
module BarrierProgress {
  import opened Common
  import opened Chains
  import opened Barrier

  /** Where threads never are, in the one order and in the other. */
  ghost predicate OwnOrder(lowerFirst: bool, s: State) {
    forall k :: 0 <= k < |s.threads| ==> if lowerFirst then !s.threads[k].Bumped? else !s.threads[k].Lowered?
  }

  lemma StepOwnOrder(lowerFirst: bool, g: Config, s: State, e: Step)
    requires OwnOrder(lowerFirst, s) && Enabled(lowerFirst, g, s, e)
    ensures OwnOrder(lowerFirst, Do(lowerFirst, g, s, e))
  {
    hide Bag, Genuine;
  }

  lemma {:induction false} RunOwnOrder(lowerFirst: bool, g: Config, s: State, es: seq<Step>, t: State)
    requires OwnOrder(lowerFirst, s) && Run(lowerFirst, g, s, es, t)
    ensures OwnOrder(lowerFirst, t)
    decreases es
  {
    hide Do, Enabled, OwnOrder;
    if es != [] {
      StepOwnOrder(lowerFirst, g, s, es[0]);
      RunOwnOrder(lowerFirst, g, Do(lowerFirst, g, s, es[0]), es[1..], t);
    }
  }

  // ----- runs -----

  lemma FirstThen(lowerFirst: bool, g: Config, s: State, e: Step, es: seq<Step>, t: State)
    requires Enabled(lowerFirst, g, s, e) && Run(lowerFirst, g, Do(lowerFirst, g, s, e), es, t)
    ensures Run(lowerFirst, g, s, [e] + es, t)
  {
    hide Enabled, Do;
    assert ([e] + es)[1..] == es;
  }

  lemma {:induction false} Join(lowerFirst: bool, g: Config, s: State, es: seq<Step>, m: State, fs: seq<Step>, t: State)
    requires Run(lowerFirst, g, s, es, m) && Run(lowerFirst, g, m, fs, t)
    ensures Run(lowerFirst, g, s, es + fs, t)
    decreases es
  {
    hide Do, Enabled;
    if es == [] {
      assert es + fs == fs;
    } else {
      Join(lowerFirst, g, Do(lowerFirst, g, s, es[0]), es[1..], m, fs, t);
      assert (es + fs)[1..] == es[1..] + fs;
    }
  }

  lemma Here(lowerFirst: bool, g: Config, s: State)
    ensures Run(lowerFirst, g, s, [], s)
  {
  }

  /** A good state: the invariant, and the threads where this order can have them. */
  ghost predicate Good(lowerFirst: bool, g: Config, s: State) {
    Inv(g, s) && OwnOrder(lowerFirst, s)
  }

  lemma StepGood(lowerFirst: bool, g: Config, s: State, e: Step)
    requires Good(lowerFirst, g, s) && Enabled(lowerFirst, g, s, e) && Benign(s, e)
    ensures Good(lowerFirst, g, Do(lowerFirst, g, s, e))
  {
    StepSafe(lowerFirst, g, s, e);
    StepOwnOrder(lowerFirst, g, s, e);
  }

  // ----- one thread's pass -----

  /** The thread's next step, until it has bumped the counter. */
  function ThreadNext(k: nat, w: Thread): Step {
    match w
    case Spin => Notice(k)
    case Woken => Depart(k)
    case Scan(_, _) => Pop(k)
    case Held(_, _, _) => Copy(k)
    case Copied(_, _, _) => Clear(k)
    case Cleared(_, _, _) => Uncount(k)
    case Through(_) => First(k)
    case _ => Second(k)
  }

  function Ahead(w: Thread): nat {
    match w
    case Spin => 3
    case Woken => 2
    case Through(_) => 0
    case Lowered(_) => 0
    case Bumped(_) => 0
    case _ => 1
  }

  function BucketsLeft(n: nat, w: Thread): nat {
    if w.Scan? || w.Held? || w.Copied? || w.Cleared? then (if w.j < n then n - w.j else 0) else 0
  }

  function StepsLeft(w: Thread): nat {
    match w
    case Held(_, _, _) => 3
    case Copied(_, _, _) => 2
    case Cleared(_, _, _) => 1
    case Through(_) => 2
    case Lowered(_) => 1
    case _ => 0
  }

  /** The thread has come nearer to the end of its pass. */
  ghost predicate Nearer(g: Config, s: State, t: State, k: nat)
    requires Shaped(g, s) && Shaped(g, t) && k < g.threads && s.phase.Waiting? && s.phase.i < g.segs
  {
    var w, u := s.threads[k], t.threads[k];
    var b, c := |Bag(s.tables[s.phase.i])|, |Bag(t.tables[s.phase.i])|;
    || Ahead(u) < Ahead(w)
    || (Ahead(u) == Ahead(w) && c < b)
    || (Ahead(u) == Ahead(w) && c == b && BucketsLeft(g.buckets, u) < BucketsLeft(g.buckets, w))
    || (Ahead(u) == Ahead(w) && c == b && BucketsLeft(g.buckets, u) == BucketsLeft(g.buckets, w) && StepsLeft(u) < StepsLeft(w))
  }

  /** Thread k still has to bump the counter of the round that the coordinator waits for. */
  ghost predicate Owes(g: Config, s: State, k: nat) {
    Shaped(g, s) && s.phase.Waiting? && s.phase.i < g.segs && k < g.threads && k !in s.done
  }

  lemma ThreadCan(lowerFirst: bool, g: Config, s: State, k: nat)
    requires Good(lowerFirst, g, s) && Owes(g, s, k)
    ensures var e := ThreadNext(k, s.threads[k]); Enabled(lowerFirst, g, s, e) && Benign(s, e)
    ensures OnItsWay(g.threads, s.tables[s.phase.i], s.phase.i, k, s.threads[k], s.flags[k])
    ensures TableOk(s, s.phase.i)
  {
    hide Conserved, Drained, Bag;
    assert ThreadOk(g, s, k);
  }

  lemma PopNearer(g: Config, s: State, k: nat)
    requires Owes(g, s, k) && s.threads[k].Scan? && s.threads[k].seg == s.phase.i && TableOk(s, s.phase.i)
    ensures var t := DoPop(g, s, k); Shaped(g, t) && t.phase == s.phase && t.done == s.done && Nearer(g, s, t, k)
  {
    hide Bag;
    var Scan(i, j) := s.threads[k];
    var table := s.tables[i];
    if j < |table| && table[j] != [] {
      assert Genuine(table[j][0]);
      BagUpdate(table, j, table[j][1..]);
      BagShrinks(Bag(table[j := table[j][1..]]), Bag(table), table[j]);
    }
  }

  lemma BagShrinks(a: multiset<Entry>, b: multiset<Entry>, l: seq<Entry>)
    requires l != [] && a + multiset(l) == b + multiset(l[1..])
    ensures |a| < |b|
  {
    assert |a + multiset(l)| == |a| + |l| && |b + multiset(l[1..])| == |b| + |l| - 1;
  }

  /** A step of its pass brings the thread nearer to the end, or to it. */
  lemma ThreadNearer(lowerFirst: bool, g: Config, s: State, k: nat)
    requires Good(lowerFirst, g, s) && Owes(g, s, k) && Enabled(lowerFirst, g, s, ThreadNext(k, s.threads[k]))
    requires OnItsWay(g.threads, s.tables[s.phase.i], s.phase.i, k, s.threads[k], s.flags[k]) && TableOk(s, s.phase.i)
    ensures var t := Do(lowerFirst, g, s, ThreadNext(k, s.threads[k]));
            && Shaped(g, t) && t.phase == s.phase
            && (t.done == s.done + {k} || (t.done == s.done && Nearer(g, s, t, k)))
  {
    hide Inv, Bag, Drained;
    if s.threads[k].Scan? {
      PopNearer(g, s, k);
    }
  }

  lemma {:induction false} PassEnds(lowerFirst: bool, g: Config, s: State, k: nat) returns (es: seq<Step>, t: State)
    requires Good(lowerFirst, g, s) && Owes(g, s, k)
    ensures Run(lowerFirst, g, s, es, t) && Good(lowerFirst, g, t) && Shaped(g, t) && t.phase == s.phase && t.done == s.done + {k}
    decreases Ahead(s.threads[k]), |Bag(s.tables[s.phase.i])|, BucketsLeft(g.buckets, s.threads[k]), StepsLeft(s.threads[k])
  {
    hide Good, Do, Enabled, Run, Benign, OnItsWay, TableOk, Bag;
    var e := ThreadNext(k, s.threads[k]);
    ThreadCan(lowerFirst, g, s, k);
    ThreadNearer(lowerFirst, g, s, k);
    StepGood(lowerFirst, g, s, e);
    var m := Do(lowerFirst, g, s, e);
    var rest;
    if k in m.done {
      rest, t := [], m;
      Here(lowerFirst, g, m);
    } else {
      rest, t := PassEnds(lowerFirst, g, m, k);
    }
    es := [e] + rest;
    FirstThen(lowerFirst, g, s, e, rest, t);
  }

  // ----- the coordinator -----

  /** The round for segment i is over: its buckets are empty. */
  ghost predicate RoundOver(g: Config, t: State, i: nat) {
    Shaped(g, t) && t.phase.Free? && i < g.segs && t.used[i] == 0 && forall j :: 0 <= j < g.buckets ==> t.tables[i][j] == []
  }

  lemma SomeOwes(lowerFirst: bool, g: Config, s: State) returns (k: nat)
    requires Good(lowerFirst, g, s) && s.phase.Waiting? && !Enabled(lowerFirst, g, s, Pass)
    ensures Owes(g, s, k) && |s.done| < g.threads
  {
    FullSet(s.done, g.threads);
    k :| k < g.threads && k !in s.done;
  }

  lemma LastSteps(lowerFirst: bool, g: Config, s: State) returns (t: State)
    requires Good(lowerFirst, g, s) && s.phase.Waiting? && Enabled(lowerFirst, g, s, Pass)
    ensures Run(lowerFirst, g, s, [Pass] + [Unlock], t) && Good(lowerFirst, g, t) && RoundOver(g, t, s.phase.i)
  {
    hide Run, Bag, HeldBag, Carrying;
    var i := s.phase.i;
    BarrierHolds(lowerFirst, g, s);
    StepGood(lowerFirst, g, s, Pass);
    var m := Do(lowerFirst, g, s, Pass);
    StepGood(lowerFirst, g, m, Unlock);
    t := Do(lowerFirst, g, m, Unlock);
    Here(lowerFirst, g, t);
    FirstThen(lowerFirst, g, m, Unlock, [], t);
    assert [Unlock] + [] == [Unlock];
    FirstThen(lowerFirst, g, s, Pass, [Unlock], t);
  }

  /** The wait ends: the threads that still owe a pass make it, one after the other. */
  lemma {:induction false} WaitEnds(lowerFirst: bool, g: Config, s: State) returns (es: seq<Step>, t: State)
    requires Good(lowerFirst, g, s) && Shaped(g, s) && s.phase.Waiting?
    ensures Run(lowerFirst, g, s, es, t) && Good(lowerFirst, g, t) && RoundOver(g, t, s.phase.i)
    decreases g.threads - |s.done|
  {
    hide Good, Do, Enabled, Run, RoundOver;
    if Enabled(lowerFirst, g, s, Pass) {
      t := LastSteps(lowerFirst, g, s);
      es := [Pass] + [Unlock];
    } else {
      var k := SomeOwes(lowerFirst, g, s);
      var fs, m := PassEnds(lowerFirst, g, s, k);
      assert |m.done| == |s.done| + 1;
      var gs;
      gs, t := WaitEnds(lowerFirst, g, m);
      es := fs + gs;
      Join(lowerFirst, g, s, fs, m, gs, t);
    }
  }

  /** Before a flag is raised its thread lowers it, if it has still to do that. */
  lemma RaiseNext(lowerFirst: bool, g: Config, s: State) returns (es: seq<Step>, t: State)
    requires Good(lowerFirst, g, s) && Shaped(g, s) && s.phase.Raising?
    ensures Run(lowerFirst, g, s, es, t) && Good(lowerFirst, g, t) && Shaped(g, t) && s.phase.k < g.threads
    ensures t.phase == if s.phase.k + 1 < g.threads then Raising(s.phase.i, s.phase.k + 1) else Waiting(s.phase.i)
  {
    hide Run, Bag, HeldBag, Carrying, Conserved, Drained;
    var k := s.phase.k;
    assert ThreadOk(g, s, k);
    var m := s;
    es := [];
    Here(lowerFirst, g, s);
    if s.threads[k].Bumped? {
      StepGood(lowerFirst, g, s, Second(k));
      m := Do(lowerFirst, g, s, Second(k));
      Here(lowerFirst, g, m);
      FirstThen(lowerFirst, g, s, Second(k), [], m);
      es := [Second(k)] + [];
    }
    StepGood(lowerFirst, g, m, Raise);
    t := Do(lowerFirst, g, m, Raise);
    Here(lowerFirst, g, t);
    FirstThen(lowerFirst, g, m, Raise, [], t);
    Join(lowerFirst, g, s, es, m, [Raise] + [], t);
    es := es + ([Raise] + []);
  }

  lemma {:induction false} RaiseEnds(lowerFirst: bool, g: Config, s: State) returns (es: seq<Step>, t: State)
    requires Good(lowerFirst, g, s) && Shaped(g, s) && s.phase.Raising?
    ensures Run(lowerFirst, g, s, es, t) && Good(lowerFirst, g, t) && Shaped(g, t) && t.phase == Waiting(s.phase.i)
    decreases if s.phase.k < g.threads then g.threads - s.phase.k else 0
  {
    hide Good, Run;
    var fs, m := RaiseNext(lowerFirst, g, s);
    if m.phase.Waiting? {
      es, t := fs, m;
    } else {
      var gs;
      gs, t := RaiseEnds(lowerFirst, g, m);
      es := fs + gs;
      Join(lowerFirst, g, s, fs, m, gs, t);
    }
  }

  /** From the mutex to the first flag. */
  lemma AimEnds(lowerFirst: bool, g: Config, s: State) returns (es: seq<Step>, t: State)
    requires Good(lowerFirst, g, s) && Shaped(g, s) && (s.phase.Locked? || s.phase.Aimed?)
    ensures Run(lowerFirst, g, s, es, t) && Good(lowerFirst, g, t) && Shaped(g, t) && t.phase == Raising(s.phase.i, 0)
  {
    hide Run, Bag, HeldBag, Carrying, Drained, Conserved, OwnOrder;
    var m := s;
    es := [];
    Here(lowerFirst, g, s);
    if s.phase.Locked? {
      StepGood(lowerFirst, g, s, Aim);
      m := Do(lowerFirst, g, s, Aim);
      Here(lowerFirst, g, m);
      FirstThen(lowerFirst, g, s, Aim, [], m);
      es := [Aim] + [];
    }
    StepGood(lowerFirst, g, m, Zero);
    t := Do(lowerFirst, g, m, Zero);
    Here(lowerFirst, g, t);
    FirstThen(lowerFirst, g, m, Zero, [], t);
    Join(lowerFirst, g, s, es, m, [Zero] + [], t);
    es := es + ([Zero] + []);
  }

  lemma PassedEnds(lowerFirst: bool, g: Config, s: State) returns (t: State)
    requires Good(lowerFirst, g, s) && Shaped(g, s) && s.phase.Passed?
    ensures Run(lowerFirst, g, s, [Unlock] + [], t) && Good(lowerFirst, g, t) && Shaped(g, t) && t.phase.Free?
  {
    hide Run, Bag, HeldBag, Carrying, Drained, Conserved, OwnOrder;
    StepGood(lowerFirst, g, s, Unlock);
    t := Do(lowerFirst, g, s, Unlock);
    Here(lowerFirst, g, t);
    FirstThen(lowerFirst, g, s, Unlock, [], t);
  }

  /** In both orders: from every state that keeps the invariant, at whatever point of a round, and
      wherever its threads are, some continuation ends the round and frees the mutex. */
  lemma RoundEnds(lowerFirst: bool, g: Config, s: State) returns (es: seq<Step>, t: State)
    requires Good(lowerFirst, g, s) && Shaped(g, s) && !s.phase.Free?
    ensures Run(lowerFirst, g, s, es, t) && Good(lowerFirst, g, t) && Shaped(g, t) && t.phase.Free?
    ensures !s.phase.Passed? ==> RoundOver(g, t, s.phase.i)
  {
    hide Good, Run;
    if s.phase.Passed? {
      t := PassedEnds(lowerFirst, g, s);
      es := [Unlock] + [];
    } else {
      var m := s;
      es := [];
      Here(lowerFirst, g, s);
      if m.phase.Locked? || m.phase.Aimed? {
        es, m := AimEnds(lowerFirst, g, m);
      }
      if m.phase.Raising? {
        var fs, u := RaiseEnds(lowerFirst, g, m);
        Join(lowerFirst, g, s, es, m, fs, u);
        es, m := es + fs, u;
      }
      var gs;
      gs, t := WaitEnds(lowerFirst, g, m);
      Join(lowerFirst, g, s, es, m, gs, t);
      es := es + gs;
    }
  }

  /** Whenever the mutex is free a whole round for any segment can be run, and drains it. */
  lemma RoundRuns(lowerFirst: bool, g: Config, s: State, i: nat) returns (es: seq<Step>, t: State)
    requires Good(lowerFirst, g, s) && Shaped(g, s) && s.phase.Free? && i < g.segs
    ensures Run(lowerFirst, g, s, es, t) && es != [] && es[0] == Lock(i) && Good(lowerFirst, g, t) && RoundOver(g, t, i)
  {
    hide Good, Run, RoundOver;
    var m := Locking(lowerFirst, g, s, i);
    var rest;
    rest, t := RoundEnds(lowerFirst, g, m);
    es := [Lock(i)] + rest;
    FirstThen(lowerFirst, g, s, Lock(i), rest, t);
  }

  lemma Locking(lowerFirst: bool, g: Config, s: State, i: nat) returns (t: State)
    requires Good(lowerFirst, g, s) && Shaped(g, s) && s.phase.Free? && i < g.segs
    ensures Enabled(lowerFirst, g, s, Lock(i)) && t == Do(lowerFirst, g, s, Lock(i)) && Good(lowerFirst, g, t) && Shaped(g, t) && t.phase == Locked(i)
  {
    hide Bag, HeldBag, Carrying, Drained, Conserved, OwnOrder;
    StepGood(lowerFirst, g, s, Lock(i));
    t := Do(lowerFirst, g, s, Lock(i));
  }

  // ----- the code's order -----

  /** Some continuation ends the round. */
  ghost predicate CanEnd(g: Config, s: State) {
    exists es: seq<Step>, t :: Run(false, g, s, es, t) && t.phase.Free?
  }

  /** In every state of every run of the code, in the middle of a round: the round can still come to its
      end if and only if no thread has lost its wake-up. */
  lemma WaitExact(g: Config, s: State, es: seq<Step>, t: State)
    requires Init(g, s) && Run(false, g, s, es, t) && !t.phase.Free?
    ensures CanEnd(g, t) <==> !exists k: nat :: Lost(g, t, k)
  {
    hide Inv, Lost, Run;
    InitInv(g, s);
    RunOwnOrder(false, g, s, es, t);
    SafeOrLost(g, s, es, t);
    if k: nat :| Lost(g, t, k) {
      forall fs: seq<Step>, u | Run(false, g, t, fs, u) ensures !u.phase.Free? {
        LostForever(g, t, fs, u, k);
        LostHolds(g, u, k);
      }
    } else {
      GoodShaped(g, t);
      var fs, u := RoundEnds(false, g, t);
    }
  }

  lemma LostHolds(g: Config, s: State, k: nat)
    requires Lost(g, s, k)
    ensures !s.phase.Free?
  {
  }

  lemma GoodShaped(g: Config, s: State)
    requires Inv(g, s)
    ensures Shaped(g, s)
  {
  }
}
