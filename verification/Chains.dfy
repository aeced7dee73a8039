/** The contents of the chained hash of mix_hash.c as values: one list of entries per bucket, the
    newest first, and the finite map they stand for. */
module Chains {
  import opened Common

  datatype Entry = Entry(key: nat, slot: nat)

  type Table = seq<seq<Entry>>

  /** The slot of the first entry for the key, as mix_hash_get walks the list. */
  function Find(l: seq<Entry>, key: nat): Option<nat> {
    if l == [] then None
    else if l[0].key == key then Some(l[0].slot)
    else Find(l[1..], key)
  }

  /** The list without the first entry for the key, as mix_hash_delete relinks it. */
  function Drop(l: seq<Entry>, key: nat): seq<Entry> {
    if l == [] then []
    else if l[0].key == key then l[1..]
    else [l[0]] + Drop(l[1..], key)
  }

  predicate Holds(l: seq<Entry>, key: nat) {
    Find(l, key).Some?
  }

  /** How many entries of the list have the key. */
  function Count(l: seq<Entry>, key: nat): nat {
    if l == [] then 0 else (if l[0].key == key then 1 else 0) + Count(l[1..], key)
  }

  lemma {:induction false} CountHolds(l: seq<Entry>, key: nat)
    ensures Holds(l, key) <==> Count(l, key) > 0
  {
    if l != [] { CountHolds(l[1..], key); }
  }

  lemma {:induction false} FindAfterDrop(l: seq<Entry>, key: nat, k: nat)
    ensures k != key ==> Find(Drop(l, key), k) == Find(l, k)
    ensures Count(Drop(l, key), k) == if k == key && Count(l, k) > 0 then Count(l, k) - 1 else Count(l, k)
  {
    if l != [] && l[0].key != key {
      FindAfterDrop(l[1..], key, k);
      assert Drop(l, key)[1..] == Drop(l[1..], key);
    }
  }

  /** Every entry is in the bucket of its key. */
  ghost predicate Placed(t: Table, h: nat -> nat) {
    forall i, j :: 0 <= i < |t| && 0 <= j < |t[i]| ==> h(t[i][j].key) == i
  }

  /** No key has two entries. */
  ghost predicate Unique(t: Table) {
    forall i, k: nat :: 0 <= i < |t| ==> Count(t[i], k) <= 1
  }

  /** The map that looking up a key in its bucket amounts to. */
  ghost predicate Stands(t: Table, h: nat -> nat, m: map<nat, nat>) {
    forall k: nat :: h(k) < |t| && Find(t[h(k)], k) == if k in m then Some(m[k]) else None
  }

  /** mix_hash_put adds or shadows the key. */
  lemma PutStands(t: Table, h: nat -> nat, m: map<nat, nat>, key: nat, slot: nat)
    requires Stands(t, h, m)
    ensures Stands(t[h(key) := [Entry(key, slot)] + t[h(key)]], h, m[key := slot])
  {
    var l := [Entry(key, slot)] + t[h(key)];
    assert l[1..] == t[h(key)];
  }

  /** mix_hash_delete removes the key from the map exactly when the key has at most one entry. */
  lemma DeleteStandsExact(t: Table, h: nat -> nat, m: map<nat, nat>, key: nat)
    requires Stands(t, h, m)
    ensures Stands(t[h(key) := Drop(t[h(key)], key)], h, m - {key}) <==> Count(t[h(key)], key) <= 1
  {
    var u := t[h(key) := Drop(t[h(key)], key)];
    forall k: nat ensures k != key ==> h(k) < |u| && Find(u[h(k)], k) == Find(t[h(k)], k) {
      FindAfterDrop(t[h(key)], key, k);
    }
    FindAfterDrop(t[h(key)], key, key);
    CountHolds(u[h(key)], key);
    CountHolds(t[h(key)], key);
    assert Count(t[h(key)], key) > 1 ==> Find(u[h(key)], key).Some?;
  }

  /** Popping the head of a bucket is deleting its key. */
  lemma PopIsDrop(l: seq<Entry>)
    requires l != []
    ensures Drop(l, l[0].key) == l[1..]
  {
  }

  lemma UniqueAfterPut(t: Table, h: nat -> nat, m: map<nat, nat>, key: nat, slot: nat)
    requires Stands(t, h, m) && Unique(t) && Placed(t, h) && key !in m
    ensures Unique(t[h(key) := [Entry(key, slot)] + t[h(key)]]) && Placed(t[h(key) := [Entry(key, slot)] + t[h(key)]], h)
  {
    var l := t[h(key)];
    var u := t[h(key) := [Entry(key, slot)] + l];
    CountHolds(l, key);
    assert ([Entry(key, slot)] + l)[1..] == l;
    forall i, k: nat | 0 <= i < |u| ensures Count(u[i], k) <= 1 {
      assert Count(t[i], k) <= 1;
    }
  }

  lemma UniqueAfterDrop(t: Table, h: nat -> nat, b: nat, key: nat)
    requires b < |t| && Unique(t) && Placed(t, h)
    ensures Unique(t[b := Drop(t[b], key)]) && Placed(t[b := Drop(t[b], key)], h)
  {
    var u := t[b := Drop(t[b], key)];
    forall i, k: nat | 0 <= i < |u| ensures Count(u[i], k) <= 1 {
      FindAfterDrop(t[b], key, k);
      assert Count(t[i], k) <= 1;
    }
    DropKeeps(t[b], key);
    assert forall j :: 0 <= j < |t[b]| ==> h(t[b][j].key) == b;
    forall i, j | 0 <= i < |u| && 0 <= j < |u[i]| ensures h(u[i][j].key) == i {
      if i == b { assert u[b][j] in t[b]; }
    }
  }

  lemma {:induction false} DropKeeps(l: seq<Entry>, key: nat)
    ensures forall e :: e in Drop(l, key) ==> e in l
  {
    if l != [] && l[0].key != key {
      DropKeeps(l[1..], key);
    }
  }

  /** A table that stands for the empty map has only empty buckets, and the other way round. */
  lemma EmptyStands(t: Table, h: nat -> nat, m: map<nat, nat>)
    requires Stands(t, h, m) && Placed(t, h)
    ensures m == map[] <==> forall i :: 0 <= i < |t| ==> t[i] == []
  {
    if forall i :: 0 <= i < |t| ==> t[i] == [] {
      forall k: nat ensures k !in m { assert h(k) < |t| && Find(t[h(k)], k).None?; }
      assert m == map[];
    }
    if m == map[] {
      forall i | 0 <= i < |t| ensures t[i] == [] {
        if t[i] != [] {
          assert h(t[i][0].key) == i && Find(t[i], t[i][0].key).Some?;
        }
      }
    }
  }
}
