/** The chained hash table of mix_hash.c: buckets, each a length and a singly linked list of nodes
    that puts, deletes and pops relink in place. */
module ChainedHash {
  import opened Common
  import opened Chains

  /** hash_list_node. */
  class Node {
    const key: nat
    const slot: nat
    var next: Node?

    constructor (key: nat, slot: nat, next: Node?)
      ensures this.key == key && this.slot == slot && this.next == next
    {
      this.key, this.slot, this.next := key, slot, next;
    }
  }

  function Nth(c: seq<Node>, j: nat): Node? {
    if j < |c| then c[j] else null
  }

  function Entries(c: seq<Node>): (l: seq<Entry>)
    ensures |l| == |c|
    ensures forall j :: 0 <= j < |c| ==> l[j] == Entry(c[j].key, c[j].slot)
  {
    seq(|c|, j requires 0 <= j < |c| => Entry(c[j].key, c[j].slot))
  }

  /** Where Drop cuts. */
  lemma {:induction false} DropAt(l: seq<Entry>, key: nat, j: nat)
    requires j <= |l| && (forall k :: 0 <= k < j ==> l[k].key != key) && (j < |l| ==> l[j].key == key)
    ensures Drop(l, key) == if j < |l| then l[..j] + l[j + 1..] else l
    ensures Holds(l, key) <==> j < |l|
  {
    if j > 0 {
      DropAt(l[1..], key, j - 1);
      assert j < |l| ==> [l[0]] + (l[1..][..j - 1] + l[1..][j..]) == l[..j] + l[j + 1..];
    }
  }

  lemma EntriesWithout(c: seq<Node>, j: nat)
    requires j < |c|
    ensures Entries(c[..j] + c[j + 1..]) == Entries(c)[..j] + Entries(c)[j + 1..]
  {
  }

  /** hash_node: one bucket. */
  class Bucket {
    var len: int
    var list: Node?
    // for the proofs: the nodes in order, and all nodes the bucket may touch
    ghost var chain: seq<Node>
    ghost var nodes: set<Node>

    /** The list visits exactly the nodes of chain, each once. */
    ghost predicate Valid()
      reads this, nodes
    {
      && list == Nth(chain, 0)
      && (forall j :: 0 <= j < |chain| ==> chain[j] in nodes && chain[j].next == Nth(chain, j + 1))
      && forall j, k :: 0 <= j < k < |chain| ==> chain[j] != chain[k]
    }

    ghost predicate Counted()
      reads this
    {
      len == |chain|
    }

    ghost function List(): (l: seq<Entry>)
      reads this
    {
      Entries(chain)
    }

    constructor ()
      ensures Valid() && Counted() && List() == [] && nodes == {}
    {
      len, list, chain, nodes := 0, null, [], {};
    }

    method Push(key: nat, slot: nat)
      requires Valid()
      modifies this
      ensures Valid() && fresh(nodes - old(nodes)) && old(nodes) <= nodes
      ensures List() == [Entry(key, slot)] + old(List())
      ensures len == old(len) + 1
    {
      hide Entries;
      var node := new Node(key, slot, list);
      ghost var c := chain;
      list := node;
      len := len + 1;
      nodes := nodes + {node};
      chain := [node] + c;
      assert forall j :: 0 < j < |chain| ==> chain[j] == c[j - 1];
    }

    method Lookup(key: nat) returns (r: Option<nat>)
      requires Valid()
      ensures r == Find(List(), key)
    {
      var cur := list;
      ghost var j := 0;
      r := None;
      while cur != null
        invariant j <= |chain| && cur == Nth(chain, j)
        invariant Find(List(), key) == Find(List()[j..], key)
        decreases |chain| - j
      {
        assert List()[j..][1..] == List()[j + 1..];
        if cur.key == key {
          r := Some(cur.slot);
          return;
        }
        cur := cur.next;
        j := j + 1;
      }
    }

    /** Relinks around node j. */
    method Unlink(prev: Node?, cur: Node, ghost j: nat)
      requires Valid() && j < |chain| && cur == chain[j] && prev == if j == 0 then null else chain[j - 1]
      modifies this`list, this`chain, nodes
      ensures Valid() && nodes == old(nodes)
      ensures chain == old(chain)[..j] + old(chain)[j + 1..]
    {
      ghost var c := chain;
      if prev == null {
        list := cur.next;
      } else {
        prev.next := cur.next;
      }
      chain := c[..j] + c[j + 1..];
      assert forall k :: 0 <= k < |chain| ==> chain[k] == c[if k < j then k else k + 1];
    }

    /** The walk of mix_hash_delete: the first node with the key, and the one before it. */
    method Search(key: nat) returns (prev: Node?, cur: Node?, ghost j: nat)
      requires Valid()
      ensures j <= |chain| && cur == Nth(chain, j) && prev == if j == 0 then null else chain[j - 1]
      ensures (forall k :: 0 <= k < j ==> List()[k].key != key) && (cur != null <==> j < |chain|)
      ensures j < |List()| ==> List()[j].key == key
    {
      prev, cur := null, list;
      j := 0;
      while cur != null && cur.key != key
        invariant j <= |chain| && cur == Nth(chain, j)
        invariant prev == if j == 0 then null else chain[j - 1]
        invariant forall k :: 0 <= k < j ==> chain[k].key != key
        decreases |chain| - j
      {
        prev, cur := cur, cur.next;
        j := j + 1;
      }
    }

    /** The first entry for the key, if any, is unlinked; the length drops by one in any case. */
    method Remove(key: nat)
      requires Valid()
      modifies this, nodes
      ensures Valid() && nodes == old(nodes)
      ensures List() == Drop(old(List()), key)
      ensures len == old(len) - 1
      ensures old(Counted()) ==> (Counted() <==> Holds(old(List()), key))
    {
      hide Drop, Find, Holds, Entries;
      ghost var l := List();
      var prev, cur, j := Search(key);
      DropAt(l, key, j);
      if cur != null {
        EntriesWithout(chain, j);
        Unlink(prev, cur, j);
      }
      len := len - 1;
    }

    /** Pops the head; None when the length is not positive. */
    method Pop() returns (r: Option<Entry>)
      requires Valid() && Counted()
      modifies this, nodes
      ensures Valid() && Counted() && nodes == old(nodes)
      ensures var l := old(List()); if l == [] then r == None && List() == l else r == Some(l[0]) && List() == l[1..]
    {
      r := None;
      if len > 0 {
        var first := list;
        r := Some(Entry(first.key, first.slot));
        Unlink(null, first, 0);
        len := len - 1;
      }
    }
  }

  /** mix_hash. */
  class MixHash {
    const buckets: seq<Bucket>
    const h: nat -> nat
    ghost var repr: set<object>

    ghost predicate Valid()
      reads this, repr
    {
      && this in repr && |buckets| > 0
      && (forall k: nat :: h(k) < |buckets|)
      && (forall i :: 0 <= i < |buckets| ==> buckets[i] in repr && buckets[i].nodes <= repr && buckets[i].Valid())
      && (forall i, j :: 0 <= i < j < |buckets| ==> buckets[i] != buckets[j] && buckets[i].nodes !! buckets[j].nodes)
    }

    /** Every bucket's length is that of its list. */
    ghost predicate Counted()
      reads this, buckets
    {
      forall i :: 0 <= i < |buckets| ==> buckets[i].Counted()
    }

    /** The entries of all buckets. */
    ghost function Table(): (t: Table)
      reads this, buckets
      ensures |t| == |buckets|
      ensures forall i :: 0 <= i < |buckets| ==> t[i] == buckets[i].List()
    {
      seq(|buckets|, i requires 0 <= i < |buckets| reads this, buckets => buckets[i].List())
    }

    /** mix_hash_init. */
    constructor (size: nat, h: nat -> nat)
      requires size > 0 && forall k: nat :: h(k) < size
      ensures Valid() && Counted() && fresh(repr) && this.h == h && |buckets| == size
      ensures forall i :: 0 <= i < size ==> Table()[i] == []
    {
      var bs: seq<Bucket> := [];
      ghost var all: set<object> := {};
      while |bs| < size
        invariant |bs| <= size
        invariant fresh(all) && forall i :: 0 <= i < |bs| ==> bs[i] in all
        invariant forall i :: 0 <= i < |bs| ==> fresh(bs[i]) && bs[i].Valid() && bs[i].Counted() && bs[i].List() == [] && bs[i].nodes == {}
        invariant forall i, j :: 0 <= i < j < |bs| ==> bs[i] != bs[j]
      {
        var b := new Bucket();
        bs := bs + [b];
        all := all + {b};
      }
      buckets := bs;
      this.h := h;
      repr := {this} + all;
    }

    /** mix_hash_put: a new node in front of the key's bucket. */
    method Put(key: nat, slot: nat)
      requires Valid()
      modifies repr
      ensures Valid() && fresh(repr - old(repr)) && (old(Counted()) ==> Counted())
      ensures Table() == old(Table())[h(key) := [Entry(key, slot)] + old(Table())[h(key)]]
    {
      hide Bucket.Valid, Entries;
      var b := buckets[h(key)];
      b.Push(key, slot);
      repr := repr + b.nodes;
    }

    /** mix_hash_get: -1 (here None) when the walk finds nothing. */
    method Get(key: nat) returns (r: Option<nat>)
      requires Valid()
      ensures r == Find(Table()[h(key)], key)
    {
      r := buckets[h(key)].Lookup(key);
    }

    /** mix_hash_get_entry_by_idx. */
    method PopAt(i: nat) returns (r: Option<Entry>)
      requires Valid() && Counted() && i < |buckets|
      modifies repr
      ensures Valid() && Counted() && repr == old(repr)
      ensures var l := old(Table())[i];
              if l == [] then r == None && Table() == old(Table())
              else r == Some(l[0]) && Table() == old(Table())[i := l[1..]]
    {
      hide Bucket.Valid, Bucket.List;
      r := buckets[i].Pop();
    }

    /** mix_hash_delete: on a key that is not there it spoils the bucket's length. */
    method Delete(key: nat)
      requires Valid()
      modifies repr
      ensures Valid() && repr == old(repr)
      ensures Table() == old(Table())[h(key) := Drop(old(Table())[h(key)], key)]
      ensures old(Counted()) ==> (Counted() <==> Holds(old(Table())[h(key)], key))
    {
      hide Bucket.Valid, Bucket.List, Drop, Find, Holds;
      var b := h(key);
      buckets[b].Remove(key);
      assert Counted() ==> buckets[b].Counted();
    }
  }
}
