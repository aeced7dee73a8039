/** How a request for the SSD is cut at stripe boundaries and dealt to the workers' queues
    (mix_post_task_to_buffer in src/nvm_worker.c). */
module Splitter {
  import opened Common

  /** Blocks off .. off+len-1 of the request, whose data is at block at of its buffer. */
  datatype Piece = Piece(off: nat, len: nat, at: nat)

  /** The worker, and so the segment, that block b belongs to. */
  function QueueOf(stripe: nat, queues: nat, b: nat): (q: nat)
    requires stripe > 0 && queues > 0
    ensures q < queues
  {
    Mod(Div(b, stripe), queues)
  }

  lemma QueueOfIs(stripe: nat, queues: nat, b: nat)
    requires stripe > 0 && queues > 0
    ensures QueueOf(stripe, queues, b) == b / stripe % queues
  {
    DivModMeaning(b, stripe);
    DivModMeaning(b / stripe, queues);
  }

  /** p is a right piece of the request from off on: not empty, inside one stripe, and with the
      place of its data in the request's buffer. */
  ghost predicate RightPiece(stripe: nat, off: nat, p: Piece)
    requires stripe > 0
  {
    && 1 <= p.len <= stripe && off <= p.off && p.at == p.off - off
    && forall b: nat :: p.off <= b < p.off + p.len ==> Div(b, stripe) == Div(p.off, stripe)
  }

  /** The pieces follow each other without gap from off to end. */
  predicate Tiles(ps: seq<Piece>, off: nat, end: nat) {
    if ps == [] then off == end
    else ps[0].off == off && Tiles(ps[1..], off + ps[0].len, end)
  }

  /** Every cut but the ends is at a stripe boundary. */
  ghost predicate CutAtStripes(stripe: nat, off: nat, ps: seq<Piece>)
    requires stripe > 0
  {
    forall k :: 0 <= k < |ps| ==> ps[k].off == off || Mod(ps[k].off, stripe) == 0
  }

  lemma {:induction false} TilesAppend(ps: seq<Piece>, off: nat, end: nat, p: Piece)
    requires Tiles(ps, off, end) && p.off == end
    ensures Tiles(ps + [p], off, end + p.len)
  {
    if ps == [] {
    } else {
      assert (ps + [p])[1..] == ps[1..] + [p];
      TilesAppend(ps[1..], off + ps[0].len, end, p);
    }
  }

  predicate Within(p: Piece, b: nat) {
    p.off <= b < p.off + p.len
  }

  lemma {:induction false} TilesBounds(ps: seq<Piece>, off: nat, end: nat)
    requires Tiles(ps, off, end)
    ensures off <= end && forall k :: 0 <= k < |ps| ==> off <= ps[k].off && ps[k].off + ps[k].len <= end
  {
    if ps != [] {
      TilesBounds(ps[1..], off + ps[0].len, end);
      assert forall k :: 0 < k < |ps| ==> ps[k] == ps[1..][k - 1];
    }
  }

  /** A tiling covers every block of the request exactly once, and no other. */
  lemma {:induction false} TilesOnce(ps: seq<Piece>, off: nat, end: nat, b: nat)
    requires Tiles(ps, off, end)
    ensures (off <= b < end) <==> exists k :: 0 <= k < |ps| && Within(ps[k], b)
    ensures forall k, l :: 0 <= k < l < |ps| ==> !(Within(ps[k], b) && Within(ps[l], b))
  {
    TilesBounds(ps, off, end);
    if ps != [] {
      var rest := ps[1..];
      TilesOnce(rest, off + ps[0].len, end, b);
      TilesBounds(rest, off + ps[0].len, end);
      assert forall k :: 0 < k < |ps| ==> ps[k] == rest[k - 1];
      if off <= b < end {
        if Within(ps[0], b) {
        } else {
          var k :| 0 <= k < |rest| && Within(rest[k], b);
          assert Within(ps[k + 1], b);
        }
      }
    }
  }

  /** The pieces dealt to queue q, in order. */
  function Dealt(stripe: nat, queues: nat, ps: seq<Piece>, q: nat): seq<Piece>
    requires stripe > 0 && queues > 0
  {
    if ps == [] then []
    else Dealt(stripe, queues, ps[..|ps| - 1], q)
         + if QueueOf(stripe, queues, ps[|ps| - 1].off) == q then [ps[|ps| - 1]] else []
  }

  /** From a block to the next stripe. */
  lemma {:induction false} NextStripe(o: nat, stripe: nat, l: nat)
    requires stripe > 0 && l <= stripe - Mod(o, stripe)
    ensures forall b: nat :: o <= b < o + l ==> Div(b, stripe) == Div(o, stripe)
    ensures l == stripe - Mod(o, stripe) ==> Mod(o + l, stripe) == 0 && Div(o + l, stripe) == Div(o, stripe) + 1
  {
    if o < stripe {
      assert l == stripe - Mod(o, stripe) ==> Mod(o + l - stripe, stripe) == 0 && Div(o + l - stripe, stripe) == 0;
    } else {
      NextStripe(o - stripe, stripe, l);
      forall b: nat | o <= b < o + l ensures Div(b, stripe) == Div(o, stripe) {
        assert Div(b - stripe, stripe) == Div(o - stripe, stripe);
      }
    }
  }

  lemma {:induction false} ModNext(a: nat, n: nat)
    requires n > 0
    ensures Mod(a + 1, n) == Mod(Mod(a, n) + 1, n)
  {
    if a >= n {
      ModNext(a - n, n);
    }
  }

  /** What the code enqueues next: the rest of the stripe, or of the request. */
  function Cut(stripe: nat, off: nat, end: nat, o: nat): (p: Piece)
    requires stripe > 0 && off <= o < end
    ensures 1 <= p.len <= end - o
  {
    var l := stripe - Mod(o, stripe);
    Piece(o, if l > end - o then end - o else l, o - off)
  }

  /** The pieces ps of the request are posted, up to block o, and idx is the queue of the next. */
  ghost predicate Cutting(stripe: nat, n: nat, off: nat, end: nat, o: nat, idx: nat, ps: seq<Piece>)
    requires stripe > 0 && n > 0
  {
    && off <= o <= end && Tiles(ps, off, o) && CutAtStripes(stripe, off, ps)
    && (o < end ==> idx == QueueOf(stripe, n, o) && (o == off || Mod(o, stripe) == 0))
    && forall k :: 0 <= k < |ps| ==> RightPiece(stripe, off, ps[k])
  }

  lemma CutBegins(stripe: nat, n: nat, off: nat, end: nat)
    requires stripe > 0 && n > 0 && off <= end
    ensures Cutting(stripe, n, off, end, off, Mod(Div(off, stripe), n), [])
  {
  }

  lemma CutNext(stripe: nat, n: nat, off: nat, end: nat, o: nat, idx: nat, ps: seq<Piece>)
    requires stripe > 0 && n > 0 && Cutting(stripe, n, off, end, o, idx, ps) && o < end
    ensures var p := Cut(stripe, off, end, o);
            idx == QueueOf(stripe, n, p.off) && Cutting(stripe, n, off, end, o + p.len, Mod(idx + 1, n), ps + [p])
  {
    var p := Cut(stripe, off, end, o);
    NextStripe(o, stripe, p.len);
    ModNext(Div(o, stripe), n);
    TilesAppend(ps, off, o, p);
    hide Div, Mod, Tiles;
  }

  /** now is before with the pieces ps dealt out. */
  ghost predicate Served(stripe: nat, before: seq<seq<Piece>>, now: seq<seq<Piece>>, ps: seq<Piece>)
    requires stripe > 0
  {
    |now| == |before| && forall q: nat :: q < |now| ==> now[q] == before[q] + Dealt(stripe, |now|, ps, q)
  }

  lemma ServeNext(stripe: nat, before: seq<seq<Piece>>, now: seq<seq<Piece>>, ps: seq<Piece>, p: Piece)
    requires stripe > 0 && Served(stripe, before, now, ps) && |now| > 0
    ensures var q := QueueOf(stripe, |now|, p.off); Served(stripe, before, now[q := now[q] + [p]], ps + [p])
  {
    hide QueueOf;
    assert (ps + [p])[..|ps|] == ps;
  }

  /** The queues of the buffer workers. */
  class BufferQueues {
    const queues: array<seq<Piece>>

    constructor (n: nat)
      ensures queues.Length == n && fresh(queues) && forall q :: 0 <= q < n ==> queues[q] == []
    {
      queues := new seq<Piece>[n](_ => []);
    }

    /** mix_post_task_to_buffer, with room in the queues. */
    method PostTask(stripe: nat, off: nat, len: nat) returns (ghost posted: seq<Piece>)
      requires stripe > 0 && queues.Length > 0
      modifies queues
      ensures Tiles(posted, off, off + len) && CutAtStripes(stripe, off, posted)
      ensures forall k :: 0 <= k < |posted| ==> RightPiece(stripe, off, posted[k])
      ensures Served(stripe, old(queues[..]), queues[..], posted)
    {
      var o, end := off, off + len;
      var n := queues.Length;
      var idx := Mod(Div(off, stripe), n);
      posted := [];
      hide Tiles, CutAtStripes, RightPiece, Div, Mod, QueueOf;
      assert Cutting(stripe, n, off, end, o, idx, posted) by { CutBegins(stripe, n, off, end); }
      while o < end
        invariant Cutting(stripe, n, off, end, o, idx, posted) && Served(stripe, old(queues[..]), queues[..], posted)
        decreases end - o
      {
        var p := Cut(stripe, off, end, o);
        ghost var qs := queues[..];
        CutNext(stripe, n, off, end, o, idx, posted);
        ServeNext(stripe, old(queues[..]), qs, posted, p);
        queues[idx] := queues[idx] + [p];
        assert queues[..] == qs[idx := qs[idx] + [p]];
        posted := posted + [p];
        o := o + p.len;
        idx := Mod(idx + 1, n);
      }
    }
  }

  /** Every block of a request is in one piece, in the queue of its segment, with its data at its
      own place in the request's buffer. */
  lemma BlockIsDealt(stripe: nat, queues: nat, off: nat, len: nat, ps: seq<Piece>, b: nat)
    requires stripe > 0 && queues > 0 && Tiles(ps, off, off + len) && off <= b < off + len
    requires forall k :: 0 <= k < |ps| ==> RightPiece(stripe, off, ps[k])
    ensures exists p :: p in Dealt(stripe, queues, ps, b / stripe % queues) && Within(p, b) && p.at + (b - p.off) == b - off
    ensures forall p, q: nat :: p in Dealt(stripe, queues, ps, q) && Within(p, b) ==> q == b / stripe % queues
  {
    QueueOfIs(stripe, queues, b);
    hide QueueOf;
    TilesOnce(ps, off, off + len, b);
    var k :| 0 <= k < |ps| && Within(ps[k], b);
    DealtExactly(stripe, queues, ps);
    assert RightPiece(stripe, off, ps[k]);
    SameQueue(stripe, queues, ps[k], b);
    assert ps[k] in Dealt(stripe, queues, ps, QueueOf(stripe, queues, b));
    forall p, q: nat | p in Dealt(stripe, queues, ps, q) && Within(p, b) ensures q == QueueOf(stripe, queues, b) {
      assert p in ps && RightPiece(stripe, off, p);
      SameQueue(stripe, queues, p, b);
    }
  }

  lemma SameQueue(stripe: nat, queues: nat, p: Piece, b: nat)
    requires stripe > 0 && queues > 0 && Within(p, b) && forall x: nat :: p.off <= x < p.off + p.len ==> Div(x, stripe) == Div(p.off, stripe)
    ensures QueueOf(stripe, queues, p.off) == QueueOf(stripe, queues, b)
  {
    hide Div, Mod;
  }

  lemma {:induction false} DealtExactly(stripe: nat, queues: nat, ps: seq<Piece>)
    requires stripe > 0 && queues > 0
    ensures forall p, q: nat :: p in Dealt(stripe, queues, ps, q) <==> p in ps && QueueOf(stripe, queues, p.off) == q
  {
    if ps != [] {
      DealtExactly(stripe, queues, ps[..|ps| - 1]);
      assert ps == ps[..|ps| - 1] + [ps[|ps| - 1]];
    }
  }
}
