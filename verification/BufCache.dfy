/**
  The buffer cache of bio.c: NBUF buffers on a doubly linked ring in order of
  recent use, found by device and block number.
 */
module BufCache {
  import opened Optional

  datatype Buf = Buf(dev: nat, blockno: nat, valid: bool, refcnt: nat)

  // ----- the ring -----

  // Node i of the ring: the head at both ends, the buffers of order in between.
  function Node(order: seq<nat>, head: nat, i: int): nat
  {
    if 1 <= i <= |order| then order[i - 1] else head
  }

  // next and prev link exactly the buffers of order, in that order, through head.
  ghost predicate Ring(prev: seq<nat>, next: seq<nat>, head: nat, order: seq<nat>)
  {
    && |prev| == |next| && head < |next|
    && (forall i :: 0 <= i < |order| ==> order[i] < |next| && order[i] != head)
    && (forall i, j :: 0 <= i < j < |order| ==> order[i] != order[j])
    && (forall i :: 0 <= i <= |order| ==> Linked(prev, next, Node(order, head, i), Node(order, head, i + 1)))
  }

  predicate Linked(prev: seq<nat>, next: seq<nat>, a: nat, b: nat)
  {
    a < |next| && b < |prev| && next[a] == b && prev[b] == a
  }

  // b->next = head.next; b->prev = &head; head.next->prev = b; head.next = b
  lemma Insert(prev: seq<nat>, next: seq<nat>, head: nat, order: seq<nat>, b: nat, prev': seq<nat>, next': seq<nat>)
    requires Ring(prev, next, head, order) && b < |next| && b != head && b !in order
    requires next' == next[b := next[head]][head := b]
    requires next[head] < |prev| && prev' == prev[b := head][next[head] := b]
    ensures Ring(prev', next', head, [b] + order)
  {
    var order' := [b] + order;
    assert Linked(prev, next, Node(order, head, 0), Node(order, head, 1));
    forall i | 0 <= i <= |order'| ensures Linked(prev', next', Node(order', head, i), Node(order', head, i + 1)) {
      if i >= 2 {
        assert Linked(prev, next, Node(order, head, i - 1), Node(order, head, i));
        NodesDiffer(order, head, i - 1);
      }
    }
  }

  lemma EmptyRing(prev: seq<nat>, next: seq<nat>, head: nat)
    requires |prev| == |next| && head < |next| && next[head] == head == prev[head]
    ensures Ring(prev, next, head, [])
  {
  }

  // Nodes further on are neither the head nor the first buffer.
  lemma NodesDiffer(order: seq<nat>, head: nat, i: int)
    requires (forall k :: 0 <= k < |order| ==> order[k] != head)
    requires (forall k, j :: 0 <= k < j < |order| ==> order[k] != order[j])
    requires 1 <= i <= |order|
    ensures Node(order, head, i) != head
    ensures i < |order| ==> Node(order, head, i + 1) != Node(order, head, 1)
    ensures Node(order, head, i + 1) == Node(order, head, 1) ==> |order| == 0 || i + 1 == 1
  {
  }

  // b->next->prev = b->prev; b->prev->next = b->next
  lemma Unlink(prev: seq<nat>, next: seq<nat>, head: nat, order: seq<nat>, k: nat, prev': seq<nat>, next': seq<nat>)
    requires Ring(prev, next, head, order) && k < |order|
    requires next[order[k]] < |prev| && prev[order[k]] < |next|
    requires prev' == prev[next[order[k]] := prev[order[k]]] && next' == next[prev[order[k]] := next[order[k]]]
    ensures Ring(prev', next', head, order[..k] + order[k + 1..])
  {
    var rest := order[..k] + order[k + 1..];
    assert Linked(prev, next, Node(order, head, k), Node(order, head, k + 1));
    assert Linked(prev, next, Node(order, head, k + 1), Node(order, head, k + 2));
    forall i | 0 <= i <= |rest| ensures Linked(prev', next', Node(rest, head, i), Node(rest, head, i + 1)) {
      var j := if i <= k then i else i + 1;
      assert Linked(prev, next, Node(order, head, j), Node(order, head, j + 1));
      assert Node(rest, head, i) == Node(order, head, j);
      if i != k {
        assert Node(rest, head, i + 1) == Node(order, head, j + 1);
      }
    }
  }

  // ----- the cache -----

  ghost predicate Permutation(order: seq<nat>, n: nat)
  {
    && |order| == n && (forall i :: 0 <= i < n ==> order[i] < n)
    && (forall i, j :: 0 <= i < j < n ==> order[i] != order[j])
    && (forall b :: 0 <= b < n ==> b in order)
  }

  // Block (dev, blockno) has at most one buffer, for any real device.
  ghost predicate Unique(bufs: seq<Buf>)
  {
    forall a, b :: 0 <= a < b < |bufs| && bufs[a].dev != 0 ==>
      bufs[a].dev != bufs[b].dev || bufs[a].blockno != bufs[b].blockno
  }

  predicate Matches(x: Buf, dev: nat, blockno: nat)
  {
    x.dev == dev && x.blockno == blockno
  }

  // order with buffer b moved to the front.
  function ToFront(order: seq<nat>, b: nat): seq<nat>
    requires b in order
  {
    var k := IndexOf(order, b);
    [b] + (order[..k] + order[k + 1..])
  }

  function IndexOf(order: seq<nat>, b: nat): (k: nat)
    requires b in order
    ensures k < |order| && order[k] == b
  {
    if order[0] == b then 0 else 1 + IndexOf(order[1..], b)
  }

  lemma ToFrontPermutes(order: seq<nat>, b: nat, n: nat)
    requires Permutation(order, n) && b < n
    ensures Permutation(ToFront(order, b), n)
  {
    var k, o := IndexOf(order, b), ToFront(order, b);
    forall c | 0 <= c < n ensures c in o {
      assert c in order;
      var j :| 0 <= j < |order| && order[j] == c;
      if j < k {
        assert o[j + 1] == c;
      } else if j > k {
        assert o[j] == c;
      }
    }
  }

  class Cache {
    const n: nat
    var bufs: seq<Buf>
    var prev: seq<nat>
    var next: seq<nat>
    var panicked: bool
    ghost var order: seq<nat>     // most recently used first

    ghost predicate Valid()
      reads this
    {
      |bufs| == n && |next| == n + 1 && Permutation(order, n) && Ring(prev, next, n, order) && Unique(bufs)
    }

    // binit
    constructor (n: nat)
      ensures Valid() && this.n == n && !panicked
      ensures forall b :: 0 <= b < n ==> bufs[b] == Buf(0, 0, false, 0)
    {
      this.n := n;
      bufs := seq(n, _ => Buf(0, 0, false, 0));
      panicked := false;
      prev, next := seq(n + 1, _ => n), seq(n + 1, _ => n);
      order := [];
      new;
      hide Ring;
      EmptyRing(prev, next, n);
      var b := 0;
      while b < n
        modifies `prev, `next, `order
        invariant b <= n && |next| == n + 1 && Ring(prev, next, n, order) && |order| == b
        invariant forall i :: 0 <= i < b ==> order[i] == b - 1 - i
      {
        InsertFront(b);
        b := b + 1;
      }
      forall c | 0 <= c < n ensures c in order {
        assert order[n - 1 - c] == c;
      }
    }

    // Link b in after the head.
    method InsertFront(b: nat)
      requires |next| == n + 1 && Ring(prev, next, n, order) && b < n && b !in order
      modifies `prev, `next, `order
      ensures |next| == n + 1 && Ring(prev, next, n, order) && order == [b] + old(order)
    {
      ghost var p0, n0 := prev, next;
      assert Linked(prev, next, Node(order, n, 0), Node(order, n, 1));
      next := next[b := next[n]];
      prev := prev[b := n];
      prev := prev[next[n] := b];
      next := next[n := b];
      Insert(p0, n0, n, order, b, prev, next);
      order := [b] + order;
    }

    // Link b out.
    method Remove(b: nat, ghost k: nat)
      requires |next| == n + 1 && Ring(prev, next, n, order) && k < |order| && order[k] == b
      modifies `prev, `next, `order
      ensures |next| == n + 1 && Ring(prev, next, n, order) && order == old(order)[..k] + old(order)[k + 1..]
    {
      ghost var p0, n0 := prev, next;
      assert Linked(prev, next, Node(order, n, k), Node(order, n, k + 1));
      assert Linked(prev, next, Node(order, n, k + 1), Node(order, n, k + 2));
      prev := prev[next[b] := prev[b]];
      next := next[prev[b] := next[b]];
      Unlink(p0, n0, n, order, k, prev, next);
      order := order[..k] + order[k + 1..];
    }

    // bget's first loop: forward from the most recently used.
    method FindCached(dev: nat, blockno: nat) returns (r: Option<nat>)
      requires Valid()
      ensures r.Some? ==> r.value < n && Matches(bufs[r.value], dev, blockno)
      ensures r.None? ==> forall b :: 0 <= b < n ==> !Matches(bufs[b], dev, blockno)
    {
      hide Unique;
      var b := next[n];
      ghost var i := 0;
      assert Linked(prev, next, Node(order, n, 0), Node(order, n, 1));
      while b != n
        invariant 0 <= i <= n && b == Node(order, n, i + 1)
        invariant forall j :: 0 <= j < i ==> !Matches(bufs[order[j]], dev, blockno)
        decreases n - i
      {
        if Matches(bufs[b], dev, blockno) {
          return Some(b);
        }
        assert Linked(prev, next, Node(order, n, i + 1), Node(order, n, i + 2));
        b := next[b];
        i := i + 1;
      }
      forall c | 0 <= c < n ensures !Matches(bufs[c], dev, blockno) {
        assert c in order;
      }
      r := None;
    }

    // bget's second loop: backward from the least recently used.
    method FindUnused() returns (r: Option<nat>)
      requires Valid()
      ensures r.Some? ==> r.value < n && bufs[r.value].refcnt == 0
      ensures r.Some? ==>
        exists k :: 0 <= k < n && order[k] == r.value && forall j :: k < j < n ==> bufs[order[j]].refcnt > 0
      ensures r.None? ==> forall b :: 0 <= b < n ==> bufs[b].refcnt > 0
    {
      hide Unique;
      var b := prev[n];
      ghost var i := n;
      assert Linked(prev, next, Node(order, n, n), Node(order, n, n + 1));
      while b != n
        invariant 0 <= i <= n && b == Node(order, n, i)
        invariant forall j :: i <= j < n ==> bufs[order[j]].refcnt > 0
        decreases i
      {
        if bufs[b].refcnt == 0 {
          assert order[i - 1] == b;
          return Some(b);
        }
        assert Linked(prev, next, Node(order, n, i - 1), Node(order, n, i));
        b := prev[b];
        i := i - 1;
      }
      forall c | 0 <= c < n ensures bufs[c].refcnt > 0 {
        assert c in order;
      }
      r := None;
    }

    // The buffer for (dev, blockno), with its reference count raised; None if all buffers are in use.
    method Bget(dev: nat, blockno: nat) returns (r: Option<nat>)
      requires Valid() && !panicked
      modifies `bufs, `panicked
      ensures Valid() && (r.None? <==> panicked)
      ensures r.Some? ==> r.value < n && Matches(bufs[r.value], dev, blockno)
      ensures r.Some? ==> bufs == old(bufs)[r.value := bufs[r.value]]
      // a hit keeps the buffer and counts one more user
      ensures (exists b :: 0 <= b < n && Matches(old(bufs)[b], dev, blockno)) ==>
        r.Some? && bufs[r.value] == old(bufs)[r.value].(refcnt := old(bufs)[r.value].refcnt + 1)
      // a miss recycles the least recently used buffer that nobody refers to
      ensures (forall b :: 0 <= b < n ==> !Matches(old(bufs)[b], dev, blockno)) && r.Some? ==>
        && bufs[r.value] == Buf(dev, blockno, false, 1) && old(bufs)[r.value].refcnt == 0
        && exists k :: 0 <= k < n && order[k] == r.value && forall j :: k < j < n ==> old(bufs)[order[j]].refcnt > 0
      ensures panicked ==> bufs == old(bufs) && forall b :: 0 <= b < n ==>
        bufs[b].refcnt > 0 && !Matches(bufs[b], dev, blockno)
    {
      r := FindCached(dev, blockno);
      if r.Some? {
        var b := r.value;
        bufs := bufs[b := bufs[b].(refcnt := bufs[b].refcnt + 1)];
        return;
      }
      r := FindUnused();
      if r.Some? {
        bufs := bufs[r.value := Buf(dev, blockno, false, 1)];
        return;
      }
      panicked := true;
    }

    // The part of brelse under bcache.lock.
    method Brelse(b: nat)
      requires Valid() && b < n && bufs[b].refcnt > 0
      modifies `bufs, `prev, `next, `order
      ensures Valid() && bufs == old(bufs)[b := old(bufs)[b].(refcnt := old(bufs)[b].refcnt - 1)]
      ensures order == if bufs[b].refcnt == 0 then ToFront(old(order), b) else old(order)
    {
      hide Ring;
      bufs := bufs[b := bufs[b].(refcnt := bufs[b].refcnt - 1)];
      if bufs[b].refcnt == 0 {
        assert b in order;
        ToFrontPermutes(order, b, n);
        ghost var k := IndexOf(order, b);
        Remove(b, k);
        InsertFront(b);
      }
    }
  }
}
