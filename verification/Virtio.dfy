/**
  The descriptor allocator and the request queue of virtio_disk.c.
 */
module Virtio {
  import opened Optional

  const NUM: nat := 8
  const WRAP: nat := 0x1_0000           // ring indices are 16-bit

  // addr 0 marks a cleared descriptor; more: VRING_DESC_F_NEXT.
  datatype Desc = Desc(addr: nat, more: bool, next: nat)

  const CLEAR: Desc := Desc(0, false, 0)

  // ----- the allocator -----

  // The lowest free descriptor at or above i.
  function Lowest(free: seq<bool>, i: nat): (r: Option<nat>)
    ensures r.Some? ==> i <= r.value < |free| && free[r.value] && forall j :: i <= j < r.value ==> !free[j]
    ensures r.None? ==> forall j :: i <= j < |free| ==> !free[j]
    decreases |free| - i
  {
    if i >= |free| then None else if free[i] then Some(i) else Lowest(free, i + 1)
  }

  // The three descriptors that alloc3_desc takes.
  function Three(free: seq<bool>): (r: Option<(nat, nat, nat)>)
    ensures r.Some? ==> var (a, b, c) := r.value; a < b < c < |free| && free[a] && free[b] && free[c]
  {
    match Lowest(free, 0)
    case None => None
    case Some(a) =>
      match Lowest(free, a + 1)
      case None => None
      case Some(b) =>
        match Lowest(free, b + 1)
        case None => None
        case Some(c) => Some((a, b, c))
  }

  lemma LowestSkips(free: seq<bool>, a: nat)
    requires Lowest(free, 0) == Some(a)
    ensures a < |free| && Lowest(free[a := false], 0) == Lowest(free, a + 1)
  {
    LowestFrom(free[a := false], 0, a + 1);
    LowestSame(free[a := false], free, a + 1);
  }

  lemma {:induction false} LowestFrom(free: seq<bool>, i: nat, k: nat)
    requires i <= k <= |free| && forall j :: i <= j < k ==> !free[j]
    ensures Lowest(free, i) == Lowest(free, k)
    decreases k - i
  {
    if i < k {
      LowestFrom(free, i + 1, k);
    }
  }

  lemma {:induction false} LowestSame(f: seq<bool>, g: seq<bool>, k: nat)
    requires |f| == |g| && forall j :: k <= j < |f| ==> f[j] == g[j]
    ensures Lowest(f, k) == Lowest(g, k)
    decreases |f| - k
  {
    if k < |f| {
      LowestSame(f, g, k + 1);
    }
  }

  // f is f0 with the free descriptors of idx taken.
  ghost predicate Taken(f0: seq<bool>, f: seq<bool>, idx: seq<nat>)
  {
    && |f| == |f0| && (forall k :: 0 <= k < |idx| ==> idx[k] < |f0| && f0[idx[k]])
    && (forall k, l :: 0 <= k < l < |idx| ==> idx[k] != idx[l])
    && (forall k :: 0 <= k < |f0| ==> f[k] == (f0[k] && k !in idx))
  }

  lemma TakenNone(f: seq<bool>)
    ensures Taken(f, f, [])
  {
  }

  lemma TakenMore(f0: seq<bool>, f: seq<bool>, f': seq<bool>, idx: seq<nat>, d: nat)
    requires Taken(f0, f, idx) && d < |f| && f[d] && f' == f[d := false]
    ensures Taken(f0, f', idx + [d])
  {
  }

  lemma TakenThree(f0: seq<bool>, f: seq<bool>, idx: seq<nat>)
    requires Taken(f0, f, idx) && |idx| == 3
    ensures idx[0] < |f0| && idx[1] < |f0| && idx[2] < |f0|
    ensures f == f0[idx[0] := false][idx[1] := false][idx[2] := false]
  {
  }

  // The next descriptor found is the lowest one after those already taken.
  lemma SkipTaken(f0: seq<bool>, f: seq<bool>, idx: seq<nat>)
    requires Taken(f0, f, idx) && |idx| <= 2 && (|idx| >= 1 ==> Lowest(f0, 0) == Some(idx[0]))
    requires (|idx| >= 2 ==> Lowest(f0, idx[0] + 1) == Some(idx[1]))
    ensures Lowest(f, 0) == Lowest(f0, if |idx| == 0 then 0 else idx[|idx| - 1] + 1)
  {
    if |idx| == 0 {
      assert f == f0;
    } else if |idx| == 1 {
      assert f == f0[idx[0] := false];
      LowestSkips(f0, idx[0]);
    } else {
      assert f == f0[idx[0] := false][idx[1] := false];
      SkipTwo(f0, idx[0], idx[1]);
    }
  }

  // Descriptors a, b, c form the chain that starts at a.
  predicate Chained(desc: seq<Desc>, a: nat, b: nat, c: nat)
  {
    && a < |desc| && b < |desc| && c < |desc| && a != b && b != c && a != c
    && desc[a].more && desc[a].next == b && desc[b].more && desc[b].next == c && !desc[c].more
  }

  class Queue {
    var free: seq<bool>
    var desc: seq<Desc>
    var panicked: bool

    method AllocDesc() returns (r: Option<nat>)
      modifies `free
      ensures r == Lowest(old(free), 0)
      ensures free == if r.Some? then old(free)[r.value := false] else old(free)
    {
      var i := 0;
      while i < |free|
        invariant i <= |free| && free == old(free) && Lowest(free, 0) == Lowest(free, i)
      {
        if free[i] {
          free := free[i := false];
          return Some(i);
        }
        i := i + 1;
      }
      r := None;
    }

    method FreeDesc(i: nat)
      requires |desc| == |free| && !panicked
      modifies `free, `desc, `panicked
      ensures panicked <==> i >= |old(free)| || old(free)[i]
      ensures !panicked ==> free == old(free)[i := true] && desc == old(desc)[i := CLEAR]
      ensures panicked ==> free == old(free) && desc == old(desc)
    {
      if i >= |free| || free[i] {
        panicked := true;
        return;
      }
      desc := desc[i := CLEAR];
      free := free[i := true];
    }

    // All three descriptors or, with the state put back exactly, none.
    method Alloc3Desc() returns (r: Option<(nat, nat, nat)>)
      requires |desc| == |free| && !panicked && forall i :: 0 <= i < |free| && free[i] ==> desc[i] == CLEAR
      modifies `free, `desc, `panicked
      ensures r == Three(old(free)) && !panicked && desc == old(desc)
      ensures r.None? ==> free == old(free)
      ensures r.Some? ==> var (a, b, c) := r.value; free == old(free)[a := false][b := false][c := false]
    {
      hide Taken;
      ghost var f0, d0 := free, desc;
      var idx: seq<nat> := [];
      TakenNone(f0);
      var i := 0;
      while i < 3
        invariant 0 <= i <= 3 && |idx| == i && desc == d0 && !panicked && Taken(f0, free, idx) && |free| == |f0|
        invariant i >= 1 ==> Lowest(f0, 0) == Some(idx[0])
        invariant i >= 2 ==> Lowest(f0, idx[0] + 1) == Some(idx[1])
        invariant i >= 3 ==> Lowest(f0, idx[1] + 1) == Some(idx[2])
      {
        SkipTaken(f0, free, idx);
        ghost var f1 := free;
        var d := AllocDesc();
        if d.None? {
          Rollback(idx, f0);
          return None;
        }
        TakenMore(f0, f1, free, idx, d.value);
        idx := idx + [d.value];
        i := i + 1;
      }
      TakenThree(f0, free, idx);
      r := Some((idx[0], idx[1], idx[2]));
    }

    method Rollback(idx: seq<nat>, ghost f0: seq<bool>)
      requires |desc| == |free| && !panicked && Taken(f0, free, idx)
      requires forall i :: 0 <= i < |f0| && f0[i] ==> i < |desc| && desc[i] == CLEAR
      modifies `free, `desc, `panicked
      ensures !panicked && desc == old(desc) && free == f0
    {
      for j := 0 to |idx|
        invariant !panicked && desc == old(desc) && |free| == |f0|
        invariant forall k :: 0 <= k < |f0| ==> free[k] == (old(free)[k] || k in idx[..j])
      {
        FreeDesc(idx[j]);
        assert idx[..j + 1] == idx[..j] + [idx[j]];
      }
      assert idx[..|idx|] == idx;
    }

    // Free the three descriptors of a chain.
    method FreeChain(a: nat, ghost b: nat, ghost c: nat)
      requires |desc| == |free| && !panicked && Chained(desc, a, b, c) && !free[a] && !free[b] && !free[c]
      modifies `free, `desc, `panicked
      ensures !panicked && free == old(free)[a := true][b := true][c := true]
      ensures desc == old(desc)[a := CLEAR][b := CLEAR][c := CLEAR]
    {
      var i := a;
      ghost var k := 0;
      while true
        invariant k <= 2 && !panicked && |desc| == |free| == |old(free)|
        invariant i == (if k == 0 then a else if k == 1 then b else c)
        invariant k == 0 ==> free == old(free) && desc == old(desc)
        invariant k == 1 ==> free == old(free)[a := true] && desc == old(desc)[a := CLEAR]
        invariant k == 2 ==> free == old(free)[a := true][b := true] && desc == old(desc)[a := CLEAR][b := CLEAR]
        decreases 2 - k
      {
        var more, nxt := desc[i].more, desc[i].next;
        FreeDesc(i);
        if !more {
          break;
        }
        i := nxt;
        k := k + 1;
      }
    }
  }

  lemma SkipTwo(free: seq<bool>, a: nat, b: nat)
    requires Lowest(free, 0) == Some(a) && Lowest(free, a + 1) == Some(b)
    ensures a < b < |free| && Lowest(free[a := false][b := false], 0) == Lowest(free, b + 1)
  {
    LowestFrom(free[a := false][b := false], 0, b + 1);
    LowestSame(free[a := false][b := false], free, b + 1);
  }
}
