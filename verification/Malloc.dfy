/**
  The user-level allocator of umalloc.c.  Addresses count Header units.  The
  free list is a ring of blocks in order of address, through base, a header of
  size 0 below the heap.
 */
module Malloc {

  type Links = map<nat, nat>

  datatype Blk = Blk(a: nat, n: nat)     // n units starting at address a

  predicate Holds(b: Blk, u: nat)
  {
    b.a <= u < b.a + b.n
  }

  // ----- lists of blocks -----

  // L[0] is base; blocks ascend and do not overlap.
  ghost predicate Ascending(L: seq<Blk>)
  {
    && |L| >= 1 && L[0].n == 0 && (forall i :: 1 <= i < |L| ==> L[i].n > 0)
    && (forall i, j :: 0 <= i < j < |L| ==> L[i].a < L[j].a && L[i].a + L[i].n <= L[j].a)
  }

  // Blocks i and i + 1 could be merged.
  predicate Touch(L: seq<Blk>, i: int)
  {
    0 <= i < |L| - 1 && L[i].a + L[i].n == L[i + 1].a
  }

  // Fully coalesced.
  ghost predicate Apart(L: seq<Blk>)
  {
    Ascending(L) && forall i :: 0 <= i < |L| - 1 ==> !Touch(L, i)
  }

  ghost predicate IsFree(L: seq<Blk>, u: nat)
  {
    exists i :: 1 <= i < |L| && Holds(L[i], u)
  }

  function InsertAt(L: seq<Blk>, k: nat, b: Blk): (M: seq<Blk>)
    requires k < |L|
  {
    L[..k + 1] + [b] + L[k + 1..]
  }

  function JoinAt(L: seq<Blk>, i: nat): (M: seq<Blk>)
    requires i + 1 < |L|
  {
    L[..i] + [Blk(L[i].a, L[i].n + L[i + 1].n)] + L[i + 2..]
  }

  function RemoveAt(L: seq<Blk>, i: nat): (M: seq<Blk>)
    requires i < |L|
  {
    L[..i] + L[i + 1..]
  }

  lemma InsertIndex(L: seq<Blk>, k: nat, b: Blk)
    requires k < |L|
    ensures |InsertAt(L, k, b)| == |L| + 1 && InsertAt(L, k, b)[0] == L[0] && InsertAt(L, k, b)[k + 1] == b
    ensures forall i :: 0 <= i <= k ==> InsertAt(L, k, b)[i] == L[i]
    ensures forall i :: k + 1 < i <= |L| ==> InsertAt(L, k, b)[i] == L[i - 1]
  {
  }

  lemma JoinIndex(L: seq<Blk>, i: nat)
    requires i + 1 < |L|
    ensures |JoinAt(L, i)| == |L| - 1 && JoinAt(L, i)[i] == Blk(L[i].a, L[i].n + L[i + 1].n)
    ensures (i > 0 ==> JoinAt(L, i)[0] == L[0])
    ensures forall j :: 0 <= j < i ==> JoinAt(L, i)[j] == L[j]
    ensures forall j :: i < j < |L| - 1 ==> JoinAt(L, i)[j] == L[j + 1]
  {
  }

  lemma RemoveIndex(L: seq<Blk>, i: nat)
    requires i < |L|
    ensures |RemoveAt(L, i)| == |L| - 1
    ensures forall j :: 0 <= j < i ==> RemoveAt(L, i)[j] == L[j]
    ensures forall j :: i <= j < |L| - 1 ==> RemoveAt(L, i)[j] == L[j + 1]
  {
  }

  // b lies between block k and the next.
  ghost predicate Between(L: seq<Blk>, k: nat, b: Blk)
  {
    k < |L| && L[k].a < b.a && L[k].a + L[k].n <= b.a && b.n > 0 && (k + 1 < |L| ==> b.a + b.n <= L[k + 1].a)
  }

  lemma InsertAscends(L: seq<Blk>, k: nat, b: Blk)
    requires Ascending(L) && Between(L, k, b)
    ensures Ascending(InsertAt(L, k, b))
    ensures forall i :: 0 <= i < |L| && i != k && i != k + 1 && Touch(InsertAt(L, k, b), i) ==>
      Touch(L, if i < k then i else i - 1)
  {
    hide InsertAt, Touch;
    InsertIndex(L, k, b);
    var M := InsertAt(L, k, b);
    forall i, j | 0 <= i < j < |M| ensures M[i].a < M[j].a && M[i].a + M[i].n <= M[j].a {
      var x, y := if i <= k then i else i - 1, if j <= k then j else j - 1;
      if i != k + 1 && j != k + 1 {
        assert L[x].a < L[y].a;
      }
    }
    forall i | 0 <= i < |L| && i != k && i != k + 1 && Touch(M, i) ensures Touch(L, if i < k then i else i - 1) {
      InsertTouch(L, k, b, i);
    }
  }

  lemma InsertTouch(L: seq<Blk>, k: nat, b: Blk, i: nat)
    requires k < |L| && i < |L| && i != k && i != k + 1 && Touch(InsertAt(L, k, b), i)
    ensures Touch(L, if i < k then i else i - 1)
  {
    hide InsertAt;
    InsertIndex(L, k, b);
  }

  lemma InsertFree(L: seq<Blk>, k: nat, b: Blk, u: nat)
    requires k < |L|
    ensures IsFree(InsertAt(L, k, b), u) <==> IsFree(L, u) || Holds(b, u)
  {
    hide InsertAt;
    InsertIndex(L, k, b);
    var M := InsertAt(L, k, b);
    assert M[k + 1] == b;
    if IsFree(L, u) {
      var i :| 1 <= i < |L| && Holds(L[i], u);
      assert M[if i <= k then i else i + 1] == L[i];
    }
    if IsFree(M, u) {
      var i :| 1 <= i < |M| && Holds(M[i], u);
      assert i != k + 1 ==> M[i] == L[if i <= k then i else i - 1];
    }
  }

  lemma JoinAscends(L: seq<Blk>, i: nat)
    requires Ascending(L) && 1 <= i && Touch(L, i)
    ensures Ascending(JoinAt(L, i))
    ensures forall j :: 0 <= j < |L| - 1 && Touch(JoinAt(L, i), j) ==> Touch(L, if j < i then j else j + 1)
  {
    hide JoinAt, Touch;
    TouchAt(L, i);
    JoinIndex(L, i);
    var M := JoinAt(L, i);
    forall x, y | 0 <= x < y < |M| ensures M[x].a < M[y].a && M[x].a + M[x].n <= M[y].a {
      var p, q := if x <= i then x else x + 1, if y <= i then y else y + 1;
      assert L[p].a < L[q].a;
    }
    forall j | 0 <= j < |L| - 1 && Touch(M, j) ensures Touch(L, if j < i then j else j + 1) {
      JoinTouch(L, i, j);
    }
  }

  lemma TouchAt(L: seq<Blk>, i: nat)
    requires Touch(L, i)
    ensures i + 1 < |L| && L[i].a + L[i].n == L[i + 1].a
  {
  }

  lemma JoinTouch(L: seq<Blk>, i: nat, j: nat)
    requires 1 <= i && Touch(L, i) && j < |L| - 1 && Touch(JoinAt(L, i), j)
    ensures Touch(L, if j < i then j else j + 1)
  {
    hide JoinAt;
    JoinIndex(L, i);
  }

  lemma JoinFree(L: seq<Blk>, i: nat, u: nat)
    requires Ascending(L) && 1 <= i && Touch(L, i)
    ensures IsFree(JoinAt(L, i), u) <==> IsFree(L, u)
  {
    hide JoinAt;
    JoinIndex(L, i);
    var M := JoinAt(L, i);
    if IsFree(L, u) {
      var j :| 1 <= j < |L| && Holds(L[j], u);
      assert Holds(M[if j <= i then j else j - 1], u);
    }
    if IsFree(M, u) {
      var j :| 1 <= j < |M| && Holds(M[j], u);
      if j == i {
        assert Holds(L[i], u) || Holds(L[i + 1], u);
      } else {
        assert M[j] == L[if j < i then j else j + 1];
      }
    }
  }

  lemma RemoveApart(L: seq<Blk>, i: nat)
    requires Apart(L) && 1 <= i < |L|
    ensures Apart(RemoveAt(L, i))
  {
    hide RemoveAt;
    RemoveIndex(L, i);
    var M := RemoveAt(L, i);
    forall j | 0 <= j < |M| - 1 ensures !Touch(M, j) {
      assert !Touch(L, j) && (j + 1 < |L| - 1 ==> !Touch(L, j + 1));
    }
  }

  lemma RemoveFree(L: seq<Blk>, i: nat, u: nat)
    requires Ascending(L) && 1 <= i < |L|
    ensures IsFree(RemoveAt(L, i), u) <==> IsFree(L, u) && !Holds(L[i], u)
  {
    hide RemoveAt;
    RemoveIndex(L, i);
    var M := RemoveAt(L, i);
    if IsFree(L, u) && !Holds(L[i], u) {
      var j :| 1 <= j < |L| && Holds(L[j], u);
      assert M[if j < i then j else j - 1] == L[j];
    }
    if IsFree(M, u) {
      var j :| 1 <= j < |M| && Holds(M[j], u);
      assert M[j] == L[if j < i then j else j + 1];
    }
  }

  // Block i gives away its last k units.
  function Shrunk(L: seq<Blk>, i: nat, k: nat): seq<Blk>
    requires i < |L| && k <= L[i].n
  {
    L[i := Blk(L[i].a, L[i].n - k)]
  }

  lemma ShrunkApart(L: seq<Blk>, i: nat, k: nat)
    requires Apart(L) && 1 <= i < |L| && 0 < k < L[i].n
    ensures Apart(Shrunk(L, i, k))
  {
    var M := Shrunk(L, i, k);
    forall j | 0 <= j < |M| - 1 ensures !Touch(M, j) {
      assert !Touch(L, j);
    }
  }

  lemma ShrunkFree(L: seq<Blk>, i: nat, k: nat, u: nat)
    requires Ascending(L) && 1 <= i < |L| && 0 < k < L[i].n
    ensures IsFree(Shrunk(L, i, k), u) <==> IsFree(L, u) && !Holds(Blk(L[i].a + L[i].n - k, k), u)
  {
    var M := Shrunk(L, i, k);
    if IsFree(L, u) && !Holds(Blk(L[i].a + L[i].n - k, k), u) {
      var j :| 1 <= j < |L| && Holds(L[j], u);
      assert Holds(M[j], u);
    }
    if IsFree(M, u) {
      var j :| 1 <= j < |M| && Holds(M[j], u);
      assert Holds(L[j], u);
      assert j != i ==> !Holds(L[i], u);
    }
  }

  // ----- the list in memory -----

  function Next(i: nat, n: nat): nat { if i + 1 == n then 0 else i + 1 }

  // The headers at the blocks' addresses hold their sizes and link them in a circle.
  ghost predicate Linked(ptr: Links, size: Links, L: seq<Blk>)
  {
    forall i :: 0 <= i < |L| ==> Header(ptr, size, L[i], L[Next(i, |L|)].a)
  }

  predicate Header(ptr: Links, size: Links, b: Blk, next: nat)
  {
    b.a in ptr && ptr[b.a] == next && b.a in size && size[b.a] == b.n
  }

  lemma InsertLinked(ptr: Links, size: Links, L: seq<Blk>, k: nat, b: Blk)
    requires Ascending(L) && Linked(ptr, size, L) && k < |L| && (forall i :: 0 <= i < |L| ==> L[i].a != b.a)
    ensures L[k].a in ptr && Linked(ptr[b.a := ptr[L[k].a]][L[k].a := b.a], size[b.a := b.n], InsertAt(L, k, b))
  {
    hide InsertAt;
    InsertIndex(L, k, b);
    assert Header(ptr, size, L[k], L[Next(k, |L|)].a);
    var M := InsertAt(L, k, b);
    var ptr', size' := ptr[b.a := ptr[L[k].a]][L[k].a := b.a], size[b.a := b.n];
    forall i | 0 <= i < |M| ensures Header(ptr', size', M[i], M[Next(i, |M|)].a) {
      if i != k + 1 {
        var j := if i <= k then i else i - 1;
        assert M[i] == L[j] && Header(ptr, size, L[j], L[Next(j, |L|)].a);
      }
    }
  }

  lemma JoinLinked(ptr: Links, size: Links, L: seq<Blk>, i: nat)
    requires Ascending(L) && Linked(ptr, size, L) && i + 1 < |L|
    ensures L[i].a in size && L[i + 1].a in ptr && L[i + 1].a in size
    ensures Linked(ptr[L[i].a := ptr[L[i + 1].a]], size[L[i].a := size[L[i].a] + size[L[i + 1].a]], JoinAt(L, i))
  {
    hide JoinAt;
    JoinIndex(L, i);
    assert Header(ptr, size, L[i], L[Next(i, |L|)].a) && Header(ptr, size, L[i + 1], L[Next(i + 1, |L|)].a);
    var M := JoinAt(L, i);
    var ptr', size' := ptr[L[i].a := ptr[L[i + 1].a]], size[L[i].a := size[L[i].a] + size[L[i + 1].a]];
    forall j | 0 <= j < |M| ensures Header(ptr', size', M[j], M[Next(j, |M|)].a) {
      var o := if j <= i then j else j + 1;
      assert Header(ptr, size, L[o], L[Next(o, |L|)].a);
    }
  }

  lemma RemoveLinked(ptr: Links, size: Links, L: seq<Blk>, i: nat, h: nat)
    requires Ascending(L) && Linked(ptr, size, L) && 1 <= i < |L| && h + 1 == i
    ensures L[i].a in ptr && Linked(ptr[L[h].a := ptr[L[i].a]], size, RemoveAt(L, i))
  {
    hide RemoveAt;
    RemoveIndex(L, i);
    assert Header(ptr, size, L[i], L[Next(i, |L|)].a);
    var M := RemoveAt(L, i);
    forall j | 0 <= j < |M| ensures Header(ptr[L[h].a := ptr[L[i].a]], size, M[j], M[Next(j, |M|)].a) {
      var o := if j < i then j else j + 1;
      assert Header(ptr, size, L[o], L[Next(o, |L|)].a);
    }
  }

  lemma ShrunkLinked(ptr: Links, size: Links, L: seq<Blk>, i: nat, k: nat, size': Links)
    requires Ascending(L) && Linked(ptr, size, L) && 1 <= i < |L| && 0 < k < L[i].n
    requires size' == size[L[i].a := L[i].n - k][L[i].a + L[i].n - k := k]
    ensures Linked(ptr, size', Shrunk(L, i, k))
  {
    var M := Shrunk(L, i, k);
    forall j | 0 <= j < |M| ensures Header(ptr, size', M[j], M[Next(j, |M|)].a) {
      assert Header(ptr, size, L[j], L[Next(j, |L|)].a);
      assert L[j].a != L[i].a + L[i].n - k;
    }
  }
}
