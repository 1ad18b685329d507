/**
  malloc, free and morecore on the headers in memory.
 */
module MallocCode {
  import opened Malloc

  const HEADER: nat := 16              // sizeof(Header)
  const CHUNK: nat := 4096             // units asked of sbrk at least

  // ----- sizes -----

  const UINT: nat := 0x1_0000_0000     // 2^32
  const INTMAX: nat := 0x7fff_ffff     // 2^31 - 1
  const MAXREQUEST: nat := INTMAX - 31 // the largest request whose size reaches sbrk intact

  // malloc's nunits for a request of nbytes.
  function Units(nbytes: nat): nat { (nbytes + HEADER - 1) / HEADER + 1 }

  // The units that morecore asks for.
  function Asked(nu: nat): nat { if nu < CHUNK then CHUNK else nu }

  // The conversion of a byte count to sbrk's int argument.
  function ToInt(x: nat): int
  {
    var y := x % UINT;
    if y <= INTMAX then y else y - UINT
  }

  function SbrkArg(nu: nat): int { ToInt(Asked(nu) * HEADER) }

  // growproc with enough memory: the process size after sbrk(n), in 64-bit arithmetic.
  function GrownTo(sz: nat, n: int): int
  {
    if n >= 0 then sz + n
    else
      var newsz := (sz + n) % (UINT * UINT);
      if newsz >= sz then sz else newsz
  }

  // sbrk gives what morecore asks for exactly up to MAXREQUEST bytes.
  lemma RequestExact(nbytes: nat, sz: nat)
    requires nbytes < UINT && sz < INTMAX * UINT
    ensures GrownTo(sz, SbrkArg(Units(nbytes))) == sz + Asked(Units(nbytes)) * HEADER <==> nbytes <= MAXREQUEST
    ensures SbrkArg(Units(nbytes)) == Asked(Units(nbytes)) * HEADER <==> nbytes <= MAXREQUEST
  {
    var n := Asked(Units(nbytes));
    assert n * HEADER < UINT + 2 * HEADER;
  }

  // One byte more, and a process of less than 2 GB gets nothing: the argument is negative, and
  // uvmdealloc leaves the size as it is.  The largest request gets one unit.
  lemma BigRequestGetsNothing(sz: nat)
    requires 0 < sz <= INTMAX
    ensures SbrkArg(Units(MAXREQUEST + 1)) < 0 && GrownTo(sz, SbrkArg(Units(MAXREQUEST + 1))) == sz
    ensures SbrkArg(Units(UINT - 1)) == HEADER && Asked(Units(UINT - 1)) > 1
  {
    assert Units(MAXREQUEST + 1) == 0x800_0000 && Units(UINT - 1) == 0x1000_0001;
  }

  ghost predicate IsLive(live: map<nat, nat>, u: nat)
  {
    exists a :: a in live && Holds(Blk(a, live[a]), u)
  }

  ghost predicate LiveOk(L: seq<Blk>, live: map<nat, nat>, size: Links, base: nat, brk: nat)
  {
    && (forall a :: a in live ==> base < a && live[a] > 0 && a + live[a] <= brk && a in size && size[a] == live[a])
    && (forall a, u :: a in live && Holds(Blk(a, live[a]), u) ==> !IsFree(L, u))
    && (forall a, c, u :: a in live && c in live && a != c && Holds(Blk(a, live[a]), u) ==> !Holds(Blk(c, live[c]), u))
  }

  // Unit u was obtained from sbrk.
  ghost predicate Owned(grants: seq<Blk>, u: nat)
  {
    exists i :: 0 <= i < |grants| && Holds(grants[i], u)
  }

  // Every unit ever obtained is free or live, and nothing else is.
  ghost predicate Conserved(L: seq<Blk>, live: map<nat, nat>, grants: seq<Blk>)
  {
    forall u :: Owned(grants, u) <==> IsFree(L, u) || IsLive(live, u)
  }

  // ----- free -----

  // Block b moves from live to free.
  lemma FreeLive(L: seq<Blk>, L': seq<Blk>, live: map<nat, nat>, b: nat, size: Links, size': Links, base: nat, brk: nat,
                 p: nat)
    requires LiveOk(L, live, size, base, brk) && b in live && p !in live
    requires forall u :: IsFree(L', u) <==> IsFree(L, u) || Holds(Blk(b, live[b]), u)
    requires forall a :: a in size && a != b && a != p ==> a in size' && size'[a] == size[a]
    ensures LiveOk(L', live - {b}, size', base, brk)
  {
  }

  lemma FreeConserved(L: seq<Blk>, L': seq<Blk>, live: map<nat, nat>, b: nat, grants: seq<Blk>)
    requires Conserved(L, live, grants) && b in live
    requires forall u :: IsFree(L', u) <==> IsFree(L, u) || Holds(Blk(b, live[b]), u)
    ensures Conserved(L', live - {b}, grants)
  {
    forall u ensures Owned(grants, u) <==> IsFree(L', u) || IsLive(live - {b}, u) {
      if IsLive(live, u) {
        var a :| a in live && Holds(Blk(a, live[a]), u);
        assert a != b ==> a in live - {b};
      }
      if IsLive(live - {b}, u) {
        var a :| a in live - {b} && Holds(Blk(a, (live - {b})[a]), u);
        assert Holds(Blk(a, live[a]), u);
      }
      if Holds(Blk(b, live[b]), u) {
        assert IsLive(live, u);
      }
    }
  }

  // A header of the free list is not a live block.
  lemma HeaderNotLive(L: seq<Blk>, live: map<nat, nat>, size: Links, base: nat, brk: nat, i: nat)
    requires Ascending(L) && L[0].a == base && LiveOk(L, live, size, base, brk) && i < |L|
    ensures L[i].a !in live
  {
    if i >= 1 {
      assert Holds(L[i], L[i].a);
      assert IsFree(L, L[i].a);
      if L[i].a in live {
        assert Holds(Blk(L[i].a, live[L[i].a]), L[i].a);
      }
    }
  }

  // Steps from slot f forward to slot x, at least one.
  function Ahead(f: nat, x: nat, n: nat): int
  {
    if x > f then x - f else x - f + n
  }

  // The last header below address a.
  lemma {:induction false} Gap(L: seq<Blk>, a: nat, k: nat) returns (g: nat)
    requires Ascending(L) && k < |L| && L[0].a < a && (k + 1 < |L| ==> a < L[k + 1].a)
    requires forall i :: 0 <= i < |L| ==> L[i].a != a
    ensures g <= k && L[g].a < a && (g + 1 < |L| ==> a < L[g + 1].a)
  {
    if L[k].a < a {
      g := k;
    } else {
      g := Gap(L, a, k - 1);
    }
  }

  // A block without free units lies between the headers around it.
  lemma FitsBetween(L: seq<Blk>, b: Blk, g: nat)
    requires Ascending(L) && b.n > 0 && g < |L| && L[g].a < b.a && (g + 1 < |L| ==> b.a < L[g + 1].a)
    requires forall u :: Holds(b, u) ==> !IsFree(L, u)
    ensures Between(L, g, b)
  {
    assert !IsFree(L, b.a);
    if g >= 1 {
      assert !Holds(L[g], b.a);
    }
    if g + 1 < |L| {
      assert Holds(L[g + 1], L[g + 1].a);
      assert IsFree(L, L[g + 1].a);
    }
  }

  lemma NotAHeader(L: seq<Blk>, b: Blk)
    requires Ascending(L) && b.n > 0 && L[0].a < b.a && forall u :: Holds(b, u) ==> !IsFree(L, u)
    ensures forall i :: 0 <= i < |L| ==> L[i].a != b.a
  {
    forall i | 1 <= i < |L| ensures L[i].a != b.a {
      assert Holds(L[i], L[i].a) && Holds(b, b.a);
      assert IsFree(L, L[i].a);
    }
  }

  // The list after free: b inserted after header g, joined with its neighbours where they touch.
  function Freed(L: seq<Blk>, g: nat, b: Blk): seq<Blk>
    requires g < |L|
  {
    var M := Above(L, g, b);
    if Touch(M, g) then JoinAt(M, g) else M
  }

  // Touch can hold at x or y only.
  ghost predicate TouchOnly(L: seq<Blk>, x: nat, y: nat)
  {
    forall i :: 0 <= i < |L| && Touch(L, i) ==> i == x || i == y
  }

  lemma InsertTouches(L: seq<Blk>, g: nat, b: Blk)
    requires Apart(L) && Between(L, g, b)
    ensures Ascending(InsertAt(L, g, b)) && TouchOnly(InsertAt(L, g, b), g, g + 1) && InsertAt(L, g, b)[0] == L[0]
    ensures |InsertAt(L, g, b)| == |L| + 1
  {
    hide InsertAt;
    InsertIndex(L, g, b);
    InsertAscends(L, g, b);
  }

  lemma JoinTouches(L: seq<Blk>, i: nat, x: nat)
    requires Ascending(L) && 1 <= i && Touch(L, i) && TouchOnly(L, x, i) && x <= i
    ensures Ascending(JoinAt(L, i)) && TouchOnly(JoinAt(L, i), x, x) && JoinAt(L, i)[0] == L[0]
    ensures |JoinAt(L, i)| == |L| - 1
    ensures x == i ==> forall j :: 0 <= j < |JoinAt(L, i)| ==> !Touch(JoinAt(L, i), j)
  {
    hide JoinAt;
    JoinIndex(L, i);
    JoinAscends(L, i);
  }

  lemma FreedApart(L: seq<Blk>, g: nat, b: Blk)
    requires Apart(L) && Between(L, g, b)
    ensures Apart(Freed(L, g, b)) && Freed(L, g, b)[0] == L[0]
  {
    hide InsertAt, JoinAt;
    var M := InsertAt(L, g, b);
    InsertTouches(L, g, b);
    var M1 := if Touch(M, g + 1) then JoinAt(M, g + 1) else M;
    if Touch(M, g + 1) {
      JoinTouches(M, g + 1, g);
    }
    BaseStays(M, M1, g);
    if Touch(M1, g) {
      JoinTouches(M1, g, g);
    }
  }

  // base never touches a block: it has no units.
  lemma BaseStays(M: seq<Blk>, M1: seq<Blk>, g: nat)
    requires Ascending(M) && Ascending(M1) && g + 1 < |M| && M1[0] == M[0]
    requires M1 == M || (g + 2 < |M| && M1 == JoinAt(M, g + 1))
    ensures Touch(M1, g) ==> g >= 1
  {
    if M1 != M {
      JoinIndex(M, g + 1);
    }
  }

  lemma FreedFree(L: seq<Blk>, g: nat, b: Blk, u: nat)
    requires Apart(L) && Between(L, g, b)
    ensures IsFree(Freed(L, g, b), u) <==> IsFree(L, u) || Holds(b, u)
  {
    hide InsertAt, JoinAt, IsFree;
    var M := InsertAt(L, g, b);
    InsertTouches(L, g, b);
    InsertFree(L, g, b, u);
    var M1 := if Touch(M, g + 1) then JoinAt(M, g + 1) else M;
    if Touch(M, g + 1) {
      JoinTouches(M, g + 1, g);
      JoinFree(M, g + 1, u);
    }
    BaseStays(M, M1, g);
    if Touch(M1, g) {
      JoinFree(M1, g, u);
    }
  }

  // ----- morecore and malloc -----

  ghost predicate HasBig(L: seq<Blk>, n: nat)
  {
    exists i :: 1 <= i < |L| && L[i].n >= n
  }

  // New units above the break, as one live block.
  lemma GrowValid(L: seq<Blk>, live: map<nat, nat>, size: Links, grants: seq<Blk>, base: nat, p: nat, n: nat)
    requires LiveOk(L, live, size, base, p) && Conserved(L, live, grants) && base < p && n > 0
    requires forall i :: 0 <= i < |L| ==> L[i].a + L[i].n <= p
    ensures LiveOk(L, live[p := n], size[p := n], base, p + n) && Conserved(L, live[p := n], grants + [Blk(p, n)])
    ensures p !in live
  {
    var live' := live[p := n];
    forall u ensures Owned(grants + [Blk(p, n)], u) <==> IsFree(L, u) || IsLive(live', u) {
      if IsLive(live, u) {
        var a :| a in live && Holds(Blk(a, live[a]), u);
        assert a in live' && Holds(Blk(a, live'[a]), u);
      }
      if IsLive(live', u) {
        var a :| a in live' && Holds(Blk(a, live'[a]), u);
        assert a != p ==> a in live && Holds(Blk(a, live[a]), u);
      }
      OwnedMore(grants, Blk(p, n), u);
      if Holds(Blk(p, n), u) {
        assert p in live' && Holds(Blk(p, live'[p]), u);
      }
    }
  }

  lemma OwnedMore(grants: seq<Blk>, b: Blk, u: nat)
    ensures Owned(grants + [b], u) <==> Owned(grants, u) || Holds(b, u)
  {
    var more := grants + [b];
    assert more[|grants|] == b;
    if Owned(grants, u) {
      var i :| 0 <= i < |grants| && Holds(grants[i], u);
      assert more[i] == grants[i];
    }
  }

  lemma SizeFrame(ptr: Links, size: Links, size': Links, L: seq<Blk>, p: nat)
    requires Linked(ptr, size, L) && size' == size[p := if p in size' then size'[p] else 0]
    requires forall i :: 0 <= i < |L| ==> L[i].a != p
    ensures Linked(ptr, size', L)
  {
    forall i | 0 <= i < |L| ensures Header(ptr, size', L[i], L[Next(i, |L|)].a) {
      assert Header(ptr, size, L[i], L[Next(i, |L|)].a);
    }
  }

  // Between two blocks of a coalesced list there is a gap.
  lemma GapBetween(L: seq<Blk>, i: nat, j: nat)
    requires Apart(L) && i < j < |L|
    ensures L[i].a + L[i].n < L[j].a
  {
    assert !Touch(L, i);
    assert L[i + 1].a <= L[j].a;
  }

  // In a coalesced list, consecutive free units lie in one block.
  lemma {:induction false} OneBlock(L: seq<Blk>, b: Blk, n: nat) returns (i: nat)
    requires Apart(L) && 0 < n <= b.n && forall u :: Holds(b, u) ==> IsFree(L, u)
    ensures 1 <= i < |L| && L[i].a <= b.a && b.a + n <= L[i].a + L[i].n
    ensures HasBig(L, n)
  {
    var u := b.a + n - 1;
    assert Holds(b, u);
    if n == 1 {
      i :| 1 <= i < |L| && Holds(L[i], u);
    } else {
      i := OneBlock(L, b, n - 1);
      var j :| 1 <= j < |L| && Holds(L[j], u);
      if i < j {
        GapBetween(L, i, j);
      }
    }
  }

  // The headers after f and before i are too small for n units.
  ghost predicate Searched(L: seq<Blk>, f: nat, i: nat, n: nat)
  {
    forall x :: 0 <= x < |L| && Ahead(f, x, |L|) < Ahead(f, i, |L|) ==> L[x].n < n
  }

  lemma SearchStart(L: seq<Blk>, f: nat, n: nat)
    requires f < |L|
    ensures Searched(L, f, Next(f, |L|), n) && Ahead(f, Next(f, |L|), |L|) == 1
  {
  }

  lemma SearchOn(L: seq<Blk>, f: nat, i: nat, n: nat)
    requires f < |L| && i < |L| && i != f && L[i].n < n && Searched(L, f, i, n)
    ensures Searched(L, f, Next(i, |L|), n) && Ahead(f, Next(i, |L|), |L|) == Ahead(f, i, |L|) + 1
  {
  }

  lemma ApartAscends(L: seq<Blk>)
    requires Apart(L)
    ensures Ascending(L)
  {
  }

  // A whole lap found no block of n units.
  lemma Lap(L: seq<Blk>, f: nat, n: nat)
    requires f < |L| && n > 0 && L[f].n < n && Searched(L, f, f, n)
    ensures !HasBig(L, n)
  {
    forall x | 1 <= x < |L| ensures L[x].n < n {
      assert x != f ==> Ahead(f, x, |L|) < Ahead(f, f, |L|);
    }
  }

  lemma SameHeader(L: seq<Blk>, i: nat, j: nat)
    requires Ascending(L) && i < |L| && j < |L| && L[i].a == L[j].a
    ensures i == j
  {
  }

  // The last n units of block i are free and nobody else's.
  lemma Tail(L: seq<Blk>, live: map<nat, nat>, size: Links, base: nat, brk: nat, i: nat, n: nat)
    requires Ascending(L) && L[0].a == base && LiveOk(L, live, size, base, brk) && i < |L| && 0 < n <= L[i].n
    ensures i >= 1 && var a := L[i].a + L[i].n - n;
      a !in live && base < a && (forall u :: Holds(Blk(a, n), u) ==> IsFree(L, u)) && forall c :: c in live ==>
        c != L[i].a
  {
    var a := L[i].a + L[i].n - n;
    forall u | Holds(Blk(a, n), u) ensures IsFree(L, u) {
      assert Holds(L[i], u);
    }
    HeaderNotLive(L, live, size, base, brk, i);
    assert IsFree(L, a) by {
      assert Holds(Blk(a, n), a);
    }
    forall c | c in live ensures c != a {
      assert Holds(Blk(c, live[c]), c);
    }
  }

  lemma TakeLive(L: seq<Blk>, L': seq<Blk>, live: map<nat, nat>, a: nat, n: nat, size: Links, size': Links, base: nat,
                 brk: nat, p: nat)
    requires LiveOk(L, live, size, base, brk) && a !in live && base < a && n > 0 && a + n <= brk && a in size'
    requires size'[a] == n && p !in live
    requires forall u :: IsFree(L', u) <==> IsFree(L, u) && !Holds(Blk(a, n), u)
    requires forall u :: Holds(Blk(a, n), u) ==> IsFree(L, u)
    requires forall c :: c in size && c != a && c != p ==> c in size' && size'[c] == size[c]
    ensures LiveOk(L', live[a := n], size', base, brk)
  {
  }

  lemma TakeConserved(L: seq<Blk>, L': seq<Blk>, live: map<nat, nat>, a: nat, n: nat, grants: seq<Blk>)
    requires Conserved(L, live, grants) && a !in live
    requires forall u :: IsFree(L', u) <==> IsFree(L, u) && !Holds(Blk(a, n), u)
    requires forall u :: Holds(Blk(a, n), u) ==> IsFree(L, u)
    ensures Conserved(L', live[a := n], grants)
  {
    var live' := live[a := n];
    forall u ensures Owned(grants, u) <==> IsFree(L', u) || IsLive(live', u) {
      if IsLive(live, u) {
        var c :| c in live && Holds(Blk(c, live[c]), u);
        assert c in live' && Holds(Blk(c, live'[c]), u);
      }
      if IsLive(live', u) {
        var c :| c in live' && Holds(Blk(c, live'[c]), u);
        assert c != a ==> c in live && Holds(Blk(c, live[c]), u);
      }
      if Holds(Blk(a, n), u) {
        assert a in live' && Holds(Blk(a, live'[a]), u);
      }
    }
  }

  class Heap {
    const base: nat
    var ptr: Links
    var size: Links
    var freep: nat                 // 0 before the first malloc
    var brk: nat
    ghost var L: seq<Blk>
    ghost var at: nat              // freep is header number at of the list
    ghost var live: map<nat, nat>  // blocks handed out, by address of their header
    ghost var grants: seq<Blk>     // what sbrk has given

    constructor (base: nat, brk: nat)
      requires 0 < base < brk
      ensures Valid() && this.base == base && freep == 0 && live == map[] && grants == []
    {
      this.base, this.brk := base, brk;
      ptr, size, freep := map[], map[], 0;
      L, at, live, grants := [Blk(base, 0)], 0, map[], [];
    }

    ghost predicate ListOk()
      reads this
    {
      && Apart(L) && L[0].a == base && (forall i :: 0 <= i < |L| ==> L[i].a + L[i].n <= brk)
      && (freep != 0 ==> Linked(ptr, size, L) && at < |L| && freep == L[at].a)
      && (freep == 0 ==> L == [Blk(base, 0)])
    }

    // Every unit ever obtained is free or live, never both.
    ghost predicate Valid()
      reads this
    {
      && 0 < base < brk && ListOk() && LiveOk(L, live, size, base, brk) && (freep == 0 ==> live == map[])
      && Conserved(L, live, grants)
    }

    // free's search: the header after which bp belongs, found within one lap.
    method FindGap(bp: nat, ghost b: Blk) returns (p: nat, ghost g: nat, ghost steps: nat)
      requires 0 < base < brk && ListOk() && freep != 0 && b.a == bp && b.n > 0 && base < bp
      requires forall u :: Holds(b, u) ==> !IsFree(L, u)
      ensures g < |L| && p == L[g].a && Between(L, g, b) && steps < |L|
    {
      NotAHeader(L, b);
      g := Gap(L, bp, |L| - 1);
      FitsBetween(L, b, g);
      p := freep;
      ghost var i := at;
      steps := 0;
      assert Header(ptr, size, L[i], L[Next(i, |L|)].a);
      while !(bp > p && bp < ptr[p])
        invariant i < |L| && p == L[i].a && Header(ptr, size, L[i], L[Next(i, |L|)].a)
        invariant steps + (if i <= g then g - i else |L| - i + g) < |L|
        decreases if i <= g then g - i else |L| - i + g
      {
        SearchStep(L, bp, g, i);
        if p >= ptr[p] && (bp > p || bp < ptr[p]) {
          break;
        }
        p := ptr[p];
        i := Next(i, |L|);
        steps := steps + 1;
        assert Header(ptr, size, L[i], L[Next(i, |L|)].a);
      }
      SearchStep(L, bp, g, i);
    }

    // Put block bp after header p, joining it with the block above and the block below.
    method Insert(bp: nat, p: nat, ghost b: Blk, ghost g: nat)
      requires Apart(L) && Linked(ptr, size, L) && g < |L| && p == L[g].a && b.a == bp && bp in size && size[bp] == b.n
      requires Between(L, g, b) && forall i :: 0 <= i < |L| ==> L[i].a != bp
      modifies `ptr, `size, `L
      ensures L == Freed(old(L), g, b) && Linked(ptr, size, L)
      ensures forall a :: a in old(size) && a != bp && a != p ==> a in size && size[a] == old(size)[a]
    {
      hide Linked, InsertAt, JoinAt;
      JoinAbove(bp, p, b, g);
      JoinBelow(bp, p, Above(L, g, b), g);
      L := Freed(L, g, b);
    }

    method Free(bp: nat) returns (ghost steps: nat)
      requires Valid() && bp in live
      modifies this
      ensures Valid() && live == old(live) - {bp} && grants == old(grants) && brk == old(brk) && freep != 0
      ensures steps < |old(L)|
      ensures forall u :: IsFree(L, u) <==> IsFree(old(L), u) || Holds(Blk(bp, old(live)[bp]), u)
    {
      ghost var b, L0, size0 := Blk(bp, live[bp]), L, size;
      var p;
      ghost var g;
      p, g, steps := FindGap(bp, b);
      NotAHeader(L, b);
      HeaderNotLive(L, live, size, base, brk, g);
      FreedApart(L, g, b);
      FreedBelow(L, g, b, brk);
      Insert(bp, p, b, g);
      freep, at := p, g;
      forall u ensures IsFree(L, u) <==> IsFree(L0, u) || Holds(b, u) {
        FreedFree(L0, g, b, u);
      }
      FreeLive(L0, L, live, bp, size0, size, base, brk, p);
      FreeConserved(L0, L, live, bp, grants);
      live := live - {bp};
    }

    // morecore: at least CHUNK units from sbrk, if it grants them, handed to free.  On overrun the
    // new header would claim more units than sbrk was asked for; the call ends there.
    method Morecore(nu: nat, grant: bool) returns (ok: bool, overrun: bool)
      requires Valid() && freep != 0 && nu > 0
      modifies this
      ensures overrun <==> grant && SbrkArg(nu) != Asked(nu) * HEADER
      ensures Valid() && live == old(live) && freep != 0 && (ok <==> grant && !overrun)
      ensures !ok ==> L == old(L) && grants == old(grants)
      ensures ok ==> HasBig(L, nu) && exists units :: units >= nu && grants == old(grants) + [Blk(old(brk), units)]
    {
      overrun := false;
      var n := if nu < CHUNK then CHUNK else nu;
      if !grant {
        return false, false;
      }
      if ToInt(n * HEADER) != n * HEADER {
        return false, true;
      }
      var p := brk;
      ghost var L0, live0, grants0, size0 := L, live, grants, size;
      brk := brk + n;
      size := size[p := n];
      live := live[p := n];
      grants := grants + [Blk(p, n)];
      GrowValid(L0, live0, size0, grants0, base, p, n);
      SizeFrame(ptr, size0, size, L, p);
      ghost var _ := Free(p);
      assert live == live0;
      forall u | Holds(Blk(p, n), u) ensures IsFree(L, u) {
      }
      ghost var big := OneBlock(L, Blk(p, n), n);
      assert L[big].n >= nu;
      ok := true;
    }

    // malloc: the units taken from the first block that fits; 0 if sbrk refuses.
    method Malloc(nbytes: nat, grant: bool) returns (r: nat, overrun: bool, ghost calls: nat)
      requires Valid() && nbytes < UINT
      modifies this
      ensures overrun <==> nbytes > MAXREQUEST && grant && !HasBig(old(L), Units(nbytes))
      ensures Valid() && calls <= 1
      ensures overrun ==> live == old(live) && grants == old(grants)
      ensures !overrun ==> var nunits := Units(nbytes);
        && (r == 0 ==> !grant && live == old(live) && grants == old(grants) && !HasBig(old(L), nunits))
        && (r != 0 ==>
              r - 1 !in old(live) && live == old(live)[r - 1 := nunits] && base < r - 1 && old(grants) <= grants)
        && (r != 0 && calls == 0 ==> grants == old(grants))
        && (calls == 1 ==> !HasBig(old(L), nunits))
    {
      hide LiveOk, Conserved, Apart, HasBig;
      var nunits := (nbytes + HEADER - 1) / HEADER + 1;
      RequestExact(nbytes, 0);
      calls, overrun := 0, false;
      ghost var live0, grants0, L0 := live, grants, L;
      Init();
      while true
        invariant Valid() && freep != 0 && live == live0 && grants0 <= grants && calls <= 1
        invariant calls == 0 ==> grants == grants0 && L == L0
        invariant calls == 1 ==> HasBig(L, nunits) && !HasBig(L0, nunits) && grant && nbytes <= MAXREQUEST
        invariant !overrun
        decreases 1 - calls
      {
        var found, p, prevp;
        ghost var i, h;
        found, p, prevp, i, h := Search(nunits);
        if found {
          r := Take(p, prevp, nunits, i, h);
          return;
        }
        var ok;
        ok, overrun := Morecore(nunits, grant);
        calls := calls + 1;
        if !ok {
          return 0, overrun, calls;
        }
      }
    }

    // One lap of malloc's loop, from the block after freep to freep itself.
    method Search(nunits: nat) returns (found: bool, p: nat, prevp: nat, ghost i: nat, ghost h: nat)
      requires ListOk() && freep != 0 && nunits > 0
      ensures found ==> h < |L| && i == Next(h, |L|) && p == L[i].a && prevp == L[h].a && L[i].n >= nunits
      ensures found <==> HasBig(L, nunits)
    {
      hide Linked, Apart, Searched;
      ApartAscends(L);
      prevp := freep;
      HeaderAt(ptr, size, L, at);
      p := ptr[prevp];
      h, i := at, Next(at, |L|);
      SearchStart(L, at, nunits);
      while true
        invariant h < |L| && prevp == L[h].a && i == Next(h, |L|) && p == L[i].a && Searched(L, at, i, nunits)
        decreases |L| - Ahead(at, i, |L|)
      {
        HeaderAt(ptr, size, L, i);
        if size[p] >= nunits {
          assert i >= 1;
          return true, p, prevp, i, h;
        }
        if p == freep {
          SameHeader(L, i, at);
          Lap(L, at, nunits);
          return false, p, prevp, i, h;
        }
        SearchOn(L, at, i, nunits);
        prevp := p;
        p := ptr[p];
        h, i := i, Next(i, |L|);
      }
    }

    // The first call of malloc makes base a ring of its own.
    method Init()
      requires Valid()
      modifies `ptr, `size, `freep, `at
      ensures Valid() && freep != 0
    {
      if freep == 0 {
        freep := base;
        ptr := ptr[base := base];
        size := size[base := 0];
        at := 0;
      }
    }

    // Cut nunits off the end of block p, or unlink it if it fits exactly.
    method Take(p: nat, prevp: nat, nunits: nat, ghost i: nat, ghost h: nat) returns (r: nat)
      requires Valid() && freep != 0 && nunits > 0 && i < |L| && h < |L| && i == Next(h, |L|) && p == L[i].a
      requires prevp == L[h].a && L[i].n >= nunits
      modifies this
      ensures Valid() && r - 1 !in old(live) && r > 0 && live == old(live)[r - 1 := nunits] && base < r - 1
      ensures grants == old(grants)
    {
      hide Linked, LiveOk, Conserved;
      ghost var L0, size0 := L, size;
      HeaderAt(ptr, size, L, i);
      ghost var a := L[i].a + L[i].n - nunits;
      Tail(L, live, size, base, brk, i, nunits);
      var q := p;
      if size[p] == nunits {
        Unlink(p, prevp, i, h);
      } else {
        q := Cut(p, nunits, i);
      }
      freep, at := prevp, h;
      TakeLive(L0, L, live, a, nunits, size0, size, base, brk, p);
      TakeConserved(L0, L, live, a, nunits, grants);
      live := live[q := nunits];
      r := q + 1;
    }

    method Unlink(p: nat, prevp: nat, ghost i: nat, ghost h: nat)
      requires Apart(L) && Linked(ptr, size, L) && 1 <= i < |L| && h + 1 == i && p == L[i].a && prevp == L[h].a
      requires forall j :: 0 <= j < |L| ==> L[j].a + L[j].n <= brk
      modifies `ptr, `L
      ensures Apart(L) && Linked(ptr, size, L) && L[0] == old(L)[0] && h < |L| && L[h].a == prevp
      ensures forall j :: 0 <= j < |L| ==> L[j].a + L[j].n <= brk
      ensures forall u :: IsFree(L, u) <==> IsFree(old(L), u) && !Holds(old(L)[i], u)
    {
      HeaderAt(ptr, size, L, i);
      RemoveLinked(ptr, size, L, i, h);
      RemoveApart(L, i);
      forall u ensures IsFree(RemoveAt(L, i), u) <==> IsFree(L, u) && !Holds(L[i], u) {
        RemoveFree(L, i, u);
      }
      ptr := ptr[prevp := ptr[p]];
      L := RemoveAt(L, i);
    }

    method Cut(p: nat, nunits: nat, ghost i: nat) returns (q: nat)
      requires Apart(L) && Linked(ptr, size, L) && 1 <= i < |L| && p == L[i].a && 0 < nunits < L[i].n
      requires forall j :: 0 <= j < |L| ==> L[j].a + L[j].n <= brk
      modifies `size, `L
      ensures q == old(L)[i].a + old(L)[i].n - nunits
      ensures Apart(L) && Linked(ptr, size, L) && L[0] == old(L)[0] && |L| == |old(L)|
      ensures forall j :: 0 <= j < |L| ==> L[j].a == old(L)[j].a
      ensures forall j :: 0 <= j < |L| ==> L[j].a + L[j].n <= brk
      ensures forall u :: IsFree(L, u) <==> IsFree(old(L), u) && !Holds(Blk(q, nunits), u)
      ensures q in size && size[q] == nunits
      ensures forall c :: c in old(size) && c != p && c != q ==> c in size && size[c] == old(size)[c]
    {
      HeaderAt(ptr, size, L, i);
      q := p + (size[p] - nunits);
      ShrunkLinked(ptr, size, L, i, nunits, size[p := L[i].n - nunits][q := nunits]);
      ShrunkApart(L, i, nunits);
      forall u ensures IsFree(Shrunk(L, i, nunits), u) <==> IsFree(L, u) && !Holds(Blk(q, nunits), u) {
        ShrunkFree(L, i, nunits, u);
      }
      size := size[p := size[p] - nunits];
      size := size[q := nunits];
      L := Shrunk(L, i, nunits);
    }

    method JoinAbove(bp: nat, p: nat, ghost b: Blk, ghost g: nat)
      requires Apart(L) && Linked(ptr, size, L) && g < |L| && p == L[g].a && b.a == bp && bp in size && size[bp] == b.n
      requires Between(L, g, b) && forall i :: 0 <= i < |L| ==> L[i].a != bp
      modifies `ptr, `size
      ensures var M1 := Above(L, g, b);
        Ascending(M1) && Linked(ptr[p := bp], size, M1) && g + 1 < |M1| && M1[g].a == p && M1[g + 1].a == bp
      ensures forall a :: a in old(size) && a != bp ==> a in size && size[a] == old(size)[a]
    {
      hide Linked, InsertAt, JoinAt;
      HeaderAt(ptr, size, L, g);
      AboveShape(L, g, b);
      if bp + size[bp] == ptr[p] {
        JoinedLinked(ptr, size, L, g, b);
        size := size[bp := size[bp] + size[ptr[p]]];
        ptr := ptr[bp := ptr[ptr[p]]];
      } else {
        InsertLinked(ptr, size, L, g, b);
        assert size[bp := b.n] == size;
        ptr := ptr[bp := ptr[p]];
      }
    }

    method JoinBelow(bp: nat, p: nat, ghost M: seq<Blk>, ghost g: nat)
      requires Ascending(M) && g + 1 < |M| && M[g].a == p && M[g + 1].a == bp && Linked(ptr[p := bp], size, M)
      modifies `ptr, `size
      ensures Linked(ptr, size, if Touch(M, g) then JoinAt(M, g) else M)
      ensures forall a :: a in old(size) && a != p ==> a in size && size[a] == old(size)[a]
    {
      hide Linked;
      ghost var ptr2 := ptr[p := bp];
      HeaderAt(ptr2, size, M, g);
      HeaderAt(ptr2, size, M, g + 1);
      if p + size[p] == bp {
        JoinLinked(ptr2, size, M, g);
        size := size[p := size[p] + size[bp]];
        ptr := ptr[p := ptr[bp]];
        assert ptr == ptr2[p := ptr2[bp]];
      } else {
        ptr := ptr[p := bp];
      }
    }
  }

  lemma AboveShape(L: seq<Blk>, g: nat, b: Blk)
    requires Apart(L) && Between(L, g, b)
    ensures var M := Above(L, g, b); Ascending(M) && g + 1 < |M| && M[g].a == L[g].a && M[g + 1].a == b.a
    ensures Touch(InsertAt(L, g, b), g + 1) <==> b.a + b.n == L[Next(g, |L|)].a
  {
    hide InsertAt, JoinAt;
    InsertIndex(L, g, b);
    InsertAscends(L, g, b);
    BaseOnly(L, g, b);
    if Touch(InsertAt(L, g, b), g + 1) {
      JoinIndex(InsertAt(L, g, b), g + 1);
      JoinAscends(InsertAt(L, g, b), g + 1);
    }
  }

  // The headers after b has been joined with the block above it, and p points to b.
  lemma JoinedLinked(ptr: Links, size: Links, L: seq<Blk>, g: nat, b: Blk)
    requires Apart(L) && Linked(ptr, size, L) && Between(L, g, b) && b.a in size && size[b.a] == b.n
    requires (forall i :: 0 <= i < |L| ==> L[i].a != b.a) && b.a + b.n == L[Next(g, |L|)].a
    ensures var p := L[g].a; p in ptr && ptr[p] in ptr && ptr[p] in size
    ensures var p := L[g].a; Linked(ptr[b.a := ptr[ptr[p]]][p := b.a], size[b.a := size[b.a] + size[ptr[p]]],
      JoinAt(InsertAt(L, g, b), g + 1))
  {
    hide Linked;
    var p: nat, q: nat, M := L[g].a, L[Next(g, |L|)].a, InsertAt(L, g, b);
    var ptr1: Links := ptr[b.a := q][p := b.a];
    HeaderAt(ptr, size, L, g);
    HeaderAt(ptr, size, L, Next(g, |L|));
    InsertAscends(L, g, b);
    InsertLinked(ptr, size, L, g, b);
    BaseOnly(L, g, b);
    assert size[b.a := b.n] == size;
    JoinLinked(ptr1, size, M, g + 1);
    assert ptr1[b.a := ptr1[q]] == ptr[b.a := ptr[q]][p := b.a];
  }

  // b inserted after header g and joined with the block above it.
  function Above(L: seq<Blk>, g: nat, b: Blk): seq<Blk>
    requires g < |L|
  {
    var M := InsertAt(L, g, b);
    if Touch(M, g + 1) then JoinAt(M, g + 1) else M
  }

  lemma FreedBelow(L: seq<Blk>, g: nat, b: Blk, brk: nat)
    requires Apart(L) && Between(L, g, b) && b.a + b.n <= brk && forall i :: 0 <= i < |L| ==> L[i].a + L[i].n <= brk
    ensures g < |Freed(L, g, b)| && Freed(L, g, b)[g].a == L[g].a
    ensures forall i :: 0 <= i < |Freed(L, g, b)| ==> Freed(L, g, b)[i].a + Freed(L, g, b)[i].n <= brk
  {
    hide InsertAt, JoinAt;
    InsertIndex(L, g, b);
    AboveShape(L, g, b);
    if Touch(InsertAt(L, g, b), g + 1) {
      JoinIndex(InsertAt(L, g, b), g + 1);
    }
    if Touch(Above(L, g, b), g) {
      JoinIndex(Above(L, g, b), g);
    }
  }

  lemma HeaderAt(ptr: Links, size: Links, L: seq<Blk>, i: nat)
    requires Linked(ptr, size, L) && i < |L|
    ensures Header(ptr, size, L[i], L[Next(i, |L|)].a)
  {
  }

  lemma BaseOnly(L: seq<Blk>, g: nat, b: Blk)
    requires Apart(L) && Between(L, g, b)
    ensures g + 1 == |L| ==> L[0].a < b.a + b.n
    ensures InsertAt(L, g, b)[g] == L[g] && InsertAt(L, g, b)[g + 1] == b
    ensures g + 1 < |L| ==> InsertAt(L, g, b)[g + 2] == L[g + 1]
    ensures Touch(InsertAt(L, g, b), g + 1) <==> b.a + b.n == L[Next(g, |L|)].a
  {
    hide InsertAt;
    InsertIndex(L, g, b);
  }

  // At every header but the right one the search goes on; there it stops.
  lemma SearchStep(L: seq<Blk>, a: nat, g: nat, i: nat)
    requires Ascending(L) && L[0].a < a && i < |L| && g < |L| && L[g].a < a && (g + 1 < |L| ==> a < L[g + 1].a)
    requires forall j :: 0 <= j < |L| ==> L[j].a != a
    ensures var p, q := L[i].a, L[Next(i, |L|)].a;
      ((a > p && a < q) || (p >= q && (a > p || a < q))) <==> i == g
  {
    if i != g {
      assert i < g ==> L[i + 1].a <= L[g].a;
      assert i > g ==> L[g + 1].a <= L[i].a;
    }
  }
}
