/**
  The three-level page table of vm.c (Sv39, section 4.4 of the RISC-V
  Privileged Architecture), seen as a flat map from virtual page number to PTE.
 */
module PageTable {
  import opened Optional

  const PGSIZE: nat := 4096
  const ENTRIES: nat := 512
  const MAXVA: nat := 0x40_0000_0000           // 2^38
  const MAXVPN: nat := MAXVA / PGSIZE

  datatype Pte = Pte(v: bool, r: bool, w: bool, x: bool, u: bool, cow: bool, ppn: nat)

  const ZERO: Pte := Pte(false, false, false, false, false, false, 0)

  predicate Leaf(p: Pte) { p.v && (p.r || p.w || p.x) }

  predicate Branch(p: Pte) { p.v && !p.r && !p.w && !p.x }

  type Table = seq<Pte>
  type Tables = map<nat, Table>                // the page-table pages, by physical page number

  // ----- index splitting -----

  // PX(level, va)
  function Px(level: nat, va: nat): (i: nat)
    ensures i < ENTRIES
  {
    va / (if level == 0 then 0x1000 else if level == 1 then 0x20_0000 else 0x4000_0000) % ENTRIES
  }

  // The three indices determine the page.
  lemma SplitInjective(a: nat, b: nat)
    requires a < MAXVA && b < MAXVA && Px(2, a) == Px(2, b) && Px(1, a) == Px(1, b) && Px(0, a) == Px(0, b)
    ensures a / PGSIZE == b / PGSIZE
  {
    SplitJoins(a);
    SplitJoins(b);
  }

  lemma SplitJoins(a: nat)
    requires a < MAXVA
    ensures a / PGSIZE == (Px(2, a) * ENTRIES + Px(1, a)) * ENTRIES + Px(0, a)
  {
    var n := a / 0x1000;
    assert a / 0x20_0000 == n / 512 && a / 0x4000_0000 == n / 512 / 512;
  }

  // ----- the tree -----

  // A place for a page-table page.
  datatype Pos = Root | Mid(i: nat) | Low(i: nat, j: nat)

  predicate InRange(q: Pos)
  {
    match q
    case Root => true
    case Mid(i) => i < ENTRIES
    case Low(i, j) => i < ENTRIES && j < ENTRIES
  }

  function Child(t: Tables, pg: nat, i: nat): Option<nat>
  {
    if pg in t && i < |t[pg]| && t[pg][i].v then Some(t[pg][i].ppn) else None
  }

  function PageAt(t: Tables, root: nat, q: Pos): Option<nat>
  {
    match q
    case Root => Some(root)
    case Mid(i) => Child(t, root, i)
    case Low(i, j) => (match Child(t, root, i) case None => None case Some(m) => Child(t, m, j))
  }

  predicate EntryOk(q: Pos, p: Pte)
  {
    p.v ==> if q.Low? then Leaf(p) else Branch(p)
  }

  // Every position holds a table of its own, with branches above and leaves at the bottom.
  ghost predicate Tree(t: Tables, root: nat)
  {
    && (forall q :: InRange(q) && PageAt(t, root, q).Some? ==> IsTable(t, PageAt(t, root, q).value, q))
    && (forall q, p :: InRange(q) && InRange(p) && q != p && PageAt(t, root, q).Some? ==>
          PageAt(t, root, q) != PageAt(t, root, p))
  }

  ghost predicate IsTable(t: Tables, pg: nat, q: Pos)
  {
    pg in t && |t[pg]| == ENTRIES && forall i :: 0 <= i < ENTRIES ==> EntryOk(q, t[pg][i])
  }

  // Page pg is at no position.
  ghost predicate Unused(t: Tables, root: nat, pg: nat)
  {
    forall q :: InRange(q) ==> PageAt(t, root, q) != Some(pg)
  }

  // ----- the flat map -----

  function LowPos(vpn: nat): Pos { Low(vpn / 0x4_0000, vpn / ENTRIES % ENTRIES) }

  function Flat(t: Tables, root: nat, vpn: nat): Pte
  {
    match PageAt(t, root, LowPos(vpn))
    case None => ZERO
    case Some(pg) => if pg in t && |t[pg]| == ENTRIES then t[pg][vpn % ENTRIES] else ZERO
  }

  lemma LowInRange(vpn: nat)
    requires vpn < MAXVPN
    ensures InRange(LowPos(vpn))
  {
  }

  lemma LowInjective(a: nat, b: nat)
    requires a < MAXVPN && b < MAXVPN && LowPos(a) == LowPos(b) && a % ENTRIES == b % ENTRIES
    ensures a == b
  {
    assert a / 0x4_0000 == a / ENTRIES / ENTRIES && b / 0x4_0000 == b / ENTRIES / ENTRIES;
  }

  // ----- writing a leaf -----

  function SetEntry(t: Tables, pg: nat, i: nat, p: Pte): Tables
    requires pg in t && i < |t[pg]|
  {
    t[pg := t[pg][i := p]]
  }

  lemma LeafKeepsPages(t: Tables, root: nat, q: Pos, i: nat, p: Pte, q': Pos)
    requires Tree(t, root) && InRange(q) && q.Low? && PageAt(t, root, q).Some? && i < ENTRIES && InRange(q')
    ensures PageAt(t, root, q).value in t && |t[PageAt(t, root, q).value]| == ENTRIES
    ensures PageAt(SetEntry(t, PageAt(t, root, q).value, i, p), root, q') == PageAt(t, root, q')
  {
    var pg := PageAt(t, root, q).value;
    assert IsTable(t, pg, q);
    assert PageAt(t, root, Root) != PageAt(t, root, q);
    match q'
    case Low(x, y) => assert PageAt(t, root, Mid(x)) != PageAt(t, root, q) && InRange(Mid(x));
    case _ =>
  }

  // Writing one leaf entry changes one page number of the flat map.
  lemma SetLeaf(t: Tables, root: nat, vpn: nat, p: Pte)
    requires Tree(t, root) && vpn < MAXVPN && PageAt(t, root, LowPos(vpn)).Some? && (p.v ==> Leaf(p))
    ensures var pg := PageAt(t, root, LowPos(vpn)).value; pg in t && |t[pg]| == ENTRIES
    ensures var t' := SetEntry(t, PageAt(t, root, LowPos(vpn)).value, vpn % ENTRIES, p);
      Tree(t', root) && forall n :: 0 <= n < MAXVPN ==> Flat(t', root, n) == if n == vpn then p else Flat(t, root, n)
  {
    hide Child;
    var q := LowPos(vpn);
    LowInRange(vpn);
    var pg := PageAt(t, root, q).value;
    assert IsTable(t, pg, q);
    var t' := SetEntry(t, pg, vpn % ENTRIES, p);
    forall q' | InRange(q') ensures PageAt(t', root, q') == PageAt(t, root, q') {
      LeafKeepsPages(t, root, q, vpn % ENTRIES, p, q');
    }
    forall q' | InRange(q') && PageAt(t', root, q').Some? ensures IsTable(t', PageAt(t', root, q').value, q') {
      assert IsTable(t, PageAt(t, root, q').value, q');
      assert q' != q ==> PageAt(t, root, q') != Some(pg);
    }
    forall n | 0 <= n < MAXVPN ensures Flat(t', root, n) == if n == vpn then p else Flat(t, root, n) {
      LowInRange(n);
      if n != vpn {
        if LowPos(n) == q && n % ENTRIES == vpn % ENTRIES {
          LowInjective(n, vpn);
        }
        assert LowPos(n) != q ==> PageAt(t, root, LowPos(n)) != Some(pg);
      }
    }
  }

  // ----- adding a table -----

  function Empty(): (b: Table)
    ensures |b| == ENTRIES && forall i :: 0 <= i < ENTRIES ==> b[i] == ZERO
  {
    seq(ENTRIES, _ => ZERO)
  }

  // kalloc'ed page fresh_ becomes the table below entry i of page pg.
  function Grown(t: Tables, pg: nat, i: nat, fresh_: nat): Tables
    requires pg in t && i < |t[pg]|
  {
    t[fresh_ := Empty()][pg := t[pg][i := Pte(true, false, false, false, false, false, fresh_)]]
  }

  function Below(q: Pos, i: nat): Pos
  {
    match q
    case Root => Mid(i)
    case Mid(j) => Low(j, i)
    case Low(_, _) => q
  }

  lemma GrownPages(t: Tables, root: nat, q: Pos, i: nat, fresh_: nat, p: Pos)
    requires Tree(t, root) && InRange(q) && !q.Low? && PageAt(t, root, q).Some? && i < ENTRIES && InRange(p)
    requires PageAt(t, root, Below(q, i)).None? && Unused(t, root, fresh_)
    ensures PageAt(t, root, q).value in t && |t[PageAt(t, root, q).value]| == ENTRIES
    ensures PageAt(Grown(t, PageAt(t, root, q).value, i, fresh_), root, p) == if p == Below(q, i) then Some(fresh_)
      else PageAt(t, root, p)
  {
    var pg := PageAt(t, root, q).value;
    assert IsTable(t, pg, q);
    assert PageAt(t, root, q) != Some(fresh_) && PageAt(t, root, Root) != Some(fresh_);
    assert q != Root ==> PageAt(t, root, q) != PageAt(t, root, Root);
    if p.Low? {
      assert InRange(Mid(p.i));
      assert PageAt(t, root, Mid(p.i)) != Some(fresh_);
      assert q != Mid(p.i) ==> PageAt(t, root, Mid(p.i)) != Some(pg);
    }
  }

  // A new, empty table changes nothing in the flat map.
  lemma AddTable(t: Tables, root: nat, q: Pos, i: nat, fresh_: nat)
    requires Tree(t, root) && InRange(q) && !q.Low? && PageAt(t, root, q).Some? && i < ENTRIES
    requires PageAt(t, root, Below(q, i)).None? && Unused(t, root, fresh_)
    ensures PageAt(t, root, q).value in t && |t[PageAt(t, root, q).value]| == ENTRIES
    ensures var t' := Grown(t, PageAt(t, root, q).value, i, fresh_);
      && Tree(t', root) && (forall n :: 0 <= n < MAXVPN ==> Flat(t', root, n) == Flat(t, root, n))
      && (forall p :: InRange(p) ==>
            PageAt(t', root, p) == if p == Below(q, i) then Some(fresh_) else PageAt(t, root, p))
  {
    hide Child;
    var pg := PageAt(t, root, q).value;
    assert IsTable(t, pg, q);
    var t' := Grown(t, pg, i, fresh_);
    forall p | InRange(p) ensures PageAt(t', root, p) == if p == Below(q, i) then Some(fresh_) else PageAt(t, root, p) {
      GrownPages(t, root, q, i, fresh_, p);
    }
    forall p | InRange(p) && PageAt(t', root, p).Some? ensures IsTable(t', PageAt(t', root, p).value, p) {
      if p != Below(q, i) {
        assert IsTable(t, PageAt(t, root, p).value, p) && PageAt(t, root, p) != Some(fresh_);
        assert p != q ==> PageAt(t, root, p) != Some(pg);
      } else {
        assert PageAt(t, root, q) != Some(fresh_);
      }
    }
    forall n | 0 <= n < MAXVPN ensures Flat(t', root, n) == Flat(t, root, n) {
      LowInRange(n);
      var l := LowPos(n);
      if l != Below(q, i) && PageAt(t, root, l).Some? {
        assert PageAt(t, root, l) != Some(fresh_) && PageAt(t, root, l) != Some(pg);
      } else if l == Below(q, i) {
        assert PageAt(t, root, q) != Some(fresh_);
      }
    }
  }

  // ----- freewalk -----

  // The table pages in the order in which freewalk frees those below entry n of pg.
  function Kids(t: Tables, pg: nat, level: nat, n: nat): seq<nat>
    decreases level, n
  {
    if n == 0 || level == 0 then []
    else Kids(t, pg, level, n - 1) + (match Child(t, pg, n - 1) case None => [] case Some(c) => Order(t, c, level - 1))
  }

  function Order(t: Tables, pg: nat, level: nat): seq<nat>
    decreases level, ENTRIES + 1
  {
    Kids(t, pg, level, ENTRIES) + [pg]
  }

  // Below pg there are only branches down to level 0, and nothing valid there.
  ghost predicate LeafFree(t: Tables, pg: nat, level: nat)
    decreases level
  {
    && pg in t && |t[pg]| == ENTRIES
    && (forall i :: 0 <= i < ENTRIES && t[pg][i].v ==>
          level > 0 && Branch(t[pg][i]) && LeafFree(t, t[pg][i].ppn, level - 1))
  }

  ghost predicate Distinct(s: seq<nat>)
  {
    forall i, j :: 0 <= i < j < |s| ==> s[i] != s[j]
  }

  // No leaf is left anywhere.
  ghost predicate NoLeaf(t: Tables, root: nat)
  {
    forall q, k :: InRange(q) && q.Low? && PageAt(t, root, q).Some? && 0 <= k < ENTRIES ==>
      !EntryAt(t, PageAt(t, root, q).value, k).v
  }

  function EntryAt(t: Tables, pg: nat, k: nat): Pte
  {
    if pg in t && k < |t[pg]| then t[pg][k] else ZERO
  }

  lemma TreeIsLeafFree(t: Tables, root: nat)
    requires Tree(t, root) && NoLeaf(t, root)
    ensures LeafFree(t, root, 2)
  {
    assert IsTable(t, root, Root) by {
      assert PageAt(t, root, Root) == Some(root);
    }
    forall i | 0 <= i < ENTRIES && t[root][i].v ensures Branch(t[root][i]) && LeafFree(t, t[root][i].ppn, 1) {
      assert EntryOk(Root, t[root][i]);
      MidIsLeafFree(t, root, i);
    }
  }

  lemma MidIsLeafFree(t: Tables, root: nat, i: nat)
    requires Tree(t, root) && NoLeaf(t, root) && i < ENTRIES && PageAt(t, root, Mid(i)).Some?
    ensures LeafFree(t, PageAt(t, root, Mid(i)).value, 1)
  {
    var m := PageAt(t, root, Mid(i)).value;
    assert IsTable(t, m, Mid(i));
    forall j | 0 <= j < ENTRIES && t[m][j].v ensures Branch(t[m][j]) && LeafFree(t, t[m][j].ppn, 0) {
      assert EntryOk(Mid(i), t[m][j]);
      var l := Low(i, j);
      assert InRange(l) && PageAt(t, root, l) == Some(t[m][j].ppn);
      assert IsTable(t, t[m][j].ppn, l);
      forall k | 0 <= k < ENTRIES ensures !t[t[m][j].ppn][k].v {
        assert !EntryAt(t, t[m][j].ppn, k).v;
      }
    }
  }

  // ps are the positions of the pages of s, each once.
  ghost predicate Places(t: Tables, root: nat, s: seq<nat>, ps: seq<Pos>)
  {
    && |s| == |ps| && (forall k :: 0 <= k < |s| ==> InRange(ps[k]) && PageAt(t, root, ps[k]) == Some(s[k]))
    && (forall k, l :: 0 <= k < l < |ps| ==> ps[k] != ps[l])
  }

  lemma PlacesJoin(t: Tables, root: nat, a: seq<nat>, ps: seq<Pos>, b: seq<nat>, qs: seq<Pos>)
    requires Places(t, root, a, ps) && Places(t, root, b, qs)
    requires forall k, l :: 0 <= k < |ps| && 0 <= l < |qs| ==> ps[k] != qs[l]
    ensures Places(t, root, a + b, ps + qs)
  {
  }

  lemma {:induction false} MidKids(t: Tables, root: nat, i: nat, m: nat, n: nat) returns (ps: seq<Pos>)
    requires i < ENTRIES && PageAt(t, root, Mid(i)) == Some(m) && n <= ENTRIES
    ensures Places(t, root, Kids(t, m, 1, n), ps)
    ensures forall k :: 0 <= k < |ps| ==> ps[k].Low? && ps[k].i == i && ps[k].j < n
    ensures forall j :: 0 <= j < n && PageAt(t, root, Low(i, j)).Some? ==> Low(i, j) in ps
  {
    hide Places, Order;
    if n == 0 {
      ps := [];
      NoPlaces(t, root);
    } else {
      ps := MidKids(t, root, i, m, n - 1);
      assert PageAt(t, root, Low(i, n - 1)) == Child(t, m, n - 1);
      match Child(t, m, n - 1)
      case None =>
        assert Kids(t, m, 1, n) == Kids(t, m, 1, n - 1);
      case Some(c) =>
        LowOrder(t, root, i, n - 1, c);
        PlacesJoin(t, root, Kids(t, m, 1, n - 1), ps, Order(t, c, 0), [Low(i, n - 1)]);
        ps := ps + [Low(i, n - 1)];
    }
  }

  lemma LowOrder(t: Tables, root: nat, i: nat, j: nat, c: nat)
    requires i < ENTRIES && j < ENTRIES && PageAt(t, root, Low(i, j)) == Some(c)
    ensures Places(t, root, Order(t, c, 0), [Low(i, j)])
  {
    assert Order(t, c, 0) == [c];
  }

  // The second-level table at i with all its children.
  lemma MidOrder(t: Tables, root: nat, i: nat, m: nat) returns (ps: seq<Pos>)
    requires i < ENTRIES && PageAt(t, root, Mid(i)) == Some(m)
    ensures Places(t, root, Order(t, m, 1), ps) && forall k :: 0 <= k < |ps| ==> !ps[k].Root? && ps[k].i == i
    ensures forall q :: InRange(q) && !q.Root? && q.i == i && PageAt(t, root, q).Some? ==> q in ps
  {
    hide Kids, PageAt;
    var qs := MidKids(t, root, i, m, ENTRIES);
    PlacesJoin(t, root, Kids(t, m, 1, ENTRIES), qs, [m], [Mid(i)]);
    ps := qs + [Mid(i)];
    forall q | InRange(q) && !q.Root? && q.i == i && PageAt(t, root, q).Some? ensures q in ps {
      if q.Mid? {
        assert ps[|qs|] == q;
      } else {
        assert Low(i, q.j) in qs;
      }
    }
  }

  lemma {:induction false} RootKids(t: Tables, root: nat, n: nat) returns (ps: seq<Pos>)
    requires n <= ENTRIES
    ensures Places(t, root, Kids(t, root, 2, n), ps) && forall k :: 0 <= k < |ps| ==> !ps[k].Root? && ps[k].i < n
    ensures forall q :: InRange(q) && !q.Root? && q.i < n && PageAt(t, root, q).Some? ==> q in ps
  {
    hide Places, Order;
    if n == 0 {
      ps := [];
      NoPlaces(t, root);
    } else {
      ps := RootKids(t, root, n - 1);
      assert PageAt(t, root, Mid(n - 1)) == Child(t, root, n - 1);
      match Child(t, root, n - 1)
      case None =>
        assert Kids(t, root, 2, n) == Kids(t, root, 2, n - 1);
      case Some(m) =>
        var qs := MidOrder(t, root, n - 1, m);
        PlacesJoin(t, root, Kids(t, root, 2, n - 1), ps, Order(t, m, 1), qs);
        ps := ps + qs;
    }
  }

  lemma NoPlaces(t: Tables, root: nat)
    ensures Places(t, root, [], [])
  {
  }

  // freewalk frees each table page exactly once.
  lemma EachTableOnce(t: Tables, root: nat)
    requires Tree(t, root)
    ensures Distinct(Order(t, root, 2))
    ensures forall pg :: pg in Order(t, root, 2) <==> !Unused(t, root, pg)
  {
    hide Kids, PageAt, IsTable;
    var ps := RootKids(t, root, ENTRIES);
    RootPlace(t, root);
    PlacesJoin(t, root, Kids(t, root, 2, ENTRIES), ps, [root], [Root]);
    PlacesOnce(t, root, Order(t, root, 2), ps + [Root]);
    assert (ps + [Root])[|ps|] == Root;
  }

  lemma RootPlace(t: Tables, root: nat)
    ensures Places(t, root, [root], [Root])
  {
  }

  lemma PlacesOnce(t: Tables, root: nat, order: seq<nat>, qs: seq<Pos>)
    requires Tree(t, root) && Places(t, root, order, qs)
    requires forall q :: InRange(q) && PageAt(t, root, q).Some? ==> q in qs
    ensures Distinct(order)
    ensures forall pg :: pg in order <==> !Unused(t, root, pg)
  {
    hide PageAt, IsTable;
    forall k, l | 0 <= k < l < |order| ensures order[k] != order[l] {
      assert PageAt(t, root, qs[k]) == Some(order[k]) && PageAt(t, root, qs[l]) == Some(order[l]);
    }
    forall pg: nat ensures pg in order <==> !Unused(t, root, pg) {
      if pg in order {
        var k :| 0 <= k < |order| && order[k] == pg;
        assert PageAt(t, root, qs[k]) == Some(pg);
      }
      if !Unused(t, root, pg) {
        var q :| InRange(q) && PageAt(t, root, q) == Some(pg);
        var k :| 0 <= k < |qs| && qs[k] == q;
        assert order[k] == pg;
      }
    }
  }
}
