/**
  What freewalk reads: the subtree below a page-table page depends only on the
  pages that freewalk itself frees.
 */
module Freewalk {
  import opened Optional
  import opened PageTable

  // Branches above level 0, leaves at level 0.
  ghost predicate Shaped(t: Tables, pg: nat, level: nat)
    decreases level
  {
    && pg in t && |t[pg]| == ENTRIES
    && (forall i :: 0 <= i < ENTRIES && t[pg][i].v ==> EntryShaped(t, t[pg][i], level))
  }

  ghost predicate EntryShaped(t: Tables, e: Pte, level: nat)
    decreases level, 0
  {
    if level == 0 then Leaf(e) else Branch(e) && Shaped(t, e.ppn, level - 1)
  }

  // t and t' hold the same in every page of s.
  ghost predicate Agree(t: Tables, t': Tables, s: seq<nat>)
  {
    forall x :: x in s ==> Same(t, t', x)
  }

  predicate Same(t: Tables, t': Tables, x: nat)
  {
    (x in t <==> x in t') && (x in t ==> t[x] == t'[x])
  }

  lemma {:induction false} KidsPrefix(t: Tables, pg: nat, level: nat, n: nat, m: nat)
    requires n <= m
    ensures Kids(t, pg, level, n) <= Kids(t, pg, level, m)
    decreases m
  {
    if n < m {
      KidsPrefix(t, pg, level, n, m - 1);
    }
  }

  // The pages below entry i come right after those below the earlier entries.
  lemma ChildSlice(t: Tables, pg: nat, level: nat, i: nat)
    requires level > 0 && i < ENTRIES && Child(t, pg, i).Some?
    ensures Kids(t, pg, level, i + 1) == Kids(t, pg, level, i) + Order(t, Child(t, pg, i).value, level - 1)
    ensures Kids(t, pg, level, i + 1) <= Order(t, pg, level)
  {
    KidsPrefix(t, pg, level, i + 1, ENTRIES);
  }

  lemma ChildAgree(t: Tables, t': Tables, pg: nat, level: nat, i: nat)
    requires level > 0 && i < ENTRIES && Child(t, pg, i).Some? && Agree(t, t', Order(t, pg, level))
    ensures Agree(t, t', Order(t, Child(t, pg, i).value, level - 1))
  {
    ChildSlice(t, pg, level, i);
    var c, whole := Order(t, Child(t, pg, i).value, level - 1), Order(t, pg, level);
    var from := |Kids(t, pg, level, i)|;
    forall x | x in c ensures Same(t, t', x) {
      var k :| 0 <= k < |c| && c[k] == x;
      assert whole[from + k] == x;
    }
  }

  lemma RootAgrees(t: Tables, t': Tables, pg: nat, level: nat)
    requires Agree(t, t', Order(t, pg, level))
    ensures Same(t, t', pg) && forall i :: Child(t, pg, i) == Child(t', pg, i)
  {
    var whole := Order(t, pg, level);
    assert whole[|whole| - 1] == pg;
  }

  lemma {:induction false} OrderFrame(t: Tables, t': Tables, pg: nat, level: nat)
    requires Agree(t, t', Order(t, pg, level))
    ensures Order(t', pg, level) == Order(t, pg, level)
    decreases level, ENTRIES + 1
  {
    KidsFrame(t, t', pg, level, ENTRIES);
  }

  lemma {:induction false} KidsFrame(t: Tables, t': Tables, pg: nat, level: nat, n: nat)
    requires Agree(t, t', Order(t, pg, level)) && n <= ENTRIES
    ensures Kids(t', pg, level, n) == Kids(t, pg, level, n)
    decreases level, n
  {
    hide Agree, Order;
    if n > 0 && level > 0 {
      KidsFrame(t, t', pg, level, n - 1);
      RootAgrees(t, t', pg, level);
      assert Child(t, pg, n - 1) == Child(t', pg, n - 1);
      if Child(t, pg, n - 1).Some? {
        ChildAgree(t, t', pg, level, n - 1);
        OrderFrame(t, t', Child(t, pg, n - 1).value, level - 1);
      }
    }
  }

  lemma {:induction false} ShapeFrame(t: Tables, t': Tables, pg: nat, level: nat)
    requires Agree(t, t', Order(t, pg, level)) && Shaped(t, pg, level)
    ensures Shaped(t', pg, level) && (LeafFree(t', pg, level) <==> LeafFree(t, pg, level))
    decreases level
  {
    hide Agree, Order;
    RootAgrees(t, t', pg, level);
    forall i | 0 <= i < ENTRIES && t[pg][i].v
      ensures EntryShaped(t', t[pg][i], level)
      ensures (level > 0 ==> (LeafFree(t', t[pg][i].ppn, level - 1) <==> LeafFree(t, t[pg][i].ppn, level - 1)))
    {
      assert EntryShaped(t, t[pg][i], level);
      if level > 0 {
        assert Child(t, pg, i) == Some(t[pg][i].ppn);
        ChildAgree(t, t', pg, level, i);
        ShapeFrame(t, t', t[pg][i].ppn, level - 1);
      }
    }
  }

  // The pages below entry i: among themselves once, none freed before, none the table itself.
  lemma ChildApart(t: Tables, pg: nat, level: nat, i: nat)
    requires level > 0 && i < ENTRIES && Child(t, pg, i).Some? && Distinct(Order(t, pg, level))
    ensures Distinct(Order(t, Child(t, pg, i).value, level - 1))
    ensures pg !in Order(t, Child(t, pg, i).value, level - 1)
    ensures forall x :: x in Order(t, Child(t, pg, i).value, level - 1) ==> x !in Kids(t, pg, level, i)
  {
    hide Kids;
    ChildSlice(t, pg, level, i);
    var c, whole, kids := Order(t, Child(t, pg, i).value, level - 1), Order(t, pg, level), Kids(t, pg, level, i);
    KidsPrefix(t, pg, level, i + 1, ENTRIES);
    assert whole[|whole| - 1] == pg && |kids| + |c| < |whole|;
    assert forall k :: 0 <= k < |c| ==> whole[|kids| + k] == c[k];
    assert forall k :: 0 <= k < |kids| ==> whole[k] == kids[k];
    forall x | x in c ensures x != pg && x !in kids {
      var k :| 0 <= k < |c| && c[k] == x;
      assert whole[|kids| + k] == x;
    }
  }

  lemma TreeIsShaped(t: Tables, root: nat)
    requires Tree(t, root)
    ensures Shaped(t, root, 2)
  {
    hide PageAt;
    assert IsTable(t, root, Root) by {
      RootPage(t, root);
    }
    forall i | 0 <= i < ENTRIES && t[root][i].v ensures EntryShaped(t, t[root][i], 2) {
      assert EntryOk(Root, t[root][i]);
      MidPage(t, root, i);
      var m := t[root][i].ppn;
      assert IsTable(t, m, Mid(i));
      forall j | 0 <= j < ENTRIES && t[m][j].v ensures EntryShaped(t, t[m][j], 1) {
        assert EntryOk(Mid(i), t[m][j]);
        LowPage(t, root, i, j);
        assert IsTable(t, t[m][j].ppn, Low(i, j));
      }
    }
  }

  lemma RootPage(t: Tables, root: nat)
    ensures PageAt(t, root, Root) == Some(root) && InRange(Root)
  {
  }

  lemma MidPage(t: Tables, root: nat, i: nat)
    requires root in t && i < |t[root]| && t[root][i].v && i < ENTRIES
    ensures PageAt(t, root, Mid(i)) == Some(t[root][i].ppn) && InRange(Mid(i))
  {
  }

  lemma LowPage(t: Tables, root: nat, i: nat, j: nat)
    requires PageAt(t, root, Mid(i)).Some? && PageAt(t, root, Mid(i)).value in t && i < ENTRIES && j < ENTRIES
    requires j < |t[PageAt(t, root, Mid(i)).value]| && t[PageAt(t, root, Mid(i)).value][j].v
    ensures PageAt(t, root, Low(i, j)) == Some(t[PageAt(t, root, Mid(i)).value][j].ppn) && InRange(Low(i, j))
  {
  }

  // freewalk meets no leaf exactly when no leaf is left.
  lemma LeafFreeIsNoLeaf(t: Tables, root: nat)
    requires Tree(t, root)
    ensures LeafFree(t, root, 2) <==> NoLeaf(t, root)
  {
    if NoLeaf(t, root) {
      TreeIsLeafFree(t, root);
    }
    if LeafFree(t, root, 2) {
      forall q, k | InRange(q) && q.Low? && PageAt(t, root, q).Some? && 0 <= k < ENTRIES
        ensures !EntryAt(t, PageAt(t, root, q).value, k).v
      {
        var m := Child(t, root, q.i).value;
        assert LeafFree(t, m, 1);
        assert LeafFree(t, t[m][q.j].ppn, 0);
      }
    }
  }
}
