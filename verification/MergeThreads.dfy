/**
  The distributed merge sort of partB.c: a tree of threads, each of which sorts
  its part of the shared array with qsort or waits for two threads that sort the
  halves and then merges them.  Threads at different nodes step in any order.
 */
module MergeThreads {
  import opened SortSpec
  import opened MergeSort

  // A thread and the threads it has created.
  datatype Tree =
    | Ready                                  // created, not yet running
    | Sorting(was: seq<File>)                // in qsort, which was given these files
    | Forked(l: Tree, r: Tree)               // in pthread_join
    | Merging(temp: seq<File>, k: nat)       // in merge, k files copied back
    | Finished

  // The part of the array a thread works on, its level, and the level at which threads stop forking.
  datatype Part = Part(s: nat, e: nat, level: nat, max: nat)

  function Mid(p: Part): nat { (p.s + p.e) / 2 }

  function Left(p: Part): (q: Part)
    requires p.s < p.e
    ensures q.s <= q.e < p.e
  {
    Part(p.s, Mid(p), p.level + 1, p.max)
  }

  function Right(p: Part): (q: Part)
    requires p.s < p.e
    ensures p.s < q.s <= q.e
  {
    Part(Mid(p) + 1, p.e, p.level + 1, p.max)
  }

  function Slice(f: seq<File>, p: Part): seq<File>
    requires p.s <= p.e < |f|
  {
    f[p.s..p.e + 1]
  }

  ghost predicate SortedPermutation(out: seq<File>, fs: seq<File>, key: Key)
  {
    Sorted(out, key) && multiset(out) == multiset(fs)
  }

  // One step of one thread of the tree, from array f to f'.
  ghost predicate Next(t: Tree, f: seq<File>, t': Tree, f': seq<File>, p: Part, key: Key)
    requires p.s <= p.e < |f|
  {
    match t
    case Ready =>
      && f' == f
      && t' == if p.s == p.e then Finished else if p.level < p.max then Forked(Ready, Ready) else Sorting(Slice(f, p))
    case Sorting(was) =>
      // qsort moves files about in its part, and leaves them sorted
      SameOutside(f, f', p.s, p.e) && (t' == t || (t'.Finished? && SortedPermutation(Slice(f', p), was, key)))
    case Forked(l, r) =>
      && p.s < p.e
      && (|| (t'.Forked? && t'.r == r && Next(l, f, t'.l, f', Left(p), key))
          || (t'.Forked? && t'.l == l && Next(r, f, t'.r, f', Right(p), key))
          || (&& l.Finished? && r.Finished? && f' == f
              && t' == Merging(Merged(Slice(f, Left(p)), Slice(f, Right(p)), key), 0)))
    case Merging(temp, k) =>
      && k < |temp| && p.s + k < |f| && f' == f[p.s + k := temp[k]]
      && t' == if k + 1 == |temp| then Finished else Merging(temp, k + 1)
    case Finished => false
  }

  // Where the threads below a node are, given the array o they started from.
  ghost predicate Inv(t: Tree, f: seq<File>, o: seq<File>, p: Part, key: Key)
    requires p.s <= p.e < |f| == |o|
  {
    match t
    case Ready => Slice(f, p) == Slice(o, p)
    case Sorting(was) => was == Slice(o, p)
    case Forked(l, r) => p.s < p.e && Inv(l, f, o, Left(p), key) && Inv(r, f, o, Right(p), key)
    case Merging(temp, k) =>
      && |temp| == p.e - p.s + 1 && k < |temp| && SortedPermutation(temp, Slice(o, p), key)
      && f[p.s..p.s + k] == temp[..k]
    case Finished => SortedPermutation(Slice(f, p), Slice(o, p), key)
  }

  // A thread changes nothing outside its part.
  lemma {:induction false} OwnPart(t: Tree, f: seq<File>, t': Tree, f': seq<File>, p: Part, key: Key)
    requires p.s <= p.e < |f| && Next(t, f, t', f', p, key)
    requires t.Merging? ==> p.s + t.k <= p.e
    requires t.Forked? ==> Room(t, p)
    ensures SameOutside(f, f', p.s, p.e)
    decreases t
  {
    match t
    case Forked(l, r) =>
      if t'.Forked? && t'.r == r && Next(l, f, t'.l, f', Left(p), key) {
        OwnPart(l, f, t'.l, f', Left(p), key);
        Outside(f, f', Left(p), p);
      } else if t'.Forked? && t'.l == l && Next(r, f, t'.r, f', Right(p), key) {
        OwnPart(r, f, t'.r, f', Right(p), key);
        Outside(f, f', Right(p), p);
      }
    case _ =>
  }

  // Every merge copies back into its own part.
  ghost predicate Room(t: Tree, p: Part)
  {
    match t
    case Forked(l, r) => p.s < p.e && Room(l, Left(p)) && Room(r, Right(p))
    case Merging(temp, k) => p.s + k <= p.e
    case _ => true
  }

  lemma {:induction false} HasRoom(t: Tree, f: seq<File>, o: seq<File>, p: Part, key: Key)
    requires p.s <= p.e < |f| == |o| && Inv(t, f, o, p, key)
    ensures Room(t, p)
    decreases t
  {
    match t
    case Forked(l, r) =>
      HasRoom(l, f, o, Left(p), key);
      HasRoom(r, f, o, Right(p), key);
    case _ =>
  }

  lemma Outside(f: seq<File>, f': seq<File>, q: Part, p: Part)
    requires p.s <= q.s <= q.e <= p.e < |f| && SameOutside(f, f', q.s, q.e)
    ensures SameOutside(f, f', p.s, p.e)
  {
    assert f'[..p.s] == f'[..q.s][..p.s] && f[..p.s] == f[..q.s][..p.s];
    assert f'[p.e + 1..] == f'[q.e + 1..][p.e - q.e..] && f[p.e + 1..] == f[q.e + 1..][p.e - q.e..];
  }

  // The invariant of a part depends on that part of the array only.
  lemma {:induction false} OtherPart(t: Tree, f: seq<File>, f': seq<File>, o: seq<File>, p: Part, key: Key)
    requires p.s <= p.e < |f| == |f'| == |o| && Slice(f', p) == Slice(f, p) && Inv(t, f, o, p, key)
    ensures Inv(t, f', o, p, key)
    decreases t
  {
    match t
    case Forked(l, r) =>
      Inside(f, f', p, Left(p));
      Inside(f, f', p, Right(p));
      OtherPart(l, f, f', o, Left(p), key);
      OtherPart(r, f, f', o, Right(p), key);
    case Merging(temp, k) =>
      assert f'[p.s..p.s + k] == Slice(f', p)[..k] && f[p.s..p.s + k] == Slice(f, p)[..k];
    case _ =>
  }

  lemma Inside(f: seq<File>, f': seq<File>, p: Part, q: Part)
    requires p.s <= q.s <= q.e <= p.e < |f| == |f'| && Slice(f', p) == Slice(f, p)
    ensures Slice(f', q) == Slice(f, q)
  {
    forall i | q.s <= i <= q.e ensures f'[i] == f[i] {
      assert f'[i] == Slice(f', p)[i - p.s] && f[i] == Slice(f, p)[i - p.s];
    }
  }

  // A step in one half leaves the other half as it was.
  lemma HalvesApart(f: seq<File>, f': seq<File>, p: Part)
    requires p.s < p.e < |f|
    ensures SameOutside(f, f', p.s, Mid(p)) ==> Slice(f', Right(p)) == Slice(f, Right(p))
    ensures SameOutside(f, f', Mid(p) + 1, p.e) ==> Slice(f', Left(p)) == Slice(f, Left(p))
  {
    var m := Mid(p);
    if SameOutside(f, f', p.s, m) {
      assert f'[m + 1..p.e + 1] == f'[m + 1..][..p.e - m] && f[m + 1..p.e + 1] == f[m + 1..][..p.e - m];
    }
    if SameOutside(f, f', m + 1, p.e) {
      assert f'[p.s..m + 1] == f'[..m + 1][p.s..] && f[p.s..m + 1] == f[..m + 1][p.s..];
    }
  }

  lemma {:induction false} MergedMultiset(x: seq<File>, y: seq<File>, key: Key)
    ensures multiset(Merged(x, y, key)) == multiset(x) + multiset(y)
    decreases |x| + |y|
  {
    hide Merged;
    if x == [] || y == [] {
      MergedRest(x, y, key);
    } else if key(x[0]) <= key(y[0]) {
      MergedLeft(x, y, key);
      MergedMultiset(x[1..], y, key);
      HeadAndRest(x);
    } else {
      MergedRight(x, y, key);
      MergedMultiset(x, y[1..], key);
      HeadAndRest(y);
    }
  }

  lemma HeadAndRest(x: seq<File>)
    requires x != []
    ensures multiset(x) == multiset([x[0]]) + multiset(x[1..])
  {
    assert x == [x[0]] + x[1..];
  }

  // Both halves are sorted: merge prepares a sorted permutation of the whole.
  lemma MergeStarts(f: seq<File>, o: seq<File>, p: Part, key: Key)
    requires p.s < p.e < |f| == |o|
    requires SortedPermutation(Slice(f, Left(p)), Slice(o, Left(p)), key)
    requires SortedPermutation(Slice(f, Right(p)), Slice(o, Right(p)), key)
    ensures var temp := Merged(Slice(f, Left(p)), Slice(f, Right(p)), key);
      |temp| == p.e - p.s + 1 && SortedPermutation(temp, Slice(o, p), key)
  {
    var x, y := Slice(f, Left(p)), Slice(f, Right(p));
    MergedLength(x, y, key);
    MergedSorted(x, y, key);
    MergedMultiset(x, y, key);
    assert Slice(o, p) == Slice(o, Left(p)) + Slice(o, Right(p));
  }

  // Every step of every thread keeps the invariant.
  lemma {:induction false} StepKeeps(t: Tree, f: seq<File>, t': Tree, f': seq<File>, o: seq<File>, p: Part, key: Key)
    requires p.s <= p.e < |f| == |o| && Inv(t, f, o, p, key) && Next(t, f, t', f', p, key)
    ensures SameOutside(f, f', p.s, p.e) && Inv(t', f', o, p, key)
    decreases t
  {
    hide SortedPermutation, Merged;
    HasRoom(t, f, o, p, key);
    OwnPart(t, f, t', f', p, key);
    match t
    case Ready =>
      if p.s == p.e {
        OneIsSorted(Slice(f, p), key);
      } else {
        Inside(o, f, p, Left(p));
        Inside(o, f, p, Right(p));
      }
    case Sorting(was) =>
    case Forked(l, r) => ForkedKeeps(t, f, t', f', o, p, key);
    case Merging(temp, k) =>
      assert f'[p.s..p.s + k + 1] == f[p.s..p.s + k] + [temp[k]];
      assert temp[..k + 1] == temp[..k] + [temp[k]];
      if k + 1 == |temp| {
        assert Slice(f', p) == temp[..k + 1] == temp;
      }
  }

  lemma OneIsSorted(fs: seq<File>, key: Key)
    requires |fs| == 1
    ensures SortedPermutation(fs, fs, key)
  {
  }

  lemma {:induction false} ForkedKeeps(t: Tree, f: seq<File>, t': Tree, f': seq<File>, o: seq<File>, p: Part, key: Key)
    requires p.s <= p.e < |f| == |o| && t.Forked? && Inv(t, f, o, p, key) && Next(t, f, t', f', p, key)
    ensures |f'| == |f| && Inv(t', f', o, p, key)
    decreases t, 0
  {
    hide SortedPermutation, Merged;
    HalvesApart(f, f', p);
    if t'.Forked? && t'.r == t.r && Next(t.l, f, t'.l, f', Left(p), key) {
      StepKeeps(t.l, f, t'.l, f', o, Left(p), key);
      OtherPart(t.r, f, f', o, Right(p), key);
    } else if t'.Forked? && t'.l == t.l && Next(t.r, f, t'.r, f', Right(p), key) {
      StepKeeps(t.r, f, t'.r, f', o, Right(p), key);
      OtherPart(t.l, f, f', o, Left(p), key);
    } else {
      MergeStarts(f, o, p, key);
      assert f[p.s..p.s + 0] == t'.temp[..0];
    }
  }

  // ----- every run -----

  // lazy_sort's call: one thread for the whole array, at level 0.
  ghost predicate IsRun(ts: seq<Tree>, fs: seq<seq<File>>, max: nat, key: Key)
  {
    && |ts| == |fs| > 0 && fs[0] != [] && ts[0] == Ready
    && (forall i :: 0 <= i < |fs| ==> |fs[i]| == |fs[0]|)
    && (forall i :: 0 <= i < |ts| - 1 ==>
          Next(ts[i], fs[i], ts[i + 1], fs[i + 1], Part(0, |fs[0]| - 1, 0, max), key))
  }

  lemma {:induction false} RunInv(ts: seq<Tree>, fs: seq<seq<File>>, max: nat, key: Key, k: nat)
    requires IsRun(ts, fs, max, key) && k < |ts|
    ensures |fs[k]| == |fs[0]| && Inv(ts[k], fs[k], fs[0], Part(0, |fs[0]| - 1, 0, max), key)
  {
    hide Inv, Next;
    if k == 0 {
      Started(fs[0], Part(0, |fs[0]| - 1, 0, max), key);
    } else {
      RunInv(ts, fs, max, key, k - 1);
      StepKeeps(ts[k - 1], fs[k - 1], ts[k], fs[k], fs[0], Part(0, |fs[0]| - 1, 0, max), key);
    }
  }

  lemma Started(o: seq<File>, p: Part, key: Key)
    requires p.s <= p.e < |o|
    ensures Inv(Ready, o, o, p, key)
  {
  }

  // Whatever the interleaving, when the first thread is done the array is a sorted permutation.
  lemma ThreadsSort(ts: seq<Tree>, fs: seq<seq<File>>, max: nat, key: Key, k: nat)
    requires IsRun(ts, fs, max, key) && k < |ts| && ts[k].Finished?
    ensures Sorted(fs[k], key) && multiset(fs[k]) == multiset(fs[0])
  {
    RunInv(ts, fs, max, key, k);
    assert fs[k][0..|fs[0]|] == fs[k] && fs[0][0..|fs[0]|] == fs[0];
  }
}
