/**
  The non-distributed merge sort of partB.c, in place on the file array.
 */
module MergeSort {
  import opened SortSpec

  // What merge produces from two runs; the left one wins ties.
  function Merged(x: seq<File>, y: seq<File>, key: Key): seq<File>
    decreases |x| + |y|
  {
    if x == [] then y
    else if y == [] then x
    else if key(x[0]) <= key(y[0]) then [x[0]] + Merged(x[1..], y, key)
    else [y[0]] + Merged(x, y[1..], key)
  }

  lemma {:induction false} MergedLength(x: seq<File>, y: seq<File>, key: Key)
    ensures |Merged(x, y, key)| == |x| + |y|
    decreases |x| + |y|
  {
    if x != [] && y != [] {
      if key(x[0]) <= key(y[0]) {
        MergedLength(x[1..], y, key);
      } else {
        MergedLength(x, y[1..], key);
      }
    }
  }

  lemma FilterHead(fs: seq<File>, key: Key, v: int)
    requires fs != []
    ensures Filter(fs, key, v) == (if key(fs[0]) == v then [fs[0]] else []) + Filter(fs[1..], key, v)
  {
  }

  lemma FilterBefore(f: File, fs: seq<File>, key: Key, v: int)
    ensures Filter([f] + fs, key, v) == (if key(f) == v then [f] else []) + Filter(fs, key, v)
  {
    assert ([f] + fs)[1..] == fs;
  }

  // A sorted run that starts above v has nothing with key v.
  lemma FilterAbove(fs: seq<File>, key: Key, v: int)
    requires Sorted(fs, key) && fs != [] && v < key(fs[0])
    ensures Filter(fs, key, v) == []
  {
    FilterNone(fs, key, v);
  }

  // Stability: for each key, first the left run's files, then the right run's.
  lemma {:induction false} MergedFilter(x: seq<File>, y: seq<File>, key: Key, v: int)
    requires Sorted(x, key)
    ensures Filter(Merged(x, y, key), key, v) == Filter(x, key, v) + Filter(y, key, v)
    decreases |x| + |y|
  {
    hide Filter, Merged, Sorted;
    if x == [] || y == [] {
      MergedRest(x, y, key);
      FilterConcat(x, y, key, v);
    } else if key(x[0]) <= key(y[0]) {
      MergedLeft(x, y, key);
      FilterBefore(x[0], Merged(x[1..], y, key), key, v);
      FilterHead(x, key, v);
      SortedRest(x, key);
      MergedFilter(x[1..], y, key, v);
      Associative(if key(x[0]) == v then [x[0]] else [], Filter(x[1..], key, v), Filter(y, key, v));
    } else {
      MergedRight(x, y, key);
      FilterBefore(y[0], Merged(x, y[1..], key), key, v);
      FilterHead(y, key, v);
      MergedFilter(x, y[1..], key, v);
      if key(y[0]) == v {
        FilterAbove(x, key, v);
      }
      Empty(Filter(x, key, v), Filter(y[1..], key, v), y[0]);
    }
  }

  lemma SortedRest(x: seq<File>, key: Key)
    requires Sorted(x, key) && x != []
    ensures Sorted(x[1..], key)
  {
  }

  lemma Empty(a: seq<File>, b: seq<File>, f: File)
    ensures [] + (a + b) == a + ([] + b)
    ensures a == [] ==> [f] + (a + b) == a + ([f] + b)
  {
  }

  lemma MergedLeft(x: seq<File>, y: seq<File>, key: Key)
    requires x != [] && y != [] && key(x[0]) <= key(y[0])
    ensures Merged(x, y, key) == [x[0]] + Merged(x[1..], y, key)
  {
  }

  lemma MergedRight(x: seq<File>, y: seq<File>, key: Key)
    requires x != [] && y != [] && key(x[0]) > key(y[0])
    ensures Merged(x, y, key) == [y[0]] + Merged(x, y[1..], key)
  {
  }

  lemma MergedRest(x: seq<File>, y: seq<File>, key: Key)
    requires x == [] || y == []
    ensures Merged(x, y, key) == x + y
  {
  }

  // Nothing in the merge is below what both runs start with.
  lemma {:induction false} MergedAbove(x: seq<File>, y: seq<File>, key: Key, v: int)
    requires (forall i :: 0 <= i < |x| ==> v <= key(x[i])) && (forall i :: 0 <= i < |y| ==> v <= key(y[i]))
    ensures forall i :: 0 <= i < |Merged(x, y, key)| ==> v <= key(Merged(x, y, key)[i])
    decreases |x| + |y|
  {
    if x != [] && y != [] {
      if key(x[0]) <= key(y[0]) {
        MergedAbove(x[1..], y, key, v);
      } else {
        MergedAbove(x, y[1..], key, v);
      }
    }
  }

  lemma {:induction false} MergedSorted(x: seq<File>, y: seq<File>, key: Key)
    requires Sorted(x, key) && Sorted(y, key)
    ensures Sorted(Merged(x, y, key), key)
    decreases |x| + |y|
  {
    if x != [] && y != [] {
      if key(x[0]) <= key(y[0]) {
        MergedSorted(x[1..], y, key);
        MergedAbove(x[1..], y, key, key(x[0]));
      } else {
        MergedSorted(x, y[1..], key);
        MergedAbove(x, y[1..], key, key(y[0]));
      }
    }
  }

  lemma MergedStable(left: seq<File>, right: seq<File>, x: seq<File>, y: seq<File>, key: Key)
    requires StablySorted(left, x, key) && StablySorted(right, y, key)
    ensures StablySorted(left + right, Merged(x, y, key), key)
  {
    MergedSorted(x, y, key);
    forall v ensures Filter(left + right, key, v) == Filter(Merged(x, y, key), key, v) {
      FilterConcat(left, right, key, v);
      MergedFilter(x, y, key, v);
      assert Filter(left, key, v) == Filter(x, key, v) && Filter(right, key, v) == Filter(y, key, v);
    }
  }

  // ----- merge and merge_sort_non_distributed -----

  // f and f' agree outside positions s to e.
  ghost predicate SameOutside(f: seq<File>, f': seq<File>, s: nat, e: nat)
  {
    |f| == |f'| && s <= e < |f| && f'[..s] == f[..s] && f'[e + 1..] == f[e + 1..]
  }

  // all is a sequence whose part from k on is m.
  ghost predicate From(all: seq<File>, k: nat, m: seq<File>)
  {
    k <= |all| && all[k..] == m
  }

  lemma TakeOne(all: seq<File>, k: nat, f: File, rest: seq<File>)
    requires From(all, k, [f] + rest)
    ensures k < |all| && all[k] == f && From(all, k + 1, rest)
  {
    assert all[k + 1..] == all[k..][1..];
  }

  // merge's temporary array.
  method MergeRuns(f: seq<File>, s: nat, e: nat, key: Key) returns (temp: seq<File>)
    requires s <= e < |f|
    ensures temp == Merged(f[s..(s + e) / 2 + 1], f[(s + e) / 2 + 1..e + 1], key)
  {
    hide Merged, From;
    var s1, s2, e1, e2 := s, (s + e) / 2 + 1, (s + e) / 2, e;
    ghost var all := Merged(f[s1..e1 + 1], f[s2..e2 + 1], key);
    Whole(all);
    temp := [];
    while s1 <= e1 && s2 <= e2
      invariant s <= s1 <= e1 + 1 <= s2 <= e2 + 1 && |temp| <= |all| && temp == all[..|temp|]
      invariant From(all, |temp|, Merged(f[s1..e1 + 1], f[s2..e2 + 1], key))
    {
      ghost var x, y := f[s1..e1 + 1], f[s2..e2 + 1];
      assert x[1..] == f[s1 + 1..e1 + 1] && y[1..] == f[s2 + 1..e2 + 1];
      if key(f[s1]) <= key(f[s2]) {
        MergedLeft(x, y, key);
        TakeOne(all, |temp|, x[0], Merged(x[1..], y, key));
        temp := temp + [f[s1]];
        s1 := s1 + 1;
      } else {
        MergedRight(x, y, key);
        TakeOne(all, |temp|, y[0], Merged(x, y[1..], key));
        temp := temp + [f[s2]];
        s2 := s2 + 1;
      }
    }
    MergedRest(f[s1..e1 + 1], f[s2..e2 + 1], key);
    temp := CopyRun(f, s1, e1 + 1, temp, all, f[s2..e2 + 1]);
    assert f[s2..e2 + 1] == f[s2..e2 + 1] + [];
    temp := CopyRun(f, s2, e2 + 1, temp, all, []);
    End(all, |temp|);
  }

  // One of merge's two last loops: what is left of a run.
  method CopyRun(f: seq<File>, a: nat, b: nat, temp0: seq<File>, ghost all: seq<File>,
                 ghost rest: seq<File>) returns (temp: seq<File>)
    requires a <= b <= |f| && |temp0| <= |all| && temp0 == all[..|temp0|] && From(all, |temp0|, f[a..b] + rest)
    ensures |temp| <= |all| && temp == all[..|temp|] && From(all, |temp|, rest)
  {
    hide From;
    var i := a;
    temp := temp0;
    while i < b
      invariant a <= i <= b && |temp| <= |all| && temp == all[..|temp|] && From(all, |temp|, f[i..b] + rest)
    {
      assert f[i..b] + rest == [f[i]] + (f[i + 1..b] + rest);
      TakeOne(all, |temp|, f[i], f[i + 1..b] + rest);
      temp := temp + [f[i]];
      i := i + 1;
    }
    assert f[i..b] + rest == rest;
  }

  lemma Whole(all: seq<File>)
    ensures From(all, 0, all)
  {
  }

  lemma End(all: seq<File>, k: nat)
    requires From(all, k, [])
    ensures k == |all| && all[..k] == all
  {
  }

  method Merge(files: array<File>, s: nat, e: nat, key: Key)
    requires s <= e < files.Length
    modifies files
    ensures SameOutside(old(files[..]), files[..], s, e)
    ensures files[..][s..e + 1] ==
      Merged(old(files[..])[s..(s + e) / 2 + 1], old(files[..])[(s + e) / 2 + 1..e + 1], key)
  {
    var temp := MergeRuns(files[..], s, e, key);
    MergedLength(files[..][s..(s + e) / 2 + 1], files[..][(s + e) / 2 + 1..e + 1], key);
    CopyBack(files, s, temp);
  }

  method CopyBack(files: array<File>, s: nat, temp: seq<File>)
    requires s + |temp| <= files.Length
    modifies files
    ensures files[..] == old(files[..])[..s] + temp + old(files[..])[s + |temp|..]
  {
    for i := 0 to |temp|
      invariant forall k :: 0 <= k < files.Length ==> files[k] == if s <= k < s + i then temp[k - s] else old(files[k])
    {
      files[s + i] := temp[i];
    }
  }

  method MergeSortNonDistributed(files: array<File>, s: nat, e: nat, key: Key)
    requires s <= e < files.Length
    modifies files
    ensures SameOutside(old(files[..]), files[..], s, e)
    ensures StablySorted(old(files[..])[s..e + 1], files[..][s..e + 1], key)
    decreases e - s
  {
    hide StablySorted, SameOutside, Merged;
    ghost var f0 := files[..];
    if s == e {
      OneFile(f0, s, key);
      return;
    }
    var mid := (s + e) / 2;
    MergeSortNonDistributed(files, s, mid, key);
    ghost var f1 := files[..];
    MergeSortNonDistributed(files, mid + 1, e, key);
    ghost var f2 := files[..];
    Merge(files, s, e, key);
    Assemble(f0, f1, f2, files[..], s, mid, e, key);
  }

  lemma OneFile(f: seq<File>, s: nat, key: Key)
    requires s < |f|
    ensures SameOutside(f, f, s, s) && StablySorted(f[s..s + 1], f[s..s + 1], key)
  {
  }

  lemma Assemble(f0: seq<File>, f1: seq<File>, f2: seq<File>, f3: seq<File>, s: nat, mid: nat, e: nat, key: Key)
    requires s <= mid < e < |f0| && mid == (s + e) / 2
    requires SameOutside(f0, f1, s, mid) && SameOutside(f1, f2, mid + 1, e) && SameOutside(f2, f3, s, e)
    requires StablySorted(f0[s..mid + 1], f1[s..mid + 1], key)
    requires StablySorted(f1[mid + 1..e + 1], f2[mid + 1..e + 1], key)
    requires f3[s..e + 1] == Merged(f2[s..mid + 1], f2[mid + 1..e + 1], key)
    ensures SameOutside(f0, f3, s, e) && StablySorted(f0[s..e + 1], f3[s..e + 1], key)
  {
    hide StablySorted, Merged;
    assert f1[mid + 1..e + 1] == f1[mid + 1..][..e - mid] == f0[mid + 1..][..e - mid] == f0[mid + 1..e + 1];
    assert f2[s..mid + 1] == f2[..mid + 1][s..] == f1[..mid + 1][s..] == f1[s..mid + 1];
    MergedStable(f0[s..mid + 1], f0[mid + 1..e + 1], f1[s..mid + 1], f2[mid + 1..e + 1], key);
    assert f0[s..mid + 1] + f0[mid + 1..e + 1] == f0[s..e + 1];
    assert f3[..s] == f2[..s] == f2[..mid + 1][..s] == f1[..mid + 1][..s] == f1[..s] == f0[..s];
    assert f3[e + 1..] == f2[e + 1..] == f1[e + 1..] == f1[mid + 1..][e - mid..] == f0[mid + 1..][e - mid..] ==
      f0[e + 1..];
  }

  // Both sequential sorts are stable, so they give the same array on every input.
  lemma SortsAgree(fs: seq<File>, counted: seq<File>, merged: seq<File>, key: Key)
    requires StablySorted(fs, counted, key) && StablySorted(fs, merged, key)
    ensures counted == merged && multiset(counted) == multiset(fs)
  {
    forall v ensures Filter(counted, key, v) == Filter(merged, key, v) {
      assert Filter(fs, key, v) == Filter(counted, key, v);
      assert Filter(fs, key, v) == Filter(merged, key, v);
    }
    StableIsUnique(counted, merged, key);
    SameByKeyPermutes(fs, counted, key);
  }
}
