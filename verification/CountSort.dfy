/**
  The count sort of partB.c: files are pushed on per-key lists by several
  threads, the non-empty lists are laid out by prefix sums, and several threads
  copy disjoint stretches of them to the output.
 */
module CountSort {
  import opened SortSpec

  type Lists = seq<seq<File>>

  // All lists one after the other, heads first.
  function Concat(L: Lists): seq<File>
  {
    if L == [] then [] else L[0] + Concat(L[1..])
  }

  function Reverse(s: seq<File>): (r: seq<File>)
    ensures |r| == |s| && forall i :: 0 <= i < |s| ==> r[i] == s[|s| - 1 - i]
  {
    if s == [] then [] else Reverse(s[1..]) + [s[0]]
  }

  // The output: each list from its tail to its head.
  function Output(L: Lists): (r: seq<File>)
    ensures |r| == |Concat(L)|
  {
    if L == [] then [] else Reverse(L[0]) + Output(L[1..])
  }

  // How many files the lists before list s hold.
  function Before(L: Lists, s: nat): nat
    requires s <= |L|
  {
    if s == 0 then 0 else Before(L, s - 1) + |L[s - 1]|
  }

  // Where element e of the concatenation goes.
  function Place(L: Lists, e: nat): (p: nat)
    requires e < |Concat(L)|
    ensures p < |Concat(L)|
  {
    if e < |L[0]| then |L[0]| - 1 - e else |L[0]| + Place(L[1..], e - |L[0]|)
  }

  lemma {:induction false} PlaceRight(L: Lists, e: nat)
    requires e < |Concat(L)|
    ensures Output(L)[Place(L, e)] == Concat(L)[e]
  {
    if e >= |L[0]| {
      PlaceRight(L[1..], e - |L[0]|);
    }
  }

  // Place is its own inverse, so every output index is the place of exactly one element.
  lemma {:induction false} PlaceTwice(L: Lists, e: nat)
    requires e < |Concat(L)|
    ensures Place(L, Place(L, e)) == e
  {
    if e >= |L[0]| {
      PlaceTwice(L[1..], e - |L[0]|);
    }
  }

  lemma {:induction false} BeforeShift(L: Lists, s: nat)
    requires 0 < s <= |L|
    ensures Before(L, s) == |L[0]| + Before(L[1..], s - 1)
  {
    if s > 1 {
      BeforeShift(L, s - 1);
      assert L[1..][s - 2] == L[s - 1];
    }
  }

  lemma {:induction false} BeforeAll(L: Lists)
    ensures Before(L, |L|) == |Concat(L)|
  {
    if L != [] {
      BeforeShift(L, |L|);
      BeforeAll(L[1..]);
    }
  }

  lemma {:induction false} BeforeMonotone(L: Lists, s: nat, r: nat)
    requires s <= r <= |L|
    ensures Before(L, s) <= Before(L, r)
  {
    if s < r {
      BeforeMonotone(L, s, r - 1);
    }
  }

  // populate_output's index for element p of list s is the right place.
  lemma {:induction false} PlaceAt(L: Lists, s: nat, p: nat)
    requires s < |L| && p < |L[s]|
    ensures Before(L, s) + p < |Concat(L)| && Concat(L)[Before(L, s) + p] == L[s][p]
    ensures Place(L, Before(L, s) + p) == Before(L, s + 1) - 1 - p
  {
    if s > 0 {
      PlaceAt(L[1..], s - 1, p);
      BeforeShift(L, s);
      BeforeShift(L, s + 1);
    }
  }

  // ----- the output is sorted -----

  // List v holds files with key min + v; empty lists may have been left out.
  ghost predicate Buckets(L: Lists, key: Key, keys: seq<int>)
  {
    && |keys| == |L| && (forall i, j :: 0 <= i < j < |keys| ==> keys[i] < keys[j])
    && (forall s, p :: 0 <= s < |L| && 0 <= p < |L[s]| ==> key(L[s][p]) == keys[s])
  }

  lemma BucketsRest(L: Lists, key: Key, keys: seq<int>)
    requires Buckets(L, key, keys) && L != []
    ensures Buckets(L[1..], key, keys[1..])
  {
    forall s, p | 0 <= s < |L[1..]| && 0 <= p < |L[1..][s]| ensures key(L[1..][s][p]) == keys[1..][s] {
      assert L[1..][s] == L[s + 1];
    }
  }

  lemma {:induction false} OutputKeys(L: Lists, key: Key, keys: seq<int>, v: int)
    requires Buckets(L, key, keys) && forall s :: 0 <= s < |keys| ==> v <= keys[s]
    ensures forall i :: 0 <= i < |Output(L)| ==> v <= key(Output(L)[i])
  {
    if L != [] {
      BucketsRest(L, key, keys);
      OutputKeys(L[1..], key, keys[1..], v);
      forall i | 0 <= i < |L[0]| ensures key(Reverse(L[0])[i]) == keys[0] {
      }
    }
  }

  lemma {:induction false} OutputSorted(L: Lists, key: Key, keys: seq<int>)
    requires Buckets(L, key, keys)
    ensures Sorted(Output(L), key)
  {
    if L != [] {
      BucketsRest(L, key, keys);
      OutputSorted(L[1..], key, keys[1..]);
      OutputKeys(L[1..], key, keys[1..], keys[0]);
      forall i | 0 <= i < |L[0]| ensures key(Reverse(L[0])[i]) == keys[0] {
      }
    }
  }

  lemma {:induction false} ReverseCount(s: seq<File>)
    ensures multiset(Reverse(s)) == multiset(s)
  {
    if s != [] {
      ReverseCount(s[1..]);
      assert s == [s[0]] + s[1..];
    }
  }

  lemma {:induction false} OutputCount(L: Lists)
    ensures multiset(Output(L)) == multiset(Concat(L))
  {
    if L != [] {
      ReverseCount(L[0]);
      OutputCount(L[1..]);
    }
  }

  // ----- counting, in any interleaving -----

  // A thread's share: elements lo up to hi.
  datatype Chunk = Chunk(lo: nat, hi: nat)

  // Where the first k shares end.
  function EndOf(cs: seq<Chunk>, k: nat): nat
    requires k <= |cs|
  {
    if k == 0 then 0 else cs[k - 1].hi
  }

  // The shares follow one another from 0 to n.
  ghost predicate Chunks(cs: seq<Chunk>, n: nat)
  {
    && (forall t :: 0 <= t < |cs| ==> EndOf(cs, t) == cs[t].lo <= cs[t].hi)
    && EndOf(cs, |cs|) == n
  }

  function Starts(cs: seq<Chunk>): seq<nat>
  {
    seq(|cs|, t requires 0 <= t < |cs| => cs[t].lo)
  }

  ghost predicate KeysWithin(files: seq<File>, key: Key, min: int, max: int)
  {
    min <= max && forall i :: 0 <= i < |files| ==> min <= key(files[i]) <= max
  }

  datatype Counting = Counting(heads: Lists, pos: seq<nat>)

  ghost predicate CountEnabled(files: seq<File>, key: Key, min: int, cs: seq<Chunk>, c: Counting, t: nat)
  {
    && |c.pos| == |cs| && t < |c.pos| && c.pos[t] < cs[t].hi <= |files|
    && 0 <= key(files[c.pos[t]]) - min < |c.heads|
  }

  // One critical section of count_local by thread t.
  ghost function CountStep(files: seq<File>, key: Key, min: int, cs: seq<Chunk>, c: Counting, t: nat): Counting
    requires CountEnabled(files, key, min, cs, c, t)
  {
    var f := files[c.pos[t]];
    var v := key(f) - min;
    Counting(c.heads[v := [f] + c.heads[v]], c.pos[t := c.pos[t] + 1])
  }

  function Count(s: seq<File>, x: File): nat
  {
    multiset(s)[x]
  }

  lemma CountConcat(a: seq<File>, b: seq<File>, x: File)
    ensures Count(a + b, x) == Count(a, x) + Count(b, x)
  {
  }

  // How often x is among the files counted so far by the first k threads.
  function Counted(files: seq<File>, cs: seq<Chunk>, pos: seq<nat>, k: nat, x: File): nat
    requires k <= |pos| && k <= |cs| && forall t :: 0 <= t < k ==> cs[t].lo <= pos[t] <= |files|
  {
    if k == 0 then 0 else Counted(files, cs, pos, k - 1, x) + Count(files[cs[k - 1].lo..pos[k - 1]], x)
  }

  ghost predicate CountInv(files: seq<File>, key: Key, min: int, max: int, cs: seq<Chunk>, c: Counting)
  {
    && |c.heads| == max - min + 1 && |c.pos| == |cs|
    && (forall t :: 0 <= t < |c.pos| ==> cs[t].lo <= c.pos[t] <= cs[t].hi <= |files|)
    && (forall v, p :: 0 <= v < |c.heads| && 0 <= p < |c.heads[v]| ==> key(c.heads[v][p]) == min + v)
    && (forall x :: Count(Concat(c.heads), x) == Counted(files, cs, c.pos, |c.pos|, x))
  }

  lemma {:induction false} PushCount(L: Lists, v: nat, f: File, x: File)
    requires v < |L|
    ensures Count(Concat(L[v := [f] + L[v]]), x) == Count(Concat(L), x) + if x == f then 1 else 0
  {
    hide Count;
    var L' := L[v := [f] + L[v]];
    CountConcat(L[0], Concat(L[1..]), x);
    CountConcat(L'[0], Concat(L'[1..]), x);
    if v == 0 {
      assert L'[1..] == L[1..];
      CountConcat([f], L[0], x);
      CountOne(f, x);
    } else {
      assert L'[1..] == L[1..][v - 1 := [f] + L[1..][v - 1]];
      PushCount(L[1..], v - 1, f, x);
    }
  }

  lemma CountOne(f: File, x: File)
    ensures Count([f], x) == if x == f then 1 else 0
  {
  }

  lemma {:induction false} CountedMore(files: seq<File>, cs: seq<Chunk>, pos: seq<nat>, pos': seq<nat>, t: nat, k: nat,
                                       x: File)
    requires t < |pos| && k <= |pos| <= |cs| && (forall u :: 0 <= u < |pos| ==> cs[u].lo <= pos[u] <= |files|)
    requires pos[t] < |files|
    requires pos' == pos[t := pos[t] + 1]
    ensures Counted(files, cs, pos', k, x) == Counted(files, cs, pos, k, x) + if t < k && x == files[pos[t]] then 1
      else 0
  {
    hide Count;
    if k > 0 {
      CountedMore(files, cs, pos, pos', t, k - 1, x);
      if t == k - 1 {
        assert files[cs[t].lo..pos[t] + 1] == files[cs[t].lo..pos[t]] + [files[pos[t]]];
        CountConcat(files[cs[t].lo..pos[t]], [files[pos[t]]], x);
        CountOne(files[pos[t]], x);
      }
    }
  }

  lemma CountKeeps(files: seq<File>, key: Key, min: int, max: int, cs: seq<Chunk>, c: Counting, t: nat)
    requires CountInv(files, key, min, max, cs, c) && CountEnabled(files, key, min, cs, c, t)
    ensures CountInv(files, key, min, max, cs, CountStep(files, key, min, cs, c, t))
  {
    hide Concat, Counted, Count;
    var f, c' := files[c.pos[t]], CountStep(files, key, min, cs, c, t);
    forall x ensures Count(Concat(c'.heads), x) == Counted(files, cs, c'.pos, |c'.pos|, x) {
      PushCount(c.heads, key(f) - min, f, x);
      CountedMore(files, cs, c.pos, c'.pos, t, |c.pos|, x);
    }
  }

  lemma {:induction false} CountedAll(files: seq<File>, cs: seq<Chunk>, pos: seq<nat>, k: nat, x: File)
    requires Chunks(cs, |files|) && k <= |pos| == |cs| && (forall t :: 0 <= t < |pos| ==> pos[t] == cs[t].hi <= |files|)
    ensures EndOf(cs, k) <= |files| && Counted(files, cs, pos, k, x) == Count(files[..EndOf(cs, k)], x)
  {
    if k == 0 {
      assert files[..0] == [];
    }
    if k > 0 {
      CountedAll(files, cs, pos, k - 1, x);
      assert EndOf(cs, k - 1) == cs[k - 1].lo;
      assert files[..cs[k - 1].hi] == files[..cs[k - 1].lo] + files[cs[k - 1].lo..cs[k - 1].hi];
      CountConcat(files[..cs[k - 1].lo], files[cs[k - 1].lo..cs[k - 1].hi], x);
      hide Count;
    }
  }

  // A schedule: which thread enters its next critical section.
  ghost predicate CountRun(files: seq<File>, key: Key, min: int, max: int, cs: seq<Chunk>, run: seq<Counting>,
                           sched: seq<nat>)
  {
    && |run| == |sched| + 1
    && min <= max && run[0] == Counting(NoLists(max - min + 1), Starts(cs))
    && (forall i :: 0 <= i < |sched| ==>
          && CountEnabled(files, key, min, cs, run[i], sched[i])
          && run[i + 1] == CountStep(files, key, min, cs, run[i], sched[i]))
  }

  function NoLists(n: nat): Lists
  {
    seq(n, _ => [])
  }

  lemma {:induction false} NoFiles(n: nat)
    ensures Concat(NoLists(n)) == []
  {
    if n > 0 {
      assert NoLists(n)[1..] == NoLists(n - 1);
      NoFiles(n - 1);
    }
  }

  lemma {:induction false} NothingCounted(files: seq<File>, cs: seq<Chunk>, pos: seq<nat>, k: nat, x: File)
    requires k <= |pos| && k <= |cs| && forall t :: 0 <= t < |pos| && t < |cs| ==> cs[t].lo == pos[t] <= |files|
    ensures Counted(files, cs, pos, k, x) == 0
  {
    if k > 0 {
      NothingCounted(files, cs, pos, k - 1, x);
    }
  }

  lemma CountStart(files: seq<File>, key: Key, min: int, max: int, cs: seq<Chunk>)
    requires Chunks(cs, |files|) && min <= max
    ensures CountInv(files, key, min, max, cs, Counting(NoLists(max - min + 1), Starts(cs)))
  {
    hide Counted, Concat, Count, Chunks;
    ChunksWithin(cs, |files|);
    NoFiles(max - min + 1);
    var c := Counting(NoLists(max - min + 1), Starts(cs));
    forall x ensures Count(Concat(c.heads), x) == Counted(files, cs, c.pos, |c.pos|, x) {
      NothingCounted(files, cs, c.pos, |c.pos|, x);
      CountEmpty(x);
    }
    assert forall v :: 0 <= v < |c.heads| ==> c.heads[v] == [];
  }

  lemma CountEmpty(x: File)
    ensures Count([], x) == 0
  {
  }

  lemma {:induction false} CountRunInv(files: seq<File>, key: Key, min: int, max: int, cs: seq<Chunk>,
                                       run: seq<Counting>, sched: seq<nat>, k: nat)
    requires Chunks(cs, |files|) && CountRun(files, key, min, max, cs, run, sched) && k < |run|
    ensures CountInv(files, key, min, max, cs, run[k])
  {
    hide Counted, Count, Concat, CountStep, CountInv;
    if k == 0 {
      CountStart(files, key, min, max, cs);
    } else {
      CountRunInv(files, key, min, max, cs, run, sched, k - 1);
      CountKeeps(files, key, min, max, cs, run[k - 1], sched[k - 1]);
    }
  }

  lemma {:induction false} ChunkWithin(cs: seq<Chunk>, n: nat, t: nat)
    requires Chunks(cs, n) && t < |cs|
    ensures cs[t].hi <= n
    decreases |cs| - t
  {
    if t < |cs| - 1 {
      assert EndOf(cs, t + 1) == cs[t + 1].lo;
      ChunkWithin(cs, n, t + 1);
    }
  }

  lemma ChunksWithin(cs: seq<Chunk>, n: nat)
    requires Chunks(cs, n)
    ensures forall t :: 0 <= t < |cs| ==> cs[t].lo <= cs[t].hi <= n
  {
    forall t | 0 <= t < |cs| ensures cs[t].lo <= cs[t].hi <= n {
      assert EndOf(cs, t) == cs[t].lo;
      ChunkWithin(cs, n, t);
    }
  }

  // ----- the non-empty lists -----

  function Compressed(L: Lists): Lists
  {
    if L == [] then [] else Compressed(L[..|L| - 1]) + if L[|L| - 1] == [] then [] else [L[|L| - 1]]
  }

  lemma {:induction false} ConcatSnoc(L: Lists, x: seq<File>)
    ensures Concat(L + [x]) == Concat(L) + x && Output(L + [x]) == Output(L) + Reverse(x)
  {
    if L == [] {
      assert L + [x] == [x] && [x][1..] == [];
    } else {
      assert (L + [x])[1..] == L[1..] + [x];
      ConcatSnoc(L[1..], x);
    }
  }

  lemma {:induction false} CompressedConcat(L: Lists)
    ensures Concat(Compressed(L)) == Concat(L) && Output(Compressed(L)) == Output(L)
    ensures forall i :: 0 <= i < |Compressed(L)| ==> Compressed(L)[i] != []
  {
    if L != [] {
      var last := L[|L| - 1];
      assert L == L[..|L| - 1] + [last];
      CompressedConcat(L[..|L| - 1]);
      ConcatSnoc(L[..|L| - 1], last);
      if last == [] {
        assert Compressed(L) == Compressed(L[..|L| - 1]);
      } else {
        ConcatSnoc(Compressed(L[..|L| - 1]), last);
      }
    }
  }

  // ----- copying, in any interleaving -----

  datatype Copying = Copying(output: seq<File>, pos: seq<nat>)

  predicate CopyEnabled(L: Lists, cs: seq<Chunk>, c: Copying, t: nat)
  {
    && |c.pos| == |cs| && t < |c.pos| && c.pos[t] < cs[t].hi <= |Concat(L)| == |c.output|
  }

  // Thread t stores its next element.
  function CopyStep(L: Lists, cs: seq<Chunk>, c: Copying, t: nat): Copying
    requires CopyEnabled(L, cs, c, t)
  {
    Copying(c.output[Place(L, c.pos[t]) := Concat(L)[c.pos[t]]], c.pos[t := c.pos[t] + 1])
  }

  ghost predicate CopyInv(L: Lists, cs: seq<Chunk>, c: Copying)
  {
    && |c.pos| == |cs| && |c.output| == |Concat(L)|
    && (forall t :: 0 <= t < |c.pos| ==> cs[t].lo <= c.pos[t] <= cs[t].hi <= |Concat(L)|)
    && (forall t, e :: 0 <= t < |c.pos| && cs[t].lo <= e < c.pos[t] ==> c.output[Place(L, e)] == Output(L)[Place(L, e)])
  }

  ghost predicate CopyRun(L: Lists, cs: seq<Chunk>, run: seq<Copying>, sched: seq<nat>)
  {
    && |run| == |sched| + 1
    && |run[0].output| == |Concat(L)| && run[0].pos == Starts(cs)
    && (forall i :: 0 <= i < |sched| ==>
          CopyEnabled(L, cs, run[i], sched[i]) && run[i + 1] == CopyStep(L, cs, run[i], sched[i]))
  }

  lemma {:induction false} CopyRunInv(L: Lists, cs: seq<Chunk>, run: seq<Copying>, sched: seq<nat>, k: nat)
    requires Chunks(cs, |Concat(L)|) && CopyRun(L, cs, run, sched) && k < |run|
    ensures CopyInv(L, cs, run[k])
  {
    hide Concat, Place, Output, CopyStep;
    if k == 0 {
      ChunksWithin(cs, |Concat(L)|);
    } else {
      CopyRunInv(L, cs, run, sched, k - 1);
      CopyKeeps(L, cs, run[k - 1], sched[k - 1]);
    }
  }

  lemma CopyKeeps(L: Lists, cs: seq<Chunk>, c: Copying, t: nat)
    requires CopyInv(L, cs, c) && CopyEnabled(L, cs, c, t)
    ensures CopyInv(L, cs, CopyStep(L, cs, c, t))
  {
    hide Concat, Place, Output;
    PlaceRight(L, c.pos[t]);
  }

  lemma {:induction false} SomeChunk(cs: seq<Chunk>, n: nat, e: nat, k: nat) returns (t: nat)
    requires Chunks(cs, n) && k <= |cs| && e < EndOf(cs, k)
    ensures t < k && cs[t].lo <= e < cs[t].hi
  {
    if cs[k - 1].lo <= e {
      t := k - 1;
    } else {
      assert EndOf(cs, k - 1) == cs[k - 1].lo;
      t := SomeChunk(cs, n, e, k - 1);
    }
  }

  // Whatever the interleaving, when all threads are done the output is complete and right.
  lemma CopyDone(L: Lists, cs: seq<Chunk>, c: Copying)
    requires Chunks(cs, |Concat(L)|) && CopyInv(L, cs, c) && forall t :: 0 <= t < |c.pos| ==> c.pos[t] == cs[t].hi
    ensures c.output == Output(L)
  {
    forall x | 0 <= x < |c.output| ensures c.output[x] == Output(L)[x] {
      var e := Place(L, x);
      PlaceTwice(L, x);
      var t := SomeChunk(cs, |Concat(L)|, e, |cs|);
    }
  }

  // The stores of the threads go to different indices.
  lemma {:induction false} WrittenOnce(L: Lists, e: nat, e': nat)
    requires e < |Concat(L)| && e' < |Concat(L)| && e != e'
    ensures Place(L, e) != Place(L, e')
  {
    PlaceTwice(L, e);
    PlaceTwice(L, e');
  }

  // distributed_count_sort: for every interleaving of the critical sections and of the stores,
  // the result is a sorted permutation of the files.
  lemma ParallelCountSort(files: seq<File>, key: Key, min: int, max: int, cs: seq<Chunk>,
                          counts: seq<Counting>, sched: seq<nat>, copies: seq<Copying>, sched': seq<nat>)
    requires Chunks(cs, |files|) && KeysWithin(files, key, min, max)
    requires CountRun(files, key, min, max, cs, counts, sched)
    requires forall t :: 0 <= t < |cs| && t < |counts[|sched|].pos| ==> counts[|sched|].pos[t] == cs[t].hi
    requires CopyRun(Compressed(counts[|sched|].heads), cs, copies, sched')
    requires forall t :: 0 <= t < |cs| && t < |copies[|sched'|].pos| ==> copies[|sched'|].pos[t] == cs[t].hi
    ensures Sorted(copies[|sched'|].output, key) && multiset(copies[|sched'|].output) == multiset(files)
  {
    hide Concat, Counted, Count, Compressed, Output, Sorted, CountStep, CopyStep;
    var heads := counts[|sched|].heads;
    CountRunInv(files, key, min, max, cs, counts, sched, |sched|);
    ChunksWithin(cs, |files|);
    assert files[..EndOf(cs, |cs|)] == files;
    forall x ensures Count(Concat(heads), x) == Count(files, x) {
      CountedAll(files, cs, counts[|sched|].pos, |cs|, x);
    }
    SameCounts(Concat(heads), files);
    CompressedConcat(heads);
    SameLength(Concat(heads), files);
    CopyRunInv(Compressed(heads), cs, copies, sched', |sched'|);
    CopyDone(Compressed(heads), cs, copies[|sched'|]);
    OutputCount(heads);
    OutputSorted(heads, key, seq(|heads|, i => min + i));
  }

  lemma SameCounts(a: seq<File>, b: seq<File>)
    requires forall x :: Count(a, x) == Count(b, x)
    ensures multiset(a) == multiset(b)
  {
    forall x ensures multiset(a)[x] == multiset(b)[x] {
      assert Count(a, x) == Count(b, x);
    }
  }

  lemma SameLength(a: seq<File>, b: seq<File>)
    requires multiset(a) == multiset(b)
    ensures |a| == |b|
  {
    assert |multiset(a)| == |a|;
  }
}
