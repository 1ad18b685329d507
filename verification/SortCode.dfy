/**
  The sorting functions of partB.c as methods on its global variables.
 */
module SortCode {
  import opened SortSpec
  import opened CountSort

  const NUM_PROCESSES: nat := 8

  // ----- lemmas on the lists that the sequential sort builds -----

  lemma {:induction false} ReverseSnoc(s: seq<File>, f: File)
    ensures Reverse(s + [f]) == [f] + Reverse(s)
  {
    if s == [] {
      assert s + [f] == [f] && [f][1..] == [];
    } else {
      assert (s + [f])[1..] == s[1..] + [f];
      ReverseSnoc(s[1..], f);
    }
  }

  lemma ReverseTwice(s: seq<File>)
    ensures Reverse(Reverse(s)) == s
  {
  }

  // List v holds the files with key min + v among fs, latest first.
  ghost predicate Stacked(heads: Lists, fs: seq<File>, key: Key, min: int)
  {
    forall v :: 0 <= v < |heads| ==> heads[v] == Reverse(Filter(fs, key, min + v))
  }

  lemma StackOne(heads: Lists, fs: seq<File>, key: Key, min: int, f: File)
    requires Stacked(heads, fs, key, min) && 0 <= key(f) - min < |heads|
    ensures Stacked(heads[key(f) - min := [f] + heads[key(f) - min]], fs + [f], key, min)
  {
    var heads' := heads[key(f) - min := [f] + heads[key(f) - min]];
    forall v | 0 <= v < |heads'| ensures heads'[v] == Reverse(Filter(fs + [f], key, min + v)) {
      FilterConcat(fs, [f], key, min + v);
      assert Filter([f], key, min + v) == if key(f) == min + v then [f] else [];
      ReverseSnoc(Filter(fs, key, min + v), f);
      assert Filter(fs, key, min + v) + [] == Filter(fs, key, min + v);
    }
  }

  lemma StackNothing(n: nat, key: Key, min: int)
    ensures Stacked(NoLists(n), [], key, min)
  {
  }

  lemma StackKeys(heads: Lists, fs: seq<File>, key: Key, min: int)
    requires Stacked(heads, fs, key, min)
    ensures Buckets(heads, key, seq(|heads|, i => min + i))
  {
    forall s, p | 0 <= s < |heads| && 0 <= p < |heads[s]| ensures key(heads[s][p]) == min + s {
      FilterKeys(fs, key, min + s);
    }
  }

  lemma {:induction false} FilterOutput(L: Lists, key: Key, keys: seq<int>, v: int)
    requires Buckets(L, key, keys)
    ensures forall s :: 0 <= s < |L| && keys[s] == v ==> Filter(Output(L), key, v) == Reverse(L[s])
    ensures v !in keys ==> Filter(Output(L), key, v) == []
  {
    if L != [] {
      BucketsRest(L, key, keys);
      FilterOutput(L[1..], key, keys[1..], v);
      FilterConcat(Reverse(L[0]), Output(L[1..]), key, v);
      forall i | 0 <= i < |L[0]| ensures key(Reverse(L[0])[i]) == keys[0] {
      }
      if keys[0] == v {
        FilterAll(Reverse(L[0]), key, v);
        OutputKeys(L[1..], key, keys[1..], v + 1);
        FilterNone(Output(L[1..]), key, v);
      } else {
        FilterNone(Reverse(L[0]), key, v);
        assert v in keys <==> v in keys[1..];
      }
      forall s | 0 <= s < |L| && keys[s] == v ensures Filter(Output(L), key, v) == Reverse(L[s]) {
        assert s > 0 ==> L[1..][s - 1] == L[s] && keys[1..][s - 1] == keys[s];
      }
    }
  }

  // LIFO lists written backwards: the sequential count sort is stable.
  lemma StackedIsStable(heads: Lists, fs: seq<File>, key: Key, min: int, max: int)
    requires Stacked(heads, fs, key, min) && KeysWithin(fs, key, min, max) && |heads| == max - min + 1
    ensures StablySorted(fs, Output(heads), key)
  {
    var keys := seq(|heads|, i => min + i);
    StackKeys(heads, fs, key, min);
    OutputSorted(heads, key, keys);
    forall v ensures Filter(fs, key, v) == Filter(Output(heads), key, v) {
      FilterOutput(heads, key, keys, v);
      if min <= v <= max {
        assert keys[v - min] == v;
        ReverseTwice(Filter(fs, key, v));
      } else {
        FilterNone(fs, key, v);
      }
    }
  }

  // ----- populate_output's stores -----

  datatype Store = Store(index: int, file: File)

  // What a thread with elements lo..lo + n stores, in order.
  function Stores(L: Lists, lo: nat, n: nat): (r: seq<Store>)
    requires lo + n <= |Concat(L)|
    ensures |r| == n
  {
    if n == 0 then [] else Stores(L, lo, n - 1) + [Store(Place(L, lo + n - 1), Concat(L)[lo + n - 1])]
  }

  // Elements lo..hi are in place, the others where they were.
  ghost predicate Placed(L: Lists, was: seq<File>, out: seq<File>, lo: nat, hi: nat)
  {
    && |was| == |out| == |Concat(L)| && lo <= hi <= |out|
    && (forall e :: 0 <= e < |out| ==> out[Place(L, e)] == if lo <= e < hi then Concat(L)[e] else was[Place(L, e)])
  }

  lemma PlaceOne(L: Lists, was: seq<File>, out: seq<File>, lo: nat, hi: nat)
    requires Placed(L, was, out, lo, hi) && hi < |out|
    ensures Placed(L, was, out[Place(L, hi) := Concat(L)[hi]], lo, hi + 1)
  {
    hide Place, Concat;
    var out' := out[Place(L, hi) := Concat(L)[hi]];
    forall e | 0 <= e < |out| ensures out'[Place(L, e)] == if lo <= e < hi + 1 then Concat(L)[e] else was[Place(L, e)] {
      if e != hi {
        WrittenOnce(L, e, hi);
      }
    }
  }

  lemma PlacedThenPlaced(L: Lists, was: seq<File>, mid: seq<File>, out: seq<File>, lo: nat, hi: nat, hi': nat)
    requires Placed(L, was, mid, lo, hi) && Placed(L, mid, out, hi, hi')
    ensures Placed(L, was, out, lo, hi')
  {
    hide Place, Concat;
  }

  lemma AllPlaced(L: Lists, was: seq<File>, out: seq<File>)
    requires Placed(L, was, out, 0, |Concat(L)|)
    ensures out == Output(L)
  {
    forall x | 0 <= x < |out| ensures out[x] == Output(L)[x] {
      PlaceTwice(L, x);
      PlaceRight(L, Place(L, x));
    }
  }

  // A thread's arguments: the list to start in, the elements to take, where to start in the list.
  datatype Share = Share(start: nat, elements: nat, offset: nat)

  // PopulateOutput may be called with the share, and its elements are those of the chunk.
  ghost predicate Covers(L: Lists, a: Share, c: Chunk)
  {
    && a.start <= |L| && (a.start < |L| ==> a.offset < |L[a.start]|) && (a.start == |L| ==> a.offset == 0)
    && Before(L, a.start) + a.offset == c.lo && c.lo + a.elements == c.hi <= |Concat(L)|
  }

  class Sorter {
    const key: Key
    var files: seq<File>
    var min: int
    var max: int
    var frequency: seq<nat>      // global_count
    var heads: Lists
    var lists: Lists             // new_global_count: the non-empty lists,
    var sizes: seq<nat>          // their lengths,
    var totals: seq<nat>         // and the prefix sums of the lengths
    var output: seq<File>

    constructor (key: Key, files: seq<File>)
      ensures this.key == key && this.files == files
    {
      this.key, this.files := key, files;
    }

    method GetMaxMinValues()
      requires files != []
      modifies `min, `max
      ensures KeysWithin(files, key, min, max)
    {
      min, max := key(files[0]), key(files[0]);
      for i := 1 to |files|
        invariant KeysWithin(files[..i], key, min, max)
      {
        assert files[..i + 1] == files[..i] + [files[i]];
        if key(files[i]) > max {
          max := key(files[i]);
        }
        if key(files[i]) < min {
          min := key(files[i]);
        }
      }
      assert files[..|files|] == files;
    }

    // One share per thread, the first ones larger by one; no more threads once all is covered.
    method Shares(n: nat) returns (cs: seq<Chunk>)
      ensures Chunks(cs, n) && 1 <= |cs| <= NUM_PROCESSES
    {
      hide Chunks;
      NoChunks();
      var base, left := n / NUM_PROCESSES, n % NUM_PROCESSES;
      var covered: nat := 0;
      cs := [];
      var i: nat := 0;
      while i < NUM_PROCESSES
        invariant i <= NUM_PROCESSES && |cs| == i && Chunks(cs, covered)
        invariant covered == base * i + (if i < left then i else left) && (i > 0 ==> covered < n)
      {
        var size := if i < left then base + 1 else base;
        OneMoreChunk(cs, covered, size);
        NextShare(base, i);
        cs := cs + [Chunk(covered, covered + size)];
        covered := covered + size;
        i := i + 1;
        if covered == n {
          break;
        }
        AllCovered(base, left, i, covered, n);
      }
    }

    method CountLocal(s: nat, e: int)
      requires KeysWithin(files, key, min, max) && s <= e + 1 <= |files|
      requires |heads| == |frequency| == max - min + 1 && Stacked(heads, files[..s], key, min)
      requires forall v :: 0 <= v < |heads| ==> frequency[v] == |heads[v]|
      modifies `heads, `frequency
      ensures |heads| == |frequency| == max - min + 1 && Stacked(heads, files[..e + 1], key, min)
      ensures forall v :: 0 <= v < |heads| ==> frequency[v] == |heads[v]|
    {
      hide Stacked;
      var i := s;
      while i <= e
        invariant s <= i <= e + 1 && |heads| == |frequency| == max - min + 1 && Stacked(heads, files[..i], key, min)
        invariant forall v :: 0 <= v < |heads| ==> frequency[v] == |heads[v]|
      {
        var index := key(files[i]) - min;
        StackOne(heads, files[..i], key, min, files[i]);
        assert files[..i] + [files[i]] == files[..i + 1];
        frequency := frequency[index := frequency[index] + 1];
        heads := heads[index := [files[i]] + heads[index]];
        i := i + 1;
      }
    }

    // The non-empty lists, their sizes and the prefix sums.
    method Compress()
      requires |heads| == |frequency| && forall v :: 0 <= v < |heads| ==> frequency[v] == |heads[v]|
      modifies `lists, `sizes, `totals
      ensures lists == Compressed(heads) && |sizes| == |totals| == |lists|
      ensures forall s :: 0 <= s < |lists| ==> sizes[s] == |lists[s]| && totals[s] == Before(lists, s + 1)
    {
      lists, sizes := [], [];
      for j := 0 to |heads|
        invariant lists == Compressed(heads[..j]) && |sizes| == |lists|
        invariant forall s :: 0 <= s < |lists| ==> sizes[s] == |lists[s]|
      {
        assert heads[..j + 1][..j] == heads[..j];
        if frequency[j] != 0 {
          lists, sizes := lists + [heads[j]], sizes + [frequency[j]];
        } else {
          assert lists == lists + [];
        }
      }
      assert heads[..|heads|] == heads;
      totals := sizes;
      var i: nat := 1;
      while i < |lists|
        modifies `totals
        invariant 1 <= i && |totals| == |lists|
        invariant forall s :: 0 <= s < i && s < |lists| ==> totals[s] == Before(lists, s + 1)
        invariant forall s :: i <= s < |lists| ==> totals[s] == sizes[s]
      {
        totals := totals[i := totals[i] + totals[i - 1]];
        i := i + 1;
      }
    }

    ghost predicate LaidOut()
      reads this
    {
      && |sizes| == |totals| == |lists| && |output| == |Concat(lists)|
      && (forall s :: 0 <= s < |lists| ==>
            lists[s] != [] && sizes[s] == |lists[s]| && totals[s] == Before(lists, s + 1))
    }

    // Store list s from element p on, until it or the share ends.
    method StoreList(s: nat, p0: nat, n: nat, elements0: nat, ghost was: seq<File>, ghost lo: nat,
                     ghost stores0: seq<Store>)
      returns (elements: nat, ghost stores: seq<Store>)
      requires LaidOut() && s < |lists| && p0 < |lists[s]| && 0 < elements0 <= n && lo + n <= |Concat(lists)|
      requires lo + (n - elements0) == Before(lists, s) + p0
      requires Placed(lists, was, output, lo, lo + (n - elements0)) && stores0 == Stores(lists, lo, n - elements0)
      modifies `output
      ensures LaidOut() && elements < elements0 && (elements > 0 ==> lo + (n - elements) == Before(lists, s + 1))
      ensures Placed(lists, was, output, lo, lo + (n - elements)) && stores == Stores(lists, lo, n - elements)
    {
      hide Placed, Concat, Place, Stores;
      var p := p0;
      elements, stores := elements0, stores0;
      var index := totals[s] - 1 - p0;
      while p < |lists[s]| && elements > 0
        invariant LaidOut() && p0 <= p <= |lists[s]| && elements == elements0 - (p - p0)
        invariant index == totals[s] - 1 - p && lo + (n - elements) == Before(lists, s) + p
        invariant Placed(lists, was, output, lo, lo + (n - elements)) && stores == Stores(lists, lo, n - elements)
      {
        PlaceAt(lists, s, p);
        PlaceOne(lists, was, output, lo, lo + (n - elements));
        StoresMore(lists, lo, n - elements);
        stores := stores + [Store(index, lists[s][p])];
        output := output[index := lists[s][p]];
        p, index, elements := p + 1, index - 1, elements - 1;
      }
    }

    // Store n elements starting with element offset of list start.
    method PopulateOutput(start: nat, n: nat, offset: nat) returns (ghost stores: seq<Store>)
      requires LaidOut() && start <= |lists| && (start < |lists| ==> offset < |lists[start]|)
      requires (start == |lists| ==> offset == 0)
      requires Before(lists, start) + offset + n <= |Concat(lists)|
      modifies `output
      ensures LaidOut() && stores == Stores(lists, Before(lists, start) + offset, n)
      ensures Placed(lists, old(output), output, Before(lists, start) + offset, Before(lists, start) + offset + n)
    {
      hide Placed, Concat, Place, Stores;
      var s: nat, elements: nat, adder: nat := start, n, offset;
      ghost var lo := Before(lists, start) + offset;
      StoresNone(lists, lo);
      PlacedNone(lists, output, lo);
      stores := [];
      BeforeAll(lists);
      while elements > 0
        invariant LaidOut() && elements <= n && s <= |lists|
        invariant s < |lists| ==> adder < |lists[s]|
        invariant elements > 0 ==> lo + (n - elements) == Before(lists, s) + adder
        invariant Placed(lists, old(output), output, lo, lo + (n - elements))
        invariant lo + n <= |Concat(lists)| && stores == Stores(lists, lo, n - elements)
        decreases elements
      {
        assert s < |lists|;
        BeforeMonotone(lists, s + 1, |lists|);
        var p: nat, skip: nat := 0, adder;
        while skip > 0 && p < |lists[s]|
          invariant p + skip == adder
        {
          p, skip := p + 1, skip - 1;
        }
        elements, stores := StoreList(s, p, n, elements, old(output), lo, stores);
        s, adder := s + 1, 0;
      }
    }

    // Where the next thread starts, after one that took chunk elements.
    method Advance(curr: nat, prev: nat, chunk: nat) returns (curr': nat, prev': nat)
      requires LaidOut() && curr <= |lists| && (curr < |lists| ==> prev < |lists[curr]|)
      requires (curr == |lists| ==> prev == 0)
      requires Before(lists, curr) + prev + chunk <= |Concat(lists)|
      ensures curr' <= |lists| && (curr' < |lists| ==> prev' < |lists[curr']|) && (curr' == |lists| ==> prev' == 0)
      ensures Before(lists, curr') + prev' == Before(lists, curr) + prev + chunk
    {
      var left: nat := chunk;
      curr', prev' := curr, prev;
      BeforeAll(lists);
      while left > 0
        invariant curr' <= |lists| && (curr' < |lists| ==> prev' < |lists[curr']|) && (curr' == |lists| ==> prev' == 0)
        invariant Before(lists, curr') + prev' + left == Before(lists, curr) + prev + chunk
        decreases left
      {
        assert curr' < |lists|;
        if left < sizes[curr'] - prev' {
          prev', left := prev' + left, 0;
        } else {
          left := left - (sizes[curr'] - prev');
          curr', prev' := curr' + 1, 0;
        }
      }
    }

    method NonDistributedCountSort()
      requires files != []
      modifies this
      ensures StablySorted(old(files), files, key)
    {
      hide Chunks, Placed, Concat, Stacked, StablySorted, Compressed, Output;
      GetMaxMinValues();
      output := files;               // malloc: any contents
      heads, frequency := NoLists(max - min + 1), seq(max - min + 1, _ => 0);
      StackNothing(max - min + 1, key, min);
      var cs := Shares(|files|);
      ChunksWithin(cs, |files|);
      assert files[..0] == [];
      var t: nat := 0;
      while t < |cs|
        invariant t <= |cs| && |heads| == |frequency| == max - min + 1 && EndOf(cs, t) <= |files|
        invariant Stacked(heads, files[..EndOf(cs, t)], key, min)
        invariant forall v :: 0 <= v < |heads| ==> frequency[v] == |heads[v]|
        invariant files == old(files) && |output| == |files| && KeysWithin(files, key, min, max)
      {
        ChunkFollows(cs, |files|, t);
        CountLocal(cs[t].lo, cs[t].hi - 1);
        t := t + 1;
      }
      ChunksEnd(cs, |files|);
      assert files[..|files|] == files;
      StackedIsStable(heads, files, key, min, max);
      Compress();
      CompressedConcat(heads);
      StableLength(files, Output(heads), key);
      SameSize(lists, heads);
      Populate(cs);
      files := output;
    }

    // distributed_count_sort's second half: what each thread is told, so that thread t stores
    // exactly the elements of chunk t.
    method HandOut(cs: seq<Chunk>) returns (args: seq<Share>)
      requires LaidOut() && Chunks(cs, |Concat(lists)|)
      ensures |args| == |cs| && forall i :: 0 <= i < |cs| ==> Covers(lists, args[i], cs[i])
    {
      hide Chunks, Concat;
      ChunksWithin(cs, |Concat(lists)|);
      var curr: nat, prev: nat, t: nat := 0, 0, 0;
      args := [];
      while t < |cs|
        invariant t == |args| <= |cs| && LaidOut() && curr <= |lists|
        invariant (curr < |lists| ==> prev < |lists[curr]|) && (curr == |lists| ==> prev == 0)
        invariant Before(lists, curr) + prev == EndOf(cs, t)
        invariant forall i :: 0 <= i < t ==> Covers(lists, args[i], cs[i])
      {
        ChunkFollows(cs, |Concat(lists)|, t);
        args := args + [Share(curr, cs[t].hi - cs[t].lo, prev)];
        curr, prev := Advance(curr, prev, cs[t].hi - cs[t].lo);
        t := t + 1;
      }
    }

    // The second half: hand out the output in shares.
    method Populate(cs: seq<Chunk>)
      requires LaidOut() && Chunks(cs, |Concat(lists)|)
      modifies `output
      ensures output == Output(lists)
    {
      hide Chunks, Placed, Concat, Output;
      ghost var out0 := output;
      ChunksWithin(cs, |Concat(lists)|);
      PlacedNone(lists, output, 0);
      var curr: nat, prev: nat, t: nat := 0, 0, 0;
      while t < |cs|
        invariant t <= |cs| && LaidOut() && curr <= |lists|
        invariant (curr < |lists| ==> prev < |lists[curr]|) && (curr == |lists| ==> prev == 0)
        invariant Before(lists, curr) + prev == EndOf(cs, t) && Placed(lists, out0, output, 0, EndOf(cs, t))
      {
        ChunkFollows(cs, |Concat(lists)|, t);
        ghost var mid := output;
        ghost var _ := PopulateOutput(curr, cs[t].hi - cs[t].lo, prev);
        PlacedThenPlaced(lists, out0, mid, output, 0, EndOf(cs, t), cs[t].hi);
        curr, prev := Advance(curr, prev, cs[t].hi - cs[t].lo);
        t := t + 1;
      }
      ChunksEnd(cs, |Concat(lists)|);
      AllPlaced(lists, out0, output);
    }
  }

  lemma NoChunks()
    ensures Chunks([], 0)
  {
  }

  lemma OneMoreChunk(cs: seq<Chunk>, n: nat, size: nat)
    requires Chunks(cs, n)
    ensures Chunks(cs + [Chunk(n, n + size)], n + size)
  {
    forall t | 0 <= t <= |cs| ensures EndOf(cs + [Chunk(n, n + size)], t) == EndOf(cs, t) {
    }
  }

  lemma NextShare(base: nat, i: nat)
    ensures base * (i + 1) == base * i + base
  {
  }

  lemma AllCovered(base: nat, left: nat, i: nat, covered: nat, n: nat)
    requires 0 < i <= NUM_PROCESSES && n == base * NUM_PROCESSES + left && left < NUM_PROCESSES
    requires covered == base * i + (if i < left then i else left) && covered != n
    ensures i < NUM_PROCESSES && covered < n
  {
    assert base * i <= base * NUM_PROCESSES;
    if left <= i < NUM_PROCESSES {
      assert base * i + left <= n;
    }
  }

  lemma ChunkFollows(cs: seq<Chunk>, n: nat, t: nat)
    requires Chunks(cs, n) && t < |cs|
    ensures EndOf(cs, t) == cs[t].lo <= cs[t].hi == EndOf(cs, t + 1) <= n
  {
    ChunksWithin(cs, n);
  }

  lemma ChunksEnd(cs: seq<Chunk>, n: nat)
    requires Chunks(cs, n)
    ensures EndOf(cs, |cs|) == n
  {
  }

  lemma StoresNone(L: Lists, lo: nat)
    requires lo <= |Concat(L)|
    ensures Stores(L, lo, 0) == []
  {
  }

  lemma StoresMore(L: Lists, lo: nat, n: nat)
    requires lo + n < |Concat(L)|
    ensures Stores(L, lo, n + 1) == Stores(L, lo, n) + [Store(Place(L, lo + n), Concat(L)[lo + n])]
  {
  }

  lemma PlacedNone(L: Lists, out: seq<File>, lo: nat)
    requires |out| == |Concat(L)| && lo <= |out|
    ensures Placed(L, out, out, lo, lo)
  {
  }

  lemma StableLength(fs: seq<File>, out: seq<File>, key: Key)
    requires StablySorted(fs, out, key)
    ensures |fs| == |out|
  {
    SameByKeyPermutes(fs, out, key);
    SameLength(fs, out);
  }

  lemma SameSize(L: Lists, heads: Lists)
    requires L == Compressed(heads)
    ensures |Concat(L)| == |Output(heads)|
  {
    CompressedConcat(heads);
  }

  // ----- the threads of distributed_count_sort -----

  // at[t]: how many of its stores thread t has done.
  datatype Weaving = Weaving(output: seq<File>, at: seq<nat>)

  predicate WeaveEnabled(threads: seq<seq<Store>>, w: Weaving, t: nat)
  {
    t < |threads| == |w.at| && w.at[t] < |threads[t]| && 0 <= threads[t][w.at[t]].index < |w.output|
  }

  function WeaveStep(threads: seq<seq<Store>>, w: Weaving, t: nat): Weaving
    requires WeaveEnabled(threads, w, t)
  {
    var x := threads[t][w.at[t]];
    Weaving(w.output[x.index := x.file], w.at[t := w.at[t] + 1])
  }

  // Any interleaving of the stores.
  ghost predicate WeaveRun(threads: seq<seq<Store>>, run: seq<Weaving>, sched: seq<nat>)
  {
    && |run| == |sched| + 1 && |run[0].at| == |threads| && (forall t :: 0 <= t < |threads| ==> run[0].at[t] == 0)
    && (forall i :: 0 <= i < |sched| ==>
          WeaveEnabled(threads, run[i], sched[i]) && run[i + 1] == WeaveStep(threads, run[i], sched[i]))
  }

  lemma {:induction false} StoresAt(L: Lists, lo: nat, n: nat, i: nat)
    requires lo + n <= |Concat(L)| && i < n
    ensures Stores(L, lo, n)[i] == Store(Place(L, lo + i), Concat(L)[lo + i])
  {
    if i < n - 1 {
      StoresAt(L, lo, n - 1, i);
    }
  }

  // What the threads store when PopulateOutput gets the shares that HandOut has computed.
  ghost predicate Threads(L: Lists, cs: seq<Chunk>, args: seq<Share>, threads: seq<seq<Store>>)
  {
    && |threads| == |args| == |cs|
    && (forall t :: 0 <= t < |cs| ==>
          && Covers(L, args[t], cs[t])
          && threads[t] == Stores(L, Before(L, args[t].start) + args[t].offset, args[t].elements))
  }

  // The threads' stores are those of the chunks.
  ghost predicate Populates(L: Lists, cs: seq<Chunk>, threads: seq<seq<Store>>)
  {
    && |threads| == |cs|
    && (forall t :: 0 <= t < |cs| ==>
          cs[t].lo <= cs[t].hi <= |Concat(L)| && threads[t] == Stores(L, cs[t].lo, cs[t].hi - cs[t].lo))
  }

  function AsCopy(cs: seq<Chunk>, w: Weaving): (c: Copying)
    requires |w.at| == |cs|
    ensures |c.pos| == |cs| && c.output == w.output && forall t :: 0 <= t < |cs| ==> c.pos[t] == cs[t].lo + w.at[t]
  {
    Copying(w.output, seq(|cs|, t requires 0 <= t < |cs| => cs[t].lo + w.at[t]))
  }

  lemma WeaveIsCopy(L: Lists, cs: seq<Chunk>, threads: seq<seq<Store>>, w: Weaving, t: nat)
    requires Populates(L, cs, threads) && |w.output| == |Concat(L)| && WeaveEnabled(threads, w, t)
    ensures CopyEnabled(L, cs, AsCopy(cs, w), t)
    ensures AsCopy(cs, WeaveStep(threads, w, t)) == CopyStep(L, cs, AsCopy(cs, w), t)
  {
    StoresAt(L, cs[t].lo, cs[t].hi - cs[t].lo, w.at[t]);
  }

  lemma {:induction false} WeaveShape(L: Lists, cs: seq<Chunk>, threads: seq<seq<Store>>, run: seq<Weaving>,
                                      sched: seq<nat>, k: nat)
    requires Populates(L, cs, threads) && WeaveRun(threads, run, sched) && |run[0].output| == |Concat(L)| && k < |run|
    ensures |run[k].at| == |cs| && |run[k].output| == |Concat(L)|
  {
    if k > 0 {
      WeaveShape(L, cs, threads, run, sched, k - 1);
      assert run[k - 1 + 1] == WeaveStep(threads, run[k - 1], sched[k - 1]);
    }
  }

  // Every interleaving of what the threads store is a copying run.
  lemma WeaveRunIsCopyRun(L: Lists, cs: seq<Chunk>, threads: seq<seq<Store>>, run: seq<Weaving>, sched: seq<nat>)
      returns (copies: seq<Copying>)
    requires Populates(L, cs, threads) && WeaveRun(threads, run, sched) && |run[0].output| == |Concat(L)|
    ensures CopyRun(L, cs, copies, sched) && copies[|sched|].output == run[|sched|].output
    ensures |run[|sched|].at| == |cs| == |copies[|sched|].pos|
    ensures forall t :: 0 <= t < |cs| ==> copies[|sched|].pos[t] == cs[t].lo + run[|sched|].at[t]
  {
    hide Place, Concat, CopyStep, CopyEnabled, WeaveStep, WeaveEnabled, Stores;
    forall k | 0 <= k < |run| ensures |run[k].at| == |cs| && |run[k].output| == |Concat(L)| {
      WeaveShape(L, cs, threads, run, sched, k);
    }
    copies := seq(|run|, k requires 0 <= k < |run| => AsCopy(cs, run[k]));
    forall i | 0 <= i < |sched|
      ensures CopyEnabled(L, cs, copies[i], sched[i]) && copies[i + 1] == CopyStep(L, cs, copies[i], sched[i])
    {
      WeaveIsCopy(L, cs, threads, run[i], sched[i]);
    }
    assert copies[0].pos == Starts(cs);
  }

  // distributed_count_sort: the counting threads interleave at their critical sections, and
  // the stores that PopulateOutput makes for the shares of HandOut interleave in any way.
  lemma DistributedCountSort(files: seq<File>, key: Key, min: int, max: int, cs: seq<Chunk>, counts: seq<Counting>,
                             sched: seq<nat>,
                             args: seq<Share>, threads: seq<seq<Store>>, run: seq<Weaving>, sched': seq<nat>)
    requires Chunks(cs, |files|) && KeysWithin(files, key, min, max)
    requires CountRun(files, key, min, max, cs, counts, sched)
    requires forall t :: 0 <= t < |cs| && t < |counts[|sched|].pos| ==> counts[|sched|].pos[t] == cs[t].hi
    requires Threads(Compressed(counts[|sched|].heads), cs, args, threads) && WeaveRun(threads, run, sched')
    requires |run[0].output| == |Concat(Compressed(counts[|sched|].heads))|
    requires forall t :: 0 <= t < |threads| && t < |run[|sched'|].at| ==> run[|sched'|].at[t] == |threads[t]|
    ensures Sorted(run[|sched'|].output, key) && multiset(run[|sched'|].output) == multiset(files)
  {
    hide Chunks, KeysWithin, Compressed, Concat, Sorted, Before, CountStep, CountEnabled, WeaveStep, WeaveEnabled;
    var L := Compressed(counts[|sched|].heads);
    assert Populates(L, cs, threads);
    var copies := WeaveRunIsCopyRun(L, cs, threads, run, sched');
    forall t | 0 <= t < |cs| && t < |copies[|sched'|].pos| ensures copies[|sched'|].pos[t] == cs[t].hi {
      assert threads[t] == Stores(L, cs[t].lo, cs[t].hi - cs[t].lo);
    }
    ParallelCountSort(files, key, min, max, cs, counts, sched, copies, sched');
  }
}
