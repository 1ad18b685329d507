/**
  What the sorts of partB.c have to produce: an array ordered by key that holds,
  for each key, the files with that key, in their original order if stable.
 */
module SortSpec {

  datatype File = File(id: int, name: string, timestamp: string)

  type Key = File -> int

  ghost predicate Sorted(fs: seq<File>, key: Key)
  {
    forall i, j :: 0 <= i < j < |fs| ==> key(fs[i]) <= key(fs[j])
  }

  // The files with key v, in order.
  function Filter(fs: seq<File>, key: Key, v: int): seq<File>
  {
    if fs == [] then [] else (if key(fs[0]) == v then [fs[0]] else []) + Filter(fs[1..], key, v)
  }

  ghost predicate SameByKey(a: seq<File>, b: seq<File>, key: Key)
  {
    forall v :: Filter(a, key, v) == Filter(b, key, v)
  }

  // out is the stable sort of fs.
  ghost predicate StablySorted(fs: seq<File>, out: seq<File>, key: Key)
  {
    Sorted(out, key) && SameByKey(fs, out, key)
  }

  lemma {:induction false} FilterConcat(a: seq<File>, b: seq<File>, key: Key, v: int)
    ensures Filter(a + b, key, v) == Filter(a, key, v) + Filter(b, key, v)
  {
    if a == [] {
      assert a + b == b;
    } else {
      var head := if key(a[0]) == v then [a[0]] else [];
      assert (a + b)[0] == a[0] && (a + b)[1..] == a[1..] + b;
      FilterConcat(a[1..], b, key, v);
      Associative(head, Filter(a[1..], key, v), Filter(b, key, v));
    }
  }

  lemma Associative(x: seq<File>, y: seq<File>, z: seq<File>)
    ensures (x + y) + z == x + (y + z)
  {
  }

  lemma {:induction false} FilterNone(fs: seq<File>, key: Key, v: int)
    requires forall i :: 0 <= i < |fs| ==> key(fs[i]) != v
    ensures Filter(fs, key, v) == []
  {
    if fs != [] {
      FilterNone(fs[1..], key, v);
    }
  }

  lemma {:induction false} FilterAll(fs: seq<File>, key: Key, v: int)
    requires forall i :: 0 <= i < |fs| ==> key(fs[i]) == v
    ensures Filter(fs, key, v) == fs
  {
    if fs != [] {
      FilterAll(fs[1..], key, v);
    }
  }

  lemma {:induction false} FilterKeys(fs: seq<File>, key: Key, v: int)
    ensures forall i :: 0 <= i < |Filter(fs, key, v)| ==> key(Filter(fs, key, v)[i]) == v
  {
    if fs != [] {
      FilterKeys(fs[1..], key, v);
    }
  }

  // A file appears in fs as often as among the files with its key.
  lemma {:induction false} FilterCount(fs: seq<File>, key: Key, f: File)
    ensures multiset(fs)[f] == multiset(Filter(fs, key, key(f)))[f]
  {
    if fs != [] {
      FilterCount(fs[1..], key, f);
      assert fs == [fs[0]] + fs[1..];
    }
  }

  lemma SameByKeyPermutes(a: seq<File>, b: seq<File>, key: Key)
    requires SameByKey(a, b, key)
    ensures multiset(a) == multiset(b)
  {
    forall f ensures multiset(a)[f] == multiset(b)[f] {
      FilterCount(a, key, f);
      FilterCount(b, key, f);
      assert Filter(a, key, key(f)) == Filter(b, key, key(f));
    }
  }

  // In a sorted array the files with the least key come first.
  lemma {:induction false} LeastFirst(fs: seq<File>, key: Key)
    requires Sorted(fs, key) && fs != []
    ensures Filter(fs, key, key(fs[0])) != [] && Filter(fs, key, key(fs[0]))[0] == fs[0]
    ensures forall v :: v < key(fs[0]) ==> Filter(fs, key, v) == []
  {
    forall v | v < key(fs[0]) ensures Filter(fs, key, v) == [] {
      FilterNone(fs, key, v);
    }
  }

  // There is only one stable sort.
  lemma {:induction false} StableIsUnique(a: seq<File>, b: seq<File>, key: Key)
    requires Sorted(a, key) && Sorted(b, key) && SameByKey(a, b, key)
    ensures a == b
    decreases |a|
  {
    SameByKeyPermutes(a, b, key);
    assert |a| == |multiset(a)| == |b|;
    if a != [] {
      LeastFirst(a, key);
      LeastFirst(b, key);
      var x, y := key(a[0]), key(b[0]);
      assert Filter(a, key, x) == Filter(b, key, x) && Filter(a, key, y) == Filter(b, key, y);
      assert x == y && a[0] == b[0];
      forall v ensures Filter(a[1..], key, v) == Filter(b[1..], key, v) {
        assert Filter(a, key, v) == Filter(b, key, v);
        var head := if x == v then [a[0]] else [];
        assert Filter(a[1..], key, v) == Filter(a, key, v)[|head|..];
        assert Filter(b[1..], key, v) == Filter(b, key, v)[|head|..];
      }
      StableIsUnique(a[1..], b[1..], key);
    }
  }
}
