/**
  The index by which the counting sort of partB.c orders file names.
 */
module NameIndex {

  const LETTERS: nat := 4      // max_length

  // toupper(c) - 'A' + 1
  function Value(c: char): int
  {
    (if 'a' <= c <= 'z' then c as int - 'a' as int else c as int - 'A' as int) + 1
  }

  // The first n characters of w as digits in base 26, missing ones counting as zero.
  function Index(w: string, n: nat): int
  {
    if n == 0 then 0 else Index(w, n - 1) * 26 + if n - 1 < |w| then Value(w[n - 1]) else 0
  }

  function Name(w: string): string { "file" + w + ".txt" }

  // strcmp(a, b) < 0
  ghost predicate Less(a: string, b: string)
  {
    exists k: nat :: LessAt(a, b, k)
  }

  predicate LessAt(a: string, b: string, k: nat)
  {
    k <= |a| && k < |b| && a[..k] == b[..k] && (k < |a| ==> a[k] < b[k])
  }

  // convert_to_index
  method ConvertToIndex(name: string) returns (index: int)
    requires |name| >= 4
    ensures index == Index(Middle(name), LETTERS)
    ensures forall w :: name == Name(w) ==> index == Index(w, LETTERS)
  {
    var part := name[4..];
    var length := |part| - 4;
    index := 0;
    for i := 0 to LETTERS
      invariant index == Index(Middle(name), i)
    {
      var value := if i < length then Value(part[i]) else 0;
      index := index * 26 + value;
    }
    assert forall w :: Middle(Name(w)) == w;
  }

  // What is left without the first four and the last four characters.
  function Middle(name: string): string
    requires |name| >= 4
  {
    if |name| < 8 then "" else name[4..|name| - 4]
  }

  // Letters from lo on: 'a' for lower case, 'A' for upper case.
  predicate Letters(w: string, lo: char)
  {
    (lo == 'a' || lo == 'A') && forall i :: 0 <= i < |w| ==> lo <= w[i] <= lo + 25 as char
  }

  lemma {:induction false} SamePrefix(x: string, y: string, n: nat)
    requires n <= |x| && n <= |y| && x[..n] == y[..n]
    ensures Index(x, n) == Index(y, n)
  {
    if n > 0 {
      assert x[..n - 1] == x[..n][..n - 1] && y[..n - 1] == y[..n][..n - 1];
      assert x[n - 1] == x[..n][n - 1] && y[n - 1] == y[..n][n - 1];
      SamePrefix(x, y, n - 1);
    }
  }

  // Once ahead, always ahead: the digits are between 1 and 26.
  lemma {:induction false} StaysAhead(x: string, y: string, lo: char, k: nat, n: nat)
    requires |x| == |y| && Letters(x, lo) && Letters(y, lo) && k < |x| && k < n && x[..k] == y[..k] && x[k] < y[k]
    ensures Index(x, n) < Index(y, n)
  {
    if n == k + 1 {
      SamePrefix(x, y, k);
    } else {
      StaysAhead(x, y, lo, k, n - 1);
    }
  }

  lemma {:induction false} FirstDifference(x: string, y: string) returns (k: nat)
    requires |x| == |y| && x != y
    ensures k < |x| && x[..k] == y[..k] && x[k] != y[k]
  {
    assert x == x[..|x|] && y == y[..|y|];
    k := 0;
    while k < |x| && x[k] == y[k]
      invariant k <= |x| && x[..k] == y[..k]
    {
      assert x[..k + 1] == x[..k] + [x[k]] && y[..k + 1] == y[..k] + [y[k]];
      k := k + 1;
    }
  }

  // Names differ where their middle parts do.
  lemma NamesLess(x: string, y: string, k: nat)
    requires |x| == |y| && k < |x| && x[..k] == y[..k] && x[k] < y[k]
    ensures Less(Name(x), Name(y)) && !Less(Name(y), Name(x))
  {
    var a, b := Name(x), Name(y);
    forall i | 0 <= i < k + 4 ensures a[i] == b[i] {
      if i >= 4 {
        assert x[..k][i - 4] == y[..k][i - 4];
      }
    }
    assert LessAt(a, b, k + 4);
    forall m: nat ensures !LessAt(b, a, m) {
      assert k + 4 < m <= |a| ==> a[..m][k + 4] != b[..m][k + 4];
    }
  }

  // On names of one length and one case the index orders as strcmp does.
  lemma OneLengthInOrder(x: string, y: string, lo: char)
    requires |x| == |y| <= LETTERS && Letters(x, lo) && Letters(y, lo)
    ensures Less(Name(x), Name(y)) <==> Index(x, LETTERS) < Index(y, LETTERS)
  {
    if x == y {
      Irreflexive(Name(x));
    } else {
      var k := FirstDifference(x, y);
      if x[k] < y[k] {
        StaysAhead(x, y, lo, k, LETTERS);
        NamesLess(x, y, k);
      } else {
        assert y[k] < x[k];
        StaysAhead(y, x, lo, k, LETTERS);
        NamesLess(y, x, k);
      }
    }
  }

  lemma Irreflexive(a: string)
    ensures !Less(a, a)
  {
  }

  // Letters of both cases, or names of different lengths: the smallest name by strcmp need not
  // have the smallest index, and the other file's index into global_count is negative.
  lemma IndexOutOfOrder()
    ensures Less(Name("B"), Name("a")) && Index("a", LETTERS) - Index("B", LETTERS) == -17576
    ensures Less(Name("azz"), Name("b")) && Index("b", LETTERS) - Index("azz", LETTERS) == -676
  {
    var x, y := Name("B"), Name("a");
    assert x == "fileB.txt" && y == "filea.txt";
    assert LessAt(x, y, 4);
    var v, w := Name("azz"), Name("b");
    assert v == "fileazz.txt" && w == "fileb.txt";
    assert LessAt(v, w, 4);
    IndexFour("a");
    IndexFour("B");
    IndexFour("b");
    IndexFour("azz");
  }

  lemma IndexFour(w: string)
    ensures Index(w, 4) == Digit(w, 0) * 17576 + Digit(w, 1) * 676 + Digit(w, 2) * 26 + Digit(w, 3)
  {
    assert Index(w, 1) == Index(w, 0) * 26 + Digit(w, 0);
    assert Index(w, 2) == Index(w, 1) * 26 + Digit(w, 1);
    assert Index(w, 3) == Index(w, 2) * 26 + Digit(w, 2);
    assert Index(w, 4) == Index(w, 3) * 26 + Digit(w, 3);
  }

  function Digit(w: string, i: nat): int
  {
    if i < |w| then Value(w[i]) else 0
  }
}
