/** balloc's and bfree's work on the bytes of the bitmap: one bit per block, as Fs and FsCode see it. */
module Bitmap {
  import opened Fs
  import opened Optional

  // 1 << (b % 8)
  function Mask(b: nat): bv8
  {
    var k := b % 8;
    if k == 0 then 0x01 else if k == 1 then 0x02 else if k == 2 then 0x04 else if k == 3 then 0x08
    else if k == 4 then 0x10 else if k == 5 then 0x20 else if k == 6 then 0x40 else 0x80
  }

  predicate Test(x: bv8, b: nat) { x & Mask(b) != 0 }

  function Set(x: bv8, b: nat): bv8 { x | Mask(b) }

  function Clear(x: bv8, b: nat): bv8 { x & !Mask(b) }

  // Setting or clearing one bit of a byte leaves the others.
  lemma OneBit(x: bv8, b: nat, c: nat)
    ensures Test(Set(x, b), c) <==> b % 8 == c % 8 || Test(x, c)
    ensures Test(Clear(x, b), c) <==> b % 8 != c % 8 && Test(x, c)
  {
  }

  predicate Bit(data: seq<bv8>, b: nat)
    requires b < 8 * |data|
  {
    Test(data[b / 8], b)
  }

  // The bitmap as booleans.
  function Unpacked(data: seq<bv8>): (u: seq<bool>)
    ensures |u| == 8 * |data| && forall b :: 0 <= b < |u| ==> u[b] == Bit(data, b)
  {
    seq(8 * |data|, b requires 0 <= b < 8 * |data| => Bit(data, b))
  }

  lemma BitAfter(data: seq<bv8>, b: nat, c: nat)
    requires b < 8 * |data| && c < 8 * |data|
    ensures Bit(data[b / 8 := Set(data[b / 8], b)], c) == (c == b || Bit(data, c))
    ensures Bit(data[b / 8 := Clear(data[b / 8], b)], c) == (c != b && Bit(data, c))
  {
    hide Test, Set, Clear;
    OneBit(data[b / 8], b, c);
  }

  lemma SetOne(data: seq<bv8>, b: nat)
    requires b < 8 * |data|
    ensures Unpacked(data[b / 8 := Set(data[b / 8], b)]) == Unpacked(data)[b := true]
    ensures Unpacked(data[b / 8 := Clear(data[b / 8], b)]) == Unpacked(data)[b := false]
  {
    hide Bit, Set, Clear;
    var on, off := data[b / 8 := Set(data[b / 8], b)], data[b / 8 := Clear(data[b / 8], b)];
    var u, v, w := Unpacked(data), Unpacked(on), Unpacked(off);
    forall c: nat | c < |u| ensures v[c] == u[b := true][c] && w[c] == u[b := false][c] {
      BitAfter(data, b, c);
    }
    assert v == u[b := true] && w == u[b := false];
  }

  class BlockMap {
    const size: nat              // blocks on the device
    var data: seq<bv8>           // the bitmap blocks, one after the other
    var panicked: bool

    ghost predicate Valid()
      reads this
    {
      size <= 8 * |data|
    }

    constructor (size: nat, data: seq<bv8>)
      requires size <= 8 * |data|
      ensures Valid() && this.size == size && this.data == data && !panicked
    {
      this.size, this.data, panicked := size, data, false;
    }

    // The lowest block whose bit is clear, with its bit set; None if all are set.
    method Balloc() returns (r: Option<nat>)
      requires Valid()
      modifies `data
      ensures Valid() && (r.None? <==> forall b :: 0 <= b < size ==> Unpacked(old(data))[b])
      ensures r.None? ==> data == old(data)
      ensures r.Some? ==> r.value < size && !Unpacked(old(data))[r.value]
      ensures r.Some? ==> forall b :: 0 <= b < r.value ==> Unpacked(old(data))[b]
      ensures r.Some? ==> Unpacked(data) == Unpacked(old(data))[r.value := true]
    {
      hide Bit, Test, Set, Mask;
      var b := 0;
      while b < size
        invariant b % BPB == 0 && data == old(data)
        invariant forall c :: 0 <= c < b && c < size ==> Unpacked(data)[c]
      {
        var bi := 0;
        while bi < BPB && b + bi < size
          invariant bi <= BPB && data == old(data)
          invariant forall c :: 0 <= c < b + bi && c < size ==> Unpacked(data)[c]
        {
          InBlock(data, b, bi);
          if !Test(data[b / 8 + bi / 8], bi) {
            SetOne(data, b + bi);
            data := data[b / 8 + bi / 8 := Set(data[b / 8 + bi / 8], bi)];
            return Some(b + bi);
          }
          bi := bi + 1;
        }
        b := b + BPB;
      }
      r := None;
    }

    method Bfree(b: nat)
      requires Valid() && b < size && !panicked
      modifies `data, `panicked
      ensures panicked <==> !Unpacked(old(data))[b]
      ensures panicked ==> data == old(data)
      ensures !panicked ==> Valid() && Unpacked(data) == Unpacked(old(data))[b := false]
    {
      hide Test, Clear, Mask;
      if !Test(data[b / 8], b) {
        panicked := true;
        return;
      }
      SetOne(data, b);
      data := data[b / 8 := Clear(data[b / 8], b)];
    }
  }

  // Bit bi of the bitmap block for blocks b.. is the bit of block b + bi.
  lemma InBlock(data: seq<bv8>, b: nat, bi: nat)
    requires b % BPB == 0 && b + bi < 8 * |data|
    ensures (b + bi) / 8 == b / 8 + bi / 8 && forall x :: Set(x, b + bi) == Set(x, bi)
    ensures Unpacked(data)[b + bi] <==> Test(data[b / 8 + bi / 8], bi)
  {
    assert b % 8 == 0;
    assert Mask(b + bi) == Mask(bi);
  }
}
