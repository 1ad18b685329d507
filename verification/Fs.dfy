/**
  The inode layer of fs.c: block bitmap, inodes with direct and indirect
  addresses, and data blocks.  Which blocks an inode refers to, what the bitmap
  must say about them, and the bytes of each file.
 */
module Fs {

  const BSIZE: nat := 1024
  const NDIRECT: nat := 12
  const NINDIRECT: nat := BSIZE / 4
  const MAXFILE: nat := NDIRECT + NINDIRECT
  const BPB: nat := BSIZE * 8          // bitmap bits per block
  const IPB: nat := BSIZE / 64         // inodes per block
  const UINT: nat := 0x1_0000_0000     // 2^32

  type Byte = x: int | 0 <= x < 256
  type Block = seq<Byte>

  // Blocks below meta hold the boot block, super block, log, inodes and bitmap.
  datatype Super = Super(size: nat, meta: nat, bmapstart: nat, inodestart: nat)

  datatype Inode = Inode(addrs: seq<nat>, size: nat)

  datatype State = State(used: seq<bool>, blocks: seq<Block>, inodes: seq<Inode>)

  function BBlock(g: Super, b: nat): nat { b / BPB + g.bmapstart }

  function IBlock(g: Super, i: nat): nat { i / IPB + g.inodestart }

  function ZeroBlock(): (z: Block)
    ensures |z| == BSIZE
  {
    seq(BSIZE, _ => 0)
  }

  // ----- a block as 32-bit little-endian words -----

  function GetWord(b: Block, k: nat): nat
    requires 4 * k + 3 < |b|
  {
    var b0: int, b1: int, b2: int, b3: int := b[4 * k], b[4 * k + 1], b[4 * k + 2], b[4 * k + 3];
    b0 + 0x100 * b1 + 0x1_0000 * b2 + 0x100_0000 * b3
  }

  function SetWord(b: Block, k: nat, w: nat): Block
    requires 4 * k + 3 < |b| && w < UINT
  {
    b[4 * k := w % 0x100][4 * k + 1 := w / 0x100 % 0x100]
     [4 * k + 2 := w / 0x1_0000 % 0x100][4 * k + 3 := w / 0x100_0000]
  }

  lemma WordRoundTrip(b: Block, k: nat, w: nat, j: nat)
    requires 4 * k + 3 < |b| && 4 * j + 3 < |b| && w < UINT
    ensures GetWord(SetWord(b, k, w), j) == if j == k then w else GetWord(b, j)
  {
    var q0, q1, q2 := w / 0x100, w / 0x1_0000, w / 0x100_0000;
    assert w == q0 * 0x100 + w % 0x100 && q0 == q1 * 0x100 + q0 % 0x100 && q1 == q2 * 0x100 + q1 % 0x100;
  }

  // ----- what an inode refers to -----

  // The address in slot k of inode i: data block k, or the indirect block at k = MAXFILE; 0 if none.
  function Ref(s: State, i: nat, k: nat): nat
    requires i < |s.inodes| && |s.inodes[i].addrs| == NDIRECT + 1
  {
    var a := s.inodes[i].addrs;
    if k < NDIRECT then a[k]
    else if k >= MAXFILE then a[NDIRECT]
    else if a[NDIRECT] == 0 || a[NDIRECT] >= |s.blocks| || |s.blocks[a[NDIRECT]]| != BSIZE then 0
    else GetWord(s.blocks[a[NDIRECT]], k - NDIRECT)
  }

  ghost predicate Shape(g: Super, s: State)
  {
    && 0 < g.meta <= g.size < UINT
    && |s.used| == |s.blocks| == g.size
    && (forall b :: 0 <= b < |s.blocks| ==> |s.blocks[b]| == BSIZE)
    && (forall i :: 0 <= i < |s.inodes| ==> |s.inodes[i].addrs| == NDIRECT + 1)
  }

  predicate Slot(s: State, i: int, k: int)
  {
    0 <= i < |s.inodes| && 0 <= k <= MAXFILE
  }

  ghost predicate IsRef(g: Super, s: State, b: nat)
    requires Shape(g, s)
  {
    exists i, k :: Slot(s, i, k) && Ref(s, i, k) == b
  }

  // The blocks in use are the metadata and, each once, what the inodes refer to.
  ghost predicate Disjoint(g: Super, s: State)
    requires Shape(g, s)
  {
    && (forall i, k :: Slot(s, i, k) && Ref(s, i, k) != 0 ==> g.meta <= Ref(s, i, k) < g.size && s.used[Ref(s, i, k)])
    && (forall i, k, j, l :: Slot(s, i, k) && Slot(s, j, l) && Ref(s, i, k) != 0 && Ref(s, i, k) == Ref(s, j, l) ==>
          i == j && k == l)
    && (forall b :: 0 <= b < g.meta ==> s.used[b])
    && (forall b :: g.meta <= b < g.size && s.used[b] ==> IsRef(g, s, b))
  }

  ghost predicate Struct(g: Super, s: State)
  {
    Shape(g, s) && Disjoint(g, s)
  }

  // Data block k of inode i is mapped exactly when it starts before byte e.
  ghost predicate MappedTo(s: State, i: nat, e: nat)
    requires i < |s.inodes| && |s.inodes[i].addrs| == NDIRECT + 1
  {
    forall k :: 0 <= k < MAXFILE ==> (Ref(s, i, k) != 0 <==> k * BSIZE < e)
  }

  ghost predicate Valid(g: Super, s: State)
  {
    && Struct(g, s)
    && (forall i :: 0 <= i < |s.inodes| ==> s.inodes[i].size <= MAXFILE * BSIZE && MappedTo(s, i, s.inodes[i].size))
  }

  // Byte p of inode i, 0 where nothing is mapped.
  function ByteAt(s: State, i: nat, p: nat): Byte
    requires i < |s.inodes| && |s.inodes[i].addrs| == NDIRECT + 1
  {
    var a := Ref(s, i, p / BSIZE);
    if p < MAXFILE * BSIZE && a != 0 && a < |s.blocks| && |s.blocks[a]| == BSIZE then s.blocks[a][p % BSIZE] else 0
  }

  // A file is its bytes.
  function File(s: State, i: nat): (f: seq<Byte>)
    requires i < |s.inodes| && |s.inodes[i].addrs| == NDIRECT + 1
    ensures |f| == s.inodes[i].size
  {
    seq(s.inodes[i].size, p requires 0 <= p => ByteAt(s, i, p))
  }

  // ----- one reference appears or disappears -----

  // Nothing but slot (i, k) refers to anything new.
  ghost predicate OnlyRef(g: Super, s: State, s': State, i: nat, k: nat)
    requires Shape(g, s) && Shape(g, s')
  {
    && |s'.inodes| == |s.inodes|
    && (forall j, l :: Slot(s, j, l) && (j != i || l != k) ==> Ref(s', j, l) == Ref(s, j, l))
  }

  lemma RefAppears(g: Super, s: State, s': State, i: nat, k: nat, b: nat)
    requires Struct(g, s) && Shape(g, s') && Slot(s, i, k) && Ref(s, i, k) == 0
    requires g.meta <= b < g.size && !s.used[b] && s'.used == s.used[b := true]
    requires OnlyRef(g, s, s', i, k) && Ref(s', i, k) == b
    ensures Struct(g, s')
  {
    forall c | g.meta <= c < g.size && s'.used[c] ensures IsRef(g, s', c) {
      if c == b {
        assert Slot(s', i, k);
      } else {
        assert IsRef(g, s, c);
        var j, l :| Slot(s, j, l) && Ref(s, j, l) == c;
        assert Slot(s', j, l);
      }
    }
  }

  lemma RefDisappears(g: Super, s: State, s': State, i: nat, k: nat)
    requires Struct(g, s) && Shape(g, s') && Slot(s, i, k) && Ref(s, i, k) != 0
    requires s'.used == s.used[Ref(s, i, k) := false]
    requires OnlyRef(g, s, s', i, k) && Ref(s', i, k) == 0
    ensures Struct(g, s')
  {
    forall c | g.meta <= c < g.size && s'.used[c] ensures IsRef(g, s', c) {
      assert IsRef(g, s, c);
      var j, l :| Slot(s, j, l) && Ref(s, j, l) == c;
      assert Slot(s', j, l);
    }
  }

  // No reference changes.
  lemma SameRefs(g: Super, s: State, s': State)
    requires Struct(g, s) && Shape(g, s') && s'.used == s.used && |s'.inodes| == |s.inodes|
    requires forall j, l :: Slot(s, j, l) ==> Ref(s', j, l) == Ref(s, j, l)
    ensures Struct(g, s')
  {
    forall c | g.meta <= c < g.size && s'.used[c] ensures IsRef(g, s', c) {
      assert IsRef(g, s, c);
      var j, l :| Slot(s, j, l) && Ref(s, j, l) == c;
      assert Slot(s', j, l);
    }
  }

  // ----- bmap -----

  // What bmap(i, bn) = addr does to the file system: slot bn is now addr, every file has the same bytes.
  ghost predicate Mapped(g: Super, s: State, s': State, i: nat, bn: nat, addr: nat)
    requires Shape(g, s) && Shape(g, s') && i < |s.inodes|
  {
    && |s'.inodes| == |s.inodes|
    && (forall j :: 0 <= j < |s.inodes| ==> s'.inodes[j].size == s.inodes[j].size)
    && (forall j :: 0 <= j < |s.inodes| && j != i ==> s'.inodes[j] == s.inodes[j])
    && (forall j, l :: Slot(s, j, l) && l < MAXFILE && (j != i || l != bn) ==> Ref(s', j, l) == Ref(s, j, l))
    && Ref(s', i, bn) == addr && (Ref(s, i, bn) != 0 ==> addr == Ref(s, i, bn))
    && (forall j, l :: Slot(s, j, l) && l < MAXFILE && Ref(s, j, l) != 0 && Ref(s, j, l) < g.size ==>
          s'.blocks[Ref(s, j, l)] == s.blocks[Ref(s, j, l)])
    && (Ref(s, i, bn) == 0 && addr != 0 && addr < g.size ==> s'.blocks[addr] == ZeroBlock())
  }

  lemma MappedBytes(g: Super, s: State, s': State, i: nat, bn: nat, addr: nat, j: nat, p: nat)
    requires Struct(g, s) && Struct(g, s') && i < |s.inodes| && j < |s.inodes| && bn < MAXFILE
    requires Mapped(g, s, s', i, bn, addr)
    ensures ByteAt(s', j, p) == ByteAt(s, j, p)
  {
    if p < MAXFILE * BSIZE {
      var k := p / BSIZE;
      assert Slot(s, j, k) && Slot(s', j, k);
    }
  }

  // balloc'ed block b goes into a direct slot, or becomes the indirect block.
  function WithAddr(s: State, i: nat, n: nat, b: nat): State
    requires i < |s.inodes| && n < |s.inodes[i].addrs| && b < |s.used| == |s.blocks|
  {
    State(s.used[b := true], s.blocks[b := ZeroBlock()],
      s.inodes[i := s.inodes[i].(addrs := s.inodes[i].addrs[n := b])])
  }

  lemma ZeroWords(k: nat)
    requires 4 * k + 3 < BSIZE
    ensures GetWord(ZeroBlock(), k) == 0
  {
  }

  lemma AddrRefs(g: Super, s: State, i: nat, n: nat, b: nat)
    requires Struct(g, s) && i < |s.inodes| && n <= NDIRECT && s.inodes[i].addrs[n] == 0
    requires g.meta <= b < g.size && !s.used[b]
    ensures var k := if n == NDIRECT then MAXFILE else n;
      Shape(g, WithAddr(s, i, n, b)) && Ref(WithAddr(s, i, n, b), i, k) == b
        && OnlyRef(g, s, WithAddr(s, i, n, b), i, k)
  {
    var s', k := WithAddr(s, i, n, b), if n == NDIRECT then MAXFILE else n;
    forall j, l | Slot(s, j, l) && (j != i || l != k) ensures Ref(s', j, l) == Ref(s, j, l) {
      assert Slot(s, j, MAXFILE) && Ref(s, j, MAXFILE) == s.inodes[j].addrs[NDIRECT];
      if NDIRECT <= l < MAXFILE {
        ZeroWords(l - NDIRECT);
      }
    }
  }

  lemma DirectMapped(g: Super, s: State, i: nat, n: nat, b: nat)
    requires Struct(g, s) && i < |s.inodes| && n < NDIRECT && s.inodes[i].addrs[n] == 0
    requires g.meta <= b < g.size && !s.used[b]
    ensures Struct(g, WithAddr(s, i, n, b)) && Mapped(g, s, WithAddr(s, i, n, b), i, n, b)
  {
    AddrRefs(g, s, i, n, b);
    RefAppears(g, s, WithAddr(s, i, n, b), i, n, b);
  }

  // The indirect block is new: it maps nothing yet.
  lemma IndirectAdded(g: Super, s: State, i: nat, bn: nat, b: nat)
    requires Struct(g, s) && i < |s.inodes| && s.inodes[i].addrs[NDIRECT] == 0 && NDIRECT <= bn < MAXFILE
    requires g.meta <= b < g.size && !s.used[b]
    ensures Struct(g, WithAddr(s, i, NDIRECT, b)) && Mapped(g, s, WithAddr(s, i, NDIRECT, b), i, bn, 0)
  {
    AddrRefs(g, s, i, NDIRECT, b);
    RefAppears(g, s, WithAddr(s, i, NDIRECT, b), i, MAXFILE, b);
  }

  // balloc'ed block b goes into entry bn of the indirect block.
  function WithEntry(s: State, i: nat, bn: nat, b: nat): State
    requires i < |s.inodes| && |s.inodes[i].addrs| == NDIRECT + 1 && NDIRECT <= bn < MAXFILE
    requires b < |s.used| == |s.blocks| && b < UINT
    requires s.inodes[i].addrs[NDIRECT] < |s.blocks| && |s.blocks[s.inodes[i].addrs[NDIRECT]]| == BSIZE
  {
    var ia := s.inodes[i].addrs[NDIRECT];
    s.(used := s.used[b := true], blocks := s.blocks[b := ZeroBlock()][ia := SetWord(s.blocks[ia], bn - NDIRECT, b)])
  }

  lemma EntryRefs(g: Super, s: State, i: nat, bn: nat, b: nat)
    requires Struct(g, s) && i < |s.inodes| && NDIRECT <= bn < MAXFILE
    requires s.inodes[i].addrs[NDIRECT] != 0 && Ref(s, i, bn) == 0 && g.meta <= b < g.size && !s.used[b]
    ensures Slot(s, i, MAXFILE) && s.inodes[i].addrs[NDIRECT] == Ref(s, i, MAXFILE) < g.size
    ensures var s' := WithEntry(s, i, bn, b); Shape(g, s') && Ref(s', i, bn) == b && OnlyRef(g, s, s', i, bn)
  {
    var ia := s.inodes[i].addrs[NDIRECT];
    assert Slot(s, i, MAXFILE) && Ref(s, i, MAXFILE) == ia;
    var s' := WithEntry(s, i, bn, b);
    WordRoundTrip(s.blocks[ia], bn - NDIRECT, b, bn - NDIRECT);
    forall j, l | Slot(s, j, l) && (j != i || l != bn) ensures Ref(s', j, l) == Ref(s, j, l) {
      assert Slot(s, j, MAXFILE) && Ref(s, j, MAXFILE) == s.inodes[j].addrs[NDIRECT];
      if NDIRECT <= l < MAXFILE && j == i {
        WordRoundTrip(s.blocks[ia], bn - NDIRECT, b, l - NDIRECT);
      }
    }
  }

  lemma EntryMapped(g: Super, s: State, i: nat, bn: nat, b: nat)
    requires Struct(g, s) && i < |s.inodes| && NDIRECT <= bn < MAXFILE
    requires s.inodes[i].addrs[NDIRECT] != 0 && Ref(s, i, bn) == 0 && g.meta <= b < g.size && !s.used[b]
    ensures s.inodes[i].addrs[NDIRECT] < g.size
    ensures Struct(g, WithEntry(s, i, bn, b)) && Mapped(g, s, WithEntry(s, i, bn, b), i, bn, b)
  {
    EntryRefs(g, s, i, bn, b);
    var s', ia := WithEntry(s, i, bn, b), s.inodes[i].addrs[NDIRECT];
    RefAppears(g, s, s', i, bn, b);
    assert Slot(s, i, MAXFILE) && Ref(s, i, MAXFILE) == ia;
  }

  lemma MappedTwice(g: Super, s: State, s1: State, s2: State, i: nat, bn: nat, addr: nat)
    requires Struct(g, s) && Struct(g, s1) && Struct(g, s2) && i < |s.inodes| && bn < MAXFILE
    requires Mapped(g, s, s1, i, bn, 0) && Mapped(g, s1, s2, i, bn, addr)
    ensures Mapped(g, s, s2, i, bn, addr)
  {
    forall j, l | Slot(s, j, l) && l < MAXFILE && (j != i || l != bn) ensures Ref(s2, j, l) == Ref(s, j, l) {
      assert Slot(s1, j, l);
    }
    assert Slot(s, i, bn);
    forall j, l | Slot(s, j, l) && l < MAXFILE && Ref(s, j, l) != 0
      ensures s2.blocks[Ref(s, j, l)] == s.blocks[Ref(s, j, l)]
    {
      assert Slot(s1, j, l);
    }
  }

  // ----- writing inside a mapped block -----

  function Patched(d: Block, o: nat, bytes: seq<Byte>): (r: Block)
    requires o + |bytes| <= |d|
    ensures |r| == |d|
  {
    d[..o] + bytes + d[o + |bytes|..]
  }

  lemma PatchKeeps(g: Super, s: State, s': State, i: nat, k: nat, d: Block)
    requires Struct(g, s) && i < |s.inodes| && k < MAXFILE && Ref(s, i, k) != 0 && |d| == BSIZE
    requires Ref(s, i, k) < g.size && s' == s.(blocks := s.blocks[Ref(s, i, k) := d])
    ensures Struct(g, s') && forall j, l :: Slot(s, j, l) ==> Ref(s', j, l) == Ref(s, j, l)
  {
    assert Slot(s, i, k);
    forall j, l | Slot(s, j, l) ensures Ref(s', j, l) == Ref(s, j, l) {
      assert Slot(s, j, MAXFILE) && Ref(s, j, MAXFILE) == s.inodes[j].addrs[NDIRECT];
    }
    SameRefs(g, s, s');
  }

  lemma PatchBytes(g: Super, s: State, s': State, i: nat, k: nat, o: nat, bytes: seq<Byte>, j: nat, p: nat)
    requires Struct(g, s) && i < |s.inodes| && j < |s.inodes| && k < MAXFILE && Ref(s, i, k) != 0
    requires o + |bytes| <= BSIZE
    requires Ref(s, i, k) < g.size
    requires s' == s.(blocks := s.blocks[Ref(s, i, k) := Patched(s.blocks[Ref(s, i, k)], o, bytes)])
    ensures ByteAt(s', j, p) ==
      if j == i && k * BSIZE + o <= p < k * BSIZE + o + |bytes| then bytes[p - (k * BSIZE + o)] else ByteAt(s, j, p)
  {
    PatchKeeps(g, s, s', i, k, Patched(s.blocks[Ref(s, i, k)], o, bytes));
    assert Slot(s, i, k);
    if p < MAXFILE * BSIZE {
      assert Slot(s, j, p / BSIZE);
    }
  }

  // ----- writei -----

  // s is s0 with the bytes x at offset off of inode i.
  ghost predicate Written(g: Super, s0: State, s: State, i: nat, off: nat, x: seq<Byte>)
    requires Shape(g, s0) && Shape(g, s)
  {
    && |s.inodes| == |s0.inodes|
    && (forall j :: 0 <= j < |s.inodes| ==> s.inodes[j].size == s0.inodes[j].size)
    && (forall j :: 0 <= j < |s.inodes| && j != i ==> s.inodes[j] == s0.inodes[j])
    && (forall j, p: nat :: 0 <= j < |s.inodes| ==>
          ByteAt(s, j, p) == if j == i && off <= p < off + |x| then x[p - off] else ByteAt(s0, j, p))
  }

  function Max(a: nat, b: nat): nat { if a < b then b else a }

  // One round of writei's loop: bmap gave addr for the block at off + |x|, then y was copied in.
  lemma WriteRound(g: Super, s0: State, s: State, s1: State, s2: State, i: nat, off: nat, x: seq<Byte>, y: seq<Byte>,
                   addr: nat)
    requires Struct(g, s0) && Struct(g, s) && Struct(g, s1) && i < |s.inodes| && addr != 0 && addr < g.size
    requires Written(g, s0, s, i, off, x)
    requires var bn, o := (off + |x|) / BSIZE, (off + |x|) % BSIZE;
      && bn < MAXFILE && o + |y| <= BSIZE && Mapped(g, s, s1, i, bn, addr)
      && s2 == s1.(blocks := s1.blocks[addr := Patched(s1.blocks[addr], o, y)])
    ensures Struct(g, s2) && Written(g, s0, s2, i, off, x + y)
    ensures forall j, l :: Slot(s, j, l) && l < MAXFILE && (j != i || l != (off + |x|) / BSIZE) ==>
      Ref(s2, j, l) == Ref(s, j, l)
    ensures Ref(s2, i, (off + |x|) / BSIZE) == addr
  {
    var bn, o := (off + |x|) / BSIZE, (off + |x|) % BSIZE;
    assert Slot(s, i, bn);
    PatchKeeps(g, s1, s2, i, bn, Patched(s1.blocks[addr], o, y));
    forall j, p: nat | 0 <= j < |s.inodes|
      ensures ByteAt(s2, j, p) == if j == i && off <= p < off + |x + y| then (x + y)[p - off] else ByteAt(s0, j, p)
    {
      MappedBytes(g, s, s1, i, bn, addr, j, p);
      PatchBytes(g, s1, s2, i, bn, o, y, j, p);
    }
    forall j, l | Slot(s, j, l) && l < MAXFILE && (j != i || l != bn) ensures Ref(s2, j, l) == Ref(s, j, l) {
      assert Slot(s1, j, l);
    }
  }

  // A bmap that found no block leaves the bytes alone.
  lemma WriteStop(g: Super, s0: State, s: State, s1: State, i: nat, off: nat, x: seq<Byte>, bn: nat)
    requires Struct(g, s0) && Struct(g, s) && Struct(g, s1) && i < |s.inodes| && Written(g, s0, s, i, off, x)
    requires bn < MAXFILE
    requires Mapped(g, s, s1, i, bn, 0)
    ensures Written(g, s0, s1, i, off, x)
    ensures forall j, l :: Slot(s, j, l) && l < MAXFILE ==> Ref(s1, j, l) == Ref(s, j, l)
  {
    forall j, p: nat | 0 <= j < |s.inodes| ensures ByteAt(s1, j, p) == ByteAt(s, j, p) {
      MappedBytes(g, s, s1, i, bn, 0, j, p);
    }
    assert Slot(s, i, bn);
  }

  // Every inode is mapped up to its size, inode i up to byte e.
  ghost predicate MappedBut(s: State, i: nat, e: nat)
    requires i < |s.inodes| && forall j :: 0 <= j < |s.inodes| ==> |s.inodes[j].addrs| == NDIRECT + 1
  {
    forall j :: 0 <= j < |s.inodes| ==> MappedTo(s, j, if j == i then e else s.inodes[j].size)
  }

  lemma MappedGrows(s: State, s': State, i: nat, e: nat, e': nat)
    requires i < |s.inodes| == |s'.inodes|
    requires forall j :: 0 <= j < |s.inodes| ==> |s.inodes[j].addrs| == |s'.inodes[j].addrs| == NDIRECT + 1
    requires forall j :: 0 <= j < |s.inodes| ==> s'.inodes[j].size == s.inodes[j].size
    requires MappedBut(s, i, e) && e <= e' && e' > 0
    requires var bn := (e' - 1) / BSIZE; bn * BSIZE <= e && bn < MAXFILE && Ref(s', i, bn) != 0
    requires forall j, l :: Slot(s, j, l) && l < MAXFILE && (j != i || l != (e' - 1) / BSIZE) ==>
      Ref(s', j, l) == Ref(s, j, l)
    ensures MappedBut(s', i, e')
  {
    forall j | 0 <= j < |s'.inodes| ensures MappedTo(s', j, if j == i then e' else s'.inodes[j].size) {
      assert MappedTo(s, j, if j == i then e else s.inodes[j].size);
      forall k | 0 <= k < MAXFILE ensures Ref(s', j, k) != 0 <==> k * BSIZE < if j == i then e' else s'.inodes[j].size {
        assert Slot(s, j, k);
      }
    }
  }

  lemma MappedSame(s: State, s': State, i: nat, e: nat)
    requires i < |s.inodes| == |s'.inodes|
    requires forall j :: 0 <= j < |s.inodes| ==> |s.inodes[j].addrs| == |s'.inodes[j].addrs| == NDIRECT + 1
    requires forall j :: 0 <= j < |s.inodes| ==> s'.inodes[j].size == s.inodes[j].size
    requires MappedBut(s, i, e) && forall j, l :: Slot(s, j, l) && l < MAXFILE ==> Ref(s', j, l) == Ref(s, j, l)
    ensures MappedBut(s', i, e)
  {
    forall j | 0 <= j < |s'.inodes| ensures MappedTo(s', j, if j == i then e else s'.inodes[j].size) {
      assert MappedTo(s, j, if j == i then e else s.inodes[j].size);
      forall k | 0 <= k < MAXFILE ensures Ref(s', j, k) == Ref(s, j, k) {
        assert Slot(s, j, k);
      }
    }
  }

  // f with x at offset off.
  function Spliced(f: seq<Byte>, off: nat, x: seq<Byte>): seq<Byte>
    requires off <= |f|
  {
    f[..off] + x + if off + |x| < |f| then f[off + |x|..] else []
  }

  // The end of writei: the size is set and the files are as promised.
  lemma WriteEnd(g: Super, s0: State, s: State, s': State, i: nat, off: nat, x: seq<Byte>)
    requires Valid(g, s0) && Struct(g, s) && i < |s0.inodes| && off <= s0.inodes[i].size && off + |x| <= MAXFILE * BSIZE
    requires Written(g, s0, s, i, off, x) && MappedBut(s, i, Max(s0.inodes[i].size, off + |x|))
    requires s' == s.(inodes := s.inodes[i := s.inodes[i].(size := Max(s0.inodes[i].size, off + |x|))])
    ensures Valid(g, s') && File(s', i) == Spliced(File(s0, i), off, x)
    ensures |s'.inodes| == |s0.inodes|
    ensures forall j :: 0 <= j < |s0.inodes| && j != i ==> s'.inodes[j] == s0.inodes[j] && File(s', j) == File(s0, j)
  {
    forall j, l | Slot(s, j, l) ensures Ref(s', j, l) == Ref(s, j, l) {
    }
    SameRefs(g, s, s');
    forall j | 0 <= j < |s'.inodes| ensures MappedTo(s', j, s'.inodes[j].size) {
      assert MappedTo(s, j, if j == i then s'.inodes[i].size else s.inodes[j].size);
      forall k | 0 <= k < MAXFILE ensures Ref(s', j, k) == Ref(s, j, k) {
        assert Slot(s, j, k);
      }
    }
    forall j, p: nat | 0 <= j < |s'.inodes| ensures ByteAt(s', j, p) == ByteAt(s, j, p) {
      if p < MAXFILE * BSIZE {
        assert Slot(s, j, p / BSIZE);
      }
    }
  }
}
