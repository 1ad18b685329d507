/**
  The redo log of log.c: the disk as blocks of words, the header block, and the
  block writes of commit and of recovery, one disk image per write.
 */
module Log {

  const MAXOPBLOCKS: nat := 10
  const LOGSIZE: nat := 3 * MAXOPBLOCKS
  const WORDS: nat := 256            // 32-bit words in a block of BSIZE bytes

  type Block = seq<int>
  type Disk = seq<Block>

  // The header block is at start, log slot i at start + 1 + i.
  datatype Layout = Layout(start: nat, size: nat, blocks: nat)

  ghost predicate ValidLayout(g: Layout)
  {
    1 <= g.size && g.start + g.size <= g.blocks
  }

  predicate Home(g: Layout, b: int)
  {
    0 <= b < g.blocks && !(g.start <= b < g.start + g.size)
  }

  ghost predicate ValidDisk(g: Layout, d: Disk)
  {
    ValidLayout(g) && |d| == g.blocks && forall b :: 0 <= b < |d| ==> |d[b]| == WORDS
  }

  // Block numbers that one transaction may log.
  ghost predicate Loggable(g: Layout, lh: seq<int>)
  {
    && |lh| <= LOGSIZE && |lh| < g.size
    && (forall i :: 0 <= i < |lh| ==> Home(g, lh[i]))
    && (forall i, j :: 0 <= i < j < |lh| ==> lh[i] != lh[j])
  }

  // ----- the header block -----

  function HeadWords(old_: Block, lh: seq<int>): Block
    requires |lh| < |old_|
  {
    [|lh|] + lh + old_[1 + |lh|..]
  }

  ghost predicate HeaderOk(g: Layout, d: Disk)
  {
    ValidDisk(g, d) && 0 <= d[g.start][0] < WORDS && Loggable(g, Head(g, d))
  }

  // The block numbers in the on-disk header.
  function Head(g: Layout, d: Disk): seq<int>
    requires g.start < |d| && |d[g.start]| == WORDS && 0 <= d[g.start][0] < WORDS
  {
    d[g.start][1..1 + d[g.start][0]]
  }

  function WithHead(g: Layout, d: Disk, lh: seq<int>): Disk
    requires g.start < |d| && |lh| < |d[g.start]|
  {
    d[g.start := HeadWords(d[g.start], lh)]
  }

  lemma HeadRoundTrip(g: Layout, d: Disk, lh: seq<int>)
    requires ValidDisk(g, d) && Loggable(g, lh)
    ensures HeaderOk(g, WithHead(g, d, lh)) && Head(g, WithHead(g, d, lh)) == lh
  {
    var w := HeadWords(d[g.start], lh);
    assert w[0] == |lh| && w[1..1 + |lh|] == lh;
  }

  // ----- the block writes -----

  // The first k cached blocks are in their log slots.
  function Logged(g: Layout, d: Disk, lh: seq<int>, cache: map<int, Block>, k: nat): Disk
    requires k <= |lh| && g.start + k < |d| && forall i :: 0 <= i < |lh| ==> lh[i] in cache
    ensures |Logged(g, d, lh, cache, k)| == |d|
  {
    if k == 0 then d else Logged(g, d, lh, cache, k - 1)[g.start + k := cache[lh[k - 1]]]
  }

  // The first k log slots are in their home blocks.
  function Installed(g: Layout, d: Disk, lh: seq<int>, k: nat): Disk
    requires k <= |lh| && g.start + k < |d| && forall i :: 0 <= i < |lh| ==> 0 <= lh[i] < |d|
    ensures |Installed(g, d, lh, k)| == |d|
  {
    if k == 0 then d else Installed(g, d, lh, k - 1)[lh[k - 1] := d[g.start + k]]
  }

  // What the home blocks hold.
  function Homes(g: Layout, d: Disk): map<int, Block>
    requires |d| == g.blocks
  {
    map b | 0 <= b < g.blocks && Home(g, b) :: d[b]
  }

  // What the home blocks hold once recovery has run to its end.
  function Recovered(g: Layout, d: Disk): map<int, Block>
    requires HeaderOk(g, d)
  {
    Homes(g, Installed(g, d, Head(g, d), |Head(g, d)|))
  }

  // The home blocks with the cached contents of the logged blocks.
  function Updated(g: Layout, d: Disk, lh: seq<int>, cache: map<int, Block>): map<int, Block>
    requires |d| == g.blocks && forall i :: 0 <= i < |lh| ==> lh[i] in cache
  {
    map b | 0 <= b < g.blocks && Home(g, b) :: if b in lh then cache[b] else d[b]
  }

  ghost predicate Ready(g: Layout, d: Disk, lh: seq<int>, cache: map<int, Block>)
  {
    && ValidDisk(g, d) && d[g.start][0] == 0 && Loggable(g, lh)
    && (forall i :: 0 <= i < |lh| ==> lh[i] in cache)
    && (forall b :: b in cache ==> |cache[b]| == WORDS)
  }

  // The disk after block write k of commit: the log slots, the header, the home blocks, the header.
  function CommitImage(g: Layout, d: Disk, lh: seq<int>, cache: map<int, Block>, k: nat): Disk
    requires Ready(g, d, lh, cache) && k <= 2 * |lh| + 1
  {
    if k < |lh| then Logged(g, d, lh, cache, k + 1)
    else
      LoggedValid(g, d, lh, cache, |lh|);
      var h := WithHead(g, Logged(g, d, lh, cache, |lh|), lh);
      InstalledValid(g, h, lh, |lh|);
      if k <= 2 * |lh| then Installed(g, h, lh, k - |lh|) else WithHead(g, Installed(g, h, lh, |lh|), [])
  }

  function CommitTrace(g: Layout, d: Disk, lh: seq<int>, cache: map<int, Block>): seq<Disk>
    requires Ready(g, d, lh, cache)
  {
    if lh == [] then []
    else
      seq(2 * |lh| + 2, k requires 0 <= k < 2 * |lh| + 2 && Ready(g, d, lh, cache) => CommitImage(g, d, lh, cache, k))
  }

  // The disk after block write k of recover_from_log.
  function RecoveryImage(g: Layout, d: Disk, k: nat): Disk
    requires HeaderOk(g, d) && k <= |Head(g, d)|
  {
    var lh := Head(g, d);
    InstalledValid(g, d, lh, |lh|);
    if k < |lh| then Installed(g, d, lh, k + 1) else WithHead(g, Installed(g, d, lh, |lh|), [])
  }

  function RecoveryTrace(g: Layout, d: Disk): seq<Disk>
    requires HeaderOk(g, d)
  {
    seq(|Head(g, d)| + 1, k requires HeaderOk(g, d) && 0 <= k < |Head(g, d)| + 1 => RecoveryImage(g, d, k))
  }

  // ----- what each image holds -----

  lemma {:induction false} LoggedValid(g: Layout, d: Disk, lh: seq<int>, cache: map<int, Block>, k: nat)
    requires ValidDisk(g, d) && Loggable(g, lh) && k <= |lh|
    requires (forall i :: 0 <= i < |lh| ==> lh[i] in cache) && forall b :: b in cache ==> |cache[b]| == WORDS
    ensures ValidDisk(g, Logged(g, d, lh, cache, k))
    ensures forall b :: 0 <= b < |d| && !(g.start < b <= g.start + k) ==> Logged(g, d, lh, cache, k)[b] == d[b]
    ensures forall i :: 0 <= i < k ==> Logged(g, d, lh, cache, k)[g.start + 1 + i] == cache[lh[i]]
  {
    if k > 0 {
      LoggedValid(g, d, lh, cache, k - 1);
    }
  }

  lemma {:induction false} InstalledValid(g: Layout, d: Disk, lh: seq<int>, k: nat)
    requires ValidDisk(g, d) && Loggable(g, lh) && k <= |lh|
    ensures ValidDisk(g, Installed(g, d, lh, k))
    ensures forall b :: 0 <= b < |d| && (b !in lh || !Home(g, b)) ==> Installed(g, d, lh, k)[b] == d[b]
    ensures forall i :: 0 <= i < k ==> Installed(g, d, lh, k)[lh[i]] == d[g.start + 1 + i]
  {
    if k > 0 {
      InstalledValid(g, d, lh, k - 1);
    }
  }

  // Only the header and the log slots it names decide which blocks recovery overwrites.
  lemma RecoveredIs(g: Layout, d: Disk)
    requires HeaderOk(g, d)
    ensures Recovered(g, d).Keys == Homes(g, d).Keys
    ensures forall b :: b in Homes(g, d) && b !in Head(g, d) ==> Recovered(g, d)[b] == d[b]
    ensures forall i :: 0 <= i < |Head(g, d)| ==>
      Head(g, d)[i] in Recovered(g, d) && Recovered(g, d)[Head(g, d)[i]] == d[g.start + 1 + i]
  {
    var lh := Head(g, d);
    InstalledValid(g, d, lh, |lh|);
  }

  lemma EmptyHead(g: Layout, d: Disk)
    requires ValidDisk(g, d) && d[g.start][0] == 0
    ensures HeaderOk(g, d) && Head(g, d) == [] && Recovered(g, d) == Homes(g, d)
  {
  }

  // Any partly recovered disk recovers to the same home blocks.
  lemma PartlyInstalled(g: Layout, d: Disk, k: nat)
    requires HeaderOk(g, d) && k <= |Head(g, d)|
    ensures HeaderOk(g, Installed(g, d, Head(g, d), k))
    ensures Recovered(g, Installed(g, d, Head(g, d), k)) == Recovered(g, d)
  {
    hide Recovered, Installed;
    var lh := Head(g, d);
    InstalledValid(g, d, lh, k);
    var d' := Installed(g, d, lh, k);
    assert Head(g, d') == lh;
    RecoveredIs(g, d);
    RecoveredIs(g, d');
    forall b | b in Homes(g, d) ensures Recovered(g, d')[b] == Recovered(g, d)[b] {
      if b in lh {
        var i :| 0 <= i < |lh| && lh[i] == b;
        assert d'[g.start + 1 + i] == d[g.start + 1 + i];
      } else {
        assert d'[b] == d[b];
      }
    }
  }

  lemma ClearedHead(g: Layout, d: Disk)
    requires ValidDisk(g, d)
    ensures ValidDisk(g, WithHead(g, d, [])) && WithHead(g, d, [])[g.start][0] == 0
    ensures HeaderOk(g, WithHead(g, d, [])) && Recovered(g, WithHead(g, d, [])) == Homes(g, d)
  {
    HeadRoundTrip(g, d, []);
    EmptyHead(g, WithHead(g, d, []));
  }

  // ----- crash atomicity -----

  // Recovery interrupted after any of its writes still recovers to the same home blocks.
  lemma RecoveryIdempotent(g: Layout, d: Disk, k: nat)
    requires HeaderOk(g, d) && k < |RecoveryTrace(g, d)|
    ensures HeaderOk(g, RecoveryTrace(g, d)[k]) && Recovered(g, RecoveryTrace(g, d)[k]) == Recovered(g, d)
  {
    var lh := Head(g, d);
    InstalledValid(g, d, lh, |lh|);
    if k < |lh| {
      PartlyInstalled(g, d, k + 1);
    } else {
      ClearedHead(g, Installed(g, d, lh, |lh|));
    }
  }

  // Recovery that runs to its end leaves those home blocks, and an empty header.
  lemma RecoveryEnds(g: Layout, d: Disk)
    requires HeaderOk(g, d)
    ensures var t := RecoveryTrace(g, d); |t| == |Head(g, d)| + 1 && ValidDisk(g, t[|t| - 1])
    ensures var t := RecoveryTrace(g, d); t[|t| - 1][g.start][0] == 0 && Homes(g, t[|t| - 1]) == Recovered(g, d)
  {
    InstalledValid(g, d, Head(g, d), |Head(g, d)|);
    ClearedHead(g, Installed(g, d, Head(g, d), |Head(g, d)|));
  }

  // Each boot starts from the disk that the previous, interrupted recovery left.
  ghost predicate Boots(g: Layout, disks: seq<Disk>)
  {
    && |disks| > 0 && (forall i :: 0 <= i < |disks| ==> HeaderOk(g, disks[i]))
    && (forall i :: 0 <= i < |disks| - 1 ==> disks[i + 1] == disks[i] || disks[i + 1] in RecoveryTrace(g, disks[i]))
  }

  lemma {:induction false} AnyNumberOfCrashes(g: Layout, disks: seq<Disk>)
    requires Boots(g, disks)
    ensures Recovered(g, disks[|disks| - 1]) == Recovered(g, disks[0])
  {
    if |disks| > 1 {
      var prev := disks[..|disks| - 1];
      forall i | 0 <= i < |prev| - 1 ensures prev[i + 1] == prev[i] || prev[i + 1] in RecoveryTrace(g, prev[i]) {
        assert disks[i + 1] == disks[i] || disks[i + 1] in RecoveryTrace(g, disks[i]);
      }
      AnyNumberOfCrashes(g, prev);
      var last, was := disks[|disks| - 1], disks[|disks| - 2];
      assert disks[|disks| - 2 + 1] == disks[|disks| - 2]
        || disks[|disks| - 2 + 1] in RecoveryTrace(g, disks[|disks| - 2]);
      if last != was {
        var k :| 0 <= k < |RecoveryTrace(g, was)| && RecoveryTrace(g, was)[k] == last;
        RecoveryIdempotent(g, was, k);
      }
    }
  }

  // A crash after write k of commit: before the header write the transaction never
  // happened, from the header write on it happened completely.
  lemma CommitAtomic(g: Layout, d: Disk, lh: seq<int>, cache: map<int, Block>, k: nat)
    requires Ready(g, d, lh, cache) && k < |CommitTrace(g, d, lh, cache)|
    ensures HeaderOk(g, CommitTrace(g, d, lh, cache)[k])
    ensures Recovered(g, CommitTrace(g, d, lh, cache)[k]) == if k < |lh| then Homes(g, d) else Updated(g, d, lh, cache)
  {
    hide Recovered, Installed, Logged;
    var n, c := |lh|, CommitTrace(g, d, lh, cache)[k];
    assert c == CommitImage(g, d, lh, cache, k);
    if k < n {
      LoggedValid(g, d, lh, cache, k + 1);
      EmptyHead(g, c);
      assert Homes(g, c) == Homes(g, d);
    } else {
      HeaderWritten(g, d, lh, cache);
      var h := WithHead(g, Logged(g, d, lh, cache, n), lh);
      if k <= 2 * n {
        PartlyInstalled(g, h, k - n);
      } else {
        InstalledValid(g, h, lh, n);
        ClearedHead(g, Installed(g, h, lh, n));
        RecoveredFull(g, h);
      }
    }
  }

  lemma RecoveredFull(g: Layout, d: Disk)
    requires HeaderOk(g, d)
    ensures Recovered(g, d) == Homes(g, Installed(g, d, Head(g, d), |Head(g, d)|))
  {
  }

  lemma HeaderWritten(g: Layout, d: Disk, lh: seq<int>, cache: map<int, Block>)
    requires Ready(g, d, lh, cache)
    ensures ValidDisk(g, Logged(g, d, lh, cache, |lh|))
    ensures var h := WithHead(g, Logged(g, d, lh, cache, |lh|), lh);
      HeaderOk(g, h) && Head(g, h) == lh && Recovered(g, h) == Updated(g, d, lh, cache)
  {
    hide Recovered, Installed, Logged;
    var n := |lh|;
    LoggedValid(g, d, lh, cache, n);
    var l := Logged(g, d, lh, cache, n);
    HeadRoundTrip(g, l, lh);
    var h := WithHead(g, l, lh);
    RecoveredIs(g, h);
    forall b | b in Homes(g, d) ensures Recovered(g, h)[b] == Updated(g, d, lh, cache)[b] {
      if b in lh {
        var i :| 0 <= i < |lh| && lh[i] == b;
        assert h[g.start + 1 + i] == l[g.start + 1 + i] == cache[b];
      } else {
        assert h[b] == d[b];
      }
    }
  }

  // A commit that runs to its end installs the transaction and empties the header.
  lemma CommitEnds(g: Layout, d: Disk, lh: seq<int>, cache: map<int, Block>)
    requires Ready(g, d, lh, cache) && lh != []
    ensures var t := CommitTrace(g, d, lh, cache); |t| == 2 * |lh| + 2 && ValidDisk(g, t[|t| - 1])
    ensures var t := CommitTrace(g, d, lh, cache);
      t[|t| - 1][g.start][0] == 0 && Homes(g, t[|t| - 1]) == Updated(g, d, lh, cache)
  {
    var n := |lh|;
    HeaderWritten(g, d, lh, cache);
    var h := WithHead(g, Logged(g, d, lh, cache, n), lh);
    InstalledValid(g, h, lh, n);
    ClearedHead(g, Installed(g, h, lh, n));
    EmptyHead(g, WithHead(g, Installed(g, h, lh, n), []));
  }
}
