/**
  The functions of log.c as methods.  trace records the disk after every block
  write, so a crash is a stop at any of its images.
 */
module LogCode {
  import opened Log

  // The images written by write_log and by install_trans.
  function LogImages(g: Layout, d: Disk, lh: seq<int>, cache: map<int, Block>, k: nat): (r: seq<Disk>)
    requires k <= |lh| && g.start + k < |d| && forall i :: 0 <= i < |lh| ==> lh[i] in cache
    ensures |r| == k && forall i :: 0 <= i < k ==> r[i] == Logged(g, d, lh, cache, i + 1)
  {
    if k == 0 then [] else LogImages(g, d, lh, cache, k - 1) + [Logged(g, d, lh, cache, k)]
  }

  function InstallImages(g: Layout, d: Disk, lh: seq<int>, k: nat): (r: seq<Disk>)
    requires k <= |lh| && g.start + k < |d| && forall i :: 0 <= i < |lh| ==> 0 <= lh[i] < |d|
    ensures |r| == k && forall i :: 0 <= i < k ==> r[i] == Installed(g, d, lh, i + 1)
  {
    if k == 0 then [] else InstallImages(g, d, lh, k - 1) + [Installed(g, d, lh, k)]
  }

  lemma CommitImages(g: Layout, d: Disk, lh: seq<int>, cache: map<int, Block>)
    requires Ready(g, d, lh, cache) && lh != []
    ensures ValidDisk(g, Logged(g, d, lh, cache, |lh|)) && ValidDisk(g, WithHead(g, Logged(g, d, lh, cache, |lh|), lh))
    ensures var h := WithHead(g, Logged(g, d, lh, cache, |lh|), lh);
      ValidDisk(g, Installed(g, h, lh, |lh|)) &&
      LogImages(g, d, lh, cache, |lh|) + [h] + InstallImages(g, h, lh, |lh|)
        + [WithHead(g, Installed(g, h, lh, |lh|), [])] ==
      CommitTrace(g, d, lh, cache)
  {
    hide Logged, Installed, WithHead, LogImages, InstallImages;
    HeaderWritten(g, d, lh, cache);
    var h := WithHead(g, Logged(g, d, lh, cache, |lh|), lh);
    InstalledValid(g, h, lh, |lh|);
    InstalledNone(g, h, lh);
    var t := LogImages(g, d, lh, cache, |lh|) + [h] + InstallImages(g, h, lh, |lh|)
      + [WithHead(g, Installed(g, h, lh, |lh|), [])];
    forall k | 0 <= k < |t| ensures t[k] == CommitTrace(g, d, lh, cache)[k] {
      assert CommitTrace(g, d, lh, cache)[k] == CommitImage(g, d, lh, cache, k);
    }
  }

  lemma InstalledNext(g: Layout, d: Disk, lh: seq<int>, k: nat)
    requires k < |lh| && g.start + k + 1 < |d| && forall i :: 0 <= i < |lh| ==> 0 <= lh[i] < |d|
    ensures Installed(g, d, lh, k + 1) == Installed(g, d, lh, k)[lh[k] := d[g.start + k + 1]]
    ensures InstallImages(g, d, lh, k + 1) == InstallImages(g, d, lh, k) + [Installed(g, d, lh, k + 1)]
  {
  }

  lemma InstalledNone(g: Layout, d: Disk, lh: seq<int>)
    requires g.start < |d| && forall i :: 0 <= i < |lh| ==> 0 <= lh[i] < |d|
    ensures Installed(g, d, lh, 0) == d && InstallImages(g, d, lh, 0) == []
  {
  }

  lemma RecoveryImages(g: Layout, d: Disk)
    requires HeaderOk(g, d)
    ensures var lh := Head(g, d);
      ValidDisk(g, Installed(g, d, lh, |lh|)) &&
      InstallImages(g, d, lh, |lh|) + [WithHead(g, Installed(g, d, lh, |lh|), [])] == RecoveryTrace(g, d)
  {
    InstalledValid(g, d, Head(g, d), |Head(g, d)|);
  }

  // The pinned buffers are those of the listed blocks.
  ghost predicate Pinned(cache: map<int, Block>, lh: seq<int>)
  {
    forall b :: b in cache <==> b in lh
  }

  lemma PinnedLess(cache: map<int, Block>, lh: seq<int>, k: nat)
    requires k < |lh| && Pinned(cache, lh[k..]) && forall i, j :: 0 <= i < j < |lh| ==> lh[i] != lh[j]
    ensures Pinned(cache - {lh[k]}, lh[k + 1..])
  {
    assert lh[k..] == [lh[k]] + lh[k + 1..];
    assert lh[k] !in lh[k + 1..];
  }

  lemma PinnedNone(cache: map<int, Block>, lh: seq<int>)
    requires Pinned(cache, lh) && lh == []
    ensures cache == map[]
  {
    assert forall b :: b in cache ==> b in lh;
  }

  class LogState {
    const g: Layout
    var disk: Disk
    var cache: map<int, Block>     // contents of the pinned buffers; every other buffer equals its disk block
    var lh: seq<int>               // log.lh: the logged block numbers
    var outstanding: nat
    var panicked: bool
    ghost var trace: seq<Disk>

    constructor (g: Layout, d: Disk)
      ensures this.g == g && disk == d && cache == map[] && lh == [] && trace == [] && outstanding == 0 && !panicked
    {
      this.g, disk, cache, lh, trace, outstanding, panicked := g, d, map[], [], [], 0, false;
    }

    // Only logged home blocks are pinned.
    ghost predicate Valid()
      reads this
    {
      ValidDisk(g, disk) && Loggable(g, lh) && Pinned(cache, lh) && forall b :: b in cache ==> |cache[b]| == WORDS
    }

    method Bread(b: int) returns (data: Block)
      requires 0 <= b < |disk|
      ensures data == if b in cache then cache[b] else disk[b]
    {
      data := if b in cache then cache[b] else disk[b];
    }

    method Bwrite(b: int, data: Block)
      requires 0 <= b < |disk|
      modifies `disk, `cache, `trace
      ensures disk == old(disk)[b := data] && trace == old(trace) + [disk]
      ensures cache == if b in old(cache) then old(cache)[b := data] else old(cache)
    {
      disk := disk[b := data];
      if b in cache {
        cache := cache[b := data];
      }
      trace := trace + [disk];
    }

    method WriteHead()
      requires ValidDisk(g, disk) && Loggable(g, lh) && g.start !in cache
      modifies `disk, `cache, `trace
      ensures disk == WithHead(g, old(disk), lh) && trace == old(trace) + [disk] && cache == old(cache)
      ensures HeaderOk(g, disk) && Head(g, disk) == lh
    {
      var hb := Bread(g.start);
      ghost var was := hb;
      HeadRoundTrip(g, disk, lh);
      hb := hb[0 := |lh|];
      for i := 0 to |lh|
        invariant |hb| == WORDS && hb == [|lh|] + lh[..i] + was[1 + i..]
      {
        hb := hb[1 + i := lh[i]];
      }
      assert lh[..|lh|] == lh;
      Bwrite(g.start, hb);
    }

    method ReadHead()
      requires HeaderOk(g, disk) && cache == map[]
      modifies `lh
      ensures lh == Head(g, disk)
    {
      var hb := Bread(g.start);
      lh := [];
      for i := 0 to hb[0]
        invariant lh == hb[1..1 + i]
      {
        lh := lh + [hb[1 + i]];
      }
    }

    method WriteLog()
      requires Valid()
      modifies `disk, `trace, `cache
      ensures Valid() && cache == old(cache) && disk == Logged(g, old(disk), lh, cache, |lh|)
      ensures trace == old(trace) + LogImages(g, old(disk), lh, cache, |lh|)
    {
      for tail := 0 to |lh|
        invariant Valid() && cache == old(cache) && disk == Logged(g, old(disk), lh, cache, tail)
        invariant trace == old(trace) + LogImages(g, old(disk), lh, cache, tail)
      {
        var from := Bread(lh[tail]);
        Bwrite(g.start + tail + 1, from);
      }
    }

    method InstallTrans(recovering: bool)
      requires ValidDisk(g, disk) && Loggable(g, lh)
      requires if recovering then cache == map[] else Pinned(cache, lh)
      requires forall b :: b in cache ==> b in lh
      modifies `disk, `trace, `cache
      ensures cache == map[] && disk == Installed(g, old(disk), lh, |lh|) && ValidDisk(g, disk)
      ensures trace == old(trace) + InstallImages(g, old(disk), lh, |lh|)
    {
      hide Pinned, Installed, InstallImages;
      InstalledNone(g, disk, lh);
      assert lh[0..] == lh;
      for tail := 0 to |lh|
        invariant disk == Installed(g, old(disk), lh, tail) && ValidDisk(g, disk)
        invariant recovering ==> cache == map[]
        invariant !recovering ==> Pinned(cache, lh[tail..])
        invariant forall b :: b in cache ==> b in lh
        invariant trace == old(trace) + InstallImages(g, old(disk), lh, tail)
      {
        InstalledValid(g, old(disk), lh, tail);
        InstalledNext(g, old(disk), lh, tail);
        var lbuf := Bread(g.start + tail + 1);
        ghost var c0 := cache;
        Bwrite(lh[tail], lbuf);
        if !recovering {
          PinnedLess(c0, lh, tail);
          cache := cache - {lh[tail]};
          assert cache == c0 - {lh[tail]};
        }
      }
      if !recovering {
        PinnedNone(cache, lh[|lh|..]);
      }
    }

    method Commit()
      requires Valid() && disk[g.start][0] == 0
      modifies `disk, `cache, `trace, `lh
      ensures Ready(g, old(disk), old(lh), old(cache))
      ensures trace == old(trace) + CommitTrace(g, old(disk), old(lh), old(cache))
      ensures Valid() && lh == [] && disk[g.start][0] == 0 && cache == map[]
      ensures Homes(g, disk) == Updated(g, old(disk), old(lh), old(cache))
    {
      if |lh| > 0 {
        CommitSome();
      } else {
        PinnedNone(cache, lh);
      }
    }

    method CommitSome()
      requires Valid() && disk[g.start][0] == 0 && lh != []
      modifies `disk, `cache, `trace, `lh
      ensures Ready(g, old(disk), old(lh), old(cache))
      ensures trace == old(trace) + CommitTrace(g, old(disk), old(lh), old(cache))
      ensures Valid() && lh == [] && disk[g.start][0] == 0 && cache == map[]
      ensures Homes(g, disk) == Updated(g, old(disk), old(lh), old(cache))
    {
      hide Logged, Installed, WithHead, CommitTrace, Homes, Updated, LogImages, InstallImages;
      CommitEnds(g, disk, lh, cache);
      CommitImages(g, disk, lh, cache);
      WriteLog();
      WriteHead();
      InstallTrans(false);
      lh := [];
      WriteHead();
      assert disk == trace[|trace| - 1];
    }

    method RecoverFromLog()
      requires HeaderOk(g, disk) && cache == map[]
      modifies `disk, `cache, `trace, `lh
      ensures trace == old(trace) + RecoveryTrace(g, old(disk))
      ensures Valid() && lh == [] && disk[g.start][0] == 0 && Homes(g, disk) == Recovered(g, old(disk))
    {
      RecoveryEnds(g, disk);
      RecoveryImages(g, disk);
      ReadHead();
      InstallTrans(true);
      lh := [];
      WriteHead();
      assert trace == old(trace) + RecoveryTrace(g, old(disk));
      assert disk == trace[|trace| - 1];
    }

    // The client has changed buffer b to data and holds its lock.
    method LogWrite(b: int, data: Block)
      requires Valid() && Home(g, b) && |data| == WORDS && !panicked
      modifies `lh, `cache, `panicked
      ensures panicked <==> |old(lh)| >= LOGSIZE || |old(lh)| >= g.size - 1 || outstanding < 1
      ensures panicked ==> lh == old(lh)
      ensures !panicked ==>
        Valid() && cache == old(cache)[b := data] && lh == if b in old(lh) then old(lh) else old(lh) + [b]
    {
      if |lh| >= LOGSIZE || |lh| >= g.size - 1 || outstanding < 1 {
        panicked := true;
        return;
      }
      cache := cache[b := data];
      var i := 0;
      while i < |lh| && lh[i] != b
        invariant i <= |lh| && b !in lh[..i]
      {
        i := i + 1;
      }
      if i == |lh| {
        lh := lh + [b];
      } else {
        lh := lh[i := b];
        assert lh == old(lh);
      }
    }
  }
}
