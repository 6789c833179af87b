/** The agent's ranged download: a file is cut into blocks, each block is fetched with an inclusive
    byte range and written at its offset, in whatever order the blocks complete. */
module BlockDownload {
  import opened Basics
  import opened RangeHeader
  import opened Text

  datatype Plan = Plan(blockLength: nat, blockCount: nat)

  /** How a runner cuts a file of `fileLength` bytes. */
  function Cut(fileLength: nat, maxBlock: nat): (p: Plan)
    requires fileLength > 0 && maxBlock > 0
    ensures p.blockLength > 0 && p.blockCount > 0
  {
    if fileLength > maxBlock then
      if fileLength % maxBlock != 0 then Plan(maxBlock, fileLength / maxBlock + 1)
      else
        assert fileLength / maxBlock > 0 by { DivPositive(fileLength, maxBlock); }
        Plan(maxBlock, fileLength / maxBlock)
    else Plan(fileLength, 1)
  }

  lemma DivPositive(a: nat, b: nat)
    requires 0 < b <= a
    ensures a / b > 0
  {
  }

  /** The last block ends where the file ends, and no earlier block reaches that far. */
  lemma LastBlock(fileLength: nat, maxBlock: nat)
    requires fileLength > 0 && maxBlock > 0
    ensures var p := Cut(fileLength, maxBlock);
            (p.blockCount - 1) * p.blockLength < fileLength <= p.blockCount * p.blockLength
  {
    var q := fileLength / maxBlock;
    assert fileLength == q * maxBlock + fileLength % maxBlock;
    assert (q + 1) * maxBlock == q * maxBlock + maxBlock;
    assert q > 0 ==> (q - 1) * maxBlock == q * maxBlock - maxBlock;
  }

  lemma BlockStarts(fileLength: nat, maxBlock: nat, block: nat)
    requires fileLength > 0 && maxBlock > 0
    requires block < Cut(fileLength, maxBlock).blockCount
    ensures var p := Cut(fileLength, maxBlock);
            block * p.blockLength < fileLength
            && (block + 1 < p.blockCount ==> block * p.blockLength + p.blockLength <= fileLength)
  {
    var p := Cut(fileLength, maxBlock);
    LastBlock(fileLength, maxBlock);
    MulMonotone(block, p.blockCount - 1, p.blockLength);
    if block + 1 < p.blockCount {
      MulMonotone(block + 1, p.blockCount - 1, p.blockLength);
      assert (block + 1) * p.blockLength == block * p.blockLength + p.blockLength;
    }
  }

  lemma MulMonotone(a: nat, b: nat, c: nat)
    requires a <= b
    ensures a * c <= b * c
  {
  }

  /** The inclusive byte range asked for one block. Every subtraction here stays at or above zero. */
  function BlockRange(fileLength: nat, maxBlock: nat, block: nat): (r: Range)
    requires fileLength > 0 && maxBlock > 0
    requires block < Cut(fileLength, maxBlock).blockCount
    ensures r.start <= r.end < fileLength
    ensures r.end - r.start < maxBlock
  {
    var p := Cut(fileLength, maxBlock);
    BlockStarts(fileLength, maxBlock, block);
    LastBlock(fileLength, maxBlock);
    assert block == p.blockCount - 1 ==> fileLength <= block * p.blockLength + p.blockLength by {
      assert (block + 1) * p.blockLength == block * p.blockLength + p.blockLength;
    }
    var realLength: nat := if block == p.blockCount - 1 then fileLength - block * p.blockLength - 1
                           else p.blockLength - 1;
    Range(block * p.blockLength, block * p.blockLength + realLength)
  }

  /** A block ends one byte before the next one starts, or with the file. */
  lemma BlockEnds(fileLength: nat, maxBlock: nat, block: nat)
    requires fileLength > 0 && maxBlock > 0
    requires block < Cut(fileLength, maxBlock).blockCount
    ensures var p := Cut(fileLength, maxBlock);
            var next := (block + 1) * p.blockLength;
            BlockRange(fileLength, maxBlock, block).start == block * p.blockLength
            && BlockRange(fileLength, maxBlock, block).end + 1 == if next < fileLength then next else fileLength
  {
    var p := Cut(fileLength, maxBlock);
    assert (block + 1) * p.blockLength == block * p.blockLength + p.blockLength;
    BlockStarts(fileLength, maxBlock, block);
    LastBlock(fileLength, maxBlock);
  }

  lemma QuotientBlock(pos: nat, len: nat, block: nat)
    requires len > 0
    ensures block * len <= pos < (block + 1) * len <==> block == pos / len
  {
    var q := pos / len;
    assert pos == q * len + pos % len;
    assert (q + 1) * len == q * len + len;
    if block < q { MulMonotone(block + 1, q, len); }
    if q < block { MulMonotone(q + 1, block, len); }
  }

  /** Exactly one block covers each byte: the ranges are disjoint and leave nothing out. */
  lemma OneBlockPerByte(fileLength: nat, maxBlock: nat, pos: nat, block: nat)
    requires fileLength > 0 && maxBlock > 0 && pos < fileLength
    requires block < Cut(fileLength, maxBlock).blockCount
    ensures var r := BlockRange(fileLength, maxBlock, block);
            r.start <= pos <= r.end <==> block == BlockOf(fileLength, maxBlock, pos)
  {
    BlockEnds(fileLength, maxBlock, block);
    QuotientBlock(pos, Cut(fileLength, maxBlock).blockLength, block);
  }

  /** The block a byte belongs to. */
  function BlockOf(fileLength: nat, maxBlock: nat, pos: nat): (block: nat)
    requires fileLength > 0 && maxBlock > 0 && pos < fileLength
    ensures block < Cut(fileLength, maxBlock).blockCount
  {
    var p := Cut(fileLength, maxBlock);
    LastBlock(fileLength, maxBlock);
    QuotientBlock(pos, p.blockLength, pos / p.blockLength);
    assert pos / p.blockLength < p.blockCount by {
      if pos / p.blockLength >= p.blockCount { MulMonotone(p.blockCount, pos / p.blockLength, p.blockLength); }
    }
    pos / p.blockLength
  }

  /** The range the agent prints for a block is the range the store's parser reads. */
  lemma RangeReachesStore(fileLength: nat, maxBlock: nat, block: nat)
    requires 0 < fileLength < TWO64 && maxBlock > 0
    requires block < Cut(fileLength, maxBlock).blockCount
    ensures ParseHeader(PrintHeader([BlockRange(fileLength, maxBlock, block)]))
            == Some([BlockRange(fileLength, maxBlock, block)])
  {
    HeaderRoundTrip([BlockRange(fileLength, maxBlock, block)]);
  }

  // ---------------------------------------------------------------- writing the blocks

  /** The bytes the store answers with for an inclusive range. */
  function Slice(content: seq<byte>, r: Range): (bytes: seq<byte>)
    requires r.start <= r.end < |content|
    ensures |bytes| == r.end - r.start + 1
  {
    content[r.start..r.end + 1]
  }

  /** Seek to an offset and write. */
  method WriteAt(disk: array<byte>, offset: nat, bytes: seq<byte>)
    requires offset + |bytes| <= disk.Length
    modifies disk
    ensures forall b :: 0 <= b < disk.Length ==>
                          disk[b] == if offset <= b < offset + |bytes| then bytes[b - offset] else old(disk[b])
  {
    forall j | 0 <= j < |bytes| {
      disk[offset + j] := bytes[j];
    }
  }

  /** What becomes of a block task: it asks for its range up to four times, or it dies. */
  datatype Fate = Tries(answered: seq<bool>) | Crash

  const TRIES := 4

  predicate Answers(fate: Fate, i: nat) {
    fate.Tries? && i < |fate.answered| && fate.answered[i]
  }

  /** One of the tries is answered. */
  predicate Fetched(fate: Fate) {
    exists i: nat :: i < TRIES && Answers(fate, i)
  }

  datatype Loss = Unanswered

  /** How a block task ends: a crash is what its join fails with, an error is a value it returns. */
  function EndOf(fate: Fate): Outcome<(), Loss> {
    if fate.Crash? then Panicked else if Fetched(fate) then Done(()) else Failed(Unanswered)
  }

  /** One block task: the tries, and the write once one is answered. */
  method DownloadTask(content: seq<byte>, maxBlock: nat, block: nat, fate: Fate, disk: array<byte>)
    returns (end: Outcome<(), Loss>)
    requires maxBlock > 0 && |content| > 0 && disk.Length == |content|
    requires block < Cut(|content|, maxBlock).blockCount
    modifies disk
    ensures end == EndOf(fate)
    ensures forall b :: 0 <= b < |content| ==>
                          disk[b] == if Fetched(fate) && BlockOf(|content|, maxBlock, b) == block then content[b]
                                     else old(disk[b])
  {
    if fate.Crash? { return Panicked; }
    var i := 0;
    while !Answers(fate, i)
      invariant 0 <= i < TRIES && forall j: nat :: j < i ==> !Answers(fate, j)
      decreases TRIES - i
    {
      i := i + 1;
      if i == TRIES { return Failed(Unanswered); }
    }
    var r := BlockRange(|content|, maxBlock, block);
    WriteAt(disk, r.start, Slice(content, r));
    forall b | 0 <= b < |content|
      ensures disk[b] == if BlockOf(|content|, maxBlock, b) == block then content[b] else old(disk[b])
    {
      OneBlockPerByte(|content|, maxBlock, b, block);
    }
    return Done(());
  }

  /** The blocks whose bytes never arrived. */
  function Lost(fates: seq<Fate>): set<nat> {
    set block | 0 <= block < |fates| && !Fetched(fates[block])
  }

  /** The disk after every block task has ended: a fresh file is all zeros where nothing was written. */
  function Downloaded(content: seq<byte>, maxBlock: nat, lost: set<nat>): (disk: seq<byte>)
    requires maxBlock > 0 && |content| > 0
  {
    seq(|content|, b requires 0 <= b < |content| =>
      if BlockOf(|content|, maxBlock, b) in lost then 0 else content[b])
  }

  function Ends(fates: seq<Fate>): seq<Outcome<(), Loss>> {
    seq(|fates|, k requires 0 <= k < |fates| => EndOf(fates[k]))
  }

  /** What the joins of some tasks, in the order they were spawned, amount to. */
  function JoinAll(ends: seq<Outcome<(), Loss>>): bool {
    ends == [] || (!ends[0].Panicked? && JoinAll(ends[1..]))
  }

  /** The loop over the joins: what a joined task returned is dropped unseen. */
  method Join(ends: seq<Outcome<(), Loss>>) returns (reported: bool)
    ensures reported == JoinAll(ends)
  {
    var k := 0;
    while k < |ends|
      invariant 0 <= k <= |ends| && JoinAll(ends) == JoinAll(ends[k..])
    {
      assert ends[k..][0] == ends[k] && ends[k..][1..] == ends[k + 1..];
      match ends[k] {
        case Panicked => return false;
        case _ => k := k + 1;
      }
    }
    return true;
  }

  /** The block tasks, run in the order they complete. */
  method RunTasks(content: seq<byte>, maxBlock: nat, order: seq<nat>, fates: seq<Fate>, disk: array<byte>)
    returns (ends: seq<Outcome<(), Loss>>)
    requires maxBlock > 0 && |content| > 0 && disk.Length == |content|
    requires |fates| == Cut(|content|, maxBlock).blockCount
    requires forall block :: 0 <= block < |fates| <==> block in order
    requires forall b :: 0 <= b < |content| ==> disk[b] == 0
    modifies disk
    ensures ends == Ends(fates) && disk[..] == Downloaded(content, maxBlock, Lost(fates))
  {
    var results := new Outcome<(), Loss>[|fates|](_ => Panicked);
    for k := 0 to |order|
      invariant forall block :: 0 <= block < |fates| && block in order[..k] ==> results[block] == EndOf(fates[block])
      invariant forall b :: 0 <= b < |content| ==>
                              var block := BlockOf(|content|, maxBlock, b);
                              disk[b] == if block in order[..k] && Fetched(fates[block]) then content[b] else 0
    {
      assert order[..k + 1] == order[..k] + [order[k]];
      assert order[k] in order;
      results[order[k]] := DownloadTask(content, maxBlock, order[k], fates[order[k]], disk);
    }
    assert order[..|order|] == order;
    ends := results[..];
    forall b | 0 <= b < |content| ensures disk[b] == Downloaded(content, maxBlock, Lost(fates))[b] {
      var block := BlockOf(|content|, maxBlock, b);
      assert block in order;
    }
  }

  /** The runner: cut, create a zero-filled file, spawn a task for each block, join them. `order` is the
      order in which the tasks complete. */
  method Run(content: seq<byte>, maxBlock: nat, order: seq<nat>, fates: seq<Fate>)
    returns (disk: array<byte>, reported: bool)
    requires maxBlock > 0 && |content| > 0
    requires |fates| == Cut(|content|, maxBlock).blockCount
    requires forall block :: 0 <= block < |fates| <==> block in order
    ensures fresh(disk) && disk[..] == Downloaded(content, maxBlock, Lost(fates))
    ensures reported == JoinAll(Ends(fates))
  {
    disk := new byte[|content|](_ => 0);
    var ends := RunTasks(content, maxBlock, order, fates, disk);
    reported := Join(ends);
  }

  /** Every block fetched: the disk holds exactly the file, whatever the completion order. */
  lemma CompleteDownload(content: seq<byte>, maxBlock: nat, fates: seq<Fate>)
    requires maxBlock > 0 && |content| > 0 && |fates| == Cut(|content|, maxBlock).blockCount
    requires forall k :: 0 <= k < |fates| ==> Fetched(fates[k])
    ensures Downloaded(content, maxBlock, Lost(fates)) == content && JoinAll(Ends(fates))
  {
    JoinedUnless(Ends(fates));
  }

  lemma {:induction false} JoinedUnless(ends: seq<Outcome<(), Loss>>)
    ensures JoinAll(ends) <==> forall k :: 0 <= k < |ends| ==> !ends[k].Panicked?
  {
    if ends != [] {
      JoinedUnless(ends[1..]);
      assert forall k :: 1 <= k < |ends| ==> ends[k] == ends[1..][k - 1];
    }
  }

  /** The disk holds the file exactly when each lost block held nothing but zeros. */
  lemma LossShows(content: seq<byte>, maxBlock: nat, lost: set<nat>)
    requires maxBlock > 0 && |content| > 0
    ensures Downloaded(content, maxBlock, lost) == content <==>
            forall b :: 0 <= b < |content| && BlockOf(|content|, maxBlock, b) in lost ==> content[b] == 0
  {
    var disk := Downloaded(content, maxBlock, lost);
    if disk == content {
      forall b | 0 <= b < |content| && BlockOf(|content|, maxBlock, b) in lost ensures content[b] == 0 {
        assert disk[b] == 0;
      }
    }
  }

  /** A wrong file is reported as a success exactly when no task died and some block that was never
      answered holds a byte other than zero. Only a task that died is ever reported. */
  lemma LossGoesUnnoticed(content: seq<byte>, maxBlock: nat, fates: seq<Fate>)
    requires maxBlock > 0 && |content| > 0 && |fates| == Cut(|content|, maxBlock).blockCount
    ensures JoinAll(Ends(fates)) <==> forall k :: 0 <= k < |fates| ==> !fates[k].Crash?
    ensures JoinAll(Ends(fates)) && Downloaded(content, maxBlock, Lost(fates)) != content <==>
            && (forall k :: 0 <= k < |fates| ==> !fates[k].Crash?)
            && exists b :: 0 <= b < |content| && !Fetched(fates[BlockOf(|content|, maxBlock, b)]) && content[b] != 0
  {
    JoinedUnless(Ends(fates));
    forall k | 0 <= k < |fates| ensures Ends(fates)[k].Panicked? <==> fates[k].Crash? {}
    assert JoinAll(Ends(fates)) ==> forall k :: 0 <= k < |fates| ==> !Ends(fates)[k].Panicked?;
    LossShows(content, maxBlock, Lost(fates));
  }

  /** A byte of a block that is answered on any of four tries is the file's; of a block whose four tries all
      failed, whatever a fifth would bring, it is zero. */
  lemma FourTries(content: seq<byte>, maxBlock: nat, fates: seq<Fate>, b: nat)
    requires maxBlock > 0 && b < |content| && |fates| == Cut(|content|, maxBlock).blockCount
    requires var fate := fates[BlockOf(|content|, maxBlock, b)]; fate.Tries? && |fate.answered| >= 4
    ensures var fate := fates[BlockOf(|content|, maxBlock, b)];
            var got := fate.answered[0] || fate.answered[1] || fate.answered[2] || fate.answered[3];
            && EndOf(fate) == (if got then Done(()) else Failed(Unanswered))
            && Downloaded(content, maxBlock, Lost(fates))[b] == if got then content[b] else 0
  {
    var fate := fates[BlockOf(|content|, maxBlock, b)];
    assert Answers(fate, 0) == fate.answered[0] && Answers(fate, 1) == fate.answered[1];
    assert Answers(fate, 2) == fate.answered[2] && Answers(fate, 3) == fate.answered[3];
  }
}
