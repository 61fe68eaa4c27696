/**
 The block log: a file of packed blocks, each followed by the position where it starts, and an index file of
 those positions.  How a block is packed is a parameter, with the one law that unpacking reads back what was
 packed and stops where it ended.
 */
module BlockLogs {
  import opened Common
  import opened Arithmetic

  /** A number in n bytes, low byte first. */
  function Bytes(v: nat, n: nat): (r: seq<Byte>)
    ensures |r| == n
  {
    if n == 0 then [] else [v % 256] + Bytes(v / 256, n - 1)
  }

  function Value(s: seq<Byte>): (v: nat)
  {
    if s == [] then 0 else (s[0] as int) + 256 * Value(s[1..])
  }

  function Power(n: nat): (r: nat)
  {
    if n == 0 then 1 else 256 * Power(n - 1)
  }

  lemma {:induction false} ValueOfBytes(v: nat, n: nat)
    requires v < Power(n)
    ensures Value(Bytes(v, n)) == v
  {
    if n > 0 {
      ValueOfBytes(v / 256, n - 1);
      assert Bytes(v, n)[1..] == Bytes(v / 256, n - 1);
    }
  }

  function Long(v: nat): (r: seq<Byte>)
    ensures |r| == 8
  {
    Bytes(v, 8)
  }

  lemma {:induction false} LongRoundTrip(v: nat)
    requires v < TWO_64
    ensures Value(Long(v)) == v
  {
    assert Power(8) == TWO_64;
    ValueOfBytes(v, 8);
  }

  ghost predicate Lawful<B(!new)>(pack: B -> seq<Byte>, unpack: seq<Byte> -> (B, nat))
  {
    forall b: B, rest: seq<Byte> :: unpack(pack(b) + rest) == (b, |pack(b)|)
  }

  /** The log file of a sequence of blocks. */
  ghost function LogBytes<B>(pack: B -> seq<Byte>, blocks: seq<B>): (r: seq<Byte>)
  {
    if blocks == [] then []
    else
      var n := |blocks| - 1;
      var before := LogBytes(pack, blocks[..n]);
      before + pack(blocks[n]) + Long(|before|)
  }

  /** Where block i (from 0) starts. */
  ghost function Start<B>(pack: B -> seq<Byte>, blocks: seq<B>, i: nat): (r: nat)
    requires i <= |blocks|
  {
    |LogBytes(pack, blocks[..i])|
  }

  /** The true index. */
  ghost function IndexBytes<B>(pack: B -> seq<Byte>, blocks: seq<B>): (r: seq<Byte>)
    ensures |r| == 8 * |blocks|
  {
    if blocks == [] then []
    else
      var n := |blocks| - 1;
      IndexBytes(pack, blocks[..n]) + Long(|LogBytes(pack, blocks[..n])|)
  }

  lemma {:induction false} LogPrefix<B>(pack: B -> seq<Byte>, blocks: seq<B>, i: nat)
    requires i <= |blocks|
    ensures LogBytes(pack, blocks[..i]) <= LogBytes(pack, blocks)
    ensures IndexBytes(pack, blocks[..i]) <= IndexBytes(pack, blocks)
  {
    if i < |blocks| {
      var n := |blocks| - 1;
      LogPrefix(pack, blocks[..n], i);
      assert blocks[..n][..i] == blocks[..i];
    } else {
      assert blocks[..i] == blocks;
    }
  }

  /** What the files hold at block i: its packed form, its position, and then the next block. */
  lemma {:induction false} EntryAt<B>(pack: B -> seq<Byte>, blocks: seq<B>, i: nat)
    requires i < |blocks|
    ensures var file := LogBytes(pack, blocks);
            var start := Start(pack, blocks, i);
            var next := Start(pack, blocks, i + 1);
            && next == start + |pack(blocks[i])| + 8 && next <= |file|
            && file[start..] == pack(blocks[i]) + file[next - 8..]
            && file[next - 8..next] == Long(start)
            && IndexBytes(pack, blocks)[8 * i..8 * i + 8] == Long(start)
            && IndexBytes(pack, blocks[..i + 1]) == IndexBytes(pack, blocks[..i]) + Long(start)
  {
    hide Long;
    LogPrefix(pack, blocks, i + 1);
    assert blocks[..i + 1][..i] == blocks[..i];
    var before := LogBytes(pack, blocks[..i]);
    Slices(LogBytes(pack, blocks), before, pack(blocks[i]), Long(|before|));
    Slices(IndexBytes(pack, blocks), IndexBytes(pack, blocks[..i]), [], Long(|before|));
  }

  lemma {:induction false} Slices(file: seq<Byte>, a: seq<Byte>, b: seq<Byte>, c: seq<Byte>)
    requires a + b + c <= file
    ensures file[|a|..] == b + file[|a| + |b|..]
    ensures file[|a| + |b|..|a| + |b| + |c|] == c
  {
    var whole := a + b + c;
    assert file[..|whole|] == whole;
    assert whole[|a|..|a| + |b|] == b && whole[|a| + |b|..] == c;
    assert file[|a|..|a| + |b|] == whole[|a|..|a| + |b|];
    assert file[|a|..] == file[|a|..|a| + |b|] + file[|a| + |b|..];
  }

  /** Later blocks start later. */
  lemma {:induction false} StartsRise<B>(pack: B -> seq<Byte>, blocks: seq<B>, i: nat, j: nat)
    requires i < j <= |blocks|
    ensures Start(pack, blocks, i) + 8 <= Start(pack, blocks, j)
  {
    EntryAt(pack, blocks, j - 1);
    if i < j - 1 {
      StartsRise(pack, blocks, i, j - 1);
    }
  }

  class BlockLog<B(!new)> {
    const pack: B -> seq<Byte>
    const unpack: seq<Byte> -> (B, nat)
    const num: B -> nat            // block_num
    var file: seq<Byte>            // the log file
    var index: seq<Byte>           // the index file
    var head: Option<B>
    ghost var blocks: seq<B>       // what has been appended

    /** The log file is that of the blocks, numbered from 1. */
    ghost predicate LogValid()
      reads this
    {
      && Lawful(pack, unpack)
      && file == LogBytes(pack, blocks) && |file| < TWO_64
      && forall i :: 0 <= i < |blocks| ==> num(blocks[i]) == i + 1
    }

    ghost predicate HeadValid()
      reads this
    {
      head == if blocks == [] then None else Some(blocks[|blocks| - 1])
    }

    ghost predicate Valid()
      reads this
    {
      LogValid() && HeadValid() && index == IndexBytes(pack, blocks)
    }

    constructor (pack: B -> seq<Byte>, unpack: seq<Byte> -> (B, nat), num: B -> nat)
      requires Lawful(pack, unpack)
      ensures Valid() && blocks == [] && this.pack == pack && this.num == num
    {
      this.pack, this.unpack, this.num := pack, unpack, num;
      file, index, head, blocks := [], [], None, [];
    }

    /** Appends a block if it is the next one; refused otherwise. */
    method Append(b: B) returns (r: Option<nat>)
      requires Valid() && num(b) > 0 && |file| + |pack(b)| + 8 < TWO_64
      modifies this
      ensures Valid()
      ensures r.Some? <==> num(b) == |old(blocks)| + 1
      ensures blocks == if r.Some? then old(blocks) + [b] else old(blocks)
      ensures r.Some? ==> r.value == |old(file)|
    {
      hide Lawful;
      var pos := |file|;
      if |index| != 8 * (num(b) - 1) {
        return None;
      }
      file := file + pack(b) + Long(pos);
      index := index + Long(pos);
      head := Some(b);
      blocks := blocks + [b];
      assert blocks[..|blocks| - 1] == old(blocks);
      r := Some(pos);
    }

    /** The block that starts at `pos`, and where the next one starts. */
    method ReadBlock(pos: nat, ghost i: nat) returns (b: B, next: nat)
      requires LogValid() && i < |blocks| && pos == Start(pack, blocks, i)
      ensures b == blocks[i] && next == Start(pack, blocks, i + 1)
    {
      hide LogBytes, IndexBytes, Start, Long;
      EntryAt(pack, blocks, i);
      var (block, n) := unpack(file[pos..]);
      b, next := block, pos + n + 8;
    }

    method GetBlockPos(n: nat) returns (r: Option<nat>)
      requires Valid()
      ensures r.Some? <==> 0 < n <= |blocks|
      ensures r.Some? ==> r.value == Start(pack, blocks, n - 1)
    {
      hide LogBytes, IndexBytes, Start, Long, Lawful;
      if head.None? || n > num(head.value) || n == 0 {
        return None;
      }
      EntryAt(pack, blocks, n - 1);
      LongRoundTrip(Start(pack, blocks, n - 1));
      r := Some(Value(index[8 * (n - 1)..8 * (n - 1) + 8]));
    }

    /** Reading by number finds exactly the n-th block, and nothing outside the range. */
    method ReadBlockByNum(n: nat) returns (r: Option<B>)
      requires Valid()
      ensures r == if 0 < n <= |blocks| then Some(blocks[n - 1]) else None
    {
      hide LogBytes, IndexBytes, Start, Lawful;
      var pos := GetBlockPos(n);
      if pos.None? {
        return None;
      }
      var b, _ := ReadBlock(pos.value, n - 1);
      r := Some(b);
    }

    method LastPosition() returns (pos: nat)
      requires LogValid() && blocks != []
      ensures pos == Start(pack, blocks, |blocks| - 1) && |file| >= 8
    {
      hide LogBytes, IndexBytes, Start, Long, Lawful;
      LastEntry(pack, blocks);
      LongRoundTrip(Start(pack, blocks, |blocks| - 1));
      pos := Value(file[|file| - 8..]);
    }

    method ReadHead() returns (b: B)
      requires LogValid() && blocks != []
      ensures b == blocks[|blocks| - 1]
    {
      var pos := LastPosition();
      b, pos := ReadBlock(pos, |blocks| - 1);
    }

    /** Reading on from the start visits every block once, in order. */
    method Replay() returns (visited: seq<B>)
      requires LogValid() && HeadValid() && blocks != []
      ensures visited == blocks
    {
      hide LogBytes, IndexBytes, Start, Lawful;
      StartsAtZero(pack, blocks);
      var b, next := ReadBlock(0, 0);
      var last := num(head.value);
      visited := [];
      while num(b) != last
        invariant |visited| < |blocks| && visited == blocks[..|visited|]
        invariant b == blocks[|visited|] && next == Start(pack, blocks, |visited| + 1)
        decreases |blocks| - |visited|
      {
        visited := visited + [b];
        b, next := ReadBlock(next, |visited|);
      }
      visited := visited + [b];
    }

    /** Writes the index anew; a log of one block gets none, because its position is where the loop means to stop. */
    method ConstructIndex()
      requires LogValid() && blocks != []
      modifies this`index
      ensures index == if |blocks| == 1 then [] else IndexBytes(pack, blocks)
    {
      hide LogBytes, IndexBytes, Start, Lawful;
      index := [];
      var pos, cursor := 0, 0;
      var end := LastPosition();
      ghost var i := 0;
      StartsAtZero(pack, blocks);
      while pos < end
        invariant i <= |blocks| && cursor == Start(pack, blocks, i) && index == IndexBytes(pack, blocks[..i])
        invariant pos == if i == 0 then 0 else Start(pack, blocks, i - 1)
        invariant |blocks| == 1 ==> i == 0
        decreases |blocks| - i
      {
        pos, cursor := ReadPosition(cursor, i);
        EntryAt(pack, blocks, i);
        index := index + Long(pos);
        i := i + 1;
      }
      if 0 < i < |blocks| {
        StartsRise(pack, blocks, i - 1, |blocks| - 1);
      } else if i == 0 && |blocks| > 1 {
        StartsRise(pack, blocks, 0, |blocks| - 1);
      }
      assert blocks[..|blocks|] == blocks;
    }

    /** Unpacks a block and reads the position written after it. */
    method ReadPosition(cursor: nat, ghost i: nat) returns (pos: nat, next: nat)
      requires LogValid() && i < |blocks| && cursor == Start(pack, blocks, i)
      ensures pos == cursor && next == Start(pack, blocks, i + 1)
    {
      hide LogBytes, IndexBytes, Start, Long;
      EntryAt(pack, blocks, i);
      LongRoundTrip(cursor);
      var (_, n) := unpack(file[cursor..]);
      pos := Value(file[cursor + n..cursor + n + 8]);
      next := cursor + n + 8;
    }

    /**
     Opening files as they were left: the log is sound, the index may be anything.  An index is kept if its
     last position is that of the last block and rebuilt otherwise.
     */
    method Open() returns (ok: bool)
      requires LogValid() && head == None
      modifies this`index, this`head
      ensures ok <==> blocks == [] || old(index) == [] || |old(index)| >= 8
      ensures ok ==> HeadValid() && (Valid() <==> Recovers(pack, blocks, old(index)))
    {
      hide LogBytes, IndexBytes, Start, Lawful, Long, Value;
      if file != [] {
        LogNonEmpty(pack, blocks);
        var b := ReadHead();
        head := Some(b);
        var last := LastPosition();
        LastEntry(pack, blocks);
        LongRoundTrip(last);
        if index != [] {
          if |index| < 8 {
            return false;
          }
          if last != Value(index[|index| - 8..]) {
            ConstructIndex();
          }
        } else {
          ConstructIndex();
        }
      } else {
        LogNonEmpty(pack, blocks);
        index := [];
      }
      ok := true;
    }
  }

  lemma {:induction false} StartsAtZero<B>(pack: B -> seq<Byte>, blocks: seq<B>)
    ensures Start(pack, blocks, 0) == 0 && IndexBytes(pack, blocks[..0]) == []
  {
  }

  lemma {:induction false} LogNonEmpty<B>(pack: B -> seq<Byte>, blocks: seq<B>)
    ensures LogBytes(pack, blocks) == [] <==> blocks == []
    ensures IndexBytes(pack, blocks) == [] <==> blocks == []
  {
  }

  /** Both files end with the position of the last block. */
  lemma {:induction false} LastEntry<B>(pack: B -> seq<Byte>, blocks: seq<B>)
    requires blocks != []
    ensures var file := LogBytes(pack, blocks);
            var start := Start(pack, blocks, |blocks| - 1);
            && start + 8 <= |file| && file[|file| - 8..] == Long(start)
            && IndexBytes(pack, blocks)[8 * |blocks| - 8..] == Long(start)
  {
    EntryAt(pack, blocks, |blocks| - 1);
    assert blocks[..|blocks|] == blocks;
  }

  /** Which indexes end up right when the log is opened. */
  ghost predicate Recovers<B>(pack: B -> seq<Byte>, blocks: seq<B>, index: seq<Byte>)
  {
    || blocks == []
    || index == IndexBytes(pack, blocks)
    || (|blocks| > 1 && (index == [] || (|index| >= 8
      && Value(index[|index| - 8..]) != Start(pack, blocks, |blocks| - 1))))
  }

  /** An index that lags behind is restored, except that of a log with a single block. */
  lemma {:induction false} PrefixRecovers<B>(pack: B -> seq<Byte>, blocks: seq<B>, k: nat)
    requires k <= |blocks| && |LogBytes(pack, blocks)| < TWO_64
    ensures Recovers(pack, blocks, IndexBytes(pack, blocks[..k])) <==> !(|blocks| == 1 && k == 0)
  {
    if 0 < k < |blocks| {
      var part := blocks[..k];
      LastEntry(pack, part);
      assert part[..k - 1] == blocks[..k - 1];
      StartsRise(pack, blocks, k - 1, |blocks| - 1);
      LastEntry(pack, blocks);
      LongRoundTrip(Start(pack, blocks, k - 1));
    } else if k == |blocks| {
      assert blocks[..k] == blocks;
    }
  }
}
