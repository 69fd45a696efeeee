/**
 dataBuffer: a byte FIFO over a list of fixed-size chunks that are recycled through a pool.
 */
module DataBuffer {
  import opened Basics

  const SIZE_CLASSES: seq<nat> := [1024, 2048, 4096, 8192, 16384]

  // -------------------------------------------------- chunk contents as values

  /** The bytes up to the write position: all chunks full but the last, which has `w`. */
  ghost function Flat(bs: seq<seq<byte>>, w: nat): seq<byte>
    requires bs == [] || w <= |bs[|bs| - 1]|
  {
    if bs == [] then [] else if |bs| == 1 then bs[0][..w] else bs[0] + Flat(bs[1..], w)
  }

  lemma {:induction false} FlatNewChunk(bs: seq<seq<byte>>, c: seq<byte>)
    ensures Flat(bs + [c], 0) == if bs == [] then [] else Flat(bs, |bs[|bs| - 1]|)
  {
    if |bs| > 1 {
      FlatNewChunk(bs[1..], c);
      assert (bs + [c])[1..] == bs[1..] + [c];
    } else if |bs| == 1 {
      assert (bs + [c])[1..] == [c];
      assert bs[0][..|bs[0]|] == bs[0];
    }
  }

  /** Writing `d` at position `w` of the last chunk appends it. */
  lemma {:induction false} FlatFill(bs: seq<seq<byte>>, w: nat, d: seq<byte>)
    requires bs != [] && w + |d| <= |bs[|bs| - 1]|
    ensures var last := bs[|bs| - 1];
            Flat(bs[|bs| - 1 := last[..w] + d + last[w + |d|..]], w + |d|) == Flat(bs, w) + d
  {
    var n := |bs| - 1;
    var last := bs[n];
    var bs2 := bs[n := last[..w] + d + last[w + |d|..]];
    if n > 0 {
      FlatFill(bs[1..], w, d);
      assert bs2[1..] == bs[1..][n - 1 := last[..w] + d + last[w + |d|..]];
    }
  }

  lemma {:induction false} FlatLength(bs: seq<seq<byte>>, w: nat)
    requires bs != [] && w <= |bs[|bs| - 1]|
    ensures |Flat(bs, w)| >= (if |bs| == 1 then w else |bs[0]| + w)
    ensures |bs| == 1 ==> |Flat(bs, w)| == w
  {
    if |bs| > 1 {
      FlatLength(bs[1..], w);
    }
  }

  /** Where reading and writing go on: next byte to read bs[0][r], next to write bs[last][w]. */
  ghost predicate Positions(bs: seq<seq<byte>>, r: nat, w: nat) {
    && (forall i :: 0 <= i < |bs| ==> |bs[i]| > 0)
    && (bs == [] ==> r == 0)
    && (bs != [] ==> r < |bs[0]| && w <= |bs[|bs| - 1]|)
    && (|bs| == 1 ==> r <= w)
  }

  /** The buffered bytes, oldest first. */
  ghost function Pending(bs: seq<seq<byte>>, r: nat, w: nat): seq<byte>
    requires Positions(bs, r, w)
  {
    if bs == [] then []
    else
      FlatLength(bs, w);
      Flat(bs, w)[r..]
  }

  lemma PendingNewChunk(bs: seq<seq<byte>>, r: nat, w: nat, c: seq<byte>)
    requires Positions(bs, r, w) && c != [] && (bs == [] || w == |bs[|bs| - 1]|)
    ensures Positions(bs + [c], r, 0) && Pending(bs + [c], r, 0) == Pending(bs, r, w)
  {
    FlatNewChunk(bs, c);
    if bs != [] {
      FlatLength(bs, w);
    }
    FlatLength(bs + [c], 0);
  }

  lemma PendingFill(bs: seq<seq<byte>>, r: nat, w: nat, d: seq<byte>)
    requires Positions(bs, r, w) && bs != [] && w + |d| <= |bs[|bs| - 1]|
    ensures var last := bs[|bs| - 1];
            var bs2 := bs[|bs| - 1 := last[..w] + d + last[w + |d|..]];
            Positions(bs2, r, w + |d|) && Pending(bs2, r, w + |d|) == Pending(bs, r, w) + d
  {
    FlatFill(bs, w, d);
    FlatLength(bs, w);
  }

  /** The bytes of the first chunk that can be read are the first buffered ones. */
  ghost function Readable(bs: seq<seq<byte>>, r: nat, w: nat): seq<byte>
    requires Positions(bs, r, w) && bs != []
  {
    if |bs| == 1 then bs[0][r..w] else bs[0][r..]
  }

  lemma ReadablePrefix(bs: seq<seq<byte>>, r: nat, w: nat)
    requires Positions(bs, r, w) && bs != []
    ensures Readable(bs, r, w) <= Pending(bs, r, w)
    ensures Pending(bs, r, w) != [] ==> Readable(bs, r, w) != []
  {
    FlatLength(bs, w);
  }

  /** Reading `n` bytes, with the first chunk dropped when it is used up. */
  lemma PendingSkip(bs: seq<seq<byte>>, r: nat, w: nat, n: nat)
    requires Positions(bs, r, w) && bs != [] && n <= |Readable(bs, r, w)|
    ensures n <= |Pending(bs, r, w)|
    ensures r + n < |bs[0]| ==> Positions(bs, r + n, w) && Pending(bs, r + n, w) == Pending(bs, r, w)[n..]
    ensures r + n == |bs[0]| ==> Positions(bs[1..], 0, w) && Pending(bs[1..], 0, w) == Pending(bs, r, w)[n..]
  {
    ReadablePrefix(bs, r, w);
    FlatLength(bs, w);
    if r + n == |bs[0]| && |bs| > 1 {
      FlatLength(bs[1..], w);
      var f := Flat(bs[1..], w);
      assert Flat(bs, w) == bs[0] + f;
      assert (bs[0] + f)[r..][n..] == f;
    }
  }

  // ---------------------------------------------------------------- the objects

  predicate IsClass(n: nat) {
    n in SIZE_CLASSES
  }

  /** The chunk size for `size` bytes: the smallest of the five that holds them, else the largest. */
  predicate RightSize(size: int, n: nat) {
    n == if size <= 1024 then 1024 else if size <= 2048 then 2048 else if size <= 4096 then 4096 else if size <= 8192 then 8192 else 16384
  }

  method ClassFor(size: int) returns (n: nat)
    ensures IsClass(n) && RightSize(size, n)
  {
    var i := 0;
    while i < |SIZE_CLASSES| - 1 && size > SIZE_CLASSES[i]
      invariant 0 <= i < |SIZE_CLASSES|
      invariant forall j :: 0 <= j < i ==> SIZE_CLASSES[j] < size
    {
      i := i + 1;
    }
    n := SIZE_CLASSES[i];
    assert i > 0 ==> SIZE_CLASSES[i - 1] < size;
  }

  /** The recycled chunks; a chunk may also come fresh. */
  class ChunkPool {
    var free: set<array<byte>>

    ghost predicate Valid()
      reads this
    {
      forall c :: c in free ==> IsClass(c.Length)
    }

    constructor ()
      ensures Valid() && free == {}
    {
      free := {};
    }

    method Get(size: int) returns (c: array<byte>)
      requires Valid()
      modifies this
      ensures Valid() && IsClass(c.Length) && c !in free && RightSize(size, c.Length)
      ensures fresh(c) || c in old(free)
      ensures free <= old(free)
    {
      var n := ClassFor(size);
      var same := set x | x in free && x.Length == n;
      if same != {} {
        c :| c in same;
        free := free - {c};
      } else {
        c := new byte[n](_ => 0);
      }
    }

    /** The source panics on a chunk whose length is no size class. */
    method Put(c: array<byte>)
      requires Valid() && IsClass(c.Length)
      modifies this
      ensures Valid() && free == old(free) + {c}
    {
      free := free + {c};
    }
  }

  /** copy(c[at:], d) when it fits. */
  method CopyInto(c: array<byte>, at: nat, d: seq<byte>)
    requires at + |d| <= c.Length
    modifies c
    ensures c[..] == old(c[..at]) + d + old(c[at + |d|..])
  {
    for i := 0 to |d|
      invariant c[..at] == old(c[..at]) && c[at..at + i] == d[..i] && c[at + i..] == old(c[at + i..])
    {
      ghost var before := c[..];
      c[at + i] := d[i];
      assert c[at..at + i + 1] == c[at..at + i] + [d[i]] && c[at..at + i] == before[at..at + i];
      assert c[at + i + 1..] == before[at + i + 1..] == old(c[at + i..])[1..];
    }
    assert c[..] == c[..at] + c[at..at + |d|] + c[at + |d|..];
  }

  class Buffer {
    var chunks: seq<array<byte>>
    var r: nat
    var w: nat
    var size: nat
    var expected: int
    const pool: ChunkPool

    ghost function Bytes(): seq<seq<byte>>
      reads this, chunks
    {
      seq(|chunks|, i requires 0 <= i < |chunks| reads this, chunks => chunks[i][..])
    }

    ghost function Repr(): set<object>
      reads this
    {
      {this, pool} + set x | x in chunks
    }

    /** The chunks have pool sizes, are all different, and belong to this buffer alone. */
    ghost predicate Owned()
      reads this, pool
    {
      && pool.Valid()
      && (forall i :: 0 <= i < |chunks| ==> IsClass(chunks[i].Length) && chunks[i] !in pool.free)
      && (forall i, j :: 0 <= i < j < |chunks| ==> chunks[i] != chunks[j])
    }

    ghost predicate Valid()
      reads this, chunks, pool
    {
      Owned() && Positions(Bytes(), r, w) && size == |Pending(Bytes(), r, w)|
    }

    ghost function Contents(): seq<byte>
      requires Valid()
      reads this, chunks, pool
    {
      Pending(Bytes(), r, w)
    }

    constructor (pool: ChunkPool, expected: int)
      requires pool.Valid()
      ensures Valid() && Contents() == [] && this.pool == pool && chunks == [] && this.expected == expected
    {
      this.pool := pool;
      this.expected := expected;
      chunks, r, w, size := [], 0, 0, 0;
    }

    /** The chunk to write to, which has room. */
    method LastChunkOrAlloc(want: int) returns (c: array<byte>)
      requires Valid()
      modifies this`chunks, this`w, pool
      ensures Valid() && Contents() == old(Contents())
      ensures chunks != [] && c == chunks[|chunks| - 1] && w < c.Length
      ensures if old(chunks) != [] && old(w) < old(chunks)[|old(chunks)| - 1].Length then chunks == old(chunks) && w == old(w)
              else chunks == old(chunks) + [c] && w == 0 && RightSize(want, c.Length)
      ensures forall x :: x in chunks ==> fresh(x) || x in old(chunks) || x in old(pool.free)
      ensures pool.free <= old(pool.free)
    {
      hide Positions, Pending;
      ghost var bs, w0 := Bytes(), w;
      if |chunks| != 0 {
        c := chunks[|chunks| - 1];
        if w < c.Length {
          return;
        }
        LastFull(bs, r, w);
      }
      c := pool.Get(want);
      chunks := chunks + [c];
      w := 0;
      assert Bytes() == bs + [c[..]];
      PendingNewChunk(bs, r, w0, c[..]);
    }

    /** Copies `d` to the write position, where there is room for it. */
    method FillLast(c: array<byte>, d: seq<byte>)
      requires Valid() && chunks != [] && c == chunks[|chunks| - 1] && w + |d| <= c.Length
      modifies this`w, this`size, this`expected, c
      ensures Valid() && Contents() == old(Contents()) + d && expected == old(expected) - |d|
    {
      hide Positions, Pending, IsClass;
      ghost var bs := Bytes();
      CopyInto(c, w, d);
      assert Bytes() == bs[|bs| - 1 := c[..]];
      PendingFill(bs, r, w, d);
      assert Owned();
      w := w + |d|;
      size := size + |d|;
      expected := expected - |d|;
      assert Bytes() == bs[|bs| - 1 := c[..]];
    }

    /** Write: appends all of `p`, chunk by chunk. */
    method Write(p: seq<byte>) returns (n: nat)
      requires Valid()
      modifies this, chunks, pool, pool.free
      ensures Valid() && n == |p| && Contents() == old(Contents()) + p && expected == old(expected) - |p|
      ensures forall x :: x in chunks ==> fresh(x) || x in old(chunks) || x in old(pool.free)
      ensures pool.free <= old(pool.free)
    {
      hide Positions, Pending, IsClass, Valid, Contents;
      n := |p|;
      var rest := p;
      ghost var done := [];
      while rest != []
        invariant Valid() && done + rest == p && Contents() == old(Contents()) + done && expected == old(expected) - |done|
        invariant forall x :: x in chunks ==> fresh(x) || x in old(chunks) || x in old(pool.free)
        invariant pool.free <= old(pool.free)
        decreases |rest|
      {
        var want := |rest|;
        if expected > want {
          want := expected;
        }
        var c := LastChunkOrAlloc(want);
        var k := if c.Length - w < |rest| then c.Length - w else |rest|;
        FillLast(c, rest[..k]);
        done := done + rest[..k];
        rest := rest[k..];
      }
      assert done == p;
    }

    /** bytesFromFirstChunk. */
    method FirstBytes() returns (from: seq<byte>)
      requires Valid() && size > 0
      ensures chunks != [] && from == Readable(Bytes(), r, w)
      ensures from != [] && from <= Contents()
    {
      hide Pending, IsClass;
      ghost var bs := Bytes();
      SomeChunk(bs, r, w);
      ReadablePrefix(bs, r, w);
      assert bs[0] == chunks[0][..];
      from := if |chunks| == 1 then chunks[0][r..w] else chunks[0][r..];
    }

    /** Moves the read position on, and recycles the first chunk when it is used up. */
    method Advance(n: nat)
      requires Valid() && chunks != [] && n <= |Readable(Bytes(), r, w)|
      modifies this`r, this`size, this`chunks, pool
      ensures Valid() && n <= |old(Contents())| && Contents() == old(Contents())[n..]
      ensures forall x :: x in chunks ==> x in old(chunks)
      ensures forall x :: x in pool.free ==> x in old(pool.free) || x in old(chunks)
    {
      hide Positions, Pending, IsClass, Readable;
      ghost var bs := Bytes();
      assert bs[0] == chunks[0][..];
      PendingSkip(bs, r, w, n);
      ReadableLength(bs, r, w);
      var c := chunks[0];
      r := r + n;
      size := size - n;
      if r == c.Length {
        pool.Put(c);
        chunks := chunks[1..];
        r := 0;
        assert Bytes() == bs[1..];
      } else {
        assert Bytes() == bs;
      }
    }

    /** One turn of the read loop. */
    method ReadSome(space: nat) returns (d: seq<byte>)
      requires Valid() && space > 0 && size > 0
      modifies this`r, this`size, this`chunks, pool
      ensures Valid() && d != [] && |d| <= space && old(Contents()) == d + Contents()
      ensures forall x :: x in chunks ==> x in old(chunks)
      ensures forall x :: x in pool.free ==> x in old(pool.free) || x in old(chunks)
    {
      hide Valid, Contents, Readable;
      ghost var all := Contents();
      var from := FirstBytes();
      var n := if |from| < space then |from| else space;
      d := from[..n];
      Advance(n);
      assert all[..n] == d && all == all[..n] + all[n..];
    }

    /** Read: an error on an empty buffer, else as many bytes as fit. */
    method Read(space: nat) returns (d: Option<seq<byte>>)
      requires Valid()
      modifies this`r, this`size, this`chunks, pool
      ensures Valid()
      ensures d.None? <==> old(Contents()) == []
      ensures d.None? ==> Contents() == []
      ensures d.Some? ==> old(Contents()) == d.value + Contents()
      ensures d.Some? ==> |d.value| == if space < |old(Contents())| then space else |old(Contents())|
      ensures forall x :: x in chunks ==> x in old(chunks)
      ensures forall x :: x in pool.free ==> x in old(pool.free) || x in old(chunks)
    {
      hide Positions, Pending, IsClass, Valid, Contents;
      SizeIs();
      if size == 0 {
        return None;
      }
      ghost var all := Contents();
      var got: seq<byte> := [];
      while |got| < space && size > 0
        invariant Valid() && |got| <= space && all == got + Contents() && size == |Contents()|
        invariant forall x :: x in chunks ==> x in old(chunks)
        invariant forall x :: x in pool.free ==> x in old(pool.free) || x in old(chunks)
        decreases space - |got|
      {
        var some := ReadSome(space - |got|);
        ghost var left := some + Contents();
        assert all == got + left == (got + some) + Contents();
        got := got + some;
        SizeIs();
      }
      assert |all| == |got| + |Contents()|;
      return Some(got);
    }

    method Len() returns (n: nat)
      requires Valid()
      ensures n == |Contents()|
    {
      n := size;
    }

    lemma SizeIs()
      requires Valid()
      ensures size == |Contents()|
    {
    }
  }

  lemma ReadableLength(bs: seq<seq<byte>>, r: nat, w: nat)
    requires Positions(bs, r, w) && bs != []
    ensures r + |Readable(bs, r, w)| <= |bs[0]|
  {
  }

  lemma SomeChunk(bs: seq<seq<byte>>, r: nat, w: nat)
    requires Positions(bs, r, w)
    ensures Pending(bs, r, w) != [] ==> bs != []
  {
  }

  lemma LastFull(bs: seq<seq<byte>>, r: nat, w: nat)
    requires Positions(bs, r, w) && bs != []
    ensures w <= |bs[|bs| - 1]| && r < |bs[0]| && (|bs| == 1 ==> r <= w)
  {
  }
}
