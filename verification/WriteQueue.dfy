/**
 Frame write requests, the DATA splitter and the write queues that every HTTP/2 write
 scheduler uses.
 */
module WriteQueue {
  import opened Basics
  import opened FlowControl
  import opened Int32

  datatype WriteFramer =
    | WriteData(streamID: nat, p: seq<byte>, endStream: bool)
    | WriteReset(resetID: nat, code: nat)
    | WriteOther(kind: nat)

  /** A frame to write, the stream it is written on, and the channel waiting for the result. */
  datatype WriteReq = WriteReq(write: WriteFramer, stream: Option<nat>, done: Option<nat>) {
    /** A reset names its stream even when the request has none. */
    function StreamID(): nat {
      if stream.Some? then stream.value else if write.WriteReset? then write.resetID else 0
    }

    function DataSize(): nat {
      if write.WriteData? then |write.p| else 0
    }

    /** Flow control applies. */
    predicate Metered() {
      DataSize() > 0
    }
  }

  /** The first `k` bytes of a DATA frame: never the end of the stream, and nobody waits for it. */
  function Piece(wr: WriteReq, k: nat): WriteReq
    requires wr.write.WriteData? && k <= |wr.write.p|
  {
    WriteReq(WriteData(wr.write.streamID, wr.write.p[..k], false), wr.stream, None)
  }

  function Rest(wr: WriteReq, k: nat): WriteReq
    requires wr.write.WriteData? && k <= |wr.write.p|
  {
    WriteReq(WriteData(wr.write.streamID, wr.write.p[k..], wr.write.endStream), wr.stream, wr.done)
  }

  datatype Consumed = Blocked | Whole(w: Windows) | Split(piece: WriteReq, rest: WriteReq, w: Windows)

  /** A metered frame names an opened stream; the source dereferences it. */
  predicate Ready(wr: WriteReq, w: Windows) {
    wr.Metered() ==> wr.stream.Some? && wr.stream.value in w.stream
  }

  function Allowed(w: Windows, id: nat, limit: int): int
    requires id in w.stream
  {
    Min(Min(Sendable(w, id), limit), w.maxFrame)
  }

  /** Both windows, the limit and the frame size all allow `k` bytes of DATA. */
  predicate MaySend(w: Windows, id: nat, limit: int, k: int) {
    id in w.stream && k <= w.stream[id] && k <= w.conn && k <= limit && k <= w.maxFrame
  }

  /** The windows after `k` bytes of DATA on stream `id`; all other streams keep theirs. */
  predicate SpentBy(w: Windows, after: Windows, id: nat, k: int) {
    && after == w.(conn := w.conn - k, stream := after.stream) && after.stream.Keys == w.stream.Keys
    && forall x :: x in w.stream ==> after.stream[x] == if x == id then w.stream[x] - k else w.stream[x]
  }

  /**
   What consuming `wr` under `limit` does to it and to the windows: as many bytes as may be sent
   now, so the frame is split only where one byte more would be too many.
   */
  function Consume(wr: WriteReq, limit: int, w: Windows): (c: Consumed)
    requires Ready(wr, w)
    ensures c.Split? ==> c.piece.DataSize() + c.rest.DataSize() == wr.DataSize()
    ensures c.Split? ==> c.piece.Metered() && c.rest.Metered()
    ensures !wr.Metered() ==> c == Whole(w)
    ensures wr.Metered() ==> (c.Blocked? <==> !MaySend(w, wr.stream.value, limit, 1))
    ensures wr.Metered() ==> (c.Whole? <==> MaySend(w, wr.stream.value, limit, wr.DataSize()))
    ensures wr.Metered() && c.Whole? ==> SpentBy(w, c.w, wr.stream.value, wr.DataSize())
    ensures c.Split? ==>
      var id, k := wr.stream.value, c.piece.DataSize();
      MaySend(w, id, limit, k) && !MaySend(w, id, limit, k + 1) && SpentBy(w, c.w, id, k)
  {
    if !wr.Metered() then Whole(w)
    else
      var allowed := Allowed(w, wr.stream.value, limit);
      if allowed <= 0 then Blocked
      else if |wr.write.p| > allowed then
        Split(Piece(wr, allowed), Rest(wr, allowed), Spend(w, wr.stream.value, allowed))
      else Whole(Spend(w, wr.stream.value, |wr.write.p|))
  }

  // ------------------------------------------------------- what splitting is

  /**
   `pieces` delivers the frames `orig` in order: each piece is the next frame whole, or a
   non-empty proper prefix of the next DATA frame, whose remainder comes next.
   */
  ghost predicate Delivers(orig: seq<WriteReq>, pieces: seq<WriteReq>)
    decreases |pieces|
  {
    if pieces == [] then orig == []
    else
      && orig != []
      && ( || (pieces[0] == orig[0] && Delivers(orig[1..], pieces[1..]))
           || exists k :: PrefixOf(orig[0], pieces[0], k) && Delivers([Rest(orig[0], k)] + orig[1..], pieces[1..]))
  }

  predicate PrefixOf(wr: WriteReq, piece: WriteReq, k: nat) {
    wr.write.WriteData? && 0 < k < |wr.write.p| && piece == Piece(wr, k)
  }

  lemma {:induction false} DeliversSelf(s: seq<WriteReq>)
    ensures Delivers(s, s)
  {
    if s != [] {
      DeliversSelf(s[1..]);
    }
  }

  /** Pushing a frame at both ends keeps the relation. */
  lemma {:induction false} DeliversPush(orig: seq<WriteReq>, pieces: seq<WriteReq>, wr: WriteReq)
    requires Delivers(orig, pieces)
    ensures Delivers(orig + [wr], pieces + [wr])
    decreases |pieces|
  {
    if pieces == [] {
      DeliversSelf([wr]);
      assert orig + [wr] == [wr] && pieces + [wr] == [wr];
    } else {
      assert (pieces + [wr])[1..] == pieces[1..] + [wr];
      if pieces[0] == orig[0] && Delivers(orig[1..], pieces[1..]) {
        DeliversPush(orig[1..], pieces[1..], wr);
        assert (orig + [wr])[1..] == orig[1..] + [wr];
      } else {
        var k: nat :| PrefixOf(orig[0], pieces[0], k) && Delivers([Rest(orig[0], k)] + orig[1..], pieces[1..]);
        DeliversPush([Rest(orig[0], k)] + orig[1..], pieces[1..], wr);
        assert ([Rest(orig[0], k)] + orig[1..]) + [wr] == [Rest((orig + [wr])[0], k)] + (orig + [wr])[1..];
      }
    }
  }

  lemma RestOfRest(wr: WriteReq, j: nat, k: nat)
    requires wr.write.WriteData? && j <= k <= |wr.write.p|
    ensures Rest(Rest(wr, j), k - j) == Rest(wr, k)
    ensures Piece(Piece(wr, k), j) == Piece(wr, j)
    ensures Rest(Piece(wr, k), j) == Piece(Rest(wr, j), k - j)
  {
    assert wr.write.p[j..][k - j..] == wr.write.p[k..];
    assert wr.write.p[..k][..j] == wr.write.p[..j];
    assert wr.write.p[..k][j..] == wr.write.p[j..][..k - j];
  }

  /** Splitting one undelivered frame anywhere in the middle keeps the relation. */
  lemma {:induction false} DeliversSplit(orig: seq<WriteReq>, a: seq<WriteReq>, x: WriteReq, b: seq<WriteReq>, j: nat)
    requires Delivers(orig, a + [x] + b)
    requires x.write.WriteData? && 0 < j < |x.write.p|
    ensures Delivers(orig, a + [Piece(x, j), Rest(x, j)] + b)
    decreases |a|
  {
    var pieces := a + [x] + b;
    var pieces2 := a + [Piece(x, j), Rest(x, j)] + b;
    if a == [] {
      assert pieces[1..] == b && pieces2[1..] == [Rest(x, j)] + b;
      if pieces[0] == orig[0] && Delivers(orig[1..], pieces[1..]) {
        assert PrefixOf(orig[0], pieces2[0], j);
        var orig2 := [Rest(orig[0], j)] + orig[1..];
        assert orig2[1..] == orig[1..] && pieces2[1..][1..] == b;
        assert Delivers(orig2, pieces2[1..]);
      } else {
        var k: nat :| PrefixOf(orig[0], x, k) && Delivers([Rest(orig[0], k)] + orig[1..], b);
        RestOfRest(orig[0], j, k);
        assert PrefixOf(orig[0], pieces2[0], j);
        var orig2 := [Rest(orig[0], j)] + orig[1..];
        assert PrefixOf(orig2[0], pieces2[1], k - j);
        assert [Rest(orig2[0], k - j)] + orig2[1..] == [Rest(orig[0], k)] + orig[1..];
        assert pieces2[1..][1..] == b;
        assert Delivers(orig2, pieces2[1..]);
      }
    } else {
      assert pieces[1..] == a[1..] + [x] + b;
      assert pieces2[1..] == a[1..] + [Piece(x, j), Rest(x, j)] + b;
      if pieces[0] == orig[0] && Delivers(orig[1..], pieces[1..]) {
        DeliversSplit(orig[1..], a[1..], x, b, j);
      } else {
        var k: nat :| PrefixOf(orig[0], pieces[0], k) && Delivers([Rest(orig[0], k)] + orig[1..], pieces[1..]);
        DeliversSplit([Rest(orig[0], k)] + orig[1..], a[1..], x, b, j);
        assert PrefixOf(orig[0], pieces2[0], k);
      }
    }
  }

  /** Popping a piece of the first waiting frame keeps the relation. */
  lemma DeliversPopPiece(orig: seq<WriteReq>, popped: seq<WriteReq>, q: seq<WriteReq>, k: nat)
    requires q != [] && Delivers(orig, popped + q)
    requires q[0].write.WriteData? && 0 < k < |q[0].write.p|
    ensures Delivers(orig, popped + [Piece(q[0], k)] + ([Rest(q[0], k)] + q[1..]))
  {
    assert popped + q == popped + [q[0]] + q[1..];
    DeliversSplit(orig, popped, q[0], q[1..], k);
    assert popped + [Piece(q[0], k), Rest(q[0], k)] + q[1..]
        == popped + [Piece(q[0], k)] + ([Rest(q[0], k)] + q[1..]);
  }

  /** The DATA bytes that a sequence of frames carries. */
  function Payload(s: seq<WriteReq>): seq<byte> {
    if s == [] then [] else (if s[0].write.WriteData? then s[0].write.p else []) + Payload(s[1..])
  }

  /** The channels that a sequence of frames answers, in order. */
  function Replies(s: seq<WriteReq>): seq<nat> {
    if s == [] then [] else (if s[0].done.Some? then [s[0].done.value] else []) + Replies(s[1..])
  }

  /** How many frames of a sequence end their stream. */
  function Ends(s: seq<WriteReq>): nat {
    if s == [] then 0 else (if s[0].write.WriteData? && s[0].write.endStream then 1 else 0) + Ends(s[1..])
  }

  lemma PayloadSplit(wr: WriteReq, k: nat, tail: seq<WriteReq>)
    requires wr.write.WriteData? && k <= |wr.write.p|
    ensures Piece(wr, k).write.p + Payload([Rest(wr, k)] + tail) == Payload([wr] + tail)
  {
    assert wr.write.p == wr.write.p[..k] + wr.write.p[k..];
    assert ([wr] + tail)[1..] == tail && ([Rest(wr, k)] + tail)[1..] == tail;
  }

  /** A delivery carries the same bytes, answers the same channels and ends streams as often. */
  lemma {:induction false} DeliversContents(orig: seq<WriteReq>, pieces: seq<WriteReq>)
    requires Delivers(orig, pieces)
    ensures Payload(pieces) == Payload(orig)
    ensures Replies(pieces) == Replies(orig)
    ensures Ends(pieces) == Ends(orig)
    decreases |pieces|
  {
    if pieces != [] {
      if pieces[0] == orig[0] && Delivers(orig[1..], pieces[1..]) {
        DeliversContents(orig[1..], pieces[1..]);
      } else {
        var k: nat :| PrefixOf(orig[0], pieces[0], k) && Delivers([Rest(orig[0], k)] + orig[1..], pieces[1..]);
        var orig2 := [Rest(orig[0], k)] + orig[1..];
        DeliversContents(orig2, pieces[1..]);
        assert orig2[1..] == orig[1..];
        PayloadSplit(orig[0], k, orig[1..]);
        assert orig == [orig[0]] + orig[1..];
      }
    }
  }

  /** One DATA frame: END_STREAM and the done channel ride on the last piece only. */
  lemma {:induction false} DeliversOne(wr: WriteReq, pieces: seq<WriteReq>)
    requires Delivers([wr], pieces)
    ensures pieces != []
    ensures forall i :: 0 <= i < |pieces| - 1 ==>
      pieces[i].Metered() && !pieces[i].write.endStream && pieces[i].done == None && pieces[i].stream == wr.stream
    ensures pieces[|pieces| - 1].done == wr.done && pieces[|pieces| - 1].stream == wr.stream
    ensures wr.write.WriteData? ==>
      pieces[|pieces| - 1].write.WriteData? && pieces[|pieces| - 1].write.endStream == wr.write.endStream
    ensures !wr.write.WriteData? ==> pieces == [wr]
    decreases |pieces|
  {
    if pieces[0] == wr && Delivers([wr][1..], pieces[1..]) {
      assert pieces[1..] == [];
    } else {
      var k: nat :| PrefixOf(wr, pieces[0], k) && Delivers([Rest(wr, k)] + [wr][1..], pieces[1..]);
      assert [Rest(wr, k)] + [wr][1..] == [Rest(wr, k)];
      DeliversOne(Rest(wr, k), pieces[1..]);
    }
  }

  // ------------------------------------------------------------ the objects

  /** FrameWriteRequest.Consume on the connection's window objects. */
  method ConsumeRequest(sc: SendConn, wr: WriteReq, n: int32) returns (consumed: WriteReq, rest: WriteReq, num: int)
    requires sc.Valid() && Ready(wr, sc.View())
    modifies sc.flow`n, sc.flows.Values`n
    ensures sc.Valid()
    ensures match Consume(wr, n, old(sc.View())) {
              case Blocked => num == 0 && sc.View() == old(sc.View())
              case Whole(w) => num == 1 && consumed == wr && sc.View() == w
              case Split(piece, tail, w) => num == 2 && consumed == piece && rest == tail && sc.View() == w
            }
    ensures wr.Metered() ==> (num == 0 <==> !MaySend(old(sc.View()), wr.stream.value, n, 1))
    ensures num == 1 <==> !wr.Metered() || MaySend(old(sc.View()), wr.stream.value, n, |wr.write.p|)
  {
    consumed, rest := wr, wr;
    if !wr.write.WriteData? || |wr.write.p| == 0 {
      return wr, rest, 1;
    }
    var id := wr.stream.value;
    var allowed := sc.flows[id].Available();
    if n < allowed {
      allowed := n;
    }
    if sc.maxFrameSize < allowed {
      allowed := sc.maxFrameSize;
    }
    if allowed <= 0 {
      return wr, rest, 0;
    }
    var p := wr.write.p;
    if |p| > allowed {
      sc.TakeFrom(id, allowed);
      consumed := WriteReq(WriteData(wr.write.streamID, p[..allowed], false), wr.stream, None);
      rest := WriteReq(WriteData(wr.write.streamID, p[allowed..], wr.write.endStream), wr.stream, wr.done);
      return consumed, rest, 2;
    }
    sc.TakeFrom(id, |p|);
    return wr, rest, 1;
  }

  /** A queue of pending frames. */
  class Queue {
    var s: seq<WriteReq>

    constructor ()
      ensures s == []
    {
      s := [];
    }

    method Push(wr: WriteReq)
      modifies this
      ensures s == old(s) + [wr]
    {
      s := s + [wr];
    }

    method Shift() returns (wr: WriteReq)
      requires s != []
      modifies this
      ensures [wr] + s == old(s)
    {
      wr := s[0];
      s := s[1..];
    }

    /** Consumes from the first frame; false leaves queue and windows as they were. */
    method ConsumeFirst(sc: SendConn, n: int32) returns (wr: Option<WriteReq>)
      requires sc.Valid() && forall i :: 0 <= i < |s| ==> Ready(s[i], sc.View())
      modifies this, sc.flow`n, sc.flows.Values`n
      ensures sc.Valid()
      ensures wr.None? ==> s == old(s) && sc.View() == old(sc.View())
      ensures wr.None? <==> old(s) == [] || Consume(old(s)[0], n, old(sc.View())).Blocked?
      ensures wr.Some? ==>
        match Consume(old(s)[0], n, old(sc.View())) {
          case Blocked => false
          case Whole(w) => [wr.value] + s == old(s) && sc.View() == w
          case Split(piece, rest, w) => wr.value == piece && s == [rest] + old(s)[1..] && sc.View() == w
        }
    {
      if |s| == 0 {
        return None;
      }
      var consumed, rest, num := ConsumeRequest(sc, s[0], n);
      if num == 0 {
        return None;
      } else if num == 1 {
        var _ := Shift();
      } else {
        s := s[0 := rest];
      }
      return Some(consumed);
    }
  }
}
