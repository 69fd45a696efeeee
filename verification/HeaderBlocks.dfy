/**
 Header blocks over several frames: the splitter, the order check for HEADERS and CONTINUATION
 (section 6.10 of RFC 7540), and the loop that puts a block together again.
 */
module HeaderBlocks {
  import opened Basics
  import opened Frames
  import opened Framer

  const MAX_FRAGMENT := 16384

  // ---------------------------------------------------------- the order check

  predicate CarriesHeaders(h: Header) {
    h.ftype == HEADERS || h.ftype == CONTINUATION
  }

  /** The block that `h` belongs to goes on in the next frame. */
  predicate Unfinished(h: Header) {
    CarriesHeaders(h) && !HasFlag(h.flags, END_HEADERS)
  }

  /** checkFrameOrder: the new value of lastHeaderStream, or an error. */
  function CheckOrder(last: uint32, h: Header): Result<uint32> {
    if last != 0 && (h.ftype != CONTINUATION || h.streamID != last) then Err(ConnectionError(PROTOCOL_ERROR))
    else if last == 0 && h.ftype == CONTINUATION then Err(ConnectionError(PROTOCOL_ERROR))
    else if CarriesHeaders(h) then Ok(if HasFlag(h.flags, END_HEADERS) then 0 else h.streamID)
    else Ok(last)
  }

  /** ReadFrame: parse, then check the order. */
  function ReadFrame(last: uint32, b: seq<byte>, maxReadSize: nat): Result<(Frame, seq<byte>, uint32)> {
    match ReadOne(b, maxReadSize)
    case Err(e) => Err(e)
    case Ok((f, rest)) =>
      match CheckOrder(last, f.header)
      case Err(e) => Err(e)
      case Ok(next) => Ok((f, rest, next))
  }

  /** A reader that calls ReadFrame on whatever bytes it finds; a failed call leaves the order state as it was. */
  function Reads(inputs: seq<seq<byte>>, maxReadSize: nat): (seq<Frame>, uint32) {
    if inputs == [] then ([], 0)
    else
      var (frames, last) := Reads(inputs[..|inputs| - 1], maxReadSize);
      match ReadFrame(last, inputs[|inputs| - 1], maxReadSize)
      case Err(_) => (frames, last)
      case Ok((f, _, next)) => (frames + [f], next)
  }

  /** Frame `i` is a CONTINUATION exactly after an unfinished frame, and then on its stream. */
  predicate FrameInOrder(frames: seq<Frame>, i: nat)
    requires i < |frames|
  {
    var h := frames[i].header;
    if i == 0 || !Unfinished(frames[i - 1].header) then h.ftype != CONTINUATION
    else h.ftype == CONTINUATION && h.streamID == frames[i - 1].header.streamID
  }

  /** Header blocks are contiguous, each on one stream, and no CONTINUATION occurs elsewhere. */
  ghost predicate InOrder(frames: seq<Frame>) {
    forall i :: 0 <= i < |frames| ==> FrameInOrder(frames, i)
  }

  /** The stream of the block that the last frame leaves open. */
  function OpenBlock(frames: seq<Frame>): uint32 {
    if frames != [] && Unfinished(frames[|frames| - 1].header) then frames[|frames| - 1].header.streamID else 0
  }

  lemma ReadOneStream(b: seq<byte>, maxReadSize: nat)
    requires ReadOne(b, maxReadSize).Ok?
    ensures var f := ReadOne(b, maxReadSize).value.0;
            && (CarriesHeaders(f.header) ==> f.header.streamID != 0)
            && (f.header.ftype == CONTINUATION <==> f.body.ContinuationBody?)
            && (f.header.ftype == HEADERS <==> f.body.HeadersBody?)
  {
    hide Read32, ReadSettings, Big, FirstValue;
  }

  /** The order check accepts the next frame exactly when the longer sequence is still in order. */
  lemma CheckOrderIsInOrder(frames: seq<Frame>, f: Frame)
    requires InOrder(frames) && (CarriesHeaders(f.header) ==> f.header.streamID != 0)
    requires forall i :: 0 <= i < |frames| && CarriesHeaders(frames[i].header) ==> frames[i].header.streamID != 0
    ensures CheckOrder(OpenBlock(frames), f.header).Ok? <==> InOrder(frames + [f])
    ensures CheckOrder(OpenBlock(frames), f.header).Ok? ==>
      CheckOrder(OpenBlock(frames), f.header).value == OpenBlock(frames + [f])
  {
    var longer := frames + [f];
    forall i | 0 <= i < |frames|
      ensures FrameInOrder(longer, i)
    {
      assert FrameInOrder(frames, i);
      assert longer[i] == frames[i] && (i > 0 ==> longer[i - 1] == frames[i - 1]);
    }
    assert longer[|frames|] == f;
    assert InOrder(longer) <==> FrameInOrder(longer, |frames|);
  }

  /** In every run of a reader the returned frames are in order, and the state names the open block. */
  lemma {:induction false} ReadsInOrder(inputs: seq<seq<byte>>, maxReadSize: nat)
    ensures var (frames, last) := Reads(inputs, maxReadSize);
            && InOrder(frames) && last == OpenBlock(frames)
            && forall i :: 0 <= i < |frames| && CarriesHeaders(frames[i].header) ==> frames[i].header.streamID != 0
  {
    if inputs != [] {
      var before, b := inputs[..|inputs| - 1], inputs[|inputs| - 1];
      ReadsInOrder(before, maxReadSize);
      var (frames, last) := Reads(before, maxReadSize);
      var r := ReadFrame(last, b, maxReadSize);
      hide ReadOne, CheckOrder, InOrder, OpenBlock, Unfinished;
      if r.Ok? {
        ReadOneStream(b, maxReadSize);
        CheckOrderIsInOrder(frames, r.value.0);
      }
    }
  }

  /** The type assertion of the meta frame loop: the frame after an unfinished one is a CONTINUATION. */
  lemma NextIsContinuation(inputs: seq<seq<byte>>, b: seq<byte>, maxReadSize: nat)
    requires Reads(inputs, maxReadSize).0 != []
    requires Unfinished(Reads(inputs, maxReadSize).0[|Reads(inputs, maxReadSize).0| - 1].header)
    requires ReadFrame(Reads(inputs, maxReadSize).1, b, maxReadSize).Ok?
    ensures ReadFrame(Reads(inputs, maxReadSize).1, b, maxReadSize).value.0.body.ContinuationBody?
  {
    ReadsInOrder(inputs, maxReadSize);
    ReadOneStream(b, maxReadSize);
    hide ReadOne, Reads;
  }

  // ----------------------------------------------------------------- splitting

  /** The writes of a response header block from its fragment on, `first` being the HEADERS frame. */
  function BlockWrites(id: uint32, endStream: bool, block: seq<byte>, first: bool): seq<Write> {
    if block == [] then []
    else
      var n := if |block| > MAX_FRAGMENT then MAX_FRAGMENT else |block|;
      [FragmentWrite(id, endStream, block[..n], first, n == |block|)] + BlockWrites(id, endStream, block[n..], false)
  }

  function FragmentWrite(id: uint32, endStream: bool, frag: seq<byte>, first: bool, last: bool): Write {
    if first then WHeaders(id, frag, endStream, last, 0, NoPriority) else WContinuation(id, last, frag)
  }

  function FragmentOf(w: Write): seq<byte> {
    if w.WHeaders? || w.WContinuation? then w.frag else []
  }

  function EndsHeaders(w: Write): bool {
    (w.WHeaders? || w.WContinuation?) && w.endHeaders
  }

  function Concat(ws: seq<Write>): seq<byte> {
    if ws == [] then [] else FragmentOf(ws[0]) + Concat(ws[1..])
  }

  lemma FragmentAccepted(id: uint32, endStream: bool, frag: seq<byte>, first: bool, last: bool)
    requires ValidStreamID(id) && 0 < |frag| <= MAX_FRAGMENT
    ensures var w := FragmentWrite(id, endStream, frag, first, last);
            Accepts(w) && Readable(w) && Payload(w) == frag
  {
    assert [] + [] + frag + Zeros(0) == frag;
  }

  /** The fragments are the block cut up: HEADERS first, at most 16384 bytes each, END_HEADERS on the last only. */
  lemma {:induction false} BlockShape(id: uint32, endStream: bool, block: seq<byte>, first: bool)
    requires ValidStreamID(id) && block != []
    ensures var ws := BlockWrites(id, endStream, block, first);
            && ws != [] && Concat(ws) == block
            && (forall i :: 0 <= i < |ws| ==> Accepts(ws[i]) && Readable(ws[i]) && StreamOf(ws[i]) == id)
            && (forall i :: 0 <= i < |ws| ==> 0 < |FragmentOf(ws[i])| <= MAX_FRAGMENT)
            && (forall i :: 0 <= i < |ws| ==> (ws[i].WHeaders? <==> first && i == 0))
            && (forall i :: 0 <= i < |ws| ==> (ws[i].WContinuation? <==> !(first && i == 0)))
            && (forall i :: 0 <= i < |ws| ==> (EndsHeaders(ws[i]) <==> i == |ws| - 1))
    decreases |block|
  {
    var n := if |block| > MAX_FRAGMENT then MAX_FRAGMENT else |block|;
    var w := FragmentWrite(id, endStream, block[..n], first, n == |block|);
    FragmentAccepted(id, endStream, block[..n], first, n == |block|);
    var tail := BlockWrites(id, endStream, block[n..], false);
    var ws := [w] + tail;
    assert block == block[..n] + block[n..];
    hide Accepts, Readable;
    if n < |block| {
      BlockShape(id, endStream, block[n..], false);
      assert forall i :: 0 < i < |ws| ==> ws[i] == tail[i - 1];
    }
    assert ws[1..] == tail;
  }

  predicate AllAccepted(ws: seq<Write>) {
    forall i :: 0 <= i < |ws| ==> Accepts(ws[i])
  }

  function WireAll(ws: seq<Write>): seq<byte>
    requires AllAccepted(ws)
  {
    if ws == [] then [] else Wire(ws[0]) + WireAll(ws[1..])
  }

  /** writeHeaderBlock: one fragment. */
  method WriteFragment(fr: Framer, id: uint32, endStream: bool, frag: seq<byte>, first: bool, last: bool)
    requires ValidStreamID(id) && 0 < |frag| <= MAX_FRAGMENT
    modifies fr
    ensures Accepts(FragmentWrite(id, endStream, frag, first, last))
    ensures fr.out == old(fr.out) + Wire(FragmentWrite(id, endStream, frag, first, last))
  {
    FragmentAccepted(id, endStream, frag, first, last);
    hide Accepts, Wire;
    var ok;
    if first {
      ok := fr.WriteHeaders(id, frag, endStream, last, 0, NoPriority);
    } else {
      ok := fr.WriteContinuation(id, last, frag);
    }
  }

  lemma WireAllFirst(ws: seq<Write>)
    requires ws != [] && AllAccepted(ws)
    ensures AllAccepted(ws[1..])
    ensures WireAll(ws) == Wire(ws[0]) + WireAll(ws[1..])
  {
    hide Accepts, Wire;
  }

  lemma BlockFirst(id: uint32, endStream: bool, block: seq<byte>, first: bool, frag: seq<byte>)
    requires block != [] && frag == if |block| > MAX_FRAGMENT then block[..MAX_FRAGMENT] else block
    ensures var ws := BlockWrites(id, endStream, block, first);
            && ws != [] && ws[0] == FragmentWrite(id, endStream, frag, first, |frag| == |block|)
            && ws[1..] == BlockWrites(id, endStream, block[|frag|..], false)
  {
    assert block[..|frag|] == frag;
  }

  lemma BlockAccepted(id: uint32, endStream: bool, block: seq<byte>, first: bool)
    requires ValidStreamID(id)
    ensures AllAccepted(BlockWrites(id, endStream, block, first))
  {
    hide Accepts, Readable, StreamOf, FragmentOf;
    if block != [] {
      BlockShape(id, endStream, block, first);
    }
  }

  /** splitHeaderBlock: sends the block's frames. */
  method WriteHeaderBlock(fr: Framer, id: uint32, endStream: bool, block: seq<byte>)
    requires ValidStreamID(id)
    modifies fr
    ensures AllAccepted(BlockWrites(id, endStream, block, true))
    ensures fr.out == old(fr.out) + WireAll(BlockWrites(id, endStream, block, true))
  {
    hide Accepts, AllAccepted, Wire, BlockWrites, FragmentWrite, WireAll;
    ghost var all := BlockWrites(id, endStream, block, true);
    BlockAccepted(id, endStream, block, true);
    var rest, first := block, true;
    ghost var todo := all;
    ghost var target := old(fr.out) + WireAll(all);
    while rest != []
      invariant todo == BlockWrites(id, endStream, rest, first)
      invariant AllAccepted(todo)
      invariant fr.out + WireAll(todo) == target
      decreases |rest|
    {
      var frag := rest;
      if |frag| > MAX_FRAGMENT {
        frag := frag[..MAX_FRAGMENT];
      }
      BlockFirst(id, endStream, rest, first, frag);
      WireAllFirst(todo);
      ghost var before := fr.out;
      var last := |frag| == |rest|;
      WriteFragment(fr, id, endStream, frag, first, last);
      assert before + (Wire(todo[0]) + WireAll(todo[1..])) == fr.out + WireAll(todo[1..]);
      rest := rest[|frag|..];
      todo := todo[1..];
      first := false;
    }
    NoBlock(id, endStream, first);
    assert fr.out + [] == fr.out;
  }

  lemma NoBlock(id: uint32, endStream: bool, first: bool)
    ensures BlockWrites(id, endStream, [], first) == [] && AllAccepted([]) && WireAll([]) == []
  {
  }

  // ---------------------------------------------------------------- reassembly

  function BodyFragment(b: Body): seq<byte> {
    if b.HeadersBody? then b.frag else if b.ContinuationBody? then b.more else []
  }

  /** The loop of readMetaFrame: reads frames until END_HEADERS, feeding each fragment to the decoder. */
  function ReadBlock(last: uint32, b: seq<byte>, maxReadSize: nat): Result<(seq<byte>, seq<byte>, uint32)>
    decreases |b|
  {
    match ReadFrame(last, b, maxReadSize)
    case Err(e) => Err(e)
    case Ok((f, rest, next)) =>
      if HasFlag(f.header.flags, END_HEADERS) then Ok((BodyFragment(f.body), rest, next))
      else
        match ReadBlock(next, rest, maxReadSize)
        case Err(e) => Err(e)
        case Ok((block, rest2, last2)) => Ok((BodyFragment(f.body) + block, rest2, last2))
  }

  lemma FragmentFlags(id: uint32, endStream: bool, frag: seq<byte>, first: bool, last: bool)
    requires ValidStreamID(id) && 0 < |frag| <= MAX_FRAGMENT
    ensures var w := FragmentWrite(id, endStream, frag, first, last);
            && Accepts(w) && Sent(w).header.streamID == id && BodyFragment(Sent(w).body) == frag
            && Sent(w).header.ftype == (if first then HEADERS else CONTINUATION)
            && (HasFlag(Sent(w).header.flags, END_HEADERS) <==> last)
            && (first ==> (HasFlag(Sent(w).header.flags, END_STREAM) <==> endStream))
  {
    FragmentAccepted(id, endStream, frag, first, last);
    if first {
      HeadersFlags(FragmentWrite(id, endStream, frag, first, last));
    }
  }

  /** One fragment is read back, accepted by the order check, and leaves the right state. */
  lemma FragmentBack(id: uint32, endStream: bool, frag: seq<byte>, first: bool, last: bool, rest: seq<byte>, max: nat)
    requires ValidStreamID(id) && 0 < |frag| <= MAX_FRAGMENT <= max
    ensures var w := FragmentWrite(id, endStream, frag, first, last);
            && Accepts(w)
            && ReadFrame(if first then 0 else id, Wire(w) + rest, max)
               == Ok((Sent(w), rest, if last then 0 else id))
  {
    var w := FragmentWrite(id, endStream, frag, first, last);
    FragmentAccepted(id, endStream, frag, first, last);
    FragmentFlags(id, endStream, frag, first, last);
    hide Accepts, Wire, Sent, ReadOne, Readable, FragmentWrite, HasFlag;
    RoundTrip(w, rest, max);
  }

  /** Every non-empty response header block, split and written, is read back whole under any legal limit. */
  lemma {:induction false} BlockRoundTrip(id: uint32, endStream: bool, block: seq<byte>, first: bool, rest: seq<byte>, max: nat)
    requires ValidStreamID(id) && block != [] && max >= MAX_FRAGMENT
    ensures AllAccepted(BlockWrites(id, endStream, block, first))
    ensures ReadBlock(if first then 0 else id, WireAll(BlockWrites(id, endStream, block, first)) + rest, max)
         == Ok((block, rest, 0))
    decreases |block|
  {
    hide Accepts, AllAccepted, Wire, Sent, BlockWrites, FragmentWrite, WireAll, ReadFrame, HasFlag, BodyFragment;
    BlockAccepted(id, endStream, block, first);
    var frag := if |block| > MAX_FRAGMENT then block[..MAX_FRAGMENT] else block;
    var last := |frag| == |block|;
    var ws := BlockWrites(id, endStream, block, first);
    BlockFirst(id, endStream, block, first, frag);
    FragmentFlags(id, endStream, frag, first, last);
    WireAllFirst(ws);
    FragmentBack(id, endStream, frag, first, last, WireAll(ws[1..]) + rest, max);
    assert WireAll(ws) + rest == Wire(ws[0]) + (WireAll(ws[1..]) + rest);
    if last {
      NoBlock(id, endStream, false);
      assert block[|frag|..] == [] && [] + rest == rest;
    } else {
      BlockRoundTrip(id, endStream, block[|frag|..], false, rest, max);
      assert frag + block[|frag|..] == block;
    }
  }

  // -------------------------------------------------------------- push promises

  /** The first write of a promised header block; the others are CONTINUATION frames. */
  function PromiseWrite(id: uint32, promiseID: uint32, block: seq<byte>): Write {
    if |block| > MAX_FRAGMENT then WPromise(id, promiseID, block[..MAX_FRAGMENT], false, 0)
    else WPromise(id, promiseID, block, true, 0)
  }

  lemma PromiseFirst(id: uint32, promiseID: uint32, block: seq<byte>, rest: seq<byte>, max: nat)
    requires ValidStreamID(id) && ValidStreamID(promiseID) && max >= MAX_FRAGMENT + 4
    ensures var w := PromiseWrite(id, promiseID, block);
            Accepts(w) && ReadFrame(0, Wire(w) + rest, max) == Ok((Sent(w), rest, 0))
  {
    var w := PromiseWrite(id, promiseID, block);
    assert |Payload(w)| <= MAX_FRAGMENT + 4;
    assert Accepts(w) && Readable(w) && CheckOrder(0, Sent(w).header) == Ok(0);
    hide Accepts, Wire, Sent, ReadOne, Readable, PromiseWrite, CheckOrder;
    RoundTrip(w, rest, max);
  }

  /**
   The order check does not know PUSH_PROMISE: of a promised block that needs more than one
   frame, this framer reads the first frame and rejects the second.
   */
  lemma PromiseBlock(id: uint32, promiseID: uint32, block: seq<byte>, rest: seq<byte>, max: nat)
    requires ValidStreamID(id) && ValidStreamID(promiseID) && max >= MAX_FRAGMENT + 4
    ensures var first, n := PromiseWrite(id, promiseID, block), if |block| > MAX_FRAGMENT then MAX_FRAGMENT else |block|;
            var more := BlockWrites(id, false, block[n..], false);
            && Accepts(first) && AllAccepted(more)
            && ReadFrame(0, Wire(first) + (WireAll(more) + rest), max) == Ok((Sent(first), WireAll(more) + rest, 0))
            && (more == [] <==> |block| <= MAX_FRAGMENT)
            && (more != [] ==> ReadFrame(0, WireAll(more) + rest, max) == Err(ConnectionError(PROTOCOL_ERROR)))
  {
    hide Accepts, AllAccepted, Wire, Sent, BlockWrites, WireAll, PromiseWrite, ReadFrame;
    var n := if |block| > MAX_FRAGMENT then MAX_FRAGMENT else |block|;
    var tail := block[n..];
    var more := BlockWrites(id, false, tail, false);
    BlockAccepted(id, false, tail, false);
    PromiseFirst(id, promiseID, block, WireAll(more) + rest, max);
    if tail == [] {
      NoBlock(id, false, false);
    } else {
      StrayContinuation(id, tail, rest, max);
    }
  }

  /** CONTINUATION frames without an open block are rejected. */
  lemma StrayContinuation(id: uint32, tail: seq<byte>, rest: seq<byte>, max: nat)
    requires ValidStreamID(id) && tail != [] && max >= MAX_FRAGMENT
    ensures var more := BlockWrites(id, false, tail, false);
            more != [] && AllAccepted(more) && ReadFrame(0, WireAll(more) + rest, max) == Err(ConnectionError(PROTOCOL_ERROR))
  {
    hide Accepts, AllAccepted, Wire, Sent, BlockWrites, FragmentWrite, WireAll, HasFlag;
    var more := BlockWrites(id, false, tail, false);
    BlockAccepted(id, false, tail, false);
    var frag := if |tail| > MAX_FRAGMENT then tail[..MAX_FRAGMENT] else tail;
    BlockFirst(id, false, tail, false, frag);
    WireAllFirst(more);
    FragmentBack(id, false, frag, false, |frag| == |tail|, WireAll(more[1..]) + rest, max);
    FragmentFlags(id, false, frag, false, |frag| == |tail|);
    assert WireAll(more) + rest == Wire(more[0]) + (WireAll(more[1..]) + rest);
  }

  /** A promise whose frame is full exceeds the smallest legal limit: the id takes four bytes beside the fragment. */
  lemma FullPromiseTooLarge(id: uint32, promiseID: uint32, block: seq<byte>, rest: seq<byte>)
    requires ValidStreamID(id) && ValidStreamID(promiseID)
    ensures var w := PromiseWrite(id, promiseID, block);
            Accepts(w) && (ReadFrame(0, Wire(w) + rest, MAX_FRAGMENT) == Err(TooLarge) <==> |block| > MAX_FRAGMENT - 4)
  {
    var w := PromiseWrite(id, promiseID, block);
    assert |Payload(w)| == (if |block| > MAX_FRAGMENT then MAX_FRAGMENT else |block|) + 4;
    assert Accepts(w) && Readable(w) && CheckOrder(0, Sent(w).header) == Ok(0);
    hide Accepts, Wire, Sent, ReadOne, Readable, PromiseWrite, CheckOrder;
    RoundTrip(w, rest, MAX_FRAGMENT);
    ReadsAs(w, rest, MAX_FRAGMENT);
  }
}
