/**
 HTTP/2 frames: the Framer's write methods and the frame parsers (sections 4.1 and 6 of
 RFC 7540), and that reading gives back what was written.
 */
module Frames {
  import opened Basics

  const TWO_31 := 0x8000_0000
  const TWO_32 := 0x1_0000_0000
  const MAX_FRAME := 0xff_ffff

  type uint32 = v: int | 0 <= v < TWO_32
  type uint16 = v: int | 0 <= v < 0x1_0000

  const DATA: byte := 0
  const HEADERS: byte := 1
  const PRIORITY: byte := 2
  const RST_STREAM: byte := 3
  const SETTINGS: byte := 4
  const PUSH_PROMISE: byte := 5
  const PING: byte := 6
  const GOAWAY: byte := 7
  const WINDOW_UPDATE: byte := 8
  const CONTINUATION: byte := 9

  const END_STREAM := 1
  const ACK := 1
  const END_HEADERS := 4
  const PADDED := 8
  const HAS_PRIORITY := 32

  const INITIAL_WINDOW_SIZE: uint16 := 4

  datatype PriorityParam = PriorityParam(dep: uint32, exclusive: bool, weight: byte)

  const NoPriority := PriorityParam(0, false, 0)

  datatype Setting = Setting(id: uint16, val: uint32)

  datatype Header = Header(ftype: byte, flags: byte, length: nat, streamID: uint32)

  datatype Body =
    | DataBody(data: seq<byte>)
    | HeadersBody(priority: PriorityParam, frag: seq<byte>)
    | PriorityBody(param: PriorityParam)
    | ResetBody(code: uint32)
    | SettingsBody(settings: seq<Setting>)
    | PromiseBody(promiseID: uint32, promised: seq<byte>)
    | PingBody(ping: seq<byte>)
    | GoAwayBody(last: uint32, goAwayCode: uint32, debug: seq<byte>)
    | WindowBody(increment: uint32)
    | ContinuationBody(more: seq<byte>)
    | UnknownBody(raw: seq<byte>)

  datatype Frame = Frame(header: Header, body: Body)

  datatype Error = ConnectionError(code: nat) | StreamError(id: uint32, streamCode: nat) | UnexpectedEOF | TooLarge

  const PROTOCOL_ERROR := 1
  const FLOW_CONTROL_ERROR := 3
  const FRAME_SIZE_ERROR := 6

  datatype Result<+T> = Ok(value: T) | Err(error: Error)

  // -------------------------------------------------------- big-endian words

  function U16(v: uint16): (b: seq<byte>)
    ensures |b| == 2
  {
    [v / 256, v % 256]
  }

  function U24(v: nat): (b: seq<byte>)
    requires v <= MAX_FRAME
    ensures |b| == 3
  {
    var w := v / 256;
    [w / 256, w % 256, v % 256]
  }

  function U32(v: uint32): (b: seq<byte>)
    ensures |b| == 4
  {
    var w := v / 256;
    var x := w / 256;
    [x / 256, x % 256, w % 256, v % 256]
  }

  /** The number with the given bytes, most significant first. */
  function Big(b3: int, b2: int, b1: int, b0: int): int {
    ((b3 * 256 + b2) * 256 + b1) * 256 + b0
  }

  lemma BigOfBytes(v: uint32)
    ensures var b := U32(v); Big(b[0], b[1], b[2], b[3]) == v
    ensures v <= MAX_FRAME ==> var b := U24(v); Big(0, b[0], b[1], b[2]) == v
  {
  }

  function Read16(b: seq<byte>): uint16
    requires |b| >= 2
  {
    Big(0, 0, b[0], b[1])
  }

  function Read32(b: seq<byte>): uint32
    requires |b| >= 4
  {
    Big(b[0], b[1], b[2], b[3])
  }

  lemma WordRoundTrip(v: uint32, rest: seq<byte>)
    ensures |U32(v) + rest| >= 4 && Read32(U32(v) + rest) == v && (U32(v) + rest)[4..] == rest
  {
    hide Big, U32;
    var b := U32(v) + rest;
    assert b[0] == U32(v)[0] && b[1] == U32(v)[1] && b[2] == U32(v)[2] && b[3] == U32(v)[3];
    BigOfBytes(v);
  }

  predicate HasFlag(flags: byte, bit: int)
    requires bit > 0
  {
    flags / bit % 2 == 1
  }

  // ---------------------------------------------------------------- reading

  function ParseData(h: Header, p: seq<byte>): Result<Body> {
    if h.streamID == 0 then Err(ConnectionError(PROTOCOL_ERROR))
    else if HasFlag(h.flags, PADDED) then
      if p == [] then Err(UnexpectedEOF)
      else if p[0] > |p| - 1 then Err(ConnectionError(PROTOCOL_ERROR))
      else Ok(DataBody(p[1..|p| - p[0]]))
    else Ok(DataBody(p))
  }

  function ParseHeaders(h: Header, p: seq<byte>): Result<Body> {
    if h.streamID == 0 then Err(ConnectionError(PROTOCOL_ERROR))
    else if HasFlag(h.flags, PADDED) then
      if p == [] then Err(UnexpectedEOF) else ParseHeadersPriority(h, p[0], p[1..])
    else ParseHeadersPriority(h, 0, p)
  }

  function ParseHeadersPriority(h: Header, pad: byte, p: seq<byte>): Result<Body> {
    if HasFlag(h.flags, HAS_PRIORITY) then
      if |p| < 5 then Err(UnexpectedEOF)
      else
        var v := Read32(p);
        ParseHeadersRest(h, pad, PriorityParam(v % TWO_31, v != v % TWO_31, p[4]), p[5..])
    else ParseHeadersRest(h, pad, NoPriority, p)
  }

  function ParseHeadersRest(h: Header, pad: byte, param: PriorityParam, p: seq<byte>): Result<Body> {
    if |p| - pad <= 0 then Err(StreamError(h.streamID, PROTOCOL_ERROR))
    else Ok(HeadersBody(param, p[..|p| - pad]))
  }

  function ParsePriority(h: Header, p: seq<byte>): Result<Body> {
    if h.streamID == 0 then Err(ConnectionError(PROTOCOL_ERROR))
    else if |p| != 5 then Err(ConnectionError(FRAME_SIZE_ERROR))
    else
      var v := Read32(p);
      Ok(PriorityBody(PriorityParam(v % TWO_31, v % TWO_31 != v, p[4])))
  }

  function ParseReset(h: Header, p: seq<byte>): Result<Body> {
    if |p| != 4 then Err(ConnectionError(FRAME_SIZE_ERROR))
    else if h.streamID == 0 then Err(ConnectionError(PROTOCOL_ERROR))
    else Ok(ResetBody(Read32(p)))
  }

  function ReadSettings(p: seq<byte>): seq<Setting>
    requires |p| % 6 == 0
  {
    if p == [] then [] else [Setting(Read16(p), Read32(p[2..]))] + ReadSettings(p[6..])
  }

  /** The value of the first setting with identifier `id`. */
  function FirstValue(settings: seq<Setting>, id: uint16): Option<uint32> {
    if settings == [] then None
    else if settings[0].id == id then Some(settings[0].val)
    else FirstValue(settings[1..], id)
  }

  predicate WindowLegal(settings: seq<Setting>) {
    var v := FirstValue(settings, INITIAL_WINDOW_SIZE);
    v.Some? ==> v.value < TWO_31
  }

  predicate FirstWindow(settings: seq<Setting>, k: nat) {
    k < |settings| && settings[k].id == 4 && forall j :: 0 <= j < k ==> settings[j].id != 4
  }

  /** Only the first initial window size is looked at, and it must be below 2^31. */
  lemma {:induction false} WindowLegalIs(settings: seq<Setting>)
    ensures WindowLegal(settings) <==> forall k: nat | FirstWindow(settings, k) :: settings[k].val < 0x8000_0000
  {
    if settings != [] {
      var rest := settings[1..];
      WindowLegalIs(rest);
      if settings[0].id == 4 {
        assert FirstWindow(settings, 0);
      } else {
        forall k: nat ensures FirstWindow(settings, k + 1) <==> FirstWindow(rest, k) {
          if FirstWindow(rest, k) {
            forall j | 0 <= j < k + 1 ensures settings[j].id != 4 { if j > 0 { assert rest[j - 1].id != 4; } }
          }
        }
        assert forall k: nat | FirstWindow(settings, k) :: FirstWindow(rest, k - 1);
        assert forall k: nat | FirstWindow(rest, k) :: FirstWindow(settings, k + 1) && settings[k + 1] == rest[k];
      }
    }
  }

  function ParseSettings(h: Header, p: seq<byte>): Result<Body> {
    if HasFlag(h.flags, ACK) && h.length > 0 then Err(ConnectionError(FRAME_SIZE_ERROR))
    else if h.streamID != 0 then Err(ConnectionError(PROTOCOL_ERROR))
    else if |p| % 6 != 0 then Err(ConnectionError(FRAME_SIZE_ERROR))
    else if !WindowLegal(ReadSettings(p)) then Err(ConnectionError(FLOW_CONTROL_ERROR))
    else Ok(SettingsBody(ReadSettings(p)))
  }

  function ParsePromise(h: Header, p: seq<byte>): Result<Body> {
    if h.streamID == 0 then Err(ConnectionError(PROTOCOL_ERROR))
    else if HasFlag(h.flags, PADDED) then
      if p == [] then Err(UnexpectedEOF) else ParsePromiseRest(p[0], p[1..])
    else ParsePromiseRest(0, p)
  }

  function ParsePromiseRest(pad: byte, p: seq<byte>): Result<Body> {
    if |p| < 4 then Err(UnexpectedEOF)
    else if pad > |p| - 4 then Err(ConnectionError(PROTOCOL_ERROR))
    else Ok(PromiseBody(Read32(p) % TWO_31, p[4..|p| - pad]))
  }

  function ParsePing(h: Header, p: seq<byte>): Result<Body> {
    if |p| != 8 then Err(ConnectionError(FRAME_SIZE_ERROR))
    else if h.streamID != 0 then Err(ConnectionError(PROTOCOL_ERROR))
    else Ok(PingBody(p))
  }

  function ParseGoAway(h: Header, p: seq<byte>): Result<Body> {
    if h.streamID != 0 then Err(ConnectionError(PROTOCOL_ERROR))
    else if |p| < 8 then Err(ConnectionError(FRAME_SIZE_ERROR))
    else Ok(GoAwayBody(Read32(p) % TWO_31, Read32(p[4..]), p[8..]))
  }

  function ParseWindowUpdate(h: Header, p: seq<byte>): Result<Body> {
    if |p| != 4 then Err(ConnectionError(FRAME_SIZE_ERROR))
    else if Read32(p) % TWO_31 == 0 then
      if h.streamID == 0 then Err(ConnectionError(PROTOCOL_ERROR)) else Err(StreamError(h.streamID, PROTOCOL_ERROR))
    else Ok(WindowBody(Read32(p) % TWO_31))
  }

  function ParseContinuation(h: Header, p: seq<byte>): Result<Body> {
    if h.streamID == 0 then Err(ConnectionError(PROTOCOL_ERROR)) else Ok(ContinuationBody(p))
  }

  function Parse(h: Header, p: seq<byte>): Result<Body> {
    if h.ftype == DATA then ParseData(h, p)
    else if h.ftype == HEADERS then ParseHeaders(h, p)
    else if h.ftype == PRIORITY then ParsePriority(h, p)
    else if h.ftype == RST_STREAM then ParseReset(h, p)
    else if h.ftype == SETTINGS then ParseSettings(h, p)
    else if h.ftype == PUSH_PROMISE then ParsePromise(h, p)
    else if h.ftype == PING then ParsePing(h, p)
    else if h.ftype == GOAWAY then ParseGoAway(h, p)
    else if h.ftype == WINDOW_UPDATE then ParseWindowUpdate(h, p)
    else if h.ftype == CONTINUATION then ParseContinuation(h, p)
    else Ok(UnknownBody(p))
  }

  function ReadHeader(b: seq<byte>): Header
    requires |b| >= 9
  {
    Header(b[3], b[4], Big(0, b[0], b[1], b[2]), Read32(b[5..9]) % TWO_31)
  }

  /** The frame of a header and its payload, with what follows it. */
  function Framed(h: Header, p: seq<byte>, rest: seq<byte>): Result<(Frame, seq<byte>)> {
    match Parse(h, p)
    case Err(e) => Err(e)
    case Ok(body) => Ok((Frame(h, body), rest))
  }

  /** One frame from the front of `b`, before the order check, and the bytes after it. */
  function ReadOne(b: seq<byte>, maxReadSize: nat): Result<(Frame, seq<byte>)> {
    if |b| < 9 then Err(UnexpectedEOF)
    else
      var h := ReadHeader(b);
      if h.length > maxReadSize then Err(TooLarge)
      else if |b| < 9 + h.length then Err(UnexpectedEOF)
      else Framed(h, b[9..9 + h.length], b[9 + h.length..])
  }

  // ---------------------------------------------------------------- writing

  /** One call of a write method, with AllowIllegalWrites off. */
  datatype Write =
    | WData(id: uint32, endStream: bool, data: seq<byte>, pad: Option<seq<byte>>)
    | WHeaders(id: uint32, frag: seq<byte>, endStream: bool, endHeaders: bool, padLength: byte, param: PriorityParam)
    | WPriority(id: uint32, param: PriorityParam)
    | WReset(id: uint32, code: uint32)
    | WSettings(settings: seq<Setting>)
    | WSettingsAck
    | WPromise(id: uint32, promiseID: uint32, frag: seq<byte>, endHeaders: bool, padLength: byte)
    | WPing(ack: bool, ping: seq<byte>)
    | WGoAway(last: uint32, code: uint32, debug: seq<byte>)
    | WWindowUpdate(id: uint32, increment: uint32)
    | WContinuation(id: uint32, endHeaders: bool, frag: seq<byte>)
    | WRaw(ftype: byte, flags: byte, id: uint32, payload: seq<byte>)

  predicate ValidStreamID(id: uint32) {
    0 < id < TWO_31
  }

  function Flag(on: bool, bit: byte): byte {
    if on then bit else 0
  }

  function Zeros(n: nat): seq<byte> {
    seq(n, _ => 0)
  }

  function PriorityWord(param: PriorityParam): uint32
    requires param.dep < TWO_31
  {
    param.dep + (if param.exclusive then TWO_31 else 0)
  }

  function SettingBytes(settings: seq<Setting>): seq<byte> {
    if settings == [] then [] else U16(settings[0].id) + U32(settings[0].val) + SettingBytes(settings[1..])
  }

  /** The arguments that the write method accepts, the size of the frame aside. */
  predicate ArgumentsLegal(w: Write) {
    match w
    case WData(id, _, _, pad) =>
      ValidStreamID(id) && (pad.Some? ==> |pad.value| <= 255 && forall i :: 0 <= i < |pad.value| ==> pad.value[i] == 0)
    case WHeaders(id, _, _, _, _, param) => ValidStreamID(id) && (param != NoPriority ==> param.dep < TWO_31)
    case WPriority(id, param) => ValidStreamID(id) && param.dep < TWO_31
    case WReset(id, _) => ValidStreamID(id)
    case WPromise(id, promiseID, _, _, _) => ValidStreamID(id) && ValidStreamID(promiseID)
    case WWindowUpdate(_, increment) => 1 <= increment < TWO_31
    case WContinuation(id, _, _) => ValidStreamID(id)
    case WPing(_, ping) => |ping| == 8
    case _ => true
  }

  function Type(w: Write): byte {
    match w
    case WData(_, _, _, _) => DATA
    case WHeaders(_, _, _, _, _, _) => HEADERS
    case WPriority(_, _) => PRIORITY
    case WReset(_, _) => RST_STREAM
    case WSettings(_) => SETTINGS
    case WSettingsAck => SETTINGS
    case WPromise(_, _, _, _, _) => PUSH_PROMISE
    case WPing(_, _) => PING
    case WGoAway(_, _, _) => GOAWAY
    case WWindowUpdate(_, _) => WINDOW_UPDATE
    case WContinuation(_, _, _) => CONTINUATION
    case WRaw(t, _, _, _) => t
  }

  function FlagsOf(w: Write): byte {
    match w
    case WData(_, endStream, _, pad) => Flag(endStream, END_STREAM) + Flag(pad.Some?, PADDED)
    case WHeaders(_, _, endStream, endHeaders, padLength, param) =>
      Flag(padLength != 0, PADDED) + Flag(endStream, END_STREAM) + Flag(endHeaders, END_HEADERS)
        + Flag(param != NoPriority, HAS_PRIORITY)
    case WPromise(_, _, _, endHeaders, padLength) => Flag(padLength != 0, PADDED) + Flag(endHeaders, END_HEADERS)
    case WSettingsAck => ACK
    case WPing(ack, _) => Flag(ack, ACK)
    case WContinuation(_, endHeaders, _) => Flag(endHeaders, END_HEADERS)
    case WRaw(_, flags, _, _) => flags
    case _ => 0
  }

  function StreamOf(w: Write): uint32 {
    match w
    case WData(id, _, _, _) => id
    case WHeaders(id, _, _, _, _, _) => id
    case WPriority(id, _) => id
    case WReset(id, _) => id
    case WPromise(id, _, _, _, _) => id
    case WWindowUpdate(id, _) => id
    case WContinuation(id, _, _) => id
    case WRaw(_, _, id, _) => id
    case _ => 0
  }

  function PriorityBytes(param: PriorityParam): seq<byte>
    requires param.dep < TWO_31
  {
    U32(PriorityWord(param)) + [param.weight]
  }

  /** The frame payload of sections 6.1 to 6.10. */
  function Payload(w: Write): seq<byte>
    requires ArgumentsLegal(w)
  {
    match w
    case WData(_, _, data, pad) => if pad.Some? then [|pad.value|] + data + pad.value else data
    case WHeaders(_, frag, _, _, padLength, param) =>
      (if padLength != 0 then [padLength] else [])
        + (if param != NoPriority then PriorityBytes(param) else []) + frag + Zeros(padLength)
    case WPriority(_, param) => PriorityBytes(param)
    case WReset(_, code) => U32(code)
    case WSettings(settings) => SettingBytes(settings)
    case WSettingsAck => []
    case WPromise(_, promiseID, frag, _, padLength) =>
      (if padLength != 0 then [padLength] else []) + U32(promiseID) + frag + Zeros(padLength)
    case WPing(_, ping) => ping
    case WGoAway(last, code, debug) => U32(last % TWO_31) + U32(code) + debug
    case WWindowUpdate(_, increment) => U32(increment)
    case WContinuation(_, _, frag) => frag
    case WRaw(_, _, _, payload) => payload
  }

  predicate Accepts(w: Write) {
    ArgumentsLegal(w) && |Payload(w)| <= MAX_FRAME
  }

  /** The bytes of a frame (section 4.1). */
  function Wire(w: Write): seq<byte>
    requires Accepts(w)
  {
    U24(|Payload(w)|) + [Type(w), FlagsOf(w)] + U32(StreamOf(w)) + Payload(w)
  }

  /** What a reader should get back. */
  function Sent(w: Write): Frame
    requires Accepts(w)
  {
    Frame(Header(Type(w), FlagsOf(w), |Payload(w)|, StreamOf(w)),
          match w
          case WData(_, _, data, _) => DataBody(data)
          case WHeaders(_, frag, _, _, _, param) => HeadersBody(param, frag)
          case WPriority(_, param) => PriorityBody(param)
          case WReset(_, code) => ResetBody(code)
          case WSettings(settings) => SettingsBody(settings)
          case WSettingsAck => SettingsBody([])
          case WPromise(_, promiseID, frag, _, _) => PromiseBody(promiseID, frag)
          case WPing(_, ping) => PingBody(ping)
          case WGoAway(last, code, debug) => GoAwayBody(last % TWO_31, code, debug)
          case WWindowUpdate(_, increment) => WindowBody(increment)
          case WContinuation(_, _, frag) => ContinuationBody(frag)
          case WRaw(_, _, _, payload) => UnknownBody(payload))
  }

  /** The accepted writes that come back as they were sent. */
  predicate Readable(w: Write) {
    match w
    case WHeaders(_, frag, _, _, _, _) => frag != []
    case WSettings(settings) => WindowLegal(settings)
    case WWindowUpdate(id, _) => id < TWO_31
    case WRaw(t, _, id, _) => id < TWO_31 && t > CONTINUATION
    case _ => true
  }

  // ------------------------------------------------------------- round trip

  /** The header comes back, with the reserved bit of the stream identifier cleared. */
  lemma ReadWire(w: Write, rest: seq<byte>)
    requires Accepts(w)
    ensures var b := Wire(w) + rest;
            && |b| >= 9 + |Payload(w)|
            && ReadHeader(b) == Header(Type(w), FlagsOf(w), |Payload(w)|, StreamOf(w) % TWO_31)
            && b[9..9 + |Payload(w)|] == Payload(w) && b[9 + |Payload(w)|..] == rest
  {
    hide Big, U32, U24, Payload, FlagsOf, Type, StreamOf, ArgumentsLegal;
    var n, id := |Payload(w)|, StreamOf(w);
    var b := Wire(w) + rest;
    assert b[..9] == U24(n) + [Type(w), FlagsOf(w)] + U32(id);
    assert b[5..9] == U32(id);
    WordRoundTrip(id, []);
    assert U32(id) + [] == U32(id);
    assert b[0] == U24(n)[0] && b[1] == U24(n)[1] && b[2] == U24(n)[2];
    BigOfBytes(n);
    assert b == b[..9] + Payload(w) + rest;
  }

  lemma {:induction false} SettingsRoundTrip(settings: seq<Setting>)
    ensures |SettingBytes(settings)| % 6 == 0 && ReadSettings(SettingBytes(settings)) == settings
  {
    if settings != [] {
      var s, tail := settings[0], SettingBytes(settings[1..]);
      SettingsRoundTrip(settings[1..]);
      var p := SettingBytes(settings);
      assert p == U16(s.id) + U32(s.val) + tail;
      assert p[2..] == U32(s.val) + tail && p[6..] == tail;
      WordRoundTrip(s.val, tail);
    }
  }

  lemma PriorityRoundTrip(param: PriorityParam, rest: seq<byte>)
    requires param.dep < TWO_31
    ensures var p := PriorityBytes(param) + rest;
            && |p| >= 5 && p[4] == param.weight && p[5..] == rest
            && Read32(p) % TWO_31 == param.dep && (Read32(p) != Read32(p) % TWO_31) == param.exclusive
  {
    var p := PriorityBytes(param) + rest;
    assert p == U32(PriorityWord(param)) + ([param.weight] + rest);
    WordRoundTrip(PriorityWord(param), [param.weight] + rest);
  }

  lemma DataBack(w: Write, h: Header)
    requires w.WData? && Accepts(w) && h.streamID == w.id && h.flags == FlagsOf(w)
    ensures ParseData(h, Payload(w)) == Ok(DataBody(w.data))
  {
    assert HasFlag(h.flags, PADDED) <==> w.pad.Some?;
    if w.pad.Some? {
      assert Payload(w)[1..|Payload(w)| - |w.pad.value|] == w.data;
    }
  }

  lemma HeadersBack(w: Write, h: Header)
    requires w.WHeaders? && Accepts(w) && h.streamID == w.id && h.flags == FlagsOf(w)
    ensures ParseHeaders(h, Payload(w))
         == if w.frag == [] then Err(StreamError(w.id, PROTOCOL_ERROR)) else Ok(HeadersBody(w.param, w.frag))
  {
    hide Read32, PriorityWord, U32;
    var pad, tail := w.padLength, w.frag + Zeros(w.padLength);
    HeadersFlags(w);
    assert tail[..|tail| - pad] == w.frag;
    var body := (if w.param != NoPriority then PriorityBytes(w.param) else []) + tail;
    assert Payload(w) == (if pad != 0 then [pad] else []) + body;
    assert pad != 0 ==> Payload(w)[1..] == body;
    assert pad == 0 ==> Payload(w) == body;
    HeadersPriorityBack(h, pad, w.param, tail);
  }

  lemma HeadersFlags(w: Write)
    requires w.WHeaders?
    ensures HasFlag(FlagsOf(w), PADDED) <==> w.padLength != 0
    ensures HasFlag(FlagsOf(w), HAS_PRIORITY) <==> w.param != NoPriority
    ensures HasFlag(FlagsOf(w), END_HEADERS) <==> w.endHeaders
    ensures HasFlag(FlagsOf(w), END_STREAM) <==> w.endStream
  {
  }

  lemma HeadersPriorityBack(h: Header, pad: byte, param: PriorityParam, tail: seq<byte>)
    requires param != NoPriority ==> param.dep < TWO_31
    requires HasFlag(h.flags, HAS_PRIORITY) <==> param != NoPriority
    ensures ParseHeadersPriority(h, pad, (if param != NoPriority then PriorityBytes(param) else []) + tail)
         == ParseHeadersRest(h, pad, param, tail)
  {
    if param != NoPriority {
      PriorityRoundTrip(param, tail);
    } else {
      assert [] + tail == tail;
    }
  }

  lemma PromiseBack(w: Write, h: Header)
    requires w.WPromise? && Accepts(w) && h.streamID == w.id && h.flags == FlagsOf(w)
    ensures ParsePromise(h, Payload(w)) == Ok(PromiseBody(w.promiseID, w.frag))
  {
    hide Big, U32;
    var pad, tail := w.padLength, w.frag + Zeros(w.padLength);
    assert HasFlag(h.flags, PADDED) <==> pad != 0;
    var body := U32(w.promiseID) + tail;
    assert Payload(w) == (if pad != 0 then [pad] else []) + body;
    if pad != 0 {
      assert Payload(w)[1..] == body;
    } else {
      assert Payload(w) == body;
    }
    WordRoundTrip(w.promiseID, tail);
    assert body[4..|body| - pad] == w.frag;
  }

  lemma GoAwayBack(w: Write, h: Header)
    requires w.WGoAway? && Accepts(w) && h.streamID == 0
    ensures ParseGoAway(h, Payload(w)) == Ok(GoAwayBody(w.last % TWO_31, w.code, w.debug))
  {
    hide Big, U32, FlagsOf;
    var p := Payload(w);
    assert p == U32(w.last % TWO_31) + (U32(w.code) + w.debug);
    WordRoundTrip(w.last % TWO_31, U32(w.code) + w.debug);
    WordRoundTrip(w.code, w.debug);
    assert p[8..] == p[4..][4..];
  }

  /** Parsing the payload, the reserved bit of the stream identifier aside. */
  lemma ParseBack(w: Write, h: Header)
    requires Accepts(w) && h == Header(Type(w), FlagsOf(w), |Payload(w)|, StreamOf(w) % TWO_31)
    ensures Parse(h, Payload(w)) == Ok(Sent(w).body) <==>
      match w
      case WHeaders(_, frag, _, _, _, _) => frag != []
      case WSettings(settings) => WindowLegal(settings)
      case WRaw(t, _, _, _) => t > CONTINUATION
      case _ => true
  {
    hide Big, U32, U16, PriorityBytes, ReadSettings;
    match w
    case WData(_, _, _, _) => DataBack(w, h);
    case WHeaders(_, _, _, _, _, _) => HeadersBack(w, h);
    case WPriority(_, param) =>
      PriorityRoundTrip(param, []);
      assert PriorityBytes(param) + [] == PriorityBytes(param);
    case WReset(_, code) =>
      WordRoundTrip(code, []);
      assert U32(code) + [] == U32(code);
    case WSettings(settings) => SettingsRoundTrip(settings);
    case WSettingsAck => SettingsRoundTrip([]);
    case WPromise(_, _, _, _, _) => PromiseBack(w, h);
    case WPing(_, _) =>
    case WGoAway(_, _, _) => GoAwayBack(w, h);
    case WWindowUpdate(_, increment) =>
      WordRoundTrip(increment, []);
      assert U32(increment) + [] == U32(increment);
    case WContinuation(_, _, _) =>
    case WRaw(t, _, _, payload) => RawBack(t, h, payload);
  }

  lemma RawBack(t: byte, h: Header, p: seq<byte>)
    requires h.ftype == t
    ensures Parse(h, p) == Ok(UnknownBody(p)) <==> t > CONTINUATION
  {
  }

  /** What any accepted write is read as, whatever follows it: its payload parsed under its header. */
  lemma ReadsAs(w: Write, rest: seq<byte>, maxReadSize: nat)
    requires Accepts(w)
    ensures ReadOne(Wire(w) + rest, maxReadSize)
         == if |Payload(w)| > maxReadSize then Err(TooLarge)
            else Framed(Header(Type(w), FlagsOf(w), |Payload(w)|, StreamOf(w) % TWO_31), Payload(w), rest)
  {
    hide Big, U32, U24, Payload, FlagsOf, Type, Parse, Wire, ReadHeader;
    ReadWire(w, rest);
  }

  /** A raw frame of a known type is the frame of that type with the same payload, so it is read as one. */
  lemma RawIsSame(w: Write)
    requires Accepts(w)
    ensures var raw := WRaw(Type(w), FlagsOf(w), StreamOf(w), Payload(w));
            Accepts(raw) && Wire(raw) == Wire(w)
  {
  }

  /**
   An accepted write is read back as it was sent, with nothing after it lost, exactly when it is
   readable and within the reader's limit.
   */
  lemma RoundTrip(w: Write, rest: seq<byte>, maxReadSize: nat)
    requires Accepts(w)
    ensures ReadOne(Wire(w) + rest, maxReadSize) == Ok((Sent(w), rest)) <==> Readable(w) && |Payload(w)| <= maxReadSize
  {
    hide Big, U32, U24, Payload, FlagsOf, Type, Parse, Wire, ReadHeader;
    ReadWire(w, rest);
    ParseBack(w, Header(Type(w), FlagsOf(w), |Payload(w)|, StreamOf(w) % TWO_31));
  }

  // --------------------------------------------------------- the wire format in numbers

  /** The 32-bit number at position `i`. */
  function Word(b: seq<byte>, i: nat): int
    requires i + 4 <= |b|
  {
    b[i] as int * 0x100_0000 + b[i + 1] as int * 0x1_0000 + b[i + 2] as int * 0x100 + b[i + 3]
  }

  lemma WordAt(a: seq<byte>, v: uint32, rest: seq<byte>)
    ensures var b := a + U32(v) + rest; |a| + 4 <= |b| && Word(b, |a|) == v
  {
    BigOfBytes(v);
    var b := a + U32(v) + rest;
    assert b[|a|] == U32(v)[0] && b[|a| + 1] == U32(v)[1] && b[|a| + 2] == U32(v)[2] && b[|a| + 3] == U32(v)[3];
    hide U32;
  }

  /** Section 4.1 of RFC 7540: length, type, flags and stream stand in the first nine bytes, the payload after them. */
  lemma HeaderLayout(w: Write)
    requires Accepts(w)
    ensures var b := Wire(w);
      && |b| == 9 + |Payload(w)| && b[9..] == Payload(w)
      && b[0] as int * 0x1_0000 + b[1] as int * 0x100 + b[2] == |b| - 9
      && b[3] == Type(w) && b[4] == FlagsOf(w) && Word(b, 5) == StreamOf(w)
  {
    hide Payload, Type, FlagsOf, StreamOf, U32, U24, ArgumentsLegal;
    var n, b := |Payload(w)|, Wire(w);
    var front := U24(n) + [Type(w), FlagsOf(w)];
    assert b == front + U32(StreamOf(w)) + Payload(w);
    WordAt(front, StreamOf(w), Payload(w));
    BigOfBytes(n);
    assert b[0] == U24(n)[0] && b[1] == U24(n)[1] && b[2] == U24(n)[2];
  }

  /** What the write methods ask of their arguments: stream ids of 31 bits but 0, padding of at most 255 zeros, increments from 1 to 2^31 - 1. */
  lemma LegalIs(w: Write)
    ensures ArgumentsLegal(w) <==>
      && (!w.WSettings? && !w.WSettingsAck? && !w.WPing? && !w.WGoAway? && !w.WWindowUpdate? && !w.WRaw? ==> 0 < StreamOf(w) <= 0x7fff_ffff)
      && (w.WData? && w.pad.Some? ==> |w.pad.value| < 256 && w.pad.value == Zeros(|w.pad.value|))
      && (w.WHeaders? && w.param != PriorityParam(0, false, 0) ==> w.param.dep <= 0x7fff_ffff)
      && (w.WPriority? ==> w.param.dep <= 0x7fff_ffff)
      && (w.WPromise? ==> 0 < w.promiseID <= 0x7fff_ffff)
      && (w.WPing? ==> |w.ping| == 8)
      && (w.WWindowUpdate? ==> 0 < w.increment <= 0x7fff_ffff)
  {
    if w.WData? && w.pad.Some? {
      var v := w.pad.value;
      assert v == Zeros(|v|) <==> forall i :: 0 <= i < |v| ==> v[i] == 0;
    }
  }

  /** The frame types and flags of section 6 by their numbers. */
  lemma TypesAndFlags(w: Write)
    ensures match w
      case WData(id, endStream, _, pad) => Type(w) == 0 && FlagsOf(w) == (if endStream then 0x1 else 0) + (if pad.Some? then 0x8 else 0)
      case WHeaders(id, _, endStream, endHeaders, padLength, param) =>
        && Type(w) == 1
        && FlagsOf(w) == (if endStream then 0x1 else 0) + (if endHeaders then 0x4 else 0) + (if padLength != 0 then 0x8 else 0)
                         + (if param != PriorityParam(0, false, 0) then 0x20 else 0)
      case WPriority(_, _) => Type(w) == 2 && FlagsOf(w) == 0
      case WReset(_, _) => Type(w) == 3 && FlagsOf(w) == 0
      case WSettings(_) => Type(w) == 4 && FlagsOf(w) == 0
      case WSettingsAck => Type(w) == 4 && FlagsOf(w) == 0x1
      case WPromise(_, _, _, endHeaders, padLength) =>
        Type(w) == 5 && FlagsOf(w) == (if endHeaders then 0x4 else 0) + (if padLength != 0 then 0x8 else 0)
      case WPing(ack, _) => Type(w) == 6 && FlagsOf(w) == if ack then 0x1 else 0
      case WGoAway(_, _, _) => Type(w) == 7 && FlagsOf(w) == 0
      case WWindowUpdate(_, _) => Type(w) == 8 && FlagsOf(w) == 0
      case WContinuation(_, endHeaders, _) => Type(w) == 9 && FlagsOf(w) == if endHeaders then 0x4 else 0
      case WRaw(t, flags, _, _) => Type(w) == t && FlagsOf(w) == flags
  {
  }

  lemma PayloadWord(v: uint32, rest: seq<byte>)
    ensures |U32(v) + rest| >= 4 && Word(U32(v) + rest, 0) == v
  {
    assert [] + U32(v) + rest == U32(v) + rest;
    WordAt([], v, rest);
  }

  /** The numbers in the payloads: dependencies with the exclusive bit, codes, promised streams and increments. */
  lemma PayloadLayout(w: Write)
    requires Accepts(w)
    ensures var p := Payload(w);
      match w
      case WPriority(_, param) => |p| == 5 && Word(p, 0) == param.dep + (if param.exclusive then 0x8000_0000 else 0) && p[4] == param.weight
      case WReset(_, code) => |p| == 4 && Word(p, 0) == code
      case WGoAway(last, code, debug) => |p| == 8 + |debug| && Word(p, 0) == last % 0x8000_0000 && Word(p, 4) == code
      case WWindowUpdate(_, increment) => |p| == 4 && Word(p, 0) == increment
      case WPromise(_, promiseID, frag, _, padLength) =>
        if padLength == 0 then |p| == 4 + |frag| && Word(p, 0) == promiseID
        else |p| == 5 + |frag| + padLength && p[0] == padLength && Word(p, 1) == promiseID
      case WSettings(settings) =>
        settings != [] ==> |p| >= 6 && p[0] as int * 0x100 + p[1] == settings[0].id && Word(p, 2) == settings[0].val && p[6..] == SettingBytes(settings[1..])
      case _ => true
  {
    hide U32, Word;
    match w
    case WPriority(_, param) => PayloadWord(PriorityWord(param), [param.weight]);
    case WReset(_, code) => PayloadWord(code, []); assert U32(code) + [] == U32(code);
    case WWindowUpdate(_, increment) => PayloadWord(increment, []); assert U32(increment) + [] == U32(increment);
    case WGoAway(last, code, debug) =>
      WordAt(U32(last % TWO_31), code, debug);
      PayloadWord(last % TWO_31, U32(code) + debug);
      assert Payload(w) == U32(last % TWO_31) + (U32(code) + debug);
    case WPromise(_, promiseID, frag, _, padLength) =>
      if padLength == 0 {
        PayloadWord(promiseID, frag);
        assert Payload(w) == U32(promiseID) + frag;
      } else {
        WordAt([padLength], promiseID, frag + Zeros(padLength));
        assert Payload(w) == [padLength] + U32(promiseID) + (frag + Zeros(padLength));
      }
    case WSettings(settings) =>
      if settings != [] {
        var tail := SettingBytes(settings[1..]);
        WordAt(U16(settings[0].id), settings[0].val, tail);
        assert Payload(w) == U16(settings[0].id) + U32(settings[0].val) + tail;
      }
    case _ =>
  }

  /**
   Which frames the parsers refuse, and how: PROTOCOL_ERROR for a stream where there must be none, or
   none where there must be one, FRAME_SIZE_ERROR for a wrong length, FLOW_CONTROL_ERROR for an initial
   window above 2^31 - 1.
   */
  lemma RefusedFrames(h: Header, p: seq<byte>)
    requires h.length == |p|
    ensures h.streamID == 0 && h.ftype in {0, 1, 2, 5, 9} ==> Parse(h, p) == Err(ConnectionError(1))
    ensures h.streamID == 0 && h.ftype == 3 && |p| == 4 ==> Parse(h, p) == Err(ConnectionError(1))
    ensures h.streamID != 0 && (h.ftype == 7 || (h.ftype == 6 && |p| == 8) || (h.ftype == 4 && (h.flags % 2 == 0 || p == []))) ==> Parse(h, p) == Err(ConnectionError(1))
    ensures (h.ftype == 3 && |p| != 4) || (h.ftype == 6 && |p| != 8) || (h.ftype == 8 && |p| != 4) ==> Parse(h, p) == Err(ConnectionError(6))
    ensures h.ftype == 4 && h.flags % 2 == 1 && p != [] ==> Parse(h, p) == Err(ConnectionError(6))
    ensures h.streamID == 0 && ((h.ftype == 7 && |p| < 8) || (h.ftype == 4 && |p| % 6 != 0)) ==> Parse(h, p) == Err(ConnectionError(6))
    ensures h.streamID == 0 && h.ftype == 4 && |p| % 6 == 0 && (h.flags % 2 == 0 || p == []) && !WindowLegal(ReadSettings(p)) ==> Parse(h, p) == Err(ConnectionError(3))
    ensures h.streamID != 0 && h.ftype == 2 && |p| != 5 ==> Parse(h, p) == Err(ConnectionError(6))
    ensures h.ftype == 8 && |p| == 4 && p[0] % 0x80 == 0 && p[1] == p[2] == p[3] == 0 ==>
      Parse(h, p) == Err(if h.streamID == 0 then ConnectionError(1) else StreamError(h.streamID, 1))
    ensures h.streamID != 0 && (h.ftype == 0 || h.ftype == 1 || h.ftype == 5) && h.flags / 8 % 2 == 1 && p == [] ==> Parse(h, p) == Err(UnexpectedEOF)
    ensures h.streamID != 0 && h.ftype == 0 && h.flags / 8 % 2 == 1 && p != [] && p[0] >= |p| ==> Parse(h, p) == Err(ConnectionError(1))
  {
  }
}
