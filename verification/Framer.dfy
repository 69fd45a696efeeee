/** The Framer's write methods, appending to a write buffer that is sent when the frame is complete. */
module Framer {
  import opened Basics
  import opened Frames

  class Framer {
    var wbuf: seq<byte>
    /** Everything written to the underlying writer so far. */
    var out: seq<byte>

    constructor ()
      ensures out == [] && wbuf == []
    {
      wbuf, out := [], [];
    }

    method StartWrite(ftype: byte, flags: byte, streamID: uint32)
      modifies this`wbuf
      ensures wbuf == [0, 0, 0, ftype, flags] + U32(streamID)
    {
      wbuf := [0, 0, 0, ftype, flags] + U32(streamID);
    }

    /** Fills in the length and sends the buffer, unless the frame is too large. */
    method EndWrite() returns (ok: bool)
      requires |wbuf| >= 9
      modifies this
      ensures ok <==> |old(wbuf)| - 9 <= MAX_FRAME
      ensures out == if ok then old(out) + (U24(|old(wbuf)| - 9) + old(wbuf)[3..]) else old(out)
    {
      var length := |wbuf| - 9;
      if length > MAX_FRAME {
        return false;
      }
      wbuf := U24(length) + wbuf[3..];
      out := out + wbuf;
      ok := true;
    }

    /** Sends the frame whose header and payload are in the buffer. */
    method Finish(ghost w: Write) returns (ok: bool)
      requires ArgumentsLegal(w) && wbuf == [0, 0, 0, Type(w), FlagsOf(w)] + U32(StreamOf(w)) + Payload(w)
      modifies this
      ensures ok <==> Accepts(w)
      ensures out == if ok then old(out) + Wire(w) else old(out)
    {
      hide Payload, FlagsOf, Type, StreamOf, ArgumentsLegal, U32, U24;
      ghost var b := wbuf;
      ok := EndWrite();
      assert b[3..] == [Type(w), FlagsOf(w)] + U32(StreamOf(w)) + Payload(w);
      if ok {
        assert U24(|b| - 9) + b[3..] == Wire(w);
      }
    }

    method WriteDataPadded(streamID: uint32, endStream: bool, data: seq<byte>, pad: Option<seq<byte>>) returns (ok: bool)
      modifies this
      ensures ok <==> Accepts(WData(streamID, endStream, data, pad))
      ensures out == if ok then old(out) + Wire(WData(streamID, endStream, data, pad)) else old(out)
    {
      if !ValidStreamID(streamID) {
        return false;
      }
      if pad.Some? {
        if |pad.value| > 255 {
          return false;
        }
        for i := 0 to |pad.value|
          invariant forall j :: 0 <= j < i ==> pad.value[j] == 0
          invariant out == old(out)
        {
          if pad.value[i] != 0 {
            return false;
          }
        }
      }
      StartWrite(DATA, Flag(endStream, END_STREAM) + Flag(pad.Some?, PADDED), streamID);
      ghost var h := wbuf;
      if pad.Some? {
        wbuf := wbuf + [|pad.value|];
      }
      wbuf := wbuf + data;
      if pad.Some? {
        wbuf := wbuf + pad.value;
      }
      assert wbuf == h + Payload(WData(streamID, endStream, data, pad));
      ok := Finish(WData(streamID, endStream, data, pad));
    }

    method WriteHeaders(streamID: uint32, frag: seq<byte>, endStream: bool, endHeaders: bool, padLength: byte,
                        param: PriorityParam) returns (ok: bool)
      modifies this
      ensures ok <==> Accepts(WHeaders(streamID, frag, endStream, endHeaders, padLength, param))
      ensures out == if ok then old(out) + Wire(WHeaders(streamID, frag, endStream, endHeaders, padLength, param))
                     else old(out)
    {
      ghost var w := WHeaders(streamID, frag, endStream, endHeaders, padLength, param);
      if !ValidStreamID(streamID) {
        return false;
      }
      StartWrite(HEADERS, FlagsOf(WHeaders(streamID, frag, endStream, endHeaders, padLength, param)), streamID);
      ghost var h := wbuf;
      if padLength != 0 {
        wbuf := wbuf + [padLength];
      }
      ghost var h1 := wbuf;
      if param != NoPriority {
        if param.dep >= TWO_31 {
          return false;
        }
        wbuf := wbuf + U32(PriorityWord(param));
        wbuf := wbuf + [param.weight];
        assert wbuf == h1 + PriorityBytes(param);
      }
      wbuf := wbuf + frag;
      wbuf := wbuf + Zeros(padLength);
      assert wbuf == h + Payload(w);
      ok := Finish(w);
    }

    method WritePriority(streamID: uint32, param: PriorityParam) returns (ok: bool)
      modifies this
      ensures ok <==> Accepts(WPriority(streamID, param))
      ensures out == if ok then old(out) + Wire(WPriority(streamID, param)) else old(out)
    {
      if !ValidStreamID(streamID) || param.dep >= TWO_31 {
        return false;
      }
      StartWrite(PRIORITY, 0, streamID);
      ghost var h := wbuf;
      wbuf := wbuf + U32(PriorityWord(param));
      wbuf := wbuf + [param.weight];
      assert wbuf == h + PriorityBytes(param);
      ok := Finish(WPriority(streamID, param));
    }

    method WriteRSTStream(streamID: uint32, code: uint32) returns (ok: bool)
      modifies this
      ensures ok <==> Accepts(WReset(streamID, code))
      ensures out == if ok then old(out) + Wire(WReset(streamID, code)) else old(out)
    {
      if !ValidStreamID(streamID) {
        return false;
      }
      StartWrite(RST_STREAM, 0, streamID);
      wbuf := wbuf + U32(code);
      ok := Finish(WReset(streamID, code));
    }

    method WriteSettings(settings: seq<Setting>) returns (ok: bool)
      modifies this
      ensures ok <==> Accepts(WSettings(settings))
      ensures out == if ok then old(out) + Wire(WSettings(settings)) else old(out)
    {
      StartWrite(SETTINGS, 0, 0);
      ghost var h := wbuf;
      for i := 0 to |settings|
        invariant wbuf + SettingBytes(settings[i..]) == h + SettingBytes(settings)
        invariant out == old(out)
      {
        hide U16, U32;
        ghost var before := wbuf;
        assert settings[i..][1..] == settings[i + 1..];
        wbuf := wbuf + U16(settings[i].id);
        wbuf := wbuf + U32(settings[i].val);
        assert wbuf + SettingBytes(settings[i + 1..]) == before + SettingBytes(settings[i..]);
      }
      assert settings[|settings|..] == [];
      ok := Finish(WSettings(settings));
    }

    method WriteSettingsAck() returns (ok: bool)
      modifies this
      ensures ok && Accepts(WSettingsAck)
      ensures out == old(out) + Wire(WSettingsAck)
    {
      StartWrite(SETTINGS, ACK, 0);
      assert wbuf == wbuf + [];
      ok := Finish(WSettingsAck);
    }

    method WritePushPromise(streamID: uint32, promiseID: uint32, frag: seq<byte>, endHeaders: bool, padLength: byte)
      returns (ok: bool)
      modifies this
      ensures ok <==> Accepts(WPromise(streamID, promiseID, frag, endHeaders, padLength))
      ensures out == if ok then old(out) + Wire(WPromise(streamID, promiseID, frag, endHeaders, padLength)) else old(out)
    {
      if !ValidStreamID(streamID) {
        return false;
      }
      hide U32, Wire;
      StartWrite(PUSH_PROMISE, Flag(padLength != 0, PADDED) + Flag(endHeaders, END_HEADERS), streamID);
      ghost var h := wbuf;
      if padLength != 0 {
        wbuf := wbuf + [padLength];
      }
      if !ValidStreamID(promiseID) {
        return false;
      }
      wbuf := wbuf + U32(promiseID);
      wbuf := wbuf + frag;
      wbuf := wbuf + Zeros(padLength);
      assert wbuf == h + ((if padLength != 0 then [padLength] else []) + U32(promiseID) + frag + Zeros(padLength));
      ok := Finish(WPromise(streamID, promiseID, frag, endHeaders, padLength));
    }

    method WritePing(ack: bool, ping: seq<byte>) returns (ok: bool)
      requires |ping| == 8
      modifies this
      ensures ok && Accepts(WPing(ack, ping))
      ensures out == old(out) + Wire(WPing(ack, ping))
    {
      StartWrite(PING, Flag(ack, ACK), 0);
      wbuf := wbuf + ping;
      ok := Finish(WPing(ack, ping));
    }

    method WriteGoAway(last: uint32, code: uint32, debug: seq<byte>) returns (ok: bool)
      modifies this
      ensures ok <==> Accepts(WGoAway(last, code, debug))
      ensures out == if ok then old(out) + Wire(WGoAway(last, code, debug)) else old(out)
    {
      StartWrite(GOAWAY, 0, 0);
      ghost var h := wbuf;
      wbuf := wbuf + U32(last % TWO_31);
      wbuf := wbuf + U32(code);
      wbuf := wbuf + debug;
      assert wbuf == h + Payload(WGoAway(last, code, debug));
      ok := Finish(WGoAway(last, code, debug));
    }

    method WriteWindowUpdate(streamID: uint32, increment: uint32) returns (ok: bool)
      modifies this
      ensures ok <==> Accepts(WWindowUpdate(streamID, increment))
      ensures out == if ok then old(out) + Wire(WWindowUpdate(streamID, increment)) else old(out)
    {
      if increment < 1 || increment >= TWO_31 {
        return false;
      }
      StartWrite(WINDOW_UPDATE, 0, streamID);
      wbuf := wbuf + U32(increment);
      ok := Finish(WWindowUpdate(streamID, increment));
    }

    method WriteContinuation(streamID: uint32, endHeaders: bool, frag: seq<byte>) returns (ok: bool)
      modifies this
      ensures ok <==> Accepts(WContinuation(streamID, endHeaders, frag))
      ensures out == if ok then old(out) + Wire(WContinuation(streamID, endHeaders, frag)) else old(out)
    {
      if !ValidStreamID(streamID) {
        return false;
      }
      StartWrite(CONTINUATION, Flag(endHeaders, END_HEADERS), streamID);
      wbuf := wbuf + frag;
      ok := Finish(WContinuation(streamID, endHeaders, frag));
    }

    method WriteRawFrame(ftype: byte, flags: byte, streamID: uint32, payload: seq<byte>) returns (ok: bool)
      modifies this
      ensures ok <==> Accepts(WRaw(ftype, flags, streamID, payload))
      ensures out == if ok then old(out) + Wire(WRaw(ftype, flags, streamID, payload)) else old(out)
    {
      StartWrite(ftype, flags, streamID);
      wbuf := wbuf + payload;
      ok := Finish(WRaw(ftype, flags, streamID, payload));
    }
  }
}
