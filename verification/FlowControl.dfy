/**
 Send-side flow control of the HTTP/2 server: the window objects, and the connection's
 operations on them (sections 6.9.1 and 6.9.2 of RFC 7540).
 */
module FlowControl {
  import opened Int32

  const INITIAL_WINDOW := 65535
  const MIN_MAX_FRAME := 16384
  const MAX_MAX_FRAME := 0xff_ffff

  /**
   The windows of one connection as values. `stream` covers every stream opened so far, and the
   last two are the largest ids seen from the client and promised to it.
   */
  datatype Windows = Windows(conn: int, stream: map<nat, int>, active: set<nat>, initial: int, maxFrame: int,
                             maxClient: nat, maxPush: nat)

  const InitialWindows := Windows(INITIAL_WINDOW, map[], {}, INITIAL_WINDOW, MIN_MAX_FRAME, 0, 0)

  /** An id above all of its kind; a lower one that is not open is closed, opened before or skipped. */
  predicate IsIdle(w: Windows, id: nat) {
    id > if id % 2 == 1 then w.maxClient else w.maxPush
  }

  function Seen(w: Windows, id: nat): Windows {
    if !IsIdle(w, id) then w else if id % 2 == 1 then w.(maxClient := id) else w.(maxPush := id)
  }

  datatype Verdict = Accepted | Ignored | StreamError | ConnectionError

  function Min(a: int, b: int): int {
    if a < b then a else b
  }

  /** How many DATA bytes stream `id` may send now. */
  function Sendable(w: Windows, id: nat): int
    requires id in w.stream
  {
    Min(w.stream[id], w.conn)
  }

  function Spend(w: Windows, id: nat, k: int): Windows
    requires id in w.stream
  {
    w.(conn := w.conn - k, stream := w.stream[id := w.stream[id] - k])
  }

  /** A WINDOW_UPDATE with increment `inc` on stream `id`, 0 being the connection. */
  function Update(w: Windows, id: nat, inc: int): (Windows, Verdict) {
    if id == 0 then
      if InInt32(w.conn + inc) then (w.(conn := w.conn + inc), Accepted) else (w, ConnectionError)
    else if id !in w.active || id !in w.stream then (w, if IsIdle(w, id) then ConnectionError else Ignored)
    else if InInt32(w.stream[id] + inc) then (w.(stream := w.stream[id := w.stream[id] + inc]), Accepted)
    else (w, StreamError)
  }

  /**
   Section 6.9.1 of RFC 7540: a window over 2^31 - 1 is an error of its stream or of the connection;
   an idle stream is one of the connection, a closed stream none. Errors leave the windows alone,
   and otherwise only the window named grows.
   */
  lemma UpdateVerdict(w: Windows, id: nat, inc: int)
    requires 1 <= inc <= 0x7fff_ffff && w.active <= w.stream.Keys && 0 !in w.active
    requires InInt32(w.conn) && forall x <- w.active :: InInt32(w.stream[x])
    ensures var (after, v) := Update(w, id, inc);
      var idle := id != 0 && id !in w.active && id > if id % 2 == 1 then w.maxClient else w.maxPush;
      && (v == ConnectionError <==> idle || (id == 0 && w.conn + inc > 0x7fff_ffff))
      && (v == StreamError <==> id in w.active && w.stream[id] + inc > 0x7fff_ffff)
      && (v == Ignored <==> id != 0 && id !in w.active && !idle)
      && (v != Accepted ==> after == w)
      && (v == Accepted ==> after == w.(conn := after.conn, stream := after.stream) && after.stream.Keys == w.stream.Keys)
      && (v == Accepted ==> after.conn == w.conn + if id == 0 then inc else 0)
      && (v == Accepted ==> forall x :: x in w.stream ==> after.stream[x] == w.stream[x] + if x == id && id != 0 then inc else 0)
  {
  }

  /** The windows after SETTINGS_INITIAL_WINDOW_SIZE changes to `val`, errors aside. */
  function Resized(w: Windows, val: int): Windows {
    w.(initial := val,
       stream := map id | id in w.stream :: w.stream[id] + (if id in w.active then val - w.initial else 0))
  }

  predicate ResizeFits(w: Windows, val: int) {
    forall id :: id in w.active && id in w.stream ==> InInt32(w.stream[id] + val - w.initial)
  }

  lemma ResizedIs(w: Windows, val: int, after: Windows)
    requires w.active <= w.stream.Keys
    requires after == w.(initial := val, stream := after.stream) && after.stream.Keys == w.stream.Keys
    requires forall id :: id in w.stream ==>
      after.stream[id] == w.stream[id] + (if id in w.active then val - w.initial else 0)
    ensures after == Resized(w, val)
  {
    assert after.stream == Resized(w, val).stream;
  }

  function Opened(w: Windows, id: nat): Windows {
    Seen(w, id).(stream := w.stream[id := w.initial], active := w.active + {id})
  }

  /** A flow-control window; a stream's window points to the connection's. */
  class Flow {
    var n: int32
    var conn: Flow?

    constructor (conn: Flow?)
      ensures n == 0 && this.conn == conn
    {
      n := 0;
      this.conn := conn;
    }

    function Available(): int
      reads this, conn
    {
      if conn != null && conn.n < n then conn.n else n
    }

    /** The source panics when more than the available window is taken. */
    method Take(k: int32)
      requires 0 <= k <= Available() && conn != this
      modifies this`n, (if conn == null then {} else {conn})`n
      ensures n == old(n) - k && n >= 0
      ensures conn != null ==> conn.n == old(conn.n) - k && conn.n >= 0
    {
      n := n - k;
      if conn != null {
        conn.n := conn.n - k;
      }
    }

    /** The wrap test succeeds exactly when the true sum fits in int32. */
    method Add(k: int32) returns (ok: bool)
      modifies this`n
      ensures ok <==> InInt32(old(n) + k)
      ensures n == if ok then old(n) + k else old(n)
    {
      var sum := Wrap32(n + k);
      if (sum > k) == (n > 0) {
        n := sum;
        return true;
      }
      return false;
    }
  }

  /** The send-side fields of serverConn. */
  class SendConn {
    var flow: Flow
    var flows: map<nat, Flow>
    var streams: set<nat>
    var initialWindow: int
    var maxFrameSize: int
    var maxClientID: nat
    var maxPushID: nat

    ghost predicate Valid()
      reads this, flow, flows.Values
    {
      && flow.conn == null
      && (forall id :: id in flows ==> flows[id] != flow && flows[id].conn == flow)
      && (forall i, j :: i in flows && j in flows && i != j ==> flows[i] != flows[j])
      && streams <= flows.Keys && 0 !in flows
      && 0 <= initialWindow <= MAX_INT32
      && MIN_MAX_FRAME <= maxFrameSize <= MAX_MAX_FRAME
    }

    ghost function View(): Windows
      reads this, flow, flows.Values
    {
      Windows(flow.n, map id | id in flows :: flows[id].n, streams, initialWindow, maxFrameSize, maxClientID, maxPushID)
    }

    constructor ()
      ensures Valid() && View() == InitialWindows && fresh(flow) && flows == map[]
    {
      flow := new Flow(null);
      flows := map[];
      streams := {};
      initialWindow := INITIAL_WINDOW;
      maxFrameSize := MIN_MAX_FRAME;
      maxClientID, maxPushID := 0, 0;
      new;
      var ok := flow.Add(INITIAL_WINDOW);
    }

    method ProcessWindowUpdate(id: nat, inc: int32) returns (v: Verdict)
      requires Valid() && 1 <= inc
      modifies flow`n, flows.Values`n
      ensures Valid() && (View(), v) == Update(old(View()), id, inc)
    {
      ghost var was := View();
      if id != 0 {
        if id !in streams {
          return if id > (if id % 2 == 1 then maxClientID else maxPushID) then ConnectionError else Ignored;
        }
        var ok := flows[id].Add(inc);
        v := if ok then Accepted else StreamError;
        assert View().stream == if ok then was.stream[id := flows[id].n] else was.stream;
      } else {
        var ok := flow.Add(inc);
        v := if ok then Accepted else ConnectionError;
        assert View().stream == was.stream;
      }
    }

    /** Takes `k` bytes from the window of stream `id` and from the connection's. */
    method TakeFrom(id: nat, k: int32)
      requires Valid() && id in flows && 0 <= k <= Sendable(View(), id)
      modifies flow`n, flows.Values`n
      ensures Valid() && View() == Spend(old(View()), id, k)
    {
      ghost var was := View();
      flows[id].Take(k);
      assert View().stream == was.stream[id := was.stream[id] - k];
    }

    /** An id that a frame names, whether or not a stream is opened for it. */
    method See(id: nat)
      requires Valid()
      modifies this`maxClientID, this`maxPushID
      ensures Valid() && View() == Seen(old(View()), id)
    {
      if id % 2 == 1 {
        if id > maxClientID { maxClientID := id; }
      } else if id > maxPushID {
        maxPushID := id;
      }
    }

    method NewStream(id: nat)
      requires Valid() && id != 0 && id !in flows
      modifies this
      ensures Valid() && View() == Opened(old(View()), id)
      ensures flow == old(flow) && flows.Keys == old(flows.Keys) + {id} && fresh(flows[id])
      ensures forall i :: i in old(flows) ==> flows[i] == old(flows[i])
    {
      var f := new Flow(flow);
      var ok := f.Add(initialWindow);
      ghost var was := old(View());
      flows := flows[id := f];
      streams := streams + {id};
      assert View() == was.(stream := was.stream[id := was.initial], active := was.active + {id});
      See(id);
    }

    method CloseStream(id: nat)
      requires Valid()
      modifies this`streams
      ensures Valid() && View() == old(View()).(active := old(streams) - {id})
    {
      streams := streams - {id};
    }

    method ProcessMaxFrameSize(val: nat) returns (v: Verdict)
      requires Valid()
      modifies this`maxFrameSize
      ensures v == if MIN_MAX_FRAME <= val <= MAX_MAX_FRAME then Accepted else ConnectionError
      ensures Valid()
      ensures View() == if v == Accepted then old(View()).(maxFrame := val) else old(View())
    {
      if val < MIN_MAX_FRAME || val > MAX_MAX_FRAME {
        return ConnectionError;
      }
      maxFrameSize := val;
      v := Accepted;
    }

    /** The loop visits the streams in any order and stops at the first window that overflows. */
    method GrowAll(growth: int32, ghost was: map<nat, int>) returns (ok: bool)
      requires Valid() && was.Keys == flows.Keys && forall id :: id in flows ==> flows[id].n == was[id]
      modifies flows.Values`n
      ensures ok <==> forall id :: id in streams ==> InInt32(was[id] + growth)
      ensures ok ==> forall id :: id in flows ==> flows[id].n == was[id] + (if id in streams then growth else 0)
    {
      var todo := streams;
      while todo != {}
        invariant todo <= streams
        invariant forall id :: id in flows ==>
          flows[id].n == was[id] + (if id in streams && id !in todo then growth else 0)
        decreases todo
      {
        var id :| id in todo;
        todo := todo - {id};
        var added := flows[id].Add(growth);
        if !added {
          assert !InInt32(was[id] + growth);
          return false;
        }
      }
      ok := true;
    }

    method ProcessInitialWindowSize(val: nat) returns (v: Verdict)
      requires Valid() && val <= MAX_INT32
      modifies this`initialWindow, flows.Values`n
      ensures Valid()
      ensures v == if ResizeFits(old(View()), val) then Accepted else ConnectionError
      ensures v == Accepted ==> View() == Resized(old(View()), val)
    {
      ghost var was := View();
      var growth := Fits32(val - initialWindow);
      initialWindow := val;
      assert forall id :: id in flows ==> flows[id].n == was.stream[id];
      var ok := GrowAll(growth, was.stream);
      assert ok <==> ResizeFits(was, val);
      if ok {
        ResizedIs(was, val, View());
      }
      v := if ok then Accepted else ConnectionError;
    }
  }
}
