/**
 Every run of the server's send side: window updates, settings, stream openings and
 closings, frames pushed, and frames popped by the random write scheduler, in any order,
 up to the first connection error. What the state holds is related to the log of what
 happened.
 */
module SendRuns {
  import opened FlowControl
  import opened Int32
  import opened WriteQueue

  /** What a run did, as an observer outside sees it. */
  datatype Entry =
    | Granted(id: nat, inc: int)
    | Pushed(wr: WriteReq)
    | Popped(id: nat, wr: WriteReq, maxFrame: int)
    | Closed(id: nat)

  datatype Event =
    | WindowUpdate(id: nat, inc: int)
    | InitialWindow(val: nat)
    | MaxFrame(val: nat)
    | See(id: nat)
    | Open(id: nat)
    | Close(id: nat)
    | Push(wr: WriteReq)
    | PopControl
    | PopStream(id: nat)

  datatype Sys = Sys(win: Windows, zero: seq<WriteReq>, queues: map<nat, seq<WriteReq>>,
                     log: seq<Entry>, failed: bool)

  const Init := Sys(InitialWindows, [], map[], [], false)

  function QueueOf(s: Sys, id: nat): seq<WriteReq> {
    if id == 0 then s.zero else if id in s.queues then s.queues[id] else []
  }

  /** The scheduler never pops a stream's queue while control frames wait. */
  function Pop(s: Sys, id: nat): Sys {
    if s.zero != [] || id == 0 || QueueOf(s, id) == [] || !Ready(QueueOf(s, id)[0], s.win) then s
    else
      var q := QueueOf(s, id);
      match Consume(q[0], MAX_INT32, s.win)
      case Blocked => s
      case Whole(w) =>
        s.(win := w, queues := s.queues[id := q[1..]], log := s.log + [Popped(id, q[0], s.win.maxFrame)])
      case Split(piece, rest, w) =>
        s.(win := w, queues := s.queues[id := [rest] + q[1..]], log := s.log + [Popped(id, piece, s.win.maxFrame)])
  }

  predicate AllReady(s: Sys, id: nat) {
    id in s.queues && forall i :: 0 <= i < |s.queues[id]| ==> Ready(s.queues[id][i], s.win)
  }

  /** Flow control holds back whatever waits on stream `id`. */
  predicate HeldBack(s: Sys, id: nat)
    requires AllReady(s, id)
  {
    s.queues[id] == [] || Consume(s.queues[id][0], MAX_INT32, s.win).Blocked?
  }

  /** One event; an event that the source cannot meet in this state changes nothing. */
  function Step(s: Sys, e: Event): Sys {
    if s.failed then s
    else
      match e
      case WindowUpdate(id, inc) =>
        if !(1 <= inc <= MAX_INT32) then s
        else
          var (w, v) := Update(s.win, id, inc);
          if v == ConnectionError then s.(failed := true)
          else if v == Accepted then s.(win := w, log := s.log + [Granted(id, inc)])
          else s
      case InitialWindow(val) =>
        if val > MAX_INT32 || !ResizeFits(s.win, val) then s.(failed := true)
        else s.(win := Resized(s.win, val))
      case MaxFrame(val) =>
        if MIN_MAX_FRAME <= val <= MAX_MAX_FRAME then s.(win := s.win.(maxFrame := val))
        else s.(failed := true)
      case See(id) => s.(win := Seen(s.win, id))
      case Open(id) =>
        if id == 0 || id in s.win.stream || !IsIdle(s.win, id) then s else s.(win := Opened(s.win, id))
      case Close(id) =>
        if id == 0 then s
        else s.(win := s.win.(active := s.win.active - {id}), queues := s.queues - {id}, log := s.log + [Closed(id)])
      case Push(wr) =>
        if !Ready(wr, s.win) then s
        else if wr.StreamID() == 0 then s.(zero := s.zero + [wr], log := s.log + [Pushed(wr)])
        else s.(queues := s.queues[wr.StreamID() := QueueOf(s, wr.StreamID()) + [wr]], log := s.log + [Pushed(wr)])
      case PopControl =>
        if s.zero == [] then s
        else s.(zero := s.zero[1..], log := s.log + [Popped(0, s.zero[0], s.win.maxFrame)])
      case PopStream(id) => Pop(s, id)
  }

  function Run(events: seq<Event>): Sys {
    if events == [] then Init else Step(Run(events[..|events| - 1]), events[|events| - 1])
  }

  // --------------------------------------------------------- reading the log

  function GrantIn(e: Entry, id: nat): int {
    if e.Granted? && e.id == id then e.inc else 0
  }

  function SentIn(e: Entry, id: nat): nat {
    if e.Popped? && e.id == id then e.wr.DataSize() else 0
  }

  /** The increments accepted for stream `id`; 0 is the connection. */
  function GrantedTo(log: seq<Entry>, id: nat): int {
    if log == [] then 0 else GrantedTo(log[..|log| - 1], id) + GrantIn(log[|log| - 1], id)
  }

  /** The DATA bytes popped on stream `id`. */
  function SentOn(log: seq<Entry>, id: nat): nat {
    if log == [] then 0 else SentOn(log[..|log| - 1], id) + SentIn(log[|log| - 1], id)
  }

  /** The DATA bytes popped on all streams. */
  function SentInAll(log: seq<Entry>): nat {
    if log == [] then 0
    else
      var e := log[|log| - 1];
      SentInAll(log[..|log| - 1]) + (if e.Popped? then e.wr.DataSize() else 0)
  }

  /** The frames pushed for stream `id` since it was last closed. */
  function PushedOn(log: seq<Entry>, id: nat): seq<WriteReq> {
    if log == [] then []
    else
      var e, before := log[|log| - 1], PushedOn(log[..|log| - 1], id);
      if e == Closed(id) then []
      else if e.Pushed? && e.wr.StreamID() == id then before + [e.wr]
      else before
  }

  /** The frames popped from the queue of stream `id` since it was last closed. */
  function PoppedOn(log: seq<Entry>, id: nat): seq<WriteReq> {
    if log == [] then []
    else
      var e, before := log[|log| - 1], PoppedOn(log[..|log| - 1], id);
      if e == Closed(id) then []
      else if e.Popped? && e.id == id then before + [e.wr]
      else before
  }

  // -------------------------------------------------------------- invariants

  /** Shape of the state. */
  ghost predicate Sound(s: Sys) {
    && 0 !in s.win.stream && s.win.active <= s.win.stream.Keys
    && 0 <= s.win.initial <= MAX_INT32
    && MIN_MAX_FRAME <= s.win.maxFrame <= MAX_MAX_FRAME
    && 0 !in s.queues
    && (forall i :: 0 <= i < |s.zero| ==> s.zero[i].StreamID() == 0 && !s.zero[i].Metered())
    && (forall id, i :: id in s.queues && 0 <= i < |s.queues[id]| ==>
          s.queues[id][i].StreamID() == id && Ready(s.queues[id][i], s.win))
  }

  /** Window conservation and the bounds of section 6.9.2. */
  ghost predicate Conserved(s: Sys) {
    && s.win.conn == INITIAL_WINDOW + GrantedTo(s.log, 0) - SentInAll(s.log)
    && 0 <= s.win.conn <= MAX_INT32
    && (forall id :: id in s.win.active && id in s.win.stream ==>
          && s.win.stream[id] == s.win.initial + GrantedTo(s.log, id) - SentOn(s.log, id)
          && s.win.initial - MAX_INT32 <= s.win.stream[id] <= MAX_INT32)
    && (forall id :: id !in s.win.stream && id != 0 ==> GrantedTo(s.log, id) == 0 && SentOn(s.log, id) == 0)
  }

  ghost predicate PiecesFit(s: Sys) {
    forall i :: 0 <= i < |s.log| && s.log[i].Popped? ==> s.log[i].wr.DataSize() <= s.log[i].maxFrame
  }

  /** What was popped, followed by what waits, delivers what was pushed. */
  ghost predicate Delivered(s: Sys) {
    && ControlInOrder(s)
    && forall id :: id != 0 ==> DeliveredOn(s, id)
  }

  ghost predicate DeliveredOn(s: Sys, id: nat) {
    Delivers(PushedOn(s.log, id), PoppedOn(s.log, id) + QueueOf(s, id))
  }

  lemma LogStep(log: seq<Entry>, e: Entry)
    ensures (log + [e])[..|log|] == log
    ensures forall id :: GrantedTo(log + [e], id) == GrantedTo(log, id) + GrantIn(e, id)
    ensures forall id :: SentOn(log + [e], id) == SentOn(log, id) + SentIn(e, id)
    ensures SentInAll(log + [e]) == SentInAll(log) + (if e.Popped? then e.wr.DataSize() else 0)
  {
    assert (log + [e])[..|log|] == log;
  }

  lemma LogStepFrames(log: seq<Entry>, e: Entry, id: nat)
    ensures PushedOn(log + [e], id) == if e == Closed(id) then []
              else if e.Pushed? && e.wr.StreamID() == id then PushedOn(log, id) + [e.wr] else PushedOn(log, id)
    ensures PoppedOn(log + [e], id) == if e == Closed(id) then []
              else if e.Popped? && e.id == id then PoppedOn(log, id) + [e.wr] else PoppedOn(log, id)
  {
    assert (log + [e])[..|log|] == log;
  }

  // ------------------------------------------------------------ preservation

  lemma StepSound(s: Sys, e: Event)
    requires Sound(s)
    ensures Sound(Step(s, e))
  {
    match e
    case Push(wr) => PushSound(s, wr);
    case PopStream(id) => PopSound(s, id);
    case _ =>
  }

  lemma PushSound(s: Sys, wr: WriteReq)
    requires Sound(s)
    ensures Sound(Step(s, Push(wr)))
  {
  }

  lemma PopSound(s: Sys, id: nat)
    requires Sound(s)
    ensures Sound(Pop(s, id))
  {
  }

  lemma GrantConserved(s: Sys, t: Sys, id: nat, inc: int)
    requires Sound(s) && Conserved(s) && 1 <= inc
    requires t.log == s.log + [Granted(id, inc)]
    requires if id == 0 then t.win == s.win.(conn := s.win.conn + inc)
             else id in s.win.stream && t.win == s.win.(stream := s.win.stream[id := s.win.stream[id] + inc])
    requires if id == 0 then t.win.conn <= MAX_INT32 else t.win.stream[id] <= MAX_INT32
    ensures Conserved(t)
  {
    LogStep(s.log, Granted(id, inc));
  }

  lemma UpdateConserved(s: Sys, id: nat, inc: int)
    requires Sound(s) && Conserved(s) && !s.failed && 1 <= inc <= MAX_INT32
    ensures Conserved(Step(s, WindowUpdate(id, inc)))
  {
    if Update(s.win, id, inc).1 == Accepted {
      GrantConserved(s, Step(s, WindowUpdate(id, inc)), id, inc);
    }
  }

  lemma ResizeConserved(s: Sys, val: nat)
    requires Sound(s) && Conserved(s) && !s.failed && val <= MAX_INT32
    ensures Conserved(Step(s, InitialWindow(val)))
  {
  }

  lemma SpendConserved(s: Sys, t: Sys, id: nat, wr: WriteReq)
    requires Sound(s) && Conserved(s) && id in s.win.stream
    requires wr.DataSize() <= Sendable(s.win, id) && 0 < wr.DataSize()
    requires t.win == Spend(s.win, id, wr.DataSize()) && t.log == s.log + [Popped(id, wr, s.win.maxFrame)]
    ensures Conserved(t)
  {
    LogStep(s.log, Popped(id, wr, s.win.maxFrame));
  }

  /** An entry that grants and sends nothing does not change what is conserved. */
  lemma QuietConserved(s: Sys, t: Sys, e: Entry)
    requires Conserved(s) && t.win == s.win.(active := t.win.active) && t.win.active <= s.win.active
    requires t.log == s.log + [e] && !e.Granted? && (e.Popped? ==> !e.wr.Metered())
    ensures Conserved(t)
  {
    LogStep(s.log, e);
  }

  lemma PopConserved(s: Sys, id: nat)
    requires Sound(s) && Conserved(s)
    ensures Conserved(Pop(s, id))
  {
    var t := Pop(s, id);
    if t != s {
      var q := QueueOf(s, id);
      if q[0].Metered() {
        match Consume(q[0], MAX_INT32, s.win)
        case Whole(w) => SpendConserved(s, t, id, q[0]);
        case Split(piece, rest, w) => SpendConserved(s, t, id, piece);
      } else {
        QuietConserved(s, t, Popped(id, q[0], s.win.maxFrame));
      }
    }
  }

  lemma OpenConserved(s: Sys, id: nat)
    requires Sound(s) && Conserved(s) && !s.failed
    ensures Conserved(Step(s, Open(id)))
  {
  }

  lemma StepConserved(s: Sys, e: Event)
    requires Sound(s) && Conserved(s)
    ensures Conserved(Step(s, e))
  {
    if !s.failed {
      match e
      case WindowUpdate(id, inc) =>
        if 1 <= inc <= MAX_INT32 { UpdateConserved(s, id, inc); }
      case InitialWindow(val) =>
        if val <= MAX_INT32 { ResizeConserved(s, val); }
      case Open(id) => OpenConserved(s, id);
      case PopStream(id) => PopConserved(s, id);
      case MaxFrame(val) =>
      case See(id) =>
      case Close(id) =>
        if id != 0 { QuietConserved(s, Step(s, e), Closed(id)); }
      case Push(wr) =>
        if Ready(wr, s.win) { QuietConserved(s, Step(s, e), Pushed(wr)); }
      case PopControl =>
        if s.zero != [] { QuietConserved(s, Step(s, e), Popped(0, s.zero[0], s.win.maxFrame)); }
    }
  }

  lemma StepPieces(s: Sys, e: Event)
    requires Sound(s) && PiecesFit(s)
    ensures PiecesFit(Step(s, e))
  {
  }

  lemma MoveFirst(popped: seq<WriteReq>, q: seq<WriteReq>)
    requires q != []
    ensures popped + [q[0]] + q[1..] == popped + q
  {
  }

  /** A frame popped whole moves from the queue to the popped frames. */
  lemma WholeDelivered(s: Sys, t: Sys, id: nat, m: int)
    requires id != 0 && DeliveredOn(s, id) && QueueOf(s, id) != []
    requires t.log == s.log + [Popped(id, QueueOf(s, id)[0], m)] && QueueOf(t, id) == QueueOf(s, id)[1..]
    ensures DeliveredOn(t, id)
  {
    var q := QueueOf(s, id);
    LogStepFrames(s.log, Popped(id, q[0], m), id);
    MoveFirst(PoppedOn(s.log, id), q);
  }

  /** When a piece is popped, the rest of its frame stays first in the queue. */
  lemma SplitDelivered(s: Sys, t: Sys, id: nat, k: nat, m: int)
    requires id != 0 && DeliveredOn(s, id) && QueueOf(s, id) != []
    requires QueueOf(s, id)[0].write.WriteData? && 0 < k < |QueueOf(s, id)[0].write.p|
    requires t.log == s.log + [Popped(id, Piece(QueueOf(s, id)[0], k), m)]
    requires QueueOf(t, id) == [Rest(QueueOf(s, id)[0], k)] + QueueOf(s, id)[1..]
    ensures DeliveredOn(t, id)
  {
    var q := QueueOf(s, id);
    LogStepFrames(s.log, Popped(id, Piece(q[0], k), m), id);
    DeliversPopPiece(PushedOn(s.log, id), PoppedOn(s.log, id), q, k);
  }

  lemma PopDelivered(s: Sys, id: nat)
    requires Sound(s) && id != 0 && DeliveredOn(s, id)
    ensures DeliveredOn(Pop(s, id), id)
  {
    var t := Pop(s, id);
    if t != s {
      var q := QueueOf(s, id);
      match Consume(q[0], MAX_INT32, s.win)
      case Whole(w) => WholeDelivered(s, t, id, s.win.maxFrame);
      case Split(piece, rest, w) => SplitDelivered(s, t, id, |piece.write.p|, s.win.maxFrame);
    }
  }

  lemma PushDelivered(s: Sys, t: Sys, wr: WriteReq)
    requires wr.StreamID() != 0 && DeliveredOn(s, wr.StreamID())
    requires t.log == s.log + [Pushed(wr)] && QueueOf(t, wr.StreamID()) == QueueOf(s, wr.StreamID()) + [wr]
    ensures DeliveredOn(t, wr.StreamID())
  {
    var id := wr.StreamID();
    LogStepFrames(s.log, Pushed(wr), id);
    DeliversPush(PushedOn(s.log, id), PoppedOn(s.log, id) + QueueOf(s, id), wr);
    assert PoppedOn(s.log, id) + QueueOf(s, id) + [wr] == PoppedOn(s.log, id) + QueueOf(t, id);
  }

  /** An entry about another stream changes nothing for stream `id`. */
  lemma OtherDelivered(s: Sys, t: Sys, e: Entry, id: nat)
    requires DeliveredOn(s, id) && t.log == s.log + [e] && QueueOf(t, id) == QueueOf(s, id)
    requires !(e.Pushed? && e.wr.StreamID() == id) && !(e.Popped? && e.id == id) && e != Closed(id)
    ensures DeliveredOn(t, id)
  {
    LogStepFrames(s.log, e, id);
  }

  lemma SameDelivered(s: Sys, t: Sys, id: nat)
    requires DeliveredOn(s, id) && t.log == s.log && QueueOf(t, id) == QueueOf(s, id)
    ensures DeliveredOn(t, id)
  {
  }

  lemma UpdateDelivered(s: Sys, i: nat, inc: int, id: nat)
    requires DeliveredOn(s, id)
    ensures DeliveredOn(Step(s, WindowUpdate(i, inc)), id)
  {
    hide DeliveredOn, Update;
    var t := Step(s, WindowUpdate(i, inc));
    if t.log == s.log + [Granted(i, inc)] {
      OtherDelivered(s, t, Granted(i, inc), id);
    } else {
      SameDelivered(s, t, id);
    }
  }

  lemma CloseDelivered(s: Sys, i: nat, id: nat)
    requires DeliveredOn(s, id) && id != 0
    ensures DeliveredOn(Step(s, Close(i)), id)
  {
    var t := Step(s, Close(i));
    if i == id && !s.failed {
      LogStepFrames(s.log, Closed(id), id);
      assert PoppedOn(t.log, id) + QueueOf(t, id) == [];
    } else if t.log != s.log {
      OtherDelivered(s, t, Closed(i), id);
    }
  }

  lemma PushEventDelivered(s: Sys, wr: WriteReq, id: nat)
    requires DeliveredOn(s, id) && id != 0
    ensures DeliveredOn(Step(s, Push(wr)), id)
  {
    var t := Step(s, Push(wr));
    if !s.failed && Ready(wr, s.win) {
      if wr.StreamID() == id {
        PushDelivered(s, t, wr);
      } else {
        OtherDelivered(s, t, Pushed(wr), id);
      }
    }
  }

  lemma PopEventDelivered(s: Sys, i: nat, id: nat)
    requires Sound(s) && DeliveredOn(s, id) && id != 0
    ensures DeliveredOn(Pop(s, i), id)
  {
    var t := Pop(s, i);
    if i == id {
      PopDelivered(s, id);
    } else if t != s {
      OtherDelivered(s, t, t.log[|s.log|], id);
    }
  }

  lemma StepDeliveredOn(s: Sys, e: Event, id: nat)
    requires Sound(s) && id != 0 && DeliveredOn(s, id)
    ensures DeliveredOn(Step(s, e), id)
  {
    if !s.failed {
      match e
      case WindowUpdate(i, inc) => UpdateDelivered(s, i, inc, id);
      case Close(i) => CloseDelivered(s, i, id);
      case Push(wr) => PushEventDelivered(s, wr, id);
      case PopStream(i) => PopEventDelivered(s, i, id);
      case PopControl =>
        if s.zero != [] {
          OtherDelivered(s, Step(s, e), Popped(0, s.zero[0], s.win.maxFrame), id);
        }
      case InitialWindow(val) => assert QueueOf(Step(s, e), id) == QueueOf(s, id);
      case MaxFrame(val) => assert QueueOf(Step(s, e), id) == QueueOf(s, id);
      case See(i) => assert QueueOf(Step(s, e), id) == QueueOf(s, id);
      case Open(i) => assert QueueOf(Step(s, e), id) == QueueOf(s, id);
    }
  }

  /** Control frames leave in the order they came, each whole. */
  ghost predicate ControlInOrder(s: Sys) {
    PushedOn(s.log, 0) == PoppedOn(s.log, 0) + s.zero
  }

  lemma ControlStep(s: Sys, t: Sys, e: Entry)
    requires ControlInOrder(s) && t.log == s.log + [e] && e != Closed(0)
    requires t.zero == if e.Pushed? && e.wr.StreamID() == 0 then s.zero + [e.wr] else s.zero
    requires !(e.Popped? && e.id == 0)
    ensures ControlInOrder(t)
  {
    LogStepFrames(s.log, e, 0);
  }

  lemma ControlPop(s: Sys, t: Sys, m: int)
    requires ControlInOrder(s) && s.zero != []
    requires t.log == s.log + [Popped(0, s.zero[0], m)] && t.zero == s.zero[1..]
    ensures ControlInOrder(t)
  {
    LogStepFrames(s.log, Popped(0, s.zero[0], m), 0);
    MoveFirst(PoppedOn(s.log, 0), s.zero);
  }

  lemma ControlPopStream(s: Sys, i: nat)
    requires ControlInOrder(s)
    ensures ControlInOrder(Pop(s, i))
  {
    var t := Pop(s, i);
    if t != s {
      ControlStep(s, t, t.log[|s.log|]);
    }
  }

  lemma StepControlInOrder(s: Sys, e: Event)
    requires ControlInOrder(s)
    ensures ControlInOrder(Step(s, e))
  {
    var t := Step(s, e);
    if !s.failed {
      match e
      case WindowUpdate(i, inc) =>
        if |t.log| != |s.log| { ControlStep(s, t, Granted(i, inc)); }
      case Close(i) =>
        if i != 0 { ControlStep(s, t, Closed(i)); }
      case Push(wr) =>
        if Ready(wr, s.win) { ControlStep(s, t, Pushed(wr)); }
      case PopStream(i) => ControlPopStream(s, i);
      case PopControl =>
        if s.zero != [] { ControlPop(s, t, s.win.maxFrame); }
      case InitialWindow(val) =>
      case MaxFrame(val) =>
      case See(i) =>
      case Open(i) =>
    }
  }

  // ---------------------------------------------------------------- theorems

  /** In every run: windows are conserved and bounded, pieces fit, and frames are delivered in order. */
  lemma {:induction false} RunInvariant(events: seq<Event>)
    ensures Sound(Run(events)) && Conserved(Run(events)) && PiecesFit(Run(events)) && Delivered(Run(events))
  {
    if events == [] {
      forall id | id != 0
        ensures DeliveredOn(Init, id)
      {
        assert PoppedOn([], id) + QueueOf(Init, id) == [];
      }
    } else {
      var s, e := Run(events[..|events| - 1]), events[|events| - 1];
      RunInvariant(events[..|events| - 1]);
      StepSound(s, e);
      StepConserved(s, e);
      StepPieces(s, e);
      StepControlInOrder(s, e);
      forall id | id != 0
        ensures DeliveredOn(Step(s, e), id)
      {
        StepDeliveredOn(s, e, id);
      }
    }
  }

  /**
   What each event does where it applies. With what every run keeps, this leaves one way for the
   windows and the queues to change: every grant, push, close and pop is logged as it was.
   */
  lemma EventsTakeEffect(s: Sys, id: nat, inc: int, val: nat, wr: WriteReq)
    requires Sound(s) && Conserved(s) && !s.failed
    ensures 1 <= inc <= MAX_INT32 && id in s.win.active ==>
      var t := Step(s, WindowUpdate(id, inc));
      !t.failed && t.log == if s.win.stream[id] + inc <= MAX_INT32 then s.log + [Granted(id, inc)] else s.log
    ensures 1 <= inc <= MAX_INT32 ==>
      var t := Step(s, WindowUpdate(0, inc));
      if s.win.conn + inc > MAX_INT32 then t.failed else !t.failed && t.log == s.log + [Granted(0, inc)]
    ensures Step(s, MaxFrame(val)).failed <==> !(16384 <= val < 0x100_0000)
    ensures 16384 <= val < 0x100_0000 ==> Step(s, MaxFrame(val)).win.maxFrame == val
    ensures Ready(wr, s.win) ==> Step(s, Push(wr)).log == s.log + [Pushed(wr)]
    ensures id != 0 ==>
      var t := Step(s, Close(id));
      t.log == s.log + [Closed(id)] && t.win.active == s.win.active - {id} && QueueOf(t, id) == []
    ensures s.zero != [] ==> Step(s, PopControl).log == s.log + [Popped(0, s.zero[0], s.win.maxFrame)]
  {
  }

  /** A stream opens with the initial window; a change of that fails exactly when it is too large or makes a window so. */
  lemma OpenTakesEffect(s: Sys, id: nat, val: nat)
    requires Sound(s) && Conserved(s) && !s.failed
    ensures id != 0 && id !in s.win.stream && IsIdle(s.win, id) ==>
      var t := Step(s, Open(id));
      id in t.win.active && id in t.win.stream && t.win.stream[id] == s.win.initial && !IsIdle(t.win, id)
    ensures var t := Step(s, InitialWindow(val));
      && (t.failed <==> val > MAX_INT32 || exists x <- s.win.active :: s.win.stream[x] + val - s.win.initial > MAX_INT32)
      && (!t.failed ==> t.win.initial == val)
    ensures var w := Step(s, See(id)).win; id <= (if id % 2 == 1 then w.maxClient else w.maxPush)
  {
  }

  /**
   The first frame of a stream's queue is popped, whole or its largest part that may be sent, unless
   control frames wait or no byte of it may be sent.
   */
  lemma PopTakesEffect(s: Sys, id: nat)
    requires Sound(s) && !s.failed && s.zero == [] && QueueOf(s, id) != [] && id != 0
    ensures var t, wr := Step(s, PopStream(id)), QueueOf(s, id)[0];
      if wr.Metered() && !MaySend(s.win, id, MAX_INT32, 1) then t == s
      else if !wr.Metered() || MaySend(s.win, id, MAX_INT32, wr.DataSize()) then t.log == s.log + [Popped(id, wr, s.win.maxFrame)]
      else
        var e := t.log[|s.log|..];
        && |e| == 1 && e[0].Popped? && e[0].id == id && e[0].maxFrame == s.win.maxFrame && t.log == s.log + e
        && MaySend(s.win, id, MAX_INT32, e[0].wr.DataSize()) && !MaySend(s.win, id, MAX_INT32, e[0].wr.DataSize() + 1)
  {
    var wr := QueueOf(s, id)[0];
    assert wr.StreamID() == id && Ready(wr, s.win);
    if wr.Metered() { assert wr.stream.value == id; }
  }

  /** A legal settings change fails exactly by pushing some open stream's window over the maximum. */
  lemma SettingsFailOnlyAbove(events: seq<Event>, val: nat)
    requires val <= MAX_INT32
    ensures ResizeFits(Run(events).win, val) <==>
      forall id :: id in Run(events).win.active && id in Run(events).win.stream ==>
        Run(events).win.stream[id] + val - Run(events).win.initial <= MAX_INT32
  {
    RunInvariant(events);
  }

  /** What a run pops carries the pushed bytes, and answers each waiting channel once, in order. */
  lemma PoppedContents(events: seq<Event>, id: nat)
    requires id != 0
    ensures var s := Run(events);
            && Payload(PoppedOn(s.log, id) + QueueOf(s, id)) == Payload(PushedOn(s.log, id))
            && Replies(PoppedOn(s.log, id) + QueueOf(s, id)) == Replies(PushedOn(s.log, id))
            && Ends(PoppedOn(s.log, id) + QueueOf(s, id)) == Ends(PushedOn(s.log, id))
  {
    RunInvariant(events);
    var s := Run(events);
    assert DeliveredOn(s, id);
    DeliversContents(PushedOn(s.log, id), PoppedOn(s.log, id) + QueueOf(s, id));
  }
}
