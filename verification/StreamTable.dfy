/**
 The server's stream table: which streams exist, in which state, and how many of each kind
 (sections 5.1, 5.1.1 and 5.1.2 of RFC 7540), together with the frames that wait to be written and
 the one being written.

 A stream object outlives its table entry, since a handler still points to it, so `streams` holds
 every stream ever made and `live` the ids in the table. Frames of no stream are left out of the
 queue. Whenever the serve loop queues a frame, the scheduler may write any frames: each
 such point takes a sequence of `Choice`s, of which those that are not possible are passed over.
 */
module StreamTable {
  import opened Basics

  const U32: nat := 0x1_0000_0000
  const U31: nat := 0x8000_0000

  function Wrapped(x: int): nat { x % U32 }

  datatype Phase = Open | HalfLocal | HalfRemote | Closed

  /** `declared` is -1 when the request has no Content-Length. */
  datatype Stream = Stream(phase: Phase, resetQueued: bool, gotTrailer: bool, hasBody: bool, declared: int, got: nat)

  /**
   A frame that ends a stream's response, another one of the response, a window update for a stream,
   a reset by the server or for a handler's panic, a promise; or a frame of no stream.
   */
  datatype Write = Ends(id: nat) | Plain(id: nat) | Update(id: nat) | Reset(id: nat) | PanicReset(id: nat) | Promise(id: nat) | Other

  /** The last two are for frames of a closed stream and for closing a closed stream. */
  datatype Panic = NoBody | ZeroId | DeadStream | AlreadyClosed

  /** `history` are the ids given to new streams; `goAway` holds the code once one is due. */
  datatype Table = Table(
    streams: map<nat, Stream>, live: set<nat>, history: seq<nat>,
    curClient: nat, curPushed: nat, maxClient: nat, maxPush: nat,
    advMax: nat, clientMax: nat, pushEnabled: bool, keepAlive: bool, sawSettings: bool, goAway: Option<nat>,
    queue: seq<Write>, inflight: Option<Write>,
    panicked: Option<Panic>)

  function Init(advMax: nat, keepAlive: bool): Table {
    Table(map[], {}, [], 0, 0, 0, 0, advMax, U32 - 1, true, keepAlive, false, None, [], None, None)
  }

  datatype Frame =
    | Headers(id: nat, ended: bool, selfDep: bool, badRequest: bool, pseudo: bool, badTrailer: bool, length: int)
    | Data(id: nat, size: nat, pad: nat, ended: bool, connQuota: bool, streamQuota: bool, refused: bool)
    | RstStream(id: nat)
    | WindowUpdate(id: nat, overflow: bool)
    | Priority(id: nat, self: bool)
    | Settings(push: Option<bool>, max: Option<nat>, bad: bool)
    | GoAway
    | PushPromise
    | Ignored

  datatype Outcome = Fine | StreamErr(id: nat) | ConnErr(code: nat)

  /**
   Which frame the scheduler writes next, a piece of which, or one of no stream, and whether it is
   written at once or left in flight.
   */
  datatype Choice = Queued(i: nat, sync: bool) | Piece(i: nat, sync: bool) | Own(sync: bool)

  /** What wakes the serve loop; `during`, `more` and `after` are the scheduler's choices meanwhile. */
  datatype Event =
    | Received(f: Frame, during: seq<Choice>, more: seq<Choice>, after: seq<Choice>)
    | ReadFailed(out: Outcome, after: seq<Choice>)
    | Finished(during: seq<Choice>, after: seq<Choice>)
    | HandlerWrites(w: Write, after: seq<Choice>)
    | StartPush(parent: nat, after: seq<Choice>)
    | BodyRead(id: nat, during: seq<Choice>, after: seq<Choice>)
    | Shutdown(after: seq<Choice>)
    | Wakes(after: seq<Choice>)
    | Disconnected(id: nat, during: seq<Choice>)

  // ------------------------------------------------------------ stream objects

  datatype StateOf = Idle | Gone | At(phase: Phase)

  function State(t: Table, id: nat): StateOf {
    if id in t.live && id in t.streams then At(t.streams[id].phase)
    else if id % 2 == 1 then (if id <= t.maxClient then Gone else Idle)
    else (if id <= t.maxPush then Gone else Idle)
  }

  function NewStream(t: Table, id: nat, phase: Phase): Table {
    if id == 0 then t.(panicked := Some(ZeroId))
    else
      var t1 := t.(streams := t.streams[id := Stream(phase, false, false, false, 0, 0)], live := t.live + {id}, history := t.history + [id]);
      if id % 2 == 0 then t1.(curPushed := Wrapped(t.curPushed + 1)) else t1.(curClient := Wrapped(t.curClient + 1))
  }

  function GoAwayWith(t: Table, code: nat): Table {
    if t.goAway.Some? then t else t.(goAway := Some(code))
  }

  /** closeStream up to where it queues a window update: the queue still holds the stream's frames. */
  function CloseEntry(t: Table, id: nat): Table
    requires id in t.streams
  {
    if t.streams[id].phase == Closed then t.(panicked := Some(AlreadyClosed))
    else
      var t1 := t.(streams := t.streams[id := t.streams[id].(phase := Closed)], live := t.live - {id});
      var t2 := if id % 2 == 0 then t1.(curPushed := Wrapped(t.curPushed - 1)) else t1.(curClient := Wrapped(t.curClient - 1));
      if t2.live == {} && !t.keepAlive then GoAwayWith(t2, 0) else t2
  }

  predicate Concerns(w: Write, id: nat) { !w.Other? && w.id == id }

  function Drop(q: seq<Write>, id: nat): seq<Write> {
    if q == [] then [] else Drop(q[..|q| - 1], id) + (if Concerns(q[|q| - 1], id) then [] else [q[|q| - 1]])
  }

  /** The scheduler forgets the stream. */
  function DropFrames(t: Table, id: nat): Table { t.(queue := Drop(t.queue, id)) }

  function Put(t: Table, id: nat, s: Stream): Table { t.(streams := t.streams[id := s]) }

  function AllocatePromised(t: Table): Table {
    if !t.pushEnabled || Wrapped(t.curPushed + 1) > t.clientMax then t
    else if Wrapped(t.maxPush + 2) >= U31 then GoAwayWith(t, 0)
    else NewStream(t.(maxPush := Wrapped(t.maxPush + 2)), Wrapped(t.maxPush + 2), HalfRemote)
  }

  function MarkReset(t: Table, id: nat): Table {
    if id in t.live && id in t.streams then Put(t, id, t.streams[id].(resetQueued := true)) else t
  }

  // -------------------------------------------------------------- frames going out

  /** Frames for a stream that is gone are dropped, except resets. */
  function Push(t: Table, w: Write): Table {
    if w.Reset? || (!w.Other? && w.id in t.streams && State(t, w.id) != Gone) then t.(queue := t.queue + [w]) else t
  }

  predicate EndsOpen(t: Table, w: Write) {
    w.Ends? && w.id in t.streams && t.streams[w.id].phase == Open
  }

  /** Whether the end of this frame's writing closes its stream. */
  predicate Closes(t: Table, w: Write) {
    match w
    case Ends(id) => id in t.streams && t.streams[id].phase == HalfRemote
    case Reset(id) => id in t.live && id in t.streams
    case PanicReset(id) => id in t.streams
    case _ => false
  }

  function HalfClose(t: Table, id: nat): Table
    requires id in t.streams
  {
    Put(t, id, t.streams[id].(phase := HalfLocal))
  }

  /** A frame finished inside the scheduling loop, where a newly queued frame waits its turn. */
  function InLoop(t: Table, w: Write): Table {
    if EndsOpen(t, w) then MarkReset(Push(HalfClose(t, w.id), Reset(w.id)), w.id)
    else if Closes(t, w) then DropFrames(CloseEntry(t, w.id), w.id)
    else t
  }

  /** Frames of a closed stream, and those of a response that has ended, must not be sent. */
  predicate MustNotStart(t: Table, w: Write) {
    && !w.Reset? && !w.Other? && w.id in t.streams
    && (t.streams[w.id].phase == Closed || (t.streams[w.id].phase == HalfLocal && !w.PanicReset? && !w.Update?))
  }

  /** A promised stream is made when its frame starts; without one nothing is written. */
  function StartWrite(t: Table, w: Write, sync: bool): Table {
    if MustNotStart(t, w) then t.(panicked := Some(DeadStream))
    else
      var t1 := if w.Promise? then AllocatePromised(t) else t;
      if t1.panicked.Some? || (w.Promise? && t1.history == t.history) then t1
      else if sync then InLoop(t1, w)
      else t1.(inflight := Some(w))
  }

  function Unqueued(t: Table, i: nat): Table
    requires i < |t.queue|
  {
    t.(queue := t.queue[..i] + t.queue[i + 1..])
  }

  /** Queued frames are held back once the connection fails. */
  predicate MayPop(t: Table, i: nat) { i < |t.queue| && (t.goAway.None? || t.goAway == Some(0)) }

  /** Nothing starts while a frame is in flight; the rest of a split frame stays in the queue. */
  function Pick(t: Table, c: Choice): Table {
    if t.panicked.Some? || t.inflight.Some? then t
    else match c
    case Own(sync) => StartWrite(t, Other, sync)
    case Queued(i, sync) => if MayPop(t, i) then StartWrite(Unqueued(t, i), t.queue[i], sync) else t
    case Piece(i, sync) =>
      if MayPop(t, i) && (t.queue[i].Ends? || t.queue[i].Plain?) then StartWrite(t, Plain(t.queue[i].id), sync) else t
  }

  function Cascade(t: Table, cs: seq<Choice>): Table {
    if cs == [] then t else Pick(Cascade(t, cs[..|cs| - 1]), cs[|cs| - 1])
  }

  function ResetStream(t: Table, id: nat, during: seq<Choice>): Table {
    MarkReset(Cascade(Push(t, Reset(id)), during), id)
  }

  function CloseStream(t: Table, id: nat, during: seq<Choice>): Table
    requires id in t.streams
  {
    DropFrames(Cascade(CloseEntry(t, id), during), id)
  }

  /** The frame in flight is written. */
  function WroteFrame(t: Table, w: Write, during: seq<Choice>, after: seq<Choice>): Table {
    if EndsOpen(t, w) then Cascade(ResetStream(HalfClose(t, w.id), w.id, during), after)
    else if Closes(t, w) then Cascade(CloseStream(t, w.id, during), after)
    else Cascade(t, after)
  }

  // ---------------------------------------------------------------- frames coming in

  function EndStream(t: Table, id: nat): Table
    requires id in t.streams
  {
    if !t.streams[id].hasBody then t.(panicked := Some(NoBody))
    else Put(t, id, t.streams[id].(phase := HalfRemote))
  }

  function ProcessTrailers(t: Table, f: Frame): (Table, Outcome)
    requires f.Headers? && f.id in t.streams
  {
    if t.streams[f.id].gotTrailer then (t, ConnErr(1))
    else
      var t1 := Put(t, f.id, t.streams[f.id].(gotTrailer := true));
      if !f.ended || f.pseudo || f.badTrailer then (t1, StreamErr(f.id))
      else (EndStream(t1, f.id), Fine)
  }

  function OpenFrom(t: Table, f: Frame): (Table, Outcome)
    requires f.Headers?
  {
    var t1 := NewStream(t, f.id, if f.ended then HalfRemote else Open);
    if t1.panicked.Some? || f.selfDep || f.badRequest then (t1, StreamErr(f.id))
    else if f.id !in t1.streams then (t1, Fine)
    else (Put(t1, f.id, t1.streams[f.id].(hasBody := !f.ended, declared := if f.ended then 0 else f.length)), Fine)
  }

  function ProcessHeaders(t: Table, f: Frame): (Table, Outcome)
    requires f.Headers?
  {
    if t.goAway.Some? then (t, Fine)
    else if f.id % 2 != 1 then (t, ConnErr(1))
    else if f.id in t.live && f.id in t.streams then
      var st := t.streams[f.id];
      if st.resetQueued then (t, Fine)
      else if st.phase == HalfRemote then (t, StreamErr(f.id))
      else ProcessTrailers(t, f)
    else if f.id <= t.maxClient then (t, ConnErr(1))
    else
      var t1 := t.(maxClient := f.id);
      if Wrapped(t.curClient + 1) > t.advMax then (t1, StreamErr(f.id)) else OpenFrom(t1, f)
  }

  /** DATA on an open stream that has a body, within the declared length and the windows. */
  function AcceptData(t: Table, f: Frame, during: seq<Choice>, more: seq<Choice>): Table
    requires f.Data? && f.id in t.streams
  {
    var t1 := Put(t, f.id, t.streams[f.id].(got := t.streams[f.id].got + f.size));
    var t2 := if f.pad > 0 then Cascade(Push(Cascade(t1, during), Update(f.id)), more) else t1;
    if t2.panicked.None? && f.ended && f.id in t2.streams then EndStream(t2, f.id) else t2
  }

  function ProcessData(t: Table, f: Frame, during: seq<Choice>, more: seq<Choice>): (Table, Outcome)
    requires f.Data?
  {
    if t.goAway.Some? && t.goAway != Some(0) then (t, Fine)
    else if f.id == 0 || State(t, f.id) == Idle then (t, ConnErr(1))
    else if State(t, f.id) == Gone || f.id !in t.streams then (t, StreamErr(f.id))
    else
      var st := t.streams[f.id];
      if st.phase != Open || st.gotTrailer || st.resetQueued then
        if !f.connQuota then (t, StreamErr(f.id))
        else
          var t1 := Cascade(t, during);
          (t1, if f.id in t1.streams && t1.streams[f.id].resetQueued then Fine else StreamErr(f.id))
      else if !st.hasBody then (t.(panicked := Some(NoBody)), Fine)
      else if st.declared != -1 && st.got + f.size > st.declared then (t, StreamErr(f.id))
      else if f.size + f.pad > 0 && !f.streamQuota then (t, StreamErr(f.id))
      else if f.size > 0 && f.refused then (t, StreamErr(f.id))
      else (AcceptData(t, f, during, more), Fine)
  }

  function WithSettings(t: Table, push: Option<bool>, max: Option<nat>): Table {
    t.(sawSettings := true,
       pushEnabled := if push.Some? then push.value else t.pushEnabled,
       clientMax := if max.Some? then max.value else t.clientMax)
  }

  function ProcessFrame(t: Table, f: Frame, during: seq<Choice>, more: seq<Choice>): (Table, Outcome) {
    if !t.sawSettings && !f.Settings? then (t, ConnErr(1))
    else match f
    case Headers(_, _, _, _, _, _, _) => ProcessHeaders(t, f)
    case Data(_, _, _, _, _, _, _) => ProcessData(t, f, during, more)
    case RstStream(id) =>
      if State(t, id) == Idle then (t, ConnErr(1))
      else if id in t.live && id in t.streams then (CloseStream(t, id, during), Fine)
      else (t, Fine)
    case WindowUpdate(id, overflow) =>
      if id == 0 then (if overflow then (t, ConnErr(3)) else (Cascade(t, during), Fine))
      else if State(t, id) == Idle then (t, ConnErr(1))
      else if id !in t.live then (t, Fine)
      else if overflow then (t, StreamErr(id))
      else (Cascade(t, during), Fine)
    case Priority(id, self) => (t, if t.goAway.None? && self then StreamErr(id) else Fine)
    case Settings(push, max, bad) =>
      var t1 := WithSettings(t, push, max);
      if bad then (t1, ConnErr(1)) else (Cascade(t1, during), Fine)
    case GoAway => (Cascade(GoAwayWith(t, 0), during).(pushEnabled := false), Fine)
    case PushPromise => (t, ConnErr(1))
    case Ignored => (t, Fine)
  }

  function Answer(t: Table, out: Outcome, after: seq<Choice>): Table {
    if t.panicked.Some? then t
    else match out
    case Fine => t
    case StreamErr(id) => ResetStream(t, id, after)
    case ConnErr(code) => Cascade(GoAwayWith(t, code), after)
  }

  /** A handler read from a body: the connection's window grows, and the stream's unless its client ended it. */
  function NoteBodyRead(t: Table, id: nat, during: seq<Choice>, after: seq<Choice>): Table {
    var t1 := Cascade(t, during);
    if id in t1.streams && t1.streams[id].phase != HalfRemote && t1.streams[id].phase != Closed
    then Cascade(Push(t1, Update(id)), after)
    else t1
  }

  function Step(t: Table, e: Event): Table {
    if t.panicked.Some? then t
    else match e
    case Received(f, during, more, after) => var (t1, out) := ProcessFrame(t, f, during, more); Answer(t1, out, after)
    case ReadFailed(out, after) => Answer(t, out, after)
    case Finished(during, after) =>
      if t.inflight.None? then t else WroteFrame(t.(inflight := None), t.inflight.value, during, after)
    case HandlerWrites(w, after) => Cascade(Push(t, w), after)
    case StartPush(parent, after) =>
      if parent in t.streams && (t.streams[parent].phase == Open || t.streams[parent].phase == HalfRemote) && t.pushEnabled
      then Cascade(Push(t, Promise(parent)), after)
      else t
    case BodyRead(id, during, after) => NoteBodyRead(t, id, during, after)
    case Shutdown(after) => Cascade(GoAwayWith(t, 0), after)
    case Wakes(after) => Cascade(t, after)
    case Disconnected(id, during) => if id in t.live && id in t.streams then CloseStream(t, id, during) else t
  }

  function Run(advMax: nat, keepAlive: bool, es: seq<Event>): Table {
    if es == [] then Init(advMax, keepAlive) else Step(Run(advMax, keepAlive, es[..|es| - 1]), es[|es| - 1])
  }

  // -------------------------------------------------------------------- invariants

  /** An id at most the largest of its kind. */
  predicate Used(t: Table, id: nat) { UsedBy(t.maxClient, t.maxPush, id) }

  predicate UsedBy(maxClient: nat, maxPush: nat, id: nat) {
    0 < id <= if id % 2 == 1 then maxClient else maxPush
  }

  predicate Increasing(ids: seq<nat>) {
    forall i, j :: 0 <= i < j < |ids| && ids[i] % 2 == ids[j] % 2 ==> ids[i] < ids[j]
  }

  /** Ids of each kind were opened in increasing order, and these have objects. */
  ghost predicate Opened(history: seq<nat>, names: set<nat>, maxClient: nat, maxPush: nat) {
    && maxClient < U31 && maxPush < U31 && maxPush % 2 == 0
    && (forall id <- history :: UsedBy(maxClient, maxPush, id))
    && (forall id :: id in history <==> id in names)
    && Increasing(history)
  }

  /** The panics for a missing body and for id 0 did not happen either. */
  ghost predicate Ids(t: Table) {
    && Opened(t.history, t.streams.Keys, t.maxClient, t.maxPush)
    && t.panicked != Some(NoBody) && t.panicked != Some(ZeroId)
  }

  /** A stream that may still get DATA has a body; a half-closed one is being reset. */
  predicate Served(s: Stream) {
    && (s.phase == Open && !s.resetQueued ==> s.hasBody)
    && (s.phase == HalfLocal ==> s.resetQueued)
  }

  /** Body bytes stay within a declared length. */
  predicate WithinLength(s: Stream) {
    s.declared == -1 || s.got == 0 || s.got <= s.declared
  }

  /** Streams out of the table are closed, or ended by their client just when they were closed. */
  predicate ObjectOk(t: Table, pending: set<nat>, id: nat)
    requires id in t.streams
  {
    var s := t.streams[id];
    && WithinLength(s)
    && (id in t.live ==> s.phase != Closed && (id in pending || Served(s)))
    && (id !in t.live ==> s.phase == Closed || (s.phase == HalfRemote && id % 2 == 1))
    && (id % 2 == 0 ==> s.phase == HalfRemote || s.phase == Closed)
  }

  ghost predicate Objects(t: Table, pending: set<nat>) {
    && t.live <= t.streams.Keys
    && (forall id <- t.streams :: ObjectOk(t, pending, id))
  }

  /** Out of the table, but not closed. */
  predicate Stray(t: Table, id: nat) { id in t.streams && id !in t.live && t.streams[id].phase != Closed }

  predicate InTableOrClosed(t: Table, id: nat) { id in t.streams && !Stray(t, id) }

  /** A queued frame's stream is in the table, or is just being closed. */
  predicate QueueOk(t: Table, closing: set<nat>, w: Write) {
    w.Reset? || (!w.Other? && w.id in t.streams && (w.id in t.live || (w.id in closing && t.streams[w.id].phase == Closed)))
  }

  predicate FlightOk(t: Table, w: Write) { w.Ends? || w.PanicReset? ==> InTableOrClosed(t, w.id) }

  predicate Sent(t: Table, closing: set<nat>) {
    && (forall w <- t.queue :: QueueOk(t, closing, w))
    && (t.inflight.Some? ==> FlightOk(t, t.inflight.value))
  }

  function Odds(s: set<nat>): set<nat> { set x | x in s && x % 2 == 1 }
  function Evens(s: set<nat>): set<nat> { set x | x in s && x % 2 == 0 }

  /** The counters are the numbers of odd and even ids in the table, and the first is within the limit. */
  ghost predicate Counted(t: Table) {
    t.curClient == |Odds(t.live)| && t.curPushed == |Evens(t.live)| && t.curClient <= t.advMax
  }

  ghost predicate Inv(t: Table, pending: set<nat>, closing: set<nat>) {
    && Ids(t)
    && (t.panicked.None? ==> Objects(t, pending) && Sent(t, closing) && Counted(t))
  }

  /** What the frame reader can hand over: ids are 31 bits wide. */
  predicate Possible(e: Event) { e.Received? && e.f.Headers? ==> e.f.id < U31 }

  predicate AllPossible(es: seq<Event>) { forall e <- es :: Possible(e) }
}
