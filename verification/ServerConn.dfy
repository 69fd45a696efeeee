/**
 The serve loop's state as the program holds it: stream objects in the heap, a table that maps ids
 to them, and frames that point to them. A frame's pointer stays valid when its stream leaves the
 table; since no id is given out twice, the pointer and the id name the same stream in every run.
 */
module ServerConn {
  import opened Basics
  import opened StreamTable
  import opened StreamRuns

  class StreamObject {
    const id: nat
    var phase: Phase
    var resetQueued: bool
    var gotTrailer: bool
    var hasBody: bool
    var declared: int
    var got: nat

    constructor (id: nat, phase: Phase)
      ensures this.id == id && Value() == Stream(phase, false, false, false, 0, 0)
    {
      this.id, this.phase := id, phase;
      resetQueued, gotTrailer, hasBody, declared, got := false, false, false, 0, 0;
    }

    ghost function Value(): Stream reads this { Stream(phase, resetQueued, gotTrailer, hasBody, declared, got) }
  }

  /** A frame to write; a reset names its stream by id only. */
  datatype Request =
    | EndsOf(st: StreamObject)
    | PlainOf(st: StreamObject)
    | UpdateOf(st: StreamObject)
    | ResetOf(id: nat)
    | PanicOf(st: StreamObject)
    | PromiseOf(st: StreamObject)
    | OtherFrame

  function WriteOf(r: Request): Write {
    match r
    case EndsOf(st) => Ends(st.id)
    case PlainOf(st) => Plain(st.id)
    case UpdateOf(st) => Update(st.id)
    case ResetOf(id) => Reset(id)
    case PanicOf(st) => PanicReset(st.id)
    case PromiseOf(st) => Promise(st.id)
    case OtherFrame => Other
  }

  ghost function WritesOf(q: seq<Request>): (r: seq<Write>)
    ensures |r| == |q| && forall i :: 0 <= i < |q| ==> r[i] == WriteOf(q[i])
  {
    if q == [] then [] else WritesOf(q[..|q| - 1]) + [WriteOf(q[|q| - 1])]
  }

  /** The frame points to the object that was made for its id. */
  ghost predicate Known(made: map<nat, StreamObject>, r: Request) {
    !r.ResetOf? && !r.OtherFrame? ==> r.st.id in made && made[r.st.id] == r.st
  }

  ghost predicate AllKnown(made: map<nat, StreamObject>, q: seq<Request>) { forall r <- q :: Known(made, r) }

  /** Objects stand under their ids, and the table holds some of them. */
  ghost predicate Indexed(made: map<nat, StreamObject>, streams: map<nat, StreamObject>) {
    && (forall id <- made :: made[id].id == id)
    && (forall id <- streams :: id in made && made[id] == streams[id])
  }

  lemma IndexedLess(made: map<nat, StreamObject>, streams: map<nat, StreamObject>, id: nat)
    requires Indexed(made, streams)
    ensures Indexed(made, streams - {id}) && (streams - {id}).Keys == streams.Keys - {id}
    ensures streams - {id} == map[] <==> streams.Keys - {id} == {}
  {
  }

  class ServerConn {
    const advMax: nat
    const keepAlive: bool
    var streams: map<nat, StreamObject>
    ghost var made: map<nat, StreamObject>
    ghost var history: seq<nat>
    var curClient: nat
    var curPushed: nat
    var maxClient: nat
    var maxPush: nat
    var clientMax: nat
    var pushEnabled: bool
    var sawSettings: bool
    var goAway: Option<nat>
    var queue: seq<Request>
    var inflight: Option<Request>
    var panicked: Option<Panic>

    ghost predicate Rep() reads this`made, this`streams, this`queue, this`inflight {
      && Indexed(made, streams)
      && AllKnown(made, queue)
      && (inflight.Some? ==> Known(made, inflight.value))
    }

    ghost function Values(): map<nat, Stream> reads this`made, made.Values { map id | id in made :: made[id].Value() }

    ghost function Abs(): Table reads this, made.Values {
      Table(Values(), streams.Keys, history, curClient, curPushed, maxClient, maxPush, advMax, clientMax, pushEnabled, keepAlive,
            sawSettings, goAway, WritesOf(queue), if inflight.Some? then Some(WriteOf(inflight.value)) else None, panicked)
    }

    /** Objects stay the same; new ones are fresh. */
    twostate predicate Grown() reads this`made {
      && (forall id <- old(made) :: id in made && made[id] == old(made[id]))
      && (forall id <- made :: id !in old(made) ==> fresh(made[id]))
    }

    constructor (advMax: nat, keepAlive: bool)
      ensures Rep() && Abs() == Init(advMax, keepAlive) && Inv(Abs(), {}, {})
    {
      this.advMax, this.keepAlive := advMax, keepAlive;
      streams, made, history := map[], map[], [];
      curClient, curPushed, maxClient, maxPush := 0, 0, 0, 0;
      clientMax, pushEnabled, sawSettings, goAway := U32 - 1, true, false, None;
      queue, inflight, panicked := [], None, None;
      new;
      InitInv(advMax, keepAlive);
      assert Values() == map[];
    }

    /** A change to one object changes one stream. */
    twostate lemma OneChanged(st: StreamObject)
      requires old(Rep()) && st.id in made && made[st.id] == st && made == old(made)
      requires forall id <- made :: made[id] != st ==> made[id].Value() == old(made[id].Value())
      ensures Values() == old(Values())[st.id := st.Value()]
    {
    }

    ghost predicate Holds(st: StreamObject) reads this`made { st.id in made && made[st.id] == st }

    method SetPhase(st: StreamObject, phase: Phase)
      requires Rep() && Holds(st)
      modifies st`phase
      ensures Rep() && st.id in old(Abs()).streams && Abs() == Put(old(Abs()), st.id, old(Abs()).streams[st.id].(phase := phase))
    {
      st.phase := phase;
      OneChanged(st);
    }

    method MarkResetOf(id: nat)
      requires Rep()
      modifies made.Values`resetQueued
      ensures Rep() && Abs() == MarkReset(old(Abs()), id)
    {
      if id in streams {
        var st := streams[id];
        st.resetQueued := true;
        OneChanged(st);
      }
    }

    /** Enters a new object into the table. */
    method Enter(st: StreamObject)
      requires Rep() && st.id !in made
      modifies this`streams, this`made
      ensures Rep() && made == old(made)[st.id := st] && streams == old(streams)[st.id := st]
      ensures Abs() == old(Abs()).(streams := old(Abs()).streams[st.id := st.Value()], live := old(Abs()).live + {st.id})
    {
      KnownMore(made, st, queue);
      streams := streams[st.id := st];
      made := made[st.id := st];
      assert Values() == old(Values())[st.id := st.Value()];
      assert streams.Keys == old(streams.Keys) + {st.id};
    }

    method Count(id: nat)
      requires Rep()
      modifies this`history, this`curPushed, this`curClient
      ensures Rep()
      ensures Abs() == old(Abs()).(history := old(Abs()).history + [id], curPushed := curPushed, curClient := curClient)
      ensures curPushed == if id % 2 == 0 then Wrapped(old(curPushed) + 1) else old(curPushed)
      ensures curClient == if id % 2 == 0 then old(curClient) else Wrapped(old(curClient) + 1)
    {
      hide Wrapped, WritesOf, AllKnown, Values, Indexed;
      history := history + [id];
      if id % 2 == 0 { curPushed := Wrapped(curPushed + 1); } else { curClient := Wrapped(curClient + 1); }
    }

    method NewStreamObject(id: nat, phase: Phase)
      requires Rep() && id !in made && id != 0
      modifies this`streams, this`made, this`history, this`curPushed, this`curClient
      ensures Rep() && Grown() && Abs() == NewStream(old(Abs()), id, phase) && id in streams
    {
      hide Wrapped, WritesOf, AllKnown;
      ghost var t := Abs();
      var st := new StreamObject(id, phase);
      assert Values() == t.streams;
      Enter(st);
      Count(id);
    }

    /** Takes the entry out of the table and counts it off. */
    method Leave(id: nat)
      requires Rep()
      modifies this`streams, this`curPushed, this`curClient, this`goAway
      ensures Rep()
      ensures Abs() == old(Abs()).(live := old(Abs()).live - {id}, curPushed := curPushed, curClient := curClient, goAway := goAway)
      ensures curPushed == if id % 2 == 0 then Wrapped(old(curPushed) - 1) else old(curPushed)
      ensures curClient == if id % 2 == 0 then old(curClient) else Wrapped(old(curClient) - 1)
      ensures goAway == if streams.Keys == {} && !keepAlive && old(goAway).None? then Some(0) else old(goAway)
    {
      hide Wrapped, WritesOf, AllKnown, Values, Indexed;
      IndexedLess(made, streams, id);
      if id % 2 == 0 { curPushed := Wrapped(curPushed - 1); } else { curClient := Wrapped(curClient - 1); }
      streams := streams - {id};
      if streams == map[] && !keepAlive && goAway.None? { goAway := Some(0); }
    }

    method CloseObject(st: StreamObject)
      requires Rep() && Holds(st)
      modifies this`streams, this`curPushed, this`curClient, this`goAway, this`panicked, st`phase
      ensures Rep() && st.id in old(Abs()).streams && Abs() == CloseEntry(old(Abs()), st.id)
    {
      hide Wrapped, WritesOf, AllKnown, Indexed;
      if st.phase == Closed {
        panicked := Some(AlreadyClosed);
        return;
      }
      SetPhase(st, Closed);
      Leave(st.id);
    }

    method DropQueue(id: nat)
      requires Rep()
      modifies this`queue
      ensures Rep() && Abs() == DropFrames(old(Abs()), id)
    {
      hide Indexed, Values, AllKnown;
      var kept, i := [], 0;
      assert AllKnown(made, kept) by { KnownNone(made); }
      while i < |queue|
        invariant 0 <= i <= |queue| && AllKnown(made, kept) && queue == old(queue)
        invariant WritesOf(kept) == Drop(WritesOf(queue[..i]), id)
      {
        WritesStep(queue, i);
        var r := queue[i];
        if !Concerns(WriteOf(r), id) {
          KnownAt(made, queue, i);
          KnownAppend(made, kept, r);
          WritesMore(kept, r);
          kept := kept + [r];
        }
        i := i + 1;
      }
      assert queue[..i] == queue;
      queue := kept;
    }

    function Lookup(id: nat): (r: StateOf)
      requires Rep()
      reads this, made.Values, streams.Values
      ensures r == State(Abs(), id)
    {
      if id in streams then At(streams[id].phase)
      else if id > (if id % 2 == 1 then maxClient else maxPush) then Idle
      else Gone
    }

    /** writeFrame up to the scheduler's queue. */
    method Enqueue(r: Request)
      requires Rep() && Known(made, r) && !r.OtherFrame?
      modifies this`queue
      ensures Rep() && Abs() == Push(old(Abs()), WriteOf(r))
    {
      hide AllKnown, WritesOf;
      var ignore := false;
      if !r.ResetOf? {
        var state := Lookup(WriteOf(r).id);
        ignore := state == Gone;
      }
      if !ignore {
        KnownAppend(made, queue, r);
        WritesMore(queue, r);
        queue := queue + [r];
      }
    }

    /** closeStream inside the scheduling loop, where nothing else is written meanwhile. */
    method CloseNow(st: StreamObject)
      requires Rep() && Holds(st)
      modifies this`streams, this`curPushed, this`curClient, this`goAway, this`panicked, this`queue, st`phase
      ensures Rep() && st.id in old(Abs()).streams && Abs() == DropFrames(CloseEntry(old(Abs()), st.id), st.id)
    {
      hide Rep, Values, WritesOf, CloseEntry, DropFrames;
      CloseObject(st);
      DropQueue(st.id);
    }

    /** wroteFrame inside the scheduling loop. */
    method WroteInLoop(r: Request)
      requires Rep() && Known(made, r)
      modifies this, made.Values
      ensures Rep() && made == old(made) && Abs() == InLoop(old(Abs()), WriteOf(r))
    {
      hide Rep, Values, WritesOf, CloseEntry, DropFrames, Push, MarkReset;
      ghost var t := Abs();
      match r
      case EndsOf(st) =>
        ObjectValue(st);
        if st.phase == Open {
          SetPhase(st, HalfLocal);
          Enqueue(ResetOf(st.id));
          MarkResetOf(st.id);
        } else if st.phase == HalfRemote {
          CloseNow(st);
        }
      case ResetOf(id) =>
        if id in streams {
          TableValue(id);
          CloseNow(streams[id]);
        }
      case PanicOf(st) =>
        ObjectValue(st);
        CloseNow(st);
      case _ =>
    }

    lemma ObjectValue(st: StreamObject)
      requires Rep() && Holds(st)
      ensures st.id in Abs().streams && Abs().streams[st.id] == st.Value()
    {
    }

    lemma TableValue(id: nat)
      requires Rep() && id in streams
      ensures streams[id].id == id && Holds(streams[id]) && id in Abs().streams && id in Abs().live && Abs().streams[id] == streams[id].Value()
    {
    }

    /** An unused id has no object yet. */
    lemma Unmade(id: nat, pending: set<nat>, closing: set<nat>)
      requires Inv(Abs(), pending, closing) && !Used(Abs(), id)
      ensures id !in made
    {
      UnusedIsNew(Abs(), id);
      assert id in made ==> id in Abs().streams;
    }

    method Allocate(ghost pending: set<nat>, ghost closing: set<nat>) returns (ok: bool)
      requires Rep() && Inv(Abs(), pending, closing)
      modifies this
      ensures Rep() && Grown() && Abs() == AllocatePromised(old(Abs()))
      ensures ok <==> Abs().history != old(Abs()).history
    {
      hide Rep, Values, WritesOf, Inv, Wrapped;
      ghost var t := Abs();
      if !pushEnabled { return false; }
      if Wrapped(curPushed + 1) > clientMax { return false; }
      if Wrapped(maxPush + 2) >= U31 {
        if goAway.None? { goAway := Some(0); }
        return false;
      }
      assert !Used(t, t.maxPush + 2) && Wrapped(t.maxPush + 2) == t.maxPush + 2 by { Unfold(t, pending, closing); NextPromise(t); }
      Unmade(maxPush + 2, pending, closing);
      maxPush := Wrapped(maxPush + 2);
      NewStreamObject(maxPush, HalfRemote);
      ok := true;
    }

    /** Whether the guards of startFrameWrite forbid the frame. */
    method Forbidden(r: Request) returns (dead: bool)
      requires Rep() && Known(made, r)
      ensures dead == MustNotStart(Abs(), WriteOf(r))
    {
      hide Rep, Values, WritesOf;
      if r.ResetOf? || r.OtherFrame? { return false; }
      ObjectValue(r.st);
      dead := r.st.phase == Closed || (r.st.phase == HalfLocal && !r.PanicOf? && !r.UpdateOf?);
    }

    /** startFrameWrite: the frame is written at once, or is in flight when this returns. */
    method StartFrame(r: Request, sync: bool, ghost pending: set<nat>, ghost closing: set<nat>)
      requires Rep() && Known(made, r) && Inv(Abs(), pending, closing)
      modifies this, made.Values
      ensures Rep() && Grown() && Abs() == StartWrite(old(Abs()), WriteOf(r), sync)
    {
      hide Rep, Values, WritesOf, Inv, InLoop, AllocatePromised, MustNotStart;
      var dead := Forbidden(r);
      if dead {
        panicked := Some(DeadStream);
        return;
      }
      if r.PromiseOf? {
        var ok := Allocate(pending, closing);
        KnownStays(old(made), made, r);
        if !ok { return; }
      }
      if panicked.Some? { return; }
      if sync { WroteInLoop(r); } else { Launch(r); }
    }

    method Launch(r: Request)
      requires Rep() && Known(made, r)
      modifies this`inflight
      ensures Rep() && Abs() == old(Abs()).(inflight := Some(WriteOf(r)))
    {
      hide Values, WritesOf, AllKnown, Indexed;
      inflight := Some(r);
    }

    /** Takes a frame out of the queue. */
    method Take(i: nat) returns (r: Request)
      requires Rep() && i < |queue|
      modifies this`queue
      ensures Rep() && i < |old(Abs()).queue| && Abs() == Unqueued(old(Abs()), i)
      ensures Known(made, r) && WriteOf(r) == old(Abs()).queue[i]
    {
      hide Values, Indexed;
      ghost var q := queue;
      r := queue[i];
      queue := queue[..i] + queue[i + 1..];
      assert AllKnown(made, queue) by { forall x <- queue ensures x in q { } }
      assert WritesOf(queue) == WritesOf(q)[..i] + WritesOf(q)[i + 1..];
    }

    /** The scheduling loop: frame after frame until one is in flight or none is left. */
    method Schedule(cs: seq<Choice>, ghost pending: set<nat>, ghost closing: set<nat>)
      requires Rep() && Inv(Abs(), pending, closing)
      modifies this, made.Values
      ensures Rep() && Grown() && Abs() == Cascade(old(Abs()), cs)
    {
      hide Rep, Values, WritesOf, Inv, StartWrite, Unqueued;
      ghost var t := Abs();
      var k := 0;
      NoChoice(t);
      assert cs[..0] == [];
      while k < |cs|
        invariant 0 <= k <= |cs| && Rep() && Grown() && Abs() == Cascade(t, cs[..k])
      {
        assert cs[..k + 1][..k] == cs[..k] && cs[..k + 1][k] == cs[k];
        CascadeKeeps(t, cs[..k], pending, closing);
        Write(cs[k], pending, closing);
        k := k + 1;
      }
      assert cs[..k] == cs;
    }

    method Write(c: Choice, ghost pending: set<nat>, ghost closing: set<nat>)
      requires Rep() && Inv(Abs(), pending, closing)
      modifies this, made.Values
      ensures Rep() && Grown() && Abs() == Pick(old(Abs()), c)
    {
      hide Rep, Values, WritesOf, Inv, StartWrite, Unqueued;
      ghost var t := Abs();
      QueueLength();
      if panicked.Some? || inflight.Some? { return; }
      match c
      case Own(sync) => StartFrame(OtherFrame, sync, pending, closing);
      case Queued(i, sync) =>
        if i < |queue| && (goAway.None? || goAway == Some(0)) {
          UnqueueKeeps(t, i, pending, closing);
          var r := Take(i);
          StartFrame(r, sync, pending, closing);
        }
      case Piece(i, sync) =>
        if i < |queue| && (goAway.None? || goAway == Some(0)) && (queue[i].EndsOf? || queue[i].PlainOf?) {
          QueueAt(i);
          StartFrame(PlainOf(queue[i].st), sync, pending, closing);
        } else if i < |queue| {
          QueueAt(i);
        }
    }

    lemma QueueAt(i: nat)
      requires Rep() && i < |queue|
      ensures Known(made, queue[i]) && |Abs().queue| == |queue| && Abs().queue[i] == WriteOf(queue[i])
    {
      KnownAt(made, queue, i);
    }

    lemma QueueLength()
      ensures |Abs().queue| == |queue|
    {
    }

    method QueueReset(id: nat, during: seq<Choice>, ghost pending: set<nat>)
      requires Rep() && Inv(Abs(), pending, {})
      modifies this, made.Values
      ensures Rep() && Grown() && Abs() == ResetStream(old(Abs()), id, during)
    {
      hide Rep, Values, WritesOf, Inv, Cascade, Push, MarkReset;
      PushKeeps(Abs(), Reset(id), pending, {});
      Enqueue(ResetOf(id));
      Schedule(during, pending, {});
      MarkResetOf(id);
    }

    /** closeStream: the scheduler forgets the stream only after the window update is queued. */
    method CloseStreamOf(st: StreamObject, during: seq<Choice>)
      requires Rep() && Holds(st) && Inv(Abs(), {}, {}) && panicked.None? && InTableOrClosed(Abs(), st.id)
      modifies this, made.Values
      ensures Rep() && Grown() && st.id in old(Abs()).streams && Abs() == CloseStream(old(Abs()), st.id, during)
    {
      hide Rep, Values, WritesOf, Inv, Cascade, CloseEntry, DropFrames;
      CloseEntryKeeps(Abs(), st.id, {}, {});
      CloseObject(st);
      Schedule(during, {}, {} + {st.id});
      DropQueue(st.id);
    }

    /** wroteFrame for the frame in flight. */
    method Finish(during: seq<Choice>, after: seq<Choice>)
      requires Rep() && Inv(Abs(), {}, {}) && panicked.None?
      modifies this, made.Values
      ensures Rep() && Grown() && Abs() == Step(old(Abs()), Finished(during, after)) && Inv(Abs(), {}, {})
    {
      hide Rep, Values, WritesOf, Inv, Cascade, ResetStream, CloseStream;
      StepKeeps(Abs(), Finished(during, after));
      if inflight.None? { return; }
      LandKeeps(Abs());
      var r := Land();
      ghost var t := Abs();
      Settle(r, during);
      ghost var u := Abs();
      assert Inv(u, {}, {}) by { SettledKeeps(t, WriteOf(r), during); }
      Schedule(after, {}, {});
    }

    method Land() returns (r: Request)
      requires Rep() && inflight.Some?
      modifies this`inflight
      ensures Rep() && Known(made, r) && old(Abs()).inflight == Some(WriteOf(r)) && Abs() == old(Abs()).(inflight := None)
    {
      hide Values, WritesOf, AllKnown, Indexed;
      r := inflight.value;
      inflight := None;
    }

    method Settle(r: Request, during: seq<Choice>)
      requires Rep() && Known(made, r) && Inv(Abs(), {}, {}) && panicked.None? && FlightOk(Abs(), WriteOf(r))
      modifies this, made.Values
      ensures Rep() && Grown() && Abs() == Settled(old(Abs()), WriteOf(r), during)
    {
      hide Rep, Values, WritesOf, Inv, Cascade, ResetStream, CloseStream;
      ghost var t := Abs();
      match r
      case EndsOf(st) =>
        ObjectValue(st);
        if st.phase == Open {
          HalfCloseKeeps(t, st.id, {}, {});
          SetPhase(st, HalfLocal);
          QueueReset(st.id, during, {} + {st.id});
        } else if st.phase == HalfRemote {
          CloseStreamOf(st, during);
        }
      case ResetOf(id) =>
        if id in streams {
          TableValue(id);
          CloseStreamOf(streams[id], during);
        }
      case PanicOf(st) =>
        ObjectValue(st);
        CloseStreamOf(st, during);
      case _ =>
    }

    method End(st: StreamObject)
      requires Rep() && Holds(st)
      modifies this`panicked, st`phase
      ensures Rep() && st.id in old(Abs()).streams && Abs() == EndStream(old(Abs()), st.id)
    {
      hide Values, WritesOf, AllKnown, Indexed, Put;
      ObjectValue(st);
      if !st.hasBody {
        panicked := Some(NoBody);
        return;
      }
      SetPhase(st, HalfRemote);
    }

    method Trailers(st: StreamObject, f: Frame) returns (out: Outcome)
      requires Rep() && Holds(st) && f.Headers? && f.id == st.id
      modifies this`panicked, st
      ensures Rep() && st.id in old(Abs()).streams && (Abs(), out) == ProcessTrailers(old(Abs()), f)
    {
      hide WritesOf, AllKnown, Indexed, EndStream;
      ObjectValue(st);
      if st.gotTrailer { return ConnErr(1); }
      st.gotTrailer := true;
      OneChanged(st);
      if !f.ended { return StreamErr(f.id); }
      if f.pseudo || f.badTrailer { return StreamErr(f.id); }
      End(st);
      out := Fine;
    }

    method OpenRequest(f: Frame) returns (out: Outcome)
      requires Rep() && f.Headers? && f.id != 0 && f.id !in made && panicked.None?
      modifies this
      ensures Rep() && Grown() && (Abs(), out) == OpenFrom(old(Abs()), f)
    {
      hide Rep, WritesOf, NewStream, Values;
      NewIsLive(Abs(), f.id, if f.ended then HalfRemote else Open);
      NewStreamObject(f.id, if f.ended then HalfRemote else Open);
      if f.selfDep || f.badRequest { return StreamErr(f.id); }
      TableValue(f.id);
      SetBody(streams[f.id], !f.ended, if f.ended then 0 else f.length);
      out := Fine;
    }

    method SetBody(st: StreamObject, hasBody: bool, declared: int)
      requires Rep() && Holds(st)
      modifies st`hasBody, st`declared
      ensures Rep() && st.id in old(Abs()).streams
      ensures Abs() == Put(old(Abs()), st.id, old(Abs()).streams[st.id].(hasBody := hasBody, declared := declared))
    {
      st.hasBody := hasBody;
      st.declared := declared;
      OneChanged(st);
    }

    method ReceiveHeaders(f: Frame) returns (out: Outcome)
      requires Rep() && Inv(Abs(), {}, {}) && panicked.None? && f.Headers? && f.id < U31
      modifies this, made.Values
      ensures Rep() && Grown() && (Abs(), out) == ProcessHeaders(old(Abs()), f)
    {
      hide Rep, Values, WritesOf, Inv, ProcessTrailers, OpenFrom, Wrapped;
      ghost var t := Abs();
      if goAway.Some? { return Fine; }
      if f.id % 2 != 1 { return ConnErr(1); }
      if f.id in streams {
        var st := streams[f.id];
        TableValue(f.id);
        if st.resetQueued { return Fine; }
        if st.phase == HalfRemote { return StreamErr(f.id); }
        out := Trailers(st, f);
        return;
      }
      if f.id <= maxClient { return ConnErr(1); }
      Unmade(f.id, {}, {});
      maxClient := f.id;
      if Wrapped(curClient + 1) > advMax { return StreamErr(f.id); }
      out := OpenRequest(f);
    }

    method AddBytes(st: StreamObject, n: nat)
      requires Rep() && Holds(st)
      modifies st`got
      ensures Rep() && st.id in old(Abs()).streams
      ensures Abs() == Put(old(Abs()), st.id, old(Abs()).streams[st.id].(got := old(Abs()).streams[st.id].got + n))
    {
      st.got := st.got + n;
      OneChanged(st);
    }

    /** Window updates for the connection and then for the stream. */
    method Refund(st: StreamObject, during: seq<Choice>, more: seq<Choice>)
      requires Rep() && Holds(st) && Inv(Abs(), {}, {})
      modifies this, made.Values
      ensures Rep() && Grown() && Abs() == Cascade(Push(Cascade(old(Abs()), during), Update(st.id)), more)
    {
      hide Rep, Values, WritesOf, Inv, Cascade, Push;
      CascadeKeeps(Abs(), during, {}, {});
      Schedule(during, {}, {});
      PushKeeps(Abs(), Update(st.id), {}, {});
      Enqueue(UpdateOf(st));
      Schedule(more, {}, {});
    }

    /** The object may have left the table by the time its body ends. */
    method Accept(st: StreamObject, f: Frame, during: seq<Choice>, more: seq<Choice>)
      requires Rep() && Holds(st) && f.Data? && f.id == st.id && Inv(Abs(), {}, {}) && panicked.None? && Accepts(Abs(), f)
      modifies this, made.Values
      ensures Rep() && Grown() && st.id in old(Abs()).streams && Abs() == AcceptData(old(Abs()), f, during, more)
    {
      hide Rep, Values, WritesOf, Inv, Cascade, EndStream, Put, Push;
      ghost var t := Abs();
      GotKeeps(t, f, t.streams[f.id].(got := t.streams[f.id].got + f.size));
      AddBytes(st, f.size);
      if f.pad > 0 { Refund(st, during, more); }
      ObjectValue(st);
      if panicked.None? && f.ended { End(st); }
    }

    method ReceiveData(f: Frame, during: seq<Choice>, more: seq<Choice>) returns (out: Outcome)
      requires Rep() && Inv(Abs(), {}, {}) && panicked.None? && f.Data?
      modifies this, made.Values
      ensures Rep() && Grown() && (Abs(), out) == ProcessData(old(Abs()), f, during, more)
    {
      hide Rep, Values, WritesOf, Inv, Cascade, AcceptData;
      ghost var t := Abs();
      if goAway.Some? && goAway != Some(0) { return Fine; }
      if f.id == 0 || Lookup(f.id) == Idle { return ConnErr(1); }
      if f.id !in streams { return StreamErr(f.id); }
      var st := streams[f.id];
      TableValue(f.id);
      if st.phase != Open || st.gotTrailer || st.resetQueued {
        if !f.connQuota { return StreamErr(f.id); }
        Schedule(during, {}, {});
        ObjectValue(st);
        if st.resetQueued { return Fine; }
        return StreamErr(f.id);
      }
      if !st.hasBody {
        panicked := Some(NoBody);
        return Fine;
      }
      if st.declared != -1 && st.got + f.size > st.declared { return StreamErr(f.id); }
      if f.size + f.pad > 0 {
        if !f.streamQuota { return StreamErr(f.id); }
        if f.size > 0 && f.refused { return StreamErr(f.id); }
      }
      Accept(st, f, during, more);
      out := Fine;
    }

    method Receive(f: Frame, during: seq<Choice>, more: seq<Choice>) returns (out: Outcome)
      requires Rep() && Inv(Abs(), {}, {}) && panicked.None? && (f.Headers? ==> f.id < U31)
      modifies this, made.Values
      ensures Rep() && Grown() && (Abs(), out) == ProcessFrame(old(Abs()), f, during, more)
    {
      hide Rep, Values, WritesOf, Inv, Cascade, ProcessHeaders, ProcessData, CloseStream;
      ghost var t := Abs();
      if !sawSettings && !f.Settings? { return ConnErr(1); }
      out := Fine;
      match f
      case Headers(_, _, _, _, _, _, _) => out := ReceiveHeaders(f);
      case Data(_, _, _, _, _, _, _) => out := ReceiveData(f, during, more);
      case RstStream(id) =>
        if id in streams {
          TableValue(id);
          CloseStreamOf(streams[id], during);
        } else if Lookup(id) == Idle {
          out := ConnErr(1);
        }
      case WindowUpdate(id, overflow) =>
        if id != 0 && Lookup(id) == Idle { out := ConnErr(1); }
        else if id != 0 && id !in streams { }
        else if overflow { out := if id == 0 then ConnErr(3) else StreamErr(id); }
        else { Schedule(during, {}, {}); }
      case Priority(id, self) => if goAway.None? && self { out := StreamErr(id); }
      case Settings(push, max, bad) =>
        ConfigKeeps(t, WithSettings(t, push, max), {}, {});
        Configure(push, max);
        if bad { out := ConnErr(1); } else { Schedule(during, {}, {}); }
      case GoAway =>
        ConfigKeeps(t, GoAwayWith(t, 0), {}, {});
        SetGoAway(0);
        Schedule(during, {}, {});
        pushEnabled := false;
      case PushPromise => out := ConnErr(1);
      case Ignored =>
    }

    method Configure(push: Option<bool>, max: Option<nat>)
      modifies this`sawSettings, this`pushEnabled, this`clientMax
      ensures Abs() == WithSettings(old(Abs()), push, max)
    {
      hide Values, WritesOf;
      sawSettings := true;
      if push.Some? { pushEnabled := push.value; }
      if max.Some? { clientMax := max.value; }
    }

    method SetGoAway(code: nat)
      modifies this`goAway
      ensures Abs() == GoAwayWith(old(Abs()), code)
    {
      hide Values, WritesOf;
      if goAway.None? { goAway := Some(code); }
    }

    method Respond(out: Outcome, after: seq<Choice>, ghost pending: set<nat>)
      requires Rep() && Inv(Abs(), pending, {})
      modifies this, made.Values
      ensures Rep() && Grown() && Abs() == Answer(old(Abs()), out, after)
    {
      hide Rep, Values, WritesOf, Inv, Cascade, ResetStream;
      if panicked.Some? { return; }
      match out
      case Fine =>
      case StreamErr(id) => QueueReset(id, after, pending);
      case ConnErr(code) =>
        ConfigKeeps(Abs(), GoAwayWith(Abs(), code), pending, {});
        SetGoAway(code);
        Schedule(after, pending, {});
    }

    /** A frame from the client. */
    method Serve(f: Frame, during: seq<Choice>, more: seq<Choice>, after: seq<Choice>)
      requires Rep() && Inv(Abs(), {}, {}) && panicked.None? && (f.Headers? ==> f.id < U31)
      modifies this, made.Values
      ensures Rep() && Grown() && Abs() == Step(old(Abs()), Received(f, during, more, after)) && Inv(Abs(), {}, {})
    {
      hide Rep, Values, WritesOf, Inv, ProcessFrame, Answer;
      ghost var t := Abs();
      StepKeeps(t, Received(f, during, more, after));
      ghost var pending := FrameKeeps(t, f, during, more);
      var out := Receive(f, during, more);
      Respond(out, after, pending);
    }

    /** A frame from a handler, which may hold its stream long after it left the table. */
    method HandlerWrite(r: Request, after: seq<Choice>)
      requires Rep() && Known(made, r) && !r.OtherFrame? && Inv(Abs(), {}, {}) && panicked.None?
      modifies this, made.Values
      ensures Rep() && Grown() && Abs() == Step(old(Abs()), HandlerWrites(WriteOf(r), after)) && Inv(Abs(), {}, {})
    {
      hide Rep, Values, WritesOf, Inv, Cascade, Push;
      StepKeeps(Abs(), HandlerWrites(WriteOf(r), after));
      PushKeeps(Abs(), WriteOf(r), {}, {});
      Enqueue(r);
      Schedule(after, {}, {});
    }

    /** startPush. */
    method HandlerPush(parent: StreamObject, after: seq<Choice>)
      requires Rep() && Holds(parent) && Inv(Abs(), {}, {}) && panicked.None?
      modifies this, made.Values
      ensures Rep() && Grown() && Abs() == Step(old(Abs()), StartPush(parent.id, after)) && Inv(Abs(), {}, {})
    {
      hide Rep, Values, WritesOf, Inv, Cascade, Push;
      StepKeeps(Abs(), StartPush(parent.id, after));
      ObjectValue(parent);
      if parent.phase != Open && parent.phase != HalfRemote { return; }
      if !pushEnabled { return; }
      PushKeeps(Abs(), Promise(parent.id), {}, {});
      Enqueue(PromiseOf(parent));
      Schedule(after, {}, {});
    }

    /** noteBodyRead. */
    method HandlerRead(st: StreamObject, during: seq<Choice>, after: seq<Choice>)
      requires Rep() && Holds(st) && Inv(Abs(), {}, {}) && panicked.None?
      modifies this, made.Values
      ensures Rep() && Grown() && Abs() == Step(old(Abs()), BodyRead(st.id, during, after)) && Inv(Abs(), {}, {})
    {
      hide Rep, Values, WritesOf, Inv, Cascade, Push;
      StepKeeps(Abs(), BodyRead(st.id, during, after));
      CascadeKeeps(Abs(), during, {}, {});
      Schedule(during, {}, {});
      ObjectValue(st);
      if st.phase != HalfRemote && st.phase != Closed {
        PushKeeps(Abs(), Update(st.id), {}, {});
        Enqueue(UpdateOf(st));
        Schedule(after, {}, {});
      }
    }

    /** A frame that could not be read. */
    method FailRead(out: Outcome, after: seq<Choice>)
      requires Rep() && Inv(Abs(), {}, {}) && panicked.None?
      modifies this, made.Values
      ensures Rep() && Grown() && Abs() == Step(old(Abs()), ReadFailed(out, after)) && Inv(Abs(), {}, {})
    {
      hide Rep, Values, WritesOf, Inv, Answer;
      StepKeeps(Abs(), ReadFailed(out, after));
      Respond(out, after, {});
    }

    method ShutDown(after: seq<Choice>)
      requires Rep() && Inv(Abs(), {}, {}) && panicked.None?
      modifies this, made.Values
      ensures Rep() && Grown() && Abs() == Step(old(Abs()), Shutdown(after)) && Inv(Abs(), {}, {})
    {
      hide Rep, Values, WritesOf, Inv, Cascade;
      StepKeeps(Abs(), Shutdown(after));
      ConfigKeeps(Abs(), GoAwayWith(Abs(), 0), {}, {});
      SetGoAway(0);
      Schedule(after, {}, {});
    }

    /** Frames of no stream, such as a settings acknowledgement, are due. */
    method Wake(after: seq<Choice>)
      requires Rep() && Inv(Abs(), {}, {}) && panicked.None?
      modifies this, made.Values
      ensures Rep() && Grown() && Abs() == Step(old(Abs()), Wakes(after)) && Inv(Abs(), {}, {})
    {
      hide Rep, Values, WritesOf, Inv, Cascade;
      StepKeeps(Abs(), Wakes(after));
      Schedule(after, {}, {});
    }

    /** closeAllStreamsOnConnClose, for one stream of the table. */
    method Disconnect(id: nat, during: seq<Choice>)
      requires Rep() && Inv(Abs(), {}, {}) && panicked.None?
      modifies this, made.Values
      ensures Rep() && Grown() && Abs() == Step(old(Abs()), Disconnected(id, during)) && Inv(Abs(), {}, {})
    {
      hide Rep, Values, WritesOf, Inv, CloseStream;
      StepKeeps(Abs(), Disconnected(id, during));
      if id in streams {
        TableValue(id);
        CloseStreamOf(streams[id], during);
      }
    }
  }

  lemma WritesMore(q: seq<Request>, r: Request)
    ensures WritesOf(q + [r]) == WritesOf(q) + [WriteOf(r)]
  {
    assert (q + [r])[..|q|] == q;
  }

  lemma WritesStep(q: seq<Request>, i: nat)
    requires i < |q|
    ensures WritesOf(q[..i + 1]) == WritesOf(q[..i]) + [WriteOf(q[i])]
    ensures forall id :: Drop(WritesOf(q[..i + 1]), id) == Drop(WritesOf(q[..i]), id) + (if Concerns(WriteOf(q[i]), id) then [] else [WriteOf(q[i])])
  {
    assert q[..i + 1] == q[..i] + [q[i]];
    WritesMore(q[..i], q[i]);
    var w := WritesOf(q[..i]) + [WriteOf(q[i])];
    assert w[..|w| - 1] == WritesOf(q[..i]);
  }

  lemma KnownStays(old_: map<nat, StreamObject>, made: map<nat, StreamObject>, r: Request)
    requires Known(old_, r) && forall id <- old_ :: id in made && made[id] == old_[id]
    ensures Known(made, r)
  {
  }

  /** What the end of a frame does before the next ones are scheduled. */
  function Settled(t: Table, w: Write, during: seq<Choice>): Table {
    if EndsOpen(t, w) then ResetStream(HalfClose(t, w.id), w.id, during)
    else if Closes(t, w) then CloseStream(t, w.id, during)
    else t
  }

  lemma SettledKeeps(t: Table, w: Write, during: seq<Choice>)
    requires Inv(t, {}, {}) && t.panicked.None? && FlightOk(t, w)
    ensures Inv(Settled(t, w, during), {}, {})
  {
    hide Inv, ResetStream, CloseStream, Cascade;
    WroteFrameKeeps(t, w, during, []);
    NoChoice(Settled(t, w, during));
  }

  lemma NewIsLive(t: Table, id: nat, phase: Phase)
    requires id != 0
    ensures var u := NewStream(t, id, phase); id in u.streams && id in u.live && u.panicked == t.panicked
  {
  }

  lemma KnownNone(made: map<nat, StreamObject>)
    ensures AllKnown(made, [])
  {
  }

  lemma KnownAt(made: map<nat, StreamObject>, q: seq<Request>, i: nat)
    requires AllKnown(made, q) && i < |q|
    ensures Known(made, q[i])
  {
    assert q[i] in q;
  }

  lemma KnownAppend(made: map<nat, StreamObject>, q: seq<Request>, r: Request)
    requires AllKnown(made, q) && Known(made, r)
    ensures AllKnown(made, q + [r])
  {
  }

  lemma KnownMore(made: map<nat, StreamObject>, st: StreamObject, q: seq<Request>)
    requires st.id !in made
    ensures AllKnown(made, q) ==> AllKnown(made[st.id := st], q)
  {
  }
}
