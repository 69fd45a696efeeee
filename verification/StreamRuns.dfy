/** What every run of the serve loop keeps of the stream table. */
module StreamRuns {
  import opened Basics
  import opened StreamTable

  // ------------------------------------------------------------------ cardinalities

  lemma {:induction false} FewOdds(s: set<nat>, n: nat)
    requires forall x <- s :: x % 2 == 1 && x < 2 * n
    ensures |s| <= n
  {
    if n == 0 {
      assert s == {};
    } else {
      FewOdds(s - {2 * n - 1}, n - 1);
    }
  }

  lemma {:induction false} FewEvens(s: set<nat>, n: nat)
    requires forall x <- s :: x % 2 == 0 && x < 2 * n
    ensures |s| <= n
  {
    if n == 0 {
      assert s == {};
    } else {
      FewEvens(s - {2 * n - 2}, n - 1);
    }
  }

  /** Ids are 31 bits wide, so a counter that counts them is far from wrapping around. */
  lemma NoWrap(t: Table)
    requires Ids(t) && t.live <= t.streams.Keys
    ensures |Odds(t.live)| < U31 && |Evens(t.live)| < U31
  {
    forall x <- t.live ensures x < U31 { assert x in t.streams; assert x in t.history; assert Used(t, x); }
    FewOdds(Odds(t.live), U31 / 2);
    FewEvens(Evens(t.live), U31 / 2);
  }

  lemma WithId(s: set<nat>, id: nat)
    requires id !in s
    ensures |Odds(s + {id})| == |Odds(s)| + (if id % 2 == 1 then 1 else 0)
    ensures |Evens(s + {id})| == |Evens(s)| + (if id % 2 == 0 then 1 else 0)
  {
    if id % 2 == 1 {
      assert Odds(s + {id}) == Odds(s) + {id};
      assert Evens(s + {id}) == Evens(s);
    } else {
      assert Evens(s + {id}) == Evens(s) + {id};
      assert Odds(s + {id}) == Odds(s);
    }
  }

  lemma WithoutId(s: set<nat>, id: nat)
    requires id in s
    ensures |Odds(s - {id})| == |Odds(s)| - (if id % 2 == 1 then 1 else 0)
    ensures |Evens(s - {id})| == |Evens(s)| - (if id % 2 == 0 then 1 else 0)
  {
    WithId(s - {id}, id);
    assert s - {id} + {id} == s;
  }

  lemma WrappedSmall(x: int)
    ensures 0 <= x < U32 ==> Wrapped(x) == x
  {
  }

  // ------------------------------------------------------------- parts of the invariant

  /** Ids depend on the history and the set of stream objects only. */
  lemma SameIds(t: Table, u: Table)
    requires Ids(t) && u.history == t.history && u.streams.Keys == t.streams.Keys
    requires u.maxClient == t.maxClient && u.maxPush == t.maxPush
    requires u.panicked == t.panicked || (u.panicked != Some(NoBody) && u.panicked != Some(ZeroId))
    ensures Ids(u)
  {
    hide Opened;
  }

  /** Frames stay right while streams neither leave the table nor come back to life. */
  lemma SentSame(t: Table, u: Table, closing: set<nat>)
    requires Sent(t, closing) && u.queue == t.queue && u.inflight == t.inflight && t.live <= u.live
    requires forall id <- t.streams :: id in u.streams && (t.streams[id].phase == Closed ==> u.streams[id].phase == Closed)
    ensures Sent(u, closing)
  {
    forall w <- u.queue ensures QueueOk(u, closing, w) { assert QueueOk(t, closing, w); }
  }

  lemma Unfold(t: Table, pending: set<nat>, closing: set<nat>)
    requires Inv(t, pending, closing)
    ensures Ids(t) && (t.panicked.None? ==> Objects(t, pending) && Sent(t, closing) && Counted(t) && t.live <= t.streams.Keys)
  {
  }

  // --------------------------------------------------------------- opening a stream

  predicate CanOpen(t: Table, max: Table, id: nat) {
    && t.panicked.None? && 0 < id < U31 && !Used(t, id)
    && max == if id % 2 == 1 then t.(maxClient := id) else t.(maxPush := id)
  }

  lemma UnusedIsNew(t: Table, id: nat)
    requires Ids(t) && !Used(t, id)
    ensures id !in t.streams && id !in t.history
  {
    assert id in t.streams ==> id in t.history;
  }

  lemma IncreasingMore(ids: seq<nat>, id: nat)
    requires Increasing(ids) && forall x <- ids :: x % 2 == id % 2 ==> x < id
    ensures Increasing(ids + [id])
  {
    var more := ids + [id];
    forall i, j | 0 <= i < j < |more| && more[i] % 2 == more[j] % 2 ensures more[i] < more[j] {
      if j == |ids| { assert more[i] in ids; }
    }
  }

  lemma OpensOne(history: seq<nat>, names: set<nat>, maxClient: nat, maxPush: nat, id: nat)
    requires Opened(history, names, maxClient, maxPush) && 0 < id < U31 && !UsedBy(maxClient, maxPush, id)
    ensures Opened(history + [id], names + {id}, if id % 2 == 1 then id else maxClient, if id % 2 == 1 then maxPush else id)
  {
    forall x <- history | x % 2 == id % 2 ensures x < id { assert UsedBy(maxClient, maxPush, x); }
    IncreasingMore(history, id);
    hide Increasing;
    var mc, mp := if id % 2 == 1 then id else maxClient, if id % 2 == 1 then maxPush else id;
    forall x <- history + [id] ensures UsedBy(mc, mp, x) { if x != id { assert x in history && UsedBy(maxClient, maxPush, x); } }
  }

  lemma NewStreamIds(t: Table, max: Table, id: nat, phase: Phase)
    requires Ids(t) && CanOpen(t, max, id)
    ensures Ids(NewStream(max, id, phase))
  {
    hide Wrapped, Opened;
    OpensOne(t.history, t.streams.Keys, t.maxClient, t.maxPush, id);
    assert NewStream(max, id, phase).streams.Keys == t.streams.Keys + {id};
  }

  lemma NewStreamObjects(t: Table, max: Table, id: nat, phase: Phase, pending: set<nat>)
    requires Objects(t, pending) && id !in t.streams && CanOpen(t, max, id)
    requires phase == HalfRemote || (phase == Open && id % 2 == 1)
    ensures Objects(NewStream(max, id, phase), pending + {id})
    ensures phase == HalfRemote ==> Objects(NewStream(max, id, phase), pending)
  {
    hide Wrapped, Used, Served, WithinLength;
    var u := NewStream(max, id, phase);
    NewIsServed(phase);
    forall x <- u.streams ensures ObjectOk(u, pending + {id}, x) { if x != id { assert ObjectOk(t, pending, x); } }
    if phase == HalfRemote {
      forall x <- u.streams ensures ObjectOk(u, pending, x) { if x != id { assert ObjectOk(t, pending, x); } }
    }
  }

  lemma NewIsServed(phase: Phase)
    ensures WithinLength(Stream(phase, false, false, false, 0, 0))
    ensures phase == HalfRemote ==> Served(Stream(phase, false, false, false, 0, 0))
  {
  }

  lemma NewStreamCounted(t: Table, max: Table, id: nat, phase: Phase)
    requires Ids(t) && t.live <= t.streams.Keys && Counted(t) && CanOpen(t, max, id)
    requires id % 2 == 1 ==> t.curClient + 1 <= t.advMax
    ensures Counted(NewStream(max, id, phase))
  {
    UnusedIsNew(t, id);
    NoWrap(t);
    assert id !in t.live;
    WithId(t.live, id);
    WrappedSmall(t.curClient + 1);
    WrappedSmall(t.curPushed + 1);
    hide Ids, Wrapped, Odds, Evens;
  }

  lemma NewStreamKeeps(t: Table, max: Table, id: nat, phase: Phase, pending: set<nat>, closing: set<nat>)
    requires Inv(t, pending, closing) && CanOpen(t, max, id)
    requires phase == HalfRemote || (phase == Open && id % 2 == 1)
    requires id % 2 == 1 ==> t.curClient + 1 <= t.advMax
    ensures Inv(NewStream(max, id, phase), pending + {id}, closing)
    ensures phase == HalfRemote ==> Inv(NewStream(max, id, phase), pending, closing)
  {
    hide Ids, Objects, Counted, Sent, Used, NewStream;
    UnusedIsNew(t, id);
    Unfold(t, pending, closing);
    NewStreamIds(t, max, id, phase);
    NewStreamObjects(t, max, id, phase, pending);
    NewStreamCounted(t, max, id, phase);
    NewStreamSent(t, max, id, phase, closing);
  }

  lemma NewStreamSent(t: Table, max: Table, id: nat, phase: Phase, closing: set<nat>)
    requires Sent(t, closing) && CanOpen(t, max, id) && id !in t.streams
    ensures Sent(NewStream(max, id, phase), closing)
  {
    hide Sent, Wrapped, Used;
    SentSame(t, NewStream(max, id, phase), closing);
  }

  // --------------------------------------------------------------- closing a stream

  lemma CloseEntryCounted(t: Table, id: nat)
    requires Ids(t) && t.live <= t.streams.Keys && Counted(t) && id in t.live
    ensures id in t.streams && (t.streams[id].phase != Closed ==> Counted(CloseEntry(t, id)))
  {
    NoWrap(t);
    WithoutId(t.live, id);
    assert |Odds(t.live - {id})| >= 0 && |Evens(t.live - {id})| >= 0;
    WrappedSmall(t.curClient - 1);
    WrappedSmall(t.curPushed - 1);
    hide Ids, Wrapped, Odds, Evens;
  }

  lemma CloseEntryObjects(t: Table, id: nat, pending: set<nat>)
    requires Objects(t, pending) && id in t.streams && t.streams[id].phase != Closed
    ensures Objects(CloseEntry(t, id), pending)
  {
    hide Wrapped, Served;
    var u := CloseEntry(t, id);
    forall x <- u.streams ensures ObjectOk(u, pending, x) { assert ObjectOk(t, pending, x); }
  }

  lemma CloseEntrySent(t: Table, id: nat, closing: set<nat>)
    requires Sent(t, closing) && id in t.streams && t.streams[id].phase != Closed
    ensures Sent(CloseEntry(t, id), closing + {id})
  {
    hide Wrapped;
    var u := CloseEntry(t, id);
    forall w <- u.queue ensures QueueOk(u, closing + {id}, w) { assert QueueOk(t, closing, w); }
  }

  lemma CloseEntryKeeps(t: Table, id: nat, pending: set<nat>, closing: set<nat>)
    requires Inv(t, pending, closing) && t.panicked.None? && InTableOrClosed(t, id)
    ensures Inv(CloseEntry(t, id), pending, closing + {id})
  {
    hide Ids, Objects, Counted, Sent, Wrapped;
    var u := CloseEntry(t, id);
    assert u.streams.Keys == t.streams.Keys;
    SameIds(t, u);
    if t.streams[id].phase != Closed {
      Unfold(t, pending, closing);
      CloseEntryCounted(t, id);
      CloseEntryObjects(t, id, pending);
      CloseEntrySent(t, id, closing);
    }
  }

  lemma {:induction false} DropIs(q: seq<Write>, id: nat, w: Write)
    ensures w in Drop(q, id) <==> w in q && !Concerns(w, id)
  {
    if q != [] {
      DropIs(q[..|q| - 1], id, w);
      assert w in q <==> w in q[..|q| - 1] || w == q[|q| - 1];
    }
  }

  lemma DropKeeps(t: Table, id: nat, pending: set<nat>, closing: set<nat>)
    requires Inv(t, pending, closing + {id})
    ensures Inv(DropFrames(t, id), pending, closing)
  {
    hide Ids, Objects, Counted, Drop;
    var u := DropFrames(t, id);
    SameIds(t, u);
    if t.panicked.None? {
      forall w <- u.queue ensures QueueOk(u, closing, w) {
        DropIs(t.queue, id, w);
        assert QueueOk(t, closing + {id}, w);
      }
      QuietKeeps(t, u, pending);
    }
  }

  /** Objects and counters do not depend on the queue, the frame in flight or the settings. */
  lemma QuietKeeps(t: Table, u: Table, pending: set<nat>)
    requires Objects(t, pending) && Counted(t) && u.streams == t.streams && u.live == t.live
    requires u.curClient == t.curClient && u.curPushed == t.curPushed && u.advMax == t.advMax
    ensures Objects(u, pending) && Counted(u)
  {
    forall x <- u.streams ensures ObjectOk(u, pending, x) { assert ObjectOk(t, pending, x); }
  }

  lemma QuietInv(t: Table, u: Table, pending: set<nat>, closing: set<nat>)
    requires Inv(t, pending, closing) && u.streams == t.streams && u.live == t.live && u.history == t.history
    requires u.curClient == t.curClient && u.curPushed == t.curPushed && u.advMax == t.advMax
    requires u.maxClient == t.maxClient && u.maxPush == t.maxPush
    requires t.panicked.None? ==> u.panicked == None || u.panicked == Some(DeadStream)
    requires t.panicked.Some? ==> u.panicked == t.panicked
    requires t.panicked.None? ==> Sent(u, closing)
    ensures Inv(u, pending, closing)
  {
    hide Ids, Objects, Counted, Sent;
    SameIds(t, u);
    if t.panicked.None? { QuietKeeps(t, u, pending); }
  }

  /** Settings and shutdown leave streams and frames alone. */
  lemma ConfigKeeps(t: Table, u: Table, pending: set<nat>, closing: set<nat>)
    requires Inv(t, pending, closing)
    requires u == t.(pushEnabled := u.pushEnabled, clientMax := u.clientMax, sawSettings := u.sawSettings, goAway := u.goAway)
    ensures Inv(u, pending, closing)
  {
    hide Ids, Objects, Counted, Sent;
    if t.panicked.None? { SentSame(t, u, closing); }
    QuietInv(t, u, pending, closing);
  }

  // ------------------------------------------------------------ changing a stream object

  lemma PutKeeps(t: Table, id: nat, s: Stream, pending: set<nat>, after: set<nat>, closing: set<nat>)
    requires Inv(t, pending, closing) && t.panicked.None? && id in t.streams && pending <= after + {id}
    requires t.streams[id].phase == Closed ==> s.phase == Closed
    requires ObjectOk(Put(t, id, s), after, id)
    ensures Inv(Put(t, id, s), after, closing)
  {
    hide Ids, Counted, Sent;
    var u := Put(t, id, s);
    assert u.streams.Keys == t.streams.Keys;
    SameIds(t, u);
    SentSame(t, u, closing);
    forall x <- u.streams ensures ObjectOk(u, after, x) { if x != id { assert ObjectOk(t, pending, x); } }
    CountedSame(t, u);
  }

  lemma CountedSame(t: Table, u: Table)
    requires Counted(t) && u.live == t.live && u.curClient == t.curClient && u.curPushed == t.curPushed && u.advMax == t.advMax
    ensures Counted(u)
  {
  }

  lemma ObjectAt(t: Table, id: nat, pending: set<nat>, closing: set<nat>)
    requires Inv(t, pending, closing) && t.panicked.None?
    ensures id in t.live ==> id in t.streams
    ensures id in t.streams ==> ObjectOk(t, pending, id)
  {
  }

  lemma MarkResetKeeps(t: Table, id: nat, pending: set<nat>, closing: set<nat>)
    requires Inv(t, pending, closing)
    ensures Inv(MarkReset(t, id), pending - {id}, closing)
  {
    if t.panicked.None? {
      ObjectAt(t, id, pending, closing);
      if id in t.live {
        PutKeeps(t, id, t.streams[id].(resetQueued := true), pending, pending - {id}, closing);
      } else {
        PendingOut(t, id, pending, closing);
      }
    } else {
      SameIds(t, MarkReset(t, id));
    }
  }

  lemma PendingOut(t: Table, id: nat, pending: set<nat>, closing: set<nat>)
    requires Inv(t, pending, closing) && id !in t.live
    ensures Inv(t, pending - {id}, closing)
  {
    hide Ids, Counted, Sent;
    if t.panicked.None? {
      forall x <- t.streams ensures ObjectOk(t, pending - {id}, x) { assert ObjectOk(t, pending, x); }
    }
  }

  lemma PushKeeps(t: Table, w: Write, pending: set<nat>, closing: set<nat>)
    requires Inv(t, pending, closing)
    ensures Inv(Push(t, w), pending, closing)
  {
    hide Ids, Objects, Counted;
    if t.panicked.None? {
      forall x <- Push(t, w).queue ensures QueueOk(Push(t, w), closing, x) {
        if x in t.queue { assert QueueOk(t, closing, x); } else if !w.Reset? { Unfold(t, pending, closing); UsedOrLive(t, w); }
      }
    }
    QuietInv(t, Push(t, w), pending, closing);
  }

  /** A stream that exists is in the table or gone. */
  lemma UsedOrLive(t: Table, w: Write)
    requires Ids(t) && !w.Other? && w.id in t.streams && State(t, w.id) != Gone
    ensures w.id in t.live
  {
    assert w.id in t.history && Used(t, w.id);
  }

  // --------------------------------------------------------------- frames going out

  lemma InLoopKeeps(t: Table, w: Write, pending: set<nat>, closing: set<nat>)
    requires Inv(t, pending, closing) && t.panicked.None? && FlightOk(t, w)
    ensures Inv(InLoop(t, w), pending, closing)
  {
    hide Inv;
    if EndsOpen(t, w) {
      ObjectAt(t, w.id, pending, closing);
      HalfCloseKeeps(t, w.id, pending, closing);
      var u := HalfClose(t, w.id);
      PushKeeps(u, Reset(w.id), pending + {w.id}, closing);
      MarkResetKeeps(Push(u, Reset(w.id)), w.id, pending + {w.id}, closing);
      PendingBack(MarkReset(Push(u, Reset(w.id)), w.id), pending + {w.id} - {w.id}, pending, closing);
    } else if Closes(t, w) {
      if w.Reset? { ObjectAt(t, w.id, pending, closing); }
      CloseEntryKeeps(t, w.id, pending, closing);
      DropKeeps(CloseEntry(t, w.id), w.id, pending, closing);
    }
  }

  lemma PendingBack(t: Table, pending: set<nat>, more: set<nat>, closing: set<nat>)
    requires Inv(t, pending, closing) && pending <= more
    ensures Inv(t, more, closing)
  {
    hide Ids, Counted, Sent;
    if t.panicked.None? {
      forall x <- t.streams ensures ObjectOk(t, more, x) { assert ObjectOk(t, pending, x); }
    }
  }

  lemma HalfCloseKeeps(t: Table, id: nat, pending: set<nat>, closing: set<nat>)
    requires Inv(t, pending, closing) && t.panicked.None? && id in t.streams && t.streams[id].phase == Open
    ensures id in t.live && Inv(HalfClose(t, id), pending + {id}, closing)
  {
    ObjectAt(t, id, pending, closing);
    PutKeeps(t, id, t.streams[id].(phase := HalfLocal), pending, pending + {id}, closing);
  }

  lemma NextPromise(t: Table)
    requires Ids(t)
    ensures !Used(t, t.maxPush + 2) && (t.maxPush + 2) % 2 == 0 && Wrapped(t.maxPush + 2) == t.maxPush + 2
  {
  }

  lemma AllocateKeeps(t: Table, pending: set<nat>, closing: set<nat>)
    requires Inv(t, pending, closing) && t.panicked.None?
    ensures Inv(AllocatePromised(t), pending, closing)
  {
    Unfold(t, pending, closing);
    NextPromise(t);
    hide Inv, Ids, Objects, Counted, Sent, NewStream, Wrapped;
    if t.pushEnabled && Wrapped(t.curPushed + 1) <= t.clientMax {
      if t.maxPush + 2 >= U31 { ConfigKeeps(t, GoAwayWith(t, 0), pending, closing); }
      else { NewStreamKeeps(t, t.(maxPush := t.maxPush + 2), t.maxPush + 2, HalfRemote, pending, closing); }
    }
  }

  /** A frame may start if its stream is in the table; otherwise starting it panics. */
  lemma StartKeeps(t: Table, w: Write, sync: bool, pending: set<nat>, closing: set<nat>)
    requires Inv(t, pending, closing) && t.panicked.None? && t.inflight.None? && (w.Other? || QueueOk(t, closing, w))
    ensures Inv(StartWrite(t, w, sync), pending, closing)
  {
    hide Inv, AllocatePromised, InLoop;
    if MustNotStart(t, w) {
      DeadKeeps(t, pending, closing);
    } else {
      var t1 := if w.Promise? then AllocatePromised(t) else t;
      if w.Promise? { AllocateKeeps(t, pending, closing); }
      if t1.panicked.None? && !(w.Promise? && t1.history == t.history) {
        if sync { InLoopKeeps(t1, w, pending, closing); } else { FlightKeeps(t1, w, pending, closing); }
      }
    }
  }

  lemma DeadKeeps(t: Table, pending: set<nat>, closing: set<nat>)
    requires Inv(t, pending, closing) && t.panicked.None?
    ensures Inv(t.(panicked := Some(DeadStream)), pending, closing)
  {
    hide Objects, Counted, Sent;
    SameIds(t, t.(panicked := Some(DeadStream)));
  }

  lemma FlightKeeps(t: Table, w: Write, pending: set<nat>, closing: set<nat>)
    requires Inv(t, pending, closing) && t.panicked.None? && FlightOk(t, w)
    ensures Inv(t.(inflight := Some(w)), pending, closing)
  {
    hide Ids, Objects, Counted;
    var u := t.(inflight := Some(w));
    forall x <- u.queue ensures QueueOk(u, closing, x) { assert QueueOk(t, closing, x); }
    QuietInv(t, u, pending, closing);
  }

  lemma UnqueueKeeps(t: Table, i: nat, pending: set<nat>, closing: set<nat>)
    requires Inv(t, pending, closing) && t.panicked.None? && i < |t.queue|
    ensures Inv(Unqueued(t, i), pending, closing) && QueueOk(Unqueued(t, i), closing, t.queue[i])
  {
    hide Ids, Objects, Counted;
    var u := Unqueued(t, i);
    assert t.queue[i] in t.queue && QueueOk(t, closing, t.queue[i]);
    forall x <- u.queue ensures QueueOk(u, closing, x) { assert x in t.queue; assert QueueOk(t, closing, x); }
    QuietInv(t, u, pending, closing);
  }

  lemma PickKeeps(t: Table, c: Choice, pending: set<nat>, closing: set<nat>)
    requires Inv(t, pending, closing)
    ensures Inv(Pick(t, c), pending, closing)
  {
    hide Inv, StartWrite, Unqueued;
    if t.panicked.None? && t.inflight.None? {
      match c
      case Own(sync) => StartKeeps(t, Other, sync, pending, closing);
      case Queued(i, sync) =>
        if i < |t.queue| {
          UnqueueKeeps(t, i, pending, closing);
          UnqueuedIs(t, i);
          StartKeeps(Unqueued(t, i), t.queue[i], sync, pending, closing);
        }
      case Piece(i, sync) =>
        if i < |t.queue| {
          QueuedOk(t, i, pending, closing);
          if t.queue[i].Ends? || t.queue[i].Plain? { StartKeeps(t, Plain(t.queue[i].id), sync, pending, closing); }
        }
    }
  }

  lemma QueuedOk(t: Table, i: nat, pending: set<nat>, closing: set<nat>)
    requires Inv(t, pending, closing) && t.panicked.None? && i < |t.queue|
    ensures QueueOk(t, closing, t.queue[i])
  {
    assert t.queue[i] in t.queue;
  }

  lemma UnqueuedIs(t: Table, i: nat)
    requires i < |t.queue|
    ensures Unqueued(t, i).panicked == t.panicked && Unqueued(t, i).inflight == t.inflight
    ensures Unqueued(t, i).live == t.live && Unqueued(t, i).streams == t.streams
    ensures Unqueued(t, i).maxClient == t.maxClient && Unqueued(t, i).maxPush == t.maxPush && Unqueued(t, i).advMax == t.advMax
  {
  }

  lemma {:induction false} CascadeKeeps(t: Table, cs: seq<Choice>, pending: set<nat>, closing: set<nat>)
    requires Inv(t, pending, closing)
    ensures Inv(Cascade(t, cs), pending, closing)
  {
    hide Inv, Pick;
    if cs != [] {
      CascadeKeeps(t, cs[..|cs| - 1], pending, closing);
      PickKeeps(Cascade(t, cs[..|cs| - 1]), cs[|cs| - 1], pending, closing);
    }
  }

  lemma ResetStreamKeeps(t: Table, id: nat, during: seq<Choice>, pending: set<nat>)
    requires Inv(t, pending, {}) && pending <= {id}
    ensures Inv(ResetStream(t, id, during), {}, {})
  {
    hide Inv, Cascade, MarkReset, Push;
    PushKeeps(t, Reset(id), pending, {});
    CascadeKeeps(Push(t, Reset(id)), during, pending, {});
    MarkResetKeeps(Cascade(Push(t, Reset(id)), during), id, pending, {});
    assert pending - {id} == {};
  }

  lemma CloseStreamKeeps(t: Table, id: nat, during: seq<Choice>)
    requires Inv(t, {}, {}) && t.panicked.None? && InTableOrClosed(t, id)
    ensures Inv(CloseStream(t, id, during), {}, {})
  {
    hide Inv, Cascade, CloseEntry, DropFrames;
    CloseEntryKeeps(t, id, {}, {});
    CascadeKeeps(CloseEntry(t, id), during, {}, {} + {id});
    DropKeeps(Cascade(CloseEntry(t, id), during), id, {}, {});
  }

  lemma WroteFrameKeeps(t: Table, w: Write, during: seq<Choice>, after: seq<Choice>)
    requires Inv(t, {}, {}) && t.panicked.None? && FlightOk(t, w)
    ensures Inv(WroteFrame(t, w, during, after), {}, {})
  {
    hide Inv, Cascade, ResetStream, CloseStream;
    CascadeKeeps(t, after, {}, {});
    if EndsOpen(t, w) {
      HalfCloseKeeps(t, w.id, {}, {});
      var u := HalfClose(t, w.id);
      ResetStreamKeeps(u, w.id, during, {} + {w.id});
      CascadeKeeps(ResetStream(u, w.id, during), after, {}, {});
    } else if Closes(t, w) {
      if w.Reset? { ObjectAt(t, w.id, {}, {}); }
      CloseStreamKeeps(t, w.id, during);
      CascadeKeeps(CloseStream(t, w.id, during), after, {}, {});
    }
  }

  // ------------------------------------------------------------------ incoming frames

  /** A stream error is answered by resetting that stream, so it may be left pending until then. */
  predicate Pends(out: Outcome, pending: set<nat>) {
    pending == {} || (out.StreamErr? && pending == {out.id})
  }

  lemma EndStreamKeeps(t: Table, id: nat)
    requires Inv(t, {}, {}) && t.panicked.None? && id in t.live && id in t.streams && t.streams[id].hasBody && id % 2 == 1
    ensures Inv(EndStream(t, id), {}, {})
  {
    ObjectAt(t, id, {}, {});
    PutKeeps(t, id, t.streams[id].(phase := HalfRemote), {}, {}, {});
  }

  lemma TrailersKeep(t: Table, f: Frame)
    requires f.Headers? && f.id in t.live && f.id in t.streams && f.id % 2 == 1 && Inv(t, {}, {}) && t.panicked.None?
    requires !t.streams[f.id].resetQueued && t.streams[f.id].phase != HalfRemote
    ensures Inv(ProcessTrailers(t, f).0, {}, {})
  {
    ObjectAt(t, f.id, {}, {});
    hide Inv;
    PutKeeps(t, f.id, t.streams[f.id].(gotTrailer := true), {}, {}, {});
    EndStreamKeeps(Put(t, f.id, t.streams[f.id].(gotTrailer := true)), f.id);
  }

  lemma OpenKeeps(t: Table, t1: Table, f: Frame) returns (pending: set<nat>)
    requires f.Headers? && f.id % 2 == 1 && f.id < U31 && Inv(t, {}, {}) && t.panicked.None?
    requires t.maxClient < f.id && t1 == t.(maxClient := f.id) && t.curClient + 1 <= t.advMax
    ensures Inv(OpenFrom(t1, f).0, pending, {}) && Pends(OpenFrom(t1, f).1, pending)
  {
    hide Inv;
    var phase := if f.ended then HalfRemote else Open;
    NewStreamKeeps(t, t1, f.id, phase, {}, {});
    var t2 := NewStream(t1, f.id, phase);
    assert {} + {f.id} == {f.id};
    if f.selfDep || f.badRequest {
      pending := {f.id};
    } else {
      ObjectAt(t2, f.id, {f.id}, {});
      PutKeeps(t2, f.id, t2.streams[f.id].(hasBody := !f.ended, declared := if f.ended then 0 else f.length), {f.id}, {}, {});
      pending := {};
    }
  }

  lemma RaiseKeeps(t: Table, id: nat)
    requires id % 2 == 1 && id < U31 && Inv(t, {}, {}) && t.panicked.None? && t.maxClient < id
    ensures Inv(t.(maxClient := id), {}, {})
  {
    hide Objects, Counted, Sent;
    var u := t.(maxClient := id);
    forall x <- t.history ensures Used(u, x) { assert Used(t, x); }
    SentSame(t, u, {});
    QuietKeeps(t, u, {});
  }

  lemma CounterSmall(t: Table)
    requires Inv(t, {}, {}) && t.panicked.None?
    ensures Wrapped(t.curClient + 1) == t.curClient + 1
  {
    NoWrap(t);
  }

  lemma HeadersKeep(t: Table, f: Frame) returns (pending: set<nat>)
    requires f.Headers? && f.id < U31 && Inv(t, {}, {}) && t.panicked.None?
    ensures Inv(ProcessHeaders(t, f).0, pending, {}) && Pends(ProcessHeaders(t, f).1, pending)
  {
    hide Inv, ProcessTrailers, OpenFrom, Wrapped;
    pending := {};
    if t.goAway.None? && f.id % 2 == 1 {
      ObjectAt(t, f.id, {}, {});
      if f.id in t.live {
        if !t.streams[f.id].resetQueued && t.streams[f.id].phase != HalfRemote { TrailersKeep(t, f); }
      } else if f.id > t.maxClient {
        RaiseKeeps(t, f.id);
        CounterSmall(t);
        if t.curClient + 1 <= t.advMax { pending := OpenKeeps(t, t.(maxClient := f.id), f); }
      }
    }
  }

  /** A stream object stays, and of it only the phase changes, or a reset is queued. */
  predicate Kept(t: Table, u: Table, id: nat) {
    && id in t.streams && id in u.streams && (t.streams[id].resetQueued ==> u.streams[id].resetQueued)
    && u.streams[id] == t.streams[id].(phase := u.streams[id].phase, resetQueued := u.streams[id].resetQueued)
  }

  lemma KeptTrans(t: Table, u: Table, v: Table, id: nat)
    requires Kept(t, u, id) && Kept(u, v, id)
    ensures Kept(t, v, id)
  {
  }

  lemma CloseEntryKept(t: Table, x: nat, id: nat)
    requires id in t.streams && x in t.streams
    ensures Kept(t, CloseEntry(t, x), id)
  {
    CloseEntryStreams(t, x);
    hide CloseEntry;
  }

  lemma CloseEntryStreams(t: Table, id: nat)
    requires id in t.streams
    ensures CloseEntry(t, id).streams == t.streams[id := t.streams[id].(phase := Closed)]
  {
    hide Wrapped;
  }

  lemma PutKept(t: Table, x: nat, s: Stream, id: nat)
    requires id in t.streams && x in t.streams && (t.streams[x].resetQueued ==> s.resetQueued)
    requires s == t.streams[x].(phase := s.phase, resetQueued := s.resetQueued)
    ensures Kept(t, Put(t, x, s), id)
  {
  }

  lemma InLoopKept(t: Table, w: Write, id: nat)
    requires id in t.streams
    ensures Kept(t, InLoop(t, w), id)
  {
    hide CloseEntry, Drop;
    if EndsOpen(t, w) {
      hide Kept, Put;
      var u := HalfClose(t, w.id);
      PutKept(t, w.id, t.streams[w.id].(phase := HalfLocal), id);
      SameStreams(t, u, Push(u, Reset(w.id)), id);
      MarkKept(Push(u, Reset(w.id)), w.id, id);
      KeptTrans(t, Push(u, Reset(w.id)), InLoop(t, w), id);
    } else if Closes(t, w) {
      CloseEntryKept(t, w.id, id);
    }
  }

  lemma SameStreams(t: Table, u: Table, v: Table, id: nat)
    requires Kept(t, u, id) && v.streams == u.streams
    ensures Kept(t, v, id) && id in v.streams
  {
  }

  lemma MarkKept(t: Table, x: nat, id: nat)
    requires id in t.streams
    ensures Kept(t, MarkReset(t, x), id)
  {
  }

  lemma FreshPromise(t: Table, id: nat, pending: set<nat>, closing: set<nat>)
    requires Inv(t, pending, closing) && id in t.streams
    ensures id in AllocatePromised(t).streams && AllocatePromised(t).streams[id] == t.streams[id]
  {
    assert id in t.history && Used(t, id);
    NextPromise(t);
  }

  lemma PickKept(t: Table, c: Choice, id: nat, pending: set<nat>, closing: set<nat>)
    requires Inv(t, pending, closing) && id in t.streams
    ensures Kept(t, Pick(t, c), id)
  {
    hide Inv, InLoop, AllocatePromised, Unqueued;
    if t.panicked.None? && t.inflight.None? {
      var u, w := t, Other;
      if c.Queued? && c.i < |t.queue| {
        UnqueuedIs(t, c.i);
        UnqueueKeeps(t, c.i, pending, closing);
        u, w := Unqueued(t, c.i), t.queue[c.i];
      } else if c.Piece? && c.i < |t.queue| && (t.queue[c.i].Ends? || t.queue[c.i].Plain?) {
        w := Plain(t.queue[c.i].id);
      }
      FreshPromise(u, id, pending, closing);
      InLoopKept(u, w, id);
      InLoopKept(AllocatePromised(u), w, id);
    }
  }

  lemma {:induction false} CascadeKept(t: Table, cs: seq<Choice>, id: nat, pending: set<nat>, closing: set<nat>)
    requires Inv(t, pending, closing) && id in t.streams
    ensures Kept(t, Cascade(t, cs), id)
  {
    if cs == [] { return; }
    hide Inv, Pick, Kept;
    var u := Cascade(t, cs[..|cs| - 1]);
    CascadeKept(t, cs[..|cs| - 1], id, pending, closing);
    CascadeKeeps(t, cs[..|cs| - 1], pending, closing);
    KeptThere(t, u, id);
    PickKept(u, cs[|cs| - 1], id, pending, closing);
    KeptTrans(t, u, Pick(u, cs[|cs| - 1]), id);
  }

  lemma KeptThere(t: Table, u: Table, id: nat)
    requires Kept(t, u, id)
    ensures id in u.streams
  {
  }

  predicate Holds(t: Table, id: nat) { id in t.streams && t.streams[id].hasBody }

  lemma PushHolds(t: Table, w: Write, id: nat)
    requires Holds(t, id)
    ensures Holds(Push(t, w), id)
  {
  }

  lemma CascadeHolds(t: Table, cs: seq<Choice>, id: nat, pending: set<nat>, closing: set<nat>)
    requires Inv(t, pending, closing) && Holds(t, id)
    ensures Holds(Cascade(t, cs), id)
  {
    hide Inv, Cascade;
    CascadeKept(t, cs, id, pending, closing);
  }

  /** The stream is in the table, or no frame that could close it is in flight. */
  predicate NotCaught(t: Table, id: nat) {
    id in t.live || !(t.inflight.Some? && (t.inflight.value.Ends? || t.inflight.value.PanicReset?) && t.inflight.value.id == id)
  }

  lemma PickNotCaught(t: Table, c: Choice, id: nat)
    requires Inv(t, {}, {}) && NotCaught(t, id)
    ensures NotCaught(Pick(t, c), id)
  {
    hide Ids, Objects, Counted, Wrapped, Drop;
    if t.panicked.None? && t.inflight.None? && c.Queued? && c.i < |t.queue| {
      assert t.queue[c.i] in t.queue && QueueOk(t, {}, t.queue[c.i]);
    }
  }

  /** A stream closed while its own DATA is processed leaves no frame behind that could close it again. */
  lemma {:induction false} CascadeNotCaught(t: Table, cs: seq<Choice>, id: nat)
    requires Inv(t, {}, {}) && NotCaught(t, id)
    ensures NotCaught(Cascade(t, cs), id)
  {
    hide Inv, Pick, NotCaught;
    if cs != [] {
      CascadeNotCaught(t, cs[..|cs| - 1], id);
      CascadeKeeps(t, cs[..|cs| - 1], {}, {});
      PickNotCaught(Cascade(t, cs[..|cs| - 1]), cs[|cs| - 1], id);
    }
  }

  /** The end of the body of a stream that has just been closed. */
  lemma LateEndKeeps(t: Table, id: nat)
    requires Inv(t, {}, {}) && t.panicked.None? && id in t.streams && t.streams[id].hasBody && id % 2 == 1
    requires NotCaught(t, id)
    ensures Inv(EndStream(t, id), {}, {})
  {
    if id in t.live {
      EndStreamKeeps(t, id);
    } else {
      hide Ids, Counted;
      var u := EndStream(t, id);
      assert u.streams.Keys == t.streams.Keys;
      SameIds(t, u);
      CountedSame(t, u);
      forall x <- u.streams ensures ObjectOk(u, {}, x) { assert ObjectOk(t, {}, x); }
      forall w <- u.queue ensures QueueOk(u, {}, w) { assert QueueOk(t, {}, w); }
    }
  }

  predicate Accepts(t: Table, f: Frame)
    requires f.Data?
  {
    && f.id in t.live && f.id in t.streams && t.streams[f.id].phase == Open && t.streams[f.id].hasBody
    && (t.streams[f.id].declared == -1 || t.streams[f.id].got + f.size <= t.streams[f.id].declared)
  }

  lemma GotKeeps(t: Table, f: Frame, s: Stream)
    requires f.Data? && Accepts(t, f) && Inv(t, {}, {}) && t.panicked.None?
    requires s == t.streams[f.id].(got := t.streams[f.id].got + f.size)
    ensures f.id % 2 == 1 && Inv(Put(t, f.id, s), {}, {}) && Holds(Put(t, f.id, s), f.id) && NotCaught(Put(t, f.id, s), f.id)
  {
    hide Inv;
    ObjectAt(t, f.id, {}, {});
    PutKeeps(t, f.id, s, {}, {}, {});
  }

  lemma PushNotCaught(t: Table, w: Write, id: nat)
    requires NotCaught(t, id)
    ensures NotCaught(Push(t, w), id)
  {
  }

  /** The refund of padding, for the connection and then for the stream. */
  lemma RefundKeeps(t: Table, id: nat, during: seq<Choice>, more: seq<Choice>)
    requires Inv(t, {}, {}) && Holds(t, id) && NotCaught(t, id)
    ensures var u := Cascade(Push(Cascade(t, during), Update(id)), more); Inv(u, {}, {}) && Holds(u, id) && NotCaught(u, id)
  {
    hide Inv, Cascade, Push, Holds, NotCaught;
    var v := Cascade(t, during);
    CascadeKeeps(t, during, {}, {});
    CascadeHolds(t, during, id, {}, {});
    CascadeNotCaught(t, during, id);
    PushKeeps(v, Update(id), {}, {});
    PushHolds(v, Update(id), id);
    PushNotCaught(v, Update(id), id);
    CascadeKeeps(Push(v, Update(id)), more, {}, {});
    CascadeHolds(Push(v, Update(id)), more, id, {}, {});
    CascadeNotCaught(Push(v, Update(id)), more, id);
  }

  lemma AcceptKeeps(t: Table, f: Frame, during: seq<Choice>, more: seq<Choice>)
    requires f.Data? && Accepts(t, f) && Inv(t, {}, {}) && t.panicked.None?
    ensures Inv(AcceptData(t, f, during, more), {}, {})
  {
    hide Inv, Cascade, EndStream, Put, NotCaught, Push;
    var s := t.streams[f.id].(got := t.streams[f.id].got + f.size);
    GotKeeps(t, f, s);
    var t1 := Put(t, f.id, s);
    RefundKeeps(t1, f.id, during, more);
    var t2 := if f.pad > 0 then Cascade(Push(Cascade(t1, during), Update(f.id)), more) else t1;
    if t2.panicked.None? && f.ended { LateEndKeeps(t2, f.id); }
  }

  lemma DataKeeps(t: Table, f: Frame, during: seq<Choice>, more: seq<Choice>)
    requires f.Data? && Inv(t, {}, {}) && t.panicked.None?
    ensures Inv(ProcessData(t, f, during, more).0, {}, {})
  {
    hide Inv, Cascade, AcceptData;
    CascadeKeeps(t, during, {}, {});
    ObjectAt(t, f.id, {}, {});
    if f.id in t.live {
      var st := t.streams[f.id];
      if Accepts(t, f) { AcceptKeeps(t, f, during, more); }
    }
  }

  lemma FrameKeeps(t: Table, f: Frame, during: seq<Choice>, more: seq<Choice>) returns (pending: set<nat>)
    requires Inv(t, {}, {}) && t.panicked.None? && (f.Headers? ==> f.id < U31)
    ensures Inv(ProcessFrame(t, f, during, more).0, pending, {}) && Pends(ProcessFrame(t, f, during, more).1, pending)
  {
    hide Inv, Cascade, ProcessData, ProcessHeaders, CloseStream;
    pending := {};
    CascadeKeeps(t, during, {}, {});
    if t.sawSettings || f.Settings? {
      match f
      case Headers(_, _, _, _, _, _, _) => pending := HeadersKeep(t, f);
      case Data(_, _, _, _, _, _, _) => DataKeeps(t, f, during, more);
      case RstStream(id) =>
        ObjectAt(t, id, {}, {});
        if id in t.live { CloseStreamKeeps(t, id, during); }
      case Settings(push, max, bad) =>
        ConfigKeeps(t, WithSettings(t, push, max), {}, {});
        CascadeKeeps(WithSettings(t, push, max), during, {}, {});
      case GoAway =>
        ConfigKeeps(t, GoAwayWith(t, 0), {}, {});
        var t1 := Cascade(GoAwayWith(t, 0), during);
        CascadeKeeps(GoAwayWith(t, 0), during, {}, {});
        ConfigKeeps(t1, t1.(pushEnabled := false), {}, {});
      case _ =>
    }
  }

  lemma AnswerKeeps(t: Table, out: Outcome, after: seq<Choice>, pending: set<nat>)
    requires Inv(t, pending, {}) && Pends(out, pending)
    ensures Inv(Answer(t, out, after), {}, {})
  {
    hide Inv, Cascade, ResetStream;
    if t.panicked.Some? {
      DeadInv(t, pending);
    } else {
      match out
      case Fine =>
      case StreamErr(id) => ResetStreamKeeps(t, id, after, pending);
      case ConnErr(code) =>
        ConfigKeeps(t, GoAwayWith(t, code), {}, {});
        CascadeKeeps(GoAwayWith(t, code), after, {}, {});
    }
  }

  lemma DeadInv(t: Table, pending: set<nat>)
    requires Inv(t, pending, {}) && t.panicked.Some?
    ensures Inv(t, {}, {})
  {
  }

  lemma StepKeeps(t: Table, e: Event)
    requires Inv(t, {}, {}) && Possible(e)
    ensures Inv(Step(t, e), {}, {})
  {
    hide Inv, Cascade, ProcessFrame, Answer, WroteFrame, CloseStream, Push;
    if t.panicked.None? {
      match e
      case Received(f, during, more, after) =>
        var pending := FrameKeeps(t, f, during, more);
        AnswerKeeps(ProcessFrame(t, f, during, more).0, ProcessFrame(t, f, during, more).1, after, pending);
      case ReadFailed(out, after) => AnswerKeeps(t, out, after, {});
      case Finished(during, after) =>
        if t.inflight.Some? {
          LandKeeps(t);
          WroteFrameKeeps(t.(inflight := None), t.inflight.value, during, after);
        }
      case HandlerWrites(w, after) =>
        PushKeeps(t, w, {}, {});
        CascadeKeeps(Push(t, w), after, {}, {});
      case StartPush(parent, after) =>
        PushKeeps(t, Promise(parent), {}, {});
        CascadeKeeps(Push(t, Promise(parent)), after, {}, {});
      case BodyRead(id, during, after) =>
        CascadeKeeps(t, during, {}, {});
        PushKeeps(Cascade(t, during), Update(id), {}, {});
        CascadeKeeps(Push(Cascade(t, during), Update(id)), after, {}, {});
      case Shutdown(after) =>
        ConfigKeeps(t, GoAwayWith(t, 0), {}, {});
        CascadeKeeps(GoAwayWith(t, 0), after, {}, {});
      case Wakes(after) => CascadeKeeps(t, after, {}, {});
      case Disconnected(id, during) =>
        ObjectAt(t, id, {}, {});
        if id in t.live { CloseStreamKeeps(t, id, during); }
    }
  }

  lemma LandKeeps(t: Table)
    requires Inv(t, {}, {}) && t.panicked.None? && t.inflight.Some?
    ensures Inv(t.(inflight := None), {}, {}) && FlightOk(t.(inflight := None), t.inflight.value)
  {
    hide Ids, Objects, Counted;
    var u := t.(inflight := None);
    forall x <- u.queue ensures QueueOk(u, {}, x) { assert QueueOk(t, {}, x); }
    QuietInv(t, u, {}, {});
  }

  lemma InitInv(advMax: nat, keepAlive: bool)
    ensures Inv(Init(advMax, keepAlive), {}, {})
  {
    assert Odds({}) == {} && Evens({}) == {};
  }

  // ------------------------------------------------------------------------ whole runs

  /**
   In every run: ids of each kind are opened in increasing order, so none twice; a stream that may
   get DATA has a body; the counters are the numbers of odd and even ids in the table, the first
   within the advertised limit; and the panics for a missing body and for id 0 do not happen.
   */
  lemma {:induction false} RunInv(advMax: nat, keepAlive: bool, es: seq<Event>)
    requires AllPossible(es)
    ensures Inv(Run(advMax, keepAlive, es), {}, {})
  {
    hide Step, Inv;
    if es == [] {
      InitInv(advMax, keepAlive);
    } else {
      RunInv(advMax, keepAlive, es[..|es| - 1]);
      assert es[|es| - 1] in es;
      StepKeeps(Run(advMax, keepAlive, es[..|es| - 1]), es[|es| - 1]);
    }
  }

  /** A finished frame makes a counter wrong exactly when it closes a stream out of the table that is not closed. */
  lemma MiscountIff(t: Table, w: Write, pending: set<nat>)
    requires Ids(t) && Objects(t, pending) && Counted(t) && t.panicked.None? && !w.Promise?
    ensures InLoop(t, w).panicked.None? && !Counted(InLoop(t, w)) <==> (w.Ends? || w.PanicReset?) && Stray(t, w.id)
  {
    hide Ids, Objects, Counted, Drop, Wrapped, CloseEntry, Served;
    var u := InLoop(t, w);
    if !w.Other? && w.id in t.streams {
      ObjectIs(t, w.id, pending);
      if Closes(t, w) && t.streams[w.id].phase != Closed {
        CloseEntryIs(t, w.id);
        if w.id in t.live {
          CloseEntryCounted(t, w.id);
          CountedSame(CloseEntry(t, w.id), u);
        } else {
          StrayMiscounts(t, u, w.id, pending);
        }
      } else if Closes(t, w) {
        CloseEntryIs(t, w.id);
      } else {
        CountedSame(t, u);
      }
    } else {
      CountedSame(t, u);
    }
  }

  lemma ObjectIs(t: Table, id: nat, pending: set<nat>)
    requires Objects(t, pending) && id in t.streams
    ensures ObjectOk(t, pending, id) && t.live <= t.streams.Keys
  {
  }

  lemma CloseEntryIs(t: Table, id: nat)
    requires id in t.streams
    ensures t.streams[id].phase == Closed ==> CloseEntry(t, id) == t.(panicked := Some(AlreadyClosed))
    ensures t.streams[id].phase != Closed ==>
      var u := CloseEntry(t, id);
      && u.panicked == t.panicked && u.live == t.live - {id} && u.advMax == t.advMax
      && u.maxClient == t.maxClient && u.maxPush == t.maxPush
      && (id % 2 == 1 ==> u.curClient == Wrapped(t.curClient - 1))
  {
    hide Wrapped;
  }

  lemma StrayMiscounts(t: Table, u: Table, id: nat, pending: set<nat>)
    requires Ids(t) && Objects(t, pending) && Counted(t) && Stray(t, id)
    requires u.live == t.live - {id} && (id % 2 == 1 ==> u.curClient == Wrapped(t.curClient - 1))
    ensures !Counted(u)
  {
    ObjectIs(t, id, pending);
    NoWrap(t);
    assert u.live == t.live;
    hide Ids, Objects, Odds, Evens;
    WrappedOff(t.curClient);
  }

  lemma WrappedOff(x: nat)
    requires x < U31
    ensures Wrapped(x - 1) != x
  {
  }

  // ------------------------------------------------------- when streams open and close

  /**
   Sections 5.1.1 and 5.1.2 of RFC 7540: HEADERS opens a stream if and only if its id is odd and
   larger than any before, and fewer client streams are in the table than advertised.
   */
  lemma OpensIff(t: Table, f: Frame)
    requires f.Headers? && f.id < U31 && Inv(t, {}, {}) && t.panicked.None?
    ensures var opens := t.goAway.None? && f.id % 2 == 1 && f.id > t.maxClient && |Odds(t.live)| < t.advMax;
      ProcessHeaders(t, f).0.history == if opens then t.history + [f.id] else t.history
  {
    hide Inv, Wrapped, Odds, OpenFrom, ProcessTrailers;
    CounterSmall(t);
    CounterIs(t);
    if f.id in t.live {
      LiveUsed(t, f.id);
      TrailerHistory(t, f);
    } else if f.id > 0 {
      OpenHistory(t.(maxClient := f.id), f);
    }
  }

  lemma CounterIs(t: Table)
    requires Inv(t, {}, {}) && t.panicked.None?
    ensures t.curClient == |Odds(t.live)|
  {
    hide Odds, Evens;
  }

  lemma TrailerHistory(t: Table, f: Frame)
    requires f.Headers? && f.id in t.streams
    ensures ProcessTrailers(t, f).0.history == t.history
  {
  }

  lemma OpenHistory(t: Table, f: Frame)
    requires f.Headers? && f.id > 0
    ensures OpenFrom(t, f).0.history == t.history + [f.id]
  {
    hide Wrapped;
  }

  lemma LiveUsed(t: Table, id: nat)
    requires Inv(t, {}, {}) && t.panicked.None? && id in t.live
    ensures id in t.streams && Used(t, id)
  {
    assert id in t.streams && id in t.history;
  }

  /** A promised stream opens if and only if push is on, the client's limit leaves room and ids are left. */
  lemma PromisesIff(t: Table)
    requires Inv(t, {}, {}) && t.panicked.None?
    ensures var opens := t.pushEnabled && |Evens(t.live)| < t.clientMax && t.maxPush + 2 < U31;
      AllocatePromised(t).history == if opens then t.history + [t.maxPush + 2] else t.history
  {
    NoWrap(t);
    WrappedSmall(t.curPushed + 1);
    NextPromise(t);
    hide Inv, Ids, Objects, Sent, Wrapped, Odds, Evens;
  }

  /** A frame that is written makes the serve loop panic only as a handler's panic reset for a closed stream. */
  lemma PanicIff(t: Table, w: Write, pending: set<nat>, closing: set<nat>)
    requires Inv(t, pending, closing) && t.panicked.None?
    ensures InLoop(t, w).panicked.Some? <==> w.PanicReset? && w.id in t.streams && t.streams[w.id].phase == Closed
  {
    if !w.Other? {
      ObjectAt(t, w.id, pending, closing);
      hide Inv, Drop, CloseEntry;
      if Closes(t, w) { CloseEntryIs(t, w.id); }
    }
  }

  /** The frame that a choice would start. */
  function Chosen(t: Table, c: Choice): Write {
    match c
    case Queued(i, _) => if MayPop(t, i) then t.queue[i] else Other
    case Piece(i, _) => if MayPop(t, i) && (t.queue[i].Ends? || t.queue[i].Plain?) then Plain(t.queue[i].id) else Other
    case Own(_) => Other
  }

  /**
   The panic for a frame that must not be sent: it happens if and only if the frame's stream is just
   being closed, or its response has ended and the frame is one more of the response.
   */
  lemma DeadIff(t: Table, c: Choice, pending: set<nat>, closing: set<nat>)
    requires Inv(t, pending, closing) && t.panicked.None? && t.inflight.None?
    ensures var w := Chosen(t, c);
      Pick(t, c).panicked == Some(DeadStream) <==>
        !w.Reset? && !w.Other? && w.id in t.streams
        && ((w.id in closing && w.id !in t.live) || (t.streams[w.id].phase == HalfLocal && (w.Ends? || w.Plain? || w.Promise?)))
  {
    var w := Chosen(t, c);
    if !w.Other? {
      QueuedOk(t, c.i, pending, closing);
      ObjectAt(t, w.id, pending, closing);
      hide Inv, InLoop, AllocatePromised;
      InLoopPanics(t, w);
      if c.Queued? {
        var u := Unqueued(t, c.i);
        InLoopPanics(u, w);
        AllocatePanics(u);
        InLoopPanics(AllocatePromised(u), w);
      }
    } else {
      InLoopPanics(t, w);
    }
  }

  lemma InLoopPanics(t: Table, w: Write)
    requires t.panicked != Some(DeadStream)
    ensures InLoop(t, w).panicked != Some(DeadStream)
  {
    hide Drop, CloseEntry;
    if Closes(t, w) { CloseEntryIs(t, w.id); }
  }

  lemma AllocatePanics(t: Table)
    requires t.panicked != Some(DeadStream)
    ensures AllocatePromised(t).panicked != Some(DeadStream)
  {
    hide Wrapped;
  }

  // ---------------------------------------------------------------- closed is final

  /** Streams that are gone stay gone, and the advertised limit stays. */
  ghost predicate Forward(t: Table, u: Table) {
    && t.maxClient <= u.maxClient && t.maxPush <= u.maxPush && u.advMax == t.advMax
    && forall id: nat :: Used(t, id) && id !in t.live ==> id !in u.live
  }

  lemma ForwardTrans(t: Table, u: Table, v: Table)
    requires Forward(t, u) && Forward(u, v)
    ensures Forward(t, v)
  {
    forall id: nat | Used(t, id) && id !in t.live ensures id !in v.live { assert Used(u, id); }
  }

  lemma Shrinks(t: Table, u: Table)
    requires u.maxClient == t.maxClient && u.maxPush == t.maxPush && u.live <= t.live && u.advMax == t.advMax
    ensures Forward(t, u)
  {
  }

  lemma OpensForward(t: Table, u: Table, id: nat)
    requires !Used(t, id) && u.live <= t.live + {id} && t.maxClient <= u.maxClient && t.maxPush <= u.maxPush && u.advMax == t.advMax
    ensures Forward(t, u)
  {
  }

  lemma InLoopForward(t: Table, w: Write)
    ensures Forward(t, InLoop(t, w))
  {
    hide Forward, CloseEntry, Drop;
    if !EndsOpen(t, w) && Closes(t, w) { CloseEntryIs(t, w.id); }
    Shrinks(t, InLoop(t, w));
  }

  lemma AllocateForward(t: Table, pending: set<nat>, closing: set<nat>)
    requires Inv(t, pending, closing)
    ensures Forward(t, AllocatePromised(t))
  {
    NextPromise(t);
    hide Forward, Inv, Wrapped;
    OpensForward(t, AllocatePromised(t), t.maxPush + 2);
  }

  lemma StartForward(t: Table, w: Write, sync: bool, pending: set<nat>, closing: set<nat>)
    requires Inv(t, pending, closing)
    ensures Forward(t, StartWrite(t, w, sync))
  {
    hide Forward, Inv, InLoop, AllocatePromised;
    var t1 := if w.Promise? then AllocatePromised(t) else t;
    Shrinks(t, t);
    AllocateForward(t, pending, closing);
    InLoopForward(t1, w);
    ForwardTrans(t, t1, InLoop(t1, w));
    Shrinks(t1, t1.(inflight := Some(w)));
    ForwardTrans(t, t1, t1.(inflight := Some(w)));
    Shrinks(t, t.(panicked := Some(DeadStream)));
  }

  lemma PickForward(t: Table, c: Choice, pending: set<nat>, closing: set<nat>)
    requires Inv(t, pending, closing)
    ensures Forward(t, Pick(t, c))
  {
    hide Forward, Inv, StartWrite, Unqueued;
    Shrinks(t, t);
    if t.panicked.None? && t.inflight.None? {
      match c
      case Own(sync) => StartForward(t, Other, sync, pending, closing);
      case Queued(i, sync) =>
        if i < |t.queue| {
          var u := Unqueued(t, i);
          UnqueueKeeps(t, i, pending, closing);
          UnqueuedIs(t, i);
          Shrinks(t, u);
          StartForward(u, t.queue[i], sync, pending, closing);
          ForwardTrans(t, u, StartWrite(u, t.queue[i], sync));
        }
      case Piece(i, sync) =>
        if i < |t.queue| && (t.queue[i].Ends? || t.queue[i].Plain?) { StartForward(t, Plain(t.queue[i].id), sync, pending, closing); }
    }
  }

  lemma {:induction false} CascadeForward(t: Table, cs: seq<Choice>, pending: set<nat>, closing: set<nat>)
    requires Inv(t, pending, closing)
    ensures Forward(t, Cascade(t, cs))
  {
    hide Forward, Inv, Pick;
    if cs == [] {
      Shrinks(t, t);
    } else {
      var u := Cascade(t, cs[..|cs| - 1]);
      CascadeForward(t, cs[..|cs| - 1], pending, closing);
      CascadeKeeps(t, cs[..|cs| - 1], pending, closing);
      PickForward(u, cs[|cs| - 1], pending, closing);
      ForwardTrans(t, u, Pick(u, cs[|cs| - 1]));
    }
  }

  lemma ThenCascade(t: Table, u: Table, cs: seq<Choice>, pending: set<nat>, closing: set<nat>)
    requires Forward(t, u) && Inv(u, pending, closing)
    ensures Forward(t, Cascade(u, cs))
  {
    hide Forward, Inv, Cascade;
    CascadeForward(u, cs, pending, closing);
    ForwardTrans(t, u, Cascade(u, cs));
  }

  lemma ResetForward(t: Table, id: nat, during: seq<Choice>, pending: set<nat>)
    requires Inv(t, pending, {})
    ensures Forward(t, ResetStream(t, id, during))
  {
    hide Forward, Inv, Cascade;
    var u := Push(t, Reset(id));
    PushKeeps(t, Reset(id), pending, {});
    Shrinks(t, u);
    ThenCascade(t, u, during, pending, {});
    Shrinks(Cascade(u, during), ResetStream(t, id, during));
    ForwardTrans(t, Cascade(u, during), ResetStream(t, id, during));
  }

  lemma CloseForward(t: Table, id: nat, during: seq<Choice>)
    requires Inv(t, {}, {}) && t.panicked.None? && InTableOrClosed(t, id)
    ensures Forward(t, CloseStream(t, id, during))
  {
    hide Forward, Inv, Cascade, CloseEntry, Drop;
    var u := CloseEntry(t, id);
    CloseEntryIs(t, id);
    CloseEntryKeeps(t, id, {}, {});
    Shrinks(t, u);
    ThenCascade(t, u, during, {}, {} + {id});
    Shrinks(Cascade(u, during), CloseStream(t, id, during));
    ForwardTrans(t, Cascade(u, during), CloseStream(t, id, during));
  }

  lemma WroteForward(t: Table, w: Write, during: seq<Choice>, after: seq<Choice>)
    requires Inv(t, {}, {}) && t.panicked.None? && FlightOk(t, w)
    ensures Forward(t, WroteFrame(t, w, during, after))
  {
    hide Forward, Inv, Cascade, ResetStream, CloseStream;
    CascadeForward(t, after, {}, {});
    if EndsOpen(t, w) {
      var u := HalfClose(t, w.id);
      HalfCloseKeeps(t, w.id, {}, {});
      Shrinks(t, u);
      ResetForward(u, w.id, during, {} + {w.id});
      ResetStreamKeeps(u, w.id, during, {} + {w.id});
      ForwardTrans(t, u, ResetStream(u, w.id, during));
      ThenCascade(t, ResetStream(u, w.id, during), after, {}, {});
    } else if Closes(t, w) {
      if w.Reset? { ObjectAt(t, w.id, {}, {}); }
      CloseForward(t, w.id, during);
      CloseStreamKeeps(t, w.id, during);
      ThenCascade(t, CloseStream(t, w.id, during), after, {}, {});
    }
  }

  lemma HeadersForward(t: Table, f: Frame)
    requires f.Headers? && Inv(t, {}, {}) && t.panicked.None?
    ensures Forward(t, ProcessHeaders(t, f).0)
  {
    hide Forward, Inv, Wrapped;
    var u := ProcessHeaders(t, f).0;
    ObjectAt(t, f.id, {}, {});
    if t.goAway.None? && f.id % 2 == 1 && f.id !in t.live && f.id > t.maxClient {
      OpensForward(t, u, f.id);
    } else {
      Shrinks(t, u);
    }
  }

  lemma RefundForward(t: Table, v: Table, id: nat, during: seq<Choice>, more: seq<Choice>)
    requires Forward(t, v) && Inv(v, {}, {})
    ensures Forward(t, Cascade(Push(Cascade(v, during), Update(id)), more))
  {
    hide Forward, Inv, Cascade;
    var u := Cascade(v, during);
    ThenCascade(t, v, during, {}, {});
    CascadeKeeps(v, during, {}, {});
    PushForward(u, Update(id), more);
    ForwardTrans(t, u, Cascade(Push(u, Update(id)), more));
  }

  lemma AcceptForward(t: Table, f: Frame, during: seq<Choice>, more: seq<Choice>)
    requires f.Data? && Accepts(t, f) && Inv(t, {}, {}) && t.panicked.None?
    ensures Forward(t, AcceptData(t, f, during, more))
  {
    hide Forward, Inv, Cascade;
    var s := t.streams[f.id].(got := t.streams[f.id].got + f.size);
    GotKeeps(t, f, s);
    var v := Put(t, f.id, s);
    Shrinks(t, v);
    RefundForward(t, v, f.id, during, more);
    var w := if f.pad > 0 then Cascade(Push(Cascade(v, during), Update(f.id)), more) else v;
    Shrinks(w, AcceptData(t, f, during, more));
    ForwardTrans(t, w, AcceptData(t, f, during, more));
  }

  lemma DataForward(t: Table, f: Frame, during: seq<Choice>, more: seq<Choice>)
    requires f.Data? && Inv(t, {}, {}) && t.panicked.None?
    ensures Forward(t, ProcessData(t, f, during, more).0)
  {
    hide Forward, Inv, Cascade, AcceptData;
    CascadeForward(t, during, {}, {});
    ObjectAt(t, f.id, {}, {});
    Shrinks(t, t);
    if f.id in t.live && Accepts(t, f) { AcceptForward(t, f, during, more); }
  }

  lemma FrameForward(t: Table, f: Frame, during: seq<Choice>, more: seq<Choice>)
    requires Inv(t, {}, {}) && t.panicked.None?
    ensures Forward(t, ProcessFrame(t, f, during, more).0)
  {
    hide Forward, Inv, Cascade, ProcessData, ProcessHeaders, CloseStream;
    Shrinks(t, t);
    CascadeForward(t, during, {}, {});
    match f
    case Headers(_, _, _, _, _, _, _) => HeadersForward(t, f);
    case Data(_, _, _, _, _, _, _) => DataForward(t, f, during, more);
    case RstStream(id) =>
      ObjectAt(t, id, {}, {});
      if id in t.live { CloseForward(t, id, during); }
    case Settings(push, max, bad) =>
      var t1 := WithSettings(t, push, max);
      ConfigKeeps(t, t1, {}, {});
      Shrinks(t, t1);
      ThenCascade(t, t1, during, {}, {});
    case GoAway =>
      var t1 := GoAwayWith(t, 0);
      ConfigKeeps(t, t1, {}, {});
      Shrinks(t, t1);
      ThenCascade(t, t1, during, {}, {});
      var t2 := Cascade(t1, during);
      Shrinks(t2, t2.(pushEnabled := false));
      ForwardTrans(t, t2, t2.(pushEnabled := false));
    case _ =>
  }

  lemma AnswerForward(t: Table, out: Outcome, after: seq<Choice>, pending: set<nat>)
    requires Inv(t, pending, {})
    ensures Forward(t, Answer(t, out, after))
  {
    hide Forward, Inv, Cascade, ResetStream;
    Shrinks(t, t);
    match out
    case Fine =>
    case StreamErr(id) => ResetForward(t, id, after, pending);
    case ConnErr(code) => ConfigForward(t, GoAwayWith(t, code), after, pending);
  }

  lemma ConfigForward(t: Table, u: Table, after: seq<Choice>, pending: set<nat>)
    requires Inv(t, pending, {}) && u == t.(goAway := u.goAway)
    ensures Forward(t, Cascade(u, after))
  {
    hide Forward, Inv, Cascade;
    ConfigKeeps(t, u, pending, {});
    Shrinks(t, u);
    ThenCascade(t, u, after, pending, {});
  }

  lemma PushForward(t: Table, w: Write, after: seq<Choice>)
    requires Inv(t, {}, {})
    ensures Forward(t, Cascade(Push(t, w), after))
  {
    hide Forward, Inv, Cascade;
    PushKeeps(t, w, {}, {});
    Shrinks(t, Push(t, w));
    ThenCascade(t, Push(t, w), after, {}, {});
  }

  lemma StepForward(t: Table, e: Event)
    requires Inv(t, {}, {}) && Possible(e)
    ensures Forward(t, Step(t, e))
  {
    hide Forward, Inv, Cascade, ProcessFrame, Answer, WroteFrame, CloseStream, Push;
    Shrinks(t, t);
    if t.panicked.None? {
      match e
      case Received(f, during, more, after) =>
        var (u, out) := ProcessFrame(t, f, during, more);
        var pending := FrameKeeps(t, f, during, more);
        FrameForward(t, f, during, more);
        AnswerForward(u, out, after, pending);
        ForwardTrans(t, u, Answer(u, out, after));
      case ReadFailed(out, after) => AnswerForward(t, out, after, {});
      case Finished(during, after) =>
        if t.inflight.Some? {
          var u := t.(inflight := None);
          LandKeeps(t);
          Shrinks(t, u);
          WroteForward(u, t.inflight.value, during, after);
          ForwardTrans(t, u, WroteFrame(u, t.inflight.value, during, after));
        }
      case HandlerWrites(w, after) => PushForward(t, w, after);
      case StartPush(parent, after) => PushForward(t, Promise(parent), after);
      case BodyRead(id, during, after) =>
        CascadeForward(t, during, {}, {});
        RefundForward(t, t, id, during, after);
      case Shutdown(after) => ConfigForward(t, GoAwayWith(t, 0), after, {});
      case Wakes(after) => CascadeForward(t, after, {}, {});
      case Disconnected(id, during) =>
        ObjectAt(t, id, {}, {});
        if id in t.live { CloseForward(t, id, during); }
    }
  }

  /** Section 5.1 of RFC 7540: a closed stream stays closed, whatever happens afterwards. */
  lemma {:induction false} ClosedIsFinal(advMax: nat, keepAlive: bool, es: seq<Event>, more: seq<Event>)
    requires AllPossible(es + more)
    ensures Forward(Run(advMax, keepAlive, es), Run(advMax, keepAlive, es + more))
    ensures Run(advMax, keepAlive, es).panicked.Some? ==> Run(advMax, keepAlive, es + more) == Run(advMax, keepAlive, es)
    ensures forall id: nat :: id != 0 && State(Run(advMax, keepAlive, es), id) == Gone ==> State(Run(advMax, keepAlive, es + more), id) == Gone
    decreases |more|
  {
    hide Step, Inv, Forward;
    var s := Run(advMax, keepAlive, es);
    if more == [] {
      assert es + more == es;
      Shrinks(s, s);
    } else {
      var last := |more| - 1;
      var all := es + more;
      assert all[..|all| - 1] == es + more[..last];
      var t := Run(advMax, keepAlive, es + more[..last]);
      ClosedIsFinal(advMax, keepAlive, es, more[..last]);
      RunInv(advMax, keepAlive, es + more[..last]);
      assert all[|all| - 1] in all;
      StepForward(t, all[|all| - 1]);
      ForwardTrans(s, t, Run(advMax, keepAlive, all));
      PanicStays(t, all[|all| - 1]);
    }
    assert AllPossible(es) by { assert forall e <- es :: e in es + more; }
    RunInv(advMax, keepAlive, es);
    if s.panicked.None? { GoneStays(s, Run(advMax, keepAlive, es + more)); }
  }

  lemma PanicStays(t: Table, e: Event)
    ensures t.panicked.Some? ==> Step(t, e) == t
  {
  }

  lemma GoneStays(t: Table, u: Table)
    requires Forward(t, u) && Inv(t, {}, {}) && t.panicked.None?
    ensures forall id: nat :: id != 0 && State(t, id) == Gone ==> State(u, id) == Gone
  {
    forall id: nat | id != 0 && State(t, id) == Gone ensures State(u, id) == Gone {
      assert Used(t, id);
      if id in t.live { LiveUsed(t, id); }
    }
  }

  /** The limit that the counter is held to is the one the connection started with. */
  lemma WithinAdvertised(advMax: nat, keepAlive: bool, es: seq<Event>)
    requires AllPossible(es)
    ensures var t := Run(advMax, keepAlive, es); t.panicked.None? ==> t.curClient == |Odds(t.live)| <= advMax && t.curPushed == |Evens(t.live)|
  {
    RunInv(advMax, keepAlive, es);
    ClosedIsFinal(advMax, keepAlive, [], es);
    assert [] + es == es;
    assert Run(advMax, keepAlive, []) == Init(advMax, keepAlive);
    hide Run, Ids, Objects, Sent, Odds, Evens;
  }

  lemma NoChoice(t: Table)
    ensures Cascade(t, []) == t
  {
  }
}
