/**
 What each event means for the streams, as section 5.1 of RFC 7540 and the connection's own
 documentation tell it: which streams end, which get a reset, which errors end the connection. The
 scheduler may write any frames meanwhile, and none of it depends on which.
 */
module StreamLaws {
  import opened Basics
  import opened StreamTable
  import opened StreamRuns

  // ------------------------------------------------------- what the scheduler leaves alone

  /** The connection ends with an error. */
  predicate Fails(t: Table) { t.goAway.Some? && t.goAway.value != 0 }

  /** A shutdown keeps its first reason, and none for an error begins. */
  predicate NoNewError(t: Table, u: Table) {
    (t.goAway.Some? ==> u.goAway == t.goAway) && (t.goAway.None? ==> !Fails(u))
  }

  predicate SameSettings(t: Table, u: Table) {
    && u.advMax == t.advMax && u.keepAlive == t.keepAlive && u.sawSettings == t.sawSettings
    && u.pushEnabled == t.pushEnabled && u.clientMax == t.clientMax && u.maxClient == t.maxClient
  }

  predicate Calm(t: Table, u: Table) { NoNewError(t, u) && SameSettings(t, u) }

  lemma CloseEntryCalm(t: Table, id: nat)
    requires id in t.streams
    ensures Calm(t, CloseEntry(t, id))
  {
    hide Wrapped;
  }

  lemma InLoopCalm(t: Table, w: Write)
    ensures Calm(t, InLoop(t, w))
  {
    hide CloseEntry, Drop;
    if !EndsOpen(t, w) && Closes(t, w) { CloseEntryCalm(t, w.id); }
  }

  lemma AllocateCalm(t: Table)
    ensures Calm(t, AllocatePromised(t))
  {
    hide Wrapped;
  }

  lemma StartCalm(t: Table, w: Write, sync: bool)
    ensures Calm(t, StartWrite(t, w, sync))
  {
    hide InLoop, AllocatePromised, MustNotStart;
    AllocateCalm(t);
    InLoopCalm(t, w);
    InLoopCalm(AllocatePromised(t), w);
  }

  lemma PickCalm(t: Table, c: Choice)
    ensures Calm(t, Pick(t, c))
  {
    hide StartWrite;
    match c
    case Own(sync) => StartCalm(t, Other, sync);
    case Queued(i, sync) => if i < |t.queue| { StartCalm(Unqueued(t, i), t.queue[i], sync); }
    case Piece(i, sync) => if i < |t.queue| && (t.queue[i].Ends? || t.queue[i].Plain?) { StartCalm(t, Plain(t.queue[i].id), sync); }
  }

  lemma {:induction false} CascadeCalm(t: Table, cs: seq<Choice>)
    ensures Calm(t, Cascade(t, cs))
  {
    if cs != [] {
      hide Pick;
      CascadeCalm(t, cs[..|cs| - 1]);
      PickCalm(Cascade(t, cs[..|cs| - 1]), cs[|cs| - 1]);
    }
  }

  // ------------------------------------------------------------------- resets are sent

  /** The stream's RST_STREAM waits or is in flight. */
  predicate Due(t: Table, id: nat) { Reset(id) in t.queue || t.inflight == Some(Reset(id)) }

  /** The stream leaves the table, or its reset is still due; unless it must be, it may be without one. */
  predicate Owed(t: Table, id: nat, must: bool) {
    t.panicked.Some? || id !in t.live || Due(t, id) || (!must && id in t.streams && !t.streams[id].resetQueued)
  }

  lemma CloseOwed(t: Table, x: nat, id: nat, must: bool)
    requires x in t.streams && Owed(t, id, must)
    ensures Owed(DropFrames(CloseEntry(t, x), x), id, must)
  {
    DropIs(t.queue, x, Reset(id));
    hide Drop, Wrapped;
  }

  lemma InLoopOwed(t: Table, w: Write, id: nat, must: bool)
    requires Owed(t, id, must)
    ensures Owed(InLoop(t, w), id, must)
  {
    hide CloseEntry, DropFrames;
    if !EndsOpen(t, w) && Closes(t, w) { CloseOwed(t, w.id, id, must); }
  }

  /** Once its reset is written, the stream is out of the table. */
  lemma ResetLeaves(t: Table, id: nat, pending: set<nat>, closing: set<nat>)
    requires Inv(t, pending, closing) && t.panicked.None?
    ensures id !in InLoop(t, Reset(id)).live
  {
    ObjectAt(t, id, pending, closing);
    hide Inv, CloseEntry, Drop;
    if id in t.live { CloseEntryIs(t, id); }
  }

  lemma UnqueuedHas(t: Table, i: nat, w: Write)
    requires i < |t.queue| && w in t.queue && t.queue[i] != w
    ensures w in Unqueued(t, i).queue
  {
    var k :| 0 <= k < |t.queue| && t.queue[k] == w;
    if k < i { assert t.queue[..i][k] == w; } else { assert t.queue[i + 1..][k - i - 1] == w; }
  }

  lemma AllocateOwed(t: Table, id: nat, must: bool, pending: set<nat>, closing: set<nat>)
    requires Inv(t, pending, closing) && Owed(t, id, must) && Used(t, id)
    ensures Owed(AllocatePromised(t), id, must)
  {
    NextPromise(t);
    hide Inv, Wrapped;
  }

  lemma AllocateFlight(t: Table)
    ensures AllocatePromised(t).inflight == t.inflight && AllocatePromised(t).queue == t.queue
  {
    hide Wrapped;
  }

  lemma StartOwed(t: Table, w: Write, sync: bool, id: nat, must: bool, pending: set<nat>, closing: set<nat>)
    requires Inv(t, pending, closing) && t.panicked.None? && t.inflight.None? && Used(t, id)
    requires Owed(t, id, must) || w == Reset(id)
    ensures Owed(StartWrite(t, w, sync), id, must)
  {
    hide Inv, InLoop, AllocatePromised;
    if w == Reset(id) {
      ResetLeaves(t, id, pending, closing);
    } else {
      AllocateOwed(t, id, must, pending, closing);
      InLoopOwed(t, w, id, must);
      InLoopOwed(AllocatePromised(t), w, id, must);
      if w.Promise? { AllocateFlight(t); }
    }
  }

  lemma PickOwed(t: Table, c: Choice, id: nat, must: bool, pending: set<nat>, closing: set<nat>)
    requires Inv(t, pending, closing) && Owed(t, id, must) && Used(t, id)
    ensures Owed(Pick(t, c), id, must)
  {
    hide Inv, StartWrite, Unqueued;
    if t.panicked.None? && t.inflight.None? {
      match c
      case Own(sync) => StartOwed(t, Other, sync, id, must, pending, closing);
      case Queued(i, sync) =>
        if i < |t.queue| {
          UnqueueKeeps(t, i, pending, closing);
          UnqueuedIs(t, i);
          if Reset(id) in t.queue && t.queue[i] != Reset(id) { UnqueuedHas(t, i, Reset(id)); }
          StartOwed(Unqueued(t, i), t.queue[i], sync, id, must, pending, closing);
        }
      case Piece(i, sync) =>
        if i < |t.queue| && (t.queue[i].Ends? || t.queue[i].Plain?) {
          StartOwed(t, Plain(t.queue[i].id), sync, id, must, pending, closing);
        }
    }
  }

  lemma {:induction false} CascadeOwed(t: Table, cs: seq<Choice>, id: nat, must: bool, pending: set<nat>, closing: set<nat>)
    requires Inv(t, pending, closing) && Owed(t, id, must) && Used(t, id)
    ensures Owed(Cascade(t, cs), id, must)
  {
    hide Inv, Pick, Owed;
    if cs != [] {
      var u := Cascade(t, cs[..|cs| - 1]);
      CascadeOwed(t, cs[..|cs| - 1], id, must, pending, closing);
      CascadeKeeps(t, cs[..|cs| - 1], pending, closing);
      CascadeForward(t, cs[..|cs| - 1], pending, closing);
      PickOwed(u, cs[|cs| - 1], id, must, pending, closing);
    }
  }

  /** A stream error: the stream leaves the table, or it is marked and its reset is due. */
  predicate BeingReset(t: Table, id: nat) {
    t.panicked.Some? || id !in t.live || (id in t.streams && t.streams[id].resetQueued && Due(t, id))
  }

  lemma ResetStreamResets(t: Table, id: nat, during: seq<Choice>, pending: set<nat>)
    requires Inv(t, pending, {}) && Used(t, id)
    ensures BeingReset(ResetStream(t, id, during), id)
  {
    hide Inv, Cascade;
    PushKeeps(t, Reset(id), pending, {});
    CascadeOwed(Push(t, Reset(id)), during, id, true, pending, {});
    CascadeKeeps(Push(t, Reset(id)), during, pending, {});
    var u := Cascade(Push(t, Reset(id)), during);
    if u.panicked.None? { ObjectAt(u, id, pending, {}); }
  }

  // ------------------------------------------------------------------ streams that end

  /** The stream is closed for good, none of its frames waits, and a connection without keep-alive ends with its last one. */
  predicate Ended(t: Table, u: Table, id: nat) {
    && id !in u.live && State(u, id) == Gone && Silent(u, id)
    && (t.live == {id} && !t.keepAlive ==> u.goAway.Some?)
  }

  /** No frame of the stream waits. */
  predicate Silent(t: Table, id: nat) { forall w <- t.queue :: !Concerns(w, id) }

  lemma DropSilent(t: Table, x: nat, id: nat)
    ensures Silent(t, id) || x == id ==> Silent(DropFrames(t, x), id)
  {
    forall w <- Drop(t.queue, x) ensures w in t.queue && !Concerns(w, x) { DropIs(t.queue, x, w); }
  }

  lemma InLoopSilent(t: Table, w: Write, id: nat)
    requires Silent(t, id) && !Concerns(w, id)
    ensures Silent(InLoop(t, w), id)
  {
    hide CloseEntry, DropFrames;
    if !EndsOpen(t, w) && Closes(t, w) {
      CloseEntryQueue(t, w.id);
      DropSilent(CloseEntry(t, w.id), w.id, id);
    }
  }

  lemma CloseEntryQueue(t: Table, id: nat)
    requires id in t.streams
    ensures CloseEntry(t, id).queue == t.queue
  {
    hide Wrapped;
  }

  lemma PickSilent(t: Table, c: Choice, id: nat)
    requires Silent(t, id)
    ensures Silent(Pick(t, c), id)
  {
    hide InLoop, AllocatePromised;
    if t.panicked.None? && t.inflight.None? {
      var u, w := t, Other;
      if c.Queued? && c.i < |t.queue| {
        u, w := Unqueued(t, c.i), t.queue[c.i];
        assert w in t.queue;
        assert forall x <- u.queue :: x in t.queue;
      } else if c.Piece? && c.i < |t.queue| && (t.queue[c.i].Ends? || t.queue[c.i].Plain?) {
        assert t.queue[c.i] in t.queue;
        w := Plain(t.queue[c.i].id);
      }
      AllocateFlight(u);
      InLoopSilent(u, w, id);
      InLoopSilent(AllocatePromised(u), w, id);
    }
  }

  lemma {:induction false} CascadeSilent(t: Table, cs: seq<Choice>, id: nat)
    requires Silent(t, id)
    ensures Silent(Cascade(t, cs), id)
  {
    hide Pick, Silent;
    if cs != [] {
      CascadeSilent(t, cs[..|cs| - 1], id);
      PickSilent(Cascade(t, cs[..|cs| - 1]), cs[|cs| - 1], id);
    }
  }

  /** Every other stream is as before, and no shutdown begins but for the last stream without keep-alive. */
  predicate OthersStay(t: Table, u: Table, id: nat) {
    && t.live - {id} <= u.live <= t.live && (u.goAway == t.goAway || (t.live == {id} && !t.keepAlive))
    && forall x <- t.streams :: x in u.streams && (x != id ==> u.streams[x] == t.streams[x])
  }

  lemma CloseEntryEnds(t: Table, id: nat)
    requires id in t.live && id in t.streams && t.streams[id].phase != Closed
    ensures (t.live == {id} && !t.keepAlive ==> CloseEntry(t, id).goAway.Some?) && OthersStay(t, CloseEntry(t, id), id)
  {
    hide Wrapped;
  }

  lemma CloseStreamEnds(t: Table, id: nat, during: seq<Choice>)
    requires Inv(t, {}, {}) && t.panicked.None? && id in t.live && id in t.streams
    ensures Ended(t, CloseStream(t, id, during), id)
    ensures during == [] ==> OthersStay(t, CloseStream(t, id, during), id)
  {
    ObjectAt(t, id, {}, {});
    LiveUsed(t, id);
    hide Inv, Cascade, CloseEntry, Drop;
    var u := CloseEntry(t, id);
    var v := Cascade(u, during);
    CloseEntryIs(t, id);
    CloseEntryEnds(t, id);
    CloseEntryKeeps(t, id, {}, {});
    CascadeForward(u, during, {}, {} + {id});
    assert Used(u, id);
    CascadeCalm(u, during);
    DropSilent(v, id, id);
    NoChoice(u);
  }

  lemma ThenEnded(t: Table, u: Table, id: nat, after: seq<Choice>)
    requires Inv(u, {}, {}) && Ended(t, u, id) && Used(u, id)
    ensures Ended(t, Cascade(u, after), id)
  {
    hide Inv, Cascade;
    CascadeForward(u, after, {}, {});
    CascadeCalm(u, after);
    CascadeKeeps(u, after, {}, {});
    CascadeSilent(u, after, id);
  }

  // -------------------------------------------------------- frames that break the rules

  /** No stream of its kind has had so large an id. */
  predicate Unseen(t: Table, id: nat) { id > if id % 2 == 1 then t.maxClient else t.maxPush }

  /** The client is still sending the stream's request. */
  predicate Listening(t: Table, id: nat) {
    id in t.live && id in t.streams && t.streams[id].phase == Open && !t.streams[id].resetQueued
  }

  /** Errors of the connection: sections 3.5, 5.1, 5.1.1, 6.1, 6.4, 6.5, 6.6, 6.9 and 8.1 of RFC 7540. */
  predicate BreaksConnection(t: Table, f: Frame) {
    if !t.sawSettings && !f.Settings? then true
    else match f
    case Headers(id, _, _, _, _, _, _) =>
      t.goAway.None? && (id % 2 == 0 || (id !in t.live && !Unseen(t, id)) || (Listening(t, id) && t.streams[id].gotTrailer))
    case Data(id, _, _, _, _, _, _) => !Fails(t) && (id == 0 || Unseen(t, id))
    case RstStream(id) => Unseen(t, id)
    case WindowUpdate(id, overflow) => if id == 0 then overflow else Unseen(t, id)
    case Settings(_, _, bad) => bad
    case PushPromise => true
    case _ => false
  }

  /** The bytes of the frame are the body's: the stream is open, and length, window and reader allow them. */
  predicate TakesData(t: Table, f: Frame)
    requires f.Data?
  {
    && Listening(t, f.id) && !t.streams[f.id].gotTrailer
    && (t.streams[f.id].declared == -1 || t.streams[f.id].got + f.size <= t.streams[f.id].declared)
    && (f.size + f.pad > 0 ==> f.streamQuota) && (f.size > 0 ==> !f.refused)
  }

  /** Errors of one stream. */
  ghost predicate BreaksStream(t: Table, f: Frame) {
    t.sawSettings &&
    match f
    case Headers(id, ended, selfDep, badRequest, pseudo, badTrailer, _) =>
      && t.goAway.None? && id % 2 == 1
      && if id in t.live && id in t.streams then
        && !t.streams[id].resetQueued
        && (t.streams[id].phase == HalfRemote || (!t.streams[id].gotTrailer && (!ended || pseudo || badTrailer)))
      else Unseen(t, id) && (|Odds(t.live)| >= t.advMax || selfDep || badRequest)
    case Data(id, _, _, _, _, _, _) => !Fails(t) && id != 0 && !Unseen(t, id) && !TakesData(t, f)
    case WindowUpdate(id, overflow) => id in t.live && overflow
    case Priority(_, self) => t.goAway.None? && self
    case _ => false
  }

  predicate MarkedIn(t: Table, id: nat) { id in t.streams && t.streams[id].resetQueued }

  lemma StateIs(t: Table, id: nat)
    requires Inv(t, {}, {}) && t.panicked.None?
    ensures State(t, id) == Idle <==> Unseen(t, id)
    ensures id in t.live ==> id in t.streams && id != 0
    ensures id != 0 ==> (State(t, id) == Gone <==> !Unseen(t, id) && id !in t.live)
  {
    if id in t.live { LiveUsed(t, id); }
    hide Inv;
  }

  lemma HeadersOutcome(t: Table, f: Frame)
    requires Inv(t, {}, {}) && t.panicked.None? && f.Headers? && f.id < U31 && t.sawSettings
    ensures var out := ProcessHeaders(t, f).1;
      && (out.ConnErr? <==> BreaksConnection(t, f)) && (out.ConnErr? ==> out.code == 1)
      && (out.StreamErr? <==> BreaksStream(t, f)) && (out.StreamErr? ==> out.id == f.id)
  {
    CounterSmall(t);
    CounterIs(t);
    StateIs(t, f.id);
    ObjectAt(t, f.id, {}, {});
    hide Inv, Odds, Wrapped;
  }

  lemma DataOutcome(t: Table, f: Frame, during: seq<Choice>, more: seq<Choice>)
    requires Inv(t, {}, {}) && t.panicked.None? && f.Data? && t.sawSettings
    ensures var out := ProcessData(t, f, during, more).1;
      && (out.ConnErr? <==> BreaksConnection(t, f)) && (out.ConnErr? ==> out.code == 1)
      && (out.StreamErr? ==> BreaksStream(t, f) && out.id == f.id)
      && (BreaksStream(t, f) && out.Fine? ==> ProcessData(t, f, during, more).0 == Cascade(t, during) && MarkedIn(Cascade(t, during), f.id))
  {
    StateIs(t, f.id);
    ObjectAt(t, f.id, {}, {});
    hide Inv, Cascade, AcceptData;
  }

  lemma FrameOutcome(t: Table, f: Frame, during: seq<Choice>, more: seq<Choice>)
    requires Inv(t, {}, {}) && t.panicked.None? && (f.Headers? ==> f.id < U31)
    ensures var (u, out) := ProcessFrame(t, f, during, more);
      && (out.ConnErr? <==> BreaksConnection(t, f))
      && (out.ConnErr? ==> out.code == if f.WindowUpdate? && f.id == 0 && t.sawSettings then 3 else 1)
      && (out.StreamErr? ==> BreaksStream(t, f) && !f.RstStream? && !f.Settings? && !f.GoAway? && !f.PushPromise? && !f.Ignored? && out.id == f.id)
      && (BreaksStream(t, f) && out.Fine? ==> f.Data? && u == Cascade(t, during) && MarkedIn(Cascade(t, during), f.id))
  {
    hide Inv, Cascade, ProcessData, ProcessHeaders, CloseStream;
    match f
    case Headers(_, _, _, _, _, _, _) => if t.sawSettings { HeadersOutcome(t, f); }
    case Data(_, _, _, _, _, _, _) => if t.sawSettings { DataOutcome(t, f, during, more); }
    case RstStream(id) => StateIs(t, id);
    case WindowUpdate(id, overflow) => StateIs(t, id);
    case _ =>
  }

  lemma HeadersCalm(t: Table, f: Frame)
    requires f.Headers?
    ensures ProcessHeaders(t, f).0.goAway == t.goAway
    ensures ProcessHeaders(t, f).1.ConnErr? ==> ProcessHeaders(t, f).0 == t
  {
    hide Wrapped;
  }

  lemma AcceptCalm(t: Table, f: Frame, during: seq<Choice>, more: seq<Choice>)
    requires f.Data? && f.id in t.streams
    ensures NoNewError(t, AcceptData(t, f, during, more))
  {
    var t1 := Put(t, f.id, t.streams[f.id].(got := t.streams[f.id].got + f.size));
    hide Cascade, Put;
    assert t1.goAway == t.goAway by { PutSame(t, f.id, t.streams[f.id].(got := t.streams[f.id].got + f.size)); }
    CascadeCalm(t1, during);
    CascadeCalm(Push(Cascade(t1, during), Update(f.id)), more);
    var t2 := if f.pad > 0 then Cascade(Push(Cascade(t1, during), Update(f.id)), more) else t1;
    if f.id in t2.streams { PutSame(t2, f.id, t2.streams[f.id].(phase := HalfRemote)); }
  }

  lemma PutSame(t: Table, id: nat, s: Stream)
    ensures Put(t, id, s).goAway == t.goAway
  {
  }

  lemma DataCalm(t: Table, f: Frame, during: seq<Choice>, more: seq<Choice>)
    requires f.Data?
    ensures NoNewError(t, ProcessData(t, f, during, more).0)
    ensures ProcessData(t, f, during, more).1.ConnErr? ==> ProcessData(t, f, during, more).0 == t
  {
    hide Cascade, AcceptData;
    CascadeCalm(t, during);
    if f.id in t.streams { AcceptCalm(t, f, during, more); }
  }

  lemma CloseCalm(t: Table, id: nat, during: seq<Choice>)
    requires id in t.streams
    ensures NoNewError(t, CloseStream(t, id, during))
  {
    hide Cascade, CloseEntry, Drop;
    CloseEntryCalm(t, id);
    CascadeCalm(CloseEntry(t, id), during);
  }

  lemma FrameCalm(t: Table, f: Frame, during: seq<Choice>, more: seq<Choice>)
    requires t.panicked.None?
    ensures var (u, out) := ProcessFrame(t, f, during, more);
      NoNewError(t, u) && (out.ConnErr? ==> u.panicked.None? && u.goAway == t.goAway)
  {
    hide Cascade, ProcessData, ProcessHeaders, CloseStream;
    CascadeCalm(t, during);
    match f
    case Headers(_, _, _, _, _, _, _) => HeadersCalm(t, f);
    case Data(_, _, _, _, _, _, _) => DataCalm(t, f, during, more);
    case RstStream(id) => if id in t.streams { CloseCalm(t, id, during); }
    case Settings(push, max, bad) => CascadeCalm(WithSettings(t, push, max), during);
    case GoAway => CascadeCalm(GoAwayWith(t, 0), during);
    case _ =>
  }

  lemma AnswerCalm(t: Table, out: Outcome, after: seq<Choice>)
    ensures var u := Answer(t, out, after);
      && (t.goAway.Some? ==> u.goAway == t.goAway)
      && (t.goAway.None? && !out.ConnErr? ==> !Fails(u))
      && (t.goAway.None? && out.ConnErr? && t.panicked.None? ==> u.goAway == Some(out.code))
  {
    hide Cascade;
    match out
    case Fine =>
    case StreamErr(id) => CascadeCalm(Push(t, Reset(id)), after);
    case ConnErr(code) => CascadeCalm(GoAwayWith(t, code), after);
  }

  /**
   A frame ends the connection with an error if and only if it breaks a rule of the connection; the
   code is FLOW_CONTROL_ERROR for the connection's window and PROTOCOL_ERROR otherwise. A shutdown
   that has begun keeps its code.
   */
  lemma ConnectionErrorIff(t: Table, f: Frame, during: seq<Choice>, more: seq<Choice>, after: seq<Choice>)
    requires Inv(t, {}, {}) && t.panicked.None? && (f.Headers? ==> f.id < U31)
    ensures var u := Step(t, Received(f, during, more, after));
      && (t.goAway.None? ==> (Fails(u) <==> BreaksConnection(t, f)))
      && (t.goAway.None? && Fails(u) ==> u.goAway == Some(if f.WindowUpdate? && f.id == 0 && t.sawSettings then 3 else 1))
      && (t.goAway.Some? ==> u.goAway == t.goAway)
  {
    hide Inv, ProcessFrame, Answer, BreaksConnection, BreaksStream;
    var (u, out) := ProcessFrame(t, f, during, more);
    FrameOutcome(t, f, during, more);
    FrameCalm(t, f, during, more);
    AnswerCalm(u, out, after);
  }

  // ------------------------------------------------------------- what each frame does

  lemma HeadersRefused(t: Table, f: Frame)
    requires f.Headers? && t.panicked.None? && ProcessHeaders(t, f).1.StreamErr?
    ensures var u := ProcessHeaders(t, f).0;
      && u.queue == t.queue && u.panicked.None? && t.maxPush == u.maxPush
      && (f.id !in t.live || f.id !in t.streams ==> u.maxClient == f.id && f.id % 2 == 1)
  {
    hide Wrapped;
  }

  lemma DataRefused(t: Table, f: Frame, during: seq<Choice>, more: seq<Choice>)
    requires f.Data? && ProcessData(t, f, during, more).1.StreamErr?
    ensures ProcessData(t, f, during, more).0 == t || ProcessData(t, f, during, more).0 == Cascade(t, during)
  {
    hide Cascade, AcceptData;
  }

  lemma FrameRefused(t: Table, f: Frame, during: seq<Choice>, more: seq<Choice>)
    requires Inv(t, {}, {}) && t.panicked.None? && ProcessFrame(t, f, during, more).1.StreamErr? && (f.Headers? ==> f.id < U31)
    ensures var (u, out) := ProcessFrame(t, f, during, more);
      && (during == [] ==> u.queue == t.queue && u.panicked.None?)
      && (Used(t, out.id) || f.Headers? ==> Used(u, out.id))
  {
    FrameForward(t, f, during, more);
    FrameOutcome(t, f, during, more);
    hide Inv, Cascade, ProcessData, ProcessHeaders, CloseStream, BreaksStream, BreaksConnection;
    NoChoice(t);
    match f
    case Headers(_, _, _, _, _, _, _) =>
      HeadersRefused(t, f);
      if f.id in t.live { LiveUsed(t, f.id); }
    case Data(_, _, _, _, _, _, _) => DataRefused(t, f, during, more);
    case _ =>
  }

  /**
   A stream error takes the stream out of the table or leaves its reset due; when the scheduler
   writes nothing meanwhile, the reset waits behind the other frames.
   */
  lemma StreamErrorResets(t: Table, f: Frame, during: seq<Choice>, more: seq<Choice>, after: seq<Choice>)
    requires Inv(t, {}, {}) && t.panicked.None? && (f.Headers? ==> f.id < U31)
    requires BreaksStream(t, f) && (f.Headers? || f.Data? || f.WindowUpdate? || f.Priority?)
    ensures var u := Step(t, Received(f, during, more, after));
      && (Used(t, f.id) || f.Headers? ==> StaysMarked(u, f.id) && (!MarkedIn(t, f.id) ==> BeingReset(u, f.id)))
      && (during == [] && after == [] && !MarkedIn(t, f.id) ==> u.queue == t.queue + [Reset(f.id)])
  {
    var (u, out) := ProcessFrame(t, f, during, more);
    FrameOutcome(t, f, during, more);
    BreaksOne(t, f);
    hide Inv, ProcessFrame, BreaksConnection, BreaksStream, Cascade;
    if out.StreamErr? {
      var pending := FrameKeeps(t, f, during, more);
      FrameRefused(t, f, during, more);
      if Used(u, f.id) { ResetStreamResets(u, f.id, after, pending); }
      NoChoice(Push(u, Reset(f.id)));
    } else {
      NoChoice(t);
      if Used(t, f.id) && !MarkedIn(t, f.id) && f.id in t.live {
        ObjectAt(t, f.id, {}, {});
        CascadeOwed(t, during, f.id, false, {}, {});
      } else if Used(t, f.id) && f.id !in t.live {
        CascadeForward(t, during, {}, {});
      }
    }
  }

  predicate StaysMarked(t: Table, id: nat) { t.panicked.Some? || id !in t.live || MarkedIn(t, id) }

  lemma BreaksOne(t: Table, f: Frame)
    requires Inv(t, {}, {}) && t.panicked.None?
    ensures BreaksStream(t, f) ==> !BreaksConnection(t, f)
  {
    if f.WindowUpdate? { StateIs(t, f.id); }
    hide Inv, Odds;
  }

  /** RST_STREAM ends a stream that is in the table, and does nothing to one that is gone. */
  lemma ClientResets(t: Table, id: nat, during: seq<Choice>, more: seq<Choice>, after: seq<Choice>)
    requires Inv(t, {}, {}) && t.panicked.None? && t.sawSettings
    ensures var u := Step(t, Received(RstStream(id), during, more, after));
      && (id in t.live ==> Ended(t, u, id) && (during == [] ==> OthersStay(t, u, id)))
      && (State(t, id) == Gone ==> u == t)
  {
    StateIs(t, id);
    hide Inv, CloseStream, Ended, OthersStay;
    if id in t.live { CloseStreamEnds(t, id, during); }
  }

  /** DATA that is taken is counted; with END_STREAM it leaves the stream half-closed by the client. */
  lemma DataTaken(t: Table, f: Frame, during: seq<Choice>, more: seq<Choice>, after: seq<Choice>)
    requires Inv(t, {}, {}) && t.panicked.None? && t.sawSettings && !Fails(t) && f.Data? && TakesData(t, f)
    ensures var u, s := Step(t, Received(f, during, more, after)), t.streams[f.id];
      && f.id in u.streams && u.streams[f.id] == s.(got := s.got + f.size, phase := u.streams[f.id].phase, resetQueued := u.streams[f.id].resetQueued)
      && (f.ended && u.panicked.None? ==> u.streams[f.id].phase == HalfRemote)
      && (f.pad == 0 || (during == [] && more == []) ==>
        u == t.(streams := t.streams[f.id := s.(got := s.got + f.size, phase := if f.ended then HalfRemote else Open)],
                queue := t.queue + if f.pad > 0 then [Update(f.id)] else []))
  {
    StateIs(t, f.id);
    ObjectAt(t, f.id, {}, {});
    hide Inv, AcceptData;
    AcceptIs(t, f, during, more);
    if f.pad == 0 || (during == [] && more == []) { AcceptQuiet(t, f, during, more); }
  }

  /** Padding is refunded, and the stream's body stays as it is. */
  lemma RefundKept(t: Table, id: nat, during: seq<Choice>, more: seq<Choice>)
    requires Inv(t, {}, {}) && id in t.streams
    ensures Kept(t, Cascade(Push(Cascade(t, during), Update(id)), more), id)
  {
    hide Inv, Cascade, Kept;
    var u := Cascade(t, during);
    CascadeKeeps(t, during, {}, {});
    CascadeKept(t, during, id, {}, {});
    PushKeeps(u, Update(id), {}, {});
    SameStreams(t, u, Push(u, Update(id)), id);
    CascadeKept(Push(u, Update(id)), more, id, {}, {});
    KeptTrans(t, Push(u, Update(id)), Cascade(Push(u, Update(id)), more), id);
  }

  lemma EndKept(t: Table, t2: Table, u: Table, f: Frame)
    requires f.Data? && Kept(t, t2, f.id) && t.streams[f.id].hasBody
    requires u == if t2.panicked.None? && f.ended && f.id in t2.streams then EndStream(t2, f.id) else t2
    ensures Kept(t, u, f.id) && (f.ended && u.panicked.None? ==> u.streams[f.id].phase == HalfRemote)
  {
  }

  lemma AcceptQuiet(t: Table, f: Frame, during: seq<Choice>, more: seq<Choice>)
    requires f.Data? && f.id in t.live && f.id in t.streams && t.streams[f.id].hasBody && t.streams[f.id].phase == Open && t.panicked.None?
    requires f.pad == 0 || (during == [] && more == [])
    ensures var s := t.streams[f.id];
      AcceptData(t, f, during, more) ==
        t.(streams := t.streams[f.id := s.(got := s.got + f.size, phase := if f.ended then HalfRemote else Open)],
           queue := t.queue + if f.pad > 0 then [Update(f.id)] else [])
  {
    var t1 := Put(t, f.id, t.streams[f.id].(got := t.streams[f.id].got + f.size));
    hide Cascade;
    NoChoice(t1);
    NoChoice(Push(t1, Update(f.id)));
  }

  lemma AcceptIs(t: Table, f: Frame, during: seq<Choice>, more: seq<Choice>)
    requires Inv(t, {}, {}) && t.panicked.None? && f.Data? && TakesData(t, f)
    ensures var u, s := AcceptData(t, f, during, more), t.streams[f.id];
      && f.id in u.streams && u.streams[f.id] == s.(got := s.got + f.size, phase := u.streams[f.id].phase, resetQueued := u.streams[f.id].resetQueued)
      && (f.ended && u.panicked.None? ==> u.streams[f.id].phase == HalfRemote)
  {
    ObjectAt(t, f.id, {}, {});
    var s := t.streams[f.id].(got := t.streams[f.id].got + f.size);
    GotKeeps(t, f, s);
    hide Inv, Cascade, Push, EndStream;
    var t1 := Put(t, f.id, s);
    if f.pad > 0 {
      RefundKept(t1, f.id, during, more);
      EndKept(t1, Cascade(Push(Cascade(t1, during), Update(f.id)), more), AcceptData(t, f, during, more), f);
    } else {
      EndKept(t1, t1, AcceptData(t, f, during, more), f);
    }
  }

  /** HEADERS of a good request makes its stream, open or half-closed by the client, and nothing else. */
  lemma RequestOpens(t: Table, f: Frame, during: seq<Choice>, more: seq<Choice>, after: seq<Choice>)
    requires Inv(t, {}, {}) && t.panicked.None? && t.sawSettings && t.goAway.None? && f.Headers? && f.id < U31
    requires f.id % 2 == 1 && f.id > t.maxClient && |Odds(t.live)| < t.advMax && !f.selfDep && !f.badRequest
    ensures var s := if f.ended then Stream(HalfRemote, false, false, false, 0, 0) else Stream(Open, false, false, true, f.length, 0);
      Step(t, Received(f, during, more, after)) ==
        t.(maxClient := f.id, streams := t.streams[f.id := s], live := t.live + {f.id}, history := t.history + [f.id], curClient := t.curClient + 1)
  {
    CounterSmall(t);
    CounterIs(t);
    StateIs(t, f.id);
    hide Inv, Odds, Wrapped;
  }

  /** Trailers end the request. */
  lemma TrailersEnd(t: Table, f: Frame, during: seq<Choice>, more: seq<Choice>, after: seq<Choice>)
    requires Inv(t, {}, {}) && t.panicked.None? && t.sawSettings && t.goAway.None? && f.Headers?
    requires Listening(t, f.id) && !t.streams[f.id].gotTrailer && f.ended && !f.pseudo && !f.badTrailer
    ensures Step(t, Received(f, during, more, after)) ==
      t.(streams := t.streams[f.id := t.streams[f.id].(gotTrailer := true, phase := HalfRemote)])
  {
    ObjectAt(t, f.id, {}, {});
    hide Inv;
  }

  /**
   Frames without effect: HEADERS once a shutdown has begun or for a stream being reset, DATA once the connection fails,
   WINDOW_UPDATE for a stream that is gone, and PRIORITY that is no error.
   */
  lemma Disregarded(t: Table, f: Frame, during: seq<Choice>, more: seq<Choice>, after: seq<Choice>)
    requires Inv(t, {}, {}) && t.panicked.None? && t.sawSettings
    requires match f
      case Headers(id, _, _, _, _, _, _) => t.goAway.Some? || (id % 2 == 1 && id in t.live && MarkedIn(t, id))
      case Data(_, _, _, _, _, _, _) => Fails(t)
      case WindowUpdate(id, _) => id != 0 && State(t, id) == Gone
      case Priority(_, self) => !self || t.goAway.Some?
      case Ignored => true
      case _ => false
    ensures Step(t, Received(f, during, more, after)) == t
  {
    if f.WindowUpdate? { StateIs(t, f.id); }
    hide Inv;
  }

  /** SETTINGS sets what it names and leaves the rest; GOAWAY begins a shutdown and ends pushing. */
  lemma SettingsApply(t: Table, push: Option<bool>, max: Option<nat>, bad: bool, during: seq<Choice>, more: seq<Choice>, after: seq<Choice>)
    requires t.panicked.None?
    ensures var u := Step(t, Received(Settings(push, max, bad), during, more, after));
      && u.sawSettings && u.maxClient == t.maxClient && u.advMax == t.advMax
      && u.pushEnabled == (if push.Some? then push.value else t.pushEnabled)
      && u.clientMax == (if max.Some? then max.value else t.clientMax)
    ensures t.sawSettings ==>
      var u := Step(t, Received(GoAway, during, more, after));
      u.goAway.Some? && !u.pushEnabled && u.clientMax == t.clientMax && u.maxClient == t.maxClient
  {
    hide Cascade;
    var t1 := WithSettings(t, push, max);
    CascadeCalm(t1, during);
    CascadeCalm(GoAwayWith(t1, 1), after);
    CascadeCalm(GoAwayWith(t, 0), during);
  }

  /** Larger windows and new settings let the scheduler go on. */
  lemma ThenScheduled(t: Table, id: nat, push: Option<bool>, max: Option<nat>, during: seq<Choice>, more: seq<Choice>, after: seq<Choice>)
    requires Inv(t, {}, {}) && t.panicked.None?
    ensures t.sawSettings && (id == 0 || id in t.live) ==>
      Step(t, Received(WindowUpdate(id, false), during, more, after)) == Step(t, Wakes(during))
    ensures Step(t, Received(Settings(push, max, false), during, more, after)) == Step(WithSettings(t, push, max), Wakes(during))
  {
    StateIs(t, id);
    hide Inv, Cascade;
  }

  // ------------------------------------------------------------- frames that are written

  /**
   The end of a frame in flight: a reset, and the end of a response whose request has ended, end the
   stream; an earlier end of the response leaves a reset due. Other frames have no effect, and the
   scheduler goes on.
   */
  lemma FrameWritten(t: Table, during: seq<Choice>, after: seq<Choice>)
    requires Inv(t, {}, {}) && t.panicked.None? && t.inflight.Some?
    ensures var u, w := Step(t, Finished(during, after)), t.inflight.value;
      && ((w.Reset? || w.PanicReset?) && w.id in t.live ==> Ended(t, u, w.id))
      && (w.Ends? && State(t, w.id) == At(HalfRemote) ==> Ended(t, u, w.id))
      && (w.Ends? && State(t, w.id) == At(Open) ==> BeingReset(u, w.id))
      && (w.Other? || w.Plain? || w.Update? || w.Promise? || (w.Reset? && w.id !in t.live) ==> u == Step(t.(inflight := None), Wakes(after)))
  {
    LandKeeps(t);
    var v, w := t.(inflight := None), t.inflight.value;
    if !w.Other? && w.id in t.live {
      LiveUsed(t, w.id);
      hide Inv, Cascade, CloseStream, ResetStream, Ended, Used;
      ObjectAt(t, w.id, {}, {});
      if EndsOpen(t, w) {
        EndsOpenResets(v, w.id, during, after);
      } else if Closes(t, w) {
        CloseEnds(v, w.id, during, after);
        EndedSame(t, v, Cascade(CloseStream(v, w.id, during), after), w.id);
      }
    } else {
      hide Inv, Cascade, CloseStream, ResetStream, Ended, Used;
    }
  }

  lemma EndedSame(t: Table, v: Table, u: Table, id: nat)
    requires Ended(v, u, id) && t.live == v.live && t.keepAlive == v.keepAlive
    ensures Ended(t, u, id)
  {
  }

  lemma CloseEnds(t: Table, id: nat, during: seq<Choice>, after: seq<Choice>)
    requires Inv(t, {}, {}) && t.panicked.None? && id in t.live && id in t.streams
    ensures Ended(t, Cascade(CloseStream(t, id, during), after), id)
  {
    LiveUsed(t, id);
    hide Inv, Cascade, CloseStream, Ended;
    CloseStreamEnds(t, id, during);
    CloseStreamKeeps(t, id, during);
    CloseForward(t, id, during);
    ThenEnded(t, CloseStream(t, id, during), id, after);
  }

  lemma EndsOpenResets(t: Table, id: nat, during: seq<Choice>, after: seq<Choice>)
    requires Inv(t, {}, {}) && t.panicked.None? && id in t.live && id in t.streams && t.streams[id].phase == Open
    ensures BeingReset(Cascade(ResetStream(HalfClose(t, id), id, during), after), id)
  {
    LiveUsed(t, id);
    hide Inv, Cascade, ResetStream;
    var u := HalfClose(t, id);
    HalfCloseKeeps(t, id, {}, {});
    ResetStreamResets(u, id, during, {} + {id});
    ResetStreamKeeps(u, id, during, {} + {id});
    ResetForward(u, id, during, {} + {id});
    ThenReset(ResetStream(u, id, during), id, after);
  }

  lemma ThenReset(t: Table, id: nat, after: seq<Choice>)
    requires Inv(t, {}, {}) && BeingReset(t, id) && Used(t, id)
    ensures BeingReset(Cascade(t, after), id)
  {
    hide Inv, Cascade;
    CascadeOwed(t, after, id, true, {}, {});
    if t.panicked.Some? {
      CascadePanic(t, after);
    } else if id in t.live {
      CascadeKept(t, after, id, {}, {});
    } else {
      CascadeForward(t, after, {}, {});
    }
  }

  lemma {:induction false} CascadePanic(t: Table, cs: seq<Choice>)
    requires t.panicked.Some?
    ensures Cascade(t, cs) == t
  {
    if cs != [] { CascadePanic(t, cs[..|cs| - 1]); }
  }

  // ------------------------------------------------------------------ the serve loop's own

  /** The scheduler's choices one after the other. */
  lemma WakesInTurn(t: Table, cs: seq<Choice>, c: Choice)
    requires t.panicked.None?
    ensures Step(t, Wakes([])) == t && Step(t, Wakes(cs + [c])) == Step(Step(t, Wakes(cs)), Wakes([c]))
  {
    var all := cs + [c];
    assert all[..|all| - 1] == cs;
    var u := Cascade(t, cs);
    OneChoice(u, c);
  }

  lemma OneChoice(t: Table, c: Choice)
    ensures Cascade(t, [c]) == Pick(t, c)
  {
    assert [c][..0] == [];
  }

  /** A frame that may start and is no promise. */
  predicate Startable(t: Table, w: Write) {
    !w.Promise? && !MustNotStart(t, w)
  }

  /**
   A chosen frame leaves the queue and is in flight; written at once is the same as in flight and
   then finished. Frames are held back while one is in flight and once the connection fails.
   */
  lemma ChoiceStarts(t: Table, i: nat, sync: bool)
    requires t.panicked.None?
    ensures var u := Step(t, Wakes([Queued(i, sync)]));
      if t.inflight.Some? || Fails(t) || i >= |t.queue| then u == t
      else
        var flying := t.(queue := t.queue[..i] + t.queue[i + 1..], inflight := Some(t.queue[i]));
        Startable(t, t.queue[i]) ==> u == if sync then Step(flying, Finished([], [])) else flying
  {
    hide Cascade, InLoop, WroteFrame, AllocatePromised;
    OneChoice(t, Queued(i, sync));
    if i < |t.queue| && t.inflight.None? { AtOnce(Unqueued(t, i), t.queue[i]); }
  }

  /** A piece of a frame of the response may be in flight while the frame stays; frames of no stream change nothing. */
  lemma PieceStarts(t: Table, i: nat, sync: bool)
    requires t.panicked.None?
    ensures var u := Step(t, Wakes([Piece(i, sync)]));
      if t.inflight.Some? || Fails(t) || i >= |t.queue| || !(t.queue[i].Ends? || t.queue[i].Plain?) then u == t
      else Startable(t, t.queue[i]) ==> u == if sync then t else t.(inflight := Some(Plain(t.queue[i].id)))
    ensures t.inflight.None? ==> Step(t, Wakes([Own(sync)])) == if sync then t else t.(inflight := Some(Other))
  {
    hide Cascade, AllocatePromised, HalfClose, CloseEntry;
    OneChoice(t, Piece(i, sync));
    OneChoice(t, Own(sync));
  }

  lemma AtOnce(t: Table, w: Write)
    requires t.panicked.None? && t.inflight.None?
    ensures InLoop(t, w) == Step(t.(inflight := Some(w)), Finished([], []))
  {
    hide Cascade, CloseEntry, DropFrames;
    assert t.(inflight := Some(w)).(inflight := None) == t;
    NoChoice(t);
    if EndsOpen(t, w) {
      var u := Push(HalfClose(t, w.id), Reset(w.id));
      NoChoice(u);
      NoChoice(MarkReset(u, w.id));
    } else if Closes(t, w) {
      NoChoice(CloseEntry(t, w.id));
      NoChoice(DropFrames(CloseEntry(t, w.id), w.id));
    }
  }

  predicate MayPromise(t: Table) { t.pushEnabled && |Evens(t.live)| < t.clientMax && t.maxPush + 2 < U31 }

  /** The table with one more promised stream, half-closed by the client. */
  function Promised(t: Table): Table {
    var id := t.maxPush + 2;
    t.(maxPush := id, streams := t.streams[id := Stream(HalfRemote, false, false, false, 0, 0)], live := t.live + {id},
       history := t.history + [id], curPushed := t.curPushed + 1)
  }

  lemma AllocateIs(t: Table)
    requires Inv(t, {}, {}) && t.panicked.None?
    ensures if MayPromise(t) then AllocatePromised(t) == Promised(t)
            else AllocatePromised(t) == t.(goAway := AllocatePromised(t).goAway) && (t.maxPush + 2 < U31 ==> AllocatePromised(t) == t)
  {
    NoWrap(t);
    WrappedSmall(t.curPushed + 1);
    NextPromise(t);
    hide Inv, Ids, Objects, Sent, Wrapped, Odds, Evens;
  }

  /** A promise makes its stream, half-closed by the client, and then it is in flight. */
  lemma PromiseStarts(t: Table, i: nat)
    requires Inv(t, {}, {}) && t.panicked.None? && t.inflight.None? && !Fails(t)
    requires i < |t.queue| && t.queue[i].Promise? && !MustNotStart(t, t.queue[i])
    ensures var u, rest := Step(t, Wakes([Queued(i, false)])), t.(queue := t.queue[..i] + t.queue[i + 1..]);
      if MayPromise(t) then u == Promised(rest).(inflight := Some(t.queue[i]))
      else u == rest.(goAway := u.goAway) && (t.maxPush + 2 < U31 ==> u == rest)
  {
    OneChoice(t, Queued(i, false));
    var rest := Unqueued(t, i);
    UnqueueKeeps(t, i, {}, {});
    AllocateIs(rest);
    hide Inv, Cascade, AllocatePromised, Evens, InLoop;
  }

  /** A handler's frame waits if its stream is in the table, and is dropped otherwise; then the scheduler goes on. */
  lemma HandlerQueues(t: Table, w: Write, after: seq<Choice>)
    requires Inv(t, {}, {}) && t.panicked.None?
    ensures Step(t, HandlerWrites(w, after)) ==
      Step(if w.Reset? || (!w.Other? && w.id in t.live) then t.(queue := t.queue + [w]) else t, Wakes(after))
  {
    if !w.Other? { PushIs(t, w); }
    hide Cascade, Inv;
  }

  /** A push needs a stream whose response goes on and a client that allows it. */
  lemma PushQueues(t: Table, parent: nat, after: seq<Choice>)
    requires Inv(t, {}, {}) && t.panicked.None?
    ensures var u := Step(t, StartPush(parent, after));
      if parent in t.live && t.pushEnabled && State(t, parent) != At(HalfLocal) then u == Step(t.(queue := t.queue + [Promise(parent)]), Wakes(after))
      else u == t || (parent !in t.live && u == Step(t, Wakes(after)))
  {
    PushIs(t, Promise(parent));
    ObjectAt(t, parent, {}, {});
    hide Cascade, Inv, Push;
  }

  /** What a handler has read of a body is given back to the stream's window unless the client has ended the stream. */
  lemma ReadRefunds(t: Table, id: nat, during: seq<Choice>, after: seq<Choice>)
    requires Inv(t, {}, {}) && t.panicked.None?
    ensures var u := Step(t, Wakes(during));
      var refunded := if State(u, id) == At(Open) || State(u, id) == At(HalfLocal) then Step(u.(queue := u.queue + [Update(id)]), Wakes(after)) else u;
      u.panicked.None? ==> Step(t, BodyRead(id, during, after)) == refunded
  {
    hide Cascade, Inv, Push;
    var u := Cascade(t, during);
    CascadeKeeps(t, during, {}, {});
    if u.panicked.None? {
      PushIs(u, Update(id));
      ObjectAt(u, id, {}, {});
    }
  }

  lemma PushIs(t: Table, w: Write)
    requires Inv(t, {}, {}) && t.panicked.None? && !w.Other?
    ensures Push(t, w) == if w.Reset? || w.id in t.live then t.(queue := t.queue + [w]) else t
  {
    if w.id in t.live { LiveUsed(t, w.id); }
    Unfold(t, {}, {});
    if w.id in t.streams && State(t, w.id) != Gone { UsedOrLive(t, w); }
  }

  /** Shutting down begins a shutdown without an error, and an error of the frame reader one with its code, unless one has begun. */
  lemma ShutdownBegins(t: Table, code: nat, after: seq<Choice>)
    requires t.panicked.None?
    ensures Step(t, Shutdown(after)).goAway == if t.goAway.Some? then t.goAway else Some(0)
    ensures Step(t, ReadFailed(ConnErr(code), after)).goAway == if t.goAway.Some? then t.goAway else Some(code)
  {
    hide Cascade;
    CascadeCalm(GoAwayWith(t, 0), after);
    CascadeCalm(GoAwayWith(t, code), after);
  }

  /** The end of the connection ends its streams; a frame that could not be read resets its stream. */
  lemma DisconnectEnds(t: Table, id: nat, during: seq<Choice>, after: seq<Choice>)
    requires Inv(t, {}, {}) && t.panicked.None?
    ensures var u := Step(t, Disconnected(id, during)); if id in t.live then Ended(t, u, id) else u == t
    ensures Used(t, id) ==> BeingReset(Step(t, ReadFailed(StreamErr(id), after)), id)
    ensures Step(t, ReadFailed(StreamErr(id), [])).queue == t.queue + [Reset(id)]
  {
    ObjectAt(t, id, {}, {});
    hide Inv, CloseStream, ResetStream, Ended, BeingReset;
    if id in t.live { CloseStreamEnds(t, id, during); }
    if Used(t, id) { ResetStreamResets(t, id, after, {}); }
    ResetQueues(t, id);
  }

  lemma ResetQueues(t: Table, id: nat)
    ensures ResetStream(t, id, []).queue == t.queue + [Reset(id)]
  {
    NoChoice(Push(t, Reset(id)));
  }
}
