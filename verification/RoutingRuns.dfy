/**
 The routing handshake of one client connection: the request loop asks for a connection per
 request over `addrCh` and `connCh`, the dial loop answers and queues a response routine on
 `callCh`, and a worker runs the routines. The two first channels are unbuffered, so a send and
 its receive are one step of both sides; `callCh` holds ten routines.

 Connection `i` is the i-th one dialled. What is read from sockets, and whether a dial works, is
 free. The plain TCP handler is the case of one request that asks for the original address.
 */
module RoutingRuns {
  import opened Basics
  import opened Strings
  import opened RoutingValue

  datatype RequestPC = Reading | Asking(addr: string) | Awaiting | Writing | Closing | Finished
  datatype DialPC = Receiving | Dialing(addr: string) | Answering(c: nat) | Adding(c: nat) | Calling(c: nat)
                  | Refusing | ClosingConn | ClosingCall | Returned
  datatype WorkerPC = Idle | Running(c: nat) | Ended

  datatype State = State(
    orig: string, inbound: bool,
    req: RequestPC, dial: DialPC, work: WorkerPC,
    addrClosed: bool, connClosed: bool, callClosed: bool, calls: seq<nat>, wg: int,
    // what happened: addresses sent, answers received, connections dialled, routines queued, started and done
    sent: seq<string>, answers: seq<Option<nat>>, dialled: seq<string>, queued: seq<nat>, started: seq<nat>, done: seq<nat>,
    panicked: bool)

  function Init(orig: string, inbound: bool): State {
    State(orig, inbound, Reading, Receiving, Idle, false, false, false, [], 0, [], [], [], [], [], [], false)
  }

  datatype Event =
    | ReadRequest(value: string, host: string)   // a request, with its routing value or ""
    | ReadNothing                                // end of input or a failed read
    | SendAddr
    | SendConn
    | SendNil
    | ConnChWasClosed                            // the request loop receives from a closed connCh
    | WroteRequest(upgrade: bool)
    | CloseAddr
    | AddrChWasClosed                            // the dial loop receives from a closed addrCh
    | Dial(ok: bool)
    | AddCall
    | SendCall
    | CloseConn
    | CloseCall
    | TakeCall
    | CallReturns
    | NoMoreCalls

  /** The address asked for: only an outbound request is rerouted. */
  function Chosen(s: State, value: string, host: string): string {
    if value == "" || s.inbound then s.orig
    else
      var r := Destination(Split(value, ','), host, s.orig);
      if r.Ok? then r.addr else s.orig
  }

  const CallCap := 10

  predicate Enabled(s: State, e: Event) {
    && !s.panicked
    && match e {
      case ReadRequest(_, _) => s.req.Reading?
      case ReadNothing => s.req.Reading?
      case SendAddr => s.req.Asking? && (s.addrClosed || s.dial.Receiving?)
      case SendConn => s.dial.Answering? && (s.connClosed || s.req.Awaiting?)
      case SendNil => s.dial.Refusing? && (s.connClosed || s.req.Awaiting?)
      case ConnChWasClosed => s.req.Awaiting? && s.connClosed
      case WroteRequest(_) => s.req.Writing?
      case CloseAddr => s.req.Closing?
      case AddrChWasClosed => s.dial.Receiving? && s.addrClosed
      case Dial(_) => s.dial.Dialing?
      case AddCall => s.dial.Adding?
      case SendCall => s.dial.Calling? && (s.callClosed || |s.calls| < CallCap)
      case CloseConn => s.dial.ClosingConn?
      case CloseCall => s.dial.ClosingCall?
      case TakeCall => s.work.Idle? && s.calls != []
      case CallReturns => s.work.Running?
      case NoMoreCalls => s.work.Idle? && s.calls == [] && s.callClosed
    }
  }

  /** What the dial loop does with a received address: the empty one stands for a closed channel. */
  function Received(addr: string): DialPC {
    if addr == "" then ClosingConn else Dialing(addr)
  }

  /** One step; sending on a closed channel, closing one twice or a negative counter panics. */
  function Step(s: State, e: Event): State
    requires Enabled(s, e)
  {
    match e
    case ReadRequest(value, host) => s.(req := Asking(Chosen(s, value, host)))
    case ReadNothing => s.(req := Closing)
    case SendAddr =>
      if s.addrClosed then s.(panicked := true)
      else s.(req := Awaiting, dial := Received(s.req.addr), sent := s.sent + [s.req.addr])
    case SendConn =>
      if s.connClosed then s.(panicked := true)
      else s.(req := Writing, dial := Adding(s.dial.c), answers := s.answers + [Some(s.dial.c)])
    case SendNil =>
      if s.connClosed then s.(panicked := true)
      else s.(req := Closing, dial := ClosingConn, answers := s.answers + [None])
    case ConnChWasClosed => s.(req := Closing, answers := s.answers + [None])
    case WroteRequest(upgrade) => s.(req := if upgrade then Closing else Reading)
    case CloseAddr => if s.addrClosed then s.(panicked := true) else s.(addrClosed := true, req := Finished)
    case AddrChWasClosed => s.(dial := Received(""))
    case Dial(ok) =>
      if ok then s.(dial := Answering(|s.dialled|), dialled := s.dialled + [s.dial.addr])
      else s.(dial := Refusing)
    case AddCall => s.(wg := s.wg + 1, dial := Calling(s.dial.c))
    case SendCall =>
      if s.callClosed then s.(panicked := true)
      else s.(calls := s.calls + [s.dial.c], queued := s.queued + [s.dial.c], dial := Receiving)
    case CloseConn => if s.connClosed then s.(panicked := true) else s.(connClosed := true, dial := ClosingCall)
    case CloseCall => if s.callClosed then s.(panicked := true) else s.(callClosed := true, dial := Returned)
    case TakeCall => s.(calls := s.calls[1..], started := s.started + [s.calls[0]], work := Running(s.calls[0]))
    case CallReturns =>
      if s.wg <= 0 then s.(panicked := true)
      else s.(wg := s.wg - 1, done := s.done + [s.work.c], work := Idle)
    case NoMoreCalls => s.(work := Ended)
  }

  /** Any interleaving; an event that cannot happen now is left out. */
  function Run(orig: string, inbound: bool, es: seq<Event>): State {
    if es == [] then Init(orig, inbound)
    else
      var s, e := Run(orig, inbound, es[..|es| - 1]), es[|es| - 1];
      if Enabled(s, e) then Step(s, e) else s
  }

  // ----------------------------------------------------------------- invariant

  predicate Counting(q: seq<nat>) { forall i :: 0 <= i < |q| ==> q[i] == i }

  predicate NoneEmpty(addrs: seq<string>) { forall a <- addrs :: a != "" }

  predicate Quitting(d: DialPC) { d.ClosingConn? || d.ClosingCall? || d.Returned? }

  predicate Busy(d: DialPC) { d.Dialing? || d.Answering? || d.Refusing? }

  /** Who waits for whom. */
  predicate Handshake(s: State) {
    && !s.panicked && s.orig != ""
    && (s.req.Asking? ==> s.req.addr != "")
    && (s.req.Awaiting? <==> Busy(s.dial))
    && (Quitting(s.dial) ==> s.req.Closing? || s.req.Finished?)
    && (s.addrClosed <==> s.req.Finished?)
    && (s.connClosed <==> s.dial.ClosingCall? || s.dial.Returned?)
    && (s.callClosed <==> s.dial.Returned?)
    && (s.work.Ended? ==> s.callClosed && s.calls == [])
  }

  /** The connections that were handed over: all dialled but the one still being offered. */
  function Handed(s: State): int { |s.dialled| - (if s.dial.Answering? then 1 else 0) }

  /** Each address gets one answer: connections for the first ones, then at most one nil. */
  predicate Answered(s: State) {
    && NoneEmpty(s.sent)
    && |s.sent| == |s.answers| + (if s.req.Awaiting? then 1 else 0)
    && 0 <= Handed(s) <= |s.answers| <= Handed(s) + 1
    && (|s.answers| > Handed(s) ==> Quitting(s.dial))
    && |s.dialled| <= |s.sent|
    && (forall i :: 0 <= i < |s.dialled| ==> s.dialled[i] == s.sent[i])
    && (forall i :: 0 <= i < |s.answers| ==> s.answers[i] == if i < Handed(s) then Some(i) else None)
    && (s.dial.Dialing? ==> s.sent != [] && s.dial.addr == s.sent[|s.sent| - 1])
    && (s.dial.Answering? ==> s.dial.c == |s.dialled| - 1)
  }

  predicate Offered(d: DialPC) { d.Adding? || d.Calling? }

  /** Routines are queued, started and done one at a time in the order of the connections. */
  predicate Calls(s: State) {
    && Counting(s.queued) && |s.queued| == Handed(s) - (if Offered(s.dial) then 1 else 0)
    && (Offered(s.dial) ==> s.dial.c == |s.dialled| - 1)
    && s.queued == s.started + s.calls && |s.calls| <= CallCap
    && s.started == s.done + (if s.work.Running? then [s.work.c] else [])
    && s.wg == |s.calls| + (if s.work.Running? then 1 else 0) + (if s.dial.Calling? then 1 else 0)
  }

  predicate Inv(s: State) { Handshake(s) && Answered(s) && Calls(s) }

  lemma HandshakeStep(s: State, e: Event)
    requires Inv(s) && Enabled(s, e)
    ensures Handshake(Step(s, e))
  {
    hide Answered, Split, Destination;
    if e.CallReturns? { assert s.wg > 0; }
  }

  lemma AnsweredStep(s: State, e: Event)
    requires Inv(s) && Enabled(s, e)
    ensures Answered(Step(s, e))
  {
    hide Calls, Chosen;
    var t := Step(s, e);
    match e
    case SendAddr => AnsweredAsk(s);
    case SendConn => AnsweredReply(s, e);
    case SendNil => AnsweredReply(s, e);
    case Dial(ok) => AnsweredDial(s, ok);
    case _ => AnsweredFrame(s, t);
  }

  /** What Answered depends on. */
  lemma AnsweredFrame(s: State, t: State)
    requires Answered(s) && t.sent == s.sent && t.answers == s.answers && t.dialled == s.dialled
    requires t.req.Awaiting? == s.req.Awaiting? && (Busy(s.dial) || Busy(t.dial) ==> t.dial == s.dial)
    requires Quitting(s.dial) ==> Quitting(t.dial)
    ensures Answered(t)
  {
  }

  /** What Calls depends on, apart from the dial loop's own queueing. */
  lemma CallsFrame(s: State, t: State)
    requires Calls(s) && t.calls == s.calls && t.queued == s.queued && t.started == s.started && t.done == s.done
    requires t.wg == s.wg && t.work.Running? == s.work.Running? && (t.work.Running? ==> t.work == s.work)
    requires Handed(t) == Handed(s) && !Offered(s.dial) && !Offered(t.dial)
    ensures Calls(t)
  {
  }

  lemma CallsTake(s: State)
    requires Inv(s) && Enabled(s, TakeCall)
    ensures Calls(Step(s, TakeCall))
  {
    hide Answered, Handshake;
    assert s.started + s.calls == s.started + [s.calls[0]] + s.calls[1..];
  }

  lemma AnsweredAsk(s: State)
    requires Inv(s) && Enabled(s, SendAddr)
    ensures Answered(Step(s, SendAddr))
  {
    hide Calls;
  }

  lemma AnsweredReply(s: State, e: Event)
    requires Inv(s) && Enabled(s, e) && (e.SendConn? || e.SendNil?)
    ensures Answered(Step(s, e))
  {
    hide Calls;
  }

  lemma AnsweredDial(s: State, ok: bool)
    requires Inv(s) && Enabled(s, Dial(ok))
    ensures Answered(Step(s, Dial(ok)))
  {
    hide Calls;
  }

  lemma CallsStep(s: State, e: Event)
    requires Inv(s) && Enabled(s, e)
    ensures Calls(Step(s, e))
  {
    hide Chosen, Answered;
    var t := Step(s, e);
    match e
    case TakeCall => CallsTake(s);
    case SendConn => CallsOffer(s);
    case AddCall =>
    case SendCall => CallsSend(s);
    case CallReturns => assert s.wg > 0;
    case _ => if !Offered(s.dial) && !e.NoMoreCalls? { CallsFrame(s, t); }
  }

  lemma CallsOffer(s: State)
    requires Inv(s) && Enabled(s, SendConn)
    ensures Calls(Step(s, SendConn))
  {
  }

  lemma CallsSend(s: State)
    requires Inv(s) && Enabled(s, SendCall)
    ensures Calls(Step(s, SendCall))
  {
    hide Answered;
    assert s.started + s.calls + [s.dial.c] == s.started + (s.calls + [s.dial.c]);
  }

  lemma {:induction false} RunInv(orig: string, inbound: bool, es: seq<Event>)
    requires orig != ""
    ensures Inv(Run(orig, inbound, es))
  {
    hide Step, Enabled, Handshake, Answered, Calls;
    if es == [] {
      InitInv(orig, inbound);
    } else {
      var s, e := Run(orig, inbound, es[..|es| - 1]), es[|es| - 1];
      RunInv(orig, inbound, es[..|es| - 1]);
      if Enabled(s, e) {
        HandshakeStep(s, e);
        AnsweredStep(s, e);
        CallsStep(s, e);
      }
    }
  }

  lemma InitInv(orig: string, inbound: bool)
    requires orig != ""
    ensures Inv(Init(orig, inbound))
  {
  }

  // ------------------------------------------------------------- what follows

  /** The i-th answer is the connection dialled for the i-th address, or nil, and then it is the last. */
  lemma AnswersMatch(orig: string, inbound: bool, es: seq<Event>, i: nat)
    requires orig != "" && i < |Run(orig, inbound, es).answers|
    ensures var s := Run(orig, inbound, es);
      && i < |s.sent| <= |s.answers| + 1
      && match s.answers[i] {
        case Some(c) => c == i < |s.dialled| && s.dialled[i] == s.sent[i]
        case None => i == |s.answers| - 1 && |s.sent| == |s.answers|
      }
  {
    hide Run;
    RunInv(orig, inbound, es);
  }

  // ------------------------------------------------- which address each request asks for

  datatype Read = Read(value: string, host: string)

  /** The requests read in a run, in order. */
  function Reads(orig: string, inbound: bool, es: seq<Event>): seq<Read> {
    if es == [] then []
    else
      var e := es[|es| - 1];
      Reads(orig, inbound, es[..|es| - 1])
      + if e.ReadRequest? && Enabled(Run(orig, inbound, es[..|es| - 1]), e) then [Read(e.value, e.host)] else []
  }

  /** How the dials of a run went, in order. */
  function Dials(orig: string, inbound: bool, es: seq<Event>): seq<bool> {
    if es == [] then []
    else
      var e := es[|es| - 1];
      Dials(orig, inbound, es[..|es| - 1])
      + if e.Dial? && Enabled(Run(orig, inbound, es[..|es| - 1]), e) then [e.ok] else []
  }

  /**
   The address of the pair that decides for the host, with port 80 if it names none. It is the original
   address on an inbound connection, without a routing value, and when no pair decides.
   */
  ghost predicate AsksFor(orig: string, inbound: bool, r: Read, addr: string) {
    var pairs := Split(r.value, ',');
    && (inbound || r.value == "" || (forall i: nat :: !Decides(pairs, r.host, i)) ==> addr == orig)
    && (!inbound && r.value != "" ==>
         forall i: nat | Decides(pairs, r.host, i) :: var a := Split(pairs[i], '=')[1]; addr == if ':' in a then a else a + ":80")
  }

  lemma ChosenIs(s: State, value: string, host: string)
    ensures AsksFor(s.orig, s.inbound, Read(value, host), Chosen(s, value, host))
  {
    DestinationIs(Split(value, ','), host, s.orig);
    hide Decides, Split, Destination;
  }

  /** Every address sent, and the one being sent, belongs to one request read. */
  ghost predicate InTurn(s: State, asked: seq<Read>) {
    && |asked| == |s.sent| + (if s.req.Asking? then 1 else 0)
    && (forall i :: 0 <= i < |s.sent| ==> AsksFor(s.orig, s.inbound, asked[i], s.sent[i]))
    && (s.req.Asking? ==> AsksFor(s.orig, s.inbound, asked[|asked| - 1], s.req.addr))
  }

  /** Every answer tells how its dial went. */
  predicate Told(s: State, dials: seq<bool>) {
    && |dials| == |s.answers| + (if s.dial.Answering? || s.dial.Refusing? then 1 else 0)
    && (forall i :: 0 <= i < |s.answers| ==> (s.answers[i].Some? <==> dials[i]))
    && (s.dial.Answering? ==> dials[|dials| - 1]) && (s.dial.Refusing? ==> !dials[|dials| - 1])
  }

  lemma InTurnStep(s: State, e: Event, asked: seq<Read>)
    requires Handshake(s) && Enabled(s, e) && InTurn(s, asked)
    ensures InTurn(Step(s, e), asked + if e.ReadRequest? then [Read(e.value, e.host)] else [])
  {
    hide AsksFor, Chosen;
    if e.ReadRequest? { ChosenIs(s, e.value, e.host); }
  }

  lemma ToldStep(s: State, e: Event, dials: seq<bool>)
    requires Handshake(s) && Enabled(s, e) && Told(s, dials)
    ensures Told(Step(s, e), dials + if e.Dial? then [e.ok] else [])
  {
    hide Chosen;
  }

  lemma StepSame(s: State, e: Event)
    requires Enabled(s, e)
    ensures Step(s, e).orig == s.orig && Step(s, e).inbound == s.inbound
  {
    hide Chosen;
  }

  lemma InitInTurn(orig: string, inbound: bool)
    ensures InTurn(Init(orig, inbound), []) && Told(Init(orig, inbound), [])
  {
  }

  lemma {:induction false} RunInTurn(orig: string, inbound: bool, es: seq<Event>)
    requires orig != ""
    ensures var s := Run(orig, inbound, es); s.orig == orig && s.inbound == inbound
    ensures InTurn(Run(orig, inbound, es), Reads(orig, inbound, es)) && Told(Run(orig, inbound, es), Dials(orig, inbound, es))
  {
    hide Step, Enabled, InTurn, Told, Handshake, Answered, Calls;
    InitInTurn(orig, inbound);
    if es == [] { return; }
    var before, e := es[..|es| - 1], es[|es| - 1];
    var s := Run(orig, inbound, before);
    RunInTurn(orig, inbound, before);
    RunInv(orig, inbound, before);
    if Enabled(s, e) {
      StepSame(s, e);
      InTurnStep(s, e, Reads(orig, inbound, before));
      ToldStep(s, e, Dials(orig, inbound, before));
    } else {
      assert Reads(orig, inbound, es) == Reads(orig, inbound, before);
      assert Dials(orig, inbound, es) == Dials(orig, inbound, before);
    }
  }

  /**
   In every run the i-th address sent is the one the i-th request read asks for, at most one request is
   still to send its own, and the i-th answer is a connection if and only if the i-th dial went well.
   */
  lemma RequestsRouted(orig: string, inbound: bool, es: seq<Event>)
    requires orig != ""
    ensures var s, asked, dials := Run(orig, inbound, es), Reads(orig, inbound, es), Dials(orig, inbound, es);
      && |s.sent| <= |asked| <= |s.sent| + 1
      && (|asked| > |s.sent| <==> s.req.Asking?)
      && (forall i :: 0 <= i < |s.sent| ==> AsksFor(orig, inbound, asked[i], s.sent[i]))
      && |s.answers| <= |dials| <= |s.answers| + 1
      && forall i :: 0 <= i < |s.answers| ==> (s.answers[i].Some? <==> dials[i])
  {
    hide Run, Reads, Dials, AsksFor;
    RunInTurn(orig, inbound, es);
  }

  /** On an outbound connection with a printed routing table, each request goes where the table leads its host. */
  lemma TableRouted(orig: string, es: seq<Event>, routes: seq<Route>, i: nat)
    requires orig != "" && routes != [] && AllPlain(routes) && i < |Run(orig, false, es).sent|
    requires |Reads(orig, false, es)| >= |Run(orig, false, es).sent| && Reads(orig, false, es)[i].value == Join(PrintAll(routes), ',')
    ensures var host, addr := Reads(orig, false, es)[i].host, Run(orig, false, es).sent[i];
      && (forall k: nat | Leads(routes, host, k) :: var a := routes[k].addr; addr == if ':' in a then a else a + ":80")
      && ((forall r <- routes :: r.host != host || r.addr == host) ==> addr == orig)
  {
    var r, addr := Reads(orig, false, es)[i], Run(orig, false, es).sent[i];
    RequestsRouted(orig, false, es);
    hide Run, Reads;
    PrintedLookup(routes, r.host, orig);
    SplitJoin(PrintAll(routes), ',');
    LookupIs(routes, r.host, orig);
    DestinationIs(PrintAll(routes), r.host, orig);
    PrintedIsSome(routes);
    AsksIsDestination(orig, r, addr);
  }

  lemma PrintedIsSome(routes: seq<Route>)
    requires routes != [] && AllPlain(routes)
    ensures Join(PrintAll(routes), ',') != ""
  {
    assert '=' in Print(routes[0]) by { assert Join([routes[0].host, routes[0].addr], '=') == routes[0].host + ['='] + Join([routes[0].host, routes[0].addr][1..], '='); }
  }

  lemma AsksIsDestination(orig: string, r: Read, addr: string)
    requires r.value != "" && AsksFor(orig, false, r, addr)
    ensures var d := Destination(Split(r.value, ','), r.host, orig); addr == if d.Ok? then d.addr else orig
  {
    DestinationIs(Split(r.value, ','), r.host, orig);
    hide Decides, Destination, Split;
  }

  /** After a request is written the loop asked the next one, unless the protocol was upgraded; a refused dial and the end of input end it. */
  lemma LoopGoesOn(s: State, value: string, host: string)
    requires Inv(s)
    ensures s.req.Writing? ==> Enabled(Step(s, WroteRequest(false)), ReadRequest(value, host)) && Enabled(Step(s, WroteRequest(true)), CloseAddr)
    ensures s.req.Reading? ==> Enabled(Step(s, ReadNothing), CloseAddr)
    ensures s.dial.Refusing? && s.req.Awaiting? ==> Enabled(Step(s, SendNil), CloseAddr) && Enabled(Step(s, SendNil), CloseConn)
  {
    hide Answered, Calls, Chosen;
  }

  /** No panic; an empty address is received only from the closed channel, and connCh is never read closed. */
  lemma ChannelsSafe(orig: string, inbound: bool, es: seq<Event>)
    requires orig != ""
    ensures var s := Run(orig, inbound, es); !s.panicked && NoneEmpty(s.sent) && !Enabled(s, ConnChWasClosed)
  {
    hide Run;
    RunInv(orig, inbound, es);
  }

  /** The routines done are those of connections 0, 1, 2, ... and the next one is running or waits. */
  lemma ResponsesInOrder(orig: string, inbound: bool, es: seq<Event>)
    requires orig != ""
    ensures var s := Run(orig, inbound, es);
      && Counting(s.done) && (s.work.Running? ==> s.work.c == |s.done|)
      && |s.done| <= Handed(s)
      && (s.work.Ended? ==> |s.done| == Handed(s))
  {
    hide Run;
    RunInv(orig, inbound, es);
    var s := Run(orig, inbound, es);
    hide Answered, Handshake;
    forall i | 0 <= i < |s.done| ensures s.done[i] == i { assert s.queued[i] == s.done[i]; }
    if s.work.Running? { assert s.queued[|s.done|] == s.work.c; }
    HandedAll(s);
  }

  lemma HandedAll(s: State)
    requires Inv(s)
    ensures s.work.Ended? ==> |s.queued| == Handed(s) && s.calls == []
  {
  }

  predicate AllEnded(s: State) { s.req.Finished? && s.dial.Returned? && s.work.Ended? }

  /** Until all three have ended, one of them can go on: nobody is left waiting on a channel. */
  lemma NobodyStuck(orig: string, inbound: bool, es: seq<Event>) returns (e: Event)
    requires orig != "" && !AllEnded(Run(orig, inbound, es))
    ensures Enabled(Run(orig, inbound, es), e)
  {
    hide Run;
    RunInv(orig, inbound, es);
    var s := Run(orig, inbound, es);
    match s.dial
    case Dialing(_) => e := Dial(true);
    case Answering(_) => e := SendConn;
    case Adding(_) => e := AddCall;
    case Calling(_) => e := if |s.calls| < CallCap then SendCall else if s.work.Running? then CallReturns else TakeCall;
    case Refusing => e := SendNil;
    case ClosingConn => e := CloseConn;
    case ClosingCall => e := CloseCall;
    case Receiving =>
      match s.req {
        case Reading => e := ReadNothing;
        case Asking(_) => e := SendAddr;
        case Awaiting => e := ReadNothing;
        case Writing => e := WroteRequest(true);
        case Closing => e := CloseAddr;
        case Finished => e := AddrChWasClosed;
      }
    case Returned =>
      if s.req.Closing? { e := CloseAddr; }
      else if s.work.Running? { e := CallReturns; }
      else if s.calls != [] { e := TakeCall; }
      else { e := NoMoreCalls; }
  }
}
