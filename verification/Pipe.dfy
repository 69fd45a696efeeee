/**
 pipe: a byte FIFO between a writer and a reader, closed at the end or broken at once. Every
 call holds the pipe's mutex, so any interleaving is a sequence of calls.
 */
module PipeModel {
  import opened Basics

  /** `buf` is None when the buffer is dropped; `fn` is the code to run before the close error. */
  datatype State = State(buf: Option<seq<byte>>, err: Option<nat>, brk: Option<nat>, fn: Option<nat>)

  const Init := State(Some([]), None, None, None)

  datatype Call = Write(d: seq<byte>) | Read(space: nat) | Close(e: nat, f: Option<nat>) | Break(b: nat)

  datatype Reply = Wrote(n: nat) | Refused | Got(bytes: seq<byte>) | Failed(e: nat, ran: Option<nat>) | Waiting | Done

  function Step(s: State, c: Call): (State, Reply) {
    match c
    case Write(d) =>
      if s.err.Some? then (s, Refused)
      else if s.brk.Some? then (s, Wrote(|d|))
      else if s.buf.None? then (s, Refused)
      else (s.(buf := Some(s.buf.value + d)), Wrote(|d|))
    case Read(space) =>
      if s.brk.Some? then (s, Failed(s.brk.value, None))
      else if s.buf.Some? && s.buf.value != [] then
        var n := if space < |s.buf.value| then space else |s.buf.value|;
        (s.(buf := Some(s.buf.value[n..])), Got(s.buf.value[..n]))
      else if s.err.Some? then (s.(buf := None, fn := None), Failed(s.err.value, s.fn))
      else (s, Waiting)
    case Close(e, f) =>
      if s.err.Some? then (s, Done) else (s.(err := Some(e), fn := f), Done)
    case Break(b) =>
      if s.brk.Some? then (s, Done) else (s.(brk := Some(b), fn := None, buf := None), Done)
  }

  datatype Entry = Entry(call: Call, reply: Reply)

  function Run(calls: seq<Call>): (State, seq<Entry>) {
    if calls == [] then (Init, [])
    else
      var (s, log) := Run(calls[..|calls| - 1]);
      var c := calls[|calls| - 1];
      (Step(s, c).0, log + [Entry(c, Step(s, c).1)])
  }

  // ----------------------------------------------- what the log says happened

  function FirstClose(log: seq<Entry>): Option<Call> {
    if log == [] then None
    else if FirstClose(log[..|log| - 1]).Some? then FirstClose(log[..|log| - 1])
    else if log[|log| - 1].call.Close? then Some(log[|log| - 1].call)
    else None
  }

  function FirstBreak(log: seq<Entry>): Option<Call> {
    if log == [] then None
    else if FirstBreak(log[..|log| - 1]).Some? then FirstBreak(log[..|log| - 1])
    else if log[|log| - 1].call.Break? then Some(log[|log| - 1].call)
    else None
  }

  predicate IsOpen(log: seq<Entry>) {
    FirstClose(log).None? && FirstBreak(log).None?
  }

  /** The bytes written before the pipe was closed or broken. */
  function Written(log: seq<Entry>): seq<byte> {
    if log == [] then []
    else
      var before, c := log[..|log| - 1], log[|log| - 1].call;
      if c.Write? && IsOpen(before) then Written(before) + c.d else Written(before)
  }

  /** The bytes that reads returned. */
  function Delivered(log: seq<Entry>): seq<byte> {
    if log == [] then []
    else
      var before, r := log[..|log| - 1], log[|log| - 1].reply;
      if r.Got? then Delivered(before) + r.bytes else Delivered(before)
  }

  /** How often a callback ran. */
  function Callbacks(log: seq<Entry>): nat {
    if log == [] then 0
    else
      var r := log[|log| - 1].reply;
      Callbacks(log[..|log| - 1]) + (if r.Failed? && r.ran.Some? then 1 else 0)
  }

  // ---------------------------------------------------------------- invariant

  function BufferOf(s: State): seq<byte> {
    if s.buf.Some? then s.buf.value else []
  }

  ghost predicate Inv(s: State, log: seq<Entry>) {
    && (s.err == match FirstClose(log) { case None => None case Some(c) => if c.Close? then Some(c.e) else None })
    && (s.brk == match FirstBreak(log) { case None => None case Some(c) => if c.Break? then Some(c.b) else None })
    && (FirstClose(log).Some? ==> FirstClose(log).value.Close?)
    && (FirstBreak(log).Some? ==> FirstBreak(log).value.Break?)
    && (s.brk.None? ==> Written(log) == Delivered(log) + BufferOf(s))
    && (s.brk.Some? ==> Delivered(log) <= Written(log) && s.buf.None?)
    && (s.buf.None? ==> s.err.Some? || s.brk.Some?)
    && (s.brk.None? && s.err.None? ==> s.fn.None?)
    && (s.fn.Some? ==> Callbacks(log) == 0)
    && (s.err.None? ==> Callbacks(log) == 0)
    && Callbacks(log) <= 1
    && (s.brk.None? && s.err.Some? ==> s.fn == if Callbacks(log) == 0 then FirstClose(log).value.f else None)
  }

  lemma LogStep(log: seq<Entry>, e: Entry)
    ensures (log + [e])[..|log|] == log && (log + [e])[|log|] == e
    ensures FirstClose(log + [e]) == if FirstClose(log).Some? then FirstClose(log) else if e.call.Close? then Some(e.call) else None
    ensures FirstBreak(log + [e]) == if FirstBreak(log).Some? then FirstBreak(log) else if e.call.Break? then Some(e.call) else None
    ensures Written(log + [e]) == if e.call.Write? && IsOpen(log) then Written(log) + e.call.d else Written(log)
    ensures Delivered(log + [e]) == if e.reply.Got? then Delivered(log) + e.reply.bytes else Delivered(log)
    ensures Callbacks(log + [e]) == Callbacks(log) + (if e.reply.Failed? && e.reply.ran.Some? then 1 else 0)
  {
    assert (log + [e])[..|log|] == log;
  }

  lemma StepInv(s: State, log: seq<Entry>, c: Call)
    requires Inv(s, log)
    ensures Inv(Step(s, c).0, log + [Entry(c, Step(s, c).1)])
  {
    var (t, r) := Step(s, c);
    LogStep(log, Entry(c, r));
    if c.Write? && r.Wrote? && s.brk.None? {
      assert Delivered(log) + (s.buf.value + c.d) == (Delivered(log) + s.buf.value) + c.d;
    }
    if r.Got? {
      var n := |r.bytes|;
      assert s.buf.value == s.buf.value[..n] + s.buf.value[n..];
      assert Delivered(log) + s.buf.value == Delivered(log) + r.bytes + t.buf.value;
    }
  }

  lemma {:induction false} RunInv(calls: seq<Call>)
    ensures Inv(Run(calls).0, Run(calls).1)
  {
    if calls != [] {
      RunInv(calls[..|calls| - 1]);
      var (s, log) := Run(calls[..|calls| - 1]);
      StepInv(s, log, calls[|calls| - 1]);
    }
  }

  // ---------------------------------------------------------------- theorems

  /**
   What a read returns is fixed by what happened before: the break error at once; else the
   next undelivered bytes; else, after all of them, the first close error, running that close's
   callback unless it has run; else it waits.
   */
  lemma ReadReply(calls: seq<Call>, space: nat)
    ensures var (s, log) := Run(calls);
            var r := Step(s, Read(space)).1;
            && Delivered(log) <= Written(log)
            && var left := Written(log)[|Delivered(log)|..];
            if FirstBreak(log).Some? then FirstBreak(log).value.Break? && r == Failed(FirstBreak(log).value.b, None)
            else if left != [] then r == Got(left[..if space < |left| then space else |left|])
            else if FirstClose(log).Some? then
              && FirstClose(log).value.Close?
              && r == Failed(FirstClose(log).value.e, if Callbacks(log) == 0 then FirstClose(log).value.f else None)
            else r == Waiting
  {
    RunInv(calls);
    var (s, log) := Run(calls);
    if FirstBreak(log).None? {
      assert Written(log)[|Delivered(log)|..] == BufferOf(s);
    }
  }

  /** Reads return a prefix of what was written; the callback runs at most once; the length is exact. */
  lemma ReadsArePrefix(calls: seq<Call>)
    ensures var (s, log) := Run(calls);
            && Delivered(log) <= Written(log)
            && Callbacks(log) <= 1
            && (FirstBreak(log).None? ==> |BufferOf(s)| == |Written(log)| - |Delivered(log)|)
            && (FirstBreak(log).Some? ==> BufferOf(s) == [])
  {
    RunInv(calls);
  }

  /** A write is stored while the pipe is open, refused once closed, and swallowed once broken. */
  lemma WriteReply(calls: seq<Call>, d: seq<byte>)
    ensures var (s, log) := Run(calls);
            var (t, r) := Step(s, Write(d));
            && r == (if FirstClose(log).Some? then Refused else Wrote(|d|))
            && BufferOf(t) == (if IsOpen(log) then BufferOf(s) + d else BufferOf(s))
  {
    RunInv(calls);
  }
}

/** The pipe object over a dataBuffer. */
module Pipe {
  import opened Basics
  import opened DataBuffer
  import M = PipeModel

  class Pipe {
    var b: Buffer?
    var err: Option<nat>
    var breakErr: Option<nat>
    var readFn: Option<nat>

    ghost predicate Valid()
      reads this, b, if b == null then {} else b.Repr()
    {
      (b != null ==> b.Valid()) && (b == null ==> err.Some? || breakErr.Some?)
    }

    ghost function View(): M.State
      requires Valid()
      reads this, b, if b == null then {} else b.Repr()
    {
      M.State(if b == null then None else Some(b.Contents()), err, breakErr, readFn)
    }

    constructor (b: Buffer)
      requires b.Valid() && b.Contents() == []
      ensures Valid() && View() == M.Init && this.b == b
    {
      this.b := b;
      err, breakErr, readFn := None, None, None;
    }

    method Len() returns (n: nat)
      requires Valid()
      ensures n == |M.BufferOf(View())|
    {
      if b == null {
        return 0;
      }
      n := b.Len();
    }

    /** Waiting means that the source's Read blocks until the next signal and then looks again. */
    method Read(space: nat) returns (r: M.Reply)
      requires Valid()
      modifies this, if b == null then {} else {b, b.pool}
      ensures Valid() && (View(), r) == M.Step(old(View()), M.Read(space))
    {
      hide Buffer.Valid, Buffer.Contents;
      if breakErr.Some? {
        return M.Failed(breakErr.value, None);
      }
      if b != null {
        var len := b.Len();
        if len > 0 {
          ghost var was := b.Contents();
          var d := b.Read(space);
          assert was[..|d.value|] == d.value && was[|d.value|..] == b.Contents();
          return M.Got(d.value);
        }
      }
      if err.Some? {
        var ran := readFn;
        readFn := None;
        b := null;
        return M.Failed(err.value, ran);
      }
      return M.Waiting;
    }

    method Write(d: seq<byte>) returns (r: M.Reply)
      requires Valid()
      modifies if b == null then {} else b.Repr() + b.pool.free
      ensures Valid() && (View(), r) == M.Step(old(View()), M.Write(d))
    {
      if err.Some? {
        return M.Refused;
      }
      if breakErr.Some? {
        return M.Wrote(|d|);
      }
      var n := b.Write(d);
      return M.Wrote(n);
    }

    /** CloseWithError and closeWithErrorAndCode. */
    method Close(e: nat, fn: Option<nat>)
      requires Valid()
      modifies this
      ensures Valid() && View() == M.Step(old(View()), M.Close(e, fn)).0
    {
      if err.Some? {
        return;
      }
      readFn := fn;
      err := Some(e);
    }

    /** BreakWithError. */
    method Break(e: nat)
      requires Valid()
      modifies this
      ensures Valid() && View() == M.Step(old(View()), M.Break(e)).0
    {
      if breakErr.Some? {
        return;
      }
      readFn := None;
      b := null;
      breakErr := Some(e);
    }
  }
}
