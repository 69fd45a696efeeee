/**
 The random write scheduler over queue objects: a map of per-stream queues and a pool of
 recycled ones. Each operation is a step of the run model in SendRuns.
 */
module RandomScheduler {
  import opened Basics
  import opened FlowControl
  import opened Int32
  import opened WriteQueue
  import SendRuns

  class RandomWriteScheduler {
    var zero: Queue
    var sq: map<nat, Queue>
    var pool: seq<Queue>

    ghost function Repr(): set<object>
      reads this
    {
      {zero} + sq.Values + set q | q in pool
    }

    /** No queue serves two streams, or a stream and the pool; recycled queues are empty. */
    ghost predicate Valid()
      reads this, Repr()
    {
      && zero !in sq.Values && zero !in pool
      && (forall i, j :: i in sq && j in sq && i != j ==> sq[i] != sq[j])
      && (forall i, j :: 0 <= i < j < |pool| ==> pool[i] != pool[j])
      && (forall i, id :: 0 <= i < |pool| && id in sq ==> pool[i] != sq[id])
      && (forall i :: 0 <= i < |pool| ==> pool[i].s == [])
      && 0 !in sq
    }

    ghost function Queues(): map<nat, seq<WriteReq>>
      reads this, sq.Values
    {
      map id | id in sq :: sq[id].s
    }

    /** The state of scheduler and windows as the run model has it. */
    ghost function AsSys(sc: SendConn): SendRuns.Sys
      reads this, zero, sq.Values, sc, sc.flow, sc.flows.Values
    {
      SendRuns.Sys(sc.View(), zero.s, Queues(), [], false)
    }

    constructor ()
      ensures Valid() && zero.s == [] && sq == map[] && pool == []
      ensures fresh(Repr())
    {
      zero := new Queue();
      sq := map[];
      pool := [];
    }

    method GetQueue() returns (q: Queue)
      requires Valid()
      modifies this`pool
      ensures Valid() && q.s == []
      ensures q != zero && q !in sq.Values && q !in pool
      ensures fresh(q) || q in old(pool)
      ensures forall x :: x in pool ==> x in old(pool)
    {
      var ln := |pool|;
      if ln == 0 {
        q := new Queue();
        return;
      }
      q := pool[ln - 1];
      pool := pool[..ln - 1];
    }

    method CloseStream(streamID: nat)
      requires Valid()
      modifies this, sq.Values
      ensures Valid() && zero == old(zero) && zero.s == old(zero.s)
      ensures Queues() == old(Queues()) - {streamID}
      ensures Repr() == old(Repr())
    {
      if streamID !in sq {
        assert Queues() == old(Queues()) - {streamID};
        return;
      }
      var q := sq[streamID];
      sq := sq - {streamID};
      q.s := [];
      pool := pool + [q];
      assert forall id :: id in sq ==> sq[id] == old(sq[id]) && sq[id] != q;
      assert Queues() == old(Queues()) - {streamID};
      assert Repr() == old(Repr()) by {
        assert forall x :: x in old(sq).Values ==> x in sq.Values || x == q;
      }
    }

    /** A stream without a queue gets an empty one. */
    method AddQueue(id: nat)
      requires Valid() && id != 0 && id !in sq
      modifies this
      ensures Valid() && zero == old(zero) && sq.Keys == old(sq.Keys) + {id}
      ensures Queues() == old(Queues())[id := []]
      ensures forall x :: x in Repr() && x !in old(Repr()) ==> fresh(x)
    {
      var q := GetQueue();
      sq := sq[id := q];
    }

    /** Appends to the queue of a stream that has one. */
    method PushTo(id: nat, wr: WriteReq)
      requires Valid() && id in sq
      modifies sq.Values
      ensures Valid() && zero.s == old(zero.s)
      ensures Queues() == old(Queues())[id := old(Queues())[id] + [wr]]
    {
      sq[id].Push(wr);
    }

    method Push(wr: WriteReq)
      requires Valid()
      modifies this, Repr()
      ensures Valid() && zero == old(zero)
      ensures forall x :: x in Repr() && x !in old(Repr()) ==> fresh(x)
      ensures wr.StreamID() == 0 ==> Queues() == old(Queues()) && zero.s == old(zero.s) + [wr]
      ensures wr.StreamID() != 0 ==> zero.s == old(zero.s)
      ensures wr.StreamID() != 0 ==>
        Queues() == old(Queues())[wr.StreamID() :=
          (if wr.StreamID() in old(Queues()) then old(Queues())[wr.StreamID()] else []) + [wr]]
    {
      var id := wr.StreamID();
      if id == 0 {
        zero.Push(wr);
        return;
      }
      if id !in sq {
        AddQueue(id);
      }
      PushTo(id, wr);
    }

    /** Tries the queue of one stream. */
    method PopFrom(id: nat, sc: SendConn) returns (wr: Option<WriteReq>)
      requires Valid() && sc.Valid() && id in sq && zero.s == []
      requires SendRuns.AllReady(AsSys(sc), id)
      modifies sq.Values, sc.flow`n, sc.flows.Values`n
      ensures Valid() && sc.Valid()
      ensures wr.None? ==> AsSys(sc) == old(AsSys(sc))
      ensures wr.None? <==> SendRuns.HeldBack(old(AsSys(sc)), id)
      ensures wr.Some? ==>
        SendRuns.Pop(old(AsSys(sc)), id)
          == AsSys(sc).(log := [SendRuns.Popped(id, wr.value, old(sc.View()).maxFrame)])
    {
      ghost var was := AsSys(sc);
      assert was.queues[id] == sq[id].s;
      wr := sq[id].ConsumeFirst(sc, MAX_INT32);
      assert Queues() == was.queues[id := sq[id].s];
      if wr.None? {
        assert Queues() == was.queues;
      }
    }

    /**
     Control frames first; then the queues in any order until one can be consumed. `from` is
     the stream that was popped, and the result is that step of the run model. Nothing is
     returned only when no control frame waits and flow control holds back every stream.
     */
    method Pop(sc: SendConn) returns (wr: Option<WriteReq>, from: nat)
      requires Valid() && sc.Valid()
      requires forall id :: id in sq ==> SendRuns.AllReady(AsSys(sc), id)
      modifies zero, sq.Values, sc.flow`n, sc.flows.Values`n
      ensures Valid() && sc.Valid()
      ensures old(zero.s) != [] ==>
        wr == Some(old(zero.s)[0]) && AsSys(sc) == old(AsSys(sc)).(zero := old(zero.s)[1..])
      ensures old(zero.s) == [] && wr.Some? ==>
        SendRuns.Pop(old(AsSys(sc)), from)
          == AsSys(sc).(log := [SendRuns.Popped(from, wr.value, old(sc.View()).maxFrame)])
      ensures wr.None? <==>
        old(zero.s) == [] && forall id :: id in sq ==> SendRuns.HeldBack(old(AsSys(sc)), id)
      ensures wr.None? ==> AsSys(sc) == old(AsSys(sc))
    {
      ghost var was := AsSys(sc);
      if zero.s != [] {
        var first := zero.Shift();
        assert Queues() == was.queues;
        return Some(first), 0;
      }
      var todo := sq.Keys;
      while todo != {}
        invariant todo <= sq.Keys && Valid() && sc.Valid()
        invariant AsSys(sc) == was
        invariant forall id :: id in sq && id !in todo ==> SendRuns.HeldBack(was, id)
        decreases todo
      {
        from :| from in todo;
        todo := todo - {from};
        wr := PopFrom(from, sc);
        if wr.Some? {
          return;
        }
      }
      return None, 0;
    }
  }
}
