/** The FIFO channels between the clients, the middleware and the server:
    a `queue.Queue` with the three operations the middleware uses. */
module Queues {
  import opened Messages

  class Queue {
    var items: seq<Message>

    constructor ()
      ensures items == []
    {
      items := [];
    }

    /** `q.empty()` */
    method Empty() returns (e: bool)
      ensures e <==> items == []
    {
      e := items == [];
    }

    /** `q.get()`; every caller asks `empty()` first, so it never blocks. */
    method Get() returns (m: Message)
      requires items != []
      modifies this
      ensures m == old(items)[0] && items == old(items)[1..]
    {
      m := items[0];
      items := items[1..];
    }

    /** `q.put(m)` */
    method Put(m: Message)
      modifies this
      ensures items == old(items) + [m]
    {
      items := items + [m];
    }
  }

  /** The contents of a row of queues, one sequence per queue. */
  ghost function Contents(qs: seq<Queue>): (r: seq<seq<Message>>)
    reads qs
    ensures |r| == |qs|
    ensures forall k :: 0 <= k < |qs| ==> r[k] == qs[k].items
  {
    seq(|qs|, k requires 0 <= k < |qs| reads qs => qs[k].items)
  }

  /** When only the i-th queue of a distinct row has changed, the row's
      contents differ from `before` at position i only. */
  lemma OneQueueChanged(qs: seq<Queue>, before: seq<seq<Message>>, i: nat)
    requires Distinct(qs) && i < |qs| && |before| == |qs|
    requires forall k :: 0 <= k < |qs| && k != i ==> qs[k].items == before[k]
    ensures Contents(qs) == before[i := qs[i].items]
  {
    var now := Contents(qs);
    assert forall k :: 0 <= k < |qs| ==> now[k] == before[i := qs[i].items][k];
  }

  /** No queue occurs twice in the row. */
  predicate Distinct(qs: seq<Queue>) {
    forall a, b :: 0 <= a < b < |qs| ==> qs[a] != qs[b]
  }

  /** No queue of one row occurs in the other. */
  predicate Apart(qs: seq<Queue>, ps: seq<Queue>) {
    forall a, b :: 0 <= a < |qs| && 0 <= b < |ps| ==> qs[a] != ps[b]
  }

  /** The middleware's four channels are separate queue objects, as the
      start-up code creates them: one server inbound, one server outbound,
      and an inbound and an outbound queue per client. */
  predicate Wired(sQin: Queue, sQout: Queue, acQin: seq<Queue>, acQout: seq<Queue>) {
    && sQin != sQout
    && Distinct(acQin) && Distinct(acQout) && Apart(acQin, acQout)
    && sQin !in acQin && sQin !in acQout
    && sQout !in acQin && sQout !in acQout
  }
}
