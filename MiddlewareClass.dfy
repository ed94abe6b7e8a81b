/** The class-based variant: a `Middleware` object holding the four kinds
    of queues and the correlation table it updates in place. */
module MiddlewareClass {
  import opened Messages
  import opened Queues
  import opened ServerLink
  import opened Routing
  import Dispatch

  class Middleware {
    /** Requests to the server. */
    const sQin: Queue
    /** Responses from the server. */
    const sQout: Queue
    /** Responses to client i, one queue per client. */
    const acQin: seq<Queue>
    /** Requests from client i, one queue per client. */
    const acQout: seq<Queue>
    /** `tag_to_client`: which client each in-flight tag belongs to. */
    var tagToClient: Table

    /** Separate queues, one inbound per outbound client queue, and a
        table of drawn tags that name real clients. */
    ghost predicate Valid()
      reads this
    {
      && Wired(sQin, sQout, acQin, acQout)
      && |acQin| == |acQout|
      && Coherent(tagToClient, |acQout|)
    }

    /** The contents of every queue, and the table. */
    ghost function View(): Dispatch.State
      reads this, sQin, sQout, acQin, acQout
    {
      Dispatch.State(Contents(acQout), sQin.items, sQout.items, Contents(acQin), tagToClient)
    }

    /** What request forwarding reads and writes. */
    ghost function Sending(): Outbound
      reads this, sQin, acQout
    {
      Outbound(Contents(acQout), sQin.items, tagToClient)
    }

    /** Keeps the queues it is given and starts with an empty table. */
    constructor (sQin: Queue, sQout: Queue, acQin: seq<Queue>, acQout: seq<Queue>)
      ensures this.sQin == sQin && this.sQout == sQout
      ensures this.acQin == acQin && this.acQout == acQout
      ensures tagToClient == map[]
      ensures Wired(sQin, sQout, acQin, acQout) && |acQin| == |acQout| ==> Valid()
    {
      this.sQin := sQin;
      this.sQout := sQout;
      this.acQin := acQin;
      this.acQout := acQout;
      tagToClient := map[];
    }

    /** One pass over the clients in index order: each waiting client's
        first request is stamped with tags[i], sent to the server and
        recorded in the table; nothing else changes. */
    method HandleClientRequests(tags: seq<int>)
      requires Valid() && TagsFit(tags, |acQout|)
      modifies this, sQin, acQout
      ensures Valid()
      ensures var o := Forward(old(Dispatch.Outgoing(View())), tags, |acQout|);
        View() == old(View()).(clientOut := o.clientOut, serverIn := o.serverIn, table := o.table)
    {
      ghost var s := View();
      ForwardAll(tags);
      ForwardCoherent(Dispatch.Outgoing(s), tags, |acQout|);
      assert Contents(acQin) == s.clientIn;
    }

    /** The `for` loop of `handle_client_requests`, on the outbound queues
        and the table. */
    method ForwardAll(tags: seq<int>)
      requires Distinct(acQout) && sQin !in acQout && TagsFit(tags, |acQout|)
      modifies this, sQin, acQout
      ensures Sending()
           == Forward(old(Sending()), tags, |acQout|)
    {
      ghost var start := Sending();
      ghost var o := start;
      for i := 0 to |acQout|
        invariant o == Forward(start, tags, i) && |o.clientOut| == |acQout|
        invariant Sending() == o
      {
        ForwardClient(i, tags[i]);
        o := ForwardOne(o, tags[i], i);
      }
    }

    /** The loop body for client i: if its queue is not empty, take one
        request, send it to the server stamped with `tag`, record tag -> i. */
    method ForwardClient(i: nat, tag: int)
      requires Distinct(acQout) && sQin !in acQout && i < |acQout| && ValidTag(tag)
      modifies this, sQin, acQout[i]
      ensures Sending()
           == ForwardOne(old(Sending()), tag, i)
    {
      ghost var o := ForwardOne(Sending(), tag, i);
      var client := acQout[i];
      var empty := client.Empty();
      if !empty {
        ghost var before, sent := Contents(acQout), sQin.items;
        var message := client.Get();
        OneQueueChanged(acQout, before, i);
        var t := ServerEnqueue(sQin, message, tag);
        tagToClient := tagToClient[t := i];
        assert Contents(acQout) == before[i := before[i][1..]] == o.clientOut;
        assert sQin.items == sent + [Stamp(before[i][0], tag)] == o.serverIn;
      }
    }

    /** At most one server response: a known tag's entry is popped and the
        untagged response goes to that client; an unknown one is dropped. */
    method HandleServerResponses()
      requires Valid()
      modifies this, sQout, acQin
      ensures Valid()
      ensures var x := Route(old(Inbound(sQout.items, Contents(acQin), tagToClient)));
        View() == old(View()).(serverOut := x.serverOut, clientIn := x.clientIn, table := x.table)
    {
      ghost var x := Inbound(sQout.items, Contents(acQin), tagToClient);
      var empty := sQout.Empty();
      if !empty {
        var response, tag := ServerDequeue(sQout);
        if tag.Num? && tag.n in tagToClient {
          var clientIdx := tagToClient[tag.n];
          tagToClient := tagToClient - {tag.n};
          acQin[clientIdx].Put(response);
          OneQueueChanged(acQin, x.clientIn, clientIdx);
          assert Contents(acQin) == Route(x).clientIn;
        }
      }
    }

    /** One iteration of the `while True` loop of `step`. */
    method Step(tags: seq<int>)
      requires Valid() && TagsFit(tags, |acQout|)
      modifies this, sQin, sQout, acQin, acQout
      ensures Valid()
      ensures View() == Dispatch.Step(old(View()), tags)
    {
      HandleClientRequests(tags);
      HandleServerResponses();
    }

    /** The first |tss| iterations of the `while True` loop of `step`;
        iteration k forwards with the tags tss[k]. */
    method Run(tss: seq<seq<int>>)
      requires Valid() && Dispatch.RunFits(tss, |acQout|)
      modifies this, sQin, sQout, acQin, acQout
      ensures Valid()
      ensures View() == Dispatch.Steps(old(View()), tss)
    {
      ghost var s0 := View();
      for k := 0 to |tss|
        invariant Valid()
        invariant View() == Dispatch.Steps(s0, tss[..k])
      {
        Dispatch.StepsSnoc(s0, tss, k);
        Step(tss[k]);
      }
      assert tss[..|tss|] == tss;
    }
  }
}
