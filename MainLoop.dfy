/** The free-function variant: the same dispatch loop written as functions
    over the queues and a `tag_to_client` dictionary the caller passes in,
    which they update in place. */
module MainLoop {
  import opened Messages
  import opened Queues
  import opened ServerLink
  import opened Routing
  import Dispatch

  /** The `tag_to_client` dictionary, shared by reference between the two
      handlers. */
  class TagTable {
    var entries: Table

    constructor ()
      ensures entries == map[]
    {
      entries := map[];
    }
  }

  /** The queues and the dictionary, seen as one dispatch state. */
  ghost function World(sQin: Queue, sQout: Queue, acQin: seq<Queue>, acQout: seq<Queue>,
                       table: Table): Dispatch.State
    reads sQin, sQout, acQin, acQout
  {
    Dispatch.State(Contents(acQout), sQin.items, sQout.items, Contents(acQin), table)
  }

  /** What request forwarding reads and writes. */
  ghost function Sending(acQout: seq<Queue>, sQin: Queue, tagToClient: TagTable): Outbound
    reads acQout, sQin, tagToClient
  {
    Outbound(Contents(acQout), sQin.items, tagToClient.entries)
  }

  /** One pass over the clients in index order: each waiting client's first
      request is stamped with tags[i], sent to the server and recorded in
      the dictionary. */
  method HandleClientRequests(acQout: seq<Queue>, sQin: Queue, tagToClient: TagTable,
                              tags: seq<int>)
    requires Distinct(acQout) && sQin !in acQout && TagsFit(tags, |acQout|)
    modifies acQout, sQin, tagToClient
    ensures Sending(acQout, sQin, tagToClient)
         == Forward(old(Sending(acQout, sQin, tagToClient)), tags, |acQout|)
  {
    ghost var start := Sending(acQout, sQin, tagToClient);
    ghost var o := start;
    for i := 0 to |acQout|
      invariant o == Forward(start, tags, i) && |o.clientOut| == |acQout|
      invariant Sending(acQout, sQin, tagToClient) == o
    {
      ForwardClient(acQout, i, sQin, tagToClient, tags[i]);
      o := ForwardOne(o, tags[i], i);
    }
  }

  /** The loop body for client i: if its queue is not empty, take one
      request, send it to the server stamped with `tag`, record tag -> i. */
  method ForwardClient(acQout: seq<Queue>, i: nat, sQin: Queue, tagToClient: TagTable, tag: int)
    requires Distinct(acQout) && sQin !in acQout && i < |acQout| && ValidTag(tag)
    modifies acQout[i], sQin, tagToClient
    ensures Sending(acQout, sQin, tagToClient)
         == ForwardOne(old(Sending(acQout, sQin, tagToClient)), tag, i)
  {
    ghost var o := ForwardOne(Sending(acQout, sQin, tagToClient), tag, i);
    var client := acQout[i];
    var empty := client.Empty();
    if !empty {
      ghost var before, sent := Contents(acQout), sQin.items;
      var message := client.Get();
      OneQueueChanged(acQout, before, i);
      var t := ServerEnqueue(sQin, message, tag);
      tagToClient.entries := tagToClient.entries[t := i];
      assert Contents(acQout) == before[i := before[i][1..]] == o.clientOut;
      assert sQin.items == sent + [Stamp(before[i][0], tag)] == o.serverIn;
    }
  }

  /** At most one server response: a known tag's entry is popped and the
      untagged response goes to that client; an unknown one is dropped. */
  method HandleServerResponses(sQout: Queue, acQin: seq<Queue>, tagToClient: TagTable)
    requires Distinct(acQin) && sQout !in acQin && Targets(tagToClient.entries, |acQin|)
    modifies sQout, acQin, tagToClient
    ensures Inbound(sQout.items, Contents(acQin), tagToClient.entries)
         == Route(old(Inbound(sQout.items, Contents(acQin), tagToClient.entries)))
  {
    ghost var x := Inbound(sQout.items, Contents(acQin), tagToClient.entries);
    var empty := sQout.Empty();
    if !empty {
      var serverResponse, tag := ServerDequeue(sQout);
      if tag.Num? && tag.n in tagToClient.entries {
        var clientIdx := tagToClient.entries[tag.n];
        tagToClient.entries := tagToClient.entries - {tag.n};
        acQin[clientIdx].Put(serverResponse);
        OneQueueChanged(acQin, x.clientIn, clientIdx);
        assert Contents(acQin) == Route(x).clientIn;
      }
    }
  }

  /** One iteration of the `while True` loop of `main_loop`. */
  method Iteration(sQin: Queue, sQout: Queue, acQin: seq<Queue>, acQout: seq<Queue>,
                   tagToClient: TagTable, tags: seq<int>)
    requires Wired(sQin, sQout, acQin, acQout) && |acQin| == |acQout|
    requires Dispatch.Consistent(World(sQin, sQout, acQin, acQout, tagToClient.entries))
    requires TagsFit(tags, |acQout|)
    modifies sQin, sQout, acQin, acQout, tagToClient
    ensures World(sQin, sQout, acQin, acQout, tagToClient.entries)
         == Dispatch.Step(old(World(sQin, sQout, acQin, acQout, tagToClient.entries)), tags)
  {
    ghost var s := World(sQin, sQout, acQin, acQout, tagToClient.entries);
    ghost var inbox := Contents(acQin);
    HandleClientRequests(acQout, sQin, tagToClient, tags);
    assert Contents(acQin) == inbox;
    ForwardCoherent(Dispatch.Outgoing(s), tags, |acQout|);
    ghost var outbox := Contents(acQout);
    HandleServerResponses(sQout, acQin, tagToClient);
    assert Contents(acQout) == outbox;
  }

  /** The first |tss| iterations of `main_loop`, starting from an empty
      dictionary; iteration k forwards with the tags tss[k]. */
  method Loop(sQin: Queue, sQout: Queue, acQin: seq<Queue>, acQout: seq<Queue>,
              tss: seq<seq<int>>) returns (tagToClient: TagTable)
    requires Wired(sQin, sQout, acQin, acQout) && |acQin| == |acQout|
    requires Dispatch.RunFits(tss, |acQout|)
    modifies sQin, sQout, acQin, acQout
    ensures fresh(tagToClient)
    ensures World(sQin, sQout, acQin, acQout, tagToClient.entries)
         == Dispatch.Steps(old(World(sQin, sQout, acQin, acQout, map[])), tss)
  {
    ghost var s0 := World(sQin, sQout, acQin, acQout, map[]);
    tagToClient := new TagTable();
    for k := 0 to |tss|
      invariant fresh(tagToClient)
      invariant World(sQin, sQout, acQin, acQout, tagToClient.entries) == Dispatch.Steps(s0, tss[..k])
    {
      Dispatch.StepsSnoc(s0, tss, k);
      Iteration(sQin, sQout, acQin, acQout, tagToClient, tss[k]);
    }
    assert tss[..|tss|] == tss;
  }
}
