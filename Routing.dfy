/** The tag-correlation router as functions on values: what one pass of
    request forwarding and one pass of response routing do to the queue
    contents and to the correlation table. Both imperative variants
    (MiddlewareClass and MainLoop) are proved to compute exactly these. */
module Routing {
  import opened Messages

  /** The correlation table `tag_to_client`: tag -> client index. */
  type Table = map<int, nat>

  /** Every client index stored in the table names one of n clients. */
  predicate Targets(table: Table, n: nat) {
    forall t :: t in table ==> table[t] < n
  }

  /** Every key is a tag the generator can draw, every value one of n clients. */
  predicate Coherent(table: Table, n: nat) {
    Targets(table, n) && forall t :: t in table ==> ValidTag(t)
  }

  /** The tags drawn for one pass over n clients: tags[i] stands for the
      `randint` call made when client i has a message waiting. */
  predicate TagsFit(tags: seq<int>, n: nat) {
    |tags| == n && forall k :: 0 <= k < |tags| ==> ValidTag(tags[k])
  }

  // ---------------------------------------------------------------------
  // Request forwarding (handle_client_requests)
  // ---------------------------------------------------------------------

  /** What request forwarding reads and writes: the clients' outbound
      queues, the server's inbound queue and the table. */
  datatype Outbound = Outbound(clientOut: seq<seq<Message>>, serverIn: seq<Message>, table: Table)

  /** The loop body for client i: if it has a message, take it, stamp
      `tag` on it, send it to the server and record tag -> i. */
  function ForwardOne(o: Outbound, tag: int, i: nat): (r: Outbound)
    requires i < |o.clientOut|
    ensures |r.clientOut| == |o.clientOut|
    ensures o.clientOut[i] == [] ==> r == o
  {
    if o.clientOut[i] == [] then o
    else
      Outbound(o.clientOut[i := o.clientOut[i][1..]],
               o.serverIn + [Stamp(o.clientOut[i][0], tag)],
               o.table[tag := i])
  }

  /** A waiting client's request: its queue loses the head and no other
      client queue changes, the server queue gains one message that
      `server_dequeue` splits back into the request without its tag and
      `tag`, and the table maps `tag` to the client. */
  lemma ForwardOneSends(o: Outbound, tag: int, i: nat)
    requires i < |o.clientOut| && o.clientOut[i] != []
    ensures var r := ForwardOne(o, tag, i);
      && r.clientOut[i] == Drop(o.clientOut[i])
      && (forall j :: 0 <= j < |o.clientOut| && j != i ==> r.clientOut[j] == o.clientOut[j])
      && |r.serverIn| == |o.serverIn| + 1 && r.serverIn[..|o.serverIn|] == o.serverIn
      && Dequeue([r.serverIn[|o.serverIn|]]) == Received([], o.clientOut[i][0] - {TagKey}, Num(tag))
      && tag in r.table && r.table[tag] == i
      && r.table.Keys == o.table.Keys + {tag}
      && (forall t :: t in o.table && t != tag ==> r.table[t] == o.table[t])
  {
    var r := ForwardOne(o, tag, i);
    assert r.serverIn[..|o.serverIn|] == o.serverIn;
    assert Dequeue([r.serverIn[|o.serverIn|]]).msg == Stamp(o.clientOut[i][0], tag) - {TagKey};
  }

  /** The loop over clients 0 .. i-1, in index order. */
  function Forward(o: Outbound, tags: seq<int>, i: nat): (r: Outbound)
    requires i <= |o.clientOut| && |tags| == |o.clientOut|
    ensures |r.clientOut| == |o.clientOut|
    decreases i
  {
    if i == 0 then o else ForwardOne(Forward(o, tags, i - 1), tags[i - 1], i - 1)
  }

  /** Each of the clients 0 .. i-1 loses at most its first message; the
      clients from i on are untouched. */
  lemma {:induction false} ForwardDrops(o: Outbound, tags: seq<int>, i: nat)
    requires i <= |o.clientOut| && |tags| == |o.clientOut|
    ensures forall j :: 0 <= j < |o.clientOut| ==>
              Forward(o, tags, i).clientOut[j] == if j < i then Drop(o.clientOut[j]) else o.clientOut[j]
    decreases i
  {
    if i > 0 {
      ForwardDrops(o, tags, i - 1);
    }
  }

  /** The clients among 0 .. i-1 that have a message waiting, in increasing order. */
  function Senders(out: seq<seq<Message>>, i: nat): (r: seq<nat>)
    requires i <= |out|
    ensures forall k :: 0 <= k < |r| ==> r[k] < i && out[r[k]] != []
    decreases i
  {
    if i == 0 then []
    else Senders(out, i - 1) + (if out[i - 1] == [] then [] else [i - 1])
  }

  /** The waiting clients are listed in increasing order, each once. */
  lemma {:induction false} SendersIncreasing(out: seq<seq<Message>>, i: nat)
    requires i <= |out|
    ensures forall k, l :: 0 <= k < l < |Senders(out, i)| ==> Senders(out, i)[k] < Senders(out, i)[l]
    decreases i
  {
    if i > 0 {
      SendersIncreasing(out, i - 1);
      var r', r := Senders(out, i - 1), Senders(out, i);
      if out[i - 1] == [] {
        assert r == r';
      } else {
        assert r == r' + [i - 1];
        forall k, l | 0 <= k < l < |r|
          ensures r[k] < r[l]
        {
          assert r[k] == r'[k] < i - 1;
          if l < |r'| {
            assert r[l] == r'[l];
          }
        }
      }
    }
  }

  /** No waiting client is skipped. */
  lemma {:induction false} SendersComplete(out: seq<seq<Message>>, i: nat, j: nat)
    requires i <= |out| && j < i && out[j] != []
    ensures j in Senders(out, i)
    decreases i
  {
    if j < i - 1 {
      SendersComplete(out, i - 1, j);
    }
  }

  /** The tags the loop over clients 0 .. i-1 draws and records. */
  function ForwardedTags(out: seq<seq<Message>>, tags: seq<int>, i: nat): (r: set<int>)
    requires i <= |out| && |tags| == |out|
    ensures forall j :: 0 <= j < i && out[j] != [] ==> tags[j] in r
    ensures forall t :: t in r ==> exists j :: 0 <= j < i && out[j] != [] && tags[j] == t
    decreases i
  {
    if i == 0 then {}
    else ForwardedTags(out, tags, i - 1) + (if out[i - 1] == [] then {} else {tags[i - 1]})
  }

  /** The server receives the head of every waiting client, stamped with
      that client's tag, in increasing client order, after what it had. */
  lemma {:induction false} ForwardSendsInOrder(o: Outbound, tags: seq<int>, i: nat)
    requires i <= |o.clientOut| && |tags| == |o.clientOut|
    ensures var r, s := Forward(o, tags, i), Senders(o.clientOut, i);
      && |r.serverIn| == |o.serverIn| + |s|
      && r.serverIn[..|o.serverIn|] == o.serverIn
      && forall k :: 0 <= k < |s| ==>
           r.serverIn[|o.serverIn| + k] == Stamp(o.clientOut[s[k]][0], tags[s[k]])
    decreases i
  {
    if i > 0 {
      ForwardSendsInOrder(o, tags, i - 1);
      var p, s' := Forward(o, tags, i - 1), Senders(o.clientOut, i - 1);
      ForwardDrops(o, tags, i - 1);
      if o.clientOut[i - 1] != [] {
        var r, s := Forward(o, tags, i), Senders(o.clientOut, i);
        assert s == s' + [i - 1];
        assert r.serverIn == p.serverIn + [Stamp(o.clientOut[i - 1][0], tags[i - 1])];
        forall k | 0 <= k < |s|
          ensures r.serverIn[|o.serverIn| + k] == Stamp(o.clientOut[s[k]][0], tags[s[k]])
        {
          if k < |s'| {
            assert r.serverIn[|o.serverIn| + k] == p.serverIn[|o.serverIn| + k];
          }
        }
      }
    }
  }

  /** The table ends up with the keys it had plus every tag drawn: an
      overwrite on a colliding tag does not grow it. */
  lemma {:induction false} ForwardKeys(o: Outbound, tags: seq<int>, i: nat)
    requires i <= |o.clientOut| && |tags| == |o.clientOut|
    ensures Forward(o, tags, i).table.Keys == o.table.Keys + ForwardedTags(o.clientOut, tags, i)
    decreases i
  {
    if i > 0 {
      var p := Forward(o, tags, i - 1);
      ForwardKeys(o, tags, i - 1);
      ForwardDrops(o, tags, i - 1);
      assert p.clientOut[i - 1] == o.clientOut[i - 1];
      if o.clientOut[i - 1] != [] {
        assert Forward(o, tags, i).table == p.table[tags[i - 1] := i - 1];
      }
    }
  }

  /** A waiting client j is recorded as the owner of its tag, unless a
      later client of the same pass drew the same tag and overwrote it. */
  lemma {:induction false} ForwardRecords(o: Outbound, tags: seq<int>, i: nat, j: nat)
    requires i <= |o.clientOut| && |tags| == |o.clientOut|
    requires j < i && o.clientOut[j] != []
    requires forall k :: j < k < i && o.clientOut[k] != [] ==> tags[k] != tags[j]
    ensures tags[j] in Forward(o, tags, i).table
    ensures Forward(o, tags, i).table[tags[j]] == j
    decreases i
  {
    ForwardDrops(o, tags, i - 1);
    if j < i - 1 {
      ForwardRecords(o, tags, i - 1, j);
    }
  }

  /** An entry whose tag no waiting client draws keeps its client index. */
  lemma {:induction false} ForwardKeepsOthers(o: Outbound, tags: seq<int>, i: nat, t: int)
    requires i <= |o.clientOut| && |tags| == |o.clientOut|
    requires t in o.table
    requires forall k :: 0 <= k < i && o.clientOut[k] != [] ==> tags[k] != t
    ensures t in Forward(o, tags, i).table
    ensures Forward(o, tags, i).table[t] == o.table[t]
    decreases i
  {
    if i > 0 {
      ForwardKeepsOthers(o, tags, i - 1, t);
      ForwardDrops(o, tags, i - 1);
    }
  }

  /** Forwarding records only drawn tags and real client indices. */
  lemma {:induction false} ForwardCoherent(o: Outbound, tags: seq<int>, i: nat)
    requires i <= |o.clientOut| && TagsFit(tags, |o.clientOut|)
    requires Coherent(o.table, |o.clientOut|)
    ensures Coherent(Forward(o, tags, i).table, |o.clientOut|)
    decreases i
  {
    if i > 0 {
      ForwardCoherent(o, tags, i - 1);
    }
  }

  /** Absent collisions within the pass, the k-th message the server
      receives carries a tag, and the table maps that tag to the client
      the message came from. */
  lemma ForwardCorrelates(o: Outbound, tags: seq<int>, i: nat, k: nat)
    requires i <= |o.clientOut| && |tags| == |o.clientOut|
    requires forall a, b :: 0 <= a < b < i && o.clientOut[a] != [] && o.clientOut[b] != [] ==> tags[a] != tags[b]
    requires k < |Senders(o.clientOut, i)|
    ensures var r, c := Forward(o, tags, i), Senders(o.clientOut, i)[k];
      && |o.serverIn| + k < |r.serverIn|
      && var sent := r.serverIn[|o.serverIn| + k];
      && TagKey in sent && sent[TagKey].Num?
      && sent[TagKey].n in r.table && r.table[sent[TagKey].n] == c
  {
    ForwardSendsInOrder(o, tags, i);
    var c := Senders(o.clientOut, i)[k];
    ForwardRecords(o, tags, i, c);
  }

  /** A colliding tag silently overwrites the earlier entry: the new client
      owns it and the table does not grow. */
  lemma CollisionOverwrites(o: Outbound, tag: int, i: nat)
    requires i < |o.clientOut| && o.clientOut[i] != []
    requires tag in o.table
    ensures var r := ForwardOne(o, tag, i);
      && r.table[tag] == i && r.table.Keys == o.table.Keys && |r.table| == |o.table|
      && (forall t :: t in o.table && t != tag ==> r.table[t] == o.table[t])
  {
    var r := ForwardOne(o, tag, i);
    assert r.table.Keys == o.table.Keys;
  }

  // ---------------------------------------------------------------------
  // Response routing (handle_server_responses)
  // ---------------------------------------------------------------------

  /** What response routing reads and writes: the server's outbound queue,
      the clients' inbound queues and the table. */
  datatype Inbound = Inbound(serverOut: seq<Message>, clientIn: seq<seq<Message>>, table: Table)

  /** The next response carries a tag that the table knows. */
  predicate Known(x: Inbound) {
    x.serverOut != [] && Dequeue(x.serverOut).tag.Num? && Dequeue(x.serverOut).tag.n in x.table
  }

  /** At most one response is taken. A known tag's entry is popped and the
      untagged response delivered to that client; an unknown one is dropped. */
  function Route(x: Inbound): (r: Inbound)
    requires Targets(x.table, |x.clientIn|)
    ensures r.serverOut == Drop(x.serverOut)
    ensures |r.clientIn| == |x.clientIn|
    ensures r.table.Keys <= x.table.Keys
    ensures forall t :: t in r.table ==> r.table[t] == x.table[t]
    ensures Targets(r.table, |r.clientIn|)
  {
    if Known(x) then
      var p := Dequeue(x.serverOut);
      var c := x.table[p.tag.n];
      Inbound(p.rest, x.clientIn[c := x.clientIn[c] + [p.msg]], x.table - {p.tag.n})
    else
      Inbound(Drop(x.serverOut), x.clientIn, x.table)
  }

  /** A response tagged with a recorded tag t: the entry for t is removed,
      every other entry stays, the recorded client receives the response
      without its tag at the end of its inbound queue and no other client
      receives anything. */
  lemma RouteKnown(x: Inbound, t: int)
    requires Targets(x.table, |x.clientIn|)
    requires x.serverOut != [] && TagKey in x.serverOut[0] && x.serverOut[0][TagKey] == Num(t)
    requires t in x.table
    ensures var r, c := Route(x), x.table[t];
      && r.table.Keys == x.table.Keys - {t}
      && r.clientIn[c] == x.clientIn[c] + [x.serverOut[0] - {TagKey}]
      && (forall k :: 0 <= k < |x.clientIn| && k != c ==> r.clientIn[k] == x.clientIn[k])
      && r.serverOut == x.serverOut[1..]
  {
  }

  /** A response whose tag the table does not know is dropped: the table
      and every client inbound queue are unchanged. */
  lemma RouteUnknown(x: Inbound)
    requires Targets(x.table, |x.clientIn|)
    requires x.serverOut != [] && !Known(x)
    ensures Route(x) == Inbound(x.serverOut[1..], x.clientIn, x.table)
  {
  }

  /** A tagless response reports tag -1, which is never a key of a
      coherent table, so it is consumed and dropped. */
  lemma RouteTagless(x: Inbound)
    requires Coherent(x.table, |x.clientIn|)
    requires x.serverOut != [] && TagKey !in x.serverOut[0]
    ensures Route(x) == Inbound(x.serverOut[1..], x.clientIn, x.table)
  {
    assert !ValidTag(NoTag);
  }

  /** At-most-once delivery: of two responses bearing the same tag, the
      second finds the entry gone and is dropped without any delivery. */
  lemma DuplicateDropped(x: Inbound, t: int)
    requires Targets(x.table, |x.clientIn|)
    requires |x.serverOut| >= 2
    requires TagKey in x.serverOut[0] && x.serverOut[0][TagKey] == Num(t)
    requires TagKey in x.serverOut[1] && x.serverOut[1][TagKey] == Num(t)
    ensures var once := Route(x);
      && t !in once.table
      && Route(once) == Inbound(x.serverOut[2..], once.clientIn, once.table)
  {
    var once := Route(x);
    assert once.serverOut == x.serverOut[1..];
    assert once.serverOut[1..] == x.serverOut[2..];
  }
}
