/** The dispatch loop as functions on values: one iteration is request
    forwarding followed by response routing; a run is a sequence of
    iterations. The lemmas here are about what the correlation table
    means over time. */
module Dispatch {
  import opened Messages
  import opened Routing

  /** Everything the middleware sees: the clients' outbound queues, the
      server's inbound and outbound queues, the clients' inbound queues
      and the correlation table. */
  datatype State = State(clientOut: seq<seq<Message>>, serverIn: seq<Message>,
                         serverOut: seq<Message>, clientIn: seq<seq<Message>>,
                         table: Table)

  /** One inbound and one outbound queue per client, and a table that only
      holds drawn tags and real client indices. */
  predicate Consistent(s: State) {
    |s.clientIn| == |s.clientOut| && Coherent(s.table, |s.clientOut|)
  }

  function Outgoing(s: State): Outbound {
    Outbound(s.clientOut, s.serverIn, s.table)
  }

  /** One iteration of the dispatch loop: forward one request per waiting
      client, then route at most one server response. */
  function Step(s: State, tags: seq<int>): (r: State)
    requires Consistent(s) && TagsFit(tags, |s.clientOut|)
    ensures Consistent(r) && |r.clientOut| == |s.clientOut|
  {
    var o := Forward(Outgoing(s), tags, |s.clientOut|);
    ForwardCoherent(Outgoing(s), tags, |s.clientOut|);
    var x := Route(Inbound(s.serverOut, s.clientIn, o.table));
    State(o.clientOut, o.serverIn, x.serverOut, x.clientIn, x.table)
  }

  /** The tags recorded by the forwarding phase of an iteration. */
  function Forwarded(s: State, tags: seq<int>): set<int>
    requires TagsFit(tags, |s.clientOut|)
  {
    ForwardedTags(s.clientOut, tags, |s.clientOut|)
  }

  /** The tag whose entry the routing phase of an iteration pops, if any. */
  function Resolved(s: State, tags: seq<int>): set<int>
    requires TagsFit(tags, |s.clientOut|)
  {
    var x := Inbound(s.serverOut, s.clientIn, Forward(Outgoing(s), tags, |s.clientOut|).table);
    if Known(x) then {Dequeue(s.serverOut).tag.n} else {}
  }

  /** After an iteration the table holds its old tags plus the forwarded
      ones, minus the one resolved, which was among those. */
  lemma StepKeys(s: State, tags: seq<int>)
    requires Consistent(s) && TagsFit(tags, |s.clientOut|)
    ensures Step(s, tags).table.Keys == s.table.Keys + Forwarded(s, tags) - Resolved(s, tags)
    ensures Resolved(s, tags) <= s.table.Keys + Forwarded(s, tags)
  {
    ForwardKeys(Outgoing(s), tags, |s.clientOut|);
  }

  /** An entry whose tag is not drawn again either keeps its client, or is
      resolved, and then the response goes to that client, untagged. */
  lemma StepKeepsEntry(s: State, tags: seq<int>, t: int)
    requires Consistent(s) && TagsFit(tags, |s.clientOut|)
    requires t in s.table && t !in Forwarded(s, tags)
    ensures var r, c := Step(s, tags), s.table[t];
      if t in Resolved(s, tags) then
        && t !in r.table
        && r.clientIn[c] == s.clientIn[c] + [Dequeue(s.serverOut).msg]
        && forall k :: 0 <= k < |s.clientIn| && k != c ==> r.clientIn[k] == s.clientIn[k]
      else
        t in r.table && r.table[t] == c
  {
    ForwardKeepsOthers(Outgoing(s), tags, |s.clientOut|, t);
  }

  /** An iteration that resolves no tag delivers nothing: every client
      inbound queue is as it was. */
  lemma StepDeliversNothing(s: State, tags: seq<int>)
    requires Consistent(s) && TagsFit(tags, |s.clientOut|)
    requires Resolved(s, tags) == {}
    ensures Step(s, tags).clientIn == s.clientIn
  {
  }

  /** Every iteration of a run draws one tag per client. */
  predicate RunFits(tss: seq<seq<int>>, n: nat) {
    forall k :: 0 <= k < |tss| ==> TagsFit(tss[k], n)
  }

  /** The first |tss| iterations of the dispatch loop, back to back, as the
      two imperative variants run them. */
  function Steps(s: State, tss: seq<seq<int>>): (r: State)
    requires Consistent(s) && RunFits(tss, |s.clientOut|)
    ensures Consistent(r) && |r.clientOut| == |s.clientOut|
    decreases |tss|
  {
    if tss == [] then s else Step(Steps(s, tss[..|tss| - 1]), tss[|tss| - 1])
  }

  /** A run one iteration longer is one more step. */
  lemma StepsSnoc(s: State, tss: seq<seq<int>>, k: nat)
    requires Consistent(s) && RunFits(tss, |s.clientOut|) && k < |tss|
    ensures RunFits(tss[..k], |s.clientOut|) && RunFits(tss[..k + 1], |s.clientOut|)
    ensures TagsFit(tss[k], |Steps(s, tss[..k]).clientOut|)
    ensures Steps(s, tss[..k + 1]) == Step(Steps(s, tss[..k]), tss[k])
  {
    assert tss[..k + 1][..k] == tss[..k];
  }

  // ---------------------------------------------------------------------
  // Runs with the other threads at work between iterations
  // ---------------------------------------------------------------------

  /** What the client and server threads do between two iterations: client
      i puts `arrivals[i]` on its outbound queue and takes `collected[i]`
      responses off its inbound queue; the server takes `served` requests
      off its inbound queue and puts `responses` on its outbound queue.
      Missing entries mean nothing happens. */
  datatype Activity = Activity(arrivals: seq<seq<Message>>, served: nat,
                               responses: seq<Message>, collected: seq<nat>)

  /** A queue after up to n `get` calls. */
  function Skip(q: seq<Message>, n: nat): seq<Message> {
    if n <= |q| then q[n..] else []
  }

  function Arrivals(a: Activity, i: nat): seq<Message> {
    if i < |a.arrivals| then a.arrivals[i] else []
  }

  function Collected(a: Activity, i: nat): nat {
    if i < |a.collected| then a.collected[i] else 0
  }

  /** The state after the other threads' activity. They only use the queues:
      the correlation table is the middleware's alone. */
  function Meanwhile(s: State, a: Activity): (r: State)
    ensures r.table == s.table
    ensures |r.clientOut| == |s.clientOut| && |r.clientIn| == |s.clientIn|
    ensures Consistent(s) ==> Consistent(r)
  {
    State(seq(|s.clientOut|, i requires 0 <= i < |s.clientOut| => s.clientOut[i] + Arrivals(a, i)),
          Skip(s.serverIn, a.served),
          s.serverOut + a.responses,
          seq(|s.clientIn|, i requires 0 <= i < |s.clientIn| => Skip(s.clientIn[i], Collected(a, i))),
          s.table)
  }

  /** One iteration of a run: the other threads' activity, then the tags the
      middleware draws. */
  datatype Round = Round(meanwhile: Activity, tags: seq<int>)

  predicate RoundsFit(rounds: seq<Round>, n: nat) {
    forall k :: 0 <= k < |rounds| ==> TagsFit(rounds[k].tags, n)
  }

  /** The first |rounds| iterations of the dispatch loop, with the client
      and server threads acting before each of them. */
  function Run(s: State, rounds: seq<Round>): (r: State)
    requires Consistent(s) && RoundsFit(rounds, |s.clientOut|)
    ensures Consistent(r) && |r.clientOut| == |s.clientOut|
    decreases |rounds|
  {
    if rounds == [] then s
    else
      var last := rounds[|rounds| - 1];
      Step(Meanwhile(Run(s, rounds[..|rounds| - 1]), last.meanwhile), last.tags)
  }

  /** The state the last iteration of a run starts from. */
  function BeforeLast(s: State, rounds: seq<Round>): (r: State)
    requires Consistent(s) && RoundsFit(rounds, |s.clientOut|) && rounds != []
    ensures Consistent(r) && |r.clientOut| == |s.clientOut|
    ensures TagsFit(rounds[|rounds| - 1].tags, |r.clientOut|)
    ensures Run(s, rounds) == Step(r, rounds[|rounds| - 1].tags)
  {
    Meanwhile(Run(s, rounds[..|rounds| - 1]), rounds[|rounds| - 1].meanwhile)
  }

  /** Nobody else does anything. */
  const Quiet: Activity := Activity([], 0, [], [])

  /** Back-to-back iterations, as rounds whose activity is quiet. */
  function QuietRounds(tss: seq<seq<int>>): (r: seq<Round>)
    ensures |r| == |tss| && forall k :: 0 <= k < |tss| ==> r[k] == Round(Quiet, tss[k])
  {
    seq(|tss|, k requires 0 <= k < |tss| => Round(Quiet, tss[k]))
  }

  /** Quiet activity changes nothing. */
  lemma MeanwhileQuiet(s: State)
    ensures Meanwhile(s, Quiet) == s
  {
    var r := Meanwhile(s, Quiet);
    assert r.clientOut == s.clientOut by {
      forall i | 0 <= i < |s.clientOut| ensures r.clientOut[i] == s.clientOut[i] {
        assert s.clientOut[i] + [] == s.clientOut[i];
      }
    }
    assert r.clientIn == s.clientIn;
    assert r.serverIn == s.serverIn[0..] == s.serverIn;
    assert r.serverOut == s.serverOut + [] == s.serverOut;
  }

  /** Quiet rounds fit wherever their tags do, and the last one comes
      after the quiet rounds of the earlier tags. */
  lemma QuietRoundsSnoc(tss: seq<seq<int>>, n: nat)
    requires RunFits(tss, n) && tss != []
    ensures RoundsFit(QuietRounds(tss), n) && RunFits(tss[..|tss| - 1], n)
    ensures QuietRounds(tss)[..|tss| - 1] == QuietRounds(tss[..|tss| - 1])
    ensures QuietRounds(tss)[|tss| - 1] == Round(Quiet, tss[|tss| - 1])
  {
    assert QuietRounds(tss)[..|tss| - 1] == QuietRounds(tss[..|tss| - 1]);
  }

  /** Back-to-back iterations are the run in which the other threads do
      nothing, so every lemma about runs holds of them. */
  lemma {:induction false} StepsAreQuietRun(s: State, tss: seq<seq<int>>)
    requires Consistent(s) && RunFits(tss, |s.clientOut|)
    ensures RoundsFit(QuietRounds(tss), |s.clientOut|)
    ensures Steps(s, tss) == Run(s, QuietRounds(tss))
    decreases |tss|
  {
    if tss != [] {
      var pre := tss[..|tss| - 1];
      QuietRoundsSnoc(tss, |s.clientOut|);
      StepsAreQuietRun(s, pre);
      MeanwhileQuiet(Steps(s, pre));
    }
  }

  /** All tags forwarded during a run. */
  function ForwardedIn(s: State, rounds: seq<Round>): set<int>
    requires Consistent(s) && RoundsFit(rounds, |s.clientOut|)
    decreases |rounds|
  {
    if rounds == [] then {}
    else ForwardedIn(s, rounds[..|rounds| - 1]) + Forwarded(BeforeLast(s, rounds), rounds[|rounds| - 1].tags)
  }

  /** All tags resolved during a run. */
  function ResolvedIn(s: State, rounds: seq<Round>): set<int>
    requires Consistent(s) && RoundsFit(rounds, |s.clientOut|)
    decreases |rounds|
  {
    if rounds == [] then {}
    else ResolvedIn(s, rounds[..|rounds| - 1]) + Resolved(BeforeLast(s, rounds), rounds[|rounds| - 1].tags)
  }

  /** No collisions: no iteration draws a tag that was in the table at the
      start or that an earlier iteration drew. */
  ghost predicate FreshRun(s: State, rounds: seq<Round>)
    requires Consistent(s) && RoundsFit(rounds, |s.clientOut|)
    decreases |rounds|
  {
    rounds == [] ||
    var pre := rounds[..|rounds| - 1];
    && FreshRun(s, pre)
    && Forwarded(BeforeLast(s, rounds), rounds[|rounds| - 1].tags) !! s.table.Keys + ForwardedIn(s, pre)
  }

  /** Absent collisions, the table holds exactly the tags it started with
      and the tags forwarded, minus the tags resolved, whatever the other
      threads do. */
  lemma {:induction false} RunKeys(s: State, rounds: seq<Round>)
    requires Consistent(s) && RoundsFit(rounds, |s.clientOut|)
    requires FreshRun(s, rounds)
    ensures Run(s, rounds).table.Keys == s.table.Keys + ForwardedIn(s, rounds) - ResolvedIn(s, rounds)
    ensures ResolvedIn(s, rounds) <= s.table.Keys + ForwardedIn(s, rounds)
    decreases |rounds|
  {
    if rounds != [] {
      var pre, tags := rounds[..|rounds| - 1], rounds[|rounds| - 1].tags;
      var e := BeforeLast(s, rounds);
      RunKeys(s, pre);
      StepKeys(e, tags);
      KeysAdvance(s.table.Keys, ForwardedIn(s, pre), ResolvedIn(s, pre), e.table.Keys,
                  Forwarded(e, tags), Resolved(e, tags), Step(e, tags).table.Keys);
    }
  }

  /** The bookkeeping of one more iteration: with the earlier iterations
      summed up by `k == k0 + f - r` and the new one drawing only tags unseen
      so far, the sums still describe the table. */
  lemma KeysAdvance(k0: set<int>, f: set<int>, r: set<int>, k: set<int>,
                    f1: set<int>, r1: set<int>, k1: set<int>)
    requires k == k0 + f - r && r <= k0 + f
    requires k1 == k + f1 - r1 && r1 <= k + f1
    requires f1 !! k0 + f
    ensures k1 == k0 + (f + f1) - (r + r1) && r + r1 <= k0 + (f + f1)
  {
  }

  /** An entry whose tag is never drawn again keeps its client until it is
      resolved, and once resolved it is gone for good. */
  lemma {:induction false} RunKeepsEntry(s: State, rounds: seq<Round>, t: int)
    requires Consistent(s) && RoundsFit(rounds, |s.clientOut|)
    requires t in s.table && t !in ForwardedIn(s, rounds)
    ensures t in Run(s, rounds).table <==> t !in ResolvedIn(s, rounds)
    ensures t in Run(s, rounds).table ==> Run(s, rounds).table[t] == s.table[t]
    decreases |rounds|
  {
    if rounds != [] {
      var pre, tags := rounds[..|rounds| - 1], rounds[|rounds| - 1].tags;
      RunKeepsEntry(s, pre, t);
      var e := BeforeLast(s, rounds);
      if t in e.table {
        StepKeepsEntry(e, tags, t);
      } else {
        StepKeys(e, tags);
      }
    }
  }

  /** A tag that is not in the table and is never drawn again is never
      resolved during a run. */
  lemma {:induction false} RunNeverRedelivers(s: State, rounds: seq<Round>, t: int)
    requires Consistent(s) && RoundsFit(rounds, |s.clientOut|)
    requires t !in s.table && t !in ForwardedIn(s, rounds)
    ensures t !in Run(s, rounds).table && t !in ResolvedIn(s, rounds)
    decreases |rounds|
  {
    if rounds != [] {
      var pre, tags := rounds[..|rounds| - 1], rounds[|rounds| - 1].tags;
      RunNeverRedelivers(s, pre, t);
      StepKeys(BeforeLast(s, rounds), tags);
    }
  }

  /** At-most-once delivery: once the entry for t is gone, and t is not
      drawn again, a response bearing t that the server produces later is
      dropped when it is routed: no client receives anything in that
      iteration. */
  lemma {:induction false} RunDropsLateDuplicate(s: State, rounds: seq<Round>, t: int)
    requires Consistent(s) && RoundsFit(rounds, |s.clientOut|) && rounds != []
    requires t !in s.table && t !in ForwardedIn(s, rounds)
    requires var e := BeforeLast(s, rounds);
      e.serverOut != [] && TagKey in e.serverOut[0] && e.serverOut[0][TagKey] == Num(t)
    ensures Run(s, rounds).clientIn == BeforeLast(s, rounds).clientIn
  {
    var pre, tags := rounds[..|rounds| - 1], rounds[|rounds| - 1].tags;
    var e := BeforeLast(s, rounds);
    RunNeverRedelivers(s, pre, t);
    StepKeys(e, tags);
    StepDeliversNothing(e, tags);
  }

  /** End to end: client c's waiting request is forwarded with tag t; while
      t is neither drawn again nor resolved by an earlier response, the
      entry t -> c survives whatever the other threads do, and when a
      response tagged t is routed, client c alone receives it, untagged,
      and the entry is gone. */
  lemma {:induction false} ForwardedThenDelivered(s: State, tags: seq<int>, c: nat, rounds: seq<Round>)
    requires Consistent(s) && TagsFit(tags, |s.clientOut|)
    requires c < |s.clientOut| && s.clientOut[c] != []
    requires forall k :: c < k < |s.clientOut| && s.clientOut[k] != [] ==> tags[k] != tags[c]
    requires tags[c] !in Resolved(s, tags)
    requires RoundsFit(rounds, |s.clientOut|) && rounds != []
    requires tags[c] !in ForwardedIn(Step(s, tags), rounds)
    requires tags[c] !in ResolvedIn(Step(s, tags), rounds[..|rounds| - 1])
    requires var e := BeforeLast(Step(s, tags), rounds);
      e.serverOut != [] && TagKey in e.serverOut[0] && e.serverOut[0][TagKey] == Num(tags[c])
    ensures var e := BeforeLast(Step(s, tags), rounds); tags[c] in e.table && e.table[tags[c]] == c
    ensures tags[c] !in Run(Step(s, tags), rounds).table
    ensures var e, r := BeforeLast(Step(s, tags), rounds), Run(Step(s, tags), rounds);
      && r.clientIn[c] == e.clientIn[c] + [e.serverOut[0] - {TagKey}]
      && forall k :: 0 <= k < |e.clientIn| && k != c ==> r.clientIn[k] == e.clientIn[k]
  {
    var t, s1 := tags[c], Step(s, tags);
    ForwardRecords(Outgoing(s), tags, |s.clientOut|, c);
    StepKeys(s, tags);
    assert t in s1.table && s1.table[t] == c;
    var pre, last := rounds[..|rounds| - 1], rounds[|rounds| - 1].tags;
    RunKeepsEntry(s1, pre, t);
    var e := BeforeLast(s1, rounds);
    assert t in e.table && e.table[t] == c;
    StepKeepsEntry(e, last, t);
    ForwardKeepsOthers(Outgoing(e), last, |e.clientOut|, t);
    assert t in Resolved(e, last);
  }
}
