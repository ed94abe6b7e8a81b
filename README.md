# Tag-correlation router

A Dafny model of the middleware that sits between ten emulated clients and
one emulated server. Every client has an outbound queue (requests) and an
inbound queue (responses); the server has an inbound and an outbound queue.
The middleware loops forever over two phases:

1. **Request forwarding.** For every client, in index order, if its
   outbound queue is not empty, take one request, stamp a random `tag` on
   it (`server_enqueue`), put it on the server's inbound queue, and record
   `tag -> client index` in the dictionary `tag_to_client`.
2. **Response routing.** If the server's outbound queue is not empty, take
   one response and split off its tag (`server_dequeue`). If the tag is in
   the dictionary, pop the entry and put the untagged response on that
   client's inbound queue; otherwise drop the response with a warning.

The repository holds two variants of this loop: a `Middleware` class that
owns the queues and the dictionary (`middleware_class.py`), and free
functions that are handed the queues and the dictionary
(`middleware_mainloop.py`). Both are modelled, imperatively, and both are
proved to compute the same functions on values.

Modules:

- `Messages`: messages as maps from field names to values; `Stamp`
  (`msg["tag"] = tag`) and `Dequeue` (what `server_dequeue` returns and
  what it leaves in the queue), and the round trip between them.
- `Queues`: `Queue`, a stand-in for Python's `queue.Queue` with the three
  operations the middleware uses (`empty`, `get`, `put`) on a sequence of
  messages; `Contents` of a row of queues; `Wired`, the assumption that the
  queues handed to the middleware are distinct objects.
- `ServerLink`: `server_enqueue` and `server_dequeue` as methods on queues.
  The two source files contain the same code for both functions
  (`middleware_class.py:14-29`, `middleware_mainloop.py:69-85`); it is
  modelled once.
- `Routing`: the two phases as functions on queue contents and the table
  (`Forward`, `Route`), with the lemmas that say what they do.
- `Dispatch`: one iteration (`Step`) as a function on the whole state;
  `Steps`, iterations back to back; and `Run`, iterations with the client
  and server threads acting on the queues before each one (`Meanwhile`),
  with lemmas about the table and about delivery over such a run.
- `MiddlewareClass`: the `Middleware` class; its methods update its
  `tagToClient` field and its queues in place and are proved, through
  `View()`, to do what `Routing` and `Dispatch` describe.
- `MainLoop`: the free-function variant; the dictionary is a `TagTable`
  object shared by the handlers, and `Loop` runs the `while True` body a
  given number of times from an empty dictionary.

`randint(0, 100000000)` is replaced by a tag supplied by the caller: one
`tags: seq<int>` per iteration, holding one tag per client in the range
`[0, 100000000]`; `tags[i]` is used only when client `i` has a request
waiting. A tag drawn twice is modelled as the source behaves: the later
client overwrites the earlier entry.

## Model

| member | source | states |
|---|---|---|
| Messages.Stamp | middleware_class.py:17 | the message gets a `tag` field holding the tag; every other field is kept and no other field appears |
| Messages.Dequeue | middleware_class.py:21-29 | the head is consumed whenever the queue is not empty; a tagged head yields its fields without `tag` plus the tag value; an empty queue or a tagless head yields `({}, -1)`; the returned message never has a `tag` field |
| Messages.StampThenDequeue | middleware_class.py:14-29 | round trip: a tagless message stamped with `t` and dequeued comes back as the same message with tag `t`, and the queue behind it is left as it was |
| Messages.DequeueTagless | middleware_mainloop.py:79-85 | a tagless head is still consumed and yields `({}, -1)` |
| Messages.DequeueEmpty | middleware_class.py:23-29 | an empty queue yields `({}, -1)` and stays empty |
| ServerLink.ServerEnqueue | middleware_class.py:14-19 | returns the drawn tag, which lies in `[0, 100000000]`, and appends exactly the stamped message to the end of `qin` |
| ServerLink.ServerDequeue | middleware_class.py:21-29 | returns and leaves behind exactly what `Messages.Dequeue` says of the old queue contents |
| Routing.ForwardOne | middleware_class.py:97-100 | the loop body for one client (the same body is lines 19-24 of `middleware_mainloop.py`): the number of client queues is kept and a client with an empty queue changes nothing; what a waiting client's request does is stated by `Routing.ForwardOneSends`, and over a whole pass by the `Forward` lemmas and `Routing.CollisionOverwrites` |
| Routing.ForwardOneSends | middleware_class.py:97-100 | a waiting client's queue loses its head and no other client queue changes; the server queue keeps what it had and gains one message, which `server_dequeue` splits back into the request without its tag and the drawn tag; the table maps the tag to the client, gains at most that one key, and every other entry keeps its client |
| Routing.Forward | middleware_class.py:95-101 | the forwarding loop over clients `0 .. i-1` as a function; it keeps one queue per client (its effect is stated by the lemmas below) |
| Routing.ForwardDrops | middleware_class.py:95-98 | every visited client loses exactly its first request if it had one, an empty client queue is untouched, and clients not yet visited are untouched |
| Routing.Senders | middleware_class.py:95-97 | lists only clients below `i` that had a request waiting |
| Routing.SendersIncreasing | middleware_class.py:95 | the waiting clients are listed in strictly increasing index order |
| Routing.SendersComplete | middleware_class.py:97 | every waiting client below `i` is listed |
| Routing.ForwardedTags | middleware_class.py:99-100 | contains the tag of every waiting client and nothing else |
| Routing.ForwardSendsInOrder | middleware_class.py:95-99 | the server queue keeps what it had and then receives each waiting client's first request, stamped with that client's tag, in increasing client order and nothing else |
| Routing.ForwardKeys | middleware_class.py:100 | the table's keys become the old keys plus the drawn tags: a repeated tag does not add a key |
| Routing.ForwardRecords | middleware_class.py:100 | a waiting client's tag maps to that client unless a later client of the same pass drew the same tag |
| Routing.ForwardKeepsOthers | middleware_mainloop.py:19-24 | an entry whose tag no waiting client draws keeps its client index (skipped clients touch no entry) |
| Routing.ForwardCoherent | middleware_class.py:95-100 | forwarding keeps every key a drawable tag and every value a client index below `len(ac_qout)` |
| Routing.ForwardCorrelates | middleware_mainloop.py:16-24 | with distinct tags in a pass, the k-th request sent carries a numeric tag and the table maps that tag to the client the request came from |
| Routing.CollisionOverwrites | middleware_class.py:100 | a tag already in the table is overwritten by the new client; every other entry keeps its client, and the key set and the table size stay the same |
| Routing.Route | middleware_class.py:110-117 | at most one server response is consumed; the table only loses entries, the remaining entries keep their clients, and client indices stay in range |
| Routing.RouteKnown | middleware_class.py:112-115 | a known tag: exactly that entry is removed, the recorded client receives the response without its tag at the end of its queue, no other client queue changes, the response leaves the server queue |
| Routing.RouteUnknown | middleware_mainloop.py:35-42 | an unknown tag: the response is dropped, the table and every client queue are unchanged |
| Routing.RouteTagless | middleware_class.py:110-117 | a tagless response reports `-1`, which is never a key, so it is consumed and dropped |
| Routing.DuplicateDropped | middleware_class.py:112-117 | of two responses bearing the same tag, the first pops the entry and the second is dropped without delivery |
| Dispatch.Step | middleware_mainloop.py:60-66 | one iteration, forwarding then routing, keeps one inbound queue per client and a coherent table |
| Dispatch.StepKeys | middleware_mainloop.py:58-66 | after an iteration the table's keys are the old keys plus the forwarded tags minus the resolved tag, which was among them |
| Dispatch.StepKeepsEntry | middleware_mainloop.py:60-66 | an entry whose tag is not redrawn either keeps its client, or is resolved and then its client alone receives the response |
| Dispatch.StepDeliversNothing | middleware_class.py:110-117 | an iteration that resolves no tag leaves every client inbound queue as it was |
| Dispatch.Steps | middleware_mainloop.py:60-66 | any number of back-to-back iterations keep the state consistent |
| Dispatch.StepsSnoc | middleware_mainloop.py:60-66 | a run one iteration longer is one more iteration |
| Dispatch.Meanwhile | middleware_class.py:31-62 | the client and server threads only put on and get from the queues: the correlation table is unchanged, client queues are neither added nor removed, and a consistent state stays consistent |
| Dispatch.Run | middleware_class.py:119-126 | iterations of the dispatch loop, each preceded by arbitrary activity of the client and server threads, keep the state consistent |
| Dispatch.BeforeLast | middleware_class.py:124-126 | the state the last iteration of a run starts from is consistent, and the run ends with one iteration from it |
| Dispatch.MeanwhileQuiet | middleware_class.py:31-62 | when the other threads do nothing, the state is unchanged |
| Dispatch.StepsAreQuietRun | middleware_mainloop.py:60-66 | back-to-back iterations are the run with quiet rounds, so every run lemma below also holds of `Middleware.Run` and `MainLoop.Loop` |
| Dispatch.RunKeys | middleware_mainloop.py:58-66 | absent collisions, whatever the other threads do, the table holds exactly the initial tags plus all forwarded tags minus all resolved tags over the run |
| Dispatch.RunKeepsEntry | middleware_mainloop.py:60-66 | whatever the other threads do, an entry whose tag is never redrawn keeps its client until resolved, and is gone for good once resolved |
| Dispatch.RunNeverRedelivers | middleware_mainloop.py:35-42 | a tag neither in the table nor redrawn stays out of the table and is never resolved during a run, whatever the other threads do |
| Dispatch.RunDropsLateDuplicate | middleware_class.py:110-117 | at-most-once delivery: a response bearing a tag that is neither in the table nor redrawn is dropped when routed, and no client receives anything in that iteration |
| Dispatch.ForwardedThenDelivered | middleware_class.py:95-117 | end to end: a waiting client's request forwarded with a tag that no later client of its pass draws, and that is neither redrawn nor resolved by an earlier response, still maps to that client when the run's last iteration starts, whatever the other threads do; when a response bearing that tag is then routed, that client alone receives it, without its tag, at the end of its inbound queue, and the tag is no longer in the table |
| MiddlewareClass.Middleware.constructor | middleware_class.py:65-79 | keeps the four queue fields and starts with an empty table, which satisfies the class invariant |
| MiddlewareClass.Middleware.HandleClientRequests | middleware_class.py:90-103 | the queues and table afterwards are exactly `Routing.Forward` of the old ones over all clients; server outbound and client inbound queues are unchanged; the class invariant is kept |
| MiddlewareClass.Middleware.ForwardAll | middleware_class.py:95-101 | the `for` loop leaves client outbound queues, server inbound queue and table as `Routing.Forward` says |
| MiddlewareClass.Middleware.ForwardClient | middleware_class.py:97-100 | the loop body for one client changes queues and table exactly as one step of `Routing.Forward` |
| MiddlewareClass.Middleware.HandleServerResponses | middleware_class.py:105-117 | the queues and table afterwards are exactly `Routing.Route` of the old ones; client outbound and server inbound queues are unchanged; the class invariant is kept |
| MiddlewareClass.Middleware.Step | middleware_class.py:124-126 | one iteration of the loop is exactly `Dispatch.Step` of the old state |
| MiddlewareClass.Middleware.Run | middleware_class.py:119-126 | `n` iterations of the loop are exactly `Dispatch.Steps` of the old state |
| MainLoop.TagTable.constructor | middleware_mainloop.py:58 | the dictionary starts empty |
| MainLoop.HandleClientRequests | middleware_mainloop.py:14-28 | client outbound queues, server inbound queue and dictionary afterwards are exactly `Routing.Forward` of the old ones |
| MainLoop.ForwardClient | middleware_mainloop.py:19-24 | the loop body for one client is exactly one step of `Routing.Forward` |
| MainLoop.HandleServerResponses | middleware_mainloop.py:30-42 | server outbound queue, client inbound queues and dictionary afterwards are exactly `Routing.Route` of the old ones |
| MainLoop.Iteration | middleware_mainloop.py:62-66 | one iteration of the `while True` body is exactly `Dispatch.Step` of the old state |
| MainLoop.Loop | middleware_mainloop.py:44-66 | `main_loop` creates a fresh empty dictionary, and `n` iterations are exactly `Dispatch.Steps` from the initial queues and an empty table |

## Left out

- `server_worker` and `client_worker` (both files): emulators driven by wall-clock time, random delays and sleeping. Their effect on the queues between two iterations is an arbitrary `Dispatch.Activity` (requests added per client, requests taken by the server, responses added by the server, responses taken per client); which messages the server answers, and when, is not modelled, so the responses are arbitrary messages.
- `now`, `Middleware.log`, the `debug` flag and every `print`: presentation only.
- `parse_args`, the `__main__` blocks and the threads they start: start-up and concurrency plumbing. `Dispatch.Run` lets the other threads act between two iterations of the dispatch loop, but not inside one: the imperative `Middleware.Run` and `MainLoop.Loop` run their iterations back to back, and interleavings within an iteration (another thread's `put` between an `empty()` check and its `get`) are not modelled.
- `randint`: each drawn tag is a caller-supplied value in `[0, 100000000]`.
- Non-termination: `step` and `main_loop` loop forever; the model proves any finite number of iterations (`Middleware.Run`, `MainLoop.Loop`).
- The `try/except` in `handle_client_requests`: none of the modelled operations can raise, so the handler is never reached.
- Message identity: `server_enqueue` and `server_dequeue` mutate the message dictionary in place; messages are values here, so sharing a dictionary between a client and the server is not modelled.
- Field values are integers or strings; Python values such as `True` or `42.0`, which compare equal to an integer key, are not modelled.
- MainLoop.HandleClientRequests: requires the client outbound queues to be distinct objects and distinct from the server inbound queue, as the start-up code creates them; aliased queues are not modelled.
- MainLoop.HandleServerResponses: requires every client index in the dictionary to name a client inbound queue and the queues to be distinct; the source would raise `IndexError` on a bad index, which `main_loop` never reaches because it only records indices of existing clients.
- MiddlewareClass.Middleware.HandleClientRequests: requires the class invariant (distinct queues, one inbound queue per outbound queue, a table of drawn tags and real client indices), which the start-up code and the constructor establish.
