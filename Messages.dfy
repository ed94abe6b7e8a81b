/** Messages exchanged between the clients, the middleware and the server,
    and the `tag` annotation the middleware adds and removes on the way. */
module Messages {

  /** The values a message field can hold: the `body` payload is text,
      the `tag` the middleware stamps is an integer. */
  datatype Value = Num(n: int) | Text(s: string)

  /** A message is a dictionary from field names to values. */
  type Message = map<string, Value>

  /** The field the middleware adds on the way to the server. */
  const TagKey: string := "tag"

  /** The largest tag the generator draws (`randint(0, 100000000)`, both ends included). */
  const MaxTag: int := 100000000

  /** The tag `server_dequeue` reports for an empty queue or a tagless message. */
  const NoTag: int := -1

  predicate ValidTag(t: int) {
    0 <= t <= MaxTag
  }

  /** `msg["tag"] = tag`: the message with its tag field set, every other field kept. */
  function Stamp(msg: Message, tag: int): (r: Message)
    ensures TagKey in r && r[TagKey] == Num(tag)
    ensures r.Keys == msg.Keys + {TagKey}
    ensures forall k :: k in msg && k != TagKey ==> r[k] == msg[k]
  {
    msg[TagKey := Num(tag)]
  }

  /** A queue after a `get` guarded by `empty()`: the head is gone if there
      was one. */
  function Drop(q: seq<Message>): seq<Message> {
    if q == [] then [] else q[1..]
  }

  /** What `server_dequeue` hands back, together with the queue it leaves behind. */
  datatype Received = Received(rest: seq<Message>, msg: Message, tag: Value)

  /** `server_dequeue` on the contents `q` of a queue: the head is consumed
      whenever there is one; a tagged head yields its fields without the tag
      and the tag itself, anything else yields `({}, -1)`. */
  function Dequeue(q: seq<Message>): (r: Received)
    ensures q == [] ==> r.rest == q
    ensures q != [] ==> r.rest == q[1..]
    ensures TagKey !in r.msg
    ensures q != [] && TagKey in q[0] ==> r.msg[TagKey := r.tag] == q[0]
    ensures (q == [] || TagKey !in q[0]) ==> r.msg == map[] && r.tag == Num(NoTag)
  {
    if q != [] && TagKey in q[0] then
      Received(Drop(q), q[0] - {TagKey}, q[0][TagKey])
    else
      Received(Drop(q), map[], Num(NoTag))
  }

  /** Round trip: a tagless message stamped with `tag` comes out of
      `server_dequeue` as the same message, with the same tag. */
  lemma {:induction false} StampThenDequeue(msg: Message, tag: int, rest: seq<Message>)
    requires TagKey !in msg
    ensures Dequeue([Stamp(msg, tag)] + rest) == Received(rest, msg, Num(tag))
  {
    var q := [Stamp(msg, tag)] + rest;
    assert q[0] == Stamp(msg, tag) && q[1..] == rest;
    assert q[0] - {TagKey} == msg;
  }

  /** A tagless head is still consumed and yields `({}, -1)`. */
  lemma DequeueTagless(q: seq<Message>)
    requires q != [] && TagKey !in q[0]
    ensures Dequeue(q) == Received(q[1..], map[], Num(NoTag))
  {
  }

  /** An empty queue yields `({}, -1)` and stays empty. */
  lemma DequeueEmpty()
    ensures Dequeue([]) == Received([], map[], Num(NoTag))
  {
  }
}
