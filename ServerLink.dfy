/** `server_enqueue` and `server_dequeue`: the only way the middleware talks
    to the server's two queues. Both source files carry the same two
    functions; they are modelled once here. */
module ServerLink {
  import opened Messages
  import opened Queues

  /** Stamps `tag` on `msg` and sends it to the server; the tag, drawn at
      random in the source, is given by the caller. */
  method ServerEnqueue(qin: Queue, msg: Message, tag: int) returns (t: int)
    requires ValidTag(tag)
    modifies qin
    ensures t == tag && ValidTag(t)
    ensures qin.items == old(qin.items) + [Stamp(msg, t)]
  {
    t := tag;
    qin.Put(Stamp(msg, t));
  }

  /** Takes the next response off the server's queue and splits off its tag. */
  method ServerDequeue(qout: Queue) returns (msg: Message, tag: Value)
    modifies qout
    ensures Received(qout.items, msg, tag) == Dequeue(old(qout.items))
  {
    msg, tag := map[], Num(NoTag);
    var empty := qout.Empty();
    if !empty {
      var m := qout.Get();
      if TagKey in m {
        tag := m[TagKey];
        msg := m - {TagKey};
      }
    }
  }
}
