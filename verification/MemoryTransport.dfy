/** The in-memory transport: a queue that Publish and Nack append to and Subscribe empties in batches
    (transport/memory/memory.go). */
module MemoryTransport {

  /** What one turn of Subscribe comes to: nothing yet, a batch for the handler, the end, or a cancelled context. */
  datatype Found<T> = Nothing | Batch(items: seq<T>) | Ended | Cancelled

  class Transport<T> {
    var messages: seq<T>
    var closed: bool
    ghost var accepted: seq<T>    // every message published or nacked while open, in order
    ghost var delivered: seq<T>   // every message handed to the consume handler, in order

    /** Nothing is lost, duplicated or reordered between publishers and the handler. */
    ghost predicate Valid()
      reads this
    {
      accepted == delivered + messages
    }

    constructor ()
      ensures Valid() && !closed && accepted == []
    {
      messages, closed, accepted, delivered := [], false, [], [];
    }

    method Publish(msg: T)
      requires Valid()
      modifies this
      ensures Valid() && closed == old(closed) && delivered == old(delivered)
      ensures accepted == if closed then old(accepted) else old(accepted) + [msg]
    {
      if closed {
        return;
      }
      messages := messages + [msg];
      accepted := accepted + [msg];
    }

    /** The delay is ignored: a nacked message is published again at once. */
    method Nack(msg: T, delay: int)
      requires Valid()
      modifies this
      ensures Valid() && closed == old(closed) && delivered == old(delivered)
      ensures accepted == if closed then old(accepted) else old(accepted) + [msg]
    {
      Publish(msg);
    }

    method Close()
      requires Valid()
      modifies this
      ensures Valid() && closed && accepted == old(accepted) && delivered == old(delivered)
    {
      closed := true;
    }

    /** One turn of Subscribe, at the top of its loop or after a wake-up; `done` is whether it finds its context done.
        Then it returns and leaves the queue alone. Otherwise it ends only on a closed and empty queue, waits only on
        an open and empty one, and else takes everything. */
    method Collect(done: bool) returns (r: Found<T>)
      requires Valid()
      modifies this
      ensures Valid() && closed == old(closed) && accepted == old(accepted)
      ensures r.Cancelled? <==> done
      ensures done ==> delivered == old(delivered)
      ensures r.Batch? ==> r.items != [] && delivered == old(delivered) + r.items == accepted
      ensures !done && !r.Batch? ==> delivered == old(delivered) == accepted && (r.Ended? <==> closed)
    {
      if done {
        return Cancelled;
      }
      if |messages| == 0 && !closed {
        return Nothing;
      }
      if closed && |messages| == 0 {
        return Ended;
      }
      r := Batch(messages);
      delivered := delivered + messages;
      messages := [];
    }
  }

  // ----- whole histories

  datatype Call<T> = CallPublish(msg: T) | CallNack(msg: T, delay: int) | CallCollect(done: bool) | CallClose

  /** What a history of calls should deliver: all messages sent before the first Close, in order, up to the last
      Collect. */
  function Sent<T>(calls: seq<Call<T>>): (r: seq<T>) {
    if calls == [] || calls[0].CallClose? then []
    else (if calls[0].CallCollect? then [] else [calls[0].msg]) + Sent(calls[1..])
  }

  function Flatten<T>(found: seq<Found<T>>): (r: seq<T>) {
    if found == [] then []
    else
      var last := found[|found| - 1];
      Flatten(found[..|found| - 1]) + if last.Batch? then last.items else []
  }

  lemma FlattenAdd<T>(found: seq<Found<T>>, f: Found<T>)
    ensures Flatten(found + [f]) == Flatten(found) + if f.Batch? then f.items else []
  {
    assert (found + [f])[..|found|] == found;
  }

  lemma FlattenNone<T>()
    ensures Flatten<T>([]) == []
  {
  }

  /** What these calls add when the transport is closed, or open, before them. */
  function Ahead<T>(closed: bool, calls: seq<Call<T>>): (r: seq<T>) {
    if closed then [] else Sent(calls)
  }

  lemma AheadFirst<T>(calls: seq<Call<T>>)
    ensures Sent(calls) == [] + Ahead(false, calls)
  {
  }

  lemma AheadNone<T>(closed: bool, calls: seq<Call<T>>)
    requires calls == []
    ensures Ahead(closed, calls) == []
  {
  }

  lemma AheadStep<T>(accepted: seq<T>, closed: bool, calls: seq<Call<T>>, i: nat)
    requires i < |calls|
    ensures accepted + Ahead(closed, calls[i..])
         == (accepted + Ahead(closed, [calls[i]])) + Ahead(closed || calls[i].CallClose?, calls[i + 1..])
  {
    assert calls[i..][0] == calls[i] && calls[i..][1..] == calls[i + 1..];
    AheadOne(closed, calls[i]);
    var here, rest := Ahead(closed, [calls[i]]), Ahead(closed || calls[i].CallClose?, calls[i + 1..]);
    assert Ahead(closed, calls[i..]) == here + rest;
    assert accepted + (here + rest) == (accepted + here) + rest;
  }

  lemma AheadOne<T>(closed: bool, call: Call<T>)
    ensures Ahead(closed, [call]) == if closed || call.CallClose? || call.CallCollect? then [] else [call.msg]
  {
    var rest: seq<Call<T>> := [call][1..];
    assert rest == [] && Sent(rest) == [];
  }

  method Perform<T>(t: Transport<T>, call: Call<T>) returns (r: Found<T>)
    requires t.Valid()
    modifies t
    ensures t.Valid() && t.closed == (old(t.closed) || call.CallClose?)
    ensures t.accepted == old(t.accepted) + Ahead(old(t.closed), [call])
    ensures t.delivered == old(t.delivered) + if r.Batch? then r.items else []
    ensures call.CallCollect? && !call.done ==> t.delivered == t.accepted
  {
    AheadOne(t.closed, call);
    r := Nothing;
    match call
    case CallPublish(msg) => t.Publish(msg);
    case CallNack(msg, delay) => t.Nack(msg, delay);
    case CallCollect(done) => r := t.Collect(done);
    case CallClose => t.Close();
  }

  /** Over any history the handler gets exactly what was sent before Close, once and in order; after a last Collect
      nothing is left behind. */
  method Replay<T(==)>(t: Transport<T>, calls: seq<Call<T>>) returns (found: seq<Found<T>>)
    requires t.Valid() && !t.closed && t.accepted == []
    modifies t
    ensures t.Valid() && |found| == |calls|
    ensures Flatten(found) <= Sent(calls)
    ensures calls != [] && calls[|calls| - 1] == CallCollect(false) ==> Flatten(found) == Sent(calls)
  {
    hide Sent, Flatten, Ahead;
    AheadFirst(calls);
    assert calls[0..] == calls;
    FlattenNone<T>();
    found := [];
    for i := 0 to |calls|
      invariant t.Valid() && |found| == i
      invariant Flatten(found) == t.delivered
      invariant Sent(calls) == t.accepted + Ahead(t.closed, calls[i..])
      invariant i > 0 && calls[i - 1] == CallCollect(false) ==> t.delivered == t.accepted
    {
      AheadStep(t.accepted, t.closed, calls, i);
      var r := Perform(t, calls[i]);
      FlattenAdd(found, r);
      found := found + [r];
    }
    AheadNone(t.closed, calls[|calls|..]);
    assert Sent(calls) == t.accepted;
  }
}
