/** What the ring buffer is meant to be: a bounded FIFO sequence with an overflow policy. */
module RingSpec {

  datatype Policy = Block | DropNewest | DropOldest | Reject | Other

  /** How one Enqueue ends: a nil error, ErrBufferFull, or the caller parks on the condition variable. */
  datatype Verdict = Accepted | Refused | MustWait

  datatype Queue<T> = Queue(contents: seq<T>, capacity: nat, policy: Policy, closed: bool)

  predicate Bounded<T>(q: Queue<T>) {
    1 <= q.capacity && |q.contents| <= q.capacity
  }

  /** Enqueue, up to the point where it would wait. */
  function Offer<T>(q: Queue<T>, x: T): (r: (Queue<T>, Verdict))
    requires Bounded(q)
    ensures Bounded(r.0)
  {
    if q.closed then (q, Refused)
    else if |q.contents| < q.capacity then (q.(contents := q.contents + [x]), Accepted)
    else match q.policy
      case Block => (q, MustWait)
      case DropNewest => (q, Accepted)
      case DropOldest => (q.(contents := q.contents[1..] + [x]), Accepted)
      case Reject => (q, Refused)
      case Other => (q, Refused)
  }

  /** How many of `count` items DequeueBatch(max) takes: everything when max is negative. */
  function BatchCount(count: nat, max: int): (n: nat)
    ensures n <= count
  {
    if max == 0 then 0 else if 0 < max < count then max else count
  }

  function BatchSize<T>(q: Queue<T>, max: int): (n: nat)
    ensures n <= |q.contents|
  {
    BatchCount(|q.contents|, max)
  }

  /** The longest prefix that max allows: all of it when max is negative, nothing when it is zero. */
  function TakeBatch<T>(q: Queue<T>, max: int): (r: (Queue<T>, seq<T>))
    requires Bounded(q)
    ensures Bounded(r.0)
    ensures r.1 + r.0.contents == q.contents
    ensures max > 0 ==> |r.1| == MinNat(max, |q.contents|)
    ensures max == 0 ==> r.1 == []
    ensures max < 0 ==> r.1 == q.contents
  {
    var n := BatchSize(q, max);
    (q.(contents := q.contents[n..]), q.contents[..n])
  }

  /** EnqueueBatch run alone: offer one item after another until one is not accepted. */
  function OfferAll<T>(q: Queue<T>, xs: seq<T>): (r: (Queue<T>, nat, Verdict))
    requires Bounded(q)
    ensures Bounded(r.0)
    ensures r.1 <= |xs| && (r.2 == Accepted <==> r.1 == |xs|)
    decreases |xs|
  {
    if xs == [] then (q, 0, Accepted)
    else
      var (q', v) := Offer(q, xs[0]);
      if v != Accepted then (q', 0, v)
      else
        var (q'', n, v') := OfferAll(q', xs[1..]);
        (q'', n + 1, v')
  }

  function FirstN<T>(s: seq<T>, n: nat): (r: seq<T>) {
    if |s| <= n then s else s[..n]
  }

  function LastN<T>(s: seq<T>, n: nat): (r: seq<T>) {
    if |s| <= n then s else s[|s| - n..]
  }

  function MinNat(a: nat, b: nat): (r: nat) {
    if a <= b then a else b
  }

  /** What EnqueueBatch on an open ring should come to: DropOldest keeps the newest `capacity` of everything
      offered, the other policies the oldest, and the count and the error say exactly how many were refused. */
  function ClosedForm<T>(q: Queue<T>, xs: seq<T>): (r: (Queue<T>, nat, Verdict))
    requires Bounded(q)
  {
    var all := q.contents + xs;
    match q.policy
    case DropOldest => (q.(contents := LastN(all, q.capacity)), |xs|, Accepted)
    case DropNewest => (q.(contents := FirstN(all, q.capacity)), |xs|, Accepted)
    case _ =>
      (q.(contents := FirstN(all, q.capacity)), MinNat(|xs|, q.capacity - |q.contents|),
       if |all| <= q.capacity then Accepted else if q.policy.Block? then MustWait else Refused)
  }

  lemma {:induction false} OfferAllClosedForm<T>(q: Queue<T>, xs: seq<T>)
    requires Bounded(q) && !q.closed
    ensures OfferAll(q, xs) == ClosedForm(q, xs)
    decreases |xs|
  {
    if xs == [] {
      assert q.contents + xs == q.contents;
    } else if |q.contents| < q.capacity {
      var q' := Offer(q, xs[0]).0;
      OfferAllClosedForm(q', xs[1..]);
      assert q'.contents + xs[1..] == q.contents + xs;
    } else {
      FullRing(q, xs);
      if q.policy.DropOldest? || q.policy.DropNewest? {
        OfferAllClosedForm(Offer(q, xs[0]).0, xs[1..]);
      }
    }
  }

  /** One item offered to a full ring leaves the closed form unchanged. */
  lemma FullRing<T>(q: Queue<T>, xs: seq<T>)
    requires Bounded(q) && !q.closed && |q.contents| == q.capacity && xs != []
    ensures var (q', v) := Offer(q, xs[0]);
      if v == Accepted
      then var (r, n, u) := ClosedForm(q', xs[1..]); ClosedForm(q, xs) == (r, n + 1, u)
      else ClosedForm(q, xs) == (q, 0, v)
  {
    var all := q.contents + xs;
    assert FirstN(all, q.capacity) == q.contents;
    match q.policy
    case DropOldest =>
      assert q.contents[1..] + [xs[0]] + xs[1..] == all[1..];
    case DropNewest =>
      assert FirstN(q.contents + xs[1..], q.capacity) == q.contents;
    case _ =>
  }
}
