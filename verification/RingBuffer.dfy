/** The ring itself: an array addressed by `cursor & mask`, its fields updated in place (ring/buffer.go). */
module RingBuffer {
  import opened Bits
  import opened RingSpec
  import opened RingArray

  class Buffer<T> {
    var items: array<Cell<T>>
    var head: nat
    var tail: nat
    var count: nat
    var mask: nat
    var policy: Policy
    var closed: bool
    var publishedHead: nat   // _head, read by Len without the lock
    var publishedTail: nat   // _tail

    /** The fields as a value. */
    ghost function Value(): (r: Ring<T>)
      reads this, items
    {
      Ring(items[..], head, tail, count, policy, closed)
    }

    /** Whatever the capacity; whether the ring also is a queue is `IsQueue(Value())`. */
    ghost predicate Valid()
      reads this, items
    {
      Shaped(Value()) && mask == items.Length - 1 && publishedHead == head && publishedTail == tail
    }

    constructor (c: nat, policy: Policy)
      requires c >= 1
      ensures Valid() && fresh(items) && Value() == Fresh(c, policy)
    {
      items := new Cell<T>[c](_ => Nil);
      mask := c - 1;
      head, tail, count, publishedHead, publishedTail := 0, 0, 0, 0, 0;
      this.policy, closed := policy, false;
      new;
      assert items[..] == Fresh<T>(c, policy).items;
    }

    method Enqueue(x: T) returns (v: Verdict)
      requires Valid()
      modifies this, items
      ensures Valid() && items == old(items)
      ensures (Value(), v) == Put(old(Value()), x)
      ensures old(IsQueue(Value())) ==>
        IsQueue(Value()) && (Abs(Value()), v) == Offer(old(Abs(Value())), x)
    {
      ghost var r := Value();
      v := Insert(x);
      if IsQueue(r) {
        PutRefines(r, x);
      }
    }

    /** The body of Enqueue up to the point where it would wait. */
    method Insert(x: T) returns (v: Verdict)
      requires Valid()
      modifies this, items
      ensures Valid() && items == old(items)
      ensures (Value(), v) == Put(old(Value()), x)
    {
      if closed {
        return Refused;
      }
      if count < items.Length {
        items[And(head, mask)] := Item(x);
        head := head + 1;
        count := count + 1;
        publishedHead := head;
        return Accepted;
      }
      match policy
      case Block => v := MustWait;
      case DropNewest => v := Accepted;
      case DropOldest =>
        items[And(head, mask)] := Item(x);
        head := head + 1;
        tail := tail + 1;
        publishedHead := head;
        publishedTail := tail;
        v := Accepted;
      case Reject => v := Refused;
      case Other => v := Refused;
    }

    method EnqueueBatch(xs: seq<T>) returns (n: nat, v: Verdict)
      requires Valid()
      modifies this, items
      ensures Valid() && items == old(items)
      ensures (Value(), n, v) == PutAll(old(Value()), xs)
      ensures old(IsQueue(Value())) ==>
        IsQueue(Value()) && (Abs(Value()), n, v) == OfferAll(old(Abs(Value())), xs)
    {
      hide IsQueue, Abs, Put;
      ghost var r := Value();
      if IsQueue(r) {
        PutAllRefines(r, xs);
      }
      var i := 0;
      while i < |xs|
        invariant 0 <= i <= |xs|
        invariant Valid() && items == old(items)
        invariant var rest := PutAll(Value(), xs[i..]); PutAll(r, xs) == (rest.0, rest.1 + i, rest.2)
      {
        assert xs[i..][0] == xs[i] && xs[i..][1..] == xs[i + 1..];
        var verdict := Insert(xs[i]);
        if verdict != Accepted {
          return i, verdict;
        }
        i := i + 1;
      }
      return |xs|, Accepted;
    }

    /** `ok` is the second result: false on an empty ring. */
    method Dequeue() returns (x: Cell<T>, ok: bool)
      requires Valid()
      modifies this, items
      ensures Valid() && items == old(items)
      ensures (Value(), if ok then [x] else []) == GetBatch(old(Value()), 1)
      ensures old(IsQueue(Value())) ==>
        && IsQueue(Value()) && Abs(Value()) == TakeBatch(old(Abs(Value())), 1).0
        && (if ok then [x] else []) == Filled(TakeBatch(old(Abs(Value())), 1).1)
    {
      ghost var r := Value();
      if IsQueue(r) {
        GetRefines(r, 1);
      }
      hide IsQueue, Abs, GetBatch;
      GetOne(r);
      if count == 0 {
        return Nil, false;
      }
      x := items[And(tail, mask)];
      items[And(tail, mask)] := Nil;
      tail := tail + 1;
      count := count - 1;
      publishedTail := tail;
      return x, true;
    }

    method DequeueBatch(max: int) returns (batch: seq<Cell<T>>)
      requires Valid()
      modifies this, items
      ensures Valid() && items == old(items)
      ensures (Value(), batch) == GetBatch(old(Value()), max)
      ensures |batch| == if max == 0 then 0 else if max < 0 then old(count) else MinNat(max, old(count))
      ensures old(IsQueue(Value())) ==>
        && IsQueue(Value()) && Abs(Value()) == TakeBatch(old(Abs(Value())), max).0
        && batch == Filled(old(Abs(Value())).contents[..|batch|])
        && Abs(Value()).contents == old(Abs(Value())).contents[|batch|..]
    {
      ghost var r := Value();
      if IsQueue(r) {
        GetRefines(r, max);
      }
      hide IsQueue, Abs;
      if count == 0 || max == 0 {
        return [];
      }
      var size := count;
      if 0 < max < size {
        size := max;
      }
      batch := Take(size);
    }

    /** The copy loop and the bookkeeping after it. */
    method Take(size: nat) returns (batch: seq<Cell<T>>)
      requires Valid() && size <= count
      modifies this, items
      ensures Valid() && items == old(items)
      ensures (items[..], batch) == Sweep(old(items[..]), old(tail), size)
      ensures Value() == old(Value()).(items := items[..], tail := old(tail) + size, count := old(count) - size)
    {
      hide Sweep;
      SweepNext(items[..], tail, 0);
      batch := [];
      for i := 0 to size
        invariant tail == old(tail) + i
        invariant unchanged(`items, `mask, `head, `count, `closed, `policy, `publishedHead)
        invariant (items[..], batch) == Sweep(old(items[..]), old(tail), i)
      {
        SweepNext(old(items[..]), old(tail), i);
        batch := batch + [items[And(tail, mask)]];
        items[And(tail, mask)] := Nil;
        tail := tail + 1;
      }
      count := count - size;
      publishedTail := tail;
    }

    /** Len without interference: the two published cursors give the count. */
    method Len() returns (n: int)
      requires Valid()
      ensures n == count
      ensures IsQueue(Value()) ==> n == |Abs(Value()).contents|
    {
      var h := publishedHead;
      var t := publishedTail;
      n := h - t;
    }

    method Close()
      requires Valid()
      modifies `closed
      ensures Valid() && Value() == old(Value()).(closed := true)
      ensures old(IsQueue(Value())) ==> IsQueue(Value()) && Abs(Value()) == old(Abs(Value())).(closed := true)
    {
      ghost var r := Value();
      closed := true;
      if IsQueue(r) {
        AbsClosed(r);
      }
    }
  }

  /** New on any request, with `limit` the most slots the platform can allocate: making the slots panics exactly when
      the rounded capacity is negative or above the limit; otherwise the ring is empty and has that capacity, the least
      power of two exactly for a request up to 2^62 without a long gap. By RequestExact that is also when the ring is a
      queue. */
  method New<T>(capacity: int, policy: Policy, limit: nat) returns (b: Buffer?<T>)
    requires IsInt64(capacity)
    ensures b == null <==> Rounded(capacity) <= 0 || Rounded(capacity) > limit
    ensures capacity > 1 ==> (Rounded(capacity) <= 0 <==> capacity > Pow2(62) && NoLongGap(capacity - 1))
    ensures b != null ==>
      && fresh(b) && fresh(b.items) && b.Valid() && b.Value() == Fresh(Rounded(capacity), policy)
      && (capacity > 1 ==>
            (LeastPowerOfTwo(b.items.Length, capacity) <==> capacity <= Pow2(62) && NoLongGap(capacity - 1)))
  {
    hide LeastPowerOfTwo, NoLongGap, IsPowerOfTwo;
    var c := NextPowerOfTwo(capacity);
    if c <= 0 || c > limit {
      return null;
    }
    b := new Buffer(c, policy);
  }

  method Perform<T>(b: Buffer<T>, op: Op<T>) returns (answer: Response<T>)
    requires b.Valid()
    modifies b, b.items
    ensures b.Valid() && b.items == old(b.items)
    ensures (b.Value(), answer) == Step(old(b.Value()), op)
  {
    hide IsQueue, Abs, Put, GetBatch;
    match op
    case OpPut(x) =>
      var v := b.Enqueue(x);
      answer := Answer(v);
    case OpGet =>
      var x, ok := b.Dequeue();
      answer := Cells(if ok then [x] else []);
    case OpGetBatch(max) =>
      var batch := b.DequeueBatch(max);
      answer := Cells(batch);
    case OpClose =>
      b.Close();
      answer := Cells([]);
  }

  /** Any sequence of operations on the array in place follows the value machine, whatever the capacity; so on a ring
      that is a queue it answers as the bounded FIFO sequence does. */
  method Replay<T>(b: Buffer<T>, ops: seq<Op<T>>) returns (answers: seq<Response<T>>)
    requires b.Valid()
    modifies b, b.items
    ensures b.Valid() && b.items == old(b.items)
    ensures (b.Value(), answers) == Run(old(b.Value()), ops)
    ensures old(IsQueue(b.Value())) ==>
      IsQueue(b.Value()) && (Abs(b.Value()), answers) == SpecRun(old(Abs(b.Value())), ops)
  {
    hide IsQueue, Abs, Step;
    ghost var r := b.Value();
    if IsQueue(r) {
      RunRefines(r, ops);
    }
    answers := [];
    for i := 0 to |ops|
      invariant b.Valid() && b.items == old(b.items)
      invariant (b.Value(), answers) == Run(r, ops[..i])
    {
      assert ops[..i + 1][..i] == ops[..i];
      var answer := Perform(b, ops[i]);
      answers := answers + [answer];
    }
    assert ops[..|ops|] == ops;
  }
}
