/** The ring's array for any capacity: what its operations do to slots addressed by `cursor & mask`, and that this is a
    queue exactly when the capacity is a power of two. */
module RingArray {
  import opened Bits
  import opened RingSpec

  /** What a slot of the array holds: an item, or nil when dead. */
  datatype Cell<T> = Nil | Item(value: T)

  /** The slot k places after cursor t. */
  function Index(t: nat, k: nat, n: nat): (i: nat)
    requires n > 0
    ensures i < n
  {
    (t + k) % n
  }

  /** Reading `a` circularly from cursor `tail` gives the items of s and then only dead slots. */
  predicate Layout<T(==)>(a: seq<Cell<T>>, tail: nat, s: seq<T>) {
    && |s| <= |a|
    && forall k: nat :: k < |a| ==> a[Index(tail, k, |a|)] == if k < |s| then Item(s[k]) else Nil
  }

  lemma SlotsDistinct(t: nat, j: nat, k: nat, n: nat)
    requires j < k < n
    ensures Index(t, j, n) != Index(t, k, n)
  {
    var q, r := (t + j) / n, (t + j) % n;
    assert t + j == n * q + r;
    if r + (k - j) < n {
      QuotientIs(t + k, n, q, r + (k - j));
    } else {
      assert n * (q + 1) == n * q + n;
      QuotientIs(t + k, n, q + 1, r + (k - j) - n);
    }
  }

  lemma SlotWraps(t: nat, n: nat)
    requires n > 0
    ensures Index(t, n, n) == Index(t, 0, n)
  {
    assert t == n * (t / n) + t % n;
    assert n * (t / n + 1) == n * (t / n) + n;
    QuotientIs(t + n, n, t / n + 1, t % n);
  }

  lemma NextIndex(t: nat, k: nat, n: nat)
    requires n > 0
    ensures Index(t + 1, k, n) == Index(t, k + 1, n)
  {
    assert t + 1 + k == t + (k + 1);
  }

  lemma PushLayout<T>(a: seq<Cell<T>>, tail: nat, s: seq<T>, x: T)
    requires Layout(a, tail, s) && |s| < |a|
    ensures Layout(a[Index(tail, |s|, |a|) := Item(x)], tail, s + [x])
  {
    var b := a[Index(tail, |s|, |a|) := Item(x)];
    forall k: nat | k < |b|
      ensures b[Index(tail, k, |b|)] == if k < |s + [x]| then Item((s + [x])[k]) else Nil
    {
      if k < |s| {
        SlotsDistinct(tail, k, |s|, |a|);
      } else if k > |s| {
        SlotsDistinct(tail, |s|, k, |a|);
      }
    }
  }

  lemma PopLayout<T>(a: seq<Cell<T>>, tail: nat, s: seq<T>, b: seq<Cell<T>>)
    requires Layout(a, tail, s) && s != [] && b == a[Index(tail, 0, |a|) := Nil]
    ensures Layout(b, tail + 1, s[1..])
  {
    var t, s' := tail + 1, s[1..];
    forall k: nat | k < |b|
      ensures b[Index(t, k, |b|)] == if k < |s'| then Item(s'[k]) else Nil
    {
      PopSlot(a, tail, s, k);
    }
    assert Layout(b, t, s');
  }

  lemma PopSlot<T>(a: seq<Cell<T>>, tail: nat, s: seq<T>, k: nat)
    requires Layout(a, tail, s) && s != [] && k < |a|
    ensures a[Index(tail, 0, |a|) := Nil][Index(tail + 1, k, |a|)] == if k < |s| - 1 then Item(s[k + 1]) else Nil
  {
    NextIndex(tail, k, |a|);
    if k == |a| - 1 {
      SlotWraps(tail, |a|);
    } else {
      SlotsDistinct(tail, 0, k + 1, |a|);
      assert a[Index(tail, k + 1, |a|)] == if k + 1 < |s| then Item(s[k + 1]) else Nil;
    }
  }

  /** DropOldest on a full ring: one write and both cursors forward replace exactly the oldest item. */
  lemma ReplaceLayout<T>(a: seq<Cell<T>>, tail: nat, s: seq<T>, x: T)
    requires Layout(a, tail, s) && |s| == |a| && s != []
    ensures Layout(a[Index(tail, |s|, |a|) := Item(x)], tail + 1, s[1..] + [x])
  {
    SlotWraps(tail, |a|);
    var b := a[Index(tail, 0, |a|) := Nil];
    PopLayout(a, tail, s, b);
    NextIndex(tail, |s| - 1, |a|);
    PushLayout(b, tail + 1, s[1..], x);
    assert b[Index(tail, 0, |a|) := Item(x)] == a[Index(tail, 0, |a|) := Item(x)];
  }

  // ----- the fields as a value

  /** The fields of a ring whose mask is capacity - 1. */
  datatype Ring<T> = Ring(items: seq<Cell<T>>, head: nat, tail: nat, count: nat, policy: Policy, closed: bool)

  predicate Shaped<T>(r: Ring<T>) {
    |r.items| >= 1 && r.head == r.tail + r.count && r.count <= |r.items|
  }

  function Fresh<T>(c: nat, policy: Policy): (r: Ring<T>)
    requires c >= 1
    ensures Shaped(r) && |r.items| == c
  {
    Ring(seq(c, _ => Nil), 0, 0, 0, policy, false)
  }

  /** The slot a cursor addresses. */
  function Masked<T>(items: seq<Cell<T>>, cursor: nat): (i: nat)
    requires |items| >= 1
    ensures i < |items|
  {
    And(cursor, |items| - 1)
  }

  function Put<T>(r: Ring<T>, x: T): (o: (Ring<T>, Verdict))
    requires Shaped(r)
    ensures Shaped(o.0) && |o.0.items| == |r.items|
  {
    var written := r.items[Masked(r.items, r.head) := Item(x)];
    if r.closed then (r, Refused)
    else if r.count < |r.items| then (r.(items := written, head := r.head + 1, count := r.count + 1), Accepted)
    else match r.policy
      case Block => (r, MustWait)
      case DropNewest => (r, Accepted)
      case DropOldest => (r.(items := written, head := r.head + 1, tail := r.tail + 1), Accepted)
      case Reject => (r, Refused)
      case Other => (r, Refused)
  }

  /** Read and clear n slots from the tail on. */
  function Sweep<T>(items: seq<Cell<T>>, tail: nat, n: nat): (o: (seq<Cell<T>>, seq<Cell<T>>))
    requires |items| >= 1
    ensures |o.0| == |items| && |o.1| == n
  {
    if n == 0 then (items, [])
    else
      var (left, cells) := Sweep(items, tail, n - 1);
      var i := Masked(left, tail + n - 1);
      (left[i := Nil], cells + [left[i]])
  }

  function GetBatch<T>(r: Ring<T>, max: int): (o: (Ring<T>, seq<Cell<T>>))
    requires Shaped(r)
    ensures Shaped(o.0) && |o.0.items| == |r.items|
  {
    var n := BatchCount(r.count, max);
    var (left, cells) := Sweep(r.items, r.tail, n);
    (r.(items := left, tail := r.tail + n, count := r.count - n), cells)
  }

  lemma SweepNext<T>(items: seq<Cell<T>>, tail: nat, n: nat)
    requires |items| >= 1
    ensures Sweep(items, tail, 0) == (items, [])
    ensures var (left, cells) := Sweep(items, tail, n); var i := Masked(left, tail + n);
      Sweep(items, tail, n + 1) == (left[i := Nil], cells + [left[i]])
  {
  }

  lemma GetOne<T>(r: Ring<T>)
    requires Shaped(r)
    ensures r.count == 0 ==> GetBatch(r, 1) == (r, [])
    ensures r.count > 0 ==>
      var i := Masked(r.items, r.tail);
      GetBatch(r, 1) == (r.(items := r.items[i := Nil], tail := r.tail + 1, count := r.count - 1), [r.items[i]])
  {
    SweepNext(r.items, r.tail, 0);
    var first := [r.items[Masked(r.items, r.tail)]];
    assert [] + first == first;
  }

  function PutAll<T>(r: Ring<T>, xs: seq<T>): (o: (Ring<T>, nat, Verdict))
    requires Shaped(r)
    ensures Shaped(o.0)
    decreases |xs|
  {
    if xs == [] then (r, 0, Accepted)
    else
      var (r', v) := Put(r, xs[0]);
      if v != Accepted then (r', 0, v)
      else
        var (r'', n, v') := PutAll(r', xs[1..]);
        (r'', n + 1, v')
  }

  // ----- whole histories

  datatype Op<T> = OpPut(x: T) | OpGet | OpGetBatch(max: int) | OpClose
  datatype Response<T> = Answer(verdict: Verdict) | Cells(batch: seq<Cell<T>>)

  function Step<T>(r: Ring<T>, op: Op<T>): (o: (Ring<T>, Response<T>))
    requires Shaped(r)
    ensures Shaped(o.0)
  {
    match op
    case OpPut(x) => var (r', v) := Put(r, x); (r', Answer(v))
    case OpGet => var (r', cells) := GetBatch(r, 1); (r', Cells(cells))
    case OpGetBatch(max) => var (r', cells) := GetBatch(r, max); (r', Cells(cells))
    case OpClose => (r.(closed := true), Cells([]))
  }

  function Run<T>(r: Ring<T>, ops: seq<Op<T>>): (o: (Ring<T>, seq<Response<T>>))
    requires Shaped(r)
    ensures Shaped(o.0) && |o.1| == |ops|
    decreases |ops|
  {
    if ops == [] then (r, [])
    else
      var last := |ops| - 1;
      var (r', answers) := Run(r, ops[..last]);
      var (r'', a) := Step(r', ops[last]);
      (r'', answers + [a])
  }

  function Filled<T>(xs: seq<T>): (cells: seq<Cell<T>>)
    ensures |cells| == |xs| && forall i :: 0 <= i < |xs| ==> cells[i] == Item(xs[i])
  {
    seq(|xs|, i requires 0 <= i < |xs| => Item(xs[i]))
  }

  /** What the same operation does to a bounded FIFO sequence. */
  function SpecStep<T>(q: Queue<T>, op: Op<T>): (o: (Queue<T>, Response<T>))
    requires Bounded(q)
    ensures Bounded(o.0)
  {
    match op
    case OpPut(x) => var (q', v) := Offer(q, x); (q', Answer(v))
    case OpGet => var (q', b) := TakeBatch(q, 1); (q', Cells(Filled(b)))
    case OpGetBatch(max) => var (q', b) := TakeBatch(q, max); (q', Cells(Filled(b)))
    case OpClose => (q.(closed := true), Cells([]))
  }

  function SpecRun<T>(q: Queue<T>, ops: seq<Op<T>>): (o: (Queue<T>, seq<Response<T>>))
    requires Bounded(q)
    ensures Bounded(o.0) && |o.1| == |ops|
    decreases |ops|
  {
    if ops == [] then (q, [])
    else
      var last := |ops| - 1;
      var (q', answers) := SpecRun(q, ops[..last]);
      var (q'', a) := SpecStep(q', ops[last]);
      (q'', answers + [a])
  }

  // ----- with a power of two it is a queue

  /** A power-of-two capacity, the counted slots filled and all others dead. */
  ghost predicate IsQueue<T>(r: Ring<T>) {
    && Shaped(r) && IsPowerOfTwo(|r.items|)
    && forall k: nat :: k < |r.items| ==> (r.items[Index(r.tail, k, |r.items|)].Item? <==> k < r.count)
  }

  /** The queue a ring stands for, read from the tail on. */
  ghost function Abs<T>(r: Ring<T>): (q: Queue<T>)
    requires IsQueue(r)
    ensures Bounded(q)
  {
    Queue(seq(r.count, k requires 0 <= k < r.count => r.items[Index(r.tail, k, |r.items|)].value),
          |r.items|, r.policy, r.closed)
  }

  lemma AbsLayout<T>(r: Ring<T>)
    requires IsQueue(r)
    ensures Layout(r.items, r.tail, Abs(r).contents)
  {
  }

  /** The layout determines the queue. */
  lemma AbsIs<T>(r: Ring<T>, s: seq<T>)
    requires Shaped(r) && IsPowerOfTwo(|r.items|) && Layout(r.items, r.tail, s) && |s| == r.count
    ensures IsQueue(r) && Abs(r) == Queue(s, |r.items|, r.policy, r.closed)
  {
    assert Abs(r).contents == s;
  }

  lemma MaskedIsIndex<T>(items: seq<Cell<T>>, tail: nat, k: nat)
    requires IsPowerOfTwo(|items|)
    ensures |items| >= 1 && Masked(items, tail + k) == Index(tail, k, |items|)
  {
    var n: nat :| |items| == Pow2(n);
    MaskIsMod(tail + k, n);
  }

  lemma PutRefines<T>(r: Ring<T>, x: T)
    requires IsQueue(r)
    ensures IsQueue(Put(r, x).0) && (Abs(Put(r, x).0), Put(r, x).1) == Offer(Abs(r), x)
  {
    hide IsQueue, Layout, Masked, Abs;
    QueueShape(r);
    var s := Abs(r).contents;
    var r' := Put(r, x).0;
    MaskedIsIndex(r.items, r.tail, r.count);
    if r.closed {
    } else if r.count < |r.items| {
      PushLayout(r.items, r.tail, s, x);
      AbsIs(r', s + [x]);
    } else if r.policy.DropOldest? {
      ReplaceLayout(r.items, r.tail, s, x);
      AbsIs(r', s[1..] + [x]);
    }
  }

  lemma QueueShape<T>(r: Ring<T>)
    requires IsQueue(r)
    ensures Shaped(r) && IsPowerOfTwo(|r.items|) && Layout(r.items, r.tail, Abs(r).contents)
    ensures Abs(r) == Queue(Abs(r).contents, |r.items|, r.policy, r.closed) && |Abs(r).contents| == r.count
  {
    AbsLayout(r);
  }

  lemma {:induction false} SweepRefines<T>(items: seq<Cell<T>>, tail: nat, s: seq<T>, n: nat)
    requires |items| >= 1 && IsPowerOfTwo(|items|) && Layout(items, tail, s) && n <= |s|
    ensures Layout(Sweep(items, tail, n).0, tail + n, s[n..]) && Sweep(items, tail, n).1 == Filled(s[..n])
  {
    hide Layout, Masked;
    if n == 0 {
      assert s[n..] == s;
    } else {
      SweepRefines(items, tail, s, n - 1);
      var (left, cells) := Sweep(items, tail, n - 1);
      MaskedIsIndex(left, tail + n - 1, 0);
      FirstCell(left, tail + n - 1, s[n - 1..]);
      PopLayout(left, tail + n - 1, s[n - 1..], left[Index(tail + n - 1, 0, |left|) := Nil]);
      assert s[n - 1..][1..] == s[n..];
      assert Filled(s[..n]) == Filled(s[..n - 1]) + [Item(s[n - 1])];
    }
  }

  lemma FirstCell<T>(items: seq<Cell<T>>, tail: nat, s: seq<T>)
    requires Layout(items, tail, s) && s != []
    ensures items[Index(tail, 0, |items|)] == Item(s[0])
  {
  }

  lemma GetRefines<T>(r: Ring<T>, max: int)
    requires IsQueue(r)
    ensures IsQueue(GetBatch(r, max).0)
    ensures Abs(GetBatch(r, max).0) == TakeBatch(Abs(r), max).0
    ensures GetBatch(r, max).1 == Filled(TakeBatch(Abs(r), max).1)
    ensures var n := |GetBatch(r, max).1|;
      && n == (if max == 0 then 0 else if max < 0 then r.count else MinNat(max, r.count))
      && TakeBatch(Abs(r), max).1 == Abs(r).contents[..n]
  {
    hide IsQueue, Layout, Abs, Sweep;
    QueueShape(r);
    var n, s := BatchCount(r.count, max), Abs(r).contents;
    SweepRefines(r.items, r.tail, s, n);
    AbsIs(GetBatch(r, max).0, s[n..]);
  }

  lemma StepRefines<T>(r: Ring<T>, op: Op<T>)
    requires IsQueue(r)
    ensures IsQueue(Step(r, op).0) && (Abs(Step(r, op).0), Step(r, op).1) == SpecStep(Abs(r), op)
  {
    hide Put, GetBatch, Offer, TakeBatch;
    match op
    case OpPut(x) => PutRefines(r, x);
    case OpGet => GetRefines(r, 1);
    case OpGetBatch(max) => GetRefines(r, max);
    case OpClose => AbsClosed(r);
  }

  lemma AbsClosed<T>(r: Ring<T>)
    requires IsQueue(r)
    ensures IsQueue(r.(closed := true)) && Abs(r.(closed := true)) == Abs(r).(closed := true)
  {
    hide IsQueue, Layout, Abs;
    QueueShape(r);
    AbsIs(r.(closed := true), Abs(r).contents);
  }

  lemma {:induction false} PutAllRefines<T>(r: Ring<T>, xs: seq<T>)
    requires IsQueue(r)
    ensures var (r', n, v) := PutAll(r, xs); IsQueue(r') && (Abs(r'), n, v) == OfferAll(Abs(r), xs)
    decreases |xs|
  {
    hide IsQueue, Abs, Put, Offer;
    QueueShape(r);
    if xs != [] {
      PutRefines(r, xs[0]);
      if Put(r, xs[0]).1 == Accepted {
        PutAllRefines(Put(r, xs[0]).0, xs[1..]);
      }
    }
  }

  /** Any history on a power-of-two ring answers as the bounded FIFO sequence does. */
  lemma {:induction false} RunRefines<T>(r: Ring<T>, ops: seq<Op<T>>)
    requires IsQueue(r)
    ensures IsQueue(Run(r, ops).0) && (Abs(Run(r, ops).0), Run(r, ops).1) == SpecRun(Abs(r), ops)
    decreases |ops|
  {
    hide IsQueue, Abs, Step, SpecStep;
    QueueShape(r);
    if ops != [] {
      var last := |ops| - 1;
      RunRefines(r, ops[..last]);
      StepRefines(Run(r, ops[..last]).0, ops[last]);
    }
  }

  lemma FreshIsQueue<T>(c: nat, policy: Policy)
    requires c >= 1 && IsPowerOfTwo(c)
    ensures IsQueue(Fresh<T>(c, policy)) && Abs(Fresh<T>(c, policy)) == Queue([], c, policy, false)
  {
    AbsIs(Fresh<T>(c, policy), []);
  }

  // ----- and with any other capacity it is not

  lemma RunAdd<T>(r: Ring<T>, ops: seq<Op<T>>, op: Op<T>)
    requires Shaped(r)
    ensures Run(r, ops + [op]) == (Step(Run(r, ops).0, op).0, Run(r, ops).1 + [Step(Run(r, ops).0, op).1])
  {
    assert (ops + [op])[..|ops|] == ops;
  }

  lemma SpecAdd<T>(q: Queue<T>, ops: seq<Op<T>>, op: Op<T>)
    requires Bounded(q)
    ensures SpecRun(q, ops + [op])
         == (SpecStep(SpecRun(q, ops).0, op).0, SpecRun(q, ops).1 + [SpecStep(SpecRun(q, ops).0, op).1])
  {
    assert (ops + [op])[..|ops|] == ops;
  }

  /** One x and then n times y. */
  function Puts<T>(x: T, y: T, n: nat): (ops: seq<Op<T>>)
    ensures |ops| == n + 1
  {
    if n == 0 then [OpPut(x)] else Puts(x, y, n - 1) + [OpPut(y)]
  }

  function After<T>(x: T, y: T, n: nat): (s: seq<T>)
    ensures |s| == n + 1 && s[0] == x
  {
    if n == 0 then [x] else After(x, y, n - 1) + [y]
  }

  /** n items were put into a new ring of capacity c, and nothing taken out. */
  predicate Holds<T>(r: Ring<T>, c: nat, n: nat) {
    |r.items| == c && r.head == n && r.tail == 0 && r.count == n && !r.closed
  }

  lemma PutWithRoom<T>(r: Ring<T>, c: nat, n: nat, x: T)
    requires n < c && Holds(r, c, n)
    ensures var r' := Step(r, OpPut(x)).0; Holds(r', c, n + 1) && r'.items[Masked(r'.items, n)] == Item(x)
  {
  }

  lemma FirstPut<T>(c: nat, policy: Policy, x: T)
    requires c >= 1
    ensures Holds(Run(Fresh<T>(c, policy), [OpPut(x)]).0, c, 1)
  {
    var f := Fresh<T>(c, policy);
    assert Run(f, []).0 == f;
    assert [OpPut(x)][..0] == [];
    PutWithRoom(f, c, 0, x);
  }

  /** While there is room the cursors only count, and the last put is in the slot the head addressed. */
  lemma {:induction false} RingAfterPuts<T>(c: nat, policy: Policy, x: T, y: T, n: nat)
    requires n < c
    ensures var r := Run(Fresh<T>(c, policy), Puts(x, y, n)).0;
      Holds(r, c, n + 1) && (n > 0 ==> r.items[Masked(r.items, n)] == Item(y))
    decreases n
  {
    hide Step, Masked, Run, Holds;
    var f := Fresh<T>(c, policy);
    if n == 0 {
      FirstPut(c, policy, x);
    } else {
      RingAfterPuts(c, policy, x, y, n - 1);
      RunAdd(f, Puts(x, y, n - 1), OpPut(y));
      PutWithRoom(Run(f, Puts(x, y, n - 1)).0, c, n, y);
    }
  }

  lemma {:induction false} QueueAfterPuts<T>(c: nat, policy: Policy, x: T, y: T, n: nat)
    requires n < c
    ensures SpecRun(Queue([], c, policy, false), Puts(x, y, n)).0 == Queue(After(x, y, n), c, policy, false)
    decreases n
  {
    hide SpecRun, SpecStep;
    var q := Queue([], c, policy, false);
    if n == 0 {
      FirstOffer(q, x);
    } else {
      QueueAfterPuts(c, policy, x, y, n - 1);
      SpecAdd(q, Puts(x, y, n - 1), OpPut(y));
      OfferWithRoom(Queue(After(x, y, n - 1), c, policy, false), y);
    }
  }

  lemma OfferWithRoom<T>(q: Queue<T>, x: T)
    requires !q.closed && |q.contents| < q.capacity
    ensures SpecStep(q, OpPut(x)).0 == q.(contents := q.contents + [x])
  {
  }

  lemma FirstOffer<T>(q: Queue<T>, x: T)
    requires q.contents == [] && q.capacity >= 1 && !q.closed
    ensures SpecRun(q, [OpPut(x)]).0 == q.(contents := [x])
  {
    assert [OpPut(x)][..0] == [];
    assert SpecRun(q, []).0 == q;
    OfferWithRoom(q, x);
  }

  /** When the n-th cursor is masked to slot 0, n + 1 puts that fit and one get answer with the newest item instead of
      the oldest. */
  lemma Overwrites<T>(c: nat, policy: Policy, x: T, y: T, n: nat)
    requires 0 < n < c && And(n, c - 1) == 0
    ensures var ops := Puts(x, y, n) + [OpGet];
      && Run(Fresh<T>(c, policy), ops).1[n + 1] == Cells([Item(y)])
      && SpecRun(Queue([], c, policy, false), ops).1[n + 1] == Cells([Item(x)])
  {
    hide Run, SpecRun, Puts, After;
    var f, q, puts := Fresh<T>(c, policy), Queue([], c, policy, false), Puts(x, y, n);
    RunAdd(f, puts, OpGet);
    SpecAdd(q, puts, OpGet);
    RingAfterPuts(c, policy, x, y, n);
    QueueAfterPuts(c, policy, x, y, n);
    FirstGet(Run(f, puts).0, y);
    FirstTake(SpecRun(q, puts).0, x);
  }

  lemma FirstGet<T>(r: Ring<T>, y: T)
    requires Shaped(r) && r.tail == 0 && r.count >= 1 && r.items[0] == Item(y)
    ensures Step(r, OpGet).1 == Cells([Item(y)])
  {
    assert Sweep(r.items, 0, 0) == (r.items, []);
    assert And(0, |r.items| - 1) == 0;
  }

  lemma FirstTake<T>(q: Queue<T>, x: T)
    requires Bounded(q) && q.contents != [] && q.contents[0] == x
    ensures SpecStep(q, OpGet).1 == Cells([Item(x)])
  {
    assert Filled(q.contents[..1]) == [Item(x)];
  }

  /** Every history on a new ring of capacity c answers as the bounded FIFO sequence does. */
  ghost predicate AnswersAsQueue<T(!new)>(c: nat, policy: Policy)
    requires c >= 1
  {
    forall ops: seq<Op<T>> :: Run(Fresh<T>(c, policy), ops).1 == SpecRun(Queue([], c, policy, false), ops).1
  }

  /** The exact condition, under every policy: a ring is a queue if and only if its capacity is a power of two. */
  lemma RingExact<T(!new)>(c: nat, policy: Policy, x: T, y: T)
    requires c >= 1 && x != y
    ensures AnswersAsQueue<T>(c, policy) <==> IsPowerOfTwo(c)
  {
    hide Run, SpecRun, IsPowerOfTwo;
    if IsPowerOfTwo(c) {
      FreshIsQueue<T>(c, policy);
      forall ops: seq<Op<T>>
        ensures Run(Fresh<T>(c, policy), ops).1 == SpecRun(Queue([], c, policy, false), ops).1
      {
        RunRefines(Fresh<T>(c, policy), ops);
      }
    } else {
      var n := MaskedToZero(c);
      Overwrites(c, policy, x, y, n);
      var ops := Puts(x, y, n) + [OpGet];
      assert Run(Fresh<T>(c, policy), ops).1 != SpecRun(Queue([], c, policy, false), ops).1;
    }
  }

  /** A capacity that is no power of two masks some cursor below it to slot 0. */
  lemma MaskedToZero(c: nat) returns (n: nat)
    requires c >= 1 && !IsPowerOfTwo(c)
    ensures 0 < n < c && And(n, c - 1) == 0
  {
    var width := Width(c - 1);
    assert c != Pow2(width);
    var i := ZeroBit(c - 1, width);
    AndPower(c - 1, i);
    Pow2Monotone(i, width - 1);
    n := Pow2(i);
  }

  /** With an odd capacity the second item of an almost empty ring overwrites the first. */
  lemma OddOverwrites<T>(c: nat, policy: Policy, x: T, y: T)
    requires c > 1 && c % 2 == 1
    ensures Run(Fresh<T>(c, policy), [OpPut(x), OpPut(y), OpGet]).1[2] == Cells([Item(y)])
  {
    hide Run, SpecRun;
    assert And(0, (c - 1) / 2) == 0;
    Overwrites(c, policy, x, y, 1);
    assert Puts(x, y, 0) == [OpPut(x)];
    assert Puts(x, y, 1) + [OpGet] == [OpPut(x), OpPut(y), OpGet];
  }

  /** The least request that goes wrong, 2^32 + 1, gives such a ring. */
  lemma SmallestMissOverwrites<T>(c: nat, policy: Policy, x: T, y: T)
    requires c == Rounded(0x1_0000_0001)
    ensures c > 1 && Run(Fresh<T>(c, policy), [OpPut(x), OpPut(y), OpGet]).1[2] == Cells([Item(y)])
  {
    hide Run, Rounded;
    SmallestMiss();
    OddOverwrites(c, policy, x, y);
  }

  /** Over all requests that yield any capacity: the ring is a queue if and only if the request is at most 2^62 and the
      request minus one has no gap of 32 zeros. */
  lemma RequestExact<T(!new)>(capacity: int, policy: Policy, x: T, y: T)
    requires IsInt64(capacity) && Rounded(capacity) >= 1 && x != y
    ensures AnswersAsQueue<T>(Rounded(capacity), policy)
       <==> capacity <= 1 || (capacity <= Pow2(62) && NoLongGap(capacity - 1))
  {
    hide AnswersAsQueue, NoLongGap, LeastPowerOfTwo;
    RingExact(Rounded(capacity), policy, x, y);
    if capacity > 1 {
      NextPowerOfTwoExact(capacity);
    } else {
      assert Pow2(0) == 1;
    }
  }
}
