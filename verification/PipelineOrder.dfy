/** End-to-end order: immediate messages reach the pool in the order they were published. */
module PipelineOrder {
  import opened Retry
  import opened RingSpec
  import opened TimerWheel
  import opened Pipeline
  import opened PipelineControl

  /** A first delivery of a message without delay. */
  predicate Immediate(d: Delivery) {
    d.first && d.msg.notBefore <= 0
  }

  datatype Kind = Publishes | Submits

  predicate IsKind(e: Event, k: Kind) {
    match k
    case Publishes => e.Arrived?
    case Submits => e.Submitted?
  }

  /** The deliveries of all publish events, or of all submit events, in the order of the log. */
  function Pick(log: seq<Event>, k: Kind): (ds: seq<Delivery>) {
    if log == [] then []
    else
      var e := log[|log| - 1];
      Pick(log[..|log| - 1], k) + if IsKind(e, k) then PickOne(e) else []
  }

  function PickOne(e: Event): (ds: seq<Delivery>) {
    match e
    case Arrived(d) => [d]
    case Submitted(d, _) => [d]
    case _ => []
  }

  lemma PickAdd(log: seq<Event>, e: Event, k: Kind)
    ensures Pick(log + [e], k) == Pick(log, k) + if IsKind(e, k) then PickOne(e) else []
  {
    assert (log + [e])[..|log|] == log;
  }

  /** An event that is neither a publish nor a submit. */
  lemma PickSkip(log: seq<Event>, e: Event)
    requires !e.Arrived? && !e.Submitted?
    ensures Pick(log + [e], Publishes) == Pick(log, Publishes) && Pick(log + [e], Submits) == Pick(log, Submits)
  {
    PickAdd(log, e, Publishes);
    PickAdd(log, e, Submits);
  }

  lemma Regroup<T>(a: seq<T>, b: seq<T>, c: seq<T>, d: seq<T>)
    ensures a + (b + (c + d)) == (a + (b + c)) + d
  {
  }

  lemma {:induction false} PickDropped(log: seq<Event>, ds: seq<Delivery>, k: Kind)
    ensures Pick(log + Dropped(ds), k) == Pick(log, k)
    decreases |ds|
  {
    if ds == [] {
      assert log + Dropped(ds) == log;
    } else {
      var init, last := ds[..|ds| - 1], ds[|ds| - 1];
      assert log + Dropped(ds) == (log + Dropped(init)) + [BatchDropped(last)];
      PickDropped(log, init, k);
      PickAdd(log + Dropped(init), BatchDropped(last), k);
    }
  }

  // ----- the line from the pool back to the transport

  function Ahead(x: Dispatcher): (ds: seq<Delivery>) {
    if x.Working? then x.kept + x.todo else []
  }

  /** Everything submitted so far, then what is ahead in the batch, the ring, the poller and the transport. */
  function Line(s: State): (ds: seq<Delivery>) {
    Pick(s.log, Submits) + (Ahead(s.disp) + (s.ring.contents + (s.pollHeld + s.queue)))
  }

  predicate Ordered(ds: seq<Delivery>) {
    forall i, j :: 0 <= i < j < |ds| && Immediate(ds[i]) && Immediate(ds[j]) ==> ds[i].uid < ds[j].uid
  }

  predicate Increasing(ds: seq<Delivery>) {
    forall i, j :: 0 <= i < j < |ds| ==> ds[i].uid < ds[j].uid
  }

  ghost predicate AllDelayed(ds: seq<Delivery>) {
    forall d :: d in ds ==> d.msg.notBefore > 0
  }

  /** Whatever waits for its time is delayed. */
  ghost predicate Delayed(s: State) {
    && AllDelayed(Items(s.wheel)) && AllDelayed(s.tickHeld) && AllDelayed(s.timerHeld)
    && (forall i :: 0 <= i < |s.channel| ==> AllDelayed(s.channel[i]))
    && (s.phase.Draining? ==> AllDelayed(s.phase.rest))
  }

  ghost predicate LineOk(line: seq<Delivery>, arrivals: seq<Delivery>, next: nat) {
    && Ordered(line)
    && Increasing(arrivals)
    && (forall d :: d in arrivals ==> d.uid < next)
    && (forall d :: d in line && Immediate(d) ==> d in arrivals)
  }

  ghost predicate InOrder(s: State) {
    LineOk(Line(s), Pick(s.log, Publishes), s.next) && Delayed(s)
  }

  lemma RemoveOne(x: seq<Delivery>, d: Delivery, y: seq<Delivery>, arrivals: seq<Delivery>, next: nat, next': nat)
    requires LineOk(x + ([d] + y), arrivals, next) && next <= next'
    ensures LineOk(x + y, arrivals, next')
  {
    var a, b := x + ([d] + y), x + y;
    forall i, j | 0 <= i < j < |b| && Immediate(b[i]) && Immediate(b[j])
      ensures b[i].uid < b[j].uid
    {
      var i', j' := if i < |x| then i else i + 1, if j < |x| then j else j + 1;
      assert a[i'] == b[i] && a[j'] == b[j];
    }
  }

  lemma InsertOne(x: seq<Delivery>, d: Delivery, y: seq<Delivery>, arrivals: seq<Delivery>, next: nat, next': nat)
    requires LineOk(x + y, arrivals, next) && next <= next' && !Immediate(d)
    ensures LineOk(x + ([d] + y), arrivals, next')
  {
    var a, b := x + y, x + ([d] + y);
    forall i, j | 0 <= i < j < |b| && Immediate(b[i]) && Immediate(b[j])
      ensures b[i].uid < b[j].uid
    {
      var i', j' := if i < |x| then i else i - 1, if j < |x| then j else j - 1;
      assert a[i'] == b[i] && a[j'] == b[j];
    }
  }

  lemma PublishOne(line: seq<Delivery>, d: Delivery, arrivals: seq<Delivery>, next: nat)
    requires LineOk(line, arrivals, next) && d.uid == next
    ensures LineOk(line + [d], arrivals + [d], next + 1)
  {
  }

  // ----- each step in turn

  /** Nothing that waits for its time is touched. */
  predicate SameWait(s: State, t: State) {
    && t.wheel == s.wheel && t.tickHeld == s.tickHeld && t.timerHeld == s.timerHeld
    && t.channel == s.channel && t.phase == s.phase
  }

  lemma SameDelayed(s: State, t: State)
    requires Delayed(s) && SameWait(s, t)
    ensures Delayed(t)
  {
  }

  lemma OrderSame(s: State, t: State)
    requires InOrder(s) && Line(t) == Line(s) && Pick(t.log, Publishes) == Pick(s.log, Publishes)
    requires t.next == s.next && SameWait(s, t)
    ensures InOrder(t)
  {
    hide LineOk, Pick, Line;
  }

  lemma AtEnd<T>(a: seq<T>, b: seq<T>, c: seq<T>, d: seq<T>, e: seq<T>, x: T)
    ensures a + (b + (c + (d + (e + [x])))) == (a + (b + (c + (d + e)))) + [x]
  {
  }

  lemma PublishLine(s: State, m: Message, d: Delivery)
    requires s.transportOpen && d == Delivery(s.next, s.next, m.attempts, true, m)
    ensures Line(DoPublish(s, m)) == Line(s) + [d]
    ensures Pick(DoPublish(s, m).log, Publishes) == Pick(s.log, Publishes) + [d]
  {
    hide Pick;
    PickAdd(s.log, Arrived(d), Publishes);
    PickAdd(s.log, Arrived(d), Submits);
    assert Pick(s.log, Submits) + [] == Pick(s.log, Submits);
    AtEnd(Pick(s.log, Submits), Ahead(s.disp), s.ring.contents, s.pollHeld, s.queue, d);
  }

  lemma OrderPublish(s: State, m: Message)
    requires InOrder(s) && s.transportOpen
    ensures InOrder(DoPublish(s, m))
  {
    hide LineOk, Pick, Line, Delayed;
    var d := Delivery(s.next, s.next, m.attempts, true, m);
    PublishLine(s, m, d);
    PublishOne(Line(s), d, Pick(s.log, Publishes), s.next);
    SameDelayed(s, DoPublish(s, m));
  }

  lemma OrderUnpublished(s: State, m: Message)
    requires InOrder(s) && !s.transportOpen
    ensures InOrder(DoPublish(s, m))
  {
    hide InOrder, Pick;
    OrderSame(s, DoPublish(s, m));
  }

  lemma OrderReceive(s: State, n: nat)
    requires InOrder(s) && s.pollHeld == [] && n <= |s.queue|
    ensures InOrder(s.(pollHeld := s.queue[..n], queue := s.queue[n..]))
  {
    hide LineOk, Pick;
    assert [] + s.queue == s.queue[..n] + s.queue[n..];
  }

  /** Line with the poller's first message singled out. */
  lemma SplitHeld(s: State, front: seq<Delivery>, rest: seq<Delivery>)
    requires s.pollHeld != []
    requires front == Pick(s.log, Submits) + (Ahead(s.disp) + s.ring.contents) && rest == s.pollHeld[1..] + s.queue
    ensures Line(s) == front + ([s.pollHeld[0]] + rest)
  {
  }

  lemma OrderDeliverNow(s: State)
    requires Bounded(s.ring) && s.ring.policy == Block && InOrder(s) && CanPoll(s, Deliver)
    requires s.pollHeld[0].msg.notBefore <= 0 && !s.ring.closed
    ensures InOrder(DoDeliver(s))
  {
    hide LineOk, Pick, Delayed;
    var t := DoDeliver(s);
    assert t.ring.contents + (t.pollHeld + t.queue) == s.ring.contents + (s.pollHeld + s.queue);
    OrderSame(s, t);
  }

  lemma OrderDeliverClosed(s: State)
    requires Bounded(s.ring) && InOrder(s) && CanPoll(s, Deliver)
    requires s.pollHeld[0].msg.notBefore <= 0 && s.ring.closed
    ensures InOrder(DoDeliver(s))
  {
    hide LineOk, Pick, Delayed;
    var d, t := s.pollHeld[0], DoDeliver(s);
    var rest := s.pollHeld[1..] + s.queue;
    var front := Pick(s.log, Submits) + (Ahead(s.disp) + s.ring.contents);
    SplitHeld(s, front, rest);
    PickSkip(s.log, Rejected(d, s.phase.Draining?));
    Regroup(Pick(s.log, Submits), Ahead(s.disp), s.ring.contents, rest);
    RemoveOne(front, d, rest, Pick(s.log, Publishes), s.next, s.next);
    SameDelayed(s, t);
  }

  lemma OrderDeliverLater(s: State)
    requires Bounded(s.ring) && InOrder(s) && CanPoll(s, Deliver) && s.pollHeld[0].msg.notBefore > 0
    ensures InOrder(DoDeliver(s))
  {
    hide LineOk, Pick;
    var d, t := s.pollHeld[0], DoDeliver(s);
    var rest := s.pollHeld[1..] + s.queue;
    var front := Pick(s.log, Submits) + (Ahead(s.disp) + s.ring.contents);
    SplitHeld(s, front, rest);
    PickSkip(s.log, InsertIgnored(d));
    Regroup(Pick(s.log, Submits), Ahead(s.disp), s.ring.contents, rest);
    RemoveOne(front, d, rest, Pick(s.log, Publishes), s.next, s.next);
    InsertDelayed(s.wheel, Slot(s.now + d.msg.notBefore, d));
  }

  lemma InsertDelayed(wheel: seq<Slot<Delivery>>, slot: Slot<Delivery>)
    requires AllDelayed(Items(wheel)) && slot.item.msg.notBefore > 0
    ensures AllDelayed(Items(wheel + [slot]))
  {
    assert Items(wheel + [slot]) == Items(wheel) + [slot.item];
  }

  lemma OrderPoll(s: State, l: PollStep, t: State)
    requires Bounded(s.ring) && s.ring.policy == Block && InOrder(s) && CanPoll(s, l) && t == DoPoll(s, l)
    ensures InOrder(t)
  {
    hide LineOk, Pick, DoDeliver;
    match l
    case Receive(n) => OrderReceive(s, n);
    case Deliver =>
      if s.pollHeld[0].msg.notBefore > 0 {
        OrderDeliverLater(s);
      } else if s.ring.closed {
        OrderDeliverClosed(s);
      } else {
        OrderDeliverNow(s);
      }
    case PollExit(_) =>
  }

  lemma ExpireDelayed(s: State, tick: int, out: seq<Slot<Delivery>>, rest: seq<Slot<Delivery>>)
    requires AllDelayed(Items(s.wheel)) && Expires(multiset(s.wheel), multiset(rest), tick, s.now, out)
    ensures AllDelayed(Items(out)) && AllDelayed(Items(rest))
  {
    forall x | x in out || x in rest
      ensures x.item in Items(s.wheel)
    {
      assert x in multiset(rest) + multiset(out);
      assert x in s.wheel;
      var i :| 0 <= i < |s.wheel| && s.wheel[i] == x;
      assert Items(s.wheel)[i] == x.item;
    }
    forall d | d in Items(out)
      ensures d.msg.notBefore > 0
    {
      var i :| 0 <= i < |out| && Items(out)[i] == d;
      assert out[i] in out;
    }
    forall d | d in Items(rest)
      ensures d.msg.notBefore > 0
    {
      var i :| 0 <= i < |rest| && Items(rest)[i] == d;
      assert rest[i] in rest;
    }
  }

  lemma OrderTick(s: State, l: TickStep, t: State)
    requires InOrder(s) && CanTick(s, l) && t == DoTick(s, l)
    ensures InOrder(t)
  {
    hide LineOk, Pick, Expires;
    match l
    case Expire(tick, out, rest) => ExpireDelayed(s, tick, out, rest);
    case SendBatch =>
    case TickExit =>
      PickDropped(s.log, s.tickHeld, Publishes);
      PickDropped(s.log, s.tickHeld, Submits);
  }

  /** An enqueue of something that is not an immediate first delivery: a timer message, a retry. */
  lemma OrderEnqueue(s: State, d: Delivery, t: State)
    requires Bounded(s.ring) && s.ring.policy == Block && InOrder(s) && CanEnqueue(s, d) && !Immediate(d) && Delayed(t)
    requires t.ring == Offer(s.ring, d).0 && t.log == EnqueueLog(s, d) && t.next == s.next
    requires t.disp == s.disp && t.pollHeld == s.pollHeld && t.queue == s.queue
    ensures InOrder(t)
  {
    hide LineOk, Pick, Delayed;
    var rest := s.pollHeld + s.queue;
    var front := Pick(s.log, Submits) + (Ahead(s.disp) + s.ring.contents);
    assert Line(s) == front + rest;
    if s.ring.closed {
      PickSkip(s.log, Rejected(d, s.phase.Draining?));
      assert Line(t) == Line(s);
    } else {
      assert Line(t) == front + ([d] + rest);
      InsertOne(front, d, rest, Pick(s.log, Publishes), s.next, s.next);
    }
  }

  lemma OrderTimer(s: State, l: TimerStep, t: State)
    requires Bounded(s.ring) && s.ring.policy == Block && InOrder(s) && CanTimer(s, l) && t == DoTimer(s, l)
    ensures InOrder(t)
  {
    hide LineOk, Pick, Offer;
    match l
    case TimerReceive =>
    case TimerEnqueue => OrderEnqueue(s, s.timerHeld[0], t);
    case TimerExit =>
  }

  lemma DropMiddle<T>(a: seq<T>, b: seq<T>, c: seq<T>, d: seq<T>)
    requires c != []
    ensures a + ((b + c) + d) == (a + b) + ([c[0]] + (c[1..] + d))
    ensures a + ((b + c[1..]) + d) == (a + b) + (c[1..] + d)
  {
    assert c == [c[0]] + c[1..];
  }

  lemma OrderDiscard(c: Config, s: State, f: FilterStep)
    requires InOrder(s) && CanDisp(c, s, Filter(f)) && Discards(s.now, s.disp, f)
    ensures InOrder(DoFilter(c, s, f))
  {
    hide LineOk, Pick, Delayed;
    var t, after := DoFilter(c, s, f), s.ring.contents + (s.pollHeld + s.queue);
    PickSkip(s.log, FoundDuplicate(s.disp.todo[0], s.now));
    DropMiddle(Pick(s.log, Submits), s.disp.kept, s.disp.todo, after);
    RemoveOne(Pick(s.log, Submits) + s.disp.kept, s.disp.todo[0], s.disp.todo[1..] + after,
              Pick(s.log, Publishes), s.next, s.next);
    SameDelayed(s, t);
  }

  lemma OrderFilter(c: Config, s: State, f: FilterStep)
    requires InOrder(s) && CanDisp(c, s, Filter(f))
    ensures InOrder(DoFilter(c, s, f))
  {
    hide LineOk, Pick, Delayed;
    var t := DoFilter(c, s, f);
    if Discards(s.now, s.disp, f) {
      OrderDiscard(c, s, f);
    } else {
      assert s.disp.todo == [s.disp.todo[0]] + s.disp.todo[1..];
      assert Ahead(t.disp) == Ahead(s.disp);
      OrderSame(s, t);
    }
  }

  lemma Shift<T>(a: seq<T>, b: seq<T>, c: seq<T>)
    ensures a + (b + c) == [] + ((a + b) + c)
  {
  }

  lemma OrderDequeue(s: State)
    requires Bounded(s.ring) && s.disp.Idle? && InOrder(s)
    ensures InOrder(DoDequeue(s))
  {
    hide LineOk, Pick, Delayed;
    var t := DoDequeue(s);
    assert Ahead(t.disp) == TakeBatch(s.ring, if s.disp.draining then 100 else 10).1;
    Shift(Ahead(t.disp), t.ring.contents, s.pollHeld + s.queue);
    OrderSame(s, t);
  }

  lemma OrderAckDup(s: State)
    requires s.disp.Working? && s.disp.dups != [] && InOrder(s)
    ensures InOrder(DoAckDup(s))
  {
    hide LineOk, Pick, Delayed;
    var e := AckCalled(s.disp.dups[0], Duplicate, s.transportOpen);
    PickSkip(s.log, e);
    OrderSame(s, DoAckDup(s));
  }

  lemma MoveFirst<T>(a: seq<T>, b: seq<T>, c: seq<T>, d: seq<T>)
    requires b != []
    ensures a + ((b + c) + d) == (a + [b[0]]) + ((b[1..] + c) + d)
  {
  }

  lemma OrderSubmit(c: Config, s: State)
    requires s.poolOpen && CanDisp(c, s, Submit) && InOrder(s)
    ensures InOrder(DoSubmit(s))
  {
    hide LineOk, Pick, Delayed;
    var d, t := s.disp.kept[0], DoSubmit(s);
    PickAdd(s.log, Submitted(d, s.batch), Publishes);
    PickAdd(s.log, Submitted(d, s.batch), Submits);
    MoveFirst(Pick(s.log, Submits), s.disp.kept, s.disp.todo, s.ring.contents + (s.pollHeld + s.queue));
    OrderSame(s, t);
  }

  lemma OrderDisp(c: Config, s: State, l: DispStep, t: State)
    requires Control(c, s) && InOrder(s) && CanDisp(c, s, l) && t == DoDisp(c, s, l)
    ensures InOrder(t)
  {
    hide LineOk, Pick, Delayed, DoFilter, DoDequeue, DoAckDup, DoSubmit, Busy, SafeLog;
    match l
    case StartDrain => OrderSame(s, t);
    case Look => OrderSame(s, t);
    case Resume => OrderSame(s, t);
    case DispExit => OrderSame(s, t);
    case Dequeue => OrderDequeue(s);
    case Filter(f) => OrderFilter(c, s, f);
    case AckDup => OrderAckDup(s);
    case Submit =>
      assert s.poolOpen;
      OrderSubmit(c, s);
    case Barrier => OrderSame(s, t);
  }

  /** A worker step that logs e, neither a publish nor a submit. */
  lemma OrderLog(s: State, e: Event, t: State)
    requires InOrder(s) && !e.Arrived? && !e.Submitted? && t.log == s.log + [e]
    requires t.disp == s.disp && t.ring == s.ring && t.pollHeld == s.pollHeld && t.queue == s.queue
    requires t.next == s.next && SameWait(s, t)
    ensures InOrder(t)
  {
    hide LineOk, Pick, Delayed;
    PickSkip(s.log, e);
    OrderSame(s, t);
  }

  lemma OrderRequeue(s: State, w: nat, d: Delivery, delay: int)
    requires w < |s.workers| && InOrder(s)
    ensures InOrder(SettleNack(s, w, d, delay, true))
  {
    hide LineOk, Pick, Delayed;
    var e := NackCalled(d, delay, true, s.transportOpen);
    PickSkip(s.log, e);
    var r, t := Again(d).(uid := s.next), SettleNack(s, w, d, delay, true);
    assert Line(s) + [] == Line(s);
    AtEnd(Pick(s.log, Submits), Ahead(s.disp), s.ring.contents, s.pollHeld, s.queue, r);
    assert Line(t) == Line(s) + ([r] + []);
    InsertOne(Line(s), r, [], Pick(s.log, Publishes), s.next, s.next + 1);
    SameDelayed(s, t);
  }

  lemma OrderNack(s: State, w: nat, d: Delivery, delay: int)
    requires w < |s.workers| && InOrder(s)
    ensures InOrder(SettleNack(s, w, d, delay, false))
  {
    hide InOrder;
    OrderLog(s, NackCalled(d, delay, false, s.transportOpen), SettleNack(s, w, d, delay, false));
  }

  lemma OrderAck(c: Config, s: State, w: nat, d: Delivery)
    requires w < |s.workers| && InOrder(s)
    ensures InOrder(SettleAck(c, s, w, d))
  {
    hide InOrder;
    OrderLog(s, AckCalled(d, HandlerAck, s.transportOpen), SettleAck(c, s, w, d));
  }

  lemma OrderDlq(s: State, w: nat, d: Delivery, ok: bool)
    requires w < |s.workers| && InOrder(s)
    ensures InOrder(SettleDlq(s, w, d, ok))
  {
    hide InOrder;
    OrderLog(s, DlqCalled(d, ok, s.transportOpen), SettleDlq(s, w, d, ok));
  }

  lemma OrderNothing(s: State, w: nat, d: Delivery)
    requires w < |s.workers| && InOrder(s)
    ensures InOrder(SettleNothing(s, w, d))
  {
    hide InOrder;
    OrderLog(s, OutcomeIgnored(d), SettleNothing(s, w, d));
  }

  lemma OrderRetry(s: State, w: nat, d: Delivery)
    requires Bounded(s.ring) && s.ring.policy == Block && w < |s.workers| && CanEnqueue(s, Again(d)) && InOrder(s)
    ensures InOrder(SettleRetry(s, w, d))
  {
    hide LineOk, Pick, Offer;
    OrderEnqueue(s, Again(d), SettleRetry(s, w, d));
  }

  lemma OrderSettle(c: Config, s: State, w: nat, ok: bool, requeue: bool, t: State)
    requires Bounded(s.ring) && s.ring.policy == Block && InOrder(s)
    requires w < |s.workers| && CanWork(c, s, w, Settle(ok, requeue)) && t == DoSettle(c, s, w, ok, requeue)
    ensures InOrder(t)
  {
    hide InOrder, SettleAck, SettleRetry, SettleNack, SettleDlq, SettleNothing, Offer;
    var k := s.workers[w];
    match k.action
    case Ack => OrderAck(c, s, w, k.d);
    case Retry => OrderRetry(s, w, k.d);
    case RetryWithDelay =>
      if requeue {
        OrderRequeue(s, w, k.d, k.delay);
      } else {
        OrderNack(s, w, k.d, k.delay);
      }
    case DLQ => OrderDlq(s, w, k.d, ok);
    case Unknown(_) => OrderNothing(s, w, k.d);
  }

  lemma OrderTake(c: Config, s: State, w: nat)
    requires w < |s.workers| && s.pool != [] && s.pool[0].msg.topic in c.handlers && InOrder(s)
    ensures InOrder(DoTake(c, s, w))
  {
    hide InOrder;
    OrderLog(s, Started(s.pool[0], s.batch, s.now), DoTake(c, s, w));
  }

  lemma OrderTakeUnknown(c: Config, s: State, w: nat)
    requires w < |s.workers| && s.pool != [] && s.pool[0].msg.topic !in c.handlers && InOrder(s)
    ensures InOrder(DoTake(c, s, w))
  {
    hide InOrder, Pick;
    OrderSame(s, DoTake(c, s, w));
  }

  lemma OrderMark(c: Config, s: State, w: nat, m: Message, marked: bool)
    requires w < |s.workers| && InOrder(s)
    ensures InOrder(DoMark(c, s, w, m, marked))
  {
    hide InOrder, Pick;
    var t := DoMark(c, s, w, m, marked);
    if m.key.None? || !marked {
      OrderSame(s, t);
    } else if s.storeOpen {
      OrderLog(s, Marked(m.key.value, s.batch, s.now), t);
    } else {
      OrderLog(s, MarkPanic, t);
    }
  }

  lemma OrderWork(c: Config, s: State, w: nat, l: WorkStep, t: State)
    requires Bounded(s.ring) && s.ring.policy == Block && InOrder(s)
    requires w < |s.workers| && CanWork(c, s, w, l) && t == DoWork(c, s, w, l)
    ensures InOrder(t)
  {
    hide InOrder, Pick, DoTake, DoDecide, DoSettle, DoAckDead, DoMark, Handle;
    match l
    case Take =>
      if s.pool[0].msg.topic in c.handlers {
        OrderTake(c, s, w);
      } else {
        OrderTakeUnknown(c, s, w);
      }
    case Decide(result) => OrderDecide(c, s, w, s.workers[w].d, result);
    case Settle(ok, requeue) => OrderSettle(c, s, w, ok, requeue, t);
    case AckDead => OrderAckDead(s, w, s.workers[w].d);
    case Mark(marked) => OrderMark(c, s, w, s.workers[w].m, marked);
    case WorkExit => OrderSame(s, t);
  }

  lemma OrderAckDead(s: State, w: nat, d: Delivery)
    requires w < |s.workers| && InOrder(s)
    ensures InOrder(DoAckDead(s, w, d))
  {
    hide InOrder;
    OrderLog(s, AckCalled(d, DeadLetter, s.transportOpen), DoAckDead(s, w, d));
  }

  lemma OrderDecide(c: Config, s: State, w: nat, d: Delivery, result: Result)
    requires w < |s.workers| && d.msg.topic in c.handlers && InOrder(s)
    ensures InOrder(DoDecide(c, s, w, d, result))
  {
    hide InOrder, Handle;
    var o := Handle(c.handlers[d.msg.topic], c.overflow, d.msg, result);
    OrderLog(s, Decided(d, s.batch, s.now, result, o.action), DoDecide(c, s, w, d, result));
  }

  lemma OrderDrain(s: State)
    requires Bounded(s.ring) && s.ring.policy == Block && InOrder(s) && s.phase.Draining? && s.phase.rest != []
    requires CanEnqueue(s, s.phase.rest[0])
    ensures InOrder(DoDrain(s))
  {
    hide LineOk, Pick, Offer;
    OrderEnqueue(s, s.phase.rest[0], DoDrain(s));
  }

  lemma OrderStop(s: State)
    requires InOrder(s) && !s.phase.Draining?
    ensures InOrder(DoStop(s))
  {
    hide LineOk, Pick;
    assert Line(DoStop(s)) == Line(s);
  }

  lemma OrderDrainWheel(s: State)
    requires InOrder(s)
    ensures InOrder(DoDrainWheel(s))
  {
  }

  lemma OrderFinish(s: State)
    requires InOrder(s)
    ensures InOrder(DoFinish(s))
  {
    hide LineOk, Pick;
    assert Line(DoFinish(s)) == Line(s);
  }

  lemma OrderMain(s: State, t: State)
    requires Bounded(s.ring) && s.ring.policy == Block && InOrder(s) && CanMain(s) && t == DoMain(s)
    ensures InOrder(t)
  {
    hide InOrder, DoDrain, DoStop, DoDrainWheel, DoFinish, Offer;
    if s.phase.RingClosed? {
      OrderDrainWheel(s);
    } else if s.phase == Draining([]) {
      OrderFinish(s);
    } else if s.phase.Draining? {
      OrderDrain(s);
    } else {
      OrderStop(s);
    }
  }

  lemma OrderStep(c: Config, s: State, l: Label, t: State)
    requires Control(c, s) && InOrder(s) && Enabled(c, s, l) && t == Apply(c, s, l)
    ensures InOrder(t)
  {
    hide InOrder, DoEnv, DoPoll, DoTick, DoTimer, DoDisp, DoWork, DoEvict, DoMain;
    match l
    case Env(e) => OrderEnv(s, e, t);
    case Poll(p) => OrderPoll(s, p, t);
    case Tick(x) => OrderTick(s, x, t);
    case Timer(r) => OrderTimer(s, r, t);
    case Disp(x) => OrderDisp(c, s, x, t);
    case Work(w, k) => OrderWork(c, s, w, k, t);
    case Evict(v) => OrderEvict(s, v, t);
    case Main => OrderMain(s, t);
  }

  lemma OrderEnv(s: State, l: EnvStep, t: State)
    requires InOrder(s) && t == DoEnv(s, l)
    ensures InOrder(t)
  {
    hide LineOk, Pick, Delayed, DoPublish;
    match l
    case Publish(m) =>
      if s.transportOpen {
        OrderPublish(s, m);
      } else {
        OrderUnpublished(s, m);
      }
    case Cancel => OrderSame(s, t);
    case Pass(_) => OrderSame(s, t);
  }

  lemma OrderEvict(s: State, l: EvictStep, t: State)
    requires InOrder(s) && CanEvict(s, l) && t == DoEvict(s, l)
    ensures InOrder(t)
  {
  }

  lemma OrderInitial(c: Config, now: int)
    requires WellFormed(c)
    ensures InOrder(Initial(c, now))
  {
    assert Items<Delivery>([]) == [];
  }

  lemma {:induction false} OrderRun(c: Config, s: State, ls: seq<Label>, t: State)
    requires Control(c, s) && InOrder(s) && Run(c, s, ls, t)
    ensures InOrder(t)
    decreases |ls|
  {
    hide InOrder, Control;
    if ls != [] {
      var s' := Apply(c, s, ls[0]);
      OrderStep(c, s, ls[0], s');
      ControlStep(c, s, ls[0], s');
      OrderRun(c, s', ls[1..], t);
    }
  }

  lemma SortedIndices(ds: seq<Delivery>, p: nat, q: nat)
    requires Increasing(ds) && p < |ds| && q < |ds| && ds[p].uid < ds[q].uid
    ensures p < q
  {
  }

  function IndexOf(ds: seq<Delivery>, d: Delivery): (i: nat)
    ensures d in ds ==> i < |ds| && ds[i] == d
  {
    if ds == [] || ds[0] == d then 0 else 1 + IndexOf(ds[1..], d)
  }

  /** In any run, the immediate first deliveries submitted to the pool are a subsequence of what was published:
      `at` sends each to its publish and is strictly increasing, so none is reordered, invented or submitted twice. */
  lemma EndToEndOrder(c: Config, now: int, ls: seq<Label>, t: State) returns (at: seq<nat>)
    requires WellFormed(c) && Run(c, Initial(c, now), ls, t)
    ensures var subs, pubs := Pick(t.log, Submits), Pick(t.log, Publishes);
      && |at| == |subs|
      && (forall i :: 0 <= i < |subs| && Immediate(subs[i]) ==> at[i] < |pubs| && pubs[at[i]] == subs[i])
      && (forall i, j :: 0 <= i < j < |subs| && Immediate(subs[i]) && Immediate(subs[j]) ==> at[i] < at[j])
  {
    hide Control, Pick, Initial, Run;
    ControlInitial(c, now);
    OrderInitial(c, now);
    OrderRun(c, Initial(c, now), ls, t);
    var subs, pubs := Pick(t.log, Submits), Pick(t.log, Publishes);
    at := seq(|subs|, i requires 0 <= i < |subs| => IndexOf(pubs, subs[i]));
    forall i | 0 <= i < |subs| && Immediate(subs[i])
      ensures subs[i] in pubs
    {
      assert Line(t)[i] == subs[i];
      assert subs[i] in Line(t);
    }
    forall i, j | 0 <= i < j < |subs| && Immediate(subs[i]) && Immediate(subs[j])
      ensures at[i] < at[j]
    {
      assert Line(t)[i] == subs[i] && Line(t)[j] == subs[j];
      SortedIndices(pubs, at[i], at[j]);
    }
  }
}
