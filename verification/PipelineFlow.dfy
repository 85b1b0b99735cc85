/** Every step moves deliveries between places: an accounting that conservation, the retry budget and
    termination all instantiate with their own valuation of a delivery at a place. */
module PipelineFlow {
  import opened Retry
  import opened RingSpec
  import opened TimerWheel
  import opened Pipeline

  datatype Place =
    | InQueue | WithPoller | InWheel | WithTicker | InChannel | WithTimer | InRing
    | Unfiltered | Kept | Dup | InPool
    | OnWorker       // its handler is running
    | Returning      // to be retried: through the ring or by a nack
    | Closing        // to be acked or dead-lettered
    | DeadLettered   // accepted by the DLQ, ack outstanding
    | InDrain
    | Nacked         // nacked, and redelivered under a new uid
    | Spent          // settled after a final decision
    | Left           // settled or abandoned without one
    | Decision       // not a place: one record per handler run, so that runs can be counted

  datatype Token = Token(place: Place, d: Delivery)

  type Valuation = Token -> int

  function At(f: Valuation, p: Place, d: Delivery): (v: int) {
    f(Token(p, d))
  }

  function Worth(f: Valuation, p: Place, ds: seq<Delivery>): (v: int) {
    if ds == [] then 0 else At(f, p, ds[0]) + Worth(f, p, ds[1..])
  }

  function Flat(bs: seq<seq<Delivery>>): (ds: seq<Delivery>) {
    if bs == [] then [] else bs[0] + Flat(bs[1..])
  }

  function DispWorth(f: Valuation, x: Dispatcher): (v: int) {
    if x.Working? then Worth(f, Unfiltered, x.todo) + Worth(f, Kept, x.kept) + Worth(f, Dup, x.dups) else 0
  }

  function SettlingPlace(a: Action): (p: Place) {
    if WantsRetry(a) then Returning else Closing
  }

  function WorkerWorth(f: Valuation, k: Worker): (v: int) {
    match k
    case Running(d) => At(f, OnWorker, d)
    case Settling(d, a, _) => At(f, SettlingPlace(a), d)
    case DlqSent(d) => At(f, DeadLettered, d)
    case _ => 0
  }

  function PoolWorth(f: Valuation, ws: seq<Worker>): (v: int) {
    if ws == [] then 0 else WorkerWorth(f, ws[0]) + PoolWorth(f, ws[1..])
  }

  function DrainWorth(f: Valuation, p: Phase): (v: int) {
    if p.Draining? then Worth(f, InDrain, p.rest) else 0
  }

  /** Where an event leaves its delivery for good, and the record of each handler run. */
  function EventWorth(f: Valuation, e: Event): (v: int) {
    match e
    case Decided(d, _, _, _, _) => At(f, Decision, d)
    case AckCalled(d, why, _) => At(f, if why.Duplicate? then Left else Spent, d)
    case NackCalled(d, _, requeued, _) => At(f, if requeued then Nacked else Left, d)
    case DlqCalled(d, ok, _) => if ok then 0 else At(f, Spent, d)
    case OutcomeIgnored(d) => At(f, Spent, d)
    case Rejected(d, _) => At(f, Left, d)
    case InsertIgnored(d) => At(f, Left, d)
    case BatchDropped(d) => At(f, Left, d)
    case _ => 0
  }

  function LogWorth(f: Valuation, log: seq<Event>): (v: int) {
    if log == [] then 0 else LogWorth(f, log[..|log| - 1]) + EventWorth(f, log[|log| - 1])
  }

  /** What is in the transport, the poller, the wheel and the timer. */
  function IntakeWorth(f: Valuation, s: State): (v: int) {
    Worth(f, InQueue, s.queue) + Worth(f, WithPoller, s.pollHeld) + Worth(f, InWheel, Items(s.wheel)) +
    Worth(f, WithTicker, s.tickHeld) + Worth(f, InChannel, Flat(s.channel)) + Worth(f, WithTimer, s.timerHeld)
  }

  /** What is in the ring, with the dispatcher, the pool and the final drain. */
  function DispatchWorth(f: Valuation, s: State): (v: int) {
    Worth(f, InRing, s.ring.contents) + DispWorth(f, s.disp) + Worth(f, InPool, s.pool) +
    PoolWorth(f, s.workers) + DrainWorth(f, s.phase)
  }

  function Total(f: Valuation, s: State): (v: int) {
    IntakeWorth(f, s) + DispatchWorth(f, s) + LogWorth(f, s.log)
  }

  // ----- sums

  lemma {:induction false} WorthConcat(f: Valuation, p: Place, a: seq<Delivery>, b: seq<Delivery>)
    ensures Worth(f, p, a + b) == Worth(f, p, a) + Worth(f, p, b)
  {
    if a == [] {
      assert a + b == b;
    } else {
      WorthConcat(f, p, a[1..], b);
      assert (a + b)[1..] == a[1..] + b;
    }
  }

  lemma WorthHead(f: Valuation, p: Place, ds: seq<Delivery>)
    requires ds != []
    ensures Worth(f, p, ds) == At(f, p, ds[0]) + Worth(f, p, ds[1..])
  {
  }

  lemma WorthNone(f: Valuation, p: Place)
    ensures Worth(f, p, []) == 0
  {
  }

  lemma WorthSplit(f: Valuation, p: Place, ds: seq<Delivery>, n: nat)
    requires n <= |ds|
    ensures Worth(f, p, ds) == Worth(f, p, ds[..n]) + Worth(f, p, ds[n..])
  {
    WorthConcat(f, p, ds[..n], ds[n..]);
    assert ds == ds[..n] + ds[n..];
  }

  lemma WorthAdd(f: Valuation, p: Place, ds: seq<Delivery>, d: Delivery)
    ensures Worth(f, p, ds + [d]) == Worth(f, p, ds) + At(f, p, d)
  {
    WorthConcat(f, p, ds, [d]);
    assert Worth(f, p, [d]) == At(f, p, d) + Worth(f, p, [d][1..]);
  }

  lemma {:induction false} FlatAdd(bs: seq<seq<Delivery>>, b: seq<Delivery>)
    ensures Flat(bs + [b]) == Flat(bs) + b
  {
    if bs == [] {
      assert (bs + [b])[1..] == [];
    } else {
      FlatAdd(bs[1..], b);
      assert (bs + [b])[1..] == bs[1..] + [b];
    }
  }

  function Without<T>(s: seq<T>, i: nat): (r: seq<T>)
    requires i < |s|
  {
    s[..i] + s[i + 1..]
  }

  lemma WithoutMultiset<T>(s: seq<T>, i: nat)
    requires i < |s|
    ensures multiset(Without(s, i)) == multiset(s) - multiset{s[i]}
  {
    assert s == s[..i] + ([s[i]] + s[i + 1..]);
  }

  lemma WorthRemove(f: Valuation, p: Place, slots: seq<Slot<Delivery>>, i: nat)
    requires i < |slots|
    ensures Worth(f, p, Items(slots)) == At(f, p, slots[i].item) + Worth(f, p, Items(Without(slots, i)))
  {
    var a, b := slots[..i], slots[i + 1..];
    assert slots == a + [slots[i]] + b;
    ItemsConcat(a + [slots[i]], b);
    ItemsConcat(a, [slots[i]]);
    ItemsConcat(a, b);
    assert Items([slots[i]]) == [slots[i].item];
    WorthConcat(f, p, Items(a) + [slots[i].item], Items(b));
    WorthAdd(f, p, Items(a), slots[i].item);
    WorthConcat(f, p, Items(a), Items(b));
  }

  /** The order of the wheel's slots does not matter. */
  lemma {:induction false} WorthPermuted(f: Valuation, p: Place, a: seq<Slot<Delivery>>, b: seq<Slot<Delivery>>)
    requires multiset(a) == multiset(b)
    ensures Worth(f, p, Items(a)) == Worth(f, p, Items(b))
    decreases |a|
  {
    if a == [] {
      EmptyMultiset(b);
    } else {
      assert a[0] in multiset(a);
      assert a[0] in b;
      var i :| 0 <= i < |b| && b[i] == a[0];
      WithoutMultiset(a, 0);
      WithoutMultiset(b, i);
      WorthPermuted(f, p, Without(a, 0), Without(b, i));
      WorthRemove(f, p, a, 0);
      WorthRemove(f, p, b, i);
    }
  }

  lemma EmptyMultiset<T>(s: seq<T>)
    ensures multiset(s) == multiset{} ==> s == []
  {
    assert |multiset(s)| == |s|;
  }

  lemma {:induction false} PoolUpdate(f: Valuation, ws: seq<Worker>, w: nat, k: Worker)
    requires w < |ws|
    ensures PoolWorth(f, ws[w := k]) == PoolWorth(f, ws) - WorkerWorth(f, ws[w]) + WorkerWorth(f, k)
  {
    if w == 0 {
      assert ws[w := k][1..] == ws[1..];
    } else {
      PoolUpdate(f, ws[1..], w - 1, k);
      assert ws[w := k][1..] == ws[1..][w - 1 := k];
    }
  }

  lemma LogAdd(f: Valuation, log: seq<Event>, e: Event)
    ensures LogWorth(f, log + [e]) == LogWorth(f, log) + EventWorth(f, e)
  {
    assert (log + [e])[..|log|] == log;
  }

  lemma {:induction false} LogDropped(f: Valuation, log: seq<Event>, ds: seq<Delivery>)
    ensures LogWorth(f, log + Dropped(ds)) == LogWorth(f, log) + Worth(f, Left, ds)
    decreases |ds|
  {
    if ds == [] {
      assert log + Dropped(ds) == log;
    } else {
      var init, last := ds[..|ds| - 1], ds[|ds| - 1];
      assert ds == init + [last];
      assert log + Dropped(ds) == (log + Dropped(init)) + [BatchDropped(last)];
      LogDropped(f, log, init);
      LogAdd(f, log + Dropped(init), BatchDropped(last));
      WorthAdd(f, Left, init, last);
    }
  }

  // ----- what each step adds to the total

  /** Where an enqueued delivery ends up. */
  function EnqueuedAt(s: State, d: Delivery): (p: Place)
    requires Bounded(s.ring)
  {
    if Offer(s.ring, d).1 == Accepted then InRing else Left
  }

  function Moved(f: Valuation, from: Place, to: Place, ds: seq<Delivery>): (v: int) {
    Worth(f, to, ds) - Worth(f, from, ds)
  }

  function PollGain(f: Valuation, s: State, l: PollStep): (v: int)
    requires Bounded(s.ring) && CanPoll(s, l)
  {
    match l
    case Receive(n) => Moved(f, InQueue, WithPoller, s.queue[..n])
    case Deliver =>
      var d := s.pollHeld[0];
      At(f, if d.msg.notBefore <= 0 then EnqueuedAt(s, d) else if s.wheelOpen then InWheel else Left, d)
      - At(f, WithPoller, d)
    case PollExit(_) => 0
  }

  function TickGain(f: Valuation, s: State, l: TickStep): (v: int) {
    match l
    case Expire(_, out, _) => Moved(f, InWheel, WithTicker, Items(out))
    case SendBatch => Moved(f, WithTicker, InChannel, s.tickHeld)
    case TickExit => Moved(f, WithTicker, Left, s.tickHeld)
  }

  function TimerGain(f: Valuation, s: State, l: TimerStep): (v: int)
    requires Bounded(s.ring) && CanTimer(s, l)
  {
    match l
    case TimerReceive => Moved(f, InChannel, WithTimer, s.channel[0])
    case TimerEnqueue => At(f, EnqueuedAt(s, s.timerHeld[0]), s.timerHeld[0]) - At(f, WithTimer, s.timerHeld[0])
    case TimerExit => 0
  }

  /** Where a filter step puts the first unfiltered message. */
  function FilteredTo(c: Config, s: State, x: FilterStep): (p: Place)
    requires CanDisp(c, s, Filter(x))
  {
    match x
    case Skip => Kept
    case Fetch => Unfiltered
    case Check =>
      if s.disp.probe.entry.None? then Kept else if s.now > s.disp.probe.entry.value then Unfiltered else Dup
    case Delete => Kept
    case StoreError => Dup
  }

  function DispGain(f: Valuation, c: Config, s: State, l: DispStep): (v: int)
    requires Bounded(s.ring) && CanDisp(c, s, l)
  {
    match l
    case Dequeue => Moved(f, InRing, Unfiltered, TakeBatch(s.ring, if s.disp.draining then 100 else 10).1)
    case Filter(x) => At(f, FilteredTo(c, s, x), s.disp.todo[0]) - At(f, Unfiltered, s.disp.todo[0])
    case AckDup => At(f, Left, s.disp.dups[0]) - At(f, Dup, s.disp.dups[0])
    case Submit => if s.poolOpen then At(f, InPool, s.disp.kept[0]) - At(f, Kept, s.disp.kept[0]) else 0
    case _ => 0
  }

  function SettleGain(f: Valuation, s: State, d: Delivery, a: Action, ok: bool, requeue: bool): (v: int)
    requires Bounded(s.ring)
  {
    match a
    case Ack => At(f, Spent, d)
    case Retry => At(f, EnqueuedAt(s, Again(d)), Again(d))
    case RetryWithDelay =>
      if requeue then At(f, Nacked, d) + At(f, InQueue, Again(d).(uid := s.next)) else At(f, Left, d)
    case DLQ => At(f, if ok then DeadLettered else Spent, d)
    case Unknown(_) => At(f, Spent, d)
  }

  function WorkGain(f: Valuation, c: Config, s: State, w: nat, l: WorkStep): (v: int)
    requires Bounded(s.ring) && w < |s.workers| && CanWork(c, s, w, l)
  {
    match l
    case Take =>
      At(f, if s.pool[0].msg.topic in c.handlers then OnWorker else Closing, s.pool[0]) - At(f, InPool, s.pool[0])
    case Decide(result) =>
      var d := s.workers[w].d;
      var o := Handle(c.handlers[d.msg.topic], c.overflow, d.msg, result);
      At(f, SettlingPlace(o.action), d.(msg := o.message)) - At(f, OnWorker, d) + At(f, Decision, d)
    case Settle(ok, requeue) =>
      SettleGain(f, s, s.workers[w].d, s.workers[w].action, ok, requeue)
      - At(f, SettlingPlace(s.workers[w].action), s.workers[w].d)
    case AckDead => At(f, Spent, s.workers[w].d) - At(f, DeadLettered, s.workers[w].d)
    case Mark(_) => 0
    case WorkExit => 0
  }

  function MainGain(f: Valuation, s: State): (v: int)
    requires Bounded(s.ring)
  {
    match s.phase
    case RingClosed => Moved(f, InWheel, InDrain, Items(s.wheel))
    case Draining(rest) => if rest == [] then 0 else At(f, EnqueuedAt(s, rest[0]), rest[0]) - At(f, InDrain, rest[0])
    case _ => 0
  }

  function EnvGain(f: Valuation, s: State, l: EnvStep): (v: int) {
    if l.Publish? && s.transportOpen then At(f, InQueue, Delivery(s.next, s.next, l.m.attempts, true, l.m)) else 0
  }

  ghost function Gain(f: Valuation, c: Config, s: State, l: Label): (v: int)
    requires Enabled(c, s, l)
  {
    match l
    case Env(e) => EnvGain(f, s, e)
    case Poll(p) => PollGain(f, s, p)
    case Tick(x) => TickGain(f, s, x)
    case Timer(r) => TimerGain(f, s, r)
    case Disp(x) => DispGain(f, c, s, x)
    case Work(w, k) => WorkGain(f, c, s, w, k)
    case Evict(_) => 0
    case Main => MainGain(f, s)
  }

  /** How many uids a step issues: one for a publish and one for a redelivered nack. */
  function Issued(s: State, l: Label): (n: nat) {
    if (l.Env? && l.e.Publish? && s.transportOpen) || (l.Work? && l.k.Settle? && l.k.requeue) then 1 else 0
  }

  // ----- the accounting, step by step

  lemma OfferWorth(f: Valuation, s: State, d: Delivery)
    requires Bounded(s.ring) && s.ring.policy == Block && CanEnqueue(s, d)
    ensures Worth(f, InRing, Offer(s.ring, d).0.contents) + LogWorth(f, EnqueueLog(s, d))
      == Worth(f, InRing, s.ring.contents) + LogWorth(f, s.log) + At(f, EnqueuedAt(s, d), d)
  {
    hide Worth, LogWorth, PoolWorth, Flat;
    WorthAdd(f, InRing, s.ring.contents, d);
    LogAdd(f, s.log, Rejected(d, s.phase.Draining?));
  }

  lemma EnvFlow(f: Valuation, s: State, l: EnvStep, t: State)
    requires t == DoEnv(s, l)
    ensures Total(f, t) == Total(f, s) + EnvGain(f, s, l)
    ensures t.next == s.next + Issued(s, Env(l))
  {
    hide Worth, LogWorth, PoolWorth, Flat;
    match l
    case Publish(m) =>
      var d := Delivery(s.next, s.next, m.attempts, true, m);
      WorthAdd(f, InQueue, s.queue, d);
      LogAdd(f, s.log, Arrived(d));
    case Cancel =>
    case Pass(_) =>
  }

  lemma WheelInsert(f: Valuation, wheel: seq<Slot<Delivery>>, slot: Slot<Delivery>)
    ensures Worth(f, InWheel, Items(wheel + [slot])) == Worth(f, InWheel, Items(wheel)) + At(f, InWheel, slot.item)
  {
    assert Items(wheel + [slot]) == Items(wheel) + [slot.item];
    WorthAdd(f, InWheel, Items(wheel), slot.item);
  }

  lemma DeliverNow(f: Valuation, s: State)
    requires Bounded(s.ring) && s.ring.policy == Block && CanPoll(s, Deliver) && s.pollHeld[0].msg.notBefore <= 0
    ensures Total(f, DoDeliver(s)) == Total(f, s) + PollGain(f, s, Deliver)
    ensures DoDeliver(s).next == s.next
  {
    hide Worth, LogWorth, PoolWorth, Flat;
    WorthHead(f, WithPoller, s.pollHeld);
    OfferWorth(f, s, s.pollHeld[0]);
  }

  lemma DeliverLater(f: Valuation, s: State)
    requires Bounded(s.ring) && CanPoll(s, Deliver) && s.pollHeld[0].msg.notBefore > 0
    ensures Total(f, DoDeliver(s)) == Total(f, s) + PollGain(f, s, Deliver)
    ensures DoDeliver(s).next == s.next
  {
    hide Worth, LogWorth, PoolWorth, Flat;
    var d := s.pollHeld[0];
    WorthHead(f, WithPoller, s.pollHeld);
    WheelInsert(f, s.wheel, Slot(s.now + d.msg.notBefore, d));
    LogAdd(f, s.log, InsertIgnored(d));
  }

  lemma PollFlow(f: Valuation, s: State, l: PollStep, t: State)
    requires Bounded(s.ring) && s.ring.policy == Block && CanPoll(s, l) && t == DoPoll(s, l)
    ensures Total(f, t) == Total(f, s) + PollGain(f, s, l)
    ensures t.next == s.next
  {
    hide Worth, LogWorth, PoolWorth, Flat;
    WorthNone(f, WithPoller);
    match l
    case Receive(n) => WorthSplit(f, InQueue, s.queue, n);
    case Deliver =>
      if s.pollHeld[0].msg.notBefore <= 0 {
        DeliverNow(f, s);
      } else {
        DeliverLater(f, s);
      }
    case PollExit(_) =>
  }

  lemma ExpireWorth(f: Valuation, wheel: seq<Slot<Delivery>>, out: seq<Slot<Delivery>>, rest: seq<Slot<Delivery>>)
    requires multiset(wheel) == multiset(rest) + multiset(out)
    ensures Worth(f, InWheel, Items(wheel)) == Worth(f, InWheel, Items(rest)) + Worth(f, InWheel, Items(out))
  {
    assert multiset(wheel) == multiset(rest + out);
    WorthPermuted(f, InWheel, wheel, rest + out);
    assert Items(rest + out) == Items(rest) + Items(out);
    WorthConcat(f, InWheel, Items(rest), Items(out));
  }

  lemma TickFlow(f: Valuation, s: State, l: TickStep, t: State)
    requires CanTick(s, l) && t == DoTick(s, l)
    ensures Total(f, t) == Total(f, s) + TickGain(f, s, l)
    ensures t.next == s.next
  {
    hide Worth, LogWorth, PoolWorth, Flat;
    WorthNone(f, WithTicker);
    match l
    case Expire(_, out, rest) => ExpireWorth(f, s.wheel, out, rest);
    case SendBatch =>
      FlatAdd(s.channel, s.tickHeld);
      WorthConcat(f, InChannel, Flat(s.channel), s.tickHeld);
    case TickExit => LogDropped(f, s.log, s.tickHeld);
  }

  lemma FlatHead(bs: seq<seq<Delivery>>)
    requires bs != []
    ensures Flat(bs) == bs[0] + Flat(bs[1..])
  {
  }

  lemma TimerFlow(f: Valuation, s: State, l: TimerStep, t: State)
    requires Bounded(s.ring) && s.ring.policy == Block && CanTimer(s, l) && t == DoTimer(s, l)
    ensures Total(f, t) == Total(f, s) + TimerGain(f, s, l)
    ensures t.next == s.next
  {
    hide Worth, LogWorth, PoolWorth, Flat;
    WorthNone(f, WithTimer);
    match l
    case TimerReceive =>
      FlatHead(s.channel);
      WorthConcat(f, InChannel, s.channel[0], Flat(s.channel[1..]));
    case TimerEnqueue =>
      WorthHead(f, WithTimer, s.timerHeld);
      OfferWorth(f, s, s.timerHeld[0]);
    case TimerExit =>
  }

  lemma FilterFlow(f: Valuation, c: Config, s: State, x: FilterStep)
    requires Bounded(s.ring) && CanDisp(c, s, Filter(x))
    ensures Total(f, DoFilter(c, s, x)) == Total(f, s) + DispGain(f, c, s, Filter(x))
    ensures DoFilter(c, s, x).next == s.next
  {
    hide Worth, LogWorth, PoolWorth, Flat;
    var w := s.disp;
    WorthAdd(f, Kept, w.kept, w.todo[0]);
    WorthAdd(f, Dup, w.dups, w.todo[0]);
    FilterWorth(f, c, s, x);
    LogAdd(f, s.log, FoundDuplicate(w.todo[0], s.now));
  }

  lemma FilterWorth(f: Valuation, c: Config, s: State, x: FilterStep)
    requires CanDisp(c, s, Filter(x))
    requires Worth(f, Kept, s.disp.kept + [s.disp.todo[0]]) == Worth(f, Kept, s.disp.kept) + At(f, Kept, s.disp.todo[0])
    requires Worth(f, Dup, s.disp.dups + [s.disp.todo[0]]) == Worth(f, Dup, s.disp.dups) + At(f, Dup, s.disp.todo[0])
    ensures DispWorth(f, NextProbe(c, s.now, s.keys, s.disp, x))
      == DispWorth(f, s.disp) + At(f, FilteredTo(c, s, x), s.disp.todo[0]) - At(f, Unfiltered, s.disp.todo[0])
  {
    hide Worth, LogWorth, PoolWorth, Flat;
    WorthHead(f, Unfiltered, s.disp.todo);
  }

  lemma DispFlow(f: Valuation, c: Config, s: State, l: DispStep, t: State)
    requires Bounded(s.ring) && CanDisp(c, s, l) && t == DoDisp(c, s, l)
    ensures Total(f, t) == Total(f, s) + DispGain(f, c, s, l)
    ensures t.next == s.next
  {
    hide Worth, LogWorth, PoolWorth, Flat;
    WorthNone(f, Unfiltered);
    WorthNone(f, Kept);
    WorthNone(f, Dup);
    match l
    case Dequeue =>
      var max := if s.disp.draining then 100 else 10;
      WorthSplit(f, InRing, s.ring.contents, BatchSize(s.ring, max));
    case Filter(x) => FilterFlow(f, c, s, x);
    case AckDup =>
      WorthHead(f, Dup, s.disp.dups);
      LogAdd(f, s.log, AckCalled(s.disp.dups[0], Duplicate, s.transportOpen));
    case Submit =>
      WorthHead(f, Kept, s.disp.kept);
      WorthAdd(f, InPool, s.pool, s.disp.kept[0]);
      LogAdd(f, s.log, if s.poolOpen then Submitted(s.disp.kept[0], s.batch) else SubmitPanic);
    case _ =>
  }

  lemma SettleAckFlow(f: Valuation, c: Config, s: State, w: nat, d: Delivery)
    requires w < |s.workers|
    ensures Total(f, SettleAck(c, s, w, d)) == Total(f, s) - WorkerWorth(f, s.workers[w]) + At(f, Spent, d)
    ensures SettleAck(c, s, w, d).next == s.next
  {
    hide Worth, LogWorth, PoolWorth, Flat;
    PoolUpdate(f, s.workers, w, if c.store then Marking(d.msg) else Free);
    LogAdd(f, s.log, AckCalled(d, HandlerAck, s.transportOpen));
  }

  lemma SettleRetryFlow(f: Valuation, s: State, w: nat, d: Delivery)
    requires Bounded(s.ring) && s.ring.policy == Block && w < |s.workers| && CanEnqueue(s, Again(d))
    ensures Total(f, SettleRetry(s, w, d))
      == Total(f, s) - WorkerWorth(f, s.workers[w]) + At(f, EnqueuedAt(s, Again(d)), Again(d))
    ensures SettleRetry(s, w, d).next == s.next
  {
    hide Worth, LogWorth, PoolWorth, Flat;
    PoolUpdate(f, s.workers, w, Free);
    OfferWorth(f, s, Again(d));
  }

  lemma SettleNackFlow(f: Valuation, s: State, w: nat, d: Delivery, delay: int, requeue: bool)
    requires Bounded(s.ring) && w < |s.workers|
    ensures Total(f, SettleNack(s, w, d, delay, requeue))
      == Total(f, s) - WorkerWorth(f, s.workers[w]) + SettleGain(f, s, d, RetryWithDelay, true, requeue)
    ensures SettleNack(s, w, d, delay, requeue).next == if requeue then s.next + 1 else s.next
  {
    hide Worth, LogWorth, PoolWorth, Flat;
    PoolUpdate(f, s.workers, w, Free);
    WorthAdd(f, InQueue, s.queue, Again(d).(uid := s.next));
    LogAdd(f, s.log, NackCalled(d, delay, requeue, s.transportOpen));
  }

  lemma SettleDlqFlow(f: Valuation, s: State, w: nat, d: Delivery, ok: bool)
    requires w < |s.workers|
    ensures Total(f, SettleDlq(s, w, d, ok))
      == Total(f, s) - WorkerWorth(f, s.workers[w]) + At(f, if ok then DeadLettered else Spent, d)
    ensures SettleDlq(s, w, d, ok).next == s.next
  {
    hide Worth, LogWorth, PoolWorth, Flat;
    PoolUpdate(f, s.workers, w, if ok then DlqSent(d) else Free);
    LogAdd(f, s.log, DlqCalled(d, ok, s.transportOpen));
  }

  lemma SettleNothingFlow(f: Valuation, s: State, w: nat, d: Delivery)
    requires w < |s.workers|
    ensures Total(f, SettleNothing(s, w, d)) == Total(f, s) - WorkerWorth(f, s.workers[w]) + At(f, Spent, d)
    ensures SettleNothing(s, w, d).next == s.next
  {
    hide Worth, LogWorth, PoolWorth, Flat;
    PoolUpdate(f, s.workers, w, Free);
    LogAdd(f, s.log, OutcomeIgnored(d));
  }

  lemma SettleFlow(f: Valuation, c: Config, s: State, w: nat, ok: bool, requeue: bool, t: State)
    requires Bounded(s.ring) && s.ring.policy == Block && w < |s.workers| && CanWork(c, s, w, Settle(ok, requeue))
    requires t == DoSettle(c, s, w, ok, requeue)
    ensures Total(f, t) == Total(f, s) + WorkGain(f, c, s, w, Settle(ok, requeue))
    ensures t.next == if requeue then s.next + 1 else s.next
  {
    hide Worth, LogWorth, PoolWorth, Flat;
    var k := s.workers[w];
    match k.action
    case Ack => SettleAckFlow(f, c, s, w, k.d);
    case Retry => SettleRetryFlow(f, s, w, k.d);
    case RetryWithDelay => SettleNackFlow(f, s, w, k.d, k.delay, requeue);
    case DLQ => SettleDlqFlow(f, s, w, k.d, ok);
    case Unknown(_) => SettleNothingFlow(f, s, w, k.d);
  }

  lemma TakeKnown(f: Valuation, c: Config, s: State, w: nat)
    requires w < |s.workers| && s.workers[w].Free? && s.pool != [] && s.pool[0].msg.topic in c.handlers
    ensures Total(f, DoTake(c, s, w)) == Total(f, s) + At(f, OnWorker, s.pool[0]) - At(f, InPool, s.pool[0])
    ensures DoTake(c, s, w).next == s.next
  {
    hide Worth, LogWorth, PoolWorth, Flat;
    WorthHead(f, InPool, s.pool);
    PoolUpdate(f, s.workers, w, Running(s.pool[0]));
    LogAdd(f, s.log, Started(s.pool[0], s.batch, s.now));
  }

  lemma TakeUnknown(f: Valuation, c: Config, s: State, w: nat)
    requires w < |s.workers| && s.workers[w].Free? && s.pool != [] && s.pool[0].msg.topic !in c.handlers
    ensures Total(f, DoTake(c, s, w)) == Total(f, s) + At(f, Closing, s.pool[0]) - At(f, InPool, s.pool[0])
    ensures DoTake(c, s, w).next == s.next
  {
    hide Worth, LogWorth, PoolWorth, Flat;
    WorthHead(f, InPool, s.pool);
    PoolUpdate(f, s.workers, w, Settling(s.pool[0], DLQ, 0));
  }

  lemma DecideFlow(f: Valuation, c: Config, s: State, w: nat, result: Result)
    requires Bounded(s.ring) && w < |s.workers| && CanWork(c, s, w, Decide(result))
    ensures Total(f, DoDecide(c, s, w, s.workers[w].d, result)) == Total(f, s) + WorkGain(f, c, s, w, Decide(result))
    ensures DoDecide(c, s, w, s.workers[w].d, result).next == s.next
  {
    hide Worth, LogWorth, PoolWorth, Flat;
    var d := s.workers[w].d;
    var o := Handle(c.handlers[d.msg.topic], c.overflow, d.msg, result);
    PoolUpdate(f, s.workers, w, Settling(d.(msg := o.message), o.action, o.delay));
    LogAdd(f, s.log, Decided(d, s.batch, s.now, result, o.action));
  }

  lemma MarkFlow(f: Valuation, c: Config, s: State, w: nat, m: Message, marked: bool)
    requires w < |s.workers| && s.workers[w] == Marking(m)
    ensures Total(f, DoMark(c, s, w, m, marked)) == Total(f, s)
    ensures DoMark(c, s, w, m, marked).next == s.next
  {
    hide Worth, LogWorth, PoolWorth, Flat;
    if m.key.None? || !marked {
      PoolUpdate(f, s.workers, w, Free);
    } else if s.storeOpen {
      PoolUpdate(f, s.workers, w, Free);
      LogAdd(f, s.log, Marked(m.key.value, s.batch, s.now));
    } else {
      LogAdd(f, s.log, MarkPanic);
    }
  }

  lemma WorkFlow(f: Valuation, c: Config, s: State, w: nat, l: WorkStep, t: State)
    requires Bounded(s.ring) && s.ring.policy == Block && w < |s.workers| && CanWork(c, s, w, l)
    requires t == DoWork(c, s, w, l)
    ensures Total(f, t) == Total(f, s) + WorkGain(f, c, s, w, l)
    ensures t.next == if l.Settle? && l.requeue then s.next + 1 else s.next
  {
    hide Worth, LogWorth, PoolWorth, Flat;
    match l
    case Take =>
      if s.pool[0].msg.topic in c.handlers {
        TakeKnown(f, c, s, w);
      } else {
        TakeUnknown(f, c, s, w);
      }
    case Decide(result) => DecideFlow(f, c, s, w, result);
    case Settle(ok, requeue) => SettleFlow(f, c, s, w, ok, requeue, t);
    case AckDead =>
      PoolUpdate(f, s.workers, w, Free);
      LogAdd(f, s.log, AckCalled(s.workers[w].d, DeadLetter, s.transportOpen));
    case Mark(marked) => MarkFlow(f, c, s, w, s.workers[w].m, marked);
    case WorkExit => PoolUpdate(f, s.workers, w, Exited);
  }

  lemma DrainFlow(f: Valuation, s: State)
    requires Bounded(s.ring) && s.ring.policy == Block && CanMain(s) && s.phase.Draining? && s.phase.rest != []
    ensures Total(f, DoDrain(s)) == Total(f, s) + MainGain(f, s)
    ensures DoDrain(s).next == s.next
  {
    hide Worth, LogWorth, PoolWorth, Flat;
    WorthHead(f, InDrain, s.phase.rest);
    OfferWorth(f, s, s.phase.rest[0]);
  }

  lemma WheelDrainFlow(f: Valuation, s: State)
    requires Bounded(s.ring) && s.phase.RingClosed?
    ensures Total(f, DoDrainWheel(s)) == Total(f, s) + MainGain(f, s)
    ensures DoDrainWheel(s).next == s.next
  {
    hide Worth, LogWorth, PoolWorth, Flat;
    WorthNone(f, InWheel);
    assert Items<Delivery>([]) == [];
  }

  lemma MainFlow(f: Valuation, s: State, t: State)
    requires Bounded(s.ring) && s.ring.policy == Block && CanMain(s) && t == DoMain(s)
    ensures Total(f, t) == Total(f, s) + MainGain(f, s)
    ensures t.next == s.next
  {
    hide Total, Worth, DoDrainWheel, DoFinish, DoDrain, DoStop;
    if s.phase.RingClosed? {
      WheelDrainFlow(f, s);
    } else if s.phase == Draining([]) {
      FinishFlow(f, s);
    } else if s.phase.Draining? {
      DrainFlow(f, s);
    } else {
      StopFlow(f, s);
    }
  }

  lemma StopFlow(f: Valuation, s: State)
    requires !s.phase.Draining?
    ensures Total(f, DoStop(s)) == Total(f, s)
    ensures DoStop(s).next == s.next
  {
    hide Worth, LogWorth, PoolWorth, Flat;
  }

  lemma FinishFlow(f: Valuation, s: State)
    requires s.phase == Draining([])
    ensures Total(f, DoFinish(s)) == Total(f, s)
    ensures DoFinish(s).next == s.next
  {
    hide Worth, LogWorth, PoolWorth, Flat;
    WorthNone(f, InDrain);
  }

  /** The accounting identity: one step changes the total by exactly its gain, whatever the valuation. */
  lemma Flow(f: Valuation, c: Config, s: State, l: Label, t: State)
    requires Enabled(c, s, l) && t == Apply(c, s, l)
    ensures Total(f, t) == Total(f, s) + Gain(f, c, s, l)
    ensures t.next == s.next + Issued(s, l)
  {
    match l
    case Env(e) => EnvFlow(f, s, e, t);
    case Poll(p) => PollFlow(f, s, p, t);
    case Tick(x) => TickFlow(f, s, x, t);
    case Timer(r) => TimerFlow(f, s, r, t);
    case Disp(x) => DispFlow(f, c, s, x, t);
    case Work(w, k) => WorkFlow(f, c, s, w, k, t);
    case Evict(v) => EvictFlow(f, s, v, t);
    case Main => MainFlow(f, s, t);
  }

  lemma EvictFlow(f: Valuation, s: State, l: EvictStep, t: State)
    requires CanEvict(s, l) && t == DoEvict(s, l)
    ensures Total(f, t) == Total(f, s)
    ensures t.next == s.next
  {
    hide Worth, LogWorth, PoolWorth, Flat;
  }
}
