/** The running pipeline as a step machine: one label per lock- or channel-level action of ringq/ringq.go. */
module Pipeline {
  import opened Retry
  import opened RingSpec
  import opened TimerWheel
  import opened IdemStore

  /** One delivery. `uid` numbers deliveries, `origin` is the uid of the publish it descends from,
      `born` is Attempts at that publish, and `first` holds until the message is retried. */
  datatype Delivery = Delivery(uid: nat, origin: nat, born: int, first: bool, msg: Message)

  datatype Config = Config(
    handlers: map<string, Coordinator>,
    ringCapacity: nat,
    poolSize: nat,
    store: bool,         // an idempotency store is configured
    storeErrors: bool,   // its calls may fail; the memory store's never do
    ttl: int,
    overflow: int)

  predicate WellFormed(c: Config) {
    c.ringCapacity >= 1 && c.poolSize >= 1
  }

  // ----- history

  datatype Why = HandlerAck | Duplicate | DeadLetter

  datatype Event =
    | Arrived(d: Delivery)
    | Submitted(d: Delivery, batch: nat)
    | FoundDuplicate(d: Delivery, at: int)   // the OnDuplicate hook
    | Started(d: Delivery, batch: nat, at: int)
    | Decided(d: Delivery, batch: nat, at: int, result: Result, action: Action)
    | AckCalled(d: Delivery, why: Why, open: bool)
    | NackCalled(d: Delivery, delay: int, requeued: bool, open: bool)
    | DlqCalled(d: Delivery, ok: bool, open: bool)
    | OutcomeIgnored(d: Delivery)
    | Rejected(d: Delivery, draining: bool)
    | InsertIgnored(d: Delivery)
    | BatchDropped(d: Delivery)
    | Marked(key: string, batch: nat, at: int)
    | SubmitPanic
    | MarkPanic

  // ----- state

  /** The filter's progress on the first unfiltered message of a batch. */
  datatype Probe = NoProbe | Fetched(entry: Option<int>) | Stale

  datatype Dispatcher =
    | Idle(draining: bool)
    | SawEmpty
    | Working(draining: bool, todo: seq<Delivery>, probe: Probe, kept: seq<Delivery>, dups: seq<Delivery>)
    | Gone

  datatype Worker =
    | Free
    | Running(d: Delivery)
    | Settling(d: Delivery, action: Action, delay: int)
    | DlqSent(d: Delivery)
    | Marking(m: Message)
    | Exited

  /** Where Run stands. */
  datatype Phase =
    | Serving
    | StopDispatcher   // dispCancel called, waiting for the dispatcher
    | StopTimer        // timerCancel called, waiting for the timer
    | CloseTransport   // transport closed, waiting for the poller
    | StopPool         // work channel closed, waiting for the workers
    | RingClosed
    | Draining(rest: seq<Delivery>)
    | Finished

  datatype State = State(
    now: int,
    cancelled: bool, pollCancelled: bool, phase: Phase,
    queue: seq<Delivery>, transportOpen: bool, next: nat,
    pollHeld: seq<Delivery>, pollExited: bool,
    wheel: seq<Slot<Delivery>>, wheelOpen: bool,
    tickHeld: seq<Delivery>, tickExited: bool,
    channel: seq<seq<Delivery>>,
    timerHeld: seq<Delivery>, timerExited: bool,
    ring: Queue<Delivery>,
    disp: Dispatcher, batch: nat,
    wg: int,
    pool: seq<Delivery>, poolOpen: bool,
    workers: seq<Worker>,
    keys: Keys, storeOpen: bool, evict: Option<int>,
    log: seq<Event>)

  function Initial(c: Config, now: int): (s: State)
    requires WellFormed(c)
    ensures Shape(c, s)
  {
    State(now, false, false, Serving, [], true, 0, [], false, [], true, [], false, [], [], false,
          Queue([], c.ringCapacity, Block, false), Idle(false), 0, 0, [], true,
          seq(c.poolSize, _ => Free), map[], true, None, [])
  }

  /** Sizes and policy that no step changes. */
  predicate Shape(c: Config, s: State) {
    && Bounded(s.ring) && s.ring.policy == Block && s.ring.capacity == c.ringCapacity
    && |s.workers| == c.poolSize
  }

  predicate DispCancelled(s: State) {
    s.cancelled || !s.phase.Serving?
  }

  predicate TimerCancelled(s: State) {
    s.cancelled || Rank(s.phase) >= 2
  }

  function Rank(p: Phase): (r: nat)
    ensures r <= 7
  {
    match p
    case Serving => 0
    case StopDispatcher => 1
    case StopTimer => 2
    case CloseTransport => 3
    case StopPool => 4
    case RingClosed => 5
    case Draining(_) => 6
    case Finished => 7
  }

  // ----- ring producers

  predicate CanEnqueue(s: State, d: Delivery)
    requires Bounded(s.ring)
  {
    Offer(s.ring, d).1 != MustWait
  }

  /** The log after ringBuf.Enqueue as the runtime calls it: every caller ignores the returned error. */
  function EnqueueLog(s: State, d: Delivery): (log: seq<Event>)
    requires Bounded(s.ring)
  {
    if Offer(s.ring, d).1 == Accepted then s.log else s.log + [Rejected(d, s.phase.Draining?)]
  }

  // ----- environment

  datatype EnvStep = Publish(m: Message) | Cancel | Pass(dt: nat)

  function DoPublish(s: State, m: Message): (r: State)
  {
    var d := Delivery(s.next, s.next, m.attempts, true, m);
    s.(queue := if s.transportOpen then s.queue + [d] else s.queue,
       next := if s.transportOpen then s.next + 1 else s.next,
       log := if s.transportOpen then s.log + [Arrived(d)] else s.log)
  }

  function DoEnv(s: State, l: EnvStep): (r: State) {
    match l
    case Publish(m) => DoPublish(s, m)
    case Cancel => s.(cancelled := true)
    case Pass(dt) => s.(now := s.now + dt)
  }

  // ----- poller: runPoller inside transport.Subscribe

  datatype PollStep = Receive(n: nat) | Deliver | PollExit(err: bool)

  predicate CanPoll(s: State, l: PollStep)
    requires Bounded(s.ring)
  {
    && !s.pollExited
    && match l
       case Receive(n) => s.pollHeld == [] && 1 <= n <= |s.queue|
       case Deliver => s.pollHeld != [] && (s.pollHeld[0].msg.notBefore > 0 || CanEnqueue(s, s.pollHeld[0]))
       case PollExit(_) => s.pollHeld == []
  }

  /** A delayed message goes to the wheel, an immediate one to the ring. */
  function DoDeliver(s: State): (r: State)
    requires Bounded(s.ring) && CanPoll(s, Deliver)
  {
    var d := s.pollHeld[0];
    var delayed := d.msg.notBefore > 0;
    s.(pollHeld := s.pollHeld[1..],
       wheel := if delayed && s.wheelOpen then s.wheel + [Slot(s.now + d.msg.notBefore, d)] else s.wheel,
       ring := if delayed then s.ring else Offer(s.ring, d).0,
       log := if !delayed then EnqueueLog(s, d) else if s.wheelOpen then s.log else s.log + [InsertIgnored(d)])
  }

  function DoPoll(s: State, l: PollStep): (r: State)
    requires Bounded(s.ring) && CanPoll(s, l)
  {
    match l
    case Receive(n) => s.(pollHeld := s.queue[..n], queue := s.queue[n..])
    case Deliver => DoDeliver(s)
    case PollExit(err) => s.(pollExited := true, pollCancelled := s.pollCancelled || err)
  }

  // ----- wheel goroutine and runTimer

  /** `out` is what the expire call releases, in any order, and `rest` what stays. */
  datatype TickStep = Expire(tick: int, out: seq<Slot<Delivery>>, rest: seq<Slot<Delivery>>) | SendBatch | TickExit

  const CHANNEL_CAPACITY: nat := 64

  function Dropped(ds: seq<Delivery>): (es: seq<Event>)
    ensures |es| == |ds|
    ensures forall i :: 0 <= i < |ds| ==> es[i] == BatchDropped(ds[i])
  {
    seq(|ds|, i requires 0 <= i < |ds| => BatchDropped(ds[i]))
  }

  ghost predicate CanTick(s: State, l: TickStep) {
    && !s.tickExited
    && match l
       case Expire(tick, out, rest) =>
         s.tickHeld == [] && tick <= Unix(s.now) && Expires(multiset(s.wheel), multiset(rest), tick, s.now, out)
       case SendBatch => s.tickHeld != [] && |s.channel| < CHANNEL_CAPACITY
       case TickExit => TimerCancelled(s)
  }

  function DoTick(s: State, l: TickStep): (r: State) {
    match l
    case Expire(_, out, rest) => s.(wheel := rest, tickHeld := Items(out))
    case SendBatch => s.(channel := s.channel + [s.tickHeld], tickHeld := [])
    case TickExit => s.(tickExited := true, tickHeld := [], log := s.log + Dropped(s.tickHeld))
  }

  datatype TimerStep = TimerReceive | TimerEnqueue | TimerExit

  predicate CanTimer(s: State, l: TimerStep)
    requires Bounded(s.ring)
  {
    && !s.timerExited
    && match l
       case TimerReceive => s.timerHeld == [] && s.channel != []
       case TimerEnqueue => s.timerHeld != [] && CanEnqueue(s, s.timerHeld[0])
       case TimerExit => s.timerHeld == [] && (TimerCancelled(s) || (s.tickExited && s.channel == []))
  }

  function DoTimer(s: State, l: TimerStep): (r: State)
    requires Bounded(s.ring) && CanTimer(s, l)
  {
    match l
    case TimerReceive => s.(timerHeld := s.channel[0], channel := s.channel[1..])
    case TimerEnqueue =>
      s.(timerHeld := s.timerHeld[1..], ring := Offer(s.ring, s.timerHeld[0]).0, log := EnqueueLog(s, s.timerHeld[0]))
    case TimerExit => s.(timerExited := true)
  }

  // ----- dispatcher: runDispatcher, dispatchBatch, filterDuplicates

  datatype DispStep =
    | StartDrain | Look | Resume | DispExit | Dequeue   // runDispatcher
    | Filter(f: FilterStep)                             // filterDuplicates on the first unfiltered message
    | AckDup | Submit | Barrier                         // dispatchBatch

  datatype FilterStep = Skip | Fetch | Check | Delete | StoreError

  /** The first unfiltered message goes through the store. */
  predicate Filtered(c: Config, w: Dispatcher)
    requires w.Working? && w.todo != []
  {
    c.store && w.todo[0].msg.key.Some?
  }

  predicate CanDisp(c: Config, s: State, l: DispStep) {
    match l
    case StartDrain => s.disp == Idle(false) && DispCancelled(s)
    case Look => s.disp == Idle(false) && s.ring.contents == []
    case Resume => s.disp == SawEmpty && !DispCancelled(s)
    case DispExit => (s.disp == SawEmpty && DispCancelled(s)) || (s.disp == Idle(true) && s.ring.contents == [])
    case Dequeue => s.disp.Idle? && s.ring.contents != []
    case AckDup => s.disp.Working? && s.disp.todo == [] && s.disp.dups != []
    case Submit => s.disp.Working? && s.disp.todo == [] && s.disp.dups == [] && s.disp.kept != [] &&
                   (|s.pool| < c.poolSize || !s.poolOpen)
    case Barrier => s.disp.Working? && s.disp.todo == [] && s.disp.dups == [] && s.disp.kept == [] && s.wg == 0
    case Filter(f) => s.disp.Working? && s.disp.todo != [] && CanFilter(c, s.disp, f)
  }

  predicate CanFilter(c: Config, w: Dispatcher, f: FilterStep)
    requires w.Working? && w.todo != []
  {
    match f
    case Skip => !Filtered(c, w)
    case Fetch => Filtered(c, w) && w.probe == NoProbe
    case Check => Filtered(c, w) && w.probe.Fetched?
    case Delete => Filtered(c, w) && w.probe == Stale
    case StoreError => Filtered(c, w) && w.probe == NoProbe && c.storeErrors
  }

  function Keep(w: Dispatcher): (r: Dispatcher)
    requires w.Working? && w.todo != []
  {
    w.(todo := w.todo[1..], probe := NoProbe, kept := w.kept + [w.todo[0]])
  }

  function Discard(w: Dispatcher): (r: Dispatcher)
    requires w.Working? && w.todo != []
  {
    w.(todo := w.todo[1..], probe := NoProbe, dups := w.dups + [w.todo[0]])
  }

  function NextProbe(c: Config, now: int, keys: Keys, w: Dispatcher, f: FilterStep): (r: Dispatcher)
    requires w.Working? && w.todo != [] && CanFilter(c, w, f)
  {
    match f
    case Skip => Keep(w)
    case Fetch => w.(probe := Fetched(Lookup(keys, w.todo[0].msg.key.value)))
    case Check =>
      if w.probe.entry.None? then Keep(w)
      else if now > w.probe.entry.value then w.(probe := Stale)
      else Discard(w)
    case Delete => Keep(w)
    case StoreError => Discard(w)
  }

  /** The first unfiltered message turns out a duplicate. */
  predicate Discards(now: int, w: Dispatcher, f: FilterStep)
    requires w.Working?
  {
    f.StoreError? || (f.Check? && w.probe.Fetched? && w.probe.entry.Some? && now <= w.probe.entry.value)
  }

  function DoFilter(c: Config, s: State, f: FilterStep): (r: State)
    requires s.disp.Working? && s.disp.todo != [] && CanFilter(c, s.disp, f)
  {
    s.(disp := NextProbe(c, s.now, s.keys, s.disp, f),
       keys := if f.Delete? then s.keys - {s.disp.todo[0].msg.key.value} else s.keys,
       log := if Discards(s.now, s.disp, f) then s.log + [FoundDuplicate(s.disp.todo[0], s.now)] else s.log)
  }

  function DoDequeue(s: State): (r: State)
    requires Bounded(s.ring) && s.disp.Idle?
  {
    var taken := TakeBatch(s.ring, if s.disp.draining then 100 else 10);
    s.(ring := taken.0, disp := Working(s.disp.draining, taken.1, NoProbe, [], []), batch := s.batch + 1)
  }

  function DoAckDup(s: State): (r: State)
    requires s.disp.Working? && s.disp.dups != []
  {
    s.(disp := s.disp.(dups := s.disp.dups[1..]),
       log := s.log + [AckCalled(s.disp.dups[0], Duplicate, s.transportOpen)])
  }

  function DoSubmit(s: State): (r: State)
    requires s.disp.Working? && s.disp.kept != []
  {
    var d := s.disp.kept[0];
    s.(disp := if s.poolOpen then s.disp.(kept := s.disp.kept[1..]) else s.disp,
       pool := if s.poolOpen then s.pool + [d] else s.pool,
       wg := if s.poolOpen then s.wg + 1 else s.wg,
       log := s.log + [if s.poolOpen then Submitted(d, s.batch) else SubmitPanic])
  }

  function DoDisp(c: Config, s: State, l: DispStep): (r: State)
    requires Bounded(s.ring) && CanDisp(c, s, l)
  {
    match l
    case StartDrain => s.(disp := Idle(true))
    case Look => s.(disp := SawEmpty)
    case Resume => s.(disp := Idle(false))
    case DispExit => s.(disp := Gone)
    case Dequeue => DoDequeue(s)
    case Filter(f) => DoFilter(c, s, f)
    case AckDup => DoAckDup(s)
    case Submit => DoSubmit(s)
    case Barrier => s.(disp := Idle(s.disp.draining))
  }

  // ----- workers: executor.Pool running processMessage and handleUnknownTopic

  datatype WorkStep =
    | Take
    | Decide(result: Result)
    | Settle(ok: bool, requeue: bool)   // ok: SendToDLQ succeeds; requeue: the transport redelivers the nacked message
    | AckDead
    | Mark(marked: bool)
    | WorkExit

  predicate CanWork(c: Config, s: State, w: nat, l: WorkStep)
    requires Bounded(s.ring) && w < |s.workers|
  {
    var k := s.workers[w];
    match l
    case Take => k.Free? && s.pool != []
    case Decide(_) => k.Running? && k.d.msg.topic in c.handlers
    case Settle(_, requeue) =>
      && k.Settling?
      && (k.action.Retry? ==> CanEnqueue(s, Again(k.d)))
      && (requeue ==> k.action.RetryWithDelay? && s.transportOpen)
    case AckDead => k.DlqSent?
    case Mark(marked) => k.Marking? && (!marked ==> c.storeErrors)
    case WorkExit => k.Free? && s.pool == [] && !s.poolOpen
  }

  /** A delivery that has been retried is no longer a first delivery. */
  function Again(d: Delivery): (r: Delivery) {
    d.(first := false)
  }

  /** When the submitted closure returns, its deferred wg.Done runs and the worker is free. */
  function SettleAck(c: Config, s: State, w: nat, d: Delivery): (r: State)
    requires w < |s.workers|
  {
    s.(workers := s.workers[w := if c.store then Marking(d.msg) else Free],
       wg := if c.store then s.wg else s.wg - 1,
       log := s.log + [AckCalled(d, HandlerAck, s.transportOpen)])
  }

  function SettleRetry(s: State, w: nat, d: Delivery): (r: State)
    requires Bounded(s.ring) && w < |s.workers|
  {
    s.(workers := s.workers[w := Free], wg := s.wg - 1,
       ring := Offer(s.ring, Again(d)).0, log := EnqueueLog(s, Again(d)))
  }

  /** processMessage's switch has no default case. */
  function SettleNothing(s: State, w: nat, d: Delivery): (r: State)
    requires w < |s.workers|
  {
    s.(workers := s.workers[w := Free], wg := s.wg - 1, log := s.log + [OutcomeIgnored(d)])
  }

  function SettleNack(s: State, w: nat, d: Delivery, delay: int, requeue: bool): (r: State)
    requires w < |s.workers|
  {
    s.(workers := s.workers[w := Free], wg := s.wg - 1,
       queue := if requeue then s.queue + [Again(d).(uid := s.next)] else s.queue,
       next := if requeue then s.next + 1 else s.next,
       log := s.log + [NackCalled(d, delay, requeue, s.transportOpen)])
  }

  function SettleDlq(s: State, w: nat, d: Delivery, ok: bool): (r: State)
    requires w < |s.workers|
  {
    s.(workers := s.workers[w := if ok then DlqSent(d) else Free],
       wg := if ok then s.wg else s.wg - 1,
       log := s.log + [DlqCalled(d, ok, s.transportOpen)])
  }

  function DoSettle(c: Config, s: State, w: nat, ok: bool, requeue: bool): (r: State)
    requires Bounded(s.ring) && w < |s.workers| && CanWork(c, s, w, Settle(ok, requeue))
  {
    var k := s.workers[w];
    match k.action
    case Ack => SettleAck(c, s, w, k.d)
    case Retry => SettleRetry(s, w, k.d)
    case RetryWithDelay => SettleNack(s, w, k.d, k.delay, requeue)
    case DLQ => SettleDlq(s, w, k.d, ok)
    case Unknown(_) => SettleNothing(s, w, k.d)
  }

  function DoTake(c: Config, s: State, w: nat): (r: State)
    requires w < |s.workers| && s.pool != []
  {
    var d := s.pool[0];
    var known := d.msg.topic in c.handlers;
    s.(pool := s.pool[1..],
       workers := s.workers[w := if known then Running(d) else Settling(d, DLQ, 0)],
       log := if known then s.log + [Started(d, s.batch, s.now)] else s.log)
  }

  function DoDecide(c: Config, s: State, w: nat, d: Delivery, result: Result): (r: State)
    requires w < |s.workers| && d.msg.topic in c.handlers
  {
    var o := Handle(c.handlers[d.msg.topic], c.overflow, d.msg, result);
    s.(workers := s.workers[w := Settling(d.(msg := o.message), o.action, o.delay)],
       log := s.log + [Decided(d, s.batch, s.now, result, o.action)])
  }

  function DoAckDead(s: State, w: nat, d: Delivery): (r: State)
    requires w < |s.workers|
  {
    s.(workers := s.workers[w := Free], wg := s.wg - 1,
       log := s.log + [AckCalled(d, DeadLetter, s.transportOpen)])
  }

  function DoMark(c: Config, s: State, w: nat, m: Message, marked: bool): (r: State)
    requires w < |s.workers|
  {
    var writes := m.key.Some? && marked;
    var panics := writes && !s.storeOpen;
    s.(workers := if panics then s.workers else s.workers[w := Free],
       wg := if panics then s.wg else s.wg - 1,
       keys := if writes && !panics then s.keys[m.key.value := s.now + c.ttl] else s.keys,
       log := if panics then s.log + [MarkPanic]
              else if writes then s.log + [Marked(m.key.value, s.batch, s.now)] else s.log)
  }

  function DoWork(c: Config, s: State, w: nat, l: WorkStep): (r: State)
    requires Bounded(s.ring) && w < |s.workers| && CanWork(c, s, w, l)
  {
    match l
    case Take => DoTake(c, s, w)
    case Decide(result) => DoDecide(c, s, w, s.workers[w].d, result)
    case Settle(ok, requeue) => DoSettle(c, s, w, ok, requeue)
    case AckDead => DoAckDead(s, w, s.workers[w].d)
    case Mark(marked) => DoMark(c, s, w, s.workers[w].m, marked)
    case WorkExit => s.(workers := s.workers[w := Exited])
  }

  // ----- store eviction goroutine

  datatype EvictStep = ReadClock | Sweep

  predicate CanEvict(s: State, l: EvictStep) {
    match l
    case ReadClock => s.evict.None?
    case Sweep => s.evict.Some?
  }

  function DoEvict(s: State, l: EvictStep): (r: State)
    requires CanEvict(s, l)
  {
    match l
    case ReadClock => s.(evict := Some(s.now))
    case Sweep => s.(evict := None, keys := Purge(s.keys, s.evict.value))
  }

  // ----- Run's shutdown sequence

  predicate AllExited(ws: seq<Worker>) {
    forall i :: 0 <= i < |ws| ==> ws[i] == Exited
  }

  predicate CanMain(s: State)
    requires Bounded(s.ring)
  {
    match s.phase
    case Serving => s.cancelled || s.pollCancelled
    case StopDispatcher => s.disp.Gone?
    case StopTimer => s.timerExited
    case CloseTransport => s.pollExited
    case StopPool => AllExited(s.workers)
    case RingClosed => true
    case Draining(rest) => rest != [] ==> CanEnqueue(s, rest[0])
    case Finished => false
  }

  function NextPhase(p: Phase): (r: Phase) {
    match p
    case Serving => StopDispatcher
    case StopDispatcher => StopTimer
    case StopTimer => CloseTransport
    case CloseTransport => StopPool
    case _ => RingClosed
  }

  /** One stage of the shutdown: transport.Close after the timer, StopDispatching after the poller,
      ringBuf.Close after the workers. */
  function DoStop(s: State): (r: State)
  {
    s.(phase := NextPhase(s.phase),
       transportOpen := s.transportOpen && !s.phase.StopTimer?,
       poolOpen := s.poolOpen && !s.phase.CloseTransport?,
       ring := s.ring.(closed := s.ring.closed || s.phase.StopPool?))
  }

  /** tw.Drain(): the wheel closes and hands over what it holds. */
  function DoDrainWheel(s: State): (r: State) {
    s.(phase := Draining(Items(s.wheel)), wheel := [], wheelOpen := false)
  }

  /** The filter closes its store and Run returns. */
  function DoFinish(s: State): (r: State) {
    s.(phase := Finished, storeOpen := false, keys := map[])
  }

  /** One turn of the final loop over tw.Drain(). */
  function DoDrain(s: State): (r: State)
    requires Bounded(s.ring) && s.phase.Draining? && s.phase.rest != []
  {
    var d := s.phase.rest[0];
    s.(phase := Draining(s.phase.rest[1..]), ring := Offer(s.ring, d).0, log := EnqueueLog(s, d))
  }

  function DoMain(s: State): (r: State)
    requires Bounded(s.ring) && CanMain(s)
  {
    match s.phase
    case RingClosed => DoDrainWheel(s)
    case Draining(rest) => if rest == [] then DoFinish(s) else DoDrain(s)
    case _ => DoStop(s)
  }

  // ----- the machine

  datatype Label =
    | Env(e: EnvStep)
    | Poll(p: PollStep)
    | Tick(t: TickStep)
    | Timer(r: TimerStep)
    | Disp(x: DispStep)
    | Work(w: nat, k: WorkStep)
    | Evict(v: EvictStep)
    | Main

  ghost predicate Enabled(c: Config, s: State, l: Label) {
    && Shape(c, s)
    && match l
       case Env(_) => true
       case Poll(p) => CanPoll(s, p)
       case Tick(t) => CanTick(s, t)
       case Timer(r) => CanTimer(s, r)
       case Disp(x) => CanDisp(c, s, x)
       case Work(w, k) => w < |s.workers| && CanWork(c, s, w, k)
       case Evict(v) => CanEvict(s, v)
       case Main => CanMain(s)
  }

  ghost function Apply(c: Config, s: State, l: Label): (r: State)
    requires Enabled(c, s, l)
  {
    match l
    case Env(e) => DoEnv(s, e)
    case Poll(p) => DoPoll(s, p)
    case Tick(t) => DoTick(s, t)
    case Timer(r) => DoTimer(s, r)
    case Disp(x) => DoDisp(c, s, x)
    case Work(w, k) => DoWork(c, s, w, k)
    case Evict(v) => DoEvict(s, v)
    case Main => DoMain(s)
  }

  /** `ls` is an interleaving of the pipeline's threads that leads from s to t. */
  ghost predicate Run(c: Config, s: State, ls: seq<Label>, t: State)
    decreases |ls|
  {
    if ls == [] then s == t
    else Enabled(c, s, ls[0]) && Run(c, Apply(c, s, ls[0]), ls[1..], t)
  }
}
