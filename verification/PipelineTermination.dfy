/** Every working step of the pipeline consumes a well-founded measure: retries left, then stage. */
module PipelineTermination {
  import opened Retry
  import opened RingSpec
  import opened TimerWheel
  import opened Pipeline
  import opened PipelineControl
  import opened PipelineFlow

  function RetriesLeft(c: Config, d: Delivery): (n: nat) {
    if d.msg.topic in c.handlers && d.msg.attempts < c.handlers[d.msg.topic].maxRetries
    then c.handlers[d.msg.topic].maxRetries - d.msg.attempts else 0
  }

  /** How far a delivery still is from its settlement within one attempt. */
  function Stage(p: Place): (n: nat) {
    match p
    case Returning => 2000
    case InQueue => 1900
    case WithPoller => 1800
    case InWheel => 1700
    case WithTicker => 1600
    case InChannel => 1500
    case WithTimer => 1400
    case InRing => 1300
    case Unfiltered => 1200
    case Kept => 1100
    case Dup => 1000
    case InPool => 900
    case OnWorker => 800
    case Closing => 700
    case DeadLettered => 600
    case InDrain => 1550
    case _ => 0
  }

  function WeightAt(c: Config, p: Place, d: Delivery): (n: nat) {
    if Stage(p) == 0 then 0 else 3000 * RetriesLeft(c, d) + Stage(p)
  }

  function Weight(c: Config): (f: Valuation) {
    (t: Token) => WeightAt(c, t.place, t.d)
  }

  function WorkerRank(k: Worker): (n: nat) {
    match k
    case Exited => 0
    case Marking(_) => 2
    case _ => 1
  }

  function PoolRank(ws: seq<Worker>): (n: nat) {
    if ws == [] then 0 else WorkerRank(ws[0]) + PoolRank(ws[1..])
  }

  function DispRank(x: Dispatcher): (n: nat) {
    match x
    case Idle(draining) => if draining then 15 else 20
    case SawEmpty => 20
    case Working(draining, _, probe, _, _) =>
      (if draining then 17 else 22) + (match probe case NoProbe => 3 case Fetched(_) => 2 case Stale => 1)
    case Gone => 0
  }

  function B(b: bool): (n: nat) {
    if b then 0 else 1
  }

  function ControlRank(s: State): (n: nat) {
    B(s.cancelled) + (7 - Rank(s.phase)) + B(s.pollExited) + B(s.tickExited) + B(s.timerExited) +
    |s.channel| + DispRank(s.disp) + PoolRank(s.workers)
  }

  function Measure(c: Config, s: State): (n: int) {
    Total(Weight(c), s) + ControlRank(s)
  }

  /** Steps that only let time pass, look at an empty ring or wheel, or clean the store. */
  predicate IsIdle(s: State, l: Label) {
    match l
    case Env(e) => e.Pass? || (e.Cancel? && s.cancelled)
    case Tick(x) => x.Expire? && x.out == []
    case Disp(x) => x.Look? || x.Resume?
    case Evict(_) => true
    case _ => false
  }

  function Cost(s: State, l: Label): (n: nat) {
    if IsIdle(s, l) then 0 else 1
  }

  // ----- sums

  lemma {:induction false} Downhill(c: Config, p: Place, q: Place, ds: seq<Delivery>)
    requires 0 < Stage(q) <= Stage(p) - 100 || (Stage(q) == 0 && Stage(p) >= 100)
    ensures Moved(Weight(c), p, q, ds) <= -100 * |ds|
  {
    if ds != [] {
      Downhill(c, p, q, ds[1..]);
    }
  }

  lemma {:induction false} WeightNonNegative(c: Config, p: Place, ds: seq<Delivery>)
    ensures Worth(Weight(c), p, ds) >= 0
  {
    if ds != [] {
      WeightNonNegative(c, p, ds[1..]);
    }
  }

  lemma {:induction false} PoolNonNegative(c: Config, ws: seq<Worker>)
    ensures PoolWorth(Weight(c), ws) >= 0
  {
    if ws != [] {
      PoolNonNegative(c, ws[1..]);
    }
  }

  lemma {:induction false} LogWeightless(c: Config, log: seq<Event>)
    ensures LogWorth(Weight(c), log) == 0
    decreases |log|
  {
    if log != [] {
      LogWeightless(c, log[..|log| - 1]);
    }
  }

  lemma IntakeNonNegative(c: Config, s: State)
    ensures IntakeWorth(Weight(c), s) >= 0
  {
    hide Worth, Flat;
    WeightNonNegative(c, InQueue, s.queue);
    WeightNonNegative(c, WithPoller, s.pollHeld);
    WeightNonNegative(c, InWheel, Items(s.wheel));
    WeightNonNegative(c, WithTicker, s.tickHeld);
    WeightNonNegative(c, InChannel, Flat(s.channel));
    WeightNonNegative(c, WithTimer, s.timerHeld);
  }

  lemma DispatchNonNegative(c: Config, s: State)
    ensures DispatchWorth(Weight(c), s) >= 0
  {
    hide Worth, PoolWorth;
    WeightNonNegative(c, InRing, s.ring.contents);
    WeightNonNegative(c, InPool, s.pool);
    PoolNonNegative(c, s.workers);
    if s.disp.Working? {
      WeightNonNegative(c, Unfiltered, s.disp.todo);
      WeightNonNegative(c, Kept, s.disp.kept);
      WeightNonNegative(c, Dup, s.disp.dups);
    }
    if s.phase.Draining? {
      WeightNonNegative(c, InDrain, s.phase.rest);
    }
  }

  lemma MeasureNonNegative(c: Config, s: State)
    ensures Measure(c, s) >= 0
  {
    hide LogWorth, PoolRank;
    IntakeNonNegative(c, s);
    DispatchNonNegative(c, s);
    LogWeightless(c, s.log);
  }

  lemma {:induction false} RankUpdate(ws: seq<Worker>, w: nat, k: Worker)
    requires w < |ws|
    ensures PoolRank(ws[w := k]) == PoolRank(ws) - WorkerRank(ws[w]) + WorkerRank(k)
  {
    if w == 0 {
      assert ws[w := k][1..] == ws[1..];
    } else {
      RankUpdate(ws[1..], w - 1, k);
      assert ws[w := k][1..] == ws[1..][w - 1 := k];
    }
  }

  // ----- each step in turn

  lemma PollGainDown(c: Config, s: State, l: PollStep)
    requires Bounded(s.ring) && CanPoll(s, l)
    ensures PollGain(Weight(c), s, l) <= if l.PollExit? then 0 else -100
  {
    hide Worth, Offer;
    match l
    case Receive(n) => Downhill(c, InQueue, WithPoller, s.queue[..n]);
    case Deliver =>
    case PollExit(_) =>
  }

  lemma DeliverRank(s: State)
    requires Bounded(s.ring) && CanPoll(s, Deliver)
    ensures ControlRank(DoDeliver(s)) == ControlRank(s)
  {
    hide PoolRank, Offer;
  }

  lemma PollRank(s: State, l: PollStep, t: State)
    requires Bounded(s.ring) && CanPoll(s, l) && t == DoPoll(s, l)
    ensures ControlRank(t) == ControlRank(s) - if l.PollExit? then 1 else 0
  {
    hide PoolRank;
    match l
    case Receive(n) =>
    case Deliver => DeliverRank(s);
    case PollExit(_) =>
  }

  lemma PollDown(c: Config, s: State, l: PollStep, t: State)
    requires Bounded(s.ring) && s.ring.policy == Block && CanPoll(s, l) && t == DoPoll(s, l)
    ensures Measure(c, t) < Measure(c, s)
  {
    hide Total, ControlRank, DoPoll, PollGain;
    PollFlow(Weight(c), s, l, t);
    PollGainDown(c, s, l);
    PollRank(s, l, t);
  }

  lemma TickDown(c: Config, s: State, l: TickStep, t: State)
    requires CanTick(s, l) && t == DoTick(s, l)
    ensures Measure(c, t) <= Measure(c, s) - Cost(s, Tick(l))
  {
    hide Total, PoolRank, Worth, Expires;
    TickFlow(Weight(c), s, l, t);
    match l
    case Expire(_, out, _) => Downhill(c, InWheel, WithTicker, Items(out));
    case SendBatch => Downhill(c, WithTicker, InChannel, s.tickHeld);
    case TickExit => Downhill(c, WithTicker, Left, s.tickHeld);
  }

  lemma TimerGainDown(c: Config, s: State, l: TimerStep)
    requires Bounded(s.ring) && CanTimer(s, l)
    ensures TimerGain(Weight(c), s, l) <= if l.TimerEnqueue? then -100 else 0
  {
    hide Worth, Offer;
    match l
    case TimerReceive => Downhill(c, InChannel, WithTimer, s.channel[0]);
    case TimerEnqueue =>
    case TimerExit =>
  }

  lemma TimerEnqueueRank(s: State)
    requires Bounded(s.ring) && CanTimer(s, TimerEnqueue)
    ensures ControlRank(DoTimer(s, TimerEnqueue)) == ControlRank(s)
  {
    hide PoolRank, Offer, EnqueueLog;
  }

  lemma TimerRank(s: State, l: TimerStep, t: State)
    requires Bounded(s.ring) && CanTimer(s, l) && t == DoTimer(s, l)
    ensures ControlRank(t) == ControlRank(s) - if l.TimerEnqueue? then 0 else 1
  {
    hide PoolRank, Offer, EnqueueLog;
    match l
    case TimerReceive =>
    case TimerEnqueue => TimerEnqueueRank(s);
    case TimerExit =>
  }

  lemma TimerDown(c: Config, s: State, l: TimerStep, t: State)
    requires Bounded(s.ring) && s.ring.policy == Block && CanTimer(s, l) && t == DoTimer(s, l)
    ensures Measure(c, t) < Measure(c, s)
  {
    hide Total, ControlRank, DoTimer, TimerGain;
    TimerFlow(Weight(c), s, l, t);
    TimerGainDown(c, s, l);
    TimerRank(s, l, t);
  }

  lemma FilterDown(c: Config, s: State, x: FilterStep)
    requires Bounded(s.ring) && CanDisp(c, s, Filter(x))
    ensures DispGain(Weight(c), c, s, Filter(x)) + DispRank(DoFilter(c, s, x).disp) < DispRank(s.disp)
    ensures ControlRank(DoFilter(c, s, x)) == ControlRank(s) - DispRank(s.disp) + DispRank(DoFilter(c, s, x).disp)
  {
    hide PoolRank;
    match x
    case Skip =>
    case Fetch =>
    case Check =>
    case Delete =>
    case StoreError =>
  }

  lemma DequeueGain(c: Config, s: State, max: int)
    requires Bounded(s.ring) && s.ring.contents != [] && max > 0
    ensures Moved(Weight(c), InRing, Unfiltered, TakeBatch(s.ring, max).1) <= -100
  {
    hide Worth;
    Downhill(c, InRing, Unfiltered, TakeBatch(s.ring, max).1);
  }

  lemma DispGainDown(c: Config, s: State, l: DispStep)
    requires Bounded(s.ring) && s.poolOpen && CanDisp(c, s, l) && !l.Filter?
    ensures DispGain(Weight(c), c, s, l) <= if l.Dequeue? || l.AckDup? || l.Submit? then -100 else 0
  {
    hide Moved, TakeBatch;
    match l
    case Dequeue => DequeueGain(c, s, if s.disp.draining then 100 else 10);
    case AckDup =>
    case Submit =>
    case _ =>
  }

  lemma DequeueRank(s: State)
    requires Bounded(s.ring) && s.disp.Idle?
    ensures ControlRank(DoDequeue(s)) == ControlRank(s) + 5
  {
    hide PoolRank, TakeBatch;
  }

  lemma SubmitRank(s: State)
    requires s.disp.Working? && s.disp.kept != []
    ensures ControlRank(DoSubmit(s)) == ControlRank(s)
  {
    hide PoolRank;
  }

  lemma AckDupRank(s: State)
    requires s.disp.Working? && s.disp.dups != []
    ensures ControlRank(DoAckDup(s)) == ControlRank(s)
  {
    hide PoolRank;
  }

  lemma DispRankStep(c: Config, s: State, l: DispStep, t: State)
    requires Bounded(s.ring) && CanDisp(c, s, l) && t == DoDisp(c, s, l) && !l.Filter?
    ensures ControlRank(t) + (if l.AckDup? || l.Submit? then 0 else Cost(s, Disp(l)))
      <= ControlRank(s) + if l.Dequeue? then 6 else 0
  {
    hide PoolRank;
    match l
    case StartDrain =>
    case Look =>
    case Resume =>
    case DispExit =>
    case Dequeue => DequeueRank(s);
    case AckDup => AckDupRank(s);
    case Submit => SubmitRank(s);
    case Barrier =>
  }

  lemma DispDown(c: Config, s: State, l: DispStep, t: State)
    requires Bounded(s.ring) && s.poolOpen && CanDisp(c, s, l) && t == DoDisp(c, s, l)
    ensures Measure(c, t) <= Measure(c, s) - Cost(s, Disp(l))
  {
    hide Total, ControlRank, DispGain, DoFilter;
    DispFlow(Weight(c), c, s, l, t);
    if l.Filter? {
      FilterDown(c, s, l.f);
    } else {
      DispGainDown(c, s, l);
      DispRankStep(c, s, l, t);
    }
  }

  /** A retried message has one retry fewer left. */
  lemma DecideDown(c: Config, d: Delivery, result: Result)
    requires d.msg.topic in c.handlers
    ensures var o := Handle(c.handlers[d.msg.topic], c.overflow, d.msg, result);
      WeightAt(c, SettlingPlace(o.action), d.(msg := o.message)) < WeightAt(c, OnWorker, d)
  {
    CoordinatorContract(c.handlers[d.msg.topic], c.overflow, d.msg, result);
  }

  lemma SettleWeight(c: Config, s: State, d: Delivery, a: Action, ok: bool, requeue: bool)
    requires Bounded(s.ring)
    ensures SettleGain(Weight(c), s, d, a, ok, requeue) + 2 <= WeightAt(c, SettlingPlace(a), d)
  {
    hide Offer;
  }

  lemma AckRank(c: Config, s: State, w: nat, d: Delivery)
    requires w < |s.workers| && WorkerRank(s.workers[w]) == 1
    ensures ControlRank(SettleAck(c, s, w, d)) <= ControlRank(s) + 1
  {
    hide PoolRank;
    RankUpdate(s.workers, w, if c.store then Marking(d.msg) else Free);
  }

  lemma DlqRank(s: State, w: nat, d: Delivery, ok: bool)
    requires w < |s.workers| && WorkerRank(s.workers[w]) == 1
    ensures ControlRank(SettleDlq(s, w, d, ok)) == ControlRank(s)
  {
    hide PoolRank;
    RankUpdate(s.workers, w, if ok then DlqSent(d) else Free);
  }

  lemma RetryRank(s: State, w: nat, d: Delivery)
    requires Bounded(s.ring) && w < |s.workers| && WorkerRank(s.workers[w]) == 1
    ensures ControlRank(SettleRetry(s, w, d)) == ControlRank(s)
  {
    hide PoolRank, Offer, EnqueueLog;
    RankUpdate(s.workers, w, Free);
  }

  lemma NackRank(s: State, w: nat, d: Delivery, delay: int, requeue: bool)
    requires w < |s.workers| && WorkerRank(s.workers[w]) == 1
    ensures ControlRank(SettleNack(s, w, d, delay, requeue)) == ControlRank(s)
  {
    hide PoolRank;
    RankUpdate(s.workers, w, Free);
  }

  lemma NothingRank(s: State, w: nat, d: Delivery)
    requires w < |s.workers| && WorkerRank(s.workers[w]) == 1
    ensures ControlRank(SettleNothing(s, w, d)) == ControlRank(s)
  {
    hide PoolRank;
    RankUpdate(s.workers, w, Free);
  }

  lemma SettleRank(c: Config, s: State, w: nat, ok: bool, requeue: bool, t: State)
    requires Bounded(s.ring) && w < |s.workers| && CanWork(c, s, w, Settle(ok, requeue))
    requires t == DoSettle(c, s, w, ok, requeue)
    ensures ControlRank(t) <= ControlRank(s) + 1
  {
    hide ControlRank, SettleAck, SettleRetry, SettleNack, SettleDlq, SettleNothing;
    var k := s.workers[w];
    match k.action
    case Ack => AckRank(c, s, w, k.d);
    case Retry => RetryRank(s, w, k.d);
    case RetryWithDelay => NackRank(s, w, k.d, k.delay, requeue);
    case DLQ => DlqRank(s, w, k.d, ok);
    case Unknown(_) => NothingRank(s, w, k.d);
  }

  lemma TakeRank(c: Config, s: State, w: nat, k: Worker)
    requires w < |s.workers| && s.workers[w].Free? && s.pool != []
    requires k == (if s.pool[0].msg.topic in c.handlers then Running(s.pool[0]) else Settling(s.pool[0], DLQ, 0))
    ensures ControlRank(DoTake(c, s, w)) == ControlRank(s)
  {
    hide PoolRank;
    RankUpdate(s.workers, w, k);
  }

  lemma DecideRank(c: Config, s: State, w: nat, d: Delivery, result: Result)
    requires w < |s.workers| && s.workers[w] == Running(d) && d.msg.topic in c.handlers
    ensures ControlRank(DoDecide(c, s, w, d, result)) == ControlRank(s)
  {
    hide PoolRank, Handle;
    var o := Handle(c.handlers[d.msg.topic], c.overflow, d.msg, result);
    RankUpdate(s.workers, w, Settling(d.(msg := o.message), o.action, o.delay));
  }

  lemma MarkRank(c: Config, s: State, w: nat, m: Message, marked: bool)
    requires w < |s.workers| && s.workers[w] == Marking(m) && s.storeOpen
    ensures ControlRank(DoMark(c, s, w, m, marked)) < ControlRank(s)
  {
    hide PoolRank;
    RankUpdate(s.workers, w, Free);
  }

  lemma AckDeadRank(s: State, w: nat, d: Delivery)
    requires w < |s.workers| && s.workers[w] == DlqSent(d)
    ensures ControlRank(DoAckDead(s, w, d)) == ControlRank(s)
  {
    hide PoolRank;
    RankUpdate(s.workers, w, Free);
  }

  lemma ExitRank(s: State, w: nat)
    requires w < |s.workers| && s.workers[w].Free?
    ensures ControlRank(s.(workers := s.workers[w := Exited])) == ControlRank(s) - 1
  {
    hide PoolRank;
    RankUpdate(s.workers, w, Exited);
  }

  lemma TakeDown(c: Config, s: State, w: nat, t: State)
    requires Control(c, s) && w < |s.workers| && CanWork(c, s, w, Take) && t == DoTake(c, s, w)
    ensures Measure(c, t) < Measure(c, s)
  {
    hide Total, ControlRank, DoTake;
    WorkFlow(Weight(c), c, s, w, Take, t);
    var d := s.pool[0];
    TakeRank(c, s, w, if d.msg.topic in c.handlers then Running(d) else Settling(d, DLQ, 0));
  }

  lemma DecideStepDown(c: Config, s: State, w: nat, result: Result, t: State)
    requires Control(c, s) && w < |s.workers| && CanWork(c, s, w, Decide(result))
    requires t == DoDecide(c, s, w, s.workers[w].d, result)
    ensures Measure(c, t) < Measure(c, s)
  {
    hide Total, ControlRank, Handle, DoDecide;
    WorkFlow(Weight(c), c, s, w, Decide(result), t);
    DecideDown(c, s.workers[w].d, result);
    DecideRank(c, s, w, s.workers[w].d, result);
  }

  lemma SettleDown(c: Config, s: State, w: nat, ok: bool, requeue: bool, t: State)
    requires Control(c, s) && w < |s.workers| && CanWork(c, s, w, Settle(ok, requeue))
    requires t == DoSettle(c, s, w, ok, requeue)
    ensures Measure(c, t) < Measure(c, s)
  {
    hide Total, ControlRank, Offer, DoSettle;
    WorkFlow(Weight(c), c, s, w, Settle(ok, requeue), t);
    SettleWeight(c, s, s.workers[w].d, s.workers[w].action, ok, requeue);
    SettleRank(c, s, w, ok, requeue, t);
  }

  lemma WorkDown(c: Config, s: State, w: nat, l: WorkStep, t: State)
    requires Control(c, s) && w < |s.workers| && CanWork(c, s, w, l) && t == DoWork(c, s, w, l)
    ensures Measure(c, t) < Measure(c, s)
  {
    hide Total, ControlRank, Offer, Handle, DoTake, DoDecide, DoSettle, DoAckDead, DoMark;
    match l
    case Take => TakeDown(c, s, w, t);
    case Decide(result) => DecideStepDown(c, s, w, result, t);
    case Settle(ok, requeue) => SettleDown(c, s, w, ok, requeue, t);
    case AckDead =>
      WorkFlow(Weight(c), c, s, w, l, t);
      AckDeadRank(s, w, s.workers[w].d);
    case Mark(marked) =>
      WorkFlow(Weight(c), c, s, w, l, t);
      BusyMeansServing(c, s, w);
      MarkRank(c, s, w, s.workers[w].m, marked);
    case WorkExit =>
      WorkFlow(Weight(c), c, s, w, l, t);
      ExitRank(s, w);
  }

  lemma StopRank(s: State)
    requires Rank(s.phase) < 5
    ensures ControlRank(DoStop(s)) == ControlRank(s) - 1
  {
    hide PoolRank;
  }

  lemma DrainRank(s: State)
    requires Bounded(s.ring) && s.phase.Draining? && s.phase.rest != []
    ensures ControlRank(DoDrain(s)) == ControlRank(s)
  {
    hide PoolRank, Offer, EnqueueLog;
  }

  lemma MainGainDown(c: Config, s: State)
    requires Bounded(s.ring)
    ensures MainGain(Weight(c), s) <= if s.phase.Draining? && s.phase.rest != [] then -100 else 0
  {
    hide Worth, Offer;
    if s.phase.RingClosed? {
      Downhill(c, InWheel, InDrain, Items(s.wheel));
    }
  }

  lemma MainRank(s: State, t: State)
    requires Bounded(s.ring) && CanMain(s) && t == DoMain(s)
    ensures ControlRank(t) == ControlRank(s) - if s.phase.Draining? && s.phase.rest != [] then 0 else 1
  {
    hide ControlRank, DoStop, DoDrain;
    if s.phase.RingClosed? {
      EmptyWheelRank(s);
    } else if s.phase == Draining([]) {
      FinishRank(s);
    } else if s.phase.Draining? {
      DrainRank(s);
    } else {
      StopRank(s);
    }
  }

  lemma EmptyWheelRank(s: State)
    requires s.phase.RingClosed?
    ensures ControlRank(DoDrainWheel(s)) == ControlRank(s) - 1
  {
    hide PoolRank;
  }

  lemma FinishRank(s: State)
    requires s.phase == Draining([])
    ensures ControlRank(DoFinish(s)) == ControlRank(s) - 1
  {
    hide PoolRank;
  }

  lemma MainDown(c: Config, s: State, t: State)
    requires Bounded(s.ring) && s.ring.policy == Block && CanMain(s) && t == DoMain(s)
    ensures Measure(c, t) < Measure(c, s)
  {
    hide Total, ControlRank, DoMain, MainGain;
    MainFlow(Weight(c), s, t);
    MainGainDown(c, s);
    MainRank(s, t);
  }

  lemma EnvDown(c: Config, s: State, l: EnvStep, t: State)
    requires !l.Publish? && t == DoEnv(s, l)
    ensures Measure(c, t) <= Measure(c, s) - Cost(s, Env(l))
  {
    hide Total, PoolRank;
    EnvFlow(Weight(c), s, l, t);
  }

  lemma EvictDown(c: Config, s: State, l: EvictStep, t: State)
    requires CanEvict(s, l) && t == DoEvict(s, l)
    ensures Measure(c, t) <= Measure(c, s)
  {
    hide Total, PoolRank;
    EvictFlow(Weight(c), s, l, t);
    match l
    case ReadClock =>
    case Sweep =>
  }

  /** Every step but a publish keeps the measure, and every working step lowers it. */
  lemma MeasureStep(c: Config, s: State, l: Label, t: State)
    requires Control(c, s) && Enabled(c, s, l) && t == Apply(c, s, l)
    requires !(l.Env? && l.e.Publish?)
    ensures Measure(c, t) <= Measure(c, s) - Cost(s, l)
  {
    hide Measure, Control, DoEnv, DoPoll, DoTick, DoTimer, DoDisp, DoWork, DoEvict, DoMain;
    hide CanTick, CanPoll, CanTimer, CanDisp, CanWork, CanMain;
    match l
    case Env(e) => EnvDown(c, s, e, t);
    case Poll(p) => PollDown(c, s, p, t);
    case Tick(x) => TickDown(c, s, x, t);
    case Timer(r) => TimerDown(c, s, r, t);
    case Disp(x) =>
      DispMeansOpen(c, s, x);
      DispDown(c, s, x, t);
    case Work(w, k) => WorkDown(c, s, w, k, t);
    case Evict(v) => EvictDown(c, s, v, t);
    case Main => MainDown(c, s, t);
  }

  /** While the dispatcher can act the work channel is open. */
  lemma DispMeansOpen(c: Config, s: State, l: DispStep)
    requires Control(c, s) && CanDisp(c, s, l)
    ensures s.poolOpen
  {
    hide Busy, SafeLog;
    assert !s.disp.Gone?;
  }

  /** The number of working steps of a run. */
  ghost function WorkingSteps(c: Config, s: State, ls: seq<Label>): (n: nat)
    decreases |ls|
  {
    if ls == [] || !Enabled(c, s, ls[0]) then 0
    else Cost(s, ls[0]) + WorkingSteps(c, Apply(c, s, ls[0]), ls[1..])
  }

  /** From any reachable state, in any interleaving without further publishes, the pipeline takes at most
      Measure working steps: handlers that ask for retries forever cannot keep it busy. */
  lemma {:induction false} Termination(c: Config, s: State, ls: seq<Label>, t: State)
    requires Control(c, s) && Run(c, s, ls, t)
    requires forall i :: 0 <= i < |ls| ==> !(ls[i].Env? && ls[i].e.Publish?)
    ensures WorkingSteps(c, s, ls) + Measure(c, t) <= Measure(c, s)
    ensures WorkingSteps(c, s, ls) <= Measure(c, s)
    decreases |ls|
  {
    hide Measure;
    MeasureNonNegative(c, t);
    if ls != [] {
      var s' := Apply(c, s, ls[0]);
      MeasureStep(c, s, ls[0], s');
      ControlStep(c, s, ls[0], s');
      Termination(c, s', ls[1..], t);
    }
  }
}
