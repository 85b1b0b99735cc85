/** What each step adds to the history. */
module PipelineEvents {
  import opened Retry
  import opened RingSpec
  import opened Pipeline

  /** The refusal of an enqueue, if it is refused. */
  function Refusal(s: State, d: Delivery): (es: seq<Event>)
    requires Bounded(s.ring)
  {
    if Offer(s.ring, d).1 == Accepted then [] else [Rejected(d, s.phase.Draining?)]
  }

  function PollLogs(s: State, l: PollStep): (es: seq<Event>)
    requires Bounded(s.ring) && CanPoll(s, l)
  {
    if !l.Deliver? then []
    else if s.pollHeld[0].msg.notBefore <= 0 then Refusal(s, s.pollHeld[0])
    else if s.wheelOpen then [] else [InsertIgnored(s.pollHeld[0])]
  }

  function DispLogs(c: Config, s: State, l: DispStep): (es: seq<Event>)
    requires CanDisp(c, s, l)
  {
    match l
    case Filter(f) => if Discards(s.now, s.disp, f) then [FoundDuplicate(s.disp.todo[0], s.now)] else []
    case AckDup => [AckCalled(s.disp.dups[0], Duplicate, s.transportOpen)]
    case Submit => [if s.poolOpen then Submitted(s.disp.kept[0], s.batch) else SubmitPanic]
    case _ => []
  }

  function SettleLogs(s: State, d: Delivery, a: Action, delay: int, ok: bool, requeue: bool): (es: seq<Event>)
    requires Bounded(s.ring)
  {
    match a
    case Ack => [AckCalled(d, HandlerAck, s.transportOpen)]
    case Retry => Refusal(s, Again(d))
    case RetryWithDelay => [NackCalled(d, delay, requeue, s.transportOpen)]
    case DLQ => [DlqCalled(d, ok, s.transportOpen)]
    case Unknown(_) => [OutcomeIgnored(d)]
  }

  function MarkLogs(s: State, m: Message, marked: bool): (es: seq<Event>) {
    if m.key.None? || !marked then [] else [if s.storeOpen then Marked(m.key.value, s.batch, s.now) else MarkPanic]
  }

  function WorkLogs(c: Config, s: State, w: nat, l: WorkStep): (es: seq<Event>)
    requires Bounded(s.ring) && w < |s.workers| && CanWork(c, s, w, l)
  {
    var k := s.workers[w];
    match l
    case Take => if s.pool[0].msg.topic in c.handlers then [Started(s.pool[0], s.batch, s.now)] else []
    case Decide(result) =>
      [Decided(k.d, s.batch, s.now, result, Handle(c.handlers[k.d.msg.topic], c.overflow, k.d.msg, result).action)]
    case Settle(ok, requeue) => SettleLogs(s, k.d, k.action, k.delay, ok, requeue)
    case AckDead => [AckCalled(k.d, DeadLetter, s.transportOpen)]
    case Mark(marked) => MarkLogs(s, k.m, marked)
    case WorkExit => []
  }

  ghost function Logs(c: Config, s: State, l: Label): (es: seq<Event>)
    requires Enabled(c, s, l)
  {
    match l
    case Env(e) =>
      if e.Publish? && s.transportOpen then [Arrived(Delivery(s.next, s.next, e.m.attempts, true, e.m))] else []
    case Poll(p) => PollLogs(s, p)
    case Tick(x) => if x.TickExit? then Dropped(s.tickHeld) else []
    case Timer(r) => if r.TimerEnqueue? then Refusal(s, s.timerHeld[0]) else []
    case Disp(x) => DispLogs(c, s, x)
    case Work(w, k) => WorkLogs(c, s, w, k)
    case Evict(_) => []
    case Main => if s.phase.Draining? && s.phase.rest != [] then Refusal(s, s.phase.rest[0]) else []
  }

  // ----- step by step

  /** t's history is s's and these events. */
  predicate Adds(s: State, es: seq<Event>, t: State) {
    t.log == s.log + es
  }

  lemma AddsNothing(s: State, t: State)
    requires t.log == s.log
    ensures Adds(s, [], t)
  {
  }

  lemma EnqueueAdds(s: State, d: Delivery, t: State)
    requires Bounded(s.ring) && t.log == EnqueueLog(s, d)
    ensures Adds(s, Refusal(s, d), t)
  {
    hide Offer;
    assert s.log + [] == s.log;
  }

  lemma PublishAdds(s: State, m: Message)
    ensures Adds(s, if s.transportOpen then [Arrived(Delivery(s.next, s.next, m.attempts, true, m))] else [],
                 DoPublish(s, m))
  {
    assert s.log + [] == s.log;
  }

  lemma EnvAdds(s: State, l: EnvStep, t: State)
    requires t == DoEnv(s, l)
    ensures Adds(s, if l.Publish? && s.transportOpen
                    then [Arrived(Delivery(s.next, s.next, l.m.attempts, true, l.m))] else [], t)
  {
    hide Adds, DoPublish;
    match l
    case Publish(m) => PublishAdds(s, m);
    case Cancel => AddsNothing(s, t);
    case Pass(_) => AddsNothing(s, t);
  }

  lemma DeliverNowAdds(s: State)
    requires Bounded(s.ring) && CanPoll(s, Deliver) && s.pollHeld[0].msg.notBefore <= 0
    ensures Adds(s, PollLogs(s, Deliver), DoDeliver(s))
  {
    hide Offer, EnqueueLog, Refusal;
    EnqueueAdds(s, s.pollHeld[0], DoDeliver(s));
  }

  lemma DeliverLaterAdds(s: State)
    requires Bounded(s.ring) && CanPoll(s, Deliver) && s.pollHeld[0].msg.notBefore > 0
    ensures Adds(s, PollLogs(s, Deliver), DoDeliver(s))
  {
    hide Offer, EnqueueLog;
    assert s.log + [] == s.log;
  }

  lemma DeliverAdds(s: State)
    requires Bounded(s.ring) && CanPoll(s, Deliver)
    ensures Adds(s, PollLogs(s, Deliver), DoDeliver(s))
  {
    hide Adds, DoDeliver, PollLogs, Offer;
    if s.pollHeld[0].msg.notBefore <= 0 {
      DeliverNowAdds(s);
    } else {
      DeliverLaterAdds(s);
    }
  }

  lemma PollAdds(s: State, l: PollStep, t: State)
    requires Bounded(s.ring) && CanPoll(s, l) && t == DoPoll(s, l)
    ensures Adds(s, PollLogs(s, l), t)
  {
    hide Offer, DoDeliver, Adds;
    match l
    case Receive(_) => AddsNothing(s, t);
    case Deliver => DeliverAdds(s);
    case PollExit(_) => AddsNothing(s, t);
  }

  lemma TickExitAdds(s: State)
    ensures Adds(s, Dropped(s.tickHeld), DoTick(s, TickExit))
  {
    hide Dropped;
  }

  lemma TickAdds(s: State, l: TickStep, t: State)
    requires t == DoTick(s, l)
    ensures Adds(s, if l.TickExit? then Dropped(s.tickHeld) else [], t)
  {
    hide Adds, Dropped;
    match l
    case Expire(_, _, _) => AddsNothing(s, t);
    case SendBatch => AddsNothing(s, t);
    case TickExit => TickExitAdds(s);
  }

  lemma TimerAdds(s: State, l: TimerStep, t: State)
    requires Bounded(s.ring) && CanTimer(s, l) && t == DoTimer(s, l)
    ensures Adds(s, if l.TimerEnqueue? then Refusal(s, s.timerHeld[0]) else [], t)
  {
    hide Offer, EnqueueLog, Adds;
    match l
    case TimerReceive => AddsNothing(s, t);
    case TimerEnqueue => EnqueueAdds(s, s.timerHeld[0], t);
    case TimerExit => AddsNothing(s, t);
  }

  lemma FilterAdds(c: Config, s: State, f: FilterStep)
    requires CanDisp(c, s, Filter(f))
    ensures Adds(s, DispLogs(c, s, Filter(f)), DoFilter(c, s, f))
  {
    hide NextProbe;
    assert s.log + [] == s.log;
  }

  lemma AckDupAdds(c: Config, s: State)
    requires CanDisp(c, s, AckDup)
    ensures Adds(s, DispLogs(c, s, AckDup), DoAckDup(s))
  {
  }

  lemma SubmitAdds(c: Config, s: State)
    requires CanDisp(c, s, Submit)
    ensures Adds(s, DispLogs(c, s, Submit), DoSubmit(s))
  {
  }

  lemma DequeueAdds(s: State)
    requires Bounded(s.ring) && s.disp.Idle?
    ensures Adds(s, [], DoDequeue(s))
  {
    hide TakeBatch;
    AddsNothing(s, DoDequeue(s));
  }

  lemma DispAdds(c: Config, s: State, l: DispStep, t: State)
    requires Bounded(s.ring) && CanDisp(c, s, l) && t == DoDisp(c, s, l)
    ensures Adds(s, DispLogs(c, s, l), t)
  {
    hide Adds, DoDequeue, DoFilter, DoAckDup, DoSubmit;
    match l
    case StartDrain => AddsNothing(s, t);
    case Look => AddsNothing(s, t);
    case Resume => AddsNothing(s, t);
    case DispExit => AddsNothing(s, t);
    case Dequeue => DequeueAdds(s);
    case Filter(f) => FilterAdds(c, s, f);
    case AckDup => AckDupAdds(c, s);
    case Submit => SubmitAdds(c, s);
    case Barrier => AddsNothing(s, t);
  }

  lemma RetryAdds(s: State, w: nat, d: Delivery)
    requires Bounded(s.ring) && w < |s.workers|
    ensures Adds(s, Refusal(s, Again(d)), SettleRetry(s, w, d))
  {
    hide Offer, EnqueueLog;
    EnqueueAdds(s, Again(d), SettleRetry(s, w, d));
  }

  lemma AckAdds(c: Config, s: State, w: nat, d: Delivery)
    requires w < |s.workers|
    ensures Adds(s, [AckCalled(d, HandlerAck, s.transportOpen)], SettleAck(c, s, w, d))
  {
  }

  lemma NackAdds(s: State, w: nat, d: Delivery, delay: int, requeue: bool)
    requires w < |s.workers|
    ensures Adds(s, [NackCalled(d, delay, requeue, s.transportOpen)], SettleNack(s, w, d, delay, requeue))
  {
  }

  lemma DlqAdds(s: State, w: nat, d: Delivery, ok: bool)
    requires w < |s.workers|
    ensures Adds(s, [DlqCalled(d, ok, s.transportOpen)], SettleDlq(s, w, d, ok))
  {
  }

  lemma NothingAdds(s: State, w: nat, d: Delivery)
    requires w < |s.workers|
    ensures Adds(s, [OutcomeIgnored(d)], SettleNothing(s, w, d))
  {
  }

  lemma SettleAdds(c: Config, s: State, w: nat, ok: bool, requeue: bool, t: State)
    requires Bounded(s.ring) && w < |s.workers| && CanWork(c, s, w, Settle(ok, requeue))
    requires t == DoSettle(c, s, w, ok, requeue)
    ensures Adds(s, SettleLogs(s, s.workers[w].d, s.workers[w].action, s.workers[w].delay, ok, requeue), t)
  {
    hide Adds, Offer, Refusal, SettleAck, SettleRetry, SettleNack, SettleDlq, SettleNothing;
    var k := s.workers[w];
    match k.action
    case Ack => AckAdds(c, s, w, k.d);
    case Retry => RetryAdds(s, w, k.d);
    case RetryWithDelay => NackAdds(s, w, k.d, k.delay, requeue);
    case DLQ => DlqAdds(s, w, k.d, ok);
    case Unknown(_) => NothingAdds(s, w, k.d);
  }

  lemma TakeAdds(c: Config, s: State, w: nat)
    requires w < |s.workers| && s.pool != []
    ensures Adds(s, if s.pool[0].msg.topic in c.handlers then [Started(s.pool[0], s.batch, s.now)] else [],
                 DoTake(c, s, w))
  {
    assert s.log + [] == s.log;
  }

  lemma DecideAdds(c: Config, s: State, w: nat, d: Delivery, result: Result)
    requires w < |s.workers| && d.msg.topic in c.handlers
    ensures var a := Handle(c.handlers[d.msg.topic], c.overflow, d.msg, result).action;
      Adds(s, [Decided(d, s.batch, s.now, result, a)], DoDecide(c, s, w, d, result))
  {
    hide Handle;
  }

  lemma AckDeadAdds(s: State, w: nat, d: Delivery)
    requires w < |s.workers|
    ensures Adds(s, [AckCalled(d, DeadLetter, s.transportOpen)], DoAckDead(s, w, d))
  {
  }

  lemma MarkAdds(c: Config, s: State, w: nat, m: Message, marked: bool)
    requires w < |s.workers|
    ensures Adds(s, MarkLogs(s, m, marked), DoMark(c, s, w, m, marked))
  {
    assert s.log + [] == s.log;
  }

  lemma WorkAdds(c: Config, s: State, w: nat, l: WorkStep, t: State)
    requires Bounded(s.ring) && w < |s.workers| && CanWork(c, s, w, l) && t == DoWork(c, s, w, l)
    ensures Adds(s, WorkLogs(c, s, w, l), t)
  {
    hide Adds, Offer, Handle, SettleLogs, MarkLogs, DoTake, DoDecide, DoSettle, DoAckDead, DoMark;
    match l
    case Take => TakeAdds(c, s, w);
    case Decide(result) => DecideAdds(c, s, w, s.workers[w].d, result);
    case Settle(ok, requeue) => SettleAdds(c, s, w, ok, requeue, t);
    case AckDead => AckDeadAdds(s, w, s.workers[w].d);
    case Mark(marked) => MarkAdds(c, s, w, s.workers[w].m, marked);
    case WorkExit => AddsNothing(s, t);
  }

  lemma StopAdds(s: State)
    ensures Adds(s, [], DoStop(s)) && Adds(s, [], DoDrainWheel(s)) && Adds(s, [], DoFinish(s))
  {
    AddsNothing(s, DoStop(s));
    AddsNothing(s, DoDrainWheel(s));
    AddsNothing(s, DoFinish(s));
  }

  lemma DrainAdds(s: State)
    requires Bounded(s.ring) && s.phase.Draining? && s.phase.rest != []
    ensures Adds(s, Refusal(s, s.phase.rest[0]), DoDrain(s))
  {
    hide Offer, EnqueueLog;
    EnqueueAdds(s, s.phase.rest[0], DoDrain(s));
  }

  lemma MainAdds(s: State, t: State)
    requires Bounded(s.ring) && CanMain(s) && t == DoMain(s)
    ensures Adds(s, if s.phase.Draining? && s.phase.rest != [] then Refusal(s, s.phase.rest[0]) else [], t)
  {
    hide Adds, Offer, Refusal, DoStop, DoDrainWheel, DoFinish, DoDrain;
    StopAdds(s);
    if s.phase.Draining? && s.phase.rest != [] {
      DrainAdds(s);
    }
  }

  lemma EvictAdds(s: State, l: EvictStep, t: State)
    requires CanEvict(s, l) && t == DoEvict(s, l)
    ensures Adds(s, [], t)
  {
    match l
    case ReadClock => AddsNothing(s, t);
    case Sweep => AddsNothing(s, t);
  }

  /** The history grows by exactly these events, whatever the step. */
  lemma StepAdds(c: Config, s: State, l: Label, t: State)
    requires Enabled(c, s, l) && t == Apply(c, s, l)
    ensures t.log == s.log + Logs(c, s, l)
  {
    hide DoEnv, DoPoll, DoTick, DoTimer, DoDisp, DoWork, DoEvict, DoMain;
    hide PollLogs, DispLogs, WorkLogs, Refusal, Dropped, CanTick, CanPoll, CanTimer, CanDisp, CanWork, CanMain;
    match l
    case Env(e) => EnvAdds(s, e, t);
    case Poll(p) => PollAdds(s, p, t);
    case Tick(x) => TickAdds(s, x, t);
    case Timer(r) => TimerAdds(s, r, t);
    case Disp(x) => DispAdds(c, s, x, t);
    case Work(w, k) => WorkAdds(c, s, w, k, t);
    case Evict(v) => EvictAdds(s, v, t);
    case Main => MainAdds(s, t);
  }
}
