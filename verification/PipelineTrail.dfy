/** What each settlement in the history implies about the message it settles, in every run. */
module PipelineTrail {
  import opened Retry
  import opened RingSpec
  import opened Pipeline
  import opened PipelineControl
  import opened PipelineQuiet
  import opened PipelineAlive

  /** Some handler run on the message published as o returned Ack. */
  ghost predicate AckDecided(log: seq<Event>, o: nat) {
    exists e :: e in log && e.Decided? && e.d.origin == o && e.result.action.Ack?
  }

  /** The message published as o was sent to the dead-letter queue. */
  ghost predicate DlqSeen(log: seq<Event>, o: nat) {
    exists e :: e in log && e.DlqCalled? && e.d.origin == o
  }

  /** Only handler Acks are acked as such, only dead-lettered messages as dead, only keyed ones as duplicates; every
      outcome is acted upon; batches are dropped and messages refused only at shutdown. */
  ghost predicate EventOk(s: State, e: Event) {
    match e
    case AckCalled(d, why, _) =>
      (match why
       case HandlerAck => AckDecided(s.log, d.origin)
       case DeadLetter => DlqSeen(s.log, d.origin)
       case Duplicate => d.msg.key.Some?)
    case OutcomeIgnored(_) => false
    case BatchDropped(_) => s.tickExited
    case Rejected(_, draining) => draining ==> Rank(s.phase) >= 6
    case _ => true
  }

  ghost predicate HandOk(log: seq<Event>, k: Worker) {
    match k
    case Settling(d, a, _) => !a.Unknown? && (a.Ack? ==> AckDecided(log, d.origin))
    case DlqSent(d) => DlqSeen(log, d.origin)
    case _ => true
  }

  predicate BatchOk(x: Dispatcher) {
    x.Working? ==> forall i :: 0 <= i < |x.dups| ==> x.dups[i].msg.key.Some?
  }

  ghost predicate Trail(s: State) {
    && (forall e :: e in s.log ==> EventOk(s, e))
    && (forall w :: 0 <= w < |s.workers| ==> HandOk(s.log, s.workers[w]))
    && BatchOk(s.disp)
  }

  // ----- extending a history

  lemma Later(s: State, t: State, e: Event)
    requires Extends(s.log, t.log) && EventOk(s, e)
    requires (s.tickExited ==> t.tickExited) && Rank(s.phase) <= Rank(t.phase)
    ensures EventOk(t, e)
  {
  }

  lemma HandLater(log: seq<Event>, later: seq<Event>, k: Worker)
    requires Extends(log, later) && HandOk(log, k)
    ensures HandOk(later, k)
  {
  }

  /** Nothing new but what is accounted for. */
  lemma TrailGrow(s: State, t: State)
    requires Trail(s) && Extends(s.log, t.log) && BatchOk(t.disp)
    requires (s.tickExited ==> t.tickExited) && Rank(s.phase) <= Rank(t.phase)
    requires forall e :: e in t.log ==> e in s.log || EventOk(t, e)
    requires forall w :: 0 <= w < |t.workers| ==>
      (w < |s.workers| && t.workers[w] == s.workers[w]) || HandOk(t.log, t.workers[w])
    ensures Trail(t)
  {
    hide EventOk, HandOk;
    forall e | e in t.log
      ensures EventOk(t, e)
    {
      if e in s.log {
        Later(s, t, e);
      }
    }
    forall w | 0 <= w < |t.workers|
      ensures HandOk(t.log, t.workers[w])
    {
      if w < |s.workers| && t.workers[w] == s.workers[w] {
        HandLater(s.log, t.log, t.workers[w]);
      }
    }
  }

  /** A state whose history and threads' departures are those of s. */
  predicate SameTrail(s: State, t: State) {
    t.tickExited == s.tickExited && t.phase == s.phase && t.disp == s.disp
  }

  lemma TrailSame(s: State, t: State)
    requires Trail(s) && t.log == s.log && t.workers == s.workers && BatchOk(t.disp)
    requires (s.tickExited ==> t.tickExited) && Rank(s.phase) <= Rank(t.phase)
    ensures Trail(t) && Extends(s.log, t.log)
  {
    hide EventOk, HandOk;
    TrailGrow(s, t);
  }

  lemma TrailLog(s: State, e: Event, t: State)
    requires Trail(s) && t.log == s.log + [e] && t.workers == s.workers && BatchOk(t.disp) && EventOk(t, e)
    requires (s.tickExited ==> t.tickExited) && Rank(s.phase) <= Rank(t.phase)
    ensures Trail(t) && Extends(s.log, t.log)
  {
    hide EventOk, HandOk;
    TrailGrow(s, t);
  }

  lemma TrailHand(s: State, w: nat, k: Worker, t: State)
    requires Trail(s) && w < |s.workers| && SameTrail(s, t) && t.log == s.log && t.workers == s.workers[w := k]
    requires HandOk(s.log, k)
    ensures Trail(t) && Extends(s.log, t.log)
  {
    hide EventOk, HandOk;
    TrailGrow(s, t);
  }

  lemma TrailBoth(s: State, w: nat, k: Worker, e: Event, t: State)
    requires Trail(s) && w < |s.workers| && SameTrail(s, t) && t.log == s.log + [e] && t.workers == s.workers[w := k]
    requires EventOk(t, e) && HandOk(t.log, k)
    ensures Trail(t) && Extends(s.log, t.log)
  {
    hide EventOk, HandOk;
    TrailGrow(s, t);
  }

  // ----- intake

  lemma TrailEnqueueLog(s: State, d: Delivery, t: State)
    requires Bounded(s.ring) && Trail(s) && t.log == EnqueueLog(s, d) && t.workers == s.workers && t.disp == s.disp
    requires t.tickExited == s.tickExited && Rank(t.phase) == Rank(s.phase)
    ensures Trail(t) && Extends(s.log, t.log)
  {
    hide Trail, Offer;
    TrailParts(s);
    if Offer(s.ring, d).1 == Accepted {
      TrailSame(s, t);
    } else {
      TrailLog(s, Rejected(d, s.phase.Draining?), t);
    }
  }

  lemma TrailParts(s: State)
    requires Trail(s)
    ensures BatchOk(s.disp)
  {
  }

  lemma TrailPublish(s: State, m: Message)
    requires Trail(s)
    ensures Trail(DoPublish(s, m)) && Extends(s.log, DoPublish(s, m).log)
  {
    hide Trail;
    TrailParts(s);
    var t := DoPublish(s, m);
    if s.transportOpen {
      TrailLog(s, Arrived(Delivery(s.next, s.next, m.attempts, true, m)), t);
    } else {
      TrailSame(s, t);
    }
  }

  lemma TrailEnv(s: State, l: EnvStep, t: State)
    requires Trail(s) && t == DoEnv(s, l)
    ensures Trail(t) && Extends(s.log, t.log)
  {
    hide Trail, DoPublish;
    TrailParts(s);
    match l
    case Publish(m) => TrailPublish(s, m);
    case Cancel => TrailSame(s, t);
    case Pass(_) => TrailSame(s, t);
  }

  lemma TrailDeliverNow(s: State)
    requires Bounded(s.ring) && Trail(s) && CanPoll(s, Deliver) && s.pollHeld[0].msg.notBefore <= 0
    ensures Trail(DoDeliver(s)) && Extends(s.log, DoDeliver(s).log)
  {
    hide Trail, Offer;
    TrailEnqueueLog(s, s.pollHeld[0], DoDeliver(s));
  }

  lemma TrailDeliverLater(s: State)
    requires Bounded(s.ring) && Trail(s) && CanPoll(s, Deliver) && s.pollHeld[0].msg.notBefore > 0
    ensures Trail(DoDeliver(s)) && Extends(s.log, DoDeliver(s).log)
  {
    hide Trail, Offer;
    TrailParts(s);
    if s.wheelOpen {
      TrailSame(s, DoDeliver(s));
    } else {
      TrailLog(s, InsertIgnored(s.pollHeld[0]), DoDeliver(s));
    }
  }

  lemma TrailPoll(s: State, l: PollStep, t: State)
    requires Bounded(s.ring) && Trail(s) && CanPoll(s, l) && t == DoPoll(s, l)
    ensures Trail(t) && Extends(s.log, t.log)
  {
    hide Trail, Offer, DoDeliver;
    TrailParts(s);
    match l
    case Receive(_) => TrailSame(s, t);
    case Deliver =>
      if s.pollHeld[0].msg.notBefore > 0 {
        TrailDeliverLater(s);
      } else {
        TrailDeliverNow(s);
      }
    case PollExit(_) => TrailSame(s, t);
  }

  lemma TrailTickExit(s: State)
    requires Trail(s)
    ensures Trail(DoTick(s, TickExit)) && Extends(s.log, DoTick(s, TickExit).log)
  {
    var t := DoTick(s, TickExit);
    forall e | e in t.log && e !in s.log
      ensures e.BatchDropped?
    {
      assert e in Dropped(s.tickHeld);
    }
    TrailGrow(s, t);
  }

  lemma TrailTick(s: State, l: TickStep, t: State)
    requires Trail(s) && t == DoTick(s, l)
    ensures Trail(t) && Extends(s.log, t.log)
  {
    hide Trail, Dropped;
    TrailParts(s);
    if l.TickExit? {
      TrailTickExit(s);
    } else if l.SendBatch? {
      TrailSame(s, t);
    } else {
      TrailSame(s, t);
    }
  }

  lemma TrailTimer(s: State, l: TimerStep, t: State)
    requires Bounded(s.ring) && Trail(s) && CanTimer(s, l) && t == DoTimer(s, l)
    ensures Trail(t) && Extends(s.log, t.log)
  {
    hide Trail, Offer, EnqueueLog;
    TrailParts(s);
    match l
    case TimerReceive => TrailSame(s, t);
    case TimerEnqueue => TrailEnqueueLog(s, s.timerHeld[0], t);
    case TimerExit => TrailSame(s, t);
  }

  // ----- dispatcher

  lemma BatchStaysOk(c: Config, s: State, f: FilterStep)
    requires CanDisp(c, s, Filter(f)) && BatchOk(s.disp)
    ensures BatchOk(NextProbe(c, s.now, s.keys, s.disp, f))
  {
  }

  lemma TrailFound(c: Config, s: State, f: FilterStep)
    requires Trail(s) && CanDisp(c, s, Filter(f)) && Discards(s.now, s.disp, f)
    ensures Trail(DoFilter(c, s, f)) && Extends(s.log, DoFilter(c, s, f).log)
  {
    hide Trail, NextProbe, BatchOk;
    TrailParts(s);
    BatchStaysOk(c, s, f);
    TrailLog(s, FoundDuplicate(s.disp.todo[0], s.now), DoFilter(c, s, f));
  }

  lemma TrailPass(c: Config, s: State, f: FilterStep)
    requires Trail(s) && CanDisp(c, s, Filter(f)) && !Discards(s.now, s.disp, f)
    ensures Trail(DoFilter(c, s, f)) && Extends(s.log, DoFilter(c, s, f).log)
  {
    hide Trail, NextProbe, BatchOk;
    TrailParts(s);
    BatchStaysOk(c, s, f);
    TrailSame(s, DoFilter(c, s, f));
  }

  lemma TrailFilter(c: Config, s: State, f: FilterStep)
    requires Trail(s) && CanDisp(c, s, Filter(f))
    ensures Trail(DoFilter(c, s, f)) && Extends(s.log, DoFilter(c, s, f).log)
  {
    hide Trail, DoFilter, NextProbe, Discards;
    if Discards(s.now, s.disp, f) {
      TrailFound(c, s, f);
    } else {
      TrailPass(c, s, f);
    }
  }

  lemma TrailAckDup(s: State)
    requires Trail(s) && s.disp.Working? && s.disp.dups != []
    ensures Trail(DoAckDup(s)) && Extends(s.log, DoAckDup(s).log)
  {
    hide Trail;
    TrailParts(s);
    TrailLog(s, AckCalled(s.disp.dups[0], Duplicate, s.transportOpen), DoAckDup(s));
  }

  lemma TrailSubmit(s: State)
    requires Trail(s) && s.disp.Working? && s.disp.kept != []
    ensures Trail(DoSubmit(s)) && Extends(s.log, DoSubmit(s).log)
  {
    hide Trail;
    TrailParts(s);
    TrailLog(s, if s.poolOpen then Submitted(s.disp.kept[0], s.batch) else SubmitPanic, DoSubmit(s));
  }

  lemma TrailDequeue(s: State)
    requires Bounded(s.ring) && Trail(s) && s.disp.Idle?
    ensures Trail(DoDequeue(s)) && Extends(s.log, DoDequeue(s).log)
  {
    hide Trail, TakeBatch;
    TrailSame(s, DoDequeue(s));
  }

  lemma TrailDisp(c: Config, s: State, l: DispStep, t: State)
    requires Bounded(s.ring) && Trail(s) && CanDisp(c, s, l) && t == DoDisp(c, s, l)
    ensures Trail(t) && Extends(s.log, t.log)
  {
    hide Trail, DoDequeue, DoFilter, DoAckDup, DoSubmit;
    match l
    case StartDrain => TrailSame(s, t);
    case Look => TrailSame(s, t);
    case Resume => TrailSame(s, t);
    case DispExit => TrailSame(s, t);
    case Dequeue => TrailDequeue(s);
    case Filter(f) => TrailFilter(c, s, f);
    case AckDup => TrailAckDup(s);
    case Submit => TrailSubmit(s);
    case Barrier => TrailSame(s, t);
  }

  // ----- workers

  lemma TrailOf(s: State, w: nat)
    requires Trail(s) && w < |s.workers|
    ensures HandOk(s.log, s.workers[w])
  {
  }

  lemma TrailAckMark(c: Config, s: State, w: nat, d: Delivery)
    requires Trail(s) && w < |s.workers| && AckDecided(s.log, d.origin) && c.store
    ensures Trail(SettleAck(c, s, w, d)) && Extends(s.log, SettleAck(c, s, w, d).log)
  {
    hide Trail;
    var e := AckCalled(d, HandlerAck, s.transportOpen);
    assert Extends(s.log, s.log + [e]);
    TrailBoth(s, w, Marking(d.msg), e, SettleAck(c, s, w, d));
  }

  lemma TrailAckOnly(c: Config, s: State, w: nat, d: Delivery)
    requires Trail(s) && w < |s.workers| && AckDecided(s.log, d.origin) && !c.store
    ensures Trail(SettleAck(c, s, w, d)) && Extends(s.log, SettleAck(c, s, w, d).log)
  {
    hide Trail;
    var e := AckCalled(d, HandlerAck, s.transportOpen);
    assert Extends(s.log, s.log + [e]);
    TrailBoth(s, w, Free, e, SettleAck(c, s, w, d));
  }

  lemma TrailRetryStored(s: State, w: nat, d: Delivery)
    requires Bounded(s.ring) && Trail(s) && w < |s.workers| && Offer(s.ring, Again(d)).1 == Accepted
    ensures Trail(SettleRetry(s, w, d)) && Extends(s.log, SettleRetry(s, w, d).log)
  {
    hide Trail, Offer;
    TrailHand(s, w, Free, SettleRetry(s, w, d));
  }

  lemma TrailRetryRefused(s: State, w: nat, d: Delivery)
    requires Bounded(s.ring) && Trail(s) && w < |s.workers| && Offer(s.ring, Again(d)).1 != Accepted
    ensures Trail(SettleRetry(s, w, d)) && Extends(s.log, SettleRetry(s, w, d).log)
  {
    hide Trail, Offer;
    TrailBoth(s, w, Free, Rejected(Again(d), s.phase.Draining?), SettleRetry(s, w, d));
  }

  lemma TrailNack(s: State, w: nat, d: Delivery, delay: int, requeue: bool)
    requires Trail(s) && w < |s.workers|
    ensures Trail(SettleNack(s, w, d, delay, requeue)) && Extends(s.log, SettleNack(s, w, d, delay, requeue).log)
  {
    hide Trail;
    TrailBoth(s, w, Free, NackCalled(d, delay, requeue, s.transportOpen), SettleNack(s, w, d, delay, requeue));
  }

  lemma TrailDlqSent(s: State, w: nat, d: Delivery)
    requires Trail(s) && w < |s.workers|
    ensures Trail(SettleDlq(s, w, d, true)) && Extends(s.log, SettleDlq(s, w, d, true).log)
  {
    hide Trail;
    var e := DlqCalled(d, true, s.transportOpen);
    assert e in s.log + [e];
    TrailBoth(s, w, DlqSent(d), e, SettleDlq(s, w, d, true));
  }

  lemma TrailDlqFailed(s: State, w: nat, d: Delivery)
    requires Trail(s) && w < |s.workers|
    ensures Trail(SettleDlq(s, w, d, false)) && Extends(s.log, SettleDlq(s, w, d, false).log)
  {
    hide Trail;
    TrailBoth(s, w, Free, DlqCalled(d, false, s.transportOpen), SettleDlq(s, w, d, false));
  }

  lemma TrailSettle(c: Config, s: State, w: nat, ok: bool, requeue: bool, t: State)
    requires Bounded(s.ring) && Trail(s) && w < |s.workers| && CanWork(c, s, w, Settle(ok, requeue))
    requires t == DoSettle(c, s, w, ok, requeue)
    ensures Trail(t) && Extends(s.log, t.log)
  {
    hide Trail, Offer, SettleAck, SettleRetry, SettleNack, SettleDlq, SettleNothing;
    var k := s.workers[w];
    TrailOf(s, w);
    match k.action
    case Ack =>
      if c.store {
        TrailAckMark(c, s, w, k.d);
      } else {
        TrailAckOnly(c, s, w, k.d);
      }
    case Retry =>
      if Offer(s.ring, Again(k.d)).1 == Accepted {
        TrailRetryStored(s, w, k.d);
      } else {
        TrailRetryRefused(s, w, k.d);
      }
    case RetryWithDelay => TrailNack(s, w, k.d, k.delay, requeue);
    case DLQ =>
      if ok {
        TrailDlqSent(s, w, k.d);
      } else {
        TrailDlqFailed(s, w, k.d);
      }
    case Unknown(_) => assert false;
  }

  lemma TrailTake(c: Config, s: State, w: nat)
    requires Trail(s) && w < |s.workers| && s.pool != [] && s.pool[0].msg.topic in c.handlers
    ensures Trail(DoTake(c, s, w)) && Extends(s.log, DoTake(c, s, w).log)
  {
    hide Trail;
    var d := s.pool[0];
    TrailBoth(s, w, Running(d), Started(d, s.batch, s.now), DoTake(c, s, w));
  }

  lemma TrailTakeUnknown(c: Config, s: State, w: nat)
    requires Trail(s) && w < |s.workers| && s.pool != [] && s.pool[0].msg.topic !in c.handlers
    ensures Trail(DoTake(c, s, w)) && Extends(s.log, DoTake(c, s, w).log)
  {
    hide Trail;
    TrailHand(s, w, Settling(s.pool[0], DLQ, 0), DoTake(c, s, w));
  }

  lemma TrailDecide(c: Config, s: State, w: nat, d: Delivery, result: Result)
    requires Trail(s) && w < |s.workers| && d.msg.topic in c.handlers
    ensures Trail(DoDecide(c, s, w, d, result)) && Extends(s.log, DoDecide(c, s, w, d, result).log)
  {
    hide Trail, Handle;
    var o := Handle(c.handlers[d.msg.topic], c.overflow, d.msg, result);
    CoordinatorContract(c.handlers[d.msg.topic], c.overflow, d.msg, result);
    var e := Decided(d, s.batch, s.now, result, o.action);
    assert e in s.log + [e];
    TrailBoth(s, w, Settling(d.(msg := o.message), o.action, o.delay), e, DoDecide(c, s, w, d, result));
  }

  lemma TrailAckDead(s: State, w: nat, d: Delivery)
    requires Trail(s) && w < |s.workers| && DlqSeen(s.log, d.origin)
    ensures Trail(DoAckDead(s, w, d)) && Extends(s.log, DoAckDead(s, w, d).log)
  {
    hide Trail;
    var e := AckCalled(d, DeadLetter, s.transportOpen);
    assert Extends(s.log, s.log + [e]);
    TrailBoth(s, w, Free, e, DoAckDead(s, w, d));
  }

  lemma TrailMark(c: Config, s: State, w: nat, m: Message, marked: bool)
    requires Trail(s) && w < |s.workers|
    ensures Trail(DoMark(c, s, w, m, marked)) && Extends(s.log, DoMark(c, s, w, m, marked).log)
  {
    hide Trail;
    TrailParts(s);
    var t := DoMark(c, s, w, m, marked);
    if m.key.None? || !marked {
      TrailHand(s, w, Free, t);
    } else if s.storeOpen {
      TrailBoth(s, w, Free, Marked(m.key.value, s.batch, s.now), t);
    } else {
      TrailLog(s, MarkPanic, t);
    }
  }

  lemma TrailWork(c: Config, s: State, w: nat, l: WorkStep, t: State)
    requires Bounded(s.ring) && Trail(s) && w < |s.workers| && CanWork(c, s, w, l) && t == DoWork(c, s, w, l)
    ensures Trail(t) && Extends(s.log, t.log)
  {
    hide Trail, Offer, Handle, DoTake, DoDecide, DoSettle, DoAckDead, DoMark;
    TrailOf(s, w);
    match l
    case Take =>
      if s.pool[0].msg.topic in c.handlers {
        TrailTake(c, s, w);
      } else {
        TrailTakeUnknown(c, s, w);
      }
    case Decide(result) => TrailDecide(c, s, w, s.workers[w].d, result);
    case Settle(ok, requeue) => TrailSettle(c, s, w, ok, requeue, t);
    case AckDead => TrailAckDead(s, w, s.workers[w].d);
    case Mark(marked) => TrailMark(c, s, w, s.workers[w].m, marked);
    case WorkExit => TrailHand(s, w, Exited, t);
  }

  // ----- the rest

  lemma TrailEvict(s: State, l: EvictStep, t: State)
    requires Trail(s) && CanEvict(s, l) && t == DoEvict(s, l)
    ensures Trail(t) && Extends(s.log, t.log)
  {
    hide Trail;
    TrailParts(s);
    match l
    case ReadClock => TrailSame(s, t);
    case Sweep => TrailSame(s, t);
  }

  lemma TrailStop(s: State)
    requires Trail(s) && Rank(s.phase) < 5
    ensures Trail(DoStop(s)) && Extends(s.log, DoStop(s).log)
  {
    hide Trail;
    TrailParts(s);
    TrailSame(s, DoStop(s));
  }

  lemma TrailDrainWheel(s: State)
    requires Trail(s) && s.phase.RingClosed?
    ensures Trail(DoDrainWheel(s)) && Extends(s.log, DoDrainWheel(s).log)
  {
    hide Trail;
    TrailParts(s);
    TrailSame(s, DoDrainWheel(s));
  }

  lemma TrailFinish(s: State)
    requires Trail(s)
    ensures Trail(DoFinish(s)) && Extends(s.log, DoFinish(s).log)
  {
    hide Trail;
    TrailParts(s);
    TrailSame(s, DoFinish(s));
  }

  lemma TrailDrain(s: State)
    requires Bounded(s.ring) && Trail(s) && s.phase.Draining? && s.phase.rest != []
    ensures Trail(DoDrain(s)) && Extends(s.log, DoDrain(s).log)
  {
    hide Trail, Offer, EnqueueLog;
    TrailEnqueueLog(s, s.phase.rest[0], DoDrain(s));
  }

  lemma TrailMain(s: State, t: State)
    requires Bounded(s.ring) && Trail(s) && CanMain(s) && t == DoMain(s)
    ensures Trail(t) && Extends(s.log, t.log)
  {
    hide Trail, Extends, DoStop, DoDrainWheel, DoFinish, DoDrain, Offer;
    if s.phase.RingClosed? {
      TrailDrainWheel(s);
    } else if s.phase == Draining([]) {
      TrailFinish(s);
    } else if s.phase.Draining? {
      TrailDrain(s);
    } else {
      TrailStop(s);
    }
  }

  lemma TrailStep(c: Config, s: State, l: Label, t: State)
    requires Trail(s) && Enabled(c, s, l) && t == Apply(c, s, l)
    ensures Trail(t) && Extends(s.log, t.log)
  {
    hide Trail, Extends, DoEnv, DoPoll, DoTick, DoTimer, DoDisp, DoWork, DoEvict, DoMain;
    match l
    case Env(e) => TrailEnv(s, e, t);
    case Poll(p) => TrailPoll(s, p, t);
    case Tick(x) => TrailTick(s, x, t);
    case Timer(r) => TrailTimer(s, r, t);
    case Disp(x) => TrailDisp(c, s, x, t);
    case Work(w, k) => TrailWork(c, s, w, k, t);
    case Evict(v) => TrailEvict(s, v, t);
    case Main => TrailMain(s, t);
  }

  lemma TrailInitial(c: Config, now: int)
    requires WellFormed(c)
    ensures Trail(Initial(c, now))
  {
  }

  /** The trail is kept along every run, and no run takes back what it has logged. */
  lemma {:induction false} TrailRun(c: Config, s: State, ls: seq<Label>, t: State)
    requires Trail(s) && Run(c, s, ls, t)
    ensures Trail(t) && Extends(s.log, t.log)
    decreases |ls|
  {
    hide Trail;
    if ls != [] {
      TrailStep(c, s, ls[0], Apply(c, s, ls[0]));
      TrailRun(c, Apply(c, s, ls[0]), ls[1..], t);
    }
  }

  /** While the pipeline is up nothing has been refused, ignored or dropped. */
  lemma NothingLost(c: Config, s: State, e: Event)
    requires Control(c, s) && Attended(s) && Trail(s) && Up(s) && e in s.log
    ensures !e.Rejected? && !e.InsertIgnored? && !e.BatchDropped?
  {
    hide HandOk;
    assert SafeEvent(e) && EventOk(s, e);
  }
}
