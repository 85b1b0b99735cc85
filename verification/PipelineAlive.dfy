/** While the pipeline serves, its threads are up, and no message is stranded. */
module PipelineAlive {
  import opened Retry
  import opened RingSpec
  import opened TimerWheel
  import opened Pipeline
  import opened PipelineControl
  import opened PipelineProgress

  /** Nobody has cancelled the run. */
  predicate Serves(s: State) {
    s.phase.Serving? && !s.cancelled
  }

  /** And the poller is still subscribed. */
  predicate Up(s: State) {
    Serves(s) && !s.pollExited
  }

  /** No delivery is anywhere on its way, and no worker has anything left to do. */
  predicate Empty(s: State) {
    s.queue == [] && AllTaken(s)
  }

  /** The same of what has left the transport. */
  predicate AllTaken(s: State) {
    && s.pollHeld == [] && s.wheel == [] && s.tickHeld == [] && s.channel == [] && s.timerHeld == []
    && s.ring.contents == [] && !s.disp.Working? && s.pool == []
    && (forall i :: 0 <= i < |s.workers| ==> !IsBusy(s.workers[i]))
    && (s.phase.Draining? ==> s.phase.rest == [])
  }

  /** Nothing is left to do: what a poller that has left does not fetch stays in the transport. */
  predicate Rested(s: State) {
    AllTaken(s) && (s.queue == [] || s.pollExited)
  }

  // ----- nobody leaves before being told to

  /** Which threads have been cancelled and which have left. */
  predicate SameMode(s: State, t: State) {
    && t.phase == s.phase && t.cancelled == s.cancelled && t.pollCancelled == s.pollCancelled
    && t.pollExited == s.pollExited && t.tickExited == s.tickExited && t.timerExited == s.timerExited
  }

  predicate SameCourse(s: State, t: State) {
    SameMode(s, t) && t.disp == s.disp
  }

  /** The dispatcher has left or is on its way out. */
  predicate Leaving(x: Dispatcher) {
    x.Gone? || ((x.Idle? || x.Working?) && x.draining)
  }

  /** Dispatcher, ticker and timer leave only when cancelled. */
  predicate Attended(s: State) {
    && (Leaving(s.disp) ==> DispCancelled(s))
    && (s.tickExited ==> TimerCancelled(s))
    && (s.timerExited ==> TimerCancelled(s))
  }

  lemma ModePublish(s: State, m: Message)
    ensures SameCourse(s, DoPublish(s, m))
  {
  }

  lemma ModePass(s: State, dt: nat)
    ensures SameCourse(s, DoEnv(s, Pass(dt)))
  {
    hide DoPublish;
  }

  lemma ModeCancel(s: State)
    ensures SameCourse(s.(cancelled := true), DoEnv(s, Cancel))
  {
    hide DoPublish;
  }

  lemma ModeEnv(s: State, l: EnvStep, t: State)
    requires t == DoEnv(s, l)
    ensures t.disp == s.disp && t.phase == s.phase && t.cancelled == (s.cancelled || l.Cancel?)
    ensures t.tickExited == s.tickExited && t.timerExited == s.timerExited && t.pollExited == s.pollExited
    ensures !l.Cancel? ==> SameMode(s, t)
  {
    hide DoEnv, DoPublish;
    match l
    case Publish(m) =>
      assert t == DoPublish(s, m) by {
        PublishIs(s, m);
      }
      ModePublish(s, m);
    case Cancel => ModeCancel(s);
    case Pass(dt) => ModePass(s, dt);
  }

  lemma PublishIs(s: State, m: Message)
    ensures DoEnv(s, Publish(m)) == DoPublish(s, m)
  {
    hide DoPublish;
  }

  lemma ModeDeliver(s: State)
    requires Bounded(s.ring) && CanPoll(s, Deliver)
    ensures SameMode(s, DoDeliver(s)) && DoDeliver(s).disp == s.disp
  {
    hide Offer;
  }

  lemma ModePoll(s: State, l: PollStep, t: State)
    requires Bounded(s.ring) && CanPoll(s, l) && t == DoPoll(s, l)
    ensures t.disp == s.disp && t.phase == s.phase && t.cancelled == s.cancelled
    ensures t.tickExited == s.tickExited && t.timerExited == s.timerExited
    ensures !l.PollExit? ==> SameMode(s, t)
  {
    hide Offer, DoDeliver;
    match l
    case Receive(_) =>
    case Deliver => ModeDeliver(s);
    case PollExit(_) =>
  }

  lemma ModeExpire(s: State, out: seq<Slot<Delivery>>, rest: seq<Slot<Delivery>>)
    ensures SameCourse(s, s.(wheel := rest, tickHeld := Items(out)))
  {
  }

  lemma ModeSend(s: State)
    ensures SameCourse(s, DoTick(s, SendBatch))
  {
  }

  lemma ModeTickExit(s: State)
    ensures SameCourse(s.(tickExited := true), DoTick(s, TickExit))
  {
    hide Dropped;
  }

  lemma ModeTick(s: State, l: TickStep, t: State)
    requires t == DoTick(s, l)
    ensures t.disp == s.disp && t.phase == s.phase && t.cancelled == s.cancelled && t.timerExited == s.timerExited
    ensures t.tickExited == (s.tickExited || l.TickExit?)
    ensures !l.TickExit? ==> SameMode(s, t)
  {
    hide DoTick;
    match l
    case Expire(tick, out, rest) =>
      assert t == s.(wheel := rest, tickHeld := Items(out)) by {
        ExpireIs(s, tick, out, rest);
      }
      ModeExpire(s, out, rest);
    case SendBatch => ModeSend(s);
    case TickExit => ModeTickExit(s);
  }

  lemma ExpireIs(s: State, tick: int, out: seq<Slot<Delivery>>, rest: seq<Slot<Delivery>>)
    ensures DoTick(s, Expire(tick, out, rest)) == s.(wheel := rest, tickHeld := Items(out))
  {
  }

  lemma ModeTimerEnqueue(s: State)
    requires Bounded(s.ring) && CanTimer(s, TimerEnqueue)
    ensures SameCourse(s, DoTimer(s, TimerEnqueue))
  {
    hide Offer;
  }

  lemma ModeTimerReceive(s: State)
    requires Bounded(s.ring) && CanTimer(s, TimerReceive)
    ensures SameCourse(s, DoTimer(s, TimerReceive))
  {
    hide Offer;
  }

  lemma ModeTimerExit(s: State)
    requires Bounded(s.ring) && CanTimer(s, TimerExit)
    ensures SameCourse(s.(timerExited := true), DoTimer(s, TimerExit))
  {
    hide Offer;
  }

  lemma ModeTimer(s: State, l: TimerStep, t: State)
    requires Bounded(s.ring) && CanTimer(s, l) && t == DoTimer(s, l)
    ensures t.disp == s.disp && t.phase == s.phase && t.cancelled == s.cancelled && t.tickExited == s.tickExited
    ensures t.timerExited == (s.timerExited || l.TimerExit?)
    ensures !l.TimerExit? ==> SameMode(s, t)
  {
    hide DoTimer, CanTimer;
    match l
    case TimerReceive => ModeTimerReceive(s);
    case TimerEnqueue => ModeTimerEnqueue(s);
    case TimerExit => ModeTimerExit(s);
  }

  /** Nobody was told to leave, nobody left, and the dispatcher turned to go only if told to. */
  predicate SameOrGoing(s: State, t: State) {
    SameMode(s, t) && (Leaving(t.disp) ==> Leaving(s.disp) || DispCancelled(s))
  }

  lemma ModeStartDrain(c: Config, s: State)
    requires Bounded(s.ring) && CanDisp(c, s, StartDrain)
    ensures SameOrGoing(s, DoDisp(c, s, StartDrain))
  {
  }

  lemma ModeLook(c: Config, s: State)
    requires Bounded(s.ring) && CanDisp(c, s, Look)
    ensures SameOrGoing(s, DoDisp(c, s, Look))
  {
  }

  lemma ModeResume(c: Config, s: State)
    requires Bounded(s.ring) && CanDisp(c, s, Resume)
    ensures SameOrGoing(s, DoDisp(c, s, Resume))
  {
  }

  lemma ModeDispExit(c: Config, s: State)
    requires Bounded(s.ring) && CanDisp(c, s, DispExit)
    ensures SameOrGoing(s, DoDisp(c, s, DispExit))
  {
  }

  lemma ModeBarrier(c: Config, s: State)
    requires Bounded(s.ring) && CanDisp(c, s, Barrier)
    ensures SameOrGoing(s, DoDisp(c, s, Barrier))
  {
  }

  lemma ModeDequeue(c: Config, s: State)
    requires Bounded(s.ring) && CanDisp(c, s, Dequeue)
    ensures SameOrGoing(s, DoDisp(c, s, Dequeue))
  {
    hide TakeBatch;
  }

  lemma ModeAckDup(c: Config, s: State)
    requires Bounded(s.ring) && CanDisp(c, s, AckDup)
    ensures SameOrGoing(s, DoDisp(c, s, AckDup))
  {
  }

  lemma ModeSubmit(c: Config, s: State)
    requires Bounded(s.ring) && CanDisp(c, s, Submit)
    ensures SameOrGoing(s, DoDisp(c, s, Submit))
  {
  }

  lemma ModeFilter(c: Config, s: State, f: FilterStep)
    requires Bounded(s.ring) && CanDisp(c, s, Filter(f))
    ensures SameOrGoing(s, DoDisp(c, s, Filter(f)))
  {
  }

  lemma ModeDisp(c: Config, s: State, l: DispStep, t: State)
    requires Bounded(s.ring) && CanDisp(c, s, l) && t == DoDisp(c, s, l)
    ensures SameOrGoing(s, t)
  {
    hide SameOrGoing, DoDisp, CanDisp;
    match l
    case StartDrain => ModeStartDrain(c, s);
    case Look => ModeLook(c, s);
    case Resume => ModeResume(c, s);
    case DispExit => ModeDispExit(c, s);
    case Dequeue => ModeDequeue(c, s);
    case Filter(f) => ModeFilter(c, s, f);
    case AckDup => ModeAckDup(c, s);
    case Submit => ModeSubmit(c, s);
    case Barrier => ModeBarrier(c, s);
  }

  lemma ModeAck(c: Config, s: State, w: nat, d: Delivery)
    requires w < |s.workers|
    ensures SameCourse(s, SettleAck(c, s, w, d))
  {
  }

  lemma ModeRetry(s: State, w: nat, d: Delivery)
    requires Bounded(s.ring) && w < |s.workers|
    ensures SameCourse(s, SettleRetry(s, w, d))
  {
    hide Offer;
  }

  lemma ModeNack(s: State, w: nat, d: Delivery, delay: int, requeue: bool)
    requires w < |s.workers|
    ensures SameCourse(s, SettleNack(s, w, d, delay, requeue))
  {
  }

  lemma ModeDlq(s: State, w: nat, d: Delivery, ok: bool)
    requires w < |s.workers|
    ensures SameCourse(s, SettleDlq(s, w, d, ok))
  {
  }

  lemma ModeNothing(s: State, w: nat, d: Delivery)
    requires w < |s.workers|
    ensures SameCourse(s, SettleNothing(s, w, d))
  {
  }

  lemma ModeSettle(c: Config, s: State, w: nat, ok: bool, requeue: bool, t: State)
    requires Bounded(s.ring) && w < |s.workers| && CanWork(c, s, w, Settle(ok, requeue))
    requires t == DoSettle(c, s, w, ok, requeue)
    ensures SameCourse(s, t)
  {
    hide SameCourse, Offer, SettleAck, SettleRetry, SettleNack, SettleDlq, SettleNothing;
    var k := s.workers[w];
    match k.action
    case Ack => ModeAck(c, s, w, k.d);
    case Retry => ModeRetry(s, w, k.d);
    case RetryWithDelay => ModeNack(s, w, k.d, k.delay, requeue);
    case DLQ => ModeDlq(s, w, k.d, ok);
    case Unknown(_) => ModeNothing(s, w, k.d);
  }

  lemma ModeWork(c: Config, s: State, w: nat, l: WorkStep, t: State)
    requires Bounded(s.ring) && w < |s.workers| && CanWork(c, s, w, l) && t == DoWork(c, s, w, l)
    ensures SameCourse(s, t)
  {
    hide Offer, Handle, DoSettle;
    match l
    case Take => assert t == DoTake(c, s, w);
    case Decide(result) => assert t == DoDecide(c, s, w, s.workers[w].d, result);
    case Settle(ok, requeue) => ModeSettle(c, s, w, ok, requeue, t);
    case AckDead => assert t == DoAckDead(s, w, s.workers[w].d);
    case Mark(marked) => assert t == DoMark(c, s, w, s.workers[w].m, marked);
    case WorkExit =>
  }

  /** One step of Run's own: the phase advances and nobody else moves. */
  predicate PhaseOnly(s: State, t: State) {
    && t.disp == s.disp && t.cancelled == s.cancelled && Rank(t.phase) >= Rank(s.phase)
    && t.tickExited == s.tickExited && t.timerExited == s.timerExited && t.pollExited == s.pollExited
  }

  lemma ModeStop(s: State)
    requires Rank(s.phase) < 5
    ensures PhaseOnly(s, DoStop(s))
  {
  }

  lemma ModeDrainWheel(s: State)
    requires s.phase.RingClosed?
    ensures PhaseOnly(s, DoDrainWheel(s))
  {
  }

  lemma ModeFinish(s: State)
    ensures PhaseOnly(s, DoFinish(s))
  {
  }

  lemma ModeDrain(s: State)
    requires Bounded(s.ring) && s.phase.Draining? && s.phase.rest != []
    ensures PhaseOnly(s, DoDrain(s))
  {
    hide Offer;
  }

  lemma ModeMain(s: State, t: State)
    requires Bounded(s.ring) && CanMain(s) && t == DoMain(s)
    ensures PhaseOnly(s, t)
  {
    hide PhaseOnly, DoStop, DoDrainWheel, DoFinish, DoDrain, Offer;
    if s.phase.RingClosed? {
      ModeDrainWheel(s);
    } else if s.phase == Draining([]) {
      ModeFinish(s);
    } else if s.phase.Draining? {
      ModeDrain(s);
    } else {
      ModeStop(s);
    }
  }

  lemma AttendedTick(s: State, l: TickStep, t: State)
    requires Attended(s) && CanTick(s, l) && t == DoTick(s, l)
    ensures Attended(t)
  {
    hide DoTick, Expires;
    ModeTick(s, l, t);
  }

  lemma AttendedTimer(s: State, l: TimerStep, t: State)
    requires Bounded(s.ring) && Attended(s) && CanTimer(s, l) && t == DoTimer(s, l)
    ensures Attended(t)
  {
    hide DoTimer, Offer;
    ModeTimer(s, l, t);
  }

  lemma AttendedEnv(s: State, l: EnvStep, t: State)
    requires Attended(s) && t == DoEnv(s, l)
    ensures Attended(t)
  {
    hide DoEnv;
    ModeEnv(s, l, t);
  }

  lemma AttendedPoll(s: State, l: PollStep, t: State)
    requires Bounded(s.ring) && Attended(s) && CanPoll(s, l) && t == DoPoll(s, l)
    ensures Attended(t)
  {
    hide DoPoll, CanPoll;
    ModePoll(s, l, t);
  }

  lemma AttendedCourse(s: State, t: State)
    requires Attended(s) && (SameOrGoing(s, t) || PhaseOnly(s, t) || SameCourse(s, t))
    ensures Attended(t)
  {
  }

  lemma AttendedStep(c: Config, s: State, l: Label, t: State)
    requires Attended(s) && Enabled(c, s, l) && t == Apply(c, s, l)
    ensures Attended(t)
  {
    hide Attended, DoEnv, DoPoll, DoTick, DoTimer, DoDisp, DoWork, DoEvict, DoMain, SameOrGoing, PhaseOnly, SameCourse;
    hide CanWork, CanPoll, CanMain, CanDisp, CanTick, CanTimer;
    match l
    case Env(e) => AttendedEnv(s, e, t);
    case Poll(p) => AttendedPoll(s, p, t);
    case Tick(x) => AttendedTick(s, x, t);
    case Timer(r) => AttendedTimer(s, r, t);
    case Disp(x) =>
      ModeDisp(c, s, x, t);
      AttendedCourse(s, t);
    case Work(w, k) =>
      ModeWork(c, s, w, k, t);
      AttendedCourse(s, t);
    case Evict(v) =>
      ModeEvict(s, v, t);
      AttendedCourse(s, t);
    case Main =>
      ModeMain(s, t);
      AttendedCourse(s, t);
  }

  lemma ModeEvict(s: State, l: EvictStep, t: State)
    requires CanEvict(s, l) && t == DoEvict(s, l)
    ensures SameCourse(s, t)
  {
    match l
    case ReadClock =>
    case Sweep =>
  }

  lemma {:induction false} AttendedRun(c: Config, s: State, ls: seq<Label>, t: State)
    requires Attended(s) && Run(c, s, ls, t)
    ensures Attended(t)
    decreases |ls|
  {
    hide Attended;
    if ls != [] {
      AttendedStep(c, s, ls[0], Apply(c, s, ls[0]));
      AttendedRun(c, Apply(c, s, ls[0]), ls[1..], t);
    }
  }

  // ----- no message is stranded

  /** A step that takes some delivery further. */
  predicate IsMove(l: Label) {
    match l
    case Poll(p) => !p.PollExit?
    case Tick(x) => x.SendBatch? || (x.Expire? && x.out != [])
    case Timer(r) => !r.TimerExit?
    case Disp(x) => x.Dequeue? || IsBatchStep(l)
    case Work(_, _) => IsBatchStep(l)
    case _ => false
  }

  ghost predicate CanAdvance(c: Config, s: State) {
    exists l :: IsMove(l) && Enabled(c, s, l)
  }

  lemma Advance(c: Config, s: State, l: Label)
    requires IsMove(l) && Enabled(c, s, l)
    ensures CanAdvance(c, s)
  {
  }

  /** The dispatcher can take from a ring that holds something, or, after Resume, will. */
  ghost predicate Consumes(c: Config, s: State) {
    CanAdvance(c, s) || (Enabled(c, s, Disp(Resume)) && CanAdvance(c, Apply(c, s, Disp(Resume))))
  }

  ghost predicate AdvancesLater(c: Config, s: State) {
    exists dt: nat :: Enabled(c, s, Env(Pass(dt))) && CanAdvance(c, Apply(c, s, Env(Pass(dt))))
  }

  lemma RingConsumed(c: Config, s: State)
    requires WellFormed(c) && Control(c, s) && Staffed(c, s) && Attended(s) && Serves(s) && !Deadlocked(c, s)
    requires s.ring.contents != [] || s.disp.Working?
    ensures Consumes(c, s)
  {
    hide Deadlocked, Staffed, SafeLog, Busy;
    match s.disp
    case Idle(_) => Advance(c, s, Disp(Dequeue));
    case SawEmpty =>
      var t := Apply(c, s, Disp(Resume));
      assert t == s.(disp := Idle(false));
      Advance(c, t, Disp(Dequeue));
    case Working(_, _, _, _, _) =>
      NoDeadlockMoves(c, s);
      var l :| IsBatchStep(l) && Enabled(c, s, l);
      Advance(c, s, l);
  }

  /** The ring has room for d, or else the dispatcher makes some. */
  lemma EnqueueOrConsume(c: Config, s: State, l: Label, d: Delivery)
    requires WellFormed(c) && Control(c, s) && Staffed(c, s) && Attended(s) && Serves(s) && !Deadlocked(c, s)
    requires IsMove(l) && (CanEnqueue(s, d) ==> Enabled(c, s, l))
    ensures Consumes(c, s)
  {
    hide Deadlocked, Staffed, SafeLog, Busy, CanTick;
    if CanEnqueue(s, d) {
      Advance(c, s, l);
    } else {
      RingConsumed(c, s);
    }
  }

  /** The latest target of a wheel. */
  function Latest(wheel: seq<Slot<Delivery>>, now: int): (t: int)
    ensures t >= now && forall x :: x in wheel ==> x.target <= t
  {
    if wheel == [] then now
    else
      var t := Latest(wheel[1..], now);
      if wheel[0].target > t then wheel[0].target else t
  }

  /** Once every target has passed, one tick empties the wheel. */
  lemma WheelEmpties(c: Config, s: State, dt: nat)
    requires Shape(c, s) && !s.tickExited && s.tickHeld == [] && s.wheel != [] && s.now + dt >= Latest(s.wheel, s.now)
    ensures var t := Apply(c, s, Env(Pass(dt))); Enabled(c, t, Tick(Expire(Unix(t.now), t.wheel, [])))
  {
    var t := Apply(c, s, Env(Pass(dt)));
    assert t == s.(now := s.now + dt);
    assert multiset(s.wheel) == multiset([]) + multiset(s.wheel);
    forall x | x in s.wheel
      ensures IsDue(x, Unix(t.now), t.now)
    {
      UnixMonotone(x.target, t.now);
    }
  }

  lemma UnixMonotone(a: int, b: int)
    requires a <= b
    ensures Unix(a) <= Unix(b)
  {
  }

  lemma WheelAdvances(c: Config, s: State)
    requires Shape(c, s) && !s.tickExited && s.tickHeld == [] && s.wheel != []
    ensures AdvancesLater(c, s)
  {
    hide CanAdvance;
    var dt := Latest(s.wheel, s.now) - s.now;
    WheelEmpties(c, s, dt);
    var t := Apply(c, s, Env(Pass(dt)));
    assert t.wheel == s.wheel;
    Advance(c, t, Tick(Expire(Unix(t.now), t.wheel, [])));
  }

  lemma TimerAdvances(c: Config, s: State)
    requires WellFormed(c) && Control(c, s) && Staffed(c, s) && Attended(s) && Serves(s) && !Deadlocked(c, s)
    requires s.timerHeld != [] || s.channel != []
    ensures Consumes(c, s)
  {
    hide Deadlocked, Staffed, SafeLog, Busy, CanTick;
    if s.timerHeld != [] {
      EnqueueOrConsume(c, s, Timer(TimerEnqueue), s.timerHeld[0]);
    } else {
      Advance(c, s, Timer(TimerReceive));
    }
  }

  lemma IntakeAdvances(c: Config, s: State)
    requires WellFormed(c) && Control(c, s) && Staffed(c, s) && Attended(s) && Serves(s) && !Deadlocked(c, s)
    requires s.pollHeld != [] || (s.queue != [] && !s.pollExited) || s.tickHeld != []
    ensures Consumes(c, s)
  {
    hide Deadlocked, Staffed, SafeLog, Busy, CanTick;
    if s.pollHeld != [] {
      EnqueueOrConsume(c, s, Poll(Deliver), s.pollHeld[0]);
    } else if s.queue != [] && !s.pollExited {
      Advance(c, s, Poll(Receive(1)));
    } else if |s.channel| >= CHANNEL_CAPACITY {
      TimerAdvances(c, s);
    } else {
      SendAdvances(c, s);
    }
  }

  lemma SendAdvances(c: Config, s: State)
    requires Shape(c, s) && !s.tickExited && s.tickHeld != [] && |s.channel| < CHANNEL_CAPACITY
    ensures CanAdvance(c, s)
  {
    Advance(c, s, Tick(SendBatch));
  }

  /** No stranded message: in every reachable state that serves, is not cancelled and is not deadlocked on its ring,
      as long as anything is left to do some step takes a delivery further, at once, after the dispatcher looks again,
      or after time has passed for the wheel. */
  lemma NoStranded(c: Config, now: int, ls: seq<Label>, s: State)
    requires WellFormed(c) && Run(c, Initial(c, now), ls, s) && Serves(s) && !Rested(s) && !Deadlocked(c, s)
    ensures Consumes(c, s) || AdvancesLater(c, s)
  {
    hide Run, Initial, Deadlocked, Consumes, CanAdvance;
    StartStaffed(c, now);
    StaffedRun(c, Initial(c, now), ls, s);
    StartAttended(c, now);
    AttendedRun(c, Initial(c, now), ls, s);
    if s.ring.contents != [] || s.disp.Working? {
      RingConsumed(c, s);
    } else if s.pollHeld != [] || (s.queue != [] && !s.pollExited) || s.tickHeld != [] {
      IntakeAdvances(c, s);
    } else if s.timerHeld != [] || s.channel != [] {
      TimerAdvances(c, s);
    } else {
      NothingBusy(c, s);
      WheelAdvances(c, s);
    }
  }

  lemma StartAttended(c: Config, now: int)
    requires WellFormed(c)
    ensures Attended(Initial(c, now))
  {
  }

  /** Without a batch nothing is in the pool or on a worker. */
  lemma NothingBusy(c: Config, s: State)
    requires Control(c, s) && !s.disp.Working?
    ensures s.pool == [] && forall i :: 0 <= i < |s.workers| ==> !IsBusy(s.workers[i])
  {
    hide SafeLog;
    forall i | 0 <= i < |s.workers|
      ensures !IsBusy(s.workers[i])
    {
      if IsBusy(s.workers[i]) {
        BusyAtLeast(s.workers, i);
        assert false;
      }
    }
  }
}
