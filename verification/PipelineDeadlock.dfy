/** The ring re-insertion deadlock: permanent once reached, and reachable exactly with a coordinator that
    may answer a result with an immediate retry. */
module PipelineDeadlock {
  import opened Retry
  import opened RingSpec
  import opened Pipeline
  import opened PipelineControl
  import opened PipelineFlow
  import opened PipelineConservation
  import opened PipelineBudget
  import opened PipelineProgress
  import opened PipelineReach

  // ----- a deadlock lasts

  lemma FullRingStays(s: State, d: Delivery)
    requires Bounded(s.ring) && s.ring.policy == Block && !s.ring.closed && |s.ring.contents| == s.ring.capacity
    ensures !CanEnqueue(s, d)
  {
  }

  lemma DeadlockDeliver(s: State)
    requires Bounded(s.ring) && s.ring.policy == Block && !s.ring.closed && |s.ring.contents| == s.ring.capacity
    requires CanPoll(s, Deliver)
    ensures DoPoll(s, Deliver).ring == s.ring
  {
    assert DoPoll(s, Deliver) == DoDeliver(s);
    FullRingStays(s, s.pollHeld[0]);
  }

  lemma DeadlockRing(c: Config, s: State, l: Label, t: State)
    requires Shape(c, s) && !s.ring.closed && |s.ring.contents| == s.ring.capacity && Rank(s.phase) < 2
    requires s.disp.Working?
    requires Enabled(c, s, l) && t == Apply(c, s, l) && !l.Disp? && !l.Work?
    ensures t.ring == s.ring
  {
    hide DoEnv, DoPoll, DoTick, DoTimer, DoEvict, DoMain, CanTick;
    match l
    case Env(e) => DeadlockEnv(s, e, t);
    case Poll(p) => DeadlockPoll(s, p, t);
    case Tick(x) => DeadlockTick(s, x, t);
    case Timer(r) => DeadlockTimer(s, r, t);
    case Evict(v) => DeadlockEvict(s, v, t);
    case Main => DeadlockMain(s, t);
  }

  lemma DeadlockTick(s: State, l: TickStep, t: State)
    requires t == DoTick(s, l)
    ensures t.ring == s.ring
  {
    match l
    case Expire(_, _, _) =>
    case SendBatch =>
    case TickExit =>
  }

  lemma DeadlockEvict(s: State, l: EvictStep, t: State)
    requires CanEvict(s, l) && t == DoEvict(s, l)
    ensures t.ring == s.ring
  {
    match l
    case ReadClock =>
    case Sweep =>
  }

  /** While the dispatcher is at work the shutdown gets no further than waiting for it. */
  lemma DeadlockMain(s: State, t: State)
    requires Bounded(s.ring) && !s.ring.closed && Rank(s.phase) < 2 && s.disp.Working? && CanMain(s) && t == DoMain(s)
    ensures t.ring == s.ring
  {
    hide DoDrain, DoDrainWheel, DoFinish;
    assert s.phase.Serving?;
  }

  lemma DeadlockEnv(s: State, l: EnvStep, t: State)
    requires t == DoEnv(s, l)
    ensures t.ring == s.ring
  {
    match l
    case Publish(m) => assert t == DoPublish(s, m);
    case Cancel =>
    case Pass(_) =>
  }

  lemma DeadlockReceive(s: State, n: nat)
    requires Bounded(s.ring) && CanPoll(s, Receive(n))
    ensures DoPoll(s, Receive(n)).ring == s.ring
  {
    hide DoDeliver, Offer;
  }

  lemma DeadlockPollExit(s: State, err: bool)
    requires Bounded(s.ring) && CanPoll(s, PollExit(err))
    ensures DoPoll(s, PollExit(err)).ring == s.ring
  {
    hide DoDeliver, Offer;
  }

  lemma DeadlockPoll(s: State, l: PollStep, t: State)
    requires Bounded(s.ring) && s.ring.policy == Block && !s.ring.closed && |s.ring.contents| == s.ring.capacity
    requires CanPoll(s, l) && t == DoPoll(s, l)
    ensures t.ring == s.ring
  {
    hide DoPoll, Offer, CanPoll;
    match l
    case Receive(n) => DeadlockReceive(s, n);
    case Deliver => DeadlockDeliver(s);
    case PollExit(err) => DeadlockPollExit(s, err);
  }

  lemma DeadlockTimer(s: State, l: TimerStep, t: State)
    requires Bounded(s.ring) && s.ring.policy == Block && !s.ring.closed && |s.ring.contents| == s.ring.capacity
    requires CanTimer(s, l) && t == DoTimer(s, l)
    ensures t.ring == s.ring
  {
    match l
    case TimerReceive =>
    case TimerEnqueue =>
      FullRingStays(s, s.timerHeld[0]);
      assert false;
    case TimerExit =>
  }

  lemma DeadlockStep(c: Config, s: State, l: Label, t: State)
    requires Control(c, s) && Deadlocked(c, s) && Enabled(c, s, l) && t == Apply(c, s, l)
    ensures !l.Disp? && !l.Work? && Deadlocked(c, t)
  {
    hide SafeLog, Busy, DoEnv, DoPoll, DoTick, DoTimer, DoDisp;
    hide DoWork, DoEvict, DoMain, CanTick, CanPoll, CanTimer, CanMain;
    var i :| 0 <= i < |s.workers| && Reinserting(s.workers[i]);
    BusyMeansServing(c, s, i);
    if IsBatchStep(l) {
      DeadlockBlocks(c, s, l);
      assert false;
    }
    assert !l.Work? && !l.Disp?;
    DeadlockRing(c, s, l, t);
    OthersKeep(c, s, l, t);
  }

  /** Nothing ends a deadlock: not the clock, not new messages, not cancellation. Run stays in its first two
      phases, waiting for the dispatcher, and never returns. */
  lemma {:induction false} DeadlockForever(c: Config, s: State, ls: seq<Label>, t: State)
    requires Control(c, s) && Deadlocked(c, s) && Run(c, s, ls, t)
    ensures Deadlocked(c, t) && Rank(t.phase) < 2
    ensures forall i :: 0 <= i < |ls| ==> !ls[i].Disp? && !ls[i].Work?
    decreases |ls|
  {
    hide Control, Deadlocked;
    if ls == [] {
      DeadlockPhase(c, s);
    } else {
      var s' := Apply(c, s, ls[0]);
      ControlStep(c, s, ls[0], s');
      DeadlockStep(c, s, ls[0], s');
      DeadlockForever(c, s', ls[1..], t);
      assert forall i :: 1 <= i < |ls| ==> ls[i] == ls[1..][i - 1];
    }
  }

  lemma DeadlockPhase(c: Config, s: State)
    requires Control(c, s) && Deadlocked(c, s)
    ensures Rank(s.phase) < 2
  {
    hide SafeLog, Busy;
    var i :| 0 <= i < |s.workers| && Reinserting(s.workers[i]);
    BusyMeansServing(c, s, i);
  }

  // ----- coordinators that never re-insert

  ghost predicate AvoidsRing(c: Config) {
    forall topic :: topic in c.handlers ==> NeverUsesRing(c.handlers[topic], c.overflow)
  }

  /** Marks a live delivery whose Attempts is negative. */
  function Negative(): (f: Valuation) {
    (t: Token) => if t.place.Nacked? || t.place.Decision? || t.d.msg.attempts >= 0 then 0 else 1
  }

  predicate NoneReinserting(s: State) {
    forall i :: 0 <= i < |s.workers| ==> !Reinserting(s.workers[i])
  }

  lemma NegativeWork(c: Config, s: State, w: nat, l: WorkStep)
    requires Bounded(s.ring) && w < |s.workers| && CanWork(c, s, w, l)
    ensures WorkGain(Negative(), c, s, w, l) <= 0
  {
    hide Handle, Offer, SettleGain;
    match l
    case Take =>
    case Decide(result) =>
      var d := s.workers[w].d;
      CoordinatorContract(c.handlers[d.msg.topic], c.overflow, d.msg, result);
    case Settle(ok, requeue) => NegativeSettle(s, s.workers[w].d, s.workers[w].action, ok, requeue);
    case AckDead =>
    case Mark(_) =>
    case WorkExit =>
  }

  lemma NegativeSettle(s: State, d: Delivery, a: Action, ok: bool, requeue: bool)
    requires Bounded(s.ring)
    ensures SettleGain(Negative(), s, d, a, ok, requeue) <= At(Negative(), SettlingPlace(a), d)
  {
  }

  lemma NegativeStep(c: Config, s: State, l: Label, t: State)
    requires Enabled(c, s, l) && t == Apply(c, s, l) && NonNegative(l)
    ensures Total(Negative(), t) <= Total(Negative(), s)
  {
    hide Total, WorkGain, Apply, CanWork, CanMain, CanTick, CanPoll, CanTimer, CanDisp;
    Flow(Negative(), c, s, l, t);
    if l.Work? {
      NegativeWork(c, s, l.w, l.k);
    } else {
      assert Stable(Negative());
      StableGain(Negative(), c, s, l);
    }
  }

  lemma NoneReinsertingWork(c: Config, s: State, w: nat, l: WorkStep, t: State)
    requires AvoidsRing(c) && Total(Negative(), s) <= 0 && NoneReinserting(s)
    requires Bounded(s.ring) && w < |s.workers| && CanWork(c, s, w, l) && t == DoWork(c, s, w, l)
    ensures NoneReinserting(t)
  {
    hide Total, Handle, DoWork, Offer;
    WorkChanges(c, s, w, l, t);
    assert Counts(Negative(), Negative());
    WorkerPart(Negative(), s, w);
    if l.Decide? {
      assert NeverUsesRing(c.handlers[s.workers[w].d.msg.topic], c.overflow);
    }
  }

  lemma NoneReinsertingStep(c: Config, s: State, l: Label, t: State)
    requires AvoidsRing(c) && Total(Negative(), s) <= 0 && NoneReinserting(s)
    requires Enabled(c, s, l) && t == Apply(c, s, l)
    ensures NoneReinserting(t)
  {
    hide Total, AvoidsRing, DoEnv, DoPoll, DoTick, DoTimer, DoDisp, DoWork, DoEvict, DoMain;
    hide CanTick, CanPoll, CanTimer, CanMain, CanDisp, CanWork;
    if l.Disp? {
      DispKeepsWorkers(c, s, l.x, t);
    } else if l.Work? {
      NoneReinsertingWork(c, s, l.w, l.k, t);
    } else {
      OthersKeep(c, s, l, t);
    }
  }

  lemma {:induction false} NoneReinsertingRun(c: Config, s: State, ls: seq<Label>, t: State)
    requires AvoidsRing(c) && Total(Negative(), s) <= 0 && NoneReinserting(s) && Run(c, s, ls, t)
    requires forall i :: 0 <= i < |ls| ==> NonNegative(ls[i])
    ensures NoneReinserting(t)
    decreases |ls|
  {
    hide AvoidsRing, Total, NoneReinserting;
    if ls != [] {
      var s' := Apply(c, s, ls[0]);
      NegativeStep(c, s, ls[0], s');
      NoneReinsertingStep(c, s, ls[0], s');
      NoneReinsertingRun(c, s', ls[1..], t);
    }
  }

  lemma NeverDeadlocked(c: Config, now: int, s: State)
    requires WellFormed(c) && AvoidsRing(c) && Reachable(c, now, s)
    ensures NoneReinserting(s) && !Deadlocked(c, s)
  {
    hide Run, AvoidsRing, Total;
    var ls :| Run(c, Initial(c, now), ls, s) && forall i :: 0 <= i < |ls| ==> NonNegative(ls[i]);
    NothingAtFirst(Negative(), c, now);
    NoneReinsertingRun(c, Initial(c, now), ls, s);
  }

  /** Batch progress: with coordinators that never re-insert, such as the default one with a positive base delay
      in range, every reachable state with an unfinished batch has an enabled step of that batch. */
  lemma BatchProgress(c: Config, now: int, s: State)
    requires WellFormed(c) && AvoidsRing(c) && Reachable(c, now, s) && s.disp.Working?
    ensures CanMove(c, s)
  {
    hide Run, AvoidsRing, CanMove, Deadlocked;
    NeverDeadlocked(c, now, s);
    var ls :| Run(c, Initial(c, now), ls, s) && forall i :: 0 <= i < |ls| ==> NonNegative(ls[i]);
    BatchProgressExact(c, now, ls, s);
  }

  // ----- a deadlock for every coordinator that may re-insert

  lemma DecideOne(c: Config, now: int, s: State, x: Dispatcher, d: Delivery, result: Result)
    returns (t: State, k: Worker)
    requires WellFormed(c) && Snapshot(c, now, s, [], [], [], x, [], Running(d)) && d.msg.topic in c.handlers
    requires Handle(c.handlers[d.msg.topic], c.overflow, d.msg, result).action.Retry?
    ensures Snapshot(c, now, t, [], [], [], x, [], k) && Reinserting(k)
  {
    hide Reachable, Handle;
    t := DoDecide(c, s, 0, d, result);
    k := t.workers[0];
    assert s.workers[0 := k] == Crew(c, k);
    ReachStep(c, now, s, Work(0, Decide(result)), t);
  }

  /** Fresh messages fill the ring while the first worker is about to re-insert. */
  lemma {:induction false} FillRing(c: Config, now: int, s: State, m: Message, ring: seq<Delivery>, x: Dispatcher,
      k: Worker)
    returns (t: State, full: seq<Delivery>)
    requires WellFormed(c) && Snapshot(c, now, s, [], [], ring, x, [], k) && m.attempts >= 0 && m.notBefore <= 0
    ensures Snapshot(c, now, t, [], [], full, x, [], k) && |full| == c.ringCapacity
    decreases c.ringCapacity - |ring|
  {
    hide Reachable;
    if |ring| == c.ringCapacity {
      t, full := s, ring;
    } else {
      var s1, d := OneMore(c, now, s, m, ring, x, k);
      t, full := FillRing(c, now, s1, m, ring + [d], x, k);
    }
  }

  /** A coordinator looks at Attempts and the result only. */
  lemma HandleAction(co: Coordinator, overflow: int, m: Message, n: Message, result: Result)
    requires m.attempts == n.attempts
    ensures Handle(co, overflow, m, result).action == Handle(co, overflow, n, result).action
  {
  }

  lemma ReachDeadlock(c: Config, now: int, m: Message, result: Result) returns (s: State)
    requires WellFormed(c) && m.attempts >= 0 && m.notBefore <= 0 && m.key.None? && m.topic in c.handlers
    requires Handle(c.handlers[m.topic], c.overflow, m, result).action.Retry?
    ensures Reachable(c, now, s) && Deadlocked(c, s)
  {
    hide Handle, Reachable;
    var s0 := Initial(c, now);
    assert Snapshot(c, now, s0, [], [], [], Idle(false), [], Free) by {
      InitialReachable(c, now);
      assert s0.workers == Crew(c, Free);
    }
    var s1, d := OneMore(c, now, s0, m, [], Idle(false), Free);
    assert [] + [d] == [d];
    var s2 := DequeueOne(c, now, s1, d);
    var s3 := SkipOne(c, now, s2, d);
    var s4 := SubmitOne(c, now, s3, d);
    var x := Working(false, [], NoProbe, [], []);
    var s5 := TakeOne(c, now, s4, x, d);
    var s6, k := DecideOne(c, now, s5, x, d, result);
    var full;
    s, full := FillRing(c, now, s6, m, [], x, k);
    assert Reinserting(s.workers[0]);
  }

  /** The exact condition: whatever the ring capacity, the pool and the store, a deadlock is reachable if and only
      if some registered coordinator can answer a result with an immediate retry. */
  lemma DeadlockIff(c: Config, now: int)
    requires WellFormed(c)
    ensures (exists s :: Reachable(c, now, s) && Deadlocked(c, s)) <==> !AvoidsRing(c)
  {
    hide Reachable, Deadlocked, Handle;
    if AvoidsRing(c) {
      forall s | Reachable(c, now, s)
        ensures !Deadlocked(c, s)
      {
        NeverDeadlocked(c, now, s);
      }
    } else {
      var topic :| topic in c.handlers && !NeverUsesRing(c.handlers[topic], c.overflow);
      var co := c.handlers[topic];
      var msg: Message, result: Result :| msg.attempts >= 0 && Handle(co, c.overflow, msg, result).action.Retry?;
      var m := Message("", topic, None, msg.attempts, 0);
      HandleAction(co, c.overflow, msg, m, result);
      var s := ReachDeadlock(c, now, m, result);
    }
  }
}
