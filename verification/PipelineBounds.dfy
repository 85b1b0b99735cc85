/** How much the pipeline holds at most, what a batch is, and that the dispatcher does not leave a ring behind. */
module PipelineBounds {
  import opened RingSpec
  import opened Pipeline
  import opened PipelineControl
  import opened PipelineProgress
  import opened PipelineAlive
  import opened PipelineShutdown

  /** What is left of the current batch. */
  function BatchLeft(x: Dispatcher): (n: nat) {
    if x.Working? then |x.todo| + |x.kept| + |x.dups| else 0
  }

  /** Batches of ten, or of a hundred while draining; the timer channel and the pool's buffer as large as they are
      made. */
  predicate Within(c: Config, s: State) {
    && BatchLeft(s.disp) <= (if s.disp.Working? && s.disp.draining then 100 else 10)
    && |s.channel| <= 64 && |s.pool| <= c.poolSize
  }

  lemma WithinDequeue(s: State)
    requires Bounded(s.ring) && s.disp.Idle?
    ensures var t := DoDequeue(s);
      BatchLeft(t.disp) <= (if t.disp.draining then 100 else 10) && t.disp.draining == s.disp.draining
  {
  }

  lemma WithinFilter(c: Config, s: State, f: FilterStep)
    requires CanDisp(c, s, Filter(f))
    ensures var t := DoFilter(c, s, f);
      t.disp.Working? && BatchLeft(t.disp) == BatchLeft(s.disp) && t.disp.draining == s.disp.draining
  {
  }

  lemma WithinAckDup(s: State)
    requires s.disp.Working? && s.disp.dups != []
    ensures var t := DoAckDup(s);
      t.disp.Working? && BatchLeft(t.disp) < BatchLeft(s.disp) && t.disp.draining == s.disp.draining
  {
  }

  lemma WithinSubmit(s: State)
    requires s.disp.Working? && s.disp.kept != []
    ensures var t := DoSubmit(s);
      t.disp.Working? && BatchLeft(t.disp) <= BatchLeft(s.disp) && t.disp.draining == s.disp.draining
  {
  }

  lemma WithinDisp(c: Config, s: State, l: DispStep, t: State)
    requires Control(c, s) && Within(c, s) && CanDisp(c, s, l) && t == DoDisp(c, s, l)
    ensures Within(c, t)
  {
    hide DoDequeue, DoFilter, DoAckDup, DoSubmit, Busy, SafeLog;
    DispKeepsWorkers(c, s, l, t);
    match l
    case StartDrain =>
    case Look =>
    case Resume =>
    case DispExit =>
    case Dequeue => WithinDequeue(s);
    case Filter(f) => WithinFilter(c, s, f);
    case AckDup => WithinAckDup(s);
    case Submit => WithinSubmit(s);
    case Barrier =>
  }

  lemma ChannelSend(s: State)
    requires CanTick(s, SendBatch)
    ensures |DoTick(s, SendBatch).channel| <= 64
  {
  }

  lemma ChannelTick(s: State, l: TickStep, t: State)
    requires CanTick(s, l) && t == DoTick(s, l) && |s.channel| <= 64
    ensures |t.channel| <= 64
  {
    hide Dropped, CanTick;
    match l
    case Expire(_, _, _) =>
    case SendBatch => ChannelSend(s);
    case TickExit =>
  }

  lemma ChannelTimer(s: State, l: TimerStep, t: State)
    requires Bounded(s.ring) && CanTimer(s, l) && t == DoTimer(s, l)
    ensures |t.channel| <= |s.channel|
  {
    hide Offer, EnqueueLog;
    match l
    case TimerReceive =>
    case TimerEnqueue =>
    case TimerExit =>
  }

  lemma ChannelEnv(s: State, l: EnvStep, t: State)
    requires t == DoEnv(s, l)
    ensures SameBelt(s, t)
  {
    match l
    case Publish(m) => assert t == DoPublish(s, m);
    case Cancel =>
    case Pass(_) =>
  }

  lemma ChannelDeliver(s: State)
    requires Bounded(s.ring) && CanPoll(s, Deliver)
    ensures SameBelt(s, DoDeliver(s))
  {
    hide Offer, EnqueueLog;
  }

  lemma ChannelPoll(s: State, l: PollStep, t: State)
    requires Bounded(s.ring) && CanPoll(s, l) && t == DoPoll(s, l)
    ensures SameBelt(s, t)
  {
    hide Offer, DoDeliver;
    match l
    case Receive(_) =>
    case Deliver => ChannelDeliver(s);
    case PollExit(_) =>
  }

  lemma ChannelEvict(s: State, l: EvictStep, t: State)
    requires CanEvict(s, l) && t == DoEvict(s, l)
    ensures SameBelt(s, t)
  {
    match l
    case ReadClock =>
    case Sweep =>
  }

  lemma ChannelStop(s: State)
    ensures SameBelt(s, DoStop(s))
  {
  }

  lemma ChannelDrainWheel(s: State)
    ensures SameBelt(s, DoDrainWheel(s))
  {
  }

  lemma ChannelFinish(s: State)
    ensures SameBelt(s, DoFinish(s))
  {
  }

  lemma ChannelDrain(s: State)
    requires Bounded(s.ring) && s.phase.Draining? && s.phase.rest != []
    ensures SameBelt(s, DoDrain(s))
  {
    hide Offer, EnqueueLog;
  }

  lemma ChannelMain(s: State, t: State)
    requires Bounded(s.ring) && CanMain(s) && t == DoMain(s)
    ensures SameBelt(s, t)
  {
    hide SameBelt, DoStop, DoDrainWheel, DoFinish, DoDrain, Offer;
    ChannelStop(s);
    ChannelDrainWheel(s);
    ChannelFinish(s);
    if s.phase.Draining? && s.phase.rest != [] {
      ChannelDrain(s);
    }
  }

  lemma WithinOthers(c: Config, s: State, l: Label, t: State)
    requires Within(c, s) && Enabled(c, s, l) && t == Apply(c, s, l) && !l.Disp? && !l.Work?
    ensures Within(c, t)
  {
    hide DoEnv, DoPoll, DoTick, DoTimer, DoEvict, DoMain, CanTick, CanPoll, CanTimer, CanMain;
    OthersKeep(c, s, l, t);
    match l
    case Env(e) => ChannelEnv(s, e, t);
    case Poll(p) => ChannelPoll(s, p, t);
    case Tick(x) => ChannelTick(s, x, t);
    case Timer(r) => ChannelTimer(s, r, t);
    case Evict(v) => ChannelEvict(s, v, t);
    case Main => ChannelMain(s, t);
  }

  lemma WithinStep(c: Config, s: State, l: Label, t: State)
    requires Control(c, s) && Within(c, s) && Enabled(c, s, l) && t == Apply(c, s, l)
    ensures Within(c, t)
  {
    hide Control, DoEnv, DoPoll, DoTick, DoTimer, DoDisp, DoWork, DoEvict, DoMain;
    hide CanTick, CanPoll, CanTimer, CanMain, CanDisp, CanWork;
    if l.Disp? {
      WithinDisp(c, s, l.x, t);
    } else if l.Work? {
      WorkChanges(c, s, l.w, l.k, t);
    } else {
      WithinOthers(c, s, l, t);
    }
  }

  lemma {:induction false} WithinRun(c: Config, s: State, ls: seq<Label>, t: State)
    requires Control(c, s) && Within(c, s) && Run(c, s, ls, t)
    ensures Within(c, t)
    decreases |ls|
  {
    hide Control, Within;
    if ls != [] {
      ControlStep(c, s, ls[0], Apply(c, s, ls[0]));
      WithinStep(c, s, ls[0], Apply(c, s, ls[0]));
      WithinRun(c, Apply(c, s, ls[0]), ls[1..], t);
    }
  }

  /** In every reachable state the ring, the timer channel, the pool's buffer and the batch are within their limits, a
      larger batch exists only once the dispatcher was cancelled, and the store is empty when Run has returned. */
  lemma Limits(c: Config, now: int, ls: seq<Label>, s: State)
    requires WellFormed(c) && Run(c, Initial(c, now), ls, s)
    ensures |s.ring.contents| <= c.ringCapacity && |s.channel| <= 64 && |s.pool| <= c.poolSize
    ensures BatchLeft(s.disp) <= 100 && (BatchLeft(s.disp) > 10 ==> DispCancelled(s))
    ensures |s.workers| == c.poolSize
    ensures s.phase.Finished? ==> s.keys == map[]
  {
    hide Run, Initial, Control, Within, Attended;
    StartControl(c, now);
    ControlRun(c, Initial(c, now), ls, s);
    WithinRun(c, Initial(c, now), ls, s);
    StartAttended(c, now);
    AttendedRun(c, Initial(c, now), ls, s);
    LimitsOf(c, s);
  }

  lemma StartControl(c: Config, now: int)
    requires WellFormed(c)
    ensures Control(c, Initial(c, now)) && Within(c, Initial(c, now))
  {
    ControlInitial(c, now);
  }

  lemma LimitsOf(c: Config, s: State)
    requires Control(c, s) && Within(c, s) && Attended(s)
    ensures |s.ring.contents| <= c.ringCapacity && |s.channel| <= 64 && |s.pool| <= c.poolSize
    ensures BatchLeft(s.disp) <= 100 && (BatchLeft(s.disp) > 10 ==> DispCancelled(s))
    ensures |s.workers| == c.poolSize && (s.phase.Finished? ==> s.keys == map[])
  {
    hide Busy, SafeLog;
  }

  /** The ticker blocks exactly when 64 batches wait. */
  lemma TickerBlocks(c: Config, s: State)
    requires Shape(c, s) && !s.tickExited && s.tickHeld != []
    ensures !Enabled(c, s, Tick(SendBatch)) <==> |s.channel| >= 64
  {
  }

  // ----- what a batch is

  /** A new batch is the oldest items of the ring, as many as there are up to ten, or up to a hundred while draining,
      and the ring keeps the rest. */
  lemma BatchIsOldest(c: Config, s: State)
    requires Enabled(c, s, Disp(Dequeue))
    ensures var t := Apply(c, s, Disp(Dequeue)); var n := |t.disp.todo|;
      && t.disp.Working? && t.disp.kept == [] && t.disp.dups == []
      && n == MinNat(if s.disp.draining then 100 else 10, |s.ring.contents|)
      && t.disp.todo == s.ring.contents[..n] && t.ring.contents == s.ring.contents[n..]
  {
    hide BatchCount;
  }

  // ----- nothing is left behind

  /** How many items the dispatcher takes out of the ring over a run. */
  ghost function Taken(c: Config, s: State, ls: seq<Label>): (n: nat)
    decreases |ls|
  {
    if ls == [] || !Enabled(c, s, ls[0]) then 0
    else
      var t := Apply(c, s, ls[0]);
      (if ls[0] == Disp(Dequeue) then BatchLeft(t.disp) else 0) + Taken(c, t, ls[1..])
  }

  /** A dispatcher that has not yet found the ring empty. */
  predicate Looking(x: Dispatcher) {
    x.Idle? || x.Working?
  }

  lemma DequeueShifts(c: Config, s: State)
    requires Enabled(c, s, Disp(Dequeue))
    ensures var t := Apply(c, s, Disp(Dequeue));
      Looking(t.disp) && BatchLeft(t.disp) + |t.ring.contents| == |s.ring.contents|
  {
    BatchIsOldest(c, s);
  }

  lemma LooksTurn(c: Config, s: State, l: DispStep)
    requires Bounded(s.ring) && CanDisp(c, s, l) && Looking(s.disp)
    requires l.StartDrain? || l.Look? || l.Resume? || l.DispExit? || l.Barrier?
    ensures Looking(DoDisp(c, s, l).disp) || s.ring.contents == []
  {
    hide DoDequeue, DoFilter, DoAckDup, DoSubmit;
  }

  lemma LooksOn(c: Config, s: State, l: DispStep, t: State)
    requires Bounded(s.ring) && CanDisp(c, s, l) && t == DoDisp(c, s, l) && Looking(s.disp) && !l.Dequeue?
    ensures t.ring == s.ring && (!Looking(t.disp) ==> s.ring.contents == [])
  {
    hide DoDisp;
    DispKeepsRing(c, s, l, t);
    match l
    case Filter(f) => LooksFilter(c, s, f);
    case AckDup => LooksBatch(c, s, l);
    case Submit => LooksBatch(c, s, l);
    case StartDrain => LooksTurn(c, s, l);
    case Look => LooksTurn(c, s, l);
    case Resume => LooksTurn(c, s, l);
    case DispExit => LooksTurn(c, s, l);
    case Barrier => LooksTurn(c, s, l);
  }

  lemma LooksFilter(c: Config, s: State, f: FilterStep)
    requires Bounded(s.ring) && CanDisp(c, s, Filter(f))
    ensures Looking(DoDisp(c, s, Filter(f)).disp)
  {
    hide DoFilter;
    WithinFilter(c, s, f);
  }

  lemma LooksBatch(c: Config, s: State, l: DispStep)
    requires Bounded(s.ring) && CanDisp(c, s, l) && (l.AckDup? || l.Submit?)
    ensures Looking(DoDisp(c, s, l).disp)
  {
    hide DoAckDup, DoSubmit;
    if l.AckDup? {
      WithinAckDup(s);
    } else {
      WithinSubmit(s);
    }
  }

  lemma LookingIsEarly(c: Config, s: State)
    requires Control(c, s) && Looking(s.disp)
    ensures Rank(s.phase) < 2 && !s.ring.closed && Bounded(s.ring) && s.ring.policy == Block
  {
    hide Busy, SafeLog;
  }

  lemma RingStays(c: Config, s: State, l: Label, t: State)
    requires Control(c, s) && Looking(s.disp) && Enabled(c, s, l) && t == Apply(c, s, l) && !l.Disp?
    ensures Looking(t.disp) && |t.ring.contents| >= |s.ring.contents|
  {
    hide Control, DoEnv, DoPoll, DoTick, DoTimer, DoWork, DoEvict, DoMain, InHand;
    hide CanTick, CanPoll, CanTimer, CanMain, CanWork;
    LookingIsEarly(c, s);
    if l.Work? {
      WorkChanges(c, s, l.w, l.k, t);
      WorkRing(c, s, l.w, l.k, t);
    } else {
      OthersPush(c, s, l, t);
      OthersKeep(c, s, l, t);
    }
  }

  lemma {:induction false} TakesAll(c: Config, s: State, ls: seq<Label>, t: State, n: nat)
    requires Control(c, s) && Looking(s.disp) && Run(c, s, ls, t) && n <= |s.ring.contents| && t.disp.Gone?
    ensures Taken(c, s, ls) >= n
    decreases |ls|
  {
    hide Control, Enabled, Apply;
    if ls != [] && n > 0 {
      var l, m := ls[0], Apply(c, s, ls[0]);
      ControlStep(c, s, l, m);
      if l == Disp(Dequeue) {
        DequeueShifts(c, s);
        var taken := BatchLeft(m.disp);
        TakesAll(c, m, ls[1..], t, if n > taken then n - taken else 0);
      } else {
        StillLooking(c, s, l, m);
        TakesAll(c, m, ls[1..], t, n);
      }
    }
  }

  lemma StillLooking(c: Config, s: State, l: Label, m: State)
    requires Control(c, s) && Looking(s.disp) && s.ring.contents != []
    requires Enabled(c, s, l) && m == Apply(c, s, l) && l != Disp(Dequeue)
    ensures Looking(m.disp) && |m.ring.contents| >= |s.ring.contents|
  {
    hide Control, DoDisp, CanDisp;
    if l.Disp? {
      LooksOn(c, s, l.x, m);
    } else {
      RingStays(c, s, l, m);
    }
  }

  /** Drained before leaving: whatever is in the ring while the dispatcher has not yet found it empty, the dispatcher
      takes at least that many items out of it, oldest first, before it is gone. */
  lemma DrainedBeforeLeaving(c: Config, now: int, ls: seq<Label>, s: State, rest: seq<Label>, t: State)
    requires WellFormed(c) && Run(c, Initial(c, now), ls, s) && Looking(s.disp)
    requires Run(c, s, rest, t) && t.disp.Gone?
    ensures Taken(c, s, rest) >= |s.ring.contents|
  {
    hide Run, Initial, Control, Taken;
    ControlInitial(c, now);
    ControlRun(c, Initial(c, now), ls, s);
    TakesAll(c, s, rest, t, |s.ring.contents|);
  }
}
