/** When Run can still return: the two ways it hangs, for good, and the exact condition. */
module PipelineShutdown {
  import opened Retry
  import opened RingSpec
  import opened Pipeline
  import opened PipelineControl
  import opened PipelineFlow
  import opened PipelineTermination
  import opened PipelineProgress
  import opened PipelineReach
  import opened PipelineDeadlock
  import opened PipelineAlive
  import opened PipelineQuiesce

  /** Free slots of the ring. */
  function Room(s: State): (n: int) {
    s.ring.capacity - |s.ring.contents|
  }

  /** How many workers have to re-insert their message. */
  function ToReinsert(ws: seq<Worker>): (n: nat) {
    if ws == [] then 0 else (if Reinserting(ws[0]) then 1 else 0) + ToReinsert(ws[1..])
  }

  /** How many of these go to the ring without delay. */
  function Urgent(ds: seq<Delivery>): (n: nat)
    ensures n <= |ds|
  {
    if ds == [] then 0 else (if ds[0].msg.notBefore <= 0 then 1 else 0) + Urgent(ds[1..])
  }

  /** What poller and timer hold in their hands for the ring. */
  function InHand(s: State): (n: nat) {
    Urgent(s.pollHeld) + |s.timerHeld|
  }

  /** More workers must re-insert than the ring has room for: their batch never ends. */
  predicate Jammed(s: State) {
    ToReinsert(s.workers) > Room(s)
  }

  /** The dispatcher is gone, or found the ring empty and will go. */
  predicate Deserted(s: State) {
    s.disp.Gone? || (s.disp.SawEmpty? && DispCancelled(s))
  }

  /** Nobody empties the open ring any more, and poller and timer hold more than it takes. */
  predicate Overfull(s: State) {
    Deserted(s) && !s.ring.closed && InHand(s) > Room(s)
  }

  predicate Hopeless(s: State) {
    Jammed(s) || Overfull(s)
  }

  ghost predicate CanFinish(c: Config, s: State) {
    exists ls, t :: Run(c, s, ls, t) && t.phase.Finished?
  }

  // ----- counting

  lemma {:induction false} ReinsertUpdate(ws: seq<Worker>, w: nat, k: Worker)
    requires w < |ws|
    ensures ToReinsert(ws[w := k])
         == ToReinsert(ws) - (if Reinserting(ws[w]) then 1 else 0) + (if Reinserting(k) then 1 else 0)
  {
    if w == 0 {
      assert ws[w := k][1..] == ws[1..];
    } else {
      ReinsertUpdate(ws[1..], w - 1, k);
      assert ws[w := k][1..] == ws[1..][w - 1 := k];
    }
  }

  lemma {:induction false} SomeoneReinserts(ws: seq<Worker>) returns (w: nat)
    requires ToReinsert(ws) > 0
    ensures w < |ws| && Reinserting(ws[w])
  {
    if Reinserting(ws[0]) {
      w := 0;
    } else {
      w := SomeoneReinserts(ws[1..]);
      w := w + 1;
    }
  }

  lemma {:induction false} NobodyReinserts(ws: seq<Worker>)
    ensures ToReinsert(ws) == 0 <==> forall i :: 0 <= i < |ws| ==> !Reinserting(ws[i])
  {
    if ws != [] {
      NobodyReinserts(ws[1..]);
      assert ToReinsert(ws[1..]) == 0 ==> forall i :: 1 <= i < |ws| ==> ws[i] == ws[1..][i - 1];
      assert forall i :: 0 <= i < |ws[1..]| ==> ws[1..][i] == ws[i + 1];
    }
  }

  // ----- the ring

  lemma OfferGrows(s: State, d: Delivery)
    requires Bounded(s.ring) && s.ring.policy == Block
    ensures var r := Offer(s.ring, d).0;
      && r.capacity == s.ring.capacity && r.closed == s.ring.closed
      && |r.contents| == |s.ring.contents| + (if CanEnqueue(s, d) && !s.ring.closed then 1 else 0)
  {
  }

  predicate RingKept(s: State, t: State) {
    t.ring.capacity == s.ring.capacity && |t.ring.contents| >= |s.ring.contents|
  }

  lemma DispKeepsRing(c: Config, s: State, l: DispStep, t: State)
    requires Bounded(s.ring) && CanDisp(c, s, l) && t == DoDisp(c, s, l) && !l.Dequeue?
    ensures t.ring == s.ring && t.pollHeld == s.pollHeld && t.timerHeld == s.timerHeld
  {
    match l
    case StartDrain =>
    case Look =>
    case Resume =>
    case DispExit =>
    case Filter(f) => assert t == DoFilter(c, s, f);
    case AckDup => assert t == DoAckDup(s);
    case Submit => assert t == DoSubmit(s);
    case Barrier =>
  }

  lemma RingEnv(s: State, l: EnvStep, t: State)
    requires t == DoEnv(s, l)
    ensures t.ring == s.ring && t.pollHeld == s.pollHeld && t.timerHeld == s.timerHeld
  {
    match l
    case Publish(m) => assert t == DoPublish(s, m);
    case Cancel =>
    case Pass(_) =>
  }

  lemma RingTick(s: State, l: TickStep, t: State)
    requires t == DoTick(s, l)
    ensures t.ring == s.ring && t.pollHeld == s.pollHeld && t.timerHeld == s.timerHeld
  {
    hide Dropped;
    if l.TickExit? {
    } else if l.SendBatch? {
    } else {
    }
  }

  lemma RingEvict(s: State, l: EvictStep, t: State)
    requires CanEvict(s, l) && t == DoEvict(s, l)
    ensures t.ring == s.ring && t.pollHeld == s.pollHeld && t.timerHeld == s.timerHeld
  {
    match l
    case ReadClock =>
    case Sweep =>
  }

  /** Delivering one message: what leaves the hand arrives in the ring. */
  lemma DeliverBalance(s: State)
    requires Bounded(s.ring) && s.ring.policy == Block && CanPoll(s, Deliver) && !s.ring.closed
    ensures var t := DoDeliver(s);
      && RingKept(s, t) && t.ring.closed == s.ring.closed
      && InHand(s) - Room(s) == InHand(t) - Room(t)
  {
    hide Offer;
    OfferGrows(s, s.pollHeld[0]);
  }

  lemma TimerBalance(s: State)
    requires Bounded(s.ring) && s.ring.policy == Block && CanTimer(s, TimerEnqueue) && !s.ring.closed
    ensures var t := DoTimer(s, TimerEnqueue);
      && RingKept(s, t) && t.ring.closed == s.ring.closed
      && InHand(s) - Room(s) == InHand(t) - Room(t)
  {
    hide Offer, EnqueueLog;
    OfferGrows(s, s.timerHeld[0]);
  }

  lemma ReceiveBalance(s: State, n: nat)
    requires Bounded(s.ring) && CanPoll(s, Receive(n))
    ensures var t := DoPoll(s, Receive(n)); t.ring == s.ring && InHand(t) >= InHand(s)
  {
    hide Offer, DoDeliver;
  }

  lemma PollExitBalance(s: State, err: bool)
    requires Bounded(s.ring) && CanPoll(s, PollExit(err))
    ensures var t := DoPoll(s, PollExit(err));
      t.ring == s.ring && t.pollHeld == s.pollHeld && t.timerHeld == s.timerHeld
  {
    hide Offer, DoDeliver;
  }

  /** Poller and timer only add to the ring, and never reduce what they hold without adding it. */
  predicate Pushes(s: State, t: State) {
    RingKept(s, t) && t.ring.closed == s.ring.closed && InHand(t) - Room(t) >= InHand(s) - Room(s)
  }

  lemma PollPushes(s: State, l: PollStep, t: State)
    requires Bounded(s.ring) && s.ring.policy == Block && CanPoll(s, l) && t == DoPoll(s, l) && !s.ring.closed
    ensures Pushes(s, t)
  {
    hide Offer, DoPoll, DoDeliver, CanPoll;
    match l
    case Receive(n) => ReceiveBalance(s, n);
    case Deliver =>
      assert DoPoll(s, Deliver) == DoDeliver(s) by {
        DeliverIs(s);
      }
      DeliverBalance(s);
    case PollExit(err) => PollExitBalance(s, err);
  }

  lemma DeliverIs(s: State)
    requires Bounded(s.ring) && CanPoll(s, Deliver)
    ensures DoPoll(s, Deliver) == DoDeliver(s)
  {
    hide DoDeliver;
  }

  lemma TimerPushes(s: State, l: TimerStep, t: State)
    requires Bounded(s.ring) && s.ring.policy == Block && CanTimer(s, l) && t == DoTimer(s, l) && !s.ring.closed
    ensures Pushes(s, t)
  {
    hide Offer, EnqueueLog, Urgent;
    match l
    case TimerReceive =>
    case TimerEnqueue => TimerBalance(s);
    case TimerExit =>
  }

  lemma StopKeeps(s: State)
    ensures DoStop(s).ring == s.ring.(closed := s.ring.closed || s.phase.StopPool?)
    ensures DoStop(s).pollHeld == s.pollHeld && DoStop(s).timerHeld == s.timerHeld
  {
  }

  /** While the ring is open Run's own steps only close doors. */
  lemma MainPushes(s: State, t: State)
    requires Bounded(s.ring) && CanMain(s) && t == DoMain(s) && Rank(s.phase) < 5
    ensures RingKept(s, t) && t.pollHeld == s.pollHeld && t.timerHeld == s.timerHeld
    ensures |t.ring.contents| == |s.ring.contents|
    ensures t.ring.closed <==> s.ring.closed || s.phase.StopPool?
  {
    hide DoStop, DoDrain, DoDrainWheel, DoFinish;
    StopKeeps(s);
  }

  lemma OthersPush(c: Config, s: State, l: Label, t: State)
    requires Shape(c, s) && !s.ring.closed && Rank(s.phase) < 4 && Enabled(c, s, l) && t == Apply(c, s, l)
    requires !l.Disp? && !l.Work?
    ensures Pushes(s, t)
  {
    hide DoEnv, DoPoll, DoTick, DoTimer, DoEvict, DoMain, CanPoll, CanTick, CanTimer, CanMain, Urgent;
    match l
    case Env(e) => RingEnv(s, e, t);
    case Poll(p) => PollPushes(s, p, t);
    case Tick(x) => RingTick(s, x, t);
    case Timer(r) => TimerPushes(s, r, t);
    case Evict(v) => RingEvict(s, v, t);
    case Main => MainPushes(s, t);
  }

  // ----- a jam lasts

  lemma JamServes(c: Config, s: State) returns (w: nat)
    requires Control(c, s) && Jammed(s)
    ensures w < |s.workers| && Reinserting(s.workers[w]) && s.wg >= 1
    ensures s.disp.Working? && !Filtering(s) && Rank(s.phase) < 2 && !s.ring.closed
  {
    hide SafeLog, Busy;
    w := SomeoneReinserts(s.workers);
    BusyMeansServing(c, s, w);
  }

  predicate RingPlus(s: State, n: nat, t: State) {
    t.ring.capacity == s.ring.capacity && t.ring.closed == s.ring.closed && |t.ring.contents| == |s.ring.contents| + n
  }

  lemma RingAck(c: Config, s: State, w: nat, d: Delivery)
    requires w < |s.workers|
    ensures RingPlus(s, 0, SettleAck(c, s, w, d))
  {
  }

  lemma RingRetry(s: State, w: nat, d: Delivery)
    requires Bounded(s.ring) && s.ring.policy == Block && !s.ring.closed && w < |s.workers| && CanEnqueue(s, Again(d))
    ensures RingPlus(s, 1, SettleRetry(s, w, d))
  {
    hide Offer, EnqueueLog;
    OfferGrows(s, Again(d));
  }

  lemma RingNack(s: State, w: nat, d: Delivery, delay: int, requeue: bool)
    requires w < |s.workers|
    ensures RingPlus(s, 0, SettleNack(s, w, d, delay, requeue))
  {
  }

  lemma RingDlq(s: State, w: nat, d: Delivery, ok: bool)
    requires w < |s.workers|
    ensures RingPlus(s, 0, SettleDlq(s, w, d, ok))
  {
  }

  lemma RingNothing(s: State, w: nat, d: Delivery)
    requires w < |s.workers|
    ensures RingPlus(s, 0, SettleNothing(s, w, d))
  {
  }

  /** The deadlock on the ring is a jam in its last stage. */
  lemma DeadlockIsJam(c: Config, s: State)
    requires Control(c, s) && Deadlocked(c, s)
    ensures Jammed(s)
  {
    hide SafeLog, Busy, ToReinsert;
    NobodyReinserts(s.workers);
  }

  lemma SettleRing(c: Config, s: State, w: nat, ok: bool, requeue: bool, t: State)
    requires Bounded(s.ring) && s.ring.policy == Block && !s.ring.closed
    requires w < |s.workers| && CanWork(c, s, w, Settle(ok, requeue)) && t == DoSettle(c, s, w, ok, requeue)
    ensures RingPlus(s, if Reinserting(s.workers[w]) then 1 else 0, t)
  {
    hide RingPlus, Offer, CanEnqueue, SettleAck, SettleRetry, SettleNack, SettleDlq, SettleNothing;
    var k := s.workers[w];
    match k.action
    case Ack => RingAck(c, s, w, k.d);
    case Retry => RingRetry(s, w, k.d);
    case RetryWithDelay => RingNack(s, w, k.d, k.delay, requeue);
    case DLQ => RingDlq(s, w, k.d, ok);
    case Unknown(_) => RingNothing(s, w, k.d);
  }

  lemma WorkRing(c: Config, s: State, w: nat, l: WorkStep, t: State)
    requires Bounded(s.ring) && s.ring.policy == Block && !s.ring.closed
    requires w < |s.workers| && CanWork(c, s, w, l) && t == DoWork(c, s, w, l)
    ensures RingPlus(s, if Reinserting(s.workers[w]) then 1 else 0, t)
  {
    hide Offer, Handle, DoSettle;
    match l
    case Take => assert t == DoTake(c, s, w);
    case Decide(result) => assert t == DoDecide(c, s, w, s.workers[w].d, result);
    case Settle(ok, requeue) => SettleRing(c, s, w, ok, requeue, t);
    case AckDead => assert t == DoAckDead(s, w, s.workers[w].d);
    case Mark(marked) => assert t == DoMark(c, s, w, s.workers[w].m, marked);
    case WorkExit =>
  }

  lemma JamWork(c: Config, s: State, w: nat, l: WorkStep, t: State)
    requires Control(c, s) && Jammed(s) && w < |s.workers| && CanWork(c, s, w, l) && t == DoWork(c, s, w, l)
    ensures Jammed(t)
  {
    hide DoWork, ToReinsert, SafeLog, Busy;
    var v := JamServes(c, s);
    WorkChanges(c, s, w, l, t);
    WorkRing(c, s, w, l, t);
    assert t.workers == s.workers[w := t.workers[w]];
    ReinsertUpdate(s.workers, w, t.workers[w]);
  }

  lemma JamStep(c: Config, s: State, l: Label, t: State)
    requires Control(c, s) && Jammed(s) && Enabled(c, s, l) && t == Apply(c, s, l)
    ensures Jammed(t)
  {
    hide ToReinsert, SafeLog, Busy, DoEnv, DoPoll, DoTick, DoTimer, DoDisp, DoWork, DoEvict, DoMain;
    hide CanPoll, CanTick, CanTimer, CanMain, CanWork, InHand;
    var w := JamServes(c, s);
    if l.Disp? {
      DispKeepsRing(c, s, l.x, t);
      DispKeepsWorkers(c, s, l.x, t);
    } else if l.Work? {
      JamWork(c, s, l.w, l.k, t);
    } else {
      OthersPush(c, s, l, t);
      OthersKeep(c, s, l, t);
    }
  }

  // ----- an overfull ring lasts

  /** Whoever still holds something has not left, so Run has not passed the poller. */
  lemma HoldersStay(c: Config, s: State)
    requires Control(c, s) && InHand(s) > 0
    ensures Rank(s.phase) < 4 && !s.ring.closed
  {
    hide SafeLog, Busy;
  }

  lemma OverfullDisp(c: Config, s: State, l: DispStep, t: State)
    requires Bounded(s.ring) && Overfull(s) && CanDisp(c, s, l) && t == DoDisp(c, s, l)
    ensures Overfull(t)
  {
    hide Urgent;
    assert l.DispExit?;
    assert t == s.(disp := Gone);
  }

  lemma StaysDeserted(c: Config, s: State, l: Label, t: State)
    requires Deserted(s) && Enabled(c, s, l) && t == Apply(c, s, l) && !l.Disp?
    ensures Deserted(t)
  {
    hide DoEnv, DoPoll, DoTick, DoTimer, DoDisp, DoWork, DoEvict;
    hide DoMain, CanTick, CanPoll, CanTimer, CanDisp, CanWork, CanMain;
    hide Deserted;
    match l
    case Env(e) =>
      ModeEnv(s, e, t);
      DesertedLater(s, t);
    case Poll(p) =>
      ModePoll(s, p, t);
      DesertedLater(s, t);
    case Tick(x) =>
      ModeTick(s, x, t);
      DesertedLater(s, t);
    case Timer(r) =>
      ModeTimer(s, r, t);
      DesertedLater(s, t);
    case Work(w, k) =>
      ModeWork(c, s, w, k, t);
      DesertedLater(s, t);
    case Evict(v) =>
      ModeEvict(s, v, t);
      DesertedLater(s, t);
    case Main =>
      ModeMain(s, t);
      DesertedLater(s, t);
  }

  lemma DesertedLater(s: State, t: State)
    requires Deserted(s) && t.disp == s.disp && (s.cancelled ==> t.cancelled) && Rank(s.phase) <= Rank(t.phase)
    ensures Deserted(t)
  {
  }

  /** Without a batch a worker can only leave. */
  lemma OnlyLeaves(c: Config, s: State, w: nat, l: WorkStep)
    requires Control(c, s) && !s.disp.Working? && w < |s.workers| && CanWork(c, s, w, l)
    ensures l.WorkExit?
  {
    hide Control;
    NothingBusy(c, s);
    assert !IsBusy(s.workers[w]);
  }

  lemma OverfullWork(c: Config, s: State, w: nat, l: WorkStep, t: State)
    requires Control(c, s) && Overfull(s) && w < |s.workers| && CanWork(c, s, w, l) && t == DoWork(c, s, w, l)
    ensures Overfull(t)
  {
    hide Control, Urgent;
    ControlShape(c, s);
    OnlyLeaves(c, s, w, l);
    assert t == s.(workers := s.workers[w := Exited]);
  }

  lemma OverfullStep(c: Config, s: State, l: Label, t: State)
    requires Control(c, s) && Overfull(s) && Enabled(c, s, l) && t == Apply(c, s, l)
    ensures Overfull(t)
  {
    hide Control, InHand, Deserted, DoEnv, DoPoll, DoTick, DoTimer, DoDisp, DoWork, DoEvict, DoMain;
    hide CanPoll, CanTick, CanTimer, CanMain, CanWork, CanDisp;
    if l.Disp? {
      OverfullDisp(c, s, l.x, t);
    } else if l.Work? {
      OverfullWork(c, s, l.w, l.k, t);
    } else {
      HoldersStay(c, s);
      OthersPush(c, s, l, t);
      StaysDeserted(c, s, l, t);
    }
  }

  lemma HopelessPhase(c: Config, s: State)
    requires Control(c, s) && Hopeless(s)
    ensures Rank(s.phase) < 4
  {
    hide Control, ToReinsert, InHand;
    ControlShape(c, s);
    if Jammed(s) {
      var w := JamServes(c, s);
    } else {
      HoldersStay(c, s);
    }
  }

  /** Nothing ends a hopeless state: no step of any thread leaves it, and Run never gets to closing the ring. */
  lemma {:induction false} HopelessForever(c: Config, s: State, ls: seq<Label>, t: State)
    requires Control(c, s) && Hopeless(s) && Run(c, s, ls, t)
    ensures Hopeless(t) && Rank(t.phase) < 4
    decreases |ls|
  {
    hide Control, Jammed, Overfull;
    if ls == [] {
      HopelessPhase(c, s);
    } else {
      var s' := Apply(c, s, ls[0]);
      ControlStep(c, s, ls[0], s');
      if Jammed(s) {
        JamStep(c, s, ls[0], s');
      } else {
        OverfullStep(c, s, ls[0], s');
      }
      HopelessForever(c, s', ls[1..], t);
    }
  }

  // ----- otherwise Run can finish

  lemma FinishFirst(c: Config, s: State, l: Label, t: State)
    requires Enabled(c, s, l) && t == Apply(c, s, l) && CanFinish(c, t)
    ensures CanFinish(c, s)
  {
    hide Enabled, Apply;
    var ls, u :| Run(c, t, ls, u) && u.phase.Finished?;
    assert ([l] + ls)[1..] == ls;
    assert Run(c, s, [l] + ls, u);
  }

  lemma FinishAfter(c: Config, answer: Answer, s: State, t: State)
    requires Leads(c, answer, s, t) && CanFinish(c, t)
    ensures CanFinish(c, s)
  {
    hide Run, Obeys;
    var a :| Continues(c, answer, s, a, t);
    var b, u :| Run(c, t, b, u) && u.phase.Finished?;
    RunConcat(c, s, a, t, b, u);
  }

  lemma FinishNow(c: Config, s: State)
    requires s.phase.Finished?
    ensures CanFinish(c, s)
  {
    assert Run(c, s, [], s);
  }

  /** The next step of a shutdown without the dispatcher: hand over what is held, leave, stop the stages in turn. */
  lemma PartingChoice(c: Config, s: State) returns (l: Label)
    requires Control(c, s) && Deserted(s) && !Overfull(s) && !s.phase.Finished?
    ensures Enabled(c, s, l) && !IsPublish(l) && !IsIdle(s, l)
    ensures l == Disp(DispExit) || l == Env(Cancel) || l == Poll(Deliver) || l == Timer(TimerEnqueue)
      || (s.pollHeld == [] && s.timerHeld == [] && (l == Poll(PollExit(false)) || l == Timer(TimerExit) || l == Main
          || (l.Work? && l.k.WorkExit?)))
  {
    hide SafeLog, Busy;
    if s.disp.SawEmpty? {
      l := Disp(DispExit);
    } else if !s.cancelled {
      l := Env(Cancel);
    } else if s.pollHeld != [] {
      l := Poll(Deliver);
    } else if s.timerHeld != [] {
      l := Timer(TimerEnqueue);
    } else if !s.pollExited {
      l := Poll(PollExit(false));
    } else if !s.timerExited {
      l := Timer(TimerExit);
    } else if s.phase.StopPool? && !AllExited(s.workers) {
      var w :| 0 <= w < |s.workers| && s.workers[w] != Exited;
      CanLeave(c, s, w);
      l := Work(w, WorkExit);
    } else {
      l := Main;
    }
  }

  lemma CanLeave(c: Config, s: State, w: nat)
    requires Control(c, s) && s.phase.StopPool? && !s.disp.Working? && w < |s.workers| && s.workers[w] != Exited
    ensures CanWork(c, s, w, WorkExit)
  {
    hide SafeLog;
    NothingBusy(c, s);
    assert !IsBusy(s.workers[w]);
  }

  lemma EmptyHanded(c: Config, t: State)
    requires Control(c, t) && ((t.pollHeld == [] && t.timerHeld == []) || Rank(t.phase) >= 5)
    ensures !Overfull(t)
  {
    hide SafeLog, Busy;
  }

  lemma PartingHandsOver(c: Config, s: State, l: Label, t: State)
    requires Control(c, s) && !Overfull(s) && Deserted(s) && (l == Poll(Deliver) || l == Timer(TimerEnqueue))
    requires Enabled(c, s, l) && t == Apply(c, s, l)
    ensures !Overfull(t)
  {
    hide SafeLog, Busy, DoDeliver, Urgent, Offer, EnqueueLog;
    assert !s.ring.closed;
    if l.Poll? {
      DeliverBalance(s);
    } else {
      TimerBalance(s);
    }
  }

  lemma PartingMain(c: Config, s: State, t: State)
    requires Control(c, s) && CanMain(s) && t == DoMain(s) && s.pollHeld == [] && s.timerHeld == [] && Control(c, t)
    ensures !Overfull(t)
  {
    hide Control, DoMain, CanMain, Overfull;
    ControlShape(c, s);
    if Rank(s.phase) < 5 {
      MainPushes(s, t);
    } else {
      ModeMain(s, t);
    }
    EmptyHanded(c, t);
  }

  lemma PartingRest(c: Config, s: State, l: Label, t: State)
    requires Control(c, s) && Control(c, t) && s.pollHeld == [] && s.timerHeld == [] && Enabled(c, s, l)
    requires t == Apply(c, s, l)
    requires l == Poll(PollExit(false)) || l == Timer(TimerExit) || (l.Work? && l.k.WorkExit?)
    ensures !Overfull(t)
  {
    hide Control, Overfull, DoDeliver, Offer;
    if l.Poll? {
      PollExitBalance(s, false);
    } else if l.Timer? {
      assert t == s.(timerExited := true);
    } else {
      assert t == s.(workers := s.workers[l.w := Exited]);
    }
    EmptyHanded(c, t);
  }

  lemma PartingQuits(s: State, t: State)
    requires Deserted(s) && !Overfull(s) && (t == s.(disp := Gone) || t == s.(cancelled := true))
    ensures Deserted(t) && !Overfull(t)
  {
    hide Urgent;
  }

  lemma PartingKeeps(c: Config, s: State, l: Label, t: State)
    requires Control(c, s) && Deserted(s) && !Overfull(s) && Enabled(c, s, l) && t == Apply(c, s, l) && Control(c, t)
    requires l == Disp(DispExit) || l == Env(Cancel) || l == Poll(Deliver) || l == Timer(TimerEnqueue)
      || (s.pollHeld == [] && s.timerHeld == [] && (l == Poll(PollExit(false)) || l == Timer(TimerExit) || l == Main
          || (l.Work? && l.k.WorkExit?)))
    ensures Deserted(t) && !Overfull(t)
  {
    hide Control, Overfull, Deserted, DoPoll, DoTimer, DoWork, DoMain, CanPoll, CanTimer, CanWork, CanMain;
    if l.Disp? || l.Env? {
      PartingQuits(s, t);
    } else {
      StaysDeserted(c, s, l, t);
      if l == Poll(Deliver) || l == Timer(TimerEnqueue) {
        PartingHandsOver(c, s, l, t);
      } else if l == Main {
        PartingMain(c, s, t);
      } else {
        PartingRest(c, s, l, t);
      }
    }
  }

  lemma {:induction false} FinishDeserted(c: Config, s: State)
    requires Control(c, s) && Deserted(s) && !Overfull(s)
    ensures CanFinish(c, s)
    decreases Measure(c, s)
  {
    hide Control, Deserted, Overfull, CanFinish, Measure, Enabled, Apply, IsIdle;
    MeasureNonNegative(c, s);
    if s.phase.Finished? {
      FinishNow(c, s);
    } else {
      var l := PartingChoice(c, s);
      var t := Apply(c, s, l);
      ControlStep(c, s, l, t);
      MeasureStep(c, s, l, t);
      PartingKeeps(c, s, l, t);
      FinishDeserted(c, t);
      FinishFirst(c, s, l, t);
    }
  }

  // ----- and from a state with its dispatcher

  /** The step that sends the dispatcher home, with nothing in hand. */
  lemma FinishHome(c: Config, s: State, l: Label, t: State)
    requires Control(c, s) && Enabled(c, s, l) && t == Apply(c, s, l)
    requires Deserted(t) && t.pollHeld == [] && t.timerHeld == []
    ensures CanFinish(c, s)
  {
    hide Control, CanFinish, Overfull, Deserted, Enabled, Apply;
    ControlStep(c, s, l, t);
    EmptyHanded(c, t);
    FinishDeserted(c, t);
    FinishFirst(c, s, l, t);
  }

  lemma FinishSawEmpty(c: Config, s: State)
    requires Control(c, s) && s.disp.SawEmpty? && s.pollHeld == [] && s.timerHeld == []
    ensures CanFinish(c, s)
  {
    hide Control, CanFinish;
    ControlShape(c, s);
    var t := Apply(c, s, Env(Cancel));
    assert t == s.(cancelled := true);
    FinishHome(c, s, Env(Cancel), t);
  }

  lemma FinishLook(c: Config, s: State)
    requires Control(c, s) && s.disp == Idle(false) && Calm(s)
    ensures CanFinish(c, s)
  {
    hide Control, CanFinish;
    ControlShape(c, s);
    var t := Apply(c, s, Disp(Look));
    assert t == s.(disp := SawEmpty);
    ControlStep(c, s, Disp(Look), t);
    FinishSawEmpty(c, t);
    FinishFirst(c, s, Disp(Look), t);
  }

  lemma FinishExit(c: Config, s: State)
    requires Control(c, s) && s.disp == Idle(true) && Calm(s)
    ensures CanFinish(c, s)
  {
    hide Control, CanFinish;
    ControlShape(c, s);
    var t := Apply(c, s, Disp(DispExit));
    assert t == s.(disp := Gone);
    FinishHome(c, s, Disp(DispExit), t);
  }

  /** A calm dispatcher can be sent home. */
  lemma FinishCalm(c: Config, s: State)
    requires Control(c, s) && Awake(s) && Calm(s)
    ensures CanFinish(c, s)
  {
    hide Control, CanFinish;
    if s.disp == Idle(true) {
      FinishExit(c, s);
    } else if s.disp == Idle(false) {
      FinishLook(c, s);
    } else {
      FinishSawEmpty(c, s);
    }
  }

  const AllAck: Answer := (d: Delivery) => Result(Ack, 0)

  lemma AckIsTame(c: Config, s: State)
    ensures Tame(c, AllAck, s)
  {
    hide Handle, Total;
    forall d: Delivery | d.msg.topic in c.handlers
      ensures !Handle(c.handlers[d.msg.topic], c.overflow, d.msg, AllAck(d)).action.Retry?
    {
      CoordinatorContract(c.handlers[d.msg.topic], c.overflow, d.msg, AllAck(d));
    }
  }

  lemma FinishUnjammed(c: Config, s: State)
    requires WellFormed(c) && Control(c, s) && Staffed(c, s) && Attended(s) && Awake(s) && NoneReinserting(s)
    ensures CanFinish(c, s)
  {
    hide Control, Staffed, Attended, Tame, NoneReinserting, CanFinish, Leads, Awake, Calm;
    AckIsTame(c, s);
    var t := CalmDown(c, AllAck, s);
    SoundControl(c, AllAck, t);
    FinishCalm(c, t);
    FinishAfter(c, AllAck, s, t);
  }

  /** The workers that must re-insert go first, as long as there is room for all of them. */
  lemma {:induction false} FinishAwake(c: Config, s: State)
    requires WellFormed(c) && Control(c, s) && Staffed(c, s) && Attended(s) && Awake(s) && !Jammed(s)
    ensures CanFinish(c, s)
    decreases ToReinsert(s.workers)
  {
    hide Control, Staffed, Attended, CanFinish, ToReinsert, Enabled, Apply;
    if ToReinsert(s.workers) == 0 {
      NobodyReinserts(s.workers);
      FinishUnjammed(c, s);
    } else {
      var w := SomeoneReinserts(s.workers);
      var l := Work(w, Settle(true, false));
      ReinsertStep(c, s, w);
      var t := Apply(c, s, l);
      ControlStep(c, s, l, t);
      StaffedStep(c, s, l, t);
      AttendedStep(c, s, l, t);
      FinishAwake(c, t);
      FinishFirst(c, s, l, t);
    }
  }

  lemma ReinsertStep(c: Config, s: State, w: nat)
    requires Control(c, s) && Awake(s) && !Jammed(s) && w < |s.workers| && Reinserting(s.workers[w])
    ensures Enabled(c, s, Work(w, Settle(true, false)))
    ensures var t := Apply(c, s, Work(w, Settle(true, false)));
      Awake(t) && !Jammed(t) && ToReinsert(t.workers) < ToReinsert(s.workers)
  {
    hide SafeLog, Busy, ToReinsert, DoWork;
    BusyMeansServing(c, s, w);
    AtLeastOne(s.workers, w);
    var l := Work(w, Settle(true, false));
    var t := Apply(c, s, l);
    WorkChanges(c, s, w, l.k, t);
    WorkRing(c, s, w, l.k, t);
    ModeWork(c, s, w, l.k, t);
    assert t.workers == s.workers[w := t.workers[w]];
    ReinsertUpdate(s.workers, w, t.workers[w]);
  }

  lemma AtLeastOne(ws: seq<Worker>, w: nat)
    requires w < |ws| && Reinserting(ws[w])
    ensures ToReinsert(ws) >= 1
  {
    NobodyReinserts(ws);
  }

  /** The exact condition: from any reachable state Run can still return if and only if no more workers must re-insert
      than the ring has room for and, once the dispatcher is gone, poller and timer hold no more than it has room
      for. */
  lemma FinishIff(c: Config, now: int, ls: seq<Label>, s: State)
    requires WellFormed(c) && Run(c, Initial(c, now), ls, s)
    ensures CanFinish(c, s) <==> !Hopeless(s)
  {
    hide Run, Initial, Control, Staffed, Attended, Jammed, Overfull;
    StartStaffed(c, now);
    StaffedRun(c, Initial(c, now), ls, s);
    StartAttended(c, now);
    AttendedRun(c, Initial(c, now), ls, s);
    if Hopeless(s) {
      forall ls', t | Run(c, s, ls', t)
        ensures !t.phase.Finished?
      {
        HopelessForever(c, s, ls', t);
      }
    } else if Deserted(s) {
      FinishDeserted(c, s);
    } else {
      NeverJammed(c, s);
      FinishAwake(c, s);
    }
  }

  lemma NeverJammed(c: Config, s: State)
    requires !Deserted(s) && !Hopeless(s)
    ensures Awake(s) && !Jammed(s)
  {
  }

  // ----- every configuration can hang

  lemma {:induction false} AllUrgent(ds: seq<Delivery>)
    requires forall i :: 0 <= i < |ds| ==> ds[i].msg.notBefore <= 0
    ensures Urgent(ds) == |ds|
  {
    if ds != [] {
      AllUrgent(ds[1..]);
    }
  }

  /** Nothing but the transport has anything in it. */
  ghost predicate Fresh(c: Config, now: int, s: State)
    requires WellFormed(c)
  {
    && Reachable(c, now, s) && s.transportOpen && !s.pollExited && s.pollHeld == [] && s.timerHeld == []
    && s.ring == Queue([], c.ringCapacity, Block, false) && s.disp == Idle(false) && s.phase.Serving?
    && forall i :: 0 <= i < |s.queue| ==> s.queue[i].msg.notBefore <= 0
  }

  lemma {:induction false} PublishMany(c: Config, now: int, s: State, n: nat) returns (t: State)
    requires WellFormed(c) && Fresh(c, now, s) && |s.queue| <= n
    ensures Fresh(c, now, t) && |t.queue| == n
    decreases n - |s.queue|
  {
    hide Reachable;
    if |s.queue| == n {
      t := s;
    } else {
      var m := Message("", "", None, 0, 0);
      var p := DoPublish(s, m);
      ReachShape(c, now, s);
      ReachStep(c, now, s, Env(Publish(m)), p);
      t := PublishMany(c, now, p, n);
    }
  }

  lemma ReachShape(c: Config, now: int, s: State)
    requires WellFormed(c) && Reachable(c, now, s)
    ensures Shape(c, s)
  {
    hide Run, Control;
    var ls :| Run(c, Initial(c, now), ls, s) && forall i :: 0 <= i < |ls| ==> NonNegative(ls[i]);
    ControlInitial(c, now);
    ControlRun(c, Initial(c, now), ls, s);
    ControlShape(c, s);
  }

  /** The poller takes more than the ring holds, and the run is cancelled. */
  lemma HangStart(c: Config, now: int, s: State) returns (t: State)
    requires WellFormed(c) && Fresh(c, now, s) && |s.queue| == c.ringCapacity + 1
    ensures Reachable(c, now, t) && t.cancelled && t.disp == Idle(false) && t.timerHeld == []
    ensures Urgent(t.pollHeld) == c.ringCapacity + 1
    ensures t.ring == Queue([], c.ringCapacity, Block, false)
  {
    hide Reachable, Urgent;
    ReachShape(c, now, s);
    var l := Poll(Receive(|s.queue|));
    var p := Apply(c, s, l);
    assert p == s.(pollHeld := s.queue[..|s.queue|], queue := s.queue[|s.queue|..]);
    assert s.queue[..|s.queue|] == s.queue;
    ReachStep(c, now, s, l, p);
    AllUrgent(p.pollHeld);
    t := p.(cancelled := true);
    ReachStep(c, now, p, Env(Cancel), t);
  }

  /** The dispatcher finds the ring empty and leaves. */
  lemma HangEnd(c: Config, now: int, s: State) returns (t: State)
    requires WellFormed(c) && Reachable(c, now, s) && s.cancelled && s.disp == Idle(false) && s.timerHeld == []
    requires Urgent(s.pollHeld) == c.ringCapacity + 1 && s.ring == Queue([], c.ringCapacity, Block, false)
    ensures Reachable(c, now, t) && t.disp.Gone? && Overfull(t)
  {
    hide Reachable, Urgent;
    ReachShape(c, now, s);
    var p := s.(disp := SawEmpty);
    ReachStep(c, now, s, Disp(Look), p);
    t := p.(disp := Gone);
    ReachStep(c, now, p, Disp(DispExit), t);
  }

  /** No configuration is safe from hanging in its shutdown: whatever the ring's capacity, the pool, the store and the
      coordinators, a state is reachable from which no continuation lets Run return. */
  lemma HangReachable(c: Config, now: int) returns (s: State)
    requires WellFormed(c)
    ensures Reachable(c, now, s) && s.disp.Gone? && Hopeless(s) && !CanFinish(c, s)
  {
    hide Run, Control, Overfull, Jammed;
    InitialReachable(c, now);
    var a := PublishMany(c, now, Initial(c, now), c.ringCapacity + 1);
    var b := HangStart(c, now, a);
    s := HangEnd(c, now, b);
    var ls :| Run(c, Initial(c, now), ls, s) && forall i :: 0 <= i < |ls| ==> NonNegative(ls[i]);
    FinishIff(c, now, ls, s);
  }
}
