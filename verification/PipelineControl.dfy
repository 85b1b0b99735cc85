/** The batch barrier and the order of Run's shutdown, in every reachable state. */
module PipelineControl {
  import opened Retry
  import opened RingSpec
  import opened Pipeline

  predicate IsBusy(k: Worker) {
    !k.Free? && !k.Exited?
  }

  function Busy(ws: seq<Worker>): (n: nat) {
    if ws == [] then 0 else (if IsBusy(ws[0]) then 1 else 0) + Busy(ws[1..])
  }

  lemma {:induction false} BusyUpdate(ws: seq<Worker>, w: nat, k: Worker)
    requires w < |ws|
    ensures Busy(ws[w := k]) == Busy(ws) - (if IsBusy(ws[w]) then 1 else 0) + (if IsBusy(k) then 1 else 0)
  {
    if w == 0 {
      assert ws[w := k][1..] == ws[1..];
    } else {
      BusyUpdate(ws[1..], w - 1, k);
      assert ws[w := k][1..] == ws[1..][w - 1 := k];
    }
  }

  lemma {:induction false} BusyAtLeast(ws: seq<Worker>, w: nat)
    requires w < |ws| && IsBusy(ws[w])
    ensures Busy(ws) >= 1
  {
    if w > 0 {
      BusyAtLeast(ws[1..], w - 1);
    }
  }

  lemma {:induction false} NoneBusy(ws: seq<Worker>)
    requires forall i :: 0 <= i < |ws| ==> !IsBusy(ws[i])
    ensures Busy(ws) == 0
  {
    if ws != [] {
      NoneBusy(ws[1..]);
    }
  }

  /** The current batch is still being filtered, or its duplicates acked. */
  predicate Filtering(s: State) {
    s.disp.Working? && (s.disp.todo != [] || s.disp.dups != [])
  }

  /** The wait group counts exactly the tasks in the channel and on workers, and is zero unless
      a batch is past its filter: two batches never overlap. */
  predicate BarrierInv(s: State) {
    && s.wg == |s.pool| + Busy(s.workers)
    && (!s.disp.Working? || Filtering(s) ==> s.wg == 0)
  }

  /** What has stopped, and what is closed, at each phase of Run. */
  predicate PhaseInv(s: State) {
    var r := Rank(s.phase);
    && (r >= 2 ==> s.disp.Gone?)
    && (r >= 3 ==> s.timerExited)
    && (r >= 4 ==> s.pollExited)
    && (r >= 5 ==> AllExited(s.workers))
    && (s.transportOpen <==> r < 3)
    && (s.poolOpen <==> r < 4)
    && (s.ring.closed <==> r >= 5)
    && (s.wheelOpen <==> r < 6)
    && (s.storeOpen <==> r < 7)
    && (r >= 7 ==> s.keys == map[])
    && (s.pollExited ==> s.pollHeld == [])
    && (s.timerExited ==> s.timerHeld == [])
    && (s.tickExited ==> s.tickHeld == [])
  }

  /** Events a run never shows: a call on a closed transport, a refused enqueue before the final drain,
      an ignored insert, a send on the closed work channel, a mark in the closed store. */
  predicate SafeEvent(e: Event) {
    && (e.AckCalled? || e.NackCalled? || e.DlqCalled? ==> e.open)
    && (e.Rejected? ==> e.draining)
    && !e.InsertIgnored? && !e.SubmitPanic? && !e.MarkPanic?
  }

  predicate SafeLog(s: State) {
    forall i :: 0 <= i < |s.log| ==> SafeEvent(s.log[i])
  }

  predicate Control(c: Config, s: State) {
    Shape(c, s) && BarrierInv(s) && PhaseInv(s) && SafeLog(s)
  }

  /** A busy worker means a batch past its filter, hence an open transport, pool and store. */
  lemma BusyMeansServing(c: Config, s: State, w: nat)
    requires Control(c, s) && w < |s.workers| && IsBusy(s.workers[w])
    ensures s.wg >= 1 && s.disp.Working? && !Filtering(s) && Rank(s.phase) < 2
    ensures s.transportOpen && s.poolOpen && s.storeOpen && !s.ring.closed
  {
    BusyAtLeast(s.workers, w);
  }

  lemma ControlPublish(c: Config, s: State, m: Message)
    requires Control(c, s)
    ensures Control(c, DoPublish(s, m))
  {
  }

  lemma ControlEnv(c: Config, s: State, l: EnvStep, t: State)
    requires Control(c, s) && t == DoEnv(s, l)
    ensures Control(c, t)
  {
    match l
    case Publish(m) => ControlPublish(c, s, m);
    case Cancel =>
    case Pass(_) =>
  }

  lemma ControlDeliver(c: Config, s: State)
    requires Control(c, s) && CanPoll(s, Deliver)
    ensures Control(c, DoDeliver(s))
  {
  }

  lemma ControlPoll(c: Config, s: State, l: PollStep, t: State)
    requires Control(c, s) && CanPoll(s, l) && t == DoPoll(s, l)
    ensures Control(c, t)
  {
    match l
    case Receive(_) =>
    case Deliver => ControlDeliver(c, s);
    case PollExit(_) =>
  }

  lemma ControlTick(c: Config, s: State, l: TickStep, t: State)
    requires Control(c, s) && CanTick(s, l) && t == DoTick(s, l)
    ensures Control(c, t)
  {
  }

  lemma ControlTimer(c: Config, s: State, l: TimerStep, t: State)
    requires Control(c, s) && CanTimer(s, l) && t == DoTimer(s, l)
    ensures Control(c, t)
  {
  }

  lemma ControlFilter(c: Config, s: State, f: FilterStep)
    requires Control(c, s) && CanDisp(c, s, Filter(f))
    ensures Control(c, DoFilter(c, s, f))
  {
  }

  lemma ControlSubmit(c: Config, s: State)
    requires Control(c, s) && CanDisp(c, s, Submit)
    ensures Control(c, DoSubmit(s))
  {
  }

  lemma ControlDisp(c: Config, s: State, l: DispStep, t: State)
    requires Control(c, s) && CanDisp(c, s, l) && t == DoDisp(c, s, l)
    ensures Control(c, t)
  {
    hide DoFilter, DoSubmit, Busy;
    match l
    case Filter(f) => ControlFilter(c, s, f);
    case Submit => ControlSubmit(c, s);
    case _ =>
  }

  lemma ControlSettleAck(c: Config, s: State, w: nat, d: Delivery)
    requires Control(c, s) && w < |s.workers| && IsBusy(s.workers[w])
    ensures Control(c, SettleAck(c, s, w, d))
  {
    if c.store {
      ControlMarkNext(c, s, w, d);
    } else {
      ControlAckOnly(c, s, w, d);
    }
  }

  lemma ControlMarkNext(c: Config, s: State, w: nat, d: Delivery)
    requires Control(c, s) && w < |s.workers| && IsBusy(s.workers[w]) && c.store
    ensures Control(c, SettleAck(c, s, w, d))
  {
    BusyMeansServing(c, s, w);
    BusyUpdate(s.workers, w, Marking(d.msg));
  }

  lemma ControlAckOnly(c: Config, s: State, w: nat, d: Delivery)
    requires Control(c, s) && w < |s.workers| && IsBusy(s.workers[w]) && !c.store
    ensures Control(c, SettleAck(c, s, w, d))
  {
    BusyMeansServing(c, s, w);
    BusyUpdate(s.workers, w, Free);
  }

  lemma ControlSettleRetry(c: Config, s: State, w: nat, d: Delivery)
    requires Control(c, s) && w < |s.workers| && IsBusy(s.workers[w]) && CanEnqueue(s, Again(d))
    ensures Control(c, SettleRetry(s, w, d))
  {
    BusyMeansServing(c, s, w);
    BusyUpdate(s.workers, w, Free);
  }

  lemma ControlSettleNothing(c: Config, s: State, w: nat, d: Delivery)
    requires Control(c, s) && w < |s.workers| && IsBusy(s.workers[w])
    ensures Control(c, SettleNothing(s, w, d))
  {
    BusyMeansServing(c, s, w);
    BusyUpdate(s.workers, w, Free);
  }

  lemma ControlSettleNack(c: Config, s: State, w: nat, d: Delivery, delay: int, requeue: bool)
    requires Control(c, s) && w < |s.workers| && IsBusy(s.workers[w])
    ensures Control(c, SettleNack(s, w, d, delay, requeue))
  {
    BusyMeansServing(c, s, w);
    BusyUpdate(s.workers, w, Free);
  }

  lemma ControlDlqSent(c: Config, s: State, w: nat, d: Delivery)
    requires Control(c, s) && w < |s.workers| && IsBusy(s.workers[w])
    ensures Control(c, SettleDlq(s, w, d, true))
  {
    BusyMeansServing(c, s, w);
    BusyUpdate(s.workers, w, DlqSent(d));
  }

  lemma ControlDlqFailed(c: Config, s: State, w: nat, d: Delivery)
    requires Control(c, s) && w < |s.workers| && IsBusy(s.workers[w])
    ensures Control(c, SettleDlq(s, w, d, false))
  {
    BusyMeansServing(c, s, w);
    BusyUpdate(s.workers, w, Free);
  }

  lemma ControlSettleDlq(c: Config, s: State, w: nat, d: Delivery, ok: bool)
    requires Control(c, s) && w < |s.workers| && IsBusy(s.workers[w])
    ensures Control(c, SettleDlq(s, w, d, ok))
  {
    hide Control, SettleDlq;
    if ok {
      ControlDlqSent(c, s, w, d);
    } else {
      ControlDlqFailed(c, s, w, d);
    }
  }

  lemma ControlSettle(c: Config, s: State, w: nat, ok: bool, requeue: bool, t: State)
    requires Control(c, s) && w < |s.workers| && CanWork(c, s, w, Settle(ok, requeue))
    requires t == DoSettle(c, s, w, ok, requeue)
    ensures Control(c, t)
  {
    var k := s.workers[w];
    match k.action
    case Ack => ControlSettleAck(c, s, w, k.d);
    case Retry => ControlSettleRetry(c, s, w, k.d);
    case RetryWithDelay => ControlSettleNack(c, s, w, k.d, k.delay, requeue);
    case DLQ => ControlSettleDlq(c, s, w, k.d, ok);
    case Unknown(_) => ControlSettleNothing(c, s, w, k.d);
  }

  lemma ControlTake(c: Config, s: State, w: nat)
    requires Control(c, s) && w < |s.workers| && CanWork(c, s, w, Take)
    ensures Control(c, DoTake(c, s, w))
  {
    BusyUpdate(s.workers, w, DoTake(c, s, w).workers[w]);
  }

  lemma ControlDecide(c: Config, s: State, w: nat, result: Result)
    requires Control(c, s) && w < |s.workers| && CanWork(c, s, w, Decide(result))
    ensures Control(c, DoDecide(c, s, w, s.workers[w].d, result))
  {
    BusyMeansServing(c, s, w);
    BusyUpdate(s.workers, w, DoDecide(c, s, w, s.workers[w].d, result).workers[w]);
  }

  lemma ControlAckDead(c: Config, s: State, w: nat)
    requires Control(c, s) && w < |s.workers| && CanWork(c, s, w, AckDead)
    ensures Control(c, DoAckDead(s, w, s.workers[w].d))
  {
    BusyMeansServing(c, s, w);
    BusyUpdate(s.workers, w, Free);
  }

  lemma ControlMark(c: Config, s: State, w: nat, marked: bool)
    requires Control(c, s) && w < |s.workers| && CanWork(c, s, w, Mark(marked))
    ensures Control(c, DoMark(c, s, w, s.workers[w].m, marked))
  {
    BusyMeansServing(c, s, w);
    BusyUpdate(s.workers, w, Free);
  }

  lemma ControlExit(c: Config, s: State, w: nat)
    requires Control(c, s) && w < |s.workers| && CanWork(c, s, w, WorkExit)
    ensures Control(c, s.(workers := s.workers[w := Exited]))
  {
    BusyUpdate(s.workers, w, Exited);
  }

  lemma ControlWork(c: Config, s: State, w: nat, l: WorkStep, t: State)
    requires Control(c, s) && w < |s.workers| && CanWork(c, s, w, l) && t == DoWork(c, s, w, l)
    ensures Control(c, t)
  {
    hide DoTake, DoDecide, DoSettle, DoAckDead, DoMark, Handle, Offer, SafeLog, Busy;
    match l
    case Take => ControlTake(c, s, w);
    case Decide(result) => ControlDecide(c, s, w, result);
    case Settle(ok, requeue) => ControlSettle(c, s, w, ok, requeue, t);
    case AckDead => ControlAckDead(c, s, w);
    case Mark(marked) => ControlMark(c, s, w, marked);
    case WorkExit => ControlExit(c, s, w);
  }

  lemma ControlEvict(c: Config, s: State, l: EvictStep, t: State)
    requires Control(c, s) && CanEvict(s, l) && t == DoEvict(s, l)
    ensures Control(c, t)
  {
  }

  lemma ControlDrain(c: Config, s: State)
    requires Control(c, s) && s.phase.Draining? && s.phase.rest != []
    ensures Control(c, DoDrain(s))
  {
  }

  lemma ControlStop(c: Config, s: State)
    requires Control(c, s) && CanMain(s) && Rank(s.phase) < 5
    ensures Control(c, DoStop(s))
  {
  }

  lemma ControlDrainWheel(c: Config, s: State)
    requires Control(c, s) && s.phase.RingClosed?
    ensures Control(c, DoDrainWheel(s))
  {
  }

  lemma ControlFinish(c: Config, s: State)
    requires Control(c, s) && s.phase == Draining([])
    ensures Control(c, DoFinish(s))
  {
  }

  lemma ControlMain(c: Config, s: State, t: State)
    requires Control(c, s) && Bounded(s.ring) && CanMain(s) && t == DoMain(s)
    ensures Control(c, t)
  {
    hide Control, DoDrainWheel, DoFinish, DoDrain, DoStop;
    if s.phase.RingClosed? {
      ControlDrainWheel(c, s);
    } else if s.phase == Draining([]) {
      ControlFinish(c, s);
    } else if s.phase.Draining? {
      ControlDrain(c, s);
    } else {
      ControlStop(c, s);
    }
  }

  lemma ControlStep(c: Config, s: State, l: Label, t: State)
    requires Control(c, s) && Enabled(c, s, l) && t == Apply(c, s, l)
    ensures Control(c, t)
  {
    match l
    case Env(e) => ControlEnv(c, s, e, t);
    case Poll(p) => ControlPoll(c, s, p, t);
    case Tick(x) => ControlTick(c, s, x, t);
    case Timer(r) => ControlTimer(c, s, r, t);
    case Disp(x) => ControlDisp(c, s, x, t);
    case Work(w, k) => ControlWork(c, s, w, k, t);
    case Evict(v) => ControlEvict(c, s, v, t);
    case Main => ControlMain(c, s, t);
  }

  lemma ControlInitial(c: Config, now: int)
    requires WellFormed(c)
    ensures Control(c, Initial(c, now))
  {
    NoneBusy(Initial(c, now).workers);
  }

  lemma {:induction false} ControlRun(c: Config, s: State, ls: seq<Label>, t: State)
    requires Control(c, s) && Run(c, s, ls, t)
    ensures Control(c, t)
    decreases |ls|
  {
    if ls != [] {
      var s' := Apply(c, s, ls[0]);
      ControlStep(c, s, ls[0], s');
      ControlRun(c, s', ls[1..], t);
    }
  }

  /** The wheel's last items never reach the ring: in every run, each turn of the final loop over the drained wheel
      is refused by the ring that Run has closed before, and leaves the message unsettled. */
  lemma FinalDrainRejects(c: Config, now: int, ls: seq<Label>, s: State)
    requires WellFormed(c) && Run(c, Initial(c, now), ls, s) && s.phase.Draining? && s.phase.rest != []
    ensures Enabled(c, s, Main)
    ensures var t := Apply(c, s, Main);
      t.ring == s.ring && t.log == s.log + [Rejected(s.phase.rest[0], true)] && t.phase == Draining(s.phase.rest[1..])
  {
    hide Run, Initial, SafeLog, Busy;
    ControlInitial(c, now);
    ControlRun(c, Initial(c, now), ls, s);
  }
}
