/** Batch progress: when an unfinished batch can move on, when it never can, and which coordinators exclude that. */
module PipelineProgress {
  import opened Retry
  import opened RingSpec
  import opened Pipeline
  import opened PipelineControl
  import opened PipelineQuiet

  /** A step by which the current batch gets on: its filter, acks, submits and barrier, or a worker's task. */
  predicate IsBatchStep(l: Label) {
    || (l.Disp? && (l.x.Filter? || l.x.AckDup? || l.x.Submit? || l.x.Barrier?))
    || (l.Work? && !l.k.WorkExit?)
  }

  ghost predicate CanMove(c: Config, s: State) {
    exists l :: IsBatchStep(l) && Enabled(c, s, l)
  }

  /** A worker whose outcome is Retry: it must get its message into the ring. */
  predicate Reinserting(k: Worker) {
    k.Settling? && k.action.Retry?
  }

  /** The ring is full, the batch waits for a worker, and every worker waits for the ring or has nothing to do. */
  predicate Deadlocked(c: Config, s: State) {
    && s.disp.Working? && s.disp.todo == [] && s.disp.dups == []
    && (s.disp.kept != [] ==> |s.pool| >= c.poolSize)
    && |s.ring.contents| == s.ring.capacity
    && (forall i :: 0 <= i < |s.workers| ==> Reinserting(s.workers[i]) || (s.workers[i].Free? && s.pool == []))
    && (exists i :: 0 <= i < |s.workers| && Reinserting(s.workers[i]))
  }

  // ----- what the workers can be doing

  predicate WorkerOk(c: Config, x: Dispatcher, k: Worker) {
    (k.Running? ==> k.d.msg.topic in c.handlers) && (k.Exited? ==> x.Gone?)
  }

  /** Handlers run only for registered topics, and no worker leaves before the dispatcher has. */
  predicate Staffed(c: Config, s: State) {
    forall i :: 0 <= i < |s.workers| ==> WorkerOk(c, s.disp, s.workers[i])
  }

  /** What is on its way from the wheel to the ring. */
  predicate SameBelt(s: State, t: State) {
    t.tickHeld == s.tickHeld && t.channel == s.channel && t.timerHeld == s.timerHeld
  }

  lemma StaffedDisp(c: Config, s: State, l: DispStep, t: State)
    requires Bounded(s.ring) && Staffed(c, s) && CanDisp(c, s, l) && t == DoDisp(c, s, l)
    ensures Staffed(c, t)
  {
    assert !s.disp.Gone?;
    DispKeepsWorkers(c, s, l, t);
  }

  lemma DispKeepsWorkers(c: Config, s: State, l: DispStep, t: State)
    requires Bounded(s.ring) && CanDisp(c, s, l) && t == DoDisp(c, s, l)
    ensures t.workers == s.workers && SameBelt(s, t) && t.evict == s.evict
    ensures t.batch == s.batch + (if l.Dequeue? then 1 else 0)
    ensures |t.pool| <= |s.pool| + (if l.Submit? && s.poolOpen then 1 else 0)
  {
    match l
    case StartDrain =>
    case Look =>
    case Resume =>
    case DispExit =>
    case Dequeue => assert t == DoDequeue(s);
    case Filter(f) => assert t == DoFilter(c, s, f);
    case AckDup => assert t == DoAckDup(s);
    case Submit => assert t == DoSubmit(s);
    case Barrier =>
  }

  /** The coordinator answers this result with an immediate retry. */
  predicate DecidesRetry(c: Config, k: Worker, l: WorkStep) {
    && k.Running? && l.Decide? && k.d.msg.topic in c.handlers
    && Handle(c.handlers[k.d.msg.topic], c.overflow, k.d.msg, l.result).action.Retry?
  }

  /** A worker step changes its own worker only, and to what the coordinator chose. */
  lemma WorkChanges(c: Config, s: State, w: nat, l: WorkStep, t: State)
    requires Bounded(s.ring) && w < |s.workers| && CanWork(c, s, w, l) && t == DoWork(c, s, w, l)
    ensures t.disp == s.disp && |t.workers| == |s.workers|
    ensures t.batch == s.batch && SameBelt(s, t) && |t.pool| <= |s.pool| && t.evict == s.evict
    ensures forall i :: 0 <= i < |s.workers| && i != w ==> t.workers[i] == s.workers[i]
    ensures t.workers[w].Running? ==> t.workers[w].d.msg.topic in c.handlers
    ensures t.workers[w].Exited? ==> !s.poolOpen
    ensures Reinserting(t.workers[w]) ==> DecidesRetry(c, s.workers[w], l)
    ensures t.workers[w].Settling? && !t.workers[w].action.DLQ? ==> l.Decide?
  {
    hide Handle, Offer;
    match l
    case Take => assert t == DoTake(c, s, w);
    case Decide(result) => assert t == DoDecide(c, s, w, s.workers[w].d, result);
    case Settle(ok, requeue) => SettleChanges(c, s, w, ok, requeue, t);
    case AckDead => assert t == DoAckDead(s, w, s.workers[w].d);
    case Mark(marked) => assert t == DoMark(c, s, w, s.workers[w].m, marked);
    case WorkExit =>
  }

  /** Worker w is done with its handler's outcome, and nothing else moved. */
  predicate Settled(s: State, w: nat, t: State)
    requires w < |s.workers|
  {
    && t.disp == s.disp && |t.workers| == |s.workers|
    && t.batch == s.batch && SameBelt(s, t) && t.pool == s.pool && t.evict == s.evict
    && (forall i :: 0 <= i < |s.workers| && i != w ==> t.workers[i] == s.workers[i])
    && (t.workers[w].Free? || t.workers[w].Marking? || t.workers[w].DlqSent?)
  }

  lemma AckSettles(c: Config, s: State, w: nat, d: Delivery)
    requires w < |s.workers|
    ensures Settled(s, w, SettleAck(c, s, w, d))
  {
  }

  lemma RetrySettles(s: State, w: nat, d: Delivery)
    requires Bounded(s.ring) && w < |s.workers|
    ensures Settled(s, w, SettleRetry(s, w, d))
  {
    hide Offer;
  }

  lemma NackSettles(s: State, w: nat, d: Delivery, delay: int, requeue: bool)
    requires w < |s.workers|
    ensures Settled(s, w, SettleNack(s, w, d, delay, requeue))
  {
  }

  lemma DlqSettles(s: State, w: nat, d: Delivery, ok: bool)
    requires w < |s.workers|
    ensures Settled(s, w, SettleDlq(s, w, d, ok))
  {
  }

  lemma NothingSettles(s: State, w: nat, d: Delivery)
    requires w < |s.workers|
    ensures Settled(s, w, SettleNothing(s, w, d))
  {
  }

  lemma SettleChanges(c: Config, s: State, w: nat, ok: bool, requeue: bool, t: State)
    requires Bounded(s.ring) && w < |s.workers| && CanWork(c, s, w, Settle(ok, requeue))
    requires t == DoSettle(c, s, w, ok, requeue)
    ensures Settled(s, w, t)
  {
    hide Settled, Offer, SettleAck, SettleRetry, SettleNack, SettleDlq, SettleNothing;
    var k := s.workers[w];
    match k.action
    case Ack => AckSettles(c, s, w, k.d);
    case Retry => RetrySettles(s, w, k.d);
    case RetryWithDelay => NackSettles(s, w, k.d, k.delay, requeue);
    case DLQ => DlqSettles(s, w, k.d, ok);
    case Unknown(_) => NothingSettles(s, w, k.d);
  }

  lemma StaffedWork(c: Config, s: State, w: nat, l: WorkStep, t: State)
    requires Control(c, s) && Staffed(c, s) && w < |s.workers| && CanWork(c, s, w, l) && t == DoWork(c, s, w, l)
    ensures Staffed(c, t)
  {
    hide SafeLog, Busy, DoWork, CanWork;
    WorkChanges(c, s, w, l, t);
  }

  lemma StaffedQuiet(c: Config, s: State, t: State)
    requires Staffed(c, s) && SameCrew(s, t)
    ensures Staffed(c, t)
  {
  }

  predicate SameCrew(s: State, t: State) {
    t.disp == s.disp && t.workers == s.workers && t.pool == s.pool
  }

  lemma QuietCrew(c: Config, s: State, l: Label, t: State)
    requires Enabled(c, s, l) && t == Apply(c, s, l) && IsQuiet(s, l)
    ensures SameCrew(s, t)
  {
    hide Enabled, Apply, IsQuiet, QuietLog;
    QuietStep(c, s, l, t);
  }

  lemma FinishCrew(s: State)
    ensures SameCrew(s, DoFinish(s))
  {
  }

  lemma EvictCrew(s: State, l: EvictStep, t: State)
    requires CanEvict(s, l) && t == DoEvict(s, l)
    ensures SameCrew(s, t)
  {
  }

  /** Everything but the dispatcher and the workers leaves both as they are. */
  lemma OthersKeep(c: Config, s: State, l: Label, t: State)
    requires Enabled(c, s, l) && t == Apply(c, s, l) && !l.Disp? && !l.Work?
    ensures SameCrew(s, t)
  {
    hide SameCrew, DoEnv, DoPoll, DoTick, DoTimer, DoEvict;
    hide DoMain, CanTick, CanMain, CanPoll, CanTimer, Quiet, DoFinish;
    if IsQuiet(s, l) {
      QuietCrew(c, s, l, t);
    } else if l.Main? {
      QuietMain(s, t);
      FinishCrew(s);
    } else {
      EvictCrew(s, l.v, t);
    }
  }

  lemma StaffedStep(c: Config, s: State, l: Label, t: State)
    requires Control(c, s) && Staffed(c, s) && Enabled(c, s, l) && t == Apply(c, s, l)
    ensures Staffed(c, t)
  {
    hide Control, Staffed, DoEnv, DoPoll, DoTick, DoTimer, DoDisp;
    hide DoWork, DoEvict, DoMain, CanTick, CanMain, CanDisp, CanWork;
    if l.Disp? {
      StaffedDisp(c, s, l.x, t);
    } else if l.Work? {
      StaffedWork(c, s, l.w, l.k, t);
    } else {
      OthersKeep(c, s, l, t);
      StaffedQuiet(c, s, t);
    }
  }

  lemma {:induction false} StaffedRun(c: Config, s: State, ls: seq<Label>, t: State)
    requires Control(c, s) && Staffed(c, s) && Run(c, s, ls, t)
    ensures Control(c, t) && Staffed(c, t)
    decreases |ls|
  {
    hide Control, Staffed;
    if ls != [] {
      var s' := Apply(c, s, ls[0]);
      ControlStep(c, s, ls[0], s');
      StaffedStep(c, s, ls[0], s');
      StaffedRun(c, s', ls[1..], t);
    }
  }

  // ----- progress, exactly

  predicate Unblocked(s: State, k: Worker) {
    IsBusy(k) && (Reinserting(k) ==> |s.ring.contents| < s.ring.capacity)
  }

  /** A busy worker can go on unless it has to re-insert into a full ring. */
  lemma WorkerMoves(c: Config, s: State, w: nat)
    requires Control(c, s) && Staffed(c, s) && w < |s.workers| && Unblocked(s, s.workers[w])
    ensures CanMove(c, s)
  {
    var k := s.workers[w];
    var step := match k
      case Running(_) => Decide(Result(Ack, 0))
      case Settling(_, _, _) => Settle(true, false)
      case DlqSent(_) => AckDead
      case _ => Mark(true);
    assert WorkerOk(c, s.disp, k);
    assert IsBatchStep(Work(w, step)) && Enabled(c, s, Work(w, step));
  }

  lemma FilterMoves(c: Config, s: State)
    requires Shape(c, s) && s.disp.Working? && s.disp.todo != []
    ensures CanMove(c, s)
  {
    var f := if !Filtered(c, s.disp) then Skip
      else match s.disp.probe
        case NoProbe => Fetch
        case Fetched(_) => Check
        case Stale => Delete;
    assert IsBatchStep(Disp(Filter(f))) && Enabled(c, s, Disp(Filter(f)));
  }

  lemma DispMoves(c: Config, s: State, l: DispStep)
    requires Shape(c, s) && CanDisp(c, s, l) && (l.AckDup? || l.Submit? || l.Barrier?)
    ensures CanMove(c, s)
  {
    assert IsBatchStep(Disp(l)) && Enabled(c, s, Disp(l));
  }

  lemma TakeMoves(c: Config, s: State, w: nat)
    requires Shape(c, s) && w < |s.workers| && s.workers[w].Free? && s.pool != []
    ensures CanMove(c, s)
  {
    assert IsBatchStep(Work(w, Take)) && Enabled(c, s, Work(w, Take));
  }

  /** With every delivery of the batch filtered, submitted or waiting for a full pool, some worker is the key. */
  lemma MoveOrDeadlock(c: Config, s: State)
    requires WellFormed(c) && Control(c, s) && Staffed(c, s) && s.disp.Working? && !Deadlocked(c, s)
    requires s.disp.todo == [] && s.disp.dups == [] && (s.disp.kept != [] ==> |s.pool| >= c.poolSize)
    requires !CanDisp(c, s, Barrier)
    ensures CanMove(c, s)
  {
    hide SafeLog, Busy, CanMove;
    if w :| 0 <= w < |s.workers| && Unblocked(s, s.workers[w]) {
      WorkerMoves(c, s, w);
    } else if w :| 0 <= w < |s.workers| && s.workers[w].Free? && s.pool != [] {
      TakeMoves(c, s, w);
    } else {
      SomeoneBusy(c, s);
      assert false;
    }
  }

  /** An unfinished batch with nothing free to take from the pool has a busy worker. */
  lemma SomeoneBusy(c: Config, s: State)
    requires WellFormed(c) && Control(c, s) && Staffed(c, s) && s.disp.Working?
    requires s.disp.kept != [] ==> |s.pool| >= c.poolSize
    requires s.disp.kept == [] ==> s.wg != 0
    requires forall w :: 0 <= w < |s.workers| && s.workers[w].Free? ==> s.pool == []
    ensures exists w :: 0 <= w < |s.workers| && IsBusy(s.workers[w])
  {
    if s.pool == [] {
      if forall w :: 0 <= w < |s.workers| ==> !IsBusy(s.workers[w]) {
        NoneBusy(s.workers);
        assert false;
      }
    } else {
      assert WorkerOk(c, s.disp, s.workers[0]);
    }
  }

  lemma DeadlockBlocks(c: Config, s: State, l: Label)
    requires Control(c, s) && Deadlocked(c, s) && IsBatchStep(l)
    ensures !Enabled(c, s, l)
  {
    hide SafeLog, Busy;
    var i :| 0 <= i < |s.workers| && Reinserting(s.workers[i]);
    BusyMeansServing(c, s, i);
  }

  /** In every reachable state with an unfinished batch, either some step of that batch is enabled or the
      pipeline is deadlocked on its own ring; there is no third case and no overlap. */
  lemma BatchProgressExact(c: Config, now: int, ls: seq<Label>, s: State)
    requires WellFormed(c) && Run(c, Initial(c, now), ls, s) && s.disp.Working?
    ensures CanMove(c, s) <==> !Deadlocked(c, s)
  {
    hide Run, CanMove, Deadlocked, Staffed, Initial;
    StartStaffed(c, now);
    StaffedRun(c, Initial(c, now), ls, s);
    if Deadlocked(c, s) {
      DeadlockStops(c, s);
    } else {
      NoDeadlockMoves(c, s);
    }
  }

  lemma StartStaffed(c: Config, now: int)
    requires WellFormed(c)
    ensures Control(c, Initial(c, now)) && Staffed(c, Initial(c, now))
  {
    ControlInitial(c, now);
  }

  lemma DeadlockStops(c: Config, s: State)
    requires Control(c, s) && Deadlocked(c, s)
    ensures !CanMove(c, s)
  {
    hide Control, Deadlocked;
    forall l | IsBatchStep(l)
      ensures !Enabled(c, s, l)
    {
      DeadlockBlocks(c, s, l);
    }
  }

  lemma NoDeadlockMoves(c: Config, s: State)
    requires WellFormed(c) && Control(c, s) && Staffed(c, s) && s.disp.Working? && !Deadlocked(c, s)
    ensures CanMove(c, s)
  {
    hide Deadlocked, CanMove, Staffed, SafeLog, Busy;
    if s.disp.todo != [] {
      FilterMoves(c, s);
    } else if s.disp.dups != [] {
      DispMoves(c, s, AckDup);
    } else if CanDisp(c, s, Submit) {
      DispMoves(c, s, Submit);
    } else if CanDisp(c, s, Barrier) {
      DispMoves(c, s, Barrier);
    } else {
      MoveOrDeadlock(c, s);
    }
  }
}
