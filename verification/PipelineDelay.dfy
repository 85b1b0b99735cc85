/** A delayed message: no handler runs it before its time, and the first tick that finds it due releases it. */
module PipelineDelay {
  import opened Retry
  import opened RingSpec
  import opened TimerWheel
  import opened Pipeline
  import opened PipelineControl
  import opened PipelineFlow
  import opened PipelineConservation
  import opened PipelineBudget
  import opened PipelineEvents

  /** Places from which a delivery may yet reach a handler without passing the wheel. */
  predicate IsLoose(p: Place) {
    !p.InWheel? && !p.InDrain? && !p.Nacked? && !p.Spent? && !p.Left? && !p.Decision?
  }

  function Loose(u: nat): (f: Valuation) {
    (t: Token) => if t.d.uid == u && IsLoose(t.place) then 1 else 0
  }

  /** On its way from the transport to the wheel. */
  function Incoming(u: nat): (f: Valuation) {
    (t: Token) => if t.d.uid == u && (t.place.InQueue? || t.place.WithPoller?) then 1 else 0
  }

  /** Delivery u was filed for `target`: its slot says so, it is nowhere else until then, and it never comes in again.
      */
  ghost predicate Awaits(s: State, u: nat, target: int) {
    && u < s.next
    && (forall x :: x in s.wheel && x.item.uid == u ==> x.target == target)
    && (s.now < target ==> Total(Loose(u), s) <= 0)
    && Total(Incoming(u), s) <= 0
  }

  // ----- gains

  lemma {:induction false} MovedDown(f: Valuation, p: Place, q: Place, ds: seq<Delivery>)
    requires forall i :: 0 <= i < |ds| ==> At(f, q, ds[i]) <= At(f, p, ds[i])
    ensures Moved(f, p, q, ds) <= 0
  {
    if ds != [] {
      MovedDown(f, p, q, ds[1..]);
    }
  }

  lemma IncomingOutside(c: Config, s: State, l: Label, u: nat)
    requires Enabled(c, s, l) && !l.Work? && u < s.next
    ensures Gain(Incoming(u), c, s, l) <= 0
  {
    hide Worth, Offer, CanTick, CanMain;
    var f := Incoming(u);
    match l
    case Env(_) =>
    case Poll(p) =>
      if p.Receive? {
        MovedDown(f, InQueue, WithPoller, s.queue[..p.n]);
      }
    case Tick(x) => IncomingTick(s, x, u);
    case Timer(r) =>
      if r.TimerReceive? {
        MovedDown(f, InChannel, WithTimer, s.channel[0]);
      }
    case Disp(x) =>
      if x.Dequeue? {
        MovedDown(f, InRing, Unfiltered, TakeBatch(s.ring, if s.disp.draining then 100 else 10).1);
      }
    case Evict(_) =>
    case Main =>
      if s.phase.RingClosed? {
        MovedDown(f, InWheel, InDrain, Items(s.wheel));
      }
  }

  lemma IncomingTick(s: State, l: TickStep, u: nat)
    ensures TickGain(Incoming(u), s, l) <= 0
  {
    hide Worth;
    var f := Incoming(u);
    match l
    case Expire(_, out, _) => MovedDown(f, InWheel, WithTicker, Items(out));
    case SendBatch => MovedDown(f, WithTicker, InChannel, s.tickHeld);
    case TickExit => MovedDown(f, WithTicker, Left, s.tickHeld);
  }

  lemma IncomingWork(c: Config, s: State, w: nat, l: WorkStep, u: nat)
    requires Bounded(s.ring) && w < |s.workers| && CanWork(c, s, w, l) && u < s.next
    ensures WorkGain(Incoming(u), c, s, w, l) <= 0
  {
    hide Handle, Offer;
  }

  lemma LoosePoll(s: State, l: PollStep, u: nat)
    requires Bounded(s.ring) && CanPoll(s, l)
    ensures PollGain(Loose(u), s, l) <= 0
  {
    hide Worth, Offer;
    if l.Receive? {
      MovedDown(Loose(u), InQueue, WithPoller, s.queue[..l.n]);
    }
  }

  lemma LooseMain(s: State, u: nat)
    requires Bounded(s.ring) && (s.phase.Draining? ==> s.ring.closed)
    ensures MainGain(Loose(u), s) <= 0
  {
    hide Worth;
    if s.phase.RingClosed? {
      MovedDown(Loose(u), InWheel, InDrain, Items(s.wheel));
    }
  }

  lemma LooseDisp(c: Config, s: State, l: DispStep, u: nat)
    requires Bounded(s.ring) && CanDisp(c, s, l)
    ensures DispGain(Loose(u), c, s, l) <= 0
  {
    hide Worth, Offer;
    if l.Dequeue? {
      MovedDown(Loose(u), InRing, Unfiltered, TakeBatch(s.ring, if s.disp.draining then 100 else 10).1);
    }
  }

  lemma LooseOutside(c: Config, s: State, l: Label, u: nat)
    requires Enabled(c, s, l) && !l.Work? && u < s.next && (s.phase.Draining? ==> s.ring.closed)
    requires l.Tick? && l.t.Expire? ==> forall x :: x in l.t.out ==> x.item.uid != u
    ensures Gain(Loose(u), c, s, l) <= 0
  {
    hide Worth, Offer, CanTick, CanMain, PollGain, DispGain, MainGain;
    match l
    case Env(_) =>
    case Poll(p) => LoosePoll(s, p, u);
    case Tick(x) => LooseTick(s, x, u);
    case Timer(r) =>
      if r.TimerReceive? {
        MovedDown(Loose(u), InChannel, WithTimer, s.channel[0]);
      }
    case Disp(x) => LooseDisp(c, s, x, u);
    case Evict(_) =>
    case Main => LooseMain(s, u);
  }

  lemma LooseTick(s: State, l: TickStep, u: nat)
    requires l.Expire? ==> forall x :: x in l.out ==> x.item.uid != u
    ensures TickGain(Loose(u), s, l) <= 0
  {
    hide Worth;
    var f := Loose(u);
    match l
    case Expire(_, out, _) =>
      assert forall i :: 0 <= i < |out| ==> out[i] in out;
      MovedDown(f, InWheel, WithTicker, Items(out));
    case SendBatch => MovedDown(f, WithTicker, InChannel, s.tickHeld);
    case TickExit => MovedDown(f, WithTicker, Left, s.tickHeld);
  }

  lemma LooseWork(c: Config, s: State, w: nat, l: WorkStep, u: nat)
    requires Bounded(s.ring) && w < |s.workers| && CanWork(c, s, w, l) && u < s.next
    ensures WorkGain(Loose(u), c, s, w, l) <= 0
  {
    hide Handle, Offer;
  }

  lemma IncomingDown(c: Config, s: State, l: Label, t: State, u: nat)
    requires Enabled(c, s, l) && t == Apply(c, s, l) && u < s.next
    ensures Total(Incoming(u), t) <= Total(Incoming(u), s)
  {
    hide Total, WorkGain, Apply, CanWork, CanMain, CanTick, CanPoll, CanTimer, CanDisp;
    Flow(Incoming(u), c, s, l, t);
    if l.Work? {
      IncomingWork(c, s, l.w, l.k, u);
    } else {
      IncomingOutside(c, s, l, u);
    }
  }

  lemma LooseDown(c: Config, s: State, l: Label, t: State, u: nat)
    requires Enabled(c, s, l) && t == Apply(c, s, l) && u < s.next && (s.phase.Draining? ==> s.ring.closed)
    requires l.Tick? && l.t.Expire? ==> forall x :: x in l.t.out ==> x.item.uid != u
    ensures Total(Loose(u), t) <= Total(Loose(u), s)
  {
    hide Total, WorkGain, Apply, CanWork, CanMain, CanTick, CanPoll, CanTimer, CanDisp;
    Flow(Loose(u), c, s, l, t);
    if l.Work? {
      LooseWork(c, s, l.w, l.k, u);
    } else {
      LooseOutside(c, s, l, u);
    }
  }

  // ----- the wheel

  /** A slot of u that leaves before its target would contradict expire. */
  lemma NotReleased(s: State, l: TickStep, u: nat, target: int)
    requires CanTick(s, l) && l.Expire? && s.now < target
    requires forall x :: x in s.wheel && x.item.uid == u ==> x.target == target
    ensures forall x :: x in l.out ==> x.item.uid != u
  {
    forall x | x in l.out
      ensures x.item.uid != u
    {
      assert x in multiset(l.rest) + multiset(l.out);
      assert x in s.wheel;
    }
  }

  /** What the poller holds first is not u any more. */
  lemma HeldIsOther(s: State, u: nat)
    requires Total(Incoming(u), s) <= 0 && s.pollHeld != []
    ensures s.pollHeld[0].uid != u
  {
    hide Worth, PoolWorth, LogWorth, DispWorth, DrainWorth, Flat;
    var g := Incoming(u);
    assert Counts(g, g);
    WorthHead(g, WithPoller, s.pollHeld);
    WorthZero(g, g, WithPoller, s.pollHeld[1..]);
    WorthZero(g, g, InQueue, s.queue);
    WorthZero(g, g, InWheel, Items(s.wheel));
    WorthZero(g, g, WithTicker, s.tickHeld);
    WorthZero(g, g, InChannel, Flat(s.channel));
    WorthZero(g, g, WithTimer, s.timerHeld);
    DispZero(g, g, s.disp, s.phase);
    WorthZero(g, g, InRing, s.ring.contents);
    WorthZero(g, g, InPool, s.pool);
    PoolZero(g, g, s.workers);
    LogZero(g, g, s.log);
  }

  /** The clock stands and the wheel is left alone. */
  predicate SameFiles(s: State, t: State) {
    t.wheel == s.wheel && t.now == s.now
  }

  lemma FilesDequeue(s: State)
    requires Bounded(s.ring) && s.disp.Idle?
    ensures SameFiles(s, DoDequeue(s))
  {
    hide TakeBatch;
  }

  lemma FilesBatch(c: Config, s: State, f: FilterStep)
    requires CanDisp(c, s, Filter(f))
    ensures SameFiles(s, DoFilter(c, s, f))
  {
    hide NextProbe;
  }

  lemma FilesAckDup(s: State)
    requires s.disp.Working? && s.disp.dups != []
    ensures SameFiles(s, DoAckDup(s))
  {
  }

  lemma FilesSubmit(s: State)
    requires s.disp.Working? && s.disp.kept != []
    ensures SameFiles(s, DoSubmit(s))
  {
  }

  lemma FilesTurn(s: State, t: State)
    requires t.wheel == s.wheel && t.now == s.now
    ensures SameFiles(s, t)
  {
  }

  lemma FilesDisp(c: Config, s: State, l: DispStep, t: State)
    requires Bounded(s.ring) && CanDisp(c, s, l) && t == DoDisp(c, s, l)
    ensures SameFiles(s, t)
  {
    hide SameFiles, DoDequeue, DoFilter, DoAckDup, DoSubmit;
    match l
    case StartDrain => FilesTurn(s, t);
    case Look => FilesTurn(s, t);
    case Resume => FilesTurn(s, t);
    case DispExit => FilesTurn(s, t);
    case Dequeue => FilesDequeue(s);
    case Filter(f) => FilesBatch(c, s, f);
    case AckDup => FilesAckDup(s);
    case Submit => FilesSubmit(s);
    case Barrier => FilesTurn(s, t);
  }

  lemma FilesAck(c: Config, s: State, w: nat, d: Delivery)
    requires w < |s.workers|
    ensures SameFiles(s, SettleAck(c, s, w, d))
  {
  }

  lemma FilesRetry(s: State, w: nat, d: Delivery)
    requires Bounded(s.ring) && w < |s.workers|
    ensures SameFiles(s, SettleRetry(s, w, d))
  {
    hide Offer;
  }

  lemma FilesNack(s: State, w: nat, d: Delivery, delay: int, requeue: bool)
    requires w < |s.workers|
    ensures SameFiles(s, SettleNack(s, w, d, delay, requeue))
  {
  }

  lemma FilesDlq(s: State, w: nat, d: Delivery, ok: bool)
    requires w < |s.workers|
    ensures SameFiles(s, SettleDlq(s, w, d, ok)) && SameFiles(s, SettleNothing(s, w, d))
    ensures SameFiles(s, DoAckDead(s, w, d))
  {
  }

  lemma FilesSettle(c: Config, s: State, w: nat, ok: bool, requeue: bool, t: State)
    requires Bounded(s.ring) && w < |s.workers| && CanWork(c, s, w, Settle(ok, requeue))
    requires t == DoSettle(c, s, w, ok, requeue)
    ensures SameFiles(s, t)
  {
    hide SameFiles, Offer, SettleAck, SettleRetry, SettleNack, SettleDlq, SettleNothing;
    var k := s.workers[w];
    FilesDlq(s, w, k.d, ok);
    match k.action
    case Ack => FilesAck(c, s, w, k.d);
    case Retry => FilesRetry(s, w, k.d);
    case RetryWithDelay => FilesNack(s, w, k.d, k.delay, requeue);
    case DLQ =>
    case Unknown(_) =>
  }

  lemma FilesTake(c: Config, s: State, w: nat)
    requires w < |s.workers| && s.pool != []
    ensures SameFiles(s, DoTake(c, s, w))
  {
  }

  lemma FilesDecide(c: Config, s: State, w: nat, d: Delivery, result: Result)
    requires w < |s.workers| && d.msg.topic in c.handlers
    ensures SameFiles(s, DoDecide(c, s, w, d, result))
  {
    hide Handle;
  }

  lemma FilesMark(c: Config, s: State, w: nat, m: Message, marked: bool)
    requires w < |s.workers|
    ensures SameFiles(s, DoMark(c, s, w, m, marked))
  {
  }

  lemma FilesWork(c: Config, s: State, w: nat, l: WorkStep, t: State)
    requires Bounded(s.ring) && w < |s.workers| && CanWork(c, s, w, l) && t == DoWork(c, s, w, l)
    ensures SameFiles(s, t)
  {
    hide SameFiles, Offer, Handle, DoTake, DoDecide, DoSettle, DoAckDead, DoMark;
    match l
    case Take => FilesTake(c, s, w);
    case Decide(result) => FilesDecide(c, s, w, s.workers[w].d, result);
    case Settle(ok, requeue) => FilesSettle(c, s, w, ok, requeue, t);
    case AckDead => FilesDlq(s, w, s.workers[w].d, true);
    case Mark(marked) => FilesMark(c, s, w, s.workers[w].m, marked);
    case WorkExit => FilesTurn(s, t);
  }

  lemma FilesEnv(s: State, l: EnvStep, t: State)
    requires t == DoEnv(s, l)
    ensures t.wheel == s.wheel && t.now == s.now + if l.Pass? then l.dt else 0
  {
    match l
    case Publish(m) => assert t == DoPublish(s, m);
    case Cancel =>
    case Pass(_) =>
  }

  lemma FilesTick(s: State, l: TickStep, t: State)
    requires t == DoTick(s, l) && CanTick(s, l)
    ensures t.now == s.now && forall x :: x in t.wheel ==> x in s.wheel
  {
    hide Dropped;
    if l.Expire? {
      assert forall x :: x in l.rest ==> x in multiset(l.rest) + multiset(l.out);
    } else if l.SendBatch? {
    } else {
    }
  }

  lemma FilesTimer(s: State, l: TimerStep, t: State)
    requires Bounded(s.ring) && CanTimer(s, l) && t == DoTimer(s, l)
    ensures SameFiles(s, t)
  {
    hide SameFiles, Offer, EnqueueLog;
    match l
    case TimerReceive => FilesTurn(s, t);
    case TimerEnqueue => FilesTurn(s, t);
    case TimerExit => FilesTurn(s, t);
  }

  lemma FilesPoll(s: State, l: PollStep, t: State)
    requires Bounded(s.ring) && CanPoll(s, l) && t == DoPoll(s, l) && !l.Deliver?
    ensures SameFiles(s, t)
  {
    hide SameFiles, Offer, DoDeliver;
    match l
    case Receive(_) => FilesTurn(s, t);
    case PollExit(_) => FilesTurn(s, t);
  }

  lemma FilesEvict(s: State, l: EvictStep, t: State)
    requires CanEvict(s, l) && t == DoEvict(s, l)
    ensures SameFiles(s, t)
  {
    hide SameFiles;
    match l
    case ReadClock => FilesTurn(s, t);
    case Sweep => FilesTurn(s, t);
  }

  lemma FilesStop(s: State)
    ensures SameFiles(s, DoStop(s)) && SameFiles(s, DoFinish(s))
    ensures DoDrainWheel(s).now == s.now && DoDrainWheel(s).wheel == []
  {
  }

  lemma FilesDrain(s: State)
    requires Bounded(s.ring) && s.phase.Draining? && s.phase.rest != []
    ensures SameFiles(s, DoDrain(s))
  {
    hide Offer, EnqueueLog;
  }

  lemma FilesMain(s: State, t: State)
    requires Bounded(s.ring) && CanMain(s) && t == DoMain(s)
    ensures t.now == s.now && forall x :: x in t.wheel ==> x in s.wheel
  {
    hide DoStop, DoDrainWheel, DoFinish, DoDrain, Offer;
    FilesStop(s);
    if s.phase.Draining? && s.phase.rest != [] {
      FilesDrain(s);
    }
  }

  /** Time moves only when it passes, and only a delivery adds to the wheel. */
  lemma FilesStep(c: Config, s: State, l: Label, t: State)
    requires Enabled(c, s, l) && t == Apply(c, s, l) && l != Poll(Deliver)
    ensures t.now == s.now + if l.Env? && l.e.Pass? then l.e.dt else 0
    ensures forall x :: x in t.wheel ==> x in s.wheel
  {
    hide DoEnv, DoPoll, DoTick, DoTimer, DoDisp, DoWork, DoEvict, DoMain;
    hide CanPoll, CanTick, CanTimer, CanDisp, CanWork, CanMain;
    match l
    case Env(e) => FilesEnv(s, e, t);
    case Poll(p) => FilesPoll(s, p, t);
    case Tick(x) => FilesTick(s, x, t);
    case Timer(r) => FilesTimer(s, r, t);
    case Disp(x) => FilesDisp(c, s, x, t);
    case Work(w, k) => FilesWork(c, s, w, k, t);
    case Evict(v) => FilesEvict(s, v, t);
    case Main => FilesMain(s, t);
  }

  /** A delivery files its message under the instant it may run. */
  lemma FilesDeliver(s: State)
    requires Bounded(s.ring) && CanPoll(s, Deliver)
    ensures var d := s.pollHeld[0]; var t := DoDeliver(s);
      t.now == s.now && forall x :: x in t.wheel ==> x in s.wheel || x == Slot(s.now + d.msg.notBefore, d)
  {
    hide Offer, EnqueueLog;
  }

  // ----- every step

  lemma AwaitsWheel(c: Config, s: State, l: Label, t: State, u: nat, target: int)
    requires Awaits(s, u, target) && Enabled(c, s, l) && t == Apply(c, s, l)
    ensures t.now >= s.now && forall x :: x in t.wheel && x.item.uid == u ==> x.target == target
  {
    hide Total, CanTick, CanMain, CanDisp, CanWork, CanTimer;
    if l == Poll(Deliver) {
      HeldIsOther(s, u);
      FilesDeliver(s);
    } else {
      FilesStep(c, s, l, t);
    }
  }

  lemma AwaitsStep(c: Config, s: State, l: Label, t: State, u: nat, target: int)
    requires Control(c, s) && Awaits(s, u, target) && Enabled(c, s, l) && t == Apply(c, s, l)
    ensures Awaits(t, u, target)
  {
    hide Total, Apply, Busy, SafeLog, CanPoll, CanTimer, CanDisp, CanWork, CanMain;
    AwaitsWheel(c, s, l, t, u, target);
    Flow(Incoming(u), c, s, l, t);
    IncomingDown(c, s, l, t, u);
    if t.now < target {
      if l.Tick? && l.t.Expire? {
        NotReleased(s, l.t, u, target);
      }
      LooseDown(c, s, l, t, u);
    }
  }

  /** A handler that starts on u starts when its time has come. */
  lemma StartsInTime(c: Config, s: State, w: nat, u: nat, target: int)
    requires Awaits(s, u, target) && Bounded(s.ring) && w < |s.workers| && CanWork(c, s, w, Take)
    ensures s.pool[0].uid == u ==> s.now >= target
  {
    hide Worth, PoolWorth, LogWorth, DispWorth, DrainWorth, Flat;
    var g := Loose(u);
    assert Counts(g, g);
    IntakeZero(g, g, s);
    WorthHead(g, InPool, s.pool);
    WorthZero(g, g, InPool, s.pool[1..]);
    DispZero(g, g, s.disp, s.phase);
    WorthZero(g, g, InRing, s.ring.contents);
    PoolZero(g, g, s.workers);
    LogZero(g, g, s.log);
  }

  ghost predicate NoEarlyStart(log: seq<Event>, n: nat, u: nat, target: int) {
    forall i :: n <= i < |log| && log[i].Started? && log[i].d.uid == u ==> log[i].at >= target
  }

  lemma OnlyTakeStarts(c: Config, s: State, l: Label)
    requires Enabled(c, s, l)
    ensures forall i :: 0 <= i < |Logs(c, s, l)| && Logs(c, s, l)[i].Started? ==>
      l.Work? && l.k.Take? && Logs(c, s, l)[i].d == s.pool[0] && Logs(c, s, l)[i].at == s.now
  {
    hide Offer, Handle, CanTick, CanMain;
  }

  lemma StartStep(c: Config, s: State, l: Label, t: State, n: nat, u: nat, target: int)
    requires Awaits(s, u, target) && NoEarlyStart(s.log, n, u, target) && Enabled(c, s, l) && t == Apply(c, s, l)
    ensures NoEarlyStart(t.log, n, u, target)
  {
    hide Awaits, Apply, Logs, CanPoll, CanTimer, CanDisp, CanMain, CanTick;
    StepAdds(c, s, l, t);
    OnlyTakeStarts(c, s, l);
    if l.Work? && l.k.Take? {
      StartsInTime(c, s, l.w, u, target);
    }
  }

  lemma {:induction false} AwaitsRun(c: Config, s: State, ls: seq<Label>, t: State, n: nat, u: nat, target: int)
    requires Control(c, s) && Awaits(s, u, target) && NoEarlyStart(s.log, n, u, target) && Run(c, s, ls, t)
    ensures Awaits(t, u, target) && NoEarlyStart(t.log, n, u, target)
    decreases |ls|
  {
    hide Control, Awaits, NoEarlyStart;
    if ls != [] {
      var s' := Apply(c, s, ls[0]);
      ControlStep(c, s, ls[0], s');
      AwaitsStep(c, s, ls[0], s', u, target);
      StartStep(c, s, ls[0], s', n, u, target);
      AwaitsRun(c, s', ls[1..], t, n, u, target);
    }
  }

  // ----- from the moment it is filed

  /** Without its new slot the delivery occurs nowhere. */
  lemma OnlyInWheel(f: Valuation, s: State, slot: Slot<Delivery>, t: State)
    requires t == s.(wheel := s.wheel + [slot])
    ensures Total(f, t) == Total(f, s) + At(f, InWheel, slot.item)
  {
    hide Worth, PoolWorth, LogWorth, DispWorth, DrainWorth, Flat;
    assert Items(t.wheel) == Items(s.wheel) + [slot.item];
    WorthAdd(f, InWheel, Items(s.wheel), slot.item);
  }

  lemma NowhereElse(u: nat, s: State)
    requires Total(UidIs(u), s) == 0
    ensures Total(Loose(u), s) == 0 && Total(Incoming(u), s) == 0
  {
    hide Total;
    assert Counts(UidIs(u), Loose(u)) && Counts(UidIs(u), Incoming(u));
    TotalIsZero(UidIs(u), Loose(u), s);
    TotalIsZero(UidIs(u), Incoming(u), s);
  }

  lemma TotalIsZero(g: Valuation, f: Valuation, s: State)
    requires Counts(g, f) && Total(g, s) == 0
    ensures Total(f, s) == 0
  {
    hide Counts, Worth, PoolWorth, LogWorth, DispWorth, DrainWorth;
    IntakeZero(g, f, s);
    DispZero(g, f, s.disp, s.phase);
    WorthZero(g, f, InRing, s.ring.contents);
    WorthZero(g, f, InPool, s.pool);
    PoolZero(g, f, s.workers);
    LogZero(g, f, s.log);
  }

  /** No slot of u is in a wheel that counts none. */
  lemma NoSlot(u: nat, wheel: seq<Slot<Delivery>>)
    requires Worth(UidIs(u), InWheel, Items(wheel)) == 0
    ensures forall x :: x in wheel ==> x.item.uid != u
  {
    forall i | 0 <= i < |wheel|
      ensures wheel[i].item.uid != u
    {
      HoldsNone(u, Items(wheel), i);
    }
  }

  lemma {:induction false} HoldsNone(u: nat, ds: seq<Delivery>, i: nat)
    requires Worth(UidIs(u), InWheel, ds) == 0 && i < |ds|
    ensures ds[i].uid != u
  {
    WorthCounts(u, InWheel, ds[1..]);
    if i > 0 {
      HoldsNone(u, ds[1..], i - 1);
    }
  }

  lemma FiledNow(c: Config, s: State, t: State)
    requires Control(c, s) && Conserved(s) && CanPoll(s, Deliver) && s.pollHeld[0].msg.notBefore > 0
    requires t == DoDeliver(s)
    requires Conserved(t) && s.pollHeld[0].uid < t.next
    ensures var d := s.pollHeld[0]; var target := s.now + d.msg.notBefore;
      Slot(target, d) in t.wheel && Awaits(t, d.uid, target)
  {
    hide Conserved, Total, Busy, SafeLog, Offer, EnqueueLog;
    var d := s.pollHeld[0];
    var slot := Slot(s.now + d.msg.notBefore, d);
    assert s.wheelOpen;
    var before := t.(wheel := s.wheel);
    assert t == before.(wheel := before.wheel + [slot]);
    OnlyInWheel(UidIs(d.uid), before, slot, t);
    OnlyInWheel(Loose(d.uid), before, slot, t);
    OnlyInWheel(Incoming(d.uid), before, slot, t);
    OneOccurrence(t, d.uid);
    NowhereElse(d.uid, before);
    WheelCountsNone(d.uid, before);
    NoSlot(d.uid, before.wheel);
  }

  lemma OneOccurrence(t: State, u: nat)
    requires Conserved(t) && u < t.next
    ensures Total(UidIs(u), t) == 1
  {
    hide Total;
    assert Occurrences(t, u) == 1;
  }

  lemma WheelCountsNone(u: nat, s: State)
    requires Total(UidIs(u), s) == 0
    ensures Worth(UidIs(u), InWheel, Items(s.wheel)) == 0
  {
    hide Worth, PoolWorth, LogWorth, DispWorth, DrainWorth, Flat;
    var g := UidIs(u);
    assert Counts(g, g);
    WorthZero(g, g, InQueue, s.queue);
    WorthZero(g, g, WithPoller, s.pollHeld);
    WorthZero(g, g, InWheel, Items(s.wheel));
    WorthZero(g, g, WithTicker, s.tickHeld);
    WorthZero(g, g, InChannel, Flat(s.channel));
    WorthZero(g, g, WithTimer, s.timerHeld);
    DispZero(g, g, s.disp, s.phase);
    WorthZero(g, g, InRing, s.ring.contents);
    WorthZero(g, g, InPool, s.pool);
    PoolZero(g, g, s.workers);
    LogZero(g, g, s.log);
  }

  lemma HeldIsIssued(s: State)
    requires Conserved(s) && s.pollHeld != []
    ensures s.pollHeld[0].uid < s.next
  {
    hide Worth, PoolWorth, LogWorth, DispWorth, DrainWorth, Flat;
    var u := s.pollHeld[0].uid;
    var g := UidIs(u);
    assert Counts(g, g);
    WorthHead(g, WithPoller, s.pollHeld);
    WorthZero(g, g, WithPoller, s.pollHeld[1..]);
    WorthZero(g, g, InQueue, s.queue);
    WorthZero(g, g, InWheel, Items(s.wheel));
    WorthZero(g, g, WithTicker, s.tickHeld);
    WorthZero(g, g, InChannel, Flat(s.channel));
    WorthZero(g, g, WithTimer, s.timerHeld);
    DispZero(g, g, s.disp, s.phase);
    WorthZero(g, g, InRing, s.ring.contents);
    WorthZero(g, g, InPool, s.pool);
    PoolZero(g, g, s.workers);
    LogZero(g, g, s.log);
    assert Occurrences(s, u) >= 1;
  }

  lemma FiledFirst(c: Config, s: State, m: State)
    requires Control(c, s) && Conserved(s) && Enabled(c, s, Poll(Deliver)) && s.pollHeld[0].msg.notBefore > 0
    requires m == Apply(c, s, Poll(Deliver))
    ensures var d := s.pollHeld[0]; var target := s.now + d.msg.notBefore;
      && Control(c, m) && Slot(target, d) in m.wheel
      && Awaits(m, d.uid, target) && NoEarlyStart(m.log, |s.log|, d.uid, target)
  {
    hide Control, Conserved, Awaits, NoEarlyStart, DoDeliver, Apply, Total, Gain;
    ControlStep(c, s, Poll(Deliver), m);
    ConservedStep(c, s, Poll(Deliver), m);
    HeldIsIssued(s);
    Flow(UidIs(0), c, s, Poll(Deliver), m);
    DeliverIsStep(c, s);
    FiledNow(c, s, m);
    NoStartOnDeliver(c, s, m, s.pollHeld[0].uid, s.now + s.pollHeld[0].msg.notBefore);
  }

  lemma FiledRun(c: Config, now: int, ls: seq<Label>, s: State, rest: seq<Label>, t: State)
    requires WellFormed(c) && Run(c, Initial(c, now), ls, s)
    requires Enabled(c, s, Poll(Deliver)) && s.pollHeld[0].msg.notBefore > 0
    requires Run(c, Apply(c, s, Poll(Deliver)), rest, t)
    ensures var d := s.pollHeld[0]; var target := s.now + d.msg.notBefore;
      && Slot(target, d) in Apply(c, s, Poll(Deliver)).wheel
      && Awaits(t, d.uid, target) && NoEarlyStart(t.log, |s.log|, d.uid, target)
  {
    hide Run, Initial, Control, Conserved, Awaits, NoEarlyStart, DoDeliver, Apply;
    var m := Apply(c, s, Poll(Deliver));
    ControlInitial(c, now);
    ControlRun(c, Initial(c, now), ls, s);
    ConservedInitial(c, now);
    Conservation(c, Initial(c, now), ls, s);
    FiledFirst(c, s, m);
    AwaitsRun(c, m, rest, t, |s.log|, s.pollHeld[0].uid, s.now + s.pollHeld[0].msg.notBefore);
  }

  lemma DeliverIsStep(c: Config, s: State)
    requires Enabled(c, s, Poll(Deliver))
    ensures Apply(c, s, Poll(Deliver)) == DoDeliver(s)
  {
    hide DoDeliver, Offer;
  }

  lemma NoStartOnDeliver(c: Config, s: State, m: State, u: nat, target: int)
    requires Enabled(c, s, Poll(Deliver)) && m == Apply(c, s, Poll(Deliver))
    ensures NoEarlyStart(m.log, |s.log|, u, target)
  {
    hide Apply, Logs;
    StepAdds(c, s, Poll(Deliver), m);
    OnlyTakeStarts(c, s, Poll(Deliver));
  }

  /** Never early: once the poller hands over a delayed message, no handler starts on it before its delay has passed,
      whatever happens in between. */
  lemma NeverEarly(c: Config, now: int, ls: seq<Label>, s: State, rest: seq<Label>, t: State, i: nat)
    requires WellFormed(c) && Run(c, Initial(c, now), ls, s)
    requires Enabled(c, s, Poll(Deliver)) && s.pollHeld[0].msg.notBefore > 0
    requires Run(c, Apply(c, s, Poll(Deliver)), rest, t)
    requires |s.log| <= i < |t.log| && t.log[i].Started? && t.log[i].d.uid == s.pollHeld[0].uid
    ensures t.log[i].at >= s.now + s.pollHeld[0].msg.notBefore
  {
    hide Run, Initial, Awaits, Apply;
    FiledRun(c, now, ls, s, rest, t);
  }

  /** Nor late: it is filed under exactly that instant, and of every later tick a slot of it that is still in the wheel
      leaves if and only if the instant is past and not in a second after the tick's. */
  lemma ReleasedWhenDue(c: Config, now: int, ls: seq<Label>, s: State, rest: seq<Label>, t: State, x: TickStep)
    requires WellFormed(c) && Run(c, Initial(c, now), ls, s)
    requires Enabled(c, s, Poll(Deliver)) && s.pollHeld[0].msg.notBefore > 0
    requires Run(c, Apply(c, s, Poll(Deliver)), rest, t)
    requires x.Expire? && Enabled(c, t, Tick(x))
    ensures var d := s.pollHeld[0]; var target := s.now + d.msg.notBefore;
      && Slot(target, d) in Apply(c, s, Poll(Deliver)).wheel
      && forall y :: y in t.wheel && y.item.uid == d.uid ==>
           y.target == target && (y in x.out <==> Unix(target) <= x.tick && target <= t.now)
           && (y in x.rest <==> !(Unix(target) <= x.tick && target <= t.now))
  {
    hide Run, Initial, Apply, Total, Unix;
    FiledRun(c, now, ls, s, rest, t);
    forall y | y in t.wheel
      ensures y in x.out <==> IsDue(y, x.tick, t.now)
      ensures y in x.rest <==> !IsDue(y, x.tick, t.now)
    {
      assert y in multiset(x.rest) + multiset(x.out);
      assert y in x.rest <==> y in multiset(x.rest);
    }
  }
}
