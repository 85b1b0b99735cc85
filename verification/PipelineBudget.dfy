/** How often a published message runs its handler, across ring retries and redeliveries. */
module PipelineBudget {
  import opened Retry
  import opened RingSpec
  import opened TimerWheel
  import opened Pipeline
  import opened PipelineFlow
  import opened PipelineConservation

  /** The delivery that now stands for origin o: nacked ones are replaced by their redelivery. */
  predicate Carries(t: Token, o: nat) {
    t.d.origin == o && !t.place.Nacked? && !t.place.Decision?
  }

  function OriginIs(o: nat): (f: Valuation) {
    (t: Token) => if Carries(t, o) then 1 else 0
  }

  /** Handler runs that a delivery's Attempts counter accounts for, counting a final decision already taken. */
  function Tries(c: Config, o: nat): (f: Valuation) {
    (t: Token) =>
      if !Carries(t, o) then 0
      else t.d.msg.attempts - t.d.born +
           if (t.place.Closing? || t.place.DeadLettered? || t.place.Spent?) && t.d.msg.topic in c.handlers then 1 else 0
  }

  function RanFor(o: nat): (f: Valuation) {
    (t: Token) => if t.place.Decision? && t.d.origin == o then 1 else 0
  }

  /** The handler runs of messages published as o. */
  function Runs(log: seq<Event>, o: nat): (n: int) {
    LogWorth(RanFor(o), log)
  }

  function Limit(c: Config, d: Delivery): (n: int) {
    if d.msg.topic in c.handlers && d.born <= c.handlers[d.msg.topic].maxRetries
    then c.handlers[d.msg.topic].maxRetries else d.born
  }

  /** Marks a delivery whose Attempts left its range. */
  function OutOfBudget(c: Config): (f: Valuation) {
    (t: Token) =>
      if t.place.Nacked? || t.place.Decision? || t.d.born <= t.d.msg.attempts <= Limit(c, t.d) then 0 else 1
  }

  ghost predicate Budget(c: Config, s: State) {
    && Total(OutOfBudget(c), s) <= 0
    && forall o: nat ::
      && Total(OriginIs(o), s) <= (if o < s.next then 1 else 0)
      && Total(Tries(c, o), s) == Total(RanFor(o), s)
  }

  // ----- gains

  /** f is the same at every place but the ones that end a decision or a delivery. */
  ghost predicate Stable(f: Valuation) {
    forall d: Delivery, p: Place, q: Place ::
      Carrying(p) && Carrying(q) ==> At(f, p, d) == At(f, q, d)
  }

  predicate Carrying(p: Place) {
    !p.Closing? && !p.DeadLettered? && !p.Spent? && !p.Nacked? && !p.Decision?
  }

  lemma {:induction false} StableMoved(f: Valuation, p: Place, q: Place, ds: seq<Delivery>)
    requires Stable(f) && Carrying(p) && Carrying(q)
    ensures Moved(f, p, q, ds) == 0
  {
    if ds != [] {
      StableMoved(f, p, q, ds[1..]);
      assert At(f, p, ds[0]) == At(f, q, ds[0]);
    }
  }

  /** Outside the workers nothing changes for a stable valuation, except that a publish adds its delivery. */
  lemma StableGain(f: Valuation, c: Config, s: State, l: Label)
    requires Enabled(c, s, l) && !l.Work? && Stable(f)
    ensures Gain(f, c, s, l) == if l.Env? then EnvGain(f, s, l.e) else 0
  {
    hide Worth, Stable, PollGain, TickGain, TimerGain, DispGain, MainGain;
    match l
    case Env(_) =>
    case Poll(p) => PollStable(f, s, p);
    case Tick(x) => TickStable(f, s, x);
    case Timer(r) => TimerStable(f, s, r);
    case Disp(x) => DispStable(f, c, s, x);
    case Evict(_) =>
    case Main => MainStable(f, s);
  }

  lemma SameAt(f: Valuation, p: Place, q: Place, d: Delivery)
    requires Stable(f) && Carrying(p) && Carrying(q)
    ensures At(f, p, d) == At(f, q, d)
  {
  }

  lemma PollStable(f: Valuation, s: State, l: PollStep)
    requires Bounded(s.ring) && CanPoll(s, l) && Stable(f)
    ensures PollGain(f, s, l) == 0
  {
    hide Worth, Stable, Offer;
    match l
    case Receive(n) => StableMoved(f, InQueue, WithPoller, s.queue[..n]);
    case Deliver =>
      SameAt(f, WithPoller, InRing, s.pollHeld[0]);
      SameAt(f, WithPoller, InWheel, s.pollHeld[0]);
      SameAt(f, WithPoller, Left, s.pollHeld[0]);
    case PollExit(_) =>
  }

  lemma TickStable(f: Valuation, s: State, l: TickStep)
    requires Stable(f)
    ensures TickGain(f, s, l) == 0
  {
    hide Worth, Stable;
    match l
    case Expire(_, out, _) => StableMoved(f, InWheel, WithTicker, Items(out));
    case SendBatch => StableMoved(f, WithTicker, InChannel, s.tickHeld);
    case TickExit => StableMoved(f, WithTicker, Left, s.tickHeld);
  }

  lemma TimerStable(f: Valuation, s: State, l: TimerStep)
    requires Bounded(s.ring) && CanTimer(s, l) && Stable(f)
    ensures TimerGain(f, s, l) == 0
  {
    hide Worth, Stable, Offer;
    match l
    case TimerReceive => StableMoved(f, InChannel, WithTimer, s.channel[0]);
    case TimerEnqueue =>
      SameAt(f, WithTimer, InRing, s.timerHeld[0]);
      SameAt(f, WithTimer, Left, s.timerHeld[0]);
    case TimerExit =>
  }

  lemma DispStable(f: Valuation, c: Config, s: State, l: DispStep)
    requires Bounded(s.ring) && CanDisp(c, s, l) && Stable(f)
    ensures DispGain(f, c, s, l) == 0
  {
    hide Worth, Stable;
    match l
    case Dequeue => StableMoved(f, InRing, Unfiltered, TakeBatch(s.ring, if s.disp.draining then 100 else 10).1);
    case Filter(x) => SameAt(f, Unfiltered, FilteredTo(c, s, x), s.disp.todo[0]);
    case AckDup => SameAt(f, Dup, Left, s.disp.dups[0]);
    case Submit => SameAt(f, Kept, InPool, s.disp.kept[0]);
    case _ =>
  }

  lemma MainStable(f: Valuation, s: State)
    requires Bounded(s.ring) && Stable(f)
    ensures MainGain(f, s) == 0
  {
    hide Worth, Stable, Offer;
    match s.phase
    case RingClosed => StableMoved(f, InWheel, InDrain, Items(s.wheel));
    case Draining(rest) =>
      if rest != [] {
        SameAt(f, InDrain, InRing, rest[0]);
        SameAt(f, InDrain, Left, rest[0]);
      }
    case _ =>
  }

  lemma WorkOrigin(c: Config, s: State, w: nat, l: WorkStep, o: nat)
    requires Bounded(s.ring) && w < |s.workers| && CanWork(c, s, w, l)
    ensures WorkGain(OriginIs(o), c, s, w, l) == 0
  {
    hide Handle, Offer;
  }

  lemma DecideTries(c: Config, o: nat, d: Delivery, result: Result)
    requires d.msg.topic in c.handlers
    ensures var r := Handle(c.handlers[d.msg.topic], c.overflow, d.msg, result); var d' := d.(msg := r.message);
      && At(Tries(c, o), SettlingPlace(r.action), d') == At(Tries(c, o), OnWorker, d) + At(RanFor(o), Decision, d)
      && At(OutOfBudget(c), SettlingPlace(r.action), d') <= At(OutOfBudget(c), OnWorker, d)
  {
    hide Handle;
    CoordinatorContract(c.handlers[d.msg.topic], c.overflow, d.msg, result);
  }

  lemma WorkTries(c: Config, s: State, w: nat, l: WorkStep, o: nat)
    requires Bounded(s.ring) && w < |s.workers| && CanWork(c, s, w, l)
    ensures WorkGain(Tries(c, o), c, s, w, l) == WorkGain(RanFor(o), c, s, w, l)
  {
    hide Handle, Offer, SettleGain;
    match l
    case Decide(result) => DecideTries(c, o, s.workers[w].d, result);
    case Settle(ok, requeue) => SettleTries(c, s, s.workers[w].d, s.workers[w].action, ok, requeue, o);
    case _ =>
  }

  lemma SettleTries(c: Config, s: State, d: Delivery, a: Action, ok: bool, requeue: bool, o: nat)
    requires Bounded(s.ring)
    ensures SettleGain(Tries(c, o), s, d, a, ok, requeue) == At(Tries(c, o), SettlingPlace(a), d)
    ensures SettleGain(RanFor(o), s, d, a, ok, requeue) == 0
  {
    hide Offer;
    match a
    case Ack =>
    case Retry =>
    case RetryWithDelay =>
    case DLQ =>
    case Unknown(_) =>
  }

  lemma WorkInBudget(c: Config, s: State, w: nat, l: WorkStep)
    requires Bounded(s.ring) && w < |s.workers| && CanWork(c, s, w, l)
    ensures WorkGain(OutOfBudget(c), c, s, w, l) <= 0
  {
    hide Handle, Offer;
    match l
    case Decide(result) => DecideTries(c, 0, s.workers[w].d, result);
    case _ =>
  }

  lemma OriginGain(c: Config, s: State, l: Label, o: nat)
    requires Enabled(c, s, l)
    ensures Gain(OriginIs(o), c, s, l) == if o == s.next && l.Env? then Issued(s, l) else 0
  {
    hide WorkGain;
    if l.Work? {
      WorkOrigin(c, s, l.w, l.k, o);
    } else {
      assert Stable(OriginIs(o));
      StableGain(OriginIs(o), c, s, l);
    }
  }

  lemma TriesGain(c: Config, s: State, l: Label, o: nat)
    requires Enabled(c, s, l)
    ensures Gain(Tries(c, o), c, s, l) == Gain(RanFor(o), c, s, l)
  {
    hide WorkGain;
    if l.Work? {
      WorkTries(c, s, l.w, l.k, o);
    } else {
      assert Stable(Tries(c, o)) && Stable(RanFor(o));
      StableGain(Tries(c, o), c, s, l);
      StableGain(RanFor(o), c, s, l);
    }
  }

  lemma BudgetGain(c: Config, s: State, l: Label)
    requires Enabled(c, s, l)
    ensures Gain(OutOfBudget(c), c, s, l) <= 0
  {
    hide WorkGain;
    if l.Work? {
      WorkInBudget(c, s, l.w, l.k);
    } else {
      assert Stable(OutOfBudget(c));
      StableGain(OutOfBudget(c), c, s, l);
    }
  }

  lemma BudgetStep(c: Config, s: State, l: Label, t: State)
    requires Budget(c, s) && Enabled(c, s, l) && t == Apply(c, s, l)
    ensures Budget(c, t)
  {
    hide Total, Gain, Enabled, Apply;
    Flow(OutOfBudget(c), c, s, l, t);
    BudgetGain(c, s, l);
    forall o: nat
      ensures Total(OriginIs(o), t) <= (if o < t.next then 1 else 0)
      ensures Total(Tries(c, o), t) == Total(RanFor(o), t)
    {
      Flow(OriginIs(o), c, s, l, t);
      OriginGain(c, s, l, o);
      Flow(Tries(c, o), c, s, l, t);
      Flow(RanFor(o), c, s, l, t);
      TriesGain(c, s, l, o);
    }
  }

  lemma BudgetInitial(c: Config, now: int)
    requires WellFormed(c)
    ensures Budget(c, Initial(c, now))
  {
    hide Total;
    NothingAtFirst(OutOfBudget(c), c, now);
    forall o: nat
      ensures Total(OriginIs(o), Initial(c, now)) == Total(Tries(c, o), Initial(c, now)) == 0
      ensures Total(RanFor(o), Initial(c, now)) == 0
    {
      NothingAtFirst(OriginIs(o), c, now);
      NothingAtFirst(Tries(c, o), c, now);
      NothingAtFirst(RanFor(o), c, now);
    }
  }

  lemma {:induction false} BudgetRun(c: Config, s: State, ls: seq<Label>, t: State)
    requires Budget(c, s) && Run(c, s, ls, t)
    ensures Budget(c, t)
    decreases |ls|
  {
    hide Budget;
    if ls != [] {
      var s' := Apply(c, s, ls[0]);
      BudgetStep(c, s, ls[0], s');
      BudgetRun(c, s', ls[1..], t);
    }
  }

  // ----- one carrier per origin

  /** g counts, and f is nothing where g counts nothing. */
  ghost predicate Counts(g: Valuation, f: Valuation) {
    forall p: Place, d: Delivery :: At(g, p, d) >= 0 && (At(g, p, d) == 0 ==> At(f, p, d) == 0)
  }

  lemma {:induction false} WorthZero(g: Valuation, f: Valuation, p: Place, ds: seq<Delivery>)
    requires Counts(g, f)
    ensures Worth(g, p, ds) >= 0 && (Worth(g, p, ds) == 0 ==> Worth(f, p, ds) == 0)
  {
    if ds != [] {
      WorthZero(g, f, p, ds[1..]);
      assert At(g, p, ds[0]) >= 0;
    }
  }

  lemma {:induction false} LogZero(g: Valuation, f: Valuation, log: seq<Event>)
    requires Counts(g, f)
    ensures LogWorth(g, log) >= 0 && (LogWorth(g, log) == 0 ==> LogWorth(f, log) == 0)
    decreases |log|
  {
    if log != [] {
      LogZero(g, f, log[..|log| - 1]);
      EventZero(g, f, log[|log| - 1]);
    }
  }

  lemma EventZero(g: Valuation, f: Valuation, e: Event)
    requires Counts(g, f)
    ensures EventWorth(g, e) >= 0 && (EventWorth(g, e) == 0 ==> EventWorth(f, e) == 0)
  {
  }

  lemma WorkerZero(g: Valuation, f: Valuation, k: Worker)
    requires Counts(g, f)
    ensures WorkerWorth(g, k) >= 0 && (WorkerWorth(g, k) == 0 ==> WorkerWorth(f, k) == 0)
  {
  }

  lemma {:induction false} PoolZero(g: Valuation, f: Valuation, ws: seq<Worker>)
    requires Counts(g, f)
    ensures PoolWorth(g, ws) >= 0 && (PoolWorth(g, ws) == 0 ==> PoolWorth(f, ws) == 0)
  {
    if ws != [] {
      WorkerZero(g, f, ws[0]);
      PoolZero(g, f, ws[1..]);
    }
  }

  lemma {:induction false} PoolOne(g: Valuation, f: Valuation, ws: seq<Worker>, w: nat)
    requires Counts(g, f) && w < |ws|
    ensures PoolWorth(g, ws) >= WorkerWorth(g, ws[w])
    ensures PoolWorth(g, ws) == WorkerWorth(g, ws[w]) ==> PoolWorth(f, ws) == WorkerWorth(f, ws[w])
  {
    hide Counts;
    WorkerZero(g, f, ws[0]);
    PoolZero(g, f, ws[1..]);
    if w > 0 {
      PoolOne(g, f, ws[1..], w - 1);
    }
  }

  lemma IntakeZero(g: Valuation, f: Valuation, s: State)
    requires Counts(g, f)
    ensures IntakeWorth(g, s) >= 0 && (IntakeWorth(g, s) == 0 ==> IntakeWorth(f, s) == 0)
  {
    hide Counts, Worth, Flat;
    WorthZero(g, f, InQueue, s.queue);
    WorthZero(g, f, WithPoller, s.pollHeld);
    WorthZero(g, f, InWheel, Items(s.wheel));
    WorthZero(g, f, WithTicker, s.tickHeld);
    WorthZero(g, f, InChannel, Flat(s.channel));
    WorthZero(g, f, WithTimer, s.timerHeld);
  }

  lemma DispZero(g: Valuation, f: Valuation, x: Dispatcher, p: Phase)
    requires Counts(g, f)
    ensures DispWorth(g, x) >= 0 && (DispWorth(g, x) == 0 ==> DispWorth(f, x) == 0)
    ensures DrainWorth(g, p) >= 0 && (DrainWorth(g, p) == 0 ==> DrainWorth(f, p) == 0)
  {
    hide Counts, Worth;
    if x.Working? {
      WorthZero(g, f, Unfiltered, x.todo);
      WorthZero(g, f, Kept, x.kept);
      WorthZero(g, f, Dup, x.dups);
    }
    if p.Draining? {
      WorthZero(g, f, InDrain, p.rest);
    }
  }

  /** When the count over the whole state is at most one and worker w holds it, f's total is that worker's. */
  lemma OnlyOne(g: Valuation, f: Valuation, s: State, w: nat)
    requires Counts(g, f) && w < |s.workers|
    requires Total(g, s) <= WorkerWorth(g, s.workers[w])
    ensures Total(f, s) == WorkerWorth(f, s.workers[w])
  {
    hide Counts, Worth, PoolWorth, LogWorth, DispWorth, DrainWorth;
    IntakeZero(g, f, s);
    DispZero(g, f, s.disp, s.phase);
    WorthZero(g, f, InRing, s.ring.contents);
    WorthZero(g, f, InPool, s.pool);
    PoolOne(g, f, s.workers, w);
    LogZero(g, f, s.log);
  }

  /** RanFor lives in the log alone. */
  lemma RunsIsTotal(o: nat, s: State)
    ensures Total(RanFor(o), s) == Runs(s.log, o)
  {
    hide Worth, PoolWorth, LogWorth, Flat;
    RanNowhere(o, InQueue, s.queue);
    RanNowhere(o, WithPoller, s.pollHeld);
    RanNowhere(o, InWheel, Items(s.wheel));
    RanNowhere(o, WithTicker, s.tickHeld);
    RanNowhere(o, InChannel, Flat(s.channel));
    RanNowhere(o, WithTimer, s.timerHeld);
    RanNowhere(o, InRing, s.ring.contents);
    RanNowhere(o, InPool, s.pool);
    RanNotOnWorkers(o, s.workers);
    RanNotInBatch(o, s.disp, s.phase);
  }

  lemma RanNotInBatch(o: nat, x: Dispatcher, p: Phase)
    ensures DispWorth(RanFor(o), x) == 0 && DrainWorth(RanFor(o), p) == 0
  {
    hide Worth;
    if x.Working? {
      RanNowhere(o, Unfiltered, x.todo);
      RanNowhere(o, Kept, x.kept);
      RanNowhere(o, Dup, x.dups);
    }
    if p.Draining? {
      RanNowhere(o, InDrain, p.rest);
    }
  }

  lemma {:induction false} RanNowhere(o: nat, p: Place, ds: seq<Delivery>)
    requires !p.Decision?
    ensures Worth(RanFor(o), p, ds) == 0
  {
    if ds != [] {
      RanNowhere(o, p, ds[1..]);
    }
  }

  lemma {:induction false} RanNotOnWorkers(o: nat, ws: seq<Worker>)
    ensures PoolWorth(RanFor(o), ws) == 0
  {
    if ws != [] {
      RanNotOnWorkers(o, ws[1..]);
    }
  }

  lemma BudgetFacts(c: Config, s: State, o: nat)
    requires Budget(c, s)
    ensures Total(OutOfBudget(c), s) <= 0
    ensures Total(OriginIs(o), s) <= 1
    ensures Total(Tries(c, o), s) == Total(RanFor(o), s)
  {
  }

  /** In every run, when a handler's result on d is acted upon, the message has run its handler
      Attempts - born times before, and Attempts is still inside the budget. */
  lemma RunsSoFar(c: Config, s: State, w: nat)
    requires Budget(c, s) && w < |s.workers| && s.workers[w].Running?
    ensures var d := s.workers[w].d;
      && Runs(s.log, d.origin) == d.msg.attempts - d.born
      && d.born <= d.msg.attempts <= Limit(c, d)
  {
    hide Total, Budget;
    var d := s.workers[w].d;
    var o := d.origin;
    BudgetFacts(c, s, o);
    assert Counts(OriginIs(o), Tries(c, o));
    OnlyOne(OriginIs(o), Tries(c, o), s, w);
    RunsIsTotal(o, s);
    assert Counts(OutOfBudget(c), OutOfBudget(c));
    WorkerPart(OutOfBudget(c), s, w);
  }

  /** What counts to nothing over the whole state counts to nothing on each worker. */
  lemma WorkerPart(g: Valuation, s: State, w: nat)
    requires Counts(g, g) && Total(g, s) <= 0 && w < |s.workers|
    ensures WorkerWorth(g, s.workers[w]) == 0
  {
    hide Counts, Worth, PoolWorth, LogWorth, DispWorth, DrainWorth;
    IntakeZero(g, g, s);
    DispZero(g, g, s.disp, s.phase);
    WorthZero(g, g, InRing, s.ring.contents);
    WorthZero(g, g, InPool, s.pool);
    PoolOne(g, g, s.workers, w);
    WorkerZero(g, g, s.workers[w]);
    LogZero(g, g, s.log);
  }

  /** The retry budget over whole runs. Each handler run of a message published with Attempts = born is at most
      its (maxRetries - born + 1)-th, whatever mix of ring retries and redeliveries led to it; and a message that
      is dead-lettered because it kept asking for retries has run exactly that often: maxRetries + 1 from zero. */
  lemma RetryBudget(c: Config, now: int, ls: seq<Label>, s: State, w: nat, result: Result)
    requires WellFormed(c) && Run(c, Initial(c, now), ls, s)
    requires w < |s.workers| && Enabled(c, s, Work(w, Decide(result)))
    ensures var d := s.workers[w].d; var max := c.handlers[d.msg.topic].maxRetries;
      var runs := Runs(Apply(c, s, Work(w, Decide(result))).log, d.origin);
      && runs == d.msg.attempts - d.born + 1
      && 1 <= runs <= (if d.born <= max then max - d.born + 1 else 1)
      && (WantsRetry(result.action) ==>
          var o := Handle(c.handlers[d.msg.topic], c.overflow, d.msg, result);
          (o.action.DLQ? <==> (runs == if d.born <= max then max - d.born + 1 else 1)))
  {
    hide Budget, Initial, Total;
    BudgetInitial(c, now);
    BudgetRun(c, Initial(c, now), ls, s);
    RunsSoFar(c, s, w);
    var d := s.workers[w].d;
    var t := Apply(c, s, Work(w, Decide(result)));
    assert t == DoDecide(c, s, w, d, result);
    var o := Handle(c.handlers[d.msg.topic], c.overflow, d.msg, result);
    LogAdd(RanFor(d.origin), s.log, Decided(d, s.batch, s.now, result, o.action));
    CoordinatorContract(c.handlers[d.msg.topic], c.overflow, d.msg, result);
  }
}
