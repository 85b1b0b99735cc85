/** Quiescence: whatever the handlers answer, a serving pipeline gets every message done. */
module PipelineQuiesce {
  import opened Retry
  import opened RingSpec
  import opened TimerWheel
  import opened Pipeline
  import opened PipelineControl
  import opened PipelineQuiet
  import opened PipelineFlow
  import opened PipelineConservation
  import opened PipelineTermination
  import opened PipelineBudget
  import opened PipelineProgress
  import opened PipelineReach
  import opened PipelineDeadlock
  import opened PipelineAlive

  /** What the handler of each delivery returns. */
  type Answer = Delivery -> Result

  /** Handlers answer as told, nacked messages are redelivered and dead-letter sends accepted. */
  predicate Follows(answer: Answer, e: Event) {
    && (e.Decided? ==> e.result == answer(e.d))
    && (e.NackCalled? ==> e.requeued)
    && (e.DlqCalled? ==> e.ok)
  }

  ghost predicate Obeys(answer: Answer, log: seq<Event>, later: seq<Event>) {
    && |log| <= |later| && later[..|log|] == log
    && forall i :: |log| <= i < |later| ==> Follows(answer, later[i])
  }

  predicate IsPublish(l: Label) {
    l.Env? && l.e.Publish?
  }

  /** A continuation from s to t without publishes, cancellations or departures, in which handlers answer as told. */
  ghost predicate Continues(c: Config, answer: Answer, s: State, ls: seq<Label>, t: State) {
    && Run(c, s, ls, t) && (forall i :: 0 <= i < |ls| ==> !IsPublish(ls[i]))
    && SameMode(s, t) && Obeys(answer, s.log, t.log)
  }

  ghost predicate Leads(c: Config, answer: Answer, s: State, t: State) {
    exists ls :: Continues(c, answer, s, ls, t)
  }

  lemma LeadsNowhere(c: Config, answer: Answer, s: State)
    ensures Leads(c, answer, s, s)
  {
    assert Continues(c, answer, s, [], s);
  }

  lemma ObeysTrans(answer: Answer, a: seq<Event>, b: seq<Event>, d: seq<Event>)
    requires Obeys(answer, a, b) && Obeys(answer, b, d)
    ensures Obeys(answer, a, d)
  {
    hide Follows;
    assert d[..|a|] == d[..|b|][..|a|];
    assert forall i :: |a| <= i < |b| ==> d[i] == d[..|b|][i];
  }

  lemma StepLeads(c: Config, answer: Answer, s: State, l: Label, m: State, t: State)
    requires Enabled(c, s, l) && m == Apply(c, s, l) && !IsPublish(l)
    requires SameMode(s, m) && Obeys(answer, s.log, m.log) && Leads(c, answer, m, t)
    ensures Leads(c, answer, s, t)
  {
    hide Enabled, Apply, Obeys;
    var ls :| Continues(c, answer, m, ls, t);
    ObeysTrans(answer, s.log, m.log, t.log);
    assert ([l] + ls)[1..] == ls;
    assert Continues(c, answer, s, [l] + ls, t);
  }

  lemma {:induction false} RunConcat(c: Config, s: State, a: seq<Label>, m: State, b: seq<Label>, t: State)
    requires Run(c, s, a, m) && Run(c, m, b, t)
    ensures Run(c, s, a + b, t)
    decreases |a|
  {
    hide Enabled, Apply;
    if a == [] {
      assert a + b == b;
    } else {
      RunConcat(c, Apply(c, s, a[0]), a[1..], m, b, t);
      assert (a + b)[0] == a[0] && (a + b)[1..] == a[1..] + b;
    }
  }

  lemma LeadsTrans(c: Config, answer: Answer, s: State, m: State, t: State)
    requires Leads(c, answer, s, m) && Leads(c, answer, m, t)
    ensures Leads(c, answer, s, t)
  {
    hide Run, Obeys;
    var a :| Continues(c, answer, s, a, m);
    var b :| Continues(c, answer, m, b, t);
    RunConcat(c, s, a, m, b, t);
    ObeysTrans(answer, s.log, m.log, t.log);
    assert Continues(c, answer, s, a + b, t);
  }

  // ----- what the construction keeps

  /** No answer to a delivery that can occur makes its coordinator re-insert: none at all, or none for a non-negative
      Attempts while nothing else is about. */
  ghost predicate Tame(c: Config, answer: Answer, s: State) {
    forall d: Delivery :: d.msg.topic in c.handlers && (d.msg.attempts >= 0 || Total(Negative(), s) > 0) ==>
      !Handle(c.handlers[d.msg.topic], c.overflow, d.msg, answer(d)).action.Retry?
  }

  ghost predicate Sound(c: Config, answer: Answer, s: State) {
    Control(c, s) && Staffed(c, s) && Attended(s) && NoneReinserting(s) && Tame(c, answer, s)
  }

  /** The step makes handlers answer as told, nacks redelivered and dead-letter sends accepted. */
  predicate Tells(answer: Answer, s: State, l: Label) {
    l.Work? && l.w < |s.workers| ==>
      && (l.k.Decide? && s.workers[l.w].Running? ==> l.k.result == answer(s.workers[l.w].d))
      && (l.k.Settle? && s.workers[l.w].Settling? ==> l.k.ok && (s.workers[l.w].action.RetryWithDelay? ==> l.k.requeue))
  }

  lemma TameWorker(c: Config, answer: Answer, s: State, w: nat)
    requires Tame(c, answer, s) && w < |s.workers| && s.workers[w].Running? && s.workers[w].d.msg.topic in c.handlers
    ensures var d := s.workers[w].d; !Handle(c.handlers[d.msg.topic], c.overflow, d.msg, answer(d)).action.Retry?
  {
    hide Total, Handle;
    if Total(Negative(), s) <= 0 {
      assert Counts(Negative(), Negative());
      WorkerPart(Negative(), s, w);
    }
  }

  lemma NoneReinsertingTold(c: Config, answer: Answer, s: State, l: Label, t: State)
    requires Tame(c, answer, s) && NoneReinserting(s) && Tells(answer, s, l) && Enabled(c, s, l) && t == Apply(c, s, l)
    ensures NoneReinserting(t)
  {
    hide Tame, DoEnv, DoPoll, DoTick, DoTimer, DoDisp, DoWork, DoEvict, DoMain, Handle;
    hide CanTick, CanPoll, CanTimer, CanMain, CanDisp;
    if l.Disp? {
      DispKeepsWorkers(c, s, l.x, t);
    } else if l.Work? {
      WorkChanges(c, s, l.w, l.k, t);
      if l.k.Decide? {
        TameWorker(c, answer, s, l.w);
      }
    } else {
      OthersKeep(c, s, l, t);
    }
  }

  lemma TameStep(c: Config, answer: Answer, s: State, l: Label, t: State)
    requires Tame(c, answer, s) && Enabled(c, s, l) && t == Apply(c, s, l) && !IsPublish(l)
    ensures Tame(c, answer, t)
  {
    hide Total, Enabled, Apply, Handle;
    NegativeStep(c, s, l, t);
  }

  lemma SoundStep(c: Config, answer: Answer, s: State, l: Label, t: State)
    requires Sound(c, answer, s) && Enabled(c, s, l) && t == Apply(c, s, l) && !IsPublish(l) && Tells(answer, s, l)
    ensures Sound(c, answer, t)
  {
    hide Control, Staffed, Attended, NoneReinserting, Tame, Enabled, Apply, Tells;
    ControlStep(c, s, l, t);
    StaffedStep(c, s, l, t);
    AttendedStep(c, s, l, t);
    NoneReinsertingTold(c, answer, s, l, t);
    TameStep(c, answer, s, l, t);
  }

  // ----- events of one step

  lemma ObeysSame(answer: Answer, log: seq<Event>)
    ensures Obeys(answer, log, log)
  {
  }

  lemma ObeysAdd(answer: Answer, log: seq<Event>, e: Event)
    requires Follows(answer, e)
    ensures Obeys(answer, log, log + [e])
  {
  }

  lemma ObeysQuiet(answer: Answer, log: seq<Event>, later: seq<Event>)
    requires QuietLog(log, later)
    ensures Obeys(answer, log, later)
  {
  }

  lemma DequeueObeys(answer: Answer, s: State)
    requires Bounded(s.ring) && s.disp.Idle?
    ensures Obeys(answer, s.log, DoDequeue(s).log)
  {
  }

  lemma FilterObeys(c: Config, answer: Answer, s: State, f: FilterStep)
    requires CanDisp(c, s, Filter(f))
    ensures Obeys(answer, s.log, DoFilter(c, s, f).log)
  {
    hide NextProbe, Obeys;
    ObeysSame(answer, s.log);
    ObeysAdd(answer, s.log, FoundDuplicate(s.disp.todo[0], s.now));
  }

  lemma AckDupObeys(answer: Answer, s: State)
    requires s.disp.Working? && s.disp.dups != []
    ensures Obeys(answer, s.log, DoAckDup(s).log)
  {
    hide Obeys;
    ObeysAdd(answer, s.log, AckCalled(s.disp.dups[0], Duplicate, s.transportOpen));
  }

  lemma SubmitObeys(answer: Answer, s: State)
    requires s.disp.Working? && s.disp.kept != []
    ensures Obeys(answer, s.log, DoSubmit(s).log)
  {
    hide Obeys;
    ObeysAdd(answer, s.log, if s.poolOpen then Submitted(s.disp.kept[0], s.batch) else SubmitPanic);
  }

  lemma DispObeys(c: Config, answer: Answer, s: State, l: DispStep, t: State)
    requires Bounded(s.ring) && CanDisp(c, s, l) && t == DoDisp(c, s, l)
    ensures Obeys(answer, s.log, t.log)
  {
    hide Obeys, DoDequeue, DoFilter, DoAckDup, DoSubmit;
    match l
    case StartDrain => ObeysSame(answer, s.log);
    case Look => ObeysSame(answer, s.log);
    case Resume => ObeysSame(answer, s.log);
    case DispExit => ObeysSame(answer, s.log);
    case Dequeue => DequeueObeys(answer, s);
    case Filter(f) => FilterObeys(c, answer, s, f);
    case AckDup => AckDupObeys(answer, s);
    case Submit => SubmitObeys(answer, s);
    case Barrier => ObeysSame(answer, s.log);
  }

  lemma RetryObeys(answer: Answer, s: State, w: nat, d: Delivery)
    requires Bounded(s.ring) && w < |s.workers|
    ensures Obeys(answer, s.log, SettleRetry(s, w, d).log)
  {
    hide Obeys, Offer;
    ObeysSame(answer, s.log);
    ObeysAdd(answer, s.log, Rejected(Again(d), s.phase.Draining?));
  }

  lemma AckObeys(c: Config, answer: Answer, s: State, w: nat, d: Delivery)
    requires w < |s.workers|
    ensures Obeys(answer, s.log, SettleAck(c, s, w, d).log)
  {
    hide Obeys;
    ObeysAdd(answer, s.log, AckCalled(d, HandlerAck, s.transportOpen));
  }

  lemma NackObeys(answer: Answer, s: State, w: nat, d: Delivery, delay: int)
    requires w < |s.workers|
    ensures Obeys(answer, s.log, SettleNack(s, w, d, delay, true).log)
  {
    hide Obeys;
    ObeysAdd(answer, s.log, NackCalled(d, delay, true, s.transportOpen));
  }

  lemma DlqObeys(answer: Answer, s: State, w: nat, d: Delivery)
    requires w < |s.workers|
    ensures Obeys(answer, s.log, SettleDlq(s, w, d, true).log)
  {
    hide Obeys;
    ObeysAdd(answer, s.log, DlqCalled(d, true, s.transportOpen));
  }

  lemma NothingObeys(answer: Answer, s: State, w: nat, d: Delivery)
    requires w < |s.workers|
    ensures Obeys(answer, s.log, SettleNothing(s, w, d).log)
  {
    hide Obeys;
    ObeysAdd(answer, s.log, OutcomeIgnored(d));
  }

  lemma SettleObeys(c: Config, answer: Answer, s: State, w: nat, requeue: bool, t: State)
    requires Bounded(s.ring) && w < |s.workers| && CanWork(c, s, w, Settle(true, requeue))
    requires t == DoSettle(c, s, w, true, requeue)
    requires s.workers[w].action.RetryWithDelay? ==> requeue
    ensures Obeys(answer, s.log, t.log)
  {
    hide Obeys, Offer, SettleAck, SettleRetry, SettleNack, SettleDlq, SettleNothing;
    var k := s.workers[w];
    match k.action
    case Ack => AckObeys(c, answer, s, w, k.d);
    case Retry => RetryObeys(answer, s, w, k.d);
    case RetryWithDelay => NackObeys(answer, s, w, k.d, k.delay);
    case DLQ => DlqObeys(answer, s, w, k.d);
    case Unknown(_) => NothingObeys(answer, s, w, k.d);
  }

  lemma TakeObeys(c: Config, answer: Answer, s: State, w: nat)
    requires w < |s.workers| && s.pool != []
    ensures Obeys(answer, s.log, DoTake(c, s, w).log)
  {
    hide Obeys;
    ObeysSame(answer, s.log);
    ObeysAdd(answer, s.log, Started(s.pool[0], s.batch, s.now));
  }

  lemma MarkObeys(c: Config, answer: Answer, s: State, w: nat, m: Message, marked: bool)
    requires w < |s.workers|
    ensures Obeys(answer, s.log, DoMark(c, s, w, m, marked).log)
  {
    hide Obeys;
    ObeysSame(answer, s.log);
    ObeysAdd(answer, s.log, MarkPanic);
    if m.key.Some? {
      ObeysAdd(answer, s.log, Marked(m.key.value, s.batch, s.now));
    }
  }

  lemma DecideObeys(c: Config, answer: Answer, s: State, w: nat, d: Delivery)
    requires w < |s.workers| && d.msg.topic in c.handlers
    ensures Obeys(answer, s.log, DoDecide(c, s, w, d, answer(d)).log)
  {
    hide Obeys, Handle;
    var o := Handle(c.handlers[d.msg.topic], c.overflow, d.msg, answer(d));
    ObeysAdd(answer, s.log, Decided(d, s.batch, s.now, answer(d), o.action));
  }

  lemma AckDeadObeys(answer: Answer, s: State, w: nat, d: Delivery)
    requires w < |s.workers|
    ensures Obeys(answer, s.log, DoAckDead(s, w, d).log)
  {
    hide Obeys;
    ObeysAdd(answer, s.log, AckCalled(d, DeadLetter, s.transportOpen));
  }

  lemma WorkObeys(c: Config, answer: Answer, s: State, w: nat, l: WorkStep, t: State)
    requires Bounded(s.ring) && w < |s.workers| && CanWork(c, s, w, l) && t == DoWork(c, s, w, l)
    requires Tells(answer, s, Work(w, l))
    ensures Obeys(answer, s.log, t.log)
  {
    hide Obeys, Offer, Handle, DoTake, DoDecide, DoSettle, DoAckDead, DoMark;
    match l
    case Take => TakeObeys(c, answer, s, w);
    case Decide(result) => DecideObeys(c, answer, s, w, s.workers[w].d);
    case Settle(ok, requeue) => SettleObeys(c, answer, s, w, requeue, t);
    case AckDead => AckDeadObeys(answer, s, w, s.workers[w].d);
    case Mark(marked) => MarkObeys(c, answer, s, w, s.workers[w].m, marked);
    case WorkExit => ObeysSame(answer, s.log);
  }

  // ----- one chosen step

  /** A step that moves some delivery on, or a look at the clock or the ring. */
  predicate IsChoice(l: Label) {
    IsMove(l) || l == Disp(Resume) || (l.Env? && l.e.Pass?)
  }

  lemma ChoiceObeys(c: Config, answer: Answer, s: State, l: Label, t: State)
    requires IsChoice(l) && Tells(answer, s, l) && Enabled(c, s, l) && t == Apply(c, s, l)
    ensures Obeys(answer, s.log, t.log)
  {
    hide Obeys, Tells, DoEnv, DoPoll, DoTick, DoTimer, DoDisp, DoWork, QuietLog;
    hide CanTick, CanPoll, CanTimer, CanDisp, CanWork;
    if l.Disp? {
      DispObeys(c, answer, s, l.x, t);
    } else if l.Work? {
      WorkObeys(c, answer, s, l.w, l.k, t);
    } else {
      QuietStep(c, s, l, t);
      ObeysQuiet(answer, s.log, t.log);
    }
  }

  lemma ChoiceMode(c: Config, s: State, l: Label, t: State)
    requires IsChoice(l) && Enabled(c, s, l) && t == Apply(c, s, l)
    ensures SameMode(s, t)
  {
    hide DoEnv, DoPoll, DoTick, DoTimer, DoDisp, DoWork, CanTick, CanPoll, CanTimer, CanDisp, CanWork;
    match l
    case Env(e) => ModeEnv(s, e, t);
    case Poll(p) => ModePoll(s, p, t);
    case Tick(x) => ModeTick(s, x, t);
    case Timer(r) => ModeTimer(s, r, t);
    case Disp(x) => ModeDisp(c, s, x, t);
    case Work(w, k) => ModeWork(c, s, w, k, t);
  }

  /** Taking a chosen step first. */
  lemma Choose(c: Config, answer: Answer, s: State, l: Label, m: State)
    requires Sound(c, answer, s) && IsChoice(l) && Tells(answer, s, l) && Enabled(c, s, l) && m == Apply(c, s, l)
    ensures Sound(c, answer, m) && SameMode(s, m) && Obeys(answer, s.log, m.log)
    ensures Measure(c, m) <= Measure(c, s) && (IsMove(l) ==> Measure(c, m) < Measure(c, s))
  {
    hide Obeys, Tells, Enabled, Apply, Measure, SameMode;
    SoundStep(c, answer, s, l, m);
    ChoiceObeys(c, answer, s, l, m);
    ChoiceMode(c, s, l, m);
    SoundControl(c, answer, s);
    MeasureStep(c, s, l, m);
  }

  lemma SoundControl(c: Config, answer: Answer, s: State)
    requires Sound(c, answer, s)
    ensures Control(c, s) && Staffed(c, s) && Attended(s) && NoneReinserting(s)
  {
  }

  // ----- getting calm

  /** The dispatcher will look at the ring again. */
  predicate Awake(s: State) {
    s.disp.Idle? || s.disp.Working? || (s.disp.SawEmpty? && !DispCancelled(s))
  }

  /** Nothing is held, in the ring or in a batch. */
  predicate Calm(s: State) {
    !s.disp.Working? && s.ring.contents == [] && s.pollHeld == [] && s.timerHeld == []
  }

  /** A step of the unfinished batch that does as told. */
  lemma BatchChoice(c: Config, answer: Answer, s: State) returns (l: Label)
    requires WellFormed(c) && Control(c, s) && Staffed(c, s) && NoneReinserting(s) && s.disp.Working?
    ensures IsBatchStep(l) && Enabled(c, s, l) && Tells(answer, s, l)
  {
    hide SafeLog, Busy;
    if s.disp.todo != [] {
      var f := FilterChoice(c, s);
      l := Disp(Filter(f));
    } else if s.disp.dups != [] {
      l := Disp(AckDup);
    } else if CanDisp(c, s, Submit) {
      l := Disp(Submit);
    } else if CanDisp(c, s, Barrier) {
      l := Disp(Barrier);
    } else if w :| 0 <= w < |s.workers| && s.workers[w].Free? && s.pool != [] {
      l := Work(w, Take);
    } else {
      SomeoneBusy(c, s);
      var w :| 0 <= w < |s.workers| && IsBusy(s.workers[w]);
      var k := WorkerChoice(c, answer, s, w);
      l := Work(w, k);
    }
  }

  lemma FilterChoice(c: Config, s: State) returns (f: FilterStep)
    requires s.disp.Working? && s.disp.todo != []
    ensures CanFilter(c, s.disp, f)
  {
    f := if !Filtered(c, s.disp) then Skip
      else match s.disp.probe
        case NoProbe => Fetch
        case Fetched(_) => Check
        case Stale => Delete;
  }

  lemma WorkerChoice(c: Config, answer: Answer, s: State, w: nat) returns (k: WorkStep)
    requires Control(c, s) && Staffed(c, s) && NoneReinserting(s) && w < |s.workers| && IsBusy(s.workers[w])
    ensures !k.WorkExit? && CanWork(c, s, w, k) && Tells(answer, s, Work(w, k))
  {
    hide SafeLog, Busy;
    BusyMeansServing(c, s, w);
    assert WorkerOk(c, s.disp, s.workers[w]) && !Reinserting(s.workers[w]);
    match s.workers[w]
    case Running(d) => k := Decide(answer(d));
    case Settling(_, action, _) => k := Settle(true, action.RetryWithDelay?);
    case DlqSent(_) => k := AckDead;
    case Marking(_) => k := Mark(true);
  }

  /** As long as something is held, in the ring or in a batch, there is a step towards having it done. */
  lemma CalmChoice(c: Config, answer: Answer, s: State) returns (l: Label)
    requires WellFormed(c) && Control(c, s) && Staffed(c, s) && NoneReinserting(s) && Awake(s) && !Calm(s)
    ensures IsChoice(l) && Enabled(c, s, l) && Tells(answer, s, l)
    ensures IsMove(l) || s.disp.SawEmpty?
    ensures l.Poll? || l.Timer? || l.Work? || (l.Disp? && (l.x.Resume? || l.x.Dequeue? || IsBatchStep(l)))
  {
    hide SafeLog, Busy, Staffed, NoneReinserting;
    if s.disp.SawEmpty? {
      l := Disp(Resume);
    } else if s.disp.Working? {
      l := BatchChoice(c, answer, s);
    } else if s.ring.contents != [] {
      l := Disp(Dequeue);
    } else if s.pollHeld != [] {
      l := Poll(Deliver);
    } else {
      l := Timer(TimerEnqueue);
    }
  }

  lemma AwakeDisp(c: Config, s: State, l: DispStep, t: State)
    requires Bounded(s.ring) && CanDisp(c, s, l) && t == DoDisp(c, s, l)
    requires l.Resume? || l.Dequeue? || IsBatchStep(Disp(l))
    ensures t.disp.Idle? || t.disp.Working?
  {
    match l
    case Resume =>
    case Dequeue => assert t == DoDequeue(s);
    case Filter(f) => assert t == DoFilter(c, s, f);
    case AckDup => assert t == DoAckDup(s);
    case Submit => assert t == DoSubmit(s);
    case Barrier =>
  }

  lemma StaysAwake(c: Config, s: State, l: Label, t: State)
    requires Awake(s) && IsChoice(l) && Enabled(c, s, l) && t == Apply(c, s, l)
    ensures Awake(t) && (s.disp.SawEmpty? && l.Disp? ==> !t.disp.SawEmpty?)
  {
    hide DoEnv, DoPoll, DoTick, DoTimer, DoDisp, DoWork, CanTick, CanPoll, CanTimer, CanDisp, CanWork;
    ChoiceMode(c, s, l, t);
    match l
    case Env(e) => ModeEnv(s, e, t);
    case Poll(p) => ModePoll(s, p, t);
    case Tick(x) => ModeTick(s, x, t);
    case Timer(r) => ModeTimer(s, r, t);
    case Disp(x) => AwakeDisp(c, s, x, t);
    case Work(w, k) => ModeWork(c, s, w, k, t);
  }

  /** The held messages, the ring and the batch can be worked off, handlers answering as told. */
  lemma {:induction false} CalmDown(c: Config, answer: Answer, s: State) returns (t: State)
    requires WellFormed(c) && Sound(c, answer, s) && Awake(s)
    ensures Leads(c, answer, s, t) && Sound(c, answer, t) && Awake(t) && Calm(t)
    ensures Measure(c, t) <= Measure(c, s)
    decreases Measure(c, s), s.disp.SawEmpty?
  {
    hide Measure, Sound, Leads, Awake, Calm, Enabled, Apply, SameMode, Obeys;
    MeasureNonNegative(c, s);
    if Calm(s) {
      t := s;
      LeadsNowhere(c, answer, s);
    } else {
      SoundControl(c, answer, s);
      var l := CalmChoice(c, answer, s);
      var m := Apply(c, s, l);
      Choose(c, answer, s, l, m);
      StaysAwake(c, s, l, m);
      t := CalmDown(c, answer, m);
      StepLeads(c, answer, s, l, m, t);
    }
  }

  // ----- and the rest

  /** A calm serving state with something left in the transport, the wheel or the timer can take in more. */
  lemma IntakeChoice(c: Config, s: State) returns (l: Label)
    requires Control(c, s) && Attended(s) && Serves(s) && Calm(s)
    requires (s.queue != [] && !s.pollExited) || s.channel != [] || s.tickHeld != []
    ensures IsMove(l) && Enabled(c, s, l) && !l.Work? && !l.Disp?
  {
    hide SafeLog, Busy;
    if s.queue != [] && !s.pollExited {
      l := Poll(Receive(1));
    } else if s.channel != [] {
      l := Timer(TimerReceive);
    } else {
      l := Tick(SendBatch);
    }
  }

  lemma CalmAndRested(c: Config, s: State)
    requires Control(c, s) && Serves(s) && Calm(s) && (s.queue == [] || s.pollExited)
    requires s.channel == [] && s.tickHeld == [] && s.wheel == []
    ensures Rested(s)
  {
    NothingBusy(c, s);
  }

  lemma ServesAwake(s: State)
    requires Serves(s) && Attended(s)
    ensures Awake(s)
  {
  }

  lemma StaysServing(s: State, t: State)
    requires Serves(s) && SameMode(s, t)
    ensures Serves(t)
  {
  }

  lemma LeadsMode(c: Config, answer: Answer, s: State, t: State)
    requires Leads(c, answer, s, t)
    ensures SameMode(s, t) && Obeys(answer, s.log, t.log)
  {
  }

  /** One more delivery, or the whole wheel, goes on from a calm state. */
  lemma TakeIn(c: Config, answer: Answer, s: State) returns (t: State)
    requires WellFormed(c) && Sound(c, answer, s) && Serves(s) && Calm(s) && !Rested(s)
    ensures Leads(c, answer, s, t) && Sound(c, answer, t) && Measure(c, t) < Measure(c, s)
  {
    hide Measure, Sound, Leads, Calm, Rested, Enabled;
    hide Apply, SameMode, Obeys, Control, Staffed, Attended, NoneReinserting;
    SoundControl(c, answer, s);
    if (s.queue != [] && !s.pollExited) || s.channel != [] || s.tickHeld != [] {
      var l := IntakeChoice(c, s);
      t := Apply(c, s, l);
      Choose(c, answer, s, l, t);
      LeadsNowhere(c, answer, t);
      StepLeads(c, answer, s, l, t, t);
    } else {
      t := EmptyWheel(c, answer, s);
    }
  }

  lemma EmptyWheel(c: Config, answer: Answer, s: State) returns (t: State)
    requires WellFormed(c) && Sound(c, answer, s) && Serves(s) && Calm(s) && !Rested(s)
    requires (s.queue == [] || s.pollExited) && s.channel == [] && s.tickHeld == []
    ensures Leads(c, answer, s, t) && Sound(c, answer, t) && Measure(c, t) < Measure(c, s)
  {
    hide Measure, Sound, Leads, SameMode, Obeys, Tells, Control, Staffed, NoneReinserting, CanTick;
    SoundControl(c, answer, s);
    if s.wheel == [] {
      CalmAndRested(c, s);
    }
    ControlShape(c, s);
    var dt := Latest(s.wheel, s.now) - s.now;
    var p := Env(Pass(dt));
    var m := Apply(c, s, p);
    WheelEmpties(c, s, dt);
    assert m == s.(now := s.now + dt);
    var e := Tick(Expire(Unix(m.now), m.wheel, []));
    t := Apply(c, m, e);
    ToldOutside(answer, s, p);
    Choose(c, answer, s, p, m);
    ToldOutside(answer, m, e);
    Choose(c, answer, m, e, t);
    LeadsNowhere(c, answer, t);
    StepLeads(c, answer, m, e, t, t);
    StepLeads(c, answer, s, p, m, t);
  }

  lemma ControlShape(c: Config, s: State)
    requires Control(c, s)
    ensures Shape(c, s)
  {
  }

  lemma ToldOutside(answer: Answer, s: State, l: Label)
    requires !l.Work?
    ensures Tells(answer, s, l)
  {
  }

  lemma {:induction false} Quiesce(c: Config, answer: Answer, s: State) returns (t: State)
    requires WellFormed(c) && Sound(c, answer, s) && Serves(s)
    ensures Leads(c, answer, s, t) && Sound(c, answer, t) && Serves(t) && Rested(t)
    decreases Measure(c, s)
  {
    hide Measure, Sound, Leads, Calm, Rested, Serves, Awake, SameMode, Obeys, Attended;
    MeasureNonNegative(c, s);
    SoundControl(c, answer, s);
    ServesAwake(s);
    t := CalmDown(c, answer, s);
    LeadsMode(c, answer, s, t);
    StaysServing(s, t);
    if !Rested(t) {
      var m := TakeIn(c, answer, t);
      LeadsMode(c, answer, t, m);
      StaysServing(t, m);
      LeadsTrans(c, answer, s, t, m);
      t := Quiesce(c, answer, m);
      LeadsTrans(c, answer, s, m, t);
    }
  }

  lemma TameWhenAvoiding(c: Config, answer: Answer, s: State)
    requires AvoidsRing(c) && Total(Negative(), s) <= 0
    ensures Tame(c, answer, s)
  {
    hide Total, Handle;
    forall d: Delivery | d.msg.topic in c.handlers && d.msg.attempts >= 0
      ensures !Handle(c.handlers[d.msg.topic], c.overflow, d.msg, answer(d)).action.Retry?
    {
      assert NeverUsesRing(c.handlers[d.msg.topic], c.overflow);
    }
  }

  lemma {:induction false} NegativeRun(c: Config, s: State, ls: seq<Label>, t: State)
    requires Total(Negative(), s) <= 0 && Run(c, s, ls, t) && forall i :: 0 <= i < |ls| ==> NonNegative(ls[i])
    ensures Total(Negative(), t) <= 0
    decreases |ls|
  {
    hide Total;
    if ls != [] {
      NegativeStep(c, s, ls[0], Apply(c, s, ls[0]));
      NegativeRun(c, Apply(c, s, ls[0]), ls[1..], t);
    }
  }

  lemma ReachableSound(c: Config, now: int, s: State, answer: Answer)
    requires WellFormed(c) && AvoidsRing(c) && Reachable(c, now, s)
    ensures Sound(c, answer, s)
  {
    hide Run, AvoidsRing, Total, Control, Staffed, Attended, Tame;
    NeverDeadlocked(c, now, s);
    var ls :| Run(c, Initial(c, now), ls, s) && forall i :: 0 <= i < |ls| ==> NonNegative(ls[i]);
    StartStaffed(c, now);
    StaffedRun(c, Initial(c, now), ls, s);
    StartAttended(c, now);
    AttendedRun(c, Initial(c, now), ls, s);
    NothingAtFirst(Negative(), c, now);
    NegativeRun(c, Initial(c, now), ls, s);
    TameWhenAvoiding(c, answer, s);
  }

  /** Quiescence: with coordinators that never re-insert, from every reachable serving state and whatever the handlers
      answer, a continuation without publishes gets every delivery done: it ends with nothing held, waiting, buffered,
      running or unsettled and, unless the poller had left, nothing queued, and the pipeline still serving. By
      Termination every continuation has boundedly many working steps, and by NoStranded it cannot stop earlier. */
  lemma Quiescence(c: Config, now: int, s: State, answer: Answer) returns (t: State)
    requires WellFormed(c) && AvoidsRing(c) && Reachable(c, now, s) && Serves(s)
    ensures Leads(c, answer, s, t) && Serves(t) && Rested(t)
  {
    hide AvoidsRing, Reachable, Sound, Leads;
    ReachableSound(c, now, s, answer);
    t := Quiesce(c, answer, s);
  }
}
