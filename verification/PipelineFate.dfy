/** The fate of a message that always asks for a retry: exactly its budget of runs, and then the dead-letter queue. */
module PipelineFate {
  import opened Retry
  import opened RingSpec
  import opened TimerWheel
  import opened Pipeline
  import opened PipelineControl
  import opened PipelineQuiet
  import opened PipelineFlow
  import opened PipelineBudget
  import opened PipelineReach
  import opened PipelineDeadlock
  import opened PipelineAlive
  import opened PipelineQuiesce
  import opened PipelineTrail

  /** The message is rid of a delivery early: Attempts left, yet acked or dead-lettered. */
  predicate Early(c: Config, t: Token) {
    && (t.place.Closing? || t.place.DeadLettered? || t.place.Spent?)
    && t.d.msg.topic in c.handlers && t.d.msg.attempts < c.handlers[t.d.msg.topic].maxRetries
  }

  /** Marks the carrier of origin o when it is not the keyless message m any more, or is settled early. */
  function Astray(c: Config, o: nat, m: Message): (f: Valuation) {
    (t: Token) =>
      if Carries(t, o) && (t.d.msg.key.Some? || t.d.msg.topic != m.topic || t.d.born != m.attempts || Early(c, t))
      then 1 else 0
  }

  /** e is about the message published as o. */
  predicate Concerns(e: Event, o: nat) {
    && (e.Decided? || e.NackCalled? || e.Rejected? || e.InsertIgnored? || e.BatchDropped?)
    && e.d.origin == o
  }

  /** Every handler run asked for a retry, every nack was redelivered, and nothing was refused, ignored or dropped. */
  predicate Insists(e: Event) {
    && (e.Decided? ==> WantsRetry(e.result.action))
    && (e.NackCalled? ==> e.requeued)
    && !e.Rejected? && !e.InsertIgnored? && !e.BatchDropped?
  }

  ghost predicate Insistent(log: seq<Event>, o: nat) {
    forall e :: e in log && Concerns(e, o) ==> Insists(e)
  }

  lemma InsistentBefore(log: seq<Event>, later: seq<Event>, o: nat)
    requires Extends(log, later) && Insistent(later, o)
    ensures Insistent(log, o)
  {
  }

  // ----- following the message

  ghost predicate Follow(c: Config, o: nat, m: Message, s: State) {
    o < s.next && Total(OriginIs(o), s) == 1 && Total(Astray(c, o, m), s) <= 0
  }

  lemma AstrayStable(c: Config, o: nat, m: Message)
    ensures Stable(Astray(c, o, m))
  {
  }

  lemma AstrayDecide(c: Config, o: nat, m: Message, d: Delivery, result: Result)
    requires d.msg.topic in c.handlers && (d.origin == o ==> WantsRetry(result.action))
    ensures var r := Handle(c.handlers[d.msg.topic], c.overflow, d.msg, result);
      At(Astray(c, o, m), SettlingPlace(r.action), d.(msg := r.message)) <= At(Astray(c, o, m), OnWorker, d)
  {
    hide Handle;
    CoordinatorContract(c.handlers[d.msg.topic], c.overflow, d.msg, result);
  }

  lemma AstraySettle(c: Config, o: nat, m: Message, s: State, d: Delivery, a: Action, ok: bool, requeue: bool)
    requires Bounded(s.ring)
    ensures SettleGain(Astray(c, o, m), s, d, a, ok, requeue) <= At(Astray(c, o, m), SettlingPlace(a), d)
  {
    hide Offer;
    match a
    case Ack =>
    case Retry =>
    case RetryWithDelay =>
    case DLQ =>
    case Unknown(_) =>
  }

  lemma AstrayWork(c: Config, o: nat, m: Message, s: State, w: nat, l: WorkStep)
    requires Bounded(s.ring) && w < |s.workers| && CanWork(c, s, w, l) && m.topic in c.handlers
    requires l.Decide? && s.workers[w].d.origin == o ==> WantsRetry(l.result.action)
    ensures WorkGain(Astray(c, o, m), c, s, w, l) <= 0
  {
    hide Handle, Offer, SettleGain;
    match l
    case Take =>
    case Decide(result) => AstrayDecide(c, o, m, s.workers[w].d, result);
    case Settle(ok, requeue) => AstraySettle(c, o, m, s, s.workers[w].d, s.workers[w].action, ok, requeue);
    case AckDead =>
    case Mark(_) =>
    case WorkExit =>
  }

  /** A decision shows in the history. */
  lemma DecisionLogged(c: Config, s: State, w: nat, result: Result, t: State, o: nat)
    requires Bounded(s.ring) && w < |s.workers| && CanWork(c, s, w, Decide(result))
    requires t == DoWork(c, s, w, Decide(result))
    requires Insistent(t.log, o) && s.workers[w].d.origin == o
    ensures WantsRetry(result.action)
  {
    hide Handle;
    var d := s.workers[w].d;
    assert t == DoDecide(c, s, w, d, result);
    var e := t.log[|s.log|];
    assert e in t.log && Concerns(e, o);
  }

  lemma AstrayGain(c: Config, o: nat, m: Message, s: State, l: Label, t: State)
    requires Enabled(c, s, l) && t == Apply(c, s, l) && o < s.next && m.topic in c.handlers && Insistent(t.log, o)
    ensures Gain(Astray(c, o, m), c, s, l) <= 0
  {
    hide WorkGain, DoEnv, DoPoll, DoTick, DoTimer, DoDisp, DoWork, DoEvict, DoMain, Insistent;
    hide CanTick, CanPoll, CanTimer, CanDisp, CanMain;
    if l.Work? {
      if l.k.Decide? && s.workers[l.w].d.origin == o {
        DecisionLogged(c, s, l.w, l.k.result, t, o);
      }
      AstrayWork(c, o, m, s, l.w, l.k);
    } else {
      AstrayStable(c, o, m);
      StableGain(Astray(c, o, m), c, s, l);
    }
  }

  lemma FollowStep(c: Config, o: nat, m: Message, s: State, l: Label, t: State)
    requires Follow(c, o, m, s) && Enabled(c, s, l) && t == Apply(c, s, l) && m.topic in c.handlers
    requires Insistent(t.log, o)
    ensures Follow(c, o, m, t)
  {
    hide Total, Gain, Enabled, Apply, Insistent;
    Flow(OriginIs(o), c, s, l, t);
    OriginGain(c, s, l, o);
    Flow(Astray(c, o, m), c, s, l, t);
    AstrayGain(c, o, m, s, l, t);
  }

  lemma {:induction false} FollowRun(c: Config, o: nat, m: Message, s: State, ls: seq<Label>, t: State)
    requires Follow(c, o, m, s) && Trail(s) && Run(c, s, ls, t) && m.topic in c.handlers && Insistent(t.log, o)
    ensures Follow(c, o, m, t)
    decreases |ls|
  {
    hide Follow, Trail, Insistent;
    if ls != [] {
      var s' := Apply(c, s, ls[0]);
      TrailStep(c, s, ls[0], s');
      TrailRun(c, s', ls[1..], t);
      InsistentBefore(s'.log, t.log, o);
      FollowStep(c, o, m, s, ls[0], s');
      FollowRun(c, o, m, s', ls[1..], t);
    }
  }

  // ----- before it is published

  /** Where g counts nothing at all, neither does f. */
  lemma TotalZero(g: Valuation, f: Valuation, s: State)
    requires Counts(g, f)
    ensures Total(g, s) >= 0 && (Total(g, s) == 0 ==> Total(f, s) == 0)
  {
    hide Counts, Worth, PoolWorth, LogWorth, DispWorth, DrainWorth;
    IntakeZero(g, f, s);
    DispZero(g, f, s.disp, s.phase);
    WorthZero(g, f, InRing, s.ring.contents);
    WorthZero(g, f, InPool, s.pool);
    PoolZero(g, f, s.workers);
    LogZero(g, f, s.log);
  }

  lemma Unborn(c: Config, s: State, m: Message)
    requires Budget(c, s)
    ensures Total(OriginIs(s.next), s) == 0 && Total(Astray(c, s.next, m), s) == 0 && Total(RanFor(s.next), s) == 0
  {
    hide Total;
    var o := s.next;
    assert Total(OriginIs(o), s) <= 0;
    assert Counts(OriginIs(o), Astray(c, o, m)) && Counts(OriginIs(o), Tries(c, o));
    TotalZero(OriginIs(o), Astray(c, o, m), s);
    TotalZero(OriginIs(o), Tries(c, o), s);
  }

  lemma FollowPublish(c: Config, s: State, m: Message, t: State)
    requires Budget(c, s) && Shape(c, s) && s.transportOpen && m.key.None? && m.topic in c.handlers
    requires t == DoPublish(s, m)
    ensures Follow(c, s.next, m, t)
  {
    hide Total, Budget;
    var o := s.next;
    Unborn(c, s, m);
    EnvFlow(OriginIs(o), s, Publish(m), t);
    EnvFlow(Astray(c, o, m), s, Publish(m), t);
  }

  // ----- when it is over

  lemma {:induction false} LogOne(g: Valuation, f: Valuation, log: seq<Event>, i: nat)
    requires Counts(g, f) && i < |log|
    ensures LogWorth(g, log) >= EventWorth(g, log[i])
    ensures LogWorth(g, log) == EventWorth(g, log[i]) ==> LogWorth(f, log) == EventWorth(f, log[i])
    decreases |log|
  {
    hide Counts;
    var n := |log| - 1;
    EventZero(g, f, log[n]);
    LogZero(g, f, log[..n]);
    if i < n {
      LogOne(g, f, log[..n], i);
    }
  }

  lemma {:induction false} LogSome(g: Valuation, log: seq<Event>) returns (i: nat)
    requires LogWorth(g, log) > 0
    ensures i < |log| && EventWorth(g, log[i]) > 0
    decreases |log|
  {
    var n := |log| - 1;
    if EventWorth(g, log[n]) > 0 {
      i := n;
    } else {
      i := LogSome(g, log[..n]);
    }
  }

  /** No live place holds the message published as o. */
  ghost predicate Over(s: State, o: nat) {
    IntakeWorth(OriginIs(o), s) == 0 && DispatchWorth(OriginIs(o), s) == 0
  }

  /** Where g counts nothing outside the history, f's total is in the history too. */
  lemma InLog(g: Valuation, f: Valuation, s: State)
    requires Counts(g, f) && IntakeWorth(g, s) == 0 && DispatchWorth(g, s) == 0
    ensures Total(f, s) == LogWorth(f, s.log)
  {
    hide Counts, Worth, PoolWorth, LogWorth, DispWorth, DrainWorth, IntakeWorth;
    IntakeZero(g, f, s);
    DispZero(g, f, s.disp, s.phase);
    WorthZero(g, f, InRing, s.ring.contents);
    WorthZero(g, f, InPool, s.pool);
    PoolZero(g, f, s.workers);
  }

  lemma {:induction false} NobodyHolds(f: Valuation, ws: seq<Worker>)
    requires forall i :: 0 <= i < |ws| ==> !IsBusy(ws[i])
    ensures PoolWorth(f, ws) == 0
  {
    if ws != [] {
      NobodyHolds(f, ws[1..]);
    }
  }

  /** With nothing on its way at all, neither is this message. */
  lemma EmptyIsOver(s: State, o: nat)
    requires Empty(s)
    ensures Over(s, o)
  {
    hide Worth, PoolWorth, Flat;
    var f := OriginIs(o);
    NobodyHolds(f, s.workers);
    assert Items(s.wheel) == [];
    FlatNone();
    WorthNone(f, InQueue);
    WorthNone(f, WithPoller);
    WorthNone(f, InWheel);
    WorthNone(f, WithTicker);
    WorthNone(f, InChannel);
    WorthNone(f, WithTimer);
    WorthNone(f, InRing);
    WorthNone(f, InPool);
    WorthNone(f, InDrain);
  }

  lemma FlatNone()
    ensures Flat([]) == []
  {
  }

  /** The event that settled an insistent message left it spent, by way of the dead-letter queue. */
  lemma LastEvent(c: Config, o: nat, m: Message, s: State, e: Event)
    requires Trail(s) && Insistent(s.log, o) && e in s.log && m.topic in c.handlers
    requires EventWorth(OriginIs(o), e) > 0 && EventWorth(Astray(c, o, m), e) == 0
    ensures (e.AckCalled? && e.why.DeadLetter?) || (e.DlqCalled? && !e.ok)
    ensures e.d.origin == o && DlqSeen(s.log, o)
    ensures e.d.msg.topic == m.topic && e.d.born == m.attempts && e.d.msg.attempts >= c.handlers[m.topic].maxRetries
  {
    hide HandOk, BatchOk, AckDecided;
    assert EventOk(s, e);
    assert Concerns(e, o) ==> Insists(e);
    NoAck(s.log, o);
    assert e.DlqCalled? ==> DlqSeen(s.log, e.d.origin);
  }

  lemma NoAck(log: seq<Event>, o: nat)
    requires Insistent(log, o)
    ensures !AckDecided(log, o)
  {
    forall e | e in log && e.Decided? && e.d.origin == o
      ensures !e.result.action.Ack?
    {
      assert Concerns(e, o);
    }
  }

  /** The budget of handler runs of a message published with this Attempts. */
  function Quota(c: Config, m: Message): (n: int)
    requires m.topic in c.handlers
  {
    var max := c.handlers[m.topic].maxRetries;
    if m.attempts <= max then max - m.attempts + 1 else 1
  }

  lemma SpentQuota(c: Config, o: nat, m: Message, s: State)
    requires Budget(c, s) && Trail(s) && Follow(c, o, m, s) && Over(s, o) && Insistent(s.log, o)
    requires m.topic in c.handlers
    ensures Runs(s.log, o) == Quota(c, m) && DlqSeen(s.log, o)
  {
    hide Total, Budget, Trail, Insistent, IntakeWorth, DispatchWorth;
    var g, a, b := OriginIs(o), Astray(c, o, m), OutOfBudget(c);
    assert Counts(g, g) && Counts(g, a) && Counts(g, Tries(c, o)) && Counts(b, b) && Counts(a, a);
    InLog(g, g, s);
    var i := LogSome(g, s.log);
    var e := s.log[i];
    LogOne(g, a, s.log, i);
    LogOne(g, Tries(c, o), s.log, i);
    InLog(g, a, s);
    EventZero(a, a, e);
    LastEvent(c, o, m, s, e);
    BudgetFacts(c, s, o);
    InLogOnly(b, s, i);
    EventZero(b, b, e);
    InLog(g, Tries(c, o), s);
    RunsIsTotal(o, s);
  }

  /** In any run: once a keyless message with a registered topic, whose every handler run asked for a retry, whose
      every nack was redelivered and which was never refused or dropped, is no longer on its way, it has run its
      handler exactly maxRetries - Attempts + 1 times, and it was sent to the dead-letter queue, whatever else is still
      in flight. */
  lemma RetriedToTheEnd(c: Config, now: int, ls: seq<Label>, s: State, m: Message, rest: seq<Label>, t: State)
    requires WellFormed(c) && Run(c, Initial(c, now), ls, s) && s.transportOpen
    requires m.key.None? && m.topic in c.handlers && Run(c, DoPublish(s, m), rest, t)
    requires Insistent(t.log, s.next) && Over(t, s.next)
    ensures Runs(t.log, s.next) == Quota(c, m) && DlqSeen(t.log, s.next)
  {
    hide Run, Initial, Budget, Trail, Control, Follow, Over, Insistent;
    var p := DoPublish(s, m);
    BudgetInitial(c, now);
    BudgetRun(c, Initial(c, now), ls, s);
    TrailInitial(c, now);
    TrailRun(c, Initial(c, now), ls, s);
    ControlInitial(c, now);
    ControlRun(c, Initial(c, now), ls, s);
    ControlShape(c, s);
    FollowPublish(c, s, m, p);
    PublishStep(c, s, m);
    BudgetStep(c, s, Env(Publish(m)), p);
    TrailStep(c, s, Env(Publish(m)), p);
    BudgetRun(c, p, rest, t);
    TrailRun(c, p, rest, t);
    FollowRun(c, s.next, m, p, rest, t);
    SpentQuota(c, s.next, m, t);
  }

  lemma PublishStep(c: Config, s: State, m: Message)
    requires Shape(c, s)
    ensures Enabled(c, s, Env(Publish(m))) && Apply(c, s, Env(Publish(m))) == DoPublish(s, m)
  {
  }

  /** Events of the past do not concern a message that is still to be published. */
  lemma NotYetConcerned(c: Config, s: State, e: Event)
    requires Budget(c, s) && Trail(s) && e in s.log && Concerns(e, s.next)
    ensures e.NackCalled? && e.requeued
  {
    hide Budget, Total, Trail;
    var o := s.next;
    Unborn(c, s, Message("", "", None, 0, 0));
    var g, r := OriginIs(o), RanFor(o);
    assert Counts(g, g) && Counts(r, r);
    var i :| 0 <= i < |s.log| && s.log[i] == e;
    InLogOnly(g, s, i);
    InLogOnly(r, s, i);
  }

  lemma InLogOnly(g: Valuation, s: State, i: nat)
    requires Counts(g, g) && Total(g, s) <= 0 && i < |s.log|
    ensures EventWorth(g, s.log[i]) <= 0
  {
    hide Counts, Worth, PoolWorth, LogWorth, DispWorth, DrainWorth;
    IntakeZero(g, g, s);
    DispZero(g, g, s.disp, s.phase);
    WorthZero(g, g, InRing, s.ring.contents);
    WorthZero(g, g, InPool, s.pool);
    PoolZero(g, g, s.workers);
    LogOne(g, g, s.log, i);
  }

  /** The handlers insist on retrying the message published as o, whatever they answer to others. */
  ghost predicate Stubborn(answer: Answer, o: nat) {
    forall d: Delivery :: d.origin == o ==> WantsRetry(answer(d).action)
  }

  lemma ObeyedInsists(c: Config, s: State, m: Message, answer: Answer, t: State)
    requires Budget(c, s) && Trail(s) && s.transportOpen && Stubborn(answer, s.next)
    requires Obeys(answer, DoPublish(s, m).log, t.log)
    requires Control(c, t) && Attended(t) && Trail(t) && Up(t)
    ensures Insistent(t.log, s.next)
  {
    hide Budget, Trail, Control, Attended, Up;
    var p := DoPublish(s, m).log;
    assert |p| == |s.log| + 1 && p[..|s.log|] == s.log;
    assert t.log[..|p|] == p;
    forall e | e in t.log && Concerns(e, s.next)
      ensures Insists(e)
    {
      NothingLost(c, t, e);
      var i :| 0 <= i < |t.log| && t.log[i] == e;
      assert i < |p| ==> e == p[i];
      assert i < |s.log| ==> e == s.log[i];
      if e in s.log {
        NotYetConcerned(c, s, e);
      } else {
        assert i >= |p| ==> Follows(answer, e);
      }
    }
  }

  /** An insistent message: published into any reachable serving state, with coordinators that never re-insert, it runs
      exactly maxRetries - Attempts + 1 times, maxRetries + 1 from zero, and ends in the dead-letter queue, in a
      continuation that gets everything done and in which the other handlers answer as they like. */
  lemma AlwaysRetried(c: Config, now: int, s: State, m: Message, answer: Answer) returns (t: State)
    requires WellFormed(c) && AvoidsRing(c) && Reachable(c, now, s) && Up(s) && Stubborn(answer, s.next)
    requires m.attempts >= 0 && m.key.None? && m.topic in c.handlers
    ensures Leads(c, answer, DoPublish(s, m), t) && Up(t) && Empty(t)
    ensures Runs(t.log, s.next) == Quota(c, m) && DlqSeen(t.log, s.next)
  {
    hide Run, Initial, Budget, Trail, Control, Attended, Empty;
    hide Insistent, AvoidsRing, Obeys, Stubborn, Sound, SameMode, Over;
    var ls :| Run(c, Initial(c, now), ls, s) && forall i :: 0 <= i < |ls| ==> NonNegative(ls[i]);
    ReachableSound(c, now, s, answer);
    SoundControl(c, answer, s);
    ControlShape(c, s);
    UpOpen(c, s);
    PublishStep(c, s, m);
    var p := DoPublish(s, m);
    ReachStep(c, now, s, Env(Publish(m)), p);
    PublishUp(s, m);
    t := Quiescence(c, now, p, answer);
    RestedUp(c, answer, p, t);
    var rest :| Continues(c, answer, p, rest, t);
    BudgetInitial(c, now);
    BudgetRun(c, Initial(c, now), ls, s);
    TrailInitial(c, now);
    TrailRun(c, Initial(c, now), ls, s);
    TrailStep(c, s, Env(Publish(m)), p);
    TrailRun(c, p, rest, t);
    ReachableSound(c, now, p, answer);
    SoundControl(c, answer, p);
    ControlRun(c, p, rest, t);
    AttendedRun(c, p, rest, t);
    ObeyedInsists(c, s, m, answer, t);
    EmptyIsOver(t, s.next);
    RetriedToTheEnd(c, now, ls, s, m, rest, t);
  }

  lemma RestedUp(c: Config, answer: Answer, s: State, t: State)
    requires Up(s) && Leads(c, answer, s, t) && Rested(t)
    ensures Up(t) && Empty(t)
  {
    hide Run, Obeys;
  }

  lemma UpOpen(c: Config, s: State)
    requires Control(c, s) && Up(s)
    ensures s.transportOpen
  {
  }

  lemma PublishUp(s: State, m: Message)
    requires Up(s)
    ensures Up(DoPublish(s, m))
  {
  }
}
