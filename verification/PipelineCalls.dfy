/** What the labels of a run alone say about its state. */
module PipelineCalls {
  import opened Retry
  import opened RingSpec
  import opened Pipeline
  import opened PipelineControl
  import opened PipelineQuiet
  import opened PipelineProgress
  import opened PipelineAlive
  import opened PipelineDelay

  /** The run's context was cancelled. */
  predicate Cancels(ls: seq<Label>) {
    exists i :: 0 <= i < |ls| && ls[i] == Env(Cancel)
  }

  /** Subscribe returned an error. */
  predicate PollFails(ls: seq<Label>) {
    exists i :: 0 <= i < |ls| && ls[i] == Poll(PollExit(true))
  }

  function Elapsed(ls: seq<Label>): (dt: nat) {
    if ls == [] then 0
    else
      var last := ls[|ls| - 1];
      Elapsed(ls[..|ls| - 1]) + if last.Env? && last.e.Pass? then last.e.dt else 0
  }

  function Batches(ls: seq<Label>): (n: nat) {
    if ls == [] then 0 else Batches(ls[..|ls| - 1]) + if ls[|ls| - 1] == Disp(Dequeue) then 1 else 0
  }

  /** Clock, cancellation and batch number are those the labels amount to, and the shutdown began only if the context
      was cancelled or the subscription failed. */
  predicate Heeds(now: int, ls: seq<Label>, s: State) {
    && s.now == now + Elapsed(ls) && s.batch == Batches(ls)
    && (s.cancelled <==> Cancels(ls)) && (s.pollCancelled <==> PollFails(ls))
    && (!s.phase.Serving? ==> Cancels(ls) || PollFails(ls))
  }

  lemma LabelsMore(ls: seq<Label>, l: Label)
    ensures Elapsed(ls + [l]) == Elapsed(ls) + if l.Env? && l.e.Pass? then l.e.dt else 0
    ensures Batches(ls + [l]) == Batches(ls) + if l == Disp(Dequeue) then 1 else 0
    ensures Cancels(ls + [l]) <==> Cancels(ls) || l == Env(Cancel)
    ensures PollFails(ls + [l]) <==> PollFails(ls) || l == Poll(PollExit(true))
  {
    var more := ls + [l];
    assert more[..|ls|] == ls && more[|ls|] == l;
    assert forall i :: 0 <= i < |ls| ==> more[i] == ls[i];
    if Cancels(ls) {
      var i :| 0 <= i < |ls| && ls[i] == Env(Cancel);
      assert more[i] == Env(Cancel);
    }
    if PollFails(ls) {
      var i :| 0 <= i < |ls| && ls[i] == Poll(PollExit(true));
      assert more[i] == Poll(PollExit(true));
    }
  }

  lemma NowStep(c: Config, s: State, l: Label, t: State)
    requires Enabled(c, s, l) && t == Apply(c, s, l)
    ensures t.now == s.now + if l.Env? && l.e.Pass? then l.e.dt else 0
  {
    hide Apply, CanTick, CanMain, CanDisp, CanWork, CanTimer;
    if l == Poll(Deliver) {
      DeliverIsStep(c, s);
      FilesDeliver(s);
    } else {
      FilesStep(c, s, l, t);
    }
  }

  lemma BatchStep(c: Config, s: State, l: Label, t: State)
    requires Enabled(c, s, l) && t == Apply(c, s, l)
    ensures t.batch == s.batch + if l == Disp(Dequeue) then 1 else 0
  {
    hide DoEnv, DoPoll, DoTick, DoTimer, DoDisp, DoWork, DoEvict, DoMain, QuietLog;
    hide CanTick, CanPoll, CanTimer, CanMain, CanDisp, CanWork;
    if l.Disp? {
      DispKeepsWorkers(c, s, l.x, t);
    } else if l.Work? {
      WorkChanges(c, s, l.w, l.k, t);
    } else if l.Evict? {
      EvictBatch(s, l.v, t);
    } else if IsQuiet(s, l) {
      QuietStep(c, s, l, t);
    } else {
      QuietMain(s, t);
      FinishBatch(s);
    }
  }

  lemma EvictBatch(s: State, l: EvictStep, t: State)
    requires CanEvict(s, l) && t == DoEvict(s, l)
    ensures t.batch == s.batch && SameMode(s, t)
  {
    match l
    case ReadClock =>
    case Sweep =>
  }

  lemma FinishBatch(s: State)
    ensures DoFinish(s).batch == s.batch
  {
  }

  /** The flags a step sets. */
  predicate Flags(s: State, l: Label, t: State) {
    && t.cancelled == (s.cancelled || l == Env(Cancel))
    && t.pollCancelled == (s.pollCancelled || l == Poll(PollExit(true)))
    && (!l.Main? ==> t.phase == s.phase)
  }

  lemma FlagsEnv(s: State, l: EnvStep, t: State)
    requires t == DoEnv(s, l)
    ensures Flags(s, Env(l), t)
  {
    hide DoEnv, DoPublish;
    ModeEnv(s, l, t);
    if l.Cancel? {
      ModeCancel(s);
    }
  }

  lemma FlagsExit(s: State, err: bool)
    requires Bounded(s.ring) && CanPoll(s, PollExit(err))
    ensures Flags(s, Poll(PollExit(err)), DoPoll(s, PollExit(err)))
  {
    hide DoDeliver, Offer;
  }

  lemma FlagsTickExit(s: State)
    ensures Flags(s, Tick(TickExit), DoTick(s, TickExit))
  {
    hide Dropped;
  }

  lemma FlagsTimerExit(s: State)
    requires Bounded(s.ring) && CanTimer(s, TimerExit)
    ensures Flags(s, Timer(TimerExit), DoTimer(s, TimerExit))
  {
    hide Offer;
  }

  lemma FlagsSame(s: State, l: Label, t: State)
    requires SameMode(s, t) && l != Env(Cancel) && l != Poll(PollExit(true))
    ensures Flags(s, l, t)
  {
  }

  lemma FlagsStop(s: State)
    ensures Flags(s, Main, DoStop(s))
  {
  }

  lemma FlagsDrainWheel(s: State)
    ensures Flags(s, Main, DoDrainWheel(s))
  {
  }

  lemma FlagsFinish(s: State)
    ensures Flags(s, Main, DoFinish(s))
  {
  }

  lemma FlagsDrain(s: State)
    requires Bounded(s.ring) && s.phase.Draining? && s.phase.rest != []
    ensures Flags(s, Main, DoDrain(s))
  {
    hide Offer, EnqueueLog;
  }

  lemma FlagsMain(s: State, t: State)
    requires Bounded(s.ring) && CanMain(s) && t == DoMain(s)
    ensures Flags(s, Main, t)
  {
    hide Flags, DoStop, DoDrainWheel, DoFinish, DoDrain, Offer;
    FlagsStop(s);
    FlagsDrainWheel(s);
    FlagsFinish(s);
    if s.phase.Draining? && s.phase.rest != [] {
      FlagsDrain(s);
    }
  }

  lemma FlagsStep(c: Config, s: State, l: Label, t: State)
    requires Enabled(c, s, l) && t == Apply(c, s, l)
    ensures Flags(s, l, t)
  {
    hide Flags, DoEnv, DoPoll, DoTick, DoTimer, DoDisp, DoWork, DoEvict, DoMain;
    hide CanTick, CanPoll, CanTimer, CanMain, CanDisp, CanWork, SameMode;
    match l
    case Env(e) => FlagsEnv(s, e, t);
    case Poll(p) =>
      if p.PollExit? {
        FlagsExit(s, p.err);
      } else {
        ModePoll(s, p, t);
        FlagsSame(s, l, t);
      }
    case Tick(x) =>
      if x.TickExit? {
        FlagsTickExit(s);
      } else {
        ModeTick(s, x, t);
        FlagsSame(s, l, t);
      }
    case Timer(r) =>
      if r.TimerExit? {
        FlagsTimerExit(s);
      } else {
        ModeTimer(s, r, t);
        FlagsSame(s, l, t);
      }
    case Disp(x) =>
      ModeDisp(c, s, x, t);
      FlagsSame(s, l, t);
    case Work(w, k) =>
      ModeWork(c, s, w, k, t);
      FlagsSame(s, l, t);
    case Evict(v) =>
      EvictBatch(s, v, t);
      FlagsSame(s, l, t);
    case Main => FlagsMain(s, t);
  }

  lemma HeedsStep(c: Config, now: int, past: seq<Label>, s: State, l: Label, t: State)
    requires Heeds(now, past, s) && Enabled(c, s, l) && t == Apply(c, s, l)
    ensures Heeds(now, past + [l], t)
  {
    hide Elapsed, Batches, Cancels, PollFails, Apply, CanTick, CanPoll, CanTimer, CanDisp, CanWork;
    LabelsMore(past, l);
    NowStep(c, s, l, t);
    BatchStep(c, s, l, t);
    FlagsStep(c, s, l, t);
  }

  lemma {:induction false} HeedsRun(c: Config, now: int, past: seq<Label>, s: State, ls: seq<Label>, t: State)
    requires Heeds(now, past, s) && Run(c, s, ls, t)
    ensures Heeds(now, past + ls, t)
    decreases |ls|
  {
    hide Heeds;
    if ls == [] {
      assert past + ls == past;
    } else {
      HeedsStep(c, now, past, s, ls[0], Apply(c, s, ls[0]));
      HeedsRun(c, now, past + [ls[0]], Apply(c, s, ls[0]), ls[1..], t);
      assert past + [ls[0]] + ls[1..] == past + ls;
    }
  }

  /** In every run the clock shows the time that passed and the batch number the batches taken; the shutdown can begin
      if and only if the context was cancelled or Subscribe failed, and it has not begun otherwise. */
  lemma RunHeeds(c: Config, now: int, ls: seq<Label>, s: State)
    requires WellFormed(c) && Run(c, Initial(c, now), ls, s)
    ensures s.now == now + Elapsed(ls) && s.batch == Batches(ls)
    ensures s.phase.Serving? ==> (Enabled(c, s, Main) <==> Cancels(ls) || PollFails(ls))
    ensures !s.phase.Serving? ==> Cancels(ls) || PollFails(ls)
    ensures DispCancelled(s) ==> Cancels(ls) || PollFails(ls)
  {
    hide Run, Elapsed, Batches, Cancels, PollFails, Control;
    HeedsInitial(c, now);
    HeedsRun(c, now, [], Initial(c, now), ls, s);
    assert [] + ls == ls;
    ControlInitial(c, now);
    ControlRun(c, Initial(c, now), ls, s);
    ControlHasShape(c, s);
  }

  lemma HeedsInitial(c: Config, now: int)
    requires WellFormed(c)
    ensures Heeds(now, [], Initial(c, now))
  {
  }

  lemma ControlHasShape(c: Config, s: State)
    requires Control(c, s)
    ensures Shape(c, s)
  {
  }

  // ----- the store's sweep

  lemma FinishEvict(s: State)
    ensures DoFinish(s).evict == s.evict
  {
  }

  /** Between two steps of the sweep its clock reading is left alone. */
  lemma EvictStays(c: Config, s: State, l: Label, t: State)
    requires Enabled(c, s, l) && t == Apply(c, s, l) && !l.Evict?
    ensures t.evict == s.evict
  {
    hide DoEnv, DoPoll, DoTick, DoTimer, DoDisp, DoWork, DoMain, QuietLog;
    hide CanTick, CanPoll, CanTimer, CanMain, CanDisp, CanWork;
    if l.Disp? {
      DispKeepsWorkers(c, s, l.x, t);
    } else if l.Work? {
      WorkChanges(c, s, l.w, l.k, t);
    } else if IsQuiet(s, l) {
      QuietStep(c, s, l, t);
    } else {
      QuietMain(s, t);
      FinishEvict(s);
    }
  }

  lemma {:induction false} EvictWaits(c: Config, s: State, ls: seq<Label>, t: State)
    requires Run(c, s, ls, t) && forall i :: 0 <= i < |ls| ==> !ls[i].Evict?
    ensures t.evict == s.evict
    decreases |ls|
  {
    if ls != [] {
      EvictStays(c, s, ls[0], Apply(c, s, ls[0]));
      EvictWaits(c, Apply(c, s, ls[0]), ls[1..], t);
    }
  }

  /** The sweep drops exactly what had expired when it read the clock, however long ago that was and whatever was marked
      since, and leaves all other entries as they are. */
  lemma SweepExact(c: Config, s: State, ls: seq<Label>, t: State)
    requires Enabled(c, s, Evict(ReadClock)) && Run(c, Apply(c, s, Evict(ReadClock)), ls, t)
    requires (forall i :: 0 <= i < |ls| ==> !ls[i].Evict?) && Shape(c, t)
    ensures Enabled(c, t, Evict(Sweep))
    ensures var u := Apply(c, t, Evict(Sweep));
      && (forall k :: k in u.keys <==> k in t.keys && s.now <= t.keys[k])
      && (forall k :: k in u.keys ==> u.keys[k] == t.keys[k])
  {
    hide Run;
    var m := Apply(c, s, Evict(ReadClock));
    EvictWaits(c, m, ls, t);
    assert t.evict == Some(s.now);
  }
}
