/** Steps outside the dispatcher and the workers leave both, and their history, alone. */
module PipelineQuiet {
  import opened RingSpec
  import opened Pipeline

  /** Events that concern filtering, handlers and settlements. */
  predicate Loud(e: Event) {
    || e.Submitted? || e.FoundDuplicate? || e.Started? || e.Decided?
    || e.AckCalled? || e.NackCalled? || e.DlqCalled? || e.Marked?
  }

  /** Nothing logged is ever taken back. */
  ghost predicate Extends(log: seq<Event>, later: seq<Event>) {
    forall e :: e in log ==> e in later
  }

  /** `later` extends `log` by events that are not loud. */
  ghost predicate QuietLog(log: seq<Event>, later: seq<Event>) {
    && |log| <= |later| && later[..|log|] == log
    && forall i :: |log| <= i < |later| ==> !Loud(later[i])
  }

  ghost predicate Quiet(s: State, t: State) {
    && t.disp == s.disp && t.pool == s.pool && t.workers == s.workers && t.batch == s.batch
    && t.keys == s.keys && t.storeOpen == s.storeOpen && t.wg == s.wg && t.evict == s.evict
    && t.now >= s.now
    && QuietLog(s.log, t.log)
  }

  lemma QuietEnv(s: State, l: EnvStep, t: State)
    requires t == DoEnv(s, l)
    ensures Quiet(s, t)
  {
    match l
    case Publish(m) => assert t == DoPublish(s, m);
    case Cancel =>
    case Pass(_) =>
  }

  lemma QuietDeliver(s: State)
    requires Bounded(s.ring) && CanPoll(s, Deliver)
    ensures Quiet(s, DoDeliver(s))
  {
    hide Offer;
  }

  lemma QuietPoll(s: State, l: PollStep, t: State)
    requires Bounded(s.ring) && CanPoll(s, l) && t == DoPoll(s, l)
    ensures Quiet(s, t)
  {
    match l
    case Receive(_) =>
    case Deliver => QuietDeliver(s);
    case PollExit(_) =>
  }

  lemma QuietTick(s: State, l: TickStep, t: State)
    requires t == DoTick(s, l)
    ensures Quiet(s, t)
  {
    match l
    case Expire(_, _, _) =>
    case SendBatch =>
    case TickExit =>
  }

  lemma QuietTimerReceive(s: State)
    requires Bounded(s.ring) && CanTimer(s, TimerReceive)
    ensures Quiet(s, DoTimer(s, TimerReceive))
  {
    hide Offer;
  }

  lemma QuietTimerEnqueue(s: State)
    requires Bounded(s.ring) && CanTimer(s, TimerEnqueue)
    ensures Quiet(s, DoTimer(s, TimerEnqueue))
  {
    hide Offer;
  }

  lemma QuietTimerExit(s: State)
    requires Bounded(s.ring) && CanTimer(s, TimerExit)
    ensures Quiet(s, DoTimer(s, TimerExit))
  {
    hide Offer;
  }

  lemma QuietTimer(s: State, l: TimerStep, t: State)
    requires Bounded(s.ring) && CanTimer(s, l) && t == DoTimer(s, l)
    ensures Quiet(s, t)
  {
    hide Quiet, DoTimer, CanTimer;
    match l
    case TimerReceive => QuietTimerReceive(s);
    case TimerEnqueue => QuietTimerEnqueue(s);
    case TimerExit => QuietTimerExit(s);
  }

  lemma QuietStop(s: State)
    ensures Quiet(s, DoStop(s))
  {
  }

  lemma QuietWheel(s: State)
    ensures Quiet(s, DoDrainWheel(s))
  {
  }

  lemma QuietDrain(s: State)
    requires Bounded(s.ring) && s.phase.Draining? && s.phase.rest != []
    ensures Quiet(s, DoDrain(s))
  {
    hide Offer;
  }

  /** Run's own steps are quiet until the last one closes the store. */
  lemma QuietMain(s: State, t: State)
    requires Bounded(s.ring) && CanMain(s) && t == DoMain(s)
    ensures s.phase != Draining([]) ==> Quiet(s, t)
    ensures s.phase == Draining([]) ==> t == DoFinish(s)
  {
    hide Quiet, DoDrainWheel, DoFinish, DoDrain, DoStop;
    if s.phase.RingClosed? {
      QuietWheel(s);
    } else if s.phase == Draining([]) {
    } else if s.phase.Draining? {
      QuietDrain(s);
    } else {
      QuietStop(s);
    }
  }

  predicate IsQuiet(s: State, l: Label) {
    l.Env? || l.Poll? || l.Tick? || l.Timer? || (l.Main? && s.phase != Draining([]))
  }

  lemma QuietStep(c: Config, s: State, l: Label, t: State)
    requires Enabled(c, s, l) && t == Apply(c, s, l) && IsQuiet(s, l)
    ensures Quiet(s, t)
  {
    hide Quiet, DoEnv, DoPoll, DoTick, DoTimer, DoMain;
    match l
    case Env(e) => QuietEnv(s, e, t);
    case Poll(p) => QuietPoll(s, p, t);
    case Tick(x) => QuietTick(s, x, t);
    case Timer(r) => QuietTimer(s, r, t);
    case Main => QuietMain(s, t);
  }
}
