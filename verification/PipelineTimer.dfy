/** What the wheel releases reaches the ring in the order of its release. */
module PipelineTimer {
  import opened RingSpec
  import opened TimerWheel
  import opened Pipeline
  import opened PipelineFlow
  import opened PipelineProgress
  import opened PipelineAlive
  import opened PipelineBounds

  /** Everything the ticks of a run released, in order. */
  function Released(ls: seq<Label>): (ds: seq<Delivery>) {
    if ls == [] then []
    else
      var last := ls[|ls| - 1];
      Released(ls[..|ls| - 1]) + if last.Tick? && last.t.Expire? then Items(last.t.out) else []
  }

  /** How many of them runTimer has handed to the ring. */
  function Entered(ls: seq<Label>): (n: nat) {
    if ls == [] then 0 else Entered(ls[..|ls| - 1]) + if ls[|ls| - 1] == Timer(TimerEnqueue) then 1 else 0
  }

  /** On the belt from the wheel to the ring, next first. */
  function Belt(s: State): (ds: seq<Delivery>) {
    s.timerHeld + (Flat(s.channel) + s.tickHeld)
  }

  /** What is on the belt is what was released and has not entered yet; the end of it is lost if the ticker leaves. */
  predicate InStep(ls: seq<Label>, s: State) {
    && Entered(ls) <= |Released(ls)|
    && Belt(s) <= Released(ls)[Entered(ls)..]
    && (!s.tickExited ==> Belt(s) == Released(ls)[Entered(ls)..])
  }

  lemma LabelsMore(ls: seq<Label>, l: Label)
    ensures Released(ls + [l]) == Released(ls) + if l.Tick? && l.t.Expire? then Items(l.t.out) else []
    ensures Entered(ls + [l]) == Entered(ls) + if l == Timer(TimerEnqueue) then 1 else 0
  {
    assert (ls + [l])[..|ls|] == ls;
  }

  lemma BeltTick(s: State, l: TickStep, t: State)
    requires CanTick(s, l) && t == DoTick(s, l)
    ensures l.Expire? ==> Belt(t) == Belt(s) + Items(l.out) && !s.tickExited
    ensures l.SendBatch? ==> Belt(t) == Belt(s)
    ensures l.TickExit? ==> Belt(t) <= Belt(s) && t.tickExited
    ensures !l.TickExit? ==> t.tickExited == s.tickExited
  {
    match l
    case Expire(tick, out, rest) => BeltExpire(s, tick, out, rest);
    case SendBatch => BeltSend(s);
    case TickExit => BeltExit(s);
  }

  lemma BeltExpire(s: State, tick: int, out: seq<Slot<Delivery>>, rest: seq<Slot<Delivery>>)
    requires s.tickHeld == []
    ensures Belt(DoTick(s, Expire(tick, out, rest))) == Belt(s) + Items(out)
    ensures DoTick(s, Expire(tick, out, rest)).tickExited == s.tickExited
  {
    hide Flat;
  }

  lemma BeltSend(s: State)
    ensures Belt(DoTick(s, SendBatch)) == Belt(s) && DoTick(s, SendBatch).tickExited == s.tickExited
  {
    hide Flat;
    FlatAdd(s.channel, s.tickHeld);
    var none: seq<Delivery> := [];
    assert Flat(s.channel) + s.tickHeld + none == Flat(s.channel) + s.tickHeld;
  }

  lemma BeltExit(s: State)
    ensures Belt(DoTick(s, TickExit)) <= Belt(s) && DoTick(s, TickExit).tickExited
  {
    hide Flat, Dropped;
    var t := DoTick(s, TickExit);
    assert Belt(s) == Belt(t) + s.tickHeld;
  }

  lemma BeltTimer(s: State, l: TimerStep, t: State)
    requires Bounded(s.ring) && CanTimer(s, l) && t == DoTimer(s, l)
    ensures l.TimerEnqueue? ==> Belt(s) != [] && s.timerHeld[0] == Belt(s)[0] && Belt(t) == Belt(s)[1..]
    ensures !l.TimerEnqueue? ==> Belt(t) == Belt(s)
    ensures t.tickExited == s.tickExited
  {
    match l
    case TimerReceive => BeltReceive(s);
    case TimerEnqueue => BeltEnqueue(s);
    case TimerExit => BeltTimerExit(s);
  }

  lemma BeltReceive(s: State)
    requires Bounded(s.ring) && CanTimer(s, TimerReceive)
    ensures var t := DoTimer(s, TimerReceive); Belt(t) == Belt(s) && t.tickExited == s.tickExited
  {
    hide Offer;
    var rest := Flat(s.channel[1..]);
    assert Flat(s.channel) == s.channel[0] + rest;
    assert s.channel[0] + (rest + s.tickHeld) == (s.channel[0] + rest) + s.tickHeld;
  }

  lemma BeltEnqueue(s: State)
    requires Bounded(s.ring) && CanTimer(s, TimerEnqueue)
    ensures var t := DoTimer(s, TimerEnqueue);
      && Belt(s) != [] && s.timerHeld[0] == Belt(s)[0] && Belt(t) == Belt(s)[1..] && t.tickExited == s.tickExited
  {
    hide Offer, EnqueueLog, Flat;
  }

  lemma BeltTimerExit(s: State)
    requires Bounded(s.ring) && CanTimer(s, TimerExit)
    ensures var t := DoTimer(s, TimerExit); Belt(t) == Belt(s) && t.tickExited == s.tickExited
  {
    hide Offer, Flat;
  }

  /** Everybody else leaves the belt alone. */
  lemma BeltOthers(c: Config, s: State, l: Label, t: State)
    requires Enabled(c, s, l) && t == Apply(c, s, l) && !l.Tick? && !l.Timer?
    ensures SameBelt(s, t) && t.tickExited == s.tickExited
  {
    hide DoEnv, DoPoll, DoDisp, DoWork, DoEvict, DoMain, CanPoll, CanDisp, CanWork, CanMain;
    match l
    case Env(e) =>
      ChannelEnv(s, e, t);
      ModeEnv(s, e, t);
    case Poll(p) =>
      ChannelPoll(s, p, t);
      ModePoll(s, p, t);
    case Disp(x) =>
      DispKeepsWorkers(c, s, x, t);
      ModeDisp(c, s, x, t);
    case Work(w, k) =>
      WorkChanges(c, s, w, k, t);
      ModeWork(c, s, w, k, t);
    case Evict(v) =>
      ChannelEvict(s, v, t);
      ModeEvict(s, v, t);
    case Main =>
      ChannelMain(s, t);
      ModeMain(s, t);
  }

  /** Releasing appends to both sides. */
  lemma AppendBoth(all: seq<Delivery>, n: nat, belt: seq<Delivery>, more: seq<Delivery>)
    requires n <= |all| && belt == all[n..]
    ensures belt + more == (all + more)[n..]
  {
  }

  lemma InStepTick(past: seq<Label>, s: State, x: TickStep, t: State)
    requires InStep(past, s) && CanTick(s, x) && t == DoTick(s, x)
    ensures InStep(past + [Tick(x)], t)
  {
    hide Released, Entered, Belt, CanTick, DoTick;
    LabelsMore(past, Tick(x));
    BeltTick(s, x, t);
    var none: seq<Delivery> := [];
    assert Released(past) + none == Released(past);
    if x.Expire? {
      AppendBoth(Released(past), Entered(past), Belt(s), Items(x.out));
    }
  }

  lemma InStepTimer(past: seq<Label>, s: State, r: TimerStep, t: State)
    requires Bounded(s.ring) && InStep(past, s) && CanTimer(s, r) && t == DoTimer(s, r)
    ensures InStep(past + [Timer(r)], t)
  {
    hide Released, Entered, Belt, CanTimer, DoTimer;
    LabelsMore(past, Timer(r));
    BeltTimer(s, r, t);
    var all, n := Released(past), Entered(past);
    assert all + [] == all;
    if r.TimerEnqueue? {
      assert all[n..][1..] == all[n + 1..];
    }
  }

  lemma InStepStep(c: Config, past: seq<Label>, s: State, l: Label, t: State)
    requires InStep(past, s) && Enabled(c, s, l) && t == Apply(c, s, l)
    ensures InStep(past + [l], t)
  {
    hide InStep, DoEnv, DoPoll, DoTick, DoTimer, DoDisp, DoWork, DoEvict, DoMain;
    hide CanPoll, CanTick, CanTimer, CanDisp, CanWork, CanMain;
    if l.Tick? {
      InStepTick(past, s, l.t, t);
    } else if l.Timer? {
      InStepTimer(past, s, l.r, t);
    } else {
      BeltOthers(c, s, l, t);
      InStepSame(past, s, l, t);
    }
  }

  lemma InStepSame(past: seq<Label>, s: State, l: Label, t: State)
    requires InStep(past, s) && SameBelt(s, t) && t.tickExited == s.tickExited && !l.Tick? && !l.Timer?
    ensures InStep(past + [l], t)
  {
    hide Released, Entered, Flat;
    LabelsMore(past, l);
    assert Released(past) + [] == Released(past);
  }

  lemma {:induction false} InStepRun(c: Config, past: seq<Label>, s: State, ls: seq<Label>, t: State)
    requires InStep(past, s) && Run(c, s, ls, t)
    ensures InStep(past + ls, t)
    decreases |ls|
  {
    hide InStep;
    if ls == [] {
      assert past + ls == past;
    } else {
      InStepStep(c, past, s, ls[0], Apply(c, s, ls[0]));
      InStepRun(c, past + [ls[0]], Apply(c, s, ls[0]), ls[1..], t);
      assert past + [ls[0]] + ls[1..] == past + ls;
    }
  }

  /** In every run the delayed messages reach the ring in the order of their release: the n-th that runTimer hands
      over is the n-th the wheel released. */
  lemma ReleasedInOrder(c: Config, now: int, ls: seq<Label>, s: State)
    requires WellFormed(c) && Run(c, Initial(c, now), ls, s) && Enabled(c, s, Timer(TimerEnqueue))
    ensures Entered(ls) < |Released(ls)| && s.timerHeld[0] == Released(ls)[Entered(ls)]
  {
    hide Run, Released, Entered, Flat;
    InStepInitial(c, now);
    InStepRun(c, [], Initial(c, now), ls, s);
    assert [] + ls == ls;
    assert Belt(s)[0] == s.timerHeld[0];
  }

  lemma InStepInitial(c: Config, now: int)
    requires WellFormed(c)
    ensures InStep([], Initial(c, now))
  {
  }
}
