/** A message keeps its content on its whole way through the pipeline; only Attempts counts up. */
module PipelineContent {
  import opened Retry
  import opened RingSpec
  import opened Pipeline
  import opened PipelineControl
  import opened PipelineFlow
  import opened PipelineBudget
  import opened PipelineFate

  /** The message m but for Attempts. */
  predicate Intact(d: Delivery, m: Message) {
    d.msg == m.(attempts := d.msg.attempts) && d.born == m.attempts
  }

  /** Marks the carrier of origin o when it is not the message m any more. */
  function Altered(o: nat, m: Message): (f: Valuation) {
    (t: Token) => if Carries(t, o) && !Intact(t.d, m) then 1 else 0
  }

  lemma AlteredWork(c: Config, s: State, w: nat, l: WorkStep, o: nat, m: Message)
    requires Bounded(s.ring) && w < |s.workers| && CanWork(c, s, w, l)
    ensures WorkGain(Altered(o, m), c, s, w, l) <= 0
  {
    hide Handle, Offer, SettleGain;
    match l
    case Take =>
    case Decide(result) =>
      var d := s.workers[w].d;
      CoordinatorContract(c.handlers[d.msg.topic], c.overflow, d.msg, result);
    case Settle(ok, requeue) => AlteredSettle(s, s.workers[w].d, s.workers[w].action, ok, requeue, o, m);
    case AckDead =>
    case Mark(_) =>
    case WorkExit =>
  }

  lemma AlteredSettle(s: State, d: Delivery, a: Action, ok: bool, requeue: bool, o: nat, m: Message)
    requires Bounded(s.ring)
    ensures SettleGain(Altered(o, m), s, d, a, ok, requeue) <= At(Altered(o, m), SettlingPlace(a), d)
  {
    hide Offer;
    match a
    case Ack =>
    case Retry =>
    case RetryWithDelay =>
    case DLQ =>
    case Unknown(_) =>
  }

  lemma AlteredStable(o: nat, m: Message)
    ensures Stable(Altered(o, m))
  {
  }

  lemma AlteredStep(c: Config, s: State, l: Label, t: State, o: nat, m: Message)
    requires Enabled(c, s, l) && t == Apply(c, s, l) && o < s.next && Total(Altered(o, m), s) <= 0
    ensures o < t.next && Total(Altered(o, m), t) <= 0
  {
    hide Total, WorkGain, Apply, CanWork, CanMain, CanTick, CanPoll, CanTimer, CanDisp;
    Flow(Altered(o, m), c, s, l, t);
    if l.Work? {
      AlteredWork(c, s, l.w, l.k, o, m);
    } else {
      AlteredStable(o, m);
      StableGain(Altered(o, m), c, s, l);
    }
  }

  lemma {:induction false} AlteredRun(c: Config, s: State, ls: seq<Label>, t: State, o: nat, m: Message)
    requires Run(c, s, ls, t) && o < s.next && Total(Altered(o, m), s) <= 0
    ensures o < t.next && Total(Altered(o, m), t) <= 0
    decreases |ls|
  {
    hide Total;
    if ls != [] {
      AlteredStep(c, s, ls[0], Apply(c, s, ls[0]), o, m);
      AlteredRun(c, Apply(c, s, ls[0]), ls[1..], t, o, m);
    }
  }

  lemma AlteredPublish(c: Config, s: State, m: Message, t: State)
    requires Budget(c, s) && Shape(c, s) && s.transportOpen && t == DoPublish(s, m)
    ensures Total(Altered(s.next, m), t) == 0 && s.next < t.next
  {
    hide Total, Budget;
    var o := s.next;
    Unborn(c, s, m);
    assert Counts(OriginIs(o), Altered(o, m));
    TotalZero(OriginIs(o), Altered(o, m), s);
    EnvFlow(Altered(o, m), s, Publish(m), t);
  }

  /** e ends a delivery of origin o: an ack, a nack that is not redelivered, a failed dead-letter send, or a loss. */
  predicate Ends(e: Event, o: nat) {
    && (e.AckCalled? || (e.NackCalled? && !e.requeued) || (e.DlqCalled? && !e.ok)
        || e.Rejected? || e.InsertIgnored? || e.BatchDropped?)
    && e.d.origin == o
  }

  /** Content is kept: in any continuation of a publish, whatever stands for that message on a worker, before its
      handler and after, and whatever is acked, given up or lost of it, is the message as it was published but for
      Attempts. */
  lemma MessageIntact(c: Config, now: int, ls: seq<Label>, s: State, m: Message, rest: seq<Label>, t: State)
    requires WellFormed(c) && Run(c, Initial(c, now), ls, s) && s.transportOpen && Run(c, DoPublish(s, m), rest, t)
    ensures forall w :: 0 <= w < |t.workers| ==>
      var k := t.workers[w];
      (k.Running? || k.Settling? || k.DlqSent?) && k.d.origin == s.next ==> Intact(k.d, m)
    ensures forall i :: 0 <= i < |t.log| && Ends(t.log[i], s.next) ==> Intact(t.log[i].d, m)
  {
    hide Run, Initial, Budget, Control, Total;
    var o := s.next;
    BudgetInitial(c, now);
    BudgetRun(c, Initial(c, now), ls, s);
    ControlInitial(c, now);
    ControlRun(c, Initial(c, now), ls, s);
    HasShape(c, s);
    AlteredPublish(c, s, m, DoPublish(s, m));
    AlteredRun(c, DoPublish(s, m), rest, t, o, m);
    var f := Altered(o, m);
    assert Counts(f, f);
    forall w | 0 <= w < |t.workers|
      ensures WorkerWorth(f, t.workers[w]) == 0
    {
      WorkerPart(f, t, w);
    }
    forall i | 0 <= i < |t.log|
      ensures EventWorth(f, t.log[i]) <= 0
    {
      InLogOnly(f, t, i);
    }
  }

  lemma HasShape(c: Config, s: State)
    requires Control(c, s)
    ensures Shape(c, s)
  {
  }
}
