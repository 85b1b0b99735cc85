/** Why each acknowledged delivery may be acknowledged. */
module PipelineAcks {
  import opened Retry
  import opened RingSpec
  import opened IdemStore
  import opened Pipeline
  import opened PipelineControl
  import opened PipelineQuiet

  /** The handler of delivery u returned Ack. */
  ghost predicate HandlerAcked(log: seq<Event>, u: nat) {
    exists e :: e in log && e.Decided? && e.d.uid == u && e.action.Ack? && e.result.action.Ack?
  }

  /** The transport accepted delivery u into the dead-letter queue. */
  ghost predicate DlqAccepted(log: seq<Event>, u: nat) {
    exists e :: e in log && e.DlqCalled? && e.d.uid == u && e.ok
  }

  /** A mark of k that lasts until `now` at least. */
  ghost predicate LiveMark(c: Config, log: seq<Event>, k: string, now: int) {
    exists e :: e in log && e.Marked? && e.key == k && now <= e.at + c.ttl
  }

  /** The filter found d a duplicate, at an instant when a mark of its key was live. */
  ghost predicate FoundLive(c: Config, log: seq<Event>, d: Delivery) {
    d.msg.key.Some? && exists e :: e in log && e.FoundDuplicate? && e.d == d && LiveMark(c, log, d.msg.key.value, e.at)
  }

  /** The handler of some delivery with key k returned Ack. */
  ghost predicate KeyAcked(log: seq<Event>, k: string) {
    exists e :: e in log && e.Decided? && e.d.msg.key == Some(k) && e.action.Ack? && e.result.action.Ack?
  }

  ghost predicate Reason(c: Config, log: seq<Event>, d: Delivery) {
    || HandlerAcked(log, d.uid)
    || DlqAccepted(log, d.uid)
    || (FoundLive(c, log, d) && KeyAcked(log, d.msg.key.value))
  }

  /** e has its reason in the events before it. */
  ghost predicate Founded(c: Config, log: seq<Event>, e: Event) {
    && (e.AckCalled? ==> Reason(c, log, e.d))
    && (e.Marked? ==> KeyAcked(log, e.key))
    && (e.FoundDuplicate? ==> e.d.msg.key.Some? && LiveMark(c, log, e.d.msg.key.value, e.at))
  }

  ghost predicate AllFounded(c: Config, log: seq<Event>) {
    forall i :: 0 <= i < |log| ==> Founded(c, log[..i], log[i])
  }

  /** The entry of key k is the expiry of one of its marks. */
  ghost predicate Stems(c: Config, log: seq<Event>, k: string, expiry: int) {
    exists e :: e in log && e.Marked? && e.key == k && expiry == e.at + c.ttl
  }

  ghost predicate KeysFounded(c: Config, log: seq<Event>, keys: Keys) {
    forall k :: k in keys ==> Stems(c, log, k, keys[k])
  }

  ghost predicate BatchFounded(c: Config, log: seq<Event>, x: Dispatcher) {
    x.Working? ==>
      && (forall d :: d in x.dups ==> FoundLive(c, log, d))
      && (x.todo != [] && x.probe.Fetched? && x.probe.entry.Some? ==>
            x.todo[0].msg.key.Some? && Stems(c, log, x.todo[0].msg.key.value, x.probe.entry.value))
  }

  ghost predicate WorkerFounded(log: seq<Event>, k: Worker) {
    match k
    case Settling(d, a, _) =>
      a.Ack? ==> HandlerAcked(log, d.uid) && (d.msg.key.Some? ==> KeyAcked(log, d.msg.key.value))
    case DlqSent(d) => DlqAccepted(log, d.uid)
    case Marking(m) => m.key.Some? ==> KeyAcked(log, m.key.value)
    case _ => true
  }

  ghost predicate WorkersFounded(log: seq<Event>, ws: seq<Worker>) {
    forall w :: 0 <= w < |ws| ==> WorkerFounded(log, ws[w])
  }

  ghost predicate Acks(c: Config, s: State) {
    && AllFounded(c, s.log)
    && KeysFounded(c, s.log, s.keys)
    && BatchFounded(c, s.log, s.disp)
    && WorkersFounded(s.log, s.workers)
  }

  // ----- extending the log

  lemma Grow(c: Config, log: seq<Event>, later: seq<Event>, keys: Keys, x: Dispatcher, ws: seq<Worker>)
    requires Extends(log, later)
    ensures KeysFounded(c, log, keys) ==> KeysFounded(c, later, keys)
    ensures BatchFounded(c, log, x) ==> BatchFounded(c, later, x)
    ensures WorkersFounded(log, ws) ==> WorkersFounded(later, ws)
  {
  }

  lemma AddFounded(c: Config, log: seq<Event>, e: Event)
    requires AllFounded(c, log) && Founded(c, log, e)
    ensures AllFounded(c, log + [e]) && Extends(log, log + [e])
  {
    hide Founded;
    var later := log + [e];
    forall i | 0 <= i < |later|
      ensures Founded(c, later[..i], later[i])
    {
      assert later[..i] == log[..i];
      assert i == |log| ==> log[..i] == log;
    }
  }

  lemma QuietFounded(c: Config, log: seq<Event>, later: seq<Event>)
    requires AllFounded(c, log) && QuietLog(log, later)
    ensures AllFounded(c, later) && Extends(log, later)
  {
  }

  lemma AcksQuiet(c: Config, s: State, t: State)
    requires Acks(c, s) && Quiet(s, t)
    ensures Acks(c, t)
  {
    QuietFounded(c, s.log, t.log);
    Grow(c, s.log, t.log, s.keys, s.disp, s.workers);
  }

  /** One event with a reason, and the same store, batch and workers. */
  lemma AcksLog(c: Config, s: State, e: Event)
    requires Acks(c, s) && Founded(c, s.log, e)
    ensures Acks(c, s.(log := s.log + [e]))
  {
    hide Founded, AllFounded, KeysFounded, BatchFounded, WorkersFounded;
    AddFounded(c, s.log, e);
    Grow(c, s.log, s.log + [e], s.keys, s.disp, s.workers);
  }

  // ----- dispatcher

  lemma AcksDisp(c: Config, s: State, x: Dispatcher, t: State)
    requires Acks(c, s) && BatchFounded(c, s.log, x)
    requires t.log == s.log && t.workers == s.workers && t.disp == x
    requires forall k :: k in t.keys ==> k in s.keys && t.keys[k] == s.keys[k]
    ensures Acks(c, t)
  {
    hide AllFounded, BatchFounded, WorkersFounded, Stems;
  }

  /** A step of the filter that finds no duplicate. */
  lemma FilterFounded(c: Config, s: State, f: FilterStep)
    requires Acks(c, s) && CanDisp(c, s, Filter(f)) && !Discards(s.now, s.disp, f)
    ensures BatchFounded(c, s.log, NextProbe(c, s.now, s.keys, s.disp, f))
  {
    hide AllFounded, WorkersFounded, FoundLive, Stems;
    match f
    case Skip =>
    case Fetch =>
    case Check =>
    case Delete =>
    case StoreError =>
  }

  /** A duplicate is found: the entry it was found by stems from a mark that still lasts. */
  lemma DiscardFounded(c: Config, s: State, f: FilterStep)
    requires !(c.store && c.storeErrors) && Acks(c, s) && CanDisp(c, s, Filter(f)) && Discards(s.now, s.disp, f)
    ensures Acks(c, DoFilter(c, s, f))
  {
    hide AllFounded, WorkersFounded, KeysFounded;
    var d := s.disp.todo[0];
    var e := FoundDuplicate(d, s.now);
    var k := d.msg.key.value;
    assert Stems(c, s.log, k, s.disp.probe.entry.value);
    assert LiveMark(c, s.log, k, s.now);
    AddFounded(c, s.log, e);
    Grow(c, s.log, s.log + [e], s.keys, s.disp, s.workers);
    assert e in s.log + [e];
    assert LiveMark(c, s.log + [e], k, s.now);
  }

  lemma AcksFilter(c: Config, s: State, f: FilterStep)
    requires !(c.store && c.storeErrors) && Acks(c, s) && CanDisp(c, s, Filter(f))
    ensures Acks(c, DoFilter(c, s, f))
  {
    hide Acks, NextProbe;
    if Discards(s.now, s.disp, f) {
      DiscardFounded(c, s, f);
    } else {
      FilterFounded(c, s, f);
      AcksDisp(c, s, NextProbe(c, s.now, s.keys, s.disp, f), DoFilter(c, s, f));
    }
  }

  lemma AcksAckDup(c: Config, s: State)
    requires Acks(c, s) && s.disp.Working? && s.disp.dups != []
    ensures Acks(c, DoAckDup(s))
  {
    hide AllFounded, WorkersFounded, FoundLive;
    var d := s.disp.dups[0];
    var x := s.disp.(dups := s.disp.dups[1..]);
    assert FoundLive(c, s.log, d);
    LiveMeansAck(c, s.log, d);
    AcksLog(c, s.(disp := x), AckCalled(d, Duplicate, s.transportOpen));
  }

  /** A key found live has an Ack behind it. */
  lemma LiveMeansAck(c: Config, log: seq<Event>, d: Delivery)
    requires AllFounded(c, log) && FoundLive(c, log, d)
    ensures d.msg.key.Some? && KeyAcked(log, d.msg.key.value)
  {
    var e :| e in log && e.FoundDuplicate? && e.d == d && LiveMark(c, log, d.msg.key.value, e.at);
    var m :| m in log && m.Marked? && m.key == d.msg.key.value && e.at <= m.at + c.ttl;
    var i :| 0 <= i < |log| && log[i] == m;
    assert Founded(c, log[..i], log[i]);
  }

  lemma AcksSubmit(c: Config, s: State)
    requires Acks(c, s) && s.poolOpen && CanDisp(c, s, Submit)
    ensures Acks(c, DoSubmit(s))
  {
    hide AllFounded, WorkersFounded;
    var x := s.disp.(kept := s.disp.kept[1..]);
    AcksLog(c, s.(disp := x, pool := s.pool + [s.disp.kept[0]], wg := s.wg + 1), Submitted(s.disp.kept[0], s.batch));
  }

  lemma AcksDispStep(c: Config, s: State, l: DispStep, t: State)
    requires !(c.store && c.storeErrors) && Control(c, s) && Acks(c, s) && CanDisp(c, s, l) && t == DoDisp(c, s, l)
    ensures Acks(c, t)
  {
    hide Acks, DoFilter, DoAckDup, DoSubmit, Busy, SafeLog, NextProbe, TakeBatch;
    match l
    case StartDrain => AcksDisp(c, s, Idle(true), t);
    case Look => AcksDisp(c, s, SawEmpty, t);
    case Resume => AcksDisp(c, s, Idle(false), t);
    case DispExit => AcksDisp(c, s, Gone, t);
    case Dequeue => AcksDisp(c, s, t.disp, t);
    case Filter(f) => AcksFilter(c, s, f);
    case AckDup => AcksAckDup(c, s);
    case Submit =>
      assert s.poolOpen;
      AcksSubmit(c, s);
    case Barrier => AcksDisp(c, s, Idle(s.disp.draining), t);
  }

  // ----- workers

  /** Worker w moves to k, with e logged; both are founded. */
  lemma AcksWorker(c: Config, s: State, w: nat, k: Worker, e: Event, t: State)
    requires Acks(c, s) && w < |s.workers| && Founded(c, s.log, e)
    requires WorkerFounded(s.log + [e], k)
    requires t.workers == s.workers[w := k] && t.log == s.log + [e] && t.disp == s.disp
    requires forall x :: x in t.keys ==>
      (x in s.keys && t.keys[x] == s.keys[x]) || (e.Marked? && x == e.key && t.keys[x] == e.at + c.ttl)
    ensures Acks(c, t)
  {
    hide AllFounded, BatchFounded, WorkerFounded, Founded;
    AddFounded(c, s.log, e);
    Grow(c, s.log, t.log, s.keys, s.disp, s.workers);
    if e.Marked? {
      assert e in t.log;
    }
  }

  lemma AcksWorkerOnly(c: Config, s: State, w: nat, k: Worker, t: State)
    requires Acks(c, s) && w < |s.workers| && WorkerFounded(s.log, k)
    requires t.workers == s.workers[w := k] && t.log == s.log && t.disp == s.disp && t.keys == s.keys
    ensures Acks(c, t)
  {
  }

  lemma AcksTakeKnown(c: Config, s: State, w: nat)
    requires Acks(c, s) && w < |s.workers| && s.workers[w].Free? && s.pool != [] && s.pool[0].msg.topic in c.handlers
    ensures Acks(c, DoTake(c, s, w))
  {
    hide Acks;
    AcksWorker(c, s, w, Running(s.pool[0]), Started(s.pool[0], s.batch, s.now), DoTake(c, s, w));
  }

  lemma AcksTakeUnknown(c: Config, s: State, w: nat)
    requires Acks(c, s) && w < |s.workers| && s.workers[w].Free? && s.pool != [] && s.pool[0].msg.topic !in c.handlers
    ensures Acks(c, DoTake(c, s, w))
  {
    hide Acks;
    AcksWorkerOnly(c, s, w, Settling(s.pool[0], DLQ, 0), DoTake(c, s, w));
  }

  lemma AcksDecide(c: Config, s: State, w: nat, d: Delivery, result: Result)
    requires Acks(c, s) && w < |s.workers| && s.workers[w] == Running(d) && d.msg.topic in c.handlers
    ensures Acks(c, DoDecide(c, s, w, d, result))
  {
    hide Acks, Handle;
    var o := Handle(c.handlers[d.msg.topic], c.overflow, d.msg, result);
    CoordinatorContract(c.handlers[d.msg.topic], c.overflow, d.msg, result);
    var k := Settling(d.(msg := o.message), o.action, o.delay);
    var e := Decided(d, s.batch, s.now, result, o.action);
    assert e in s.log + [e];
    AcksWorker(c, s, w, k, e, DoDecide(c, s, w, d, result));
  }

  lemma HoldsReason(c: Config, s: State, w: nat)
    requires Acks(c, s) && w < |s.workers|
    ensures WorkerFounded(s.log, s.workers[w])
  {
  }

  lemma AcksSettleMark(c: Config, s: State, w: nat, d: Delivery)
    requires c.store && Acks(c, s) && w < |s.workers|
    requires s.workers[w].Settling? && s.workers[w].d == d && s.workers[w].action.Ack?
    ensures Acks(c, SettleAck(c, s, w, d))
  {
    hide Acks;
    HoldsReason(c, s, w);
    var e := AckCalled(d, HandlerAck, s.transportOpen);
    assert Extends(s.log, s.log + [e]);
    AcksWorker(c, s, w, Marking(d.msg), e, SettleAck(c, s, w, d));
  }

  lemma AcksSettleOnly(c: Config, s: State, w: nat, d: Delivery)
    requires !c.store && Acks(c, s) && w < |s.workers|
    requires s.workers[w].Settling? && s.workers[w].d == d && s.workers[w].action.Ack?
    ensures Acks(c, SettleAck(c, s, w, d))
  {
    hide Acks;
    HoldsReason(c, s, w);
    AcksWorker(c, s, w, Free, AckCalled(d, HandlerAck, s.transportOpen), SettleAck(c, s, w, d));
  }

  lemma AcksRetryStored(c: Config, s: State, w: nat, d: Delivery)
    requires Bounded(s.ring) && Acks(c, s) && w < |s.workers| && Offer(s.ring, Again(d)).1 == Accepted
    ensures Acks(c, SettleRetry(s, w, d))
  {
    hide Acks, Offer;
    AcksWorkerOnly(c, s, w, Free, SettleRetry(s, w, d));
  }

  lemma AcksRetryRefused(c: Config, s: State, w: nat, d: Delivery)
    requires Bounded(s.ring) && Acks(c, s) && w < |s.workers| && Offer(s.ring, Again(d)).1 != Accepted
    ensures Acks(c, SettleRetry(s, w, d))
  {
    hide Acks, Offer;
    AcksWorker(c, s, w, Free, Rejected(Again(d), s.phase.Draining?), SettleRetry(s, w, d));
  }

  lemma AcksNack(c: Config, s: State, w: nat, d: Delivery, delay: int, requeue: bool)
    requires Acks(c, s) && w < |s.workers|
    ensures Acks(c, SettleNack(s, w, d, delay, requeue))
  {
    hide Acks;
    AcksWorker(c, s, w, Free, NackCalled(d, delay, requeue, s.transportOpen), SettleNack(s, w, d, delay, requeue));
  }

  lemma AcksDlqSent(c: Config, s: State, w: nat, d: Delivery)
    requires Acks(c, s) && w < |s.workers|
    ensures Acks(c, SettleDlq(s, w, d, true))
  {
    hide Acks;
    var e := DlqCalled(d, true, s.transportOpen);
    assert e in s.log + [e];
    AcksWorker(c, s, w, DlqSent(d), e, SettleDlq(s, w, d, true));
  }

  lemma AcksDlqFailed(c: Config, s: State, w: nat, d: Delivery)
    requires Acks(c, s) && w < |s.workers|
    ensures Acks(c, SettleDlq(s, w, d, false))
  {
    hide Acks;
    AcksWorker(c, s, w, Free, DlqCalled(d, false, s.transportOpen), SettleDlq(s, w, d, false));
  }

  lemma AcksNothing(c: Config, s: State, w: nat, d: Delivery)
    requires Acks(c, s) && w < |s.workers|
    ensures Acks(c, SettleNothing(s, w, d))
  {
    hide Acks;
    AcksWorker(c, s, w, Free, OutcomeIgnored(d), SettleNothing(s, w, d));
  }

  lemma AcksSettle(c: Config, s: State, w: nat, ok: bool, requeue: bool, t: State)
    requires Bounded(s.ring) && Acks(c, s) && w < |s.workers| && CanWork(c, s, w, Settle(ok, requeue))
    requires t == DoSettle(c, s, w, ok, requeue)
    ensures Acks(c, t)
  {
    hide Acks, SettleAck, SettleRetry, SettleNack, SettleDlq, SettleNothing, Offer;
    var k := s.workers[w];
    match k.action
    case Ack =>
      if c.store {
        AcksSettleMark(c, s, w, k.d);
      } else {
        AcksSettleOnly(c, s, w, k.d);
      }
    case Retry =>
      if Offer(s.ring, Again(k.d)).1 == Accepted {
        AcksRetryStored(c, s, w, k.d);
      } else {
        AcksRetryRefused(c, s, w, k.d);
      }
    case RetryWithDelay => AcksNack(c, s, w, k.d, k.delay, requeue);
    case DLQ =>
      if ok {
        AcksDlqSent(c, s, w, k.d);
      } else {
        AcksDlqFailed(c, s, w, k.d);
      }
    case Unknown(_) => AcksNothing(c, s, w, k.d);
  }

  lemma AcksAckDead(c: Config, s: State, w: nat, d: Delivery)
    requires Acks(c, s) && w < |s.workers| && s.workers[w] == DlqSent(d)
    ensures Acks(c, DoAckDead(s, w, d))
  {
    hide Acks;
    HoldsReason(c, s, w);
    AcksWorker(c, s, w, Free, AckCalled(d, DeadLetter, s.transportOpen), DoAckDead(s, w, d));
  }

  lemma AcksMarkKey(c: Config, s: State, w: nat, m: Message)
    requires Acks(c, s) && w < |s.workers| && s.workers[w] == Marking(m) && s.storeOpen && m.key.Some?
    ensures Acks(c, DoMark(c, s, w, m, true))
  {
    hide Acks;
    HoldsReason(c, s, w);
    AcksWorker(c, s, w, Free, Marked(m.key.value, s.batch, s.now), DoMark(c, s, w, m, true));
  }

  lemma AcksMarkNothing(c: Config, s: State, w: nat, m: Message, marked: bool)
    requires Acks(c, s) && w < |s.workers| && (m.key.None? || !marked)
    ensures Acks(c, DoMark(c, s, w, m, marked))
  {
    hide Acks;
    AcksWorkerOnly(c, s, w, Free, DoMark(c, s, w, m, marked));
  }

  lemma AcksWork(c: Config, s: State, w: nat, l: WorkStep, t: State)
    requires Control(c, s) && Acks(c, s) && w < |s.workers| && CanWork(c, s, w, l) && t == DoWork(c, s, w, l)
    ensures Acks(c, t)
  {
    hide Acks, DoTake, DoDecide, DoSettle, DoAckDead, DoMark, Busy, SafeLog;
    match l
    case Take =>
      if s.pool[0].msg.topic in c.handlers {
        AcksTakeKnown(c, s, w);
      } else {
        AcksTakeUnknown(c, s, w);
      }
    case Decide(result) => AcksDecide(c, s, w, s.workers[w].d, result);
    case Settle(ok, requeue) => AcksSettle(c, s, w, ok, requeue, t);
    case AckDead => AcksAckDead(c, s, w, s.workers[w].d);
    case Mark(marked) =>
      BusyMeansServing(c, s, w);
      if s.workers[w].m.key.Some? && marked {
        AcksMarkKey(c, s, w, s.workers[w].m);
      } else {
        AcksMarkNothing(c, s, w, s.workers[w].m, marked);
      }
    case WorkExit => AcksWorkerOnly(c, s, w, Exited, t);
  }

  // ----- whole runs

  lemma AcksEvict(c: Config, s: State, l: EvictStep, t: State)
    requires Acks(c, s) && CanEvict(s, l) && t == DoEvict(s, l)
    ensures Acks(c, t)
  {
  }

  lemma AcksStep(c: Config, s: State, l: Label, t: State)
    requires !(c.store && c.storeErrors) && Control(c, s) && Acks(c, s) && Enabled(c, s, l) && t == Apply(c, s, l)
    ensures Acks(c, t)
  {
    hide Acks, DoEnv, DoPoll, DoTick, DoTimer, DoDisp, DoWork, DoEvict, DoFinish, Busy, SafeLog;
    if IsQuiet(s, l) {
      QuietStep(c, s, l, t);
      AcksQuiet(c, s, t);
    } else {
      match l
      case Disp(x) => AcksDispStep(c, s, x, t);
      case Work(w, k) => AcksWork(c, s, w, k, t);
      case Evict(v) => AcksEvict(c, s, v, t);
      case Main => AcksFinish(c, s);
    }
  }

  lemma AcksFinish(c: Config, s: State)
    requires Acks(c, s)
    ensures Acks(c, DoFinish(s))
  {
  }

  lemma {:induction false} AcksRun(c: Config, s: State, ls: seq<Label>, t: State)
    requires !(c.store && c.storeErrors) && Control(c, s) && Acks(c, s) && Run(c, s, ls, t)
    ensures Acks(c, t)
    decreases |ls|
  {
    hide Acks, Control;
    if ls != [] {
      var s' := Apply(c, s, ls[0]);
      AcksStep(c, s, ls[0], s');
      ControlStep(c, s, ls[0], s');
      AcksRun(c, s', ls[1..], t);
    }
  }

  /** With an error-free store, every Ack the runtime ever sends is for a delivery whose handler returned Ack, or that
      the dead-letter queue accepted, or whose key an earlier handler's Ack had marked. */
  lemma AckJustified(c: Config, now: int, ls: seq<Label>, t: State, i: nat)
    requires WellFormed(c) && !(c.store && c.storeErrors) && Run(c, Initial(c, now), ls, t)
    requires i < |t.log| && t.log[i].AckCalled?
    ensures Reason(c, t.log[..i], t.log[i].d)
  {
    hide Control, Reason;
    ControlInitial(c, now);
    AcksRun(c, Initial(c, now), ls, t);
    assert Founded(c, t.log[..i], t.log[i]);
  }
}
