/** Cross-batch deduplication by the batch barrier, the filter and the memory store. */
module PipelineDedup {
  import opened Retry
  import opened RingSpec
  import opened IdemStore
  import opened Pipeline
  import opened PipelineControl
  import opened PipelineQuiet

  predicate HasKey(d: Delivery, k: string) {
    d.msg.key == Some(k)
  }

  /** Every mark of k that satisfies the bound on its batch had expired by `now`. */
  ghost predicate Expired(c: Config, log: seq<Event>, k: string, now: int, batch: nat) {
    forall e :: e in log && e.Marked? && e.key == k && e.batch < batch ==> now > e.at + c.ttl
  }

  /** Marks are in the past, and of the current batch at the latest. */
  ghost predicate MarksInPast(log: seq<Event>, now: int, batch: nat) {
    forall e :: e in log && e.Marked? ==> e.at <= now && e.batch <= batch
  }

  ghost predicate MarksBefore(log: seq<Event>, batch: nat) {
    forall e :: e in log && e.Marked? ==> e.batch < batch
  }

  /** A mark that has not expired is in the store, with at least its own expiry. */
  ghost predicate MarksStored(c: Config, log: seq<Event>, keys: Keys, now: int) {
    forall e :: e in log && e.Marked? && now <= e.at + c.ttl ==> e.key in keys && keys[e.key] >= e.at + c.ttl
  }

  /** A message past the filter: no earlier batch left a live mark of its key. */
  ghost predicate Cleared(c: Config, s: State, d: Delivery) {
    d.msg.key.Some? ==> Expired(c, s.log, d.msg.key.value, s.now, s.batch)
  }

  ghost predicate AllCleared(c: Config, s: State) {
    && (s.disp.Working? ==> forall d :: d in s.disp.kept ==> Cleared(c, s, d))
    && (forall d :: d in s.pool ==> Cleared(c, s, d))
    && (forall w :: 0 <= w < |s.workers| && s.workers[w].Running? ==> Cleared(c, s, s.workers[w].d))
  }

  /** What the filter has learnt about the key it is probing. */
  ghost predicate ProbeHonest(c: Config, s: State) {
    s.disp.Working? && s.disp.todo != [] && s.disp.todo[0].msg.key.Some? ==>
      var k := s.disp.todo[0].msg.key.value;
      match s.disp.probe
      case NoProbe => true
      case Fetched(entry) =>
        && (entry.None? ==> k !in s.keys && Expired(c, s.log, k, s.now, s.batch))
        && (entry.Some? ==>
              && (k in s.keys ==> s.keys[k] == entry.value)
              && forall e :: e in s.log && e.Marked? && e.key == k && s.now <= e.at + c.ttl ==>
                   entry.value >= e.at + c.ttl)
      case Stale => Expired(c, s.log, k, s.now, s.batch) && (k in s.keys ==> s.now > s.keys[k])
  }

  /** Worker k has an Ack outcome for this key whose mark is still to come. */
  predicate MarkPending(k: Worker, key: string) {
    || (k.Settling? && k.action.Ack? && HasKey(k.d, key))
    || (k.Marking? && k.m.key == Some(key))
  }

  /** An Ack outcome of the current batch may still be waiting to be marked; otherwise its mark exists. */
  ghost predicate AckOutcomesMarked(s: State) {
    forall e :: e in s.log && e.Decided? && e.action.Ack? && e.d.msg.key.Some? ==>
      && e.at <= s.now && e.batch <= s.batch
      && ((e.batch == s.batch && exists w :: 0 <= w < |s.workers| && MarkPending(s.workers[w], e.d.msg.key.value))
          || exists m :: m in s.log && IsMarkOf(m, e))
  }

  /** m marks the key of the Ack outcome e, in the same batch and not before it. */
  predicate IsMarkOf(m: Event, e: Event)
    requires e.Decided? && e.d.msg.key.Some?
  {
    m.Marked? && m.key == e.d.msg.key.value && m.batch == e.batch && m.at >= e.at
  }

  /** No later batch started a handler on the key of an Ack outcome before its TTL had passed. */
  ghost predicate NoRerun(c: Config, log: seq<Event>) {
    forall a, b :: a in log && b in log && a.Decided? && a.action.Ack? && b.Started?
      && a.d.msg.key.Some? && b.d.msg.key == a.d.msg.key && a.batch < b.batch
      ==> b.at > a.at + c.ttl
  }

  ghost predicate StartsInPast(log: seq<Event>, batch: nat) {
    forall e :: e in log && e.Started? ==> e.batch <= batch
  }

  ghost predicate Dedup(c: Config, s: State) {
    && MarksInPast(s.log, s.now, s.batch)
    && (Filtering(s) ==> MarksBefore(s.log, s.batch))
    && (s.storeOpen ==> MarksStored(c, s.log, s.keys, s.now))
    && AllCleared(c, s)
    && ProbeHonest(c, s)
    && AckOutcomesMarked(s)
    && StartsInPast(s.log, s.batch)
    && NoRerun(c, s.log)
    && (s.evict.Some? ==> s.evict.value <= s.now)
  }

  // ----- quiet steps

  /** The two logs agree on marks, starts and decisions. */
  ghost predicate SameMarks(log: seq<Event>, later: seq<Event>) {
    forall e: Event :: e.Marked? || e.Started? || e.Decided? ==> (e in log <==> e in later)
  }

  lemma QuietSameMarks(log: seq<Event>, later: seq<Event>)
    requires QuietLog(log, later)
    ensures SameMarks(log, later)
  {
  }

  lemma AddSameMarks(log: seq<Event>, e: Event)
    requires !e.Marked? && !e.Started? && !e.Decided?
    ensures SameMarks(log, log + [e])
  {
  }

  /** Time passing, and events without marks, starts or decisions, keep the invariant. */
  lemma DedupFrame(c: Config, s: State, t: State)
    requires Dedup(c, s) && SameMarks(s.log, t.log) && t.now >= s.now
    requires t.disp == s.disp && t.pool == s.pool && t.workers == s.workers && t.batch == s.batch
    requires t.keys == s.keys && t.storeOpen == s.storeOpen && t.evict == s.evict
    ensures Dedup(c, t)
  {
  }

  lemma DedupQuiet(c: Config, s: State, l: Label, t: State)
    requires Dedup(c, s) && Enabled(c, s, l) && t == Apply(c, s, l) && IsQuiet(s, l)
    ensures Dedup(c, t)
  {
    hide Dedup, Enabled, Apply, QuietLog, SameMarks;
    QuietStep(c, s, l, t);
    QuietSameMarks(s.log, t.log);
    DedupFrame(c, s, t);
  }

  // ----- dispatcher steps

  lemma NothingBusy(c: Config, s: State)
    requires Control(c, s) && s.wg == 0
    ensures s.pool == []
    ensures forall w :: 0 <= w < |s.workers| ==> !IsBusy(s.workers[w])
  {
    forall w | 0 <= w < |s.workers|
      ensures !IsBusy(s.workers[w])
    {
      if IsBusy(s.workers[w]) {
        BusyAtLeast(s.workers, w);
      }
    }
  }

  lemma DedupIdle(c: Config, s: State, x: Dispatcher)
    requires Dedup(c, s) && !x.Working?
    ensures Dedup(c, s.(disp := x))
  {
  }

  lemma DedupDequeue(c: Config, s: State)
    requires Control(c, s) && Dedup(c, s) && s.disp.Idle?
    ensures Dedup(c, DoDequeue(s))
  {
    hide Control, TakeBatch;
    NothingBusyNow(c, s);
  }

  lemma NothingBusyNow(c: Config, s: State)
    requires Control(c, s) && (!s.disp.Working? || Filtering(s))
    ensures s.pool == []
    ensures forall w :: 0 <= w < |s.workers| ==> !IsBusy(s.workers[w])
  {
    NothingBusy(c, s);
  }

  /** While a batch is filtered every mark is of an earlier batch: Expired covers them all. */
  lemma ExpiredMeansAll(c: Config, s: State, k: string)
    requires Expired(c, s.log, k, s.now, s.batch) && MarksBefore(s.log, s.batch)
    ensures forall e :: e in s.log && e.Marked? && e.key == k ==> s.now > e.at + c.ttl
  {
  }

  lemma DedupKeep(c: Config, s: State, keys: Keys)
    requires Dedup(c, s) && s.disp.Working? && s.disp.todo != [] && Cleared(c, s, s.disp.todo[0])
    requires s.storeOpen ==> MarksStored(c, s.log, keys, s.now)
    ensures Dedup(c, s.(disp := Keep(s.disp), keys := keys))
  {
  }

  lemma DedupDiscard(c: Config, s: State)
    requires Dedup(c, s) && s.disp.Working? && s.disp.todo != []
    ensures Dedup(c, s.(disp := Discard(s.disp)))
  {
  }

  lemma DedupProbe(c: Config, s: State, p: Probe)
    requires Dedup(c, s) && s.disp.Working?
    requires ProbeHonest(c, s.(disp := s.disp.(probe := p)))
    ensures Dedup(c, s.(disp := s.disp.(probe := p)))
  {
  }

  lemma HonestFetch(c: Config, s: State, k: string)
    requires Dedup(c, s) && s.storeOpen && s.disp.Working? && s.disp.todo != [] && HasKey(s.disp.todo[0], k)
    ensures ProbeHonest(c, s.(disp := s.disp.(probe := Fetched(Lookup(s.keys, k)))))
  {
  }

  lemma HonestStale(c: Config, s: State, k: string)
    requires Dedup(c, s) && s.disp.Working? && s.disp.todo != [] && HasKey(s.disp.todo[0], k)
    requires s.disp.probe.Fetched? && s.disp.probe.entry.Some? && s.now > s.disp.probe.entry.value
    ensures ProbeHonest(c, s.(disp := s.disp.(probe := Stale)))
  {
  }

  lemma StoredWithout(c: Config, s: State, k: string)
    requires Dedup(c, s) && s.storeOpen && Filtering(s) && Expired(c, s.log, k, s.now, s.batch)
    ensures MarksStored(c, s.log, s.keys - {k}, s.now)
  {
    ExpiredMeansAll(c, s, k);
  }

  lemma DedupFilter(c: Config, s: State, f: FilterStep, t: State)
    requires c.store && !c.storeErrors && Control(c, s) && Dedup(c, s)
    requires CanDisp(c, s, Filter(f)) && t == DoFilter(c, s, f)
    ensures Dedup(c, t)
  {
    hide Dedup, ProbeHonest, MarksStored, Cleared, Expired, Busy, SafeLog;
    assert s.storeOpen;
    match f
    case Skip =>
      DedupParts(c, s);
      ClearedWithoutKey(c, s, s.disp.todo[0]);
      DedupKeep(c, s, s.keys);
    case Fetch =>
      var k := s.disp.todo[0].msg.key.value;
      HonestFetch(c, s, k);
      DedupProbe(c, s, Fetched(Lookup(s.keys, k)));
    case Check =>
      var k := s.disp.todo[0].msg.key.value;
      if s.disp.probe.entry.None? {
        DedupParts(c, s);
        ClearedByProbe(c, s, k);
        DedupKeep(c, s, s.keys);
      } else if s.now > s.disp.probe.entry.value {
        HonestStale(c, s, k);
        DedupProbe(c, s, Stale);
      } else {
        DedupDiscard(c, s);
        var m := s.(disp := Discard(s.disp));
        AddSameMarks(s.log, FoundDuplicate(s.disp.todo[0], s.now));
        DedupFrame(c, m, t);
      }
    case Delete =>
      var k := s.disp.todo[0].msg.key.value;
      ClearedByProbe(c, s, k);
      StoredWithout(c, s, k);
      DedupKeep(c, s, s.keys - {k});
  }

  lemma DedupParts(c: Config, s: State)
    requires Dedup(c, s)
    ensures s.storeOpen ==> MarksStored(c, s.log, s.keys, s.now)
    ensures ProbeHonest(c, s)
  {
  }

  lemma ClearedWithoutKey(c: Config, s: State, d: Delivery)
    requires d.msg.key.None?
    ensures Cleared(c, s, d)
  {
  }

  lemma ClearedByProbe(c: Config, s: State, k: string)
    requires Dedup(c, s) && s.disp.Working? && s.disp.todo != [] && HasKey(s.disp.todo[0], k)
    requires s.disp.probe.Stale? || (s.disp.probe.Fetched? && s.disp.probe.entry.None?)
    ensures Cleared(c, s, s.disp.todo[0]) && Expired(c, s.log, k, s.now, s.batch)
  {
  }

  lemma DedupAckDup(c: Config, s: State)
    requires Dedup(c, s) && s.disp.Working? && s.disp.dups != []
    ensures Dedup(c, DoAckDup(s))
  {
    AddSameMarks(s.log, AckCalled(s.disp.dups[0], Duplicate, s.transportOpen));
    DedupTail(c, s, s.disp.(dups := s.disp.dups[1..]), s.pool, DoAckDup(s));
  }

  /** Past the filter, moving messages from the batch to the pool keeps the invariant. */
  lemma DedupTail(c: Config, s: State, x: Dispatcher, pool: seq<Delivery>, t: State)
    requires Dedup(c, s) && s.disp.Working? && x.Working? && x.todo == s.disp.todo && x.probe == s.disp.probe
    requires s.disp.todo == [] || s.disp.dups != []
    requires Filtering(s.(disp := x)) ==> Filtering(s)
    requires forall d :: d in x.kept ==> d in s.disp.kept
    requires forall d :: d in pool ==> d in s.disp.kept || d in s.pool
    requires SameMarks(s.log, t.log) && t == s.(disp := x, pool := pool, wg := t.wg, log := t.log)
    ensures Dedup(c, t)
  {
  }

  lemma DedupSubmit(c: Config, s: State)
    requires Dedup(c, s) && s.poolOpen && CanDisp(c, s, Submit)
    ensures Dedup(c, DoSubmit(s))
  {
    hide Dedup;
    var d := s.disp.kept[0];
    AddSameMarks(s.log, Submitted(d, s.batch));
    DedupTail(c, s, s.disp.(kept := s.disp.kept[1..]), s.pool + [d], DoSubmit(s));
  }

  lemma DedupDisp(c: Config, s: State, l: DispStep, t: State)
    requires c.store && !c.storeErrors && Control(c, s) && Dedup(c, s)
    requires CanDisp(c, s, l) && t == DoDisp(c, s, l)
    ensures Dedup(c, t)
  {
    hide Dedup, DoFilter, DoDequeue, DoAckDup, DoSubmit, Busy, SafeLog;
    match l
    case StartDrain => DedupIdle(c, s, Idle(true));
    case Look => DedupIdle(c, s, SawEmpty);
    case Resume => DedupIdle(c, s, Idle(false));
    case DispExit => DedupIdle(c, s, Gone);
    case Dequeue => DedupDequeue(c, s);
    case Filter(f) => DedupFilter(c, s, f, t);
    case AckDup => DedupAckDup(c, s);
    case Submit =>
      assert s.poolOpen;
      DedupSubmit(c, s);
    case Barrier => DedupIdle(c, s, Idle(s.disp.draining));
  }

  // ----- worker steps

  /** What the invariant sees of a step of worker w. */
  ghost predicate WorkerMoves(s: State, w: nat, k: Worker, t: State) {
    && w < |s.workers| && t.workers == s.workers[w := k]
    && t.now == s.now && t.batch == s.batch && t.disp == s.disp && t.storeOpen == s.storeOpen && t.evict == s.evict
    && forall d :: d in t.pool ==> d in s.pool
  }

  lemma DedupWorker(c: Config, s: State, w: nat, k: Worker, t: State)
    requires Dedup(c, s) && WorkerMoves(s, w, k, t) && t.keys == s.keys && SameMarks(s.log, t.log)
    requires k.Running? ==> Cleared(c, s, k.d)
    requires forall key :: MarkPending(s.workers[w], key) ==> MarkPending(k, key)
    ensures Dedup(c, t)
  {
    PendingKept(s, w, k, t);
  }

  lemma PendingKept(s: State, w: nat, k: Worker, t: State)
    requires WorkerMoves(s, w, k, t) && AckOutcomesMarked(s) && SameMarks(s.log, t.log)
    requires forall key :: MarkPending(s.workers[w], key) ==> MarkPending(k, key)
    ensures AckOutcomesMarked(t)
  {
    forall e | e in t.log && e.Decided? && e.action.Ack? && e.d.msg.key.Some?
      ensures e.at <= t.now && e.batch <= t.batch
      ensures (e.batch == t.batch && exists i :: 0 <= i < |t.workers| && MarkPending(t.workers[i], e.d.msg.key.value))
        || exists m :: m in t.log && IsMarkOf(m, e)
    {
      assert e in s.log;
      if m :| m in s.log && IsMarkOf(m, e) {
        assert m in t.log;
      } else {
        var i :| 0 <= i < |s.workers| && MarkPending(s.workers[i], e.d.msg.key.value);
        assert MarkPending(t.workers[i], e.d.msg.key.value);
      }
    }
  }

  lemma DedupTakeKnown(c: Config, s: State, w: nat)
    requires Dedup(c, s) && w < |s.workers| && s.workers[w].Free? && s.pool != [] && s.pool[0].msg.topic in c.handlers
    ensures Dedup(c, DoTake(c, s, w))
  {
    hide Dedup, SameMarks;
    var d := s.pool[0];
    var m := s.(pool := s.pool[1..], workers := s.workers[w := Running(d)]);
    DedupTakePool(c, s, w, d, m);
    DedupStart(c, m, d);
  }

  lemma DedupTakePool(c: Config, s: State, w: nat, d: Delivery, t: State)
    requires Dedup(c, s) && w < |s.workers| && s.workers[w].Free? && s.pool != [] && d == s.pool[0]
    requires t == s.(pool := s.pool[1..], workers := s.workers[w := Running(d)])
    ensures Dedup(c, t) && Cleared(c, t, d)
  {
    assert Cleared(c, s, d);
    DedupWorker(c, s, w, Running(d), t);
  }

  /** Starting a cleared message keeps NoRerun: any earlier Ack outcome on its key left a mark, now expired. */
  lemma DedupStart(c: Config, s: State, d: Delivery)
    requires Dedup(c, s) && Cleared(c, s, d)
    ensures Dedup(c, s.(log := s.log + [Started(d, s.batch, s.now)]))
  {
    var b := Started(d, s.batch, s.now);
    var log := s.log + [b];
    forall a | a in s.log && a.Decided? && a.action.Ack? && a.d.msg.key.Some? && d.msg.key == a.d.msg.key
      && a.batch < s.batch
      ensures s.now > a.at + c.ttl
    {
      var m :| m in s.log && IsMarkOf(m, a);
    }
    assert NoRerun(c, log);
    AddKeeps(c, s, b);
  }

  /** Events other than marks and decisions leave the rest of the invariant alone. */
  lemma AddKeeps(c: Config, s: State, e: Event)
    requires Dedup(c, s) && !e.Marked? && !e.Decided? && NoRerun(c, s.log + [e]) && (e.Started? ==> e.batch <= s.batch)
    ensures Dedup(c, s.(log := s.log + [e]))
  {
    var t := s.(log := s.log + [e]);
    assert forall x: Event :: x.Marked? || x.Decided? ==> (x in s.log <==> x in t.log);
  }

  lemma DedupTakeUnknown(c: Config, s: State, w: nat)
    requires Dedup(c, s) && w < |s.workers| && s.workers[w].Free? && s.pool != [] && s.pool[0].msg.topic !in c.handlers
    ensures Dedup(c, DoTake(c, s, w))
  {
    hide Dedup;
    DedupWorker(c, s, w, Settling(s.pool[0], DLQ, 0), DoTake(c, s, w));
  }

  lemma DedupDecide(c: Config, s: State, w: nat, d: Delivery, result: Result)
    requires Dedup(c, s) && w < |s.workers| && s.workers[w] == Running(d) && d.msg.topic in c.handlers
    ensures Dedup(c, DoDecide(c, s, w, d, result))
  {
    hide Dedup, Handle;
    var o := Handle(c.handlers[d.msg.topic], c.overflow, d.msg, result);
    CoordinatorContract(c.handlers[d.msg.topic], c.overflow, d.msg, result);
    var k := Settling(d.(msg := o.message), o.action, o.delay);
    var m := s.(workers := s.workers[w := k]);
    DedupWorker(c, s, w, k, m);
    DedupDecided(c, m, w, Decided(d, s.batch, s.now, result, o.action));
  }

  /** Recording a decision: an Ack outcome is pending on its own worker. */
  lemma DedupDecided(c: Config, s: State, w: nat, e: Event)
    requires Dedup(c, s) && w < |s.workers| && e.Decided? && e.batch == s.batch && e.at == s.now
    requires e.action.Ack? && e.d.msg.key.Some? ==> MarkPending(s.workers[w], e.d.msg.key.value)
    ensures Dedup(c, s.(log := s.log + [e]))
  {
    var t := s.(log := s.log + [e]);
    assert forall x: Event :: x.Marked? || x.Started? ==> (x in s.log <==> x in t.log);
    OutcomesAfterDecision(s, w, e, t);
  }

  lemma OutcomesAfterDecision(s: State, w: nat, e: Event, t: State)
    requires AckOutcomesMarked(s) && w < |s.workers| && e.Decided? && e.batch == s.batch && e.at == s.now
    requires e.action.Ack? && e.d.msg.key.Some? ==> MarkPending(s.workers[w], e.d.msg.key.value)
    requires t == s.(log := s.log + [e])
    ensures AckOutcomesMarked(t)
  {
  }

  lemma DedupSettleAck(c: Config, s: State, w: nat, d: Delivery)
    requires c.store && Dedup(c, s) && w < |s.workers| && s.workers[w].Settling? && s.workers[w].d == d
    ensures Dedup(c, SettleAck(c, s, w, d))
  {
    hide Dedup;
    AddSameMarks(s.log, AckCalled(d, HandlerAck, s.transportOpen));
    DedupWorker(c, s, w, Marking(d.msg), SettleAck(c, s, w, d));
  }

  lemma DedupSettleRetry(c: Config, s: State, w: nat, d: Delivery)
    requires Bounded(s.ring) && Dedup(c, s) && w < |s.workers| && s.workers[w].Settling? && !s.workers[w].action.Ack?
    ensures Dedup(c, SettleRetry(s, w, d))
  {
    hide Dedup, Offer;
    AddSameMarks(s.log, Rejected(Again(d), s.phase.Draining?));
    DedupWorker(c, s, w, Free, SettleRetry(s, w, d));
  }

  lemma DedupSettleNack(c: Config, s: State, w: nat, d: Delivery, delay: int, requeue: bool)
    requires Dedup(c, s) && w < |s.workers| && s.workers[w].Settling? && !s.workers[w].action.Ack?
    ensures Dedup(c, SettleNack(s, w, d, delay, requeue))
  {
    hide Dedup;
    AddSameMarks(s.log, NackCalled(d, delay, requeue, s.transportOpen));
    DedupWorker(c, s, w, Free, SettleNack(s, w, d, delay, requeue));
  }

  lemma DedupSettleDlq(c: Config, s: State, w: nat, d: Delivery, ok: bool)
    requires Dedup(c, s) && w < |s.workers| && s.workers[w].Settling? && !s.workers[w].action.Ack?
    ensures Dedup(c, SettleDlq(s, w, d, ok))
  {
    hide Dedup;
    AddSameMarks(s.log, DlqCalled(d, ok, s.transportOpen));
    DedupWorker(c, s, w, if ok then DlqSent(d) else Free, SettleDlq(s, w, d, ok));
  }

  lemma DedupSettleNothing(c: Config, s: State, w: nat, d: Delivery)
    requires Dedup(c, s) && w < |s.workers| && s.workers[w].Settling? && !s.workers[w].action.Ack?
    ensures Dedup(c, SettleNothing(s, w, d))
  {
    hide Dedup;
    AddSameMarks(s.log, OutcomeIgnored(d));
    DedupWorker(c, s, w, Free, SettleNothing(s, w, d));
  }

  lemma DedupAckDead(c: Config, s: State, w: nat, d: Delivery)
    requires Dedup(c, s) && w < |s.workers| && s.workers[w] == DlqSent(d)
    ensures Dedup(c, DoAckDead(s, w, d))
  {
    hide Dedup;
    AddSameMarks(s.log, AckCalled(d, DeadLetter, s.transportOpen));
    DedupWorker(c, s, w, Free, DoAckDead(s, w, d));
  }

  lemma DedupMarkNoKey(c: Config, s: State, w: nat, m: Message)
    requires Dedup(c, s) && w < |s.workers| && s.workers[w] == Marking(m) && m.key.None?
    ensures Dedup(c, DoMark(c, s, w, m, true))
  {
    hide Dedup;
    DedupWorker(c, s, w, Free, DoMark(c, s, w, m, true));
  }

  /** Marking: the new entry outlives every earlier mark of the key, and settles its pending Ack outcomes. */
  lemma DedupMarkKey(c: Config, s: State, w: nat, m: Message, k: string)
    requires Dedup(c, s) && w < |s.workers| && s.workers[w] == Marking(m) && m.key == Some(k)
    requires s.storeOpen && s.disp.Working? && !Filtering(s)
    ensures Dedup(c, DoMark(c, s, w, m, true))
  {
    var t := DoMark(c, s, w, m, true);
    var mark := Marked(k, s.batch, s.now);
    assert t.log == s.log + [mark] && t.workers == s.workers[w := Free] && t.keys == s.keys[k := s.now + c.ttl];
    assert forall x: Event :: x.Started? || x.Decided? ==> (x in s.log <==> x in t.log);
    OutcomesAfterMark(s, w, k, t);
    ClearedAfterMark(c, s, w, mark, t);
  }

  lemma ClearedAfterMark(c: Config, s: State, w: nat, mark: Event, t: State)
    requires AllCleared(c, s) && w < |s.workers| && mark.Marked? && mark.batch == s.batch
    requires t.log == s.log + [mark] && t.workers == s.workers[w := Free]
    requires t.disp == s.disp && t.pool == s.pool && t.batch == s.batch && t.now == s.now
    ensures AllCleared(c, t)
  {
    assert forall d :: Cleared(c, s, d) ==> Cleared(c, t, d);
  }

  lemma OutcomesAfterMark(s: State, w: nat, k: string, t: State)
    requires AckOutcomesMarked(s) && w < |s.workers|
    requires s.workers[w].Marking? && s.workers[w].m.key == Some(k)
    requires t.log == s.log + [Marked(k, s.batch, s.now)] && t.workers == s.workers[w := Free]
    requires t.batch == s.batch && t.now == s.now
    ensures AckOutcomesMarked(t)
  {
    var mark := Marked(k, s.batch, s.now);
    forall e | e in t.log && e.Decided? && e.action.Ack? && e.d.msg.key.Some?
      ensures e.at <= t.now && e.batch <= t.batch
      ensures (e.batch == t.batch && exists i :: 0 <= i < |t.workers| && MarkPending(t.workers[i], e.d.msg.key.value))
        || exists m :: m in t.log && IsMarkOf(m, e)
    {
      assert e in s.log;
      if m :| m in s.log && IsMarkOf(m, e) {
        assert m in t.log;
      } else {
        var i :| 0 <= i < |s.workers| && MarkPending(s.workers[i], e.d.msg.key.value);
        if i == w {
          assert IsMarkOf(mark, e) && mark in t.log;
        } else {
          assert MarkPending(t.workers[i], e.d.msg.key.value);
        }
      }
    }
  }

  lemma DedupExit(c: Config, s: State, w: nat)
    requires Dedup(c, s) && w < |s.workers| && s.workers[w].Free?
    ensures Dedup(c, s.(workers := s.workers[w := Exited]))
  {
    hide Dedup;
    DedupWorker(c, s, w, Exited, s.(workers := s.workers[w := Exited]));
  }

  lemma DedupSettle(c: Config, s: State, w: nat, ok: bool, requeue: bool, t: State)
    requires c.store && Bounded(s.ring) && Dedup(c, s) && w < |s.workers| && CanWork(c, s, w, Settle(ok, requeue))
    requires t == DoSettle(c, s, w, ok, requeue)
    ensures Dedup(c, t)
  {
    hide Dedup, SettleAck, SettleRetry, SettleNack, SettleDlq, SettleNothing;
    var k := s.workers[w];
    match k.action
    case Ack => DedupSettleAck(c, s, w, k.d);
    case Retry => DedupSettleRetry(c, s, w, k.d);
    case RetryWithDelay => DedupSettleNack(c, s, w, k.d, k.delay, requeue);
    case DLQ => DedupSettleDlq(c, s, w, k.d, ok);
    case Unknown(_) => DedupSettleNothing(c, s, w, k.d);
  }

  lemma DedupWork(c: Config, s: State, w: nat, l: WorkStep, t: State)
    requires c.store && !c.storeErrors && Control(c, s) && Dedup(c, s)
    requires w < |s.workers| && CanWork(c, s, w, l) && t == DoWork(c, s, w, l)
    ensures Dedup(c, t)
  {
    hide Dedup, DoTake, DoDecide, DoSettle, DoAckDead, DoMark, Busy, SafeLog;
    match l
    case Take =>
      if s.pool[0].msg.topic in c.handlers {
        DedupTakeKnown(c, s, w);
      } else {
        DedupTakeUnknown(c, s, w);
      }
    case Decide(result) => DedupDecide(c, s, w, s.workers[w].d, result);
    case Settle(ok, requeue) => DedupSettle(c, s, w, ok, requeue, t);
    case AckDead => DedupAckDead(c, s, w, s.workers[w].d);
    case Mark(marked) =>
      var m := s.workers[w].m;
      BusyMeansServing(c, s, w);
      if m.key.Some? {
        DedupMarkKey(c, s, w, m, m.key.value);
      } else {
        DedupMarkNoKey(c, s, w, m);
      }
    case WorkExit => DedupExit(c, s, w);
  }

  // ----- store eviction and the end

  lemma DedupEvict(c: Config, s: State, l: EvictStep, t: State)
    requires Dedup(c, s) && CanEvict(s, l) && t == DoEvict(s, l)
    ensures Dedup(c, t)
  {
    match l
    case ReadClock =>
    case Sweep =>
  }

  lemma DedupFinish(c: Config, s: State)
    requires Dedup(c, s) && s.disp.Gone?
    ensures Dedup(c, DoFinish(s))
  {
  }

  lemma DedupStep(c: Config, s: State, l: Label, t: State)
    requires c.store && !c.storeErrors && Control(c, s) && Dedup(c, s)
    requires Enabled(c, s, l) && t == Apply(c, s, l)
    ensures Dedup(c, t)
  {
    hide Dedup, DoEnv, DoPoll, DoTick, DoTimer, DoDisp, DoWork, DoEvict, DoFinish, Busy, SafeLog;
    if IsQuiet(s, l) {
      DedupQuiet(c, s, l, t);
    } else {
      match l
      case Disp(x) => DedupDisp(c, s, x, t);
      case Work(w, k) => DedupWork(c, s, w, k, t);
      case Evict(v) => DedupEvict(c, s, v, t);
      case Main => DedupFinish(c, s);
    }
  }

  lemma DedupInitial(c: Config, now: int)
    requires WellFormed(c)
    ensures Dedup(c, Initial(c, now))
  {
  }

  lemma {:induction false} DedupRun(c: Config, s: State, ls: seq<Label>, t: State)
    requires c.store && !c.storeErrors && Control(c, s) && Dedup(c, s) && Run(c, s, ls, t)
    ensures Dedup(c, t) && Control(c, t)
    decreases |ls|
  {
    hide Dedup, Control;
    if ls != [] {
      var s' := Apply(c, s, ls[0]);
      DedupStep(c, s, ls[0], s');
      ControlStep(c, s, ls[0], s');
      DedupRun(c, s', ls[1..], t);
    }
  }

  /** Cross-batch deduplication: in any run of a pipeline that owns its memory store, once a message with key k has an
      Ack outcome (even if the transport's Ack then fails), no later batch starts a handler on k within the TTL. */
  lemma Deduplication(c: Config, now: int, ls: seq<Label>, t: State, a: Event, b: Event)
    requires WellFormed(c) && c.store && !c.storeErrors && Run(c, Initial(c, now), ls, t)
    requires a in t.log && b in t.log && a.Decided? && a.action.Ack? && b.Started?
    requires a.d.msg.key.Some? && b.d.msg.key == a.d.msg.key && a.batch < b.batch
    ensures b.at > a.at + c.ttl
  {
    hide Initial, Control;
    ControlInitial(c, now);
    DedupInitial(c, now);
    DedupRun(c, Initial(c, now), ls, t);
  }

  /** The read-then-delete window of Exists never erases a live mark: when the delete fires, the entry it removes,
      if any, has expired, although the two lock sections are separate steps. */
  lemma DeleteIsHarmless(c: Config, now: int, ls: seq<Label>, t: State)
    requires WellFormed(c) && c.store && !c.storeErrors && Run(c, Initial(c, now), ls, t)
    requires Enabled(c, t, Disp(Filter(Delete)))
    ensures var k := t.disp.todo[0].msg.key.value; k in t.keys ==> t.now > t.keys[k]
  {
    hide Initial, Control;
    ControlInitial(c, now);
    DedupInitial(c, now);
    DedupRun(c, Initial(c, now), ls, t);
  }
}
