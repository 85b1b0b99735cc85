/** Conservation: every delivery is in exactly one place, and is settled at most once. */
module PipelineConservation {
  import opened Retry
  import opened RingSpec
  import opened TimerWheel
  import opened Pipeline
  import opened PipelineFlow

  /** Counts the occurrences of one uid, wherever they are. */
  function UidIs(u: nat): (f: Valuation) {
    (t: Token) => if t.d.uid == u && !t.place.Decision? then 1 else 0
  }

  function Occurrences(s: State, u: nat): (n: int) {
    Total(UidIs(u), s)
  }

  ghost predicate Conserved(s: State) {
    forall u: nat :: Occurrences(s, u) == if u < s.next then 1 else 0
  }

  lemma {:induction false} MovedUid(u: nat, p: Place, q: Place, ds: seq<Delivery>)
    requires !p.Decision? && !q.Decision?
    ensures Moved(UidIs(u), p, q, ds) == 0
  {
    if ds != [] {
      MovedUid(u, p, q, ds[1..]);
    }
  }

  /** No step creates or destroys a delivery, except that the issued uid appears. */
  lemma UidGain(c: Config, s: State, l: Label, u: nat)
    requires Enabled(c, s, l)
    ensures Gain(UidIs(u), c, s, l) == if u == s.next then Issued(s, l) else 0
  {
    hide Worth, PollGain, TickGain, TimerGain, DispGain, WorkGain, MainGain;
    match l
    case Env(e) =>
    case Poll(p) => PollUid(s, p, u);
    case Tick(x) => TickUid(s, x, u);
    case Timer(r) => TimerUid(s, r, u);
    case Disp(x) => DispUid(c, s, x, u);
    case Work(w, k) => WorkUid(c, s, w, k, u);
    case Evict(_) =>
    case Main => MainUid(s, u);
  }

  lemma PollUid(s: State, l: PollStep, u: nat)
    requires Bounded(s.ring) && CanPoll(s, l)
    ensures PollGain(UidIs(u), s, l) == 0
  {
    hide Worth;
    if l.Receive? {
      MovedUid(u, InQueue, WithPoller, s.queue[..l.n]);
    }
  }

  lemma TickUid(s: State, l: TickStep, u: nat)
    ensures TickGain(UidIs(u), s, l) == 0
  {
    hide Worth;
    match l
    case Expire(_, out, _) => MovedUid(u, InWheel, WithTicker, Items(out));
    case SendBatch => MovedUid(u, WithTicker, InChannel, s.tickHeld);
    case TickExit => MovedUid(u, WithTicker, Left, s.tickHeld);
  }

  lemma TimerUid(s: State, l: TimerStep, u: nat)
    requires Bounded(s.ring) && CanTimer(s, l)
    ensures TimerGain(UidIs(u), s, l) == 0
  {
    hide Worth;
    if l.TimerReceive? {
      MovedUid(u, InChannel, WithTimer, s.channel[0]);
    }
  }

  lemma DispUid(c: Config, s: State, l: DispStep, u: nat)
    requires Bounded(s.ring) && CanDisp(c, s, l)
    ensures DispGain(UidIs(u), c, s, l) == 0
  {
    hide Worth;
    if l.Dequeue? {
      MovedUid(u, InRing, Unfiltered, TakeBatch(s.ring, if s.disp.draining then 100 else 10).1);
    }
  }

  lemma WorkUid(c: Config, s: State, w: nat, l: WorkStep, u: nat)
    requires Bounded(s.ring) && w < |s.workers| && CanWork(c, s, w, l)
    ensures WorkGain(UidIs(u), c, s, w, l) == if u == s.next && l.Settle? && l.requeue then 1 else 0
  {
    hide Handle, Offer;
  }

  lemma MainUid(s: State, u: nat)
    requires Bounded(s.ring)
    ensures MainGain(UidIs(u), s) == 0
  {
    hide Worth;
    if s.phase.RingClosed? {
      MovedUid(u, InWheel, InDrain, Items(s.wheel));
    }
  }

  lemma ConservedStep(c: Config, s: State, l: Label, t: State)
    requires Conserved(s) && Enabled(c, s, l) && t == Apply(c, s, l)
    ensures Conserved(t)
  {
    hide Total, Gain, Enabled, Apply;
    Flow(UidIs(0), c, s, l, t);
    forall u: nat
      ensures Occurrences(t, u) == if u < t.next then 1 else 0
    {
      Flow(UidIs(u), c, s, l, t);
      UidGain(c, s, l, u);
      assert Occurrences(s, u) == if u < s.next then 1 else 0;
    }
  }

  lemma {:induction false} FreeWorth(f: Valuation, ws: seq<Worker>)
    requires forall i :: 0 <= i < |ws| ==> ws[i] == Free
    ensures PoolWorth(f, ws) == 0
  {
    if ws != [] {
      FreeWorth(f, ws[1..]);
    }
  }

  lemma NothingAtFirst(f: Valuation, c: Config, now: int)
    requires WellFormed(c)
    ensures Total(f, Initial(c, now)) == 0
  {
    FreeWorth(f, Initial(c, now).workers);
    assert Items<Delivery>([]) == [];
  }

  lemma ConservedInitial(c: Config, now: int)
    requires WellFormed(c)
    ensures Conserved(Initial(c, now))
  {
    forall u: nat
      ensures Occurrences(Initial(c, now), u) == 0
    {
      NothingAtFirst(UidIs(u), c, now);
    }
  }

  /** In every state of every run, shutdown included, each delivery ever received occurs exactly once over all
      places: queue, poller, wheel, timer, ring, batch, pool, worker, final drain, or a settlement in the log. */
  lemma {:induction false} Conservation(c: Config, s: State, ls: seq<Label>, t: State)
    requires Conserved(s) && Run(c, s, ls, t)
    ensures Conserved(t)
    decreases |ls|
  {
    if ls != [] {
      var s' := Apply(c, s, ls[0]);
      ConservedStep(c, s, ls[0], s');
      Conservation(c, s', ls[1..], t);
    }
  }

  // ----- settlements

  /** The transport call, refusal or loss that ends a delivery. */
  predicate Settles(e: Event, u: nat) {
    EventWorth(UidIs(u), e) == 1
  }

  lemma {:induction false} LogCounts(log: seq<Event>, u: nat, i: nat)
    requires i < |log|
    ensures LogWorth(UidIs(u), log) >= LogWorth(UidIs(u), log[..i]) + EventWorth(UidIs(u), log[i]) >= 0
    decreases |log|
  {
    var n := |log| - 1;
    if i < n {
      LogCounts(log[..n], u, i);
      assert log[..n][..i] == log[..i] && log[..n][i] == log[i];
      LogNonNegative(log[..i], u);
    } else {
      LogNonNegative(log[..n], u);
    }
  }

  lemma {:induction false} LogNonNegative(log: seq<Event>, u: nat)
    ensures LogWorth(UidIs(u), log) >= 0
    decreases |log|
  {
    if log != [] {
      LogNonNegative(log[..|log| - 1], u);
    }
  }

  lemma {:induction false} WorthCounts(u: nat, p: Place, ds: seq<Delivery>)
    ensures Worth(UidIs(u), p, ds) >= 0
  {
    if ds != [] {
      WorthCounts(u, p, ds[1..]);
    }
  }

  lemma {:induction false} PoolCounts(u: nat, ws: seq<Worker>)
    ensures PoolWorth(UidIs(u), ws) >= 0
  {
    if ws != [] {
      PoolCounts(u, ws[1..]);
    }
  }

  lemma LiveCounts(s: State, u: nat)
    ensures IntakeWorth(UidIs(u), s) >= 0 && DispatchWorth(UidIs(u), s) >= 0
  {
    WorthCounts(u, InQueue, s.queue);
    WorthCounts(u, WithPoller, s.pollHeld);
    WorthCounts(u, InWheel, Items(s.wheel));
    WorthCounts(u, WithTicker, s.tickHeld);
    WorthCounts(u, InChannel, Flat(s.channel));
    WorthCounts(u, WithTimer, s.timerHeld);
    DispatchCounts(s, u);
  }

  lemma DispatchCounts(s: State, u: nat)
    ensures DispatchWorth(UidIs(u), s) >= 0
  {
    hide Worth, PoolWorth;
    WorthCounts(u, InRing, s.ring.contents);
    WorthCounts(u, InPool, s.pool);
    PoolCounts(u, s.workers);
    if s.disp.Working? {
      WorthCounts(u, Unfiltered, s.disp.todo);
      WorthCounts(u, Kept, s.disp.kept);
      WorthCounts(u, Dup, s.disp.dups);
    }
    if s.phase.Draining? {
      WorthCounts(u, InDrain, s.phase.rest);
    }
  }

  /** A delivery is settled at most once, and once settled it is in no live place: nothing abandoned or
      rejected is ever acked, and nothing acked is ever nacked or retried. A dead-letter send that the transport accepts
      is not yet a settlement: the ack that follows it is. */
  lemma SettledOnce(c: Config, now: int, ls: seq<Label>, t: State, u: nat, i: nat)
    requires WellFormed(c) && Run(c, Initial(c, now), ls, t)
    requires i < |t.log| && Settles(t.log[i], u)
    ensures u < t.next
    ensures forall j :: 0 <= j < |t.log| && Settles(t.log[j], u) ==> j == i
    ensures IntakeWorth(UidIs(u), t) == 0 && DispatchWorth(UidIs(u), t) == 0
  {
    ConservedInitial(c, now);
    Conservation(c, Initial(c, now), ls, t);
    LiveCounts(t, u);
    LogCounts(t.log, u, i);
    assert Occurrences(t, u) <= 1;
    LogNonNegative(t.log[..i], u);
    forall j | 0 <= j < |t.log| && Settles(t.log[j], u)
      ensures j == i
    {
      if j < i {
        TwoSettlements(t.log, u, j, i);
      } else if i < j {
        TwoSettlements(t.log, u, i, j);
      }
    }
  }

  lemma TwoSettlements(log: seq<Event>, u: nat, i: nat, j: nat)
    requires i < j < |log| && Settles(log[i], u) && Settles(log[j], u)
    ensures LogWorth(UidIs(u), log) >= 2
  {
    LogCounts(log, u, j);
    LogCounts(log[..j], u, i);
    LogNonNegative(log[..j][..i], u);
  }
}
