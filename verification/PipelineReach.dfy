/** Reachable states, and the steps by which concrete runs are put together. */
module PipelineReach {
  import opened Retry
  import opened RingSpec
  import opened Pipeline

  predicate NonNegative(l: Label) {
    l.Env? && l.e.Publish? ==> l.e.m.attempts >= 0
  }

  /** s is reached by some interleaving in which messages are published with a non-negative Attempts. */
  ghost predicate Reachable(c: Config, now: int, s: State)
    requires WellFormed(c)
  {
    exists ls :: Run(c, Initial(c, now), ls, s) && forall i :: 0 <= i < |ls| ==> NonNegative(ls[i])
  }

  lemma {:induction false} RunAdd(c: Config, s: State, ls: seq<Label>, t: State, l: Label)
    requires Run(c, s, ls, t) && Enabled(c, t, l)
    ensures Run(c, s, ls + [l], Apply(c, t, l))
    decreases |ls|
  {
    hide Enabled, Apply;
    if ls == [] {
      assert [l][1..] == [];
      assert ls + [l] == [l];
      assert Run(c, Apply(c, s, l), [], Apply(c, t, l));
    } else {
      RunAdd(c, Apply(c, s, ls[0]), ls[1..], t, l);
      assert (ls + [l])[1..] == ls[1..] + [l];
    }
  }

  lemma ReachStep(c: Config, now: int, s: State, l: Label, t: State)
    requires WellFormed(c) && Reachable(c, now, s) && Enabled(c, s, l) && NonNegative(l) && t == Apply(c, s, l)
    ensures Reachable(c, now, t)
  {
    hide Run, Enabled, Apply, Initial;
    var ls :| Run(c, Initial(c, now), ls, s) && forall i :: 0 <= i < |ls| ==> NonNegative(ls[i]);
    RunAdd(c, Initial(c, now), ls, s, l);
    assert forall i :: 0 <= i < |ls + [l]| ==> NonNegative((ls + [l])[i]);
  }

  /** Every worker free but the first. */
  function Crew(c: Config, k: Worker): (ws: seq<Worker>)
    requires WellFormed(c)
    ensures |ws| == c.poolSize && ws[0] == k && forall i :: 1 <= i < |ws| ==> ws[i] == Free
  {
    seq(c.poolSize, i => if i == 0 then k else Free)
  }

  /** The parts of a reachable serving state that the construction below goes through. */
  ghost predicate Snapshot(c: Config, now: int, s: State, moving: seq<Delivery>, held: seq<Delivery>,
      ring: seq<Delivery>,
                           x: Dispatcher, pool: seq<Delivery>, k: Worker)
    requires WellFormed(c)
  {
    && Reachable(c, now, s) && s.transportOpen && s.poolOpen && !s.pollExited
    && s.queue == moving && s.pollHeld == held && |ring| <= c.ringCapacity
    && s.ring == Queue(ring, c.ringCapacity, Block, false)
    && s.disp == x && s.pool == pool && s.workers == Crew(c, k)
  }

  /** Time stands still and the store is left alone. */
  predicate SameStore(s: State, t: State) {
    t.now == s.now && t.keys == s.keys
  }

  /** One more immediate message reaches the ring. */
  lemma OneMore(c: Config, now: int, s: State, m: Message, ring: seq<Delivery>, x: Dispatcher, k: Worker)
    returns (t: State, d: Delivery)
    requires WellFormed(c) && Snapshot(c, now, s, [], [], ring, x, [], k)
    requires |ring| < c.ringCapacity && m.attempts >= 0 && m.notBefore <= 0
    ensures Snapshot(c, now, t, [], [], ring + [d], x, [], k) && d.msg == m && t.log == s.log + [Arrived(d)]
    ensures SameStore(s, t) && t.batch == s.batch
  {
    var s1 := PublishOne(c, now, s, m, ring, x, k);
    d := s1.queue[0];
    var s2 := ReceiveOne(c, now, s1, d, ring, x, k);
    t := DeliverOne(c, now, s2, d, ring, x, k);
  }

  lemma PublishOne(c: Config, now: int, s: State, m: Message, ring: seq<Delivery>, x: Dispatcher, k: Worker)
    returns (t: State)
    requires WellFormed(c) && Snapshot(c, now, s, [], [], ring, x, [], k) && m.attempts >= 0
    ensures |t.queue| == 1 && t.queue[0].msg == m && Snapshot(c, now, t, t.queue, [], ring, x, [], k)
    ensures t.log == s.log + [Arrived(t.queue[0])] && SameStore(s, t) && t.batch == s.batch
  {
    hide Reachable;
    t := DoPublish(s, m);
    ReachStep(c, now, s, Env(Publish(m)), t);
  }

  lemma ReceiveOne(c: Config, now: int, s: State, d: Delivery, ring: seq<Delivery>, x: Dispatcher, k: Worker)
    returns (t: State)
    requires WellFormed(c) && Snapshot(c, now, s, [d], [], ring, x, [], k)
    ensures Snapshot(c, now, t, [], [d], ring, x, [], k) && t.log == s.log && SameStore(s, t) && t.batch == s.batch
  {
    hide Reachable;
    t := s.(pollHeld := s.queue[..1], queue := s.queue[1..]);
    ReachStep(c, now, s, Poll(Receive(1)), t);
  }

  lemma DeliverOne(c: Config, now: int, s: State, d: Delivery, ring: seq<Delivery>, x: Dispatcher, k: Worker)
    returns (t: State)
    requires WellFormed(c) && Snapshot(c, now, s, [], [d], ring, x, [], k) && |ring| < c.ringCapacity
    requires d.msg.notBefore <= 0
    ensures Snapshot(c, now, t, [], [], ring + [d], x, [], k) && t.log == s.log && SameStore(s, t) && t.batch == s.batch
  {
    hide Reachable;
    t := DoDeliver(s);
    ReachStep(c, now, s, Poll(Deliver), t);
  }

  lemma DequeueOne(c: Config, now: int, s: State, d: Delivery) returns (t: State)
    requires WellFormed(c) && Snapshot(c, now, s, [], [], [d], Idle(false), [], Free)
    ensures Snapshot(c, now, t, [], [], [], Working(false, [d], NoProbe, [], []), [], Free) && t.log == s.log
    ensures SameStore(s, t) && t.batch == s.batch + 1
  {
    hide Reachable;
    t := DoDequeue(s);
    ReachStep(c, now, s, Disp(Dequeue), t);
  }

  lemma SkipOne(c: Config, now: int, s: State, d: Delivery) returns (t: State)
    requires WellFormed(c) && (d.msg.key.None? || !c.store)
    requires Snapshot(c, now, s, [], [], [], Working(false, [d], NoProbe, [], []), [], Free)
    ensures Snapshot(c, now, t, [], [], [], Working(false, [], NoProbe, [d], []), [], Free)
    ensures t.log == s.log && SameStore(s, t) && t.batch == s.batch
  {
    hide Reachable;
    t := DoFilter(c, s, Skip);
    ReachStep(c, now, s, Disp(Filter(Skip)), t);
  }

  lemma SubmitOne(c: Config, now: int, s: State, d: Delivery) returns (t: State)
    requires WellFormed(c) && Snapshot(c, now, s, [], [], [], Working(false, [], NoProbe, [d], []), [], Free)
    ensures Snapshot(c, now, t, [], [], [], Working(false, [], NoProbe, [], []), [d], Free)
    ensures t.log == s.log + [Submitted(d, s.batch)] && SameStore(s, t) && t.batch == s.batch
  {
    hide Reachable;
    t := DoSubmit(s);
    ReachStep(c, now, s, Disp(Submit), t);
  }

  lemma TakeOne(c: Config, now: int, s: State, x: Dispatcher, d: Delivery) returns (t: State)
    requires WellFormed(c) && Snapshot(c, now, s, [], [], [], x, [d], Free) && d.msg.topic in c.handlers
    ensures Snapshot(c, now, t, [], [], [], x, [], Running(d))
    ensures t.log == s.log + [Started(d, s.batch, s.now)] && SameStore(s, t) && t.batch == s.batch
  {
    hide Reachable;
    t := DoTake(c, s, 0);
    assert s.workers[0 := Running(d)] == Crew(c, Running(d));
    ReachStep(c, now, s, Work(0, Take), t);
  }

  lemma InitialReachable(c: Config, now: int)
    requires WellFormed(c)
    ensures Reachable(c, now, Initial(c, now))
  {
    var ls: seq<Label> := [];
    assert Run(c, Initial(c, now), ls, Initial(c, now));
  }
}
