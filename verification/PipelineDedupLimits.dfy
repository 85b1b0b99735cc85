/** Exactly which configurations deduplicate: those with a store that cannot fail. */
module PipelineDedupLimits {
  import opened Retry
  import opened Pipeline
  import opened PipelineControl
  import opened PipelineDedup
  import opened PipelineReach

  ghost predicate AlwaysDeduplicates(c: Config, now: int)
    requires WellFormed(c)
  {
    forall ls, s :: Run(c, Initial(c, now), ls, s) ==> NoRerun(c, s.log)
  }

  const Done: Dispatcher := Working(false, [], NoProbe, [], [])

  /** Nothing is marked: the store finds no entry ... */
  lemma FetchNone(c: Config, now: int, s: State, d: Delivery) returns (t: State)
    requires WellFormed(c) && c.store && d.msg.key.Some? && s.keys == map[]
    requires Snapshot(c, now, s, [], [], [], Working(false, [d], NoProbe, [], []), [], Free)
    ensures Snapshot(c, now, t, [], [], [], Working(false, [d], Fetched(None), [], []), [], Free)
    ensures t.log == s.log && SameStore(s, t) && t.batch == s.batch
  {
    hide Reachable;
    t := DoFilter(c, s, Fetch);
    ReachStep(c, now, s, Disp(Filter(Fetch)), t);
  }

  /** ... and the message passes. */
  lemma PassOne(c: Config, now: int, s: State, d: Delivery) returns (t: State)
    requires WellFormed(c) && c.store && d.msg.key.Some? && s.keys == map[]
    requires Snapshot(c, now, s, [], [], [], Working(false, [d], NoProbe, [], []), [], Free)
    ensures Snapshot(c, now, t, [], [], [], Working(false, [], NoProbe, [d], []), [], Free)
    ensures t.log == s.log && SameStore(s, t) && t.batch == s.batch
  {
    hide Reachable;
    var m := FetchNone(c, now, s, d);
    t := DoFilter(c, m, Check);
    ReachStep(c, now, m, Disp(Filter(Check)), t);
  }

  lemma AckResult(c: Config, now: int, s: State, d: Delivery) returns (t: State)
    requires WellFormed(c) && Snapshot(c, now, s, [], [], [], Done, [], Running(d)) && d.msg.topic in c.handlers
    ensures Snapshot(c, now, t, [], [], [], Done, [], Settling(d, Ack, 0))
    ensures t.log == s.log + [Decided(d, s.batch, s.now, Result(Ack, 0), Ack)] && SameStore(s, t) && t.batch == s.batch
  {
    hide Reachable;
    var r := Result(Ack, 0);
    t := DoDecide(c, s, 0, d, r);
    assert Handle(c.handlers[d.msg.topic], c.overflow, d.msg, r) == Outcome(Ack, d.msg, 0);
    assert s.workers[0 := t.workers[0]] == Crew(c, Settling(d, Ack, 0));
    ReachStep(c, now, s, Work(0, Decide(r)), t);
  }

  lemma AckSent(c: Config, now: int, s: State, d: Delivery) returns (t: State)
    requires WellFormed(c) && Snapshot(c, now, s, [], [], [], Done, [], Settling(d, Ack, 0))
    ensures Snapshot(c, now, t, [], [], [], Done, [], if c.store then Marking(d.msg) else Free)
    ensures t.log == s.log + [AckCalled(d, HandlerAck, true)] && SameStore(s, t) && t.batch == s.batch
  {
    hide Reachable;
    t := SettleAck(c, s, 0, d);
    assert t.workers == Crew(c, if c.store then Marking(d.msg) else Free);
    ReachStep(c, now, s, Work(0, Settle(true, false)), t);
  }

  lemma MarkFails(c: Config, now: int, s: State, m: Message) returns (t: State)
    requires WellFormed(c) && c.storeErrors && Snapshot(c, now, s, [], [], [], Done, [], Marking(m))
    ensures Snapshot(c, now, t, [], [], [], Done, [], Free)
    ensures t.log == s.log && SameStore(s, t) && t.batch == s.batch
  {
    hide Reachable;
    t := DoMark(c, s, 0, m, false);
    assert t.workers == Crew(c, Free);
    ReachStep(c, now, s, Work(0, Mark(false)), t);
  }

  lemma BatchEnds(c: Config, now: int, s: State) returns (t: State)
    requires WellFormed(c) && Snapshot(c, now, s, [], [], [], Done, [], Free)
    ensures Snapshot(c, now, t, [], [], [], Idle(false), [], Free)
    ensures t.log == s.log && SameStore(s, t) && t.batch == s.batch
  {
    hide Reachable;
    NothingCounted(c, now, s);
    t := s.(disp := Idle(false));
    ReachStep(c, now, s, Disp(Barrier), t);
  }

  lemma NothingCounted(c: Config, now: int, s: State)
    requires WellFormed(c) && Reachable(c, now, s) && s.pool == []
    requires forall i :: 0 <= i < |s.workers| ==> !IsBusy(s.workers[i])
    ensures s.wg == 0
  {
    hide Run, SafeLog;
    var ls :| Run(c, Initial(c, now), ls, s) && forall i :: 0 <= i < |ls| ==> NonNegative(ls[i]);
    ControlInitial(c, now);
    ControlRun(c, Initial(c, now), ls, s);
    NoneBusy(s.workers);
  }

  /** The handler's part of a batch of one. */
  lemma Served(c: Config, now: int, s: State, d: Delivery) returns (t: State)
    requires WellFormed(c) && Snapshot(c, now, s, [], [], [], Working(false, [], NoProbe, [d], []), [], Free)
    requires d.msg.topic in c.handlers && (c.store ==> c.storeErrors)
    ensures Snapshot(c, now, t, [], [], [], Idle(false), [], Free) && SameStore(s, t) && t.batch == s.batch
    ensures t.log == s.log + [Submitted(d, s.batch), Started(d, s.batch, s.now),
                              Decided(d, s.batch, s.now, Result(Ack, 0), Ack), AckCalled(d, HandlerAck, true)]
  {
    hide Snapshot;
    var s1 := SubmitOne(c, now, s, d);
    var s2 := TakeOne(c, now, s1, Done, d);
    var s3 := AckResult(c, now, s2, d);
    var s4 := AckSent(c, now, s3, d);
    if c.store {
      s4 := MarkFails(c, now, s4, d.msg);
    }
    t := BatchEnds(c, now, s4);
  }

  /** Without a store, or with one whose Mark fails, a keyed message runs and leaves no trace. */
  lemma Round(c: Config, now: int, s: State, m: Message) returns (t: State, d: Delivery)
    requires WellFormed(c) && Snapshot(c, now, s, [], [], [], Idle(false), [], Free) && s.keys == map[]
    requires m.topic in c.handlers && m.key.Some? && m.attempts >= 0 && m.notBefore <= 0 && (c.store ==> c.storeErrors)
    ensures Snapshot(c, now, t, [], [], [], Idle(false), [], Free) && SameStore(s, t) && t.batch == s.batch + 1
    ensures d.msg == m
    ensures forall e :: e in s.log ==> e in t.log
    ensures Started(d, t.batch, s.now) in t.log && Decided(d, t.batch, s.now, Result(Ack, 0), Ack) in t.log
  {
    hide Snapshot;
    var s1;
    s1, d := OneMore(c, now, s, m, [], Idle(false), Free);
    assert [] + [d] == [d];
    var s2 := DequeueOne(c, now, s1, d);
    var s3;
    if c.store {
      s3 := PassOne(c, now, s2, d);
    } else {
      s3 := SkipOne(c, now, s2, d);
    }
    t := Served(c, now, s3, d);
  }

  /** The run in which a key runs again in the next batch, at the same instant. */
  lemma RunsAgain(c: Config, now: int, topic: string) returns (s: State)
    requires WellFormed(c) && topic in c.handlers && c.ttl >= 0 && (c.store ==> c.storeErrors)
    ensures Reachable(c, now, s) && !NoRerun(c, s.log)
  {
    hide Reachable;
    var s0 := Initial(c, now);
    assert Snapshot(c, now, s0, [], [], [], Idle(false), [], Free) by {
      InitialReachable(c, now);
      assert s0.workers == Crew(c, Free);
    }
    var m := Message("", topic, Some(""), 0, 0);
    var s1, d1 := Round(c, now, s0, m);
    var d2;
    s, d2 := Round(c, now, s1, m);
    var a, b := Decided(d1, s1.batch, now, Result(Ack, 0), Ack), Started(d2, s.batch, now);
    assert a in s.log && b in s.log;
  }

  /** The exact condition: with a TTL that lasts at all and any handler, deduplication holds in all runs if and only if
      a store is configured and cannot fail. */
  lemma DeduplicationIff(c: Config, now: int)
    requires WellFormed(c) && c.ttl >= 0 && c.handlers != map[]
    ensures AlwaysDeduplicates(c, now) <==> c.store && !c.storeErrors
  {
    hide Run, NoRerun;
    if c.store && !c.storeErrors {
      forall ls, s | Run(c, Initial(c, now), ls, s)
        ensures NoRerun(c, s.log)
      {
        RunDeduplicates(c, now, ls, s);
      }
    } else {
      var topic :| topic in c.handlers;
      var s := RunsAgain(c, now, topic);
      var ls :| Run(c, Initial(c, now), ls, s);
    }
  }

  lemma RunDeduplicates(c: Config, now: int, ls: seq<Label>, s: State)
    requires WellFormed(c) && c.store && !c.storeErrors && Run(c, Initial(c, now), ls, s)
    ensures NoRerun(c, s.log)
  {
    hide Run, Initial, Control;
    ControlInitial(c, now);
    DedupInitial(c, now);
    DedupRun(c, Initial(c, now), ls, s);
  }
}
