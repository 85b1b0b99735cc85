/** A failing store: the filter takes an error for a duplicate and the message is acked unprocessed. */
module PipelineStoreErrors {
  import opened Retry
  import opened Pipeline
  import opened PipelineAcks
  import opened PipelineReach

  ghost predicate Justified(c: Config, log: seq<Event>) {
    forall i :: 0 <= i < |log| && log[i].AckCalled? ==> Reason(c, log[..i], log[i].d)
  }

  /** Every Ack of every run has its reason in the events before it. */
  ghost predicate AlwaysJustified(c: Config, now: int)
    requires WellFormed(c)
  {
    forall ls, s :: Run(c, Initial(c, now), ls, s) ==> Justified(c, s.log)
  }

  lemma ErrorOne(c: Config, now: int, s: State, d: Delivery) returns (t: State)
    requires WellFormed(c) && c.store && c.storeErrors && d.msg.key.Some?
    requires Snapshot(c, now, s, [], [], [], Working(false, [d], NoProbe, [], []), [], Free)
    ensures Snapshot(c, now, t, [], [], [], Working(false, [], NoProbe, [], [d]), [], Free)
    ensures t.log == s.log + [FoundDuplicate(d, s.now)]
  {
    hide Reachable;
    t := DoFilter(c, s, StoreError);
    ReachStep(c, now, s, Disp(Filter(StoreError)), t);
  }

  lemma AckOne(c: Config, now: int, s: State, d: Delivery) returns (t: State)
    requires WellFormed(c) && Snapshot(c, now, s, [], [], [], Working(false, [], NoProbe, [], [d]), [], Free)
    ensures Reachable(c, now, t) && t.log == s.log + [AckCalled(d, Duplicate, true)]
  {
    hide Reachable;
    t := DoAckDup(s);
    ReachStep(c, now, s, Disp(AckDup), t);
  }

  lemma UnfoundedAck(c: Config, now: int) returns (s: State, d: Delivery)
    requires WellFormed(c) && c.store && c.storeErrors
    ensures Reachable(c, now, s) && s.log == [Arrived(d), FoundDuplicate(d, now), AckCalled(d, Duplicate, true)]
  {
    hide Reachable;
    var s0 := Initial(c, now);
    assert Snapshot(c, now, s0, [], [], [], Idle(false), [], Free) by {
      InitialReachable(c, now);
      assert s0.workers == Crew(c, Free);
    }
    var s1;
    s1, d := OneMore(c, now, s0, Message("", "", Some(""), 0, 0), [], Idle(false), Free);
    assert [] + [d] == [d];
    var s2 := DequeueOne(c, now, s1, d);
    var s3 := ErrorOne(c, now, s2, d);
    s := AckOne(c, now, s3, d);
    assert s3.log == [Arrived(d), FoundDuplicate(d, now)];
  }

  lemma NoReason(c: Config, d: Delivery, now: int)
    ensures !Reason(c, [Arrived(d), FoundDuplicate(d, now)], d)
  {
  }

  /** The exact condition under which acks are always justified: no configured store ever fails. */
  lemma AcksJustifiedIff(c: Config, now: int)
    requires WellFormed(c)
    ensures AlwaysJustified(c, now) <==> !(c.store && c.storeErrors)
  {
    hide Run, Reason;
    if c.store && c.storeErrors {
      var s, d := UnfoundedAck(c, now);
      var ls :| Run(c, Initial(c, now), ls, s);
      NoReason(c, d, now);
      assert s.log[..2] == [Arrived(d), FoundDuplicate(d, now)] && s.log[2].AckCalled?;
      assert !Justified(c, s.log);
    } else {
      forall ls, s | Run(c, Initial(c, now), ls, s)
        ensures Justified(c, s.log)
      {
        forall i | 0 <= i < |s.log| && s.log[i].AckCalled?
          ensures Reason(c, s.log[..i], s.log[i].d)
        {
          AckJustified(c, now, ls, s, i);
        }
      }
    }
  }
}
