/** Every nack carries the delay that the decision before it called for. */
module PipelineNacks {
  import opened Retry
  import opened RingSpec
  import opened Pipeline
  import opened PipelineProgress
  import opened PipelineEvents

  /** What a delayed retry after this decision has to wait: what the handler asked for, or else the backoff of the
      default coordinator, or the base delay of the configurable one. */
  predicate Prescribes(c: Config, e: Event, delay: int)
    requires e.Decided?
  {
    && e.action.RetryWithDelay? && WantsRetry(e.result.action) && e.d.msg.topic in c.handlers
    && match c.handlers[e.d.msg.topic]
       case Default(maxRetries, base) =>
         && e.d.msg.attempts < maxRetries
         && delay == if e.result.delay > 0 then e.result.delay else Backoff(base, e.d.msg.attempts + 1, c.overflow)
       case Configured(maxRetries, base) =>
         && e.d.msg.attempts < maxRetries && e.result.action.RetryWithDelay?
         && delay == if e.result.delay > 0 then e.result.delay else base
  }

  /** d is what this decision was about, with one more attempt. */
  predicate Retries(e: Event, d: Delivery)
    requires e.Decided?
  {
    d == e.d.(msg := e.d.msg.(attempts := e.d.msg.attempts + 1))
  }

  ghost predicate CalledFor(c: Config, log: seq<Event>, d: Delivery, delay: int) {
    exists e :: e in log && e.Decided? && Retries(e, d) && Prescribes(c, e, delay)
  }

  ghost predicate HandDue(c: Config, log: seq<Event>, k: Worker) {
    k.Settling? && k.action.RetryWithDelay? ==> CalledFor(c, log, k.d, k.delay)
  }

  ghost predicate NackDue(c: Config, log: seq<Event>, i: nat)
    requires i < |log|
  {
    log[i].NackCalled? ==> CalledFor(c, log[..i], log[i].d, log[i].delay)
  }

  ghost predicate Nacks(c: Config, s: State) {
    && (forall w :: 0 <= w < |s.workers| ==> HandDue(c, s.log, s.workers[w]))
    && (forall i :: 0 <= i < |s.log| ==> NackDue(c, s.log, i))
  }

  lemma StaysCalledFor(c: Config, log: seq<Event>, es: seq<Event>, d: Delivery, delay: int)
    requires CalledFor(c, log, d, delay)
    ensures CalledFor(c, log + es, d, delay)
  {
    var e :| e in log && e.Decided? && Retries(e, d) && Prescribes(c, e, delay);
    assert e in log + es;
  }

  /** Old nacks stay due, and a new one is when its worker's hand was. */
  lemma NacksGrow(c: Config, s: State, es: seq<Event>, t: State)
    requires Nacks(c, s) && t.log == s.log + es && |t.workers| == |s.workers|
    requires forall w :: 0 <= w < |t.workers| && t.workers[w] != s.workers[w] ==> HandDue(c, t.log, t.workers[w])
    requires forall i :: 0 <= i < |es| && es[i].NackCalled? ==> i == 0 && CalledFor(c, s.log, es[i].d, es[i].delay)
    ensures Nacks(c, t)
  {
    hide CalledFor;
    forall w | 0 <= w < |t.workers|
      ensures HandDue(c, t.log, t.workers[w])
    {
      var k := s.workers[w];
      if t.workers[w] == k && k.Settling? && k.action.RetryWithDelay? {
        assert HandDue(c, s.log, k);
        StaysCalledFor(c, s.log, es, k.d, k.delay);
      }
    }
    forall i | 0 <= i < |t.log|
      ensures NackDue(c, t.log, i)
    {
      if i < |s.log| {
        assert t.log[..i] == s.log[..i] && NackDue(c, s.log, i);
      } else if t.log[i].NackCalled? {
        assert t.log[i] == es[i - |s.log|] && t.log[..|s.log|] == s.log;
      }
    }
  }

  /** A decision in favour of a delayed retry calls for the delay its worker is to ask for. */
  lemma DecisionDue(c: Config, s: State, w: nat, result: Result, t: State)
    requires Bounded(s.ring) && w < |s.workers| && CanWork(c, s, w, Decide(result))
    requires t == DoWork(c, s, w, Decide(result))
    ensures HandDue(c, t.log, t.workers[w])
  {
    hide Backoff;
    var d := s.workers[w].d;
    assert t == DoDecide(c, s, w, d, result);
    CoordinatorContract(c.handlers[d.msg.topic], c.overflow, d.msg, result);
    var e := t.log[|s.log|];
    assert e in t.log;
    assert t.workers[w].action.RetryWithDelay? ==> Retries(e, t.workers[w].d) && Prescribes(c, e, t.workers[w].delay);
  }

  lemma NacksWork(c: Config, s: State, w: nat, l: WorkStep, t: State)
    requires Bounded(s.ring) && Nacks(c, s) && w < |s.workers| && CanWork(c, s, w, l) && t == DoWork(c, s, w, l)
    ensures Nacks(c, t)
  {
    hide DoWork, Handle, Offer, CalledFor;
    WorkChanges(c, s, w, l, t);
    WorkAdds(c, s, w, l, t);
    assert HandDue(c, s.log, s.workers[w]);
    if l.Decide? {
      DecisionDue(c, s, w, l.result, t);
    }
    NacksGrow(c, s, WorkLogs(c, s, w, l), t);
  }

  lemma OthersNackNone(c: Config, s: State, l: Label)
    requires Enabled(c, s, l) && !l.Work?
    ensures forall i :: 0 <= i < |Logs(c, s, l)| ==> !Logs(c, s, l)[i].NackCalled?
  {
    hide Offer, CanTick, CanMain;
  }

  lemma NacksStep(c: Config, s: State, l: Label, t: State)
    requires Nacks(c, s) && Enabled(c, s, l) && t == Apply(c, s, l)
    ensures Nacks(c, t)
  {
    hide Nacks, DoEnv, DoPoll, DoTick, DoTimer, DoDisp, DoWork, DoEvict, DoMain;
    hide CanTick, CanPoll, CanTimer, CanMain, CanDisp, CanWork, Logs;
    if l.Work? {
      NacksWork(c, s, l.w, l.k, t);
    } else {
      if l.Disp? {
        DispKeepsWorkers(c, s, l.x, t);
      } else {
        OthersKeep(c, s, l, t);
      }
      StepAdds(c, s, l, t);
      OthersNackNone(c, s, l);
      NacksGrow(c, s, Logs(c, s, l), t);
    }
  }

  lemma {:induction false} NacksRun(c: Config, s: State, ls: seq<Label>, t: State)
    requires Nacks(c, s) && Run(c, s, ls, t)
    ensures Nacks(c, t)
    decreases |ls|
  {
    hide Nacks;
    if ls != [] {
      NacksStep(c, s, ls[0], Apply(c, s, ls[0]));
      NacksRun(c, Apply(c, s, ls[0]), ls[1..], t);
    }
  }

  /** In every run each nack follows a decision about the same delivery with one attempt less, and asks the transport
      for exactly the delay that the coordinator's rules prescribe for that decision. */
  lemma NackDelay(c: Config, now: int, ls: seq<Label>, t: State, i: nat)
    requires WellFormed(c) && Run(c, Initial(c, now), ls, t) && i < |t.log| && t.log[i].NackCalled?
    ensures CalledFor(c, t.log[..i], t.log[i].d, t.log[i].delay)
  {
    hide Run, CalledFor;
    NacksRun(c, Initial(c, now), ls, t);
    assert NackDue(c, t.log, i);
  }
}
