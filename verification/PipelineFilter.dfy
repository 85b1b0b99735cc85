/** The filter inside the running pipeline decides exactly by the live marks. */
module PipelineFilter {
  import opened Retry
  import opened Pipeline
  import opened PipelineControl
  import opened PipelineDedup
  import opened PipelineAcks

  /** With what it fetched, the filter can tell whether a mark of the key is live. */
  lemma ProbeTells(c: Config, s: State, k: string)
    requires Dedup(c, s) && Acks(c, s) && s.disp.Working? && s.disp.todo != [] && s.disp.probe.Fetched?
    requires s.disp.todo[0].msg.key == Some(k)
    ensures (s.disp.probe.entry.Some? && s.now <= s.disp.probe.entry.value) <==> LiveMark(c, s.log, k, s.now)
  {
    hide AllFounded, KeysFounded, WorkersFounded, AllCleared, AckOutcomesMarked, NoRerun, FoundLive;
    var entry := s.disp.probe.entry;
    if entry.None? {
      assert Expired(c, s.log, k, s.now, s.batch) && MarksBefore(s.log, s.batch);
    } else {
      assert Stems(c, s.log, k, entry.value);
    }
  }

  /** Exactness: in every reachable state, the check of a fetched entry finds a duplicate if and only if some mark of
      the key still lasts; otherwise the message is kept, at once or once its stale entry is deleted. So a key runs
      again as soon as its TTL has passed, and not before. */
  lemma CheckExact(c: Config, now: int, ls: seq<Label>, s: State)
    requires WellFormed(c) && c.store && !c.storeErrors && Run(c, Initial(c, now), ls, s)
    requires Enabled(c, s, Disp(Filter(Check)))
    ensures var d := s.disp.todo[0]; var t := Apply(c, s, Disp(Filter(Check)));
      if LiveMark(c, s.log, d.msg.key.value, s.now)
      then t.disp.dups == s.disp.dups + [d] && t.disp.kept == s.disp.kept && t.log == s.log + [FoundDuplicate(d, s.now)]
      else t.disp.dups == s.disp.dups && t.log == s.log
           && (t.disp.kept == s.disp.kept + [d]
               || (Enabled(c, t, Disp(Filter(Delete)))
                   && Apply(c, t, Disp(Filter(Delete))).disp.kept == s.disp.kept + [d]))
  {
    hide Run, Initial, Control, Dedup, Acks, LiveMark;
    ControlInitial(c, now);
    DedupInitial(c, now);
    DedupRun(c, Initial(c, now), ls, s);
    AcksInitial(c, now);
    AcksRun(c, Initial(c, now), ls, s);
    ProbeTells(c, s, s.disp.todo[0].msg.key.value);
    var t := Apply(c, s, Disp(Filter(Check)));
    assert t == DoFilter(c, s, Check);
  }

  lemma AcksInitial(c: Config, now: int)
    requires WellFormed(c)
    ensures Acks(c, Initial(c, now))
  {
  }
}
