/** The worker pool: a buffered channel, its workers and the wait group, in every interleaving (executor/pool.go). */
module WorkerPool {

  datatype Hand<T> = Waiting | Busy(task: T) | Gone

  /** `submitted`, `taken` and `finished` are history; `panics` counts sends on, and closes of, a closed channel. */
  datatype State<T> = State(
    size: nat, started: bool, closed: bool,
    channel: seq<T>, hands: seq<Hand<T>>, wg: int,
    submitted: seq<T>, taken: seq<T>, finished: multiset<T>, panics: nat)

  datatype Step<T> =
    | Start
    | Submit(task: T)
    | TrySubmit(task: T)
    | Stop             // StopDispatching
    | Receive(w: nat)
    | Finish(w: nat)
    | Leave(w: nat)

  function New<T>(size: int): (s: State<T>) {
    State(if size < 1 then 1 else size, false, false, [], [], 0, [], [], multiset{}, 0)
  }

  predicate Enabled<T>(s: State<T>, l: Step<T>) {
    match l
    case Submit(_) => s.closed || |s.channel| < s.size
    case Receive(w) => w < |s.hands| && s.hands[w].Waiting? && s.channel != []
    case Finish(w) => w < |s.hands| && s.hands[w].Busy?
    case Leave(w) => w < |s.hands| && s.hands[w].Waiting? && s.channel == [] && s.closed
    case _ => true
  }

  function Send<T>(s: State<T>, task: T): (r: State<T>) {
    s.(channel := if s.closed then s.channel else s.channel + [task],
       submitted := if s.closed then s.submitted else s.submitted + [task],
       panics := if s.closed then s.panics + 1 else s.panics)
  }

  function Apply<T>(s: State<T>, l: Step<T>): (r: State<T>)
    requires Enabled(s, l)
  {
    match l
    case Start => if s.started then s else s.(started := true, hands := seq(s.size, _ => Waiting), wg := s.wg + s.size)
    case Submit(task) => Send(s, task)
    case TrySubmit(task) => if !s.closed && |s.channel| >= s.size then s else Send(s, task)
    case Stop =>
      if !s.started then s else s.(closed := true, panics := if s.closed then s.panics + 1 else s.panics)
    case Receive(w) =>
      s.(channel := s.channel[1..], taken := s.taken + [s.channel[0]], hands := s.hands[w := Busy(s.channel[0])])
    case Finish(w) => s.(finished := s.finished + multiset{s.hands[w].task}, hands := s.hands[w := Waiting])
    case Leave(w) => s.(hands := s.hands[w := Gone], wg := s.wg - 1)
  }

  predicate Run<T>(s: State<T>, ls: seq<Step<T>>, t: State<T>)
    decreases |ls|
  {
    if ls == [] then s == t
    else Enabled(s, ls[0]) && Run(Apply(s, ls[0]), ls[1..], t)
  }

  // ----- what the workers hold

  function Running<T>(hands: seq<Hand<T>>): (m: multiset<T>)
    ensures |m| <= |hands|
  {
    if hands == [] then multiset{}
    else Task(hands[0]) + Running(hands[1..])
  }

  function Present<T>(hands: seq<Hand<T>>): (n: nat)
    ensures n <= |hands|
    ensures n == 0 <==> forall i :: 0 <= i < |hands| ==> hands[i].Gone?
  {
    if hands == [] then 0 else One(hands[0]) + Present(hands[1..])
  }

  function Task<T>(h: Hand<T>): (m: multiset<T>) {
    if h.Busy? then multiset{h.task} else multiset{}
  }

  function One<T>(h: Hand<T>): (n: nat) {
    if h.Gone? then 0 else 1
  }

  lemma {:induction false} HandChanges<T>(hands: seq<Hand<T>>, w: nat, h: Hand<T>)
    requires w < |hands|
    ensures Running(hands[w := h]) + Task(hands[w]) == Running(hands) + Task(h)
    ensures Present(hands[w := h]) + One(hands[w]) == Present(hands) + One(h)
  {
    hide Task;
    if w == 0 {
      assert hands[w := h][1..] == hands[1..];
      Exchange(Task(h), Running(hands[1..]), Task(hands[0]));
    } else {
      HandChanges(hands[1..], w - 1, h);
      assert hands[w := h][1..] == hands[1..][w - 1 := h];
      Under(Task(hands[0]), Running(hands[w := h][1..]), Task(hands[w]), Running(hands[1..]), Task(h));
    }
  }

  lemma Exchange<T>(a: multiset<T>, b: multiset<T>, c: multiset<T>)
    ensures (a + b) + c == (c + b) + a
  {
  }

  lemma Under<T>(x: multiset<T>, a: multiset<T>, b: multiset<T>, c: multiset<T>, d: multiset<T>)
    requires a + b == c + d
    ensures (x + a) + b == (x + c) + d
  {
    assert (x + a) + b == x + (a + b);
    assert (x + c) + d == x + (c + d);
  }

  lemma TakesUp<T>(hands: seq<Hand<T>>, w: nat, x: T)
    requires w < |hands| && hands[w].Waiting?
    ensures Running(hands[w := Busy(x)]) == Running(hands) + multiset{x}
    ensures Present(hands[w := Busy(x)]) == Present(hands)
  {
    hide Running, Present;
    HandChanges(hands, w, Busy(x));
    assert Running(hands[w := Busy(x)]) + multiset{} == Running(hands[w := Busy(x)]);
  }

  lemma PutsDown<T>(hands: seq<Hand<T>>, w: nat)
    requires w < |hands| && hands[w].Busy?
    ensures Running(hands[w := Waiting]) + multiset{hands[w].task} == Running(hands)
    ensures Present(hands[w := Waiting]) == Present(hands)
  {
    hide Running, Present;
    HandChanges(hands, w, Waiting);
    assert Running(hands) + multiset{} == Running(hands);
  }

  lemma GoesHome<T>(hands: seq<Hand<T>>, w: nat)
    requires w < |hands| && hands[w].Waiting?
    ensures Running(hands[w := Gone]) == Running(hands)
    ensures Present(hands[w := Gone]) == Present(hands) - 1
  {
    hide Running, Present;
    HandChanges(hands, w, Gone);
    assert Running(hands) + multiset{} == Running(hands);
    assert Running(hands[w := Gone]) + multiset{} == Running(hands[w := Gone]);
  }

  lemma {:induction false} AllWaiting<T>(hands: seq<Hand<T>>)
    requires forall i :: 0 <= i < |hands| ==> hands[i].Waiting?
    ensures Running(hands) == multiset{} && Present(hands) == |hands|
  {
    if hands != [] {
      AllWaiting(hands[1..]);
    }
  }

  lemma {:induction false} NoneRuns<T>(hands: seq<Hand<T>>)
    requires forall i :: 0 <= i < |hands| ==> hands[i].Gone?
    ensures Running(hands) == multiset{}
  {
    if hands != [] {
      NoneRuns(hands[1..]);
    }
  }

  // ----- the invariant

  predicate PoolInv<T>(s: State<T>) {
    && s.size >= 1 && |s.channel| <= s.size
    && |s.hands| == (if s.started then s.size else 0)
    && s.wg == Present(s.hands)
    && (s.closed ==> s.started)
    && (forall i :: 0 <= i < |s.hands| && s.hands[i].Gone? ==> s.closed && s.channel == [])
    && s.submitted == s.taken + s.channel
    && multiset(s.taken) == s.finished + Running(s.hands)
  }

  lemma PoolStart<T>(s: State<T>)
    requires PoolInv(s)
    ensures PoolInv(Apply(s, Start))
  {
    if !s.started {
      AllWaiting(Apply(s, Start).hands);
    }
  }

  lemma PoolSend<T>(s: State<T>, task: T)
    requires PoolInv(s) && Enabled(s, Submit(task))
    ensures PoolInv(Send(s, task))
  {
  }

  lemma PoolReceive<T>(s: State<T>, w: nat)
    requires PoolInv(s) && Enabled(s, Receive(w))
    ensures PoolInv(Apply(s, Receive(w)))
  {
    hide Running, Present;
    var x := s.channel[0];
    TakesUp(s.hands, w, x);
    assert s.channel == [x] + s.channel[1..];
    assert s.taken + s.channel == (s.taken + [x]) + s.channel[1..];
    assert multiset(s.taken + [x]) == multiset(s.taken) + multiset{x};
  }

  lemma PoolFinish<T>(s: State<T>, w: nat)
    requires PoolInv(s) && Enabled(s, Finish(w))
    ensures PoolInv(Apply(s, Finish(w)))
  {
    hide Running, Present;
    PutsDown(s.hands, w);
  }

  lemma PoolLeave<T>(s: State<T>, w: nat)
    requires PoolInv(s) && Enabled(s, Leave(w))
    ensures PoolInv(Apply(s, Leave(w)))
  {
    hide Running, Present;
    GoesHome(s.hands, w);
  }

  lemma PoolStep<T>(s: State<T>, l: Step<T>)
    requires PoolInv(s) && Enabled(s, l)
    ensures PoolInv(Apply(s, l))
  {
    hide Running, Present;
    match l
    case Start => PoolStart(s);
    case Submit(task) => PoolSend(s, task);
    case TrySubmit(task) =>
      if s.closed || |s.channel| < s.size {
        PoolSend(s, task);
      }
    case Stop =>
    case Receive(w) => PoolReceive(s, w);
    case Finish(w) => PoolFinish(s, w);
    case Leave(w) => PoolLeave(s, w);
  }

  lemma {:induction false} PoolRun<T>(s: State<T>, ls: seq<Step<T>>, t: State<T>)
    requires PoolInv(s) && Run(s, ls, t)
    ensures PoolInv(t) && t.size == s.size
    decreases |ls|
  {
    hide PoolInv;
    if ls != [] {
      PoolStep(s, ls[0]);
      PoolRun(Apply(s, ls[0]), ls[1..], t);
    }
  }

  // ----- what the labels alone say

  /** The pool was started. */
  predicate Starts<T>(ls: seq<Step<T>>) {
    exists i :: 0 <= i < |ls| && ls[i].Start?
  }

  /** Some StopDispatching came after a Start. */
  predicate Stops<T>(ls: seq<Step<T>>) {
    exists i, j :: 0 <= i < j < |ls| && ls[i].Start? && ls[j].Stop?
  }

  /** How many tasks the workers have picked up. */
  function Receives<T>(ls: seq<Step<T>>): (n: nat) {
    if ls == [] then 0 else Receives(ls[..|ls| - 1]) + if ls[|ls| - 1].Receive? then 1 else 0
  }

  /** The tasks sent: every Submit before the pool was stopped, and every TrySubmit that found room. */
  function Sent<T>(size: nat, ls: seq<Step<T>>): (tasks: seq<T>) {
    if ls == [] then []
    else
      var init, last := ls[..|ls| - 1], ls[|ls| - 1];
      var before := Sent(size, init);
      if Stops(init) then before
      else match last
        case Submit(task) => before + [task]
        case TrySubmit(task) => if |before| - Receives(init) < size then before + [task] else before
        case _ => before
  }

  /** Sends on, and closes of, the closed channel: each panics. */
  function Panics<T>(ls: seq<Step<T>>): (n: nat) {
    if ls == [] then 0
    else
      var init, last := ls[..|ls| - 1], ls[|ls| - 1];
      Panics(init) + if Stops(init) && (last.Submit? || last.TrySubmit? || last.Stop?) then 1 else 0
  }

  /** The state agrees with what its labels say. */
  predicate Agrees<T>(size: nat, ls: seq<Step<T>>, t: State<T>) {
    && t.size == size
    && (t.started <==> Starts(ls))
    && (t.closed <==> Stops(ls))
    && t.submitted == Sent(size, ls)
    && |t.taken| == Receives(ls)
    && t.panics == Panics(ls)
  }

  lemma StartsMore<T>(ls: seq<Step<T>>, l: Step<T>)
    ensures Starts(ls + [l]) <==> Starts(ls) || l.Start?
    ensures Stops(ls + [l]) <==> Stops(ls) || (Starts(ls) && l.Stop?)
  {
    var more := ls + [l];
    assert more[|ls|] == l && forall i :: 0 <= i < |ls| ==> more[i] == ls[i];
    if Starts(ls) {
      var i :| 0 <= i < |ls| && ls[i].Start?;
      assert more[i].Start?;
    }
    if Stops(ls) {
      var i, j :| 0 <= i < j < |ls| && ls[i].Start? && ls[j].Stop?;
      assert more[i].Start? && more[j].Stop?;
    }
  }

  lemma LabelsMore<T>(size: nat, ls: seq<Step<T>>, l: Step<T>)
    ensures (ls + [l])[..|ls|] == ls
    ensures Receives(ls + [l]) == Receives(ls) + if l.Receive? then 1 else 0
    ensures Panics(ls + [l]) == Panics(ls) + if Stops(ls) && (l.Submit? || l.TrySubmit? || l.Stop?) then 1 else 0
  {
    assert (ls + [l])[..|ls|] == ls;
  }

  lemma AgreesStep<T>(size: nat, ls: seq<Step<T>>, s: State<T>, l: Step<T>)
    requires PoolInv(s) && Agrees(size, ls, s) && Enabled(s, l)
    ensures Agrees(size, ls + [l], Apply(s, l))
  {
    hide Starts, Stops, Running, Present;
    StartsMore(ls, l);
    LabelsMore(size, ls, l);
    assert |s.channel| == |s.submitted| - |s.taken|;
  }

  lemma {:induction false} AgreesRun<T>(size: nat, past: seq<Step<T>>, s: State<T>, ls: seq<Step<T>>, t: State<T>)
    requires PoolInv(s) && Agrees(size, past, s) && Run(s, ls, t)
    ensures PoolInv(t) && Agrees(size, past + ls, t)
    decreases |ls|
  {
    hide PoolInv, Agrees;
    if ls == [] {
      assert past + ls == past;
    } else {
      PoolStep(s, ls[0]);
      AgreesStep(size, past, s, ls[0]);
      AgreesRun(size, past + [ls[0]], Apply(s, ls[0]), ls[1..], t);
      assert past + [ls[0]] + ls[1..] == past + ls;
    }
  }

  /** The size New gives the pool. */
  function Size(size: int): (n: nat) {
    if size < 1 then 1 else size
  }

  lemma FromNew<T>(size: int, ls: seq<Step<T>>, t: State<T>)
    requires Run(New(size), ls, t)
    ensures PoolInv(t) && Agrees(Size(size), ls, t)
  {
    AgreesRun(Size(size), [], New(size), ls, t);
    assert [] + ls == ls;
  }

  // ----- main results

  /** What the calls make of the pool: it is closed exactly after a StopDispatching that follows a Start, and the tasks
      sent are exactly those of the calls before that, TrySubmit giving up on a full channel. */
  lemma PoolFollowsCalls<T>(size: int, ls: seq<Step<T>>, t: State<T>)
    requires Run(New(size), ls, t)
    ensures t.closed <==> Stops(ls)
    ensures t.started <==> Starts(ls)
    ensures t.submitted == Sent(Size(size), ls) && t.panics == Panics(ls)
  {
    FromNew(size, ls, t);
  }

  /** In every interleaving at most `size` tasks run and at most `size` are buffered; the tasks picked up are the first
      ones sent, in order, the buffered ones the rest, and every task picked up is running or finished, once. */
  lemma PoolBounds<T>(size: int, ls: seq<Step<T>>, t: State<T>)
    requires Run(New(size), ls, t)
    ensures |Running(t.hands)| <= Size(size) && |t.channel| <= Size(size)
    ensures var sent, n := Sent(Size(size), ls), Receives(ls);
      && n <= |sent| && t.taken == sent[..n] && t.channel == sent[n..]
      && t.finished + Running(t.hands) == multiset(sent[..n])
  {
    FromNew(size, ls, t);
  }

  /** Wait returns, that is the wait group is zero, in a started pool only after StopDispatching and when every task
      sent has run to its end exactly once. */
  lemma WaitMeansDone<T>(size: int, ls: seq<Step<T>>, t: State<T>)
    requires Run(New(size), ls, t) && Starts(ls) && t.wg == 0
    ensures Stops(ls) && t.channel == []
    ensures t.finished == multiset(Sent(Size(size), ls))
  {
    FromNew(size, ls, t);
    assert t.hands[0].Gone?;
    NoneRuns(t.hands);
    assert t.taken + t.channel == t.taken;
  }

  predicate IsWorkerStep<T>(l: Step<T>) {
    l.Receive? || l.Finish? || l.Leave?
  }

  /** After StopDispatching some worker can always go on until the wait group is zero. */
  lemma WaitProgress<T>(size: int, ls: seq<Step<T>>, s: State<T>) returns (l: Step<T>)
    requires Run(New(size), ls, s) && Stops(ls) && s.wg != 0
    ensures IsWorkerStep(l) && Enabled(s, l)
  {
    FromNew(size, ls, s);
    l := NextWorkerStep(s);
  }

  lemma NextWorkerStep<T>(s: State<T>) returns (l: Step<T>)
    requires PoolInv(s) && s.closed && s.wg != 0
    ensures IsWorkerStep(l) && Enabled(s, l)
  {
    var w :| 0 <= w < |s.hands| && !s.hands[w].Gone?;
    l := if s.hands[w].Busy? then Finish(w) else if s.channel != [] then Receive(w) else Leave(w);
  }

  function WorkLeft<T>(s: State<T>): (n: nat) {
    2 * |s.channel| + |Running(s.hands)| + Present(s.hands)
  }

  /** After StopDispatching every worker step leaves less to do and no other step adds work. */
  lemma WorkShrinks<T>(s: State<T>, l: Step<T>)
    requires PoolInv(s) && s.closed && Enabled(s, l)
    ensures Apply(s, l).closed
    ensures WorkLeft(Apply(s, l)) <= WorkLeft(s) - if IsWorkerStep(l) then 1 else 0
  {
    hide Running, Present;
    match l
    case Receive(w) => TakesUp(s.hands, w, s.channel[0]);
    case Finish(w) => PutsDown(s.hands, w);
    case Leave(w) => GoesHome(s.hands, w);
    case _ =>
  }

  function WorkerSteps<T>(ls: seq<Step<T>>): (n: nat) {
    if ls == [] then 0 else (if IsWorkerStep(ls[0]) then 1 else 0) + WorkerSteps(ls[1..])
  }

  lemma {:induction false} FewSteps<T>(s: State<T>, ls: seq<Step<T>>, t: State<T>)
    requires PoolInv(s) && s.closed && Run(s, ls, t)
    ensures WorkerSteps(ls) + WorkLeft(t) <= WorkLeft(s)
    decreases |ls|
  {
    hide PoolInv, WorkLeft;
    if ls != [] {
      WorkShrinks(s, ls[0]);
      PoolStep(s, ls[0]);
      FewSteps(Apply(s, ls[0]), ls[1..], t);
    }
  }

  lemma {:induction false} WorkOff<T>(s: State<T>) returns (ls: seq<Step<T>>, t: State<T>)
    requires PoolInv(s) && s.closed
    ensures Run(s, ls, t) && t.wg == 0 && forall i :: 0 <= i < |ls| ==> IsWorkerStep(ls[i])
    decreases WorkLeft(s)
  {
    hide PoolInv, WorkLeft, Enabled, Apply;
    if s.wg == 0 {
      ls, t := [], s;
    } else {
      var l := NextWorkerStep(s);
      WorkShrinks(s, l);
      PoolStep(s, l);
      var rest;
      rest, t := WorkOff(Apply(s, l));
      ls := [l] + rest;
      assert ls[1..] == rest;
    }
  }

  /** Once StopDispatching was called on a started pool, the worker steps of any continuation are bounded by the work
      left, and the workers alone can reach the point where Wait returns. */
  lemma WaitIsReached<T>(size: int, past: seq<Step<T>>, s: State<T>, ls: seq<Step<T>>, t: State<T>)
    returns (rest: seq<Step<T>>, end: State<T>)
    requires Run(New(size), past, s) && Stops(past) && Run(s, ls, t)
    ensures WorkerSteps(ls) + WorkLeft(t) <= WorkLeft(s)
    ensures Run(t, rest, end) && end.wg == 0 && forall i :: 0 <= i < |rest| ==> IsWorkerStep(rest[i])
  {
    hide WorkLeft;
    FromNew(size, past, s);
    FewSteps(s, ls, t);
    StaysClosed(s, ls, t);
    rest, end := WorkOff(t);
  }

  lemma {:induction false} StaysClosed<T>(s: State<T>, ls: seq<Step<T>>, t: State<T>)
    requires PoolInv(s) && s.closed && Run(s, ls, t)
    ensures PoolInv(t) && t.closed
    decreases |ls|
  {
    hide PoolInv;
    if ls != [] {
      PoolStep(s, ls[0]);
      WorkShrinks(s, ls[0]);
      StaysClosed(Apply(s, ls[0]), ls[1..], t);
    }
  }
}
