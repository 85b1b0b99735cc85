/** Blocked producers of the ring: the condition variable's wake-ups, in every interleaving. */
module RingWait {
  import opened RingSpec

  /** Every waiting producer stands for the item it wants to store. `parked` ones sleep in cond.Wait, `woken` ones
      were signalled and have not yet got the lock back. `arrived`, `refused`, `stored` and `taken` are history. */
  datatype State<T(==)> = State(
    q: Queue<T>, parked: multiset<T>, woken: multiset<T>,
    arrived: multiset<T>, refused: multiset<T>, stored: seq<T>, taken: seq<T>)

  /** One critical section each. `wake` is the producer that Signal picks. */
  datatype Step<T> =
    | Arrive(x: T, wake: Wake<T>)
    | Resume(x: T, wake: Wake<T>)
    | TakeOne(wake: Wake<T>)
    | TakeMany(max: int)
    | Shut

  datatype Wake<T> = Nobody | Wakes(p: T)

  /** Signal wakes one parked producer, any one, if there is one. */
  predicate Signals<T>(s: State<T>, wake: Wake<T>) {
    match wake
    case Nobody => s.parked == multiset{}
    case Wakes(p) => p in s.parked
  }

  function Signal<T>(s: State<T>, wake: Wake<T>): (r: State<T>)
    requires Signals(s, wake)
  {
    match wake
    case Nobody => s
    case Wakes(p) => s.(parked := s.parked - multiset{p}, woken := s.woken + multiset{p})
  }

  function Broadcast<T>(s: State<T>): (r: State<T>) {
    s.(parked := multiset{}, woken := s.woken + s.parked)
  }

  function Free<T>(q: Queue<T>): (n: int) {
    q.capacity - |q.contents|
  }

  /** A blocking ring with room is stored into; a closed one refuses; a full one parks the caller. */
  function Settle<T>(s: State<T>, x: T, wake: Wake<T>): (r: State<T>)
    requires Bounded(s.q) && Signals(s, wake)
  {
    var (q, v) := Offer(s.q, x);
    match v
    case Accepted => Signal(s.(q := q, stored := s.stored + [x]), wake)
    case Refused => s.(refused := s.refused + multiset{x})
    case MustWait => s.(parked := s.parked + multiset{x})
  }

  predicate Enabled<T>(s: State<T>, l: Step<T>) {
    match l
    case Arrive(_, wake) => Signals(s, wake)
    case Resume(x, wake) => x in s.woken && Signals(s, wake)
    case TakeOne(wake) => Signals(s, wake)
    case TakeMany(_) => true
    case Shut => true
  }

  function Apply<T>(s: State<T>, l: Step<T>): (r: State<T>)
    requires Bounded(s.q) && Enabled(s, l)
  {
    match l
    case Arrive(x, wake) => Settle(s.(arrived := s.arrived + multiset{x}), x, wake)
    case Resume(x, wake) => Settle(s.(woken := s.woken - multiset{x}), x, wake)
    case TakeOne(wake) =>
      if s.q.contents == [] then s
      else Signal(s.(q := TakeBatch(s.q, 1).0, taken := s.taken + TakeBatch(s.q, 1).1), wake)
    case TakeMany(max) =>
      if BatchSize(s.q, max) == 0 then s
      else Broadcast(s.(q := TakeBatch(s.q, max).0, taken := s.taken + TakeBatch(s.q, max).1))
    case Shut => Broadcast(s.(q := s.q.(closed := true)))
  }

  function Initial<T>(capacity: nat): (s: State<T>) {
    State(Queue([], capacity, Block, false), multiset{}, multiset{}, multiset{}, multiset{}, [], [])
  }

  predicate Run<T>(s: State<T>, ls: seq<Step<T>>, t: State<T>)
    decreases |ls|
  {
    if ls == [] then s == t
    else Bounded(s.q) && Enabled(s, ls[0]) && Run(Apply(s, ls[0]), ls[1..], t)
  }

  // ----- the wake-up invariant

  /** While anyone sleeps, the wake-ups under way suffice for every free slot; nobody sleeps on a closed ring. */
  predicate WakeInv<T>(s: State<T>) {
    && Bounded(s.q) && s.q.policy == Block
    && (s.parked != multiset{} ==> |s.woken| >= Free(s.q))
    && (s.q.closed ==> s.parked == multiset{})
  }

  /** No item is lost or duplicated on its way through the waiters, and the ring is first in, first out. */
  predicate Ledger<T>(s: State<T>) {
    && s.stored == s.taken + s.q.contents
    && s.arrived == multiset(s.stored) + s.refused + s.parked + s.woken
  }

  lemma WakeSettle<T>(s: State<T>, x: T, wake: Wake<T>)
    requires Bounded(s.q) && s.q.policy == Block && Signals(s, wake)
    requires s.parked != multiset{} ==> |s.woken| >= Free(s.q) - 1
    requires s.q.closed ==> s.parked == multiset{}
    ensures WakeInv(Settle(s, x, wake))
  {
  }

  lemma WakeStep<T>(s: State<T>, l: Step<T>)
    requires WakeInv(s) && Enabled(s, l)
    ensures WakeInv(Apply(s, l))
  {
    match l
    case Arrive(x, wake) => WakeSettle(s.(arrived := s.arrived + multiset{x}), x, wake);
    case Resume(x, wake) => WakeSettle(s.(woken := s.woken - multiset{x}), x, wake);
    case TakeOne(_) =>
    case TakeMany(_) =>
    case Shut =>
  }

  /** An item still on its way, besides the ones the state accounts for. */
  predicate Owes<T>(s: State<T>, x: T) {
    && s.stored == s.taken + s.q.contents
    && s.arrived == multiset(s.stored) + s.refused + s.parked + s.woken + multiset{x}
  }

  /** The item may join any of the four parts of the sum. */
  lemma JoinSum<T>(a: multiset<T>, b: multiset<T>, c: multiset<T>, d: multiset<T>, x: multiset<T>)
    ensures a + b + c + d + x == (a + x) + b + c + d
    ensures a + b + c + d + x == a + (b + x) + c + d
    ensures a + b + c + d + x == a + b + (c + x) + d
  {
  }

  lemma LedgerStored<T>(s: State<T>, x: T)
    requires Owes(s, x)
    ensures Ledger(s.(q := s.q.(contents := s.q.contents + [x]), stored := s.stored + [x]))
  {
    assert multiset(s.stored + [x]) == multiset(s.stored) + multiset{x};
    assert s.stored + [x] == s.taken + (s.q.contents + [x]);
    JoinSum(multiset(s.stored), s.refused, s.parked, s.woken, multiset{x});
  }

  lemma LedgerRefused<T>(s: State<T>, x: T)
    requires Owes(s, x)
    ensures Ledger(s.(refused := s.refused + multiset{x}))
  {
    JoinSum(multiset(s.stored), s.refused, s.parked, s.woken, multiset{x});
  }

  lemma LedgerParked<T>(s: State<T>, x: T)
    requires Owes(s, x)
    ensures Ledger(s.(parked := s.parked + multiset{x}))
  {
    JoinSum(multiset(s.stored), s.refused, s.parked, s.woken, multiset{x});
  }

  lemma LedgerSettle<T>(s: State<T>, x: T, wake: Wake<T>)
    requires Bounded(s.q) && s.q.policy == Block && Signals(s, wake) && Owes(s, x)
    ensures Ledger(Settle(s, x, wake))
  {
    hide Ledger, Owes, Signal;
    if s.q.closed {
      LedgerRefused(s, x);
    } else if |s.q.contents| < s.q.capacity {
      LedgerStored(s, x);
      LedgerSignal(s.(q := s.q.(contents := s.q.contents + [x]), stored := s.stored + [x]), wake);
    } else {
      LedgerParked(s, x);
    }
  }

  lemma LedgerTaken<T>(s: State<T>, max: int)
    requires Bounded(s.q) && Ledger(s)
    ensures Ledger(s.(q := TakeBatch(s.q, max).0, taken := s.taken + TakeBatch(s.q, max).1))
  {
    var (q, batch) := TakeBatch(s.q, max);
    assert s.taken + (batch + q.contents) == (s.taken + batch) + q.contents;
  }

  lemma LedgerSignal<T>(s: State<T>, wake: Wake<T>)
    requires Ledger(s) && Signals(s, wake)
    ensures Ledger(Signal(s, wake))
  {
  }

  lemma LedgerBroadcast<T>(s: State<T>)
    requires Ledger(s)
    ensures Ledger(Broadcast(s))
  {
  }

  lemma LedgerStep<T>(s: State<T>, l: Step<T>)
    requires WakeInv(s) && Ledger(s) && Enabled(s, l)
    ensures Ledger(Apply(s, l))
  {
    hide Settle, Signal, Broadcast, TakeBatch, Offer;
    match l
    case Arrive(x, wake) =>
      assert Owes(s.(arrived := s.arrived + multiset{x}), x);
      LedgerSettle(s.(arrived := s.arrived + multiset{x}), x, wake);
    case Resume(x, wake) =>
      assert Owes(s.(woken := s.woken - multiset{x}), x);
      LedgerSettle(s.(woken := s.woken - multiset{x}), x, wake);
    case TakeOne(wake) => LedgerTakeOne(s, wake);
    case TakeMany(max) => LedgerTakeMany(s, max);
    case Shut => LedgerBroadcast(s.(q := s.q.(closed := true)));
  }

  lemma LedgerTakeOne<T>(s: State<T>, wake: Wake<T>)
    requires Bounded(s.q) && Ledger(s) && Enabled(s, TakeOne(wake))
    ensures Ledger(Apply(s, TakeOne(wake)))
  {
    hide Ledger, Signal, TakeBatch;
    LedgerTaken(s, 1);
    LedgerSignal(s.(q := TakeBatch(s.q, 1).0, taken := s.taken + TakeBatch(s.q, 1).1), wake);
  }

  lemma LedgerTakeMany<T>(s: State<T>, max: int)
    requires Bounded(s.q) && Ledger(s)
    ensures Ledger(Apply(s, TakeMany(max)))
  {
    hide Ledger, Broadcast, TakeBatch;
    LedgerTaken(s, max);
    LedgerBroadcast(s.(q := TakeBatch(s.q, max).0, taken := s.taken + TakeBatch(s.q, max).1));
  }

  lemma {:induction false} WaitRun<T>(s: State<T>, ls: seq<Step<T>>, t: State<T>)
    requires WakeInv(s) && Ledger(s) && Run(s, ls, t)
    ensures WakeInv(t) && Ledger(t)
    decreases |ls|
  {
    hide WakeInv, Ledger;
    if ls != [] {
      WakeStep(s, ls[0]);
      LedgerStep(s, ls[0]);
      WaitRun(Apply(s, ls[0]), ls[1..], t);
    }
  }

  // ----- what the labels alone say

  /** The items whose producers called Enqueue. */
  function ArrivedBy<T>(ls: seq<Step<T>>): (m: multiset<T>) {
    if ls == [] then multiset{}
    else ArrivedBy(ls[..|ls| - 1]) + if ls[|ls| - 1].Arrive? then multiset{ls[|ls| - 1].x} else multiset{}
  }

  predicate ShutBy<T>(ls: seq<Step<T>>) {
    exists i :: 0 <= i < |ls| && ls[i].Shut?
  }

  lemma SettleLabels<T>(s: State<T>, x: T, wake: Wake<T>)
    requires Bounded(s.q) && Signals(s, wake)
    ensures Settle(s, x, wake).arrived == s.arrived && Settle(s, x, wake).q.closed == s.q.closed
  {
  }

  lemma StepLabels<T>(s: State<T>, l: Step<T>)
    requires Bounded(s.q) && Enabled(s, l)
    ensures Apply(s, l).arrived == if l.Arrive? then s.arrived + multiset{l.x} else s.arrived
    ensures Apply(s, l).q.closed == (s.q.closed || l.Shut?)
  {
    hide Settle, BatchCount;
    match l
    case Arrive(x, wake) => SettleLabels(s.(arrived := s.arrived + multiset{x}), x, wake);
    case Resume(x, wake) => SettleLabels(s.(woken := s.woken - multiset{x}), x, wake);
    case TakeOne(_) =>
    case TakeMany(_) =>
    case Shut =>
  }

  lemma LabelsMore<T>(past: seq<Step<T>>, l: Step<T>)
    ensures ArrivedBy(past + [l]) == ArrivedBy(past) + if l.Arrive? then multiset{l.x} else multiset{}
    ensures ShutBy(past + [l]) <==> ShutBy(past) || l.Shut?
  {
    var more := past + [l];
    assert more[..|past|] == past && more[|past|] == l;
    assert forall i :: 0 <= i < |past| ==> more[i] == past[i];
    if ShutBy(past) {
      var i :| 0 <= i < |past| && past[i].Shut?;
      assert more[i].Shut?;
    }
  }

  lemma LabelStep<T>(past: seq<Step<T>>, s: State<T>, l: Step<T>)
    requires Bounded(s.q) && Enabled(s, l) && s.arrived == ArrivedBy(past) && (s.q.closed <==> ShutBy(past))
    ensures Apply(s, l).arrived == ArrivedBy(past + [l])
    ensures Apply(s, l).q.closed <==> ShutBy(past + [l])
  {
    hide ArrivedBy, ShutBy, Apply;
    StepLabels(s, l);
    LabelsMore(past, l);
    assert s.arrived + multiset{} == s.arrived;
  }

  lemma {:induction false} LabelRun<T>(past: seq<Step<T>>, s: State<T>, ls: seq<Step<T>>, t: State<T>)
    requires Run(s, ls, t) && s.arrived == ArrivedBy(past) && (s.q.closed <==> ShutBy(past))
    ensures t.arrived == ArrivedBy(past + ls) && (t.q.closed <==> ShutBy(past + ls))
    decreases |ls|
  {
    hide ArrivedBy, ShutBy, Apply;
    if ls == [] {
      assert past + ls == past;
    } else {
      LabelStep(past, s, ls[0]);
      LabelRun(past + [ls[0]], Apply(s, ls[0]), ls[1..], t);
      assert past + [ls[0]] + ls[1..] == past + ls;
    }
  }

  lemma SignalTakesOne<T>(s: State<T>, wake: Wake<T>)
    requires Signals(s, wake)
    ensures |Signal(s, wake).parked| == if |s.parked| > 0 then |s.parked| - 1 else 0
  {
  }

  lemma SettleWakes<T>(s: State<T>, x: T, wake: Wake<T>)
    requires Bounded(s.q) && Signals(s, wake) && Settle(s, x, wake).stored != s.stored
    ensures |Settle(s, x, wake).parked| == if |s.parked| > 0 then |s.parked| - 1 else 0
  {
    hide Signal;
    var (q, v) := Offer(s.q, x);
    SignalTakesOne(s.(q := q, stored := s.stored + [x]), wake);
  }

  /** What each critical section moves: a store appends its item unless the ring is full or closed; a dequeue takes the
      oldest items, one, or as many as it was asked for, or all. */
  lemma Moves<T>(s: State<T>, l: Step<T>)
    requires WakeInv(s) && Enabled(s, l)
    ensures var t := Apply(s, l); var n := |s.q.contents|;
      match l
      case Arrive(x, _) => t.stored == s.stored + if !s.q.closed && n < s.q.capacity then [x] else []
      case Resume(x, _) => t.stored == s.stored + if !s.q.closed && n < s.q.capacity then [x] else []
      case TakeOne(_) => t.taken == s.taken + s.q.contents[..if n > 0 then 1 else 0]
      case TakeMany(max) =>
        t.taken == s.taken + s.q.contents[..if max == 0 then 0 else if max < 0 then n else MinNat(max, n)]
      case Shut => t.taken == s.taken && t.stored == s.stored
  {
    hide BatchCount, Signal, Settle;
    var none: seq<T> := [];
    assert s.taken + none == s.taken;
    match l
    case Arrive(x, wake) => SettleMoves(s.(arrived := s.arrived + multiset{x}), x, wake);
    case Resume(x, wake) => SettleMoves(s.(woken := s.woken - multiset{x}), x, wake);
    case TakeOne(wake) =>
      PrefixTaken(s.q, 1);
      SignalMovesNone(s.(q := TakeBatch(s.q, 1).0, taken := s.taken + TakeBatch(s.q, 1).1), wake);
    case TakeMany(max) => PrefixTaken(s.q, max);
    case Shut =>
  }

  lemma PrefixTaken<T>(q: Queue<T>, max: int)
    requires Bounded(q)
    ensures TakeBatch(q, max).1 == q.contents[..BatchSize(q, max)]
    ensures BatchSize(q, max) == 0 ==> q.contents[..0] == [] && (max == 0 || q.contents == [])
  {
  }

  lemma SignalMovesNone<T>(s: State<T>, wake: Wake<T>)
    requires Signals(s, wake)
    ensures Signal(s, wake).taken == s.taken && Signal(s, wake).stored == s.stored
  {
  }

  lemma SettleMoves<T>(s: State<T>, x: T, wake: Wake<T>)
    requires Bounded(s.q) && s.q.policy == Block && Signals(s, wake)
    ensures Settle(s, x, wake).stored
         == s.stored + if !s.q.closed && |s.q.contents| < s.q.capacity then [x] else []
  {
    hide Signal;
    assert s.stored + [] == s.stored;
    var (q, v) := Offer(s.q, x);
    SignalMovesNone(s.(q := q, stored := s.stored + [x]), wake);
  }

  /** Storing or taking one item wakes exactly one parked producer, if there is one. */
  lemma WakesOne<T>(s: State<T>, l: Step<T>)
    requires WakeInv(s) && Enabled(s, l) && (l.Arrive? || l.Resume? || l.TakeOne?)
    requires Apply(s, l).stored != s.stored || Apply(s, l).taken != s.taken
    ensures |Apply(s, l).parked| == if |s.parked| > 0 then |s.parked| - 1 else 0
  {
    hide Signal, Settle, TakeBatch;
    match l
    case Arrive(x, wake) =>
      SettleTakesNone(s.(arrived := s.arrived + multiset{x}), x, wake);
      SettleWakes(s.(arrived := s.arrived + multiset{x}), x, wake);
    case Resume(x, wake) =>
      SettleTakesNone(s.(woken := s.woken - multiset{x}), x, wake);
      SettleWakes(s.(woken := s.woken - multiset{x}), x, wake);
    case TakeOne(wake) =>
      SignalTakesOne(s.(q := TakeBatch(s.q, 1).0, taken := s.taken + TakeBatch(s.q, 1).1), wake);
  }

  lemma SettleTakesNone<T>(s: State<T>, x: T, wake: Wake<T>)
    requires Bounded(s.q) && Signals(s, wake)
    ensures Settle(s, x, wake).taken == s.taken
  {
  }

  /** Taking a batch, or closing, wakes them all. */
  lemma WakesAll<T>(s: State<T>, l: Step<T>)
    requires WakeInv(s) && Enabled(s, l) && (l.TakeMany? || l.Shut?)
    requires l.TakeMany? ==> Apply(s, l).taken != s.taken
    ensures Apply(s, l).parked == multiset{} && Apply(s, l).woken == s.woken + s.parked
  {
  }

  /** No lost wake-up: in every interleaving, a sleeping producer with no wake-up under way means the ring is full
      and open, and every item that arrived is stored in order, refused or still waiting. */
  lemma NoLostWakeup<T>(capacity: nat, ls: seq<Step<T>>, t: State<T>)
    requires capacity >= 1 && Run(Initial(capacity), ls, t)
    ensures t.parked != multiset{} ==> |t.woken| >= Free(t.q)
    ensures t.parked != multiset{} && t.woken == multiset{} ==> |t.q.contents| == t.q.capacity && !t.q.closed
    ensures t.q.closed ==> t.parked == multiset{}
    ensures t.stored == t.taken + t.q.contents
    ensures t.arrived == multiset(t.stored) + t.refused + t.parked + t.woken
    ensures t.arrived == ArrivedBy(ls) && (t.q.closed <==> ShutBy(ls))
  {
    WaitRun(Initial(capacity), ls, t);
    LabelRun([], Initial(capacity), ls, t);
    assert [] + ls == ls;
  }

  // ----- the wake-ups under way die out

  function WakeMeasure<T>(s: State<T>): (n: int) {
    |s.woken| + 2 * Free(s.q)
  }

  /** Whoever is woken can run, and each such turn lowers the measure: woken producers do not wake each other
      forever. */
  lemma ResumeDown<T>(s: State<T>, x: T, wake: Wake<T>)
    requires WakeInv(s) && Enabled(s, Resume(x, wake))
    ensures 0 <= WakeMeasure(Apply(s, Resume(x, wake))) < WakeMeasure(s)
  {
    WakeStep(s, Resume(x, wake));
  }

  /** With no further consumer, letting the woken producers run leads to a state where nobody is under way: either
      no producer waits at all or the ring is full. */
  lemma {:induction false} WakeupsSettle<T>(s: State<T>) returns (ls: seq<Step<T>>, t: State<T>)
    requires WakeInv(s)
    ensures Run(s, ls, t) && WakeInv(t) && t.woken == multiset{}
    ensures forall i :: 0 <= i < |ls| ==> ls[i].Resume?
    ensures |ls| <= WakeMeasure(s)
    ensures t.parked == multiset{} || Free(t.q) == 0
    decreases WakeMeasure(s)
  {
    hide Settle, Signal, Apply;
    if s.woken == multiset{} {
      ls, t := [], s;
    } else {
      var x :| x in s.woken;
      var wake := if s.parked == multiset{} then Nobody else var p :| p in s.parked; Wakes(p);
      var l := Resume(x, wake);
      ResumeDown(s, x, wake);
      WakeStep(s, l);
      var rest;
      rest, t := WakeupsSettle(Apply(s, l));
      ls := [l] + rest;
      assert ls[1..] == rest;
    }
  }
}
