/** Len reads the two published cursors without the lock, one after the other. */
module RingLen {
  import opened RingSpec

  /** Where the current critical section stands: which atomic stores it still owes. */
  datatype Stage = Unlocked | OwesHead | OwesTail | OwesBoth

  /** One call of Len, possibly between its two loads. */
  datatype Reader = Resting | Loaded(head: int) | Returned(len: int)

  datatype State = State(
    capacity: nat, policy: Policy,
    head: nat, tail: nat, count: int,
    publishedHead: nat, publishedTail: nat,
    stage: Stage, reader: Reader)

  datatype Step =
    | Store             // Enqueue into a free slot
    | Replace           // DropOldest on a full ring
    | Remove(n: nat)    // Dequeue and DequeueBatch
    | PublishHead
    | PublishTail
    | LoadHead
    | LoadTail

  predicate Enabled(s: State, l: Step) {
    match l
    case Store => s.stage.Unlocked? && s.count < s.capacity
    case Replace => s.stage.Unlocked? && s.count >= s.capacity && s.policy.DropOldest?
    case Remove(n) => s.stage.Unlocked? && 1 <= n <= s.count
    case PublishHead => s.stage.OwesHead? || s.stage.OwesBoth?
    case PublishTail => s.stage.OwesTail?
    case LoadHead => !s.reader.Loaded?
    case LoadTail => s.reader.Loaded?
  }

  function Apply(s: State, l: Step): (r: State)
    requires Enabled(s, l)
  {
    match l
    case Store => s.(head := s.head + 1, count := s.count + 1, stage := OwesHead)
    case Replace => s.(head := s.head + 1, tail := s.tail + 1, stage := OwesBoth)
    case Remove(n) => s.(tail := s.tail + n, count := s.count - n, stage := OwesTail)
    case PublishHead => s.(publishedHead := s.head, stage := if s.stage.OwesBoth? then OwesTail else Unlocked)
    case PublishTail => s.(publishedTail := s.tail, stage := Unlocked)
    case LoadHead => s.(reader := Loaded(s.publishedHead))
    case LoadTail => s.(reader := Returned(s.reader.head - s.publishedTail))
  }

  function Initial(capacity: nat, policy: Policy): (s: State) {
    State(capacity, policy, 0, 0, 0, 0, 0, Unlocked, Resting)
  }

  predicate Run(s: State, ls: seq<Step>, t: State)
    decreases |ls|
  {
    if ls == [] then s == t
    else Enabled(s, ls[0]) && Run(Apply(s, ls[0]), ls[1..], t)
  }

  /** The most that Len can ever return. */
  function Limit(capacity: nat, policy: Policy): (n: nat) {
    if policy.DropOldest? then capacity + 1 else capacity
  }

  predicate CursorInv(s: State) {
    && s.head == s.tail + s.count && 0 <= s.count <= s.capacity
    && (s.stage.Unlocked? ==> s.publishedHead == s.head && s.publishedTail == s.tail)
    && (s.stage.OwesHead? ==> s.publishedHead == s.head - 1 && s.publishedTail == s.tail)
    && (s.stage.OwesBoth? ==> s.publishedHead == s.head - 1 && s.publishedTail == s.tail - 1 && s.policy.DropOldest?)
    && (s.stage.OwesTail? ==> s.publishedHead == s.head && s.publishedTail <= s.tail
                              && s.head - s.publishedTail <= Limit(s.capacity, s.policy))
    && (s.reader.Loaded? ==> s.reader.head <= s.publishedHead
                             && s.reader.head - s.publishedTail <= Limit(s.capacity, s.policy))
    && (s.reader.Returned? ==> s.reader.len <= Limit(s.capacity, s.policy))
  }

  lemma CursorStep(s: State, l: Step)
    requires CursorInv(s) && Enabled(s, l)
    ensures CursorInv(Apply(s, l))
  {
  }

  lemma {:induction false} CursorRun(s: State, ls: seq<Step>, t: State)
    requires CursorInv(s) && Run(s, ls, t)
    ensures CursorInv(t) && t.capacity == s.capacity && t.policy == s.policy
    decreases |ls|
  {
    if ls != [] {
      CursorStep(s, ls[0]);
      CursorRun(Apply(s, ls[0]), ls[1..], t);
    }
  }

  lemma {:induction false} RunConcat(s: State, a: seq<Step>, m: State, b: seq<Step>, t: State)
    requires Run(s, a, m) && Run(m, b, t)
    ensures Run(s, a + b, t)
    decreases |a|
  {
    if a == [] {
      assert a + b == b;
    } else {
      RunConcat(Apply(s, a[0]), a[1..], m, b, t);
      assert (a + b)[0] == a[0] && (a + b)[1..] == a[1..] + b;
    }
  }

  /** For every interleaving of the two loads with other threads, Len is at most the capacity, or one more under
      DropOldest. */
  lemma LenBound(capacity: nat, policy: Policy, ls: seq<Step>, t: State)
    requires capacity >= 1 && Run(Initial(capacity, policy), ls, t) && t.reader.Returned?
    ensures t.reader.len <= Limit(capacity, policy)
  {
    CursorRun(Initial(capacity, policy), ls, t);
  }

  /** Items whose removal began during these steps. */
  function Removals(ls: seq<Step>): (n: nat) {
    if ls == [] then 0
    else (match ls[0] case Remove(k) => k case Replace => 1 case _ => 0) + Removals(ls[1..])
  }

  /** What Len returns exactly: the items in the ring at the first load, less one if an insertion was not yet
      published then, less all removals in between except what is not yet published at the second load. */
  lemma LenExact(s: State, ls: seq<Step>, m: State, t: State)
    requires CursorInv(s)
    requires Enabled(s, LoadHead) && Run(Apply(s, LoadHead), ls, m) && Enabled(m, LoadTail) && t == Apply(m, LoadTail)
    requires forall i :: 0 <= i < |ls| ==> !ls[i].LoadHead? && !ls[i].LoadTail?
    ensures t.reader == Returned(s.count - (if s.stage.OwesHead? || s.stage.OwesBoth? then 1 else 0)
                                 - Removals(ls) + (m.tail - m.publishedTail))
  {
    ReaderWaits(Apply(s, LoadHead), ls, m);
  }

  lemma {:induction false} ReaderWaits(s: State, ls: seq<Step>, t: State)
    requires Run(s, ls, t) && forall i :: 0 <= i < |ls| ==> !ls[i].LoadHead? && !ls[i].LoadTail?
    ensures t.reader == s.reader && t.tail == s.tail + Removals(ls)
    decreases |ls|
  {
    if ls != [] {
      ReaderWaits(Apply(s, ls[0]), ls[1..], t);
    }
  }

  /** With no operation in its critical section during the call, Len is the number of items. */
  lemma LenQuiescent(capacity: nat, policy: Policy, ls: seq<Step>, s: State)
    requires Run(Initial(capacity, policy), ls, s) && s.stage.Unlocked? && !s.reader.Loaded?
    ensures Apply(Apply(s, LoadHead), LoadTail).reader == Returned(s.count)
  {
    hide Run;
    CursorRun(Initial(capacity, policy), ls, s);
  }

  // ----- the bounds are tight

  /** Fill the ring with n more items. */
  lemma {:induction false} Fill(s: State, n: nat) returns (ls: seq<Step>, t: State)
    requires CursorInv(s) && s.stage.Unlocked? && s.count + n <= s.capacity
    ensures Run(s, ls, t) && CursorInv(t) && t.stage.Unlocked? && t.count == s.count + n
    ensures t.reader == s.reader && t.capacity == s.capacity && t.policy == s.policy
    decreases n
  {
    if n == 0 {
      ls, t := [], s;
    } else {
      var a, m := OneStored(s);
      var b;
      b, t := Fill(m, n - 1);
      RunConcat(s, a, m, b, t);
      ls := a + b;
    }
  }

  lemma OneStored(s: State) returns (ls: seq<Step>, t: State)
    requires CursorInv(s) && s.stage.Unlocked? && s.count < s.capacity
    ensures Run(s, ls, t) && CursorInv(t) && t.stage.Unlocked? && t.count == s.count + 1
    ensures t.reader == s.reader && t.capacity == s.capacity && t.policy == s.policy
    ensures t.publishedTail == s.publishedTail
  {
    ls, t := [Store, PublishHead], Apply(Apply(s, Store), PublishHead);
    TwoSteps(s, Store, PublishHead);
  }

  lemma TwoSteps(s: State, a: Step, b: Step)
    requires Enabled(s, a) && Enabled(Apply(s, a), b)
    ensures Run(s, [a, b], Apply(Apply(s, a), b))
  {
  }

  ghost predicate MayExceed(capacity: nat, policy: Policy) {
    exists ls: seq<Step>, t: State ::
      Run(Initial(capacity, policy), ls, t) && t.reader.Returned? && t.reader.len > capacity
  }

  /** The extra one is real: under DropOldest, at every capacity, some interleaving makes Len exceed it; so Len
      can exceed the capacity if and only if the policy is DropOldest. */
  lemma LenExceedsIff(capacity: nat, policy: Policy)
    requires capacity >= 1
    ensures MayExceed(capacity, policy) <==> policy.DropOldest?
  {
    if policy == DropOldest {
      var ls, t := Exceed(capacity);
      assert MayExceed(capacity, policy);
    } else {
      forall ls, t | Run(Initial(capacity, policy), ls, t) && t.reader.Returned?
        ensures t.reader.len <= capacity
      {
        LenBound(capacity, policy, ls, t);
      }
    }
  }

  lemma Exceed(capacity: nat) returns (ls: seq<Step>, t: State)
    requires capacity >= 1
    ensures Run(Initial(capacity, DropOldest), ls, t) && t.reader == Returned(capacity + 1)
  {
    var s := Initial(capacity, DropOldest);
    var a, m := Fill(s, capacity);
    var m1 := Apply(Apply(m, Replace), PublishHead);
    TwoSteps(m, Replace, PublishHead);
    t := Apply(Apply(m1, LoadHead), LoadTail);
    TwoSteps(m1, LoadHead, LoadTail);
    RunConcat(s, a, m, [Replace, PublishHead], m1);
    RunConcat(s, a + [Replace, PublishHead], m1, [LoadHead, LoadTail], t);
    ls := a + [Replace, PublishHead] + [LoadHead, LoadTail];
  }

  /** There is no lower bound: items passing through between the two loads drive Len below zero by any amount. */
  lemma LenBelowZero(capacity: nat, policy: Policy, n: nat) returns (ls: seq<Step>, t: State)
    requires capacity >= 1
    ensures Run(Initial(capacity, policy), ls, t) && t.reader == Returned(0 - n)
  {
    var s := Initial(capacity, policy);
    var m := Apply(s, LoadHead);
    var a, m' := PassThrough(m, n);
    t := Apply(m', LoadTail);
    assert [LoadTail][1..] == [] && Run(t, [], t);
    assert Run(m', [LoadTail], t);
    RunConcat(m, a, m', [LoadTail], t);
    ls := [LoadHead] + (a + [LoadTail]);
    assert ls[1..] == a + [LoadTail];
  }

  lemma {:induction false} PassThrough(s: State, n: nat) returns (ls: seq<Step>, t: State)
    requires CursorInv(s) && s.stage.Unlocked? && s.count == 0 && s.capacity >= 1
    ensures Run(s, ls, t) && CursorInv(t) && t.stage.Unlocked? && t.count == 0
    ensures t.reader == s.reader && t.publishedTail == s.publishedTail + n
    decreases n
  {
    if n == 0 {
      ls, t := [], s;
    } else {
      var a, m := OneStored(s);
      var m' := Apply(Apply(m, Remove(1)), PublishTail);
      TwoSteps(m, Remove(1), PublishTail);
      RunConcat(s, a, m, [Remove(1), PublishTail], m');
      var b;
      b, t := PassThrough(m', n - 1);
      RunConcat(s, a + [Remove(1), PublishTail], m', b, t);
      ls := a + [Remove(1), PublishTail] + b;
    }
  }
}
