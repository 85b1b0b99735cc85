/** Whole histories of the timer wheel, with a monotone clock. */
module WheelHistory {
  import opened TimerWheel
  import opened WheelBuckets

  /** `Tick` is one turn of the ticker loop: the ticker fired at `at`, expire read the clock at `now`. */
  datatype WheelStep<T> = Put(item: T, delay: int, at: int) | Tick(at: int, now: int, out: seq<Slot<T>>)

  datatype Book<T(==)> = Book(
    pending: multiset<Slot<T>>, inserted: multiset<Slot<T>>, released: multiset<Slot<T>>,
    clock: int,      // the latest clock reading
    lastTick: int)   // when the ticker last fired

  /** A step with a monotone clock; the ticker's time is never ahead of the clock. */
  ghost predicate Next<T(!new)>(b: Book<T>, l: WheelStep<T>, b': Book<T>) {
    match l
    case Put(item, delay, at) =>
      var slot := Slot(at + delay, item);
      && at >= b.clock
      && b' == b.(pending := b.pending + multiset{slot}, inserted := b.inserted + multiset{slot}, clock := at)
    case Tick(at, now, out) =>
      && b.lastTick <= at <= now && b.clock <= now
      && Expires(b.pending, b'.pending, Unix(at), now, out)
      && b' == b.(pending := b'.pending, released := b.released + multiset(out), clock := now, lastTick := at)
  }

  /** `bs` are the states a history goes through, from an empty wheel on. */
  ghost predicate History<T(!new)>(clock: int, ls: seq<WheelStep<T>>, bs: seq<Book<T>>) {
    && |bs| == |ls| + 1 && bs[0] == Opened(clock)
    && forall i :: 0 <= i < |ls| ==> Next(bs[i], ls[i], bs[i + 1])
  }

  function Opened<T>(clock: int): (b: Book<T>) {
    Book(multiset{}, multiset{}, multiset{}, clock, clock)
  }

  /** Nothing is lost or released twice, at any moment of any history. */
  lemma {:induction false} WheelConserves<T(!new)>(clock: int, ls: seq<WheelStep<T>>, bs: seq<Book<T>>, n: nat)
    requires History(clock, ls, bs) && n <= |ls|
    ensures bs[n].inserted == bs[n].released + bs[n].pending
    ensures bs[n].lastTick <= bs[n].clock
  {
    if n > 0 {
      WheelConserves(clock, ls, bs, n - 1);
      assert Next(bs[n - 1], ls[n - 1], bs[n]);
    }
  }

  /** One tick, exactly: nothing leaves before its target, and whatever was due when the ticker fired leaves now. */
  lemma TickExact<T(!new)>(b: Book<T>, l: WheelStep<T>, t: Book<T>)
    requires Next(b, l, t) && l.Tick?
    ensures forall s :: s in l.out ==> s in b.pending && s.target <= l.now
    ensures forall s :: s in b.pending && s.target <= l.at ==> s !in t.pending && multiset(l.out)[s] == b.pending[s]
  {
  }

  /** With positive delays, whatever is pending has a target after the last tick. */
  lemma {:induction false} PendingIsAhead<T(!new)>(clock: int, ls: seq<WheelStep<T>>, bs: seq<Book<T>>, n: nat)
    requires History(clock, ls, bs) && n <= |ls|
    requires forall i :: 0 <= i < n && ls[i].Put? ==> ls[i].delay > 0
    ensures forall s :: s in bs[n].pending ==> s.target > bs[n].lastTick
  {
    if n > 0 {
      var b, l, t := bs[n - 1], ls[n - 1], bs[n];
      PendingIsAhead(clock, ls, bs, n - 1);
      WheelConserves(clock, ls, bs, n - 1);
      assert Next(b, l, t);
      if l.Tick? {
        TickExact(b, l, t);
        assert b.pending == t.pending + multiset(l.out);
      }
    }
  }

  /** Latency: when the ticker fires at most `gap` after its previous turn, each slot released then had its target
      less than `gap` before that firing, and never in the future. */
  lemma ReleaseLatency<T(!new)>(clock: int, ls: seq<WheelStep<T>>, bs: seq<Book<T>>, n: nat, gap: int)
    requires History(clock, ls, bs) && n < |ls| && ls[n].Tick? && ls[n].at - bs[n].lastTick <= gap
    requires forall i :: 0 <= i < n && ls[i].Put? ==> ls[i].delay > 0
    ensures forall s :: s in ls[n].out ==> ls[n].at - gap < s.target <= ls[n].now
  {
    PendingIsAhead(clock, ls, bs, n);
    TickExact(bs[n], ls[n], bs[n + 1]);
  }

  // ----- the bucketed wheel goes through such a history

  datatype Command<T> = DoPut(item: T, delay: int, at: int) | DoTick(at: int, now: int)

  /** The commands' clock readings are monotone from (clock, lastTick) on. */
  predicate Timed<T>(cs: seq<Command<T>>, clock: int, lastTick: int)
    decreases |cs|
  {
    cs != [] ==>
      && OnTime(cs[0], clock, lastTick)
      && match cs[0]
         case DoPut(_, _, at) => Timed(cs[1..], at, lastTick)
         case DoTick(at, now) => Timed(cs[1..], now, at)
  }

  predicate Answers<T(==)>(c: Command<T>, l: WheelStep<T>, items: seq<T>) {
    match c
    case DoPut(item, delay, at) => l == Put(item, delay, at) && items == []
    case DoTick(at, now) => l.Tick? && l.at == at && l.now == now && items == Items(l.out)
  }

  predicate OnTime<T>(c: Command<T>, clock: int, lastTick: int) {
    match c
    case DoPut(_, _, at) => clock <= at
    case DoTick(at, now) => lastTick <= at <= now && clock <= now
  }

  method Step<T(!new, ==)>(w: Wheel<T>, c: Command<T>, ghost b: Book<T>)
    returns (items: seq<T>, ghost l: WheelStep<T>, ghost b': Book<T>)
    requires w.Valid() && !w.closed && w.pending == b.pending && OnTime(c, b.clock, b.lastTick)
    modifies w
    ensures w.Valid() && !w.closed && w.pending == b'.pending
    ensures Next(b, l, b') && Answers(c, l, items)
  {
    match c
    case DoPut(item, delay, at) =>
      w.Insert(item, delay, at);
      items, l := [], Put(item, delay, at);
      b' := b.(pending := w.pending, inserted := b.inserted + multiset{Slot(at + delay, item)}, clock := at);
    case DoTick(at, now) =>
      ghost var out;
      items, out := w.Expire(Unix(at), now);
      l := Tick(at, now, out);
      b' := b.(pending := w.pending, released := b.released + multiset(out), clock := now, lastTick := at);
  }

  lemma HistoryAdd<T(!new)>(clock: int, ls: seq<WheelStep<T>>, bs: seq<Book<T>>, l: WheelStep<T>, b: Book<T>)
    requires History(clock, ls, bs) && Next(bs[|ls|], l, b)
    ensures History(clock, ls + [l], bs + [b])
  {
    hide Next;
  }

  lemma TimedStep<T(!new)>(cs: seq<Command<T>>, b: Book<T>, l: WheelStep<T>, b': Book<T>, items: seq<T>)
    requires cs != [] && Timed(cs, b.clock, b.lastTick) && Next(b, l, b') && Answers(cs[0], l, items)
    ensures Timed(cs[1..], b'.clock, b'.lastTick)
  {
  }

  /** Whatever commands the wheel is given, its buckets, insertions and releases follow a history of the flat list. */
  method Replay<T(!new, ==)>(w: Wheel<T>, cs: seq<Command<T>>, clock: int)
    returns (outs: seq<seq<T>>, ghost ls: seq<WheelStep<T>>, ghost bs: seq<Book<T>>)
    requires w.Valid() && !w.closed && w.pending == multiset{} && Timed(cs, clock, clock)
    modifies w
    ensures w.Valid() && History(clock, ls, bs) && |outs| == |ls| == |cs|
    ensures w.pending == bs[|ls|].pending
    ensures forall i :: 0 <= i < |cs| ==> Answers(cs[i], ls[i], outs[i])
  {
    outs, ls, bs := [], [], [Opened(clock)];
    for i := 0 to |cs|
      invariant w.Valid() && !w.closed
      invariant History(clock, ls, bs) && |outs| == |ls| == i
      invariant w.pending == bs[i].pending && Timed(cs[i..], bs[i].clock, bs[i].lastTick)
      invariant forall j :: 0 <= j < i ==> Answers(cs[j], ls[j], outs[j])
    {
      hide Next, Answers;
      assert cs[i..][0] == cs[i] && cs[i..][1..] == cs[i + 1..];
      var items, l, b := Step(w, cs[i], bs[i]);
      TimedStep(cs[i..], bs[i], l, b, items);
      HistoryAdd(clock, ls, bs, l, b);
      outs, ls, bs := outs + [items], ls + [l], bs + [b];
    }
  }
}
