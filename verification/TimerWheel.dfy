/** The timer wheel: a bucketed map that must behave as one flat multiset of (target, item). */
module TimerWheel {

  datatype Slot<T> = Slot(target: int, item: T)

  const SECOND: int := 1_000_000_000

  /** time.Time.Unix of an instant in nanoseconds. */
  function Unix(t: int): (s: int)
    ensures s * 1_000_000_000 <= t < (s + 1) * 1_000_000_000
  {
    t / SECOND
  }

  function Items<T>(slots: seq<Slot<T>>): (items: seq<T>)
    ensures |items| == |slots|
    ensures forall i :: 0 <= i < |slots| ==> items[i] == slots[i].item
  {
    seq(|slots|, i requires 0 <= i < |slots| => slots[i].item)
  }

  lemma ItemsConcat<T>(a: seq<Slot<T>>, b: seq<Slot<T>>)
    ensures Items(a + b) == Items(a) + Items(b)
  {
  }

  /** expire(tick), reading `now` from the clock, releases this slot. */
  predicate IsDue<T>(s: Slot<T>, tick: int, now: int) {
    Unix(s.target) <= tick && s.target <= now
  }

  /** The flat-list meaning of one expire call: `out` is exactly the due part. */
  ghost predicate Expires<T(!new)>(before: multiset<Slot<T>>, after: multiset<Slot<T>>, tick: int, now: int,
      out: seq<Slot<T>>) {
    && before == after + multiset(out)
    && (forall s :: s in out ==> IsDue(s, tick, now))
    && (forall s :: s in after ==> !IsDue(s, tick, now))
  }
}
