/** The wheel as it is stored: slots bucketed by the second of their target (internal/timerwheel/wheel.go). */
module WheelBuckets {
  import opened TimerWheel

  type Buckets<T> = map<int, seq<Slot<T>>>

  /** How often a slot is held: only its own bucket matters. */
  function Held<T(==)>(b: Buckets<T>, s: Slot<T>): (n: nat) {
    if Unix(s.target) in b then multiset(b[Unix(s.target)])[s] else 0
  }

  /** Every slot lies in the bucket of its target's second, and together the buckets hold exactly `flat`. */
  ghost predicate Agrees<T(!new)>(b: Buckets<T>, flat: multiset<Slot<T>>) {
    && (forall t, s :: t in b && s in b[t] ==> Unix(s.target) == t)
    && (forall s :: flat[s] == Held(b, s))
  }

  /** Replacing bucket t by `keep` takes exactly `out` off the flat multiset. */
  lemma ShrinkBucket<T(!new)>(b: Buckets<T>, flat: multiset<Slot<T>>, t: int, keep: seq<Slot<T>>, out: seq<Slot<T>>)
    requires Agrees(b, flat) && t in b && multiset(b[t]) == multiset(keep) + multiset(out)
    ensures Agrees(b[t := keep], flat - multiset(out)) && multiset(out) <= flat
  {
    forall s
      ensures s in keep ==> s in b[t]
      ensures multiset(out)[s] <= flat[s]
      ensures (flat - multiset(out))[s] == Held(b[t := keep], s)
    {
      assert s in multiset(keep) || s in multiset(out) ==> s in multiset(b[t]);
    }
  }

  lemma RemoveBucket<T(!new)>(b: Buckets<T>, flat: multiset<Slot<T>>, t: int)
    requires Agrees(b, flat) && t in b
    ensures Agrees(b - {t}, flat - multiset(b[t])) && multiset(b[t]) <= flat
  {
    ShrinkBucket(b, flat, t, [], b[t]);
    assert forall s :: Held(b - {t}, s) == Held(b[t := []], s);
  }

  lemma EmptyAgrees<T(!new)>(b: Buckets<T>, flat: multiset<Slot<T>>)
    requires b == map[] && flat == multiset{}
    ensures Agrees(b, flat)
  {
  }

  lemma NoBuckets<T(!new)>(flat: multiset<Slot<T>>)
    requires Agrees(map[], flat)
    ensures flat == multiset{}
  {
    assert forall s :: flat[s] == 0;
  }

  /** An empty bucket is as good as none. */
  lemma DropEmpty<T(!new)>(b: Buckets<T>, flat: multiset<Slot<T>>, t: int)
    requires Agrees(b[t := []], flat)
    ensures Agrees(b - {t}, flat)
  {
    forall s
      ensures flat[s] == Held(b - {t}, s)
    {
      assert Held(b[t := []], s) == Held(b - {t}, s);
    }
    forall u, s | u in b - {t} && s in (b - {t})[u]
      ensures Unix(s.target) == u
    {
      assert s in b[t := []][u];
    }
  }

  lemma GrowBucket<T(!new)>(b: Buckets<T>, flat: multiset<Slot<T>>, slot: Slot<T>, slots: seq<Slot<T>>)
    requires Agrees(b, flat)
    requires slots == if Unix(slot.target) in b then b[Unix(slot.target)] else []
    ensures Agrees(b[Unix(slot.target) := slots + [slot]], flat + multiset{slot})
  {
  }

  /** What is pending in bucket t is what the bucket holds. */
  lemma InBucket<T(!new)>(b: Buckets<T>, flat: multiset<Slot<T>>, s: Slot<T>)
    requires Agrees(b, flat)
    ensures s in flat <==> Unix(s.target) in b && s in b[Unix(s.target)]
  {
    assert flat[s] == Held(b, s);
  }

  /** The effect of the inner loop on the flat list. */
  lemma TakeOut<T(!new)>(b: Buckets<T>, flat: multiset<Slot<T>>, t: int, keep: seq<Slot<T>>, gone: seq<Slot<T>>,
      tick: int, now: int)
    requires Agrees(b, flat) && t in b && t <= tick && multiset(b[t]) == multiset(keep) + multiset(gone)
    requires (forall s :: s in keep ==> s.target > now) && (forall s :: s in gone ==> s.target <= now)
    ensures multiset(gone) <= flat && Agrees(if |keep| > 0 then b[t := keep] else b - {t}, flat - multiset(gone))
    ensures forall s :: s in gone ==> IsDue(s, tick, now)
    ensures forall s :: s in flat - multiset(gone) && Unix(s.target) == t ==> !IsDue(s, tick, now)
  {
    ShrinkBucket(b, flat, t, keep, gone);
    forall s | s in gone
      ensures IsDue(s, tick, now)
    {
      assert s in multiset(b[t]);
    }
    forall s | s in flat - multiset(gone) && Unix(s.target) == t
      ensures !IsDue(s, tick, now)
    {
      InBucket(b[t := keep], flat - multiset(gone), s);
    }
    if keep == [] {
      DropEmpty(b, flat - multiset(gone), t);
    }
  }

  lemma SomeKey(keys: set<int>)
    requires keys != {}
    ensures exists t :: t in keys
  {
    assert (forall t :: t !in keys) ==> keys == {};
  }

  lemma Append<T>(flat: multiset<Slot<T>>, out: seq<Slot<T>>, gone: seq<Slot<T>>)
    requires multiset(gone) <= flat
    ensures Items(out + gone) == Items(out) + Items(gone)
    ensures flat - multiset(gone) + multiset(out + gone) == flat + multiset(out)
    ensures flat - multiset(gone) <= flat
    ensures forall s :: s in out + gone ==> s in out || s in gone
  {
    assert multiset(out + gone) == multiset(out) + multiset(gone);
  }

  class Wheel<T(!new, ==)> {
    var buckets: Buckets<T>
    var closed: bool
    ghost var pending: multiset<Slot<T>>   // the flat list the buckets stand for

    ghost predicate Valid()
      reads this
    {
      Agrees(buckets, pending)
    }

    constructor ()
      ensures Valid() && !closed && pending == multiset{}
    {
      buckets, closed, pending := map[], false, multiset{};
    }

    method Insert(item: T, delay: int, now: int)
      requires Valid()
      modifies this
      ensures Valid() && closed == old(closed)
      ensures pending == if closed then old(pending) else old(pending) + multiset{Slot(now + delay, item)}
    {
      if closed {
        return;
      }
      var target := now + delay;
      var tick := Unix(target);
      var slots := if tick in buckets then buckets[tick] else [];
      GrowBucket(buckets, pending, Slot(target, item), slots);
      hide Agrees;
      buckets := buckets[tick := slots + [Slot(target, item)]];
      pending := pending + multiset{Slot(target, item)};
    }

    lemma PendingHasKey()
      requires Valid()
      ensures forall s :: s in pending ==> Unix(s.target) in buckets.Keys
    {
    }

    /** expire: exactly the due slots leave, in some order. */
    method Expire(tick: int, now: int) returns (items: seq<T>, ghost out: seq<Slot<T>>)
      requires Valid()
      modifies this
      ensures Valid() && closed == old(closed)
      ensures Expires(old(pending), pending, tick, now, out)
      ensures items == Items(out)
    {
      hide Agrees;
      items, out := [], [];
      var todo := buckets.Keys;
      PendingHasKey();
      while todo != {}
        invariant Valid() && closed == old(closed)
        invariant todo <= buckets.Keys
        invariant items == Items(out)
        invariant old(pending) == pending + multiset(out)
        invariant forall s :: s in out ==> IsDue(s, tick, now)
        invariant forall s :: s in pending && Unix(s.target) !in todo ==> !IsDue(s, tick, now)
        decreases |todo|
      {
        SomeKey(todo);
        var t :| t in todo;
        todo := todo - {t};
        if t <= tick {
          ghost var flat := pending;
          var released, gone := ExpireBucket(t, tick, now);
          Append(flat, out, gone);
          items, out := items + released, out + gone;
        }
      }
    }

    /** One bucket at or before the tick. */
    method ExpireBucket(t: int, ghost tick: int, now: int) returns (items: seq<T>, ghost out: seq<Slot<T>>)
      requires Valid() && t in buckets && t <= tick
      modifies this
      ensures Valid() && closed == old(closed)
      ensures buckets.Keys >= old(buckets).Keys - {t}
      ensures items == Items(out)
      ensures multiset(out) <= old(pending) && pending == old(pending) - multiset(out)
      ensures forall s :: s in out ==> IsDue(s, tick, now)
      ensures forall s :: s in pending && Unix(s.target) == t ==> !IsDue(s, tick, now)
    {
      hide Agrees, IsDue, Items, Unix;
      var keep;
      items, keep, out := SplitSlots(buckets[t], now);
      TakeOut(buckets, pending, t, keep, out, tick, now);
      pending := pending - multiset(out);
      if |keep| > 0 {
        buckets := buckets[t := keep];
      } else {
        buckets := buckets - {t};
      }
    }

    method Len() returns (n: nat)
      requires Valid()
      ensures n == |pending|
    {
      hide Agrees;
      n := 0;
      var left := buckets;
      ghost var rest := pending;
      while left.Keys != {}
        invariant Agrees(left, rest)
        invariant n + |rest| == |pending|
        decreases |left.Keys|
      {
        SomeKey(left.Keys);
        var t :| t in left.Keys;
        RemoveBucket(left, rest, t);
        n := n + |left[t]|;
        rest := rest - multiset(left[t]);
        left := left - {t};
      }
      assert left == map[];
      NoBuckets(rest);
    }

    /** Drain hands over everything that is pending and leaves a closed, empty wheel. */
    method Drain() returns (items: seq<T>, ghost out: seq<Slot<T>>)
      requires Valid()
      modifies this
      ensures Valid() && closed && pending == multiset{}
      ensures items == Items(out) && multiset(out) == old(pending)
    {
      hide Agrees;
      closed := true;
      items, out := [], [];
      var left := buckets;
      ghost var rest := pending;
      while left.Keys != {}
        invariant closed && Agrees(left, rest)
        invariant items == Items(out)
        invariant multiset(out) + rest == old(pending)
        decreases |left.Keys|
      {
        SomeKey(left.Keys);
        var t :| t in left.Keys;
        RemoveBucket(left, rest, t);
        ItemsConcat(out, left[t]);
        items, out := items + Items(left[t]), out + left[t];
        rest := rest - multiset(left[t]);
        left := left - {t};
      }
      assert left == map[];
      NoBuckets(rest);
      buckets, pending := map[], multiset{};
      EmptyAgrees(buckets, pending);
    }

    method Close()
      requires Valid()
      modifies this
      ensures Valid() && closed && pending == multiset{}
    {
      closed, buckets, pending := true, map[], multiset{};
    }
  }

  /** The inner loop of expire: what is still ahead of the clock stays, in order. */
  method SplitSlots<T(!new, ==)>(slots: seq<Slot<T>>, now: int)
    returns (released: seq<T>, keep: seq<Slot<T>>, ghost gone: seq<Slot<T>>)
    ensures multiset(slots) == multiset(keep) + multiset(gone) && released == Items(gone)
    ensures forall s :: s in keep ==> s.target > now
    ensures forall s :: s in gone ==> s.target <= now
  {
    released, keep, gone := [], [], [];
    for i := 0 to |slots|
      invariant multiset(slots[..i]) == multiset(keep) + multiset(gone) && released == Items(gone)
      invariant forall s :: s in keep ==> s.target > now
      invariant forall s :: s in gone ==> s.target <= now
    {
      assert slots[..i + 1] == slots[..i] + [slots[i]];
      if slots[i].target > now {
        keep := keep + [slots[i]];
      } else {
        released, gone := released + [slots[i].item], gone + [slots[i]];
      }
    }
    assert slots[..|slots|] == slots;
  }
}
