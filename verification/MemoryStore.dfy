/** The in-memory store and the duplicate filter over it, used one call at a time
    (idempotency/store_memory.go, ringq/filter.go). */
module MemoryStore {
  import opened Retry
  import opened IdemStore

  /** What Exists should answer: the last mark of k has not run out. */
  predicate Live(marks: Keys, k: string, now: int) {
    k in marks && now <= marks[k]
  }

  /** The stored keys are the marks, less some that had run out by `clock`. */
  ghost predicate Covers(keys: Keys, marks: Keys, clock: int) {
    && (forall k :: k in keys ==> k in marks && keys[k] == marks[k])
    && (forall k :: k in marks && k !in keys ==> marks[k] < clock)
  }

  class Store {
    var keys: Keys
    ghost var marks: Keys   // every key ever marked, with the expiry of its last mark
    ghost var clock: int

    ghost predicate Valid()
      reads this
    {
      Covers(keys, marks, clock)
    }

    constructor (ghost now: int)
      ensures Valid() && marks == map[] && clock == now
    {
      keys, marks, clock := map[], map[], now;
    }

    method Exists(key: string, now: int) returns (found: bool)
      requires Valid() && clock <= now
      modifies this
      ensures Valid() && marks == old(marks) && clock == now
      ensures found <==> Live(marks, key, now)
    {
      clock := now;
      if key !in keys {
        return false;
      }
      if now > keys[key] {
        keys := keys - {key};
        return false;
      }
      return true;
    }

    method Mark(key: string, ttl: int, now: int)
      requires Valid() && clock <= now
      modifies this
      ensures Valid() && clock == now
      ensures marks == old(marks)[key := now + ttl]
    {
      keys := keys[key := now + ttl];
      marks := marks[key := now + ttl];
      clock := now;
    }

    /** evict with a clock reading that may be older than the calls since. */
    method Evict(stale: int, ghost now: int)
      requires Valid() && stale <= now && clock <= now
      modifies this
      ensures Valid() && marks == old(marks) && clock == now
      ensures keys == Purge(old(keys), stale)
      ensures forall k :: k in keys <==> k in old(keys) && stale <= old(keys)[k]
      ensures forall k :: k in keys ==> keys[k] == old(keys)[k]
    {
      clock := now;
      var todo := keys.Keys;
      while todo != {}
        invariant clock == now && marks == old(marks)
        invariant todo <= keys.Keys <= old(keys).Keys
        invariant forall k :: k in keys ==> keys[k] == old(keys)[k]
        invariant forall k :: k in old(keys) && k !in todo ==> (k in keys <==> stale <= old(keys)[k])
        decreases |todo|
      {
        var k :| k in todo;
        todo := todo - {k};
        if stale > keys[k] {
          keys := keys - {k};
        }
      }
    }

    /** The messages split into those without a live mark and those with one, each in its original order;
        `times` are the clock readings of the Exists calls. */
    method FilterDuplicates(messages: seq<Message>, times: seq<int>)
      returns (kept: seq<Message>, duplicates: seq<Message>)
      requires Valid() && |times| == |messages| && Ascending(clock, times)
      modifies this
      ensures Valid() && marks == old(marks)
      ensures kept == Split(messages, times, marks, false)
      ensures duplicates == Split(messages, times, marks, true)
    {
      kept, duplicates := [], [];
      for i := 0 to |messages|
        invariant Valid() && marks == old(marks)
        invariant Ascending(clock, times[i..])
        invariant kept == Split(messages[..i], times[..i], marks, false)
        invariant duplicates == Split(messages[..i], times[..i], marks, true)
      {
        var msg := messages[i];
        assert messages[..i + 1][..i] == messages[..i] && times[..i + 1][..i] == times[..i];
        AscendingTail(clock, times, i);
        if msg.key.None? {
          kept := kept + [msg];
        } else {
          var found := Exists(msg.key.value, times[i]);
          if found {
            duplicates := duplicates + [msg];
          } else {
            kept := kept + [msg];
          }
        }
      }
      assert messages[..|messages|] == messages && times[..|messages|] == times;
    }

    /** mark: a message without a key leaves no trace. */
    method MarkMessage(msg: Message, ttl: int, now: int)
      requires Valid() && clock <= now
      modifies this
      ensures Valid()
      ensures marks == if msg.key.Some? then old(marks)[msg.key.value := now + ttl] else old(marks)
    {
      if msg.key.Some? {
        Mark(msg.key.value, ttl, now);
      }
    }
  }

  predicate Ascending(from: int, times: seq<int>) {
    && (forall i :: 0 <= i < |times| ==> from <= times[i])
    && (forall i, j :: 0 <= i < j < |times| ==> times[i] <= times[j])
  }

  lemma AscendingTail(from: int, times: seq<int>, i: nat)
    requires i < |times| && Ascending(from, times[i..])
    ensures from <= times[i] && Ascending(times[i], times[i + 1..]) && Ascending(from, times[i + 1..])
  {
  }

  // ----- the filter

  predicate IsDuplicate(m: Message, marks: Keys, now: int) {
    m.key.Some? && Live(marks, m.key.value, now)
  }

  function Split(ms: seq<Message>, times: seq<int>, marks: Keys, dup: bool): (r: seq<Message>)
    requires |times| == |ms|
  {
    if ms == [] then []
    else
      var n := |ms| - 1;
      Split(ms[..n], times[..n], marks, dup) + if IsDuplicate(ms[n], marks, times[n]) == dup then [ms[n]] else []
  }

  lemma AddToOne<T>(a: seq<T>, b: seq<T>, all: seq<T>, x: T)
    requires multiset(a) + multiset(b) == multiset(all)
    ensures multiset(a + [x]) + multiset(b + []) == multiset(all + [x])
    ensures multiset(a + []) + multiset(b + [x]) == multiset(all + [x])
  {
    assert b + [] == b && a + [] == a;
  }

  /** Nothing is lost or doubled: every message of a batch is kept or a duplicate, once. */
  lemma {:induction false} SplitIsPartition(ms: seq<Message>, times: seq<int>, marks: Keys)
    requires |times| == |ms|
    ensures multiset(Split(ms, times, marks, true)) + multiset(Split(ms, times, marks, false)) == multiset(ms)
    decreases |ms|
  {
    if ms != [] {
      var n := |ms| - 1;
      hide IsDuplicate;
      SplitIsPartition(ms[..n], times[..n], marks);
      assert ms == ms[..n] + [ms[n]];
      AddToOne(Split(ms[..n], times[..n], marks, true), Split(ms[..n], times[..n], marks, false), ms[..n], ms[n]);
    }
  }

  /** `at` maps r into the batch, strictly increasing, and reaches exactly the messages of its class. */
  ghost predicate Picks(at: seq<nat>, r: seq<Message>, ms: seq<Message>, times: seq<int>, marks: Keys, dup: bool)
    requires |times| == |ms|
  {
    && |at| == |r|
    && (forall i :: 0 <= i < |at| ==> at[i] < |ms| && ms[at[i]] == r[i])
    && (forall i, j :: 0 <= i < j < |at| ==> at[i] < at[j])
    && (forall k :: 0 <= k < |ms| ==> (k in at <==> IsDuplicate(ms[k], marks, times[k]) == dup))
  }

  lemma PicksMore(at: seq<nat>, r: seq<Message>, ms: seq<Message>, times: seq<int>, marks: Keys, dup: bool,
      m: Message, now: int)
    requires |times| == |ms| && Picks(at, r, ms, times, marks, dup)
    ensures if IsDuplicate(m, marks, now) == dup
      then Picks(at + [|ms|], r + [m], ms + [m], times + [now], marks, dup)
      else Picks(at, r, ms + [m], times + [now], marks, dup)
  {
  }

  /** The filter preserves order and picks exactly its class. */
  lemma {:induction false} SplitIsSubsequence(ms: seq<Message>, times: seq<int>, marks: Keys, dup: bool)
    returns (at: seq<nat>)
    requires |times| == |ms|
    ensures Picks(at, Split(ms, times, marks, dup), ms, times, marks, dup)
    decreases |ms|
  {
    hide Picks, IsDuplicate;
    if ms == [] {
      at := [];
      PicksNone(times, marks, dup);
    } else {
      var n := |ms| - 1;
      var init := SplitIsSubsequence(ms[..n], times[..n], marks, dup);
      var r := Split(ms[..n], times[..n], marks, dup);
      PicksMore(init, r, ms[..n], times[..n], marks, dup, ms[n], times[n]);
      assert r + [] == r;
      assert ms == ms[..n] + [ms[n]] && times == times[..n] + [times[n]];
      at := if IsDuplicate(ms[n], marks, times[n]) == dup then init + [n] else init;
    }
  }

  lemma PicksNone(times: seq<int>, marks: Keys, dup: bool)
    requires |times| == 0
    ensures Picks([], [], [], times, marks, dup)
  {
  }

  /** Inside one batch the filter marks nothing: if a message with a key is kept, so is every later one with it. */
  lemma SameKeyKept(ms: seq<Message>, times: seq<int>, marks: Keys, i: nat, j: nat)
    requires |times| == |ms| && i <= j < |ms| && times[i] <= times[j] && ms[i].key == ms[j].key
    requires !IsDuplicate(ms[i], marks, times[i])
    ensures ms[j] in Split(ms, times, marks, false)
  {
  }

  // ----- whole histories

  datatype Op =
    | Query(key: string, now: int)
    | Record(key: string, ttl: int, now: int)
    | Clean(stale: int, now: int)

  predicate Monotone(ops: seq<Op>, clock: int) {
    && (forall i :: 0 <= i < |ops| ==> clock <= ops[i].now && (ops[i].Clean? ==> ops[i].stale <= ops[i].now))
    && (forall i, j :: 0 <= i < j < |ops| ==> ops[i].now <= ops[j].now)
  }

  /** The expiry of the last mark of k in a history, whatever was evicted since. */
  function LastExpiry(ops: seq<Op>, k: string): (r: Option<int>) {
    if ops == [] then None
    else
      var op := ops[|ops| - 1];
      if op.Record? && op.key == k then Some(op.now + op.ttl) else LastExpiry(ops[..|ops| - 1], k)
  }

  ghost predicate SameMarks(ops: seq<Op>, marks: Keys) {
    forall k: string :: Lookup(marks, k) == LastExpiry(ops, k)
  }

  lemma MarksAfter(ops: seq<Op>, op: Op, marks: Keys)
    requires SameMarks(ops, marks)
    ensures SameMarks(ops + [op], if op.Record? then marks[op.key := op.now + op.ttl] else marks)
  {
    var marks' := if op.Record? then marks[op.key := op.now + op.ttl] else marks;
    assert (ops + [op])[..|ops|] == ops;
    forall k: string
      ensures Lookup(marks', k) == LastExpiry(ops + [op], k)
    {
      assert Lookup(marks, k) == LastExpiry(ops, k);
    }
  }

  predicate Correct(ops: seq<Op>, i: nat, answer: bool)
    requires i < |ops| && ops[i].Query?
  {
    var e := LastExpiry(ops[..i], ops[i].key);
    answer <==> e.Some? && ops[i].now <= e.value
  }

  /** Lazy deletion and eviction are invisible: over any sequential history with a monotone clock and sweeps that
      use a stale one, Exists answers true exactly while the last mark of the key lasts. */
  method Replay(s: Store, ops: seq<Op>) returns (answers: seq<bool>)
    requires s.Valid() && s.marks == map[] && Monotone(ops, s.clock)
    modifies s
    ensures s.Valid() && |answers| == |ops|
    ensures forall i :: 0 <= i < |ops| && ops[i].Query? ==> Correct(ops, i, answers[i])
  {
    answers := [];
    for i := 0 to |ops|
      invariant s.Valid() && |answers| == i
      invariant forall j :: i <= j < |ops| ==> s.clock <= ops[j].now
      invariant SameMarks(ops[..i], s.marks)
      invariant forall j :: 0 <= j < i && ops[j].Query? ==> Correct(ops, j, answers[j])
    {
      MarksAfter(ops[..i], ops[i], s.marks);
      assert ops[..i + 1] == ops[..i] + [ops[i]];
      var answer := Perform(s, ops[i]);
      assert ops[i].Query? ==> Lookup(s.marks, ops[i].key) == LastExpiry(ops[..i], ops[i].key);
      answers := answers + [answer];
    }
  }

  method Perform(s: Store, op: Op) returns (answer: bool)
    requires s.Valid() && s.clock <= op.now && (op.Clean? ==> op.stale <= op.now)
    modifies s
    ensures s.Valid() && s.clock == op.now
    ensures s.marks == if op.Record? then old(s.marks)[op.key := op.now + op.ttl] else old(s.marks)
    ensures op.Query? ==> (answer <==> Live(s.marks, op.key, op.now))
  {
    answer := false;
    match op
    case Query(key, now) => answer := s.Exists(key, now);
    case Record(key, ttl, now) => s.Mark(key, ttl, now);
    case Clean(stale, now) => s.Evict(stale, now);
  }
}
