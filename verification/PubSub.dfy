/** The in-flight table of the Pub/Sub transport: receive callbacks, settlements and redeliveries, in every
    interleaving (transport/pubsub/pubsub.go). */
module PubSub {

  /** One receive callback and its pendingMsg. `settled` counts msg.Ack and msg.Nack calls, `acks` the former alone,
      `closes` counts close(done); a second close would panic. */
  datatype Callback = Callback(id: string, stage: Stage, settled: nat, acks: nat, closes: nat)

  datatype Stage =
    | Handling     // registered, inside the consume handler
    | Waiting      // handler returned nil, blocked on done
    | Failing      // handler failed and the message was nacked; its table entry is still to be deleted
    | Returned

  datatype Call = Ack | Nack | SendToDLQ

  /** A call between taking the entry out of the table and closing its channel. */
  datatype Settler = ToSettle(cb: nat, call: Call) | ToClose(cb: nat)

  datatype State = State(table: map<string, nat>, callbacks: seq<Callback>, settlers: seq<Settler>)

  datatype Step =
    | Deliver(id: string)          // the broker delivers, or redelivers, a message with this ID
    | HandlerReturns(cb: nat)
    | HandlerFails(cb: nat)        // msg.Nack()
    | Forget(cb: nat)              // delete(inflight, ID), then return
    | Grab(id: string, call: Call) // Ack, Nack or SendToDLQ: look up and delete under the lock
    | CallBroker(s: nat)           // p.msg.Ack() or p.msg.Nack()
    | CloseDone(s: nat)            // close(p.done)
    | Return(cb: nat)

  const Empty: State := State(map[], [], [])

  /** `mayFail` says whether the consume handler can return an error; the runtime's never does. */
  predicate Enabled(mayFail: bool, s: State, l: Step) {
    match l
    case Deliver(_) => true
    case HandlerReturns(cb) => cb < |s.callbacks| && s.callbacks[cb].stage.Handling?
    case HandlerFails(cb) => mayFail && cb < |s.callbacks| && s.callbacks[cb].stage.Handling?
    case Forget(cb) => cb < |s.callbacks| && s.callbacks[cb].stage.Failing?
    case Grab(_, _) => true
    case CallBroker(k) => k < |s.settlers| && s.settlers[k].ToSettle? && s.settlers[k].cb < |s.callbacks|
    case CloseDone(k) => k < |s.settlers| && s.settlers[k].ToClose? && s.settlers[k].cb < |s.callbacks|
    case Return(cb) => cb < |s.callbacks| && s.callbacks[cb].stage.Waiting? && s.callbacks[cb].closes > 0
  }

  function Apply(mayFail: bool, s: State, l: Step): (r: State)
    requires Enabled(mayFail, s, l)
  {
    match l
    case Deliver(id) =>
      s.(table := s.table[id := |s.callbacks|], callbacks := s.callbacks + [Callback(id, Handling, 0, 0, 0)])
    case HandlerReturns(cb) => s.(callbacks := s.callbacks[cb := s.callbacks[cb].(stage := Waiting)])
    case HandlerFails(cb) =>
      s.(callbacks := s.callbacks[cb := s.callbacks[cb].(stage := Failing, settled := s.callbacks[cb].settled + 1)])
    case Forget(cb) =>
      s.(table := s.table - {s.callbacks[cb].id}, callbacks := s.callbacks[cb := s.callbacks[cb].(stage := Returned)])
    case Grab(id, call) =>
      s.(table := s.table - {id},
         settlers := if id in s.table then s.settlers + [ToSettle(s.table[id], call)] else s.settlers)
    case CallBroker(k) =>
      var cb := s.settlers[k].cb;
      var done := s.callbacks[cb].(settled := s.callbacks[cb].settled + 1,
                                   acks := s.callbacks[cb].acks + if s.settlers[k].call.Ack? then 1 else 0);
      s.(callbacks := s.callbacks[cb := done], settlers := s.settlers[k := ToClose(cb)])
    case CloseDone(k) =>
      var cb := s.settlers[k].cb;
      s.(callbacks := s.callbacks[cb := s.callbacks[cb].(closes := s.callbacks[cb].closes + 1)],
         settlers := s.settlers[..k] + s.settlers[k + 1..])
    case Return(cb) => s.(callbacks := s.callbacks[cb := s.callbacks[cb].(stage := Returned)])
  }

  predicate Run(mayFail: bool, s: State, ls: seq<Step>, t: State)
    decreases |ls|
  {
    if ls == [] then s == t
    else Enabled(mayFail, s, ls[0]) && Run(mayFail, Apply(mayFail, s, ls[0]), ls[1..], t)
  }

  // ----- with a handler that never fails

  /** A table entry points to an untouched callback of its own message ID. */
  predicate EntryOk(cs: seq<Callback>, id: string, cb: nat) {
    cb < |cs| && cs[cb].id == id && cs[cb].settled == 0 && cs[cb].closes == 0
  }

  /** A settler's callback is settled as far as the settler has come. */
  predicate SettlerOk(cs: seq<Callback>, x: Settler) {
    x.cb < |cs| && cs[x.cb].settled == (if x.ToClose? then 1 else 0) && cs[x.cb].closes == 0
  }

  /** Settled at most once, closed at most once and only after being settled, returned only after both. */
  predicate CallbackOk(c: Callback) {
    c.closes <= c.settled <= 1 && !c.stage.Failing? && (c.stage.Returned? ==> c.closes == 1)
  }

  /** No two settlers, and no settler and table entry, are about the same callback. */
  ghost predicate Apart(table: map<string, nat>, settlers: seq<Settler>) {
    && (forall j, k :: 0 <= j < k < |settlers| ==> settlers[j].cb != settlers[k].cb)
    && (forall k, id :: 0 <= k < |settlers| && id in table ==> settlers[k].cb != table[id])
  }

  ghost predicate TableInv(s: State) {
    && (forall id :: id in s.table ==> EntryOk(s.callbacks, id, s.table[id]))
    && (forall k :: 0 <= k < |s.settlers| ==> SettlerOk(s.callbacks, s.settlers[k]))
    && (forall i :: 0 <= i < |s.callbacks| ==> CallbackOk(s.callbacks[i]))
    && Apart(s.table, s.settlers)
  }

  lemma DeliverKeeps(s: State, id: string)
    requires TableInv(s)
    ensures TableInv(Apply(false, s, Deliver(id)))
  {
  }

  /** A change of stage that leaves both counters alone. */
  lemma StageKeeps(s: State, cb: nat, stage: Stage)
    requires TableInv(s) && cb < |s.callbacks| && CallbackOk(s.callbacks[cb].(stage := stage))
    ensures TableInv(s.(callbacks := s.callbacks[cb := s.callbacks[cb].(stage := stage)]))
  {
  }

  lemma GrabKeeps(s: State, id: string, call: Call)
    requires TableInv(s)
    ensures TableInv(Apply(false, s, Grab(id, call)))
  {
    var t := Apply(false, s, Grab(id, call));
    if id in s.table {
      assert EntryOk(s.callbacks, id, s.table[id]);
      forall other | other in t.table
        ensures t.table[other] != s.table[id]
      {
        assert EntryOk(s.callbacks, other, s.table[other]);
      }
    }
  }

  lemma BrokerKeeps(s: State, k: nat)
    requires TableInv(s) && Enabled(false, s, CallBroker(k))
    ensures TableInv(Apply(false, s, CallBroker(k)))
  {
    var t, cb := Apply(false, s, CallBroker(k)), s.settlers[k].cb;
    assert SettlerOk(s.callbacks, s.settlers[k]);
    forall id | id in s.table
      ensures EntryOk(t.callbacks, id, s.table[id])
    {
      assert EntryOk(s.callbacks, id, s.table[id]) && s.table[id] != cb;
    }
    forall j | 0 <= j < |s.settlers|
      ensures SettlerOk(t.callbacks, t.settlers[j])
    {
      assert SettlerOk(s.callbacks, s.settlers[j]);
    }
  }

  lemma CloseKeeps(s: State, k: nat)
    requires TableInv(s) && Enabled(false, s, CloseDone(k))
    ensures TableInv(Apply(false, s, CloseDone(k)))
  {
    var t, cb := Apply(false, s, CloseDone(k)), s.settlers[k].cb;
    assert SettlerOk(s.callbacks, s.settlers[k]);
    forall id | id in s.table
      ensures EntryOk(t.callbacks, id, s.table[id])
    {
      assert EntryOk(s.callbacks, id, s.table[id]) && s.table[id] != cb;
    }
    forall j | 0 <= j < |t.settlers|
      ensures SettlerOk(t.callbacks, t.settlers[j])
    {
      var j' := if j < k then j else j + 1;
      assert t.settlers[j] == s.settlers[j'] && SettlerOk(s.callbacks, s.settlers[j']);
    }
    ApartWithout(s.table, s.settlers, k);
  }

  lemma ApartWithout(table: map<string, nat>, settlers: seq<Settler>, k: nat)
    requires Apart(table, settlers) && k < |settlers|
    ensures Apart(table, settlers[..k] + settlers[k + 1..])
  {
    var rest := settlers[..k] + settlers[k + 1..];
    assert forall j :: 0 <= j < |rest| ==> rest[j] == settlers[if j < k then j else j + 1];
  }

  lemma TableStep(s: State, l: Step)
    requires TableInv(s) && Enabled(false, s, l)
    ensures TableInv(Apply(false, s, l))
  {
    match l
    case Deliver(id) => DeliverKeeps(s, id);
    case HandlerReturns(cb) => StageKeeps(s, cb, Waiting);
    case Forget(cb) => assert false;
    case Grab(id, call) => GrabKeeps(s, id, call);
    case CallBroker(k) => BrokerKeeps(s, k);
    case CloseDone(k) => CloseKeeps(s, k);
    case Return(cb) =>
      assert CallbackOk(s.callbacks[cb]);
      StageKeeps(s, cb, Returned);
  }

  lemma {:induction false} TableRun(s: State, ls: seq<Step>, t: State)
    requires TableInv(s) && Run(false, s, ls, t)
    ensures TableInv(t)
    decreases |ls|
  {
    hide TableInv;
    if ls != [] {
      TableStep(s, ls[0]);
      TableRun(Apply(false, s, ls[0]), ls[1..], t);
    }
  }

  /** With the runtime's handler, in every interleaving of settlements and redeliveries: no delivery is settled twice,
      no done channel is closed twice, and a callback returns only after its own delivery was settled. */
  lemma SettledOnce(ls: seq<Step>, t: State, i: nat)
    requires Run(false, Empty, ls, t) && i < |t.callbacks|
    ensures t.callbacks[i].settled <= 1 && t.callbacks[i].closes <= 1
    ensures t.callbacks[i].stage.Returned? ==> t.callbacks[i].settled == 1 && t.callbacks[i].closes == 1
  {
    TableRun(Empty, ls, t);
    assert CallbackOk(t.callbacks[i]);
  }

  // ----- callbacks that never return

  /** Unsettled, and neither in the table nor with a settler: its entry was overwritten by a redelivery. */
  ghost predicate Orphan(s: State, i: nat) {
    && i < |s.callbacks| && s.callbacks[i].settled == 0 && s.callbacks[i].closes == 0
    && !s.callbacks[i].stage.Returned? && !s.callbacks[i].stage.Failing?
    && (forall id :: id in s.table ==> s.table[id] != i)
    && (forall k :: 0 <= k < |s.settlers| ==> s.settlers[k].cb != i)
  }

  lemma OrphanStep(s: State, l: Step, i: nat)
    requires Orphan(s, i) && Enabled(false, s, l)
    ensures Orphan(Apply(false, s, l), i)
  {
  }

  lemma {:induction false} OrphanForever(s: State, ls: seq<Step>, t: State, i: nat)
    requires Orphan(s, i) && Run(false, s, ls, t)
    ensures Orphan(t, i)
    decreases |ls|
  {
    hide Orphan;
    if ls != [] {
      OrphanStep(s, ls[0], i);
      OrphanForever(Apply(false, s, ls[0]), ls[1..], t, i);
    }
  }

  /** A redelivery of an ID still in flight orphans the earlier callback. */
  lemma RedeliveryOrphans(s: State, id: string)
    requires TableInv(s) && id in s.table
    ensures Orphan(Apply(false, s, Deliver(id)), s.table[id])
  {
  }

  /** Whatever is settled but not yet closed has its settler. */
  predicate HalfInv(s: State) {
    forall i :: 0 <= i < |s.callbacks| && s.callbacks[i].settled > s.callbacks[i].closes ==> ToClose(i) in s.settlers
  }

  lemma HalfStep(s: State, l: Step)
    requires TableInv(s) && HalfInv(s) && Enabled(false, s, l)
    ensures HalfInv(Apply(false, s, l))
  {
    var t := Apply(false, s, l);
    match l
    case CallBroker(k) =>
      assert t.settlers[k] == ToClose(s.settlers[k].cb);
      forall i | 0 <= i < |s.callbacks| && ToClose(i) in s.settlers
        ensures ToClose(i) in t.settlers
      {
        var j :| 0 <= j < |s.settlers| && s.settlers[j] == ToClose(i);
        assert t.settlers[j] == ToClose(i);
      }
    case CloseDone(k) =>
      assert SettlerOk(s.callbacks, s.settlers[k]);
      forall i | 0 <= i < |s.callbacks| && ToClose(i) in s.settlers && i != s.settlers[k].cb
        ensures ToClose(i) in t.settlers
      {
        var j :| 0 <= j < |s.settlers| && s.settlers[j] == ToClose(i);
        assert t.settlers[if j < k then j else j - 1] == ToClose(i);
      }
    case _ =>
  }

  lemma {:induction false} HalfRun(s: State, ls: seq<Step>, t: State)
    requires TableInv(s) && HalfInv(s) && Run(false, s, ls, t)
    ensures HalfInv(t)
    decreases |ls|
  {
    hide TableInv, HalfInv;
    if ls != [] {
      TableStep(s, ls[0]);
      HalfStep(s, ls[0]);
      HalfRun(Apply(false, s, ls[0]), ls[1..], t);
    }
  }

  ghost predicate CanReturn(s: State, i: nat) {
    exists ls, t :: Run(false, s, ls, t) && i < |t.callbacks| && t.callbacks[i].stage.Returned?
  }

  lemma StepFirst(s: State, l: Step, i: nat)
    requires Enabled(false, s, l) && CanReturn(Apply(false, s, l), i)
    ensures CanReturn(s, i)
  {
    hide Apply, Enabled;
    var ls, t :| Run(false, Apply(false, s, l), ls, t) && i < |t.callbacks| && t.callbacks[i].stage.Returned?;
    assert ([l] + ls)[1..] == ls;
    assert Run(false, s, [l] + ls, t);
  }

  lemma ReturnNow(s: State, i: nat)
    requires i < |s.callbacks| && s.callbacks[i].stage.Returned?
    ensures CanReturn(s, i)
  {
    var ls: seq<Step> := [];
    assert Run(false, s, ls, s);
  }

  lemma ClosedReturns(s: State, i: nat)
    requires TableInv(s) && i < |s.callbacks| && s.callbacks[i].closes == 1
    ensures CanReturn(s, i)
  {
    hide CanReturn, Run;
    assert CallbackOk(s.callbacks[i]);
    match s.callbacks[i].stage
    case Handling =>
      var s1 := Apply(false, s, HandlerReturns(i));
      var s2 := Apply(false, s1, Return(i));
      ReturnNow(s2, i);
      StepFirst(s1, Return(i), i);
      StepFirst(s, HandlerReturns(i), i);
    case Waiting =>
      ReturnNow(Apply(false, s, Return(i)), i);
      StepFirst(s, Return(i), i);
    case Returned => ReturnNow(s, i);
  }

  lemma SettlerReturns(s: State, k: nat)
    requires TableInv(s) && k < |s.settlers|
    ensures CanReturn(s, s.settlers[k].cb)
  {
    hide CanReturn, Run;
    var i := s.settlers[k].cb;
    assert SettlerOk(s.callbacks, s.settlers[k]);
    if s.settlers[k].ToClose? {
      TableStep(s, CloseDone(k));
      ClosedReturns(Apply(false, s, CloseDone(k)), i);
      StepFirst(s, CloseDone(k), i);
    } else {
      var s1 := Apply(false, s, CallBroker(k));
      TableStep(s, CallBroker(k));
      TableStep(s1, CloseDone(k));
      ClosedReturns(Apply(false, s1, CloseDone(k)), i);
      StepFirst(s1, CloseDone(k), i);
      StepFirst(s, CallBroker(k), i);
    }
  }

  lemma EntryReturns(s: State, id: string)
    requires TableInv(s) && id in s.table
    ensures CanReturn(s, s.table[id])
  {
    hide CanReturn, Run;
    var s1 := Apply(false, s, Grab(id, Nack));
    TableStep(s, Grab(id, Nack));
    assert s1.settlers[|s.settlers|] == ToSettle(s.table[id], Nack);
    SettlerReturns(s1, |s.settlers|);
    StepFirst(s, Grab(id, Nack), s.table[id]);
  }

  /** Step l delivers callback i's message ID again while i's entry is still in the table. */
  predicate Replaces(s: State, l: Step, i: nat) {
    l.Deliver? && l.id in s.table && s.table[l.id] == i
  }

  /** Some step of the run replaces callback i's entry. */
  predicate Replaced(s: State, ls: seq<Step>, i: nat)
    decreases |ls|
  {
    ls != [] && Enabled(false, s, ls[0]) &&
    (Replaces(s, ls[0], i) || Replaced(Apply(false, s, ls[0]), ls[1..], i))
  }

  /** A step orphans a callback exactly by replacing its entry. */
  lemma OrphanStepExact(s: State, l: Step, i: nat)
    requires TableInv(s) && Enabled(false, s, l) && i < |Apply(false, s, l).callbacks|
    ensures Orphan(Apply(false, s, l), i) <==> Orphan(s, i) || Replaces(s, l, i)
  {
    if Orphan(s, i) {
      OrphanStep(s, l, i);
    } else if Replaces(s, l, i) {
      RedeliveryOrphans(s, l.id);
    } else {
      NoNewOrphan(s, l, i);
    }
  }

  lemma NoNewOrphan(s: State, l: Step, i: nat)
    requires TableInv(s) && Enabled(false, s, l) && i < |Apply(false, s, l).callbacks|
    requires !Orphan(s, i) && !Replaces(s, l, i)
    ensures !Orphan(Apply(false, s, l), i)
  {
    var t := Apply(false, s, l);
    if i == |s.callbacks| {
      assert t.table[l.id] == i;
    } else {
      assert CallbackOk(s.callbacks[i]);
      if k :| 0 <= k < |s.settlers| && s.settlers[k].cb == i {
        assert SettlerOk(s.callbacks, s.settlers[k]);
        SettlerStays(s, l, k);
      } else if id :| id in s.table && s.table[id] == i {
        EntryStays(s, l, id);
      }
    }
  }

  lemma SettlerStays(s: State, l: Step, k: nat)
    requires TableInv(s) && Enabled(false, s, l) && k < |s.settlers|
    ensures !Orphan(Apply(false, s, l), s.settlers[k].cb)
  {
    var t, i := Apply(false, s, l), s.settlers[k].cb;
    if l.CloseDone? {
      var j := if k < l.s then k else k - 1;
      assert k != l.s ==> t.settlers[j] == s.settlers[k];
    } else {
      assert t.settlers[k].cb == i;
    }
  }

  lemma EntryStays(s: State, l: Step, id: string)
    requires TableInv(s) && Enabled(false, s, l) && id in s.table && !Replaces(s, l, s.table[id])
    ensures !Orphan(Apply(false, s, l), s.table[id])
  {
    var t, i := Apply(false, s, l), s.table[id];
    if l.Grab? && l.id == id {
      assert t.settlers[|s.settlers|].cb == i;
    } else if l.Forget? {
      assert false;
    } else {
      assert id in t.table && t.table[id] == i;
    }
  }

  lemma {:induction false} OrphanRun(s: State, ls: seq<Step>, t: State, i: nat)
    requires TableInv(s) && Run(false, s, ls, t) && i < |t.callbacks|
    ensures Orphan(t, i) <==> Orphan(s, i) || Replaced(s, ls, i)
    decreases |ls|
  {
    hide TableInv, Orphan, Replaces;
    if ls != [] {
      var m := Apply(false, s, ls[0]);
      TableStep(s, ls[0]);
      OrphanRun(m, ls[1..], t, i);
      if i < |m.callbacks| {
        OrphanStepExact(s, ls[0], i);
      } else {
        NotYet(s, m, ls[0], i);
      }
    }
  }

  lemma NotYet(s: State, m: State, l: Step, i: nat)
    requires TableInv(s) && Enabled(false, s, l) && m == Apply(false, s, l) && i >= |m.callbacks|
    ensures !Orphan(s, i) && !Orphan(m, i) && !Replaces(s, l, i)
  {
    assert l.Deliver? && l.id in s.table ==> EntryOk(s.callbacks, l.id, s.table[l.id]);
  }

  lemma CanReturnUnlessOrphan(ls: seq<Step>, s: State, i: nat)
    requires Run(false, Empty, ls, s) && i < |s.callbacks|
    ensures CanReturn(s, i) <==> !Orphan(s, i)
  {
    hide Run;
    TableRun(Empty, ls, s);
    HalfRun(Empty, ls, s);
    assert CallbackOk(s.callbacks[i]);
    if Orphan(s, i) {
      forall ls', t | Run(false, s, ls', t)
        ensures !(i < |t.callbacks| && t.callbacks[i].stage.Returned?)
      {
        OrphanForever(s, ls', t, i);
      }
    } else if k :| 0 <= k < |s.settlers| && s.settlers[k].cb == i {
      SettlerReturns(s, k);
    } else if id :| id in s.table && s.table[id] == i {
      EntryReturns(s, id);
    } else {
      assert ToClose(i) !in s.settlers;
      ClosedReturns(s, i);
    }
  }

  /** The exact fate of a receive callback, over any run: it can still return if and only if its message ID was never
      delivered again while its entry was in the table. */
  lemma CanReturnIff(ls: seq<Step>, s: State, i: nat)
    requires Run(false, Empty, ls, s) && i < |s.callbacks|
    ensures CanReturn(s, i) <==> !Replaced(Empty, ls, i)
    ensures Orphan(s, i) <==> Replaced(Empty, ls, i)
  {
    hide Run, CanReturn;
    OrphanRun(Empty, ls, s, i);
    CanReturnUnlessOrphan(ls, s, i);
  }

  // ----- with a handler that may fail

  ghost predicate AlwaysOnce(mayFail: bool) {
    forall ls, t, i :: Run(mayFail, Empty, ls, t) && 0 <= i < |t.callbacks| ==> t.callbacks[i].settled <= 1
  }

  /** Single settlement rests on the handler: it holds in every run if and only if the handler cannot fail. When it
      can, a settlement may be under way while the failing callback nacks the same message. */
  lemma SettledOnceIff(mayFail: bool)
    ensures AlwaysOnce(mayFail) <==> !mayFail
  {
    if mayFail {
      var s1 := Apply(true, Empty, Deliver(""));
      var s2 := Apply(true, s1, Grab("", Ack));
      var s3 := Apply(true, s2, CallBroker(0));
      var s4 := Apply(true, s3, HandlerFails(0));
      assert s4.callbacks[0].settled == 2;
      StepFirstOf(s3, HandlerFails(0), [], s4);
      StepFirstOf(s2, CallBroker(0), [HandlerFails(0)], s4);
      StepFirstOf(s1, Grab("", Ack), [CallBroker(0), HandlerFails(0)], s4);
      StepFirstOf(Empty, Deliver(""), [Grab("", Ack), CallBroker(0), HandlerFails(0)], s4);
      assert !AlwaysOnce(true);
    } else {
      forall ls, t, i | Run(mayFail, Empty, ls, t) && 0 <= i < |t.callbacks|
        ensures t.callbacks[i].settled <= 1
      {
        SettledOnce(ls, t, i);
      }
    }
  }

  /** And it can do harm to others: a failing callback deletes whatever entry its ID has by then, so a redelivery that
      came in between is orphaned although nothing was delivered after it. */
  lemma FailureOrphans() returns (t: State)
    ensures Run(true, Empty, [Deliver(""), HandlerFails(0), Deliver(""), Forget(0)], t) && Orphan(t, 1)
    ensures t.callbacks[0].stage.Returned? && t.callbacks[0].settled == 1
  {
    var s1 := Apply(true, Empty, Deliver(""));
    var s2 := Apply(true, s1, HandlerFails(0));
    var s3 := Apply(true, s2, Deliver(""));
    t := Apply(true, s3, Forget(0));
    StepFirstOf(s3, Forget(0), [], t);
    StepFirstOf(s2, Deliver(""), [Forget(0)], t);
    StepFirstOf(s1, HandlerFails(0), [Deliver(""), Forget(0)], t);
    StepFirstOf(Empty, Deliver(""), [HandlerFails(0), Deliver(""), Forget(0)], t);
  }

  lemma StepFirstOf(s: State, l: Step, ls: seq<Step>, t: State)
    requires Enabled(true, s, l) && Run(true, Apply(true, s, l), ls, t)
    ensures Run(true, s, [l] + ls, t)
  {
    assert ([l] + ls)[1..] == ls;
  }

  // ----- acks and nacks

  /** Which call took each callback's entry out of the table. */
  function Takers(s: State, ls: seq<Step>, so: map<nat, Call>): (m: map<nat, Call>)
    decreases |ls|
  {
    if ls == [] || !Enabled(false, s, ls[0]) then so
    else
      var l := ls[0];
      Takers(Apply(false, s, l), ls[1..], if l.Grab? && l.id in s.table then so[s.table[l.id] := l.call] else so)
  }

  /** A settled callback was acked if an Ack took its entry, and nacked if a Nack or SendToDLQ did. */
  predicate AsCalled(c: Callback, i: nat, m: map<nat, Call>) {
    if c.settled == 0 then c.acks == 0 else i in m && c.acks == if m[i].Ack? then 1 else 0
  }

  ghost predicate CallInv(s: State, m: map<nat, Call>) {
    && (forall i :: 0 <= i < |s.callbacks| ==> AsCalled(s.callbacks[i], i, m))
    && (forall k :: 0 <= k < |s.settlers| && s.settlers[k].ToSettle? ==>
          s.settlers[k].cb in m && m[s.settlers[k].cb] == s.settlers[k].call)
    && (forall id :: id in s.table ==> s.table[id] !in m)
    && (forall i :: i in m ==> i < |s.callbacks|)
  }

  lemma CallGrab(s: State, id: string, call: Call, m: map<nat, Call>)
    requires TableInv(s) && CallInv(s, m) && id in s.table
    ensures CallInv(Apply(false, s, Grab(id, call)), m[s.table[id] := call])
  {
    var i := s.table[id];
    assert EntryOk(s.callbacks, id, i) && AsCalled(s.callbacks[i], i, m);
    forall j | 0 <= j < |s.callbacks|
      ensures AsCalled(s.callbacks[j], j, m[i := call])
    {
      assert AsCalled(s.callbacks[j], j, m);
    }
    forall other | other in s.table && other != id
      ensures s.table[other] != i
    {
      assert EntryOk(s.callbacks, other, s.table[other]);
    }
  }

  lemma CallBrokered(s: State, k: nat, m: map<nat, Call>)
    requires TableInv(s) && CallInv(s, m) && Enabled(false, s, CallBroker(k))
    ensures CallInv(Apply(false, s, CallBroker(k)), m)
  {
    var cb := s.settlers[k].cb;
    assert SettlerOk(s.callbacks, s.settlers[k]) && AsCalled(s.callbacks[cb], cb, m);
  }

  lemma CallOther(s: State, l: Step, m: map<nat, Call>)
    requires TableInv(s) && CallInv(s, m) && Enabled(false, s, l) && !l.Grab? && !l.CallBroker?
    ensures CallInv(Apply(false, s, l), m)
  {
    var t := Apply(false, s, l);
    forall i | 0 <= i < |t.callbacks|
      ensures AsCalled(t.callbacks[i], i, m)
    {
      if i < |s.callbacks| {
        assert AsCalled(s.callbacks[i], i, m);
      }
    }
    if l.CloseDone? {
      assert forall j :: 0 <= j < |t.settlers| ==> t.settlers[j] == s.settlers[if j < l.s then j else j + 1];
    }
  }

  lemma {:induction false} CallRun(s: State, ls: seq<Step>, t: State, m: map<nat, Call>)
    requires TableInv(s) && CallInv(s, m) && Run(false, s, ls, t)
    ensures CallInv(t, Takers(s, ls, m))
    decreases |ls|
  {
    hide TableInv, CallInv;
    if ls != [] {
      var l := ls[0];
      TableStep(s, l);
      if l.Grab? && l.id in s.table {
        CallGrab(s, l.id, l.call, m);
        CallRun(Apply(false, s, l), ls[1..], t, m[s.table[l.id] := l.call]);
      } else {
        CallKeeps(s, l, m);
        CallRun(Apply(false, s, l), ls[1..], t, m);
      }
    }
  }

  lemma CallKeeps(s: State, l: Step, m: map<nat, Call>)
    requires TableInv(s) && CallInv(s, m) && Enabled(false, s, l) && !(l.Grab? && l.id in s.table)
    ensures CallInv(Apply(false, s, l), m)
  {
    if l.CallBroker? {
      CallBrokered(s, l.s, m);
    } else if l.Grab? {
      assert Apply(false, s, l).table == s.table;
    } else {
      CallOther(s, l, m);
    }
  }

  /** The broker hears what the runtime asked for: over any run a settled delivery was acked exactly once if the call
      that took its entry was Ack, and never if it was Nack or SendToDLQ. */
  lemma SettledAsCalled(ls: seq<Step>, t: State, i: nat)
    requires Run(false, Empty, ls, t) && i < |t.callbacks| && t.callbacks[i].settled > 0
    ensures var m := Takers(Empty, ls, map[]);
      i in m && t.callbacks[i].acks == if m[i].Ack? then 1 else 0
  {
    CallRun(Empty, ls, t, map[]);
    assert AsCalled(t.callbacks[i], i, Takers(Empty, ls, map[]));
  }
}
