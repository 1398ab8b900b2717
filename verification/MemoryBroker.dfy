/**
  The in-memory broker (pkg/broker/memory.go) as a concurrent protocol. Publish and Subscribe do their work on
  the shared maps in one critical section each and call handlers only after it; the calls of handlers of any
  number of concurrent calls interleave freely, with each other and with further critical sections.
 */
module MemoryBroker {
  import opened Schema

  /** One registration: slot j of a Subscribe call stands for the handler on the j-th topic of its list. */
  datatype Reg = Reg(sub: nat, slot: nat)

  /** Handing message number index of a topic to a registration. */
  datatype Delivery = Delivery(reg: Reg, topic: string, index: nat)

  /** A call that has left its critical section, with what it still has to hand over. */
  datatype Call =
    | Publishing(topic: string, index: nat, snapshot: seq<Reg>, next: nat, failed: bool)
    | Subscribing(replay: seq<Delivery>, next: nat, failed: bool)

  datatype Slot = Slot(call: nat, k: nat)

  datatype Broker = Broker(
    closed: bool,
    messages: map<string, seq<Payload>>,
    handlers: map<string, seq<Reg>>,
    calls: seq<Call>,
    invoked: seq<Delivery>)          // every handler call made so far

  datatype Action =
    | Publish(topic: string, value: Payload)
    | Subscribe(topics: seq<string>)
    | Deliver(call: nat, ok: bool)
    | Close

  function Get<T>(m: map<string, seq<T>>, topic: string): (r: seq<T>) {
    if topic in m then m[topic] else []
  }

  const EMPTY := Broker(false, map[], map[], [], [])

  // ---------- the critical sections ----------

  /** The registrations after Subscribe call number id with the given topics. */
  function Joined(handlers: map<string, seq<Reg>>, id: nat, topics: seq<string>): (r: map<string, seq<Reg>>)
    decreases |topics|
  {
    if topics == [] then handlers
    else
      var last := |topics| - 1;
      var front := Joined(handlers, id, topics[..last]);
      front[topics[last] := Get(front, topics[last]) + [Reg(id, last)]]
  }

  function ReplayOf(messages: map<string, seq<Payload>>, reg: Reg, topic: string): (r: seq<Delivery>) {
    seq(|Get(messages, topic)|, i requires 0 <= i => Delivery(reg, topic, i))
  }

  /** The messages already buffered on the topics, in the order of the list. */
  function Replay(messages: map<string, seq<Payload>>, id: nat, topics: seq<string>): (r: seq<Delivery>)
    decreases |topics|
  {
    if topics == [] then []
    else
      var last := |topics| - 1;
      Replay(messages, id, topics[..last]) + ReplayOf(messages, Reg(id, last), topics[last])
  }

  function Snapshot(snapshot: seq<Reg>, topic: string, index: nat): (r: seq<Delivery>) {
    seq(|snapshot|, k requires 0 <= k < |snapshot| => Delivery(snapshot[k], topic, index))
  }

  /** How much a call has to hand over. */
  function Size(call: Call): (n: nat) { if call.Publishing? then |call.snapshot| else |call.replay| }

  /** Everything a call has to hand over, in order. */
  function Targets(call: Call): (r: seq<Delivery>)
    ensures |r| == Size(call)
  {
    match call
    case Publishing(topic, index, snapshot, _, _) => Snapshot(snapshot, topic, index)
    case Subscribing(replay, _, _) => replay
  }

  /** The delivery a pending call makes next. */
  function Due(call: Call): (d: Delivery)
    requires Pending(call)
    ensures d == Targets(call)[call.next]
  {
    if call.Publishing? then Delivery(call.snapshot[call.next], call.topic, call.index) else call.replay[call.next]
  }

  predicate Enabled(s: Broker, a: Action) {
    a.Deliver? ==> a.call < |s.calls| && Pending(s.calls[a.call])
  }

  /** The call has handlers left to call and none of them has failed. */
  predicate Pending(call: Call) { !call.failed && call.next < Size(call) }

  function Step(s: Broker, a: Action): (t: Broker)
    requires Enabled(s, a)
  {
    match a
    case Publish(topic, value) =>
      if s.closed then s
      else
        var call := Publishing(topic, |Get(s.messages, topic)|, Get(s.handlers, topic), 0, false);
        s.(messages := s.messages[topic := Get(s.messages, topic) + [value]], calls := s.calls + [call])
    case Subscribe(topics) =>
      if s.closed then s
      else
        var call := Subscribing(Replay(s.messages, |s.calls|, topics), 0, false);
        s.(handlers := Joined(s.handlers, |s.calls|, topics), calls := s.calls + [call])
    case Deliver(c, ok) =>
      var call := s.calls[c];
      s.(invoked := s.invoked + [Due(call)],
         calls := s.calls[c := if ok then call.(next := call.next + 1)
                               else call.(next := call.next + 1, failed := true)])
    case Close => s.(closed := true)
  }

  predicate Valid(s: Broker, run: seq<Action>)
    decreases |run|
  {
    run == [] || (Enabled(s, run[0]) && Valid(Step(s, run[0]), run[1..]))
  }

  function Exec(s: Broker, run: seq<Action>): (t: Broker)
    requires Valid(s, run)
    decreases |run|
  {
    if run == [] then s else Exec(Step(s, run[0]), run[1..])
  }

  /** Runs compose. */
  lemma {:induction false} ExecAppend(s: Broker, a: seq<Action>, b: seq<Action>)
    requires Valid(s, a) && Valid(Exec(s, a), b)
    ensures Valid(s, a + b) && Exec(s, a + b) == Exec(Exec(s, a), b)
    decreases |a|
  {
    if a == [] {
      assert a + b == b;
    } else {
      assert (a + b)[1..] == a[1..] + b;
      ExecAppend(Step(s, a[0]), a[1..], b);
    }
  }

  // ---------- what is to be delivered ----------

  /** The registration is on the topic and the topic has that message. */
  predicate Pair(messages: map<string, seq<Payload>>, handlers: map<string, seq<Reg>>, d: Delivery) {
    d.index < |Get(messages, d.topic)| && d.reg in Get(handlers, d.topic)
  }

  /** The delivery is item k of call c: in the snapshot of its message or in the replay of its registration. */
  predicate Assigned(s: Broker, slot: Slot, d: Delivery) {
    slot.call < |s.calls| && slot.k < |Targets(s.calls[slot.call])| && Targets(s.calls[slot.call])[slot.k] == d
  }

  ghost predicate NoDuplicates<T>(s: seq<T>) {
    forall i, j :: 0 <= i < j < |s| ==> s[i] != s[j]
  }

  /** Registrations belong to earlier calls, and none is on a topic twice. */
  ghost predicate Registered(handlers: map<string, seq<Reg>>, calls: nat) {
    forall topic :: topic in handlers ==>
      NoDuplicates(handlers[topic]) && forall q :: 0 <= q < |handlers[topic]| ==> handlers[topic][q].sub < calls
  }

  /** Every delivery to be made is in one place of one call, and nothing else is. */
  ghost predicate Owned(s: Broker) {
    && (forall d :: Pair(s.messages, s.handlers, d) <==> exists slot :: Assigned(s, slot, d))
    && (forall slot, slot', d :: Assigned(s, slot, d) && Assigned(s, slot', d) ==> slot == slot')
  }

  /** The call that is to make the delivery has got past it. */
  ghost predicate Made(s: Broker, d: Delivery) {
    exists slot :: Assigned(s, slot, d) && slot.k < s.calls[slot.call].next
  }

  ghost predicate Inv(s: Broker) {
    && Registered(s.handlers, |s.calls|)
    && Owned(s)
    && (forall c :: 0 <= c < |s.calls| ==> s.calls[c].next <= |Targets(s.calls[c])|)
    && NoDuplicates(s.invoked)
    && (forall d :: d in s.invoked <==> Made(s, d))
  }

  /** t is s with one more call, which takes on exactly the pairs its critical section creates. */
  ghost predicate CallAdded(s: Broker, t: Broker, call: Call) {
    && t == s.(messages := t.messages, handlers := t.handlers, calls := s.calls + [call])
    && call.next == 0 && NoDuplicates(Targets(call)) && Registered(t.handlers, |t.calls|)
    && (forall d :: Pair(t.messages, t.handlers, d) <==> Pair(s.messages, s.handlers, d) || d in Targets(call))
    && (forall d :: d in Targets(call) ==> !Pair(s.messages, s.handlers, d))
  }

  /** What the new call has to make is in its own list; everything else stays where it was. */
  lemma NewCallAssigned(s: Broker, t: Broker, call: Call, slot: Slot, d: Delivery)
    requires CallAdded(s, t, call)
    ensures Assigned(t, slot, d) <==>
            || Assigned(s, slot, d)
            || (slot.call == |s.calls| && slot.k < |Targets(call)| && Targets(call)[slot.k] == d)
  {
  }

  lemma NewCallOwned(s: Broker, t: Broker, call: Call)
    requires Owned(s) && CallAdded(s, t, call)
    ensures Owned(t)
  {
    forall d ensures Pair(t.messages, t.handlers, d) <==> exists slot :: Assigned(t, slot, d) {
      if d in Targets(call) {
        var k :| 0 <= k < |Targets(call)| && Targets(call)[k] == d;
        NewCallAssigned(s, t, call, Slot(|s.calls|, k), d);
      } else if slot :| Assigned(s, slot, d) {
        NewCallAssigned(s, t, call, slot, d);
      } else if slot :| Assigned(t, slot, d) {
        NewCallAssigned(s, t, call, slot, d);
      }
    }
    forall slot, slot', d | Assigned(t, slot, d) && Assigned(t, slot', d) ensures slot == slot' {
      NewCallAssigned(s, t, call, slot, d);
      NewCallAssigned(s, t, call, slot', d);
      assert Assigned(s, slot, d) || Assigned(s, slot', d) ==> Pair(s.messages, s.handlers, d);
    }
  }

  lemma NewCallMade(s: Broker, t: Broker, call: Call, d: Delivery)
    requires Owned(s) && CallAdded(s, t, call)
    ensures Made(t, d) <==> Made(s, d)
  {
    if slot :| Assigned(s, slot, d) && slot.k < s.calls[slot.call].next {
      NewCallAssigned(s, t, call, slot, d);
    } else if slot :| Assigned(t, slot, d) && slot.k < t.calls[slot.call].next {
      NewCallAssigned(s, t, call, slot, d);
    }
  }

  lemma NewCallKeepsInv(s: Broker, t: Broker, call: Call)
    requires Inv(s) && CallAdded(s, t, call)
    ensures Inv(t)
  {
    NewCallOwned(s, t, call);
    forall d ensures d in t.invoked <==> Made(t, d) {
      NewCallMade(s, t, call, d);
    }
  }

  lemma SnapshotItems(snapshot: seq<Reg>, topic: string, index: nat, d: Delivery)
    ensures d in Snapshot(snapshot, topic, index) <==> d.topic == topic && d.index == index && d.reg in snapshot
  {
    if d.topic == topic && d.index == index && d.reg in snapshot {
      var q :| 0 <= q < |snapshot| && snapshot[q] == d.reg;
      assert Snapshot(snapshot, topic, index)[q] == d;
    }
  }

  lemma PublishKeepsInv(s: Broker, topic: string, value: Payload)
    requires Inv(s) && !s.closed
    ensures Inv(Step(s, Publish(topic, value)))
  {
    var t := Step(s, Publish(topic, value));
    var index, snapshot := |Get(s.messages, topic)|, Get(s.handlers, topic);
    var call := Publishing(topic, index, snapshot, 0, false);
    forall d
      ensures Pair(t.messages, t.handlers, d) <==> Pair(s.messages, s.handlers, d) || d in Targets(call)
      ensures d in Targets(call) ==> !Pair(s.messages, s.handlers, d)
    {
      SnapshotItems(snapshot, topic, index, d);
    }
    NewCallKeepsInv(s, t, call);
  }

  /** Who is on a topic after Subscribe: those who were, and one registration for each mention of the topic. */
  lemma {:induction false} JoinedHandlers(handlers: map<string, seq<Reg>>, id: nat, topics: seq<string>, topic: string, r: Reg)
    ensures r in Get(Joined(handlers, id, topics), topic) <==>
            r in Get(handlers, topic) || (r.sub == id && r.slot < |topics| && topics[r.slot] == topic)
    decreases |topics|
  {
    if topics != [] {
      JoinedHandlers(handlers, id, topics[..|topics| - 1], topic, r);
    }
  }

  lemma {:induction false} JoinedRegistered(handlers: map<string, seq<Reg>>, id: nat, topics: seq<string>)
    requires Registered(handlers, id)
    ensures Registered(Joined(handlers, id, topics), id + 1)
    decreases |topics|
  {
    if topics != [] {
      var last := |topics| - 1;
      var front := Joined(handlers, id, topics[..last]);
      JoinedRegistered(handlers, id, topics[..last]);
      JoinedHandlers(handlers, id, topics[..last], topics[last], Reg(id, last));
      assert Reg(id, last) !in Get(handlers, topics[last]);
      assert Reg(id, last) !in Get(front, topics[last]);
    }
  }

  lemma {:induction false} ReplayItems(messages: map<string, seq<Payload>>, id: nat, topics: seq<string>, d: Delivery)
    ensures d in Replay(messages, id, topics) <==>
            d.reg.sub == id && d.reg.slot < |topics| && topics[d.reg.slot] == d.topic && d.index < |Get(messages, d.topic)|
    decreases |topics|
  {
    if topics != [] {
      var last := |topics| - 1;
      ReplayItems(messages, id, topics[..last], d);
      var tail := ReplayOf(messages, Reg(id, last), topics[last]);
      assert d in Replay(messages, id, topics) <==> d in Replay(messages, id, topics[..last]) || d in tail;
      if d.reg == Reg(id, last) && d.topic == topics[last] && d.index < |tail| {
        assert tail[d.index] == d;
      }
    }
  }

  lemma {:induction false} ReplayDistinct(messages: map<string, seq<Payload>>, id: nat, topics: seq<string>)
    ensures NoDuplicates(Replay(messages, id, topics))
    decreases |topics|
  {
    if topics != [] {
      var last := |topics| - 1;
      var front, tail := Replay(messages, id, topics[..last]), ReplayOf(messages, Reg(id, last), topics[last]);
      ReplayDistinct(messages, id, topics[..last]);
      forall i, j | 0 <= i < |front| && 0 <= j < |tail| ensures front[i] != tail[j] {
        ReplayItems(messages, id, topics[..last], front[i]);
      }
    }
  }

  lemma SubscribeKeepsInv(s: Broker, topics: seq<string>)
    requires Inv(s) && !s.closed
    ensures Inv(Step(s, Subscribe(topics)))
  {
    var t, id := Step(s, Subscribe(topics)), |s.calls|;
    var call := Subscribing(Replay(s.messages, id, topics), 0, false);
    JoinedRegistered(s.handlers, id, topics);
    ReplayDistinct(s.messages, id, topics);
    forall d
      ensures Pair(t.messages, t.handlers, d) <==> Pair(s.messages, s.handlers, d) || d in Targets(call)
      ensures d in Targets(call) ==> !Pair(s.messages, s.handlers, d)
    {
      JoinedHandlers(s.handlers, id, topics, d.topic, d.reg);
      ReplayItems(s.messages, id, topics, d);
    }
    NewCallKeepsInv(s, t, call);
  }

  /** Moving along a list of targets leaves the lists alone. */
  lemma OwnedSurvives(s: Broker, t: Broker)
    requires Owned(s) && t.messages == s.messages && t.handlers == s.handlers
    requires |t.calls| == |s.calls| && forall c :: 0 <= c < |s.calls| ==> Targets(t.calls[c]) == Targets(s.calls[c])
    ensures Owned(t) && forall slot, d :: Assigned(t, slot, d) <==> Assigned(s, slot, d)
  {
    forall slot, d ensures Assigned(t, slot, d) <==> Assigned(s, slot, d) {
    }
  }

  /** The delivery a pending call makes next has not been made by anyone. */
  lemma DeliveryIsNew(s: Broker, c: nat)
    requires Inv(s) && c < |s.calls| && Pending(s.calls[c])
    ensures Assigned(s, Slot(c, s.calls[c].next), Due(s.calls[c])) && Due(s.calls[c]) !in s.invoked
  {
    var own := Slot(c, s.calls[c].next);
    assert Assigned(s, own, Due(s.calls[c]));
    forall slot | Assigned(s, slot, Due(s.calls[c])) ensures slot.k >= s.calls[slot.call].next {
      assert slot == own;
    }
  }

  lemma DeliverKeepsInv(s: Broker, c: nat, ok: bool)
    requires Inv(s) && Enabled(s, Deliver(c, ok))
    ensures Inv(Step(s, Deliver(c, ok)))
  {
    var t, call := Step(s, Deliver(c, ok)), s.calls[c];
    assert Targets(t.calls[c]) == Targets(call);
    OwnedSurvives(s, t);
    DeliveryIsNew(s, c);
    forall d ensures d in t.invoked <==> Made(t, d) {
      assert d in t.invoked <==> Made(s, d) || d == Due(call);
      MadeAfter(s, t, c, d);
    }
  }

  lemma MadeAfter(s: Broker, t: Broker, c: nat, d: Delivery)
    requires Owned(s) && c < |s.calls| && Pending(s.calls[c]) && |t.calls| == |s.calls|
    requires forall slot, e :: Assigned(t, slot, e) <==> Assigned(s, slot, e)
    requires t.calls[c].next == s.calls[c].next + 1
    requires forall i :: 0 <= i < |s.calls| && i != c ==> t.calls[i] == s.calls[i]
    ensures Made(t, d) <==> Made(s, d) || d == Due(s.calls[c])
  {
    var own := Slot(c, s.calls[c].next);
    assert Assigned(s, own, Due(s.calls[c]));
    if slot :| Assigned(s, slot, d) {
      assert slot.k < t.calls[slot.call].next <==> slot.k < s.calls[slot.call].next || slot == own;
    }
  }

  lemma StepKeepsInv(s: Broker, a: Action)
    requires Inv(s) && Enabled(s, a)
    ensures Inv(Step(s, a))
  {
    match a {
      case Publish(topic, value) => if !s.closed { PublishKeepsInv(s, topic, value); }
      case Subscribe(topics) => if !s.closed { SubscribeKeepsInv(s, topics); }
      case Deliver(c, ok) => DeliverKeepsInv(s, c, ok);
      case Close => CloseKeepsInv(s);
    }
  }

  lemma CloseKeepsInv(s: Broker)
    requires Inv(s)
    ensures Inv(Step(s, Close))
  {
    var t := Step(s, Close);
    OwnedSurvives(s, t);
  }

  lemma {:induction false} RunKeepsInv(s: Broker, run: seq<Action>)
    requires Inv(s) && Valid(s, run)
    ensures Inv(Exec(s, run))
    decreases |run|
  {
    if run != [] {
      StepKeepsInv(s, run[0]);
      RunKeepsInv(Step(s, run[0]), run[1..]);
    }
  }

  /**
    Exactly one of replay and snapshot. In every state reachable under any interleaving of Publish and
    Subscribe, each registration on a topic and each message of that topic are paired up in exactly one place:
    once in the snapshot of the call that published the message or once in the replay of the call that made
    the registration, and no call holds anything but such pairs.
   */
  lemma PairedExactlyOnce(run: seq<Action>, d: Delivery)
    requires Valid(EMPTY, run)
    ensures var s := Exec(EMPTY, run);
            && (Pair(s.messages, s.handlers, d) <==> exists slot :: Assigned(s, slot, d))
            && (forall slot, slot' :: Assigned(s, slot, d) && Assigned(s, slot', d) ==> slot == slot')
  {
    RunKeepsInv(EMPTY, run);
  }

  /** All calls have returned and no handler has failed. */
  predicate AllReturnedOk(s: Broker) {
    forall c :: 0 <= c < |s.calls| ==> !s.calls[c].failed && s.calls[c].next == |Targets(s.calls[c])|
  }

  /**
    Delivery. No handler is called twice for the same message; it is called only for messages of a topic it is
    registered on; and once all calls have returned without a handler failing, it has been called for every
    one of them.
   */
  lemma DeliveredExactlyOnce(run: seq<Action>)
    requires Valid(EMPTY, run)
    ensures var s := Exec(EMPTY, run);
            && NoDuplicates(s.invoked)
            && (forall d :: d in s.invoked ==> Pair(s.messages, s.handlers, d))
            && (AllReturnedOk(s) ==> forall d :: Pair(s.messages, s.handlers, d) ==> d in s.invoked)
  {
    RunKeepsInv(EMPTY, run);
    var s := Exec(EMPTY, run);
    if AllReturnedOk(s) {
      forall d | Pair(s.messages, s.handlers, d) ensures d in s.invoked {
        var slot :| Assigned(s, slot, d);
        assert Made(s, d);
      }
    }
  }
}
