/**
  The order in which the in-memory broker hands messages over: handlers in the order of their registration, a
  replay topic by topic and each topic from its oldest message on (pkg/broker/memory.go:40-56 and 66-85).
 */
module MemoryBrokerOrder {
  import opened Schema
  import opened MemoryBroker

  /** Registered earlier: by an earlier call, or by the same one on a topic further up its list. */
  predicate RegBefore(a: Reg, b: Reg) {
    a.sub < b.sub || (a.sub == b.sub && a.slot < b.slot)
  }

  /** Replayed earlier: on a topic further up the list, or an older message of the same one. */
  predicate ReplayBefore(a: Delivery, b: Delivery) {
    a.reg.slot < b.reg.slot || (a.reg.slot == b.reg.slot && a.index < b.index)
  }

  ghost predicate Ascending(regs: seq<Reg>) {
    forall i, j :: 0 <= i < j < |regs| ==> RegBefore(regs[i], regs[j])
  }

  ghost predicate InReplayOrder(replay: seq<Delivery>) {
    forall i, j :: 0 <= i < j < |replay| ==> ReplayBefore(replay[i], replay[j])
  }

  /** Registrations are in order, all of them by the calls before number id or by that one in its first n slots. */
  ghost predicate ListOrdered(regs: seq<Reg>, id: nat, n: nat) {
    Ascending(regs) && forall q :: 0 <= q < |regs| ==> RegBefore(regs[q], Reg(id, n))
  }

  ghost predicate HandlersOrdered(handlers: map<string, seq<Reg>>, id: nat, n: nat) {
    forall topic :: topic in handlers ==> ListOrdered(handlers[topic], id, n)
  }

  lemma OneMoreHandler(regs: seq<Reg>, id: nat, n: nat)
    requires ListOrdered(regs, id, n)
    ensures ListOrdered(regs, id, n + 1) && ListOrdered(regs + [Reg(id, n)], id, n + 1)
  {
  }

  lemma {:induction false} JoinedOrdered(handlers: map<string, seq<Reg>>, id: nat, topics: seq<string>)
    requires HandlersOrdered(handlers, id, 0)
    ensures HandlersOrdered(Joined(handlers, id, topics), id, |topics|)
    decreases |topics|
  {
    if topics != [] {
      var last := |topics| - 1;
      var front, all := Joined(handlers, id, topics[..last]), Joined(handlers, id, topics);
      JoinedOrdered(handlers, id, topics[..last]);
      forall topic | topic in all ensures ListOrdered(all[topic], id, |topics|) {
        OneMoreHandler(Get(front, topic), id, last);
      }
    }
  }

  lemma LaterCall(handlers: map<string, seq<Reg>>, id: nat, n: nat)
    requires HandlersOrdered(handlers, id, n)
    ensures HandlersOrdered(handlers, id + 1, 0)
  {
    forall topic | topic in handlers ensures ListOrdered(handlers[topic], id + 1, 0) {
      var regs := handlers[topic];
      assert ListOrdered(regs, id, n);
      forall q | 0 <= q < |regs| ensures RegBefore(regs[q], Reg(id + 1, 0)) {
        assert RegBefore(regs[q], Reg(id, n));
      }
    }
  }

  /** The replay of a Subscribe: its topics in the order of the list, each from its first message to its last. */
  lemma {:induction false} ReplayOrdered(messages: map<string, seq<Payload>>, id: nat, topics: seq<string>)
    ensures InReplayOrder(Replay(messages, id, topics))
    ensures forall i :: 0 <= i < |Replay(messages, id, topics)| ==> Replay(messages, id, topics)[i].reg.sub == id
    decreases |topics|
  {
    if topics != [] {
      var last := |topics| - 1;
      var front, tail := Replay(messages, id, topics[..last]), ReplayOf(messages, Reg(id, last), topics[last]);
      ReplayOrdered(messages, id, topics[..last]);
      forall i | 0 <= i < |front| ensures front[i].reg.slot < last {
        ReplayItems(messages, id, topics[..last], front[i]);
      }
      assert InReplayOrder(tail);
      assert Replay(messages, id, topics) == front + tail;
    }
  }

  /** What call number id has to hand over is in order. */
  ghost predicate CallOrdered(call: Call, id: nat) {
    match call
    case Publishing(_, _, snapshot, _, _) => Ascending(snapshot)
    case Subscribing(replay, _, _) => InReplayOrder(replay) && forall i :: 0 <= i < |replay| ==> replay[i].reg.sub == id
  }

  /** Handlers of one call are called in the order of its list. */
  ghost predicate CalledInOrder(s: Broker) {
    forall a, b, c: nat, k: nat, k': nat ::
      0 <= a < b < |s.invoked| && Assigned(s, Slot(c, k), s.invoked[a]) && Assigned(s, Slot(c, k'), s.invoked[b]) ==> k < k'
  }

  ghost predicate InOrder(s: Broker) {
    && HandlersOrdered(s.handlers, |s.calls|, 0)
    && (forall c :: 0 <= c < |s.calls| ==> CallOrdered(s.calls[c], c))
    && CalledInOrder(s)
  }

  /** What has been called already keeps its place in its call. */
  lemma PlacesStay(s: Broker, t: Broker)
    requires Inv(s) && Inv(t) && CalledInOrder(s) && t.invoked == s.invoked
    requires forall slot, d :: Assigned(s, slot, d) ==> Assigned(t, slot, d)
    ensures CalledInOrder(t)
  {
    forall a, b, c: nat, k: nat, k': nat | 0 <= a < b < |t.invoked|
        && Assigned(t, Slot(c, k), t.invoked[a]) && Assigned(t, Slot(c, k'), t.invoked[b])
      ensures k < k'
    {
      SameSlot(s, t, s.invoked[a], Slot(c, k));
      SameSlot(s, t, s.invoked[b], Slot(c, k'));
    }
  }

  lemma SameSlot(s: Broker, t: Broker, d: Delivery, slot: Slot)
    requires Inv(s) && Inv(t) && d in s.invoked && Assigned(t, slot, d)
    requires forall slot, d :: Assigned(s, slot, d) ==> Assigned(t, slot, d)
    ensures Assigned(s, slot, d)
  {
    assert Made(s, d);
    var was :| Assigned(s, was, d) && was.k < s.calls[was.call].next;
    assert Assigned(t, was, d);
  }

  lemma AddedCallKeepsOrder(s: Broker, t: Broker, call: Call)
    requires Inv(s) && Inv(t) && InOrder(s)
    requires t == s.(messages := t.messages, handlers := t.handlers, calls := s.calls + [call])
    requires HandlersOrdered(t.handlers, |t.calls|, 0) && CallOrdered(call, |s.calls|)
    ensures InOrder(t)
  {
    forall slot, d | Assigned(s, slot, d) ensures Assigned(t, slot, d) {
    }
    PlacesStay(s, t);
  }

  lemma PublishKeepsOrder(s: Broker, topic: string, value: Payload)
    requires Inv(s) && InOrder(s) && !s.closed
    ensures InOrder(Step(s, Publish(topic, value)))
  {
    var t := Step(s, Publish(topic, value));
    StepKeepsInv(s, Publish(topic, value));
    LaterCall(s.handlers, |s.calls|, 0);
    AddedCallKeepsOrder(s, t, t.calls[|s.calls|]);
  }

  lemma SubscribeKeepsOrder(s: Broker, topics: seq<string>)
    requires Inv(s) && InOrder(s) && !s.closed
    ensures InOrder(Step(s, Subscribe(topics)))
  {
    var t := Step(s, Subscribe(topics));
    StepKeepsInv(s, Subscribe(topics));
    JoinedOrdered(s.handlers, |s.calls|, topics);
    LaterCall(t.handlers, |s.calls|, |topics|);
    ReplayOrdered(s.messages, |s.calls|, topics);
    AddedCallKeepsOrder(s, t, t.calls[|s.calls|]);
  }

  lemma DeliverKeepsOrder(s: Broker, c: nat, ok: bool)
    requires Inv(s) && InOrder(s) && Enabled(s, Deliver(c, ok))
    ensures InOrder(Step(s, Deliver(c, ok)))
  {
    var t, call := Step(s, Deliver(c, ok)), s.calls[c];
    assert Targets(t.calls[c]) == Targets(call);
    OwnedSurvives(s, t);
    DeliveryIsNew(s, c);
    forall a, b, e: nat, k: nat, k': nat | 0 <= a < b < |t.invoked|
        && Assigned(t, Slot(e, k), t.invoked[a]) && Assigned(t, Slot(e, k'), t.invoked[b])
      ensures k < k'
    {
      if b == |s.invoked| {
        assert Slot(e, k') == Slot(c, call.next);
        assert s.invoked[a] in s.invoked;
        CalledSoFar(s, s.invoked[a], Slot(e, k));
      }
    }
    assert forall i :: 0 <= i < |t.calls| ==> CallOrdered(s.calls[i], i) ==> CallOrdered(t.calls[i], i);
  }

  lemma CalledSoFar(s: Broker, d: Delivery, slot: Slot)
    requires Inv(s) && d in s.invoked && Assigned(s, slot, d)
    ensures slot.k < s.calls[slot.call].next
  {
    assert Made(s, d);
    var was :| Assigned(s, was, d) && was.k < s.calls[was.call].next;
  }

  lemma CloseKeepsOrder(s: Broker)
    requires Inv(s) && InOrder(s)
    ensures InOrder(Step(s, Close))
  {
    var t := Step(s, Close);
    OwnedSurvives(s, t);
    StepKeepsInv(s, Close);
    PlacesStay(s, t);
  }

  lemma StepKeepsOrder(s: Broker, a: Action)
    requires Inv(s) && InOrder(s) && Enabled(s, a)
    ensures InOrder(Step(s, a))
  {
    match a {
      case Publish(topic, value) => if !s.closed { PublishKeepsOrder(s, topic, value); }
      case Subscribe(topics) => if !s.closed { SubscribeKeepsOrder(s, topics); }
      case Deliver(c, ok) => DeliverKeepsOrder(s, c, ok);
      case Close => CloseKeepsOrder(s);
    }
  }

  lemma {:induction false} RunKeepsOrder(s: Broker, run: seq<Action>)
    requires Inv(s) && InOrder(s) && Valid(s, run)
    ensures Inv(Exec(s, run)) && InOrder(Exec(s, run))
    decreases |run|
  {
    if run != [] {
      StepKeepsInv(s, run[0]);
      StepKeepsOrder(s, run[0]);
      RunKeepsOrder(Step(s, run[0]), run[1..]);
    }
  }

  /**
    The order of every call's list. In every reachable state, the snapshot of a Publish call lists registrations in
    the order they were made, each to be handed the call's own message, and the replay of a Subscribe call is for
    its own registrations, topic by topic as in its list and from the oldest message of each topic to its newest.
   */
  lemma ListsInOrder(run: seq<Action>, c: nat, i: nat, j: nat)
    requires Valid(EMPTY, run) && c < |Exec(EMPTY, run).calls|
    requires i < j < |Targets(Exec(EMPTY, run).calls[c])|
    ensures var call := Exec(EMPTY, run).calls[c]; var x, y := Targets(call)[i], Targets(call)[j];
            && (call.Publishing? ==>
                  && x == Delivery(call.snapshot[i], call.topic, call.index)
                  && y == Delivery(call.snapshot[j], call.topic, call.index)
                  && (x.reg.sub < y.reg.sub || (x.reg.sub == y.reg.sub && x.reg.slot < y.reg.slot)))
            && (call.Subscribing? ==>
                  && x == call.replay[i] && y == call.replay[j] && x.reg.sub == y.reg.sub == c
                  && (x.reg.slot < y.reg.slot || (x.reg.slot == y.reg.slot && x.index < y.index)))
  {
    RunKeepsInv(EMPTY, []);
    RunKeepsOrder(EMPTY, run);
    assert CallOrdered(Exec(EMPTY, run).calls[c], c);
  }

  /**
    And the order of the handler calls themselves, under every interleaving. Of two handler calls that the same
    Publish has made, the one for the earlier registration came first; of two that the same Subscribe has made, the
    one for the topic further up its list, or for the older message of one topic.
   */
  lemma HandedInOrder(run: seq<Action>, a: nat, b: nat, c: nat, k: nat, k': nat)
    requires Valid(EMPTY, run) && a < b < |Exec(EMPTY, run).invoked|
    requires Assigned(Exec(EMPTY, run), Slot(c, k), Exec(EMPTY, run).invoked[a])
    requires Assigned(Exec(EMPTY, run), Slot(c, k'), Exec(EMPTY, run).invoked[b])
    ensures k < k'
    ensures var s := Exec(EMPTY, run); var x, y := s.invoked[a], s.invoked[b];
            if s.calls[c].Publishing? then
              && x.topic == y.topic == s.calls[c].topic && x.index == y.index == s.calls[c].index
              && (x.reg.sub < y.reg.sub || (x.reg.sub == y.reg.sub && x.reg.slot < y.reg.slot))
            else
              && x.reg.sub == y.reg.sub == c
              && (x.reg.slot < y.reg.slot || (x.reg.slot == y.reg.slot && x.index < y.index))
  {
    RunKeepsInv(EMPTY, []);
    RunKeepsOrder(EMPTY, run);
    ListsInOrder(run, c, k, k');
  }

  /**
    A closed broker stays closed and takes on nothing new: no message, no registration, no call. The calls that are
    past their critical section still hand over what they have.
   */
  lemma {:induction false} ClosedForGood(s: Broker, run: seq<Action>)
    requires s.closed && Valid(s, run)
    ensures var t := Exec(s, run);
            && t.closed && t.messages == s.messages && t.handlers == s.handlers && |t.calls| == |s.calls|
            && forall c :: 0 <= c < |s.calls| ==> Targets(t.calls[c]) == Targets(s.calls[c])
    decreases |run|
  {
    if run != [] {
      var s1 := Step(s, run[0]);
      assert forall c :: 0 <= c < |s.calls| ==> Targets(s1.calls[c]) == Targets(s.calls[c]);
      ClosedForGood(s1, run[1..]);
    }
  }
}
