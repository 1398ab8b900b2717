/**
  Publish, Subscribe, Messages and Close of the in-memory broker as they are written. Wherever a call does not
  hold the lock, other calls may take any number of steps; whatever they do, the code is a run of the protocol.
  fails tells which handler calls return an error.
 */
module MemoryBrokerProgram {
  import opened Results
  import opened Schema
  import opened MemoryBroker
  import opened MemoryBrokerOrder

  datatype BusError = NilHandler | ContextDone | Rejected(error: Error) | BrokerClosed | HandlerFailed

  /** What the others do in the k-th stretch without the lock. */
  function Stretch<T>(others: seq<seq<T>>, k: nat): (r: seq<T>) {
    if k < |others| then others[k] else []
  }

  /** The first n stretches in one. */
  function Flat<T>(others: seq<seq<T>>, n: nat): (r: seq<T>) {
    if n == 0 then [] else Flat(others, n - 1) + Stretch(others, n - 1)
  }

  lemma {:induction false} FlatOfNone<T>(n: nat)
    ensures Flat<T>([], n) == []
  {
    if n > 0 { FlatOfNone<T>(n - 1); }
  }

  /** All but the first stretch. */
  function Later<T>(others: seq<seq<T>>): (r: seq<seq<T>>) { if others == [] then [] else others[1..] }

  // ---------- what the others do ----------

  /** One step of another call, that is, of any but number own; a step that is not possible does not happen. */
  function OtherOn(s: Broker, own: Option<nat>, a: Action): (t: Broker) {
    if Enabled(s, a) && !(a.Deliver? && own == Some(a.call)) then Step(s, a) else s
  }

  /** A stretch without the lock for call number own, or for a call that has no number yet. */
  function OthersOn(s: Broker, own: Option<nat>, actions: seq<Action>): (t: Broker) {
    if actions == [] then s
    else OtherOn(OthersOn(s, own, actions[..|actions| - 1]), own, actions[|actions| - 1])
  }

  /** A stretch of the others and then a handler call of call number id. */
  function HandOn(s: Broker, id: nat, ok: bool, between: seq<Action>): (t: Broker) {
    OtherOn(OthersOn(s, Some(id), between), None, Deliver(id, ok))
  }

  /** Call number id makes its first n handler calls, a stretch of the others before each of them. */
  function HandedOn(s: Broker, id: nat, well: seq<bool>, others: seq<seq<Action>>, n: nat): (t: Broker)
    requires n <= |well|
  {
    if n == 0 then s
    else HandOn(HandedOn(s, id, well, others, n - 1), id, well[n - 1], Stretch(others, n - 1))
  }

  // ---------- runs ----------

  /** The run leads from s to t. */
  ghost predicate Reaches(s: Broker, run: seq<Action>, t: Broker) { Valid(s, run) && Exec(s, run) == t }

  lemma Joining(s: Broker, a: seq<Action>, t: Broker, b: seq<Action>, u: Broker)
    requires Reaches(s, a, t) && Reaches(t, b, u)
    ensures Reaches(s, a + b, u)
  {
    ExecAppend(s, a, b);
  }

  lemma OneStep(s: Broker, a: Action)
    requires Enabled(s, a)
    ensures Reaches(s, [a], Step(s, a))
  {
    assert [a][1..] == [];
  }

  lemma {:induction false} OthersRun(s: Broker, own: Option<nat>, actions: seq<Action>) returns (run: seq<Action>)
    ensures Does(s, run, actions, OthersOn(s, own, actions))
    decreases |actions|
  {
    if actions == [] {
      run := [];
    } else {
      var front, a := actions[..|actions| - 1], actions[|actions| - 1];
      assert actions == front + [a];
      var t := OthersOn(s, own, front);
      run := OthersRun(s, own, front);
      var step := OtherRun(t, own, a);
      DoesMore(s, run, front, t, step, [a], OtherOn(t, own, a));
      run := run + step;
    }
  }

  lemma OtherRun(s: Broker, own: Option<nat>, a: Action) returns (run: seq<Action>)
    ensures Does(s, run, [a], OtherOn(s, own, a))
  {
    EffectsOfOne(a);
    if OtherOn(s, own, a) == s && a.Deliver? {
      run := [];
    } else {
      run := [a];
      OneStep(s, a);
    }
  }

  /** Handler calls, with whatever the others do between them, are a run of the protocol. */
  lemma {:induction false} HandedRun(s: Broker, id: nat, well: seq<bool>, others: seq<seq<Action>>, n: nat)
    returns (run: seq<Action>)
    requires n <= |well|
    ensures Does(s, run, Flat(others, n), HandedOn(s, id, well, others, n))
    decreases n
  {
    if n == 0 {
      run := [];
    } else {
      var t := HandedOn(s, id, well, others, n - 1);
      var u := OthersOn(t, Some(id), Stretch(others, n - 1));
      var a := Deliver(id, well[n - 1]);
      run := HandedRun(s, id, well, others, n - 1);
      var between := OthersRun(t, Some(id), Stretch(others, n - 1));
      DoesMore(s, run, Flat(others, n - 1), t, between, Stretch(others, n - 1), u);
      var step := OtherRun(u, None, a);
      EffectsOfOne(a);
      DoesMore(s, run + between, Flat(others, n), u, step, [], OtherOn(u, None, a));
      assert Flat(others, n) + [] == Flat(others, n);
      run := run + between + step;
    }
  }

  // ---------- what is never taken away ----------

  /** Topics, registrations and the list of calls only grow, and closed means closed. */
  ghost predicate Grows(s: Broker, t: Broker) {
    && (forall topic :: Get(s.messages, topic) <= Get(t.messages, topic))
    && (forall topic :: Get(s.handlers, topic) <= Get(t.handlers, topic))
    && |s.calls| <= |t.calls|
    && (s.closed ==> t.closed)
  }

  lemma {:induction false} JoinedGrows(handlers: map<string, seq<Reg>>, id: nat, topics: seq<string>, topic: string)
    ensures Get(handlers, topic) <= Get(Joined(handlers, id, topics), topic)
    decreases |topics|
  {
    if topics != [] { JoinedGrows(handlers, id, topics[..|topics| - 1], topic); }
  }

  lemma StepGrows(s: Broker, a: Action)
    requires Enabled(s, a)
    ensures Grows(s, Step(s, a))
  {
    if a.Subscribe? {
      forall topic ensures Get(s.handlers, topic) <= Get(Step(s, a).handlers, topic) {
        JoinedGrows(s.handlers, |s.calls|, a.topics, topic);
      }
    }
  }

  lemma {:induction false} RunGrows(s: Broker, run: seq<Action>)
    requires Valid(s, run)
    ensures Grows(s, Exec(s, run))
    decreases |run|
  {
    if run != [] {
      var t, u := Step(s, run[0]), Exec(s, run);
      StepGrows(s, run[0]);
      RunGrows(t, run[1..]);
      forall topic
        ensures Get(s.messages, topic) <= Get(u.messages, topic) && Get(s.handlers, topic) <= Get(u.handlers, topic)
      {
        assert Get(s.messages, topic) <= Get(t.messages, topic) <= Get(u.messages, topic);
        assert Get(s.handlers, topic) <= Get(t.handlers, topic) <= Get(u.handlers, topic);
      }
    }
  }

  // ---------- what a run does to the topics ----------

  /** The actions but for the handler calls. */
  function Effects(actions: seq<Action>): (r: seq<Action>) {
    if actions == [] then []
    else
      var front, last := actions[..|actions| - 1], actions[|actions| - 1];
      if last.Deliver? then Effects(front) else Effects(front) + [last]
  }

  lemma {:induction false} EffectsConcat(a: seq<Action>, b: seq<Action>)
    ensures Effects(a + b) == Effects(a) + Effects(b)
    decreases |b|
  {
    if b == [] {
      assert a + b == a;
    } else {
      assert (a + b)[..|a + b| - 1] == a + b[..|b| - 1];
      EffectsConcat(a, b[..|b| - 1]);
    }
  }

  lemma EffectsOfOne(a: Action)
    ensures Effects([a]) == if a.Deliver? then [] else [a]
  {
    assert [a][..0] == [];
  }

  /** The run leads from s to t and has the effects of the actions, handler calls apart. */
  ghost predicate Does(s: Broker, run: seq<Action>, actions: seq<Action>, t: Broker) {
    Reaches(s, run, t) && Effects(run) == Effects(actions)
  }

  lemma DoesMore(s: Broker, run: seq<Action>, a: seq<Action>, t: Broker, step: seq<Action>, b: seq<Action>, u: Broker)
    requires Does(s, run, a, t) && Does(t, step, b, u)
    ensures Does(s, run + step, a + b, u)
  {
    Joining(s, run, t, step, u);
    EffectsConcat(run, step);
    EffectsConcat(a, b);
  }

  /** The broker is closed after the actions. */
  function ClosedBy(closed: bool, actions: seq<Action>): (r: bool)
    decreases |actions|
  {
    if actions == [] then closed else ClosedBy(closed || actions[0].Close?, actions[1..])
  }

  /** What the actions append to the topic of a broker that is closed or not at their beginning. */
  function ValuesOn(topic: string, closed: bool, actions: seq<Action>): (r: seq<Payload>)
    decreases |actions|
  {
    if actions == [] then []
    else
      var rest := ValuesOn(topic, closed || actions[0].Close?, actions[1..]);
      if actions[0].Publish? && actions[0].topic == topic && !closed then [actions[0].value] + rest else rest
  }

  /** Handler calls do not count. */
  lemma {:induction false} ValuesOfEffects(topic: string, closed: bool, actions: seq<Action>)
    ensures ClosedBy(closed, Effects(actions)) == ClosedBy(closed, actions)
    ensures ValuesOn(topic, closed, Effects(actions)) == ValuesOn(topic, closed, actions)
    decreases |actions|
  {
    if actions != [] {
      var a, rest := actions[0], actions[1..];
      assert actions == [a] + rest;
      EffectsConcat([a], rest);
      EffectsOfOne(a);
      ValuesOfEffects(topic, closed || a.Close?, rest);
      if !a.Deliver? {
        assert ([a] + Effects(rest))[0] == a && ([a] + Effects(rest))[1..] == Effects(rest);
      } else {
        assert [] + Effects(rest) == Effects(rest);
      }
    }
  }

  lemma StepAppends(s: Broker, a: Action, topic: string)
    requires Enabled(s, a)
    ensures Step(s, a).closed == (s.closed || a.Close?)
    ensures Get(Step(s, a).messages, topic)
         == Get(s.messages, topic) + if a.Publish? && a.topic == topic && !s.closed then [a.value] else []
  {
  }

  /** A run appends to a topic what its actions say, and nothing else. */
  lemma {:induction false} RunAppends(s: Broker, run: seq<Action>, topic: string)
    requires Valid(s, run)
    ensures Exec(s, run).closed == ClosedBy(s.closed, run)
    ensures Get(Exec(s, run).messages, topic) == Get(s.messages, topic) + ValuesOn(topic, s.closed, run)
    decreases |run|
  {
    if run != [] {
      StepAppends(s, run[0], topic);
      RunAppends(Step(s, run[0]), run[1..], topic);
    }
  }

  /** And so it appends what the actions it stands for say. */
  lemma DoesAppends(s: Broker, run: seq<Action>, actions: seq<Action>, t: Broker, topic: string)
    requires Does(s, run, actions, t)
    ensures t.closed == ClosedBy(s.closed, actions)
    ensures Get(t.messages, topic) == Get(s.messages, topic) + ValuesOn(topic, s.closed, actions)
  {
    RunAppends(s, run, topic);
    ValuesOfEffects(topic, s.closed, run);
    ValuesOfEffects(topic, s.closed, actions);
  }

  // ---------- handler calls ----------

  /** The call when it has made n of its deliveries, all well but perhaps the last; its targets stay the same. */
  function Progressed(call: Call, n: nat, ok: bool): (r: Call)
    ensures Size(r) == Size(call) && r.next == n && r.failed == !ok
  {
    call.(next := n, failed := !ok)
  }

  /** The first few handler calls were made: all of them, and well, or up to the first that goes wrong. */
  ghost predicate Stops(well: seq<bool>, called: nat, ok: bool) {
    && called <= |well|
    && (ok ==> called == |well| && forall k :: 0 <= k < called ==> well[k])
    && (!ok ==> called > 0 && !well[called - 1] && forall k :: 0 <= k < called - 1 ==> well[k])
  }

  /** The same for a list of deliveries and the handlers that fail. */
  ghost predicate Dispatched(targets: seq<Delivery>, called: nat, fails: Delivery -> bool, ok: bool) {
    && called <= |targets|
    && (ok ==> called == |targets| && forall k :: 0 <= k < called ==> !fails(targets[k]))
    && (!ok ==> called > 0 && fails(targets[called - 1]) && forall k :: 0 <= k < called - 1 ==> !fails(targets[k]))
  }

  /** Which of the handler calls on a list of deliveries go well. */
  function Outcomes(targets: seq<Delivery>, fails: Delivery -> bool): (r: seq<bool>)
    ensures |r| == |targets| && forall k :: 0 <= k < |r| ==> r[k] == !fails(targets[k])
  {
    seq(|targets|, k requires 0 <= k < |targets| => !fails(targets[k]))
  }

  /** The others leave a call alone that is not theirs. */
  lemma {:induction false} OthersKeep(s: Broker, id: nat, actions: seq<Action>)
    requires id < |s.calls|
    ensures var t := OthersOn(s, Some(id), actions); |s.calls| <= |t.calls| && t.calls[id] == s.calls[id]
    decreases |actions|
  {
    if actions != [] { OthersKeep(s, id, actions[..|actions| - 1]); }
  }

  lemma HandOnCall(s: Broker, id: nat, ok: bool, between: seq<Action>)
    requires id < |s.calls| && Pending(s.calls[id])
    ensures var t := HandOn(s, id, ok, between);
            |s.calls| <= |t.calls| && t.calls[id] == Progressed(s.calls[id], s.calls[id].next + 1, ok)
  {
    OthersKeep(s, id, between);
  }

  lemma HandedPending(s: Broker, id: nat, well: seq<bool>, others: seq<seq<Action>>, n: nat)
    requires id < |s.calls| && s.calls[id].next == 0 && !s.calls[id].failed && n < Size(s.calls[id]) == |well|
    requires forall k :: 0 <= k < n ==> well[k]
    ensures var t := HandedOn(s, id, well, others, n); id < |t.calls| && Pending(t.calls[id])
  {
    HandedCall(s, id, well, others, n);
  }

  /** So call number id is as far as its own handler calls have brought it. */
  lemma {:induction false} HandedCall(s: Broker, id: nat, well: seq<bool>, others: seq<seq<Action>>, n: nat)
    requires id < |s.calls| && s.calls[id].next == 0 && !s.calls[id].failed && n <= Size(s.calls[id]) == |well|
    requires forall k :: 0 <= k < n - 1 ==> well[k]
    ensures var t := HandedOn(s, id, well, others, n);
            |s.calls| <= |t.calls| && t.calls[id] == Progressed(s.calls[id], n, n == 0 || well[n - 1])
    decreases n
  {
    if n > 0 {
      HandedCall(s, id, well, others, n - 1);
      HandOnCall(HandedOn(s, id, well, others, n - 1), id, well[n - 1], Stretch(others, n - 1));
    }
  }

  /** From state mid a Publish has appended the value and called the handlers registered then, one by one. */
  ghost predicate Published(mid: Broker, topic: string, value: Payload, fails: Delivery -> bool,
                            others: seq<seq<Action>>, called: nat, ok: bool, t: Broker)
    requires !mid.closed
  {
    var index, snapshot := |Get(mid.messages, topic)|, Get(mid.handlers, topic);
    var targets := Snapshot(snapshot, topic, index);
    && called <= |targets|
    && t == HandedOn(Step(mid, MemoryBroker.Publish(topic, value)), |mid.calls|, Outcomes(targets, fails), others, called)
    && |mid.calls| < |t.calls| && t.calls[|mid.calls|] == Publishing(topic, index, snapshot, called, !ok)
    && Dispatched(targets, called, fails, ok)
  }

  /** From state mid a Subscribe has registered everywhere and replayed what the topics held then, one by one. */
  ghost predicate Subscribed(mid: Broker, names: seq<string>, fails: Delivery -> bool, others: seq<seq<Action>>,
                             called: nat, ok: bool, t: Broker)
    requires !mid.closed
  {
    var replay := Replay(mid.messages, |mid.calls|, names);
    && called <= |replay|
    && t == HandedOn(Step(mid, MemoryBroker.Subscribe(names)), |mid.calls|, Outcomes(replay, fails), others, called)
    && |mid.calls| < |t.calls| && t.calls[|mid.calls|] == Subscribing(replay, called, !ok)
    && Dispatched(replay, called, fails, ok)
  }

  // ---------- what follows from it ----------

  /**
    A call that goes on from state mid is a run of the protocol, from where the others began: what they do first,
    its own step, and then its handler calls with the others in between, whose effects, calls of handlers apart,
    are just those of their stretches.
   */
  lemma CallIsARun(s: Broker, first: seq<Action>, a: Action, id: nat, well: seq<bool>, others: seq<seq<Action>>, called: nat)
    returns (run: seq<Action>)
    requires !a.Deliver? && called <= |well|
    ensures var mid := OthersOn(s, None, first);
            && Reaches(s, run, HandedOn(Step(mid, a), id, well, others, called))
            && Effects(run) == Effects(first) + [a] + Effects(Flat(others, called))
  {
    var mid := OthersOn(s, None, first);
    var before := OthersRun(s, None, first);
    var after := HandedRun(Step(mid, a), id, well, others, called);
    OneStep(mid, a);
    EffectsOfOne(a);
    Joining(s, before, mid, [a], Step(mid, a));
    EffectsConcat(before, [a]);
    Joining(s, before + [a], Step(mid, a), after, HandedOn(Step(mid, a), id, well, others, called));
    EffectsConcat(before + [a], after);
    run := before + [a] + after;
  }

  /** Whatever the others do, topics and registrations only grow. */
  lemma HandedGrows(s: Broker, id: nat, well: seq<bool>, others: seq<seq<Action>>, n: nat)
    requires n <= |well|
    ensures Grows(s, HandedOn(s, id, well, others, n))
  {
    var run := HandedRun(s, id, well, others, n);
    RunGrows(s, run);
  }

  /** What a stretch, and what the stretches between handler calls, append to a topic. */
  lemma OthersAppend(s: Broker, own: Option<nat>, actions: seq<Action>, topic: string)
    ensures var t := OthersOn(s, own, actions);
            && t.closed == ClosedBy(s.closed, actions)
            && Get(t.messages, topic) == Get(s.messages, topic) + ValuesOn(topic, s.closed, actions)
  {
    var run := OthersRun(s, own, actions);
    DoesAppends(s, run, actions, OthersOn(s, own, actions), topic);
  }

  lemma HandedAppend(s: Broker, id: nat, well: seq<bool>, others: seq<seq<Action>>, n: nat, topic: string)
    requires n <= |well|
    ensures var t := HandedOn(s, id, well, others, n);
            && t.closed == ClosedBy(s.closed, Flat(others, n))
            && Get(t.messages, topic) == Get(s.messages, topic) + ValuesOn(topic, s.closed, Flat(others, n))
  {
    var run := HandedRun(s, id, well, others, n);
    DoesAppends(s, run, Flat(others, n), HandedOn(s, id, well, others, n), topic);
  }

  /** Undisturbed, handler calls leave the topics and the registrations alone. */
  lemma {:induction false} HandedAlone(s: Broker, id: nat, well: seq<bool>, n: nat)
    requires n <= |well|
    ensures var t := HandedOn(s, id, well, [], n);
            t.messages == s.messages && t.handlers == s.handlers && t.closed == s.closed
    decreases n
  {
    if n > 0 { HandedAlone(s, id, well, n - 1); }
  }

  /** A Subscribe that got in is registered on every topic of its list. */
  lemma SubscribedEverywhere(mid: Broker, names: seq<string>, fails: Delivery -> bool, others: seq<seq<Action>>,
                             called: nat, ok: bool, t: Broker)
    requires !mid.closed && Subscribed(mid, names, fails, others, called, ok, t)
    ensures forall i :: 0 <= i < |names| ==> Reg(|mid.calls|, i) in Get(t.handlers, names[i])
  {
    var s, id := Step(mid, MemoryBroker.Subscribe(names)), |mid.calls|;
    HandedGrows(s, id, Outcomes(Replay(mid.messages, id, names), fails), others, called);
    forall i | 0 <= i < |names| ensures Reg(id, i) in Get(t.handlers, names[i]) {
      JoinedHandlers(mid.handlers, id, names, names[i], Reg(id, i));
      assert Get(s.handlers, names[i]) <= Get(t.handlers, names[i]);
    }
  }

  /**
    The list is what a Subscribe call with number id replays on these topics: for every mention of a topic every
    message it holds, in the order of the mentions and from the oldest message to the newest.
   */
  ghost predicate ReplaysAll(messages: map<string, seq<Payload>>, id: nat, names: seq<string>, replay: seq<Delivery>) {
    && InReplayOrder(replay)
    && forall d :: d in replay <==>
         d.reg.sub == id && d.reg.slot < |names| && names[d.reg.slot] == d.topic && d.index < |Get(messages, d.topic)|
  }

  lemma ReplayIsAll(messages: map<string, seq<Payload>>, id: nat, names: seq<string>)
    ensures ReplaysAll(messages, id, names, Replay(messages, id, names))
  {
    ReplayOrdered(messages, id, names);
    forall d ensures d in Replay(messages, id, names) <==>
        d.reg.sub == id && d.reg.slot < |names| && names[d.reg.slot] == d.topic && d.index < |Get(messages, d.topic)|
    {
      ReplayItems(messages, id, names, d);
    }
  }

  class Memory {
    var closed: bool
    var topics: map<string, seq<Payload>>
    var handlers: map<string, seq<Reg>>
    ghost var calls: seq<Call>
    ghost var invoked: seq<Delivery>
    var nextCall: nat

    ghost predicate Consistent()
      reads this
    {
      nextCall == |calls|
    }

    ghost function Abs(): (s: Broker)
      reads this
    {
      Broker(closed, topics, handlers, calls, invoked)
    }

    constructor ()
      ensures Consistent() && Abs() == EMPTY
    {
      closed, topics, handlers, nextCall := false, map[], map[], 0;
      calls, invoked := [], [];
    }

    /** The critical section of Publish: append the message and copy the handler list. */
    method PublishLocked(topic: string, value: Payload) returns (snapshot: seq<Reg>)
      requires Consistent() && !closed
      modifies this
      ensures Consistent() && Abs() == Step(old(Abs()), MemoryBroker.Publish(topic, value))
      ensures snapshot == Get(handlers, topic) && nextCall == old(nextCall) + 1
      ensures calls[old(nextCall)] == Publishing(topic, |old(Get(topics, topic))|, snapshot, 0, false)
    {
      snapshot := Get(handlers, topic);
      ghost var call := Publishing(topic, |Get(topics, topic)|, snapshot, 0, false);
      topics := topics[topic := Get(topics, topic) + [value]];
      calls := calls + [call];
      nextCall := nextCall + 1;
    }

    /** The critical section of Subscribe: one registration and one stretch of replay per topic of the list. */
    method SubscribeLocked(names: seq<string>) returns (replay: seq<Delivery>)
      requires Consistent() && !closed
      modifies this
      ensures Consistent() && Abs() == Step(old(Abs()), MemoryBroker.Subscribe(names))
      ensures nextCall == old(nextCall) + 1 && calls[old(nextCall)] == Subscribing(replay, 0, false)
    {
      replay := [];
      for j := 0 to |names|
        invariant handlers == Joined(old(handlers), nextCall, names[..j])
        invariant replay == Replay(topics, nextCall, names[..j])
        invariant unchanged(`closed, `topics, `calls, `invoked, `nextCall)
      {
        assert names[..j + 1][..j] == names[..j];
        var topic := names[j];
        handlers := handlers[topic := Get(handlers, topic) + [Reg(nextCall, j)]];
        replay := replay + ReplayOf(topics, Reg(nextCall, j), topic);
      }
      assert names[..|names|] == names;
      ghost var call := Subscribing(replay, 0, false);
      calls := calls + [call];
      nextCall := nextCall + 1;
    }

    /** One handler call on behalf of call id. */
    ghost method Hand(id: nat, ok: bool)
      requires Consistent() && id < |calls| && Pending(calls[id])
      modifies `calls, `invoked
      ensures Consistent() && Abs() == Step(old(Abs()), Deliver(id, ok))
    {
      var call := calls[id];
      invoked := invoked + [Due(call)];
      calls := calls[id := if ok then call.(next := call.next + 1) else call.(next := call.next + 1, failed := true)];
    }

    method Other(own: Option<nat>, a: Action)
      requires Consistent()
      modifies this
      ensures Consistent() && Abs() == OtherOn(old(Abs()), own, a)
    {
      if a.Close? {
        closed := true;
      } else if a.Deliver? {
        if own != Some(a.call) && a.call < |calls| && Pending(calls[a.call]) {
          Hand(a.call, a.ok);
        }
      } else if a.Publish? && !closed {
        var _ := PublishLocked(a.topic, a.value);
      } else if a.Subscribe? && !closed {
        var _ := SubscribeLocked(a.topics);
      }
    }

    method Others(own: Option<nat>, actions: seq<Action>)
      requires Consistent()
      modifies this
      ensures Consistent() && Abs() == OthersOn(old(Abs()), own, actions)
    {
      for k := 0 to |actions|
        invariant Consistent() && Abs() == OthersOn(old(Abs()), own, actions[..k])
      {
        Other(own, actions[k]);
        assert actions[..k + 1][..k] == actions[..k];
      }
      assert actions[..|actions|] == actions;
    }

    /** The next handler call of call number id, after whatever the others do before it. */
    method CallHandler(id: nat, ok: bool, between: seq<Action>)
      requires Consistent() && id < |calls| && Pending(calls[id])
      modifies this
      ensures Consistent() && Abs() == HandOn(old(Abs()), id, ok, between)
    {
      OthersKeep(Abs(), id, between);
      Others(Some(id), between);
      Hand(id, ok);
    }

    /**
      The handler calls of call number id, one after the other until one fails; well says which do not, and
      called how many were made.
     */
    method CallHandlers(id: nat, well: seq<bool>, others: seq<seq<Action>>) returns (ok: bool, called: nat)
      requires Consistent() && id < |calls| && Size(calls[id]) == |well| && calls[id].next == 0 && !calls[id].failed
      modifies this
      ensures Consistent() && Stops(well, called, ok) && Abs() == HandedOn(old(Abs()), id, well, others, called)
    {
      called, ok := 0, true;
      ghost var s0 := Abs();
      while ok && called < |well|
        invariant called <= |well| && Consistent() && Abs() == HandedOn(s0, id, well, others, called)
        invariant ok ==> forall k :: 0 <= k < called ==> well[k]
        invariant !ok ==> Stops(well, called, ok)
        decreases |well| - called
      {
        HandedPending(s0, id, well, others, called);
        ok := well[called];
        CallHandler(id, ok, Stretch(others, called));
        called := called + 1;
      }
    }

    /**
      Publish, with other calls in between. It fails without a step when the context is done or the event cannot
      be encoded. Otherwise it gets the lock in state mid, after what the others do first: when the broker is
      closed by then it stops there; else, in one step, the message goes to the end of the topic as it is in mid,
      and the handlers registered in mid, and no others, are called in order until one fails, the others doing in
      each stretch what they do. The error says whether one failed.
     */
    method Publish(done: bool, topic: string, event: LogEvent, fails: Delivery -> bool, others: seq<seq<Action>>)
      returns (err: Option<BusError>, called: nat)
      requires Consistent()
      modifies this
      ensures Consistent()
      ensures done ==> err == Some(ContextDone) && Abs() == old(Abs())
      ensures !done && MarshalEvent(event).Err? ==> err == Some(Rejected(MarshalEvent(event).error)) && Abs() == old(Abs())
      ensures !done && MarshalEvent(event).Ok? ==>
                var mid := OthersOn(old(Abs()), None, Stretch(others, 0));
                && (mid.closed <==> err == Some(BrokerClosed)) && (mid.closed ==> Abs() == mid)
                && (!mid.closed ==> err.None? || err.value.HandlerFailed?)
                && (!mid.closed ==> Published(mid, topic, MarshalEvent(event).value, fails, Later(others), called,
                                              err.None?, Abs()))
      ensures others == [] && !done && MarshalEvent(event).Ok? && !old(closed) ==>
                && topics == old(topics)[topic := Get(old(topics), topic) + [MarshalEvent(event).value]]
                && handlers == old(handlers) && !closed
    {
      called := 0;
      if done {
        return Some(ContextDone), called;
      }
      var payload := MarshalEvent(event);
      if payload.Err? {
        return Some(Rejected(payload.error)), called;
      }
      Others(None, Stretch(others, 0));
      if closed {
        return Some(BrokerClosed), called;
      }
      var id, index := nextCall, |Get(topics, topic)|;
      var snapshot := PublishLocked(topic, payload.value);
      var targets := Snapshot(snapshot, topic, index);
      var ok;
      ghost var s := Abs();
      ok, called := CallHandlers(id, Outcomes(targets, fails), Later(others));
      HandedCall(s, id, Outcomes(targets, fails), Later(others), called);
      HandedAlone(s, id, Outcomes(targets, fails), called);
      err := if ok then None else Some(HandlerFailed);
    }

    /**
      Subscribe, with other calls in between. A nil handler and a done context are refused without a step. It
      gets the lock in state mid, after what the others do first: when the broker is closed by then it stops
      there; else, in one step, it registers on every topic of the list and takes what the topics hold in mid,
      which it then replays in order until the handler fails.
     */
    method Subscribe(nilHandler: bool, done: bool, names: seq<string>, fails: Delivery -> bool, others: seq<seq<Action>>)
      returns (err: Option<BusError>, called: nat)
      requires Consistent()
      modifies this
      ensures Consistent()
      ensures nilHandler ==> err == Some(NilHandler) && Abs() == old(Abs())
      ensures !nilHandler && done ==> err == Some(ContextDone) && Abs() == old(Abs())
      ensures !nilHandler && !done ==>
                var mid := OthersOn(old(Abs()), None, Stretch(others, 0));
                && (mid.closed <==> err == Some(BrokerClosed)) && (mid.closed ==> Abs() == mid)
                && (!mid.closed ==> err.None? || err.value.HandlerFailed?)
                && (!mid.closed ==>
                      && Subscribed(mid, names, fails, Later(others), called, err.None?, Abs())
                      && calls[|mid.calls|].Subscribing?
                      && ReplaysAll(mid.messages, |mid.calls|, names, calls[|mid.calls|].replay)
                      && forall i :: 0 <= i < |names| ==> Reg(|mid.calls|, i) in Get(handlers, names[i]))
      ensures others == [] && !nilHandler && !done && !old(closed) ==>
                topics == old(topics) && handlers == Joined(old(handlers), old(nextCall), names) && !closed
    {
      called := 0;
      if nilHandler {
        return Some(NilHandler), called;
      }
      if done {
        return Some(ContextDone), called;
      }
      Others(None, Stretch(others, 0));
      ghost var mid := Abs();
      if closed {
        return Some(BrokerClosed), called;
      }
      var id := nextCall;
      var replay := SubscribeLocked(names);
      var ok;
      ghost var s := Abs();
      ok, called := CallHandlers(id, Outcomes(replay, fails), Later(others));
      HandedCall(s, id, Outcomes(replay, fails), Later(others), called);
      HandedAlone(s, id, Outcomes(replay, fails), called);
      ReplayIsAll(mid.messages, id, names);
      SubscribedEverywhere(mid, names, fails, Later(others), called, ok, Abs());
      err := if ok then None else Some(HandlerFailed);
    }

    method Messages(topic: string) returns (out: seq<Payload>)
      ensures out == Get(topics, topic)
    {
      out := Get(topics, topic);
    }

    method Close()
      modifies `closed
      ensures Abs() == Step(old(Abs()), MemoryBroker.Close)
    {
      closed := true;
    }
  }
}
