/**
  publishEvents and the two ingest handlers of the gateway as they are written, over the in-memory broker. A
  request starts from its decoded body. Between any two of its steps, and within each call of the broker, other
  requests, the writer and other users of the broker may take any number of theirs; whatever they do, a handler
  is a run of the system of EndToEnd, with one partition.
 */
module GatewayProgram {
  import opened Results
  import opened Text
  import opened Schema
  import opened Otlp
  import opened PartitionedLog
  import MemoryBroker
  import opened MemoryBrokerProgram
  import W = WriterMachine
  import E = EndToEnd
  import opened Surroundings

  function Get(m: map<string, seq<Payload>>, topic: string): (r: seq<Payload>) { MemoryBroker.Get(m, topic) }

  /** The payloads are the encodings of the events, in order. */
  predicate Encodes(events: seq<LogEvent>, payloads: seq<Payload>) {
    |payloads| == |events| && forall i :: 0 <= i < |events| ==> MarshalEvent(events[i]) == Ok(payloads[i])
  }

  /** The topic grew by the encodings of the events, in order. */
  predicate Adds(before: seq<Payload>, events: seq<LogEvent>, after: seq<Payload>) {
    before <= after && Encodes(events, after[|before|..])
  }

  lemma EncodesJoin(x: seq<LogEvent>, v: seq<Payload>, y: seq<LogEvent>, w: seq<Payload>)
    requires Encodes(x, v) && Encodes(y, w)
    ensures Encodes(x + y, v + w)
  {
    forall i | 0 <= i < |x + y| ensures MarshalEvent((x + y)[i]) == Ok((v + w)[i]) {
      if i < |x| {
        assert (x + y)[i] == x[i];
      } else {
        assert (x + y)[i] == y[i - |x|];
      }
    }
  }

  lemma AddsJoin(a: seq<Payload>, x: seq<LogEvent>, b: seq<Payload>, y: seq<LogEvent>, d: seq<Payload>)
    requires Adds(a, x, b) && Adds(b, y, d)
    ensures Adds(a, x + y, d)
  {
    EncodesJoin(x, b[|a|..], y, d[|b|..]);
    assert d[|a|..] == b[|a|..] + d[|b|..];
  }

  lemma AddsOne(before: seq<Payload>, e: LogEvent, v: Payload)
    requires MarshalEvent(e) == Ok(v)
    ensures Adds(before, [e], before + [v])
  {
    assert (before + [v])[|before|..] == [v];
  }

  /** Publish has appended the message: it succeeded, or a handler failed afterwards. */
  predicate Appends(err: Option<BusError>) { err.None? || err.value.HandlerFailed? }

  /** Why a Publish fails, in the order in which it looks: only the first of these can be the reason. */
  ghost predicate Because(error: BusError, done: bool, payload: Result<Payload, Error>,
                          fails: MemoryBroker.Delivery -> bool, closed: bool) {
    match error
    case ContextDone => done
    case Rejected(e) => !done && payload == Err(e)
    case BrokerClosed => !done && payload.Ok? && closed
    case HandlerFailed => !done && payload.Ok? && exists d :: fails(d)
    case NilHandler => false
  }

  /** A Publish that reports a failed handler has called one that fails. */
  lemma HandlerDidFail(mid: MemoryBroker.Broker, topic: string, value: Payload, fails: MemoryBroker.Delivery -> bool,
                       others: seq<seq<MemoryBroker.Action>>, called: nat, t: MemoryBroker.Broker)
    requires !mid.closed && Published(mid, topic, value, fails, others, called, false, t)
    ensures exists d :: fails(d)
  {
  }

  /** Publishing stops at event k for one of these reasons. */
  ghost predicate StoppedAt(done: nat -> bool, events: seq<LogEvent>, k: nat,
                            fails: MemoryBroker.Delivery -> bool, closed: bool) {
    k < |events| && exists error :: Because(error, done(k), MarshalEvent(events[k]), fails, closed)
  }

  lemma StillStopped(error: BusError, done: nat -> bool, events: seq<LogEvent>, k: nat,
                     fails: MemoryBroker.Delivery -> bool, closed: bool, closed': bool)
    requires k < |events| && Because(error, done(k), MarshalEvent(events[k]), fails, closed) && (closed ==> closed')
    ensures StoppedAt(done, events, k, fails, closed')
  {
    assert Because(error, done(k), MarshalEvent(events[k]), fails, closed');
  }

  lemma {:induction false} ClosedStays(calls: seq<MemoryBroker.Action>)
    ensures ClosedBy(true, calls)
    decreases |calls|
  {
    if calls != [] { ClosedStays(calls[1..]); }
  }

  /** The context was live for, and nothing is wrong with, the event. */
  predicate Sendable(done: bool, e: LogEvent) { !done && MarshalEvent(e).Ok? }

  ghost predicate AllSendable(done: nat -> bool, events: seq<LogEvent>, n: nat) {
    n <= |events| && forall k :: 0 <= k < n ==> Sendable(done(k), events[k])
  }

  lemma OneMoreSendable(done: nat -> bool, events: seq<LogEvent>, n: nat)
    requires n < |events| && AllSendable(done, events, n) && Sendable(done(n), events[n])
    ensures AllSendable(done, events, n + 1)
  {
  }

  function NextOf(events: seq<LogEvent>, n: nat, taken: bool): (r: seq<LogEvent>)
    requires n < |events|
  {
    if taken then [events[n]] else []
  }

  lemma AddsNext(before: seq<Payload>, events: seq<LogEvent>, n: nat, topic: seq<Payload>, taken: bool,
                 topic': seq<Payload>)
    requires n < |events| && Adds(before, events[..n], topic) && Adds(topic, NextOf(events, n, taken), topic')
    ensures Adds(before, events[..if taken then n + 1 else n], topic')
  {
    AddsJoin(before, events[..n], topic, NextOf(events, n, taken), topic');
    assert events[..n] + NextOf(events, n, taken) == events[..if taken then n + 1 else n];
  }

  /** The request that comes into being: one that maps is about to be published, one that does not is refused. */
  function NewRequest(arrival: E.Action): (q: E.Request)
    requires arrival.RestRequest? || arrival.OtlpRequest?
  {
    if arrival.RestRequest? then
      match FromRest(arrival.payload, arrival.now)
      case Ok(e) => E.Request(E.Rest, [e], [], E.Publishing)
      case Err(_) => E.Request(E.Rest, [], [], E.BadRequest)
    else
      match MapRequest(arrival.scan, arrival.req)
      case Ok(events) => E.Request(E.OtlpLogs, events, [], E.Publishing)
      case Err(_) => E.Request(E.OtlpLogs, [], [], E.BadRequest)
  }

  datatype Response = Created | Okay | BadRequest | BadGateway

  /** The status of a request that was answered so. */
  function AnsweredWith(r: Response): (s: E.Status) {
    match r
    case Created => E.Accepted
    case Okay => E.Accepted
    case BadRequest => E.BadRequest
    case BadGateway => E.BadGateway
  }

  /** The request has some of its events in the topic, in order, none of them at an offset below from. */
  ghost predicate Progress(s: E.System, r: nat, from: nat) {
    && r < |s.requests| && E.PrefixPlaced(s.writer.log, s.requests[r])
    && forall k :: 0 <= k < |s.requests[r].placed| ==> from <= s.requests[r].placed[k].offset
  }

  lemma ProgressSurvives(s: E.System, t: E.System, r: nat, from: nat)
    requires Progress(s, r, from) && Undisturbed(Some(r), s, t)
    ensures Progress(t, r, from)
  {
    E.PlacedSurvives(s.writer.log, t.writer.log, s.requests[r]);
  }

  lemma ProgressOneMore(c: W.Config, s: E.System, r: nat, from: nat)
    requires Progress(s, r, from) && E.Enabled(s, E.PublishOk(r, 0)) && from <= |s.writer.log[0]|
    ensures var t := E.Step(c, s, E.PublishOk(r, 0));
            && Progress(t, r, from) && from <= |t.writer.log[0]|
            && t.requests[r] == s.requests[r].(placed := t.requests[r].placed)
            && |t.requests[r].placed| == |s.requests[r].placed| + 1
  {
    E.PlacedOneMore(s.writer.log, E.Step(c, s, E.PublishOk(r, 0)).writer.log, s.requests[r], 0);
  }

  lemma AnsweredProgress(s: E.System, t: E.System, r: nat, from: nat)
    requires Progress(s, r, from) && r < |t.requests| && Extends(s.writer.log, t.writer.log)
    requires t.requests[r] == s.requests[r].(status := t.requests[r].status)
    requires if t.requests[r].status.Accepted? then |s.requests[r].placed| == |s.requests[r].events|
             else t.requests[r].status.BadGateway? && |s.requests[r].placed| < |s.requests[r].events|
    ensures Progress(t, r, from)
  {
    E.PlacedSurvives(s.writer.log, t.writer.log, s.requests[r]);
  }

  // ---------- one Publish, seen from the system and from the broker ----------

  /** The next message of request r as a step of the system: acknowledged, or left in the topic without that. */
  function OwnStep(s: E.System, r: nat, ok: bool): (a: E.Action)
    requires r < |s.requests|
  {
    if ok then E.PublishOk(r, 0) else E.PublishStray(r, |s.requests[r].placed|, 0)
  }

  /** Before the broker gives the lock to the Publish of request r. */
  function Around(c: W.Config, topic: string, r: nat, s: E.System, closed: bool, inner: seq<seq<Elsewhere>>): (v: View) {
    Elapse(c, topic, Some(r), View(s, closed, []), Stretch(inner, 0))
  }

  /** After that, by the time the given number of handlers has been called. */
  function Beyond(c: W.Config, topic: string, r: nat, s: E.System, inner: seq<seq<Elsewhere>>, called: nat): (v: View) {
    Elapse(c, topic, Some(r), View(s, false, []), Flat(Later(inner), called))
  }

  function AfterOwn(c: W.Config, s: E.System, r: nat, ok: bool): (t: E.System) {
    if r < |s.requests| && E.Enabled(s, OwnStep(s, r, ok)) then E.Step(c, s, OwnStep(s, r, ok)) else s
  }

  /** What the others call the broker for in the stretches of the Publish. */
  function BrokerPart(c: W.Config, topic: string, r: nat, s: E.System, closed: bool, inner: seq<seq<Elsewhere>>)
    : (others: seq<seq<MemoryBroker.Action>>)
  {
    var v := Around(c, topic, r, s, closed, inner);
    [v.calls] + Script(c, topic, Some(r), View(AfterOwn(c, v.sys, r, true), false, []), Later(inner))
  }

  /** The broker's side: the topic grows by what the others append first, the message, and what they append then. */
  lemma BrokerGrowth(s: MemoryBroker.Broker, topic: string, value: Payload, fails: MemoryBroker.Delivery -> bool,
                     others: seq<seq<MemoryBroker.Action>>, called: nat, ok: bool, t: MemoryBroker.Broker)
    requires !OthersOn(s, None, Stretch(others, 0)).closed
    requires Published(OthersOn(s, None, Stretch(others, 0)), topic, value, fails, Later(others), called, ok, t)
    ensures Get(t.messages, topic) == Get(s.messages, topic) + ValuesOn(topic, s.closed, Stretch(others, 0)) + [value]
                                      + ValuesOn(topic, false, Flat(Later(others), called))
  {
    var mid := OthersOn(s, None, Stretch(others, 0));
    var targets := MemoryBroker.Snapshot(MemoryBroker.Get(mid.handlers, topic), topic, |Get(mid.messages, topic)|);
    OthersAppend(s, None, Stretch(others, 0), topic);
    HandedAppend(MemoryBroker.Step(mid, MemoryBroker.Publish(topic, value)), |mid.calls|, Outcomes(targets, fails),
                 Later(others), called, topic);
  }

  /** The system's side, up to the lock. */
  lemma SystemBefore(c: W.Config, topic: string, r: nat, s: E.System, closed: bool, inner: seq<seq<Elsewhere>>)
    requires |s.writer.log| == 1 && r < |s.requests|
    ensures var v := Around(c, topic, r, s, closed, inner);
            && Undisturbed(Some(r), s, v.sys) && v.closed == ClosedBy(closed, v.calls)
            && v.sys.writer.log == [s.writer.log[0] + ValuesOn(topic, closed, v.calls)]
  {
    var v0 := View(s, closed, []);
    ElapseKeepsTopic(c, topic, Some(r), v0, Stretch(inner, 0));
    var v := Around(c, topic, r, s, closed, inner);
    assert v.calls[|v0.calls|..] == v.calls;
  }

  /** And from the message on, whether it is acknowledged or not. */
  lemma SystemAfter(c: W.Config, topic: string, r: nat, s: E.System, inner: seq<seq<Elsewhere>>, called: nat, ok: bool)
    requires |s.writer.log| == 1 && r < |s.requests| && s.requests[r].status.Publishing?
    requires E.HasEvent(s, r, |s.requests[r].placed|)
    ensures E.Enabled(s, OwnStep(s, r, ok))
    ensures var t := AfterOwn(c, s, r, ok); var v := Beyond(c, topic, r, t, inner, called);
            var script := Script(c, topic, Some(r), View(AfterOwn(c, s, r, true), false, []), Later(inner));
            && Undisturbed(Some(r), t, v.sys)
            && v.sys.writer.log == [s.writer.log[0] + [E.PayloadOf(s, r, |s.requests[r].placed|)]
                                    + ValuesOn(topic, false, Flat(script, called))]
  {
    var t, u := AfterOwn(c, s, r, ok), AfterOwn(c, s, r, true);
    ElapseKeepsTopic(c, topic, Some(r), View(t, false, []), Flat(Later(inner), called));
    ScriptIsElapse(c, topic, Some(r), View(u, false, []), Later(inner), called);
    OwnStepAlike(c, s, r, ok);
    var since := ElapseAlike(c, topic, r, View(u, false, []), [], View(t, false, []), [], Flat(Later(inner), called));
    var v, w := Beyond(c, topic, r, t, inner, called), Beyond(c, topic, r, u, inner, called);
    assert v.calls == since == w.calls;
    assert v.calls[0..] == v.calls && w.calls[0..] == w.calls;
  }

  lemma OwnStepAlike(c: W.Config, s: E.System, r: nat, ok: bool)
    requires |s.writer.log| == 1 && r < |s.requests| && s.requests[r].status.Publishing?
    requires E.HasEvent(s, r, |s.requests[r].placed|)
    ensures Alike(r, View(AfterOwn(c, s, r, true), false, []), [], View(AfterOwn(c, s, r, ok), false, []), [], [])
  {
  }

  /** All of it is a run of the system. */
  lemma PublishLeads(c: W.Config, topic: string, r: nat, s: E.System, closed: bool, inner: seq<seq<Elsewhere>>, called: nat, ok: bool)
    returns (run: seq<E.Action>)
    requires var v := Around(c, topic, r, s, closed, inner); r < |v.sys.requests| && E.Enabled(v.sys, OwnStep(v.sys, r, ok))
    ensures var v := Around(c, topic, r, s, closed, inner);
            Leads(c, s, run, Beyond(c, topic, r, AfterOwn(c, v.sys, r, ok), inner, called).sys)
  {
    var v := Around(c, topic, r, s, closed, inner);
    var t := AfterOwn(c, v.sys, r, ok);
    var before := ElapseLeads(c, topic, Some(r), View(s, closed, []), Stretch(inner, 0));
    Taken(c, s, before, v.sys, OwnStep(v.sys, r, ok));
    var after := ElapseLeads(c, topic, Some(r), View(t, false, []), Flat(Later(inner), called));
    Chained(c, s, before + [OwnStep(v.sys, r, ok)], t, after, Beyond(c, topic, r, t, inner, called).sys);
    run := before + [OwnStep(v.sys, r, ok)] + after;
  }

  /** The request is one event further, or no further but with its message in the topic. */
  lemma OwnProgress(c: W.Config, s: E.System, r: nat, ok: bool, from: nat)
    requires |s.writer.log| == 1 && Progress(s, r, from) && s.requests[r].status.Publishing?
    requires E.HasEvent(s, r, |s.requests[r].placed|) && from <= |s.writer.log[0]|
    ensures var t := AfterOwn(c, s, r, ok);
            && Progress(t, r, from) && t.requests[r] == s.requests[r].(placed := t.requests[r].placed)
            && |t.requests[r].placed| == |s.requests[r].placed| + if ok then 1 else 0
  {
    if ok {
      ProgressOneMore(c, s, r, from);
    } else {
      ProgressSurvives(s, AfterOwn(c, s, r, ok), r, from);
    }
  }

  /** The state before a Publish of request r: both sides of it agree. */
  ghost predicate Ready(topic: string, r: nat, s: E.System, b: MemoryBroker.Broker, from: nat) {
    && s.writer.log == [Get(b.messages, topic)] && Progress(s, r, from) && from <= |Get(b.messages, topic)|
    && s.requests[r].status.Publishing? && |s.requests[r].placed| < |s.requests[r].events|
  }

  /** The broker was closed before it could take the message. */
  lemma TurnedAway(c: W.Config, topic: string, r: nat, s: E.System, b: MemoryBroker.Broker, inner: seq<seq<Elsewhere>>, from: nat)
    returns (run: seq<E.Action>)
    requires Ready(topic, r, s, b, from)
    ensures var v := Around(c, topic, r, s, b.closed, inner);
            && Leads(c, s, run, v.sys) && Progress(v.sys, r, from) && v.sys.requests[r] == s.requests[r]
            && v.closed == OthersOn(b, None, v.calls).closed
            && v.sys.writer.log == [Get(OthersOn(b, None, v.calls).messages, topic)]
            && from <= |v.sys.writer.log[0]|
  {
    var v := Around(c, topic, r, s, b.closed, inner);
    SystemBefore(c, topic, r, s, b.closed, inner);
    OthersAppend(b, None, v.calls, topic);
    ProgressSurvives(s, v.sys, r, from);
    run := ElapseLeads(c, topic, Some(r), View(s, b.closed, []), Stretch(inner, 0));
  }

  /** The message got in: afterwards the system and the broker agree again, and it was a run of the system. */
  lemma GotIn(c: W.Config, topic: string, r: nat, s: E.System, b: MemoryBroker.Broker, inner: seq<seq<Elsewhere>>, from: nat,
              fails: MemoryBroker.Delivery -> bool, called: nat, ok: bool, t: MemoryBroker.Broker)
    returns (run: seq<E.Action>)
    requires Ready(topic, r, s, b, from) && E.HasEvent(s, r, |s.requests[r].placed|)
    requires var others := BrokerPart(c, topic, r, s, b.closed, inner); var mid := OthersOn(b, None, Stretch(others, 0));
             && !mid.closed
             && Published(mid, topic, E.PayloadOf(s, r, |s.requests[r].placed|), fails, Later(others), called, ok, t)
    ensures var v := Around(c, topic, r, s, b.closed, inner);
            var next := Beyond(c, topic, r, AfterOwn(c, v.sys, r, ok), inner, called).sys;
            && Leads(c, s, run, next) && Progress(next, r, from) && next.writer.log == [Get(t.messages, topic)]
            && from <= |next.writer.log[0]|
            && next.requests[r] == s.requests[r].(placed := next.requests[r].placed)
            && |next.requests[r].placed| == |s.requests[r].placed| + if ok then 1 else 0
  {
    var others := BrokerPart(c, topic, r, s, b.closed, inner);
    var v := Around(c, topic, r, s, b.closed, inner);
    var before := TurnedAway(c, topic, r, s, b, inner, from);
    assert Stretch(others, 0) == v.calls && Later(others) == Script(c, topic, Some(r), View(AfterOwn(c, v.sys, r, true), false, []), Later(inner));
    SystemBefore(c, topic, r, s, b.closed, inner);
    SystemAfter(c, topic, r, v.sys, inner, called, ok);
    OwnProgress(c, v.sys, r, ok, from);
    BrokerGrowth(b, topic, E.PayloadOf(s, r, |s.requests[r].placed|), fails, others, called, ok, t);
    var next := Beyond(c, topic, r, AfterOwn(c, v.sys, r, ok), inner, called).sys;
    ProgressSurvives(AfterOwn(c, v.sys, r, ok), next, r, from);
    run := PublishLeads(c, topic, r, s, b.closed, inner, called, ok);
  }

  /** Undisturbed, only the message itself is new. */
  lemma AloneAdds(c: W.Config, topic: string, r: nat, s: E.System, b: MemoryBroker.Broker, called: nat, ok: bool)
    requires s.writer.log == [Get(b.messages, topic)] && r < |s.requests| && s.requests[r].status.Publishing?
    requires E.HasEvent(s, r, |s.requests[r].placed|)
    ensures var v := Around(c, topic, r, s, b.closed, []);
            var next := Beyond(c, topic, r, AfterOwn(c, v.sys, r, ok), [], called).sys;
            && next.metrics == s.metrics && |next.writer.log| == 1
            && Adds(Get(b.messages, topic), NextOf(s.requests[r].events, |s.requests[r].placed|, true), next.writer.log[0])
  {
    FlatOfNone<Elsewhere>(called);
    AddsOne(Get(b.messages, topic), s.requests[r].events[|s.requests[r].placed|],
            E.PayloadOf(s, r, |s.requests[r].placed|));
  }

  /** What a Publish that has appended its message leaves behind. */
  lemma SentOn(c: W.Config, topic: string, r: nat, s: E.System, b: MemoryBroker.Broker, inner: seq<seq<Elsewhere>>, from: nat,
               fails: MemoryBroker.Delivery -> bool, called: nat, err: Option<BusError>, t: MemoryBroker.Broker)
    returns (run: seq<E.Action>)
    requires Ready(topic, r, s, b, from) && E.HasEvent(s, r, |s.requests[r].placed|) && Appends(err)
    requires var others := BrokerPart(c, topic, r, s, b.closed, inner); var mid := OthersOn(b, None, Stretch(others, 0));
             && !mid.closed
             && Published(mid, topic, E.PayloadOf(s, r, |s.requests[r].placed|), fails, Later(others), called, err.None?, t)
    ensures var v := Around(c, topic, r, s, b.closed, inner);
            var next := Beyond(c, topic, r, AfterOwn(c, v.sys, r, err.None?), inner, called).sys;
            && Leads(c, s, run, next) && Progress(next, r, from) && next.writer.log == [Get(t.messages, topic)]
            && from <= |next.writer.log[0]|
            && next.requests[r] == s.requests[r].(placed := next.requests[r].placed)
            && |next.requests[r].placed| == |s.requests[r].placed| + (if err.None? then 1 else 0)
            && (err.Some? ==> exists d :: fails(d))
            && (inner == [] ==>
                  && next.metrics == s.metrics
                  && Adds(Get(b.messages, topic), NextOf(s.requests[r].events, |s.requests[r].placed|, true), next.writer.log[0]))
  {
    var others := BrokerPart(c, topic, r, s, b.closed, inner);
    run := GotIn(c, topic, r, s, b, inner, from, fails, called, err.None?, t);
    AloneAdds(c, topic, r, s, b, called, err.None?);
    if err.Some? {
      HandlerDidFail(OthersOn(b, None, Stretch(others, 0)), topic, E.PayloadOf(s, r, |s.requests[r].placed|), fails,
                     Later(others), called, t);
    }
  }

  /** Where the system is after a Publish of request r, which may have been turned away. */
  function AfterSend(c: W.Config, topic: string, r: nat, s: E.System, closed: bool, inner: seq<seq<Elsewhere>>,
                     called: nat, err: Option<BusError>) : (next: E.System)
  {
    var v := Around(c, topic, r, s, closed, inner);
    if Appends(err) then Beyond(c, topic, r, AfterOwn(c, v.sys, r, err.None?), inner, called).sys
    else if err.value.BrokerClosed? then v.sys
    else s
  }

  /** What holds then: the request is one event further, or no further and one of the reasons for it is given. */
  ghost predicate Sent(c: W.Config, topic: string, r: nat, s: E.System, b: MemoryBroker.Broker, from: nat, event: LogEvent,
                       done: bool, fails: MemoryBroker.Delivery -> bool, err: Option<BusError>, t: MemoryBroker.Broker,
                       next: E.System, run: seq<E.Action>)
    requires r < |s.requests|
  {
    && Leads(c, s, run, next) && Progress(next, r, from)
    && next.writer.log == [Get(t.messages, topic)] && from <= |Get(t.messages, topic)|
    && next.requests[r] == s.requests[r].(placed := next.requests[r].placed)
    && |next.requests[r].placed| == |s.requests[r].placed| + (if err.None? then 1 else 0)
    && (err.None? ==> Sendable(done, event))
    && (err.Some? ==> Because(err.value, done, MarshalEvent(event), fails, t.closed))
  }

  lemma SendSettles(c: W.Config, topic: string, r: nat, s: E.System, b: MemoryBroker.Broker, inner: seq<seq<Elsewhere>>, from: nat,
                    done: bool, fails: MemoryBroker.Delivery -> bool, called: nat, err: Option<BusError>, t: MemoryBroker.Broker)
    returns (run: seq<E.Action>)
    requires Ready(topic, r, s, b, from)
    requires var event := s.requests[r].events[|s.requests[r].placed|];
             && (done ==> err == Some(ContextDone) && t == b)
             && (!done && MarshalEvent(event).Err? ==> err == Some(Rejected(MarshalEvent(event).error)) && t == b)
             && (!done && MarshalEvent(event).Ok? ==>
                   var others := BrokerPart(c, topic, r, s, b.closed, inner);
                   var mid := OthersOn(b, None, Stretch(others, 0));
                   && (mid.closed <==> err == Some(BrokerClosed)) && (mid.closed ==> t == mid)
                   && (!mid.closed ==> Appends(err))
                   && (!mid.closed ==> Published(mid, topic, MarshalEvent(event).value, fails, Later(others), called, err.None?, t)))
    ensures var event := s.requests[r].events[|s.requests[r].placed|];
            var next := AfterSend(c, topic, r, s, b.closed, inner, called, err);
            && Sent(c, topic, r, s, b, from, event, done, fails, err, t, next, run)
            && (inner == [] ==>
                  && next.metrics == s.metrics
                  && Adds(Get(b.messages, topic), NextOf(s.requests[r].events, |s.requests[r].placed|, Appends(err)),
                          next.writer.log[0]))
  {
    if Appends(err) {
      run := SentOn(c, topic, r, s, b, inner, from, fails, called, err, t);
    } else {
      run := [];
      if err.value.BrokerClosed? {
        run := TurnedAway(c, topic, r, s, b, inner, from);
      }
    }
  }

  class Gateway {
    const c: W.Config
    const bus: Memory
    const topic: string
    var restOk: nat
    var restErr: nat
    var otlpOk: nat
    var otlpErr: nat
    var otlpLogs: nat
    // The system this gateway is part of, which decides what the others can do. A handler takes its number from
    // it and leaves its own steps there; what it publishes and counts comes from its own request.
    var sys: E.System

    /** The topic and the counters are those of the system. */
    ghost predicate Linked()
      reads this, bus
    {
      && bus.Consistent()
      && sys.writer.log == [Get(bus.topics, topic)]
      && sys.metrics == Counters()
    }

    function Counters(): (m: E.IngestMetrics)
      reads this
    {
      E.IngestMetrics(restOk, restErr, otlpOk, otlpErr, otlpLogs)
    }

    constructor (c: W.Config, bus: Memory, topic: string)
      requires bus.Consistent() && bus.topics == map[]
      ensures this.c == c && this.bus == bus && this.topic == topic && Linked() && sys == E.Init(1)
    {
      this.c, this.bus, this.topic, this.sys := c, bus, topic, E.Init(1);
      restOk, restErr, otlpOk, otlpErr, otlpLogs := 0, 0, 0, 0, 0;
    }

    /** The system has moved on, and the counters with it. */
    method Follow(next: E.System)
      requires bus.Consistent() && next.writer.log == [Get(bus.topics, topic)]
      modifies this
      ensures Linked() && sys == next
    {
      sys := next;
      var m := next.metrics;
      restOk, restErr, otlpOk, otlpErr, otlpLogs := m.restOk, m.restErr, m.otlpOk, m.otlpErr, m.otlpLogs;
    }

    /** A stretch between two steps of the handler of request own, or before there is one. */
    method Others(own: Option<nat>, xs: seq<Elsewhere>) returns (ghost run: seq<E.Action>)
      requires Linked()
      modifies this, bus
      ensures Linked() && Leads(c, old(sys), run, sys) && Undisturbed(own, old(sys), sys)
      ensures xs == [] ==> sys == old(sys) && bus.topics == old(bus.topics)
      ensures old(bus.closed) ==> bus.closed
    {
      ghost var s0 := bus.Abs();
      var v0 := View(sys, bus.closed, []);
      var v := Elapse(c, topic, own, v0, xs);
      ElapseKeepsTopic(c, topic, own, v0, xs);
      run := ElapseLeads(c, topic, own, v0, xs);
      assert v.calls[|v0.calls|..] == v.calls;
      OthersAppend(s0, None, v.calls, topic);
      ClosedStays(v.calls);
      bus.Others(None, v.calls);
      Follow(v.sys);
    }

    /**
      One turn of the loop of publishEvents, with whatever the others do before the broker gives it the lock and
      before each handler call. The next event is acknowledged, or the Publish fails; a handler that fails does
      so after the message is in, which then stays in the topic without being acknowledged.
     */
    method PublishOne(r: nat, events: seq<LogEvent>, n: nat, done: bool, fails: MemoryBroker.Delivery -> bool,
                      inner: seq<seq<Elsewhere>>, ghost from: nat)
      returns (err: Option<BusError>, ghost run: seq<E.Action>)
      requires Linked() && Progress(sys, r, from) && from <= |Get(bus.topics, topic)| && sys.requests[r].status.Publishing?
      requires sys.requests[r].events == events && |sys.requests[r].placed| == n < |events|
      modifies this, bus
      ensures Linked() && Leads(c, old(sys), run, sys) && Progress(sys, r, from) && from <= |Get(bus.topics, topic)|
      ensures sys.requests[r] == old(sys).requests[r].(placed := sys.requests[r].placed)
      ensures |sys.requests[r].placed| == if err.None? then n + 1 else n
      ensures err.None? ==> Sendable(done, events[n])
      ensures err.Some? ==> Because(err.value, done, MarshalEvent(events[n]), fails, bus.closed)
      ensures inner == [] ==>
                && sys.metrics == old(sys).metrics
                && Adds(Get(old(bus.topics), topic), NextOf(events, n, Appends(err)), Get(bus.topics, topic))
    {
      var next;
      err, next, run := Send(r, events, n, done, fails, inner, from);
      Follow(next);
    }

    /** The call of the broker, and where the system is after it. */
    method Send(r: nat, events: seq<LogEvent>, n: nat, done: bool, fails: MemoryBroker.Delivery -> bool,
                inner: seq<seq<Elsewhere>>, ghost from: nat)
      returns (err: Option<BusError>, next: E.System, ghost run: seq<E.Action>)
      requires bus.Consistent() && Ready(topic, r, sys, bus.Abs(), from)
      requires sys.requests[r].events == events && |sys.requests[r].placed| == n
      modifies bus
      ensures bus.Consistent() && Leads(c, sys, run, next) && Progress(next, r, from)
      ensures next.writer.log == [Get(bus.topics, topic)] && from <= |Get(bus.topics, topic)|
      ensures next.requests[r] == sys.requests[r].(placed := next.requests[r].placed)
      ensures |next.requests[r].placed| == if err.None? then n + 1 else n
      ensures err.None? ==> Sendable(done, events[n])
      ensures err.Some? ==> Because(err.value, done, MarshalEvent(events[n]), fails, bus.closed)
      ensures inner == [] ==>
                && next.metrics == sys.metrics
                && Adds(Get(old(bus.topics), topic), NextOf(events, n, Appends(err)), next.writer.log[0])
    {
      ghost var b0 := bus.Abs();
      var closed := bus.closed;
      var others := BrokerPart(c, topic, r, sys, closed, inner);
      var called;
      err, called := bus.Publish(done, topic, events[n], fails, others);
      run := SendSettles(c, topic, r, sys, b0, inner, from, done, fails, called, err, bus.Abs());
      next := AfterSend(c, topic, r, sys, closed, inner, called, err);
    }

    /**
      publishEvents for request r: one event after the other, stopping at the first error, with anything
      happening in between. n events are acknowledged, in order, and they are all of them exactly on success.
      Undisturbed, the topic grows by these n and, if a handler failed, by the one after them.
     */
    method PublishEvents(r: nat, events: seq<LogEvent>, done: nat -> bool, fails: MemoryBroker.Delivery -> bool,
                         others: seq<seq<seq<Elsewhere>>>)
      returns (err: Option<(nat, BusError)>, n: nat, ghost run: seq<E.Action>)
      requires Linked() && r < |sys.requests| && sys.requests[r].status.Publishing? && sys.requests[r].placed == []
      requires sys.requests[r].events == events && (sys.requests[r].kind.Rest? ==> |events| <= 1)
      modifies this, bus
      ensures Linked() && Leads(c, old(sys), run, sys)
      ensures Progress(sys, r, |Get(old(bus.topics), topic)|) && |sys.requests[r].placed| == n
      ensures sys.requests[r] == old(sys).requests[r].(placed := sys.requests[r].placed)
      ensures err.None? <==> n == |events|
      ensures err.Some? ==> err.value.0 == n
      ensures AllSendable(done, events, n)
      ensures err.Some? ==> n < |events| && Because(err.value.1, done(n), MarshalEvent(events[n]), fails, bus.closed)
      ensures others == [] ==>
                var m := if err.Some? && err.value.1.HandlerFailed? then n + 1 else n;
                && sys.metrics == old(sys).metrics && m <= |events|
                && Adds(Get(old(bus.topics), topic), events[..m], Get(bus.topics, topic))
    {
      n, run := 0, [];
      ghost var s0, before := sys, Get(bus.topics, topic);
      while n < |events|
        invariant n <= |events| && Linked() && Leads(c, s0, run, sys)
        invariant Progress(sys, r, |before|) && |sys.requests[r].placed| == n && |before| <= |Get(bus.topics, topic)|
        invariant sys.requests[r] == s0.requests[r].(placed := sys.requests[r].placed)
        invariant AllSendable(done, events, n)
        invariant others == [] ==> sys.metrics == s0.metrics && Adds(before, events[..n], Get(bus.topics, topic))
      {
        ghost var s1, topic1 := sys, Get(bus.topics, topic);
        var failed, isDone := None, done(n);
        ghost var step;
        failed, step := PublishOne(r, events, n, isDone, fails, Stretch(others, n), |before|);
        Chained(c, s0, run, s1, step, sys);
        run := run + step;
        if others == [] {
          AddsNext(before, events, n, topic1, Appends(failed), Get(bus.topics, topic));
        }
        if failed.Some? {
          return Some((n, failed.value)), n, run;
        }
        OneMoreSendable(done, events, n);
        n := n + 1;
      }
      err := None;
    }

    /** The counters of one answered request. */
    method Count(kind: E.Kind, ok: bool, n: nat)
      modifies `restOk, `restErr, `otlpOk, `otlpErr, `otlpLogs
      ensures Counters() == if ok then E.CountOk(old(Counters()), kind, n) else E.CountError(old(Counters()), kind)
    {
      if kind.Rest? {
        if ok { restOk := restOk + 1; } else { restErr := restErr + 1; }
      } else if ok {
        otlpOk, otlpLogs := otlpOk + 1, otlpLogs + n;
      } else {
        otlpErr := otlpErr + 1;
      }
    }

    /** A request comes in and takes the next number; one that does not map is counted and answered with 400. */
    method Arrive(arrival: E.Action, kind: E.Kind, refused: bool, before: seq<Elsewhere>) returns (r: nat, ghost run: seq<E.Action>)
      requires Linked() && (arrival.RestRequest? || arrival.OtlpRequest?)
      requires kind == NewRequest(arrival).kind && (refused <==> NewRequest(arrival).status.BadRequest?)
      modifies this, bus
      ensures Linked() && Leads(c, old(sys), run, sys)
      ensures |sys.requests| == r + 1 && sys.requests[r] == NewRequest(arrival)
      ensures |Get(old(bus.topics), topic)| <= |Get(bus.topics, topic)|
      ensures before == [] ==>
                && bus.topics == old(bus.topics)
                && sys.metrics == if NewRequest(arrival).status.Publishing? then old(sys).metrics
                                  else E.CountError(old(sys).metrics, NewRequest(arrival).kind)
    {
      ghost var s0 := sys;
      run := Others(None, before);
      assert s0.writer.log[0] <= sys.writer.log[0];
      r := |sys.requests|;
      Taken(c, s0, run, sys, arrival);
      run := run + [arrival];
      sys := E.Step(c, sys, arrival);
      if refused {
        Count(kind, false, 0);
      }
    }

    /** Request r, all of whose events are published or one of which failed, is counted and answered. */
    method Answer(r: nat, kind: E.Kind, n: nat, ok: bool, before: seq<Elsewhere>) returns (ghost run: seq<E.Action>)
      requires Linked() && r < |sys.requests| && sys.requests[r].status.Publishing?
      requires kind == sys.requests[r].kind && n == |sys.requests[r].events|
      requires if ok then |sys.requests[r].placed| == |sys.requests[r].events|
               else |sys.requests[r].placed| < |sys.requests[r].events|
      modifies this, bus
      ensures Linked() && Leads(c, old(sys), run, sys) && |old(sys).requests| <= |sys.requests|
      ensures Extends(old(sys).writer.log, sys.writer.log) && (old(bus.closed) ==> bus.closed)
      ensures sys.requests[r] == old(sys).requests[r].(status := if ok then E.Accepted else E.BadGateway)
      ensures before == [] ==>
                && bus.topics == old(bus.topics)
                && var q := old(sys).requests[r];
                   sys.metrics == if ok then E.CountOk(old(sys).metrics, q.kind, |q.events|)
                                  else E.CountError(old(sys).metrics, q.kind)
    {
      ghost var s0 := sys;
      run := Others(Some(r), before);
      var answer := if ok then E.Answer(r) else E.PublishFail(r);
      Taken(c, s0, run, sys, answer);
      run := run + [answer];
      sys := E.Step(c, sys, answer);
      Count(kind, ok, n);
    }

    /** What both handlers do with the events of request r: publish them and answer. */
    method PublishAndAnswer(r: nat, kind: E.Kind, events: seq<LogEvent>, done: nat -> bool, fails: MemoryBroker.Delivery -> bool,
                            during: seq<seq<seq<Elsewhere>>>, after: seq<Elsewhere>)
      returns (ok: bool, ghost run: seq<E.Action>)
      requires Linked() && r < |sys.requests| && sys.requests[r].status.Publishing? && sys.requests[r].placed == []
      requires sys.requests[r].events == events && sys.requests[r].kind == kind && (kind.Rest? ==> |events| <= 1)
      modifies this, bus
      ensures Linked() && Leads(c, old(sys), run, sys) && Progress(sys, r, |Get(old(bus.topics), topic)|)
      ensures sys.requests[r] == old(sys).requests[r].(placed := sys.requests[r].placed,
                                                       status := if ok then E.Accepted else E.BadGateway)
      ensures ok ==> AllSendable(done, events, |events|)
      ensures !ok ==> exists k :: StoppedAt(done, events, k, fails, bus.closed)
      ensures during == [] && after == [] ==>
                && sys.metrics == (if ok then E.CountOk(old(sys).metrics, kind, |events|)
                                   else E.CountError(old(sys).metrics, kind))
                && (ok ==> Adds(Get(old(bus.topics), topic), events, Get(bus.topics, topic)))
    {
      ghost var s0, before := sys, Get(bus.topics, topic);
      var err, n;
      err, n, run := PublishEvents(r, events, done, fails, during);
      assert during == [] && err.None? ==> events[..n] == events;
      ok := err.None?;
      ghost var s1 := sys;
      ghost var closed := bus.closed;
      ghost var rest := Answer(r, kind, |events|, ok, after);
      if !ok { StillStopped(err.value.1, done, events, n, fails, closed, bus.closed); }
      Chained(c, s0, run, s1, rest, sys);
      run := run + rest;
      AnsweredProgress(s1, sys, r, |before|);
    }

    /**
      The REST handler after decoding: 400 without publishing, 502 when publishing fails, otherwise 201. It is
      request number r of the system, and ends there with the status it was answered with.
     */
    method ServeRest(payload: RestPayload, now: Reading, done: nat -> bool, fails: MemoryBroker.Delivery -> bool,
                     before: seq<Elsewhere>, during: seq<seq<seq<Elsewhere>>>, after: seq<Elsewhere>)
      returns (resp: Response, r: nat, ghost run: seq<E.Action>)
      requires Linked()
      modifies this, bus
      ensures Linked() && Leads(c, old(sys), run, sys) && Progress(sys, r, |Get(old(bus.topics), topic)|)
      ensures sys.requests[r] == NewRequest(E.RestRequest(payload, now)).(placed := sys.requests[r].placed,
                                                                          status := AnsweredWith(resp))
      ensures !resp.Okay? && (resp.BadRequest? <==> FromRest(payload, now).Err?)
      ensures resp.BadRequest? <==>
                || Blank(payload.message) || Blank(payload.source.service)
                || !(Blank(payload.logLevel) || KnownLevel(payload.logLevel))
                || payload.timestamp == 18_446_681_938_112_751_616
      ensures resp.Created? ==> Sendable(done(0), FromRest(payload, now).value)
      ensures resp.BadGateway? ==> exists k :: StoppedAt(done, [FromRest(payload, now).value], k, fails, bus.closed)
      ensures before == [] && during == [] && after == [] ==>
                && sys.metrics == (if resp.Created? then E.CountOk(old(sys).metrics, E.Rest, 1)
                                   else E.CountError(old(sys).metrics, E.Rest))
                && (resp.BadRequest? ==> bus.topics == old(bus.topics))
                && (resp.Created? ==>
                      Adds(Get(old(bus.topics), topic), [FromRest(payload, now).value], Get(bus.topics, topic)))
    {
      ghost var s0 := sys;
      var mapped := FromRest(payload, now);
      RestAcceptedIff(payload, now);
      r, run := Arrive(E.RestRequest(payload, now), E.Rest, mapped.Err?, before);
      if mapped.Err? {
        return BadRequest, r, run;
      }
      ghost var s1 := sys;
      var ok;
      ghost var rest;
      ok, rest := PublishAndAnswer(r, E.Rest, [mapped.value], done, fails, during, after);
      Chained(c, s0, run, s1, rest, sys);
      run := run + rest;
      resp := if ok then Created else BadGateway;
    }

    /**
      The OTLP handler after decoding: 400 without publishing, 502 when publishing fails, otherwise 200. A
      request without records is answered at once.
     */
    method ServeOtlp(scan: string -> Option<Float64>, req: Option<ExportRequest>, done: nat -> bool,
                     fails: MemoryBroker.Delivery -> bool,
                     before: seq<Elsewhere>, during: seq<seq<seq<Elsewhere>>>, after: seq<Elsewhere>)
      returns (resp: Response, r: nat, ghost run: seq<E.Action>)
      requires Linked()
      modifies this, bus
      ensures Linked() && Leads(c, old(sys), run, sys) && Progress(sys, r, |Get(old(bus.topics), topic)|)
      ensures sys.requests[r] == NewRequest(E.OtlpRequest(scan, req)).(placed := sys.requests[r].placed,
                                                                       status := AnsweredWith(resp))
      ensures !resp.Created? && (resp.BadRequest? <==> MapRequest(scan, req).Err?)
      ensures resp.BadRequest? <==> req.None? || !AllUsable(req.value.resources)
      ensures resp.Okay? ==> AllSendable(done, MapRequest(scan, req).value, |MapRequest(scan, req).value|)
      ensures resp.BadGateway? ==> exists k :: StoppedAt(done, MapRequest(scan, req).value, k, fails, bus.closed)
      ensures before == [] && during == [] && after == [] ==>
                && sys.metrics == (if resp.Okay? then E.CountOk(old(sys).metrics, E.OtlpLogs, |MapRequest(scan, req).value|)
                                   else E.CountError(old(sys).metrics, E.OtlpLogs))
                && (resp.BadRequest? ==> bus.topics == old(bus.topics))
                && (resp.Okay? ==>
                      Adds(Get(old(bus.topics), topic), MapRequest(scan, req).value, Get(bus.topics, topic)))
    {
      ghost var s0, topic0 := sys, Get(bus.topics, topic);
      var mapped := LogEventsFromOtlp(scan, req);
      RequestAcceptedIff(scan, req);
      r, run := Arrive(E.OtlpRequest(scan, req), E.OtlpLogs, mapped.Err?, before);
      if mapped.Err? {
        return BadRequest, r, run;
      }
      ghost var s1 := sys;
      ghost var rest;
      if |mapped.value| == 0 {
        rest := Answer(r, E.OtlpLogs, 0, true, after);
        Chained(c, s0, run, s1, rest, sys);
        return Okay, r, run + rest;
      }
      var ok;
      ok, rest := PublishAndAnswer(r, E.OtlpLogs, mapped.value, done, fails, during, after);
      Chained(c, s0, run, s1, rest, sys);
      run := run + rest;
      resp := if ok then Okay else BadGateway;
    }
  }
}
