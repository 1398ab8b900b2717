/**
  The whole pipeline: any number of concurrent gateway requests (cmd/gateway) publishing to a partitioned topic
  and the writer consuming it, their steps interleaved in any order.
 */
module EndToEnd {
  import opened Results
  import opened Text
  import opened Schema
  import opened Otlp
  import opened PartitionedLog
  import W = WriterMachine
  import opened WriterSafety

  /** Where a published event is in the topic. */
  datatype Place = Place(partition: nat, offset: nat)

  datatype Kind = Rest | OtlpLogs

  /** Publishing until it is answered: 201 or 200, 400, or 502. */
  datatype Status = Publishing | Accepted | BadRequest | BadGateway

  datatype Request = Request(kind: Kind, events: seq<LogEvent>, placed: seq<Place>, status: Status)

  datatype IngestMetrics = IngestMetrics(restOk: nat, restErr: nat, otlpOk: nat, otlpErr: nat, otlpLogs: nat)

  datatype System = System(writer: W.State, requests: seq<Request>, metrics: IngestMetrics)

  datatype Action =
    | RestRequest(payload: RestPayload, now: Reading)
    | OtlpRequest(scan: string -> Option<Float64>, req: Option<ExportRequest>)
    | PublishOk(r: nat, p: nat)     // the broker acknowledges the next event of request r
    // the client library writes event k of request r without (yet) reporting success, perhaps late or again
    | PublishStray(r: nat, k: nat, p: nat)
    | PublishFail(r: nat)
    | Answer(r: nat)
    | Writer(a: W.Action)

  function Init(partitions: nat): (s: System) {
    System(W.Init(seq(partitions, _ => [])), [], IngestMetrics(0, 0, 0, 0, 0))
  }

  /** Request r has an event k, and it can be encoded. */
  predicate HasEvent(s: System, r: nat, k: nat) {
    r < |s.requests| && k < |s.requests[r].events| && MarshalEvent(s.requests[r].events[k]).Ok?
  }

  function PayloadOf(s: System, r: nat, k: nat): (v: Payload)
    requires HasEvent(s, r, k)
  {
    MarshalEvent(s.requests[r].events[k]).value
  }

  /** A message gets into the topic. */
  predicate Sends(a: Action) { a.PublishOk? || a.PublishStray? }

  predicate Enabled(s: System, a: Action) {
    match a
    case RestRequest(_, _) => true
    case OtlpRequest(_, _) => true
    case PublishOk(r, p) =>
      && r < |s.requests| && s.requests[r].status.Publishing? && HasEvent(s, r, |s.requests[r].placed|)
      && p < |s.writer.log|
    // At any time after the event was handed over, also when the request has long been answered.
    case PublishStray(r, k, p) => HasEvent(s, r, k) && k <= |s.requests[r].placed| && p < |s.writer.log|
    case PublishFail(r) =>
      r < |s.requests| && s.requests[r].status.Publishing? && |s.requests[r].placed| < |s.requests[r].events|
    case Answer(r) =>
      r < |s.requests| && s.requests[r].status.Publishing? && |s.requests[r].placed| == |s.requests[r].events|
    case Writer(b) => !b.Produce? && W.Enabled(s.writer, b)
  }

  function SentBy(s: System, a: Action): (v: Payload)
    requires Sends(a) && Enabled(s, a)
  {
    PayloadOf(s, a.r, if a.PublishOk? then |s.requests[a.r].placed| else a.k)
  }

  function Produced(s: System, p: nat, v: Payload): (t: System)
    requires p < |s.writer.log|
  {
    s.(writer := s.writer.(log := Append(s.writer.log, p, v)))
  }

  function CountError(m: IngestMetrics, kind: Kind): (r: IngestMetrics) {
    if kind.Rest? then m.(restErr := m.restErr + 1) else m.(otlpErr := m.otlpErr + 1)
  }

  function CountOk(m: IngestMetrics, kind: Kind, n: nat): (r: IngestMetrics) {
    if kind.Rest? then m.(restOk := m.restOk + 1) else m.(otlpOk := m.otlpOk + 1, otlpLogs := m.otlpLogs + n)
  }

  function Step(c: W.Config, s: System, a: Action): (t: System)
    requires Enabled(s, a)
  {
    match a
    case RestRequest(payload, now) =>
      (match FromRest(payload, now)
       case Err(_) => s.(requests := s.requests + [Request(Rest, [], [], BadRequest)], metrics := CountError(s.metrics, Rest))
       case Ok(e) => s.(requests := s.requests + [Request(Rest, [e], [], Publishing)]))
    case OtlpRequest(scan, req) =>
      (match MapRequest(scan, req)
       case Err(_) => s.(requests := s.requests + [Request(OtlpLogs, [], [], BadRequest)], metrics := CountError(s.metrics, OtlpLogs))
       case Ok(events) => s.(requests := s.requests + [Request(OtlpLogs, events, [], Publishing)]))
    case PublishOk(r, p) =>
      var q := s.requests[r];
      Produced(s, p, SentBy(s, a)).(
        requests := s.requests[r := q.(placed := q.placed + [Place(p, |s.writer.log[p]|)])])
    case PublishStray(r, k, p) => Produced(s, p, SentBy(s, a))
    case PublishFail(r) =>
      s.(requests := s.requests[r := s.requests[r].(status := BadGateway)],
         metrics := CountError(s.metrics, s.requests[r].kind))
    case Answer(r) =>
      var q := s.requests[r];
      s.(requests := s.requests[r := q.(status := Accepted)], metrics := CountOk(s.metrics, q.kind, |q.events|))
    case Writer(b) => s.(writer := W.Step(c, s.writer, b))
  }

  predicate Valid(c: W.Config, s: System, run: seq<Action>)
    decreases |run|
  {
    run == [] || (Enabled(s, run[0]) && Valid(c, Step(c, s, run[0]), run[1..]))
  }

  function Exec(c: W.Config, s: System, run: seq<Action>): (t: System)
    requires Valid(c, s, run)
    decreases |run|
  {
    if run == [] then s else Exec(c, Step(c, s, run[0]), run[1..])
  }

  /** Runs compose. */
  lemma {:induction false} ExecAppend(c: W.Config, s: System, a: seq<Action>, b: seq<Action>)
    requires Valid(c, s, a)
    ensures Valid(c, s, a + b) <==> Valid(c, Exec(c, s, a), b)
    ensures Valid(c, s, a + b) ==> Exec(c, s, a + b) == Exec(c, Exec(c, s, a), b)
    decreases |a|
  {
    if a == [] {
      assert a + b == b;
    } else {
      assert (a + b)[1..] == a[1..] + b;
      ExecAppend(c, Step(c, s, a[0]), a[1..], b);
    }
  }

  lemma OneStep(c: W.Config, s: System, a: Action)
    requires Enabled(s, a)
    ensures Valid(c, s, [a]) && Exec(c, s, [a]) == Step(c, s, a)
  {
    assert [a][1..] == [];
  }

  // ---------- the invariant ----------

  /** The payload is the encoding of an event of some request. */
  ghost predicate Sent(requests: seq<Request>, v: Payload) {
    exists r, k :: 0 <= r < |requests| && 0 <= k < |requests[r].events| && MarshalEvent(requests[r].events[k]) == Ok(v)
  }

  ghost predicate LogIsSent(log: Log, requests: seq<Request>) {
    forall p, o {:trigger log[p][o]} :: 0 <= p < |log| && 0 <= o < |log[p]| ==> Sent(requests, log[p][o])
  }

  /** The place holds the encoding of the event. */
  predicate At(log: Log, place: Place, e: LogEvent) {
    place.partition < |log| && place.offset < |log[place.partition]|
    && MarshalEvent(e) == Ok(log[place.partition][place.offset])
  }

  /**
    A prefix of the events is in the topic, in order within each partition: the whole of them if the request
    was accepted, and not the whole of them if publishing failed.
   */
  ghost predicate PrefixPlaced(log: Log, q: Request) {
    && |q.placed| <= |q.events|
    && (q.kind.Rest? ==> |q.events| <= 1)
    && (forall k :: 0 <= k < |q.placed| ==> At(log, q.placed[k], q.events[k]))
    && (forall j, k :: 0 <= j < k < |q.placed| && q.placed[j].partition == q.placed[k].partition ==>
          q.placed[j].offset < q.placed[k].offset)
    && (q.status.Accepted? ==> |q.placed| == |q.events|)
    && (q.status.BadGateway? ==> |q.placed| < |q.events|)
    && (q.status.BadRequest? ==> q.events == [])
  }

  ghost predicate RequestsPlaced(log: Log, requests: seq<Request>) {
    forall r :: 0 <= r < |requests| ==> PrefixPlaced(log, requests[r])
  }

  ghost predicate Inv(c: W.Config, s: System) {
    && WriterSafety.Inv(c, s.writer)
    && LogIsSent(s.writer.log, s.requests)
    && RequestsPlaced(s.writer.log, s.requests)
    && NoDecodeFailure(s.writer)
  }

  lemma InitInv(c: W.Config, partitions: nat)
    ensures Inv(c, Init(partitions))
  {
    WriterSafety.InitInv(c, seq(partitions, _ => []));
  }

  lemma SentDecodes(log: Log, requests: seq<Request>)
    requires LogIsSent(log, requests)
    ensures AllDecode(log)
  {
    forall p, o | 0 <= p < |log| && 0 <= o < |log[p]| ensures UnmarshalEvent(log[p][o]).Ok? {
      var r, k :| 0 <= r < |requests| && 0 <= k < |requests[r].events| && MarshalEvent(requests[r].events[k]) == Ok(log[p][o]);
      PublishedDecodes(requests[r].events[k]);
    }
  }

  /** Requests only come in or move on: what an event list holds never changes. */
  ghost predicate KeepsEvents(a: seq<Request>, b: seq<Request>) {
    |a| <= |b| && forall r :: 0 <= r < |a| ==> b[r].events == a[r].events
  }

  lemma SentSurvives(log: Log, a: seq<Request>, b: seq<Request>)
    requires LogIsSent(log, a) && KeepsEvents(a, b)
    ensures LogIsSent(log, b)
  {
    forall p, o | 0 <= p < |log| && 0 <= o < |log[p]| ensures Sent(b, log[p][o]) {
      var r, k :| 0 <= r < |a| && 0 <= k < |a[r].events| && MarshalEvent(a[r].events[k]) == Ok(log[p][o]);
      assert b[r].events[k] == a[r].events[k];
    }
  }

  lemma PlacedSurvives(log: Log, log': Log, q: Request)
    requires PrefixPlaced(log, q) && Extends(log, log')
    ensures PrefixPlaced(log', q)
  {
    forall k | 0 <= k < |q.placed| ensures At(log', q.placed[k], q.events[k]) {
      var place := q.placed[k];
      assert log'[place.partition][place.offset] == log[place.partition][place.offset];
    }
  }

  /** Appending the encoding of a request's event to a partition. */
  lemma ProduceKeepsInv(c: W.Config, s: System, r: nat, k: nat, p: nat)
    requires Inv(c, s) && HasEvent(s, r, k) && p < |s.writer.log|
    ensures var t := Produced(s, p, PayloadOf(s, r, k));
            && Inv(c, t) && Extends(s.writer.log, t.writer.log)
            && t.writer == W.Step(c, s.writer, W.Produce(p, PayloadOf(s, r, k)))
  {
    var v := PayloadOf(s, r, k);
    var t := Produced(s, p, v);
    WriterSafety.StepKeepsInv(c, s.writer, W.Produce(p, v));
    assert Extends(s.writer.log, t.writer.log);
    forall q, o | 0 <= q < |t.writer.log| && 0 <= o < |t.writer.log[q]| ensures Sent(t.requests, t.writer.log[q][o]) {
      if q == p && o == |s.writer.log[p]| {
        assert t.writer.log[q][o] == v;
        assert MarshalEvent(s.requests[r].events[k]) == Ok(v);
      } else {
        assert t.writer.log[q][o] == s.writer.log[q][o];
      }
    }
    forall i | 0 <= i < |t.requests| ensures PrefixPlaced(t.writer.log, t.requests[i]) {
      PlacedSurvives(s.writer.log, t.writer.log, s.requests[i]);
    }
  }

  lemma PublishOkKeepsInv(c: W.Config, s: System, a: Action)
    requires Inv(c, s) && Enabled(s, a) && a.PublishOk?
    ensures Inv(c, Step(c, s, a))
  {
    var mid := Produced(s, a.p, SentBy(s, a));
    ProduceKeepsInv(c, s, a.r, |s.requests[a.r].placed|, a.p);
    var t := Step(c, s, a);
    SentSurvives(mid.writer.log, mid.requests, t.requests);
    PlacedOneMore(s.writer.log, mid.writer.log, s.requests[a.r], a.p);
    assert forall i :: 0 <= i < |t.requests| && i != a.r ==> t.requests[i] == s.requests[i];
  }

  lemma PlacedOneMore(log: Log, log': Log, q: Request, p: nat)
    requires PrefixPlaced(log, q) && |q.placed| < |q.events| && p < |log| && q.status.Publishing?
    requires MarshalEvent(q.events[|q.placed|]).Ok? && log' == Append(log, p, MarshalEvent(q.events[|q.placed|]).value)
    ensures PrefixPlaced(log', q.(placed := q.placed + [Place(p, |log[p]|)]))
  {
    assert Extends(log, log');
    PlacedSurvives(log, log', q);
    assert At(log', Place(p, |log[p]|), q.events[|q.placed|]);
    forall k | 0 <= k < |q.placed| ensures q.placed[k].partition == p ==> q.placed[k].offset < |log[p]| {
      assert At(log, q.placed[k], q.events[k]);
    }
  }

  lemma RequestKeepsInv(c: W.Config, s: System, t: System, q: Request)
    requires Inv(c, s) && t.writer == s.writer && t.requests == s.requests + [q]
    requires q.placed == [] && (q.kind.Rest? ==> |q.events| <= 1)
    requires q.status.Publishing? || (q.status.BadRequest? && q.events == [])
    ensures Inv(c, t)
  {
    SentSurvives(s.writer.log, s.requests, t.requests);
  }

  lemma StatusKeepsInv(c: W.Config, s: System, t: System, r: nat, status: Status)
    requires Inv(c, s) && r < |s.requests| && t.writer == s.writer
    requires t.requests == s.requests[r := s.requests[r].(status := status)]
    requires || (status.Accepted? && |s.requests[r].placed| == |s.requests[r].events|)
             || (status.BadGateway? && |s.requests[r].placed| < |s.requests[r].events|)
    ensures Inv(c, t)
  {
    SentSurvives(s.writer.log, s.requests, t.requests);
    assert PrefixPlaced(s.writer.log, s.requests[r]);
    forall i | 0 <= i < |t.requests| ensures PrefixPlaced(t.writer.log, t.requests[i]) {
      assert PrefixPlaced(s.writer.log, s.requests[i]);
    }
  }

  lemma WriterKeepsInv(c: W.Config, s: System, a: Action)
    requires Inv(c, s) && Enabled(s, a) && a.Writer?
    ensures Inv(c, Step(c, s, a))
  {
    WriterSafety.StepKeepsInv(c, s.writer, a.a);
    SentDecodes(s.writer.log, s.requests);
    DecodingStep(c, s.writer, a.a);
    WriterKeepsLog(c, s.writer, a.a);
  }

  lemma WriterKeepsLog(c: W.Config, s: W.State, a: W.Action)
    requires W.Enabled(s, a) && !a.Produce?
    ensures W.Step(c, s, a).log == s.log
  {
  }

  lemma NewRequestKeepsInv(c: W.Config, s: System, a: Action)
    requires Inv(c, s) && (a.RestRequest? || a.OtlpRequest?)
    ensures Inv(c, Step(c, s, a))
  {
    var t := Step(c, s, a);
    RequestKeepsInv(c, s, t, t.requests[|s.requests|]);
  }

  lemma StepKeepsInv(c: W.Config, s: System, a: Action)
    requires Inv(c, s) && Enabled(s, a)
    ensures Inv(c, Step(c, s, a))
  {
    match a {
      case RestRequest(_, _) => NewRequestKeepsInv(c, s, a);
      case OtlpRequest(_, _) => NewRequestKeepsInv(c, s, a);
      case PublishOk(_, _) => PublishOkKeepsInv(c, s, a);
      case PublishStray(r, k, p) => ProduceKeepsInv(c, s, r, k, p);
      case PublishFail(r) => StatusKeepsInv(c, s, Step(c, s, a), r, BadGateway);
      case Answer(r) => StatusKeepsInv(c, s, Step(c, s, a), r, Accepted);
      case Writer(_) => WriterKeepsInv(c, s, a);
    }
  }

  lemma {:induction false} RunKeepsInv(c: W.Config, s: System, run: seq<Action>)
    requires Inv(c, s) && Valid(c, s, run)
    ensures Inv(c, Exec(c, s, run))
    decreases |run|
  {
    if run != [] {
      StepKeepsInv(c, s, run[0]);
      RunKeepsInv(c, Step(c, s, run[0]), run[1..]);
    }
  }

  // ---------- the theorems ----------

  /**
    The event as it is stored: everything as it was accepted, but for the level, which is normalised, and an
    attribute map without entries, which is nil.
   */
  predicate StoredForm(e: LogEvent, row: LogEvent) {
    && row.timestamp == e.timestamp && row.id == e.id && row.message == e.message && row.service == e.service
    && row.host == e.host && row.environment == e.environment && row.requestId == e.requestId
    && row.clientIp == e.clientIp && row.userAgent == e.userAgent && row.requestMethod == e.requestMethod
    && row.requestPath == e.requestPath && row.responseStatus == e.responseStatus
    && row.responseDurationMs == e.responseDurationMs
    && row.logLevel == (if Blank(e.logLevel) then "INFO" else ToUpper(TrimSpace(e.logLevel)))
    && row.attrs == (if e.attrs.None? || e.attrs.value == map[] then None else e.attrs)
  }

  lemma DeliveredForm(e: LogEvent)
    ensures StoredForm(e, Delivered(e))
  {
    NormalisedLevel(e.logLevel);
  }

  /**
    End to end. After any interleaving of requests and writer steps, every event of a request answered 201 or
    200 is in the topic, decodes there to its stored form, with all its attributes, and is in the store in that
    form once the offset after it is committed.
   */
  lemma AcceptedIsDelivered(c: W.Config, partitions: nat, run: seq<Action>, r: nat, k: nat)
    requires Valid(c, Init(partitions), run)
    requires var s := Exec(c, Init(partitions), run);
             r < |s.requests| && s.requests[r].status.Accepted? && k < |s.requests[r].events|
    ensures var s := Exec(c, Init(partitions), run);
            var e := s.requests[r].events[k];
            && k < |s.requests[r].placed|
            && var place := s.requests[r].placed[k];
               && At(s.writer.log, place, e)
               && UnmarshalEvent(s.writer.log[place.partition][place.offset]) == Ok(Delivered(e))
               && StoredForm(e, Delivered(e))
               && place.partition < |s.writer.committed|
               && (place.offset < s.writer.committed[place.partition] ==> Delivered(e) in s.writer.store)
  {
    InitInv(c, partitions);
    RunKeepsInv(c, Init(partitions), run);
    var s := Exec(c, Init(partitions), run);
    var q := s.requests[r];
    assert PrefixPlaced(s.writer.log, q);
    var place := q.placed[k];
    assert At(s.writer.log, place, q.events[k]);
    PublishedDecodes(q.events[k]);
    DeliveredForm(q.events[k]);
    if place.offset < s.writer.committed[place.partition] {
      assert Stored(s.writer.log[place.partition][place.offset], s.writer.store);
    }
  }

  /**
    Nothing else gets in: every row of the store is the stored form of an event of some request, and the writer
    never meets a message it cannot decode.
   */
  lemma OnlyRequestedIsStored(c: W.Config, partitions: nat, run: seq<Action>, i: nat)
    requires Valid(c, Init(partitions), run)
    requires i < |Exec(c, Init(partitions), run).writer.store|
    ensures var s := Exec(c, Init(partitions), run);
            && NoDecodeFailure(s.writer)
            && exists r, k :: 0 <= r < |s.requests| && 0 <= k < |s.requests[r].events|
                           && s.writer.store[i] == Delivered(s.requests[r].events[k])
                           && StoredForm(s.requests[r].events[k], s.writer.store[i])
  {
    InitInv(c, partitions);
    RunKeepsInv(c, Init(partitions), run);
    var s := Exec(c, Init(partitions), run);
    var log := s.writer.log;
    assert FromLog(log, s.writer.store[i]);
    var p, o :| 0 <= p < |log| && 0 <= o < |log[p]| && UnmarshalEvent(log[p][o]) == Ok(s.writer.store[i]);
    assert Sent(s.requests, log[p][o]);
    var r, k :| 0 <= r < |s.requests| && 0 <= k < |s.requests[r].events| && MarshalEvent(s.requests[r].events[k]) == Ok(log[p][o]);
    PublishedDecodes(s.requests[r].events[k]);
    DeliveredForm(s.requests[r].events[k]);
  }
}
