/**
  What the gateway's counters and the topic say about each other, over every interleaving of concurrent
  requests (and of the writer, which does not matter here).
 */
module Conservation {
  import opened Schema
  import opened Sums
  import opened PartitionedLog
  import W = WriterMachine
  import E = EndToEnd
  import opened EndToEnd

  /** Something counted per request. */
  function PerRequest(f: Request -> nat, requests: seq<Request>): (r: seq<nat>)
    ensures |r| == |requests| && forall i :: 0 <= i < |r| ==> r[i] == f(requests[i])
  {
    seq(|requests|, i requires 0 <= i < |requests| => f(requests[i]))
  }

  function Total(f: Request -> nat, requests: seq<Request>): (r: nat) { Sum(PerRequest(f, requests)) }

  lemma TotalUpdate(f: Request -> nat, requests: seq<Request>, r: nat, q: Request)
    requires r < |requests|
    ensures Total(f, requests[r := q]) == Total(f, requests) - f(requests[r]) + f(q)
  {
    assert PerRequest(f, requests[r := q]) == PerRequest(f, requests)[r := f(q)];
    SumUpdate(PerRequest(f, requests), r, f(q));
  }

  lemma TotalAppend(f: Request -> nat, requests: seq<Request>, q: Request)
    ensures Total(f, requests + [q]) == Total(f, requests) + f(q)
  {
    assert PerRequest(f, requests + [q])[..|requests|] == PerRequest(f, requests);
  }

  function PlacedOf(q: Request): (r: nat) { |q.placed| }
  function AcceptedOf(q: Request): (r: nat) { if q.status.Accepted? then |q.events| else 0 }
  function PendingOf(q: Request): (r: nat) { if q.status.Publishing? then 1 else 0 }

  /** A REST request that is being published or was accepted has exactly one event. */
  predicate OneRestEvent(q: Request) {
    q.kind.Rest? && (q.status.Publishing? || q.status.Accepted?) ==> |q.events| == 1
  }

  ghost predicate Balanced(s: System) {
    && (forall r :: 0 <= r < |s.requests| ==> OneRestEvent(s.requests[r]))
    && Total(PlacedOf, s.requests) <= Sum(Lengths(s.writer.log))
    && s.metrics.restOk + s.metrics.otlpLogs == Total(AcceptedOf, s.requests)
    && s.metrics.restOk + s.metrics.restErr + s.metrics.otlpOk + s.metrics.otlpErr + Total(PendingOf, s.requests)
       == |s.requests|
  }

  lemma AppendLength(log: Log, p: nat, v: Payload)
    requires p < |log|
    ensures Sum(Lengths(Append(log, p, v))) == Sum(Lengths(log)) + 1
  {
    assert Lengths(Append(log, p, v)) == Lengths(log)[p := |log[p]| + 1];
    SumUpdate(Lengths(log), p, |log[p]| + 1);
  }

  lemma NewRequestBalances(s: System, t: System, q: Request)
    requires Balanced(s) && t.writer == s.writer && t.requests == s.requests + [q]
    requires q.placed == [] && OneRestEvent(q)
    requires || (q.status.Publishing? && t.metrics == s.metrics)
             || (q.status.BadRequest? && t.metrics == CountError(s.metrics, q.kind))
    ensures Balanced(t)
  {
    TotalAppend(PlacedOf, s.requests, q);
    TotalAppend(AcceptedOf, s.requests, q);
    TotalAppend(PendingOf, s.requests, q);
  }

  lemma AnswerBalances(s: System, t: System, r: nat, status: Status)
    requires Balanced(s) && r < |s.requests| && s.requests[r].status.Publishing? && t.writer == s.writer
    requires t.requests == s.requests[r := s.requests[r].(status := status)]
    requires || (status.Accepted? && t.metrics == CountOk(s.metrics, s.requests[r].kind, |s.requests[r].events|))
             || (status.BadGateway? && t.metrics == CountError(s.metrics, s.requests[r].kind))
    ensures Balanced(t)
  {
    var q := s.requests[r].(status := status);
    assert OneRestEvent(s.requests[r]);
    TotalUpdate(PlacedOf, s.requests, r, q);
    TotalUpdate(AcceptedOf, s.requests, r, q);
    TotalUpdate(PendingOf, s.requests, r, q);
  }

  lemma PublishBalances(c: W.Config, s: System, a: Action)
    requires Balanced(s) && E.Enabled(s, a) && Sends(a)
    ensures Balanced(E.Step(c, s, a))
  {
    AppendLength(s.writer.log, a.p, SentBy(s, a));
    if a.PublishOk? {
      var q := E.Step(c, s, a).requests[a.r];
      assert OneRestEvent(s.requests[a.r]);
      TotalUpdate(PlacedOf, s.requests, a.r, q);
      TotalUpdate(AcceptedOf, s.requests, a.r, q);
      TotalUpdate(PendingOf, s.requests, a.r, q);
    }
  }

  lemma StepBalances(c: W.Config, s: System, a: Action)
    requires Balanced(s) && E.Enabled(s, a)
    ensures Balanced(E.Step(c, s, a))
  {
    var t := E.Step(c, s, a);
    if a.RestRequest? || a.OtlpRequest? {
      NewRequestBalances(s, t, t.requests[|s.requests|]);
    } else if Sends(a) {
      PublishBalances(c, s, a);
    } else if a.PublishFail? {
      AnswerBalances(s, t, a.r, BadGateway);
    } else if a.Answer? {
      AnswerBalances(s, t, a.r, Accepted);
    } else {
      WriterKeepsLog(c, s.writer, a.a);
    }
  }

  lemma {:induction false} RunBalances(c: W.Config, s: System, run: seq<Action>)
    requires Balanced(s) && E.Valid(c, s, run)
    ensures Balanced(E.Exec(c, s, run))
    decreases |run|
  {
    if run != [] {
      StepBalances(c, s, run[0]);
      RunBalances(c, E.Step(c, s, run[0]), run[1..]);
    }
  }

  // ---------- each counter for itself ----------

  /** One for a request of the kind that was answered well. */
  function Won(kind: Kind, q: Request): (r: nat) { if q.kind == kind && q.status.Accepted? then 1 else 0 }
  /** Refused, or not published. */
  predicate Failed(q: Request) { q.status.BadRequest? || q.status.BadGateway? }
  /** One for a request of the kind that was answered badly. */
  function Lost(kind: Kind, q: Request): (r: nat) { if q.kind == kind && Failed(q) then 1 else 0 }
  function RestWon(q: Request): (r: nat) { Won(Rest, q) }
  function RestLost(q: Request): (r: nat) { Lost(Rest, q) }
  function OtlpWon(q: Request): (r: nat) { Won(OtlpLogs, q) }
  function OtlpLost(q: Request): (r: nat) { Lost(OtlpLogs, q) }
  function LogsWon(q: Request): (r: nat) { if q.kind.OtlpLogs? && q.status.Accepted? then |q.events| else 0 }

  ghost predicate CountedByKind(requests: seq<Request>, m: IngestMetrics) {
    && m.restOk == Total(RestWon, requests) && m.restErr == Total(RestLost, requests)
    && m.otlpOk == Total(OtlpWon, requests) && m.otlpErr == Total(OtlpLost, requests)
    && m.otlpLogs == Total(LogsWon, requests)
  }

  lemma NewCounted(requests: seq<Request>, m: IngestMetrics, q: Request, m': IngestMetrics)
    requires CountedByKind(requests, m)
    requires || (q.status.Publishing? && m' == m) || (q.status.BadRequest? && m' == CountError(m, q.kind))
    ensures CountedByKind(requests + [q], m')
  {
    TotalAppend(RestWon, requests, q);
    TotalAppend(RestLost, requests, q);
    TotalAppend(OtlpWon, requests, q);
    TotalAppend(OtlpLost, requests, q);
    TotalAppend(LogsWon, requests, q);
  }

  lemma UpdateCounted(requests: seq<Request>, m: IngestMetrics, r: nat, q: Request, m': IngestMetrics)
    requires CountedByKind(requests, m) && r < |requests| && requests[r].status.Publishing?
    requires q.kind == requests[r].kind
    requires || (q.status.Publishing? && m' == m)
             || (q.status.Accepted? && m' == CountOk(m, q.kind, |q.events|))
             || (q.status.BadGateway? && m' == CountError(m, q.kind))
    ensures CountedByKind(requests[r := q], m')
  {
    TotalUpdate(RestWon, requests, r, q);
    TotalUpdate(RestLost, requests, r, q);
    TotalUpdate(OtlpWon, requests, r, q);
    TotalUpdate(OtlpLost, requests, r, q);
    TotalUpdate(LogsWon, requests, r, q);
  }

  lemma StepCounts(c: W.Config, s: System, a: Action)
    requires CountedByKind(s.requests, s.metrics) && E.Enabled(s, a)
    ensures CountedByKind(E.Step(c, s, a).requests, E.Step(c, s, a).metrics)
  {
    var t := E.Step(c, s, a);
    if a.RestRequest? || a.OtlpRequest? {
      NewCounted(s.requests, s.metrics, t.requests[|s.requests|], t.metrics);
    } else if a.PublishOk? || a.PublishFail? || a.Answer? {
      UpdateCounted(s.requests, s.metrics, a.r, t.requests[a.r], t.metrics);
    }
  }

  lemma {:induction false} RunCounts(c: W.Config, s: System, run: seq<Action>)
    requires CountedByKind(s.requests, s.metrics) && E.Valid(c, s, run)
    ensures CountedByKind(E.Exec(c, s, run).requests, E.Exec(c, s, run).metrics)
    decreases |run|
  {
    if run != [] {
      StepCounts(c, s, run[0]);
      RunCounts(c, E.Step(c, s, run[0]), run[1..]);
    }
  }

  /**
    The five counters, in every reachable state: each is the number of the answered requests of its own kind and
    outcome, a refused request counting as one that failed, and the last the number of events of the accepted OTLP
    requests.
   */
  lemma CountersByKind(c: W.Config, partitions: nat, run: seq<Action>)
    requires E.Valid(c, E.Init(partitions), run)
    ensures var s := E.Exec(c, E.Init(partitions), run); var m := s.metrics;
            && m.restOk == Total((q: Request) => if q.kind.Rest? && q.status.Accepted? then 1 else 0, s.requests)
            && m.restErr == Total((q: Request) => if q.kind.Rest? && Failed(q) then 1 else 0, s.requests)
            && m.otlpOk == Total((q: Request) => if q.kind.OtlpLogs? && q.status.Accepted? then 1 else 0, s.requests)
            && m.otlpErr == Total((q: Request) => if q.kind.OtlpLogs? && Failed(q) then 1 else 0, s.requests)
            && m.otlpLogs == Total((q: Request) => if q.kind.OtlpLogs? && q.status.Accepted? then |q.events| else 0,
                                   s.requests)
  {
    RunCounts(c, E.Init(partitions), run);
    var requests := E.Exec(c, E.Init(partitions), run).requests;
    SameTotal((q: Request) => if q.kind.Rest? && q.status.Accepted? then 1 else 0, RestWon, requests);
    SameTotal((q: Request) => if q.kind.Rest? && Failed(q) then 1 else 0, RestLost, requests);
    SameTotal((q: Request) => if q.kind.OtlpLogs? && q.status.Accepted? then 1 else 0, OtlpWon, requests);
    SameTotal((q: Request) => if q.kind.OtlpLogs? && Failed(q) then 1 else 0, OtlpLost, requests);
    SameTotal((q: Request) => if q.kind.OtlpLogs? && q.status.Accepted? then |q.events| else 0, LogsWon, requests);
  }

  lemma SameTotal(f: Request -> nat, g: Request -> nat, requests: seq<Request>)
    requires forall q :: f(q) == g(q)
    ensures Total(f, requests) == Total(g, requests)
  {
    assert PerRequest(f, requests) == PerRequest(g, requests);
  }

  // ---------- places ----------

  /** No two published events share a place in the topic. */
  ghost predicate PlacesDistinct(requests: seq<Request>) {
    forall r, k, r', k' |
      && 0 <= r < |requests| && 0 <= k < |requests[r].placed|
      && 0 <= r' < |requests| && 0 <= k' < |requests[r'].placed|
      && (r, k) != (r', k')
      :: requests[r].placed[k] != requests[r'].placed[k']
  }

  lemma PlacesDiffer(requests: seq<Request>, r: nat, k: nat, r': nat, k': nat)
    requires PlacesDistinct(requests) && r < |requests| && r' < |requests| && (r, k) != (r', k')
    requires k < |requests[r].placed| && k' < |requests[r'].placed|
    ensures requests[r].placed[k] != requests[r'].placed[k']
  {
  }

  /** Nothing new is placed. */
  lemma DistinctSurvives(a: seq<Request>, b: seq<Request>)
    requires PlacesDistinct(a) && |a| <= |b|
    requires forall r :: 0 <= r < |b| ==> b[r].placed == if r < |a| then a[r].placed else []
    ensures PlacesDistinct(b)
  {
  }

  lemma StepKeepsPlacesDistinct(c: W.Config, s: System, a: Action)
    requires E.Inv(c, s) && PlacesDistinct(s.requests) && E.Enabled(s, a)
    ensures PlacesDistinct(E.Step(c, s, a).requests)
  {
    var t := E.Step(c, s, a);
    if a.PublishOk? {
      forall r, k | 0 <= r < |s.requests| && 0 <= k < |s.requests[r].placed|
        ensures s.requests[r].placed[k] != Place(a.p, |s.writer.log[a.p]|)
      {
        assert PrefixPlaced(s.writer.log, s.requests[r]);
        assert At(s.writer.log, s.requests[r].placed[k], s.requests[r].events[k]);
      }
      DistinctAfterPlacing(s.requests, t.requests, a.r, Place(a.p, |s.writer.log[a.p]|));
    } else {
      DistinctSurvives(s.requests, t.requests);
    }
  }

  lemma DistinctAfterPlacing(a: seq<Request>, b: seq<Request>, r: nat, place: Place)
    requires PlacesDistinct(a) && r < |a| && b == a[r := a[r].(placed := a[r].placed + [place])]
    requires forall i, k :: 0 <= i < |a| && 0 <= k < |a[i].placed| ==> a[i].placed[k] != place
    ensures PlacesDistinct(b)
  {
    forall i, k, i', k' | 0 <= i < |b| && 0 <= k < |b[i].placed| && 0 <= i' < |b| && 0 <= k' < |b[i'].placed| && (i, k) != (i', k')
      ensures b[i].placed[k] != b[i'].placed[k']
    {
      assert k < |a[i].placed| ==> b[i].placed[k] == a[i].placed[k];
      assert k' < |a[i'].placed| ==> b[i'].placed[k'] == a[i'].placed[k'];
    }
  }

  lemma {:induction false} RunKeepsPlacesDistinct(c: W.Config, s: System, run: seq<Action>)
    requires E.Inv(c, s) && PlacesDistinct(s.requests) && E.Valid(c, s, run)
    ensures PlacesDistinct(E.Exec(c, s, run).requests)
    decreases |run|
  {
    if run != [] {
      E.StepKeepsInv(c, s, run[0]);
      StepKeepsPlacesDistinct(c, s, run[0]);
      RunKeepsPlacesDistinct(c, E.Step(c, s, run[0]), run[1..]);
    }
  }

  // ---------- runs without stray messages ----------

  /** Every message of the topic was acknowledged: the broker never wrote one without reporting success. */
  predicate NoStray(run: seq<Action>) {
    forall i :: 0 <= i < |run| ==> !run[i].PublishStray?
  }

  lemma StepWithoutStray(c: W.Config, s: System, a: Action)
    requires E.Enabled(s, a) && !a.PublishStray? && Total(PlacedOf, s.requests) == Sum(Lengths(s.writer.log))
    ensures var t := E.Step(c, s, a); Total(PlacedOf, t.requests) == Sum(Lengths(t.writer.log))
  {
    var t := E.Step(c, s, a);
    if a.RestRequest? || a.OtlpRequest? {
      TotalAppend(PlacedOf, s.requests, t.requests[|s.requests|]);
    } else if a.Writer? {
      WriterKeepsLog(c, s.writer, a.a);
    } else {
      TotalUpdate(PlacedOf, s.requests, a.r, t.requests[a.r]);
      if a.PublishOk? { AppendLength(s.writer.log, a.p, SentBy(s, a)); }
    }
  }

  lemma {:induction false} RunWithoutStray(c: W.Config, s: System, run: seq<Action>)
    requires E.Valid(c, s, run) && NoStray(run) && Total(PlacedOf, s.requests) == Sum(Lengths(s.writer.log))
    ensures var t := E.Exec(c, s, run); Total(PlacedOf, t.requests) == Sum(Lengths(t.writer.log))
    decreases |run|
  {
    if run != [] {
      assert !run[0].PublishStray?;
      StepWithoutStray(c, s, run[0]);
      assert NoStray(run[1..]);
      RunWithoutStray(c, E.Step(c, s, run[0]), run[1..]);
    }
  }

  // ---------- the theorems ----------

  /** The request got as far as publishing and has been answered. */
  predicate Answered(q: Request) { q.status.Accepted? || q.status.BadGateway? }

  /**
    Gateway conservation, in every reachable state. Each request has put a prefix of its events into the topic,
    each in a place of its own and in order within a partition; an answered request has put in the whole of
    them if and only if it was accepted; the accepted REST requests and OTLP records together never outnumber
    the messages of the topic; and every request is counted once, as answered well or badly or in progress.
   */
  lemma GatewayConservation(c: W.Config, partitions: nat, run: seq<Action>)
    requires E.Valid(c, E.Init(partitions), run)
    ensures var s := E.Exec(c, E.Init(partitions), run); var m := s.metrics;
            && RequestsPlaced(s.writer.log, s.requests)
            && PlacesDistinct(s.requests)
            && (forall q :: q in s.requests && Answered(q) ==> (q.status.Accepted? <==> |q.placed| == |q.events|))
            && m.restOk + m.otlpLogs == Total(AcceptedOf, s.requests)
            && m.restOk + m.otlpLogs <= Sum(Lengths(s.writer.log))
            && m.restOk + m.restErr + m.otlpOk + m.otlpErr + Total(PendingOf, s.requests) == |s.requests|
  {
    E.InitInv(c, partitions);
    E.RunKeepsInv(c, E.Init(partitions), run);
    RunBalances(c, E.Init(partitions), run);
    RunKeepsPlacesDistinct(c, E.Init(partitions), run);
    var s := E.Exec(c, E.Init(partitions), run);
    forall r | 0 <= r < |s.requests| ensures AcceptedOf(s.requests[r]) <= PlacedOf(s.requests[r]) {
      assert PrefixPlaced(s.writer.log, s.requests[r]);
    }
    SumMonotone(PerRequest(AcceptedOf, s.requests), PerRequest(PlacedOf, s.requests));
  }

  /**
    With a broker that reports what it writes, as the in-memory one does while no handler fails, the topic is
    exactly what the requests put there: its length is the number of events they have placed, no more.
   */
  lemma TopicIsWhatWasPlaced(c: W.Config, partitions: nat, run: seq<Action>)
    requires E.Valid(c, E.Init(partitions), run) && NoStray(run)
    ensures var s := E.Exec(c, E.Init(partitions), run);
            Sum(Lengths(s.writer.log)) == Total(PlacedOf, s.requests)
  {
    ZeroSum(Lengths(E.Init(partitions).writer.log));
    RunWithoutStray(c, E.Init(partitions), run);
  }
}
