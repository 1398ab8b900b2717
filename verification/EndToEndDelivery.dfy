/**
  Delivery from end to end, counted and with its outlook: every acknowledged event whose place is committed has
  a row of its own in the store, and from every reachable state the writer can get to a point where that is so
  for all of them.
 */
module EndToEndDelivery {
  import opened Schema
  import opened PartitionedLog
  import W = WriterMachine
  import opened WriterRefinement
  import opened WriterCounting
  import WriterProgress
  import E = EndToEnd
  import opened EndToEnd
  import opened Conservation

  // ---------- committed messages ----------

  lemma {:induction false} IsBelow(log: Log, at: seq<nat>, n: nat, p: nat, o: nat)
    requires Offsets(log, at) && p < n <= |log| && o < at[p]
    ensures MessageAt(log, p, o) in MessagesBelow(log, at, n)
    decreases n
  {
    if p == n - 1 {
      assert Slice(log, p, 0, at[p])[o] == MessageAt(log, p, o);
    } else {
      IsBelow(log, at, n - 1, p, o);
    }
  }

  // ---------- messages without repetition ----------

  ghost predicate Distinct(ms: seq<Message>) {
    forall i, j :: 0 <= i < j < |ms| ==> ms[i] != ms[j]
  }

  lemma {:induction false} DistinctCount(ms: seq<Message>, m: Message)
    requires Distinct(ms)
    ensures multiset(ms)[m] <= 1
    decreases |ms|
  {
    if ms != [] {
      var front, last := ms[..|ms| - 1], ms[|ms| - 1];
      assert ms == front + [last];
      DistinctCount(front, m);
      if m == last { assert m !in multiset(front); }
    }
  }

  lemma DistinctIsContained(a: seq<Message>, b: seq<Message>)
    requires Distinct(a) && forall i :: 0 <= i < |a| ==> a[i] in b
    ensures multiset(a) <= multiset(b)
  {
    forall m ensures multiset(a)[m] <= multiset(b)[m] {
      DistinctCount(a, m);
      if m in multiset(a) { assert m in a && m in b; }
    }
  }

  lemma TakeOut<T>(b: seq<T>, i: nat)
    requires i < |b|
    ensures multiset(b) == multiset(b[..i] + b[i + 1..]) + multiset{b[i]}
  {
    assert b == b[..i] + [b[i]] + b[i + 1..];
  }

  lemma OneLess<T>(a: multiset<T>, b: multiset<T>, x: T)
    requires a + multiset{x} <= b + multiset{x}
    ensures a <= b
  {
    forall y ensures a[y] <= b[y] {
      assert (a + multiset{x})[y] <= (b + multiset{x})[y];
    }
  }

  lemma WeightTakeOut(f: Weight, b: seq<Message>, i: nat)
    requires Additive(f) && i < |b|
    ensures f(b) == f(b[..i] + b[i + 1..]) + f([b[i]])
  {
    assert b == b[..i] + ([b[i]] + b[i + 1..]);
  }

  /** Fewer messages, less weight. */
  lemma {:induction false} FewerMessages(f: Weight, a: seq<Message>, b: seq<Message>)
    requires Additive(f) && multiset(a) <= multiset(b)
    ensures f(a) <= f(b)
    decreases |a|
  {
    if a != [] {
      var front, last := a[..|a| - 1], a[|a| - 1];
      assert a == front + [last];
      assert last in multiset(b);
      var i :| 0 <= i < |b| && b[i] == last;
      var others := b[..i] + b[i + 1..];
      TakeOut(b, i);
      assert multiset(a) == multiset(front) + multiset{last};
      OneLess(multiset(front), multiset(others), last);
      FewerMessages(f, front, others);
      WeightTakeOut(f, b, i);
    }
  }

  // ---------- acknowledged events ----------

  predicate IsCommitted(at: seq<nat>, place: Place) {
    place.partition < |at| && place.offset < at[place.partition]
  }

  predicate Ordered(q: Request) { |q.placed| <= |q.events| }

  /** Of n items, those whose place is committed. */
  function Settled<T>(at: seq<nat>, places: seq<Place>, items: seq<T>, n: nat): (r: seq<T>)
    requires n <= |places| <= |items|
  {
    if n == 0 then []
    else if IsCommitted(at, places[n - 1]) then Settled(at, places, items, n - 1) + [items[n - 1]]
    else Settled(at, places, items, n - 1)
  }

  function DeliveredEvents(q: Request): (r: seq<LogEvent>)
    ensures |r| == |q.events| && forall k :: 0 <= k < |r| ==> r[k] == Delivered(q.events[k])
    ensures forall k :: 0 <= k < |r| ==> StoredForm(q.events[k], r[k])
  {
    assert forall k :: 0 <= k < |q.events| ==> StoredForm(q.events[k], Delivered(q.events[k])) by {
      forall k | 0 <= k < |q.events| ensures StoredForm(q.events[k], Delivered(q.events[k])) {
        DeliveredForm(q.events[k]);
      }
    }
    seq(|q.events|, k requires 0 <= k < |q.events| => Delivered(q.events[k]))
  }

  /** The events of a request whose places are committed, as they are delivered. */
  function SettledEvents(at: seq<nat>, q: Request): (r: seq<LogEvent>)
    requires Ordered(q)
  {
    Settled(at, q.placed, DeliveredEvents(q), |q.placed|)
  }

  /** The same over the first n requests, for those of a chosen kind. */
  function SettledOf(which: Request -> bool, at: seq<nat>, requests: seq<Request>, n: nat): (r: seq<LogEvent>)
    requires n <= |requests| && forall i :: 0 <= i < |requests| ==> Ordered(requests[i])
  {
    if n == 0 then []
    else
      var q, before := requests[n - 1], SettledOf(which, at, requests, n - 1);
      if which(q) then before + SettledEvents(at, q) else before
  }

  predicate InLog(log: Log, place: Place) {
    place.partition < |log| && place.offset < |log[place.partition]|
  }

  /** The places of the request are places of the topic. */
  predicate InTopic(log: Log, q: Request) {
    Ordered(q) && forall k :: 0 <= k < |q.placed| ==> InLog(log, q.placed[k])
  }

  predicate AllInTopic(log: Log, requests: seq<Request>) {
    forall r :: 0 <= r < |requests| ==> InTopic(log, requests[r])
  }

  function MessageOf(log: Log, place: Place): (m: Message)
    requires InLog(log, place)
    ensures m.partition == place.partition && m.offset == place.offset
  {
    MessageAt(log, place.partition, place.offset)
  }

  function MessagesOf(log: Log, q: Request): (r: seq<Message>)
    requires InTopic(log, q)
    ensures |r| == |q.placed| && forall k :: 0 <= k < |r| ==> r[k] == MessageOf(log, q.placed[k])
  {
    seq(|q.placed|, k requires 0 <= k < |q.placed| => MessageOf(log, q.placed[k]))
  }

  /** The messages that carry them. */
  function SettledMessages(log: Log, at: seq<nat>, q: Request): (r: seq<Message>)
    requires InTopic(log, q)
  {
    Settled(at, q.placed, MessagesOf(log, q), |q.placed|)
  }

  function SettledMessagesOf(which: Request -> bool, log: Log, at: seq<nat>, requests: seq<Request>, n: nat)
    : (r: seq<Message>)
    requires AllInTopic(log, requests) && n <= |requests|
  {
    if n == 0 then []
    else
      var q, before := requests[n - 1], SettledMessagesOf(which, log, at, requests, n - 1);
      if which(q) then before + SettledMessages(log, at, q) else before
  }

  // ---------- what the messages carry ----------

  /** What messages decode to, one after the other. */
  type Decoder = seq<Message> -> seq<LogEvent>

  ghost predicate Joins(f: Decoder) {
    f([]) == [] && forall a, b :: f(a + b) == f(a) + f(b)
  }

  /** At every place of the request is a message with its event. */
  ghost predicate Carried(f: Decoder, log: Log, q: Request) {
    InTopic(log, q) && forall k :: 0 <= k < |q.placed| ==> f([MessageOf(log, q.placed[k])]) == [Delivered(q.events[k])]
  }

  lemma {:induction false} DecodedItems(f: Decoder, at: seq<nat>, places: seq<Place>, ms: seq<Message>, es: seq<LogEvent>, n: nat)
    requires Joins(f) && n <= |places| <= |ms| && |places| <= |es|
    requires forall k :: 0 <= k < |places| ==> f([ms[k]]) == [es[k]]
    ensures f(Settled(at, places, ms, n)) == Settled(at, places, es, n)
    decreases n
  {
    if n > 0 { DecodedItems(f, at, places, ms, es, n - 1); }
  }

  lemma CarriedEvents(f: Decoder, log: Log, at: seq<nat>, q: Request)
    requires Joins(f) && Carried(f, log, q)
    ensures f(SettledMessages(log, at, q)) == SettledEvents(at, q)
  {
    DecodedItems(f, at, q.placed, MessagesOf(log, q), DeliveredEvents(q), |q.placed|);
  }

  lemma {:induction false} CarriedEventsOf(f: Decoder, which: Request -> bool, log: Log, at: seq<nat>,
                                           requests: seq<Request>, n: nat)
    requires Joins(f) && AllInTopic(log, requests) && n <= |requests|
    requires forall r :: 0 <= r < |requests| ==> Carried(f, log, requests[r])
    ensures f(SettledMessagesOf(which, log, at, requests, n)) == SettledOf(which, at, requests, n)
    decreases n
  {
    if n > 0 {
      CarriedEventsOf(f, which, log, at, requests, n - 1);
      CarriedEvents(f, log, at, requests[n - 1]);
    }
  }

  ghost function Decode(): (f: Decoder) { (ms: seq<Message>) => RowsOf(DecodedRow, ms) }

  lemma DecodeJoins()
    ensures Joins(Decode())
  {
    forall a, b ensures Decode()(a + b) == Decode()(a) + Decode()(b) { RowsOfConcat(DecodedRow, a, b); }
  }

  lemma PlacedIsCarried(log: Log, q: Request)
    requires PrefixPlaced(log, q)
    ensures Carried(Decode(), log, q)
  {
    forall k | 0 <= k < |q.placed|
      ensures InLog(log, q.placed[k]) && Decode()([MessageOf(log, q.placed[k])]) == [Delivered(q.events[k])]
    {
      assert At(log, q.placed[k], q.events[k]);
      PublishedDecodes(q.events[k]);
      DecodedRows([MessageOf(log, q.placed[k])], [Delivered(q.events[k])]);
    }
  }

  // ---------- each message once ----------

  /** The message is a committed one, at place k of the request. */
  predicate CarriesAt(log: Log, at: seq<nat>, q: Request, k: nat, m: Message) {
    && k < |q.placed| && InLog(log, q.placed[k]) && IsCommitted(at, q.placed[k])
    && m == MessageOf(log, q.placed[k])
  }

  lemma {:induction false} SettledAt<T>(at: seq<nat>, places: seq<Place>, items: seq<T>, n: nat, x: T)
    requires n <= |places| <= |items| && x in Settled(at, places, items, n)
    ensures exists k :: 0 <= k < n && IsCommitted(at, places[k]) && items[k] == x
    decreases n
  {
    if x in Settled(at, places, items, n - 1) { SettledAt(at, places, items, n - 1, x); }
  }

  lemma CarriedAt(log: Log, at: seq<nat>, q: Request, m: Message)
    requires InTopic(log, q) && m in SettledMessages(log, at, q)
    ensures exists k :: 0 <= k < |q.placed| && CarriesAt(log, at, q, k, m)
  {
    SettledAt(at, q.placed, MessagesOf(log, q), |q.placed|, m);
    var k :| 0 <= k < |q.placed| && IsCommitted(at, q.placed[k]) && MessagesOf(log, q)[k] == m;
    assert CarriesAt(log, at, q, k, m);
  }

  lemma {:induction false} CarriedBy(which: Request -> bool, log: Log, at: seq<nat>, requests: seq<Request>, n: nat, m: Message)
    requires AllInTopic(log, requests) && n <= |requests| && m in SettledMessagesOf(which, log, at, requests, n)
    ensures exists r, k :: 0 <= r < n && 0 <= k < |requests[r].placed| && CarriesAt(log, at, requests[r], k, m)
    decreases n
  {
    if m in SettledMessagesOf(which, log, at, requests, n - 1) {
      CarriedBy(which, log, at, requests, n - 1, m);
    } else {
      CarriedAt(log, at, requests[n - 1], m);
    }
  }

  lemma DistinctConcat(a: seq<Message>, b: seq<Message>)
    requires Distinct(a) && Distinct(b) && forall m, m' :: m in a && m' in b ==> m != m'
    ensures Distinct(a + b)
  {
    forall i, j | 0 <= i < j < |a + b| ensures (a + b)[i] != (a + b)[j] {
      if i < |a| <= j { assert a[i] in a && b[j - |a|] in b; }
    }
  }

  lemma {:induction false} SettledDistinct(at: seq<nat>, places: seq<Place>, ms: seq<Message>, n: nat)
    requires n <= |places| <= |ms| && Distinct(ms)
    ensures Distinct(Settled(at, places, ms, n))
    decreases n
  {
    if n > 0 {
      SettledDistinct(at, places, ms, n - 1);
      var front := Settled(at, places, ms, n - 1);
      forall m | m in front ensures m != ms[n - 1] {
        SettledAt(at, places, ms, n - 1, m);
      }
      DistinctConcat(front, [ms[n - 1]]);
    }
  }

  lemma {:induction false} SettledOfDistinct(which: Request -> bool, log: Log, at: seq<nat>, requests: seq<Request>, n: nat)
    requires AllInTopic(log, requests) && PlacesDistinct(requests) && n <= |requests|
    ensures Distinct(SettledMessagesOf(which, log, at, requests, n))
    decreases n
  {
    if n > 0 {
      SettledOfDistinct(which, log, at, requests, n - 1);
      var front, q := SettledMessagesOf(which, log, at, requests, n - 1), requests[n - 1];
      var back := SettledMessages(log, at, q);
      OwnMessagesDiffer(log, requests, n - 1);
      SettledDistinct(at, q.placed, MessagesOf(log, q), |q.placed|);
      forall m, m' | m in front && m' in back ensures m != m' {
        CarriedBy(which, log, at, requests, n - 1, m);
        CarriedAt(log, at, q, m');
        var r, k :| 0 <= r < n - 1 && 0 <= k < |requests[r].placed| && CarriesAt(log, at, requests[r], k, m);
        var k' :| 0 <= k' < |q.placed| && CarriesAt(log, at, q, k', m');
        PlacesDiffer(requests, r, k, n - 1, k');
      }
      DistinctConcat(front, back);
    }
  }

  lemma OwnMessagesDiffer(log: Log, requests: seq<Request>, r: nat)
    requires AllInTopic(log, requests) && PlacesDistinct(requests) && r < |requests|
    ensures Distinct(MessagesOf(log, requests[r]))
  {
    var ms := MessagesOf(log, requests[r]);
    forall j, k | 0 <= j < k < |ms| ensures ms[j] != ms[k] {
      PlacesDiffer(requests, r, j, r, k);
    }
  }

  lemma SettledAreBelow(which: Request -> bool, log: Log, at: seq<nat>, requests: seq<Request>)
    requires Offsets(log, at) && AllInTopic(log, requests) && PlacesDistinct(requests)
    ensures multiset(SettledMessagesOf(which, log, at, requests, |requests|)) <= multiset(MessagesBelow(log, at, |log|))
  {
    var ms := SettledMessagesOf(which, log, at, requests, |requests|);
    forall i | 0 <= i < |ms| ensures ms[i] in MessagesBelow(log, at, |log|) {
      CarriedBy(which, log, at, requests, |requests|, ms[i]);
      IsBelow(log, at, |log|, ms[i].partition, ms[i].offset);
    }
    SettledOfDistinct(which, log, at, requests, |requests|);
    DistinctIsContained(ms, MessagesBelow(log, at, |log|));
  }

  /** Acknowledged and committed events are among the events of the committed messages, one message for each. */
  lemma SettledAreCommitted(which: Request -> bool, log: Log, at: seq<nat>, requests: seq<Request>)
    requires Offsets(log, at) && RequestsPlaced(log, requests) && PlacesDistinct(requests)
    ensures forall i :: 0 <= i < |requests| ==> Ordered(requests[i])
    ensures multiset(SettledOf(which, at, requests, |requests|)) <= CommittedEvents(log, at)
  {
    forall r | 0 <= r < |requests| ensures Carried(Decode(), log, requests[r]) { PlacedIsCarried(log, requests[r]); }
    assert AllInTopic(log, requests);
    DecodeJoins();
    CarriedEventsOf(Decode(), which, log, at, requests, |requests|);
    SettledAreBelow(which, log, at, requests);
    SettledEventsBelow(which, log, at, requests);
  }

  lemma SettledEventsBelow(which: Request -> bool, log: Log, at: seq<nat>, requests: seq<Request>)
    requires Offsets(log, at) && AllInTopic(log, requests)
    requires var ms := SettledMessagesOf(which, log, at, requests, |requests|);
             && Decode()(ms) == SettledOf(which, at, requests, |requests|)
             && multiset(ms) <= multiset(MessagesBelow(log, at, |log|))
    ensures multiset(SettledOf(which, at, requests, |requests|)) <= CommittedEvents(log, at)
  {
    forall e ensures multiset(SettledOf(which, at, requests, |requests|))[e] <= CommittedEvents(log, at)[e] {
      RowsAreAdditive(e);
      FewerMessages(RowsWith(e), SettledMessagesOf(which, log, at, requests, |requests|), MessagesBelow(log, at, |log|));
    }
  }

  // ---------- what counts as settled ----------

  /** Every item whose place is below the committed offset of its partition is among the settled ones. */
  lemma {:induction false} SettledHas<T>(at: seq<nat>, places: seq<Place>, items: seq<T>, n: nat, k: nat)
    requires k < n <= |places| <= |items|
    requires places[k].partition < |at| && places[k].offset < at[places[k].partition]
    ensures items[k] in Settled(at, places, items, n)
    decreases n
  {
    if k < n - 1 { SettledHas(at, places, items, n - 1, k); }
  }

  /** So no acknowledged event of a chosen request is left out once its offset is committed. */
  lemma {:induction false} SettledOfHas(which: Request -> bool, at: seq<nat>, requests: seq<Request>, n: nat, r: nat, k: nat)
    requires r < n <= |requests| && forall i :: 0 <= i < |requests| ==> Ordered(requests[i])
    requires which(requests[r]) && k < |requests[r].placed| <= |requests[r].events|
    requires var place := requests[r].placed[k]; place.partition < |at| && place.offset < at[place.partition]
    ensures Delivered(requests[r].events[k]) in SettledOf(which, at, requests, n)
    decreases n
  {
    if r < n - 1 {
      SettledOfHas(which, at, requests, n - 1, r, k);
    } else {
      var q := requests[r];
      SettledHas(at, q.placed, DeliveredEvents(q), |q.placed|, k);
    }
  }

  // ---------- counting rows in the whole system ----------

  lemma StepKeepsRows(c: W.Config, s: System, a: E.Action)
    requires E.Inv(c, s) && RowsCover(s.writer) && E.Enabled(s, a)
    ensures RowsCover(E.Step(c, s, a).writer)
  {
    if a.Writer? {
      StepKeepsCounts(c, s.writer, a.a);
    } else if Sends(a) {
      ProduceKeepsInv(c, s, a.r, if a.PublishOk? then |s.requests[a.r].placed| else a.k, a.p);
      StepKeepsCounts(c, s.writer, W.Produce(a.p, SentBy(s, a)));
    }
  }

  lemma {:induction false} RunKeepsRows(c: W.Config, s: System, run: seq<E.Action>)
    requires E.Inv(c, s) && RowsCover(s.writer) && E.Valid(c, s, run)
    ensures RowsCover(E.Exec(c, s, run).writer)
    decreases |run|
  {
    if run != [] {
      E.StepKeepsInv(c, s, run[0]);
      StepKeepsRows(c, s, run[0]);
      RunKeepsRows(c, E.Step(c, s, run[0]), run[1..]);
    }
  }

  /**
    End to end, counted. After any interleaving of requests and writer steps, over any number of crashes and
    ambiguous failures, the acknowledged events whose places are committed are contained, as a multiset, in the
    rows of the store; for any choice of requests, and so for the accepted ones.
   */
  lemma CountedEndToEnd(c: W.Config, partitions: nat, run: seq<E.Action>, which: Request -> bool)
    requires E.Valid(c, E.Init(partitions), run)
    ensures var s := E.Exec(c, E.Init(partitions), run);
            && (forall i :: 0 <= i < |s.requests| ==> Ordered(s.requests[i]))
            && multiset(SettledOf(which, s.writer.committed, s.requests, |s.requests|)) <= multiset(s.writer.store)
  {
    var s0 := E.Init(partitions);
    var s := E.Exec(c, s0, run);
    E.InitInv(c, partitions);
    E.RunKeepsInv(c, s0, run);
    NothingBelow(s0.writer.log, s0.writer.committed, partitions);
    RunKeepsRows(c, s0, run);
    RunKeepsPlacesDistinct(c, s0, run);
    SettledAreCommitted(which, s.writer.log, s.writer.committed, s.requests);
  }

  // ---------- the outlook ----------

  function Lift(run: seq<W.Action>): (r: seq<E.Action>)
    ensures |r| == |run| && forall i :: 0 <= i < |r| ==> r[i] == Writer(run[i])
  {
    seq(|run|, i requires 0 <= i < |run| => Writer(run[i]))
  }

  /** What the writer can do alone, it can do in the system. */
  lemma {:induction false} LiftedRun(c: W.Config, s: System, run: seq<W.Action>)
    requires W.Valid(c, s.writer, run) && WriterProgress.NoProduce(run)
    ensures E.Valid(c, s, Lift(run)) && E.Exec(c, s, Lift(run)) == s.(writer := W.Exec(c, s.writer, run))
    decreases |run|
  {
    if run != [] {
      assert Lift(run)[1..] == Lift(run[1..]);
      LiftedRun(c, E.Step(c, s, Writer(run[0])), run[1..]);
    }
  }

  lemma {:induction false} AllSettled<T>(at: seq<nat>, places: seq<Place>, items: seq<T>, n: nat)
    requires n <= |places| <= |items| && forall k :: 0 <= k < n ==> IsCommitted(at, places[k])
    ensures Settled(at, places, items, n) == items[..n]
    decreases n
  {
    if n > 0 { AllSettled(at, places, items, n - 1); }
  }

  /** When everything is committed, every event in the topic counts. */
  lemma CaughtUpSettles(log: Log, at: seq<nat>, q: Request)
    requires PrefixPlaced(log, q) && |at| == |log| && forall p :: 0 <= p < |log| ==> at[p] == |log[p]|
    ensures SettledEvents(at, q) == DeliveredEvents(q)[..|q.placed|]
  {
    forall k | 0 <= k < |q.placed| ensures IsCommitted(at, q.placed[k]) {
      assert At(log, q.placed[k], q.events[k]);
    }
    AllSettled(at, q.placed, DeliveredEvents(q), |q.placed|);
  }

  /** Everything is committed, and every event of every accepted request has a row of its own. */
  ghost predicate AllAcceptedStored(s: System) {
    && WriterProgress.CaughtUp(s.writer)
    && (forall i :: 0 <= i < |s.requests| ==> Ordered(s.requests[i]))
    && (forall r :: 0 <= r < |s.requests| && s.requests[r].status.Accepted? ==>
          SettledEvents(s.writer.committed, s.requests[r]) == DeliveredEvents(s.requests[r]))
    && multiset(SettledOf((q: Request) => q.status.Accepted?, s.writer.committed, s.requests, |s.requests|))
       <= multiset(s.writer.store)
  }

  lemma CaughtUpStoresAccepted(c: W.Config, partitions: nat, run: seq<E.Action>)
    requires E.Valid(c, E.Init(partitions), run) && WriterProgress.CaughtUp(E.Exec(c, E.Init(partitions), run).writer)
    ensures AllAcceptedStored(E.Exec(c, E.Init(partitions), run))
  {
    var s := E.Exec(c, E.Init(partitions), run);
    E.InitInv(c, partitions);
    E.RunKeepsInv(c, E.Init(partitions), run);
    CountedEndToEnd(c, partitions, run, (q: Request) => q.status.Accepted?);
    forall r | 0 <= r < |s.requests| && s.requests[r].status.Accepted?
      ensures SettledEvents(s.writer.committed, s.requests[r]) == DeliveredEvents(s.requests[r])
    {
      assert PrefixPlaced(s.writer.log, s.requests[r]);
      CaughtUpSettles(s.writer.log, s.writer.committed, s.requests[r]);
    }
  }

  /**
    Nothing accepted is ever out of reach. From every reachable state of the system there is a continuation, of
    writer steps alone, after which every event of every accepted request is in the store, with a row of its
    own, and the whole topic is committed.
   */
  lemma AcceptedCanBeStored(c: W.Config, partitions: nat, before: seq<E.Action>) returns (run: seq<E.Action>)
    requires E.Valid(c, E.Init(partitions), before)
    ensures E.Valid(c, E.Exec(c, E.Init(partitions), before), run) && forall i :: 0 <= i < |run| ==> run[i].Writer?
    ensures var s := E.Exec(c, E.Init(partitions), before); var t := E.Exec(c, s, run);
            t.requests == s.requests && t.writer.log == s.writer.log && AllAcceptedStored(t)
  {
    var s := E.Exec(c, E.Init(partitions), before);
    E.InitInv(c, partitions);
    E.RunKeepsInv(c, E.Init(partitions), before);
    SentDecodes(s.writer.log, s.requests);
    var catchUp := WriterProgress.RestartAndCatchUp(c, s.writer);
    LiftedRun(c, s, catchUp);
    run := Lift(catchUp);
    E.ExecAppend(c, E.Init(partitions), before, run);
    CaughtUpStoresAccepted(c, partitions, before + run);
  }

  /**
    And while nothing fails the writer, once in its loop, has no other way to go: every continuation that
    fetches what is missing, then sees a tick and then a fetch that times out, has stored every event of every
    accepted request as soon as the writer is back in its loop.
   */
  lemma AcceptedWillBeStored(c: W.Config, partitions: nat, before: seq<E.Action>,
                             a: seq<W.Action>, b: seq<W.Action>, d: seq<W.Action>)
    requires E.Valid(c, E.Init(partitions), before)
    requires var s := E.Exec(c, E.Init(partitions), before).writer; var run := WriterProgress.Continuation(a, b, d);
             && WriterProgress.InLoop(s) && !s.cancelled
             && W.Valid(c, s, run) && WriterProgress.Fetches(a) == WriterProgress.Behind(s)
    requires WriterProgress.AllSmooth(a) && WriterProgress.AllSmooth(b) && WriterProgress.AllSmooth(d)
    ensures var s := E.Exec(c, E.Init(partitions), before); var run := Lift(WriterProgress.Continuation(a, b, d));
            && E.Valid(c, s, run)
            && var t := E.Exec(c, s, run);
               && t.requests == s.requests && t.writer.log == s.writer.log
               && (t.writer.pc.Head? || t.writer.pc.CheckContext? ==> AllAcceptedStored(t))
  {
    var s := E.Exec(c, E.Init(partitions), before);
    var run := WriterProgress.Continuation(a, b, d);
    E.InitInv(c, partitions);
    E.RunKeepsInv(c, E.Init(partitions), before);
    SentDecodes(s.writer.log, s.requests);
    WriterProgress.SmoothRunsCatchUp(c, s.writer, a, b, d);
    WriterProgress.ContinuationProducesNothing(a, b, d);
    LiftedRun(c, s, run);
    E.ExecAppend(c, E.Init(partitions), before, Lift(run));
    var t := E.Exec(c, s, Lift(run));
    if t.writer.pc.Head? || t.writer.pc.CheckContext? {
      CaughtUpStoresAccepted(c, partitions, before + Lift(run));
    }
  }
}
