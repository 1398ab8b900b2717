/**
  The batched writer against the one-at-a-time consumer of pkg/broker/redpanda.go (consumeTopic): fetch a
  message, hand its event to the store, commit that message, repeat.
 */
module WriterRefinement {
  import opened Results
  import opened Schema
  import opened PartitionedLog
  import opened WriterMachine
  import opened WriterSafety
  import opened WriterAccounting

  /** The durable state a consumer works on. */
  datatype Disk = Disk(store: seq<LogEvent>, committed: seq<nat>)

  /**
    One turn of consumeTopic for a message whose handler and commit succeed; rows gives what the handler
    stores for a message.
   */
  function ConsumeOne(rows: Message -> seq<LogEvent>, d: Disk, m: Message): (r: Disk) {
    Disk(d.store + rows(m), Commit(d.committed, [m]))
  }

  /** The messages taken one after the other. */
  function ConsumeAll(rows: Message -> seq<LogEvent>, d: Disk, ms: seq<Message>): (r: Disk)
    ensures |r.committed| == |d.committed|
    decreases |ms|
  {
    if ms == [] then d else ConsumeOne(rows, ConsumeAll(rows, d, ms[..|ms| - 1]), ms[|ms| - 1])
  }

  /** All rows for a sequence of messages, in order. */
  function RowsOf(rows: Message -> seq<LogEvent>, ms: seq<Message>): (r: seq<LogEvent>)
    decreases |ms|
  {
    if ms == [] then [] else RowsOf(rows, ms[..|ms| - 1]) + rows(ms[|ms| - 1])
  }

  lemma {:induction false} RowsOfConcat(rows: Message -> seq<LogEvent>, a: seq<Message>, b: seq<Message>)
    ensures RowsOf(rows, a + b) == RowsOf(rows, a) + RowsOf(rows, b)
    decreases |b|
  {
    if b == [] {
      assert a + b == a;
    } else {
      assert (a + b)[..|a + b| - 1] == a + b[..|b| - 1];
      RowsOfConcat(rows, a, b[..|b| - 1]);
    }
  }

  lemma {:induction false} ConsumeAllStores(rows: Message -> seq<LogEvent>, d: Disk, ms: seq<Message>)
    ensures ConsumeAll(rows, d, ms).store == d.store + RowsOf(rows, ms)
    ensures |ConsumeAll(rows, d, ms).committed| == |d.committed|
    decreases |ms|
  {
    if ms != [] {
      ConsumeAllStores(rows, d, ms[..|ms| - 1]);
    }
  }

  lemma CommitOfOne(committed: seq<nat>, m: Message, p: nat)
    requires p < |committed|
    ensures Commit(committed, [m])[p] == if m.partition == p then m.offset + 1 else committed[p]
  {
    assert [m][..0] == [];
    assert Highest([m], p) == if m.partition == p then Some(m.offset + 1) else None;
  }

  /** In each partition the last message taken decides the committed offset. */
  lemma {:induction false} ConsumeAllCommits(rows: Message -> seq<LogEvent>, d: Disk, ms: seq<Message>, p: nat)
    requires p < |d.committed|
    ensures |ConsumeAll(rows, d, ms).committed| == |d.committed|
    ensures ConsumeAll(rows, d, ms).committed[p] ==
            var part := Restrict(ms, p); if part == [] then d.committed[p] else part[|part| - 1].offset + 1
    decreases |ms|
  {
    if ms != [] {
      ConsumeAllCommits(rows, d, ms[..|ms| - 1], p);
      CommitOfOne(ConsumeAll(rows, d, ms[..|ms| - 1]).committed, ms[|ms| - 1], p);
    }
  }

  lemma ConsumeWindow(rows: Message -> seq<LogEvent>, d: Disk, log: Log, ms: seq<Message>, hi: seq<nat>)
    requires Window(log, ms, d.committed, hi)
    ensures ConsumeAll(rows, d, ms) == Disk(d.store + RowsOf(rows, ms), hi)
  {
    ConsumeAllStores(rows, d, ms);
    forall p | 0 <= p < |log| ensures ConsumeAll(rows, d, ms).committed[p] == hi[p] {
      ConsumeAllCommits(rows, d, ms, p);
      assert Restrict(ms, p) == Slice(log, p, d.committed[p], hi[p]);
    }
  }

  // ---------- the simulation ----------

  /** The handler of the pipeline: decode the message and store its event. */
  function DecodedRow(m: Message): (r: seq<LogEvent>) {
    match UnmarshalEvent(m.value)
    case Ok(e) => [e]
    case Err(_) => []
  }

  lemma {:induction false} RowsOneEach(rows: Message -> seq<LogEvent>, msgs: seq<Message>, events: seq<LogEvent>)
    requires |msgs| == |events| && forall i :: 0 <= i < |msgs| ==> rows(msgs[i]) == [events[i]]
    ensures RowsOf(rows, msgs) == events
    decreases |msgs|
  {
    if msgs != [] {
      var last := |msgs| - 1;
      RowsOneEach(rows, msgs[..last], events[..last]);
    }
  }

  lemma DecodedRows(msgs: seq<Message>, events: seq<LogEvent>)
    requires Decodes(msgs, events)
    ensures RowsOf(DecodedRow, msgs) == events
  {
    forall i | 0 <= i < |msgs| ensures DecodedRow(msgs[i]) == [events[i]] {
      assert UnmarshalEvent(msgs[i].value) == Ok(events[i]);
    }
    RowsOneEach(DecodedRow, msgs, events);
  }

  /** The messages whose batch has been written. */
  function Flushed(s: State): (r: seq<Message>) {
    if s.metrics.eventsWritten <= |s.fetched| then s.fetched[..s.metrics.eventsWritten] else []
  }

  /** As long as failed writes leave nothing behind, the store is the decoded flushed prefix, in fetch order. */
  ghost predicate InOrder(s: State) {
    s.metrics.eventsWritten <= |s.fetched| && (s.tidy ==> s.store == s.startStore + RowsOf(DecodedRow, Flushed(s)))
  }

  ghost predicate Simulates(c: Config, s: State) {
    Inv(c, s) && Books(c, s) && (Live(s) ==> InOrder(s))
  }

  lemma WriteKeepsOrder(s: State, t: State)
    requires InOrder(s) && s.fetched[s.metrics.eventsWritten..] == s.msgs && Decodes(s.msgs, s.events)
    requires t.store == s.store + s.events && t.startStore == s.startStore && t.fetched == s.fetched && t.tidy == s.tidy
    requires t.metrics.eventsWritten == s.metrics.eventsWritten + |s.events|
    ensures InOrder(t)
  {
    DecodedRows(s.msgs, s.events);
    RowsOfSplit(DecodedRow, s.fetched, s.metrics.eventsWritten);
    assert s.fetched[..t.metrics.eventsWritten] == s.fetched;
    var before := RowsOf(DecodedRow, Flushed(s));
    assert s.startStore + before + s.events == s.startStore + (before + s.events);
  }

  lemma RowsOfSplit(rows: Message -> seq<LogEvent>, ms: seq<Message>, n: nat)
    requires n <= |ms|
    ensures RowsOf(rows, ms) == RowsOf(rows, ms[..n]) + RowsOf(rows, ms[n..])
  {
    RowsOfConcat(rows, ms[..n], ms[n..]);
    assert ms == ms[..n] + ms[n..];
  }

  lemma FetchKeepsOrder(s: State, t: State, m: Message)
    requires InOrder(s)
    requires t.store == s.store && t.startStore == s.startStore && t.fetched == s.fetched + [m] && t.tidy == s.tidy
    requires t.metrics.eventsWritten == s.metrics.eventsWritten
    ensures InOrder(t)
  {
    assert Flushed(t) == Flushed(s);
  }

  lemma RefusalKeepsOrder(s: State, t: State, residue: seq<LogEvent>)
    requires InOrder(s)
    requires t.store == s.store + residue && t.startStore == s.startStore && t.fetched == s.fetched
    requires t.tidy == (s.tidy && residue == []) && t.metrics.eventsWritten == s.metrics.eventsWritten
    ensures InOrder(t)
  {
    assert residue == [] ==> s.store + residue == s.store;
  }

  lemma IdleKeepsOrder(s: State, t: State)
    requires InOrder(s)
    requires t.store == s.store && t.startStore == s.startStore && t.fetched == s.fetched
    requires t.tidy == s.tidy && t.metrics == s.metrics
    ensures InOrder(t)
  {
  }

  lemma OtherStepsStoreNothing(c: Config, s: State, a: Action)
    requires Enabled(s, a) && Continues(a) && !a.WriteOk? && !a.WriteFail? && !a.FetchMessage?
    ensures var t := Step(c, s, a);
            && t.store == s.store && t.startStore == s.startStore && t.fetched == s.fetched
            && t.tidy == s.tidy && t.metrics == s.metrics
  {
  }

  lemma FetchedInOrder(c: Config, s: State, a: Action)
    requires InOrder(s) && Enabled(s, a) && a.FetchMessage? && Live(Step(c, s, a))
    ensures InOrder(Step(c, s, a))
  {
    FetchKeepsOrder(s, Step(c, s, a), MessageAt(s.log, a.p, s.position[a.p]));
  }

  lemma FailedInOrder(c: Config, s: State, a: Action)
    requires InOrder(s) && Enabled(s, a) && a.WriteFail?
    ensures InOrder(Step(c, s, a))
  {
    RefusalKeepsOrder(s, Step(c, s, a), a.residue);
  }

  lemma StepKeepsOrder(c: Config, s: State, a: Action)
    requires InOrder(s) && s.metrics.eventsWritten == |s.fetched| - (if s.pc.Committing? then 0 else |s.msgs|)
    requires |s.msgs| <= |s.fetched| && s.fetched[|s.fetched| - |s.msgs|..] == s.msgs && Decodes(s.msgs, s.events)
    requires Enabled(s, a) && Continues(a) && Live(Step(c, s, a))
    ensures InOrder(Step(c, s, a))
  {
    if a.WriteOk? {
      WriteKeepsOrder(s, Step(c, s, a));
    } else if a.FetchMessage? {
      FetchedInOrder(c, s, a);
    } else if a.WriteFail? {
      FailedInOrder(c, s, a);
    } else {
      OtherStepsStoreNothing(c, s, a);
      IdleKeepsOrder(s, Step(c, s, a));
    }
  }

  lemma StepKeepsSimulation(c: Config, s: State, a: Action)
    requires Simulates(c, s) && Enabled(s, a)
    ensures Simulates(c, Step(c, s, a))
  {
    StepKeepsInv(c, s, a);
    StepKeepsBooks(c, s, a);
    if Live(Step(c, s, a)) {
      if a.Restart? {
        StartsInOrder(c, s, a);
      } else {
        LiveBefore(c, s, a);
        StepKeepsOrder(c, s, a);
      }
    }
  }

  lemma StartsInOrder(c: Config, s: State, a: Action)
    requires Enabled(s, a) && a.Restart?
    ensures InOrder(Step(c, s, a))
  {
    assert RowsOf(DecodedRow, Flushed(Step(c, s, a))) == [];
  }

  /** A process that goes on was in its loop before. */
  lemma LiveBefore(c: Config, s: State, a: Action)
    requires Enabled(s, a) && !a.Restart? && Live(Step(c, s, a))
    ensures Live(s) && Continues(a)
  {
  }

  lemma {:induction false} RunKeepsSimulation(c: Config, s: State, run: seq<Action>)
    requires Simulates(c, s) && Valid(c, s, run)
    ensures Simulates(c, Exec(c, s, run))
    decreases |run|
  {
    if run != [] {
      StepKeepsSimulation(c, s, run[0]);
      RunKeepsSimulation(c, Step(c, s, run[0]), run[1..]);
    }
  }

  /** A window cut in two: if the second part is a window to the same end, the first one reaches its start. */
  lemma WindowSplit(log: Log, a: seq<Message>, b: seq<Message>, lo: seq<nat>, mid: seq<nat>, hi: seq<nat>)
    requires Window(log, a + b, lo, hi) && Window(log, b, mid, hi)
    ensures Window(log, a, lo, mid)
  {
    WindowEnds(log, a + b, lo, hi);
    WindowEnds(log, b, mid, hi);
    forall p | 0 <= p < |log| ensures lo[p] <= mid[p] && Restrict(a, p) == Slice(log, p, lo[p], mid[p]) {
      SlicesSplit(log, a, b, p, lo[p], mid[p], hi[p]);
    }
    forall i | 0 <= i < |a| ensures a[i].partition < |log| {
      assert a[i] == (a + b)[i];
    }
  }

  lemma SlicesSplit(log: Log, a: seq<Message>, b: seq<Message>, p: nat, lo: nat, mid: nat, hi: nat)
    requires p < |log| && lo <= hi <= |log[p]| && mid <= hi
    requires Restrict(a + b, p) == Slice(log, p, lo, hi) && Restrict(b, p) == Slice(log, p, mid, hi)
    ensures lo <= mid && Restrict(a, p) == Slice(log, p, lo, mid)
  {
    RestrictConcat(a, b, p);
    assert |Restrict(a, p)| == mid - lo;
    assert Restrict(a, p) == Restrict(a + b, p)[..mid - lo];
  }

  /** Fetched messages, flushed and pending, split at the committed offsets. */
  lemma FlushedWindow(s: State)
    requires Window(s.log, s.fetched, s.start, s.position) && Window(s.log, s.msgs, s.committed, s.position)
    requires s.fetched == Flushed(s) + s.msgs
    ensures Window(s.log, Flushed(s), s.start, s.committed)
  {
    WindowSplit(s.log, Flushed(s), s.msgs, s.start, s.committed, s.position);
  }

  lemma {:induction false} RestrictConcat(a: seq<Message>, b: seq<Message>, p: nat)
    ensures Restrict(a + b, p) == Restrict(a, p) + Restrict(b, p)
    decreases |b|
  {
    if b == [] {
      assert a + b == a;
    } else {
      var front, last := b[..|b| - 1], b[|b| - 1];
      assert a + b == (a + front) + [last] && b == front + [last];
      RestrictAppend(a + front, last, p);
      RestrictAppend(front, last, p);
      RestrictConcat(a, front, p);
    }
  }

  /**
    Refinement. At every loop head of every run, for any batch size and tick schedule, if no failed write of
    the process left rows behind, the durable state is exactly what the one-at-a-time consumer reaches from
    the state at the start of the process by taking the flushed messages in the order they were fetched; no
    message is among them twice, and what is fetched but not flushed is the pending buffer.
   */
  lemma BatchingRefinesOneAtATime(c: Config, log: Log, run: seq<Action>)
    requires Valid(c, Init(log), run)
    requires Exec(c, Init(log), run).pc.Head? && Exec(c, Init(log), run).tidy
    ensures var s := Exec(c, Init(log), run);
            && Disk(s.store, s.committed) == ConsumeAll(DecodedRow, Disk(s.startStore, s.start), Flushed(s))
            && s.fetched == Flushed(s) + s.msgs
            && forall i, j :: 0 <= i < j < |s.fetched| ==> s.fetched[i] != s.fetched[j]
  {
    InitInv(c, log);
    RunKeepsSimulation(c, Init(log), run);
    var s := Exec(c, Init(log), run);
    assert s.fetched == Flushed(s) + s.msgs;
    FlushedWindow(s);
    ConsumeWindow(DecodedRow, Disk(s.startStore, s.start), s.log, Flushed(s), s.committed);
    forall i, j | 0 <= i < j < |s.fetched| ensures s.fetched[i] != s.fetched[j] {
      WindowHasNoDuplicates(s.log, s.fetched, s.start, s.position, i, j);
    }
  }

  lemma WindowHasNoDuplicates(log: Log, msgs: seq<Message>, lo: seq<nat>, hi: seq<nat>, i: nat, j: nat)
    requires Window(log, msgs, lo, hi) && i < j < |msgs|
    ensures msgs[i] != msgs[j]
  {
    forall p: nat, a, b | 0 <= a < b < |Restrict(msgs, p)| ensures Restrict(msgs, p)[a] != Restrict(msgs, p)[b] {
      assert Restrict(msgs, p)[a].partition == p && Restrict(msgs, p)[a] in msgs;
      assert p < |log|;
      assert Restrict(msgs, p) == Slice(log, p, lo[p], hi[p]);
    }
    WindowDistinct(msgs, i, j);
  }
}
