/**
  What every reachable state of the writer satisfies, over runs with any number of crashes, restarts,
  ambiguous write failures and ambiguous commit failures.
 */
module WriterSafety {
  import opened Results
  import opened Schema
  import opened PartitionedLog
  import opened WriterMachine

  /** The record decodes and its event is in the store. */
  predicate Stored(value: Payload, store: seq<LogEvent>) {
    UnmarshalEvent(value).Ok? && UnmarshalEvent(value).value in store
  }

  /** At-least-once: everything below a committed offset has its decoded event in the store. */
  ghost predicate AtLeastOnce(log: Log, committed: seq<nat>, store: seq<LogEvent>) {
    && Offsets(log, committed)
    && forall p, o {:trigger log[p][o]} :: 0 <= p < |log| && 0 <= o < committed[p] ==> Stored(log[p][o], store)
  }

  /** e is what some record of the log decodes to. */
  ghost predicate FromLog(log: Log, e: LogEvent) {
    exists p, o :: 0 <= p < |log| && 0 <= o < |log[p]| && UnmarshalEvent(log[p][o]) == Ok(e)
  }

  /** The store holds nothing but decoded log records. */
  ghost predicate NothingInvented(log: Log, store: seq<LogEvent>) {
    forall i :: 0 <= i < |store| ==> FromLog(log, store[i])
  }

  /** The process is inside its loop. */
  predicate Live(s: State) {
    s.pc.Head? || s.pc.CheckContext? || s.pc.Writing? || s.pc.Sleeping? || s.pc.Committing?
  }

  predicate Decodes(msgs: seq<Message>, events: seq<LogEvent>) {
    |events| == |msgs| && forall i :: 0 <= i < |msgs| ==> UnmarshalEvent(msgs[i].value) == Ok(events[i])
  }

  /**
    The pending buffers: events and msgs go together, events[i] decodes msgs[i], the messages are the
    window from the committed offsets to the fetch positions, and the buffer is below the batch size
    whenever the loop is about to fetch.
   */
  ghost predicate Pending(c: Config, s: State) {
    && Decodes(s.msgs, s.events)
    && Window(s.log, s.msgs, s.committed, s.position)
    && |s.events| <= c.batchSize
    && (s.pc.Head? || s.pc.CheckContext? ==> |s.events| < c.batchSize)
    && (s.pc.Writing? || s.pc.Sleeping? ==> s.events != [] && 1 <= s.pc.attempt <= c.maxRetries)
    && (s.pc.Writing? && s.pc.refused ==> s.cancelled)
    && (s.pc.Committing? ==> s.events != [] && forall i :: 0 <= i < |s.events| ==> s.events[i] in s.store)
  }

  ghost predicate Inv(c: Config, s: State) {
    && AtLeastOnce(s.log, s.committed, s.store)
    && NothingInvented(s.log, s.store)
    && (Live(s) ==> Pending(c, s))
  }

  lemma InitInv(c: Config, log: Log)
    ensures Inv(c, Init(log))
  {
  }

  lemma FromLogSurvives(log: Log, log': Log, e: LogEvent)
    requires FromLog(log, e) && Extends(log, log')
    ensures FromLog(log', e)
  {
    var p, o :| 0 <= p < |log| && 0 <= o < |log[p]| && UnmarshalEvent(log[p][o]) == Ok(e);
    assert log'[p][o] == log[p][o];
  }

  lemma BufferedFromLog(c: Config, s: State, i: nat)
    requires Pending(c, s) && i < |s.events|
    ensures FromLog(s.log, s.events[i])
  {
    InWindow(s.log, s.msgs, s.committed, s.position, i);
    var m := s.msgs[i];
    assert UnmarshalEvent(s.log[m.partition][m.offset]) == Ok(s.events[i]);
  }

  lemma MoveKeepsInv(c: Config, s: State, t: State)
    requires Inv(c, s) && Moves(s, t)
    ensures Inv(c, t)
  {
  }

  lemma ProduceKeepsInv(c: Config, s: State, a: Action)
    requires Inv(c, s) && Enabled(s, a) && a.Produce?
    ensures Inv(c, Step(c, s, a))
  {
    var t := Step(c, s, a);
    assert Extends(s.log, t.log);
    forall q, o | 0 <= q < |t.log| && 0 <= o < t.committed[q] ensures Stored(t.log[q][o], t.store) {
      assert t.log[q][o] == s.log[q][o];
    }
    forall i | 0 <= i < |t.store| ensures FromLog(t.log, t.store[i]) {
      FromLogSurvives(s.log, t.log, s.store[i]);
    }
    if Live(s) { WindowSurvives(s.log, t.log, s.msgs, s.committed, s.position); }
  }

  lemma DecodesAppend(msgs: seq<Message>, events: seq<LogEvent>, m: Message, e: LogEvent)
    requires Decodes(msgs, events) && UnmarshalEvent(m.value) == Ok(e)
    ensures Decodes(msgs + [m], events + [e])
  {
  }

  lemma BufferKeepsPending(c: Config, s: State, t: State, p: nat, e: LogEvent)
    requires Pending(c, s) && Enabled(s, FetchMessage(p))
    requires var m := MessageAt(s.log, p, s.position[p]);
             && UnmarshalEvent(m.value) == Ok(e)
             && t == s.(position := s.position[p := s.position[p] + 1], events := s.events + [e],
                        msgs := s.msgs + [m], fetched := t.fetched, pc := t.pc)
    requires t.pc == if |t.events| >= c.batchSize then Writing(1, BatchFull, t.cancelled) else Head
    ensures Pending(c, t)
  {
    WindowAppend(s.log, s.msgs, s.committed, s.position, p);
    DecodesAppend(s.msgs, s.events, MessageAt(s.log, p, s.position[p]), e);
  }

  lemma FetchKeepsInv(c: Config, s: State, a: Action)
    requires Inv(c, s) && Enabled(s, a) && a.FetchMessage?
    ensures Inv(c, Step(c, s, a))
  {
    var decoded := UnmarshalEvent(s.log[a.p][s.position[a.p]]);
    if decoded.Ok? {
      BufferKeepsPending(c, s, Step(c, s, a), a.p, decoded.value);
    }
  }

  /** The store only grows, so what is stored stays stored. */
  lemma StoreGrowth(log: Log, committed: seq<nat>, store: seq<LogEvent>, rows: seq<LogEvent>)
    requires AtLeastOnce(log, committed, store) && NothingInvented(log, store)
    requires forall i :: 0 <= i < |rows| ==> FromLog(log, rows[i])
    ensures AtLeastOnce(log, committed, store + rows) && NothingInvented(log, store + rows)
  {
  }

  lemma WriteOkKeepsInv(c: Config, s: State, a: Action)
    requires Inv(c, s) && Enabled(s, a) && a.WriteOk?
    ensures Inv(c, Step(c, s, a))
  {
    forall i | 0 <= i < |s.events| ensures FromLog(s.log, s.events[i]) { BufferedFromLog(c, s, i); }
    StoreGrowth(s.log, s.committed, s.store, s.events);
  }

  lemma WriteFailKeepsInv(c: Config, s: State, a: Action)
    requires Inv(c, s) && Enabled(s, a) && a.WriteFail?
    ensures Inv(c, Step(c, s, a))
  {
    forall i | 0 <= i < |a.residue| ensures FromLog(s.log, a.residue[i]) {
      var k :| 0 <= k < |s.events| && s.events[k] == a.residue[i];
      BufferedFromLog(c, s, k);
    }
    StoreGrowth(s.log, s.committed, s.store, a.residue);
  }

  /**
    Any commit that moves partitions no further than the window just written keeps the guarantee. The
    window is what makes it so: every offset up to its end is below the old commit or in the batch.
   */
  lemma CommitKeepsAtLeastOnce(c: Config, s: State, committed: seq<nat>)
    requires Inv(c, s) && s.pc.Committing?
    requires Offsets(s.log, committed) && forall p :: 0 <= p < |s.log| ==> committed[p] <= s.position[p]
    ensures AtLeastOnce(s.log, committed, s.store)
  {
    forall p, o | 0 <= p < |s.log| && 0 <= o < committed[p] ensures Stored(s.log[p][o], s.store) {
      if o >= s.committed[p] {
        WindowCovers(s.log, s.msgs, s.committed, s.position, p, o);
        var i :| 0 <= i < |s.msgs| && s.msgs[i] == MessageAt(s.log, p, o);
        assert UnmarshalEvent(s.msgs[i].value) == Ok(s.events[i]);
      }
    }
  }

  lemma WindowEnds(log: Log, msgs: seq<Message>, lo: seq<nat>, hi: seq<nat>)
    requires Window(log, msgs, lo, hi)
    ensures |lo| == |hi| == |log| && forall p :: 0 <= p < |log| ==> lo[p] <= hi[p] <= |log[p]|
  {
    forall p | 0 <= p < |log| ensures lo[p] <= hi[p] { var part := Restrict(msgs, p); }
  }

  /** What the answer to a commit changes. */
  lemma CommitShape(c: Config, s: State, a: Action)
    requires Enabled(s, a) && (a.CommitOk? || a.CommitFail?)
    ensures var t := Step(c, s, a);
            && t.log == s.log && t.store == s.store && t.position == s.position && t.cancelled == s.cancelled
            && (a.CommitOk? ==> t.committed == Commit(s.committed, s.msgs) && t.events == [] && t.msgs == []
                                && t.pc == FinishFlush(s, s.pc.caller).pc)
            && (a.CommitFail? ==> t.committed == PartialCommit(s.committed, s.msgs, a.applied)
                                  && t.pc == Stopped(CommitFailed))
  {
  }

  lemma PartialAdvance(log: Log, msgs: seq<Message>, committed: seq<nat>, position: seq<nat>, applied: set<nat>)
    requires Window(log, msgs, committed, position)
    ensures Commit(committed, msgs) == position && Offsets(log, position)
    ensures var after := PartialCommit(committed, msgs, applied);
            Offsets(log, after) && forall p :: 0 <= p < |log| ==> committed[p] <= after[p] <= position[p]
  {
    CommitOfWindow(log, msgs, committed, position);
    WindowEnds(log, msgs, committed, position);
  }

  /** A commit, whole or in part, moves each partition no further than its fetch position. */
  lemma CommitAdvance(c: Config, s: State, a: Action)
    requires Inv(c, s) && Enabled(s, a) && (a.CommitOk? || a.CommitFail?)
    ensures var committed := Step(c, s, a).committed;
            && Offsets(s.log, committed)
            && (a.CommitOk? ==> committed == s.position)
            && forall p :: 0 <= p < |s.log| ==> s.committed[p] <= committed[p] <= s.position[p]
  {
    CommitShape(c, s, a);
    WindowEnds(s.log, s.msgs, s.committed, s.position);
    PartialAdvance(s.log, s.msgs, s.committed, s.position, if a.CommitFail? then a.applied else {});
  }

  lemma CommitKeepsInv(c: Config, s: State, a: Action)
    requires Inv(c, s) && Enabled(s, a) && (a.CommitOk? || a.CommitFail?)
    ensures Inv(c, Step(c, s, a))
  {
    var t := Step(c, s, a);
    CommitShape(c, s, a);
    CommitAdvance(c, s, a);
    CommitKeepsAtLeastOnce(c, s, t.committed);
    if a.CommitOk? { EmptyPending(c, t); }
  }

  lemma EmptyPending(c: Config, s: State)
    requires s.events == [] && s.msgs == [] && s.position == s.committed && Offsets(s.log, s.committed)
    requires s.pc.Head? || s.pc.CheckContext? || s.pc.Stopped?
    ensures Pending(c, s)
  {
  }

  lemma RestartKeepsInv(c: Config, s: State, a: Action)
    requires Inv(c, s) && Enabled(s, a) && a.Restart?
    ensures Inv(c, Step(c, s, a))
  {
  }

  lemma StepKeepsInv(c: Config, s: State, a: Action)
    requires Inv(c, s) && Enabled(s, a)
    ensures Inv(c, Step(c, s, a))
  {
    match a {
      case Produce(_, _) => ProduceKeepsInv(c, s, a);
      case FetchMessage(_) => FetchKeepsInv(c, s, a);
      case WriteOk => WriteOkKeepsInv(c, s, a);
      case WriteFail(_, _) => WriteFailKeepsInv(c, s, a);
      case CommitOk => CommitKeepsInv(c, s, a);
      case CommitFail(_) => CommitKeepsInv(c, s, a);
      case Restart => RestartKeepsInv(c, s, a);
      case Crash =>
      case _ => QuietStep(c, s, a); MoveKeepsInv(c, s, Step(c, s, a));
    }
  }

  lemma {:induction false} RunKeepsInv(c: Config, s: State, run: seq<Action>)
    requires Inv(c, s) && Valid(c, s, run)
    ensures Inv(c, Exec(c, s, run))
    decreases |run|
  {
    if run != [] {
      StepKeepsInv(c, s, run[0]);
      RunKeepsInv(c, Step(c, s, run[0]), run[1..]);
    }
  }

  /**
    At-least-once delivery. In every state reachable by any run from a fresh deployment, each message below
    the committed offset of its partition decodes and its event is in the store, and the store holds nothing
    but decoded log records.
   */
  lemma Delivery(c: Config, log: Log, run: seq<Action>)
    requires Valid(c, Init(log), run)
    ensures var s := Exec(c, Init(log), run);
            AtLeastOnce(s.log, s.committed, s.store) && NothingInvented(s.log, s.store)
  {
    InitInv(c, log);
    RunKeepsInv(c, Init(log), run);
  }

  /** The pending-window invariant at every loop head of every run. */
  lemma PendingAtLoopHead(c: Config, log: Log, run: seq<Action>)
    requires Valid(c, Init(log), run)
    ensures var s := Exec(c, Init(log), run);
            s.pc.Head? ==>
              && |s.events| == |s.msgs| < c.batchSize
              && Decodes(s.msgs, s.events)
              && Window(s.log, s.msgs, s.committed, s.position)
              && Commit(s.committed, s.msgs) == s.position
  {
    InitInv(c, log);
    RunKeepsInv(c, Init(log), run);
    var s := Exec(c, Init(log), run);
    if s.pc.Head? { CommitOfWindow(s.log, s.msgs, s.committed, s.position); }
  }

  // ---------- progress of the durable state ----------

  /** s' is no earlier than s: logs and stores only grow, committed offsets never go back. */
  ghost predicate NoEarlier(s: State, s': State) {
    && Extends(s.log, s'.log)
    && s.store <= s'.store
    && |s.committed| == |s'.committed|
    && forall p :: 0 <= p < |s.committed| ==> s.committed[p] <= s'.committed[p]
  }

  lemma FetchLeavesDisk(c: Config, s: State, a: Action)
    requires Enabled(s, a) && a.FetchMessage?
    ensures var t := Step(c, s, a); t.log == s.log && t.committed == s.committed && t.store == s.store
  {
  }

  lemma StepMovesForward(c: Config, s: State, a: Action)
    requires Inv(c, s) && Enabled(s, a)
    ensures NoEarlier(s, Step(c, s, a))
  {
    if a.CommitOk? || a.CommitFail? {
      CommitAdvance(c, s, a);
      CommitShape(c, s, a);
    } else if a.FetchMessage? {
      FetchLeavesDisk(c, s, a);
    } else if Quiet(a) {
      QuietStep(c, s, a);
    } else {
      DiskGrows(c, s, a);
    }
  }

  lemma DiskGrows(c: Config, s: State, a: Action)
    requires Enabled(s, a) && !Quiet(a) && !a.FetchMessage? && !a.CommitOk? && !a.CommitFail?
    ensures var t := Step(c, s, a);
            t.committed == s.committed && s.store <= t.store && Extends(s.log, t.log)
  {
  }

  /** Once stored or committed, always: no crash, restart or failure loses rows or moves an offset back. */
  lemma {:induction false} NothingIsLost(c: Config, s: State, run: seq<Action>)
    requires Inv(c, s) && Valid(c, s, run)
    ensures NoEarlier(s, Exec(c, s, run))
    decreases |run|
  {
    if run != [] {
      var s1 := Step(c, s, run[0]);
      StepKeepsInv(c, s, run[0]);
      StepMovesForward(c, s, run[0]);
      NothingIsLost(c, s1, run[1..]);
      ExtendsFurther(s.log, s1.log, Exec(c, s1, run[1..]).log);
    }
  }

  // ---------- undecodable messages ----------

  /** A committed offset never passes a message that does not decode. */
  lemma NeverPassesUndecodable(c: Config, log: Log, run: seq<Action>, p: nat, o: nat)
    requires Valid(c, Init(log), run)
    requires var s := Exec(c, Init(log), run);
             p < |s.log| && o < |s.log[p]| && UnmarshalEvent(s.log[p][o]).Err?
    ensures var s := Exec(c, Init(log), run);
            p < |s.committed| && s.committed[p] <= o
  {
    Delivery(c, log, run);
    var s := Exec(c, Init(log), run);
    assert o < s.committed[p] ==> Stored(s.log[p][o], s.store);
  }

  ghost predicate AllDecode(log: Log) {
    forall p, o {:trigger log[p][o]} :: 0 <= p < |log| && 0 <= o < |log[p]| ==> UnmarshalEvent(log[p][o]).Ok?
  }

  /** Every message of the run went in through Publish, that is, MarshalEvent produced it. */
  ghost predicate OnlyPublished(run: seq<Action>) {
    forall i :: 0 <= i < |run| && run[i].Produce? ==> exists e: LogEvent :: MarshalEvent(e) == Ok(run[i].value)
  }

  predicate NoDecodeFailure(s: State) {
    s.metrics.decodeErrors == 0 && s.pc != Stopped(DecodeFailed)
  }

  lemma DecodingStep(c: Config, s: State, a: Action)
    requires Enabled(s, a) && AllDecode(s.log) && NoDecodeFailure(s)
    requires a.Produce? ==> UnmarshalEvent(a.value).Ok?
    ensures AllDecode(Step(c, s, a).log) && NoDecodeFailure(Step(c, s, a))
  {
    if a.FetchMessage? { assert UnmarshalEvent(s.log[a.p][s.position[a.p]]).Ok?; }
  }

  lemma {:induction false} PublishedRunDecodes(c: Config, s: State, run: seq<Action>)
    requires Valid(c, s, run) && AllDecode(s.log) && OnlyPublished(run) && NoDecodeFailure(s)
    ensures AllDecode(Exec(c, s, run).log) && NoDecodeFailure(Exec(c, s, run))
    decreases |run|
  {
    if run != [] {
      if run[0].Produce? {
        var e: LogEvent :| MarshalEvent(e) == Ok(run[0].value);
        PublishedDecodes(e);
      }
      DecodingStep(c, s, run[0]);
      assert OnlyPublished(run[1..]);
      PublishedRunDecodes(c, Step(c, s, run[0]), run[1..]);
    }
  }

  /** If every message entered through Publish, no run ever takes the decode-error exit. */
  lemma NoDecodeErrorExit(c: Config, partitions: nat, run: seq<Action>)
    requires Valid(c, Init(seq(partitions, _ => [])), run) && OnlyPublished(run)
    ensures NoDecodeFailure(Exec(c, Init(seq(partitions, _ => [])), run))
  {
    PublishedRunDecodes(c, Init(seq(partitions, _ => [])), run);
  }
}
