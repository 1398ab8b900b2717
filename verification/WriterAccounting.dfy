/**
  Bookkeeping of one writer process: how its counters relate to the rows it stored and the messages it
  committed, whatever its environment does.
 */
module WriterAccounting {
  import opened Schema
  import opened Sums
  import opened PartitionedLog
  import opened WriterMachine
  import opened WriterSafety

  /** The most events that so many batches can hold. */
  function Capacity(batches: nat, size: nat): (r: nat) {
    if batches == 0 then 0 else Capacity(batches - 1, size) + size
  }

  lemma {:induction false} CapacityIsProduct(batches: nat, size: nat)
    ensures Capacity(batches, size) == batches * size
    decreases batches
  {
    if batches > 0 {
      CapacityIsProduct(batches - 1, size);
      assert batches * size == (batches - 1) * size + size;
    }
  }

  /** The counters against the rows the process added to the store. */
  predicate Counted(c: Config, s: State) {
    var m := s.metrics;
    && m.batchesFlush <= m.eventsWritten <= Capacity(m.batchesFlush, c.batchSize)
    && |s.startStore| + m.eventsWritten <= |s.store|
    && (s.tidy ==> |s.startStore| + m.eventsWritten == |s.store|)
    && m.decodeErrors == (if s.pc == Stopped(DecodeFailed) then 1 else 0)
    && m.writeErrors == (if WriteStopped(s.pc) then 1 else 0)
  }

  predicate WriteStopped(pc: Pc) { pc.Stopped? && pc.exit.WriteFailed? }

  /** Messages committed since the process started never outnumber the events it wrote. */
  predicate CommitsCovered(s: State) {
    Sum(s.committed) <= Sum(s.start) + s.metrics.eventsWritten
  }

  /** The messages fetched so far are those already flushed followed by the pending ones. */
  ghost predicate Fetched(s: State) {
    && Window(s.log, s.fetched, s.start, s.position)
    && |s.msgs| <= |s.fetched| && s.fetched[|s.fetched| - |s.msgs|..] == s.msgs
    && s.metrics.eventsWritten == |s.fetched| - if s.pc.Committing? then 0 else |s.msgs|
  }

  ghost predicate Books(c: Config, s: State) {
    && (!s.pc.Down? ==> Counted(c, s) && CommitsCovered(s))
    && (Live(s) ==> Fetched(s))
  }

  predicate Continues(a: Action) { !a.Crash? && !a.Restart? }

  lemma MoveKeepsBooks(c: Config, s: State, t: State)
    requires Books(c, s) && Moves(s, t) && !s.pc.Down?
    ensures Books(c, t)
  {
  }

  lemma WriteOkKeepsBooks(c: Config, s: State, a: Action)
    requires Books(c, s) && Enabled(s, a) && a.WriteOk? && 1 <= |s.events| <= c.batchSize && |s.events| == |s.msgs|
    ensures Books(c, Step(c, s, a))
  {
  }

  lemma WriteFailKeepsBooks(c: Config, s: State, t: State, residue: seq<LogEvent>)
    requires Books(c, s) && s.pc.Writing?
    requires t == s.(store := s.store + residue, tidy := s.tidy && residue == [], pc := t.pc, metrics := t.metrics)
    requires || (t.pc.Sleeping? && t.metrics == s.metrics)
             || (WriteStopped(t.pc) && t.metrics == s.metrics.(writeErrors := s.metrics.writeErrors + 1))
    ensures Books(c, t)
  {
  }

  lemma CommitKeepsCover(c: Config, s: State, a: Action)
    requires Inv(c, s) && s.pc.Committing? && Fetched(s) && (a.CommitOk? || a.CommitFail?)
    ensures CommitsCovered(Step(c, s, a))
  {
    CommitAdvance(c, s, a);
    WindowLength(s.log, s.fetched, s.start, s.position);
    SumMonotone(Step(c, s, a).committed, s.position);
  }

  /** What a commit changes: the offsets, and either the buffers are emptied or the process stops. */
  predicate CommitMove(s: State, t: State) {
    || (t == s.(committed := t.committed, pc := t.pc) && t.pc == Stopped(CommitFailed))
    || (t == s.(committed := t.committed, pc := t.pc, events := [], msgs := [])
        && (t.pc.Head? || t.pc.CheckContext? || t.pc == Stopped(Clean)))
  }

  lemma CommitMoves(c: Config, s: State, a: Action)
    requires Enabled(s, a) && (a.CommitOk? || a.CommitFail?)
    ensures CommitMove(s, Step(c, s, a))
  {
  }

  lemma CommitKeepsBooks(c: Config, s: State, t: State)
    requires Books(c, s) && s.pc.Committing? && CommitsCovered(t) && |s.events| == |s.msgs| && CommitMove(s, t)
    ensures Books(c, t)
  {
  }

  /** What a decoded message changes. */
  predicate FetchMove(s: State, t: State, p: nat, m: Message)
    requires p < |s.position|
  {
    && t == s.(position := s.position[p := s.position[p] + 1], events := t.events,
               msgs := s.msgs + [m], fetched := s.fetched + [m], pc := t.pc)
    && (t.pc.Head? || t.pc.Writing?)
  }

  lemma FetchMoves(c: Config, s: State, a: Action)
    requires Enabled(s, a) && a.FetchMessage?
    requires UnmarshalEvent(s.log[a.p][s.position[a.p]]).Ok?
    ensures FetchMove(s, Step(c, s, a), a.p, MessageAt(s.log, a.p, s.position[a.p]))
  {
  }

  lemma FetchKeepsBooks(c: Config, s: State, t: State, p: nat)
    requires Books(c, s) && s.pc.Head? && p < |s.log| && |s.position| == |s.log| && s.position[p] < |s.log[p]|
    requires FetchMove(s, t, p, MessageAt(s.log, p, s.position[p]))
    ensures Books(c, t)
  {
    WindowAppend(s.log, s.fetched, s.start, s.position, p);
    var m := MessageAt(s.log, p, s.position[p]);
    assert t.fetched[|t.fetched| - |t.msgs|..] == s.fetched[|s.fetched| - |s.msgs|..] + [m];
  }

  lemma DecodeFailureKeepsBooks(c: Config, s: State, a: Action)
    requires Books(c, s) && Enabled(s, a) && a.FetchMessage?
    requires UnmarshalEvent(s.log[a.p][s.position[a.p]]).Err?
    ensures Books(c, Step(c, s, a))
  {
  }

  lemma ReceiveKeepsBooks(c: Config, s: State, a: Action)
    requires Books(c, s) && Enabled(s, a) && a.FetchMessage?
    ensures Books(c, Step(c, s, a))
  {
    if UnmarshalEvent(s.log[a.p][s.position[a.p]]).Ok? {
      FetchMoves(c, s, a);
      FetchKeepsBooks(c, s, Step(c, s, a), a.p);
    } else {
      DecodeFailureKeepsBooks(c, s, a);
    }
  }

  lemma ProduceKeepsBooks(c: Config, s: State, a: Action)
    requires Books(c, s) && Enabled(s, a) && a.Produce?
    ensures Books(c, Step(c, s, a))
  {
    var log' := Append(s.log, a.partition, a.value);
    assert Extends(s.log, log');
    if Live(s) { WindowSurvives(s.log, log', s.fetched, s.start, s.position); }
  }

  lemma RestartKeepsBooks(c: Config, s: State, a: Action)
    requires Inv(c, s) && Enabled(s, a) && a.Restart?
    ensures Books(c, Step(c, s, a))
  {
  }

  lemma RefusalKeepsBooks(c: Config, s: State, a: Action)
    requires Books(c, s) && Enabled(s, a) && a.WriteFail?
    ensures Books(c, Step(c, s, a))
  {
    WriteFailKeepsBooks(c, s, Step(c, s, a), a.residue);
  }

  lemma CommitAnswerKeepsBooks(c: Config, s: State, a: Action)
    requires Inv(c, s) && Books(c, s) && Enabled(s, a) && (a.CommitOk? || a.CommitFail?)
    ensures Books(c, Step(c, s, a))
  {
    CommitMoves(c, s, a);
    CommitKeepsCover(c, s, a);
    CommitKeepsBooks(c, s, Step(c, s, a));
  }

  lemma QuietKeepsBooks(c: Config, s: State, a: Action)
    requires Books(c, s) && Enabled(s, a) && Quiet(a)
    ensures Books(c, Step(c, s, a))
  {
    QuietStep(c, s, a);
    if !s.pc.Down? { MoveKeepsBooks(c, s, Step(c, s, a)); }
  }

  lemma StepKeepsBooks(c: Config, s: State, a: Action)
    requires Inv(c, s) && Books(c, s) && Enabled(s, a)
    ensures Books(c, Step(c, s, a))
  {
    match a {
      case Produce(_, _) => ProduceKeepsBooks(c, s, a);
      case FetchMessage(_) => ReceiveKeepsBooks(c, s, a);
      case WriteOk => WriteOkKeepsBooks(c, s, a);
      case WriteFail(_, _) => RefusalKeepsBooks(c, s, a);
      case CommitOk => CommitAnswerKeepsBooks(c, s, a);
      case CommitFail(_) => CommitAnswerKeepsBooks(c, s, a);
      case Restart => RestartKeepsBooks(c, s, a);
      case Crash =>
      case _ => QuietKeepsBooks(c, s, a);
    }
  }

  lemma {:induction false} RunKeepsBooks(c: Config, s: State, run: seq<Action>)
    requires Inv(c, s) && Books(c, s) && Valid(c, s, run)
    ensures Inv(c, Exec(c, s, run)) && Books(c, Exec(c, s, run))
    decreases |run|
  {
    if run != [] {
      StepKeepsInv(c, s, run[0]);
      StepKeepsBooks(c, s, run[0]);
      RunKeepsBooks(c, Step(c, s, run[0]), run[1..]);
    }
  }

  /**
    Metric conservation, in every state of every process of every run: flushed batches, events written, rows
    stored and messages committed are ordered, the events written equal the rows stored when no failed write
    left rows behind, and at the loop head the events written equal the messages committed. A decode error is
    counted exactly by a process that has stopped for it, and so is a write error.
   */
  lemma MetricConservation(c: Config, log: Log, run: seq<Action>)
    requires Valid(c, Init(log), run)
    ensures var s := Exec(c, Init(log), run); var m := s.metrics;
            !s.pc.Down? ==>
              && m.batchesFlush <= m.eventsWritten <= m.batchesFlush * c.batchSize
              && m.eventsWritten <= |s.store| - |s.startStore|
              && (s.tidy ==> m.eventsWritten == |s.store| - |s.startStore|)
              && Sum(s.committed) - Sum(s.start) <= m.eventsWritten
              && (s.pc.Head? ==> Sum(s.committed) - Sum(s.start) == m.eventsWritten)
              && (m.decodeErrors == 1 <==> s.pc == Stopped(DecodeFailed)) && m.decodeErrors <= 1
              && (m.writeErrors == 1 <==> s.pc.Stopped? && s.pc.exit.WriteFailed?) && m.writeErrors <= 1
  {
    InitInv(c, log);
    RunKeepsBooks(c, Init(log), run);
    var s := Exec(c, Init(log), run);
    CapacityIsProduct(s.metrics.batchesFlush, c.batchSize);
    if s.pc.Head? {
      WindowLength(s.log, s.fetched, s.start, s.position);
      WindowLength(s.log, s.msgs, s.committed, s.position);
    }
  }
}
