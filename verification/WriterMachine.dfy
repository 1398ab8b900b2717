/**
  The writer's batching consumer (cmd/writer/consumer.go, cmd/writer/batch.go) as a state machine: one step
  for every point at which the process waits for its environment, so that a crash, a cancellation or a new
  message can come in between. The durable part is the topic log, the committed offsets and the store.
 */
module WriterMachine {
  import opened Schema
  import opened PartitionedLog

  /** newBatchProcessor leaves only positive values; durations are in nanoseconds. */
  datatype BatchConfig = BatchConfig(batchSize: int, flushInterval: int, maxRetries: int, retryBackoff: int) {
    predicate Clamped() {
      batchSize >= 1 && flushInterval > 0 && maxRetries >= 1 && retryBackoff > 0
    }
  }

  type Config = c: BatchConfig | c.Clamped() witness BatchConfig(50, 1_000_000_000, 3, 200_000_000)

  /** Where flush was called from, which is where the loop goes on after it. */
  datatype Caller = BatchFull | TickerFired | Exiting

  datatype Cause = Canceled | StoreFault

  /** What runConsumer returns. */
  datatype Exit = Clean | WriteFailed(cause: Cause) | CommitFailed | DecodeFailed | FetchFailed

  datatype Pc =
    | Head                         // in FetchMessage
    | CheckContext                 // about to look at ctx.Err()
    // in WriteBatch; refused says that the context was already cancelled when the attempt began
    | Writing(attempt: int, caller: Caller, refused: bool)
    | Sleeping(attempt: int, caller: Caller)  // in time.Sleep before the attempt
    | Committing(caller: Caller)   // in CommitMessages
    | Stopped(exit: Exit)
    | Down                                   // no process

  datatype Metrics = Metrics(eventsWritten: nat, batchesFlush: nat, decodeErrors: nat, writeErrors: nat)

  datatype State = State(
    log: Log,
    committed: seq<nat>,
    store: seq<LogEvent>,
    // the process
    pc: Pc,
    position: seq<nat>,
    events: seq<LogEvent>,
    msgs: seq<Message>,
    tick: bool,
    cancelled: bool,
    metrics: Metrics,
    // what the process has seen so far, for stating properties
    start: seq<nat>,            // committed offsets when it started
    startStore: seq<LogEvent>,  // store when it started
    fetched: seq<Message>,      // every message it has decoded
    tidy: bool)                 // no failed write of this process left rows behind

  datatype Action =
    // the environment
    | Produce(partition: nat, value: Payload)
    | Cancel
    | Tick
    | Crash
    | Restart
    // answers to the calls the process makes
    | FetchMessage(p: nat)
    | FetchTimeout
    | FetchCanceled
    | FetchError
    | LookAtContext
    | WriteOk
    // the rows a failed attempt left in the store, and what its error wraps
    | WriteFail(residue: seq<LogEvent>, cause: Cause)
    | Retry                               // the end of the sleep
    | CommitOk
    | CommitFail(applied: set<nat>)       // the partitions a failed commit moved all the same

  const NO_METRICS := Metrics(0, 0, 0, 0)

  /** A topic with the given logs, nothing committed, an empty store and no process. */
  function Init(log: Log): (s: State) {
    var zeros := seq(|log|, p requires 0 <= p < |log| => 0);
    State(log, zeros, [], Down, zeros, [], [], false, false, NO_METRICS, zeros, [], [], true)
  }

  predicate Enabled(s: State, a: Action) {
    match a
    case Produce(p, value) => p < |s.log|
    case Cancel => true
    case Tick => true
    case Crash => true
    case Restart => s.pc.Down? || s.pc.Stopped?
    case FetchMessage(p) => s.pc.Head? && p < |s.log| && |s.position| == |s.log| && s.position[p] < |s.log[p]|
    case FetchTimeout => s.pc.Head?
    // The code looks at the error alone: it may come while the context is live.
    case FetchCanceled => s.pc.Head?
    case FetchError => s.pc.Head?
    case LookAtContext => s.pc.CheckContext?
    // Both stores refuse a cancelled context before anything else, but they look at it only once: a cancel
    // that comes later finds the attempt in flight, and that may end in any way.
    case WriteOk => s.pc.Writing? && !s.pc.refused
    case WriteFail(residue, cause) =>
      && s.pc.Writing?
      && (s.pc.refused ==> residue == [] && cause.Canceled?)
      && (!s.cancelled ==> cause.StoreFault?)
      && forall i :: 0 <= i < |residue| ==> residue[i] in s.events
    case Retry => s.pc.Sleeping?
    case CommitOk => s.pc.Committing?
    case CommitFail(applied) => s.pc.Committing?
  }

  /** The return of flush. */
  function FinishFlush(s: State, caller: Caller): (t: State) {
    match caller
    case BatchFull => s.(pc := Head)
    case TickerFired => s.(pc := CheckContext)
    case Exiting => s.(pc := Stopped(Clean))
  }

  /** The call of flush, which has nothing to do for an empty buffer. */
  function BeginFlush(s: State, caller: Caller): (t: State) {
    if s.events == [] then FinishFlush(s, caller) else s.(pc := Writing(1, caller, s.cancelled))
  }

  function Receive(c: Config, s: State, p: nat): (t: State)
    requires Enabled(s, FetchMessage(p))
  {
    var msg := MessageAt(s.log, p, s.position[p]);
    var s1 := s.(position := s.position[p := s.position[p] + 1]);
    match UnmarshalEvent(msg.value)
    case Err(_) => s1.(metrics := s.metrics.(decodeErrors := s.metrics.decodeErrors + 1), pc := Stopped(DecodeFailed))
    case Ok(ev) =>
      var s2 := s1.(events := s.events + [ev], msgs := s.msgs + [msg], fetched := s.fetched + [msg]);
      if |s2.events| >= c.batchSize then BeginFlush(s2, BatchFull) else s2
  }

  function Step(c: Config, s: State, a: Action): (t: State)
    requires Enabled(s, a)
  {
    match a
    case Produce(p, value) => s.(log := Append(s.log, p, value))
    case Cancel => s.(cancelled := true)
    case Tick => s.(tick := true)
    case Crash => s.(pc := Down)
    case Restart =>
      State(s.log, s.committed, s.store, Head, s.committed, [], [], false, false, NO_METRICS,
            s.committed, s.store, [], true)
    case FetchMessage(p) => Receive(c, s, p)
    case FetchTimeout =>
      if s.tick then BeginFlush(s.(tick := false), TickerFired) else s.(pc := CheckContext)
    case FetchCanceled => BeginFlush(s, Exiting)
    case FetchError => s.(pc := Stopped(FetchFailed))
    case LookAtContext => if s.cancelled then BeginFlush(s, Exiting) else s.(pc := Head)
    case WriteOk =>
      s.(store := s.store + s.events,
         metrics := s.metrics.(eventsWritten := s.metrics.eventsWritten + |s.events|,
                               batchesFlush := s.metrics.batchesFlush + 1),
         pc := Committing(s.pc.caller))
    case WriteFail(residue, cause) =>
      var s1 := s.(store := s.store + residue, tidy := s.tidy && residue == []);
      if s.pc.attempt < c.maxRetries then s1.(pc := Sleeping(s.pc.attempt + 1, s.pc.caller))
      else s1.(metrics := s.metrics.(writeErrors := s.metrics.writeErrors + 1),
               pc := Stopped(WriteFailed(cause)))
    case Retry => s.(pc := Writing(s.pc.attempt, s.pc.caller, s.cancelled))
    case CommitOk =>
      FinishFlush(s.(committed := Commit(s.committed, s.msgs), events := [], msgs := []), s.pc.caller)
    case CommitFail(applied) =>
      s.(committed := PartialCommit(s.committed, s.msgs, applied), pc := Stopped(CommitFailed))
  }

  function PartialCommit(committed: seq<nat>, msgs: seq<Message>, applied: set<nat>): (r: seq<nat>)
    ensures |r| == |committed|
  {
    seq(|committed|, p requires 0 <= p < |committed| =>
      if p in applied then Commit(committed, msgs)[p] else committed[p])
  }

  /** Answers and events that only move the process along: no message, no row, no offset. */
  predicate Quiet(a: Action) {
    a.Cancel? || a.Tick? || a.FetchTimeout? || a.FetchCanceled? || a.FetchError? || a.LookAtContext? || a.Retry?
  }

  /** t differs from s in control alone, and a flush only begins with something to write. */
  predicate Moves(s: State, t: State) {
    && t == s.(pc := t.pc, tick := t.tick, cancelled := t.cancelled)
    && (s.cancelled ==> t.cancelled)
    && (|| t.pc == s.pc
        || ((s.pc.Head? || s.pc.CheckContext?) && Destination(t))
        || (s.pc.Sleeping? && t.pc == Writing(s.pc.attempt, s.pc.caller, t.cancelled)))
  }

  predicate Destination(t: State) {
    || t.pc.Head? || t.pc.CheckContext? || t.pc == Stopped(Clean) || t.pc == Stopped(FetchFailed)
    || (t.pc.Writing? && t.pc.attempt == 1 && t.events != [] && t.pc.refused == t.cancelled)
  }

  lemma QuietStep(c: Config, s: State, a: Action)
    requires Enabled(s, a) && Quiet(a)
    ensures Moves(s, Step(c, s, a))
  {
  }

  /** A finite run: any number of steps, each enabled where it is taken. */
  predicate Valid(c: Config, s: State, run: seq<Action>)
    decreases |run|
  {
    run == [] || (Enabled(s, run[0]) && Valid(c, Step(c, s, run[0]), run[1..]))
  }

  function Exec(c: Config, s: State, run: seq<Action>): (t: State)
    requires Valid(c, s, run)
    decreases |run|
  {
    if run == [] then s else Exec(c, Step(c, s, run[0]), run[1..])
  }

  /** Runs compose. */
  lemma {:induction false} ExecAppend(c: Config, s: State, a: seq<Action>, b: seq<Action>)
    requires Valid(c, s, a)
    ensures Valid(c, s, a + b) <==> Valid(c, Exec(c, s, a), b)
    ensures Valid(c, s, a + b) ==> Exec(c, s, a + b) == Exec(c, Exec(c, s, a), b)
    decreases |a|
  {
    if a == [] {
      assert a + b == b;
    } else {
      assert (a + b)[1..] == a[1..] + b;
      ExecAppend(c, Step(c, s, a[0]), a[1..], b);
    }
  }
}
