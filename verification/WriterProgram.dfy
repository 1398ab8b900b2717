/**
  The writer as it is written: the loop of runConsumer, its flush closure, the batch processor with its retry
  loop, and the clamping of the configuration. The environment is a schedule of answers to the calls the code
  blocks in, interleaved with what happens meanwhile (new messages, ticks, cancellation). Whatever the
  schedule, the code does exactly what the state machine does.
 */
module WriterProgram {
  import opened Results
  import opened Schema
  import opened PartitionedLog
  import opened WriterMachine
  import opened WriterShutdown

  const SECOND := 1_000_000_000

  /** newBatchProcessor: out-of-range settings fall back to defaults, all others are kept. */
  method NewBatchProcessor(cfg: BatchConfig) returns (r: BatchConfig)
    ensures r.Clamped()
    ensures cfg.Clamped() ==> r == cfg
    ensures cfg.batchSize < 1 ==> r.batchSize == 1
    ensures cfg.flushInterval <= 0 ==> r.flushInterval == 1_000_000_000
    ensures cfg.maxRetries < 1 ==> r.maxRetries == 3
    ensures cfg.retryBackoff <= 0 ==> r.retryBackoff == 200_000_000
    ensures (cfg.batchSize >= 1 ==> r.batchSize == cfg.batchSize) && (cfg.maxRetries >= 1 ==> r.maxRetries == cfg.maxRetries)
    ensures (cfg.flushInterval > 0 ==> r.flushInterval == cfg.flushInterval)
         && (cfg.retryBackoff > 0 ==> r.retryBackoff == cfg.retryBackoff)
  {
    r := cfg;
    if r.batchSize < 1 { r := r.(batchSize := 1); }
    if r.flushInterval <= 0 { r := r.(flushInterval := SECOND); }
    if r.maxRetries < 1 { r := r.(maxRetries := 3); }
    if r.retryBackoff <= 0 { r := r.(retryBackoff := SECOND / 5); }
  }

  /** What the environment does on its own. */
  predicate Interference(a: Action) { a.Produce? || a.Cancel? || a.Tick? }

  /** Taking the first step of a run leaves the rest of it. */
  lemma Taken(c: Config, before: State, schedule: seq<Action>, after: State)
    requires schedule != [] && Valid(c, before, schedule) && SameProcess(schedule)
    requires after == Step(c, before, schedule[0])
    ensures Valid(c, after, schedule[1..]) && SameProcess(schedule[1..])
    ensures Exec(c, after, schedule[1..]) == Exec(c, before, schedule)
  {
  }

  function Buffered(s: State, p: nat, m: Message, e: LogEvent): (t: State)
    requires p < |s.position|
  {
    s.(position := s.position[p := s.position[p] + 1], events := s.events + [e], msgs := s.msgs + [m],
       fetched := s.fetched + [m])
  }

  function AfterMessage(c: Config, s: State, p: nat, m: Message, e: LogEvent): (t: State)
    requires p < |s.position|
  {
    var t := Buffered(s, p, m, e);
    if |t.events| >= c.batchSize then BeginFlush(t, BatchFull) else t
  }

  /** A fetched message that decodes: it is buffered, and a full buffer is flushed. */
  lemma TakenMessage(c: Config, s: State, schedule: seq<Action>, p: nat, m: Message, e: LogEvent)
    requires schedule != [] && Valid(c, s, schedule) && SameProcess(schedule) && schedule[0] == FetchMessage(p)
    requires m == MessageAt(s.log, p, s.position[p]) && UnmarshalEvent(m.value) == Ok(e)
    ensures var after := AfterMessage(c, s, p, m, e);
            && Valid(c, after, schedule[1..]) && SameProcess(schedule[1..])
            && Exec(c, after, schedule[1..]) == Exec(c, s, schedule)
  {
    Taken(c, s, schedule, AfterMessage(c, s, p, m, e));
  }

  function AfterFailure(c: Config, s: State, residue: seq<LogEvent>, cause: Cause): (t: State)
    requires s.pc.Writing?
  {
    var s1 := s.(store := s.store + residue, tidy := s.tidy && residue == []);
    if s.pc.attempt < c.maxRetries then s1.(pc := Sleeping(s.pc.attempt + 1, s.pc.caller))
    else s1.(metrics := s.metrics.(writeErrors := s.metrics.writeErrors + 1),
             pc := Stopped(WriteFailed(cause)))
  }

  /** A failed attempt. */
  lemma TakenFailure(c: Config, s: State, schedule: seq<Action>, residue: seq<LogEvent>, cause: Cause)
    requires schedule != [] && Valid(c, s, schedule) && SameProcess(schedule) && schedule[0] == WriteFail(residue, cause)
    ensures var after := AfterFailure(c, s, residue, cause);
            && Valid(c, after, schedule[1..]) && SameProcess(schedule[1..])
            && Exec(c, after, schedule[1..]) == Exec(c, s, schedule)
  {
    Taken(c, s, schedule, AfterFailure(c, s, residue, cause));
  }

  class Consumer {
    const cfg: Config
    var log: Log
    var committed: seq<nat>
    var store: seq<LogEvent>
    var position: seq<nat>
    var events: seq<LogEvent>
    var msgs: seq<Message>
    var tick: bool
    var cancelled: bool
    var metrics: Metrics
    var schedule: seq<Action>
    ghost var start: seq<nat>
    ghost var startStore: seq<LogEvent>
    ghost var fetched: seq<Message>
    ghost var tidy: bool

    /** A new process on the durable state: the reader starts at the committed offsets, the buffers are empty. */
    constructor (cfg: Config, log: Log, committed: seq<nat>, store: seq<LogEvent>, schedule: seq<Action>)
      ensures this.cfg == cfg && this.schedule == schedule
      ensures Abs(Head) == State(log, committed, store, Head, committed, [], [], false, false, NO_METRICS,
                                 committed, store, [], true)
    {
      this.cfg, this.log, this.committed, this.store, this.schedule := cfg, log, committed, store, schedule;
      position, events, msgs := committed, [], [];
      tick, cancelled, metrics := false, false, NO_METRICS;
      start, startStore, fetched, tidy := committed, store, [], true;
    }

    /** The machine state when the code is at pc. */
    ghost function Abs(pc: Pc): (s: State)
      reads this
    {
      State(log, committed, store, pc, position, events, msgs, tick, cancelled, metrics,
            start, startStore, fetched, tidy)
    }

    /** The rest of the schedule is a run of this process from pc on. */
    ghost predicate Runs(pc: Pc)
      reads this
    {
      Valid(cfg, Abs(pc), schedule) && SameProcess(schedule)
    }

    /** Where that run leads. */
    ghost function Outcome(pc: Pc): (s: State)
      reads this
      requires Runs(pc)
    {
      Exec(cfg, Abs(pc), schedule)
    }

    /** The code is done at pc: the process has returned, or it is still blocked there and nothing more happens. */
    ghost predicate Done(pc: Pc)
      reads this
    {
      pc.Stopped? || schedule == []
    }

    /**
      Blocks in a call until it is answered. Meanwhile messages arrive, the ticker fires or the context is
      cancelled. None means that no answer ever comes.
     */
    method Await(ghost pc: Pc) returns (answer: Option<Action>)
      requires Runs(pc) && !pc.Stopped? && !pc.Down?
      modifies this
      ensures Runs(pc) && Outcome(pc) == old(Outcome(pc))
      ensures answer.None? <==> schedule == []
      ensures answer.Some? ==> schedule[0] == answer.value && !Interference(answer.value) && Enabled(Abs(pc), answer.value)
      ensures |schedule| <= old(|schedule|)
    {
      while schedule != [] && Interference(schedule[0])
        invariant Runs(pc) && Outcome(pc) == old(Outcome(pc))
        invariant |schedule| <= old(|schedule|)
        decreases |schedule|
      {
        var a := schedule[0];
        ghost var s := Abs(pc);
        if a.Produce? {
          log := Append(log, a.partition, a.value);
        } else if a.Cancel? {
          cancelled := true;
        } else {
          tick := true;
        }
        assert Abs(pc) == Step(cfg, s, a);
        schedule := schedule[1..];
      }
      answer := if schedule == [] then None else Some(schedule[0]);
    }

    /**
      One attempt: the store's WriteBatch, which looks at the context as it begins, and the counters of flush
      once its answer settles the matter.
     */
    method WriteBatch(attempt: int, ghost caller: Caller) returns (blocked: bool, err: Option<Cause>, ghost pc: Pc)
      requires Runs(Writing(attempt, caller, cancelled)) && 1 <= attempt <= cfg.maxRetries
      modifies this
      ensures Runs(pc) && Outcome(pc) == old(Outcome(Writing(attempt, caller, cancelled)))
      ensures (blocked ==> schedule == []) && |schedule| <= old(|schedule|)
      ensures !blocked && err.None? ==> pc == Committing(caller)
      ensures !blocked && err.Some? ==>
                pc == if attempt < cfg.maxRetries then Sleeping(attempt + 1, caller) else Stopped(WriteFailed(err.value))
    {
      pc := Writing(attempt, caller, cancelled);
      var answer := Await(pc);
      if answer.None? {
        return true, None, pc;
      }
      blocked := false;
      if answer.value.WriteOk? {
        ghost var before := Abs(pc);
        store := store + events;
        metrics := metrics.(eventsWritten := metrics.eventsWritten + |events|, batchesFlush := metrics.batchesFlush + 1);
        pc := Committing(caller);
        Taken(cfg, before, schedule, Abs(pc));
        schedule := schedule[1..];
        err := None;
      } else {
        TakenFailure(cfg, Abs(pc), schedule, answer.value.residue, answer.value.cause);
        schedule := schedule[1..];
        err := Some(answer.value.cause);
        pc := Failed(answer.value.residue, answer.value.cause, attempt, pc);
      }
    }

    /** A failed attempt: whatever it left in the store stays; the last one counts as a write error. */
    method Failed(residue: seq<LogEvent>, cause: Cause, attempt: int, ghost at: Pc) returns (ghost pc: Pc)
      requires at.Writing? && at.attempt == attempt
      requires Valid(cfg, AfterFailure(cfg, Abs(at), residue, cause), schedule) && SameProcess(schedule)
      modifies this
      ensures Runs(pc) && Outcome(pc) == old(Exec(cfg, AfterFailure(cfg, Abs(at), residue, cause), schedule))
      ensures schedule == old(schedule)
      ensures pc == if attempt < cfg.maxRetries then Sleeping(attempt + 1, at.caller) else Stopped(WriteFailed(cause))
    {
      ghost var before := Abs(at);
      store := store + residue;
      tidy := tidy && residue == [];
      if attempt < cfg.maxRetries {
        pc := Sleeping(attempt + 1, at.caller);
      } else {
        metrics := metrics.(writeErrors := metrics.writeErrors + 1);
        pc := Stopped(WriteFailed(cause));
      }
      assert Abs(pc) == AfterFailure(cfg, before, residue, cause);
    }

    /** time.Sleep between two attempts. */
    method Sleep(ghost attempt: int, ghost caller: Caller) returns (blocked: bool)
      requires Runs(Sleeping(attempt, caller))
      modifies this
      ensures (blocked ==> schedule == []) && |schedule| <= old(|schedule|)
      ensures var pc := if blocked then Sleeping(attempt, caller) else Writing(attempt, caller, cancelled);
              Runs(pc) && Outcome(pc) == old(Outcome(Sleeping(attempt, caller)))
    {
      var answer := Await(Sleeping(attempt, caller));
      blocked := answer.None?;
      if !blocked {
        Taken(cfg, Abs(Sleeping(attempt, caller)), schedule, Abs(Writing(attempt, caller, cancelled)));
        schedule := schedule[1..];
      }
    }

    /** writeWithRetry: attempts until one succeeds or MaxRetries have failed, with a sleep after each failure but the last. */
    method WriteWithRetry(ghost caller: Caller) returns (blocked: bool, err: Option<Cause>, ghost pc: Pc)
      requires Runs(Writing(1, caller, cancelled))
      modifies this
      ensures Runs(pc) && Outcome(pc) == old(Outcome(Writing(1, caller, cancelled)))
      ensures (blocked ==> schedule == []) && |schedule| <= old(|schedule|)
      ensures !blocked ==> pc == match err case None => Committing(caller) case Some(cause) => Stopped(WriteFailed(cause))
    {
      var attempt := 1;
      pc := Writing(1, caller, cancelled);
      while true
        invariant 1 <= attempt <= cfg.maxRetries && pc == Writing(attempt, caller, cancelled)
        invariant Runs(pc) && Outcome(pc) == old(Outcome(Writing(1, caller, cancelled))) && |schedule| <= old(|schedule|)
        decreases cfg.maxRetries - attempt
      {
        blocked, err, pc := WriteBatch(attempt, caller);
        if blocked || err.None? || attempt == cfg.maxRetries {
          return;
        }
        attempt := attempt + 1;
        blocked := Sleep(attempt, caller);
        if blocked {
          return;
        }
        pc := Writing(attempt, caller, cancelled);
      }
    }

    /** The flush closure: nothing for an empty buffer, otherwise write, then commit, then empty the buffers. */
    method Flush(ghost at: Pc, ghost caller: Caller) returns (blocked: bool, exit: Exit, ghost pc: Pc)
      requires Valid(cfg, BeginFlush(Abs(at), caller), schedule) && SameProcess(schedule)
      modifies this
      ensures Runs(pc) && Outcome(pc) == old(Exec(cfg, BeginFlush(Abs(at), caller), schedule))
      ensures (blocked ==> schedule == []) && |schedule| <= old(|schedule|)
      ensures !blocked && exit.Clean? ==> pc == FinishFlush(Abs(at), caller).pc
      ensures !blocked && !exit.Clean? ==> pc == Stopped(exit)
    {
      exit := Clean;
      if |events| == 0 {
        pc := FinishFlush(Abs(at), caller).pc;
        return false, Clean, pc;
      }
      var err;
      blocked, err, pc := WriteWithRetry(caller);
      if blocked {
        return;
      }
      if err.Some? {
        return false, WriteFailed(err.value), pc;
      }
      blocked, exit, pc := CommitMessages(caller);
    }

    /** The reader's CommitMessages, and the truncation of both buffers after it succeeds. */
    method CommitMessages(ghost caller: Caller) returns (blocked: bool, exit: Exit, ghost pc: Pc)
      requires Runs(Committing(caller))
      modifies this
      ensures Runs(pc) && Outcome(pc) == old(Outcome(Committing(caller)))
      ensures (blocked ==> schedule == []) && |schedule| <= old(|schedule|)
      ensures !blocked && exit.Clean? ==> pc == FinishFlush(Abs(Head), caller).pc
      ensures !blocked && !exit.Clean? ==> pc == Stopped(exit)
    {
      pc := Committing(caller);
      var answer := Await(pc);
      if answer.None? {
        return true, Clean, pc;
      }
      Taken(cfg, Abs(pc), schedule, Step(cfg, Abs(pc), answer.value));
      exit, pc := Committed(answer.value, caller);
      schedule := schedule[1..];
      blocked := false;
    }

    /** The answer to the commit: on success both buffers are emptied. */
    method Committed(answer: Action, ghost caller: Caller) returns (exit: Exit, ghost pc: Pc)
      requires answer.CommitOk? || answer.CommitFail?
      modifies `committed, `events, `msgs
      ensures Abs(pc) == Step(cfg, old(Abs(Committing(caller))), answer)
      ensures if answer.CommitOk? then exit == Clean && pc == FinishFlush(Abs(Head), caller).pc
              else exit == CommitFailed && pc == Stopped(CommitFailed)
    {
      if answer.CommitOk? {
        committed := Commit(committed, msgs);
        events := [];
        msgs := [];
        exit := Clean;
        pc := FinishFlush(Abs(Head), caller).pc;
      } else {
        committed := PartialCommit(committed, msgs, answer.applied);
        exit := CommitFailed;
        pc := Stopped(CommitFailed);
      }
    }

    /** The answer to FetchMessage is a message: decode it, buffer it, flush when the batch is full. */
    method OnMessage(p: nat) returns (blocked: bool, exit: Exit, ghost pc: Pc)
      requires Runs(Head) && schedule != [] && schedule[0] == FetchMessage(p)
      modifies this
      ensures Runs(pc) && Outcome(pc) == old(Outcome(Head))
      ensures (blocked ==> schedule == []) && |schedule| < old(|schedule|)
      ensures !blocked && exit.Clean? ==> pc == Head
      ensures !blocked && !exit.Clean? ==> pc == Stopped(exit)
    {
      var msg := MessageAt(log, p, position[p]);
      var decoded := UnmarshalEvent(msg.value);
      if decoded.Ok? {
        TakenMessage(cfg, Abs(Head), schedule, p, msg, decoded.value);
        schedule := schedule[1..];
        blocked, exit, pc := Buffer(p, msg, decoded.value);
      } else {
        ghost var before := Abs(Head);
        position := position[p := position[p] + 1];
        metrics := metrics.(decodeErrors := metrics.decodeErrors + 1);
        pc := Stopped(DecodeFailed);
        Taken(cfg, before, schedule, Abs(pc));
        schedule := schedule[1..];
        blocked, exit := false, DecodeFailed;
      }
    }

    /** A decoded message goes to the end of both buffers. */
    method Buffer(p: nat, msg: Message, ev: LogEvent) returns (blocked: bool, exit: Exit, ghost pc: Pc)
      requires p < |position| && Valid(cfg, AfterMessage(cfg, Abs(Head), p, msg, ev), schedule) && SameProcess(schedule)
      modifies this
      ensures Runs(pc) && Outcome(pc) == old(Exec(cfg, AfterMessage(cfg, Abs(Head), p, msg, ev), schedule))
      ensures (blocked ==> schedule == []) && |schedule| <= old(|schedule|)
      ensures !blocked && exit.Clean? ==> pc == Head
      ensures !blocked && !exit.Clean? ==> pc == Stopped(exit)
    {
      ghost var before := Abs(Head);
      position := position[p := position[p] + 1];
      events := events + [ev];
      msgs := msgs + [msg];
      fetched := fetched + [msg];
      assert Abs(Head) == Buffered(before, p, msg, ev);
      if |events| >= cfg.batchSize {
        blocked, exit, pc := Flush(Head, BatchFull);
      } else {
        blocked, exit, pc := false, Clean, Head;
      }
    }

    /** The fetch timed out: flush if the ticker has fired. */
    method OnTimeout() returns (blocked: bool, exit: Exit, ghost pc: Pc)
      requires Runs(Head) && schedule != [] && schedule[0] == FetchTimeout
      modifies this
      ensures Runs(pc) && Outcome(pc) == old(Outcome(Head))
      ensures (blocked ==> schedule == []) && |schedule| < old(|schedule|)
      ensures !blocked && exit.Clean? ==> pc == CheckContext
      ensures !blocked && !exit.Clean? ==> pc == Stopped(exit)
    {
      ghost var before := Abs(Head);
      if tick {
        tick := false;
        Taken(cfg, before, schedule, BeginFlush(Abs(Head), TickerFired));
        schedule := schedule[1..];
        blocked, exit, pc := Flush(Head, TickerFired);
      } else {
        pc := CheckContext;
        Taken(cfg, before, schedule, Abs(pc));
        schedule := schedule[1..];
        blocked, exit := false, Clean;
      }
    }

    /** The look at ctx.Err() after a timeout; left says that runConsumer returns. */
    method OnLook() returns (left: bool, blocked: bool, exit: Exit, ghost pc: Pc)
      requires Runs(CheckContext)
      modifies this
      ensures Runs(pc) && Outcome(pc) == old(Outcome(CheckContext))
      ensures (blocked ==> schedule == []) && |schedule| <= old(|schedule|)
      ensures !blocked ==> pc == if left then Stopped(exit) else Head
    {
      pc := CheckContext;
      var answer := Await(pc);
      if answer.None? {
        return true, true, Clean, pc;
      }
      ghost var before := Abs(pc);
      if cancelled {
        Taken(cfg, before, schedule, BeginFlush(Abs(pc), Exiting));
        schedule := schedule[1..];
        blocked, exit, pc := Flush(pc, Exiting);
        left := true;
      } else {
        pc := Head;
        Taken(cfg, before, schedule, Abs(pc));
        schedule := schedule[1..];
        left, blocked, exit := false, false, Clean;
      }
    }

    /** The fetch failed for good: the context was cancelled, or the reader gave up. */
    method OnFetchError(answer: Action) returns (blocked: bool, exit: Exit, ghost pc: Pc)
      requires Runs(Head) && schedule != [] && schedule[0] == answer && (answer.FetchCanceled? || answer.FetchError?)
      modifies this
      ensures Runs(pc) && Outcome(pc) == old(Outcome(Head))
      ensures (blocked ==> schedule == []) && (!blocked ==> pc == Stopped(exit))
    {
      ghost var before := Abs(Head);
      if answer.FetchCanceled? {
        Taken(cfg, before, schedule, BeginFlush(Abs(Head), Exiting));
        schedule := schedule[1..];
        blocked, exit, pc := Flush(Head, Exiting);
      } else {
        pc := Stopped(FetchFailed);
        Taken(cfg, before, schedule, Abs(pc));
        schedule := schedule[1..];
        blocked, exit := false, FetchFailed;
      }
    }

    /**
      runConsumer. For every schedule that is a run of the machine, the loop ends where the machine ends: it
      has returned, with the machine's exit, or it is still blocked at the machine's program counter.
     */
    method Run() returns (returned: Option<Exit>, ghost pc: Pc)
      requires Runs(Head)
      modifies this
      ensures Runs(pc) && Outcome(pc) == old(Outcome(Head)) && Done(pc)
      ensures returned.Some? ==> pc == Stopped(returned.value)
      ensures returned.None? ==> Abs(pc) == old(Outcome(Head))
    {
      pc := Head;
      var blocked, exit;
      while true
        invariant pc == Head && Runs(Head) && Outcome(Head) == old(Outcome(Head))
        decreases |schedule|
      {
        var answer := Await(Head);
        if answer.None? {
          return None, pc;
        }
        if answer.value.FetchMessage? {
          blocked, exit, pc := OnMessage(answer.value.p);
          if blocked {
            return None, pc;
          }
          if !exit.Clean? {
            return Some(exit), pc;
          }
        } else if answer.value.FetchTimeout? {
          blocked, exit, pc := OnTimeout();
          if blocked {
            return None, pc;
          }
          if !exit.Clean? {
            return Some(exit), pc;
          }
          var left;
          left, blocked, exit, pc := OnLook();
          if blocked {
            return None, pc;
          }
          if left {
            return Some(exit), pc;
          }
        } else {
          blocked, exit, pc := OnFetchError(answer.value);
          if blocked {
            return None, pc;
          }
          return Some(exit), pc;
        }
      }
    }
  }
}
