/**
  How a writer process ends: every answer that ends it, with what it returns, what it leaves in the store, in the
  offsets and in its buffers, and what it counts (cmd/writer/consumer.go:50-90, cmd/writer/batch.go:45-71).
 */
module WriterExits {
  import opened Results
  import opened Schema
  import opened PartitionedLog
  import opened WriterMachine
  import opened WriterSafety
  import opened WriterAccounting
  import opened WriterShutdown

  /** A run cut at one of its steps. */
  lemma {:induction false} Cut(c: Config, s: State, before: seq<Action>, a: Action, rest: seq<Action>)
    requires Valid(c, s, before + [a] + rest)
    ensures Valid(c, s, before) && Enabled(Exec(c, s, before), a)
    ensures Valid(c, Step(c, Exec(c, s, before), a), rest)
    ensures Exec(c, s, before + [a] + rest) == Exec(c, Step(c, Exec(c, s, before), a), rest)
    decreases |before|
  {
    if before == [] {
      assert before + [a] + rest == [a] + rest;
      assert ([a] + rest)[1..] == rest;
    } else {
      assert (before + [a] + rest)[1..] == before[1..] + [a] + rest;
      Cut(c, Step(c, s, before[0]), before[1..], a, rest);
    }
  }

  // ---------- answers that end the process at once ----------

  /**
    A reader that fails for good. Whatever has happened before and whatever happens to the process afterwards, it
    has stopped with the fetch error; nothing is flushed, committed or counted.
   */
  lemma ReaderFailure(c: Config, s0: State, before: seq<Action>, rest: seq<Action>)
    requires Valid(c, s0, before + [FetchError] + rest) && SameProcess(rest)
    ensures Valid(c, s0, before)
    ensures var s := Exec(c, s0, before); var t := Exec(c, s0, before + [FetchError] + rest);
            t.pc == Stopped(FetchFailed) && Untouched(s, t) && t.metrics == s.metrics
  {
    Cut(c, s0, before, FetchError, rest);
    NothingAfterStop(c, Step(c, Exec(c, s0, before), FetchError), rest);
  }

  /**
    A message that does not decode. The process stops with the decode error and counts it; what was buffered is
    neither written nor committed.
   */
  lemma DecodeFailure(c: Config, s0: State, before: seq<Action>, p: nat, rest: seq<Action>)
    requires Valid(c, s0, before + [FetchMessage(p)] + rest) && SameProcess(rest)
    requires Valid(c, s0, before)
    requires var s := Exec(c, s0, before);
             p < |s.log| && p < |s.position| && s.position[p] < |s.log[p]| && UnmarshalEvent(s.log[p][s.position[p]]).Err?
    ensures var s := Exec(c, s0, before); var t := Exec(c, s0, before + [FetchMessage(p)] + rest);
            && t.pc == Stopped(DecodeFailed)
            && t.store == s.store && t.committed == s.committed && t.events == s.events && t.msgs == s.msgs
            && t.metrics == s.metrics.(decodeErrors := s.metrics.decodeErrors + 1)
  {
    Cut(c, s0, before, FetchMessage(p), rest);
    NothingAfterStop(c, Step(c, Exec(c, s0, before), FetchMessage(p)), rest);
  }

  /**
    A commit that fails. The process stops with the commit error; the batch stays in the store and in the buffers,
    and the offsets have moved, to the fetch position, in exactly the partitions the failed commit reached.
   */
  lemma CommitFailure(c: Config, s0: State, before: seq<Action>, applied: set<nat>, rest: seq<Action>)
    requires Inv(c, s0) && Valid(c, s0, before + [CommitFail(applied)] + rest) && SameProcess(rest)
    ensures Valid(c, s0, before)
    ensures var s := Exec(c, s0, before); var t := Exec(c, s0, before + [CommitFail(applied)] + rest);
            && t.pc == Stopped(CommitFailed)
            && t.store == s.store && t.events == s.events && t.msgs == s.msgs && t.metrics == s.metrics
            && |t.committed| == |s.committed| == |s.position|
            && forall p :: 0 <= p < |s.committed| ==> t.committed[p] == if p in applied then s.position[p] else s.committed[p]
  {
    Cut(c, s0, before, CommitFail(applied), rest);
    RunKeepsInv(c, s0, before);
    var s := Exec(c, s0, before);
    CommitOfWindow(s.log, s.msgs, s.committed, s.position);
    NothingAfterStop(c, Step(c, s, CommitFail(applied)), rest);
  }

  // ---------- write attempts ----------

  /** The rows that failed attempts leave in the store. */
  function Residues(run: seq<Action>): (r: seq<LogEvent>) {
    if run == [] then [] else (if run[0].WriteFail? then run[0].residue else []) + Residues(run[1..])
  }

  /** What the last failed attempt reported. */
  function LastCause(run: seq<Action>): (r: Option<Cause>) {
    if run == [] then None
    else
      var later := LastCause(run[1..]);
      if later.None? && run[0].WriteFail? then Some(run[0].cause) else later
  }

  predicate NoSuccess(run: seq<Action>) { forall i :: 0 <= i < |run| ==> !run[i].WriteOk? }

  /** In a write attempt or in the sleep before one. */
  predicate Trying(c: Config, s: State) {
    (s.pc.Writing? || s.pc.Sleeping?) && 1 <= s.pc.attempt <= c.maxRetries
  }

  /** The state apart from the store is as it was, as far as the batch is concerned. */
  predicate SameBatch(s: State, t: State) {
    t.committed == s.committed && t.events == s.events && t.msgs == s.msgs && t.position == s.position
  }

  lemma AttemptStep(c: Config, s: State, a: Action)
    requires Trying(c, s) && Enabled(s, a) && !a.Crash? && !a.Restart? && !a.WriteOk?
    ensures var t := Step(c, s, a);
            && SameBatch(s, t) && t.store == s.store + (if a.WriteFail? then a.residue else [])
            && (a.WriteFail? && s.pc.attempt == c.maxRetries ==>
                  t.pc == Stopped(WriteFailed(a.cause))
                  && t.metrics == s.metrics.(writeErrors := s.metrics.writeErrors + 1))
            && (!a.WriteFail? || s.pc.attempt < c.maxRetries ==>
                  Trying(c, t) && t.pc.attempt == s.pc.attempt + (if a.WriteFail? then 1 else 0)
                  && t.pc.caller == s.pc.caller && t.metrics == s.metrics)
  {
  }

  /**
    Attempts that fail, in any number and with sleeps, cancels and ticks in between. Each counts once; while fewer
    than maxRetries have failed the process goes on trying, and with that many it has stopped with a write error,
    which is counted and says why the last one failed. The rows the attempts left behind are all that is new in the store; nothing is committed and
    the batch stays in the buffers.
   */
  lemma {:induction false} FailedAttempts(c: Config, s: State, run: seq<Action>)
    requires Trying(c, s) && Valid(c, s, run) && SameProcess(run) && NoSuccess(run)
    ensures var t := Exec(c, s, run);
            && SameBatch(s, t) && t.store == s.store + Residues(run)
            && Refusals(run) <= c.maxRetries + 1 - s.pc.attempt
            && (Refusals(run) < c.maxRetries + 1 - s.pc.attempt ==>
                  Trying(c, t) && t.pc.attempt == s.pc.attempt + Refusals(run) && t.pc.caller == s.pc.caller
                  && t.metrics == s.metrics)
            && (Refusals(run) == c.maxRetries + 1 - s.pc.attempt ==>
                  && LastCause(run).Some? && t.pc == Stopped(WriteFailed(LastCause(run).value))
                  && t.metrics == s.metrics.(writeErrors := s.metrics.writeErrors + 1))
    decreases |run|
  {
    if run == [] {
      assert s.store + [] == s.store;
    } else {
      var a, s1 := run[0], Step(c, s, run[0]);
      assert !a.Crash? && !a.Restart? && !a.WriteOk?;
      assert SameProcess(run[1..]) && NoSuccess(run[1..]);
      AttemptStep(c, s, a);
      var first := if a.WriteFail? then a.residue else [];
      if s1.pc.Stopped? {
        NothingAfterStop(c, s1, run[1..]);
        NoResiduesAfterStop(c, s1, run[1..]);
        assert Residues(run) == first + [];
      } else {
        FailedAttempts(c, s1, run[1..]);
        assert s.store + first + Residues(run[1..]) == s.store + (first + Residues(run[1..]));
      }
    }
  }

  lemma {:induction false} NoResiduesAfterStop(c: Config, s: State, run: seq<Action>)
    requires s.pc.Stopped? && Valid(c, s, run) && SameProcess(run)
    ensures Residues(run) == [] && LastCause(run) == None
    decreases |run|
  {
    if run != [] {
      assert !run[0].Crash? && !run[0].Restart?;
      assert SameProcess(run[1..]);
      NoResiduesAfterStop(c, Step(c, s, run[0]), run[1..]);
    }
  }

  /** No answer to the commit yet. */
  predicate NoCommitAnswer(run: seq<Action>) {
    forall i :: 0 <= i < |run| ==> !run[i].CommitOk? && !run[i].CommitFail?
  }

  lemma {:induction false} WaitingForCommit(c: Config, s: State, run: seq<Action>)
    requires s.pc.Committing? && Valid(c, s, run) && SameProcess(run) && NoCommitAnswer(run)
    ensures var t := Exec(c, s, run);
            SameBatch(s, t) && t.store == s.store && t.pc == s.pc && t.metrics == s.metrics && Residues(run) == []
    decreases |run|
  {
    if run != [] {
      assert !run[0].Crash? && !run[0].Restart? && !run[0].CommitOk? && !run[0].CommitFail?;
      assert SameProcess(run[1..]) && NoCommitAnswer(run[1..]);
      WaitingForCommit(c, Step(c, s, run[0]), run[1..]);
    }
  }

  /** Where the loop goes on after a flush that succeeded. */
  predicate GoesOn(caller: Caller, pc: Pc) {
    && (caller == BatchFull ==> pc == Head)
    && (caller == TickerFired ==> pc == CheckContext)
    && (caller == Exiting ==> pc == Stopped(Clean))
  }

  /** The write of a flush that succeeds, after its failed attempts. */
  lemma SuccessfulWrite(c: Config, s: State, fails: seq<Action>)
    requires Inv(c, s) && Trying(c, s) && Valid(c, s, fails) && SameProcess(fails) && NoSuccess(fails)
    requires Enabled(Exec(c, s, fails), WriteOk)
    ensures var t := Step(c, Exec(c, s, fails), WriteOk);
            && Inv(c, t) && t.pc == Committing(s.pc.caller) && SameBatch(s, t)
            && t.store == s.store + Residues(fails) + s.events
            && t.metrics == s.metrics.(eventsWritten := s.metrics.eventsWritten + |s.events|,
                                       batchesFlush := s.metrics.batchesFlush + 1)
  {
    FailedAttempts(c, s, fails);
    RunKeepsInv(c, s, fails);
    StepKeepsInv(c, Exec(c, s, fails), WriteOk);
  }

  /** And its commit. */
  lemma SuccessfulCommit(c: Config, s: State, meanwhile: seq<Action>)
    requires Inv(c, s) && s.pc.Committing? && Valid(c, s, meanwhile) && SameProcess(meanwhile) && NoCommitAnswer(meanwhile)
    ensures Enabled(Exec(c, s, meanwhile), CommitOk)
    ensures var t := Step(c, Exec(c, s, meanwhile), CommitOk);
            && t.store == s.store && t.committed == s.position == t.position && t.events == [] && t.msgs == []
            && t.metrics == s.metrics && GoesOn(s.pc.caller, t.pc)
  {
    WaitingForCommit(c, s, meanwhile);
    RunKeepsInv(c, s, meanwhile);
    CommitAdvance(c, Exec(c, s, meanwhile), CommitOk);
  }

  /**
    A flush that succeeds, after any failed attempts and with anything else in between: the rows of the failed
    attempts and then the batch are in the store, in order, every partition is committed up to the fetch position,
    both buffers are empty, the batch and its events are counted, and the loop goes on where flush was called.
   */
  lemma SuccessfulFlush(c: Config, s: State, fails: seq<Action>, meanwhile: seq<Action>)
    requires Inv(c, s) && Trying(c, s)
    requires Valid(c, s, fails + [WriteOk] + (meanwhile + [CommitOk] + []))
    requires SameProcess(fails) && NoSuccess(fails) && SameProcess(meanwhile) && NoCommitAnswer(meanwhile)
    ensures var t := Exec(c, s, fails + [WriteOk] + (meanwhile + [CommitOk] + []));
            && t.store == s.store + Residues(fails) + s.events
            && t.committed == s.position == t.position && t.events == [] && t.msgs == []
            && t.metrics == s.metrics.(eventsWritten := s.metrics.eventsWritten + |s.events|,
                                       batchesFlush := s.metrics.batchesFlush + 1)
            && GoesOn(s.pc.caller, t.pc)
  {
    Cut(c, s, fails, WriteOk, meanwhile + [CommitOk] + []);
    SuccessfulWrite(c, s, fails);
    var s1 := Step(c, Exec(c, s, fails), WriteOk);
    Cut(c, s1, meanwhile, CommitOk, []);
    SuccessfulCommit(c, s1, meanwhile);
  }

  // ---------- the last flush ----------

  predicate InFlush(c: Config, s: State) { Trying(c, s) || s.pc.Committing? }

  function Unwritten(s: State): (r: seq<LogEvent>) { if s.pc.Committing? then [] else s.events }

  function CountBatch(s: State): (r: Metrics) {
    if s.pc.Committing? then s.metrics
    else s.metrics.(eventsWritten := s.metrics.eventsWritten + |s.events|, batchesFlush := s.metrics.batchesFlush + 1)
  }

  /** How a flush on the way out ends, when its failed attempts have left the rows given. */
  predicate EndsAs(s: State, t: State, residues: seq<LogEvent>)
    requires t.pc.Stopped?
  {
    t.position == s.position &&
    match t.pc.exit
    case Clean =>
      && t.store == s.store + residues + Unwritten(s) && t.committed == s.position
      && t.events == [] && t.msgs == [] && t.metrics == CountBatch(s)
    case CommitFailed =>
      && t.store == s.store + residues + Unwritten(s) && t.events == s.events && t.msgs == s.msgs
      && t.metrics == CountBatch(s)
    case WriteFailed(_) =>
      && t.store == s.store + residues && SameBatch(s, t)
      && t.metrics == s.metrics.(writeErrors := s.metrics.writeErrors + 1)
    case _ => false
  }

  lemma LastCommit(c: Config, s: State, a: Action)
    requires Inv(c, s) && s.pc.Committing? && s.pc.caller == Exiting && Enabled(s, a) && (a.CommitOk? || a.CommitFail?)
    ensures Step(c, s, a).pc == Stopped(if a.CommitOk? then Clean else CommitFailed)
    ensures EndsAs(s, Step(c, s, a), [])
  {
    CommitAdvance(c, s, a);
    assert s.store + [] + [] == s.store;
  }

  lemma LastWrite(c: Config, s: State)
    requires Inv(c, s) && Trying(c, s) && s.pc.caller == Exiting && Enabled(s, WriteOk)
    ensures var s1 := Step(c, s, WriteOk);
            && Inv(c, s1) && InFlush(c, s1) && s1.pc == Committing(Exiting) && s1.store == s.store + s.events
            && SameBatch(s, s1) && s1.metrics == CountBatch(s)
  {
    StepKeepsInv(c, s, WriteOk);
  }

  lemma EndsAfterWrite(s: State, s1: State, t: State)
    requires !s.pc.Committing? && s1.pc.Committing? && s1.store == s.store + s.events && SameBatch(s, s1)
    requires s1.metrics == CountBatch(s) && t.pc.Stopped? && EndsAs(s1, t, []) && !t.pc.exit.WriteFailed?
    ensures EndsAs(s, t, [])
  {
    assert s1.store + [] + [] == s1.store && s.store + [] == s.store;
  }

  lemma EndsAfterFailure(s: State, s1: State, t: State, first: seq<LogEvent>, residues: seq<LogEvent>)
    requires SameBatch(s, s1) && s1.store == s.store + first && s1.metrics == s.metrics
    requires s.pc.Committing? == s1.pc.Committing?
    requires t.pc.Stopped? && EndsAs(s1, t, residues)
    ensures EndsAs(s, t, first + residues)
  {
    assert s.store + first + residues == s.store + (first + residues);
  }

  lemma {:induction false} LastFlushCommits(c: Config, s: State, run: seq<Action>)
    requires Inv(c, s) && s.pc == Committing(Exiting) && Valid(c, s, run) && SameProcess(run) && Exec(c, s, run).pc.Stopped?
    ensures EndsAs(s, Exec(c, s, run), []) && Residues(run) == [] && !Exec(c, s, run).pc.exit.WriteFailed?
    decreases |run|
  {
    var a, s1, t := run[0], Step(c, s, run[0]), Exec(c, s, run);
    assert !a.Crash? && !a.Restart?;
    assert SameProcess(run[1..]);
    StepKeepsInv(c, s, a);
    if a.CommitOk? || a.CommitFail? {
      LastCommit(c, s, a);
      NothingAfterStop(c, s1, run[1..]);
      NoResiduesAfterStop(c, s1, run[1..]);
    } else {
      LastFlushCommits(c, s1, run[1..]);
    }
  }

  /**
    The flush on the way out. However its attempts and its commit turn out, the process ends in one of three ways:
    it returns nil with the whole batch in the store after the rows of failed attempts, committed up to the fetch
    position and counted; it returns the commit error with the batch stored and still buffered; or it returns a
    write error, counted, with nothing stored but those rows, and nothing committed.
   */
  lemma {:induction false} LastFlush(c: Config, s: State, run: seq<Action>)
    requires Inv(c, s) && Trying(c, s) && s.pc.caller == Exiting
    requires Valid(c, s, run) && SameProcess(run) && Exec(c, s, run).pc.Stopped?
    ensures EndsAs(s, Exec(c, s, run), Residues(run))
    decreases |run|
  {
    var a, s1, t := run[0], Step(c, s, run[0]), Exec(c, s, run);
    assert !a.Crash? && !a.Restart?;
    assert SameProcess(run[1..]);
    if a.WriteOk? {
      LastWrite(c, s);
      LastFlushCommits(c, s1, run[1..]);
      EndsAfterWrite(s, s1, t);
      assert Residues(run) == [];
    } else {
      StepKeepsInv(c, s, a);
      AttemptStep(c, s, a);
      var first := if a.WriteFail? then a.residue else [];
      if s1.pc.Stopped? {
        NothingAfterStop(c, s1, run[1..]);
        NoResiduesAfterStop(c, s1, run[1..]);
        assert Residues(run) == first + [] == first;
      } else {
        LastFlush(c, s1, run[1..]);
        EndsAfterFailure(s, s1, t, first, Residues(run[1..]));
      }
    }
  }

  /** The loop is left: the reader reports Canceled, live context or not, or the look at the context finds it ended. */
  predicate Leaves(s: State, a: Action) {
    (s.pc.Head? && a.FetchCanceled?) || (s.pc.CheckContext? && s.cancelled && a.LookAtContext?)
  }

  /**
    Every way out of the loop that is not an error. Once the process has stopped: with nothing buffered it has
    returned nil and nothing has changed; with something buffered it has made its last flush, by LastFlush.
   */
  lemma WayOut(c: Config, log: Log, before: seq<Action>, exit: Action, rest: seq<Action>)
    requires Valid(c, Init(log), before + [exit] + rest) && SameProcess(rest)
    requires Valid(c, Init(log), before) && Leaves(Exec(c, Init(log), before), exit)
    requires Exec(c, Init(log), before + [exit] + rest).pc.Stopped?
    ensures var s := Exec(c, Init(log), before); var t := Exec(c, Init(log), before + [exit] + rest);
            && (s.events == [] ==> t.pc == Stopped(Clean) && Untouched(s, t) && t.metrics == s.metrics)
            && (s.events != [] ==> EndsAs(s, t, Residues(rest)))
  {
    var s := Exec(c, Init(log), before);
    InitInv(c, log);
    RunKeepsInv(c, Init(log), before);
    Cut(c, Init(log), before, exit, rest);
    var s1 := Step(c, s, exit);
    StepKeepsInv(c, s, exit);
    if s.events == [] {
      NothingAfterStop(c, s1, rest);
    } else {
      LastFlush(c, s1, rest);
    }
  }

  // ---------- why a process has stopped ----------

  /** Nothing has told the process to leave its loop. */
  predicate NotLeaving(s: State) {
    && !s.cancelled && s.pc != Stopped(Clean)
    && (s.pc.Writing? || s.pc.Sleeping? || s.pc.Committing? ==> s.pc.caller != Exiting)
  }

  lemma StepNotLeaving(c: Config, s: State, a: Action)
    requires NotLeaving(s) && Enabled(s, a) && !a.Cancel? && !a.FetchCanceled?
    ensures NotLeaving(Step(c, s, a))
  {
  }

  lemma {:induction false} RunNotLeaving(c: Config, s: State, run: seq<Action>)
    requires NotLeaving(s) && Valid(c, s, run) && forall i :: 0 <= i < |run| ==> !run[i].Cancel? && !run[i].FetchCanceled?
    ensures NotLeaving(Exec(c, s, run))
    decreases |run|
  {
    if run != [] {
      assert !run[0].Cancel? && !run[0].FetchCanceled?;
      StepNotLeaving(c, s, run[0]);
      RunNotLeaving(c, Step(c, s, run[0]), run[1..]);
    }
  }

  /** A process that has returned nil was told to stop: its context was cancelled or its reader reported Canceled. */
  lemma NilReturnHasReason(c: Config, s: State, run: seq<Action>)
    requires Enabled(s, Restart) && Valid(c, Step(c, s, Restart), run) && SameProcess(run)
    requires Exec(c, Step(c, s, Restart), run).pc == Stopped(Clean)
    ensures exists i :: 0 <= i < |run| && (run[i].Cancel? || run[i].FetchCanceled?)
  {
    if forall i :: 0 <= i < |run| ==> !run[i].Cancel? && !run[i].FetchCanceled? {
      RunNotLeaving(c, Step(c, s, Restart), run);
    }
  }

  /** The answer can be the reason for the exit. */
  predicate ReasonFor(a: Action, exit: Exit) {
    match exit
    case Clean => a.FetchCanceled? || a.LookAtContext? || a.CommitOk?
    case WriteFailed(cause) => a.WriteFail? && a.cause == cause
    case CommitFailed => a.CommitFail?
    case DecodeFailed => a.FetchMessage?
    case FetchFailed => a.FetchError?
  }

  lemma StopHasReason(c: Config, s: State, a: Action)
    requires !s.pc.Stopped? && Enabled(s, a) && !a.Crash? && Step(c, s, a).pc.Stopped?
    ensures ReasonFor(a, Step(c, s, a).pc.exit)
  {
    if a.FetchMessage? { StopOnMessage(c, s, a); }
  }

  lemma StopOnMessage(c: Config, s: State, a: Action)
    requires Enabled(s, a) && a.FetchMessage? && Step(c, s, a).pc.Stopped?
    ensures Step(c, s, a).pc == Stopped(DecodeFailed)
  {
  }

  /** What a process returns is what some answer it got calls for. */
  lemma {:induction false} ExitHasReason(c: Config, s: State, run: seq<Action>)
    requires !s.pc.Stopped? && Valid(c, s, run) && SameProcess(run) && Exec(c, s, run).pc.Stopped?
    ensures exists i :: 0 <= i < |run| && ReasonFor(run[i], Exec(c, s, run).pc.exit)
    decreases |run|
  {
    var s1 := Step(c, s, run[0]);
    assert !run[0].Crash? && !run[0].Restart?;
    assert SameProcess(run[1..]);
    if s1.pc.Stopped? {
      StopHasReason(c, s, run[0]);
      NothingAfterStop(c, s1, run[1..]);
      assert ReasonFor(run[0], Exec(c, s, run).pc.exit);
    } else {
      ExitHasReason(c, s1, run[1..]);
      var i :| 0 <= i < |run[1..]| && ReasonFor(run[1..][i], Exec(c, s, run).pc.exit);
      assert run[i + 1] == run[1..][i];
    }
  }

  // ---------- counting batches ----------

  function Successes(run: seq<Action>): (r: nat) {
    if run == [] then 0 else (if run[0].WriteOk? then 1 else 0) + Successes(run[1..])
  }

  lemma BatchStep(c: Config, s: State, a: Action)
    requires Enabled(s, a) && !a.Crash? && !a.Restart?
    ensures Step(c, s, a).metrics.batchesFlush == s.metrics.batchesFlush + if a.WriteOk? then 1 else 0
  {
  }

  /** Flushed batches are counted one for each write that succeeded, from nought in a process that starts. */
  lemma {:induction false} BatchesAreWrites(c: Config, s: State, run: seq<Action>)
    requires Valid(c, s, run) && SameProcess(run)
    ensures Exec(c, s, run).metrics.batchesFlush == s.metrics.batchesFlush + Successes(run)
    ensures Enabled(s, Restart) ==> Step(c, s, Restart).metrics.batchesFlush == 0
    decreases |run|
  {
    if run != [] {
      assert !run[0].Crash? && !run[0].Restart?;
      assert SameProcess(run[1..]);
      BatchStep(c, s, run[0]);
      BatchesAreWrites(c, Step(c, s, run[0]), run[1..]);
    }
  }

  // ---------- turns of the loop ----------

  /**
    A message that decodes, whatever the state of the context: its event and itself go to the ends of the buffers,
    and a flush begins exactly when that makes a full batch. Nothing else changes.
   */
  lemma MessageTurn(c: Config, s: State, p: nat, e: LogEvent)
    requires Enabled(s, FetchMessage(p)) && UnmarshalEvent(s.log[p][s.position[p]]) == Ok(e)
    ensures var t := Step(c, s, FetchMessage(p)); var m := Message(p, s.position[p], s.log[p][s.position[p]]);
            && t.events == s.events + [e] && t.msgs == s.msgs + [m]
            && t.position == s.position[p := s.position[p] + 1]
            && t.pc == (if |s.events| + 1 < c.batchSize then Head else Writing(1, BatchFull, s.cancelled))
            && t.store == s.store && t.committed == s.committed && t.metrics == s.metrics
            && t.tick == s.tick && t.cancelled == s.cancelled && t.log == s.log
  {
  }

  /**
    A fetch that times out: the tick is used up if there is one, a flush begins exactly when there is one and
    something is buffered, and after that, or at once, the context is looked at: the loop goes on exactly when it
    is live.
   */
  lemma TimeoutTurn(c: Config, s: State)
    requires s.pc.Head?
    ensures var t := Step(c, s, FetchTimeout);
            && !t.tick && t == s.(tick := false, pc := t.pc)
            && t.pc == if s.tick && s.events != [] then Writing(1, TickerFired, s.cancelled) else CheckContext
    ensures var u := s.(pc := CheckContext); var t := Step(c, u, LookAtContext);
            && t == s.(pc := t.pc)
            && (t.pc == Head <==> !s.cancelled)
            && (s.cancelled ==> t.pc == if s.events == [] then Stopped(Clean) else Writing(1, Exiting, true))
  {
  }

  /** A process that starts: at the committed offsets, with empty buffers, a live context and counters at nought. */
  lemma FreshStart(c: Config, s: State)
    requires Enabled(s, Restart)
    ensures var t := Step(c, s, Restart);
            && t.pc == Head && t.position == t.committed == s.committed && t.store == s.store && t.log == s.log
            && t.events == [] && t.msgs == [] && !t.tick && !t.cancelled && t.metrics == Metrics(0, 0, 0, 0)
  {
  }

  /**
    What the environment may do is not restricted: a process can be killed, cancelled or sent a message in any
    state, a fetch can end in every way, a write attempt that began with a live context can succeed or fail with
    any rows of its batch left behind, and a commit can succeed or fail with any partitions moved.
   */
  lemma AnythingCanHappen(c: Config, s: State, p: nat, value: Payload, residue: seq<LogEvent>, applied: set<nat>)
    requires forall i :: 0 <= i < |residue| ==> residue[i] in s.events
    ensures Enabled(s, Crash) && Enabled(s, Cancel) && Enabled(s, Tick) && (p < |s.log| ==> Enabled(s, Produce(p, value)))
    ensures s.pc.Head? ==> Enabled(s, FetchTimeout) && Enabled(s, FetchCanceled) && Enabled(s, FetchError)
    ensures s.pc.Head? && p < |s.log| == |s.position| && s.position[p] < |s.log[p]| ==> Enabled(s, FetchMessage(p))
    ensures s.pc.Writing? && !s.pc.refused ==> Enabled(s, WriteOk) && Enabled(s, WriteFail(residue, StoreFault))
    ensures s.pc.Writing? && !s.pc.refused && s.cancelled ==> Enabled(s, WriteFail(residue, Canceled))
    ensures s.pc.Writing? && s.pc.refused && s.cancelled ==> Enabled(s, WriteFail([], Canceled)) && !Enabled(s, WriteOk)
    ensures s.pc.Committing? ==> Enabled(s, CommitOk) && Enabled(s, CommitFail(applied))
    ensures s.pc.Stopped? || s.pc.Down? ==> Enabled(s, Restart)
  {
  }
}
