/**
  What really happens to the in-flight batch when the context is cancelled (cmd/writer/consumer.go:79-87).
  flush is handed the cancelled context, both stores refuse it, and so nothing is written.
 */
module WriterShutdown {
  import opened Results
  import opened Schema
  import opened PartitionedLog
  import opened WriterMachine
  import opened WriterSafety
  import opened WriterAccounting

  /** The process lives through the run: it is not killed and no other one is started. */
  predicate SameProcess(run: seq<Action>) {
    forall i :: 0 <= i < |run| ==> !run[i].Crash? && !run[i].Restart?
  }

  /** How many write attempts the run sees refused. */
  function Refusals(run: seq<Action>): (r: nat) {
    if run == [] then 0 else (if run[0].WriteFail? then 1 else 0) + Refusals(run[1..])
  }

  /** The store, the committed offsets and the buffers are as they were. */
  predicate Untouched(s: State, t: State) {
    && t.store == s.store && t.committed == s.committed
    && t.events == s.events && t.msgs == s.msgs && t.position == s.position
    && (s.cancelled ==> t.cancelled)
  }

  predicate StoppedByCancel(s: State) { s.pc == Stopped(WriteFailed(Canceled)) }

  lemma {:induction false} NothingAfterStop(c: Config, s: State, run: seq<Action>)
    requires s.pc.Stopped? && Valid(c, s, run) && SameProcess(run)
    ensures var t := Exec(c, s, run); t.pc == s.pc && Untouched(s, t) && t.metrics == s.metrics
    ensures Refusals(run) == 0
    decreases |run|
  {
    if run != [] {
      assert !run[0].Crash? && !run[0].Restart?;
      assert SameProcess(run[1..]);
      NothingAfterStop(c, Step(c, s, run[0]), run[1..]);
    }
  }

  /** A flush whose current or next attempt began, or will begin, with a cancelled context. */
  predicate Doomed(s: State) {
    s.cancelled && ((s.pc.Writing? && s.pc.refused) || s.pc.Sleeping?)
  }

  /** A doomed flush has come to attempt n, or has ended after the last one. */
  predicate Retrying(c: Config, s: State, t: State, n: int)
    requires s.pc.Writing? || s.pc.Sleeping?
  {
    || (Doomed(t) && t.pc.attempt == n <= c.maxRetries && t.pc.caller == s.pc.caller && t.metrics == s.metrics)
    || (StoppedByCancel(t) && n == c.maxRetries + 1
        && t.metrics == s.metrics.(writeErrors := s.metrics.writeErrors + 1))
  }

  lemma DoomedStep(c: Config, s: State, a: Action)
    requires Doomed(s) && s.pc.attempt <= c.maxRetries && Enabled(s, a) && !a.Crash? && !a.Restart?
    ensures Untouched(s, Step(c, s, a))
    ensures Retrying(c, s, Step(c, s, a), s.pc.attempt + if a.WriteFail? then 1 else 0)
  {
    if a.WriteFail? {
      assert s.store + a.residue == s.store;
    }
  }

  /**
    A flush with a cancelled context. Whatever the schedule, every attempt is refused: the process is either
    still retrying, having used one attempt per refusal, or has stopped after the last one with an error that
    wraps Canceled; the store, the offsets and the buffers are untouched either way.
   */
  lemma {:induction false} CancelledFlush(c: Config, s: State, run: seq<Action>)
    requires Doomed(s) && 1 <= s.pc.attempt <= c.maxRetries
    requires Valid(c, s, run) && SameProcess(run)
    ensures Untouched(s, Exec(c, s, run))
    ensures Retrying(c, s, Exec(c, s, run), s.pc.attempt + Refusals(run))
    decreases |run|
  {
    if run != [] {
      var s1 := Step(c, s, run[0]);
      assert !run[0].Crash? && !run[0].Restart?;
      assert SameProcess(run[1..]);
      DoomedStep(c, s, run[0]);
      if s1.pc.Stopped? {
        NothingAfterStop(c, s1, run[1..]);
      } else {
        CancelledFlush(c, s1, run[1..]);
      }
    }
  }

  // ---------- the attempt in flight ----------

  /** An attempt that began with a live context. */
  predicate InFlight(s: State) { s.pc.Writing? && !s.pc.refused }

  predicate WriteAnswer(a: Action) { a.WriteOk? || a.WriteFail? }

  /** The first answer to a write, if the run has one. */
  function FirstAnswer(run: seq<Action>): (r: Option<Action>) {
    if run == [] then None else if WriteAnswer(run[0]) then Some(run[0]) else FirstAnswer(run[1..])
  }

  /** The rows an attempt adds. */
  function RowsAdded(s: State, answer: Option<Action>): (r: seq<LogEvent>) {
    match answer
    case None => []
    case Some(a) => if a.WriteOk? then s.events else if a.WriteFail? then a.residue else []
  }

  lemma QuietAfterCancel(c: Config, s: State, a: Action)
    requires s.cancelled && !InFlight(s) && Enabled(s, a) && !a.Crash? && !a.Restart?
    ensures var t := Step(c, s, a);
            && t.cancelled && !InFlight(t) && t.store == s.store
            && t.metrics.eventsWritten == s.metrics.eventsWritten && t.metrics.batchesFlush == s.metrics.batchesFlush
  {
  }

  /**
    After the cancel nothing is stored any more, unless an attempt was in flight: however long the process
    lives on, whatever it fetches and flushes, the store and the counters of what was written stay as they are.
   */
  lemma {:induction false} NothingStoredAfterCancel(c: Config, s: State, run: seq<Action>)
    requires s.cancelled && !InFlight(s) && Valid(c, s, run) && SameProcess(run)
    ensures var t := Exec(c, s, run);
            && t.store == s.store
            && t.metrics.eventsWritten == s.metrics.eventsWritten && t.metrics.batchesFlush == s.metrics.batchesFlush
    decreases |run|
  {
    if run != [] {
      assert !run[0].Crash? && !run[0].Restart?;
      assert SameProcess(run[1..]);
      QuietAfterCancel(c, s, run[0]);
      NothingStoredAfterCancel(c, Step(c, s, run[0]), run[1..]);
    }
  }

  lemma StillInFlight(c: Config, s: State, a: Action)
    requires s.cancelled && InFlight(s) && Enabled(s, a) && !a.Crash? && !a.Restart? && !WriteAnswer(a)
    ensures var t := Step(c, s, a); Untouched(s, t) && t.pc == s.pc && t.metrics == s.metrics
  {
  }

  /** The in-flight attempt failed. */
  lemma FailedInFlight(c: Config, s: State, a: Action, rest: seq<Action>)
    requires s.cancelled && InFlight(s) && 1 <= s.pc.attempt <= c.maxRetries && a.WriteFail? && Enabled(s, a)
    requires Valid(c, Step(c, s, a), rest) && SameProcess(rest)
    ensures var s1 := Step(c, s, a); var t := Exec(c, s1, rest);
            && Untouched(s.(store := s.store + a.residue), t)
            && (s.pc.attempt < c.maxRetries ==> Retrying(c, s, t, s.pc.attempt + 1 + Refusals(rest)))
            && (s.pc.attempt == c.maxRetries ==> t.pc == Stopped(WriteFailed(a.cause)) && Refusals(rest) == 0)
  {
    var s1 := Step(c, s, a);
    if s.pc.attempt < c.maxRetries {
      CancelledFlush(c, s1, rest);
    } else {
      NothingAfterStop(c, s1, rest);
    }
  }

  /**
    A cancel that finds an attempt in flight. That attempt may still take effect: its answer alone decides
    which rows the rest of this process adds, the batch if it succeeds, its residue if it fails. Every later
    attempt is refused. After a failure nothing is committed and the process uses up its attempts; it stops
    with the error of the last one, which wraps Canceled unless the in-flight attempt was that last one.
   */
  lemma {:induction false} CancelDuringAttempt(c: Config, s: State, run: seq<Action>)
    requires s.cancelled && InFlight(s) && 1 <= s.pc.attempt <= c.maxRetries
    requires Valid(c, s, run) && SameProcess(run)
    ensures var t := Exec(c, s, run); var answer := FirstAnswer(run);
            && t.store == s.store + RowsAdded(s, answer)
            && (answer.None? ==> Untouched(s, t) && t.pc == s.pc)
            && (answer.Some? && answer.value.WriteFail? ==>
                  && Untouched(s.(store := s.store + answer.value.residue), t)
                  && (s.pc.attempt < c.maxRetries ==> Retrying(c, s, t, s.pc.attempt + Refusals(run)))
                  && (s.pc.attempt == c.maxRetries ==> t.pc == Stopped(WriteFailed(answer.value.cause))))
    decreases |run|
  {
    if run != [] {
      var a, s1 := run[0], Step(c, s, run[0]);
      assert !a.Crash? && !a.Restart?;
      assert SameProcess(run[1..]);
      if a.WriteOk? {
        NothingStoredAfterCancel(c, s1, run[1..]);
      } else if a.WriteFail? {
        FailedInFlight(c, s, a, run[1..]);
      } else {
        StillInFlight(c, s, a);
        CancelDuringAttempt(c, s1, run[1..]);
      }
    }
  }

  /** The two ways a cancelled run leaves the loop: the fetch reports it, or the check after a timeout sees it. */
  predicate ExitAction(s: State, a: Action) {
    s.cancelled && ((s.pc.Head? && a.FetchCanceled?) || (s.pc.CheckContext? && a.LookAtContext?))
  }

  /**
    Every cancelled exit of every run. If the process gets to the end, it stops cleanly exactly when its
    buffer was empty; with a non-empty buffer it makes maxRetries attempts, all refused, writes nothing,
    commits nothing and returns an error that wraps Canceled.
   */
  lemma CancelledExit(c: Config, log: Log, before: seq<Action>, exit: Action, rest: seq<Action>)
    requires Valid(c, Init(log), before + [exit] + rest)
    requires Valid(c, Init(log), before) && ExitAction(Exec(c, Init(log), before), exit)
    requires SameProcess(rest)
    requires Exec(c, Init(log), before + [exit] + rest).pc.Stopped?
    ensures var s := Exec(c, Init(log), before); var t := Exec(c, Init(log), before + [exit] + rest);
            && Untouched(s, t)
            && (s.events == [] ==> t.pc == Stopped(Clean) && Refusals(rest) == 0)
            && (s.events != [] ==> StoppedByCancel(t) && Refusals(rest) == c.maxRetries
                                   && t.metrics.writeErrors == s.metrics.writeErrors + 1)
  {
    var s := Exec(c, Init(log), before);
    InitInv(c, log);
    RunKeepsInv(c, Init(log), before);
    ExecAppend(c, Init(log), before, [exit] + rest);
    assert before + [exit] + rest == before + ([exit] + rest);
    assert ([exit] + rest)[1..] == rest;
    var s1 := Step(c, s, exit);
    if s.events == [] {
      NothingAfterStop(c, s1, rest);
    } else {
      CancelledFlush(c, s1, rest);
    }
  }

  // ---------- clean exits ----------

  /** Nothing is left in the buffers, and every message fetched is committed. */
  predicate NothingLeft(s: State) { s.events == [] && s.msgs == [] && s.committed == s.position }

  lemma EmptyBufferIsCommitted(c: Config, s: State)
    requires Pending(c, s) && s.events == []
    ensures NothingLeft(s)
  {
    CommitOfWindow(s.log, s.msgs, s.committed, s.position);
    assert Commit(s.committed, []) == s.committed;
  }

  lemma StepKeepsClean(c: Config, s: State, a: Action)
    requires Inv(c, s) && Enabled(s, a) && (s.pc == Stopped(Clean) ==> NothingLeft(s))
    ensures Step(c, s, a).pc == Stopped(Clean) ==> NothingLeft(Step(c, s, a))
  {
    if Quiet(a) {
      QuietStep(c, s, a);
      if s.pc != Stopped(Clean) && Step(c, s, a).pc == Stopped(Clean) {
        EmptyBufferIsCommitted(c, s);
      }
    } else if a.CommitOk? || a.CommitFail? {
      CommitShape(c, s, a);
      CommitAdvance(c, s, a);
    }
  }

  lemma {:induction false} RunKeepsClean(c: Config, s: State, run: seq<Action>)
    requires Inv(c, s) && Valid(c, s, run) && (s.pc == Stopped(Clean) ==> NothingLeft(s))
    ensures Exec(c, s, run).pc == Stopped(Clean) ==> NothingLeft(Exec(c, s, run))
    decreases |run|
  {
    if run != [] {
      StepKeepsInv(c, s, run[0]);
      StepKeepsClean(c, s, run[0]);
      RunKeepsClean(c, Step(c, s, run[0]), run[1..]);
    }
  }

  /**
    A clean exit is one that leaves nothing behind. In every reachable state in which the process has returned
    nil, whether its context was cancelled or the reader gave up with Canceled under a live context, its buffer
    is empty, every message it fetched is committed, and so the event of each of them is in the store.
   */
  lemma CleanExitLeavesNothing(c: Config, log: Log, run: seq<Action>)
    requires Valid(c, Init(log), run) && Exec(c, Init(log), run).pc == Stopped(Clean)
    ensures var s := Exec(c, Init(log), run);
            && NothingLeft(s) && Offsets(s.log, s.position)
            && forall p, o :: 0 <= p < |s.log| && 0 <= o < s.position[p] ==> Stored(s.log[p][o], s.store)
  {
    InitInv(c, log);
    RunKeepsInv(c, Init(log), run);
    RunKeepsClean(c, Init(log), run);
  }

  // ---------- what the next process gets ----------

  /** One of the two is a prefix of the other. */
  predicate Agree(a: seq<Message>, b: seq<Message>) {
    a <= b || b <= a
  }

  lemma SlicesAgree(log: Log, log': Log, p: nat, lo: nat, hi: nat, hi': nat)
    requires Extends(log, log') && p < |log| && lo <= hi <= |log[p]| && lo <= hi' <= |log'[p]|
    ensures Agree(Slice(log, p, lo, hi), Slice(log', p, lo, hi'))
  {
    var a, b := Slice(log, p, lo, hi), Slice(log', p, lo, hi');
    if hi <= hi' {
      assert a == b[..|a|];
    } else {
      assert b == a[..|b|];
    }
  }

  lemma FreshProcessFetches(c: Config, s: State, run: seq<Action>)
    requires Inv(c, s) && Enabled(s, Restart)
    requires Valid(c, Step(c, s, Restart), run) && SameProcess(run)
    ensures var t := Exec(c, Step(c, s, Restart), run);
            && Extends(s.log, t.log)
            && (Live(t) ==> Window(t.log, t.fetched, s.committed, t.position))
  {
    StepKeepsInv(c, s, Restart);
    RestartKeepsBooks(c, s, Restart);
    RunKeepsBooks(c, Step(c, s, Restart), run);
    StartIsFixed(c, Step(c, s, Restart), run);
  }

  /**
    The messages a stopped process leaves pending are precisely what the next one fetches first: in every
    partition, as long as the next process is in its loop, what it has fetched and what was pending agree.
   */
  lemma NextProcessRefetches(c: Config, s: State, run: seq<Action>, p: nat)
    requires Inv(c, s) && s.pc.Stopped? && Window(s.log, s.msgs, s.committed, s.position)
    requires Valid(c, Step(c, s, Restart), run) && SameProcess(run)
    requires Live(Exec(c, Step(c, s, Restart), run)) && p < |s.log|
    ensures Agree(Restrict(s.msgs, p), Restrict(Exec(c, Step(c, s, Restart), run).fetched, p))
  {
    var t := Exec(c, Step(c, s, Restart), run);
    FreshProcessFetches(c, s, run);
    var pending, refetched := Restrict(s.msgs, p), Restrict(t.fetched, p);
    assert pending == Slice(s.log, p, s.committed[p], s.position[p]);
    assert refetched == Slice(t.log, p, s.committed[p], t.position[p]);
    SlicesAgree(s.log, t.log, p, s.committed[p], s.position[p], t.position[p]);
  }

  lemma StepKeepsStart(c: Config, s: State, a: Action)
    requires Enabled(s, a) && !a.Crash? && !a.Restart?
    ensures Step(c, s, a).start == s.start && Extends(s.log, Step(c, s, a).log)
  {
    if a.FetchMessage? {
      FetchKeepsStart(c, s, a);
    } else if Quiet(a) {
      QuietStep(c, s, a);
    }
  }

  lemma FetchKeepsStart(c: Config, s: State, a: Action)
    requires Enabled(s, a) && a.FetchMessage?
    ensures Step(c, s, a).start == s.start && Step(c, s, a).log == s.log
  {
  }

  lemma {:induction false} StartIsFixed(c: Config, s: State, run: seq<Action>)
    requires Valid(c, s, run) && SameProcess(run)
    ensures var t := Exec(c, s, run); t.start == s.start && Extends(s.log, t.log)
    decreases |run|
  {
    if run != [] {
      assert !run[0].Crash? && !run[0].Restart?;
      assert SameProcess(run[1..]);
      var s1 := Step(c, s, run[0]);
      StepKeepsStart(c, s, run[0]);
      StartIsFixed(c, s1, run[1..]);
      ExtendsFurther(s.log, s1.log, Exec(c, s1, run[1..]).log);
    }
  }

  /**
    A cancelled exit from end to end: whatever the buffer held is still uncommitted, and the next process
    starts by fetching it again.
   */
  lemma CancelledBatchComesBack(c: Config, log: Log, before: seq<Action>, exit: Action, rest: seq<Action>,
                                next: seq<Action>, p: nat)
    requires Valid(c, Init(log), before + [exit] + rest)
    requires Valid(c, Init(log), before) && ExitAction(Exec(c, Init(log), before), exit)
    requires SameProcess(rest) && Exec(c, Init(log), before + [exit] + rest).pc.Stopped?
    requires var t := Exec(c, Init(log), before + [exit] + rest);
             Valid(c, Step(c, t, Restart), next) && Live(Exec(c, Step(c, t, Restart), next))
    requires SameProcess(next) && p < |log|
    ensures var s := Exec(c, Init(log), before); var t := Exec(c, Init(log), before + [exit] + rest);
            Agree(Restrict(s.msgs, p), Restrict(Exec(c, Step(c, t, Restart), next).fetched, p))
  {
    var s, t := Exec(c, Init(log), before), Exec(c, Init(log), before + [exit] + rest);
    CancelledExit(c, log, before, exit, rest);
    InitInv(c, log);
    RunKeepsInv(c, Init(log), before);
    RunKeepsInv(c, Init(log), before + [exit] + rest);
    ExecAppend(c, Init(log), before, [exit] + rest);
    assert before + [exit] + rest == before + ([exit] + rest);
    NothingIsLost(c, s, [exit] + rest);
    NothingIsLost(c, Init(log), before);
    WindowSurvives(s.log, t.log, s.msgs, s.committed, s.position);
    NextProcessRefetches(c, t, next, p);
  }

  // ---------- the documented promise ----------

  /** n attempts, all refused, with the sleeps between them. */
  function Refused(n: nat): (r: seq<Action>) {
    if n == 0 then [] else if n == 1 then [WriteFail([], Canceled)]
    else [WriteFail([], Canceled), Retry] + Refused(n - 1)
  }

  lemma {:induction false} RefusedIsOneProcess(n: nat)
    ensures SameProcess(Refused(n))
  {
    if n > 1 { RefusedIsOneProcess(n - 1); }
  }

  /** A cancelled flush can always run to its end: the refusals alone get it there. */
  lemma {:induction false} RefusalsReachTheEnd(c: Config, s: State)
    requires Doomed(s) && s.pc.Writing? && 1 <= s.pc.attempt <= c.maxRetries
    ensures Valid(c, s, Refused(c.maxRetries + 1 - s.pc.attempt))
    ensures StoppedByCancel(Exec(c, s, Refused(c.maxRetries + 1 - s.pc.attempt)))
    decreases c.maxRetries - s.pc.attempt
  {
    var n := c.maxRetries + 1 - s.pc.attempt;
    var s1 := Step(c, s, WriteFail([], Canceled));
    if n > 1 {
      var s2 := Step(c, s1, Retry);
      RefusalsReachTheEnd(c, s2);
      assert Refused(n)[1..] == [Retry] + Refused(n - 1);
      assert ([Retry] + Refused(n - 1))[1..] == Refused(n - 1);
    }
  }

  /**
    "Shutdown flushes the in-flight batch before exit" (deploy/README.md:142) does not hold: with batches of
    two or more, one message fetched before the shutdown is enough for the process to stop with that message
    in its buffer and an empty store.
   */
  lemma ShutdownDoesNotFlush(c: Config, value: Payload) returns (run: seq<Action>)
    requires c.batchSize >= 2 && UnmarshalEvent(value).Ok?
    ensures Valid(c, Init([[value]]), run)
    ensures var t := Exec(c, Init([[value]]), run);
            t.pc.Stopped? && t.cancelled && |t.events| == 1 && t.store == [] && t.committed == [0]
  {
    var up := [Restart, FetchMessage(0), Cancel, FetchCanceled];
    var s := InFlightAtShutdown(c, value, up);
    RunToStop(c, Init([[value]]), up, s);
    run := up + Refused(c.maxRetries);
  }

  lemma RunToStop(c: Config, s0: State, up: seq<Action>, s: State)
    requires Valid(c, s0, up) && s == Exec(c, s0, up) && s.pc == Writing(1, Exiting, true) && s.cancelled
    ensures Valid(c, s0, up + Refused(c.maxRetries))
    ensures var t := Exec(c, s0, up + Refused(c.maxRetries)); Untouched(s, t) && t.pc.Stopped?
  {
    RefusalsReachTheEnd(c, s);
    RefusedIsOneProcess(c.maxRetries);
    CancelledFlush(c, s, Refused(c.maxRetries));
    ExecAppend(c, s0, up, Refused(c.maxRetries));
  }

  lemma InFlightAtShutdown(c: Config, value: Payload, up: seq<Action>) returns (s: State)
    requires c.batchSize >= 2 && UnmarshalEvent(value).Ok?
    requires up == [Restart, FetchMessage(0), Cancel, FetchCanceled]
    ensures Valid(c, Init([[value]]), up) && s == Exec(c, Init([[value]]), up)
    ensures s.pc == Writing(1, Exiting, true) && s.cancelled && |s.events| == 1 && s.store == [] && s.committed == [0]
  {
    var s0 := Init([[value]]);
    var s1 := Step(c, s0, Restart);
    assert s1.position == [0];
    var s2 := Step(c, s1, FetchMessage(0));
    assert s2.pc.Head? && |s2.events| == 1;
    var s3 := Step(c, s2, Cancel);
    s := Step(c, s3, FetchCanceled);
    ExecAppend(c, s0, [], [Restart]);
    assert Exec(c, s0, [Restart]) == s1;
    ExecAppend(c, s0, [Restart], [FetchMessage(0)]);
    assert Exec(c, s1, [FetchMessage(0)]) == s2;
    ExecAppend(c, s0, [Restart] + [FetchMessage(0)], [Cancel]);
    assert Exec(c, s2, [Cancel]) == s3;
    ExecAppend(c, s0, [Restart] + [FetchMessage(0)] + [Cancel], [FetchCanceled]);
    assert Exec(c, s3, [FetchCanceled]) == s;
    assert up == [Restart] + [FetchMessage(0)] + [Cancel] + [FetchCanceled];
  }
}
