/**
  The writer can always catch up: whatever has happened to it, there is a way for it to go on that ends with
  every message of the topic stored and committed. And while nothing fails it has no other way to go.
 */
module WriterProgress {
  import opened Schema
  import opened Sums
  import opened PartitionedLog
  import opened WriterMachine
  import opened WriterSafety

  /** Everything in the topic is committed. */
  ghost predicate CaughtUp(s: State) {
    |s.committed| == |s.log| && forall p :: 0 <= p < |s.log| ==> s.committed[p] == |s.log[p]|
  }

  /** At its loop head, not cancelled, with a topic it can decode. */
  ghost predicate Ready(c: Config, s: State) {
    Inv(c, s) && s.pc.Head? && !s.cancelled && AllDecode(s.log)
  }

  /** No message comes in meanwhile. */
  predicate NoProduce(run: seq<Action>) {
    forall i :: 0 <= i < |run| ==> !run[i].Produce?
  }

  lemma One(c: Config, s: State, a: Action, rest: seq<Action>) returns (run: seq<Action>)
    requires Enabled(s, a) && Valid(c, Step(c, s, a), rest) && !a.Produce? && NoProduce(rest)
    ensures NoProduce(run) && Valid(c, s, run) && Exec(c, s, run) == Exec(c, Step(c, s, a), rest)
  {
    run := [a] + rest;
    assert run[1..] == rest;
  }

  /** A flush that succeeds at once commits everything fetched. */
  lemma FlushAll(c: Config, s: State) returns (run: seq<Action>)
    requires Inv(c, s) && s.pc.Writing? && !s.cancelled && !s.pc.refused
    ensures Valid(c, s, run) && NoProduce(run)
    ensures var t := Exec(c, s, run);
            && Inv(c, t) && t.log == s.log && t.position == s.position && t.committed == s.position
            && !t.cancelled && t.pc == FinishFlush(s, s.pc.caller).pc
  {
    var s1 := Step(c, s, WriteOk);
    StepKeepsInv(c, s, WriteOk);
    CommitAdvance(c, s1, CommitOk);
    StepKeepsInv(c, s1, CommitOk);
    run := One(c, s1, CommitOk, []);
    run := One(c, s, WriteOk, run);
  }

  lemma FetchShape(c: Config, s: State, p: nat)
    requires Enabled(s, FetchMessage(p)) && UnmarshalEvent(s.log[p][s.position[p]]).Ok?
    ensures var t := Step(c, s, FetchMessage(p));
            && t.log == s.log && t.position == s.position[p := s.position[p] + 1] && t.cancelled == s.cancelled
            && (t.pc.Head? || t.pc == Writing(1, BatchFull, s.cancelled))
  {
  }

  /** Fetching the next message of a partition, with the flush that may go with it. */
  lemma FetchOne(c: Config, s: State, p: nat) returns (run: seq<Action>)
    requires Ready(c, s) && p < |s.log| && s.position[p] < |s.log[p]|
    ensures Valid(c, s, run) && NoProduce(run)
    ensures var t := Exec(c, s, run);
            Ready(c, t) && t.log == s.log && t.position == s.position[p := s.position[p] + 1]
  {
    var s1 := Step(c, s, FetchMessage(p));
    FetchShape(c, s, p);
    StepKeepsInv(c, s, FetchMessage(p));
    if s1.pc.Head? {
      run := One(c, s, FetchMessage(p), []);
    } else {
      run := FlushAll(c, s1);
      run := One(c, s, FetchMessage(p), run);
    }
  }

  /** With everything fetched, a tick is enough. */
  lemma FlushRest(c: Config, s: State) returns (run: seq<Action>)
    requires Ready(c, s) && forall p :: 0 <= p < |s.log| ==> s.position[p] == |s.log[p]|
    ensures Valid(c, s, run) && NoProduce(run)
    ensures var t := Exec(c, s, run); CaughtUp(t) && t.log == s.log && Inv(c, t)
  {
    CommitOfWindow(s.log, s.msgs, s.committed, s.position);
    if s.events == [] {
      assert s.msgs == [];
      assert Commit(s.committed, []) == s.committed;
      run := [];
    } else {
      var s1 := Step(c, s, Tick);
      var s2 := Step(c, s1, FetchTimeout);
      StepKeepsInv(c, s, Tick);
      StepKeepsInv(c, s1, FetchTimeout);
      run := FlushAll(c, s2);
      run := One(c, s1, FetchTimeout, run);
      run := One(c, s, Tick, run);
    }
  }

  /** How many messages are still to be fetched. */
  ghost function Behind(s: State): (n: int) { Sum(Lengths(s.log)) - Sum(s.position) }

  lemma NotAhead(c: Config, s: State)
    requires Inv(c, s) && Live(s)
    ensures |s.position| == |s.log| && Behind(s) >= 0
    ensures forall p :: 0 <= p < |s.log| ==> s.position[p] <= |s.log[p]|
  {
    WindowEnds(s.log, s.msgs, s.committed, s.position);
    SumMonotone(s.position, Lengths(s.log));
  }

  lemma FetchBringsCloser(s: State, t: State, p: nat)
    requires p < |s.position| && t.log == s.log && t.position == s.position[p := s.position[p] + 1]
    ensures Behind(t) == Behind(s) - 1
  {
    SumUpdate(s.position, p, s.position[p] + 1);
  }

  lemma {:induction false} CatchUp(c: Config, s: State) returns (run: seq<Action>)
    requires Ready(c, s)
    ensures Valid(c, s, run) && NoProduce(run)
    ensures var t := Exec(c, s, run); CaughtUp(t) && t.log == s.log && Inv(c, t)
    decreases Behind(s)
  {
    NotAhead(c, s);
    if p :| 0 <= p < |s.log| && s.position[p] < |s.log[p]| {
      run := FetchOne(c, s, p);
      var s1 := Exec(c, s, run);
      FetchBringsCloser(s, s1, p);
      NotAhead(c, s1);
      var rest := CatchUp(c, s1);
      ExecAppend(c, s, run, rest);
      run := run + rest;
    } else {
      run := FlushRest(c, s);
    }
  }

  /** The same from any state that keeps the invariant: a restart comes first. */
  lemma RestartAndCatchUp(c: Config, s: State) returns (run: seq<Action>)
    requires Inv(c, s) && AllDecode(s.log)
    ensures Valid(c, s, run) && NoProduce(run)
    ensures var t := Exec(c, s, run); CaughtUp(t) && t.log == s.log && Inv(c, t)
  {
    var s1 := Step(c, s, Crash);
    var s2 := Step(c, s1, Restart);
    StepKeepsInv(c, s, Crash);
    StepKeepsInv(c, s1, Restart);
    run := CatchUp(c, s2);
    run := One(c, s1, Restart, run);
    run := One(c, s, Crash, run);
  }

  /**
    From any reachable state, after any history of failures, a restart and an environment that answers well
    bring the writer to a point where every message of the topic is committed and its event is in the store,
    provided the topic holds nothing undecodable.
   */
  lemma CanAlwaysCatchUp(c: Config, log: Log, before: seq<Action>) returns (run: seq<Action>)
    requires Valid(c, Init(log), before) && AllDecode(Exec(c, Init(log), before).log)
    ensures Valid(c, Exec(c, Init(log), before), run) && NoProduce(run)
    ensures var s := Exec(c, Init(log), before); var t := Exec(c, s, run);
            && t.log == s.log && CaughtUp(t)
            && forall p, o :: 0 <= p < |t.log| && 0 <= o < |t.log[p]| ==> Stored(t.log[p][o], t.store)
  {
    InitInv(c, log);
    RunKeepsInv(c, Init(log), before);
    run := RestartAndCatchUp(c, Exec(c, Init(log), before));
  }

  // ---------- every undisturbed continuation ----------

  /** Nothing fails, nobody interferes, and no new message comes in. */
  predicate Smooth(a: Action) {
    a.FetchMessage? || a.FetchTimeout? || a.LookAtContext? || a.WriteOk? || a.CommitOk? || a.Tick? || a.Retry?
  }

  predicate AllSmooth(run: seq<Action>) { forall i :: 0 <= i < |run| ==> Smooth(run[i]) }

  function Fetches(run: seq<Action>): (n: nat) {
    if run == [] then 0 else (if run[0].FetchMessage? then 1 else 0) + Fetches(run[1..])
  }

  /** In its loop and not on its way out of it. */
  predicate InLoop(s: State) {
    || s.pc.Head? || s.pc.CheckContext?
    || ((s.pc.Writing? || s.pc.Sleeping? || s.pc.Committing?) && !s.pc.caller.Exiting?)
  }

  ghost predicate Going(c: Config, s: State) { Inv(c, s) && InLoop(s) && !s.cancelled && AllDecode(s.log) }

  lemma FetchGoes(c: Config, s: State, a: Action)
    requires Going(c, s) && Enabled(s, a) && a.FetchMessage?
    ensures var t := Step(c, s, a);
            Going(c, t) && t.log == s.log && t.tick == s.tick && Behind(t) == Behind(s) - 1
  {
    assert UnmarshalEvent(s.log[a.p][s.position[a.p]]).Ok?;
    StepKeepsInv(c, s, a);
    FetchShape(c, s, a.p);
    FetchBringsCloser(s, Step(c, s, a), a.p);
  }

  lemma SmoothStep(c: Config, s: State, a: Action)
    requires Going(c, s) && Enabled(s, a) && Smooth(a) && !a.FetchMessage?
    ensures var t := Step(c, s, a); Going(c, t) && t.log == s.log && t.position == s.position
  {
    StepKeepsInv(c, s, a);
    if a.CommitOk? { CommitShape(c, s, a); }
  }

  /** Every fetch brings it one closer, and nothing else changes how far behind it is. */
  lemma {:induction false} SmoothRun(c: Config, s: State, run: seq<Action>)
    requires Going(c, s) && Valid(c, s, run) && AllSmooth(run)
    ensures var t := Exec(c, s, run); Going(c, t) && t.log == s.log && Behind(t) + Fetches(run) == Behind(s)
    decreases |run|
  {
    if run != [] {
      if run[0].FetchMessage? { FetchGoes(c, s, run[0]); } else { SmoothStep(c, s, run[0]); }
      SmoothRun(c, Step(c, s, run[0]), run[1..]);
    }
  }

  /** Everything is fetched. */
  ghost predicate Full(c: Config, s: State) { Going(c, s) && Behind(s) == 0 }

  /** The buffer is empty or on its way to the store. */
  predicate Draining(s: State) { s.events == [] || s.pc.Writing? || s.pc.Sleeping? || s.pc.Committing? }

  lemma FullStep(c: Config, s: State, a: Action)
    requires Full(c, s) && Enabled(s, a) && Smooth(a)
    ensures Full(c, Step(c, s, a)) && Step(c, s, a).log == s.log
    ensures Draining(s) ==> Draining(Step(c, s, a))
    ensures s.tick || Draining(s) ==> Step(c, s, a).tick || Draining(Step(c, s, a))
    ensures a.FetchTimeout? && (s.tick || Draining(s)) ==> Draining(Step(c, s, a))
    ensures a.Tick? ==> Step(c, s, a).tick
  {
    if a.FetchMessage? {
      FetchGoes(c, s, a);
      NotAhead(c, Step(c, s, a));
      assert false;
    } else {
      SmoothStep(c, s, a);
    }
  }

  lemma {:induction false} FullRun(c: Config, s: State, run: seq<Action>)
    requires Full(c, s) && Valid(c, s, run) && AllSmooth(run)
    ensures var t := Exec(c, s, run);
            && Full(c, t) && t.log == s.log && (Draining(s) ==> Draining(t))
            && (s.tick || Draining(s) ==> t.tick || Draining(t))
    decreases |run|
  {
    if run != [] {
      FullStep(c, s, run[0]);
      FullRun(c, Step(c, s, run[0]), run[1..]);
    }
  }

  /** Everything fetched and nothing left in the buffer. */
  lemma DrainedIsCaughtUp(c: Config, s: State)
    requires Full(c, s) && Draining(s) && (s.pc.Head? || s.pc.CheckContext?)
    ensures CaughtUp(s)
  {
    CommitOfWindow(s.log, s.msgs, s.committed, s.position);
    assert s.msgs == [] && Commit(s.committed, []) == s.committed;
    NotAhead(c, s);
    SumsEqual(s.position, Lengths(s.log));
  }

  /** A continuation that fetches all there is, then sees a tick, and then a fetch that times out. */
  function Continuation(a: seq<Action>, b: seq<Action>, d: seq<Action>): (run: seq<Action>) {
    a + [Tick] + b + [FetchTimeout] + d
  }

  lemma ContinuationProducesNothing(a: seq<Action>, b: seq<Action>, d: seq<Action>)
    requires AllSmooth(a) && AllSmooth(b) && AllSmooth(d)
    ensures NoProduce(Continuation(a, b, d))
  {
  }

  lemma {:induction false} SplitRun(c: Config, s: State, a: seq<Action>, x: Action, b: seq<Action>)
    requires Valid(c, s, a + [x] + b)
    ensures Valid(c, s, a) && Enabled(Exec(c, s, a), x) && Valid(c, Step(c, Exec(c, s, a), x), b)
    ensures Exec(c, s, a + [x] + b) == Exec(c, Step(c, Exec(c, s, a), x), b)
    decreases |a|
  {
    var run := a + [x] + b;
    if a == [] {
      assert run[0] == x && run[1..] == b;
    } else {
      assert run[0] == a[0] && run[1..] == a[1..] + [x] + b;
      SplitRun(c, Step(c, s, a[0]), a[1..], x, b);
    }
  }

  /**
    The writer has no choice. From every state in which it is in its loop with a live context and a topic that
    decodes, every continuation without failures, cancels, crashes or new messages that fetches as many messages
    as are missing, then sees a tick and then a fetch that times out, ends caught up as soon as it is back in
    its loop: everything is committed, and so everything is in the store.
   */
  lemma SmoothRunsCatchUp(c: Config, s: State, a: seq<Action>, b: seq<Action>, d: seq<Action>)
    requires Inv(c, s) && InLoop(s) && !s.cancelled && AllDecode(s.log)
    requires AllSmooth(a) && AllSmooth(b) && AllSmooth(d) && Fetches(a) == Behind(s)
    requires Valid(c, s, Continuation(a, b, d))
    ensures var t := Exec(c, s, Continuation(a, b, d));
            && t.log == s.log && Inv(c, t) && !t.cancelled
            && (t.pc.Head? || t.pc.CheckContext? ==>
                  CaughtUp(t) && forall p, o :: 0 <= p < |t.log| && 0 <= o < |t.log[p]| ==> Stored(t.log[p][o], t.store))
  {
    var run, ab := Continuation(a, b, d), a + [Tick] + b;
    assert run == ab + [FetchTimeout] + d;
    SplitRun(c, s, ab, FetchTimeout, d);
    SplitRun(c, s, a, Tick, b);
    var s1 := Exec(c, s, a);
    SmoothRun(c, s, a);
    FullStep(c, s1, Tick);
    var s2 := Step(c, s1, Tick);
    FullRun(c, s2, b);
    var s3 := Exec(c, s2, b);
    FullStep(c, s3, FetchTimeout);
    FullRun(c, Step(c, s3, FetchTimeout), d);
    var t := Exec(c, s, run);
    if t.pc.Head? || t.pc.CheckContext? { DrainedIsCaughtUp(c, t); }
  }
}
