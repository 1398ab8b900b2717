/**
  The fan-in of Redpanda.Subscribe (pkg/broker/redpanda.go:99-135): one goroutine per topic, a buffered error
  channel, a WaitGroup whose waiter closes done, and a three-way select. Every goroutine takes its steps in its
  own time.
 */
module FanIn {
  import opened Results
  import opened Sums

  /** An error of consumeTopic; canceled says that it wraps context.Canceled. */
  datatype Fault = Fault(what: nat, canceled: bool)

  datatype ContextError = Canceled | DeadlineExceeded

  /** What consumeTopic returned, and whether its context was live at that moment. */
  datatype Outcome = Running | Ended(fault: Option<Fault>, live: bool)

  datatype Worker =
    | Consuming
    | Sending(fault: Fault)   // about to send on errCh
    | Cancelling              // about to call cancel
    | Leaving                 // about to call wg.Done
    | Gone

  datatype Return = Nil | Context(error: ContextError) | Failure(fault: Fault)

  datatype Caller = Selecting | Waiting(ret: Return) | Returned(ret: Return)

  datatype Group = Group(
    workers: seq<Worker>,
    results: seq<Outcome>,
    errors: seq<Fault>,             // the channel, of capacity |workers|
    context: Option<ContextError>,  // the caller's context, once it has ended
    cancelled: bool,                // the derived context
    done: bool,                     // the done channel is closed
    caller: Caller)

  datatype Action =
    | ContextEnds(error: ContextError)
    | ConsumerReturns(i: nat, r: Option<Fault>)
    | Send(i: nat)
    | Cancel(i: nat)
    | WaitGroupDone(i: nat)
    | CloseDone
    | SelectContext
    | SelectError
    | SelectDone
    | Return

  function Start(topics: nat): (s: Group) {
    Group(seq(topics, _ => Consuming), seq(topics, _ => Running), [], None, false, false, Selecting)
  }

  /** The goroutine passes the error on; one that wraps Canceled it drops, wherever that came from. */
  predicate Reports(r: Option<Fault>) { r.Some? && !r.value.canceled }

  /** consumeTopic returned an error that is more than the echo of its context having been cancelled. */
  predicate Failed(r: Outcome) { r.Ended? && r.fault.Some? && (!r.fault.value.canceled || r.live) }

  /** It failed and the goroutine drops the error: one that wraps Canceled although the context was live. */
  predicate Dropped(r: Outcome) { r.Ended? && r.fault.Some? && r.fault.value.canceled && r.live }

  predicate AllGone(workers: seq<Worker>) {
    forall i :: 0 <= i < |workers| ==> workers[i].Gone?
  }

  predicate Enabled(s: Group, a: Action) {
    match a
    case ContextEnds(_) => s.context.None?
    case ConsumerReturns(i, _) => i < |s.workers| && s.workers[i].Consuming? && |s.results| == |s.workers|
    // A send on a full channel would block.
    case Send(i) => i < |s.workers| && s.workers[i].Sending? && |s.errors| < |s.workers|
    case Cancel(i) => i < |s.workers| && s.workers[i].Cancelling?
    case WaitGroupDone(i) => i < |s.workers| && s.workers[i].Leaving?
    case CloseDone => AllGone(s.workers) && !s.done
    case SelectContext => s.caller.Selecting? && s.context.Some?
    case SelectError => s.caller.Selecting? && s.errors != []
    case SelectDone => s.caller.Selecting? && s.done
    case Return => s.caller.Waiting? && s.done
  }

  function Step(s: Group, a: Action): (t: Group)
    requires Enabled(s, a)
  {
    match a
    case ContextEnds(error) => s.(context := Some(error), cancelled := true)
    case ConsumerReturns(i, r) =>
      s.(results := s.results[i := Ended(r, !s.cancelled)], workers := s.workers[i := if Reports(r) then Sending(r.value) else Leaving])
    case Send(i) => s.(errors := s.errors + [s.workers[i].fault], workers := s.workers[i := Cancelling])
    case Cancel(i) => s.(cancelled := true, workers := s.workers[i := Leaving])
    case WaitGroupDone(i) => s.(workers := s.workers[i := Gone])
    case CloseDone => s.(done := true)
    case SelectContext => s.(cancelled := true, caller := Waiting(Context(s.context.value)))
    case SelectError => s.(cancelled := true, errors := s.errors[1..], caller := Waiting(Failure(s.errors[0])))
    case SelectDone => s.(cancelled := true, caller := Returned(Nil))
    case Return => s.(cancelled := true, caller := Returned(s.caller.ret))
  }

  predicate Valid(s: Group, run: seq<Action>)
    decreases |run|
  {
    run == [] || (Enabled(s, run[0]) && Valid(Step(s, run[0]), run[1..]))
  }

  function Exec(s: Group, run: seq<Action>): (t: Group)
    requires Valid(s, run)
    decreases |run|
  {
    if run == [] then s else Exec(Step(s, run[0]), run[1..])
  }

  // ---------- counting ----------

  /** Workers that may still send. */
  function Unsent(workers: seq<Worker>): (r: seq<nat>)
    ensures |r| == |workers|
    ensures forall i :: 0 <= i < |r| ==> r[i] == if workers[i].Consuming? || workers[i].Sending? then 1 else 0
  {
    seq(|workers|, i requires 0 <= i < |workers| => if workers[i].Consuming? || workers[i].Sending? then 1 else 0)
  }

  function StepsLeft(w: Worker): (r: nat) {
    match w
    case Consuming => 4
    case Sending(_) => 3
    case Cancelling => 2
    case Leaving => 1
    case Gone => 0
  }

  function Remaining(workers: seq<Worker>): (r: seq<nat>)
    ensures |r| == |workers| && forall i :: 0 <= i < |r| ==> r[i] == StepsLeft(workers[i])
  {
    seq(|workers|, i requires 0 <= i < |workers| => StepsLeft(workers[i]))
  }

  /** An upper bound on the steps still to come. */
  function Measure(s: Group): (r: nat) {
    Sum(Remaining(s.workers))
    + (if s.done then 0 else 1)
    + (if s.context.Some? then 0 else 1)
    + (match s.caller case Selecting => 2 case Waiting(_) => 1 case Returned(_) => 0)
  }

  lemma UnsentUpdate(workers: seq<Worker>, i: nat, w: Worker)
    requires i < |workers|
    ensures Sum(Unsent(workers[i := w])) == Sum(Unsent(workers)) - Unsent(workers)[i] + Unsent([w])[0]
  {
    assert Unsent(workers[i := w]) == Unsent(workers)[i := Unsent([w])[0]];
    SumUpdate(Unsent(workers), i, Unsent([w])[0]);
  }

  lemma RemainingUpdate(workers: seq<Worker>, i: nat, w: Worker)
    requires i < |workers|
    ensures Sum(Remaining(workers[i := w])) == Sum(Remaining(workers)) - StepsLeft(workers[i]) + StepsLeft(w)
  {
    assert Remaining(workers[i := w]) == Remaining(workers)[i := StepsLeft(w)];
    SumUpdate(Remaining(workers), i, StepsLeft(w));
  }

  // ---------- the invariant ----------

  /** consumeTopic number i returned f, and f is reported. */
  predicate FailedWith(s: Group, i: nat, f: Fault) {
    i < |s.results| && s.results[i].Ended? && s.results[i].fault == Some(f) && !f.canceled
  }

  ghost predicate SomeFailedWith(s: Group, f: Fault) {
    exists i: nat :: FailedWith(s, i, f)
  }

  /** What a worker is doing agrees with what its consumeTopic returned. */
  predicate Agrees(w: Worker, r: Outcome) {
    && (w.Consuming? <==> r.Running?)
    && (w.Sending? ==> r.fault == Some(w.fault) && !w.fault.canceled)
    && (w.Cancelling? ==> Reports(r.fault))
  }

  predicate PastSending(w: Worker) { w.Cancelling? || w.Leaving? || w.Gone? }

  /** Where the return value comes from. */
  ghost predicate Justified(s: Group, ret: Return) {
    match ret
    case Nil => s.done
    case Context(error) => s.context == Some(error)
    case Failure(f) => SomeFailedWith(s, f)
  }

  ghost predicate Inv(s: Group) {
    && |s.results| == |s.workers|
    && |s.errors| + Sum(Unsent(s.workers)) <= |s.workers|
    && (forall i :: 0 <= i < |s.workers| ==> Agrees(s.workers[i], s.results[i]))
    && (forall k :: 0 <= k < |s.errors| ==> SomeFailedWith(s, s.errors[k]))
    && (s.done ==> AllGone(s.workers))
    && (s.caller.Waiting? ==> Justified(s, s.caller.ret) && s.caller.ret != Nil)
    && (s.caller.Returned? ==> Justified(s, s.caller.ret) && s.done)
    && (s.caller.Selecting? ==>
          forall i: nat, f :: FailedWith(s, i, f) && PastSending(s.workers[i]) ==> f in s.errors)
  }

  lemma StartInv(topics: nat)
    ensures Inv(Start(topics))
  {
    SumOfOnes(Unsent(Start(topics).workers));
  }

  lemma WorkerStepKeepsInv(s: Group, a: Action)
    requires Inv(s) && Enabled(s, a) && (a.Send? || a.Cancel? || a.WaitGroupDone?)
    ensures Inv(Step(s, a))
  {
    var t := Step(s, a);
    UnsentUpdate(s.workers, a.i, t.workers[a.i]);
    assert forall i: nat, f :: FailedWith(t, i, f) <==> FailedWith(s, i, f);
    if a.Send? {
      assert FailedWith(s, a.i, s.workers[a.i].fault);
    }
    forall k | 0 <= k < |t.errors| ensures SomeFailedWith(t, t.errors[k]) {
      if k < |s.errors| {
        var i: nat :| FailedWith(s, i, s.errors[k]);
        assert FailedWith(t, i, t.errors[k]);
      } else {
        assert FailedWith(t, a.i, t.errors[k]);
      }
    }
    CallerSurvives(s, t);
  }

  lemma CallerSurvives(s: Group, t: Group)
    requires t.caller == s.caller && t.context == s.context && t.done == s.done
    requires forall i: nat, f :: FailedWith(s, i, f) ==> FailedWith(t, i, f)
    requires !s.caller.Selecting? ==> Justified(s, s.caller.ret)
    ensures !t.caller.Selecting? ==> Justified(t, t.caller.ret)
  {
    if !s.caller.Selecting? && s.caller.ret.Failure? {
      var i: nat :| FailedWith(s, i, s.caller.ret.fault);
      assert FailedWith(t, i, s.caller.ret.fault);
    }
  }

  lemma ReturnKeepsInv(s: Group, a: Action)
    requires Inv(s) && Enabled(s, a) && a.ConsumerReturns?
    ensures Inv(Step(s, a))
  {
    var t := Step(s, a);
    UnsentUpdate(s.workers, a.i, t.workers[a.i]);
    assert forall i: nat, f :: FailedWith(s, i, f) ==> FailedWith(t, i, f);
    forall k | 0 <= k < |t.errors| ensures SomeFailedWith(t, t.errors[k]) {
      var i: nat :| FailedWith(s, i, s.errors[k]);
      assert FailedWith(t, i, t.errors[k]);
    }
    CallerSurvives(s, t);
    forall i: nat, f | FailedWith(t, i, f) && PastSending(t.workers[i]) && s.caller.Selecting? ensures f in t.errors {
      assert FailedWith(s, i, f) && PastSending(s.workers[i]);
    }
  }

  lemma CallerStepKeepsInv(s: Group, a: Action)
    requires Inv(s) && Enabled(s, a)
    requires a.ContextEnds? || a.CloseDone? || a.SelectContext? || a.SelectError? || a.SelectDone? || a.Return?
    ensures Inv(Step(s, a))
  {
    var t := Step(s, a);
    assert forall i: nat, f :: FailedWith(t, i, f) <==> FailedWith(s, i, f);
    assert forall f :: SomeFailedWith(s, f) ==> SomeFailedWith(t, f) by {
      forall f | SomeFailedWith(s, f) ensures SomeFailedWith(t, f) {
        var i: nat :| FailedWith(s, i, f);
        assert FailedWith(t, i, f);
      }
    }
  }

  lemma StepKeepsInv(s: Group, a: Action)
    requires Inv(s) && Enabled(s, a)
    ensures Inv(Step(s, a))
  {
    if a.Send? || a.Cancel? || a.WaitGroupDone? {
      WorkerStepKeepsInv(s, a);
    } else if a.ConsumerReturns? {
      ReturnKeepsInv(s, a);
    } else {
      CallerStepKeepsInv(s, a);
    }
  }

  lemma {:induction false} RunKeepsInv(s: Group, run: seq<Action>)
    requires Inv(s) && Valid(s, run)
    ensures Inv(Exec(s, run)) && |Exec(s, run).workers| == |s.workers|
    decreases |run|
  {
    if run != [] {
      StepKeepsInv(s, run[0]);
      RunKeepsInv(Step(s, run[0]), run[1..]);
    }
  }

  // ---------- cancellation ----------

  /** consumeTopic number i failed and its goroutine is past its call of cancel. */
  predicate HasCancelled(s: Group, i: nat) {
    && i < |s.workers| && i < |s.results|
    && (s.workers[i].Leaving? || s.workers[i].Gone?) && s.results[i].Ended? && Reports(s.results[i].fault)
  }

  ghost predicate Cause(s: Group) {
    s.context.Some? || !s.caller.Selecting? || exists i: nat :: HasCancelled(s, i)
  }

  lemma StepKeepsCause(s: Group, a: Action)
    requires Inv(s) && Enabled(s, a) && (s.cancelled <==> Cause(s))
    ensures Step(s, a).cancelled <==> Cause(Step(s, a))
  {
    var t := Step(s, a);
    if a.ConsumerReturns? || a.Send? || a.Cancel? || a.WaitGroupDone? {
      assert Agrees(s.workers[a.i], s.results[a.i]);
      assert forall i: nat :: i != a.i ==> (HasCancelled(t, i) <==> HasCancelled(s, i));
      assert HasCancelled(t, a.i) <==> a.Cancel? || (a.WaitGroupDone? && HasCancelled(s, a.i));
    } else {
      assert forall i: nat :: HasCancelled(t, i) <==> HasCancelled(s, i);
    }
  }

  lemma {:induction false} RunKeepsCause(s: Group, run: seq<Action>)
    requires Inv(s) && Valid(s, run) && (s.cancelled <==> Cause(s))
    ensures Exec(s, run).cancelled <==> Cause(Exec(s, run))
    decreases |run|
  {
    if run != [] {
      StepKeepsInv(s, run[0]);
      StepKeepsCause(s, run[0]);
      RunKeepsCause(Step(s, run[0]), run[1..]);
    }
  }

  // ---------- the theorems ----------

  /** In every reachable state a goroutine that wants to send finds room: no send ever blocks. */
  lemma NoSendBlocks(topics: nat, run: seq<Action>, i: nat)
    requires Valid(Start(topics), run)
    requires i < |Exec(Start(topics), run).workers| && Exec(Start(topics), run).workers[i].Sending?
    ensures Enabled(Exec(Start(topics), run), Send(i))
  {
    StartInv(topics);
    RunKeepsInv(Start(topics), run);
    SendHasRoom(Exec(Start(topics), run), i);
  }

  lemma SendHasRoom(s: Group, i: nat)
    requires Inv(s) && i < |s.workers| && s.workers[i].Sending?
    ensures Enabled(s, Send(i))
  {
    SumAtLeast(Unsent(s.workers), i);
  }

  /**
    Subscribe returns only after every consumer has exited; an error it returns is the context's own or one
    that some consumeTopic returned, and never one that wraps Canceled.
   */
  lemma ReturnsAfterAll(topics: nat, run: seq<Action>)
    requires Valid(Start(topics), run) && Exec(Start(topics), run).caller.Returned?
    ensures var s := Exec(Start(topics), run);
            && |s.workers| == |s.results| == topics && AllGone(s.workers)
            && (forall i :: 0 <= i < topics ==> s.results[i].Ended?)
            && match s.caller.ret
               case Nil => true
               case Context(error) => s.context == Some(error)
               case Failure(f) => !f.canceled && exists i :: 0 <= i < topics && s.results[i].fault == Some(f)
  {
    StartInv(topics);
    RunKeepsInv(Start(topics), run);
    var s := Exec(Start(topics), run);
    if s.caller.ret.Failure? {
      var i: nat :| FailedWith(s, i, s.caller.ret.fault);
      assert 0 <= i < topics;
    }
  }

  /**
    The consumers' context is cancelled exactly when there is a reason for it: the caller's own context ended,
    Subscribe has left its select, or a topic failed and its goroutine has got past the report. So a topic whose
    error is reported stops all the others; one that ends with nil or with a dropped error stops none.
   */
  lemma CancelledIffCause(topics: nat, run: seq<Action>)
    requires Valid(Start(topics), run)
    ensures var s := Exec(Start(topics), run);
            s.cancelled <==>
              || s.context.Some?
              || !s.caller.Selecting?
              || exists i :: 0 <= i < |s.workers| && i < |s.results| && (s.workers[i].Leaving? || s.workers[i].Gone?)
                             && s.results[i].Ended? && Reports(s.results[i].fault)
  {
    StartInv(topics);
    assert forall i: nat :: !HasCancelled(Start(topics), i);
    RunKeepsCause(Start(topics), run);
    var s := Exec(Start(topics), run);
    assert forall i: nat :: HasCancelled(s, i) <==>
      (i < |s.workers| && i < |s.results| && (s.workers[i].Leaving? || s.workers[i].Gone?)
       && s.results[i].Ended? && Reports(s.results[i].fault));
  }

  /** Subscribe has settled what it returns. */
  predicate Settled(s: Group, ret: Return) {
    s.caller == Waiting(ret) || s.caller == Returned(ret)
  }

  lemma {:induction false} StaysSettled(s: Group, ret: Return, run: seq<Action>)
    requires Settled(s, ret) && Valid(s, run)
    ensures Settled(Exec(s, run), ret)
    decreases |run|
  {
    if run != [] { StaysSettled(Step(s, run[0]), ret, run[1..]); }
  }

  /** The branch of the select that is taken decides what Subscribe returns. */
  function BranchReturn(s: Group, branch: Action): (r: Return)
    requires Enabled(s, branch) && (branch.SelectContext? || branch.SelectError? || branch.SelectDone?)
  {
    if branch.SelectContext? then Context(s.context.value)
    else if branch.SelectError? then Failure(s.errors[0])
    else Nil
  }

  lemma {:induction false} CutRun(s: Group, before: seq<Action>, branch: Action, rest: seq<Action>)
    requires Valid(s, before + [branch] + rest)
    ensures Valid(s, before) && Enabled(Exec(s, before), branch) && Valid(Step(Exec(s, before), branch), rest)
    ensures Exec(s, before + [branch] + rest) == Exec(Step(Exec(s, before), branch), rest)
    decreases |before|
  {
    if before == [] {
      assert before + [branch] + rest == [branch] + rest;
      assert ([branch] + rest)[1..] == rest;
    } else {
      assert (before + [branch] + rest)[1..] == before[1..] + [branch] + rest;
      CutRun(Step(s, before[0]), before[1..], branch, rest);
    }
  }

  /**
    The select. Over every run, whatever happens after it: by the context branch Subscribe returns the error of the
    caller's context, by the error branch the error that was first in the channel then, by the done branch nil.
   */
  lemma SelectDecides(topics: nat, before: seq<Action>, branch: Action, rest: seq<Action>)
    requires Valid(Start(topics), before + [branch] + rest)
    requires branch.SelectContext? || branch.SelectError? || branch.SelectDone?
    ensures Valid(Start(topics), before)
    ensures var s := Exec(Start(topics), before); var t := Exec(Start(topics), before + [branch] + rest);
            && s.caller.Selecting?
            && (branch.SelectContext? ==> s.context.Some? && Settled(t, Context(s.context.value)))
            && (branch.SelectError? ==> s.errors != [] && Settled(t, Failure(s.errors[0])))
            && (branch.SelectDone? ==> s.done && t.caller == Returned(Nil))
  {
    CutRun(Start(topics), before, branch, rest);
    var s := Exec(Start(topics), before);
    StaysSettled(Step(s, branch), BranchReturn(s, branch), rest);
    if branch.SelectDone? { StaysReturned(Step(s, branch), rest); }
  }

  lemma {:induction false} StaysReturned(s: Group, run: seq<Action>)
    requires s.caller.Returned? && Valid(s, run)
    ensures Exec(s, run).caller == s.caller
    decreases |run|
  {
    if run != [] { StaysReturned(Step(s, run[0]), run[1..]); }
  }

  lemma SendStep(s: Group, i: nat)
    requires Inv(s) && Enabled(s, Send(i))
    ensures s.results[i].Ended? && Step(s, Send(i)).errors == s.errors + [s.results[i].fault.value]
  {
    assert Agrees(s.workers[i], s.results[i]);
  }

  /** The channel is first in, first out: a send puts its consumer's own error behind those already there. */
  lemma SendsQueue(topics: nat, before: seq<Action>, i: nat)
    requires Valid(Start(topics), before) && Enabled(Exec(Start(topics), before), Send(i))
    ensures var s := Exec(Start(topics), before);
            && i < |s.results| && s.results[i].Ended? && s.results[i].fault.Some?
            && Step(s, Send(i)).errors == s.errors + [s.results[i].fault.value]
  {
    StartInv(topics);
    RunKeepsInv(Start(topics), before);
    SendStep(Exec(Start(topics), before), i);
  }

  /** A context that was not live has been cancelled, and stays so. */
  ghost predicate LiveUnlessCancelled(s: Group) {
    forall i :: 0 <= i < |s.results| && s.results[i].Ended? && !s.results[i].live ==> s.cancelled
  }

  lemma {:induction false} RunKeepsLive(s: Group, run: seq<Action>)
    requires LiveUnlessCancelled(s) && Valid(s, run)
    ensures LiveUnlessCancelled(Exec(s, run))
    decreases |run|
  {
    if run != [] { RunKeepsLive(Step(s, run[0]), run[1..]); }
  }

  /** When the done branch may be taken, every consumer has returned, and an error it reported is in the channel. */
  lemma AllEnded(topics: nat, run: seq<Action>)
    requires Valid(Start(topics), run) && Enabled(Exec(Start(topics), run), SelectDone)
    ensures var s := Exec(Start(topics), run);
            && Inv(s) && |s.results| == topics
            && (forall i :: 0 <= i < topics ==> s.results[i].Ended?)
            && (s.errors == [] <==> forall i :: 0 <= i < topics ==> !Reports(s.results[i].fault))
  {
    StartInv(topics);
    RunKeepsInv(Start(topics), run);
    var s := Exec(Start(topics), run);
    forall i | 0 <= i < topics ensures s.results[i].Ended? {
      assert s.workers[i].Gone? && Agrees(s.workers[i], s.results[i]);
    }
    if s.errors == [] {
      forall i | 0 <= i < topics ensures !Reports(s.results[i].fault) {
        if Reports(s.results[i].fault) { assert FailedWith(s, i, s.results[i].fault.value); }
      }
    } else {
      var i: nat :| FailedWith(s, i, s.errors[0]);
      assert Reports(s.results[i].fault);
    }
  }

  /**
    When the done branch may be taken, no topic has failed if and only if the error channel is empty and no
    consumer's error was dropped, that is, none returned an error wrapping Canceled under a live context.
   */
  lemma NilMeansCleanIff(topics: nat, run: seq<Action>)
    requires Valid(Start(topics), run) && Enabled(Exec(Start(topics), run), SelectDone)
    ensures var s := Exec(Start(topics), run);
            (forall i :: 0 <= i < |s.results| ==> !Failed(s.results[i]))
            <==> (s.errors == [] && forall i :: 0 <= i < |s.results| ==> !Dropped(s.results[i]))
  {
    AllEnded(topics, run);
    var s := Exec(Start(topics), run);
    forall i | 0 <= i < topics
      ensures Failed(s.results[i]) <==> Reports(s.results[i].fault) || Dropped(s.results[i])
    {
    }
  }

  /**
    What a nil return under a live context means: every consumer has ended by itself, while its context was
    live, with nil or with an error that was dropped. With an empty channel and the caller's context not ended,
    no topic is being consumed any more and no reason is given.
   */
  lemma NilUnderLiveContext(topics: nat, run: seq<Action>)
    requires Valid(Start(topics), run) && Enabled(Exec(Start(topics), run), SelectDone)
    requires Exec(Start(topics), run).errors == [] && Exec(Start(topics), run).context.None?
    ensures var s := Exec(Start(topics), run);
            && !s.cancelled && |s.results| == topics
            && forall i :: 0 <= i < topics ==>
                 && s.results[i].Ended? && s.results[i].live
                 && (s.results[i].fault.None? || Dropped(s.results[i]))
  {
    var s := Exec(Start(topics), run);
    AllEnded(topics, run);
    CancelledIffCause(topics, run);
    RunKeepsLive(Start(topics), run);
  }

  /** Such an error is enough: a topic dies with it, nobody is cancelled, the channel is empty. */
  lemma DroppedError(f: Fault)
    requires f.canceled
    ensures exists run ::
              && Valid(Start(1), run) && Enabled(Exec(Start(1), run), SelectDone)
              && var s := Exec(Start(1), run);
                 && s.errors == [] && !s.cancelled && s.context.None?
                 && s.results == [Ended(Some(f), true)] && Failed(s.results[0])
  {
    var s0 := Start(1);
    assert s0.workers == [Consuming] && s0.results == [Running];
    var s1 := Step(s0, ConsumerReturns(0, Some(f)));
    assert s1.workers == [Leaving] && s1.results == [Ended(Some(f), true)];
    var s2 := Step(s1, WaitGroupDone(0));
    assert s2.workers == [Gone];
    Prepend(s2, CloseDone, []);
    Prepend(s1, WaitGroupDone(0), [CloseDone]);
    Prepend(s0, ConsumerReturns(0, Some(f)), [WaitGroupDone(0), CloseDone]);
    assert Valid(s0, [ConsumerReturns(0, Some(f)), WaitGroupDone(0), CloseDone]);
  }

  /** And the channel need not be empty: a topic fails and Subscribe still returns nil. */
  lemma NilDespiteFailure(f: Fault)
    requires !f.canceled
    ensures exists run ::
              && Valid(Start(1), run)
              && var s := Exec(Start(1), run);
                 s.caller == Returned(Nil) && s.results == [Ended(Some(f), true)] && Failed(s.results[0])
  {
    var s0 := Start(1);
    assert s0.workers == [Consuming] && s0.results == [Running];
    var s1 := Step(s0, ConsumerReturns(0, Some(f)));
    assert s1.workers == [Sending(f)] && s1.results == [Ended(Some(f), true)];
    var s2 := Step(s1, Send(0));
    assert s2.workers == [Cancelling];
    var s3 := Step(s2, Cancel(0));
    assert s3.workers == [Leaving];
    var s4 := Step(s3, WaitGroupDone(0));
    assert s4.workers == [Gone];
    var r5 := [SelectDone] + [];
    Prepend(Step(s4, CloseDone), SelectDone, []);
    var r4 := [CloseDone] + r5;
    Prepend(s4, CloseDone, r5);
    var r3 := [WaitGroupDone(0)] + r4;
    Prepend(s3, WaitGroupDone(0), r4);
    var r2 := [Cancel(0)] + r3;
    Prepend(s2, Cancel(0), r3);
    var r1 := [Send(0)] + r2;
    Prepend(s1, Send(0), r2);
    Prepend(s0, ConsumerReturns(0, Some(f)), r1);
    assert Valid(s0, [ConsumerReturns(0, Some(f))] + r1);
  }

  lemma Prepend(s: Group, a: Action, rest: seq<Action>)
    requires Enabled(s, a) && Valid(Step(s, a), rest)
    ensures Valid(s, [a] + rest) && Exec(s, [a] + rest) == Exec(Step(s, a), rest)
  {
    assert ([a] + rest)[1..] == rest;
  }

  lemma StepDecreases(s: Group, a: Action)
    requires Enabled(s, a)
    ensures Measure(Step(s, a)) < Measure(s)
  {
    var t := Step(s, a);
    if a.ConsumerReturns? || a.Send? || a.Cancel? || a.WaitGroupDone? {
      RemainingUpdate(s.workers, a.i, t.workers[a.i]);
    }
  }

  /** No run goes on for ever: it has at most as many steps as the measure of its first state. */
  lemma {:induction false} RunsAreBounded(s: Group, run: seq<Action>)
    requires Valid(s, run)
    ensures |run| + Measure(Exec(s, run)) <= Measure(s)
    decreases |run|
  {
    if run != [] {
      StepDecreases(s, run[0]);
      RunsAreBounded(Step(s, run[0]), run[1..]);
    }
  }

  /** A step of Subscribe's own machinery, as opposed to a consumer returning or the context ending. */
  predicate Internal(a: Action) { !a.ContextEnds? && !a.ConsumerReturns? }

  /**
    Completion. Once every consumeTopic has returned, Subscribe cannot get stuck: until it has returned there
    is always a step to take, and by RunsAreBounded only finitely many can be taken.
   */
  lemma NeverStuck(topics: nat, run: seq<Action>)
    requires Valid(Start(topics), run)
    requires var s := Exec(Start(topics), run);
             !s.caller.Returned? && forall i :: 0 <= i < |s.workers| ==> !s.workers[i].Consuming?
    ensures exists a :: Internal(a) && Enabled(Exec(Start(topics), run), a)
  {
    StartInv(topics);
    RunKeepsInv(Start(topics), run);
    var s := Exec(Start(topics), run);
    if i :| 0 <= i < |s.workers| && !s.workers[i].Gone? {
      if s.workers[i].Sending? {
        SendHasRoom(s, i);
        assert Internal(Send(i)) && Enabled(s, Send(i));
      } else if s.workers[i].Cancelling? {
        assert Internal(Cancel(i)) && Enabled(s, Cancel(i));
      } else {
        assert Internal(WaitGroupDone(i)) && Enabled(s, WaitGroupDone(i));
      }
    } else if !s.done {
      assert Internal(CloseDone) && Enabled(s, CloseDone);
    } else if s.caller.Selecting? {
      assert Internal(SelectDone) && Enabled(s, SelectDone);
    } else {
      assert Internal(Return) && Enabled(s, Return);
    }
  }
}
