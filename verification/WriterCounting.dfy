/**
  At-least-once, counted: not only is the event of every committed message in the store, there is a row for
  each of them, also when several messages carry the same event.
 */
module WriterCounting {
  import opened Schema
  import opened PartitionedLog
  import opened WriterMachine
  import opened WriterSafety
  import opened WriterAccounting
  import opened WriterRefinement

  /** Something counted over messages, such as the rows of one event they make. */
  type Weight = seq<Message> -> nat

  ghost predicate Additive(f: Weight) {
    f([]) == 0 && forall a, b :: f(a + b) == f(a) + f(b)
  }

  /** How many rows with event e the messages make. */
  ghost function RowsWith(e: LogEvent): (f: Weight) {
    (ms: seq<Message>) => multiset(RowsOf(DecodedRow, ms))[e]
  }

  lemma RowsAreAdditive(e: LogEvent)
    ensures Additive(RowsWith(e))
  {
    forall a, b ensures RowsWith(e)(a + b) == RowsWith(e)(a) + RowsWith(e)(b) {
      RowsOfConcat(DecodedRow, a, b);
    }
  }

  /** All messages below the given offsets in the first n partitions. */
  function MessagesBelow(log: Log, at: seq<nat>, n: nat): (r: seq<Message>)
    requires Offsets(log, at) && n <= |log|
  {
    if n == 0 then [] else MessagesBelow(log, at, n - 1) + Slice(log, n - 1, 0, at[n - 1])
  }

  /** The weight of msgs, partition by partition. */
  ghost function PartsWeight(f: Weight, msgs: seq<Message>, n: nat): (r: nat) {
    if n == 0 then 0 else PartsWeight(f, msgs, n - 1) + f(Restrict(msgs, n - 1))
  }

  lemma PartAppend(f: Weight, msgs: seq<Message>, m: Message, p: nat)
    requires Additive(f)
    ensures f(Restrict(msgs + [m], p)) == f(Restrict(msgs, p)) + if m.partition == p then f([m]) else 0
  {
    RestrictAppend(msgs, m, p);
    assert f(Restrict(msgs, p) + [m]) == f(Restrict(msgs, p)) + f([m]);
  }

  lemma {:induction false} PartsAppend(f: Weight, msgs: seq<Message>, m: Message, n: nat)
    requires Additive(f)
    ensures PartsWeight(f, msgs + [m], n) == PartsWeight(f, msgs, n) + if m.partition < n then f([m]) else 0
    decreases n
  {
    if n > 0 {
      PartsAppend(f, msgs, m, n - 1);
      PartAppend(f, msgs, m, n - 1);
    }
  }

  lemma {:induction false} PartsEmpty(f: Weight, n: nat)
    requires Additive(f)
    ensures PartsWeight(f, [], n) == 0
    decreases n
  {
    if n > 0 { PartsEmpty(f, n - 1); }
  }

  /** Splitting by partition loses and repeats nothing. */
  lemma {:induction false} PartsAreAll(f: Weight, msgs: seq<Message>, n: nat)
    requires Additive(f) && forall i :: 0 <= i < |msgs| ==> msgs[i].partition < n
    ensures PartsWeight(f, msgs, n) == f(msgs)
    decreases |msgs|
  {
    if msgs == [] {
      PartsEmpty(f, n);
    } else {
      var front, last := msgs[..|msgs| - 1], msgs[|msgs| - 1];
      assert msgs == front + [last];
      PartsAreAll(f, front, n);
      PartsAppend(f, front, last, n);
    }
  }

  lemma SliceWeight(f: Weight, log: Log, p: nat, lo: nat, hi: nat)
    requires Additive(f) && p < |log| && lo <= hi <= |log[p]|
    ensures f(Slice(log, p, 0, hi)) == f(Slice(log, p, 0, lo)) + f(Slice(log, p, lo, hi))
  {
    assert Slice(log, p, 0, hi) == Slice(log, p, 0, lo) + Slice(log, p, lo, hi);
  }

  lemma BelowWeight(f: Weight, log: Log, at: seq<nat>, n: nat)
    requires Additive(f) && Offsets(log, at) && 0 < n <= |log|
    ensures f(MessagesBelow(log, at, n)) == f(MessagesBelow(log, at, n - 1)) + f(Slice(log, n - 1, 0, at[n - 1]))
  {
  }

  lemma {:induction false} WindowParts(f: Weight, log: Log, msgs: seq<Message>, lo: seq<nat>, hi: seq<nat>, n: nat)
    requires Additive(f) && Window(log, msgs, lo, hi) && n <= |log|
    ensures f(MessagesBelow(log, hi, n)) == f(MessagesBelow(log, lo, n)) + PartsWeight(f, msgs, n)
    decreases n
  {
    if n > 0 {
      WindowParts(f, log, msgs, lo, hi, n - 1);
      WindowPart(log, msgs, lo, hi, n - 1);
      SliceWeight(f, log, n - 1, lo[n - 1], hi[n - 1]);
      BelowWeight(f, log, lo, n);
      BelowWeight(f, log, hi, n);
    }
  }

  /** A window adds exactly its own messages. */
  lemma WindowWeight(f: Weight, log: Log, msgs: seq<Message>, lo: seq<nat>, hi: seq<nat>)
    requires Additive(f) && Window(log, msgs, lo, hi)
    ensures f(MessagesBelow(log, hi, |log|)) == f(MessagesBelow(log, lo, |log|)) + f(msgs)
  {
    WindowParts(f, log, msgs, lo, hi, |log|);
    PartsAreAll(f, msgs, |log|);
  }

  lemma {:induction false} WeightMonotone(f: Weight, log: Log, lo: seq<nat>, hi: seq<nat>, n: nat)
    requires Additive(f) && Offsets(log, lo) && Offsets(log, hi) && n <= |log|
    requires forall p :: 0 <= p < |log| ==> lo[p] <= hi[p]
    ensures f(MessagesBelow(log, lo, n)) <= f(MessagesBelow(log, hi, n))
    decreases n
  {
    if n > 0 {
      WeightMonotone(f, log, lo, hi, n - 1);
      SliceWeight(f, log, n - 1, lo[n - 1], hi[n - 1]);
      BelowWeight(f, log, lo, n);
      BelowWeight(f, log, hi, n);
    }
  }

  lemma SliceSurvives(log: Log, log': Log, p: nat, hi: nat)
    requires |log| == |log'| && p < |log| && log[p] <= log'[p] && hi <= |log[p]|
    ensures Slice(log', p, 0, hi) == Slice(log, p, 0, hi)
  {
  }

  lemma {:induction false} BelowSurvives(log: Log, log': Log, at: seq<nat>, n: nat)
    requires Offsets(log, at) && Offsets(log', at) && Extends(log, log') && n <= |log|
    ensures MessagesBelow(log', at, n) == MessagesBelow(log, at, n)
    decreases n
  {
    if n > 0 {
      BelowSurvives(log, log', at, n - 1);
      assert Slice(log', n - 1, 0, at[n - 1]) == Slice(log, n - 1, 0, at[n - 1]) by {
        SliceSurvives(log, log', n - 1, at[n - 1]);
      }
    }
  }

  lemma {:induction false} NothingBelow(log: Log, at: seq<nat>, n: nat)
    requires Offsets(log, at) && n <= |log| && forall p :: 0 <= p < |at| ==> at[p] == 0
    ensures MessagesBelow(log, at, n) == []
    decreases n
  {
    if n > 0 { NothingBelow(log, at, n - 1); }
  }

  // ---------- the invariant ----------

  /** The events of all committed messages, with multiplicity. */
  ghost function CommittedEvents(log: Log, committed: seq<nat>): (r: multiset<LogEvent>)
    requires Offsets(log, committed)
  {
    multiset(RowsOf(DecodedRow, MessagesBelow(log, committed, |log|)))
  }

  /** The committed events and, between write and commit, those of the batch just written, all have rows. */
  ghost predicate RowForEach(log: Log, committed: seq<nat>, batch: seq<LogEvent>, store: seq<LogEvent>) {
    Offsets(log, committed) && CommittedEvents(log, committed) + multiset(batch) <= multiset(store)
  }

  function Unsettled(s: State): (r: seq<LogEvent>) { if s.pc.Committing? then s.events else [] }

  ghost predicate RowsCover(s: State) { RowForEach(s.log, s.committed, Unsettled(s), s.store) }

  lemma RowsGrow(log: Log, committed: seq<nat>, store: seq<LogEvent>, more: seq<LogEvent>)
    requires RowForEach(log, committed, [], store)
    ensures RowForEach(log, committed, more, store + more) && RowForEach(log, committed, [], store + more)
  {
    assert multiset(store + more) == multiset(store) + multiset(more);
  }

  lemma CommitSettles(log: Log, msgs: seq<Message>, events: seq<LogEvent>, committed: seq<nat>, position: seq<nat>,
                      after: seq<nat>, store: seq<LogEvent>)
    requires Window(log, msgs, committed, position) && Decodes(msgs, events) && RowForEach(log, committed, events, store)
    requires Offsets(log, after) && forall p :: 0 <= p < |log| ==> after[p] <= position[p]
    ensures RowForEach(log, after, [], store)
  {
    DecodedRows(msgs, events);
    forall e ensures CommittedEvents(log, after)[e] <= multiset(store)[e] {
      var f := RowsWith(e);
      RowsAreAdditive(e);
      WindowWeight(f, log, msgs, committed, position);
      WeightMonotone(f, log, after, position, |log|);
      assert f(msgs) == multiset(events)[e];
      assert (CommittedEvents(log, committed) + multiset(events))[e] <= multiset(store)[e];
    }
  }

  /** The rows the answer to a write adds. */
  function Written(s: State, a: Action): (r: seq<LogEvent>)
    requires a.WriteOk? || a.WriteFail?
  {
    if a.WriteOk? then s.events else a.residue
  }

  lemma WriteShape(c: Config, s: State, a: Action)
    requires Enabled(s, a) && (a.WriteOk? || a.WriteFail?)
    ensures var t := Step(c, s, a);
            && t.log == s.log && t.committed == s.committed && t.store == s.store + Written(s, a)
            && Unsettled(s) == [] && (Unsettled(t) == [] || Unsettled(t) == Written(s, a))
  {
  }

  lemma WriteKeepsCounts(c: Config, s: State, a: Action)
    requires RowsCover(s) && Enabled(s, a) && (a.WriteOk? || a.WriteFail?)
    ensures RowsCover(Step(c, s, a))
  {
    WriteShape(c, s, a);
    RowsGrow(s.log, s.committed, s.store, Written(s, a));
  }

  lemma CommitKeepsCounts(s: State, t: State)
    requires Window(s.log, s.msgs, s.committed, s.position) && Decodes(s.msgs, s.events)
    requires s.pc.Committing? && RowsCover(s) && t.log == s.log && t.store == s.store && !t.pc.Committing?
    requires Offsets(s.log, t.committed) && forall p :: 0 <= p < |s.log| ==> t.committed[p] <= s.position[p]
    ensures RowsCover(t)
  {
    CommitSettles(s.log, s.msgs, s.events, s.committed, s.position, t.committed, s.store);
  }

  lemma CommitAnswerKeepsCounts(c: Config, s: State, a: Action)
    requires Inv(c, s) && RowsCover(s) && Enabled(s, a) && (a.CommitOk? || a.CommitFail?)
    ensures RowsCover(Step(c, s, a))
  {
    CommitAdvance(c, s, a);
    CommitMoves(c, s, a);
    CommitKeepsCounts(s, Step(c, s, a));
  }

  lemma ProduceKeepsCounts(c: Config, s: State, a: Action)
    requires RowsCover(s) && Enabled(s, a) && a.Produce?
    ensures RowsCover(Step(c, s, a))
  {
    var log' := Append(s.log, a.partition, a.value);
    assert Extends(s.log, log');
    BelowSurvives(s.log, log', s.committed, |s.log|);
  }

  /** Any other step: the disk is left alone, and no batch becomes unsettled. */
  lemma OtherStepsLeaveDisk(c: Config, s: State, a: Action)
    requires Enabled(s, a) && !a.WriteOk? && !a.WriteFail? && !a.CommitOk? && !a.CommitFail? && !a.Produce?
    ensures var t := Step(c, s, a);
            && t.log == s.log && t.committed == s.committed && t.store == s.store
            && (Unsettled(t) == Unsettled(s) || Unsettled(t) == [])
  {
    if a.FetchMessage? { FetchLeavesDisk(c, s, a); }
  }

  lemma SettledIsFewer(s: State, t: State)
    requires RowsCover(s) && t.log == s.log && t.committed == s.committed && t.store == s.store
    requires Unsettled(t) == Unsettled(s) || Unsettled(t) == []
    ensures RowsCover(t)
  {
  }

  lemma StepKeepsCounts(c: Config, s: State, a: Action)
    requires Inv(c, s) && RowsCover(s) && Enabled(s, a)
    ensures RowsCover(Step(c, s, a))
  {
    if a.WriteOk? || a.WriteFail? {
      WriteKeepsCounts(c, s, a);
    } else if a.CommitOk? || a.CommitFail? {
      CommitAnswerKeepsCounts(c, s, a);
    } else if a.Produce? {
      ProduceKeepsCounts(c, s, a);
    } else {
      OtherStepsLeaveDisk(c, s, a);
      SettledIsFewer(s, Step(c, s, a));
    }
  }

  lemma {:induction false} RunKeepsCounts(c: Config, s: State, run: seq<Action>)
    requires Inv(c, s) && RowsCover(s) && Valid(c, s, run)
    ensures RowsCover(Exec(c, s, run))
    decreases |run|
  {
    if run != [] {
      StepKeepsInv(c, s, run[0]);
      StepKeepsCounts(c, s, run[0]);
      RunKeepsCounts(c, Step(c, s, run[0]), run[1..]);
    }
  }

  /**
    Counted delivery. In every reachable state, over any number of crashes, restarts and ambiguous failures,
    the multiset of the events of all committed messages is contained in the multiset of stored rows.
   */
  lemma CountedDelivery(c: Config, log: Log, run: seq<Action>)
    requires Valid(c, Init(log), run)
    ensures var s := Exec(c, Init(log), run);
            Offsets(s.log, s.committed) && CommittedEvents(s.log, s.committed) <= multiset(s.store)
  {
    InitInv(c, log);
    NothingBelow(log, Init(log).committed, |log|);
    RunKeepsCounts(c, Init(log), run);
  }
}
