/**
  The topic as the consumers see it: a log per partition, messages that name their partition and offset,
  and offset commits. Fetching delivers each partition in offset order; committing a set of messages moves
  each partition to its highest offset plus one.
 */
module PartitionedLog {
  import opened Results
  import opened Schema
  import opened Sums

  type Log = seq<seq<Payload>>

  datatype Message = Message(partition: nat, offset: nat, value: Payload)

  function MessageAt(log: Log, p: nat, o: nat): (r: Message)
    requires p < |log| && o < |log[p]|
  {
    Message(p, o, log[p][o])
  }

  /** The messages of partition p from offset lo up to hi. */
  function Slice(log: Log, p: nat, lo: nat, hi: nat): (r: seq<Message>)
    requires p < |log| && lo <= hi <= |log[p]|
    ensures |r| == hi - lo && forall i :: 0 <= i < hi - lo ==> r[i] == MessageAt(log, p, lo + i)
  {
    seq(hi - lo, i requires 0 <= i < hi - lo => MessageAt(log, p, lo + i))
  }

  /** The messages of msgs that belong to partition p, in order. */
  function Restrict(msgs: seq<Message>, p: nat): (r: seq<Message>)
    ensures forall i :: 0 <= i < |r| ==> r[i] in msgs && r[i].partition == p
    decreases |msgs|
  {
    if msgs == [] then []
    else
      var front, last := msgs[..|msgs| - 1], msgs[|msgs| - 1];
      if last.partition == p then Restrict(front, p) + [last] else Restrict(front, p)
  }

  lemma RestrictAppend(msgs: seq<Message>, m: Message, p: nat)
    ensures Restrict(msgs + [m], p) == if m.partition == p then Restrict(msgs, p) + [m] else Restrict(msgs, p)
  {
    assert (msgs + [m])[..|msgs|] == msgs;
  }

  /** Offsets are in range, one per partition of the log. */
  ghost predicate Offsets(log: Log, at: seq<nat>) {
    |at| == |log| && forall p {:trigger at[p]} {:trigger log[p]} :: 0 <= p < |log| ==> at[p] <= |log[p]|
  }

  /**
    msgs is a window of the log: in every partition it is exactly the slice from lo to hi, nothing skipped,
    nothing twice, nothing foreign.
   */
  ghost predicate Window(log: Log, msgs: seq<Message>, lo: seq<nat>, hi: seq<nat>) {
    && Offsets(log, lo) && Offsets(log, hi)
    && (forall i :: 0 <= i < |msgs| ==> msgs[i].partition < |log|)
    && forall p {:trigger Restrict(msgs, p)} :: 0 <= p < |log| ==>
         lo[p] <= hi[p] && Restrict(msgs, p) == Slice(log, p, lo[p], hi[p])
  }

  lemma WindowPart(log: Log, msgs: seq<Message>, lo: seq<nat>, hi: seq<nat>, p: nat)
    requires Window(log, msgs, lo, hi) && p < |log|
    ensures Offsets(log, lo) && Offsets(log, hi) && lo[p] <= hi[p]
    ensures Restrict(msgs, p) == Slice(log, p, lo[p], hi[p])
  {
  }

  /** Fetching the next message of a partition extends the window. */
  lemma WindowAppend(log: Log, msgs: seq<Message>, lo: seq<nat>, hi: seq<nat>, p: nat)
    requires Window(log, msgs, lo, hi) && p < |log| && hi[p] < |log[p]|
    ensures Window(log, msgs + [MessageAt(log, p, hi[p])], lo, hi[p := hi[p] + 1])
  {
    var m := MessageAt(log, p, hi[p]);
    var hi' := hi[p := hi[p] + 1];
    forall q | 0 <= q < |log|
      ensures lo[q] <= hi'[q] && Restrict(msgs + [m], q) == Slice(log, q, lo[q], hi'[q])
    {
      WindowPart(log, msgs, lo, hi, q);
      PartGrows(log, msgs, p, hi[p], q, lo[q], hi[q], hi'[q]);
    }
  }

  /** The part of one partition, when a message of partition p is appended. */
  lemma PartGrows(log: Log, msgs: seq<Message>, p: nat, o: nat, q: nat, lo: nat, hi: nat, hi': nat)
    requires p < |log| && o < |log[p]| && q < |log| && lo <= hi <= hi' <= |log[q]|
    requires Restrict(msgs, q) == Slice(log, q, lo, hi)
    requires if q == p then o == hi && hi' == hi + 1 else hi' == hi
    ensures Restrict(msgs + [MessageAt(log, p, o)], q) == Slice(log, q, lo, hi')
  {
    RestrictAppend(msgs, MessageAt(log, p, o), q);
    if q == p { SliceSnoc(log, p, lo, hi); }
  }

  lemma SliceSnoc(log: Log, p: nat, lo: nat, hi: nat)
    requires p < |log| && lo <= hi < |log[p]|
    ensures Slice(log, p, lo, hi + 1) == Slice(log, p, lo, hi) + [MessageAt(log, p, hi)]
  {
  }

  /** Producing only appends, so windows stay windows. */
  function Append(log: Log, p: nat, value: Payload): (r: Log)
    requires p < |log|
  {
    log[p := log[p] + [value]]
  }

  ghost predicate Extends(log: Log, log': Log) {
    |log| == |log'| && forall p {:trigger log[p]} {:trigger log'[p]} :: 0 <= p < |log| ==> log[p] <= log'[p]
  }

  lemma ExtendsFurther(log: Log, log': Log, log'': Log)
    requires Extends(log, log') && Extends(log', log'')
    ensures Extends(log, log'')
  {
    forall p | 0 <= p < |log| ensures log[p] <= log''[p] {
      assert log[p] <= log'[p] <= log''[p];
    }
  }

  lemma WindowSurvives(log: Log, log': Log, msgs: seq<Message>, lo: seq<nat>, hi: seq<nat>)
    requires Window(log, msgs, lo, hi) && Extends(log, log')
    ensures Window(log', msgs, lo, hi)
  {
    forall p | 0 <= p < |log'|
      ensures lo[p] <= hi[p] <= |log'[p]| && Restrict(msgs, p) == Slice(log', p, lo[p], hi[p])
    {
      var part := Restrict(msgs, p);
      assert part == Slice(log, p, lo[p], hi[p]) == Slice(log', p, lo[p], hi[p]);
    }
    assert forall p :: 0 <= p < |log'| ==> lo[p] <= |log'[p]|;
  }

  /** The highest offset plus one among the messages of partition p, if there is any. */
  function Highest(msgs: seq<Message>, p: nat): (r: Option<nat>)
    decreases |msgs|
  {
    if msgs == [] then None
    else
      var front, last := Highest(msgs[..|msgs| - 1], p), msgs[|msgs| - 1];
      if last.partition != p then front
      else if front.Some? && front.value > last.offset then front
      else Some(last.offset + 1)
  }

  /** CommitMessages: every partition that occurs moves to its highest offset plus one. */
  function Commit(committed: seq<nat>, msgs: seq<Message>): (r: seq<nat>)
    ensures |r| == |committed|
  {
    seq(|committed|, p requires 0 <= p < |committed| =>
      match Highest(msgs, p) case None => committed[p] case Some(next) => next)
  }

  lemma HighestAppend(msgs: seq<Message>, m: Message, p: nat)
    ensures Highest(msgs + [m], p) ==
            if m.partition != p || (Highest(msgs, p).Some? && Highest(msgs, p).value > m.offset)
            then Highest(msgs, p) else Some(m.offset + 1)
  {
    assert (msgs + [m])[..|msgs|] == msgs;
  }

  lemma {:induction false} HighestOfRestrict(msgs: seq<Message>, p: nat)
    ensures Highest(msgs, p) == Highest(Restrict(msgs, p), p)
    decreases |msgs|
  {
    if msgs != [] {
      var front, last := msgs[..|msgs| - 1], msgs[|msgs| - 1];
      assert msgs == front + [last];
      HighestOfRestrict(front, p);
      HighestAppend(front, last, p);
      if last.partition == p {
        HighestAppend(Restrict(front, p), last, p);
      }
    }
  }

  lemma {:induction false} HighestOfSlice(log: Log, p: nat, lo: nat, hi: nat)
    requires p < |log| && lo <= hi <= |log[p]|
    ensures Highest(Slice(log, p, lo, hi), p) == if lo == hi then None else Some(hi)
    decreases hi
  {
    if lo < hi {
      HighestOfSlice(log, p, lo, hi - 1);
      assert Slice(log, p, lo, hi)[..hi - lo - 1] == Slice(log, p, lo, hi - 1);
    }
  }

  /**
    Committing a window that starts at the committed offsets moves them exactly to its end. Were a message
    missing from the window, the commit would skip it: the highest offset alone decides.
   */
  lemma CommitOfWindow(log: Log, msgs: seq<Message>, committed: seq<nat>, position: seq<nat>)
    requires Window(log, msgs, committed, position)
    ensures Commit(committed, msgs) == position
  {
    forall p | 0 <= p < |log| ensures Commit(committed, msgs)[p] == position[p] {
      HighestOfRestrict(msgs, p);
      assert Restrict(msgs, p) == Slice(log, p, committed[p], position[p]);
      HighestOfSlice(log, p, committed[p], position[p]);
    }
  }

  // ---------- counting ----------

  /** The length of each partition. */
  function Lengths(log: Log): (r: seq<nat>)
    ensures |r| == |log| && forall p :: 0 <= p < |r| ==> r[p] == |log[p]|
  {
    seq(|log|, p requires 0 <= p < |log| => |log[p]|)
  }

  /** How many messages each of the first n partitions has in msgs. */
  function Counts(msgs: seq<Message>, n: nat): (r: seq<nat>)
    ensures |r| == n && forall p :: 0 <= p < n ==> r[p] == |Restrict(msgs, p)|
  {
    seq(n, p requires 0 <= p < n => |Restrict(msgs, p)|)
  }

  /** Every message belongs to exactly one partition. */
  lemma {:induction false} CountsSum(msgs: seq<Message>, n: nat)
    requires forall i :: 0 <= i < |msgs| ==> msgs[i].partition < n
    ensures Sum(Counts(msgs, n)) == |msgs|
    decreases |msgs|
  {
    if msgs == [] {
      ZeroSum(Counts(msgs, n));
    } else {
      var front, last := msgs[..|msgs| - 1], msgs[|msgs| - 1];
      CountsSum(front, n);
      SumUpdate(Counts(front, n), last.partition, |Restrict(front, last.partition)| + 1);
      assert Counts(msgs, n) == Counts(front, n)[last.partition := |Restrict(front, last.partition)| + 1];
    }
  }

  /** The length of a window is the total distance between its ends. */
  lemma WindowLength(log: Log, msgs: seq<Message>, lo: seq<nat>, hi: seq<nat>)
    requires Window(log, msgs, lo, hi)
    ensures Sum(lo) + |msgs| == Sum(hi)
  {
    CountsSum(msgs, |log|);
    forall p | 0 <= p < |log| ensures lo[p] + Counts(msgs, |log|)[p] == hi[p] {
      assert Restrict(msgs, p) == Slice(log, p, lo[p], hi[p]);
    }
    SumOfDifferences(lo, hi, Counts(msgs, |log|));
  }

  // ---------- identity of messages ----------

  lemma {:induction false} RestrictHas(msgs: seq<Message>, i: nat) returns (k: nat)
    requires i < |msgs|
    ensures k < |Restrict(msgs, msgs[i].partition)| && Restrict(msgs, msgs[i].partition)[k] == msgs[i]
    decreases |msgs|
  {
    var p, last := msgs[i].partition, |msgs| - 1;
    if i < last {
      k := RestrictHas(msgs[..last], i);
    } else {
      k := |Restrict(msgs[..last], p)|;
    }
  }

  /** A message of a window is the log's own record between the ends of its partition. */
  lemma InWindow(log: Log, msgs: seq<Message>, lo: seq<nat>, hi: seq<nat>, i: nat)
    requires Window(log, msgs, lo, hi) && i < |msgs|
    ensures var m := msgs[i];
            m.partition < |log| && lo[m.partition] <= m.offset < hi[m.partition]
            && m == MessageAt(log, m.partition, m.offset)
  {
    var k := RestrictHas(msgs, i);
    var p := msgs[i].partition;
    assert Restrict(msgs, p) == Slice(log, p, lo[p], hi[p]);
    assert Restrict(msgs, p)[k] == MessageAt(log, p, lo[p] + k);
  }

  /** Every offset between the ends of a partition is in the window. */
  lemma WindowCovers(log: Log, msgs: seq<Message>, lo: seq<nat>, hi: seq<nat>, p: nat, o: nat)
    requires Window(log, msgs, lo, hi) && p < |log| && lo[p] <= o < hi[p]
    ensures MessageAt(log, p, o) in msgs
  {
    assert Restrict(msgs, p) == Slice(log, p, lo[p], hi[p]);
    assert Restrict(msgs, p)[o - lo[p]] == MessageAt(log, p, o);
  }

  /** No message occurs twice in a window. */
  lemma {:induction false} WindowDistinct(msgs: seq<Message>, i: nat, j: nat)
    requires i < j < |msgs|
    requires forall p, a, b :: 0 <= a < b < |Restrict(msgs, p)| ==> Restrict(msgs, p)[a] != Restrict(msgs, p)[b]
    ensures msgs[i] != msgs[j]
    decreases |msgs|
  {
    var last := |msgs| - 1;
    var front := msgs[..last];
    forall p, a, b | 0 <= a < b < |Restrict(front, p)| ensures Restrict(front, p)[a] != Restrict(front, p)[b] {
      assert Restrict(msgs, p)[a] != Restrict(msgs, p)[b];
    }
    if j < last {
      WindowDistinct(front, i, j);
    } else if msgs[i].partition == msgs[j].partition {
      var k := RestrictHas(front, i);
      var p := msgs[j].partition;
      assert Restrict(msgs, p)[k] != Restrict(msgs, p)[|Restrict(front, p)|];
    }
  }
}
