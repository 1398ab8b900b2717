/**
  consumeTopic (pkg/broker/redpanda.go): the simple consumer that hands over one message at a time and commits
  it only after the handler has returned nil.
 */
module TopicConsumer {
  import opened Results
  import opened Schema
  import opened PartitionedLog
  import opened WriterRefinement

  /** How one turn of the loop goes. A handler that fails may have stored something first. */
  datatype TopicTurn =
    | Handled(m: Message)
    | FetchContextDone(cause: Option<ContextEnd>)   // a context error; cause is what ctx.Err() says by then
    | FetchFault
    | HandlerFault(m: Message, residue: seq<LogEvent>)
    | CommitFault(m: Message, applied: bool)

  datatype ContextEnd = Canceled | DeadlineExceeded

  datatype TopicError = ContextError(end: ContextEnd) | FetchError | HandlerError | CommitError

  predicate AllHandled(turns: seq<TopicTurn>) {
    forall i :: 0 <= i < |turns| ==> turns[i].Handled?
  }

  /** The messages of turns that went well. */
  function MessagesOf(turns: seq<TopicTurn>): (r: seq<Message>)
    requires AllHandled(turns)
    ensures |r| == |turns| && forall i :: 0 <= i < |r| ==> r[i] == turns[i].m
  {
    seq(|turns|, i requires 0 <= i < |turns| => turns[i].m)
  }

  /** What the turn that ends the loop leaves on the disk: a message that was not handled is not committed. */
  function LastTurn(rows: Message -> seq<LogEvent>, d: Disk, turn: TopicTurn): (r: Disk) {
    match turn
    case Handled(m) => ConsumeOne(rows, d, m)
    case FetchContextDone(_) => d
    case FetchFault => d
    case HandlerFault(_, residue) => d.(store := d.store + residue)
    case CommitFault(m, applied) => if applied then ConsumeOne(rows, d, m) else d.(store := d.store + rows(m))
  }

  /** What consumeTopic returns when its loop ends with the turn: nil if the context itself is still live. */
  function ReturnOf(turn: TopicTurn): (r: Option<TopicError>)
    requires !turn.Handled?
  {
    match turn
    case FetchContextDone(None) => None
    case FetchContextDone(Some(end)) => Some(ContextError(end))
    case FetchFault => Some(FetchError)
    case HandlerFault(_, _) => Some(HandlerError)
    case CommitFault(_, _) => Some(CommitError)
  }

  /**
    The loop. n messages are handled and committed one by one; then either the loop is still waiting or it has
    returned because of the turn after them, with the error of that turn. That is nil in one case: the fetch
    gave up with a context error although the context had not ended.
   */
  method ConsumeTopic(rows: Message -> seq<LogEvent>, d: Disk, turns: seq<TopicTurn>)
    returns (r: Disk, returned: bool, err: Option<TopicError>, n: nat)
    ensures n <= |turns| && AllHandled(turns[..n])
    ensures returned <==> n < |turns|
    ensures !returned ==> r == ConsumeAll(rows, d, MessagesOf(turns[..n]))
    ensures returned ==> !turns[n].Handled? && r == LastTurn(rows, ConsumeAll(rows, d, MessagesOf(turns[..n])), turns[n])
    ensures returned ==> err == ReturnOf(turns[n])
    ensures returned ==> (err.None? <==> turns[n].FetchContextDone? && turns[n].cause.None?)
    ensures returned && turns[n].FetchContextDone? && turns[n].cause.Some? ==> err == Some(ContextError(turns[n].cause.value))
    ensures returned && turns[n].FetchFault? ==> err == Some(FetchError)
    ensures returned && turns[n].HandlerFault? ==> err == Some(HandlerError)
    ensures returned && turns[n].CommitFault? ==> err == Some(CommitError)
    ensures returned && (turns[n].FetchContextDone? || turns[n].FetchFault?) ==>
              r == ConsumeAll(rows, d, MessagesOf(turns[..n]))
    ensures returned && turns[n].HandlerFault? ==>
              var before := ConsumeAll(rows, d, MessagesOf(turns[..n]));
              r.committed == before.committed && r.store == before.store + turns[n].residue
    ensures returned && turns[n].CommitFault? ==>
              var before := ConsumeAll(rows, d, MessagesOf(turns[..n]));
              && r.store == before.store + rows(turns[n].m) && |r.committed| == |before.committed|
              && forall p :: 0 <= p < |r.committed| ==>
                   r.committed[p] == if turns[n].applied && p == turns[n].m.partition then turns[n].m.offset + 1
                                     else before.committed[p]
  {
    r, n := d, 0;
    while n < |turns|
      invariant n <= |turns| && AllHandled(turns[..n])
      invariant r == ConsumeAll(rows, d, MessagesOf(turns[..n]))
    {
      var turn := turns[n];
      if turn.FetchContextDone? {
        return r, true, if turn.cause.None? then None else Some(ContextError(turn.cause.value)), n;
      }
      if turn.FetchFault? {
        return r, true, Some(FetchError), n;
      }
      if turn.HandlerFault? {
        return r.(store := r.store + turn.residue), true, Some(HandlerError), n;
      }
      var handled := r.(store := r.store + rows(turn.m));
      if turn.CommitFault? {
        if turn.applied {
          CommitsOne(r.committed, turn.m);
          handled := handled.(committed := Commit(r.committed, [turn.m]));
        }
        return handled, true, Some(CommitError), n;
      }
      r := handled.(committed := Commit(r.committed, [turn.m]));
      n := n + 1;
      assert MessagesOf(turns[..n])[..n - 1] == MessagesOf(turns[..n - 1]);
    }
    returned, err := false, None;
  }

  lemma CommitsOne(committed: seq<nat>, m: Message)
    ensures forall p :: 0 <= p < |committed| ==>
              Commit(committed, [m])[p] == if p == m.partition then m.offset + 1 else committed[p]
  {
    forall p | 0 <= p < |committed|
      ensures Commit(committed, [m])[p] == if p == m.partition then m.offset + 1 else committed[p]
    {
      CommitOfOne(committed, m, p);
    }
  }

  /** The message of the turn, if a message was fetched in it. */
  function Fetched(turn: TopicTurn): (r: Option<Message>) {
    match turn
    case Handled(m) => Some(m)
    case HandlerFault(m, _) => Some(m)
    case CommitFault(m, _) => Some(m)
    case _ => None
  }

  /** The disk when the loop has handled n messages: still waiting, or after the turn that ended it. */
  function Final(rows: Message -> seq<LogEvent>, d: Disk, turns: seq<TopicTurn>, n: nat): (r: Disk)
    requires n <= |turns| && AllHandled(turns[..n])
  {
    var r := ConsumeAll(rows, d, MessagesOf(turns[..n]));
    if n < |turns| then LastTurn(rows, r, turns[n]) else r
  }

  lemma HandledInLoop(rows: Message -> seq<LogEvent>, d: Disk, log: Log, ms: seq<Message>, hi: seq<nat>, p: nat, o: nat)
    requires Window(log, ms, d.committed, hi) && p < |log|
    requires d.committed[p] <= o < ConsumeAll(rows, d, ms).committed[p]
    ensures o < |log[p]| && MessageAt(log, p, o) in ms
    ensures forall e :: e in rows(MessageAt(log, p, o)) ==> e in ConsumeAll(rows, d, ms).store
  {
    ConsumeWindow(rows, d, log, ms, hi);
    WindowCovers(log, ms, d.committed, hi, p, o);
    var i :| 0 <= i < |ms| && ms[i] == MessageAt(log, p, o);
    RowsOfSplit(rows, ms, i);
    RowsOfSplit(rows, ms[i..], 1);
    assert ms[i..][..1] == [ms[i]] && [ms[i]][..0] == [];
    assert RowsOf(rows, [ms[i]]) == rows(ms[i]);
  }

  /**
    Commit after handling, as a guarantee. The reader delivers every partition in order from the committed
    offset: the handled messages are a window, and the message of the turn that ends the loop is the next one
    of its partition. Then however the loop ends, also with a commit that fails after taking effect, everything
    below a committed offset has been handed to the store; a message whose handler failed is not among it.
   */
  lemma CommittedAreHandled(rows: Message -> seq<LogEvent>, d: Disk, log: Log, turns: seq<TopicTurn>, n: nat,
                            hi: seq<nat>, p: nat, o: nat)
    requires n <= |turns| && AllHandled(turns[..n]) && (n < |turns| ==> !turns[n].Handled?)
    requires Window(log, MessagesOf(turns[..n]), d.committed, hi) && p < |log|
    requires n < |turns| && Fetched(turns[n]).Some? ==>
               var m := Fetched(turns[n]).value;
               m.partition < |log| && hi[m.partition] < |log[m.partition]| && m == MessageAt(log, m.partition, hi[m.partition])
    requires d.committed[p] <= o < Final(rows, d, turns, n).committed[p]
    ensures o < |log[p]|
    ensures MessageAt(log, p, o) in MessagesOf(turns[..n])
            || (n < |turns| && turns[n].CommitFault? && turns[n].applied && MessageAt(log, p, o) == turns[n].m)
    ensures forall e :: e in rows(MessageAt(log, p, o)) ==> e in Final(rows, d, turns, n).store
  {
    var ms := MessagesOf(turns[..n]);
    if n < |turns| && turns[n].CommitFault? && turns[n].applied {
      var m := turns[n].m;
      WindowAppend(log, ms, d.committed, hi, m.partition);
      assert (ms + [m])[..|ms|] == ms;
      assert ConsumeAll(rows, d, ms + [m]) == Final(rows, d, turns, n);
      HandledInLoop(rows, d, log, ms + [m], hi[m.partition := hi[m.partition] + 1], p, o);
    } else {
      HandledInLoop(rows, d, log, ms, hi, p, o);
    }
  }
}
