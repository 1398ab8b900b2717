/**
  Go slices as the writer uses them: a length over a backing array, appended to in place while there is room
  and truncated with s[:0], which keeps the array. And the in-memory store (pkg/store/memory.go), which copies
  a batch row by row after validating all of it.
 */
module MemoryStore {
  import opened Results
  import opened Schema

  class Slice<T(0)> {
    var data: array<T>
    var len: nat

    ghost predicate Valid()
      reads this
    {
      len <= data.Length
    }

    ghost function Contents(): (s: seq<T>)
      reads this, data
      requires Valid()
    {
      data[..len]
    }

    constructor ()
      ensures Valid() && Contents() == [] && fresh(data)
    {
      data := new T[0];
      len := 0;
    }

    /** append(s, x): in place when the array has room, otherwise into a new array of twice the size. */
    method Append(x: T)
      requires Valid()
      modifies this, data
      ensures Valid() && Contents() == old(Contents()) + [x]
      ensures if old(len < data.Length) then data == old(data) else fresh(data)
    {
      if len == data.Length {
        Grow();
      }
      data[len] := x;
      len := len + 1;
    }

    method Grow()
      requires Valid()
      modifies this
      ensures Valid() && fresh(data) && len < data.Length && len == old(len) && Contents() == old(Contents())
    {
      var bigger := new T[2 * data.Length + 1];
      for i := 0 to len
        invariant len == old(len) && data == old(data) && bigger.Length == 2 * data.Length + 1
        invariant bigger[..i] == data[..i]
      {
        bigger[i] := data[i];
      }
      data := bigger;
    }

    /** s = s[:0]: the array stays, so the next append writes over its first element. */
    method Truncate()
      requires Valid()
      modifies this`len
      ensures Valid() && Contents() == [] && data == old(data)
    {
      len := 0;
    }
  }

  /** Two slices share nothing. */
  ghost predicate Apart<T(0)>(a: Slice<T>, b: Slice<T>)
    reads a, b
  {
    a != b && a.data != b.data
  }

  /** The events WriteBatch accepts. */
  predicate AllValid(events: seq<LogEvent>) {
    forall i :: 0 <= i < |events| ==> Validate(events[i]).None?
  }

  /** The validation error of the first event that has one. */
  ghost predicate FirstInvalid(events: seq<LogEvent>, error: Error) {
    exists i :: 0 <= i < |events| && Validate(events[i]) == Some(error) && AllValid(events[..i])
  }

  datatype StoreError = ContextDone | Invalid(error: Error) | StoreClosed

  class Memory {
    var closed: bool
    const rows: Slice<LogEvent>

    ghost predicate Valid()
      reads this, rows
    {
      rows.Valid()
    }

    ghost function All(): (s: seq<LogEvent>)
      reads this, rows, rows.data
      requires Valid()
    {
      rows.Contents()
    }

    constructor ()
      ensures Valid() && All() == [] && !closed && fresh(rows) && fresh(rows.data)
    {
      closed := false;
      rows := new Slice<LogEvent>();
    }

    /**
      WriteBatch: refuses a done context, then accepts an empty batch, then validates every event, then refuses
      a closed store; only then does it append, and it appends all of them.
     */
    method WriteBatch(done: bool, batch: Slice<LogEvent>) returns (err: Option<StoreError>)
      requires Valid() && batch.Valid() && Apart(rows, batch)
      modifies rows, rows.data
      ensures Valid() && Apart(rows, batch) && (rows.data == old(rows.data) || fresh(rows.data))
      ensures All() == if err.None? then old(All()) + batch.Contents() else old(All())
      ensures err.None? <==> !done && (batch.Contents() == [] || (AllValid(batch.Contents()) && !closed))
      ensures done ==> err == Some(ContextDone)
      ensures !done && !AllValid(batch.Contents()) ==>
                err.Some? && err.value.Invalid? && FirstInvalid(batch.Contents(), err.value.error)
      ensures !done && batch.Contents() != [] && AllValid(batch.Contents()) && closed ==> err == Some(StoreClosed)
    {
      if done {
        return Some(ContextDone);
      }
      if batch.len == 0 {
        return None;
      }
      err := ValidateBatch(batch);
      if err.Some? {
        return;
      }
      if closed {
        return Some(StoreClosed);
      }
      AppendAll(batch);
    }

    /** The validation loop: the first invalid event, if there is one. */
    method ValidateBatch(batch: Slice<LogEvent>) returns (err: Option<StoreError>)
      requires batch.Valid()
      ensures err.None? <==> AllValid(batch.Contents())
      ensures err.Some? ==> err.value.Invalid? && FirstInvalid(batch.Contents(), err.value.error)
    {
      for i := 0 to batch.len
        invariant AllValid(batch.Contents()[..i])
      {
        var e := Validate(batch.data[i]);
        if e.Some? {
          assert batch.Contents()[i] == batch.data[i];
          return Some(Invalid(e.value));
        }
      }
      assert batch.Contents()[..batch.len] == batch.Contents();
      return None;
    }

    /** append(m.events, events...): the rows are copies. */
    method AppendAll(batch: Slice<LogEvent>)
      requires Valid() && batch.Valid() && Apart(rows, batch)
      modifies rows, rows.data
      ensures Valid() && Apart(rows, batch) && (rows.data == old(rows.data) || fresh(rows.data))
      ensures All() == old(All()) + batch.Contents()
    {
      ghost var was, events := All(), batch.Contents();
      for i := 0 to batch.len
        invariant Valid() && Apart(rows, batch) && (rows.data == old(rows.data) || fresh(rows.data))
        invariant batch.Valid() && batch.Contents() == events
        invariant All() == was + events[..i]
      {
        rows.Append(batch.data[i]);
      }
      assert events[..batch.len] == events;
    }

    method Close()
      modifies this`closed
      ensures closed
    {
      closed := true;
    }
  }

  /**
    Reuse of the buffer (cmd/writer/consumer.go:45-46 and 61-62). A batch is written, the buffer is truncated
    in place, and the next events are appended over the very array the batch was in: the rows already stored
    keep their values, because the store copied them.
   */
  method WriteThenReuse(store: Memory, buffer: Slice<LogEvent>, next: seq<LogEvent>) returns (err: Option<StoreError>)
    requires store.Valid() && buffer.Valid() && Apart(store.rows, buffer)
    modifies store.rows, store.rows.data, buffer, buffer.data
    ensures store.Valid() && buffer.Valid() && Apart(store.rows, buffer)
    ensures buffer.data == old(buffer.data) || fresh(buffer.data)
    ensures store.rows.data == old(store.rows.data) || fresh(store.rows.data)
    ensures err.None? <==> old(buffer.Contents()) == [] || (AllValid(old(buffer.Contents())) && !store.closed)
    ensures err.None? ==> store.All() == old(store.All()) + old(buffer.Contents()) && buffer.Contents() == next
    ensures err.Some? ==> store.All() == old(store.All()) && buffer.Contents() == old(buffer.Contents())
    ensures |next| <= old(buffer.data.Length) ==> buffer.data == old(buffer.data)
  {
    err := store.WriteBatch(false, buffer);
    if err.Some? {
      return;
    }
    ghost var rows := store.All();
    ghost var array0 := buffer.data;
    buffer.Truncate();
    for i := 0 to |next|
      invariant store.Valid() && buffer.Valid() && Apart(store.rows, buffer)
      invariant buffer.data == array0 || fresh(buffer.data)
      invariant store.rows.data == old(store.rows.data) || fresh(store.rows.data)
      invariant store.All() == rows && buffer.Contents() == next[..i]
      invariant |next| <= array0.Length ==> buffer.data == array0
    {
      buffer.Append(next[i]);
      assert next[..i + 1] == next[..i] + [next[i]];
    }
    assert next[..|next|] == next;
  }

  function Concat(batches: seq<seq<LogEvent>>): (r: seq<LogEvent>) {
    if batches == [] then [] else Concat(batches[..|batches| - 1]) + batches[|batches| - 1]
  }

  lemma ConcatSnoc(was: seq<LogEvent>, batches: seq<seq<LogEvent>>, n: nat)
    requires n < |batches|
    ensures was + Concat(batches[..n]) + batches[n] == was + Concat(batches[..n + 1])
  {
    assert batches[..n + 1][..n] == batches[..n];
  }

  /** The batch written in round i, when the buffer begins with first and is refilled with the others. */
  function Rounds(first: seq<LogEvent>, others: seq<seq<LogEvent>>): (r: seq<seq<LogEvent>>) { [first] + others }

  /** Each entry holds the rows of the earlier ones as an unchanged prefix. */
  ghost predicate Growing(history: seq<seq<LogEvent>>) {
    forall i, j :: 0 <= i <= j < |history| ==> history[i] <= history[j]
  }

  /** The history of the store over n rounds. */
  ghost predicate Recorded(was: seq<LogEvent>, rows: seq<LogEvent>, history: seq<seq<LogEvent>>, n: nat) {
    |history| == n + 1 && history[0] == was && history[n] == rows && Growing(history)
  }

  predicate AllFit(batches: seq<seq<LogEvent>>, room: nat) {
    forall i :: 0 <= i < |batches| ==> |batches[i]| <= room
  }

  /**
    Any number of flushes over one buffer. After n of them the store holds what it held before and then the n
    batches, whole and in order: no round has changed a row of an earlier one, although as long as the batches
    fit they were all built in the same array. The rounds end early only at a batch the store refuses.
   */
  method FlushRounds(store: Memory, buffer: Slice<LogEvent>, others: seq<seq<LogEvent>>)
    returns (err: Option<StoreError>, n: nat, ghost history: seq<seq<LogEvent>>)
    requires store.Valid() && buffer.Valid() && Apart(store.rows, buffer)
    modifies store.rows, store.rows.data, buffer, buffer.data
    ensures store.Valid() && buffer.Valid() && Apart(store.rows, buffer)
    ensures n <= |others| && (err.None? <==> n == |others|)
    ensures var batches := Rounds(old(buffer.Contents()), others);
            && store.All() == old(store.All()) + Concat(batches[..n])
            && buffer.Contents() == batches[n]
            && (err.Some? ==> batches[n] != [] && (!AllValid(batches[n]) || store.closed))
    ensures Recorded(old(store.All()), store.All(), history, n)
    ensures AllFit(others, old(buffer.data.Length)) ==> buffer.data == old(buffer.data)
  {
    ghost var was, batches := store.All(), Rounds(buffer.Contents(), others);
    n, err, history := 0, None, [store.All()];
    while n < |others|
      invariant n <= |others| && err.None?
      invariant store.Valid() && buffer.Valid() && Apart(store.rows, buffer)
      invariant buffer.data == old(buffer.data) || fresh(buffer.data)
      invariant store.rows.data == old(store.rows.data) || fresh(store.rows.data)
      invariant store.All() == was + Concat(batches[..n]) && buffer.Contents() == batches[n]
      invariant Recorded(was, store.All(), history, n)
      invariant AllFit(others, old(buffer.data.Length)) ==> buffer.data == old(buffer.data)
    {
      ghost var rows := store.All();
      err := WriteThenReuse(store, buffer, others[n]);
      if err.Some? {
        return;
      }
      ConcatSnoc(was, batches, n);
      history := history + [rows + batches[n]];
      n := n + 1;
    }
  }
}
