/**
  How long an event can wait in the writer's buffer. The ticker is looked at only when a fetch times out
  (cmd/writer/consumer.go:71-78), so a steady trickle of messages can keep a due flush waiting. Time here is
  the time spent waiting in FetchMessage; nothing fails and nothing is cancelled.
 */
module BatchDelay {
  import opened Results
  import opened Text
  import opened Schema
  import opened WriterMachine

  /** 250 milliseconds, in nanoseconds. */
  const FETCH_TIMEOUT: nat := 250_000_000

  /**
    One turn of the loop: a message of partition p after some wait, or a timeout. A tick that falls due in
    the very instant the wait ends may or may not be seen in this turn: edge decides.
   */
  datatype Turn = Arrival(p: nat, wait: nat, edge: bool) | Timeout(edge: bool)

  datatype Timed = Timed(
    s: State,
    clock: nat,
    nextTick: nat,          // the first tick that has not fired
    arrivals: seq<nat>,     // when the buffered events were fetched
    delays: seq<nat>)       // how long the flushed ones waited

  function Wait(u: Turn): (r: nat) { if u.Arrival? then u.wait else FETCH_TIMEOUT }

  /** The ticker keeps its phase and its channel holds one tick, so later ticks are simply dropped. */
  function NextTick(interval: nat, next: nat, now: nat, edge: bool): (r: nat)
    requires interval > 0
    ensures next <= r && now <= r && (r != next ==> r <= now + interval)
    ensures r == next <==> !(next < now || (edge && next == now))
    decreases if now < next then 0 else now + 1 - next
  {
    if next < now || (edge && next == now) then NextTick(interval, next + interval, now, edge) else next
  }

  /**
    The ticker fires at multiples of its interval, however late it is looked at: the next tick keeps the phase, and
    it is the first one that has not fired.
   */
  lemma {:induction false} TickKeepsPhase(interval: nat, next: nat, now: nat, edge: bool) returns (k: nat)
    requires interval > 0
    ensures NextTick(interval, next, now, edge) == next + Multiple(k, interval)
    ensures forall j: nat :: j < k ==> Over(next + Multiple(j, interval), now, edge)
    ensures !Over(NextTick(interval, next, now, edge), now, edge)
    decreases if now < next then 0 else now + 1 - next
  {
    k := 0;
    if Over(next, now, edge) {
      var later := TickKeepsPhase(interval, next + interval, now, edge);
      k := later + 1;
      forall j: nat | j < k ensures Over(next + Multiple(j, interval), now, edge) {
        if j > 0 { assert Over(next + interval + Multiple(j - 1, interval), now, edge); }
      }
    }
  }

  /** The tick has been seen by now. */
  predicate Over(tick: nat, now: nat, edge: bool) { tick < now || (edge && tick == now) }

  function Multiple(k: nat, interval: nat): (r: nat) {
    if k == 0 then 0 else interval + Multiple(k - 1, interval)
  }

  function TickRun(fired: bool): (r: seq<Action>) { if fired then [Tick] else [] }

  const FLUSH := [WriteOk, CommitOk]

  /** The steps of the writer that make up a turn. */
  function TurnRun(c: Config, s: State, u: Turn, fired: bool): (r: seq<Action>) {
    match u
    case Arrival(p, _, _) =>
      TickRun(fired) + [FetchMessage(p)] + if |s.events| + 1 >= c.batchSize then FLUSH else []
    case Timeout(_) =>
      TickRun(fired) + [FetchTimeout] + (if (s.tick || fired) && s.events != [] then FLUSH else []) + [LookAtContext]
  }

  predicate Flushes(c: Config, s: State, u: Turn, fired: bool) {
    if u.Arrival? then |s.events| + 1 >= c.batchSize else (s.tick || fired) && s.events != []
  }

  /** The loop is waiting for a message, nothing is cancelled, and the next message decodes. */
  predicate TurnEnabled(t: Timed, u: Turn) {
    && t.s.pc.Head? && !t.s.cancelled
    && (u.Arrival? ==> u.wait <= FETCH_TIMEOUT && Enabled(t.s, FetchMessage(u.p))
                       && UnmarshalEvent(t.s.log[u.p][t.s.position[u.p]]).Ok?)
  }

  /** What a turn leaves behind, as far as waiting is concerned. */
  predicate Outcome(c: Config, s: State, u: Turn, fired: bool, s': State) {
    && s'.pc.Head? && !s'.cancelled && s'.log == s.log
    && s'.position == (if u.Arrival? && u.p < |s.position| then s.position[u.p := s.position[u.p] + 1] else s.position)
    && |s'.events| == (if Flushes(c, s, u, fired) then 0 else if u.Arrival? then |s.events| + 1 else |s.events|)
    && (s'.tick <==> u.Arrival? && (s.tick || fired))
    && (Flushes(c, s, u, fired) ==> s'.store == s.store + Batch(s, u))
    && (!Flushes(c, s, u, fired) ==> s'.store == s.store && s.events <= s'.events)
  }

  /** The batch a flushing turn writes: the buffer, with the message that has just arrived. */
  function Batch(s: State, u: Turn): (r: seq<LogEvent>) {
    if u.Arrival? && Enabled(s, FetchMessage(u.p)) && UnmarshalEvent(s.log[u.p][s.position[u.p]]).Ok?
    then s.events + [UnmarshalEvent(s.log[u.p][s.position[u.p]]).value]
    else s.events
  }

  lemma Single(c: Config, s: State, a: Action)
    requires Enabled(s, a)
    ensures Valid(c, s, [a]) && Exec(c, s, [a]) == Step(c, s, a)
  {
    assert [a][1..] == [];
  }

  lemma TickPart(c: Config, s: State, fired: bool)
    ensures Valid(c, s, TickRun(fired)) && Exec(c, s, TickRun(fired)) == s.(tick := s.tick || fired)
  {
    Single(c, s, Tick);
  }

  lemma FlushPart(c: Config, s: State)
    requires s.pc.Writing? && !s.pc.refused
    ensures Valid(c, s, FLUSH)
    ensures var s' := Exec(c, s, FLUSH);
            && s'.store == s.store + s.events && s'.events == [] && s'.tick == s.tick && s'.cancelled == s.cancelled
            && s'.log == s.log && s'.position == s.position
            && s'.pc == FinishFlush(s, s.pc.caller).pc
  {
    var s1 := Step(c, s, WriteOk);
    Single(c, s, WriteOk);
    Single(c, s1, CommitOk);
    ExecAppend(c, s, [WriteOk], [CommitOk]);
    assert FLUSH == [WriteOk] + [CommitOk];
  }

  /** The tick, if there is one, and the fetch. */
  lemma ArrivalPart(c: Config, t: Timed, u: Turn, fired: bool) returns (s2: State)
    requires TurnEnabled(t, u) && u.Arrival? && |t.s.events| < c.batchSize
    ensures var head := TickRun(fired) + [FetchMessage(u.p)]; Valid(c, t.s, head) && Exec(c, t.s, head) == s2
    ensures s2.events == Batch(t.s, u) && s2.store == t.s.store && s2.log == t.s.log
    ensures s2.tick == (t.s.tick || fired) && !s2.cancelled
    ensures s2.position == t.s.position[u.p := t.s.position[u.p] + 1]
    ensures s2.pc == if |t.s.events| + 1 >= c.batchSize then Writing(1, BatchFull, false) else Head
  {
    var s1 := t.s.(tick := t.s.tick || fired);
    TickPart(c, t.s, fired);
    Single(c, s1, FetchMessage(u.p));
    ExecAppend(c, t.s, TickRun(fired), [FetchMessage(u.p)]);
    assert Batch(s1, u) == Batch(t.s, u);
    s2 := Step(c, s1, FetchMessage(u.p));
  }

  lemma FillingArrival(c: Config, t: Timed, u: Turn, fired: bool)
    requires TurnEnabled(t, u) && u.Arrival? && |t.s.events| < c.batchSize == |t.s.events| + 1
    ensures Valid(c, t.s, TurnRun(c, t.s, u, fired))
    ensures Outcome(c, t.s, u, fired, Exec(c, t.s, TurnRun(c, t.s, u, fired)))
  {
    var head := TickRun(fired) + [FetchMessage(u.p)];
    var s2 := ArrivalPart(c, t, u, fired);
    FlushPart(c, s2);
    ExecAppend(c, t.s, head, FLUSH);
    assert TurnRun(c, t.s, u, fired) == head + FLUSH;
    FilledOutcome(c, t, u, fired, Exec(c, s2, FLUSH));
  }

  lemma FilledOutcome(c: Config, t: Timed, u: Turn, fired: bool, s': State)
    requires TurnEnabled(t, u) && u.Arrival? && |t.s.events| < c.batchSize == |t.s.events| + 1
    requires s'.pc.Head? && !s'.cancelled && s'.log == t.s.log && s'.events == [] && s'.store == t.s.store + Batch(t.s, u)
    requires s'.position == t.s.position[u.p := t.s.position[u.p] + 1] && s'.tick == (t.s.tick || fired)
    ensures Outcome(c, t.s, u, fired, s')
  {
  }

  lemma OtherArrival(c: Config, t: Timed, u: Turn, fired: bool)
    requires TurnEnabled(t, u) && u.Arrival? && |t.s.events| + 1 < c.batchSize
    ensures Valid(c, t.s, TurnRun(c, t.s, u, fired))
    ensures Outcome(c, t.s, u, fired, Exec(c, t.s, TurnRun(c, t.s, u, fired)))
  {
    var s2 := ArrivalPart(c, t, u, fired);
    assert TurnRun(c, t.s, u, fired) == TickRun(fired) + [FetchMessage(u.p)];
  }

  /** A turn is a run of the writer, and this is its outcome. */
  lemma ArrivalTurn(c: Config, t: Timed, u: Turn, fired: bool)
    requires TurnEnabled(t, u) && u.Arrival? && |t.s.events| < c.batchSize
    ensures Valid(c, t.s, TurnRun(c, t.s, u, fired))
    ensures Outcome(c, t.s, u, fired, Exec(c, t.s, TurnRun(c, t.s, u, fired)))
  {
    if |t.s.events| + 1 < c.batchSize { OtherArrival(c, t, u, fired); } else { FillingArrival(c, t, u, fired); }
  }

  lemma TimeoutTurn(c: Config, t: Timed, u: Turn, fired: bool)
    requires TurnEnabled(t, u) && u.Timeout? && |t.s.events| < c.batchSize
    ensures Valid(c, t.s, TurnRun(c, t.s, u, fired))
    ensures Outcome(c, t.s, u, fired, Exec(c, t.s, TurnRun(c, t.s, u, fired)))
  {
    var s := t.s;
    TickPart(c, s, fired);
    var s1 := s.(tick := s.tick || fired);
    Single(c, s1, FetchTimeout);
    ExecAppend(c, s, TickRun(fired), [FetchTimeout]);
    var s2 := Step(c, s1, FetchTimeout);
    var head := TickRun(fired) + [FetchTimeout];
    var flush := if (s.tick || fired) && s.events != [] then FLUSH else [];
    if flush == FLUSH {
      FlushPart(c, s2);
      ExecAppend(c, s, head, FLUSH);
    } else {
      assert head + [] == head;
    }
    var s3 := Exec(c, s, head + flush);
    assert s3.pc.CheckContext?;
    Single(c, s3, LookAtContext);
    ExecAppend(c, s, head + flush, [LookAtContext]);
  }

  lemma TurnIsARun(c: Config, t: Timed, u: Turn, fired: bool)
    requires TurnEnabled(t, u) && |t.s.events| < c.batchSize
    ensures Valid(c, t.s, TurnRun(c, t.s, u, fired))
    ensures Outcome(c, t.s, u, fired, Exec(c, t.s, TurnRun(c, t.s, u, fired)))
  {
    if u.Arrival? { ArrivalTurn(c, t, u, fired); } else { TimeoutTurn(c, t, u, fired); }
  }

  function Ages(now: nat, arrivals: seq<nat>): (r: seq<nat>)
    requires forall i :: 0 <= i < |arrivals| ==> arrivals[i] <= now
    ensures |r| == |arrivals| && forall i :: 0 <= i < |r| ==> r[i] == now - arrivals[i]
  {
    seq(|arrivals|, i requires 0 <= i < |arrivals| => now - arrivals[i])
  }

  predicate Past(t: Timed) { forall i :: 0 <= i < |t.arrivals| ==> t.arrivals[i] <= t.clock }

  function AfterTurn(c: Config, t: Timed, u: Turn): (r: Timed)
    requires TurnEnabled(t, u) && Past(t) && |t.s.events| < c.batchSize
  {
    var now := t.clock + Wait(u);
    var next := NextTick(c.flushInterval, t.nextTick, now, u.edge);
    var fired := next != t.nextTick;
    TurnIsARun(c, t, u, fired);
    var s' := Exec(c, t.s, TurnRun(c, t.s, u, fired));
    var arrivals := t.arrivals + if u.Arrival? then [now] else [];
    if Flushes(c, t.s, u, fired)
    then Timed(s', now, next, [], t.delays + Ages(now, arrivals))
    else Timed(s', now, next, arrivals, t.delays)
  }

  predicate ValidTurns(c: Config, t: Timed, turns: seq<Turn>)
    decreases |turns|
  {
    turns == [] || (TurnEnabled(t, turns[0]) && Past(t) && |t.s.events| < c.batchSize
                    && ValidTurns(c, AfterTurn(c, t, turns[0]), turns[1..]))
  }

  function Turns(c: Config, t: Timed, turns: seq<Turn>): (r: Timed)
    requires ValidTurns(c, t, turns)
    decreases |turns|
  {
    if turns == [] then t else Turns(c, AfterTurn(c, t, turns[0]), turns[1..])
  }

  /** A process that has just started on the given state, with a fresh ticker. */
  function Fresh(c: Config, s: State): (t: Timed)
    requires Enabled(s, Restart)
  {
    Timed(Step(c, s, Restart), 0, c.flushInterval, [], [])
  }

  // ---------- the bound ----------

  /** What the settings promise at most: one interval and a fetch timeout for every other event of the batch. */
  function Bound(c: Config): (r: nat) { c.flushInterval + Times(c.batchSize - 1) }

  /** k fetch timeouts. */
  function Times(k: int): (r: int)
    ensures k >= 0 ==> r >= 0
  {
    k * FETCH_TIMEOUT
  }

  /** How many whole fetch timeouts fit into the flush interval. */
  function Whole(c: Config): (r: nat)
    ensures Times(r) <= c.flushInterval < Times(r + 1)
  {
    c.flushInterval / FETCH_TIMEOUT
  }

  /** The longest an event can wait: nothing at all when every event is a batch of its own. */
  function Longest(c: Config): (r: nat) {
    if c.batchSize == 1 then 0 else Times(Whole(c) + c.batchSize - 1)
  }

  lemma LongestWithinBound(c: Config)
    ensures Longest(c) <= Bound(c)
    ensures Longest(c) <= c.flushInterval <==> c.batchSize == 1
    ensures Longest(c) == Bound(c) <==> c.batchSize >= 2 && c.flushInterval % 250_000_000 == 0
    ensures Bound(c) == c.flushInterval + (c.batchSize - 1) * 250_000_000
    ensures Longest(c) == if c.batchSize == 1 then 0 else (c.flushInterval / 250_000_000 + c.batchSize - 1) * 250_000_000
  {
  }

  /** No flushed event waited longer than d, and no buffered one has. */
  ghost predicate Within(d: nat, t: Timed) {
    && (forall i :: 0 <= i < |t.delays| ==> t.delays[i] <= d)
    && (forall i :: 0 <= i < |t.arrivals| ==> t.clock - t.arrivals[i] <= d)
  }

  /** The age of the oldest buffered event. */
  function Age(t: Timed): (r: int) { if t.arrivals == [] then 0 else t.clock - t.arrivals[0] }

  /**
    Why the bound holds. Until the first tick after the oldest buffered event, which comes within one interval,
    a buffer of one sees nothing but whole timeouts; and after the tick the next timeout flushes, so that each
    further turn takes the buffer one closer to full.
   */
  ghost predicate TimedInv(c: Config, t: Timed) {
    && t.s.pc.Head? && !t.s.cancelled
    && |t.arrivals| == |t.s.events| < c.batchSize
    && Past(t)
    && (forall i :: 0 <= i < |t.arrivals| ==> t.arrivals[0] <= t.arrivals[i])
    && t.clock <= t.nextTick <= t.clock + c.flushInterval
    && (t.arrivals != [] && !t.s.tick ==> t.nextTick <= t.arrivals[0] + c.flushInterval)
    && (t.arrivals != [] ==> Age(t) <= Times(Whole(c) + |t.arrivals| - 1))
    && (|t.arrivals| == 1 && !t.s.tick ==> Age(t) % FETCH_TIMEOUT == 0)
  }

  lemma BufferIsYoung(c: Config, t: Timed)
    requires TimedInv(c, t)
    ensures forall i :: 0 <= i < |t.arrivals| ==> t.clock - t.arrivals[i] <= Longest(c)
  {
    if t.arrivals != [] {  }
  }

  /** A turn that flushes starts over with an empty buffer. */
  lemma FlushingTurn(c: Config, t: Timed, u: Turn)
    requires TimedInv(c, t) && TurnEnabled(t, u) && AfterTurn(c, t, u).arrivals == []
    ensures TimedInv(c, AfterTurn(c, t, u))
  {
    var next := NextTick(c.flushInterval, t.nextTick, t.clock + Wait(u), u.edge);
    TurnIsARun(c, t, u, next != t.nextTick);
  }

  lemma AgeAfterArrival(c: Config, t: Timed, wait: nat)
    requires wait <= FETCH_TIMEOUT && (t.arrivals != [] ==> Age(t) <= Times(Whole(c) + |t.arrivals| - 1))
    ensures t.arrivals != [] ==> Age(t) + wait <= Times(Whole(c) + |t.arrivals|)
    ensures 0 <= Times(Whole(c))
  {
  }

  /** An arrival that does not fill the batch, on the clock. */
  lemma ArrivalTimes(c: Config, t: Timed, u: Turn)
    requires TurnEnabled(t, u) && Past(t) && u.Arrival? && |t.s.events| + 1 < c.batchSize
    ensures var t', next := AfterTurn(c, t, u), NextTick(c.flushInterval, t.nextTick, t.clock + u.wait, u.edge);
            && Valid(c, t.s, TurnRun(c, t.s, u, next != t.nextTick))
            && t' == Timed(Exec(c, t.s, TurnRun(c, t.s, u, next != t.nextTick)), t.clock + u.wait, next,
                           t.arrivals + [t.clock + u.wait], t.delays)
  {
    ArrivalTurn(c, t, u, NextTick(c.flushInterval, t.nextTick, t.clock + u.wait, u.edge) != t.nextTick);
  }

  /** And in the state of the writer. */
  lemma ArrivalShape(c: Config, t: Timed, u: Turn)
    requires TurnEnabled(t, u) && Past(t) && u.Arrival? && |t.s.events| + 1 < c.batchSize
    ensures var t', next := AfterTurn(c, t, u), NextTick(c.flushInterval, t.nextTick, t.clock + u.wait, u.edge);
            && t'.clock == t.clock + u.wait && t'.nextTick == next && t'.arrivals == t.arrivals + [t'.clock]
            && t'.s.pc.Head? && !t'.s.cancelled && |t'.s.events| == |t.s.events| + 1
            && t'.s.tick == (t.s.tick || next != t.nextTick) && t'.delays == t.delays
            && t'.s.log == t.s.log && t'.s.position == t.s.position[u.p := t.s.position[u.p] + 1]
  {
    var fired := NextTick(c.flushInterval, t.nextTick, t.clock + u.wait, u.edge) != t.nextTick;
    ArrivalTimes(c, t, u);
    OtherArrival(c, t, u, fired);
  }

  lemma BufferingArrival(c: Config, t: Timed, u: Turn)
    requires TimedInv(c, t) && TurnEnabled(t, u) && u.Arrival? && AfterTurn(c, t, u).arrivals != []
    ensures TimedInv(c, AfterTurn(c, t, u))
  {
    assert |t.s.events| + 1 < c.batchSize;
    ArrivalShape(c, t, u);
    AgeAfterArrival(c, t, u.wait);
    var t' := AfterTurn(c, t, u);
    assert forall i :: 0 <= i < |t'.arrivals| ==> t'.arrivals[0] <= t'.arrivals[i] <= t'.clock;
  }

  lemma QuietTurn(c: Config, t: Timed, u: Turn)
    requires TimedInv(c, t) && TurnEnabled(t, u) && u.Timeout? && AfterTurn(c, t, u).arrivals != []
    ensures TimedInv(c, AfterTurn(c, t, u))
  {
    var next := NextTick(c.flushInterval, t.nextTick, t.clock + FETCH_TIMEOUT, u.edge);
    TurnIsARun(c, t, u, next != t.nextTick);
    var t' := AfterTurn(c, t, u);
    assert t'.arrivals == t.arrivals && Age(t') == Age(t) + FETCH_TIMEOUT <= c.flushInterval;
    if |t.arrivals| == 1 {
    } else {
    }
  }

  lemma TurnKeepsInv(c: Config, t: Timed, u: Turn)
    requires TimedInv(c, t) && TurnEnabled(t, u)
    ensures TimedInv(c, AfterTurn(c, t, u))
  {
    if AfterTurn(c, t, u).arrivals == [] {
      FlushingTurn(c, t, u);
    } else if u.Arrival? {
      BufferingArrival(c, t, u);
    } else {
      QuietTurn(c, t, u);
    }
  }

  /** The buffer after one more turn is no older than the longest wait. */
  lemma OneMoreTurn(c: Config, t: Timed)
    requires TimedInv(c, t) && c.batchSize >= 2
    ensures forall i :: 0 <= i < |t.arrivals| ==> t.clock + FETCH_TIMEOUT - t.arrivals[i] <= Longest(c)
  {
    if t.arrivals != [] {
    }
  }

  /** The events a turn flushes have waited no longer than that. */
  lemma FlushedInTime(c: Config, t: Timed, u: Turn)
    requires TimedInv(c, t) && TurnEnabled(t, u) && (forall i :: 0 <= i < |t.delays| ==> t.delays[i] <= Longest(c))
    ensures var t' := AfterTurn(c, t, u); forall i :: 0 <= i < |t'.delays| ==> t'.delays[i] <= Longest(c)
  {
    if c.batchSize >= 2 { OneMoreTurn(c, t); }
  }

  lemma {:induction false} DelayBoundFrom(c: Config, t: Timed, turns: seq<Turn>)
    requires TimedInv(c, t) && Within(Longest(c), t) && ValidTurns(c, t, turns)
    ensures Within(Longest(c), Turns(c, t, turns))
    decreases |turns|
  {
    if turns != [] {
      TurnKeepsInv(c, t, turns[0]);
      FlushedInTime(c, t, turns[0]);
      BufferIsYoung(c, AfterTurn(c, t, turns[0]));
      DelayBoundFrom(c, AfterTurn(c, t, turns[0]), turns[1..]);
    }
  }

  /**
    The batching delay. For every pattern of arrivals and ticks, from every state a process can start on, no
    event waits longer than Longest, and so none longer than the flush interval plus (batch size - 1) times the
    fetch timeout.
   */
  lemma DelayBound(c: Config, s: State, turns: seq<Turn>)
    requires Enabled(s, Restart) && ValidTurns(c, Fresh(c, s), turns)
    ensures Within(Longest(c), Turns(c, Fresh(c, s), turns))
    ensures Within(Bound(c), Turns(c, Fresh(c, s), turns))
  {
    DelayBoundFrom(c, Fresh(c, s), turns);
    LongestWithinBound(c);
  }

  // ---------- the bound is exact ----------

  lemma OneTurn(c: Config, t: Timed, u: Turn, rest: seq<Turn>) returns (turns: seq<Turn>)
    requires TurnEnabled(t, u) && Past(t) && |t.s.events| < c.batchSize && ValidTurns(c, AfterTurn(c, t, u), rest)
    ensures ValidTurns(c, t, turns) && Turns(c, t, turns) == Turns(c, AfterTurn(c, t, u), rest)
  {
    turns := [u] + rest;
    assert turns[1..] == rest;
  }

  /** A topic of one partition that holds n copies of the value. */
  function Copies(value: Payload, n: nat): (r: seq<seq<Payload>>) { [seq(n, _ => value)] }

  /** The first n of the messages are in the buffer and the oldest came at time 0; nothing has been flushed. */
  predicate Slow(c: Config, t: Timed, value: Payload, n: nat) {
    && c.batchSize >= 2 && UnmarshalEvent(value).Ok? && 1 <= n < c.batchSize
    && t.s.pc.Head? && !t.s.cancelled
    && t.s.log == Copies(value, c.batchSize - 1) && t.s.position == [n]
    && |t.s.events| == |t.arrivals| == n && t.arrivals[0] == 0 && Past(t) && t.delays == []
  }

  /** The first event came as the ticker was started, and no tick has been seen for k timeouts. */
  predicate Drifting(c: Config, t: Timed, value: Payload, k: nat) {
    Slow(c, t, value, 1) && t.clock == Times(k) <= c.flushInterval && t.nextTick == c.flushInterval && !t.s.tick
  }

  /** The interval is as good as over, and n events are in the buffer. */
  predicate Filling(c: Config, t: Timed, value: Payload, n: nat) {
    && Slow(c, t, value, n) && t.clock == Times(Whole(c) + n - 1)
    && (t.s.tick || (n == 1 && t.nextTick == c.flushInterval))
  }

  lemma FirstArrival(c: Config, value: Payload)
    requires c.batchSize >= 2 && UnmarshalEvent(value).Ok?
    ensures var t, u := Fresh(c, Init(Copies(value, c.batchSize - 1))), Arrival(0, 0, false);
            TurnEnabled(t, u) && Past(t) && |t.s.events| < c.batchSize && Drifting(c, AfterTurn(c, t, u), value, 0)
  {
    ArrivalAtStart(c, Fresh(c, Init(Copies(value, c.batchSize - 1))), value);
  }

  lemma ArrivalAtStart(c: Config, t: Timed, value: Payload)
    requires c.batchSize >= 2 && UnmarshalEvent(value).Ok? && t == Timed(t.s, 0, c.flushInterval, [], [])
    requires t.s.pc.Head? && !t.s.cancelled && !t.s.tick && t.s.events == [] && t.s.position == [0]
    requires t.s.log == Copies(value, c.batchSize - 1) && t.s.log[0][0] == value
    ensures var u := Arrival(0, 0, false); TurnEnabled(t, u) && Drifting(c, AfterTurn(c, t, u), value, 0)
  {
    ArrivalShape(c, t, Arrival(0, 0, false));
  }

  lemma UnseenTimeout(c: Config, t: Timed, value: Payload, k: nat)
    requires Drifting(c, t, value, k) && Times(k + 1) <= c.flushInterval
    ensures var u := Timeout(false); TurnEnabled(t, u) && Drifting(c, AfterTurn(c, t, u), value, k + 1)
  {
    TurnIsARun(c, t, Timeout(false), false);
  }

  lemma SlowArrival(c: Config, t: Timed, value: Payload, n: nat)
    requires Filling(c, t, value, n) && n + 1 < c.batchSize
    ensures var u := Arrival(0, FETCH_TIMEOUT, false); TurnEnabled(t, u) && Filling(c, AfterTurn(c, t, u), value, n + 1)
  {
    ArrivalShape(c, t, Arrival(0, FETCH_TIMEOUT, false));
  }

  lemma LateFlush(c: Config, t: Timed, value: Payload)
    requires Filling(c, t, value, c.batchSize - 1)
    ensures TurnEnabled(t, Timeout(false)) && Longest(c) in AfterTurn(c, t, Timeout(false)).delays
  {
    var next := NextTick(c.flushInterval, t.nextTick, t.clock + FETCH_TIMEOUT, false);
    TurnIsARun(c, t, Timeout(false), next != t.nextTick);
    assert Longest(c) == t.clock + FETCH_TIMEOUT;
    assert AfterTurn(c, t, Timeout(false)).delays[0] == Longest(c);
  }

  lemma {:induction false} FillSlowly(c: Config, t: Timed, value: Payload, n: nat) returns (turns: seq<Turn>)
    requires Filling(c, t, value, n)
    ensures ValidTurns(c, t, turns) && Longest(c) in Turns(c, t, turns).delays
    decreases c.batchSize - n
  {
    if n == c.batchSize - 1 {
      LateFlush(c, t, value);
      turns := OneTurn(c, t, Timeout(false), []);
    } else {
      SlowArrival(c, t, value, n);
      turns := FillSlowly(c, AfterTurn(c, t, Arrival(0, FETCH_TIMEOUT, false)), value, n + 1);
      turns := OneTurn(c, t, Arrival(0, FETCH_TIMEOUT, false), turns);
    }
  }

  lemma {:induction false} DriftThenFill(c: Config, t: Timed, value: Payload, k: nat) returns (turns: seq<Turn>)
    requires Drifting(c, t, value, k) && k <= Whole(c)
    ensures ValidTurns(c, t, turns) && Longest(c) in Turns(c, t, turns).delays
    decreases Whole(c) - k
  {
    if k == Whole(c) {
      turns := FillSlowly(c, t, value, 1);
    } else {
      UnseenTimeout(c, t, value, k);
      turns := DriftThenFill(c, AfterTurn(c, t, Timeout(false)), value, k + 1);
      turns := OneTurn(c, t, Timeout(false), turns);
    }
  }

  /**
    For every configuration the longest wait is attained: an event that comes as the ticker starts, timeouts
    that end just before the tick, then a message at the end of each fetch timeout until one is missing to a
    full batch.
   */
  lemma LongestIsReached(c: Config, value: Payload) returns (log: seq<seq<Payload>>, turns: seq<Turn>)
    requires UnmarshalEvent(value).Ok?
    ensures ValidTurns(c, Fresh(c, Init(log)), turns)
    ensures Longest(c) in Turns(c, Fresh(c, Init(log)), turns).delays
  {
    if c.batchSize == 1 {
      log := Copies(value, 1);
      turns := AtOnce(c, value);
    } else {
      log := Copies(value, c.batchSize - 1);
      var t, u := Fresh(c, Init(log)), Arrival(0, 0, false);
      FirstArrival(c, value);
      turns := DriftThenFill(c, AfterTurn(c, t, u), value, 0);
      turns := OneTurn(c, t, u, turns);
    }
  }

  lemma AtOnce(c: Config, value: Payload) returns (turns: seq<Turn>)
    requires c.batchSize == 1 && UnmarshalEvent(value).Ok?
    ensures ValidTurns(c, Fresh(c, Init(Copies(value, 1))), turns)
    ensures 0 in Turns(c, Fresh(c, Init(Copies(value, 1))), turns).delays
  {
    var t, u := Fresh(c, Init(Copies(value, 1))), Arrival(0, 0, false);
    TurnIsARun(c, t, u, false);
    assert AfterTurn(c, t, u).delays[0] == 0;
    turns := OneTurn(c, t, u, []);
  }

  /** Some pattern of arrivals makes an event wait for exactly d. */
  ghost predicate Reachable(c: Config, d: nat) {
    exists log, turns :: ValidTurns(c, Fresh(c, Init(log)), turns) && d in Turns(c, Fresh(c, Init(log)), turns).delays
  }

  /** Whatever the topic and the arrivals, no event waits longer than d. */
  ghost predicate Suffices(c: Config, d: nat) {
    forall log, turns :: ValidTurns(c, Fresh(c, Init(log)), turns) ==> Within(d, Turns(c, Fresh(c, Init(log)), turns))
  }

  lemma SomethingDecodes() returns (value: Payload)
    ensures UnmarshalEvent(value).Ok?
  {
    var e := LogEvent(0, 0, "", "m", "s", "", "", "", "", "", "", "", 0, 0, None);
    TrimSpaceProjects("m");
    TrimSpaceProjects("s");
    NormalizeProjects("");
    value := Document(e);
  }

  /** The smallest bound that holds for a configuration is Longest: a bound suffices exactly when it is no less. */
  lemma SufficesIffLongest(c: Config, d: nat)
    ensures Suffices(c, d) <==> Longest(c) <= d
    ensures Longest(c) == if c.batchSize == 1 then 0 else (c.flushInterval / 250_000_000 + c.batchSize - 1) * 250_000_000
    ensures Reachable(c, Longest(c))
  {
    LongestWithinBound(c);
    var value := SomethingDecodes();
    var log, turns := LongestIsReached(c, value);
    if Longest(c) <= d {
      forall log, turns | ValidTurns(c, Fresh(c, Init(log)), turns)
        ensures Within(d, Turns(c, Fresh(c, Init(log)), turns))
      {
        DelayBound(c, Init(log), turns);
      }
    }
  }

  /** The flush interval alone bounds the delay exactly when every event is a batch of its own. */
  lemma IntervalSufficesIff(c: Config)
    ensures Suffices(c, c.flushInterval) <==> c.batchSize == 1
  {
    SufficesIffLongest(c, c.flushInterval);
    LongestWithinBound(c);
  }

  /**
    The interval plus (batch size - 1) fetch timeouts is attained exactly for batches of two or more and an
    interval of whole fetch timeouts, as with the defaults of 50 and one second.
   */
  lemma BoundIsReachedIff(c: Config)
    ensures Reachable(c, Bound(c)) <==> c.batchSize >= 2 && c.flushInterval % 250_000_000 == 0
    ensures Bound(c) == c.flushInterval + (c.batchSize - 1) * 250_000_000
  {
    SufficesIffLongest(c, Bound(c));
    LongestWithinBound(c);
    if Reachable(c, Bound(c)) {
      var log, turns :| ValidTurns(c, Fresh(c, Init(log)), turns)
                        && Bound(c) in Turns(c, Fresh(c, Init(log)), turns).delays;
      DelayBound(c, Init(log), turns);
    }
  }
}
