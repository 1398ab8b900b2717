/**
  What goes on around one gateway request: the steps of other requests, of the writer and of other users of the
  broker, and what they look like from the two sides, as steps of the whole system and as calls of the broker.
 */
module Surroundings {
  import opened Results
  import opened PartitionedLog
  import MemoryBroker
  import opened MemoryBrokerProgram
  import W = WriterMachine
  import E = EndToEnd

  // ---------- runs of the system ----------

  /** The run leads from s to t. */
  ghost predicate Leads(c: W.Config, s: E.System, run: seq<E.Action>, t: E.System) {
    E.Valid(c, s, run) && E.Exec(c, s, run) == t
  }

  lemma Chained(c: W.Config, s: E.System, a: seq<E.Action>, t: E.System, b: seq<E.Action>, u: E.System)
    requires Leads(c, s, a, t) && Leads(c, t, b, u)
    ensures Leads(c, s, a + b, u)
  {
    E.ExecAppend(c, s, a, b);
  }

  lemma Taken(c: W.Config, s: E.System, a: seq<E.Action>, t: E.System, b: E.Action)
    requires Leads(c, s, a, t) && E.Enabled(t, b)
    ensures Leads(c, s, a + [b], E.Step(c, t, b))
  {
    E.OneStep(c, t, b);
    Chained(c, s, a, t, [b], E.Step(c, t, b));
  }

  // ---------- the steps of the others ----------

  /** A step of the system, or a call of the broker that has nothing to do with the topic. */
  datatype Elsewhere = InSystem(a: E.Action) | InBroker(call: MemoryBroker.Action)

  /** The system and whether the broker is closed, and the broker calls that have led there. */
  datatype View = View(sys: E.System, closed: bool, calls: seq<MemoryBroker.Action>)

  /** A step of the request with the given number. */
  predicate Mine(own: Option<nat>, a: E.Action) {
    (E.Sends(a) || a.PublishFail? || a.Answer?) && own == Some(a.r)
  }

  /** The step is possible and not one of request own; a closed broker takes no messages. */
  predicate Happens(own: Option<nat>, v: View, a: E.Action) {
    E.Enabled(v.sys, a) && !Mine(own, a) && (E.Sends(a) ==> !v.closed)
  }

  /** One step of the others; one that is not possible does not happen. A message is a Publish on the topic. */
  function Tick(c: W.Config, topic: string, own: Option<nat>, v: View, x: Elsewhere): (r: View) {
    match x
    case InSystem(a) =>
      if !Happens(own, v, a) then v
      else if E.Sends(a) then
        View(E.Step(c, v.sys, a), v.closed, v.calls + [MemoryBroker.Publish(topic, E.SentBy(v.sys, a))])
      else v.(sys := E.Step(c, v.sys, a))
    case InBroker(call) =>
      if call.Publish? && call.topic == topic then v
      else v.(closed := v.closed || call.Close?, calls := v.calls + [call])
  }

  function Elapse(c: W.Config, topic: string, own: Option<nat>, v: View, xs: seq<Elsewhere>): (r: View) {
    if xs == [] then v
    else Tick(c, topic, own, Elapse(c, topic, own, v, xs[..|xs| - 1]), xs[|xs| - 1])
  }

  /** What is left alone while others go on: the own request, and what the topic already holds. */
  ghost predicate Undisturbed(own: Option<nat>, s: E.System, t: E.System) {
    && |s.requests| <= |t.requests| && Extends(s.writer.log, t.writer.log)
    && (own.Some? && own.value < |s.requests| ==> t.requests[own.value] == s.requests[own.value])
  }

  lemma UndisturbedStill(own: Option<nat>, s: E.System, t: E.System, u: E.System)
    requires Undisturbed(own, s, t) && Undisturbed(own, t, u)
    ensures Undisturbed(own, s, u)
  {
    ExtendsFurther(s.writer.log, t.writer.log, u.writer.log);
  }

  lemma OthersDoNotDisturb(c: W.Config, own: Option<nat>, s: E.System, a: E.Action)
    requires E.Enabled(s, a) && !Mine(own, a)
    ensures Undisturbed(own, s, E.Step(c, s, a))
    ensures !E.Sends(a) ==> E.Step(c, s, a).writer.log == s.writer.log
    ensures E.Sends(a) ==> E.Step(c, s, a).writer.log == Append(s.writer.log, a.p, E.SentBy(s, a))
  {
    if a.Writer? { E.WriterKeepsLog(c, s.writer, a.a); }
  }

  /** On the only partition the log grows by just what the calls append. */
  ghost predicate SameTopic(topic: string, v: View, w: View) {
    && v.calls <= w.calls && |v.sys.writer.log| == |w.sys.writer.log| == 1
    && var since := w.calls[|v.calls|..];
       && w.closed == ClosedBy(v.closed, since)
       && w.sys.writer.log[0] == v.sys.writer.log[0] + ValuesOn(topic, v.closed, since)
  }

  lemma {:induction false} ValuesConcat(topic: string, closed: bool, a: seq<MemoryBroker.Action>, b: seq<MemoryBroker.Action>)
    ensures ClosedBy(closed, a + b) == ClosedBy(ClosedBy(closed, a), b)
    ensures ValuesOn(topic, closed, a + b) == ValuesOn(topic, closed, a) + ValuesOn(topic, ClosedBy(closed, a), b)
    decreases |a|
  {
    if a == [] {
      assert a + b == b;
    } else {
      assert (a + b)[0] == a[0] && (a + b)[1..] == a[1..] + b;
      ValuesConcat(topic, closed || a[0].Close?, a[1..], b);
    }
  }

  lemma ValuesOfOne(topic: string, closed: bool, a: MemoryBroker.Action)
    ensures ClosedBy(closed, [a]) == (closed || a.Close?)
    ensures ValuesOn(topic, closed, [a]) == if a.Publish? && a.topic == topic && !closed then [a.value] else []
  {
    assert [a][1..] == [];
  }

  lemma SameTopicStill(topic: string, u: View, v: View, w: View)
    requires SameTopic(topic, u, v) && SameTopic(topic, v, w)
    ensures SameTopic(topic, u, w)
  {
    var a, b := v.calls[|u.calls|..], w.calls[|v.calls|..];
    Split(u.calls, v.calls, w.calls);
    ValuesConcat(topic, u.closed, a, b);
    Regroup(u.sys.writer.log[0], ValuesOn(topic, u.closed, a), v.sys.writer.log[0], ValuesOn(topic, v.closed, b),
            w.sys.writer.log[0]);
  }

  lemma Regroup<T>(a: seq<T>, x: seq<T>, b: seq<T>, y: seq<T>, d: seq<T>)
    requires b == a + x && d == b + y
    ensures d == a + (x + y)
  {
  }

  lemma Split<T>(a: seq<T>, b: seq<T>, d: seq<T>)
    requires a <= b <= d
    ensures a <= d && d[|a|..] == b[|a|..] + d[|b|..]
  {
  }

  lemma TickKeepsTopic(c: W.Config, topic: string, own: Option<nat>, v: View, x: Elsewhere)
    requires |v.sys.writer.log| == 1
    ensures var w := Tick(c, topic, own, v, x); SameTopic(topic, v, w) && Undisturbed(own, v.sys, w.sys)
  {
    var w := Tick(c, topic, own, v, x);
    if x.InSystem? && Happens(own, v, x.a) { OthersDoNotDisturb(c, own, v.sys, x.a); }
    if w.calls == v.calls {
      assert w.calls[|v.calls|..] == [];
    } else {
      var a := w.calls[|v.calls|];
      assert w.calls[|v.calls|..] == [a];
      ValuesOfOne(topic, v.closed, a);
    }
  }

  /** However long it goes on: both sides stay the same, and the own request is left alone. */
  lemma {:induction false} ElapseKeepsTopic(c: W.Config, topic: string, own: Option<nat>, v: View, xs: seq<Elsewhere>)
    requires |v.sys.writer.log| == 1
    ensures var w := Elapse(c, topic, own, v, xs); SameTopic(topic, v, w) && Undisturbed(own, v.sys, w.sys)
    decreases |xs|
  {
    if xs == [] {
      assert v.calls[|v.calls|..] == [];
    } else {
      var u, x := Elapse(c, topic, own, v, xs[..|xs| - 1]), xs[|xs| - 1];
      ElapseKeepsTopic(c, topic, own, v, xs[..|xs| - 1]);
      TickKeepsTopic(c, topic, own, u, x);
      SameTopicStill(topic, v, u, Tick(c, topic, own, u, x));
      UndisturbedStill(own, v.sys, u.sys, Tick(c, topic, own, u, x).sys);
    }
  }

  /** And it is a run of the system. */
  lemma {:induction false} ElapseLeads(c: W.Config, topic: string, own: Option<nat>, v: View, xs: seq<Elsewhere>)
    returns (run: seq<E.Action>)
    ensures Leads(c, v.sys, run, Elapse(c, topic, own, v, xs).sys)
    decreases |xs|
  {
    run := [];
    if xs != [] {
      var u, x := Elapse(c, topic, own, v, xs[..|xs| - 1]), xs[|xs| - 1];
      run := ElapseLeads(c, topic, own, v, xs[..|xs| - 1]);
      if x.InSystem? && Happens(own, u, x.a) {
        Taken(c, v.sys, run, u.sys, x.a);
        run := run + [x.a];
      }
    }
  }

  lemma {:induction false} ElapseConcat(c: W.Config, topic: string, own: Option<nat>, v: View, a: seq<Elsewhere>, b: seq<Elsewhere>)
    ensures Elapse(c, topic, own, v, a + b) == Elapse(c, topic, own, Elapse(c, topic, own, v, a), b)
    decreases |b|
  {
    if b == [] {
      assert a + b == a;
    } else {
      assert (a + b)[..|a + b| - 1] == a + b[..|b| - 1];
      ElapseConcat(c, topic, own, v, a, b[..|b| - 1]);
    }
  }

  // ---------- views that differ in the own request only ----------

  /** The same but for the own request and the calls made before some point; since then both made the same. */
  ghost predicate Alike(own: nat, v: View, past: seq<MemoryBroker.Action>, v': View, past': seq<MemoryBroker.Action>,
                        since: seq<MemoryBroker.Action>) {
    && v.calls == past + since && v'.calls == past' + since
    && v.closed == v'.closed && own < |v.sys.requests| == |v'.sys.requests|
    && v'.sys == v.sys.(requests := v.sys.requests[own := v'.sys.requests[own]])
  }

  lemma StepAlike(c: W.Config, own: nat, s: E.System, s': E.System, a: E.Action)
    requires own < |s.requests| == |s'.requests| && s' == s.(requests := s.requests[own := s'.requests[own]])
    requires !Mine(Some(own), a)
    ensures E.Enabled(s, a) <==> E.Enabled(s', a)
    ensures E.Enabled(s, a) && E.Sends(a) ==> E.SentBy(s, a) == E.SentBy(s', a)
    ensures E.Enabled(s, a) ==>
              var t, t' := E.Step(c, s, a), E.Step(c, s', a);
              && own < |t.requests| == |t'.requests| && t'.requests[own] == s'.requests[own]
              && t' == t.(requests := t.requests[own := t'.requests[own]])
  {
    assert forall r :: 0 <= r < |s.requests| && r != own ==> s'.requests[r] == s.requests[r];
  }

  lemma TickAlike(c: W.Config, topic: string, own: nat, v: View, past: seq<MemoryBroker.Action>, v': View,
                  past': seq<MemoryBroker.Action>, since: seq<MemoryBroker.Action>, x: Elsewhere)
    returns (more: seq<MemoryBroker.Action>)
    requires Alike(own, v, past, v', past', since)
    ensures Alike(own, Tick(c, topic, Some(own), v, x), past, Tick(c, topic, Some(own), v', x), past', more)
  {
    if x.InSystem? && !Mine(Some(own), x.a) { StepAlike(c, own, v.sys, v'.sys, x.a); }
    var w := Tick(c, topic, Some(own), v, x);
    more := if w.calls == v.calls then since else since + [w.calls[|v.calls|]];
  }

  /** The others do the same, whatever has become of the own request. */
  lemma {:induction false} ElapseAlike(c: W.Config, topic: string, own: nat, v: View, past: seq<MemoryBroker.Action>, v': View,
                                       past': seq<MemoryBroker.Action>, xs: seq<Elsewhere>)
    returns (since: seq<MemoryBroker.Action>)
    requires Alike(own, v, past, v', past', [])
    ensures Alike(own, Elapse(c, topic, Some(own), v, xs), past, Elapse(c, topic, Some(own), v', xs), past', since)
    decreases |xs|
  {
    if xs == [] {
      since := [];
    } else {
      since := ElapseAlike(c, topic, own, v, past, v', past', xs[..|xs| - 1]);
      since := TickAlike(c, topic, own, Elapse(c, topic, Some(own), v, xs[..|xs| - 1]), past,
                         Elapse(c, topic, Some(own), v', xs[..|xs| - 1]), past', since, xs[|xs| - 1]);
    }
  }

  // ---------- stretches within one call of the broker ----------

  function Since<T>(a: seq<T>, b: seq<T>): (r: seq<T>) { if |a| <= |b| then b[|a|..] else [] }

  /** What is new in each of the first n steps of a growing sequence. */
  function Pieces<T>(f: nat -> seq<T>, n: nat): (r: seq<seq<T>>)
    ensures |r| == n && forall k :: 0 <= k < n ==> r[k] == Since(f(k), f(k + 1))
  {
    seq(n, k requires 0 <= k < n => Since(f(k), f(k + 1)))
  }

  /** It grows for n steps and then no more. */
  ghost predicate Growing<T>(f: nat -> seq<T>, n: nat) {
    forall k: nat :: f(k) <= f(k + 1) && (k >= n ==> f(k + 1) == f(k))
  }

  /** The pieces put together again. */
  lemma {:induction false} PiecesJoin<T>(f: nat -> seq<T>, len: nat, n: nat)
    requires Growing(f, len)
    ensures f(0) <= f(n) && Flat(Pieces(f, len), n) == f(n)[|f(0)|..]
    decreases n
  {
    if n > 0 {
      PiecesJoin(f, len, n - 1);
      assert f(n - 1) <= f(n - 1 + 1);
      assert Stretch(Pieces(f, len), n - 1) == f(n)[|f(n - 1)|..];
      Split(f(0), f(n - 1), f(n));
    }
  }

  /** The calls made when the first n stretches are over. */
  function CallsBy(c: W.Config, topic: string, own: Option<nat>, v: View, xs: seq<seq<Elsewhere>>)
    : (f: nat -> seq<MemoryBroker.Action>)
  {
    (n: nat) => Elapse(c, topic, own, v, Flat(xs, n)).calls
  }

  /** What the others call the broker for in each of the stretches. */
  function Script(c: W.Config, topic: string, own: Option<nat>, v: View, xs: seq<seq<Elsewhere>>): (r: seq<seq<MemoryBroker.Action>>) {
    Pieces(CallsBy(c, topic, own, v, xs), |xs|)
  }

  lemma {:induction false} CallsGrow(c: W.Config, topic: string, own: Option<nat>, v: View, xs: seq<Elsewhere>)
    ensures v.calls <= Elapse(c, topic, own, v, xs).calls
    decreases |xs|
  {
    if xs != [] { CallsGrow(c, topic, own, v, xs[..|xs| - 1]); }
  }

  lemma CallsByGrow(c: W.Config, topic: string, own: Option<nat>, v: View, xs: seq<seq<Elsewhere>>)
    ensures Growing(CallsBy(c, topic, own, v, xs), |xs|)
  {
    var f := CallsBy(c, topic, own, v, xs);
    forall k: nat ensures f(k) <= f(k + 1) && (k >= |xs| ==> f(k + 1) == f(k)) {
      StretchCalls(c, topic, own, v, xs, k);
    }
  }

  lemma StretchCalls(c: W.Config, topic: string, own: Option<nat>, v: View, xs: seq<seq<Elsewhere>>, k: nat)
    ensures Elapse(c, topic, own, v, Flat(xs, k)).calls <= Elapse(c, topic, own, v, Flat(xs, k + 1)).calls
    ensures k >= |xs| ==> Elapse(c, topic, own, v, Flat(xs, k + 1)).calls == Elapse(c, topic, own, v, Flat(xs, k)).calls
  {
    ElapseConcat(c, topic, own, v, Flat(xs, k), Stretch(xs, k));
    CallsGrow(c, topic, own, Elapse(c, topic, own, v, Flat(xs, k)), Stretch(xs, k));
  }

  /** Taken together, the stretches call for what elapses over all of them. */
  lemma ScriptIsElapse(c: W.Config, topic: string, own: Option<nat>, v: View, xs: seq<seq<Elsewhere>>, n: nat)
    ensures var w := Elapse(c, topic, own, v, Flat(xs, n));
            v.calls <= w.calls && Flat(Script(c, topic, own, v, xs), n) == w.calls[|v.calls|..]
  {
    CallsByGrow(c, topic, own, v, xs);
    PiecesJoin(CallsBy(c, topic, own, v, xs), |xs|, n);
    assert CallsBy(c, topic, own, v, xs)(0) == v.calls;
  }
}
