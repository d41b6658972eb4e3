/** What every run of SpscQueue keeps: the counter chain, race freedom, the bounded
    FIFO, and the verdicts of the uncached ring. */
module SpscRuns {
  import opened Common
  import opened Words
  import opened SpscModel
  import opened SpscInvariant

  // --------------------------------------------------------- the chain and the slots

  /** HC <= H <= TC <= T <= HC + capacity in every state of every run that mixes single
      and bulk operations, however stale the loads of the peer's index. */
  lemma CounterChain<V>(capacity: nat, others: nat, blank: V, acts: seq<Action<V>>)
    requires capacity > 0
    ensures var s := Run(Init(capacity, others, blank), acts);
      && |s.m.head| > 0 && |s.m.tail| > 0
      && s.p.hc <= H(s.m) <= s.c.tc <= T(s.m) <= s.p.hc + capacity
  {
    InitInv(capacity, others, blank);
    RunInv(Init(capacity, others, blank), acts);
    RingKept(Init(capacity, others, blank), acts);
  }

  lemma StepKeepsRing<V>(s: State<V>, a: Action<V>)
    requires Shape(s)
    ensures Step(s, a).m.ring == s.m.ring
  {
  }

  lemma {:induction false} RingKept<V>(s: State<V>, acts: seq<Action<V>>)
    requires Shape(s)
    ensures Run(s, acts).m.ring == s.m.ring
    decreases |acts|
  {
    if acts != [] {
      RingKept(s, acts[..|acts| - 1]);
      StepKeepsRing(Run(s, acts[..|acts| - 1]), acts[|acts| - 1]);
    }
  }

  /** The slots of the producer's current batch and those of the consumer's current
      batch are disjoint, whatever either side has done so far. */
  lemma DisjointSlots<V>(s: State<V>, i: nat, j: nat)
    requires Inv(s) && Filling(s.p.pc) && Emptying(s.c.pc)
    requires i < s.p.count && j < s.c.count
    ensures (T(s.m) + i) % s.m.ring != (H(s.m) + j) % s.m.ring
  {
    Apart(H(s.m) + j, T(s.m) + i, s.m.ring);
  }

  lemma Apart(x: nat, y: nat, ring: nat)
    requires x < y < x + ring
    ensures y % ring != x % ring
  {
    if x % ring == y % ring { CongruentGap(x, y, ring); }
  }

  /** No slot access races, and the i-th item read is the i-th item written. */
  lemma RaceFree<V>(capacity: nat, others: nat, blank: V, acts: seq<Action<V>>)
    requires capacity > 0
    ensures var m := Run(Init(capacity, others, blank), acts).m;
      && !m.raced
      && |m.takes| <= |m.puts|
      && forall x :: 0 <= x < |m.takes| ==> m.takes[x] == m.puts[x]
  {
    InitInv(capacity, others, blank);
    RunInv(Init(capacity, others, blank), acts);
  }

  // ------------------------------------------------------- a bounded FIFO, refined

  datatype Event<V> = Enqueue(items: seq<V>) | Dequeue(items: seq<V>)

  /** A FIFO of at most `cap` items; a dequeue names the items it returns. None when
      the event is impossible. */
  function Apply<V(==)>(cap: nat, q: seq<V>, e: Event<V>): Option<seq<V>> {
    match e
    case Enqueue(xs) => if |q| + |xs| <= cap then Some(q + xs) else None
    case Dequeue(xs) => if xs <= q then Some(q[|xs|..]) else None
  }

  function Replay<V(==)>(cap: nat, events: seq<Event<V>>): Option<seq<V>>
    decreases |events|
  {
    if events == [] then Some([])
    else match Replay(cap, events[..|events| - 1])
      case None => None
      case Some(q) => Apply(cap, q, events[|events| - 1])
  }

  /** Linearisation points: the two index publishes. An enqueue carries the first
      `count` items of the call's argument, a dequeue what the call returns. */
  function EventOf<V>(s: State<V>, a: Action<V>): seq<Event<V>> {
    if a.cmd.Go? && a.actor.P? && s.p.pc.PPublish?
    then [Enqueue(s.p.items[..Min(s.p.count, |s.p.items|)])]
    else if a.cmd.Go? && a.actor.C? && s.c.pc.CPublish? then [Dequeue(s.c.out)]
    else []
  }

  function Trace<V>(s: State<V>, acts: seq<Action<V>>): seq<Event<V>>
    requires Shape(s)
    decreases |acts|
  {
    if acts == [] then []
    else Trace(s, acts[..|acts| - 1]) + EventOf(Run(s, acts[..|acts| - 1]), acts[|acts| - 1])
  }

  predicate Bounded<V>(m: Mem<V>) {
    |m.head| > 0 && |m.tail| > 0 && H(m) <= T(m) <= |m.puts| && T(m) < H(m) + m.ring
  }

  lemma InvBounded<V>(s: State<V>)
    requires Inv(s)
    ensures Bounded(s.m)
  {
  }

  /** The queue's items: published by the producer, not yet taken. */
  function Contents<V>(m: Mem<V>): (q: seq<V>)
    requires Bounded(m)
    ensures |q| == T(m) - H(m)
  {
    seq(T(m) - H(m), i requires 0 <= i < T(m) - H(m) => m.puts[H(m) + i].item)
  }

  lemma QuietProducer<V>(s: State<V>, pick: nat)
    requires Shape(s) && !s.p.pc.PPublish?
    ensures var m := ProducerGo(s, pick).m;
      m.head == s.m.head && m.tail == s.m.tail && s.m.puts <= m.puts
  {
  }

  lemma QuietConsumer<V>(s: State<V>, pick: nat)
    requires Shape(s) && !s.c.pc.CPublish?
    ensures var m := ConsumerGo(s, pick).m;
      m.head == s.m.head && m.tail == s.m.tail && m.puts == s.m.puts
  {
  }

  lemma QuietStep<V>(s: State<V>, a: Action<V>)
    requires Shape(s) && EventOf(s, a) == []
    ensures var m := Step(s, a).m;
      m.head == s.m.head && m.tail == s.m.tail && s.m.puts <= m.puts
  {
    StepIs(s, a);
    if a.cmd.Go? {
      if a.actor.P? { QuietProducer(s, a.cmd.pick); }
      if a.actor.C? { QuietConsumer(s, a.cmd.pick); }
    }
  }

  lemma PublishTailRefines<V>(s: State<V>)
    requires Shape(s) && ProdOk(s.m, s.p) && s.p.pc.PPublish? && s.p.hc <= H(s.m)
    requires Bounded(s.m) && Bounded(PublishTail(s).m)
    ensures Apply(s.m.ring - 1, Contents(s.m), Enqueue(s.p.items[..s.p.count]))
         == Some(Contents(PublishTail(s).m))
  {
    assert Contents(PublishTail(s).m) == Contents(s.m) + s.p.items[..s.p.count];
  }

  lemma PublishHeadRefines<V>(s: State<V>)
    requires Shape(s) && LogsOk(s.m) && ConsOk(s.m, s.c) && s.c.pc.CPublish? && s.c.tc <= T(s.m)
    requires Bounded(s.m) && Bounded(PublishHead(s).m)
    ensures Apply(s.m.ring - 1, Contents(s.m), Dequeue(s.c.out))
         == Some(Contents(PublishHead(s).m))
  {
    var q := Contents(s.m);
    forall i | 0 <= i < |s.c.out| ensures s.c.out[i] == q[i] {
      assert s.m.takes[H(s.m) + i] == s.m.puts[H(s.m) + i];
    }
    assert s.c.out <= q;
    assert Contents(PublishHead(s).m) == q[|s.c.out|..];
  }

  /** The queue goes from q to q' by at most one event. */
  predicate Refines<V(==)>(cap: nat, q: seq<V>, e: seq<Event<V>>, q': seq<V>) {
    if e == [] then q' == q else |e| == 1 && Apply(cap, q, e[0]) == Some(q')
  }

  lemma QuietRefines<V>(s: State<V>, a: Action<V>)
    requires Shape(s) && EventOf(s, a) == [] && Bounded(s.m) && Bounded(Step(s, a).m)
    ensures Contents(Step(s, a).m) == Contents(s.m)
  {
    QuietStep(s, a);
  }

  lemma EnqueueStep<V>(s: State<V>, a: Action<V>, s': State<V>)
    requires Shape(s) && s' == Step(s, a) && a.cmd.Go? && a.actor.P? && s.p.pc.PPublish?
    requires ProdOk(s.m, s.p) && s.p.hc <= H(s.m) && Bounded(s.m) && Bounded(s'.m)
    ensures Refines(s.m.ring - 1, Contents(s.m), EventOf(s, a), Contents(s'.m))
  {
    StepIs(s, a);
    PublishTailRefines(s);
  }

  lemma DequeueStep<V>(s: State<V>, a: Action<V>, s': State<V>)
    requires Shape(s) && s' == Step(s, a) && a.cmd.Go? && a.actor.C? && s.c.pc.CPublish?
    requires LogsOk(s.m) && ConsOk(s.m, s.c) && s.c.tc <= T(s.m) && Bounded(s.m) && Bounded(s'.m)
    ensures Refines(s.m.ring - 1, Contents(s.m), EventOf(s, a), Contents(s'.m))
  {
    StepIs(s, a);
    PublishHeadRefines(s);
  }

  /** Every step is a stutter or exactly the event at its linearisation point. */
  lemma StepRefines<V>(s: State<V>, a: Action<V>, s': State<V>)
    requires Inv(s) && s' == Step(s, a) && Bounded(s.m) && Bounded(s'.m)
    ensures Refines(s.m.ring - 1, Contents(s.m), EventOf(s, a), Contents(s'.m))
  {
    if EventOf(s, a) == [] {
      QuietRefines(s, a);
    } else if a.actor.P? {
      EnqueueStep(s, a, s');
    } else {
      DequeueStep(s, a, s');
    }
  }

  lemma Extend<V>(cap: nat, tr: seq<Event<V>>, e: seq<Event<V>>, q: seq<V>, q': seq<V>)
    requires Replay(cap, tr) == Some(q) && Refines(cap, q, e, q')
    ensures Replay(cap, tr + e) == Some(q')
  {
    if e == [] {
      assert tr + e == tr;
    } else {
      assert (tr + e)[..|tr + e| - 1] == tr;
    }
  }

  lemma StepBounded<V>(s: State<V>, a: Action<V>)
    requires Inv(s)
    ensures Bounded(Step(s, a).m)
  {
    StepInv(s, a);
    InvBounded(Step(s, a));
  }

  /** z is a bounded FIFO and a leads to one, by at most one event. */
  predicate SafeStep<V(==)>(cap: nat, z: State<V>, a: Action<V>, s: State<V>) {
    Bounded(z.m) && Bounded(s.m) && Refines(cap, Contents(z.m), EventOf(z, a), Contents(s.m))
  }

  /** Replaying tr gives exactly the items of s. */
  predicate Traced<V(==)>(cap: nat, tr: seq<Event<V>>, s: State<V>) {
    Bounded(s.m) && Replay(cap, tr) == Some(Contents(s.m))
  }

  lemma InvSafe<V>(z: State<V>, a: Action<V>)
    requires Inv(z)
    ensures SafeStep(z.m.ring - 1, z, a, Step(z, a))
  {
    InvBounded(z);
    StepBounded(z, a);
    StepRefines(z, a, Step(z, a));
  }

  lemma RunSafe<V>(s0: State<V>, prior: seq<Action<V>>, a: Action<V>)
    requires Inv(s0)
    ensures SafeStep(s0.m.ring - 1, Run(s0, prior), a, Step(Run(s0, prior), a))
  {
    RunInv(s0, prior);
    RingKept(s0, prior);
    InvSafe(Run(s0, prior), a);
  }

  lemma LastStep<V>(s0: State<V>, acts: seq<Action<V>>)
    requires Shape(s0) && acts != []
    ensures Run(s0, acts) == Step(Run(s0, acts[..|acts| - 1]), acts[|acts| - 1])
  {
  }

  lemma LastEvent<V>(s0: State<V>, acts: seq<Action<V>>, z: State<V>)
    requires Shape(s0) && acts != [] && z == Run(s0, acts[..|acts| - 1])
    ensures Trace(s0, acts) == Trace(s0, acts[..|acts| - 1]) + EventOf(z, acts[|acts| - 1])
  {
  }

  ghost predicate Initial<V(!new)>(s0: State<V>) {
    exists capacity: nat, others: nat, blank: V :: capacity > 0 && s0 == Init(capacity, others, blank)
  }

  lemma LastSafe<V(!new)>(s0: State<V>, acts: seq<Action<V>>, z: State<V>, s: State<V>)
    requires Initial(s0) && acts != [] && z == Run(s0, acts[..|acts| - 1]) && s == Run(s0, acts)
    ensures SafeStep(s0.m.ring - 1, z, acts[|acts| - 1], s)
  {
    var capacity: nat, others: nat, blank: V :| capacity > 0 && s0 == Init(capacity, others, blank);
    InitInv(capacity, others, blank);
    RunSafe(s0, acts[..|acts| - 1], acts[|acts| - 1]);
    LastStep(s0, acts);
  }

  lemma TracedStep<V>(cap: nat, tr: seq<Event<V>>, z: State<V>, a: Action<V>, s: State<V>)
    requires Traced(cap, tr, z) && SafeStep(cap, z, a, s)
    ensures Traced(cap, tr + EventOf(z, a), s)
  {
    Extend(cap, tr, EventOf(z, a), Contents(z.m), Contents(s.m));
  }

  lemma {:induction false} TraceRefines<V(!new)>(s0: State<V>, acts: seq<Action<V>>)
    requires Initial(s0) && Shape(s0) && Traced(s0.m.ring - 1, [], s0)
    ensures Traced(s0.m.ring - 1, Trace(s0, acts), Run(s0, acts))
    decreases |acts|
  {
    if acts != [] {
      var prior := acts[..|acts| - 1];
      var z, s, tr := Run(s0, prior), Run(s0, acts), Trace(s0, prior);
      TraceRefines(s0, prior);
      LastSafe(s0, acts, z, s);
      LastEvent(s0, acts, z);
      TracedStep(s0.m.ring - 1, tr, z, acts[|acts| - 1], s);
    }
  }

  lemma StartsEmpty<V(!new)>(capacity: nat, others: nat, blank: V)
    requires capacity > 0
    ensures var s0 := Init(capacity, others, blank);
      Initial(s0) && s0.m.ring == capacity + 1 && Traced(capacity, [], s0)
  {
    assert Contents(Init(capacity, others, blank).m) == [];
  }

  /** SpscQueue is a bounded FIFO: with the index publishes as linearisation points,
      every run of single and bulk operations is a legal run of the sequential queue,
      every call returning exactly what the sequential queue would. */
  lemma Linearizable<V(!new)>(capacity: nat, others: nat, blank: V, acts: seq<Action<V>>)
    requires capacity > 0
    ensures var s0 := Init(capacity, others, blank);
      Traced(capacity, Trace(s0, acts), Run(s0, acts)) && |Contents(Run(s0, acts).m)| <= capacity
  {
    var s0 := Init(capacity, others, blank);
    StartsEmpty(capacity, others, blank);
    RingKept(s0, acts);
    TraceRefines(s0, acts);
  }

  // ------------------------------------------------------- batches and single items

  /** The same transfer, one item per call. */
  function Singles<V>(e: Event<V>): seq<Event<V>> {
    seq(|e.items|, i requires 0 <= i < |e.items| =>
      if e.Enqueue? then Enqueue([e.items[i]]) else Dequeue([e.items[i]]))
  }

  function Expand<V>(events: seq<Event<V>>): seq<Event<V>>
    decreases |events|
  {
    if events == [] then [] else Expand(events[..|events| - 1]) + Singles(events[|events| - 1])
  }

  lemma {:induction false} ReplayFits<V>(cap: nat, tr: seq<Event<V>>)
    ensures Replay(cap, tr).Some? ==> |Replay(cap, tr).value| <= cap
    decreases |tr|
  {
    if tr != [] { ReplayFits(cap, tr[..|tr| - 1]); }
  }

  lemma ReplayLast<V>(cap: nat, tr: seq<Event<V>>, e: Event<V>)
    ensures Replay(cap, tr + [e]) ==
      if Replay(cap, tr).None? then None else Apply(cap, Replay(cap, tr).value, e)
  {
    assert (tr + [e])[..|tr|] == tr;
  }

  /** An event of n + 1 items is one of n items followed by one of the last item. */
  lemma ApplySplit<V>(cap: nat, q: seq<V>, e: Event<V>)
    requires e.items != [] && |q| <= cap
    ensures var n := |e.items| - 1; var first := Apply(cap, q, e.(items := e.items[..n]));
      Apply(cap, q, e) ==
        if first.None? then None else Apply(cap, first.value, e.(items := e.items[n..]))
  {
    var xs, n := e.items, |e.items| - 1;
    if e.Enqueue? {
      assert q + xs == q + xs[..n] + xs[n..];
    } else if xs[..n] <= q {
      assert xs[n..] <= q[n..] <==> xs <= q;
      if xs <= q { assert q[n..][1..] == q[n + 1..]; }
    }
  }

  lemma SinglesSplit<V>(tr: seq<Event<V>>, e: Event<V>)
    requires e.items != []
    ensures var n := |e.items| - 1;
      tr + Singles(e) == (tr + Singles(e.(items := e.items[..n]))) + [e.(items := e.items[n..])]
  {
    var n := |e.items| - 1;
    assert e.items[n..] == [e.items[n]];
    assert Singles(e) == Singles(e.(items := e.items[..n])) + [e.(items := e.items[n..])];
  }

  /** On the sequential FIFO a batch moves what its items move one by one. */
  lemma {:induction false} BatchIsSingles<V>(cap: nat, tr: seq<Event<V>>, e: Event<V>)
    ensures Replay(cap, tr + Singles(e)) == Replay(cap, tr + [e])
    decreases |e.items|
  {
    ReplayLast(cap, tr, e);
    ReplayFits(cap, tr);
    if e.items == [] {
      assert tr + Singles(e) == tr;
      if Replay(cap, tr).Some? {
        var q := Replay(cap, tr).value;
        assert q + e.items == q && q[0..] == q;
      }
    } else {
      var n := |e.items| - 1;
      var front, last := e.(items := e.items[..n]), e.(items := e.items[n..]);
      BatchIsSingles(cap, tr, front);
      ReplayLast(cap, tr, front);
      SinglesSplit(tr, e);
      ReplayLast(cap, tr + Singles(front), last);
      if Replay(cap, tr).Some? { ApplySplit(cap, Replay(cap, tr).value, e); }
    }
  }

  lemma LastApart<V>(a: seq<V>, b: seq<V>)
    requires b != []
    ensures a + b == (a + b[..|b| - 1]) + [b[|b| - 1]]
  {
  }

  lemma {:induction false} SameAfter<V>(cap: nat, tr: seq<Event<V>>, tr': seq<Event<V>>, tail: seq<Event<V>>)
    requires Replay(cap, tr) == Replay(cap, tr')
    ensures Replay(cap, tr + tail) == Replay(cap, tr' + tail)
    decreases |tail|
  {
    if tail == [] {
      assert tr + tail == tr && tr' + tail == tr';
    } else {
      var n := |tail| - 1;
      SameAfter(cap, tr, tr', tail[..n]);
      ReplayLast(cap, tr + tail[..n], tail[n]);
      ReplayLast(cap, tr' + tail[..n], tail[n]);
      LastApart(tr, tail);
      LastApart(tr', tail);
    }
  }

  lemma {:induction false} ExpandReplays<V>(cap: nat, tr: seq<Event<V>>)
    ensures Replay(cap, Expand(tr)) == Replay(cap, tr)
    decreases |tr|
  {
    if tr != [] {
      var n := |tr| - 1;
      ExpandReplays(cap, tr[..n]);
      SameAfter(cap, Expand(tr[..n]), tr[..n], Singles(tr[n]));
      BatchIsSingles(cap, tr[..n], tr[n]);
      assert tr == tr[..n] + [tr[n]];
    }
  }

  /** Bulk equals repeated single operations: in every run, the queue holds what a
      sequential FIFO holds after moving, one item per call, exactly the items that the
      run's single and bulk calls moved. */
  lemma BulkIsRepeatedSingle<V(!new)>(capacity: nat, others: nat, blank: V, acts: seq<Action<V>>)
    requires capacity > 0
    ensures var s0 := Init(capacity, others, blank);
      Traced(capacity, Expand(Trace(s0, acts)), Run(s0, acts))
  {
    Linearizable(capacity, others, blank, acts);
    ExpandReplays(capacity, Trace(Init(capacity, others, blank), acts));
  }

  // ------------------------------------------------------------------------ verdicts

  /** The uncached Lamport ring: the same decision on the peer's real index. */
  function RoomUncached<V>(m: Mem<V>, p: Producer<V>): nat
    requires m.ring > 0 && |m.head| > 0
  {
    Room(m.ring, p.(cache := Last(m.head).idx))
  }

  function DataUncached<V>(m: Mem<V>, c: Consumer<V>): nat
    requires m.ring > 0 && |m.tail| > 0
  {
    Data(m.ring, c.(cache := Last(m.tail).idx))
  }

  /** has_room agrees with the uncached ring: room seen through the cache is room, and
      a full verdict after a fresh load means the queue was full at that load. */
  lemma RoomVerdict<V>(s: State<V>)
    requires Inv(s) && Bounded(s.m) && s.p.pc.PRoom?
    ensures var fresh' := RefreshHead(s.m, s.p, |s.m.head| - 1);
      && (Room(s.m.ring, s.p) > 0 ==> RoomUncached(s.m, s.p) > 0)
      && Room(s.m.ring, fresh') == RoomUncached(s.m, s.p)
      && (Room(s.m.ring, fresh') == 0 <==> |Contents(s.m)| == s.m.ring - 1)
  {
    var m, p, fresh' := s.m, s.p, RefreshHead(s.m, s.p, |s.m.head| - 1);
    RefreshHeadOk(m, p, |m.head| - 1);
    RoomIs(m, p);
    RoomIs(m, fresh');
  }

  lemma DataVerdict<V>(s: State<V>)
    requires Inv(s) && Bounded(s.m) && s.c.pc.CData?
    ensures var fresh' := RefreshTail(s.m, s.c, |s.m.tail| - 1);
      && (Data(s.m.ring, s.c) > 0 ==> DataUncached(s.m, s.c) > 0)
      && Data(s.m.ring, fresh') == DataUncached(s.m, s.c)
      && (Data(s.m.ring, fresh') == 0 <==> |Contents(s.m)| == 0)
  {
    var m, c, fresh' := s.m, s.c, RefreshTail(s.m, s.c, |s.m.tail| - 1);
    RefreshTailOk(m, c, |m.tail| - 1);
    DataIs(m, c);
    DataIs(m, fresh');
  }
}
