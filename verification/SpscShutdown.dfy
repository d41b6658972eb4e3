/** close() and draining of SpscQueue. */
module SpscShutdown {
  import opened Common
  import opened SpscModel
  import opened SpscInvariant

  predicate Closed<V>(m: Mem<V>) { |m.closed| > 1 }

  /** Not pushing, or about to be refused because it knows of a close. */
  predicate Done<V>(p: Producer<V>) {
    p.pc.PIdle? || (p.view.c > 0 && (p.pc.PCheck? || (p.pc.PLoad? && p.mode.Push?)))
  }

  /** The documented protocol: close only after every push, from a thread that has
      synchronised with them all; push afterwards only knowing of the close. */
  predicate Disciplined<V>(s: State<V>, a: Action<V>) {
    && (a.cmd.Close? && IdleActor(s, a.actor) ==> Done(s.p) && s.p.view.t <= ViewOf(s, a.actor).t)
    && (a.cmd.CallPush? && Closed(s.m) ==> s.p.view.c > 0)
  }

  predicate DisciplinedRun<V>(s: State<V>, acts: seq<Action<V>>)
    requires Shape(s)
    decreases |acts|
  {
    acts == [] ||
    (DisciplinedRun(s, acts[..|acts| - 1])
     && Disciplined(Run(s, acts[..|acts| - 1]), acts[|acts| - 1]))
  }

  ghost predicate MessagesCover<V>(m: Mem<V>)
    requires MemShape(m)
  {
    forall k :: 0 <= k < |m.closed| ==>
      (m.closed[k].val <==> k > 0) && (k > 0 ==> T(m) <= m.closed[k].view.t)
  }

  ghost predicate ShutInv<V>(s: State<V>)
    requires MemShape(s.m)
  {
    && (Closed(s.m) ==> Done(s.p))
    && MessagesCover(s.m)
    && (s.c.final ==> Closed(s.m) && T(s.m) <= s.c.view.t)
    && (s.drained ==> Closed(s.m) && H(s.m) == T(s.m))
  }

  // ---------------------------------------------------------------- what steps keep

  lemma ConsumerKeepsTail<V>(s: State<V>, pick: nat)
    requires Shape(s)
    ensures ConsumerGo(s, pick).m.tail == s.m.tail && ConsumerGo(s, pick).m.closed == s.m.closed
    ensures ConsumerGo(s, pick).p == s.p
    ensures s.c.view.t <= ConsumerGo(s, pick).c.view.t
  {
  }

  lemma ProducerKeeps<V>(s: State<V>, pick: nat)
    requires Shape(s)
    ensures var s' := ProducerGo(s, pick);
      s'.m.head == s.m.head && s'.m.closed == s.m.closed && s'.c == s.c && s'.drained == s.drained
  {
  }

  lemma ConsumerShut<V>(s: State<V>, pick: nat)
    requires Inv(s) && ShutInv(s)
    ensures var s' := ConsumerGo(s, pick);
      && (s'.c.final ==> Closed(s'.m) && T(s.m) <= s'.c.view.t)
      && (s'.drained ==> Closed(s'.m) && H(s'.m) == T(s.m))
  {
    match s.c.pc {
      case CData => FinalData(s, pick);
      case CPublish => PublishHeadInv(s);
      case _ =>
    }
  }

  /** pop's final attempt reads the newest tail, so failing means drained. */
  lemma FinalData<V>(s: State<V>, pick: nat)
    requires Inv(s) && ShutInv(s) && s.c.pc.CData?
    ensures var s' := CheckData(s, pick);
      && s'.c.final == s.c.final && s.c.view.t <= s'.c.view.t && s'.m == s.m
      && (s'.drained ==> Closed(s.m) && H(s.m) == T(s.m))
  {
    if Data(s.m.ring, s.c) == 0 && Readable(s.c.view.t, pick, s.m.tail) {
      RefreshTailOk(s.m, s.c, pick);
      DataIs(s.m, RefreshTail(s.m, s.c, pick));
    }
  }

  /** A producer that is done stays so and publishes nothing. */
  lemma StaysDone<V>(s: State<V>, pick: nat)
    requires Shape(s) && Done(s.p) && (forall k :: 0 < k < |s.m.closed| ==> s.m.closed[k].val)
    ensures ProducerGo(s, pick).m == s.m && Done(ProducerGo(s, pick).p)
  {
  }

  lemma ShutGo<V>(s: State<V>, a: Action<V>)
    requires Inv(s) && ShutInv(s) && a.cmd.Go?
    ensures MemShape(Step(s, a).m) && ShutInv(Step(s, a))
  {
    StepIs(s, a);
    if a.actor.P? {
      ProducerKeeps(s, a.cmd.pick);
      if Closed(s.m) { StaysDone(s, a.cmd.pick); }
    } else if a.actor.C? {
      ConsumerKeepsTail(s, a.cmd.pick);
      ConsumerShut(s, a.cmd.pick);
    }
  }

  lemma ShutClose<V>(s: State<V>, a: Actor)
    requires Inv(s) && ShutInv(s) && IdleActor(s, a) && Done(s.p) && s.p.view.t <= ViewOf(s, a).t
    ensures ShutInv(CloseBy(s, a))
  {
    var s' := CloseBy(s, a);
    assert s'.m.closed[..|s.m.closed|] == s.m.closed;
  }

  lemma ShutCalls<V>(s: State<V>, a: Action<V>)
    requires Inv(s) && ShutInv(s) && Disciplined(s, a) && !a.cmd.Go?
    ensures MemShape(Step(s, a).m) && ShutInv(Step(s, a))
  {
    StepIs(s, a);
    if a.cmd.Close? && IdleActor(s, a.actor) { ShutClose(s, a.actor); }
  }

  lemma ShutStep<V>(s: State<V>, a: Action<V>)
    requires Inv(s) && ShutInv(s) && Disciplined(s, a)
    ensures MemShape(Step(s, a).m) && ShutInv(Step(s, a))
  {
    if a.cmd.Go? { ShutGo(s, a); } else { ShutCalls(s, a); }
  }

  lemma {:induction false} ShutRun<V>(s0: State<V>, acts: seq<Action<V>>)
    requires Inv(s0) && ShutInv(s0) && DisciplinedRun(s0, acts)
    ensures MemShape(Run(s0, acts).m) && ShutInv(Run(s0, acts))
    decreases |acts|
  {
    if acts != [] {
      ShutRun(s0, acts[..|acts| - 1]);
      RunInv(s0, acts[..|acts| - 1]);
      ShutStep(Run(s0, acts[..|acts| - 1]), acts[|acts| - 1]);
    }
  }

  /** Close-and-drain is complete, stale reads included: when every push happens-before
      every close(), or comes later and knows of one, a pop() that returns false leaves
      nothing behind; every item pushed has been read, in order. */
  lemma DrainComplete<V>(capacity: nat, others: nat, blank: V, acts: seq<Action<V>>)
    requires capacity > 0 && DisciplinedRun(Init(capacity, others, blank), acts)
    ensures var s := Run(Init(capacity, others, blank), acts);
      s.drained ==> Done(s.p) && s.m.takes == s.m.puts
  {
    var s0 := Init(capacity, others, blank);
    InitInv(capacity, others, blank);
    ShutRun(s0, acts);
    RunInv(s0, acts);
  }

  /** Joining a thread teaches everything it knows. */
  lemma SyncTeaches<V>(s: State<V>, a: Actor, o: Actor)
    requires Shape(s) && IdleActor(s, a) && IdleActor(s, o)
    ensures var s' := Step(s, Action(a, Sync(o)));
      && s'.m == s.m && IdleActor(s', a)
      && var v, v' := ViewOf(s, o), ViewOf(s', a);
         v.h <= v'.h && v.t <= v'.t && v.c <= v'.c && v.w <= v'.w && v.r <= v'.r
  {
    StepIs(s, Action(a, Sync(o)));
  }
}
