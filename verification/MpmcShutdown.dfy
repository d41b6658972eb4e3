/** close() and draining of MpmcQueue. */
module MpmcShutdown {
  import opened Common
  import opened Words
  import opened MpmcModel
  import opened MpmcInvariant
  import opened MpmcRuns

  // ------------------------------------------------------------------- knowledge

  /** A view that knows ticket t's publication can no longer read an older sequence. */
  ghost predicate Knows<T>(m: Mem<T>, v: View, t: nat)
    requires MemShape(m) && ViewOk(m, v)
  {
    m.sq[t % m.cap][v.sq[t % m.cap]].val >= 2 * t + 1
  }

  /** Every push so far happens-before a point with view v. */
  ghost predicate Covers<T>(m: Mem<T>, v: View)
    requires MemShape(m)
  {
    ViewOk(m, v) && forall t :: 0 <= t < Tail(m) ==> Knows(m, v, t)
  }

  predicate LeqSq(a: View, b: View) {
    |a.sq| == |b.sq| && forall i :: 0 <= i < |a.sq| ==> a.sq[i] <= b.sq[i]
  }

  /** p has synchronised with every thread that ever won an enqueue ticket. */
  predicate Synced<T>(s: State<T>, p: nat)
    requires p < |s.threads|
  {
    forall t :: 0 <= t < |s.m.enq| ==>
      s.m.enq[t].tid < |s.threads| && LeqSq(s.threads[s.m.enq[t].tid].view, s.threads[p].view)
  }

  /** Whoever won ticket t is still at it or knows its publication. */
  ghost predicate Publisher<T>(s: State<T>, t: nat)
    requires MemShape(s.m) && t < |s.m.enq|
  {
    var o := s.m.enq[t].tid;
    && o < |s.threads|
    && ViewOk(s.m, s.threads[o].view)
    && (HoldsEnq(s.threads, o, t) || Knows(s.m, s.threads[o].view, t))
  }

  ghost predicate Published<T>(s: State<T>)
    requires MemShape(s.m)
  {
    forall t :: 0 <= t < |s.m.enq| ==> Publisher(s, t)
  }

  // ------------------------------------------------------------------ discipline

  predicate InPush(pc: Pc) {
    pc.PushCheck? || pc.EnqLoad? || pc.EnqSeq? || pc.EnqCas? || pc.EnqWrite? || pc.EnqPublish?
  }

  predicate IsPush<T>(op: Op<T>) { op.Push? || op.TryPush? }

  predicate Closed<T>(m: Mem<T>) { |m.closed| > 1 }

  /** Not pushing, or about to be refused because it knows of a close. */
  predicate Done<T>(th: Thread<T>) {
    !InPush(th.pc) || (th.pc.PushCheck? && th.view.c > 0)
  }

  predicate ProducersDone<T>(s: State<T>) {
    forall p :: 0 <= p < |s.threads| ==> Done(s.threads[p])
  }

  /** The documented protocol: close only after every push, from a thread that has
      synchronised with them all; push afterwards only knowing of the close. */
  ghost predicate Disciplined<T>(s: State<T>, a: Action<T>)
    requires Shape(s)
  {
    a.tid < |s.threads| && a.cmd.Call? && s.threads[a.tid].pc.Idle? ==>
      && (a.cmd.op.Close? ==> ProducersDone(s) && Covers(s.m, s.threads[a.tid].view))
      && (IsPush(a.cmd.op) && Closed(s.m) ==> s.threads[a.tid].view.c > 0)
  }

  ghost predicate DisciplinedRun<T>(s: State<T>, acts: seq<Action<T>>)
    requires Shape(s)
    decreases |acts|
  {
    acts == [] ||
    var prior := acts[..|acts| - 1];
    DisciplinedRun(s, prior) && Disciplined(Run(Unbounded, s, prior), acts[|acts| - 1])
  }

  // ------------------------------------------------------------------- invariant

  ghost predicate ShutInv<T>(s: State<T>)
    requires MemShape(s.m)
  {
    && (Closed(s.m) ==> ProducersDone(s))
    && (forall k :: 0 <= k < |s.m.closed| ==> (s.m.closed[k].val <==> k > 0))
    && (forall k :: 0 < k < |s.m.closed| ==> Covers(s.m, s.m.closed[k].view))
    && (forall p :: 0 <= p < |s.threads| && s.threads[p].final ==>
          Closed(s.m) && Covers(s.m, s.threads[p].view))
    && (s.drained ==> Closed(s.m) && Head(s.m) == Tail(s.m))
  }

  lemma KnowsMono<T>(m: Mem<T>, v: View, m': Mem<T>, v': View, t: nat)
    requires MemShape(m) && ViewOk(m, v) && Knows(m, v, t)
    requires MemInv(m') && Grows(m, m') && ViewOk(m', v') && LeqSq(v, v')
    ensures Knows(m', v', t)
  {
    assert History(m', t % m.cap);
  }

  lemma CoversMono<T>(m: Mem<T>, v: View, m': Mem<T>, v': View)
    requires MemShape(m) && Covers(m, v) && Tail(m') == Tail(m)
    requires MemInv(m') && Grows(m, m') && ViewOk(m', v') && LeqSq(v, v')
    ensures Covers(m', v')
  {
    forall t | 0 <= t < Tail(m) ensures Knows(m', v', t) { KnowsMono(m, v, m', v', t); }
  }

  // ------------------------------------------------------- what every step keeps

  lemma LoadView<T>(s: State<T>, p: nat, pick: nat, weak: bool)
    requires Shape(s) && p < |s.threads| && Loading(s.threads[p].pc) && !SeqLoading(s.threads[p].pc)
    ensures LeqSq(s.threads[p].view, Perform(Unbounded, s, p, pick, weak).threads[p].view)
  {
  }

  lemma JudgeView<T>(w: Word, m: Mem<T>, th: Thread<T>, i: nat, pick: nat)
    requires MemShape(m) && i < m.cap && ViewShape(m.cap, th.view) && Readable(th.view.sq[i], pick, |m.sq[i]|)
    ensures LeqSq(th.view, JudgeEnq(w, m, th, i, pick).view) && LeqSq(th.view, JudgeDeq(w, m, th, i, pick).view)
  {
  }

  lemma SeqLoadView<T>(s: State<T>, p: nat, pick: nat, weak: bool)
    requires Shape(s) && p < |s.threads| && SeqLoading(s.threads[p].pc)
    ensures LeqSq(s.threads[p].view, Perform(Unbounded, s, p, pick, weak).threads[p].view)
  {
    var i := SlotIndex(Unbounded, s.m.cap, s.threads[p].ticket);
    SeqIs(Unbounded, s, p, pick, weak, i);
    if Readable(s.threads[p].view.sq[i], pick, |s.m.sq[i]|) { JudgeView(Unbounded, s.m, s.threads[p], i, pick); }
  }

  lemma HolderView<T>(s: State<T>, p: nat, pick: nat, weak: bool)
    requires Shape(s) && p < |s.threads| && Holding(s.threads[p].pc) && ViewOk(s.m, s.threads[p].view)
    ensures LeqSq(s.threads[p].view, Perform(Unbounded, s, p, pick, weak).threads[p].view)
  {
  }

  lemma CasView<T>(s: State<T>, p: nat, pick: nat, weak: bool)
    requires Shape(s) && p < |s.threads|
    ensures LeqSq(s.threads[p].view, CasEnq(Unbounded, s, p, pick, weak).threads[p].view)
    ensures LeqSq(s.threads[p].view, CasDeq(Unbounded, s, p, pick, weak).threads[p].view)
  {
  }

  lemma CallView<T>(s: State<T>, p: nat, op: Op<T>)
    requires Shape(s) && p < |s.threads|
    ensures LeqSq(s.threads[p].view, StartCall(s, p, op).threads[p].view)
  {
  }

  /** Views only grow. */
  lemma ViewsGrow<T>(s: State<T>, a: Action<T>, q: nat)
    requires Inv(s) && q < |s.threads|
    ensures var s' := Step(Unbounded, s, a);
      q < |s'.threads| && LeqSq(s.threads[q].view, s'.threads[q].view)
  {
    StepGrows(Unbounded, s, a);
    if q == a.tid {
      assert ThreadOk(s.m, q, s.threads[q]);
      match a.cmd {
        case Call(op) => CallView(s, q, op);
        case Go(pick, weak) =>
          if Holding(s.threads[q].pc) {
            HolderView(s, q, pick, weak);
          } else if SeqLoading(s.threads[q].pc) {
            SeqLoadView(s, q, pick, weak);
          } else if Loading(s.threads[q].pc) {
            LoadView(s, q, pick, weak);
          } else {
            CasView(s, q, pick, weak);
          }
      }
    }
  }

  /** Only a push call leads into a push, and a known close refuses it. */
  lemma StaysDone<T>(s: State<T>, a: Action<T>, q: nat)
    requires Shape(s) && q < |s.threads| && Done(s.threads[q])
    requires forall k :: 0 < k < |s.m.closed| ==> s.m.closed[k].val
    requires a.cmd.Call? && IsPush(a.cmd.op) && s.threads[q].pc.Idle? && a.tid == q ==> s.threads[q].view.c > 0
    ensures var s' := Step(Unbounded, s, a); q < |s'.threads| && Done(s'.threads[q])
  {
    StepGrows(Unbounded, s, a);
    if a.tid == q && a.cmd.Go? { PcFlow(Unbounded, s, q, a.cmd.pick, a.cmd.weak); }
  }

  lemma NoNewTicket<T>(s: State<T>, a: Action<T>)
    requires Inv(s) && ProducersDone(s)
    ensures Tail(Step(Unbounded, s, a).m) == Tail(s.m)
  {
    StepGrows(Unbounded, s, a);
    if EventOf(s, a) == [] {
      StepQuiet(Unbounded, s, a);
    } else {
      CasDeqWins(Unbounded, s, a.tid, a.cmd.pick);
    }
  }

  lemma PublishKnows<T>(s: State<T>, p: nat, pick: nat, weak: bool)
    requires Inv(s) && p < |s.threads| && Producing(s.threads[p].pc)
    ensures var s', t := Perform(Unbounded, s, p, pick, weak), s.threads[p].ticket;
      && p < |s'.threads|
      && (HoldsEnq(s'.threads, p, t) || (ViewOk(s'.m, s'.threads[p].view) && Knows(s'.m, s'.threads[p].view, t)))
  {
    var s' := Perform(Unbounded, s, p, pick, weak);
    StepInv(Unbounded, s, Action(p, Go(pick, weak)));
    StepGrows(Unbounded, s, Action(p, Go(pick, weak)));
    assert ThreadOk(s'.m, p, s'.threads[p]);
  }

  lemma PublisherKept<T>(s: State<T>, a: Action<T>, t: nat)
    requires Inv(s) && t < Tail(s.m) && Publisher(s, t)
    ensures var s' := Step(Unbounded, s, a); t < Tail(s'.m) && Publisher(s', t)
  {
    var s', o := Step(Unbounded, s, a), s.m.enq[t].tid;
    StepInv(Unbounded, s, a);
    StepGrows(Unbounded, s, a);
    ViewsGrow(s, a, o);
    assert ThreadOk(s'.m, o, s'.threads[o]);
    if Knows(s.m, s.threads[o].view, t) {
      KnowsMono(s.m, s.threads[o].view, s'.m, s'.threads[o].view, t);
    } else if a.tid == o && a.cmd.Go? {
      PublishKnows(s, o, a.cmd.pick, a.cmd.weak);
    }
  }

  lemma WinnerHolds<T>(s: State<T>, a: Action<T>)
    requires Shape(s) && |s.m.enq| < |Step(Unbounded, s, a).m.enq|
    ensures var s' := Step(Unbounded, s, a);
      && a.tid < |s.threads| == |s'.threads|
      && |s'.m.enq| == |s.m.enq| + 1 && Last(s'.m.enq).tid == a.tid
      && s'.threads[a.tid].pc.EnqWrite? && s'.threads[a.tid].ticket == Last(s.m.epos)
  {
    if EventOf(s, a) == [] { StepQuiet(Unbounded, s, a); }
  }

  lemma PublisherNew<T>(s: State<T>, a: Action<T>, t: nat)
    requires Inv(s) && Tail(s.m) <= t < Tail(Step(Unbounded, s, a).m)
    ensures Publisher(Step(Unbounded, s, a), t)
  {
    var s' := Step(Unbounded, s, a);
    StepInv(Unbounded, s, a);
    WinnerHolds(s, a);
    assert ThreadOk(s'.m, a.tid, s'.threads[a.tid]);
  }

  // --------------------------------------------------------------- close and drain

  lemma PublishedStep<T>(s: State<T>, a: Action<T>)
    requires Inv(s) && Published(s)
    ensures Published(Step(Unbounded, s, a))
  {
    var s' := Step(Unbounded, s, a);
    StepGrows(Unbounded, s, a);
    forall t | 0 <= t < |s'.m.enq| ensures Publisher(s', t) {
      if t < Tail(s.m) { PublisherKept(s, a, t); } else { PublisherNew(s, a, t); }
    }
  }

  lemma {:induction false} PublishedRun<T>(n: nat, threads: nat, blank: T, acts: seq<Action<T>>)
    requires n > 0
    ensures var s := Run(Unbounded, Init(n, threads, blank), acts); Inv(s) && Published(s)
    decreases |acts|
  {
    InitInv(n, threads, blank);
    if acts != [] {
      var prior, a := acts[..|acts| - 1], acts[|acts| - 1];
      PublishedRun(n, threads, blank, prior);
      StepInv(Unbounded, Run(Unbounded, Init(n, threads, blank), prior), a);
      PublishedStep(Run(Unbounded, Init(n, threads, blank), prior), a);
    }
  }

  /** Joining a thread teaches everything it knows. */
  lemma SyncTeaches<T>(s: State<T>, p: nat, o: nat)
    requires Shape(s) && p < |s.threads| && s.threads[p].pc.Idle? && o < |s.threads| && s.threads[o].pc.Idle?
    ensures var s' := Step(Unbounded, s, Action(p, Call(Sync(o)))); var v, v' := s.threads[o].view, s'.threads[p].view;
      && s'.m == s.m && LeqSq(v, v') && LeqSq(s.threads[p].view, v') && v.e <= v'.e && v.d <= v'.d && v.c <= v'.c
      && forall i :: 0 <= i < s.m.cap ==> v.acc[i] <= v'.acc[i]
  {
  }

  lemma SyncedKnows<T>(s: State<T>, p: nat, t: nat)
    requires Inv(s) && p < |s.threads| && Synced(s, p) && t < Tail(s.m)
    requires ViewOk(s.m, s.threads[p].view) && Publisher(s, t) && !HoldsEnq(s.threads, s.m.enq[t].tid, t)
    ensures Knows(s.m, s.threads[p].view, t)
  {
    KnowsMono(s.m, s.threads[s.m.enq[t].tid].view, s.m, s.threads[p].view, t);
  }

  /** How a caller meets the discipline: a thread that has synchronised with every
      producer, after their pushes, knows every push. */
  lemma SyncedCovers<T>(n: nat, threads: nat, blank: T, acts: seq<Action<T>>, p: nat)
    requires n > 0 && p < threads
    requires var s := Run(Unbounded, Init(n, threads, blank), acts);
      p < |s.threads| && ProducersDone(s) && Synced(s, p)
    ensures var s := Run(Unbounded, Init(n, threads, blank), acts); Covers(s.m, s.threads[p].view)
  {
    var s := Run(Unbounded, Init(n, threads, blank), acts);
    PublishedRun(n, threads, blank, acts);
    assert ThreadOk(s.m, p, s.threads[p]);
    forall t | 0 <= t < Tail(s.m) ensures Knows(s.m, s.threads[p].view, t) {
      assert Publisher(s, t);
      SyncedKnows(s, p, t);
    }
  }

  /** A close by a thread that knows every push passes that knowledge on. */
  lemma CloseCovers<T>(s: State<T>, p: nat)
    requires Inv(s) && p < |s.threads| && Covers(s.m, s.threads[p].view)
    ensures var s' := StartCall(s, p, Close); Covers(s'.m, Last(s'.m.closed).view)
  {
    CloseKnows(s.m, s.threads[p].view, Last(StartCall(s, p, Close).m.closed).view);
  }

  lemma CloseKnows<T>(m: Mem<T>, v: View, v': View)
    requires MemShape(m) && Covers(m, v) && v' == v.(c := |m.closed|)
    ensures Covers(m.(closed := m.closed + [ClosedMsg(true, v')]), v')
  {
    var m' := m.(closed := m.closed + [ClosedMsg(true, v')]);
    forall t | 0 <= t < Tail(m) ensures Knows(m', v', t) {
      assert Knows(m, v, t);
    }
  }

  predicate IsClose<T>(s: State<T>, a: Action<T>) {
    a.tid < |s.threads| && s.threads[a.tid].pc.Idle? && a.cmd.Call? && a.cmd.op.Close?
  }

  /** closed_ changes only through close(). */
  lemma ClosedHistory<T>(s: State<T>, a: Action<T>)
    requires Shape(s)
    ensures var s' := Step(Unbounded, s, a);
      if IsClose(s, a)
      then |s'.m.closed| == |s.m.closed| + 1 && s.m.closed < s'.m.closed && Last(s'.m.closed).val
      else s'.m.closed == s.m.closed
  {
    StepGrows(Unbounded, s, a);
  }

  lemma ProducersKept<T>(s: State<T>, a: Action<T>)
    requires Inv(s) && ShutInv(s) && Disciplined(s, a) && (Closed(s.m) || IsClose(s, a))
    ensures ProducersDone(s) && ProducersDone(Step(Unbounded, s, a))
    ensures Tail(Step(Unbounded, s, a).m) == Tail(s.m)
  {
    var s' := Step(Unbounded, s, a);
    StepGrows(Unbounded, s, a);
    forall q | 0 <= q < |s'.threads| ensures Done(s'.threads[q]) { StaysDone(s, a, q); }
    NoNewTicket(s, a);
  }

  lemma MessagesKept<T>(s: State<T>, a: Action<T>, k: nat)
    requires Inv(s) && ShutInv(s) && Disciplined(s, a)
    requires 0 < k < |Step(Unbounded, s, a).m.closed|
    ensures var s' := Step(Unbounded, s, a); s'.m.closed[k].val && Covers(s'.m, s'.m.closed[k].view)
  {
    var s' := Step(Unbounded, s, a);
    StepInv(Unbounded, s, a);
    StepGrows(Unbounded, s, a);
    ClosedHistory(s, a);
    ProducersKept(s, a);
    if k < |s.m.closed| {
      assert s'.m.closed[k] == s.m.closed[k];
      CoversMono(s.m, s.m.closed[k].view, s'.m, s.m.closed[k].view);
    } else {
      CloseCovers(s, a.tid);
    }
  }

  // --------------------------------------------------------------- the final attempt

  /** Only the acquire load of closed_ starts pop's final attempt. */
  lemma FinalLoad<T>(s: State<T>, p: nat, pick: nat, weak: bool)
    requires Shape(s) && p < |s.threads|
    requires Perform(Unbounded, s, p, pick, weak).threads[p].final && !s.threads[p].final
    ensures pick < |s.m.closed| && s.m.closed[pick].val
    ensures ViewShape(s.m.cap, s.m.closed[pick].view) ==>
      LeqSq(s.m.closed[pick].view, Perform(Unbounded, s, p, pick, weak).threads[p].view)
  {
    PcFlow(Unbounded, s, p, pick, weak);
    assert s.threads[p].pc.PopCheck?;
  }

  lemma FinalKept<T>(s: State<T>, a: Action<T>, q: nat)
    requires Inv(s) && ShutInv(s) && Disciplined(s, a) && q < |s.threads|
    requires var s' := Step(Unbounded, s, a); q < |s'.threads| && s'.threads[q].final
    ensures var s' := Step(Unbounded, s, a); Closed(s'.m) && Covers(s'.m, s'.threads[q].view)
  {
    var s' := Step(Unbounded, s, a);
    StepInv(Unbounded, s, a);
    StepGrows(Unbounded, s, a);
    ViewsGrow(s, a, q);
    assert ThreadOk(s'.m, q, s'.threads[q]);
    if s.threads[q].final {
      ProducersKept(s, a);
      CoversMono(s.m, s.threads[q].view, s'.m, s'.threads[q].view);
    } else {
      var pick := a.cmd.pick;
      FinalLoad(s, q, pick, a.cmd.weak);
      ProducersKept(s, a);
      CoversMono(s.m, s.m.closed[pick].view, s'.m, s'.threads[q].view);
    }
  }

  /** pop() returns false only from its final attempt's sequence load. */
  lemma DrainedBy<T>(s: State<T>, a: Action<T>)
    requires Shape(s) && !s.drained && Step(Unbounded, s, a).drained
    ensures a.tid < |s.threads| && a.cmd.Go?
    ensures var th := s.threads[a.tid];
      var i := th.ticket % s.m.cap;
      && th.pc.DeqSeq? && th.blocking && th.final
      && Readable(th.view.sq[i], a.cmd.pick, |s.m.sq[i]|)
      && s.m.sq[i][a.cmd.pick].val < 2 * th.ticket + 1
  {
  }

  /** Whoever knows every push reads every published sequence as published. */
  lemma ReadsPublished<T>(m: Mem<T>, v: View, t: nat, pick: nat)
    requires MemShape(m) && Covers(m, v) && History(m, t % m.cap)
    requires Readable(v.sq[t % m.cap], pick, |m.sq[t % m.cap]|)
    ensures t < Tail(m) ==> m.sq[t % m.cap][pick].val >= 2 * t + 1
  {
    if t < Tail(m) { assert Knows(m, v, t); }
  }

  lemma DrainStep<T>(s: State<T>, a: Action<T>)
    requires Inv(s) && ShutInv(s) && Disciplined(s, a) && Step(Unbounded, s, a).drained
    ensures var m := Step(Unbounded, s, a).m; Closed(m) && Head(m) == Tail(m)
  {
    var s' := Step(Unbounded, s, a);
    StepInv(Unbounded, s, a);
    StepGrows(Unbounded, s, a);
    if s.drained {
      ProducersKept(s, a);
    } else {
      DrainedBy(s, a);
      var th := s.threads[a.tid];
      var i := th.ticket % s.m.cap;
      assert ThreadOk(s.m, a.tid, th) && History(s.m, i);
      ReadsPublished(s.m, th.view, th.ticket, a.cmd.pick);
      ProducersKept(s, a);
    }
  }

  lemma ShutStep<T>(s: State<T>, a: Action<T>)
    requires Inv(s) && ShutInv(s) && Disciplined(s, a)
    ensures Inv(Step(Unbounded, s, a)) && ShutInv(Step(Unbounded, s, a))
  {
    var s' := Step(Unbounded, s, a);
    StepInv(Unbounded, s, a);
    StepGrows(Unbounded, s, a);
    ClosedHistory(s, a);
    if Closed(s'.m) { ProducersKept(s, a); }
    forall k | 0 < k < |s'.m.closed|
      ensures s'.m.closed[k].val && Covers(s'.m, s'.m.closed[k].view)
    {
      MessagesKept(s, a, k);
    }
    forall q | 0 <= q < |s'.threads| && s'.threads[q].final
      ensures Closed(s'.m) && Covers(s'.m, s'.threads[q].view)
    {
      FinalKept(s, a, q);
    }
    if s'.drained { DrainStep(s, a); }
  }

  lemma {:induction false} ShutRun<T>(n: nat, threads: nat, blank: T, acts: seq<Action<T>>)
    requires n > 0 && DisciplinedRun(Init(n, threads, blank), acts)
    ensures var s := Run(Unbounded, Init(n, threads, blank), acts); Inv(s) && ShutInv(s)
    decreases |acts|
  {
    InitInv(n, threads, blank);
    if acts != [] {
      var prior, a := acts[..|acts| - 1], acts[|acts| - 1];
      ShutRun(n, threads, blank, prior);
      ShutStep(Run(Unbounded, Init(n, threads, blank), prior), a);
    }
  }

  /** Every enqueue ticket has a dequeue winner, and every winner that has read its
      slot got that ticket's item. */
  ghost predicate AllTaken<T>(s: State<T>) {
    && |s.m.deq| == |s.m.enq|
    && forall t :: 0 <= t < |s.m.enq| ==>
         s.m.deq[t].got == Some(s.m.enq[t].item) || Reading(s.threads, s.m.deq[t].tid, t)
  }

  lemma DrainedState<T>(s: State<T>)
    requires Inv(s) && ShutInv(s) && s.drained
    ensures AllTaken(s)
  {
    forall t | 0 <= t < |s.m.enq|
      ensures s.m.deq[t].got == Some(s.m.enq[t].item) || Reading(s.threads, s.m.deq[t].tid, t)
    {
      assert Delivers(s.m, s.threads, t);
    }
  }

  /** Close-and-drain is complete, stale reads included: when every push happens-before
      every close(), or comes later and knows of one, then once any pop() has returned
      false, every pushed item has been popped or is just being
      moved out by the winner of its ticket, each once and in order. */
  lemma DrainComplete<T>(n: nat, threads: nat, blank: T, acts: seq<Action<T>>)
    requires n > 0 && DisciplinedRun(Init(n, threads, blank), acts)
    ensures var s := Run(Unbounded, Init(n, threads, blank), acts); s.drained ==> AllTaken(s)
  {
    var s := Run(Unbounded, Init(n, threads, blank), acts);
    ShutRun(n, threads, blank, acts);
    if s.drained { DrainedState(s); }
  }
}
