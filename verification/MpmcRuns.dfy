/** What every run of MpmcQueue keeps: exclusion, race freedom and the bounded FIFO. */
module MpmcRuns {
  import opened Common
  import opened Words
  import opened MpmcModel
  import opened MpmcInvariant

  // ------------------------------------------------------------ lifting to runs

  /** One step: memory grows and only the acting thread changes. */
  ghost predicate StepsTo<T>(s: State<T>, p: nat, s': State<T>)
    requires Shape(s) && Shape(s')
  {
    && Grows(s.m, s'.m)
    && |s'.threads| == |s.threads|
    && forall q :: 0 <= q < |s.threads| && q != p ==> s'.threads[q] == s.threads[q]
  }

  /** The thread's own atomic actions never touch closed_. */
  ghost predicate GoesTo<T>(s: State<T>, p: nat, s': State<T>)
    requires Shape(s) && Shape(s')
  {
    StepsTo(s, p, s') && s'.m.closed == s.m.closed
  }

  predicate Loading(pc: Pc) {
    pc.PushCheck? || pc.PopCheck? || pc.EnqLoad? || pc.DeqLoad? || pc.EnqSeq? || pc.DeqSeq?
  }

  lemma LoadKeeps<T>(w: Word, s: State<T>, p: nat, pick: nat, weak: bool)
    requires Shape(s) && p < |s.threads| && Loading(s.threads[p].pc)
    ensures Perform(w, s, p, pick, weak).m == s.m
    ensures GoesTo(s, p, Perform(w, s, p, pick, weak))
  {
  }

  lemma CasGrows<T>(w: Word, s: State<T>, p: nat, pick: nat, weak: bool)
    requires Shape(s) && p < |s.threads|
    ensures GoesTo(s, p, CasEnq(w, s, p, pick, weak))
    ensures GoesTo(s, p, CasDeq(w, s, p, pick, weak))
  {
  }

  lemma AccessGrows<T>(s: State<T>, p: nat, i: nat)
    requires Shape(s) && p < |s.threads| && i < s.m.cap
    ensures GoesTo(s, p, WriteValue(s, p, i))
    ensures GoesTo(s, p, ReadValue(s, p, i))
  {
  }

  lemma StoreGrows<T>(s: State<T>, p: nat, i: nat, val: nat)
    requires Shape(s) && p < |s.threads| && i < s.m.cap
    ensures GoesTo(s, p, StoreSeq(s, p, i, val))
  {
  }

  lemma StartCallGrows<T>(s: State<T>, p: nat, op: Op<T>)
    requires Shape(s) && p < |s.threads|
    ensures StepsTo(s, p, StartCall(s, p, op))
  {
  }

  lemma HolderGrows<T>(w: Word, s: State<T>, p: nat, pick: nat, weak: bool)
    requires Shape(s) && p < |s.threads| && Holding(s.threads[p].pc)
    ensures GoesTo(s, p, Perform(w, s, p, pick, weak))
  {
    var t := s.threads[p].ticket;
    var i := SlotIndex(w, s.m.cap, t);
    match s.threads[p].pc {
      case EnqPublish => StoreGrows(s, p, i, Wrap(w, 2 * t + 1));
      case DeqRelease => StoreGrows(s, p, i, Wrap(w, 2 * (t + s.m.cap)));
      case _ => AccessGrows(s, p, i);
    }
  }

  lemma StepGrows<T>(w: Word, s: State<T>, a: Action<T>)
    requires Shape(s)
    ensures StepsTo(s, a.tid, Step(w, s, a))
    ensures a.cmd.Go? ==> GoesTo(s, a.tid, Step(w, s, a))
  {
    if a.tid < |s.threads| {
      var p := a.tid;
      match a.cmd {
        case Call(op) => StartCallGrows(s, p, op);
        case Go(pick, weak) =>
          if Holding(s.threads[p].pc) {
            HolderGrows(w, s, p, pick, weak);
          } else if Loading(s.threads[p].pc) {
            LoadKeeps(w, s, p, pick, weak);
          } else {
            CasGrows(w, s, p, pick, weak);
          }
      }
    }
  }

  /** The control flow of the six operations. */
  predicate PcEdge(a: Pc, b: Pc) {
    a == b || match a
      case Idle => b.PushCheck? || b.DeqLoad?
      case PushCheck => b.Idle? || b.EnqLoad?
      case EnqLoad => b.EnqSeq?
      case EnqSeq => b.EnqCas? || b.EnqLoad? || b.PushCheck? || b.Idle?
      case EnqCas => b.EnqWrite? || b.EnqSeq?
      case EnqWrite => b.EnqPublish?
      case EnqPublish => b.Idle?
      case DeqLoad => b.DeqSeq?
      case DeqSeq => b.DeqCas? || b.DeqLoad? || b.PopCheck? || b.Idle?
      case DeqCas => b.DeqRead? || b.DeqSeq?
      case DeqRead => b.DeqRelease?
      case DeqRelease => b.Idle?
      case PopCheck => b.DeqLoad?
  }

  /** Control flow of one atomic action; only pop's load of closed_ sets `final`. */
  predicate Flows<T>(th: Thread<T>, th': Thread<T>) {
    PcEdge(th.pc, th'.pc) && (th'.final == th.final || th.pc.PopCheck?)
  }

  lemma PcFlowLoad<T>(w: Word, s: State<T>, p: nat, pick: nat, weak: bool)
    requires Shape(s) && p < |s.threads| && Loading(s.threads[p].pc) && !SeqLoading(s.threads[p].pc)
    ensures Flows(s.threads[p], Perform(w, s, p, pick, weak).threads[p])
  {
  }

  predicate SeqLoading(pc: Pc) { pc.EnqSeq? || pc.DeqSeq? }

  /** A sequence load changes only the thread, by its verdict. */
  lemma SeqIs<T>(w: Word, s: State<T>, p: nat, pick: nat, weak: bool, i: nat)
    requires Shape(s) && p < |s.threads| && SeqLoading(s.threads[p].pc)
    requires i == SlotIndex(w, s.m.cap, s.threads[p].ticket)
    ensures var th := s.threads[p];
      Perform(w, s, p, pick, weak).threads[p] ==
        if !Readable(th.view.sq[i], pick, |s.m.sq[i]|) then th
        else if th.pc.EnqSeq? then JudgeEnq(w, s.m, th, i, pick) else JudgeDeq(w, s.m, th, i, pick)
  {
  }

  lemma PcFlowJudge<T>(w: Word, m: Mem<T>, th: Thread<T>, i: nat, pick: nat)
    requires MemShape(m) && i < m.cap && ViewShape(m.cap, th.view) && pick < |m.sq[i]|
    ensures th.pc.EnqSeq? ==> Flows(th, JudgeEnq(w, m, th, i, pick))
    ensures th.pc.DeqSeq? ==> Flows(th, JudgeDeq(w, m, th, i, pick))
  {
  }

  lemma PcFlowSeq<T>(w: Word, s: State<T>, p: nat, pick: nat, weak: bool)
    requires Shape(s) && p < |s.threads| && SeqLoading(s.threads[p].pc)
    ensures Flows(s.threads[p], Perform(w, s, p, pick, weak).threads[p])
  {
    var i := SlotIndex(w, s.m.cap, s.threads[p].ticket);
    SeqIs(w, s, p, pick, weak, i);
    if pick < |s.m.sq[i]| { PcFlowJudge(w, s.m, s.threads[p], i, pick); }
  }

  lemma PcFlowHolder<T>(w: Word, s: State<T>, p: nat, pick: nat, weak: bool)
    requires Shape(s) && p < |s.threads| && Holding(s.threads[p].pc)
    ensures Flows(s.threads[p], Perform(w, s, p, pick, weak).threads[p])
  {
  }

  lemma PcFlowCas<T>(w: Word, s: State<T>, p: nat, pick: nat, weak: bool)
    requires Shape(s) && p < |s.threads|
    ensures s.threads[p].pc.EnqCas? ==> Flows(s.threads[p], CasEnq(w, s, p, pick, weak).threads[p])
    ensures s.threads[p].pc.DeqCas? ==> Flows(s.threads[p], CasDeq(w, s, p, pick, weak).threads[p])
  {
  }

  lemma PcFlow<T>(w: Word, s: State<T>, p: nat, pick: nat, weak: bool)
    requires Shape(s) && p < |s.threads|
    ensures var s' := Perform(w, s, p, pick, weak);
      && |s'.threads| == |s.threads|
      && Flows(s.threads[p], s'.threads[p])
      && (s.threads[p].pc.Idle? ==> s' == s)
  {
    StepGrows(w, s, Action(p, Go(pick, weak)));
    if SeqLoading(s.threads[p].pc) {
      PcFlowSeq(w, s, p, pick, weak);
    } else if Loading(s.threads[p].pc) {
      PcFlowLoad(w, s, p, pick, weak);
    } else if Holding(s.threads[p].pc) {
      PcFlowHolder(w, s, p, pick, weak);
    } else {
      PcFlowCas(w, s, p, pick, weak);
    }
  }

  lemma {:induction false} RunGrows<T>(w: Word, s: State<T>, acts: seq<Action<T>>)
    requires Shape(s)
    ensures Grows(s.m, Run(w, s, acts).m) && |Run(w, s, acts).threads| == |s.threads|
    decreases |acts|
  {
    if acts != [] {
      var prior := acts[..|acts| - 1];
      RunGrows(w, s, prior);
      StepGrows(w, Run(w, s, prior), acts[|acts| - 1]);
    }
  }

  lemma {:induction false} RunInv<T>(w: Word, s: State<T>, acts: seq<Action<T>>)
    requires Inv(s) && Fits(w, Run(w, s, acts).m)
    ensures Inv(Run(w, s, acts))
    decreases |acts|
  {
    if acts != [] {
      var prior := acts[..|acts| - 1];
      StepGrows(w, Run(w, s, prior), acts[|acts| - 1]);
      RunInv(w, s, prior);
      StepInv(w, Run(w, s, prior), acts[|acts| - 1]);
    }
  }

  /** s is reached by a queue of capacity n, with any number of threads, under some
      schedule and some stale reads the memory allows. */
  ghost predicate Reachable<T(!new)>(w: Word, n: nat, s: State<T>) {
    exists threads: nat, blank: T, acts: seq<Action<T>> ::
      n > 0 && s == Run(w, Init(n, threads, blank), acts) && Fits(w, s.m)
  }

  lemma ReachableInv<T(!new)>(w: Word, n: nat, s: State<T>)
    requires Reachable(w, n, s)
    ensures Inv(s) && s.m.cap == n > 0 && Fits(w, s.m)
  {
    var threads: nat, blank: T, acts: seq<Action<T>> :|
      n > 0 && s == Run(w, Init(n, threads, blank), acts) && Fits(w, s.m);
    InitInv(n, threads, blank);
    RunInv(w, Init(n, threads, blank), acts);
    RunGrows(w, Init(n, threads, blank), acts);
  }

  // ------------------------------------------------------- a bounded FIFO, refined

  /** The sequential specification: a FIFO of at most `cap` items. `outs` lists what
      its dequeues have returned. */
  datatype Event<T> = Enqueue(tid: nat, item: T) | Dequeue(tid: nat)
  datatype Fifo<T> = Fifo(q: seq<T>, outs: seq<T>)

  /** None when an event is impossible: enqueue on full, dequeue on empty. */
  function Apply<T>(cap: nat, f: Fifo<T>, e: Event<T>): Option<Fifo<T>> {
    match e
    case Enqueue(_, x) => if |f.q| < cap then Some(Fifo(f.q + [x], f.outs)) else None
    case Dequeue(_) => if |f.q| > 0 then Some(Fifo(f.q[1..], f.outs + [f.q[0]])) else None
  }

  function Replay<T>(cap: nat, events: seq<Event<T>>): Option<Fifo<T>>
    decreases |events|
  {
    if events == [] then Some(Fifo([], []))
    else match Replay(cap, events[..|events| - 1])
      case None => None
      case Some(f) => Apply(cap, f, events[|events| - 1])
  }

  /** Linearisation points: the two successful compare-exchanges. */
  function EventOf<T>(s: State<T>, a: Action<T>): seq<Event<T>>
    requires Shape(s)
  {
    if a.tid >= |s.threads| || !a.cmd.Go? || a.cmd.weak then []
    else
      var th := s.threads[a.tid];
      if th.pc.EnqCas? && Last(s.m.epos) == th.ticket then [Enqueue(a.tid, th.item)]
      else if th.pc.DeqCas? && Last(s.m.dpos) == th.ticket then [Dequeue(a.tid)]
      else []
  }

  function Trace<T>(w: Word, s: State<T>, acts: seq<Action<T>>): seq<Event<T>>
    requires Shape(s)
    decreases |acts|
  {
    if acts == [] then []
    else
      var prior := acts[..|acts| - 1];
      Trace(w, s, prior) + EventOf(Run(w, s, prior), acts[|acts| - 1])
  }

  /** The queue's items: claimed by a producer and not yet by a consumer. */
  function Contents<T>(m: Mem<T>): (q: seq<T>)
    requires Head(m) <= Tail(m)
    ensures |q| == Tail(m) - Head(m)
  {
    seq(Tail(m) - Head(m), i requires 0 <= i < Tail(m) - Head(m) => m.enq[Head(m) + i].item)
  }

  function Abstract<T>(m: Mem<T>): Fifo<T>
    requires Head(m) <= Tail(m)
  {
    Fifo(Contents(m), seq(Head(m), t requires 0 <= t < Head(m) => m.enq[t].item))
  }

  lemma StepQuiet<T>(w: Word, s: State<T>, a: Action<T>)
    requires Shape(s) && EventOf(s, a) == []
    ensures Step(w, s, a).m.enq == s.m.enq && |Step(w, s, a).m.deq| == |s.m.deq|
  {
    if a.tid < |s.threads| && a.cmd.Go? && Loading(s.threads[a.tid].pc) {
      LoadKeeps(w, s, a.tid, a.cmd.pick, a.cmd.weak);
    }
  }

  lemma WinRefines<T>(m: Mem<T>, p: nat, th: Thread<T>)
    requires MemShape(m) && Counters(m)
    ensures Tail(m) < Head(m) + m.cap ==>
      Apply(m.cap, Abstract(m), Enqueue(p, th.item)) == Some(Abstract(WinEnq(m, p, th)))
    ensures Head(m) < Tail(m) ==>
      Apply(m.cap, Abstract(m), Dequeue(p)) == Some(Abstract(WinDeq(m, p, th)))
  {
    var f := Abstract(m);
    if Tail(m) < Head(m) + m.cap {
      var f' := Abstract(WinEnq(m, p, th));
      assert f'.q == f.q + [th.item] && f'.outs == f.outs;
    }
    if Head(m) < Tail(m) {
      var f' := Abstract(WinDeq(m, p, th));
      assert f'.q == f.q[1..] && f'.outs == f.outs + [f.q[0]];
    }
  }

  lemma EnqRefines<T>(w: Word, s: State<T>, p: nat, pick: nat)
    requires Shape(s) && Counters(s.m) && p < |s.threads| && s.threads[p].pc.EnqCas?
    requires Last(s.m.epos) == s.threads[p].ticket && Wrap(w, s.threads[p].ticket + 1) == s.threads[p].ticket + 1
    requires Tail(s.m) < Head(s.m) + s.m.cap
    ensures var s' := Step(w, s, Action(p, Go(pick, false)));
      && Head(s'.m) <= Tail(s'.m)
      && Apply(s.m.cap, Abstract(s.m), Enqueue(p, s.threads[p].item)) == Some(Abstract(s'.m))
  {
    CasEnqWins(w, s, p, pick);
    WinRefines(s.m, p, s.threads[p]);
  }

  lemma DeqRefines<T>(w: Word, s: State<T>, p: nat, pick: nat)
    requires Shape(s) && Counters(s.m) && p < |s.threads| && s.threads[p].pc.DeqCas?
    requires Last(s.m.dpos) == s.threads[p].ticket && Wrap(w, s.threads[p].ticket + 1) == s.threads[p].ticket + 1
    requires Head(s.m) < Tail(s.m)
    ensures var s' := Step(w, s, Action(p, Go(pick, false)));
      && Head(s'.m) <= Tail(s'.m)
      && Apply(s.m.cap, Abstract(s.m), Dequeue(p)) == Some(Abstract(s'.m))
  {
    CasDeqWins(w, s, p, pick);
    WinRefines(s.m, p, s.threads[p]);
  }

  /** A winning thread finds room, or an item. */
  lemma WinnerInTurn<T>(w: Word, s: State<T>, a: Action<T>)
    requires Inv(s) && Fits(w, s.m) && EventOf(s, a) != []
    ensures var th := s.threads[a.tid];
      && Wrap(w, th.ticket + 1) == th.ticket + 1
      && (th.pc.EnqCas? ==> Tail(s.m) < Head(s.m) + s.m.cap)
      && (th.pc.DeqCas? ==> Head(s.m) < Tail(s.m))
  {
    var th := s.threads[a.tid];
    assert ThreadOk(s.m, a.tid, th);
    WrapSmall(w, th.ticket + 1);
    if th.pc.EnqCas? {
      EnqClaimInTurn(s, a.tid);
      assert SlotOk(s.m, s.threads, th.ticket % s.m.cap);
    } else {
      DeqClaimInTurn(s, a.tid);
    }
  }

  /** Every step is a stutter or exactly the abstract event at its linearisation
      point. */
  lemma StepRefines<T>(w: Word, s: State<T>, a: Action<T>)
    requires Inv(s) && Fits(w, s.m) && Inv(Step(w, s, a))
    ensures var f, f', e := Abstract(s.m), Abstract(Step(w, s, a).m), EventOf(s, a);
      if e == [] then f' == f else e == [e[0]] && Apply(s.m.cap, f, e[0]) == Some(f')
  {
    if EventOf(s, a) == [] {
      StepQuiet(w, s, a);
    } else {
      WinnerInTurn(w, s, a);
      if s.threads[a.tid].pc.EnqCas? {
        EnqRefines(w, s, a.tid, a.cmd.pick);
      } else {
        DeqRefines(w, s, a.tid, a.cmd.pick);
      }
    }
  }

  lemma {:induction false} TraceRefines<T>(w: Word, n: nat, threads: nat, blank: T, acts: seq<Action<T>>)
    requires n > 0 && Fits(w, Run(w, Init(n, threads, blank), acts).m)
    ensures var s := Run(w, Init(n, threads, blank), acts);
      && Inv(s) && s.m.cap == n
      && Replay(n, Trace(w, Init(n, threads, blank), acts)) == Some(Abstract(s.m))
    decreases |acts|
  {
    var s0 := Init(n, threads, blank);
    InitInv(n, threads, blank);
    RunInv(w, s0, acts);
    RunGrows(w, s0, acts);
    if acts != [] {
      var prior, a := acts[..|acts| - 1], acts[|acts| - 1];
      var s := Run(w, s0, prior);
      StepGrows(w, s, a);
      TraceRefines(w, n, threads, blank, prior);
      StepRefines(w, s, a);
      var tr, e := Trace(w, s0, prior), EventOf(s, a);
      if e == [] {
        assert tr + e == tr;
      } else {
        assert (tr + e)[..|tr + e| - 1] == tr;
      }
    } else {
      assert Abstract(s0.m) == Fifo([], []);
    }
  }

  /** MpmcQueue is a bounded FIFO: with the two compare-exchanges as linearisation
      points, every run is a legal run of the sequential queue, never over capacity,
      and the winner of dequeue ticket t returns what the sequential queue's t-th
      dequeue returns, the argument of the t-th enqueue. */
  lemma Linearizable<T>(w: Word, n: nat, threads: nat, blank: T, acts: seq<Action<T>>)
    requires n > 0 && Fits(w, Run(w, Init(n, threads, blank), acts).m)
    ensures var s := Run(w, Init(n, threads, blank), acts);
      var f := Replay(n, Trace(w, Init(n, threads, blank), acts));
      && f.Some? && |f.value.q| <= n && |f.value.outs| == |s.m.deq| <= |s.m.enq|
      && (forall t :: 0 <= t < |s.m.deq| && s.m.deq[t].got.Some? ==>
            s.m.deq[t].got.value == f.value.outs[t] == s.m.enq[t].item)
      && (forall p :: 0 <= p < |s.threads| && s.threads[p].pc.DeqRelease? ==>
            s.threads[p].ticket < |f.value.outs| && s.threads[p].item == f.value.outs[s.threads[p].ticket])
  {
    TraceRefines(w, n, threads, blank, acts);
    var s := Run(w, Init(n, threads, blank), acts);
    forall t | 0 <= t < |s.m.deq| && s.m.deq[t].got.Some?
      ensures s.m.deq[t].got == Some(s.m.enq[t].item)
    {
      assert Delivers(s.m, s.threads, t);
    }
    forall p | 0 <= p < |s.threads| && s.threads[p].pc.DeqRelease?
      ensures s.threads[p].ticket < |s.m.deq| && s.m.deq[s.threads[p].ticket].got == Some(s.threads[p].item)
    {
      assert ThreadOk(s.m, p, s.threads[p]);
    }
  }

  /** No two conflicting accesses to a slot's value race: every access is ordered by
      happens-before after all earlier ones, producer to consumer and consumer to
      next-lap producer. */
  lemma RaceFree<T(!new)>(w: Word, n: nat, s: State<T>, p: nat)
    requires Reachable(w, n, s) && p < |s.threads|
    ensures !s.m.raced
    ensures n > 0 && MemShape(s.m) && s.m.cap == n && ViewShape(n, s.threads[p].view)
    ensures s.threads[p].pc.EnqWrite? || s.threads[p].pc.DeqRead? ==>
      var i := s.threads[p].ticket % n; s.threads[p].view.acc[i] == s.m.acc[i]
  {
    ReachableInv(w, n, s);
    assert ThreadOk(s.m, p, s.threads[p]);
  }

  /** Positions stay within one capacity of each other; slot i's sequence is always
      2t or 2t + 1 for a ticket t of that slot, and only grows. */
  lemma SlotDiscipline<T(!new)>(w: Word, n: nat, s: State<T>, i: nat, j: nat, k: nat)
    requires Reachable(w, n, s) && i < n
    ensures MemShape(s.m) && s.m.cap == n
    ensures |s.m.deq| <= |s.m.enq| <= |s.m.deq| + n
    ensures j < k < |s.m.sq[i]| ==> s.m.sq[i][j].val < s.m.sq[i][k].val
    ensures k < |s.m.sq[i]| ==> (s.m.sq[i][k].val / 2) % n == i
  {
    ReachableInv(w, n, s);
    assert History(s.m, i);
  }

  /** At most one thread is between its compare-exchange and its release store on a
      given slot, in any reachable state, at any capacity. */
  lemma Exclusion<T(!new)>(w: Word, n: nat, s: State<T>, p: nat, q: nat)
    requires Reachable(w, n, s) && p < |s.threads| && q < |s.threads| && p != q
    requires Holding(s.threads[p].pc) && Holding(s.threads[q].pc)
    ensures SlotIndex(w, n, s.threads[p].ticket) != SlotIndex(w, n, s.threads[q].ticket)
  {
    ReachableInv(w, n, s);
    SlotIndexIsMod(w, n, s.threads[p].ticket);
    SlotIndexIsMod(w, n, s.threads[q].ticket);
    if s.threads[p].ticket % n == s.threads[q].ticket % n { OneHolder(s, p, q); }
  }
}
