/** Exactly when a pop() of MpmcQueue can report "closed and drained" and be wrong. */
module MpmcLoss {
  import opened Common
  import opened Words
  import opened MpmcModel
  import opened MpmcInvariant
  import opened MpmcRuns
  import opened MpmcViews
  import opened MpmcShutdown
  import opened MpmcSolo

  /** A thread with view v may load dequeue position t and then read a sequence that
      does not yet show ticket t's item. */
  ghost predicate Blind<T>(m: Mem<T>, v: View, t: nat) {
    MemShape(m) && ViewOk(m, v) && v.d <= t && !Knows(m, v, t)
  }

  /** A consumer with view v may act on close message k and still be blind at some
      position t that the queue has had. */
  ghost predicate CanMiss<T>(m: Mem<T>, v: View, k: nat, t: nat) {
    && v.c <= k < |m.closed| && m.closed[k].val && t <= Head(m)
    && Blind(m, Join(v, m.closed[k].view), t)
  }

  /** q, acting alone, has had a pop() return false, and the queue is as it was. */
  ghost predicate GivesUp<T(!new)>(s: State<T>, q: nat, s': State<T>)
    requires Shape(s)
  {
    Via(Just(q), s, s') && s'.drained && s'.m == s.m && q < |s'.threads| && s'.threads[q].pc.Idle?
  }

  // ------------------------------------------------------------- it can be wrong then

  lemma SoundSettled<T(!new)>(s: State<T>)
    requires Sound(s)
    ensures Inv(s) && AllSettled(s)
  {
    var n: nat :| Reachable(Unbounded, n, s);
    ReachableSettled(n, s);
  }

  /** What is already known stays the newest known on slot i. */
  predicate Unmoved(v: View, v': View, i: nat)
    requires i < |v.sq|
  {
    i < |v'.sq| && v'.c == v.c && v'.sq[i] == v.sq[i]
  }

  lemma Reread<T>(m: Mem<T>, v: View, t: nat, i: nat)
    requires MemInv(m) && Settled(m, v) && v.d <= t < |m.dpos| && i < m.cap
    ensures var v' := Acquire(m, v.(d := t), i, v.sq[i]); Unmoved(v, v', i) && v'.d == t
  {
    AcquireOk(m, v.(d := t), i, v.sq[i]);
  }

  /** One attempt of pop() with position t and the oldest sequence it may read. */
  lemma MissOnce<T(!new)>(s0: State<T>, s: State<T>, q: nat, t: nat, i: nat) returns (s': State<T>)
    requires Reached(Just(q), s0, s) && q < |s.threads| && s.threads[q].pc.DeqLoad? && s.threads[q].blocking
    requires s.threads[q].view.d <= t <= Head(s.m) && i == t % s.m.cap
    requires s.threads[q].view.sq[i] < |s.m.sq[i]| && s.m.sq[i][s.threads[q].view.sq[i]].val < 2 * t + 1
    ensures Reached(Just(q), s0, s') && s'.m == s.m && q < |s'.threads|
    ensures s'.threads[q].blocking && Unmoved(s.threads[q].view, s'.threads[q].view, i) && s'.threads[q].view.d == t
    ensures s'.threads[q].pc == if s.threads[q].final then Idle else PopCheck
    ensures s.threads[q].final ==> s'.drained
  {
    SoundSettled(s);
    Reread(s.m, s.threads[q].view, t, i);
    LoadIs(s, q, t);
    ReachedOn(Just(q), s0, s, Action(q, Go(t, false)));
    var s1 := Step(Unbounded, s, Action(q, Go(t, false)));
    var pick := s.threads[q].view.sq[i];
    DeqSeqIs(s1, q, i, pick);
    ReachedOn(Just(q), s0, s1, Action(q, Go(pick, false)));
    s' := Step(Unbounded, s1, Action(q, Go(pick, false)));
  }

  lemma PopCheckIs<T>(s: State<T>, q: nat, k: nat)
    requires Shape(s) && q < |s.threads| && s.threads[q].pc.PopCheck?
    requires Readable(s.threads[q].view.c, k, |s.m.closed|) && s.m.closed[k].val
    ensures var s' := Step(Unbounded, s, Action(q, Go(k, false)));
      && s'.m == s.m && |s'.threads| == |s.threads| && s'.threads[q].pc.DeqLoad?
      && s'.threads[q].blocking == s.threads[q].blocking && s'.threads[q].final
      && s'.threads[q].view == Join(s.threads[q].view.(c := k), s.m.closed[k].view)
  {
  }

  /** !Knows passes from a view to every view below it. */
  lemma OlderIsBlind<T>(m: Mem<T>, i: nat, j: nat, k: nat, bound: nat)
    requires MemShape(m) && i < m.cap && History(m, i) && j <= k < |m.sq[i]| && m.sq[i][k].val < bound
    ensures m.sq[i][j].val < bound
  {
  }

  lemma MissTwice<T(!new)>(s: State<T>, q: nat, k: nat, t: nat) returns (s': State<T>)
    requires Sound(s) && Shape(s) && q < |s.threads| && s.threads[q].pc.Idle?
    requires CanMiss(s.m, s.threads[q].view, k, t)
    ensures GivesUp(s, q, s')
  {
    var v, closing, i := s.threads[q].view, s.m.closed[k].view, t % s.m.cap;
    BlindParts(s, q, k, t);
    ReachedStart(Just(q), s);
    CallIs(s, q, Pop);
    ReachedOn(Just(q), s, s, Action(q, Call(Pop)));
    var s1 := Step(Unbounded, s, Action(q, Call(Pop)));
    var s2 := MissOnce(s, s1, q, t, i);
    PopCheckIs(s2, q, k);
    ReachedOn(Just(q), s, s2, Action(q, Go(k, false)));
    var s3 := Step(Unbounded, s2, Action(q, Go(k, false)));
    s' := MissOnce(s, s3, q, t, i);
  }

  lemma BlindParts<T(!new)>(s: State<T>, q: nat, k: nat, t: nat)
    requires Sound(s) && q < |s.threads| && CanMiss(s.m, s.threads[q].view, k, t)
    ensures var i, v, u := t % s.m.cap, s.threads[q].view, s.m.closed[k].view;
      && |v.sq| == |u.sq| == s.m.cap && v.sq[i] < |s.m.sq[i]| && u.sq[i] < |s.m.sq[i]|
      && s.m.sq[i][v.sq[i]].val < 2 * t + 1 && s.m.sq[i][u.sq[i]].val < 2 * t + 1
      && v.d <= t && u.d <= t
  {
    SoundInv(s);
    var i, v, u := t % s.m.cap, s.threads[q].view, s.m.closed[k].view;
    assert ThreadOk(s.m, q, s.threads[q]) && ViewOk(s.m, u) && History(s.m, i);
    OlderIsBlind(s.m, i, v.sq[i], Join(v, u).sq[i], 2 * t + 1);
    OlderIsBlind(s.m, i, u.sq[i], Join(v, u).sq[i], 2 * t + 1);
  }

  // ------------------------------------------------------------------ and only then

  predicate LeqView(a: View, b: View) { a.c <= b.c && a.d <= b.d && LeqSq(a, b) }

  /** The thread has acted on close message k since it had view v0. */
  predicate Seen<T>(m: Mem<T>, v0: View, v: View, k: nat) {
    v0.c <= k < |m.closed| && m.closed[k].val && |m.closed[k].view.sq| == |v.sq|
    && Join(v0, m.closed[k].view).d <= v.d && LeqSq(Join(v0, m.closed[k].view), v)
  }

  predicate InDeq(pc: Pc) { pc.DeqLoad? || pc.DeqSeq? || pc.DeqCas? }

  /** A thread that had view v0 and has taken no ticket since: the position it works
      with is the newest it knows, and its final attempt follows a close it has seen. */
  ghost predicate Trail<T>(m: Mem<T>, v0: View, th: Thread<T>) {
    && LeqView(v0, th.view) && !Holding(th.pc)
    && (th.pc.DeqSeq? ==> th.ticket == th.view.d)
    && (InDeq(th.pc) && th.final ==> exists k :: Seen(m, v0, th.view, k))
  }

  lemma SeenOn<T>(m: Mem<T>, v0: View, v: View, v': View)
    requires LeqView(v, v')
    ensures forall k :: Seen(m, v0, v, k) ==> Seen(m, v0, v', k)
  {
  }

  lemma TrailOn<T>(m: Mem<T>, v0: View, th: Thread<T>, th': Thread<T>)
    requires Trail(m, v0, th) && LeqView(th.view, th'.view) && !Holding(th'.pc)
    requires th'.pc.DeqSeq? ==> th'.ticket == th'.view.d
    requires InDeq(th'.pc) && th'.final ==> InDeq(th.pc) && th.final
    ensures Trail(m, v0, th')
  {
    SeenOn(m, v0, th.view, th'.view);
  }

  lemma TrailCheck<T>(s: State<T>, p: nat, pick: nat, v0: View)
    requires Inv(s) && p < |s.threads| && Trail(s.m, v0, s.threads[p]) && s.threads[p].pc.PopCheck?
    ensures Trail(s.m, v0, LoadClosedAcquire(s, p, pick).threads[p])
  {
    var th, th' := s.threads[p], LoadClosedAcquire(s, p, pick).threads[p];
    if Readable(th.view.c, pick, |s.m.closed|) {
      assert ViewOk(s.m, s.m.closed[pick].view) && ThreadOk(s.m, p, th);
      if s.m.closed[pick].val { assert Seen(s.m, v0, th'.view, pick); }
    }
  }

  lemma TrailLoad<T>(s: State<T>, p: nat, pick: nat, v0: View)
    requires Shape(s) && Counters(s.m) && p < |s.threads| && Trail(s.m, v0, s.threads[p])
    ensures s.threads[p].pc.PushCheck? ==> Trail(s.m, v0, LoadClosedRelaxed(s, p, pick).threads[p])
    ensures s.threads[p].pc.EnqLoad? ==> Trail(s.m, v0, LoadEnqPos(s, p, pick).threads[p])
    ensures s.threads[p].pc.DeqLoad? ==> Trail(s.m, v0, LoadDeqPos(s, p, pick).threads[p])
  {
    var th := s.threads[p];
    if th.pc.PushCheck? { TrailOn(s.m, v0, th, LoadClosedRelaxed(s, p, pick).threads[p]); }
    if th.pc.EnqLoad? { TrailOn(s.m, v0, th, LoadEnqPos(s, p, pick).threads[p]); }
    if th.pc.DeqLoad? { TrailOn(s.m, v0, th, LoadDeqPos(s, p, pick).threads[p]); }
  }

  lemma AcquireGrows<T>(m: Mem<T>, v: View, i: nat, pick: nat)
    requires MemShape(m) && ViewShape(m.cap, v) && i < m.cap && Readable(v.sq[i], pick, |m.sq[i]|)
    requires ViewShape(m.cap, m.sq[i][pick].view)
    ensures LeqView(v, Acquire(m, v, i, pick))
  {
  }

  lemma SeqLocals<T>(s: State<T>, p: nat, pick: nat)
    requires Shape(s) && p < |s.threads|
    ensures var th, th' := s.threads[p], LoadSeqEnq(Unbounded, s, p, pick).threads[p];
      th.pc.EnqSeq? ==> th' == th || (!Holding(th'.pc) && !InDeq(th'.pc))
    ensures var th, th' := s.threads[p], LoadSeqDeq(Unbounded, s, p, pick).threads[p];
      th.pc.DeqSeq? ==> th' == th || (!Holding(th'.pc) && !th'.pc.DeqSeq? && th'.final == th.final)
  {
  }

  lemma TrailSeq<T>(s: State<T>, p: nat, pick: nat, v0: View)
    requires Inv(s) && p < |s.threads| && Trail(s.m, v0, s.threads[p])
    ensures s.threads[p].pc.EnqSeq? ==> Trail(s.m, v0, LoadSeqEnq(Unbounded, s, p, pick).threads[p])
    ensures s.threads[p].pc.DeqSeq? ==> Trail(s.m, v0, LoadSeqDeq(Unbounded, s, p, pick).threads[p])
  {
    var th, i := s.threads[p], s.threads[p].ticket % s.m.cap;
    SeqView(s, p, pick, i);
    SeqLocals(s, p, pick);
    if Readable(th.view.sq[i], pick, |s.m.sq[i]|) {
      assert History(s.m, i);
      AcquireGrows(s.m, th.view, i, pick);
    }
    if th.pc.EnqSeq? { TrailOn(s.m, v0, th, LoadSeqEnq(Unbounded, s, p, pick).threads[p]); }
    if th.pc.DeqSeq? { TrailOn(s.m, v0, th, LoadSeqDeq(Unbounded, s, p, pick).threads[p]); }
  }

  /** A ticket was won or the queue closed since memory was m. */
  predicate Advanced<T>(m: Mem<T>, m': Mem<T>) {
    |m'.enq| > |m.enq| || |m'.deq| > |m.deq| || |m'.closed| > |m.closed|
  }

  lemma TrailCas<T>(s: State<T>, p: nat, pick: nat, weak: bool, v0: View)
    requires Shape(s) && Counters(s.m) && p < |s.threads| && Trail(s.m, v0, s.threads[p])
    ensures s.threads[p].pc.EnqCas? ==> var s' := CasEnq(Unbounded, s, p, pick, weak);
      Advanced(s.m, s'.m) || (s'.m == s.m && Trail(s.m, v0, s'.threads[p]))
    ensures s.threads[p].pc.DeqCas? ==> var s' := CasDeq(Unbounded, s, p, pick, weak);
      Advanced(s.m, s'.m) || (s'.m == s.m && Trail(s.m, v0, s'.threads[p]))
  {
    var th, e, d := s.threads[p], CasEnq(Unbounded, s, p, pick, weak), CasDeq(Unbounded, s, p, pick, weak);
    if th.pc.EnqCas? && !Advanced(s.m, e.m) { TrailOn(s.m, v0, th, e.threads[p]); }
    if th.pc.DeqCas? && !Advanced(s.m, d.m) && d != s { TrailOn(s.m, v0, th, d.threads[p]); }
  }

  lemma TrailCall<T>(s: State<T>, p: nat, op: Op<T>, v0: View)
    requires Inv(s) && p < |s.threads| && Trail(s.m, v0, s.threads[p]) && s.threads[p].pc.Idle?
    ensures var s' := StartCall(s, p, op);
      Advanced(s.m, s'.m) || (s'.m == s.m && s'.drained == s.drained && Trail(s.m, v0, s'.threads[p]))
  {
    var s' := StartCall(s, p, op);
    CallView(s, p, op);
    if !op.Close? { TrailOn(s.m, v0, s.threads[p], s'.threads[p]); }
  }

  lemma TrailGo<T>(s: State<T>, p: nat, pick: nat, weak: bool, v0: View)
    requires Inv(s) && p < |s.threads| && Trail(s.m, v0, s.threads[p])
    ensures var s' := Perform(Unbounded, s, p, pick, weak);
      Advanced(s.m, s'.m) || (s'.m == s.m && p < |s'.threads| && Trail(s.m, v0, s'.threads[p]))
  {
    var pc := s.threads[p].pc;
    if pc.EnqCas? || pc.DeqCas? {
      TrailCas(s, p, pick, weak, v0);
    } else if Loading(pc) {
      LoadKeeps(Unbounded, s, p, pick, weak);
      if pc.PopCheck? {
        TrailCheck(s, p, pick, v0);
      } else if pc.EnqSeq? || pc.DeqSeq? {
        TrailSeq(s, p, pick, v0);
      } else {
        TrailLoad(s, p, pick, v0);
      }
    }
  }

  lemma SeenIsBlind<T>(m: Mem<T>, v0: View, v: View, k: nat, i: nat, pick: nat)
    requires MemInv(m) && ViewOk(m, v0) && ViewOk(m, v) && Seen(m, v0, v, k) && i == v.d % m.cap
    requires Readable(v.sq[i], pick, |m.sq[i]|) && m.sq[i][pick].val < 2 * v.d + 1
    ensures CanMiss(m, v0, k, v.d)
  {
    var closing := m.closed[k].view;
    assert ViewOk(m, closing) && History(m, i);
    JoinOk(m, v0, closing);
    OlderIsBlind(m, i, Join(v0, closing).sq[i], pick, 2 * v.d + 1);
  }

  lemma DrainsBlind<T>(s: State<T>, a: Action<T>, v0: View)
    requires Inv(s) && !s.drained && Step(Unbounded, s, a).drained && ViewOk(s.m, v0)
    requires a.tid < |s.threads| ==> Trail(s.m, v0, s.threads[a.tid])
    ensures exists k: nat, t: nat :: CanMiss(s.m, v0, k, t)
  {
    DrainedBy(s, a);
    var th := s.threads[a.tid];
    assert ThreadOk(s.m, a.tid, th);
    var k :| Seen(s.m, v0, th.view, k);
    SeenIsBlind(s.m, v0, th.view, k, th.ticket % s.m.cap, a.cmd.pick);
  }

  /** Where q's own actions may lead from a state with memory m in which q had view v0. */
  ghost predicate OnTrail<T>(m: Mem<T>, v0: View, q: nat, z: State<T>) {
    Advanced(m, z.m) ||
    (z.m == m && q < |z.threads| && Trail(m, v0, z.threads[q])
     && (z.drained ==> exists k: nat, t: nat :: CanMiss(m, v0, k, t)))
  }

  lemma OnTrailStep<T>(m: Mem<T>, v0: View, q: nat, z: State<T>, a: Action<T>)
    requires Inv(z) && OnTrail(m, v0, q, z) && a.tid == q && MemShape(m) && ViewOk(m, v0)
    ensures OnTrail(m, v0, q, Step(Unbounded, z, a))
  {
    var z' := Step(Unbounded, z, a);
    StepGrows(Unbounded, z, a);
    if !Advanced(m, z.m) {
      if !z.drained && z'.drained { DrainsBlind(z, a, v0); }
      match a.cmd {
        case Call(op) => if z.threads[q].pc.Idle? { TrailCall(z, q, op, v0); }
        case Go(pick, weak) => TrailGo(z, q, pick, weak, v0);
      }
    }
  }

  lemma {:induction false} OnTrailRun<T>(s: State<T>, q: nat, acts: seq<Action<T>>)
    requires Inv(s) && q < |s.threads| && s.threads[q].pc.Idle? && !s.drained && Only(Just(q), acts)
    ensures OnTrail(s.m, s.threads[q].view, q, Run(Unbounded, s, acts))
    decreases |acts|
  {
    assert ThreadOk(s.m, q, s.threads[q]);
    if acts != [] {
      var prior := acts[..|acts| - 1];
      OnTrailRun(s, q, prior);
      RunInv(Unbounded, s, prior);
      OnTrailStep(s.m, s.threads[q].view, q, Run(Unbounded, s, prior), acts[|acts| - 1]);
    }
  }

  /** The exact condition. In a reachable state where no pop() has returned false yet, an
      idle consumer acting alone can have its pop() return false and leave the queue as
      it is, if and only if its view and some close message it may still read leave it
      blind at a position it may still load. With an item queued, that is a loss. */
  lemma MissesExactly<T(!new)>(s: State<T>, q: nat)
    requires Sound(s) && Shape(s) && q < |s.threads| && s.threads[q].pc.Idle? && !s.drained
    ensures (exists s' :: GivesUp(s, q, s'))
       <==> (exists k: nat, t: nat :: CanMiss(s.m, s.threads[q].view, k, t))
  {
    if k: nat, t: nat :| CanMiss(s.m, s.threads[q].view, k, t) {
      var s' := MissTwice(s, q, k, t);
    }
    if s' :| GivesUp(s, q, s') {
      SoundInv(s);
      var acts: seq<Action<T>> :| Only(Just(q), acts) && s' == Run(Unbounded, s, acts);
      OnTrailRun(s, q, acts);
    }
  }

  /** Under the documented discipline the condition fails while anything is queued. */
  lemma CoveredNeverMisses<T>(m: Mem<T>, v: View, k: nat, t: nat)
    requires MemInv(m) && Head(m) < Tail(m) && k < |m.closed| && Covers(m, m.closed[k].view)
    requires ViewOk(m, v)
    ensures !CanMiss(m, v, k, t)
  {
    if t <= Head(m) {
      JoinOk(m, v, m.closed[k].view);
      assert Knows(m, m.closed[k].view, t);
      assert History(m, t % m.cap);
    }
  }

  // ----------------------------------------------------------------- a run that loses

  lemma ReachedGrows<T(!new)>(who: Who, s0: State<T>, s: State<T>)
    requires Reached(who, s0, s)
    ensures Grows(s0.m, s.m)
  {
    var acts: seq<Action<T>> :| Only(who, acts) && s == Run(Unbounded, s0, acts);
    RunGrows(Unbounded, s0, acts);
  }

  lemma CloseIs<T>(s: State<T>, p: nat)
    requires Shape(s) && p < |s.threads| && s.threads[p].pc.Idle?
    ensures var s', view := Step(Unbounded, s, Action(p, Call(Close))), s.threads[p].view.(c := |s.m.closed|);
      && s'.m == s.m.(closed := s.m.closed + [ClosedMsg(true, view)]) && Moved(s, p, s')
  {
  }

  lemma InitSlots<T>(n: nat, threads: nat, blank: T)
    requires n > 0
    ensures var m := Init(n, threads, blank).m; m.sq[0] == [SeqMsg(0, ZeroView(n))] && Tail(m) % n == 0 == Head(m) % n
  {
  }

  /** At every capacity and with any three threads or more: one thread pushes, another
      closes without having synchronised with it, and a third may give up on the item. */
  lemma UnsyncedCloseLoses<T(!new)>(n: nat, threads: nat, blank: T, x: T) returns (s: State<T>)
    requires n > 0 && threads >= 3
    ensures Sound(s) && Shape(s) && !s.drained && |s.threads| == threads
    ensures s.threads[2].pc.Idle? && Head(s.m) == 0 < Tail(s.m) && s.m.enq[0].item == x
    ensures CanMiss(s.m, s.threads[2].view, 1, 0)
  {
    var s0, who := Init(n, threads, blank), AllBut(threads);
    SoundStart(n, threads, blank);
    ReachedStart(who, s0);
    InitSlots(n, threads, blank);
    var s1 := PushSolo(who, s0, s0, 0, x, 0);
    ReachedGrows(who, s0, s1);
    CloseIs(s1, 1);
    ReachedOn(who, s0, s1, Action(1, Call(Close)));
    s := Step(Unbounded, s1, Action(1, Call(Close)));
    SoundInv(s);
    assert ThreadOk(s.m, 2, s.threads[2]) && ViewOk(s.m, s.m.closed[1].view);
    JoinOk(s.m, s.threads[2].view, s.m.closed[1].view);
  }
}
