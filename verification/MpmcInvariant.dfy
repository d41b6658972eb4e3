/** The inductive invariant of MpmcQueue's ticket/sequence protocol. */
module MpmcInvariant {
  import opened Common
  import opened Words
  import opened MpmcModel

  // -------------------------------------------------------------- the invariant

  /** Enqueue tickets issued, dequeue tickets issued, newest sequence of a slot. */
  function Tail<T>(m: Mem<T>): nat { |m.enq| }
  function Head<T>(m: Mem<T>): nat { |m.deq| }

  function Top<T>(m: Mem<T>, i: nat): nat
    requires MemShape(m) && i < m.cap
  {
    Last(m.sq[i]).val
  }

  /** No counter has wrapped: doubled tickets still fit the word. */
  predicate Fits<T>(w: Word, m: Mem<T>) {
    w.Word64? ==> 2 * (Tail(m) + m.cap) <= W64
  }

  /** A view knows only what exists, and whoever knows a slot's m-th sequence
      message knows the m value accesses that precede it. */
  ghost predicate ViewOk<T>(m: Mem<T>, v: View)
    requires MemShape(m)
  {
    && v.e < |m.epos| && v.d < |m.dpos| && v.c < |m.closed|
    && ViewShape(m.cap, v)
    && forall i :: 0 <= i < m.cap ==> v.sq[i] < |m.sq[i]| && v.sq[i] <= v.acc[i] <= m.acc[i]
  }

  /** Tickets are handed out one by one and the ring is never over-claimed. */
  ghost predicate Counters<T>(m: Mem<T>)
    requires MemShape(m)
  {
    && |m.epos| == Tail(m) + 1 && |m.dpos| == Head(m) + 1
    && (forall k :: 0 <= k < |m.epos| ==> m.epos[k] == k)
    && (forall k :: 0 <= k < |m.dpos| ==> m.dpos[k] == k)
    && Head(m) <= Tail(m) <= Head(m) + m.cap
    && !m.raced
  }

  /** A slot's sequence only grows, always encodes a ticket of that slot, and every
      message carries a view that knows the message itself. */
  ghost predicate History<T>(m: Mem<T>, i: nat)
    requires MemShape(m) && i < m.cap
  {
    && (forall j, k :: 0 <= j < k < |m.sq[i]| ==> m.sq[i][j].val < m.sq[i][k].val)
    && (forall k :: 0 <= k < |m.sq[i]| ==> (m.sq[i][k].val / 2) % m.cap == i)
    && (forall k :: 0 <= k < |m.sq[i]| ==> ViewOk(m, m.sq[i][k].view) && m.sq[i][k].view.sq[i] == k)
  }

  ghost predicate MemInv<T>(m: Mem<T>) {
    && MemShape(m)
    && Counters(m)
    && (forall k :: 0 <= k < |m.closed| ==> ViewOk(m, m.closed[k].view))
    && (forall i :: 0 <= i < m.cap ==> History(m, i))
  }

  predicate Producing(pc: Pc) { pc.EnqWrite? || pc.EnqPublish? }
  predicate Consuming(pc: Pc) { pc.DeqRead? || pc.DeqRelease? }

  /** Thread p is between winning enqueue (dequeue) ticket t and its release store. */
  predicate HoldsEnq<T>(threads: seq<Thread<T>>, p: nat, t: nat) {
    p < |threads| && Producing(threads[p].pc) && threads[p].ticket == t
  }

  predicate HoldsDeq<T>(threads: seq<Thread<T>>, p: nat, t: nat) {
    p < |threads| && Consuming(threads[p].pc) && threads[p].ticket == t
  }

  /** Slot i, whose newest sequence is 2t or 2t + 1. */
  ghost predicate SlotOk<T>(m: Mem<T>, threads: seq<Thread<T>>, i: nat)
    requires MemShape(m) && i < m.cap
  {
    var t := Top(m, i) / 2;
    var known := |m.sq[i]| - 1;
    && Tail(m) <= t + m.cap && t < Head(m) + m.cap
    && if Top(m, i) % 2 == 0 then
         && Head(m) <= t
         && (Tail(m) <= t ==> m.acc[i] == known)
         && (t < Tail(m) ==> HoldsEnq(threads, m.enq[t].tid, t))
       else
         && t < Tail(m)
         && m.value[i] == m.enq[t].item
         && (Head(m) <= t ==> m.acc[i] == known)
         && (t < Head(m) ==> HoldsDeq(threads, m.deq[t].tid, t))
  }

  /** What holding a ticket entitles a thread to: the slot is in the state it read,
      nobody else touches it, and every earlier access happens-before. */
  ghost predicate EnqHolder<T>(m: Mem<T>, p: nat, th: Thread<T>)
    requires MemShape(m) && ViewOk(m, th.view)
  {
    var i := th.ticket % m.cap;
    && th.ticket < Tail(m)
    && m.enq[th.ticket] == Claim(p, th.item)
    && Top(m, i) == 2 * th.ticket
    && th.view.sq[i] == |m.sq[i]| - 1
    && th.view.acc[i] == m.acc[i] == |m.sq[i]| - 1 + (if th.pc.EnqPublish? then 1 else 0)
    && (th.pc.EnqPublish? ==> m.value[i] == th.item)
  }

  ghost predicate DeqHolder<T>(m: Mem<T>, p: nat, th: Thread<T>)
    requires MemShape(m) && ViewOk(m, th.view)
  {
    var i := th.ticket % m.cap;
    && th.ticket < Head(m)
    && m.deq[th.ticket] == Take(p, if th.pc.DeqRead? then None else Some(th.item))
    && Top(m, i) == 2 * th.ticket + 1
    && th.view.sq[i] == |m.sq[i]| - 1
    && th.view.acc[i] == m.acc[i] == |m.sq[i]| - 1 + (if th.pc.DeqRelease? then 1 else 0)
  }

  ghost predicate ThreadOk<T>(m: Mem<T>, p: nat, th: Thread<T>)
    requires MemShape(m)
  {
    var i := th.ticket % m.cap;
    && ViewOk(m, th.view)
    && (th.pc.EnqSeq? || th.pc.EnqCas? ==> th.ticket <= Tail(m))
    && (th.pc.DeqSeq? || th.pc.DeqCas? ==> th.ticket <= Head(m))
    && (th.pc.EnqCas? ==> m.sq[i][th.view.sq[i]].val == 2 * th.ticket)
    && (th.pc.DeqCas? ==> m.sq[i][th.view.sq[i]].val == 2 * th.ticket + 1)
    && (Producing(th.pc) ==> EnqHolder(m, p, th))
    && (Consuming(th.pc) ==> DeqHolder(m, p, th))
  }

  predicate Reading<T>(threads: seq<Thread<T>>, p: nat, t: nat) {
    p < |threads| && threads[p].pc.DeqRead? && threads[p].ticket == t
  }

  /** Dequeue ticket t delivers the item of enqueue ticket t, or its winner has yet
      to read it. */
  ghost predicate Delivers<T>(m: Mem<T>, threads: seq<Thread<T>>, t: nat)
    requires t < |m.deq|
  {
    && t < Tail(m)
    && (m.deq[t].got == Some(m.enq[t].item)
        || (m.deq[t].got == None && Reading(threads, m.deq[t].tid, t)))
  }

  ghost predicate Slots<T>(m: Mem<T>, threads: seq<Thread<T>>)
    requires MemShape(m)
  {
    forall i :: 0 <= i < m.cap ==> SlotOk(m, threads, i)
  }

  ghost predicate Threads<T>(m: Mem<T>, threads: seq<Thread<T>>)
    requires MemShape(m)
  {
    forall p :: 0 <= p < |threads| ==> ThreadOk(m, p, threads[p])
  }

  ghost predicate Deliveries<T>(m: Mem<T>, threads: seq<Thread<T>>) {
    forall t :: 0 <= t < |m.deq| ==> Delivers(m, threads, t)
  }

  ghost predicate Inv<T>(s: State<T>) {
    MemInv(s.m) && Slots(s.m, s.threads) && Threads(s.m, s.threads) && Deliveries(s.m, s.threads)
  }

  lemma InitView<T>(n: nat, threads: nat, blank: T)
    requires n > 0
    ensures ViewOk(Init(n, threads, blank).m, ZeroView(n))
  {
  }

  lemma InitSlot<T>(n: nat, threads: nat, blank: T, i: nat)
    requires i < n
    ensures var s := Init(n, threads, blank); History(s.m, i) && SlotOk(s.m, s.threads, i)
  {
    var s := Init(n, threads, blank);
    InitView(n, threads, blank);
    assert s.m.sq[i] == [SeqMsg(2 * i, ZeroView(n))];
    DivModUnique(i, 0, i, n);
  }

  lemma InitThread<T>(n: nat, threads: nat, blank: T, p: nat)
    requires n > 0 && p < threads
    ensures var s := Init(n, threads, blank); ThreadOk(s.m, p, s.threads[p])
  {
    InitView(n, threads, blank);
  }

  lemma InitInv<T>(n: nat, threads: nat, blank: T)
    requires n > 0
    ensures Inv(Init(n, threads, blank))
  {
    var s := Init(n, threads, blank);
    InitView(n, threads, blank);
    forall i | 0 <= i < n ensures History(s.m, i) && SlotOk(s.m, s.threads, i) {
      InitSlot(n, threads, blank, i);
    }
    forall p | 0 <= p < threads ensures ThreadOk(s.m, p, s.threads[p]) {
      InitThread(n, threads, blank, p);
    }
  }

  // --------------------------------------------------------------------- frames

  /** Locations only gain messages, slots only gain accesses, tickets are kept. */
  ghost predicate Grows<T>(m: Mem<T>, m': Mem<T>)
    requires MemShape(m) && MemShape(m')
  {
    && m'.cap == m.cap
    && |m.epos| <= |m'.epos| && |m.dpos| <= |m'.dpos| && |m.closed| <= |m'.closed|
    && m.enq <= m'.enq && |m.deq| <= |m'.deq|
    && (forall i :: 0 <= i < m.cap ==> m.sq[i] <= m'.sq[i] && m.acc[i] <= m'.acc[i])
  }

  lemma ViewFrame<T>(m: Mem<T>, m': Mem<T>, v: View)
    requires MemShape(m) && MemShape(m') && Grows(m, m') && ViewOk(m, v)
    ensures ViewOk(m', v)
  {
  }

  lemma ViewsFrame<T>(m: Mem<T>, m': Mem<T>)
    requires MemShape(m) && MemShape(m') && Grows(m, m')
    ensures forall v :: ViewOk(m, v) ==> ViewOk(m', v)
  {
    forall v | ViewOk(m, v) ensures ViewOk(m', v) { ViewFrame(m, m', v); }
  }

  lemma JoinOk<T>(m: Mem<T>, a: View, b: View)
    requires MemShape(m) && ViewOk(m, a) && ViewOk(m, b)
    ensures ViewOk(m, Join(a, b))
  {
  }

  /** A thread whose slot is left alone stays in order. */
  lemma ThreadFrame<T>(m: Mem<T>, m': Mem<T>, p: nat, th: Thread<T>)
    requires MemShape(m) && MemShape(m') && Grows(m, m') && ThreadOk(m, p, th)
    requires var i := th.ticket % m.cap;
      Producing(th.pc) || Consuming(th.pc) ==>
        m'.sq[i] == m.sq[i] && m'.acc[i] == m.acc[i] && m'.value[i] == m.value[i]
    requires Consuming(th.pc) ==> m'.deq[th.ticket] == m.deq[th.ticket]
    ensures ThreadOk(m', p, th)
  {
    ViewFrame(m, m', th.view);
  }

  /** Slot j is left alone, and so is every thread that could hold it. */
  lemma SlotFrame<T>(m: Mem<T>, threads: seq<Thread<T>>, m': Mem<T>, p: nat, th: Thread<T>, j: nat)
    requires MemShape(m) && MemShape(m') && m'.cap == m.cap && j < m.cap && p < |threads|
    requires SlotOk(m, threads, j) && History(m, j)
    requires m'.sq[j] == m.sq[j] && m'.acc[j] == m.acc[j] && m'.value[j] == m.value[j]
    requires m'.enq == m.enq && |m'.deq| == |m.deq|
    requires forall t :: 0 <= t < |m.deq| ==> m'.deq[t].tid == m.deq[t].tid
    requires Holding(threads[p].pc) ==> threads[p].ticket % m.cap != j
    ensures SlotOk(m', threads[p := th], j)
  {
    assert (Top(m, j) / 2) % m.cap == j;
  }

  lemma DeliveriesFrame<T>(m: Mem<T>, threads: seq<Thread<T>>, m': Mem<T>, p: nat, th: Thread<T>)
    requires Deliveries(m, threads) && p < |threads|
    requires m.enq <= m'.enq && m'.deq == m.deq
    requires !threads[p].pc.DeqRead?
    ensures Deliveries(m', threads[p := th])
  {
    var threads' := threads[p := th];
    forall t | 0 <= t < |m.deq| ensures Delivers(m', threads', t) {
      assert Delivers(m, threads, t);
    }
  }

  lemma HistoriesFrame<T>(m: Mem<T>, m': Mem<T>)
    requires MemInv(m) && MemShape(m') && Grows(m, m') && m'.sq == m.sq
    requires Counters(m') && (forall k :: 0 <= k < |m'.closed| ==> ViewOk(m', m'.closed[k].view))
    ensures MemInv(m')
  {
    ViewsFrame(m, m');
    forall j | 0 <= j < m.cap ensures History(m', j) { assert History(m, j); }
  }

  predicate Holding(pc: Pc) { Producing(pc) || Consuming(pc) }

  /** A step that changes only thread p, which holds no slot before or after. */
  lemma LocalStep<T>(s: State<T>, p: nat, th: Thread<T>, d: bool)
    requires Inv(s) && p < |s.threads|
    requires !Holding(s.threads[p].pc)
    requires ThreadOk(s.m, p, th)
    ensures Inv(State(s.m, s.threads[p := th], d))
  {
    var threads := s.threads[p := th];
    forall i | 0 <= i < s.m.cap ensures SlotOk(s.m, threads, i) {
      SlotFrame(s.m, s.threads, s.m, p, th, i);
    }
    DeliveriesFrame(s.m, s.threads, s.m, p, th);
  }

  // ----------------------------------------------------------- loads and calls

  lemma AcquireOk<T>(m: Mem<T>, v: View, i: nat, pick: nat)
    requires MemInv(m) && ViewOk(m, v) && i < m.cap && Readable(v.sq[i], pick, |m.sq[i]|)
    ensures ViewOk(m, Acquire(m, v, i, pick))
    ensures Acquire(m, v, i, pick).sq[i] == pick
  {
    assert History(m, i);
    var msg := m.sq[i][pick];
    assert ViewOk(m, msg.view) && msg.view.sq[i] == pick;
    assert pick <= msg.view.acc[i];
  }

  /** Sequences and expectations stay below the wrap-around point. */
  lemma TopBound<T>(s: State<T>, i: nat, k: nat)
    requires Inv(s) && i < s.m.cap && k < |s.m.sq[i]|
    ensures s.m.sq[i][k].val <= Top(s.m, i) < 2 * (Head(s.m) + s.m.cap)
  {
    assert History(s.m, i) && SlotOk(s.m, s.threads, i);
  }

  lemma ClassifyOurs(w: Word, sequence: nat, expected: nat)
    requires w.Word64? ==> sequence < W64 && expected < W64
    ensures Classify(w, sequence, Wrap(w, expected)).Ours? <==> sequence == expected
  {
    if w.Word64? { SignedDifFaithful(w, sequence, expected); }
  }

  lemma JudgeEnqOk<T>(w: Word, m: Mem<T>, p: nat, th: Thread<T>, pick: nat)
    requires MemInv(m) && ThreadOk(m, p, th) && th.pc.EnqSeq?
    requires var i := th.ticket % m.cap;
      && Readable(th.view.sq[i], pick, |m.sq[i]|)
      && (w.Word64? ==> m.sq[i][pick].val < W64 && 2 * th.ticket < W64)
    ensures ThreadOk(m, p, JudgeEnq(w, m, th, th.ticket % m.cap, pick))
  {
    var i := th.ticket % m.cap;
    AcquireOk(m, th.view, i, pick);
    ClassifyOurs(w, m.sq[i][pick].val, 2 * th.ticket);
  }

  lemma JudgeDeqOk<T>(w: Word, m: Mem<T>, p: nat, th: Thread<T>, pick: nat)
    requires MemInv(m) && ThreadOk(m, p, th) && th.pc.DeqSeq?
    requires var i := th.ticket % m.cap;
      && Readable(th.view.sq[i], pick, |m.sq[i]|)
      && (w.Word64? ==> m.sq[i][pick].val < W64 && 2 * th.ticket + 1 < W64)
    ensures ThreadOk(m, p, JudgeDeq(w, m, th, th.ticket % m.cap, pick))
  {
    var i := th.ticket % m.cap;
    AcquireOk(m, th.view, i, pick);
    ClassifyOurs(w, m.sq[i][pick].val, 2 * th.ticket + 1);
  }

  lemma LoadSeqInv<T>(w: Word, s: State<T>, p: nat, pick: nat)
    requires Inv(s) && Fits(w, s.m) && p < |s.threads|
    ensures s.threads[p].pc.EnqSeq? ==> Inv(LoadSeqEnq(w, s, p, pick))
    ensures s.threads[p].pc.DeqSeq? ==> Inv(LoadSeqDeq(w, s, p, pick))
  {
    var th := s.threads[p];
    SlotIndexIsMod(w, s.m.cap, th.ticket);
    var i := th.ticket % s.m.cap;
    assert ThreadOk(s.m, p, th);
    if Readable(th.view.sq[i], pick, |s.m.sq[i]|) {
      TopBound(s, i, pick);
      if th.pc.EnqSeq? {
        JudgeEnqOk(w, s.m, p, th, pick);
        LocalStep(s, p, JudgeEnq(w, s.m, th, i, pick), s.drained);
      }
      if th.pc.DeqSeq? {
        JudgeDeqOk(w, s.m, p, th, pick);
        LocalStep(s, p, JudgeDeq(w, s.m, th, i, pick), LoadSeqDeq(w, s, p, pick).drained);
      }
    }
  }

  lemma LoadPosInv<T>(w: Word, s: State<T>, p: nat, pick: nat)
    requires Inv(s) && p < |s.threads|
    ensures s.threads[p].pc.EnqLoad? ==> Inv(LoadEnqPos(s, p, pick))
    ensures s.threads[p].pc.DeqLoad? ==> Inv(LoadDeqPos(s, p, pick))
  {
    var th := s.threads[p];
    assert ThreadOk(s.m, p, th);
    if th.pc.EnqLoad? && Readable(th.view.e, pick, |s.m.epos|) {
      LocalStep(s, p, LoadEnqPos(s, p, pick).threads[p], s.drained);
    }
    if th.pc.DeqLoad? && Readable(th.view.d, pick, |s.m.dpos|) {
      LocalStep(s, p, LoadDeqPos(s, p, pick).threads[p], s.drained);
    }
  }

  lemma LoadClosedInv<T>(s: State<T>, p: nat, pick: nat)
    requires Inv(s) && p < |s.threads|
    ensures s.threads[p].pc.PushCheck? ==> Inv(LoadClosedRelaxed(s, p, pick))
    ensures s.threads[p].pc.PopCheck? ==> Inv(LoadClosedAcquire(s, p, pick))
  {
    var th := s.threads[p];
    assert ThreadOk(s.m, p, th);
    if Readable(th.view.c, pick, |s.m.closed|) {
      if th.pc.PushCheck? {
        LocalStep(s, p, LoadClosedRelaxed(s, p, pick).threads[p], s.drained);
      }
      if th.pc.PopCheck? {
        JoinOk(s.m, th.view.(c := pick), s.m.closed[pick].view);
        LocalStep(s, p, LoadClosedAcquire(s, p, pick).threads[p], s.drained);
      }
    }
  }

  /** Growth of the closed_ history alone. */
  lemma CloseFrame<T>(s: State<T>, v: View)
    requires Inv(s) && ViewOk(s.m.(closed := s.m.closed + [ClosedMsg(true, v)]), v)
    ensures Inv(s.(m := s.m.(closed := s.m.closed + [ClosedMsg(true, v)])))
  {
    var m, m' := s.m, s.m.(closed := s.m.closed + [ClosedMsg(true, v)]);
    ViewsFrame(m, m');
    HistoriesFrame(m, m');
    forall i | 0 <= i < m.cap ensures SlotOk(m', s.threads, i) {
      assert SlotOk(m, s.threads, i);
    }
    forall q | 0 <= q < |s.threads| ensures ThreadOk(m', q, s.threads[q]) {
      ThreadFrame(m, m', q, s.threads[q]);
    }
    forall t | 0 <= t < |m.deq| ensures Delivers(m', s.threads, t) {
      assert Delivers(m, s.threads, t);
    }
  }

  lemma CloseInv<T>(s: State<T>, p: nat)
    requires Inv(s) && p < |s.threads| && s.threads[p].pc.Idle?
    ensures Inv(StartCall(s, p, Close))
  {
    var th := s.threads[p];
    assert ThreadOk(s.m, p, th);
    var view := th.view.(c := |s.m.closed|);
    CloseFrame(s, view);
    var m' := s.m.(closed := s.m.closed + [ClosedMsg(true, view)]);
    LocalStep(s.(m := m'), p, th.(view := view), s.drained);
  }

  lemma SyncInv<T>(s: State<T>, p: nat, o: nat)
    requires Inv(s) && p < |s.threads| && s.threads[p].pc.Idle?
    ensures Inv(StartCall(s, p, Sync(o)))
  {
    var th := s.threads[p];
    if o < |s.threads| && s.threads[o].pc.Idle? {
      assert ThreadOk(s.m, p, th) && ThreadOk(s.m, o, s.threads[o]);
      JoinOk(s.m, th.view, s.threads[o].view);
      LocalStep(s, p, th.(view := Join(th.view, s.threads[o].view)), s.drained);
    }
  }

  lemma StartCallInv<T>(s: State<T>, p: nat, op: Op<T>)
    requires Inv(s) && p < |s.threads| && s.threads[p].pc.Idle?
    ensures Inv(StartCall(s, p, op))
  {
    assert ThreadOk(s.m, p, s.threads[p]);
    match op {
      case Close => CloseInv(s, p);
      case Sync(o) => SyncInv(s, p, o);
      case _ => LocalStep(s, p, StartCall(s, p, op).threads[p], s.drained);
    }
  }

  // -------------------------------------------------------------- winning a ticket

  /** A producer whose compare-exchange succeeds finds its slot exactly as it read
      it, however stale the loads before were: free, unclaimed, every earlier
      access ordered before its own. */
  lemma EnqClaimInTurn<T>(s: State<T>, p: nat)
    requires Inv(s) && p < |s.threads| && s.threads[p].pc.EnqCas?
    requires s.threads[p].ticket == Tail(s.m)
    ensures var th, i := s.threads[p], s.threads[p].ticket % s.m.cap;
      && Top(s.m, i) == 2 * th.ticket
      && th.view.sq[i] == |s.m.sq[i]| - 1 == th.view.acc[i] == s.m.acc[i]
  {
    var th := s.threads[p];
    var i, t := th.ticket % s.m.cap, th.ticket;
    assert ThreadOk(s.m, p, th) && History(s.m, i) && SlotOk(s.m, s.threads, i);
    var k := th.view.sq[i];
    var u := Top(s.m, i) / 2;
    if k != |s.m.sq[i]| - 1 {
      assert 2 * t < Top(s.m, i);
      if t < u { CongruentGap(t, u, s.m.cap); }
      assert false;
    }
  }

  lemma DeqClaimInTurn<T>(s: State<T>, p: nat)
    requires Inv(s) && p < |s.threads| && s.threads[p].pc.DeqCas?
    requires s.threads[p].ticket == Head(s.m)
    ensures var th, i := s.threads[p], s.threads[p].ticket % s.m.cap;
      && Top(s.m, i) == 2 * th.ticket + 1
      && th.view.sq[i] == |s.m.sq[i]| - 1 == th.view.acc[i] == s.m.acc[i]
      && th.ticket < Tail(s.m)
  {
    var th := s.threads[p];
    var i, t := th.ticket % s.m.cap, th.ticket;
    assert ThreadOk(s.m, p, th) && History(s.m, i) && SlotOk(s.m, s.threads, i);
    var k := th.view.sq[i];
    var u := Top(s.m, i) / 2;
    if k != |s.m.sq[i]| - 1 {
      assert 2 * t + 1 < Top(s.m, i);
      assert t < u;
      CongruentGap(t, u, s.m.cap);
      assert false;
    }
  }

  function WinEnq<T>(m: Mem<T>, p: nat, th: Thread<T>): Mem<T> {
    m.(epos := m.epos + [th.ticket + 1], enq := m.enq + [Claim(p, th.item)])
  }

  lemma WinEnqSlots<T>(s: State<T>, p: nat, th': Thread<T>)
    requires Inv(s) && p < |s.threads| && s.threads[p].pc.EnqCas?
    requires s.threads[p].ticket == Tail(s.m)
    requires th'.pc.EnqWrite? && th'.ticket == s.threads[p].ticket
    ensures Slots(WinEnq(s.m, p, s.threads[p]), s.threads[p := th'])
  {
    var m, th := s.m, s.threads[p];
    var m', threads := WinEnq(m, p, th), s.threads[p := th'];
    var i, t := th.ticket % m.cap, th.ticket;
    EnqClaimInTurn(s, p);
    assert SlotOk(m, s.threads, i);
    forall j | 0 <= j < m.cap ensures SlotOk(m', threads, j) {
      assert SlotOk(m, s.threads, j) && History(m, j);
      var u := Top(m, j) / 2;
      assert u % m.cap == j;
      if t == u + m.cap { ShiftMod(u, m.cap); }
    }
  }

  lemma WinEnqInv<T>(s: State<T>, p: nat, v: View)
    requires Inv(s) && p < |s.threads| && s.threads[p].pc.EnqCas?
    requires s.threads[p].ticket == Tail(s.m)
    requires v == s.threads[p].view.(e := |s.m.epos|)
    ensures var th := s.threads[p];
      Inv(State(WinEnq(s.m, p, th), s.threads[p := th.(view := v, pc := EnqWrite)], s.drained))
  {
    var m, th := s.m, s.threads[p];
    var m', th' := WinEnq(m, p, th), th.(view := v, pc := EnqWrite);
    var threads := s.threads[p := th'];
    EnqClaimInTurn(s, p);
    WinEnqSlots(s, p, th');
    assert ThreadOk(m, p, th);
    var i := th.ticket % m.cap;
    assert SlotOk(m, s.threads, i);
    ViewsFrame(m, m');
    HistoriesFrame(m, m');
    forall q | 0 <= q < |threads| ensures ThreadOk(m', q, threads[q]) {
      if q != p { ThreadFrame(m, m', q, s.threads[q]); }
    }
    DeliveriesFrame(m, s.threads, m', p, th');
  }

  function WinDeq<T>(m: Mem<T>, p: nat, th: Thread<T>): Mem<T> {
    m.(dpos := m.dpos + [th.ticket + 1], deq := m.deq + [Take(p, None)])
  }

  lemma WinDeqSlots<T>(s: State<T>, p: nat, th': Thread<T>)
    requires Inv(s) && p < |s.threads| && s.threads[p].pc.DeqCas?
    requires s.threads[p].ticket == Head(s.m)
    requires th'.pc.DeqRead? && th'.ticket == s.threads[p].ticket
    ensures Slots(WinDeq(s.m, p, s.threads[p]), s.threads[p := th'])
  {
    var m, th := s.m, s.threads[p];
    var m', threads := WinDeq(m, p, th), s.threads[p := th'];
    var i, t := th.ticket % m.cap, th.ticket;
    DeqClaimInTurn(s, p);
    assert SlotOk(m, s.threads, i);
    forall j | 0 <= j < m.cap ensures SlotOk(m', threads, j) {
      assert SlotOk(m, s.threads, j) && History(m, j);
      var u := Top(m, j) / 2;
      assert u % m.cap == j;
    }
  }

  lemma WinDeqInv<T>(s: State<T>, p: nat, v: View)
    requires Inv(s) && p < |s.threads| && s.threads[p].pc.DeqCas?
    requires s.threads[p].ticket == Head(s.m)
    requires v == s.threads[p].view.(d := |s.m.dpos|)
    ensures var th := s.threads[p];
      Inv(State(WinDeq(s.m, p, th), s.threads[p := th.(view := v, pc := DeqRead)], s.drained))
  {
    var m, th := s.m, s.threads[p];
    var m', th' := WinDeq(m, p, th), th.(view := v, pc := DeqRead);
    var threads := s.threads[p := th'];
    DeqClaimInTurn(s, p);
    WinDeqSlots(s, p, th');
    assert ThreadOk(m, p, th);
    var i := th.ticket % m.cap;
    ViewsFrame(m, m');
    HistoriesFrame(m, m');
    forall q | 0 <= q < |threads| ensures ThreadOk(m', q, threads[q]) {
      if q != p { ThreadFrame(m, m', q, s.threads[q]); }
    }
    forall t | 0 <= t < |m'.deq| ensures Delivers(m', threads, t) {
      assert t < |m.deq| ==> Delivers(m, s.threads, t);
    }
  }

  // ------------------------------------------------------- while holding a ticket

  lemma SameHolder<T>(m: Mem<T>, p: nat, th: Thread<T>, q: nat, th': Thread<T>, i: nat)
    requires MemShape(m) && ThreadOk(m, p, th) && ThreadOk(m, q, th') && Holding(th.pc) && Holding(th'.pc)
    requires th.ticket % m.cap == i == th'.ticket % m.cap
    ensures p == q
  {
    assert Top(m, i) / 2 == th.ticket == th'.ticket;
  }

  /** At most one thread, producer or consumer, of any lap, is ever between its
      compare-exchange and its release store on a given slot. */
  lemma OneHolder<T>(s: State<T>, p: nat, q: nat)
    requires Inv(s) && p < |s.threads| && q < |s.threads|
    requires Holding(s.threads[p].pc) && Holding(s.threads[q].pc)
    requires s.threads[p].ticket % s.m.cap == s.threads[q].ticket % s.m.cap
    ensures p == q
  {
    assert ThreadOk(s.m, p, s.threads[p]) && ThreadOk(s.m, q, s.threads[q]);
    SameHolder(s.m, p, s.threads[p], q, s.threads[q], s.threads[p].ticket % s.m.cap);
  }

  /** Other threads are untouched by what p does to the slot it holds. */
  lemma OthersFrame<T>(s: State<T>, m': Mem<T>, p: nat, q: nat)
    requires Inv(s) && p < |s.threads| && q < |s.threads| && p != q
    requires Holding(s.threads[p].pc)
    requires MemShape(m') && Grows(s.m, m')
    requires var i := s.threads[p].ticket % s.m.cap;
      forall j :: 0 <= j < s.m.cap && j != i ==>
        m'.sq[j] == s.m.sq[j] && m'.acc[j] == s.m.acc[j] && m'.value[j] == s.m.value[j]
    requires forall t :: 0 <= t < |s.m.deq| && s.m.deq[t].tid != p ==> m'.deq[t] == s.m.deq[t]
    ensures ThreadOk(m', q, s.threads[q])
  {
    assert ThreadOk(s.m, q, s.threads[q]);
    if Holding(s.threads[q].pc) && s.threads[p].ticket % s.m.cap == s.threads[q].ticket % s.m.cap {
      OneHolder(s, p, q);
    }
    ThreadFrame(s.m, m', q, s.threads[q]);
  }

  lemma AccessFrame<T>(m: Mem<T>, m': Mem<T>, i: nat)
    requires MemInv(m) && i < m.cap
    requires m' == m.(acc := m.acc[i := m.acc[i] + 1], value := m'.value, deq := m'.deq)
    requires |m'.value| == |m.value| && |m'.deq| == |m.deq|
    ensures MemInv(m') && Grows(m, m')
  {
    ViewsFrame(m, m');
    HistoriesFrame(m, m');
  }

  /** p acts on the slot it holds: everybody else and every other slot is framed. */
  lemma HolderStep<T>(s: State<T>, p: nat, i: nat, m': Mem<T>, th: Thread<T>)
    requires Inv(s) && p < |s.threads| && Holding(s.threads[p].pc) && i == s.threads[p].ticket % s.m.cap
    requires MemInv(m') && Grows(s.m, m')
    requires forall j :: 0 <= j < s.m.cap && j != i ==>
        m'.sq[j] == s.m.sq[j] && m'.acc[j] == s.m.acc[j] && m'.value[j] == s.m.value[j]
    requires m'.enq == s.m.enq && |m'.deq| == |s.m.deq|
    requires forall t :: 0 <= t < |s.m.deq| ==> m'.deq[t].tid == s.m.deq[t].tid
    requires forall t :: 0 <= t < |s.m.deq| && s.m.deq[t].tid != p ==> m'.deq[t] == s.m.deq[t]
    requires SlotOk(m', s.threads[p := th], i) && ThreadOk(m', p, th)
    ensures Slots(m', s.threads[p := th]) && Threads(m', s.threads[p := th])
  {
    var threads := s.threads[p := th];
    forall j | 0 <= j < s.m.cap ensures SlotOk(m', threads, j) {
      if j != i { SlotFrame(s.m, s.threads, m', p, th, j); }
    }
    forall q | 0 <= q < |threads| ensures ThreadOk(m', q, threads[q]) {
      if q != p { OthersFrame(s, m', p, q); }
    }
  }

  lemma WriteLocal<T>(s: State<T>, p: nat, i: nat)
    requires Shape(s) && p < |s.threads| && s.threads[p].pc.EnqWrite?
    requires i == s.threads[p].ticket % s.m.cap
    requires ThreadOk(s.m, p, s.threads[p]) && SlotOk(s.m, s.threads, i)
    ensures var s' := WriteValue(s, p, i);
      SlotOk(s'.m, s'.threads, i) && ThreadOk(s'.m, p, s'.threads[p])
  {
    WriteHolder(s, p, i);
    WriteSlot(s, p, i);
  }

  lemma WriteHolder<T>(s: State<T>, p: nat, i: nat)
    requires Shape(s) && p < |s.threads| && s.threads[p].pc.EnqWrite?
    requires i == s.threads[p].ticket % s.m.cap && ThreadOk(s.m, p, s.threads[p])
    ensures var s' := WriteValue(s, p, i); ThreadOk(s'.m, p, s'.threads[p])
  {
  }

  lemma WriteSlot<T>(s: State<T>, p: nat, i: nat)
    requires Shape(s) && p < |s.threads| && s.threads[p].pc.EnqWrite? && i < s.m.cap
    requires SlotOk(s.m, s.threads, i) && Top(s.m, i) == 2 * s.threads[p].ticket && s.threads[p].ticket < Tail(s.m)
    ensures var s' := WriteValue(s, p, i); SlotOk(s'.m, s'.threads, i)
  {
  }

  lemma ReadLocal<T>(s: State<T>, p: nat, i: nat)
    requires Shape(s) && p < |s.threads| && s.threads[p].pc.DeqRead?
    requires i == s.threads[p].ticket % s.m.cap
    requires ThreadOk(s.m, p, s.threads[p]) && SlotOk(s.m, s.threads, i)
    ensures var s' := ReadValue(s, p, i);
      SlotOk(s'.m, s'.threads, i) && ThreadOk(s'.m, p, s'.threads[p])
  {
  }

  lemma WriteInv<T>(s: State<T>, p: nat, i: nat)
    requires Inv(s) && p < |s.threads| && s.threads[p].pc.EnqWrite?
    requires i == s.threads[p].ticket % s.m.cap
    ensures Inv(WriteValue(s, p, i))
  {
    var s' := WriteValue(s, p, i);
    WriteLocal(s, p, i);
    assert ThreadOk(s.m, p, s.threads[p]);
    AccessFrame(s.m, s'.m, i);
    HolderStep(s, p, i, s'.m, s'.threads[p]);
    DeliveriesFrame(s.m, s.threads, s'.m, p, s'.threads[p]);
  }

  lemma ReadDeliveries<T>(s: State<T>, p: nat, i: nat)
    requires Shape(s) && p < |s.threads| && s.threads[p].pc.DeqRead?
    requires i == s.threads[p].ticket % s.m.cap
    requires ThreadOk(s.m, p, s.threads[p]) && SlotOk(s.m, s.threads, i)
    requires Deliveries(s.m, s.threads)
    ensures var s' := ReadValue(s, p, i); Deliveries(s'.m, s'.threads)
  {
    var s' := ReadValue(s, p, i);
    forall u | 0 <= u < |s.m.deq| ensures Delivers(s'.m, s'.threads, u) {
      assert Delivers(s.m, s.threads, u);
    }
  }

  lemma ReadInv<T>(s: State<T>, p: nat, i: nat)
    requires Inv(s) && p < |s.threads| && s.threads[p].pc.DeqRead?
    requires i == s.threads[p].ticket % s.m.cap
    ensures Inv(ReadValue(s, p, i))
  {
    var s' := ReadValue(s, p, i);
    ReadLocal(s, p, i);
    ReadDeliveries(s, p, i);
    assert ThreadOk(s.m, p, s.threads[p]);
    AccessFrame(s.m, s'.m, i);
    HolderStep(s, p, i, s'.m, s'.threads[p]);
  }

  // --------------------------------------------------------------- release stores

  lemma AppendHistory<T>(m: Mem<T>, m': Mem<T>, i: nat, msg: SeqMsg)
    requires MemShape(m) && MemShape(m') && m'.cap == m.cap && i < m.cap && History(m, i)
    requires m'.sq[i] == m.sq[i] + [msg] && Top(m, i) < msg.val && (msg.val / 2) % m.cap == i
    requires ViewOk(m', msg.view) && msg.view.sq[i] == |m.sq[i]|
    requires forall k :: 0 <= k < |m.sq[i]| ==> ViewOk(m', m.sq[i][k].view)
    ensures History(m', i)
  {
  }

  lemma StoreFrame<T>(s: State<T>, p: nat, i: nat, val: nat)
    requires Inv(s) && p < |s.threads| && i < s.m.cap
    requires Top(s.m, i) < val && (val / 2) % s.m.cap == i
    requires |s.m.sq[i]| <= s.threads[p].view.acc[i]
    ensures var s' := StoreSeq(s, p, i, val);
      MemInv(s'.m) && Grows(s.m, s'.m) && ViewOk(s'.m, s'.threads[p].view)
  {
    var s' := StoreSeq(s, p, i, val);
    var m, m', view := s.m, s'.m, s'.threads[p].view;
    assert ThreadOk(m, p, s.threads[p]);
    ViewsFrame(m, m');
    assert ViewOk(m', view);
    forall j | 0 <= j < m.cap ensures History(m', j) {
      assert History(m, j);
      if j == i { AppendHistory(m, m', i, SeqMsg(val, view)); }
    }
  }

  lemma StoreInv<T>(s: State<T>, p: nat, i: nat, val: nat)
    requires Inv(s) && p < |s.threads| && i == s.threads[p].ticket % s.m.cap
    requires s.threads[p].pc.EnqPublish? || s.threads[p].pc.DeqRelease?
    requires Top(s.m, i) < val && (val / 2) % s.m.cap == i
    requires SlotOk(StoreSeq(s, p, i, val).m, StoreSeq(s, p, i, val).threads, i)
    ensures Inv(StoreSeq(s, p, i, val))
  {
    var s' := StoreSeq(s, p, i, val);
    assert ThreadOk(s.m, p, s.threads[p]);
    StoreFrame(s, p, i, val);
    HolderStep(s, p, i, s'.m, s'.threads[p]);
    DeliveriesFrame(s.m, s.threads, s'.m, p, s'.threads[p]);
  }

  /** Publishing (releasing) leaves the slot in order, with a larger sequence. */
  lemma PublishLocal<T>(s: State<T>, p: nat, i: nat, t: nat)
    requires Shape(s) && p < |s.threads| && s.threads[p].pc.EnqPublish?
    requires t == s.threads[p].ticket && i == t % s.m.cap
    requires ThreadOk(s.m, p, s.threads[p]) && SlotOk(s.m, s.threads, i)
    ensures Top(s.m, i) < 2 * t + 1
    ensures var s' := StoreSeq(s, p, i, 2 * t + 1); SlotOk(s'.m, s'.threads, i)
  {
    var s' := StoreSeq(s, p, i, 2 * t + 1);
    assert Top(s'.m, i) == 2 * t + 1 && s'.m.enq == s.m.enq && s'.m.deq == s.m.deq;
  }

  lemma ReleaseLocal<T>(s: State<T>, p: nat, i: nat, t: nat)
    requires Shape(s) && p < |s.threads| && s.threads[p].pc.DeqRelease?
    requires t == s.threads[p].ticket && i == t % s.m.cap
    requires ThreadOk(s.m, p, s.threads[p]) && SlotOk(s.m, s.threads, i) && Head(s.m) <= Tail(s.m)
    ensures Top(s.m, i) < 2 * (t + s.m.cap)
    ensures var s' := StoreSeq(s, p, i, 2 * (t + s.m.cap)); SlotOk(s'.m, s'.threads, i)
  {
    var s' := StoreSeq(s, p, i, 2 * (t + s.m.cap));
    assert Top(s'.m, i) == 2 * (t + s.m.cap) && s'.m.enq == s.m.enq && s'.m.deq == s.m.deq;
  }

  lemma PublishInv<T>(s: State<T>, p: nat, i: nat)
    requires Inv(s) && p < |s.threads| && s.threads[p].pc.EnqPublish?
    requires i == s.threads[p].ticket % s.m.cap
    ensures Inv(StoreSeq(s, p, i, 2 * s.threads[p].ticket + 1))
  {
    PublishLocal(s, p, i, s.threads[p].ticket);
    StoreInv(s, p, i, 2 * s.threads[p].ticket + 1);
  }

  lemma ReleaseInv<T>(s: State<T>, p: nat, i: nat)
    requires Inv(s) && p < |s.threads| && s.threads[p].pc.DeqRelease?
    requires i == s.threads[p].ticket % s.m.cap
    ensures Inv(StoreSeq(s, p, i, 2 * (s.threads[p].ticket + s.m.cap)))
  {
    var t := s.threads[p].ticket;
    ReleaseLocal(s, p, i, t);
    ShiftMod(t, s.m.cap);
    StoreInv(s, p, i, 2 * (t + s.m.cap));
  }

  // ------------------------------------------------------------------- every step

  /** A failed compare-exchange reloads the ticket. */
  lemma RetryOk<T>(m: Mem<T>, p: nat, th: Thread<T>, pick: nat)
    requires MemShape(m) && Counters(m) && ThreadOk(m, p, th)
    ensures Readable(th.view.e, pick, |m.epos|) ==>
      ThreadOk(m, p, th.(view := th.view.(e := pick), ticket := m.epos[pick], pc := EnqSeq, tries := th.tries + 1))
    ensures Readable(th.view.d, pick, |m.dpos|) ==>
      ThreadOk(m, p, th.(view := th.view.(d := pick), ticket := m.dpos[pick], pc := DeqSeq, tries := th.tries + 1))
  {
  }

  lemma CasEnqWins<T>(w: Word, s: State<T>, p: nat, pick: nat)
    requires Shape(s) && p < |s.threads| && Last(s.m.epos) == s.threads[p].ticket
    requires Wrap(w, s.threads[p].ticket + 1) == s.threads[p].ticket + 1
    ensures var th := s.threads[p];
      CasEnq(w, s, p, pick, false)
      == State(WinEnq(s.m, p, th), s.threads[p := th.(view := th.view.(e := |s.m.epos|), pc := EnqWrite)], s.drained)
  {
  }

  lemma CasEnqInv<T>(w: Word, s: State<T>, p: nat, pick: nat, weak: bool)
    requires Inv(s) && Fits(w, s.m) && p < |s.threads| && s.threads[p].pc.EnqCas?
    ensures Inv(CasEnq(w, s, p, pick, weak))
  {
    var m, th := s.m, s.threads[p];
    assert ThreadOk(m, p, th);
    if !weak && Last(m.epos) == th.ticket {
      WrapSmall(w, th.ticket + 1);
      CasEnqWins(w, s, p, pick);
      WinEnqInv(s, p, th.view.(e := |m.epos|));
    } else if Readable(th.view.e, pick, |m.epos|) {
      RetryOk(m, p, th, pick);
      LocalStep(s, p, CasEnq(w, s, p, pick, weak).threads[p], s.drained);
    }
  }

  lemma CasDeqWins<T>(w: Word, s: State<T>, p: nat, pick: nat)
    requires Shape(s) && p < |s.threads| && Last(s.m.dpos) == s.threads[p].ticket
    requires Wrap(w, s.threads[p].ticket + 1) == s.threads[p].ticket + 1
    ensures var th := s.threads[p];
      CasDeq(w, s, p, pick, false)
      == State(WinDeq(s.m, p, th), s.threads[p := th.(view := th.view.(d := |s.m.dpos|), pc := DeqRead)], s.drained)
  {
  }

  lemma CasDeqInv<T>(w: Word, s: State<T>, p: nat, pick: nat, weak: bool)
    requires Inv(s) && Fits(w, s.m) && p < |s.threads| && s.threads[p].pc.DeqCas?
    ensures Inv(CasDeq(w, s, p, pick, weak))
  {
    var m, th := s.m, s.threads[p];
    assert ThreadOk(m, p, th);
    if !weak && Last(m.dpos) == th.ticket {
      WrapSmall(w, th.ticket + 1);
      CasDeqWins(w, s, p, pick);
      WinDeqInv(s, p, th.view.(d := |m.dpos|));
    } else if Readable(th.view.d, pick, |m.dpos|) {
      RetryOk(m, p, th, pick);
      LocalStep(s, p, CasDeq(w, s, p, pick, weak).threads[p], s.drained);
    }
  }

  /** A ticket that is held fits the word, and so does what is stored for it. */
  lemma HeldFits<T>(w: Word, s: State<T>, p: nat)
    requires Inv(s) && Fits(w, s.m) && p < |s.threads| && Holding(s.threads[p].pc)
    ensures var t, n := s.threads[p].ticket, s.m.cap;
      && SlotIndex(w, n, t) == t % n
      && Wrap(w, 2 * t + 1) == 2 * t + 1
      && Wrap(w, 2 * (t + n)) == 2 * (t + n)
  {
    var m, t := s.m, s.threads[p].ticket;
    assert ThreadOk(m, p, s.threads[p]);
    SlotIndexIsMod(w, m.cap, t);
    WrapSmall(w, 2 * t + 1);
    WrapSmall(w, 2 * (t + m.cap));
  }

  /** What a ticket holder does next, on its slot. */
  lemma HolderIs<T>(w: Word, s: State<T>, p: nat, pick: nat, weak: bool, t: nat, i: nat)
    requires Shape(s) && p < |s.threads| && t == s.threads[p].ticket && i == SlotIndex(w, s.m.cap, t)
    requires Wrap(w, 2 * t + 1) == 2 * t + 1 && Wrap(w, 2 * (t + s.m.cap)) == 2 * (t + s.m.cap)
    ensures s.threads[p].pc.EnqWrite? ==> Perform(w, s, p, pick, weak) == WriteValue(s, p, i)
    ensures s.threads[p].pc.EnqPublish? ==> Perform(w, s, p, pick, weak) == StoreSeq(s, p, i, 2 * t + 1)
    ensures s.threads[p].pc.DeqRead? ==> Perform(w, s, p, pick, weak) == ReadValue(s, p, i)
    ensures s.threads[p].pc.DeqRelease? ==>
      Perform(w, s, p, pick, weak) == StoreSeq(s, p, i, 2 * (t + s.m.cap))
  {
  }

  lemma Same<T>(s: State<T>, s': State<T>)
    requires Inv(s') && s == s'
    ensures Inv(s)
  {
  }

  lemma HolderStepInv<T>(w: Word, s: State<T>, p: nat, pick: nat, weak: bool)
    requires Inv(s) && Fits(w, s.m) && p < |s.threads| && Holding(s.threads[p].pc)
    ensures Inv(Perform(w, s, p, pick, weak))
  {
    HeldFits(w, s, p);
    var t := s.threads[p].ticket;
    var i := SlotIndex(w, s.m.cap, t);
    HolderIs(w, s, p, pick, weak, t, i);
    var pc := s.threads[p].pc;
    if pc.EnqWrite? {
      WriteInv(s, p, i);
      Same(Perform(w, s, p, pick, weak), WriteValue(s, p, i));
    } else if pc.EnqPublish? {
      PublishInv(s, p, i);
      Same(Perform(w, s, p, pick, weak), StoreSeq(s, p, i, 2 * t + 1));
    } else if pc.DeqRead? {
      ReadInv(s, p, i);
      Same(Perform(w, s, p, pick, weak), ReadValue(s, p, i));
    } else {
      ReleaseInv(s, p, i);
      Same(Perform(w, s, p, pick, weak), StoreSeq(s, p, i, 2 * (t + s.m.cap)));
    }
  }

  lemma StepInv<T>(w: Word, s: State<T>, a: Action<T>)
    requires Inv(s) && Fits(w, s.m)
    ensures Inv(Step(w, s, a))
  {
    if a.tid < |s.threads| {
      var p := a.tid;
      match a.cmd {
        case Call(op) => if s.threads[p].pc.Idle? { StartCallInv(s, p, op); }
        case Go(pick, weak) =>
          match s.threads[p].pc {
            case Idle =>
            case PushCheck => LoadClosedInv(s, p, pick);
            case PopCheck => LoadClosedInv(s, p, pick);
            case EnqLoad => LoadPosInv(w, s, p, pick);
            case DeqLoad => LoadPosInv(w, s, p, pick);
            case EnqSeq => LoadSeqInv(w, s, p, pick);
            case DeqSeq => LoadSeqInv(w, s, p, pick);
            case EnqCas => CasEnqInv(w, s, p, pick, weak);
            case DeqCas => CasDeqInv(w, s, p, pick, weak);
            case _ => HolderStepInv(w, s, p, pick, weak);
          }
      }
    }
  }
}
