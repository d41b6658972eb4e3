/** Verdicts, retries and stalls of MpmcQueue: what a single fresh load justifies. */
module MpmcProgress {
  import opened Common
  import opened Words
  import opened MpmcModel
  import opened MpmcInvariant
  import opened MpmcRuns

  // --------------------------------------------------------------- failure verdicts

  lemma FullFacts<T>(s: State<T>, t: nat)
    requires Inv(s) && t <= Tail(s.m) && Top(s.m, t % s.m.cap) < 2 * t
    ensures var n, seen := s.m.cap, Top(s.m, t % s.m.cap);
      && Tail(s.m) == t && n <= t
      && (seen == 2 * (t - n) || seen == 2 * (t - n) + 1)
      && Head(s.m) <= t
      && (Head(s.m) == t - n || (t - n < Head(s.m) && HoldsDeq(s.threads, s.m.deq[t - n].tid, t - n)))
  {
    var i := t % s.m.cap;
    var u := Top(s.m, i) / 2;
    assert SlotOk(s.m, s.threads, i) && History(s.m, i);
    assert u % s.m.cap == i;
    CongruentGap(u, t, s.m.cap);
  }

  lemma EmptyFacts<T>(s: State<T>, t: nat)
    requires Inv(s) && t <= Head(s.m) && Top(s.m, t % s.m.cap) < 2 * t + 1
    ensures var n, seen := s.m.cap, Top(s.m, t % s.m.cap);
      && Head(s.m) == t
      && (seen == 2 * t - 2 * n + 1 || seen == 2 * t)
      && (Tail(s.m) == t || (t < Tail(s.m) && HoldsEnq(s.threads, s.m.enq[t].tid, t)))
  {
    var i := t % s.m.cap;
    var u := Top(s.m, i) / 2;
    assert SlotOk(s.m, s.threads, i) && History(s.m, i);
    assert u % s.m.cap == i;
    if u < t { CongruentGap(u, t, s.m.cap); }
  }

  /** Ticket t - N has not been released: unclaimed, or still being moved out. */
  predicate Unreleased<T>(s: State<T>, t: nat) {
    var n := s.m.cap;
    |s.m.enq| - |s.m.deq| == n || (n <= t && t - n < |s.m.deq| && HoldsDeq(s.threads, s.m.deq[t - n].tid, t - n))
  }

  /** Ticket t has not been published: unclaimed, or claimed but not yet filled. */
  predicate Unpublished<T>(s: State<T>, t: nat) {
    |s.m.enq| == |s.m.deq| || (t < |s.m.enq| && HoldsEnq(s.threads, s.m.enq[t].tid, t))
  }

  lemma UnreleasedIsFull<T>(s: State<T>, t: nat)
    requires Inv(s) && |s.m.enq| == t && Unreleased(s, t)
    ensures Top(s.m, t % s.m.cap) < 2 * t
  {
    var n, i := s.m.cap, t % s.m.cap;
    var u := Top(s.m, i) / 2;
    assert SlotOk(s.m, s.threads, i) && History(s.m, i);
    assert u % n == i;
    if |s.m.enq| - |s.m.deq| != n {
      var q := s.m.deq[t - n].tid;
      assert ThreadOk(s.m, q, s.threads[q]);
      ShiftMod(t - n, n);
    }
  }

  lemma UnpublishedIsEmpty<T>(s: State<T>, t: nat)
    requires Inv(s) && |s.m.deq| == t && Unpublished(s, t)
    ensures Top(s.m, t % s.m.cap) < 2 * t + 1
  {
    var n, i := s.m.cap, t % s.m.cap;
    var u := Top(s.m, i) / 2;
    assert SlotOk(s.m, s.threads, i) && History(s.m, i);
    assert u % n == i;
    if |s.m.enq| == |s.m.deq| {
      if t < u { CongruentGap(t, u, n); }
    } else {
      var q := s.m.enq[t].tid;
      assert ThreadOk(s.m, q, s.threads[q]);
    }
  }

  /** try_enqueue reports full on the newest sequence of its slot exactly when its
      ticket t is still the next one and ticket t - N has not been released: the
      ring is truly full, or the consumer of t - N is still moving its item out. */
  lemma FullVerdict<T>(n: nat, s: State<T>, p: nat)
    requires Inv(s) && n == s.m.cap && p < |s.threads| && s.threads[p].pc.EnqSeq?
    ensures var t, seen := s.threads[p].ticket, Top(s.m, s.threads[p].ticket % n);
      && (Classify(Unbounded, seen, 2 * t).Behind? <==> |s.m.enq| == t && Unreleased(s, t))
      && (Classify(Unbounded, seen, 2 * t).Behind? ==> seen - 2 * t == -2 * n || seen - 2 * t == -2 * n + 1)
  {
    var t := s.threads[p].ticket;
    assert ThreadOk(s.m, p, s.threads[p]);
    if Top(s.m, t % n) < 2 * t {
      FullFacts(s, t);
    } else if |s.m.enq| == t && Unreleased(s, t) {
      UnreleasedIsFull(s, t);
    }
  }

  /** try_dequeue reports empty on the newest sequence of its slot exactly when its
      ticket t is still the next one and t has not been published: the queue is
      truly empty, or the producer of t has claimed but not filled its slot. */
  lemma EmptyVerdict<T>(n: nat, s: State<T>, p: nat)
    requires Inv(s) && n == s.m.cap && p < |s.threads| && s.threads[p].pc.DeqSeq?
    ensures var t, seen := s.threads[p].ticket, Top(s.m, s.threads[p].ticket % n);
      && (Classify(Unbounded, seen, 2 * t + 1).Behind? <==> |s.m.deq| == t && Unpublished(s, t))
      && (Classify(Unbounded, seen, 2 * t + 1).Behind? ==>
            seen - (2 * t + 1) == -2 * n || seen - (2 * t + 1) == -1)
  {
    var t := s.threads[p].ticket;
    assert ThreadOk(s.m, p, s.threads[p]);
    if Top(s.m, t % n) < 2 * t + 1 {
      EmptyFacts(s, t);
    } else if |s.m.deq| == t && Unpublished(s, t) {
      UnpublishedIsEmpty(s, t);
    }
  }

  // ----------------------------------------------------------------------- retries

  /** Position loads return the newest value and no compare-exchange fails
      spuriously. Sequence loads may be as stale as they like. */
  predicate FreshTickets<T>(s: State<T>, a: Action<T>)
    requires Shape(s)
  {
    a.tid < |s.threads| && a.cmd.Go? ==>
      var pc := s.threads[a.tid].pc;
      && (pc.EnqLoad? || pc.EnqCas? ==> a.cmd.pick == |s.m.epos| - 1 && !a.cmd.weak)
      && (pc.DeqLoad? || pc.DeqCas? ==> a.cmd.pick == |s.m.dpos| - 1 && !a.cmd.weak)
  }

  predicate FreshRun<T>(w: Word, s: State<T>, acts: seq<Action<T>>)
    requires Shape(s)
    decreases |acts|
  {
    acts == [] ||
    var prior := acts[..|acts| - 1];
    FreshRun(w, s, prior) && FreshTickets(Run(w, s, prior), acts[|acts| - 1])
  }

  /** Retries so far are paid for by tickets other threads took since the first
      load of this attempt. */
  predicate Paid<T>(m: Mem<T>, th: Thread<T>) {
    && (th.pc.EnqLoad? && th.tries > 0 ==> th.first + th.tries <= Tail(m))
    && (th.pc.DeqLoad? && th.tries > 0 ==> th.first + th.tries <= Head(m))
    && (th.pc.EnqSeq? || th.pc.EnqCas? ==> th.first + th.tries <= th.ticket)
    && (th.pc.DeqSeq? || th.pc.DeqCas? ==> th.first + th.tries <= th.ticket)
  }

  /** A sequence ahead of the ticket means the ticket is gone. */
  lemma AheadMeansTaken<T>(s: State<T>, p: nat, k: nat)
    requires Inv(s) && p < |s.threads|
    requires var i := s.threads[p].ticket % s.m.cap; k < |s.m.sq[i]|
    ensures var t, val := s.threads[p].ticket, s.m.sq[s.threads[p].ticket % s.m.cap][k].val;
      && (val > 2 * t ==> t < Tail(s.m))
      && (val > 2 * t + 1 ==> t < Head(s.m))
  {
    var t := s.threads[p].ticket;
    var i := t % s.m.cap;
    var u := Top(s.m, i) / 2;
    assert SlotOk(s.m, s.threads, i) && History(s.m, i);
    assert u % s.m.cap == i;
    TopBound(s, i, k);
    if t < u { CongruentGap(t, u, s.m.cap); }
  }

  lemma SeqEnqPaid<T>(s: State<T>, p: nat, pick: nat)
    requires Inv(s) && p < |s.threads| && Paid(s.m, s.threads[p]) && s.threads[p].pc.EnqSeq?
    ensures Paid(s.m, LoadSeqEnq(Unbounded, s, p, pick).threads[p])
  {
    var th := s.threads[p];
    var i := th.ticket % s.m.cap;
    if Readable(th.view.sq[i], pick, |s.m.sq[i]|) { AheadMeansTaken(s, p, pick); }
  }

  lemma SeqDeqPaid<T>(s: State<T>, p: nat, pick: nat)
    requires Inv(s) && p < |s.threads| && Paid(s.m, s.threads[p]) && s.threads[p].pc.DeqSeq?
    ensures Paid(s.m, LoadSeqDeq(Unbounded, s, p, pick).threads[p])
  {
    var th := s.threads[p];
    var i := th.ticket % s.m.cap;
    if Readable(th.view.sq[i], pick, |s.m.sq[i]|) { AheadMeansTaken(s, p, pick); }
  }

  lemma CasPaid<T>(s: State<T>, p: nat, pick: nat)
    requires Inv(s) && p < |s.threads| && Paid(s.m, s.threads[p])
    ensures s.threads[p].pc.EnqCas? && pick == |s.m.epos| - 1 ==>
      var s' := CasEnq(Unbounded, s, p, pick, false); Paid(s'.m, s'.threads[p])
    ensures s.threads[p].pc.DeqCas? && pick == |s.m.dpos| - 1 ==>
      var s' := CasDeq(Unbounded, s, p, pick, false); Paid(s'.m, s'.threads[p])
  {
    assert ThreadOk(s.m, p, s.threads[p]);
  }

  lemma LoadPaid<T>(s: State<T>, p: nat, pick: nat, weak: bool)
    requires Shape(s) && Counters(s.m) && p < |s.threads| && Paid(s.m, s.threads[p])
    requires FreshTickets(s, Action(p, Go(pick, weak)))
    requires var pc := s.threads[p].pc; pc.EnqLoad? || pc.DeqLoad? || pc.PushCheck? || pc.PopCheck?
    ensures var s' := Perform(Unbounded, s, p, pick, weak); Paid(s'.m, s'.threads[p])
  {
  }

  lemma HolderPaid<T>(s: State<T>, p: nat, pick: nat, weak: bool)
    requires Shape(s) && p < |s.threads| && Holding(s.threads[p].pc)
    ensures var s' := Perform(Unbounded, s, p, pick, weak); Paid(s'.m, s'.threads[p])
  {
    PcFlow(Unbounded, s, p, pick, weak);
  }

  lemma OwnStepPaid<T>(s: State<T>, p: nat, pick: nat, weak: bool)
    requires Inv(s) && p < |s.threads| && Paid(s.m, s.threads[p])
    requires FreshTickets(s, Action(p, Go(pick, weak)))
    ensures var s' := Perform(Unbounded, s, p, pick, weak); Paid(s'.m, s'.threads[p])
  {
    var pc := s.threads[p].pc;
    if pc.EnqSeq? {
      SeqEnqPaid(s, p, pick);
    } else if pc.DeqSeq? {
      SeqDeqPaid(s, p, pick);
    } else if pc.EnqCas? || pc.DeqCas? {
      CasPaid(s, p, pick);
    } else if Holding(pc) {
      HolderPaid(s, p, pick, weak);
    } else if !pc.Idle? {
      LoadPaid(s, p, pick, weak);
    }
  }

  lemma CallPaid<T>(s: State<T>, p: nat, op: Op<T>)
    requires Shape(s) && p < |s.threads| && s.threads[p].pc.Idle?
    ensures Paid(StartCall(s, p, op).m, StartCall(s, p, op).threads[p])
  {
  }

  lemma StepPaid<T>(s: State<T>, a: Action<T>, q: nat)
    requires Inv(s) && q < |s.threads| && FreshTickets(s, a) && Paid(s.m, s.threads[q])
    ensures var s' := Step(Unbounded, s, a); q < |s'.threads| && Paid(s'.m, s'.threads[q])
  {
    StepGrows(Unbounded, s, a);
    if a.tid == q {
      match a.cmd {
        case Call(op) => if s.threads[q].pc.Idle? { CallPaid(s, q, op); }
        case Go(pick, weak) => OwnStepPaid(s, q, pick, weak);
      }
    }
  }

  /** Each retry strictly raises the ticket, so in every run with fresh position
      loads the retries of an attempt are at most the growth of the position counter
      since the attempt first read it. */
  lemma {:induction false} RetriesPaid<T>(n: nat, threads: nat, blank: T, acts: seq<Action<T>>, q: nat)
    requires n > 0 && q < threads && FreshRun(Unbounded, Init(n, threads, blank), acts)
    ensures var s := Run(Unbounded, Init(n, threads, blank), acts);
      && Inv(s) && q < |s.threads| && Paid(s.m, s.threads[q])
      && (s.threads[q].pc.EnqSeq? || s.threads[q].pc.EnqCas? ==>
            s.threads[q].tries <= |s.m.enq| - s.threads[q].first)
      && (s.threads[q].pc.DeqSeq? || s.threads[q].pc.DeqCas? ==>
            s.threads[q].tries <= |s.m.deq| - s.threads[q].first)
    decreases |acts|
  {
    var s0 := Init(n, threads, blank);
    var s := Run(Unbounded, s0, acts);
    InitInv(n, threads, blank);
    RunInv(Unbounded, s0, acts);
    if acts != [] {
      var prior, a := acts[..|acts| - 1], acts[|acts| - 1];
      RetriesPaid(n, threads, blank, prior, q);
      StepPaid(Run(Unbounded, s0, prior), a, q);
    }
    assert ThreadOk(s.m, q, s.threads[q]);
  }

  // ---------------------------------------------------------------- stranded tickets

  /** No action of thread p. */
  predicate Without<T>(p: nat, acts: seq<Action<T>>) {
    forall k :: 0 <= k < |acts| ==> acts[k].tid != p
  }

  lemma {:induction false} ParkedThread<T>(w: Word, s: State<T>, acts: seq<Action<T>>, p: nat)
    requires Shape(s) && p < |s.threads| && Without(p, acts)
    ensures var s' := Run(w, s, acts); p < |s'.threads| && s'.threads[p] == s.threads[p]
    decreases |acts|
  {
    if acts != [] {
      var prior, a := acts[..|acts| - 1], acts[|acts| - 1];
      ParkedThread(w, s, prior, p);
      StepGrows(w, Run(w, s, prior), a);
    }
  }

  lemma HolderStalls<T>(s: State<T>, p: nat)
    requires Inv(s) && p < |s.threads| && Holding(s.threads[p].pc)
    ensures var t := s.threads[p].ticket;
      && Tail(s.m) <= t + s.m.cap && Head(s.m) <= t + s.m.cap
      && (Producing(s.threads[p].pc) ==> Head(s.m) <= t)
  {
    var t := s.threads[p].ticket;
    assert ThreadOk(s.m, p, s.threads[p]) && SlotOk(s.m, s.threads, t % s.m.cap);
  }

  /** If the producer holding ticket t never publishes, then in every continuation
      consumers stop at t and producers at t + N; every ticket below still delivers
      exactly its item. A consumer that never releases t stops producers at t + N
      and hence consumers there too. */
  lemma Stranded<T(!new)>(w: Word, n: nat, s: State<T>, acts: seq<Action<T>>, p: nat)
    requires Reachable(w, n, s) && Shape(s) && Fits(w, Run(w, s, acts).m)
    requires p < |s.threads| && Holding(s.threads[p].pc) && Without(p, acts)
    ensures var m, t := Run(w, s, acts).m, s.threads[p].ticket;
      && |m.enq| <= t + n && |m.deq| <= t + n
      && (Producing(s.threads[p].pc) ==> |m.deq| <= t)
      && (forall u :: 0 <= u < |m.deq| && m.deq[u].got.Some? ==>
            u < |m.enq| && m.deq[u].got.value == m.enq[u].item)
  {
    var s' := Run(w, s, acts);
    ReachableInv(w, n, s);
    RunInv(w, s, acts);
    RunGrows(w, s, acts);
    ParkedThread(w, s, acts, p);
    HolderStalls(s', p);
    forall u | 0 <= u < |s'.m.deq| && s'.m.deq[u].got.Some?
      ensures u < |s'.m.enq| && s'.m.deq[u].got.value == s'.m.enq[u].item
    {
      assert Delivers(s'.m, s'.threads, u);
    }
  }

  // --------------------------------------------------------------- running alone

  /** The thread's next action, every load returning the newest message. */
  function FreshGo<T>(s: State<T>, p: nat): Action<T>
    requires Shape(s) && p < |s.threads|
  {
    var th := s.threads[p];
    var pick :=
      if th.pc.EnqLoad? || th.pc.EnqCas? then |s.m.epos| - 1
      else if th.pc.DeqLoad? || th.pc.DeqCas? then |s.m.dpos| - 1
      else if th.pc.EnqSeq? || th.pc.DeqSeq? then |s.m.sq[th.ticket % s.m.cap]| - 1
      else |s.m.closed| - 1;
    Action(p, Go(pick, false))
  }

  function Alone<T>(s: State<T>, p: nat, steps: nat): (r: State<T>)
    requires Shape(s) && p < |s.threads|
    ensures Shape(r)
    decreases steps
  {
    if steps == 0 then s
    else
      StepGrows(Unbounded, s, FreshGo(s, p));
      Alone(Step(Unbounded, s, FreshGo(s, p)), p, steps - 1)
  }

  /** Own steps an attempt still needs when nobody else moves; 0 when it is over. A
      ticket that is already taken costs one further iteration. */
  function Rank<T>(m: Mem<T>, th: Thread<T>): nat {
    match th.pc
    case EnqPublish => 1
    case EnqWrite => 2
    case EnqCas => if th.ticket == Tail(m) then 3 else 5
    case EnqSeq => if th.ticket == Tail(m) then 4 else 6
    case EnqLoad => 5
    case DeqRelease => 1
    case DeqRead => 2
    case DeqCas => if th.ticket == Head(m) then 3 else 5
    case DeqSeq => if th.ticket == Head(m) then 4 else 6
    case DeqLoad => 5
    case _ => 0
  }

  predicate Over<T>(s: State<T>, p: nat) {
    p < |s.threads| && Rank(s.m, s.threads[p]) == 0
  }

  lemma AloneSeq<T>(s: State<T>, p: nat)
    requires Inv(s) && p < |s.threads| && (s.threads[p].pc.EnqSeq? || s.threads[p].pc.DeqSeq?)
    ensures var s' := Step(Unbounded, s, FreshGo(s, p));
      p < |s'.threads| && Rank(s'.m, s'.threads[p]) < Rank(s.m, s.threads[p])
  {
    var th := s.threads[p];
    var i := th.ticket % s.m.cap;
    assert ThreadOk(s.m, p, th);
    AheadMeansTaken(s, p, |s.m.sq[i]| - 1);
  }

  lemma AloneTicket<T>(s: State<T>, p: nat)
    requires Shape(s) && Counters(s.m) && p < |s.threads| && ViewOk(s.m, s.threads[p].view)
    requires var pc := s.threads[p].pc; pc.EnqLoad? || pc.EnqCas? || pc.DeqLoad? || pc.DeqCas?
    ensures var s' := Step(Unbounded, s, FreshGo(s, p));
      p < |s'.threads| && Rank(s'.m, s'.threads[p]) < Rank(s.m, s.threads[p])
  {
  }

  lemma AloneHolder<T>(s: State<T>, p: nat)
    requires Shape(s) && p < |s.threads| && Holding(s.threads[p].pc)
    ensures var s' := Step(Unbounded, s, FreshGo(s, p));
      p < |s'.threads| && Rank(s'.m, s'.threads[p]) < Rank(s.m, s.threads[p])
  {
  }

  lemma {:induction false} AloneFinishes<T>(s: State<T>, p: nat)
    requires Inv(s) && p < |s.threads|
    ensures Rank(s.m, s.threads[p]) <= 6
    ensures exists k: nat :: k <= Rank(s.m, s.threads[p]) && Over(Alone(s, p, k), p)
    decreases Rank(s.m, s.threads[p])
  {
    var r := Rank(s.m, s.threads[p]);
    if r == 0 {
      assert Alone(s, p, 0) == s;
    } else {
      var s' := Step(Unbounded, s, FreshGo(s, p));
      StepInv(Unbounded, s, FreshGo(s, p));
      var pc := s.threads[p].pc;
      assert ThreadOk(s.m, p, s.threads[p]);
      if pc.EnqSeq? || pc.DeqSeq? {
        AloneSeq(s, p);
      } else if Holding(pc) {
        AloneHolder(s, p);
      } else {
        AloneTicket(s, p);
      }
      AloneFinishes(s', p);
      var k: nat :| k <= Rank(s'.m, s'.threads[p]) && Over(Alone(s', p, k), p);
      assert Alone(s, p, k + 1) == Alone(s', p, k);
    }
  }

  /** Obstruction freedom: from every reachable state, a thread left to run alone
      finishes its attempt within six of its own steps. */
  lemma ObstructionFree<T(!new)>(n: nat, s: State<T>, p: nat)
    requires Reachable(Unbounded, n, s) && Shape(s) && p < |s.threads|
    ensures exists k: nat :: k <= 6 && Over(Alone(s, p, k), p)
  {
    ReachableInv(Unbounded, n, s);
    AloneFinishes(s, p);
  }

  // -------------------------------------------------------------------------- size()

  /** MpmcQueue::size on the two loaded positions. */
  function SizeOf(w: Word, n: nat, tail: nat, head: nat): nat {
    var dif := SignedDif(w, tail, head);
    if dif < 0 then 0 else if dif < n then dif else n
  }

  /** size() never over-reports by more than its head load is behind: whatever other
      threads do between its two loads and however stale both are, the result is at most
      the claimed count at either load plus the dequeues its head load missed, and at
      most the capacity. With a fresh head load it never over-reports, and with nothing
      in between and two fresh loads it is exact. */
  lemma SizeNeverOverReports<T(!new)>(n: nat, s: State<T>, acts: seq<Action<T>>, tail: nat, head: nat)
    requires Reachable(Unbounded, n, s) && Shape(s)
    requires tail in s.m.epos && head in Run(Unbounded, s, acts).m.dpos
    ensures var s', r := Run(Unbounded, s, acts), SizeOf(Unbounded, n, tail, head);
      var missed := |s'.m.deq| - head;
      && 0 <= missed && r <= n
      && r <= |s.m.enq| - |s.m.deq| + missed
      && r <= |s'.m.enq| - |s'.m.deq| + missed
      && (acts == [] && tail == Last(s.m.epos) && missed == 0 ==> r == |s.m.enq| - |s.m.deq|)
  {
    ReachableInv(Unbounded, n, s);
    RunInv(Unbounded, s, acts);
    RunGrows(Unbounded, s, acts);
  }
}
