/** Pushes of MpmcQueue that race with close(). */
module MpmcLate {
  import opened Common
  import opened Words
  import opened MpmcModel
  import opened MpmcInvariant
  import opened MpmcRuns
  import opened MpmcSolo

  // ------------------------------------------------------ when closed_ loads are fresh

  predicate PastCheck(pc: Pc) { pc.EnqLoad? || pc.EnqSeq? || pc.EnqCas? }

  /** push's loads of closed_ return the newest value; nothing else needs to. */
  predicate FreshCheck<T>(s: State<T>, a: Action<T>) {
    a.tid < |s.threads| && s.threads[a.tid].pc.PushCheck? && a.cmd.Go? ==>
      a.cmd.pick == |s.m.closed| - 1
  }

  predicate FreshChecks<T>(w: Word, s: State<T>, acts: seq<Action<T>>)
    requires Shape(s)
    decreases |acts|
  {
    acts == [] ||
    var prior := acts[..|acts| - 1];
    FreshChecks(w, s, prior) && FreshCheck(Run(w, s, prior), acts[|acts| - 1])
  }

  lemma NoNewPast<T>(w: Word, s: State<T>, a: Action<T>, q: nat)
    requires Shape(s) && q < |s.threads| && Last(s.m.closed).val && FreshCheck(s, a)
    ensures var s' := Step(w, s, a);
      q < |s'.threads| && (PastCheck(s'.threads[q].pc) ==> PastCheck(s.threads[q].pc))
  {
    StepGrows(w, s, a);
    if a.tid == q && a.cmd.Go? { PcFlow(w, s, q, a.cmd.pick, a.cmd.weak); }
  }

  lemma StaysClosed<T>(w: Word, s: State<T>, a: Action<T>)
    requires Shape(s) && Last(s.m.closed).val
    ensures Last(Step(w, s, a).m.closed).val
  {
    StepGrows(w, s, a);
  }

  /** A ticket is won by the acting thread, which thereby leaves its last check. */
  lemma WinnerWasPast<T>(w: Word, s: State<T>, a: Action<T>)
    requires Shape(s)
    ensures var s' := Step(w, s, a);
      s'.m.enq == s.m.enq ||
      (a.tid < |s.threads| == |s'.threads| && PastCheck(s.threads[a.tid].pc) && !PastCheck(s'.threads[a.tid].pc)
       && |s'.m.enq| == |s.m.enq| + 1 && Last(s'.m.enq).tid == a.tid)
  {
    StepGrows(w, s, a);
    if EventOf(s, a) == [] {
      StepQuiet(w, s, a);
    } else if s.threads[a.tid].pc.DeqCas? {
      assert Step(w, s, a).m.enq == s.m.enq;
    }
  }

  /** From s, where the queue is closed, to s': each late ticket belongs to a producer
      that was already past its check at s, and no producer has two. */
  ghost predicate LateOk<T>(s: State<T>, s': State<T>) {
    && |s'.threads| == |s.threads| && s.m.enq <= s'.m.enq
    && (forall q :: 0 <= q < |s.threads| && PastCheck(s'.threads[q].pc) ==> PastCheck(s.threads[q].pc))
    && (forall t :: |s.m.enq| <= t < |s'.m.enq| ==>
          var o := s'.m.enq[t].tid;
          o < |s.threads| && PastCheck(s.threads[o].pc) && !PastCheck(s'.threads[o].pc))
    && (forall t, u :: |s.m.enq| <= t < u < |s'.m.enq| ==> s'.m.enq[t].tid != s'.m.enq[u].tid)
  }

  lemma LateStep<T>(w: Word, s: State<T>, z: State<T>, a: Action<T>)
    requires Shape(z) && LateOk(s, z) && Last(z.m.closed).val && FreshCheck(z, a)
    ensures LateOk(s, Step(w, z, a))
  {
    var s' := Step(w, z, a);
    StepGrows(w, z, a);
    WinnerWasPast(w, z, a);
    forall q | 0 <= q < |z.threads| ensures PastCheck(s'.threads[q].pc) ==> PastCheck(z.threads[q].pc) {
      NoNewPast(w, z, a, q);
    }
  }

  /** A close racing with pushes admits at most one more item per producer already
      past its check, in every continuation whose closed_ loads are fresh. */
  lemma {:induction false} LatePushes<T>(w: Word, s: State<T>, acts: seq<Action<T>>)
    requires Shape(s) && Last(s.m.closed).val && FreshChecks(w, s, acts)
    ensures LateOk(s, Run(w, s, acts)) && Last(Run(w, s, acts).m.closed).val
    decreases |acts|
  {
    if acts != [] {
      var prior, a := acts[..|acts| - 1], acts[|acts| - 1];
      LatePushes(w, s, prior);
      LateStep(w, s, Run(w, s, prior), a);
      StaysClosed(w, Run(w, s, prior), a);
    }
  }

  // ------------------------------------------------------------- whatever loads return

  /** closed_ starts false and is true ever after. */
  predicate ClosedShape<T>(m: Mem<T>) {
    |m.closed| > 0 && forall k :: 0 <= k < |m.closed| ==> (m.closed[k].val <==> k > 0)
  }

  /** p can no longer read the initial value of closed_. */
  predicate Informed<T>(s: State<T>, p: nat) { p < |s.threads| && s.threads[p].view.c > 0 }

  lemma ClosedShapeStep<T>(w: Word, s: State<T>, a: Action<T>)
    requires Shape(s) && ClosedShape(s.m)
    ensures ClosedShape(Step(w, s, a).m)
  {
    StepGrows(w, s, a);
  }

  lemma {:induction false} ClosedShapeRun<T>(w: Word, s: State<T>, acts: seq<Action<T>>)
    requires Shape(s) && ClosedShape(s.m)
    ensures ClosedShape(Run(w, s, acts).m)
    decreases |acts|
  {
    if acts != [] {
      ClosedShapeRun(w, s, acts[..|acts| - 1]);
      ClosedShapeStep(w, Run(w, s, acts[..|acts| - 1]), acts[|acts| - 1]);
    }
  }

  lemma LoadKeepsC<T>(w: Word, s: State<T>, p: nat, pick: nat, weak: bool)
    requires Shape(s) && p < |s.threads| && Loading(s.threads[p].pc) && !SeqLoading(s.threads[p].pc)
    ensures s.threads[p].view.c <= Perform(w, s, p, pick, weak).threads[p].view.c
  {
  }

  lemma JudgeKeepsC<T>(w: Word, m: Mem<T>, th: Thread<T>, i: nat, pick: nat)
    requires MemShape(m) && i < m.cap && ViewShape(m.cap, th.view) && pick < |m.sq[i]|
    ensures th.view.c <= JudgeEnq(w, m, th, i, pick).view.c && th.view.c <= JudgeDeq(w, m, th, i, pick).view.c
  {
  }

  lemma SeqKeepsC<T>(w: Word, s: State<T>, p: nat, pick: nat, weak: bool)
    requires Shape(s) && p < |s.threads| && SeqLoading(s.threads[p].pc)
    ensures s.threads[p].view.c <= Perform(w, s, p, pick, weak).threads[p].view.c
  {
    var i := SlotIndex(w, s.m.cap, s.threads[p].ticket);
    SeqIs(w, s, p, pick, weak, i);
    if pick < |s.m.sq[i]| { JudgeKeepsC(w, s.m, s.threads[p], i, pick); }
  }

  lemma HolderKeepsC<T>(w: Word, s: State<T>, p: nat, pick: nat, weak: bool)
    requires Shape(s) && p < |s.threads| && Holding(s.threads[p].pc)
    ensures s.threads[p].view.c <= Perform(w, s, p, pick, weak).threads[p].view.c
  {
  }

  lemma CasKeepsC<T>(w: Word, s: State<T>, p: nat, pick: nat, weak: bool)
    requires Shape(s) && p < |s.threads|
    ensures s.threads[p].view.c <= CasEnq(w, s, p, pick, weak).threads[p].view.c
    ensures s.threads[p].view.c <= CasDeq(w, s, p, pick, weak).threads[p].view.c
  {
  }

  lemma KeepsC<T>(w: Word, s: State<T>, a: Action<T>, q: nat)
    requires Shape(s) && q < |s.threads|
    ensures var s' := Step(w, s, a); q < |s'.threads| && (s.threads[q].view.c > 0 ==> s'.threads[q].view.c > 0)
  {
    StepGrows(w, s, a);
    if a.tid == q && a.cmd.Go? {
      if SeqLoading(s.threads[q].pc) {
        SeqKeepsC(w, s, q, a.cmd.pick, a.cmd.weak);
      } else if Loading(s.threads[q].pc) {
        LoadKeepsC(w, s, q, a.cmd.pick, a.cmd.weak);
      } else if Holding(s.threads[q].pc) {
        HolderKeepsC(w, s, q, a.cmd.pick, a.cmd.weak);
      } else {
        CasKeepsC(w, s, q, a.cmd.pick, a.cmd.weak);
      }
    }
  }

  /** What is known of closed_ is never forgotten, and knowing of a close keeps a
      producer from passing its check again. */
  lemma InformedStep<T>(w: Word, s: State<T>, a: Action<T>, q: nat)
    requires Shape(s) && ClosedShape(s.m) && Informed(s, q)
    ensures var s' := Step(w, s, a);
      Informed(s', q) && (PastCheck(s'.threads[q].pc) ==> PastCheck(s.threads[q].pc))
  {
    StepGrows(w, s, a);
    KeepsC(w, s, a, q);
    if a.tid == q && a.cmd.Go? { PcFlow(w, s, q, a.cmd.pick, a.cmd.weak); }
  }

  /** From s to s': a late ticket of a producer that knew of the close at s is its only
      one, and that producer was already past its check. */
  ghost predicate InformedLate<T>(s: State<T>, s': State<T>) {
    && |s'.threads| == |s.threads| && s.m.enq <= s'.m.enq
    && (forall q :: 0 <= q < |s.threads| && Informed(s, q) ==>
          Informed(s', q) && (PastCheck(s'.threads[q].pc) ==> PastCheck(s.threads[q].pc)))
    && (forall t :: |s.m.enq| <= t < |s'.m.enq| ==>
          var o := s'.m.enq[t].tid;
          o < |s.threads| && (Informed(s, o) ==> PastCheck(s.threads[o].pc) && !PastCheck(s'.threads[o].pc)))
    && (forall t, u :: |s.m.enq| <= t < u < |s'.m.enq| && s'.m.enq[t].tid == s'.m.enq[u].tid ==>
          !Informed(s, s'.m.enq[t].tid))
  }

  lemma InformedLateStep<T>(w: Word, s: State<T>, z: State<T>, a: Action<T>)
    requires Shape(z) && ClosedShape(z.m) && InformedLate(s, z)
    ensures InformedLate(s, Step(w, z, a))
  {
    var s' := Step(w, z, a);
    StepGrows(w, z, a);
    WinnerWasPast(w, z, a);
    forall q | 0 <= q < |z.threads| && Informed(z, q)
      ensures Informed(s', q) && (PastCheck(s'.threads[q].pc) ==> PastCheck(z.threads[q].pc))
    {
      InformedStep(w, z, a, q);
    }
  }

  /** In every continuation, stale loads included: a producer that knows of a close and is
      not past its check wins no further ticket, and one that is wins at most one. */
  lemma {:induction false} InformedPushes<T>(w: Word, s: State<T>, acts: seq<Action<T>>)
    requires Shape(s) && ClosedShape(s.m)
    ensures InformedLate(s, Run(w, s, acts)) && ClosedShape(Run(w, s, acts).m)
    decreases |acts|
  {
    if acts != [] {
      var prior, a := acts[..|acts| - 1], acts[|acts| - 1];
      InformedPushes(w, s, prior);
      InformedLateStep(w, s, Run(w, s, prior), a);
      ClosedShapeStep(w, Run(w, s, prior), a);
    }
  }

  lemma SoundClosed<T(!new)>(s: State<T>)
    requires Sound(s)
    ensures ClosedShape(s.m)
  {
    var n: nat :| Reachable(Unbounded, n, s);
    var threads: nat, blank: T, acts: seq<Action<T>> :|
      n > 0 && s == Run(Unbounded, Init(n, threads, blank), acts) && Fits(Unbounded, s.m);
    ClosedShapeRun(Unbounded, Init(n, threads, blank), acts);
  }

  /** Some continuation in which only p acts gives p a ticket. */
  ghost predicate Lands<T(!new)>(s: State<T>, p: nat)
    requires Shape(s)
  {
    exists s' :: Via(Just(p), s, s') && |s'.m.enq| > |s.m.enq|
  }

  lemma OwnTickets<T>(s: State<T>, p: nat, acts: seq<Action<T>>)
    requires Shape(s) && ClosedShape(s.m) && Only(Just(p), acts) && Informed(s, p) && !PastCheck(s.threads[p].pc)
    ensures Run(Unbounded, s, acts).m.enq == s.m.enq
    decreases |acts|
  {
    if acts != [] {
      var prior := acts[..|acts| - 1];
      OwnTickets(s, p, prior);
      InformedPushes(Unbounded, s, prior);
      WinnerWasPast(Unbounded, Run(Unbounded, s, prior), acts[|acts| - 1]);
    }
  }

  /** The exact condition for a late push: with room, an idle producer acting alone can
      still land an item if and only if it does not know of any close. */
  lemma LandsExactly<T(!new)>(s: State<T>, p: nat, x: T)
    requires Sound(s) && Shape(s) && p < |s.threads| && s.threads[p].pc.Idle?
    requires Top(s.m, Tail(s.m) % s.m.cap) == 2 * Tail(s.m)
    ensures Lands(s, p) <==> !Informed(s, p)
  {
    SoundClosed(s);
    if Informed(s, p) {
      forall s' | Via(Just(p), s, s') ensures s'.m.enq == s.m.enq {
        var acts: seq<Action<T>> :| Only(Just(p), acts) && s' == Run(Unbounded, s, acts);
        OwnTickets(s, p, acts);
      }
    } else {
      ReachedStart(Just(p), s);
      var s' := PushSolo(Just(p), s, s, p, x, 0);
    }
  }

  lemma SecondSlot<T>(n: nat, threads: nat, blank: T)
    requires n > 1
    ensures var m := Init(n, threads, blank).m;
      m.sq[0] == [SeqMsg(0, ZeroView(n))] && m.sq[1] == [SeqMsg(2, ZeroView(n))] && 0 % n == 0 && 1 % n == 1
  {
  }

  /** Without fresh loads the bound fails: after a close it does not know of, a producer
      lands two items. */
  lemma TwoLate<T(!new)>(n: nat, threads: nat, blank: T, x: T, y: T) returns (s: State<T>, s': State<T>)
    requires n > 1 && threads >= 2
    ensures Sound(s) && Shape(s) && Last(s.m.closed).val && |s.threads| == threads && s.threads[0].pc.Idle?
    ensures Via(Just(0), s, s') && s.m.enq == [] && s'.m.enq == [Claim(0, x), Claim(0, y)]
  {
    var s0 := Init(n, threads, blank);
    SoundStart(n, threads, blank);
    SecondSlot(n, threads, blank);
    SoundOn(s0, Action(1, Call(Close)));
    s := Step(Unbounded, s0, Action(1, Call(Close)));
    ReachedStart(Just(0), s);
    var s1 := PushSolo(Just(0), s, s, 0, x, 0);
    s' := PushSolo(Just(0), s, s1, 0, y, 0);
  }
}
