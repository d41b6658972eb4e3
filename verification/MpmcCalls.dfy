/** What MpmcQueue's calls answer: every call enqueues its own argument or takes one item
    exactly when it returns true, and no call returns false without cause. Which call a
    thread is executing is read off the actions, not off the thread. */
module MpmcCalls {
  import opened Common
  import opened Words
  import opened MpmcModel
  import opened MpmcInvariant
  import opened MpmcRuns
  import opened MpmcProgress
  import opened MpmcShutdown

  predicate IsPop<T>(op: Op<T>) { op.Pop? || op.TryPop? }

  predicate InPop(pc: Pc) {
    pc.DeqLoad? || pc.DeqSeq? || pc.DeqCas? || pc.DeqRead? || pc.DeqRelease? || pc.PopCheck?
  }

  /** a is a push or pop call by p, made between calls. */
  predicate Begins<T>(s: State<T>, a: Action<T>, p: nat) {
    && a.tid == p < |s.threads| && s.threads[p].pc.Idle?
    && a.cmd.Call? && (IsPush(a.cmd.op) || IsPop(a.cmd.op))
  }

  /** The last push or pop that p began. */
  function LastCall<T>(w: Word, s0: State<T>, acts: seq<Action<T>>, p: nat): Option<Op<T>>
    requires Shape(s0)
    decreases |acts|
  {
    if acts == [] then None
    else
      var prior, a := acts[..|acts| - 1], acts[|acts| - 1];
      if Begins(Run(w, s0, prior), a, p) then Some(a.cmd.op) else LastCall(w, s0, prior, p)
  }

  /** Enqueue and dequeue tickets won by p since then. */
  datatype Won = Won(pushes: int, pops: int)

  function WonBy<T>(s: State<T>, a: Action<T>, p: nat, s': State<T>): Won {
    if a.tid == p then Won(|s'.m.enq| - |s.m.enq|, |s'.m.deq| - |s.m.deq|) else Won(0, 0)
  }

  function Since<T>(w: Word, s0: State<T>, acts: seq<Action<T>>, p: nat): Won
    requires Shape(s0)
    decreases |acts|
  {
    if acts == [] then Won(0, 0)
    else
      var prior, a := acts[..|acts| - 1], acts[|acts| - 1];
      var s := Run(w, s0, prior);
      if Begins(s, a, p) then Won(0, 0)
      else
        var n, d := Since(w, s0, prior, p), WonBy(s, a, p, Step(w, s, a));
        Won(n.pushes + d.pushes, n.pops + d.pops)
  }

  // ------------------------------------------------------------- what one step does

  /** The thread works for call c: its mode and argument are the call's. */
  predicate Serves<T(==)>(th: Thread<T>, c: Option<Op<T>>) {
    && (InPush(th.pc) ==> c.Some? && IsPush(c.value) && th.blocking == c.value.Push? && th.item == c.value.item)
    && (InPop(th.pc) ==> c.Some? && IsPop(c.value) && th.blocking == c.value.Pop? && (th.final ==> th.blocking))
    && (th.pc.PopCheck? ==> th.blocking)
  }

  /** A step inside a call keeps the call's mode and, in a push, its argument. */
  ghost predicate SameCall<T>(th: Thread<T>, th': Thread<T>) {
    && th'.blocking == th.blocking && (InPush(th.pc) ==> th'.item == th.item && !InPop(th'.pc))
    && (InPop(th.pc) ==> !InPush(th'.pc))
    && (th'.pc.PopCheck? ==> th.pc.PopCheck? || th.blocking)
    && (th'.final ==> th.final || th.pc.PopCheck?)
  }

  lemma JudgeSameCall<T>(w: Word, m: Mem<T>, th: Thread<T>, i: nat, pick: nat)
    requires MemShape(m) && i < m.cap && ViewShape(m.cap, th.view) && pick < |m.sq[i]|
    ensures th.pc.EnqSeq? ==> SameCall(th, JudgeEnq(w, m, th, i, pick))
    ensures th.pc.DeqSeq? ==> SameCall(th, JudgeDeq(w, m, th, i, pick))
  {
  }

  lemma SeqSameCall<T>(w: Word, s: State<T>, p: nat, pick: nat, weak: bool)
    requires Shape(s) && p < |s.threads| && SeqLoading(s.threads[p].pc)
    ensures SameCall(s.threads[p], Perform(w, s, p, pick, weak).threads[p])
  {
    var i := SlotIndex(w, s.m.cap, s.threads[p].ticket);
    SeqIs(w, s, p, pick, weak, i);
    if pick < |s.m.sq[i]| { JudgeSameCall(w, s.m, s.threads[p], i, pick); }
  }

  lemma LoadSameCall<T>(w: Word, s: State<T>, p: nat, pick: nat, weak: bool)
    requires Shape(s) && p < |s.threads| && Loading(s.threads[p].pc) && !SeqLoading(s.threads[p].pc)
    ensures SameCall(s.threads[p], Perform(w, s, p, pick, weak).threads[p])
  {
  }

  lemma CasSameCall<T>(w: Word, s: State<T>, p: nat, pick: nat, weak: bool)
    requires Shape(s) && p < |s.threads|
    ensures s.threads[p].pc.EnqCas? ==> SameCall(s.threads[p], CasEnq(w, s, p, pick, weak).threads[p])
    ensures s.threads[p].pc.DeqCas? ==> SameCall(s.threads[p], CasDeq(w, s, p, pick, weak).threads[p])
  {
  }

  lemma AccessSameCall<T>(s: State<T>, p: nat, i: nat)
    requires Shape(s) && p < |s.threads| && i < s.m.cap
    ensures s.threads[p].pc.EnqWrite? ==> SameCall(s.threads[p], WriteValue(s, p, i).threads[p])
    ensures s.threads[p].pc.DeqRead? ==> SameCall(s.threads[p], ReadValue(s, p, i).threads[p])
  {
  }

  lemma StoreSameCall<T>(s: State<T>, p: nat, i: nat, val: nat)
    requires Shape(s) && p < |s.threads| && i < s.m.cap
    ensures SameCall(s.threads[p], StoreSeq(s, p, i, val).threads[p])
  {
  }

  lemma HolderSameCall<T>(w: Word, s: State<T>, p: nat, pick: nat, weak: bool)
    requires Shape(s) && p < |s.threads| && Holding(s.threads[p].pc)
    ensures SameCall(s.threads[p], Perform(w, s, p, pick, weak).threads[p])
  {
    var t := s.threads[p].ticket;
    var i := SlotIndex(w, s.m.cap, t);
    match s.threads[p].pc {
      case EnqPublish => StoreSameCall(s, p, i, Wrap(w, 2 * t + 1));
      case DeqRelease => StoreSameCall(s, p, i, Wrap(w, 2 * (t + s.m.cap)));
      case _ => AccessSameCall(s, p, i);
    }
  }

  lemma GoSameCall<T>(w: Word, s: State<T>, p: nat, pick: nat, weak: bool)
    requires Shape(s) && p < |s.threads| && !s.threads[p].pc.Idle?
    ensures var s' := Perform(w, s, p, pick, weak); p < |s'.threads| && SameCall(s.threads[p], s'.threads[p])
  {
    PcFlow(w, s, p, pick, weak);
    var pc := s.threads[p].pc;
    if SeqLoading(pc) {
      SeqSameCall(w, s, p, pick, weak);
    } else if Loading(pc) {
      LoadSameCall(w, s, p, pick, weak);
    } else if Holding(pc) {
      HolderSameCall(w, s, p, pick, weak);
    } else {
      CasSameCall(w, s, p, pick, weak);
    }
  }

  lemma CallServes<T>(s: State<T>, p: nat, op: Op<T>, c: Option<Op<T>>)
    requires Shape(s) && p < |s.threads| && s.threads[p].pc.Idle?
    ensures var th' := StartCall(s, p, op).threads[p];
      && Serves(th', if IsPush(op) || IsPop(op) then Some(op) else c)
      && (th'.pc.Idle? <==> !IsPush(op) && !IsPop(op))
      && th'.ok == s.threads[p].ok && th'.ticket == s.threads[p].ticket
      && (th'.pc.Idle? ==> th'.item == s.threads[p].item)
  {
  }

  lemma ServesStep<T>(w: Word, s: State<T>, a: Action<T>, p: nat, c: Option<Op<T>>)
    requires Shape(s) && p < |s.threads| && Serves(s.threads[p], c)
    ensures var s' := Step(w, s, a);
      p < |s'.threads| && Serves(s'.threads[p], if Begins(s, a, p) then Some(a.cmd.op) else c)
  {
    StepGrows(w, s, a);
    if a.tid == p {
      match a.cmd {
        case Call(op) => if s.threads[p].pc.Idle? { CallServes(s, p, op, c); }
        case Go(pick, weak) =>
          PcFlow(w, s, p, pick, weak);
          if !s.threads[p].pc.Idle? { GoSameCall(w, s, p, pick, weak); }
      }
    }
  }

  lemma {:induction false} ServesRun<T>(w: Word, n: nat, threads: nat, blank: T, acts: seq<Action<T>>, p: nat)
    requires n > 0 && p < threads
    ensures var s0 := Init(n, threads, blank); var s := Run(w, s0, acts);
      p < |s.threads| && Serves(s.threads[p], LastCall(w, s0, acts, p))
    decreases |acts|
  {
    if acts != [] {
      var prior := acts[..|acts| - 1];
      var s0 := Init(n, threads, blank);
      ServesRun(w, n, threads, blank, prior, p);
      ServesStep(w, Run(w, s0, prior), acts[|acts| - 1], p, LastCall(w, s0, prior, p));
    }
  }

  // ------------------------------------------------------------------ the arguments

  lemma NewClaim<T>(w: Word, s: State<T>, a: Action<T>)
    requires Shape(s)
    ensures var s' := Step(w, s, a);
      if a.tid < |s.threads| && s.threads[a.tid].pc.EnqCas? && |s'.m.enq| > |s.m.enq|
      then s'.m.enq == s.m.enq + [Claim(a.tid, s.threads[a.tid].item)] && s'.threads[a.tid].pc.EnqWrite?
           && s'.threads[a.tid].ticket == Last(s.m.epos)
      else s'.m.enq == s.m.enq
  {
    if EventOf(s, a) == [] { StepQuiet(w, s, a); }
  }

  lemma NewTake<T>(w: Word, s: State<T>, a: Action<T>)
    requires Shape(s)
    ensures var s' := Step(w, s, a);
      if a.tid < |s.threads| && s.threads[a.tid].pc.DeqCas? && |s'.m.deq| > |s.m.deq|
      then s'.m.deq == s.m.deq + [Take(a.tid, None)] && s'.threads[a.tid].pc.DeqRead?
      else |s'.m.deq| == |s.m.deq|
  {
    if EventOf(s, a) == [] { StepQuiet(w, s, a); }
  }

  /** For each enqueue ticket, who won it and which call that thread had begun last. */
  function Issued<T>(w: Word, s0: State<T>, acts: seq<Action<T>>): seq<(nat, Option<Op<T>>)>
    requires Shape(s0)
    decreases |acts|
  {
    if acts == [] then []
    else
      var prior, a := acts[..|acts| - 1], acts[|acts| - 1];
      Issued(w, s0, prior)
      + if |Run(w, s0, acts).m.enq| > |Run(w, s0, prior).m.enq| then [(a.tid, LastCall(w, s0, prior, a.tid))] else []
  }

  ghost predicate Matches<T>(enq: seq<Claim<T>>, calls: seq<(nat, Option<Op<T>>)>) {
    && |calls| == |enq|
    && forall t :: 0 <= t < |enq| ==>
         && calls[t].1.Some? && IsPush(calls[t].1.value)
         && enq[t] == Claim(calls[t].0, calls[t].1.value.item)
  }

  lemma MatchesStep<T>(w: Word, s: State<T>, a: Action<T>, calls: seq<(nat, Option<Op<T>>)>, c: Option<Op<T>>)
    requires Shape(s) && Matches(s.m.enq, calls) && (a.tid < |s.threads| ==> Serves(s.threads[a.tid], c))
    ensures var s' := Step(w, s, a);
      Matches(s'.m.enq, calls + if |s'.m.enq| > |s.m.enq| then [(a.tid, c)] else [])
  {
    NewClaim(w, s, a);
  }

  /** Every item in the queue is the argument of a call: the t-th enqueue ticket carries
      the argument of the push or try_push that its winner had begun last. */
  lemma {:induction false} ClaimsAreArguments<T>(w: Word, n: nat, threads: nat, blank: T, acts: seq<Action<T>>)
    requires n > 0
    ensures var s0 := Init(n, threads, blank); Matches(Run(w, s0, acts).m.enq, Issued(w, s0, acts))
    decreases |acts|
  {
    if acts != [] {
      var prior, a := acts[..|acts| - 1], acts[|acts| - 1];
      var s0 := Init(n, threads, blank);
      ClaimsAreArguments(w, n, threads, blank, prior);
      RunGrows(w, s0, prior);
      if a.tid < threads { ServesRun(w, n, threads, blank, prior, a.tid); }
      MatchesStep(w, Run(w, s0, prior), a, Issued(w, s0, prior), LastCall(w, s0, prior, a.tid));
    }
  }

  /** From argument to result: whoever wins dequeue ticket t delivers the argument of the
      call that won enqueue ticket t. */
  lemma DeliversArguments<T>(w: Word, n: nat, threads: nat, blank: T, acts: seq<Action<T>>)
    requires n > 0 && Fits(w, Run(w, Init(n, threads, blank), acts).m)
    ensures var s0 := Init(n, threads, blank); var s, calls := Run(w, s0, acts), Issued(w, s0, acts);
      && |s.m.deq| <= |calls|
      && forall t :: 0 <= t < |s.m.deq| && s.m.deq[t].got.Some? ==>
           calls[t].1.Some? && IsPush(calls[t].1.value) && s.m.deq[t].got.value == calls[t].1.value.item
  {
    Linearizable(w, n, threads, blank, acts);
    ClaimsAreArguments(w, n, threads, blank, acts);
  }

  // -------------------------------------------------------------------- the answers

  /** What thread p's last call has done so far, and, once it has returned, what its
      answer means. */
  ghost predicate Answers<T>(m: Mem<T>, p: nat, th: Thread<T>, c: Option<Op<T>>, n: Won) {
    && (InPush(th.pc) ==> n == Won(if Producing(th.pc) then 1 else 0, 0))
    && (InPop(th.pc) ==> n == Won(0, if Consuming(th.pc) then 1 else 0))
    && (th.pc.Idle? && c.Some? && IsPush(c.value) ==>
          && n == Won(if th.ok then 1 else 0, 0)
          && (th.ok ==> th.ticket < |m.enq| && m.enq[th.ticket] == Claim(p, c.value.item)))
    && (th.pc.Idle? && c.Some? && IsPop(c.value) ==>
          && n == Won(0, if th.ok then 1 else 0)
          && (th.ok ==> th.ticket < |m.deq| && th.ticket < |m.enq| && m.deq[th.ticket] == Take(p, Some(th.item))
                        && th.item == m.enq[th.ticket].item))
  }

  /** What has been delivered stays delivered. */
  lemma DeliveredStays<T>(w: Word, s: State<T>, a: Action<T>, u: nat)
    requires Inv(s) && Fits(w, s.m) && u < |s.m.deq| && s.m.deq[u].got.Some?
    ensures var m' := Step(w, s, a).m; u < |m'.deq| && m'.deq[u] == s.m.deq[u]
  {
    NewTake(w, s, a);
    if a.tid < |s.threads| && a.cmd.Go? && s.threads[a.tid].pc.DeqRead? {
      assert ThreadOk(s.m, a.tid, s.threads[a.tid]);
    } else if a.tid < |s.threads| && a.cmd.Go? && Loading(s.threads[a.tid].pc) {
      LoadKeeps(w, s, a.tid, a.cmd.pick, a.cmd.weak);
    }
  }

  /** Nobody else's step changes what p's answer means. */
  lemma AnswersFrame<T>(w: Word, s: State<T>, a: Action<T>, p: nat, c: Option<Op<T>>, n: Won)
    requires Inv(s) && Fits(w, s.m) && p < |s.threads| && Answers(s.m, p, s.threads[p], c, n)
    ensures Answers(Step(w, s, a).m, p, s.threads[p], c, n)
  {
    StepGrows(w, s, a);
    var th := s.threads[p];
    if th.pc.Idle? && c.Some? && IsPop(c.value) && th.ok { DeliveredStays(w, s, a, th.ticket); }
  }

  lemma AnswersCall<T>(m: Mem<T>, p: nat, th: Thread<T>, th': Thread<T>, c: Option<Op<T>>, op: Op<T>, n: Won)
    requires Answers(m, p, th, c, n) && th.pc.Idle? && th'.ok == th.ok && th'.ticket == th.ticket
    requires th'.pc.Idle? ==> th'.item == th.item
    requires th'.pc.Idle? <==> !IsPush(op) && !IsPop(op)
    requires Serves(th', if IsPush(op) || IsPop(op) then Some(op) else c)
    requires Holding(th'.pc) ==> false
    ensures if IsPush(op) || IsPop(op) then Answers(m, p, th', Some(op), Won(0, 0)) else Answers(m, p, th', c, n)
  {
  }

  /** How an attempt goes on from a load or a compare-exchange; `ok` is cleared whenever
      the call then returns. */
  predicate Turns<T>(th: Thread<T>, th': Thread<T>) {
    && (InPush(th.pc) && !Producing(th.pc) ==> InPush(th'.pc) || (th'.pc.Idle? && !th'.ok))
    && (InPop(th.pc) && !Consuming(th.pc) ==> InPop(th'.pc) || (th'.pc.Idle? && !th'.ok))
  }

  lemma JudgeTurns<T>(w: Word, m: Mem<T>, th: Thread<T>, i: nat, pick: nat)
    requires MemShape(m) && i < m.cap && ViewShape(m.cap, th.view) && pick < |m.sq[i]|
    ensures th.pc.EnqSeq? ==> Turns(th, JudgeEnq(w, m, th, i, pick))
    ensures th.pc.DeqSeq? ==> Turns(th, JudgeDeq(w, m, th, i, pick))
  {
  }

  lemma LoadTurns<T>(w: Word, s: State<T>, p: nat, pick: nat, weak: bool)
    requires Shape(s) && p < |s.threads| && Loading(s.threads[p].pc)
    ensures Turns(s.threads[p], Perform(w, s, p, pick, weak).threads[p])
  {
    var i := SlotIndex(w, s.m.cap, s.threads[p].ticket);
    if SeqLoading(s.threads[p].pc) && pick < |s.m.sq[i]| { JudgeTurns(w, s.m, s.threads[p], i, pick); }
  }

  lemma CasTurns<T>(w: Word, s: State<T>, p: nat, pick: nat, weak: bool)
    requires Shape(s) && p < |s.threads|
    ensures s.threads[p].pc.EnqCas? ==> var s' := CasEnq(w, s, p, pick, weak);
      && InPush(s'.threads[p].pc) && |s'.m.deq| == |s.m.deq|
      && |s'.m.enq| == |s.m.enq| + (if Producing(s'.threads[p].pc) then 1 else 0)
    ensures s.threads[p].pc.DeqCas? ==> var s' := CasDeq(w, s, p, pick, weak);
      && InPop(s'.threads[p].pc) && |s'.m.enq| == |s.m.enq|
      && |s'.m.deq| == |s.m.deq| + (if Consuming(s'.threads[p].pc) then 1 else 0)
  {
  }

  lemma HolderTurns<T>(w: Word, s: State<T>, p: nat, pick: nat, weak: bool)
    requires Inv(s) && Fits(w, s.m) && p < |s.threads| && Holding(s.threads[p].pc)
    ensures var s' := Perform(w, s, p, pick, weak); var th, th' := s.threads[p], s'.threads[p];
      && s'.m.enq == s.m.enq && |s'.m.deq| == |s.m.deq| && th'.ticket == th.ticket
      && (th.pc.EnqWrite? ==> th'.pc.EnqPublish?) && (th.pc.DeqRead? ==> th'.pc.DeqRelease?)
      && (th.pc.EnqPublish? ==> th'.pc.Idle? && th'.ok && th'.item == th.item)
      && (th.pc.DeqRelease? ==> th'.pc.Idle? && th'.ok && th'.item == th.item && s'.m.deq == s.m.deq)
  {
    HeldFits(w, s, p);
    HolderIs(w, s, p, pick, weak, s.threads[p].ticket, SlotIndex(w, s.m.cap, s.threads[p].ticket));
  }

  lemma OwnLoadAnswers<T>(m: Mem<T>, p: nat, th: Thread<T>, th': Thread<T>, c: Option<Op<T>>, n: Won)
    requires Answers(m, p, th, c, n) && Serves(th, c) && Loading(th.pc) && Turns(th, th') && PcEdge(th.pc, th'.pc)
    ensures Answers(m, p, th', c, n)
  {
  }

  lemma OwnCasAnswers<T>(m: Mem<T>, p: nat, th: Thread<T>, m': Mem<T>, th': Thread<T>, c: Option<Op<T>>, n: Won)
    requires Answers(m, p, th, c, n) && (th.pc.EnqCas? || th.pc.DeqCas?)
    requires th.pc.EnqCas? ==>
      InPush(th'.pc) && |m'.deq| == |m.deq| && |m'.enq| == |m.enq| + (if Producing(th'.pc) then 1 else 0)
    requires th.pc.DeqCas? ==>
      InPop(th'.pc) && |m'.enq| == |m.enq| && |m'.deq| == |m.deq| + (if Consuming(th'.pc) then 1 else 0)
    ensures Answers(m', p, th', c, Won(n.pushes + |m'.enq| - |m.enq|, n.pops + |m'.deq| - |m.deq|))
  {
  }

  lemma HeldItem<T>(s: State<T>, p: nat)
    requires Inv(s) && p < |s.threads|
    ensures var th := s.threads[p];
      && (Producing(th.pc) ==> th.ticket < |s.m.enq| && s.m.enq[th.ticket] == Claim(p, th.item))
      && (th.pc.DeqRelease? ==>
            && th.ticket < |s.m.deq| && th.ticket < |s.m.enq|
            && s.m.deq[th.ticket] == Take(p, Some(th.item)) && th.item == s.m.enq[th.ticket].item)
  {
    assert ThreadOk(s.m, p, s.threads[p]);
    if s.threads[p].pc.DeqRelease? { assert Delivers(s.m, s.threads, s.threads[p].ticket); }
  }

  lemma OwnHolderAnswers<T>(w: Word, s: State<T>, p: nat, pick: nat, weak: bool, c: Option<Op<T>>, n: Won)
    requires Inv(s) && Fits(w, s.m) && p < |s.threads| && Holding(s.threads[p].pc)
    requires Serves(s.threads[p], c) && Answers(s.m, p, s.threads[p], c, n)
    ensures var s' := Perform(w, s, p, pick, weak); Answers(s'.m, p, s'.threads[p], c, n)
  {
    HolderTurns(w, s, p, pick, weak);
    HeldItem(s, p);
  }

  lemma OwnGoAnswers<T>(w: Word, s: State<T>, p: nat, pick: nat, weak: bool, c: Option<Op<T>>, n: Won)
    requires Inv(s) && Fits(w, s.m) && p < |s.threads|
    requires Serves(s.threads[p], c) && Answers(s.m, p, s.threads[p], c, n)
    ensures var s' := Perform(w, s, p, pick, weak);
      p < |s'.threads|
      && Answers(s'.m, p, s'.threads[p], c, Won(n.pushes + |s'.m.enq| - |s.m.enq|, n.pops + |s'.m.deq| - |s.m.deq|))
  {
    var s', pc := Perform(w, s, p, pick, weak), s.threads[p].pc;
    PcFlow(w, s, p, pick, weak);
    if Loading(pc) {
      LoadKeeps(w, s, p, pick, weak);
      LoadTurns(w, s, p, pick, weak);
      OwnLoadAnswers(s.m, p, s.threads[p], s'.threads[p], c, n);
    } else if Holding(pc) {
      HolderTurns(w, s, p, pick, weak);
      OwnHolderAnswers(w, s, p, pick, weak, c, n);
    } else if !pc.Idle? {
      CasTurns(w, s, p, pick, weak);
      OwnCasAnswers(s.m, p, s.threads[p], s'.m, s'.threads[p], c, n);
    }
  }

  lemma OwnCallAnswers<T>(w: Word, s: State<T>, p: nat, op: Op<T>, c: Option<Op<T>>, n: Won)
    requires Inv(s) && Fits(w, s.m) && p < |s.threads| && s.threads[p].pc.Idle?
    requires Serves(s.threads[p], c) && Answers(s.m, p, s.threads[p], c, n)
    ensures var s' := StartCall(s, p, op);
      && p < |s'.threads| && |s'.m.enq| == |s.m.enq| && |s'.m.deq| == |s.m.deq|
      && if IsPush(op) || IsPop(op) then Answers(s'.m, p, s'.threads[p], Some(op), Won(0, 0))
         else Answers(s'.m, p, s'.threads[p], c, n)
  {
    var th' := StartCall(s, p, op).threads[p];
    CallServes(s, p, op, c);
    AnswersFrame(w, s, Action(p, Call(op)), p, c, n);
    AnswersCall(Step(w, s, Action(p, Call(op))).m, p, s.threads[p], th', c, op, n);
  }

  lemma AnswersStep<T>(w: Word, s: State<T>, a: Action<T>, p: nat, c: Option<Op<T>>, n: Won)
    requires Inv(s) && Fits(w, s.m) && p < |s.threads|
    requires Serves(s.threads[p], c) && Answers(s.m, p, s.threads[p], c, n)
    ensures var s' := Step(w, s, a); var d := WonBy(s, a, p, s');
      p < |s'.threads|
      && if Begins(s, a, p) then Answers(s'.m, p, s'.threads[p], Some(a.cmd.op), Won(0, 0))
         else Answers(s'.m, p, s'.threads[p], c, Won(n.pushes + d.pushes, n.pops + d.pops))
  {
    StepGrows(w, s, a);
    if a.tid != p {
      AnswersFrame(w, s, a, p, c, n);
    } else {
      match a.cmd {
        case Call(op) => if s.threads[p].pc.Idle? { OwnCallAnswers(w, s, p, op, c, n); }
        case Go(pick, weak) => OwnGoAnswers(w, s, p, pick, weak, c, n);
      }
    }
  }

  /** Every answer is right. Since a thread began its last call, it has won exactly one
      enqueue ticket if that is a push which returned true, none if it returned false;
      the ticket carries its argument. Likewise for pops and dequeue tickets: a pop that
      returned true holds the item its one ticket delivers. */
  lemma {:induction false} EveryCallAnswers<T>(w: Word, n: nat, threads: nat, blank: T, acts: seq<Action<T>>, p: nat)
    requires n > 0 && p < threads && Fits(w, Run(w, Init(n, threads, blank), acts).m)
    ensures var s0 := Init(n, threads, blank); var s := Run(w, s0, acts);
      p < |s.threads| && Answers(s.m, p, s.threads[p], LastCall(w, s0, acts, p), Since(w, s0, acts, p))
    decreases |acts|
  {
    if acts != [] {
      var prior, a := acts[..|acts| - 1], acts[|acts| - 1];
      var s0 := Init(n, threads, blank);
      StepGrows(w, Run(w, s0, prior), a);
      EveryCallAnswers(w, n, threads, blank, prior, p);
      ServesRun(w, n, threads, blank, prior, p);
      InitInv(n, threads, blank);
      RunInv(w, s0, prior);
      AnswersStep(w, Run(w, s0, prior), a, p, LastCall(w, s0, prior, p), Since(w, s0, prior, p));
    }
  }

  // ------------------------------------------------------------------ why an attempt fails

  /** try_enqueue gives up only on a sequence below its ticket's; on the newest sequence,
      exactly when the ring is full or the consumer of its slot is still moving out. A
      blocking push then checks closed_ again, try_push returns false. */
  lemma EnqFails<T>(s: State<T>, p: nat, pick: nat, weak: bool)
    requires Inv(s) && p < |s.threads|
    requires s.threads[p].pc.EnqLoad? || s.threads[p].pc.EnqSeq? || s.threads[p].pc.EnqCas?
    ensures var t := s.threads[p].ticket; var i := t % s.m.cap;
      var th, th' := s.threads[p], Perform(Unbounded, s, p, pick, weak).threads[p];
      var failed := th'.pc.Idle? || th'.pc.PushCheck?;
      && (failed ==> th.pc.EnqSeq? && Readable(th.view.sq[i], pick, |s.m.sq[i]|) && s.m.sq[i][pick].val < 2 * t
                     && th'.pc == (if th.blocking then PushCheck else Idle) && !th'.ok)
      && (th.pc.EnqSeq? && pick == |s.m.sq[i]| - 1 ==> (failed <==> |s.m.enq| == t && Unreleased(s, t)))
  {
    PcFlow(Unbounded, s, p, pick, weak);
    assert ThreadOk(s.m, p, s.threads[p]);
    if s.threads[p].pc.EnqSeq? {
      EnqSeqOutcome(s, p, s.threads[p].ticket % s.m.cap, pick);
      FullVerdict(s.m.cap, s, p);
    } else if s.threads[p].pc.EnqCas? {
      CasTurns(Unbounded, s, p, pick, weak);
      CasNotBack(s, p, pick, weak);
    }
  }

  lemma CasNotBack<T>(s: State<T>, p: nat, pick: nat, weak: bool)
    requires Shape(s) && p < |s.threads|
    ensures s.threads[p].pc.EnqCas? ==> !CasEnq(Unbounded, s, p, pick, weak).threads[p].pc.PushCheck?
    ensures s.threads[p].pc.DeqCas? ==> !CasDeq(Unbounded, s, p, pick, weak).threads[p].pc.PopCheck?
  {
  }

  lemma EnqSeqOutcome<T>(s: State<T>, p: nat, i: nat, pick: nat)
    requires Shape(s) && p < |s.threads| && s.threads[p].pc.EnqSeq? && i == s.threads[p].ticket % s.m.cap
    ensures var th, th' := s.threads[p], LoadSeqEnq(Unbounded, s, p, pick).threads[p];
      if !Readable(th.view.sq[i], pick, |s.m.sq[i]|) then th' == th
      else if s.m.sq[i][pick].val < 2 * th.ticket
      then th'.pc == (if th.blocking then PushCheck else Idle) && !th'.ok
      else th'.pc == (if s.m.sq[i][pick].val == 2 * th.ticket then EnqCas else EnqLoad)
  {
  }

  lemma DeqSeqOutcome<T>(s: State<T>, p: nat, i: nat, pick: nat)
    requires Shape(s) && p < |s.threads| && s.threads[p].pc.DeqSeq? && i == s.threads[p].ticket % s.m.cap
    ensures var th, th' := s.threads[p], LoadSeqDeq(Unbounded, s, p, pick).threads[p];
      if !Readable(th.view.sq[i], pick, |s.m.sq[i]|) then th' == th
      else if s.m.sq[i][pick].val < 2 * th.ticket + 1
      then th'.pc == (if th.blocking && !th.final then PopCheck else Idle) && !th'.ok
      else th'.pc == (if s.m.sq[i][pick].val == 2 * th.ticket + 1 then DeqCas else DeqLoad)
  {
  }

  /** try_dequeue gives up only on a sequence that shows its ticket unpublished; on the
      newest sequence, exactly when the queue is empty or the item claimed and not yet
      filled in. A blocking pop then checks closed_, unless it already has found it true;
      otherwise the call returns false. */
  lemma DeqFails<T>(s: State<T>, p: nat, pick: nat, weak: bool)
    requires Inv(s) && p < |s.threads|
    requires s.threads[p].pc.DeqLoad? || s.threads[p].pc.DeqSeq? || s.threads[p].pc.DeqCas?
    ensures var t := s.threads[p].ticket; var i := t % s.m.cap;
      var th, th' := s.threads[p], Perform(Unbounded, s, p, pick, weak).threads[p];
      var failed := th'.pc.Idle? || th'.pc.PopCheck?;
      && (failed ==> th.pc.DeqSeq? && Readable(th.view.sq[i], pick, |s.m.sq[i]|) && s.m.sq[i][pick].val < 2 * t + 1
                     && th'.pc == (if th.blocking && !th.final then PopCheck else Idle) && !th'.ok)
      && (th.pc.DeqSeq? && pick == |s.m.sq[i]| - 1 ==> (failed <==> |s.m.deq| == t && Unpublished(s, t)))
  {
    PcFlow(Unbounded, s, p, pick, weak);
    assert ThreadOk(s.m, p, s.threads[p]);
    if s.threads[p].pc.DeqSeq? {
      DeqSeqOutcome(s, p, s.threads[p].ticket % s.m.cap, pick);
      EmptyVerdict(s.m.cap, s, p);
    } else if s.threads[p].pc.DeqCas? {
      CasTurns(Unbounded, s, p, pick, weak);
      CasNotBack(s, p, pick, weak);
    }
  }

  /** push and try_push return false on reading closed_ true and go on otherwise; pop
      always tries again, for the last time if it read true. */
  lemma ChecksDecide<T>(w: Word, s: State<T>, p: nat, k: nat, weak: bool)
    requires Shape(s) && p < |s.threads| && Readable(s.threads[p].view.c, k, |s.m.closed|)
    ensures var th, th' := s.threads[p], Perform(w, s, p, k, weak).threads[p];
      && (th.pc.PushCheck? ==> if s.m.closed[k].val then th'.pc.Idle? && !th'.ok else th'.pc.EnqLoad?)
      && (th.pc.PopCheck? ==> th'.pc.DeqLoad? && (th'.final <==> s.m.closed[k].val))
  {
  }

  // ---------------------------------------------------------------- counting retries

  /** p goes round the loop once more, or starts a new attempt. */
  predicate Retries<T>(th: Thread<T>, th': Thread<T>) {
    || (th.pc.EnqSeq? && th'.pc.EnqLoad?) || (th.pc.EnqCas? && th'.pc.EnqSeq?)
    || (th.pc.DeqSeq? && th'.pc.DeqLoad?) || (th.pc.DeqCas? && th'.pc.DeqSeq?)
  }

  predicate Attempts<T>(th: Thread<T>, th': Thread<T>) {
    (th.pc.PushCheck? && th'.pc.EnqLoad?) || ((th.pc.Idle? || th.pc.PopCheck?) && th'.pc.DeqLoad?)
  }

  predicate InAttempt(pc: Pc) {
    pc.EnqLoad? || pc.EnqSeq? || pc.EnqCas? || pc.DeqLoad? || pc.DeqSeq? || pc.DeqCas?
  }

  /** Retries of the current attempt and the ticket it loaded first. */
  datatype Attempt = Attempt(tries: nat, first: nat)

  function Counted<T>(c: Attempt, th: Thread<T>, th': Thread<T>): Attempt {
    if Attempts(th, th') then Attempt(0, c.first)
    else if Retries(th, th') then Attempt(c.tries + 1, c.first)
    else if (th.pc.EnqLoad? || th.pc.DeqLoad?) && th'.pc != th.pc && c.tries == 0 then Attempt(0, th'.ticket)
    else c
  }

  function AttemptOf<T>(w: Word, s0: State<T>, acts: seq<Action<T>>, p: nat): Attempt
    requires Shape(s0) && p < |s0.threads|
    decreases |acts|
  {
    if acts == [] then Attempt(0, 0)
    else
      var prior := acts[..|acts| - 1];
      RunGrows(w, s0, prior);
      RunGrows(w, s0, acts);
      Counted(AttemptOf(w, s0, prior, p), Run(w, s0, prior).threads[p], Run(w, s0, acts).threads[p])
  }

  predicate Counts<T>(th: Thread<T>, c: Attempt) {
    InAttempt(th.pc) ==>
      th.tries == c.tries && (!(th.pc.EnqLoad? || th.pc.DeqLoad?) || th.tries > 0 ==> th.first == c.first)
  }

  lemma LoadCounts<T>(w: Word, s: State<T>, p: nat, pick: nat, weak: bool, c: Attempt)
    requires Shape(s) && p < |s.threads| && Loading(s.threads[p].pc) && !SeqLoading(s.threads[p].pc)
    requires Counts(s.threads[p], c)
    ensures var th' := Perform(w, s, p, pick, weak).threads[p]; Counts(th', Counted(c, s.threads[p], th'))
  {
  }

  lemma JudgeCounts<T>(w: Word, m: Mem<T>, th: Thread<T>, i: nat, pick: nat, c: Attempt)
    requires MemShape(m) && i < m.cap && ViewShape(m.cap, th.view) && pick < |m.sq[i]| && Counts(th, c)
    ensures th.pc.EnqSeq? ==> var th' := JudgeEnq(w, m, th, i, pick); Counts(th', Counted(c, th, th'))
    ensures th.pc.DeqSeq? ==> var th' := JudgeDeq(w, m, th, i, pick); Counts(th', Counted(c, th, th'))
  {
  }

  lemma CasCounts<T>(w: Word, s: State<T>, p: nat, pick: nat, weak: bool, c: Attempt)
    requires Shape(s) && p < |s.threads| && Counts(s.threads[p], c)
    ensures s.threads[p].pc.EnqCas? ==>
      var th' := CasEnq(w, s, p, pick, weak).threads[p]; Counts(th', Counted(c, s.threads[p], th'))
    ensures s.threads[p].pc.DeqCas? ==>
      var th' := CasDeq(w, s, p, pick, weak).threads[p]; Counts(th', Counted(c, s.threads[p], th'))
  {
  }

  lemma CallCounts<T>(s: State<T>, p: nat, op: Op<T>, c: Attempt)
    requires Shape(s) && p < |s.threads| && s.threads[p].pc.Idle?
    ensures var th' := StartCall(s, p, op).threads[p]; Counts(th', Counted(c, s.threads[p], th'))
  {
  }

  lemma CountsStep<T>(w: Word, s: State<T>, a: Action<T>, p: nat, c: Attempt)
    requires Shape(s) && p < |s.threads| && Counts(s.threads[p], c)
    ensures var s' := Step(w, s, a);
      p < |s'.threads| && Counts(s'.threads[p], Counted(c, s.threads[p], s'.threads[p]))
  {
    StepGrows(w, s, a);
    if a.tid == p {
      match a.cmd {
        case Call(op) => if s.threads[p].pc.Idle? { CallCounts(s, p, op, c); }
        case Go(pick, weak) => GoCounts(w, s, p, pick, weak, c);
      }
    }
  }

  lemma GoCounts<T>(w: Word, s: State<T>, p: nat, pick: nat, weak: bool, c: Attempt)
    requires Shape(s) && p < |s.threads| && Counts(s.threads[p], c)
    ensures var th' := Perform(w, s, p, pick, weak).threads[p]; Counts(th', Counted(c, s.threads[p], th'))
  {
    var pc := s.threads[p].pc;
    PcFlow(w, s, p, pick, weak);
    if SeqLoading(pc) {
      var i := SlotIndex(w, s.m.cap, s.threads[p].ticket);
      if pick < |s.m.sq[i]| { JudgeCounts(w, s.m, s.threads[p], i, pick, c); }
    } else if Loading(pc) {
      LoadCounts(w, s, p, pick, weak, c);
    } else if pc.EnqCas? || pc.DeqCas? {
      CasCounts(w, s, p, pick, weak, c);
    }
  }

  /** `tries` and `first`, which RetriesPaid bounds, count what the steps show. */
  lemma {:induction false} RetriesAreCounted<T>(w: Word, n: nat, threads: nat, blank: T, acts: seq<Action<T>>, p: nat)
    requires n > 0 && p < threads
    ensures var s0 := Init(n, threads, blank); var s := Run(w, s0, acts);
      p < |s.threads| && Counts(s.threads[p], AttemptOf(w, s0, acts, p))
    decreases |acts|
  {
    if acts != [] {
      var prior := acts[..|acts| - 1];
      var s0 := Init(n, threads, blank);
      RetriesAreCounted(w, n, threads, blank, prior, p);
      CountsStep(w, Run(w, s0, prior), acts[|acts| - 1], p, AttemptOf(w, s0, prior, p));
    }
  }
}
