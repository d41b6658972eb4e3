/** Every call of MpmcQueue left to run alone with fresh loads, from any point inside it:
    when it succeeds, when it returns false, and when it keeps waiting. */
module MpmcAlone {
  import opened Common
  import opened Words
  import opened MpmcModel
  import opened MpmcInvariant
  import opened MpmcRuns
  import opened MpmcProgress
  import opened MpmcSolo
  import opened MpmcCalls

  /** p's next step with fresh loads, as a function. */
  function NextOf<T>(p: nat): State<T> -> State<T> {
    (z: State<T>) => if Shape(z) && p < |z.threads| then Step(Unbounded, z, FreshGo(z, p)) else z
  }

  lemma {:induction false} IterIsAlone<T>(s: State<T>, p: nat, k: nat)
    requires Shape(s) && p < |s.threads|
    ensures Iter(NextOf(p), s, k) == Alone(s, p, k)
    decreases k
  {
    if k > 0 {
      StepGrows(Unbounded, s, FreshGo(s, p));
      IterIsAlone(Step(Unbounded, s, FreshGo(s, p)), p, k - 1);
    }
  }

  lemma AloneOn<T>(s: State<T>, p: nat, k: nat)
    requires Shape(s) && p < |s.threads|
    ensures |Step(Unbounded, s, FreshGo(s, p)).threads| == |s.threads|
    ensures Alone(s, p, k + 1) == Alone(Step(Unbounded, s, FreshGo(s, p)), p, k)
  {
    StepGrows(Unbounded, s, FreshGo(s, p));
  }

  // -------------------------------------------------------------------------- holders

  /** p has returned true from the call in which it held a ticket; tickets and closed_ are
      as before. */
  ghost predicate Returned<T>(s: State<T>, p: nat, z: State<T>)
    requires p < |s.threads|
  {
    && p < |z.threads| && z.threads[p].pc.Idle? && z.threads[p].ok && z.threads[p].ticket == s.threads[p].ticket
    && z.m.enq == s.m.enq && |z.m.deq| == |s.m.deq| && z.m.closed == s.m.closed && z.m.cap == s.m.cap
    && (Consuming(s.threads[p].pc) ==>
          s.threads[p].ticket < |s.m.enq| && z.threads[p].item == s.m.enq[s.threads[p].ticket].item)
  }

  lemma LastHolderStep<T>(s: State<T>, p: nat)
    requires Inv(s) && p < |s.threads| && (s.threads[p].pc.EnqPublish? || s.threads[p].pc.DeqRelease?)
    ensures Returned(s, p, Alone(s, p, 1))
  {
    HolderTurns(Unbounded, s, p, FreshGo(s, p).cmd.pick, false);
    HeldItem(s, p);
    StepGrows(Unbounded, s, FreshGo(s, p));
    assert Alone(Step(Unbounded, s, FreshGo(s, p)), p, 0) == Step(Unbounded, s, FreshGo(s, p));
  }

  lemma HolderReturns<T>(s: State<T>, p: nat)
    requires Inv(s) && p < |s.threads| && Holding(s.threads[p].pc)
    ensures exists k: nat :: k <= 2 && Returned(s, p, Alone(s, p, k))
  {
    if s.threads[p].pc.EnqPublish? || s.threads[p].pc.DeqRelease? {
      LastHolderStep(s, p);
    } else {
      var s1 := Step(Unbounded, s, FreshGo(s, p));
      HolderTurns(Unbounded, s, p, FreshGo(s, p).cmd.pick, false);
      StepInv(Unbounded, s, FreshGo(s, p));
      StepGrows(Unbounded, s, FreshGo(s, p));
      LastHolderStep(s1, p);
      AloneOn(s, p, 1);
      assert Returned(s, p, Alone(s, p, 2));
    }
  }

  // --------------------------------------------------------------------------- pushes

  /** In a push, without a ticket yet. */
  predicate Trying(pc: Pc) { pc.PushCheck? || pc.EnqLoad? || pc.EnqSeq? || pc.EnqCas? }

  function Room<T>(m: Mem<T>): bool
    requires MemShape(m)
  {
    Top(m, Tail(m) % m.cap) == 2 * Tail(m)
  }

  function Open<T>(m: Mem<T>): bool
    requires MemShape(m)
  {
    !Last(m.closed).val
  }

  /** Own steps to the ticket, or to the answer. */
  function PushRank<T>(m: Mem<T>, th: Thread<T>): nat
    requires MemShape(m)
  {
    match th.pc
    case PushCheck => if Open(m) then 7 else 1
    case EnqLoad => 5
    case EnqSeq => if th.ticket == Tail(m) then 4 else 6
    case EnqCas => if th.ticket == Tail(m) then 3 else 5
    case _ => 0
  }

  /** Nearer to the ticket, the ticket, back to the check, or the answer false. */
  ghost predicate Nearer<T>(m: Mem<T>, th: Thread<T>, m': Mem<T>, th': Thread<T>)
    requires MemShape(m)
  {
    && m' == m && Trying(th'.pc) && th'.item == th.item && th'.blocking == th.blocking
    && !th'.pc.PushCheck? && (th.pc.PushCheck? ==> Open(m)) && PushRank(m, th') < PushRank(m, th)
  }

  ghost predicate Claimed<T>(m: Mem<T>, p: nat, th: Thread<T>, m': Mem<T>, th': Thread<T>)
    requires MemShape(m)
  {
    && Room(m) && th.pc.EnqCas? && th'.pc.EnqWrite? && m'.enq == m.enq + [Claim(p, th.item)]
    && m'.deq == m.deq && m'.closed == m.closed && m'.cap == m.cap
  }

  ghost predicate BackToCheck<T>(m: Mem<T>, th: Thread<T>, m': Mem<T>, th': Thread<T>)
    requires MemShape(m)
  {
    && !Room(m) && m' == m && th.blocking && th'.blocking && !th.pc.PushCheck? && th'.pc.PushCheck?
    && th'.item == th.item
  }

  ghost predicate SaysNo<T>(m: Mem<T>, th: Thread<T>, m': Mem<T>, th': Thread<T>)
    requires MemShape(m)
  {
    m' == m && th'.pc.Idle? && !th'.ok && if th.pc.PushCheck? then !Open(m) else !Room(m) && !th.blocking
  }

  ghost predicate PushMoves<T>(s: State<T>, p: nat, s': State<T>)
    requires MemShape(s.m) && p < |s.threads|
  {
    && p < |s'.threads|
    && (Nearer(s.m, s.threads[p], s'.m, s'.threads[p]) || Claimed(s.m, p, s.threads[p], s'.m, s'.threads[p])
        || BackToCheck(s.m, s.threads[p], s'.m, s'.threads[p]) || SaysNo(s.m, s.threads[p], s'.m, s'.threads[p]))
  }

  lemma CheckMoves<T>(s: State<T>, p: nat)
    requires Shape(s) && Counters(s.m) && p < |s.threads| && ViewOk(s.m, s.threads[p].view)
    requires s.threads[p].pc.PushCheck? || s.threads[p].pc.EnqLoad?
    ensures PushMoves(s, p, Step(Unbounded, s, FreshGo(s, p)))
  {
  }

  lemma CasMoves<T>(s: State<T>, p: nat)
    requires Inv(s) && p < |s.threads| && s.threads[p].pc.EnqCas?
    ensures PushMoves(s, p, Step(Unbounded, s, FreshGo(s, p)))
  {
    assert ThreadOk(s.m, p, s.threads[p]);
    if s.threads[p].ticket == Tail(s.m) {
      EnqClaimInTurn(s, p);
      CasEnqWins(Unbounded, s, p, FreshGo(s, p).cmd.pick);
    } else {
      CasRetries(s, p);
    }
  }

  lemma CasRetries<T>(s: State<T>, p: nat)
    requires Shape(s) && Counters(s.m) && p < |s.threads| && ViewOk(s.m, s.threads[p].view)
    ensures s.threads[p].pc.EnqCas? && s.threads[p].ticket != Tail(s.m) ==>
      var s' := Step(Unbounded, s, FreshGo(s, p));
      s'.m == s.m && s'.threads == s.threads[p := s'.threads[p]] && s'.threads[p].pc.EnqSeq?
      && s'.threads[p].ticket == Tail(s.m)
      && s'.threads[p].item == s.threads[p].item && s'.threads[p].blocking == s.threads[p].blocking
    ensures s.threads[p].pc.DeqCas? && s.threads[p].ticket != Head(s.m) ==>
      var s' := Step(Unbounded, s, FreshGo(s, p));
      s'.m == s.m && s'.threads == s.threads[p := s'.threads[p]] && s'.threads[p].pc.DeqSeq?
      && s'.threads[p].ticket == Head(s.m) && s'.drained == s.drained
      && s'.threads[p].final == s.threads[p].final && s'.threads[p].blocking == s.threads[p].blocking
  {
  }

  lemma EnqSeqKeeps<T>(s: State<T>, p: nat, pick: nat)
    requires Shape(s) && p < |s.threads|
    ensures var s' := LoadSeqEnq(Unbounded, s, p, pick); Keeps(s.threads[p], s'.threads[p]) && s'.m == s.m
  {
  }

  lemma DeqSeqKeeps<T>(s: State<T>, p: nat, pick: nat)
    requires Shape(s) && p < |s.threads|
    ensures var s' := LoadSeqDeq(Unbounded, s, p, pick);
      && Keeps(s.threads[p], s'.threads[p]) && s'.m == s.m
      && (s'.drained <==> s.drained || (s.threads[p].blocking && s'.threads[p].pc.Idle? && s' != s))
  {
  }

  ghost predicate Keeps<T>(th: Thread<T>, th': Thread<T>) {
    th'.ticket == th.ticket && th'.item == th.item && th'.blocking == th.blocking && th'.final == th.final
  }

  /** What the newest sequence says about a ticket. */
  lemma SeqFacts<T>(s: State<T>, p: nat)
    requires Inv(s) && p < |s.threads|
    ensures var th := s.threads[p]; var i := th.ticket % s.m.cap;
      && Readable(th.view.sq[i], |s.m.sq[i]| - 1, |s.m.sq[i]|)
      && (Top(s.m, i) > 2 * th.ticket ==> th.ticket < Tail(s.m))
      && (th.pc.EnqSeq? && Top(s.m, i) < 2 * th.ticket ==> th.ticket == Tail(s.m))
      && (Top(s.m, i) > 2 * th.ticket + 1 ==> th.ticket < Head(s.m))
      && (th.pc.DeqSeq? && Top(s.m, i) < 2 * th.ticket + 1 ==> th.ticket == Head(s.m))
      && (th.pc.EnqSeq? ==> th.ticket <= Tail(s.m)) && (th.pc.DeqSeq? ==> th.ticket <= Head(s.m))
      && (Top(s.m, i) == 2 * th.ticket ==> Tail(s.m) <= th.ticket + s.m.cap)
  {
    var th := s.threads[p];
    var i := th.ticket % s.m.cap;
    assert ThreadOk(s.m, p, th) && SlotOk(s.m, s.threads, i);
    AheadMeansTaken(s, p, |s.m.sq[i]| - 1);
    if th.pc.EnqSeq? && Top(s.m, i) < 2 * th.ticket { FullFacts(s, th.ticket); }
    if th.pc.DeqSeq? && Top(s.m, i) < 2 * th.ticket + 1 { EmptyFacts(s, th.ticket); }
  }

  lemma FreshSeq<T>(s: State<T>, p: nat)
    requires Shape(s) && p < |s.threads|
    ensures var pick := |s.m.sq[s.threads[p].ticket % s.m.cap]| - 1;
      && (s.threads[p].pc.EnqSeq? ==> Step(Unbounded, s, FreshGo(s, p)) == LoadSeqEnq(Unbounded, s, p, pick))
      && (s.threads[p].pc.DeqSeq? ==> Step(Unbounded, s, FreshGo(s, p)) == LoadSeqDeq(Unbounded, s, p, pick))
  {
  }

  lemma SeqMoves<T>(s: State<T>, p: nat, t: nat, i: nat)
    requires Shape(s) && p < |s.threads| && s.threads[p].pc.EnqSeq? && t == s.threads[p].ticket && i == t % s.m.cap
    requires Readable(s.threads[p].view.sq[i], |s.m.sq[i]| - 1, |s.m.sq[i]|) && t <= Tail(s.m)
    requires (Top(s.m, i) > 2 * t ==> t < Tail(s.m)) && (Top(s.m, i) < 2 * t ==> t == Tail(s.m))
    ensures PushMoves(s, p, Step(Unbounded, s, FreshGo(s, p)))
  {
    FreshSeq(s, p);
    EnqSeqKeeps(s, p, |s.m.sq[i]| - 1);
    EnqSeqOutcome(s, p, i, |s.m.sq[i]| - 1);
  }

  lemma TryMovesInv<T>(s: State<T>, p: nat)
    requires Inv(s) && p < |s.threads| && Trying(s.threads[p].pc)
    ensures PushMoves(s, p, Step(Unbounded, s, FreshGo(s, p)))
  {
    assert ThreadOk(s.m, p, s.threads[p]);
    if s.threads[p].pc.EnqSeq? {
      SeqFacts(s, p);
      SeqMoves(s, p, s.threads[p].ticket, s.threads[p].ticket % s.m.cap);
    } else if s.threads[p].pc.EnqCas? {
      CasMoves(s, p);
    } else {
      CheckMoves(s, p);
    }
  }

  /** p's push has returned true: one more enqueue ticket, p's own, with its argument. */
  ghost predicate Landed<T>(s: State<T>, p: nat, z: State<T>)
    requires p < |s.threads|
  {
    && p < |z.threads| && z.threads[p].pc.Idle? && z.threads[p].ok
    && z.m.enq == s.m.enq + [Claim(p, s.threads[p].item)] && |z.m.deq| == |s.m.deq|
    && z.m.closed == s.m.closed && z.m.cap == s.m.cap
  }

  /** p's call has returned false and changed nothing. */
  ghost predicate Refused<T>(s: State<T>, p: nat, z: State<T>) {
    p < |z.threads| && z.threads[p].pc.Idle? && !z.threads[p].ok && z.m == s.m
  }

  /** States of a run in which p moves by f: sound, and p's pushes move as they should. */
  ghost predicate Drives<T(!new)>(f: State<T> -> State<T>, g: State<T> -> bool, p: nat) {
    && (forall z :: g(z) ==> MemShape(z.m))
    && (forall z {:trigger f(z)} :: g(z) && p < |z.threads| && Trying(z.threads[p].pc) ==> g(f(z)) && PushMoves(z, p, f(z)))
    && (forall z :: g(z) && p < |z.threads| && Producing(z.threads[p].pc) ==> HeldReturns(f, z, p))
  }

  ghost predicate HeldReturns<T>(f: State<T> -> State<T>, s: State<T>, p: nat)
    requires p < |s.threads|
  {
    exists k: nat :: k <= 2 && Returned(s, p, Iter(f, s, k))
  }

  lemma LandsAfterClaim<T>(f: State<T> -> State<T>, s: State<T>, p: nat)
    requires MemShape(s.m) && p < |s.threads| && p < |f(s).threads| && HeldReturns(f, f(s), p)
    requires Claimed(s.m, p, s.threads[p], f(s).m, f(s).threads[p])
    ensures exists k: nat :: k <= 3 && Landed(s, p, Iter(f, s, k))
  {
    var k: nat :| k <= 2 && Returned(f(s), p, Iter(f, f(s), k));
    assert Iter(f, s, k + 1) == Iter(f, f(s), k);
  }

  lemma {:induction false} LandsBy<T(!new)>(f: State<T> -> State<T>, g: State<T> -> bool, s: State<T>, p: nat)
    requires Drives(f, g, p) && g(s) && MemShape(s.m) && p < |s.threads| && Trying(s.threads[p].pc)
    requires Room(s.m) && (s.threads[p].pc.PushCheck? ==> Open(s.m))
    ensures exists k: nat :: k <= PushRank(s.m, s.threads[p]) + 2 && Landed(s, p, Iter(f, s, k))
    decreases PushRank(s.m, s.threads[p])
  {
    var s1 := f(s);
    assert PushMoves(s, p, s1);
    if Claimed(s.m, p, s.threads[p], s1.m, s1.threads[p]) {
      LandsAfterClaim(f, s, p);
    } else {
      LandsBy(f, g, s1, p);
      var k: nat :| k <= PushRank(s.m, s1.threads[p]) + 2 && Landed(s1, p, Iter(f, s1, k));
      assert Iter(f, s, k + 1) == Iter(f, s1, k);
    }
  }

  lemma {:induction false} RefusedBy<T(!new)>(f: State<T> -> State<T>, g: State<T> -> bool, s: State<T>, p: nat)
    requires Drives(f, g, p) && g(s) && MemShape(s.m) && p < |s.threads| && Trying(s.threads[p].pc)
    requires if s.threads[p].pc.PushCheck? && !Open(s.m) then true
      else !Room(s.m) && (s.threads[p].blocking ==> !Open(s.m))
    ensures exists k: nat :: k <= PushRank(s.m, s.threads[p]) && Refused(s, p, Iter(f, s, k))
    decreases PushRank(s.m, s.threads[p])
  {
    var s1 := f(s);
    assert PushMoves(s, p, s1);
    if s1.threads[p].pc.Idle? {
      assert Iter(f, s, 1) == Iter(f, s1, 0) == s1;
    } else {
      RefusedBy(f, g, s1, p);
      var k: nat :| k <= PushRank(s.m, s1.threads[p]) && Refused(s1, p, Iter(f, s1, k));
      assert Iter(f, s, k + 1) == Iter(f, s1, k);
    }
  }

  lemma {:induction false} WaitsBy<T(!new)>(f: State<T> -> State<T>, g: State<T> -> bool, s: State<T>, p: nat, k: nat)
    requires Drives(f, g, p) && g(s) && MemShape(s.m) && p < |s.threads| && Trying(s.threads[p].pc)
    requires s.threads[p].blocking && !Room(s.m) && Open(s.m)
    ensures var z := Iter(f, s, k); p < |z.threads| && Trying(z.threads[p].pc) && z.m == s.m
    decreases k
  {
    if k > 0 {
      assert PushMoves(s, p, f(s));
      WaitsBy(f, g, f(s), p, k - 1);
    }
  }

  lemma TryMoves<T(!new)>(s: State<T>, p: nat)
    requires Sound(s) && p < |s.threads| && Trying(s.threads[p].pc)
    ensures Shape(s) && Sound(NextOf(p)(s)) && PushMoves(s, p, NextOf(p)(s))
  {
    SoundInv(s);
    SoundOn(s, FreshGo(s, p));
    TryMovesInv(s, p);
  }

  lemma HeldReturn<T(!new)>(s: State<T>, p: nat)
    requires Sound(s) && p < |s.threads| && Holding(s.threads[p].pc)
    ensures HeldReturns(NextOf(p), s, p)
  {
    SoundInv(s);
    HolderReturns(s, p);
    var k: nat :| k <= 2 && Returned(s, p, Alone(s, p, k));
    IterIsAlone(s, p, k);
  }

  lemma SoundDrives<T(!new)>(p: nat)
    ensures Drives(NextOf<T>(p), (z: State<T>) => Sound(z), p)
  {
    var f, g := NextOf<T>(p), (z: State<T>) => Sound(z);
    forall z: State<T> | g(z) ensures MemShape(z.m) { SoundInv(z); }
    forall z: State<T> | g(z) && p < |z.threads| && Trying(z.threads[p].pc) ensures g(f(z)) && PushMoves(z, p, f(z)) {
      TryMoves(z, p);
    }
    forall z: State<T> | g(z) && p < |z.threads| && Producing(z.threads[p].pc) ensures HeldReturns(f, z, p) {
      HeldReturn(z, p);
    }
  }

  /** From every reachable state: with the next ticket's slot free, a push or try_push that
      is past its check, or about to check an open queue, lands its argument within nine of
      its own steps. */
  lemma PushLands<T(!new)>(s: State<T>, p: nat)
    requires Sound(s) && Shape(s) && p < |s.threads| && Trying(s.threads[p].pc)
    requires Room(s.m) && (s.threads[p].pc.PushCheck? ==> Open(s.m))
    ensures exists k: nat :: k <= 9 && Landed(s, p, Iter(NextOf(p), s, k))
  {
    SoundDrives<T>(p);
    LandsBy(NextOf(p), (z: State<T>) => Sound(z), s, p);
  }

  /** A push that finds the queue closed at its check, or a try_push that finds the ring
      full, returns false and changes nothing. */
  lemma PushRefused<T(!new)>(s: State<T>, p: nat)
    requires Sound(s) && Shape(s) && p < |s.threads| && Trying(s.threads[p].pc)
    requires if s.threads[p].pc.PushCheck? && !Open(s.m) then true
      else !Room(s.m) && (s.threads[p].blocking ==> !Open(s.m))
    ensures exists k: nat :: k <= 7 && Refused(s, p, Iter(NextOf(p), s, k))
  {
    SoundDrives<T>(p);
    RefusedBy(NextOf(p), (z: State<T>) => Sound(z), s, p);
  }

  /** A blocking push on a full open queue does not return and changes nothing, however
      long it is left alone. */
  lemma PushWaits<T(!new)>(s: State<T>, p: nat, k: nat)
    requires Sound(s) && Shape(s) && p < |s.threads| && Trying(s.threads[p].pc) && s.threads[p].blocking
    requires !Room(s.m) && Open(s.m)
    ensures var z := Iter(NextOf(p), s, k); p < |z.threads| && Trying(z.threads[p].pc) && z.m == s.m
  {
    SoundDrives<T>(p);
    WaitsBy(NextOf(p), (z: State<T>) => Sound(z), s, p, k);
  }

  // ----------------------------------------------------------------------------- pops

  /** In a pop, without a ticket yet. */
  predicate Taking(pc: Pc) { pc.PopCheck? || pc.DeqLoad? || pc.DeqSeq? || pc.DeqCas? }

  /** The item at the head is published. */
  function Ready<T>(m: Mem<T>): bool
    requires MemShape(m)
  {
    Top(m, Head(m) % m.cap) == 2 * Head(m) + 1
  }

  /** A failed attempt would not be the last one. */
  predicate MayRetry<T>(th: Thread<T>) { th.blocking && !th.final && !th.pc.PopCheck? }

  /** Own steps to the ticket, or to the answer. */
  function PopRank<T>(m: Mem<T>, th: Thread<T>): nat {
    (match th.pc
     case PopCheck => 6
     case DeqLoad => 5
     case DeqSeq => if th.ticket == Head(m) then 4 else 6
     case DeqCas => if th.ticket == Head(m) then 3 else 5
     case _ => 0) + (if MayRetry(th) then 7 else 0)
  }

  ghost predicate PopNearer<T>(s: State<T>, th: Thread<T>, s': State<T>, th': Thread<T>)
    requires MemShape(s.m)
  {
    && s'.m == s.m && s'.drained == s.drained && Taking(th'.pc) && th'.blocking == th.blocking
    && th'.final == (if th.pc.PopCheck? then !Open(s.m) else th.final)
    && (th'.pc.PopCheck? ==> !Ready(s.m) && MayRetry(th))
    && ((th.pc.PopCheck? ==> !Open(s.m) || !th.blocking) ==> PopRank(s.m, th') < PopRank(s.m, th))
  }

  ghost predicate Took<T>(m: Mem<T>, p: nat, th: Thread<T>, m': Mem<T>, th': Thread<T>)
    requires MemShape(m)
  {
    && Ready(m) && th.pc.DeqCas? && th'.pc.DeqRead? && th'.ticket == Head(m)
    && m'.enq == m.enq && |m'.deq| == |m.deq| + 1 && m'.closed == m.closed && m'.cap == m.cap
  }

  ghost predicate PopSaysNo<T>(s: State<T>, th: Thread<T>, s': State<T>, th': Thread<T>)
    requires MemShape(s.m)
  {
    && s'.m == s.m && th'.pc.Idle? && !th'.ok && !Ready(s.m) && !th.pc.PopCheck? && !MayRetry(th)
    && (s'.drained <==> s.drained || th.blocking)
  }

  ghost predicate PopMoves<T>(s: State<T>, p: nat, s': State<T>)
    requires MemShape(s.m) && p < |s.threads|
  {
    && p < |s'.threads|
    && (PopNearer(s, s.threads[p], s', s'.threads[p]) || Took(s.m, p, s.threads[p], s'.m, s'.threads[p])
        || PopSaysNo(s, s.threads[p], s', s'.threads[p]))
  }

  lemma PopLoadMoves<T>(s: State<T>, p: nat)
    requires Shape(s) && Counters(s.m) && p < |s.threads| && ViewOk(s.m, s.threads[p].view)
    requires s.threads[p].pc.PopCheck? || s.threads[p].pc.DeqLoad?
    ensures PopMoves(s, p, Step(Unbounded, s, FreshGo(s, p)))
  {
  }

  lemma PopCasMoves<T>(s: State<T>, p: nat)
    requires Inv(s) && p < |s.threads| && s.threads[p].pc.DeqCas?
    ensures PopMoves(s, p, Step(Unbounded, s, FreshGo(s, p)))
  {
    assert ThreadOk(s.m, p, s.threads[p]);
    if s.threads[p].ticket == Head(s.m) {
      DeqClaimInTurn(s, p);
      CasDeqWins(Unbounded, s, p, FreshGo(s, p).cmd.pick);
    } else {
      CasRetries(s, p);
    }
  }

  lemma PopSeqMoves<T>(s: State<T>, p: nat, t: nat, i: nat)
    requires Shape(s) && p < |s.threads| && s.threads[p].pc.DeqSeq? && t == s.threads[p].ticket && i == t % s.m.cap
    requires Readable(s.threads[p].view.sq[i], |s.m.sq[i]| - 1, |s.m.sq[i]|) && t <= Head(s.m)
    requires (Top(s.m, i) > 2 * t + 1 ==> t < Head(s.m)) && (Top(s.m, i) < 2 * t + 1 ==> t == Head(s.m))
    ensures PopMoves(s, p, Step(Unbounded, s, FreshGo(s, p)))
  {
    FreshSeq(s, p);
    DeqSeqKeeps(s, p, |s.m.sq[i]| - 1);
    DeqSeqOutcome(s, p, i, |s.m.sq[i]| - 1);
  }

  lemma TakeMovesInv<T>(s: State<T>, p: nat)
    requires Inv(s) && p < |s.threads| && Taking(s.threads[p].pc)
    ensures PopMoves(s, p, Step(Unbounded, s, FreshGo(s, p)))
  {
    assert ThreadOk(s.m, p, s.threads[p]);
    if s.threads[p].pc.DeqSeq? {
      SeqFacts(s, p);
      PopSeqMoves(s, p, s.threads[p].ticket, s.threads[p].ticket % s.m.cap);
    } else if s.threads[p].pc.DeqCas? {
      PopCasMoves(s, p);
    } else {
      PopLoadMoves(s, p);
    }
  }

  lemma TakeMoves<T(!new)>(s: State<T>, p: nat)
    requires Sound(s) && p < |s.threads| && Taking(s.threads[p].pc)
    ensures Shape(s) && Sound(NextOf(p)(s)) && PopMoves(s, p, NextOf(p)(s))
  {
    SoundInv(s);
    SoundOn(s, FreshGo(s, p));
    TakeMovesInv(s, p);
  }

  /** p's pop has returned true with the item at the head. */
  ghost predicate GotHead<T>(s: State<T>, p: nat, z: State<T>) {
    && p < |z.threads| && z.threads[p].pc.Idle? && z.threads[p].ok
    && Head(s.m) < Tail(s.m) && z.threads[p].item == s.m.enq[Head(s.m)].item
    && z.m.enq == s.m.enq && |z.m.deq| == |s.m.deq| + 1 && z.m.closed == s.m.closed
  }

  ghost predicate PopDrives<T(!new)>(f: State<T> -> State<T>, g: State<T> -> bool, p: nat) {
    && (forall z :: g(z) ==> MemShape(z.m))
    && (forall z {:trigger f(z)} :: g(z) && p < |z.threads| && Taking(z.threads[p].pc) ==> g(f(z)) && PopMoves(z, p, f(z)))
    && (forall z :: g(z) && p < |z.threads| && Consuming(z.threads[p].pc) ==> HeldReturns(f, z, p))
  }

  lemma SoundPopDrives<T(!new)>(p: nat)
    ensures PopDrives(NextOf<T>(p), (z: State<T>) => Sound(z), p)
  {
    var f, g := NextOf<T>(p), (z: State<T>) => Sound(z);
    forall z: State<T> | g(z) ensures MemShape(z.m) { SoundInv(z); }
    forall z: State<T> | g(z) && p < |z.threads| && Taking(z.threads[p].pc) ensures g(f(z)) && PopMoves(z, p, f(z)) {
      TakeMoves(z, p);
    }
    forall z: State<T> | g(z) && p < |z.threads| && Consuming(z.threads[p].pc) ensures HeldReturns(f, z, p) {
      HeldReturn(z, p);
    }
  }

  lemma GotAfterTake<T>(f: State<T> -> State<T>, s: State<T>, p: nat)
    requires MemShape(s.m) && p < |s.threads| && p < |f(s).threads| && HeldReturns(f, f(s), p)
    requires Took(s.m, p, s.threads[p], f(s).m, f(s).threads[p])
    ensures exists k: nat :: k <= 3 && GotHead(s, p, Iter(f, s, k))
  {
    var k: nat :| k <= 2 && Returned(f(s), p, Iter(f, f(s), k));
    assert Iter(f, s, k + 1) == Iter(f, f(s), k);
    assert GotHead(s, p, Iter(f, s, k + 1));
  }

  lemma {:induction false} GotBy<T(!new)>(f: State<T> -> State<T>, g: State<T> -> bool, s: State<T>, p: nat, n: nat)
    requires PopDrives(f, g, p) && g(s) && MemShape(s.m) && p < |s.threads| && Taking(s.threads[p].pc)
    requires Ready(s.m) && n == (if s.threads[p].pc.PopCheck? then 20 else PopRank(s.m, s.threads[p]))
    ensures exists k: nat :: k <= n + 2 && GotHead(s, p, Iter(f, s, k))
    decreases n
  {
    var s1 := f(s);
    assert PopMoves(s, p, s1);
    if Took(s.m, p, s.threads[p], s1.m, s1.threads[p]) {
      GotAfterTake(f, s, p);
    } else {
      var n1 := PopRank(s.m, s1.threads[p]);
      GotBy(f, g, s1, p, n1);
      var k: nat :| k <= n1 + 2 && GotHead(s1, p, Iter(f, s1, k));
      assert Iter(f, s, k + 1) == Iter(f, s1, k);
    }
  }

  /** p's pop has returned false and changed nothing; a blocking one has recorded it. */
  ghost predicate FoundNone<T>(s: State<T>, p: nat, z: State<T>)
    requires p < |s.threads|
  {
    Refused(s, p, z) && (s.threads[p].blocking ==> z.drained)
  }

  lemma {:induction false} NoneBy<T(!new)>(f: State<T> -> State<T>, g: State<T> -> bool, s: State<T>, p: nat)
    requires PopDrives(f, g, p) && g(s) && MemShape(s.m) && p < |s.threads| && Taking(s.threads[p].pc)
    requires !Ready(s.m) && (s.threads[p].blocking && (s.threads[p].pc.PopCheck? || !s.threads[p].final) ==> !Open(s.m))
    ensures exists k: nat :: k <= PopRank(s.m, s.threads[p]) && FoundNone(s, p, Iter(f, s, k))
    decreases PopRank(s.m, s.threads[p])
  {
    var s1 := f(s);
    assert PopMoves(s, p, s1);
    if s1.threads[p].pc.Idle? {
      assert Iter(f, s, 1) == Iter(f, s1, 0) == s1;
      assert FoundNone(s, p, Iter(f, s, 1));
    } else {
      NoneBy(f, g, s1, p);
      var k: nat :| k <= PopRank(s.m, s1.threads[p]) && FoundNone(s1, p, Iter(f, s1, k));
      assert Iter(f, s, k + 1) == Iter(f, s1, k);
    }
  }

  lemma {:induction false} PopWaitsBy<T(!new)>(f: State<T> -> State<T>, g: State<T> -> bool, s: State<T>, p: nat, k: nat)
    requires PopDrives(f, g, p) && g(s) && MemShape(s.m) && p < |s.threads| && Taking(s.threads[p].pc)
    requires s.threads[p].blocking && (s.threads[p].final ==> s.threads[p].pc.PopCheck?) && !Ready(s.m) && Open(s.m)
    ensures var z := Iter(f, s, k); p < |z.threads| && Taking(z.threads[p].pc) && z.m == s.m && z.drained == s.drained
    decreases k
  {
    if k > 0 {
      assert PopMoves(s, p, f(s));
      PopWaitsBy(f, g, f(s), p, k - 1);
    }
  }

  /** From every reachable state: with the item at the head published, a pop or try_pop
      left alone returns exactly that item, within a fixed number of its own steps; after
      a failed attempt a blocking pop does try again. */
  lemma PopGets<T(!new)>(s: State<T>, p: nat)
    requires Sound(s) && Shape(s) && p < |s.threads| && Taking(s.threads[p].pc) && Ready(s.m)
    ensures exists k: nat :: k <= 22 && GotHead(s, p, Iter(NextOf(p), s, k))
  {
    SoundPopDrives<T>(p);
    var n := if s.threads[p].pc.PopCheck? then 20 else PopRank(s.m, s.threads[p]);
    GotBy(NextOf(p), (z: State<T>) => Sound(z), s, p, n);
  }

  /** With nothing published at the head, a try_pop returns false, and so does a pop once
      the queue is closed; neither changes anything. */
  lemma PopFindsNone<T(!new)>(s: State<T>, p: nat)
    requires Sound(s) && Shape(s) && p < |s.threads| && Taking(s.threads[p].pc) && !Ready(s.m)
    requires s.threads[p].blocking && (s.threads[p].pc.PopCheck? || !s.threads[p].final) ==> !Open(s.m)
    ensures exists k: nat :: k <= 13 && FoundNone(s, p, Iter(NextOf(p), s, k))
  {
    SoundPopDrives<T>(p);
    NoneBy(NextOf(p), (z: State<T>) => Sound(z), s, p);
  }

  /** A blocking pop on an open queue with nothing published does not return, however long
      it is left alone. */
  lemma PopWaits<T(!new)>(s: State<T>, p: nat, k: nat)
    requires Sound(s) && Shape(s) && p < |s.threads| && Taking(s.threads[p].pc) && s.threads[p].blocking
    requires (s.threads[p].final ==> s.threads[p].pc.PopCheck?) && !Ready(s.m) && Open(s.m)
    ensures var z := Iter(NextOf(p), s, k);
      p < |z.threads| && Taking(z.threads[p].pc) && z.m == s.m && z.drained == s.drained
  {
    SoundPopDrives<T>(p);
    PopWaitsBy(NextOf(p), (z: State<T>) => Sound(z), s, p, k);
  }
}
