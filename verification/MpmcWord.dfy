/** The 64-bit queue runs exactly like the unbounded one. */
module MpmcWord {
  import opened Words
  import opened MpmcModel
  import opened MpmcInvariant
  import opened MpmcRuns

  /** All doubled tickets are below 2^63. */
  predicate HalfFits<T>(m: Mem<T>) { 2 * (Tail(m) + m.cap) <= HALF64 }

  lemma ClassifyWord(sequence: nat, expected: nat)
    requires sequence < HALF64 && expected < HALF64
    ensures Classify(Word64, sequence, Wrap(Word64, expected))
         == Classify(Unbounded, sequence, Wrap(Unbounded, expected))
  {
    SignedDifFaithful(Word64, sequence, expected);
  }

  lemma SeqWord<T>(s: State<T>, p: nat, pick: nat)
    requires Inv(s) && HalfFits(s.m) && p < |s.threads|
    ensures s.threads[p].pc.EnqSeq? ==> LoadSeqEnq(Word64, s, p, pick) == LoadSeqEnq(Unbounded, s, p, pick)
    ensures s.threads[p].pc.DeqSeq? ==> LoadSeqDeq(Word64, s, p, pick) == LoadSeqDeq(Unbounded, s, p, pick)
  {
    var th := s.threads[p];
    SlotIndexIsMod(Word64, s.m.cap, th.ticket);
    SlotIndexIsMod(Unbounded, s.m.cap, th.ticket);
    var i := th.ticket % s.m.cap;
    assert ThreadOk(s.m, p, th);
    if (th.pc.EnqSeq? || th.pc.DeqSeq?) && Readable(th.view.sq[i], pick, |s.m.sq[i]|) {
      TopBound(s, i, pick);
      if th.pc.EnqSeq? { ClassifyWord(s.m.sq[i][pick].val, 2 * th.ticket); }
      if th.pc.DeqSeq? { ClassifyWord(s.m.sq[i][pick].val, 2 * th.ticket + 1); }
    }
  }

  lemma CasWord<T>(s: State<T>, p: nat, pick: nat, weak: bool)
    requires Inv(s) && HalfFits(s.m) && p < |s.threads|
    ensures s.threads[p].pc.EnqCas? ==> CasEnq(Word64, s, p, pick, weak) == CasEnq(Unbounded, s, p, pick, weak)
    ensures s.threads[p].pc.DeqCas? ==> CasDeq(Word64, s, p, pick, weak) == CasDeq(Unbounded, s, p, pick, weak)
  {
    assert ThreadOk(s.m, p, s.threads[p]);
    if s.threads[p].pc.EnqCas? || s.threads[p].pc.DeqCas? { WrapSmall(Word64, s.threads[p].ticket + 1); }
  }

  lemma HolderWord<T>(s: State<T>, p: nat, pick: nat, weak: bool)
    requires Inv(s) && HalfFits(s.m) && p < |s.threads| && Holding(s.threads[p].pc)
    ensures Perform(Word64, s, p, pick, weak) == Perform(Unbounded, s, p, pick, weak)
  {
    HeldFits(Word64, s, p);
    HeldFits(Unbounded, s, p);
    var t := s.threads[p].ticket;
    var i := SlotIndex(Word64, s.m.cap, t);
    HolderIs(Word64, s, p, pick, weak, t, i);
    HolderIs(Unbounded, s, p, pick, weak, t, i);
  }

  lemma StepWord<T>(s: State<T>, a: Action<T>)
    requires Inv(s) && HalfFits(s.m)
    ensures Step(Word64, s, a) == Step(Unbounded, s, a)
  {
    if a.tid < |s.threads| && a.cmd.Go? {
      var p := a.tid;
      if Holding(s.threads[p].pc) {
        HolderWord(s, p, a.cmd.pick, a.cmd.weak);
      } else {
        SeqWord(s, p, a.cmd.pick);
        CasWord(s, p, a.cmd.pick, a.cmd.weak);
      }
    }
  }

  /** As long as doubled tickets stay below 2^63, wrapped subtraction, masking and
      wrapped stores take every branch exactly as unbounded tickets do: the two
      queues go through the same states under every schedule. */
  lemma {:induction false} WordRefines<T>(n: nat, threads: nat, blank: T, acts: seq<Action<T>>)
    requires n > 0 && HalfFits(Run(Unbounded, Init(n, threads, blank), acts).m)
    ensures Run(Word64, Init(n, threads, blank), acts) == Run(Unbounded, Init(n, threads, blank), acts)
    decreases |acts|
  {
    var s0 := Init(n, threads, blank);
    if acts != [] {
      var prior, a := acts[..|acts| - 1], acts[|acts| - 1];
      var s := Run(Unbounded, s0, prior);
      StepGrows(Unbounded, s, a);
      WordRefines(n, threads, blank, prior);
      InitInv(n, threads, blank);
      RunInv(Unbounded, s0, prior);
      StepWord(s, a);
    }
  }
}
