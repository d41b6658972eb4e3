/** Views are transitive: whoever knows a slot's sequence message knows what its writer
    knew about the dequeue position and about closed_. Reading again a message that the
    thread already knows therefore teaches it nothing new. */
module MpmcViews {
  import opened Common
  import opened Words
  import opened MpmcModel
  import opened MpmcInvariant
  import opened MpmcRuns

  ghost predicate Settled<T>(m: Mem<T>, v: View)
    requires MemShape(m)
  {
    && ViewOk(m, v)
    && forall i :: 0 <= i < m.cap ==> m.sq[i][v.sq[i]].view.c <= v.c && m.sq[i][v.sq[i]].view.d <= v.d
  }

  ghost predicate MessagesSettled<T>(m: Mem<T>, i: nat)
    requires MemShape(m) && i < m.cap
  {
    forall k :: 0 <= k < |m.sq[i]| ==> Settled(m, m.sq[i][k].view)
  }

  ghost predicate MemSettled<T>(m: Mem<T>)
    requires MemShape(m)
  {
    && (forall k :: 0 <= k < |m.closed| ==> Settled(m, m.closed[k].view))
    && (forall i :: 0 <= i < m.cap ==> MessagesSettled(m, i))
  }

  ghost predicate AllSettled<T>(s: State<T>)
    requires MemShape(s.m)
  {
    MemSettled(s.m) && forall p :: 0 <= p < |s.threads| ==> Settled(s.m, s.threads[p].view)
  }

  // ------------------------------------------------------------------------ views

  predicate SameView(v: View, v': View) { v'.sq == v.sq && v'.acc == v.acc && v.c <= v'.c && v.d <= v'.d }

  predicate InRange<T>(m: Mem<T>, v: View) { v.e < |m.epos| && v.d < |m.dpos| && v.c < |m.closed| }

  lemma Raise<T>(m: Mem<T>, v: View, v': View)
    requires MemShape(m) && Settled(m, v) && InRange(m, v') && SameView(v, v')
    ensures Settled(m, v')
  {
  }

  lemma JoinSettled<T>(m: Mem<T>, a: View, b: View)
    requires MemShape(m) && Settled(m, a) && Settled(m, b)
    ensures Settled(m, Join(a, b))
  {
    JoinOk(m, a, b);
  }

  lemma AcquireSettled<T>(m: Mem<T>, v: View, i: nat, pick: nat)
    requires MemInv(m) && Settled(m, v) && i < m.cap && Readable(v.sq[i], pick, |m.sq[i]|)
    requires MessagesSettled(m, i)
    ensures Settled(m, Acquire(m, v, i, pick))
  {
    AcquireOk(m, v, i, pick);
    assert History(m, i);
    var msg := m.sq[i][pick];
    assert Settled(m, msg.view) && msg.view.sq[i] == pick;
  }

  /** Older messages stay where they are. */
  lemma SettledFrame<T>(m: Mem<T>, m': Mem<T>, v: View)
    requires MemShape(m) && MemShape(m') && Grows(m, m') && Settled(m, v)
    ensures Settled(m', v)
  {
    ViewFrame(m, m', v);
  }

  // ------------------------------------------------------------------------- steps

  lemma LoadSettles<T>(s: State<T>, p: nat, pick: nat)
    requires Inv(s) && AllSettled(s) && p < |s.threads|
    ensures Settled(s.m, LoadClosedRelaxed(s, p, pick).threads[p].view)
    ensures Settled(s.m, LoadClosedAcquire(s, p, pick).threads[p].view)
    ensures Settled(s.m, LoadEnqPos(s, p, pick).threads[p].view)
    ensures Settled(s.m, LoadDeqPos(s, p, pick).threads[p].view)
  {
    var m, v := s.m, s.threads[p].view;
    if Readable(v.c, pick, |m.closed|) {
      Raise(m, v, v.(c := pick));
      JoinSettled(m, v.(c := pick), m.closed[pick].view);
    }
    if Readable(v.e, pick, |m.epos|) { Raise(m, v, v.(e := pick)); }
    if Readable(v.d, pick, |m.dpos|) { Raise(m, v, v.(d := pick)); }
  }

  lemma SeqView<T>(s: State<T>, p: nat, pick: nat, i: nat)
    requires Shape(s) && p < |s.threads| && i == s.threads[p].ticket % s.m.cap
    ensures var v := s.threads[p].view;
      LoadSeqEnq(Unbounded, s, p, pick).threads[p].view == LoadSeqDeq(Unbounded, s, p, pick).threads[p].view
      == if Readable(v.sq[i], pick, |s.m.sq[i]|) then Acquire(s.m, v, i, pick) else v
  {
  }

  lemma SeqSettles<T>(s: State<T>, p: nat, pick: nat)
    requires Inv(s) && AllSettled(s) && p < |s.threads|
    ensures Settled(s.m, LoadSeqEnq(Unbounded, s, p, pick).threads[p].view)
    ensures Settled(s.m, LoadSeqDeq(Unbounded, s, p, pick).threads[p].view)
  {
    var m, v := s.m, s.threads[p].view;
    var i := s.threads[p].ticket % m.cap;
    SeqView(s, p, pick, i);
    if Readable(v.sq[i], pick, |m.sq[i]|) { AcquireSettled(m, v, i, pick); }
  }

  lemma CasEnqView<T>(s: State<T>, p: nat, pick: nat, weak: bool)
    requires Shape(s) && p < |s.threads| && InRange(s.m, s.threads[p].view)
    ensures var s' := CasEnq(Unbounded, s, p, pick, weak);
      s'.m.sq == s.m.sq && InRange(s'.m, s'.threads[p].view) && SameView(s.threads[p].view, s'.threads[p].view)
  {
  }

  lemma CasDeqView<T>(s: State<T>, p: nat, pick: nat, weak: bool)
    requires Shape(s) && p < |s.threads| && InRange(s.m, s.threads[p].view)
    ensures var s' := CasDeq(Unbounded, s, p, pick, weak);
      s'.m.sq == s.m.sq && InRange(s'.m, s'.threads[p].view) && SameView(s.threads[p].view, s'.threads[p].view)
  {
  }

  lemma CasSettles<T>(s: State<T>, p: nat, pick: nat, weak: bool)
    requires Shape(s) && p < |s.threads| && Settled(s.m, s.threads[p].view)
    ensures var s' := CasEnq(Unbounded, s, p, pick, weak); Settled(s'.m, s'.threads[p].view)
    ensures var s' := CasDeq(Unbounded, s, p, pick, weak); Settled(s'.m, s'.threads[p].view)
  {
    var e, d := CasEnq(Unbounded, s, p, pick, weak), CasDeq(Unbounded, s, p, pick, weak);
    CasGrows(Unbounded, s, p, pick, weak);
    CasEnqView(s, p, pick, weak);
    CasDeqView(s, p, pick, weak);
    SettledFrame(s.m, e.m, s.threads[p].view);
    SettledFrame(s.m, d.m, s.threads[p].view);
    Raise(e.m, s.threads[p].view, e.threads[p].view);
    Raise(d.m, s.threads[p].view, d.threads[p].view);
  }

  lemma StoreSettles<T>(s: State<T>, p: nat, i: nat, val: nat)
    requires Shape(s) && p < |s.threads| && i < s.m.cap && Settled(s.m, s.threads[p].view)
    requires |s.m.sq[i]| <= s.threads[p].view.acc[i] && MessagesSettled(s.m, i)
    ensures var s' := StoreSeq(s, p, i, val);
      Settled(s'.m, s'.threads[p].view) && MessagesSettled(s'.m, i)
  {
    var s' := StoreSeq(s, p, i, val);
    StoreGrows(s, p, i, val);
    var v, v' := s.threads[p].view, s'.threads[p].view;
    SettledFrame(s.m, s'.m, v);
    assert forall j :: 0 <= j < s.m.cap && j != i ==> s'.m.sq[j] == s.m.sq[j] && v'.sq[j] == v.sq[j];
    assert s'.m.sq[i] == s.m.sq[i] + [SeqMsg(val, v')];
    forall k | 0 <= k < |s.m.sq[i]| ensures Settled(s'.m, s.m.sq[i][k].view) {
      SettledFrame(s.m, s'.m, s.m.sq[i][k].view);
    }
  }

  /** Value accesses and tickets leave every sequence alone. */
  lemma QuietSettles<T>(m: Mem<T>, m': Mem<T>)
    requires MemShape(m) && MemShape(m') && Grows(m, m') && MemSettled(m)
    requires m'.sq == m.sq && m'.closed == m.closed
    ensures MemSettled(m')
  {
    forall k | 0 <= k < |m.closed| ensures Settled(m', m.closed[k].view) {
      SettledFrame(m, m', m.closed[k].view);
    }
    forall i | 0 <= i < m.cap ensures MessagesSettled(m', i) {
      assert MessagesSettled(m, i);
      forall k | 0 <= k < |m.sq[i]| ensures Settled(m', m.sq[i][k].view) {
        SettledFrame(m, m', m.sq[i][k].view);
      }
    }
  }

  lemma StoreMemSettles<T>(s: State<T>, p: nat, i: nat, val: nat)
    requires Shape(s) && p < |s.threads| && i < s.m.cap && MemSettled(s.m)
    requires MessagesSettled(StoreSeq(s, p, i, val).m, i)
    ensures MemSettled(StoreSeq(s, p, i, val).m)
  {
    var m, m' := s.m, StoreSeq(s, p, i, val).m;
    StoreGrows(s, p, i, val);
    forall k | 0 <= k < |m.closed| ensures Settled(m', m.closed[k].view) {
      SettledFrame(m, m', m.closed[k].view);
    }
    forall j | 0 <= j < m.cap && j != i ensures MessagesSettled(m', j) {
      assert MessagesSettled(m, j) && m'.sq[j] == m.sq[j];
      forall k | 0 <= k < |m.sq[j]| ensures Settled(m', m.sq[j][k].view) {
        SettledFrame(m, m', m.sq[j][k].view);
      }
    }
  }

  lemma StoreStep<T>(s: State<T>, p: nat, i: nat, t: nat, val: nat)
    requires Inv(s) && AllSettled(s) && p < |s.threads| && t == s.threads[p].ticket && i == t % s.m.cap
    requires s.threads[p].pc.EnqPublish? || s.threads[p].pc.DeqRelease?
    ensures var s' := StoreSeq(s, p, i, val); MemSettled(s'.m) && Settled(s'.m, s'.threads[p].view)
  {
    assert ThreadOk(s.m, p, s.threads[p]);
    StoreSettles(s, p, i, val);
    StoreMemSettles(s, p, i, val);
  }

  lemma AccessStep<T>(s: State<T>, p: nat, i: nat)
    requires Shape(s) && MemSettled(s.m) && p < |s.threads| && i < s.m.cap
    requires Settled(s.m, s.threads[p].view)
    ensures var s' := WriteValue(s, p, i); MemSettled(s'.m) && Settled(s'.m, s'.threads[p].view)
    ensures var s' := ReadValue(s, p, i); MemSettled(s'.m) && Settled(s'.m, s'.threads[p].view)
  {
    AccessGrows(s, p, i);
    QuietSettles(s.m, WriteValue(s, p, i).m);
    QuietSettles(s.m, ReadValue(s, p, i).m);
    SettledFrame(s.m, WriteValue(s, p, i).m, s.threads[p].view);
    SettledFrame(s.m, ReadValue(s, p, i).m, s.threads[p].view);
  }

  lemma HolderSettles<T>(s: State<T>, p: nat, pick: nat, weak: bool)
    requires Inv(s) && AllSettled(s) && p < |s.threads| && Holding(s.threads[p].pc)
    ensures var s' := Perform(Unbounded, s, p, pick, weak); MemSettled(s'.m) && p < |s'.threads| && Settled(s'.m, s'.threads[p].view)
  {
    var t := s.threads[p].ticket;
    var i := t % s.m.cap;
    HolderIs(Unbounded, s, p, pick, weak, t, i);
    if s.threads[p].pc.EnqPublish? {
      StoreStep(s, p, i, t, 2 * t + 1);
    } else if s.threads[p].pc.DeqRelease? {
      StoreStep(s, p, i, t, 2 * (t + s.m.cap));
    } else {
      AccessStep(s, p, i);
    }
  }

  lemma CloseSettles<T>(s: State<T>, p: nat)
    requires Inv(s) && AllSettled(s) && p < |s.threads|
    ensures var s' := StartCall(s, p, Close); MemSettled(s'.m) && Settled(s'.m, s'.threads[p].view)
  {
    var m, m', v' := s.m, StartCall(s, p, Close).m, s.threads[p].view.(c := |s.m.closed|);
    StartCallGrows(s, p, Close);
    SettledFrame(m, m', s.threads[p].view);
    Raise(m', s.threads[p].view, v');
    forall k | 0 <= k < |m'.closed| ensures Settled(m', m'.closed[k].view) {
      if k < |m.closed| { SettledFrame(m, m', m.closed[k].view); }
    }
    forall i | 0 <= i < m.cap ensures MessagesSettled(m', i) {
      assert MessagesSettled(m, i);
      forall k | 0 <= k < |m.sq[i]| ensures Settled(m', m.sq[i][k].view) {
        SettledFrame(m, m', m.sq[i][k].view);
      }
    }
  }

  lemma CallSettles<T>(s: State<T>, p: nat, op: Op<T>)
    requires Inv(s) && AllSettled(s) && p < |s.threads|
    ensures var s' := StartCall(s, p, op); MemSettled(s'.m) && Settled(s'.m, s'.threads[p].view)
  {
    match op {
      case Close => CloseSettles(s, p);
      case Sync(o) =>
        if o < |s.threads| { JoinSettled(s.m, s.threads[p].view, s.threads[o].view); }
      case _ =>
    }
  }

  lemma GoSettles<T>(s: State<T>, p: nat, pick: nat, weak: bool)
    requires Inv(s) && AllSettled(s) && p < |s.threads|
    ensures var s' := Perform(Unbounded, s, p, pick, weak);
      MemSettled(s'.m) && p < |s'.threads| && Settled(s'.m, s'.threads[p].view)
  {
    var s', pc := Perform(Unbounded, s, p, pick, weak), s.threads[p].pc;
    if Holding(pc) {
      HolderSettles(s, p, pick, weak);
    } else if Loading(pc) {
      LoadKeeps(Unbounded, s, p, pick, weak);
      LoadSettles(s, p, pick);
      SeqSettles(s, p, pick);
    } else if !pc.Idle? {
      CasGrows(Unbounded, s, p, pick, weak);
      CasEnqView(s, p, pick, weak);
      CasDeqView(s, p, pick, weak);
      CasSettles(s, p, pick, weak);
      QuietSettles(s.m, s'.m);
    }
  }

  lemma StepSettles<T>(s: State<T>, a: Action<T>)
    requires Inv(s) && AllSettled(s)
    ensures AllSettled(Step(Unbounded, s, a))
  {
    if a.tid < |s.threads| {
      var s' := Step(Unbounded, s, a);
      StepGrows(Unbounded, s, a);
      match a.cmd {
        case Call(op) => CallSettles(s, a.tid, op);
        case Go(pick, weak) => GoSettles(s, a.tid, pick, weak);
      }
      forall q | 0 <= q < |s'.threads| && q != a.tid ensures Settled(s'.m, s'.threads[q].view) {
        SettledFrame(s.m, s'.m, s.threads[q].view);
      }
    }
  }

  lemma InitSettled<T>(n: nat, threads: nat, blank: T)
    requires n > 0
    ensures AllSettled(Init(n, threads, blank))
  {
    InitView(n, threads, blank);
    assert Settled(Init(n, threads, blank).m, ZeroView(n));
  }

  /** Reading again a message that is already known teaches nothing new. */
  lemma {:induction false} RunSettles<T>(s0: State<T>, acts: seq<Action<T>>)
    requires Inv(s0) && AllSettled(s0)
    ensures var s := Run(Unbounded, s0, acts); Inv(s) && AllSettled(s)
    decreases |acts|
  {
    if acts != [] {
      var prior, a := acts[..|acts| - 1], acts[|acts| - 1];
      RunSettles(s0, prior);
      StepInv(Unbounded, Run(Unbounded, s0, prior), a);
      StepSettles(Run(Unbounded, s0, prior), a);
    }
  }

  lemma ReachableSettled<T(!new)>(n: nat, s: State<T>)
    requires Reachable(Unbounded, n, s)
    ensures Inv(s) && AllSettled(s) && s.m.cap == n
  {
    var threads: nat, blank: T, acts: seq<Action<T>> :|
      n > 0 && s == Run(Unbounded, Init(n, threads, blank), acts) && Fits(Unbounded, s.m);
    InitInv(n, threads, blank);
    InitSettled(n, threads, blank);
    RunSettles(Init(n, threads, blank), acts);
    RunGrows(Unbounded, Init(n, threads, blank), acts);
  }
}
