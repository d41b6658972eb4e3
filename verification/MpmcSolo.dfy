/** Runs of MpmcQueue in which one thread acts alone: an uncontended call, step by
    step, and what it leaves behind. */
module MpmcSolo {
  import opened Common
  import opened Words
  import opened MpmcModel
  import opened MpmcInvariant
  import opened MpmcRuns

  /** One thread, or all threads but one. */
  datatype Who = Just(tid: nat) | AllBut(tid: nat)

  predicate Acts(who: Who, p: nat) { if who.Just? then p == who.tid else p != who.tid }

  predicate Only<T>(who: Who, acts: seq<Action<T>>) {
    forall k :: 0 <= k < |acts| ==> Acts(who, acts[k].tid)
  }

  /** s' is reached from s by actions of threads in `who` alone. */
  ghost predicate Via<T(!new)>(who: Who, s: State<T>, s': State<T>)
    requires Shape(s)
  {
    exists acts: seq<Action<T>> :: Only(who, acts) && s' == Run(Unbounded, s, acts)
  }

  /** Some queue gets from its initial state to s. */
  ghost predicate Sound<T(!new)>(s: State<T>) {
    exists n: nat :: Reachable(Unbounded, n, s)
  }

  /** s is a reachable state, reached from s0 by actions of threads in `who` alone. */
  ghost predicate Reached<T(!new)>(who: Who, s0: State<T>, s: State<T>) {
    Shape(s0) && Shape(s) && Sound(s) && Via(who, s0, s)
  }

  lemma SoundInv<T(!new)>(s: State<T>)
    requires Sound(s)
    ensures Inv(s)
  {
    var n: nat :| Reachable(Unbounded, n, s);
    ReachableInv(Unbounded, n, s);
  }

  lemma Snoc<T>(s: State<T>, acts: seq<Action<T>>, a: Action<T>)
    requires Shape(s)
    ensures Run(Unbounded, s, acts + [a]) == Step(Unbounded, Run(Unbounded, s, acts), a)
  {
    assert (acts + [a])[..|acts + [a]| - 1] == acts;
  }

  lemma SoundOn<T(!new)>(s: State<T>, a: Action<T>)
    requires Sound(s) && Shape(s)
    ensures Sound(Step(Unbounded, s, a))
  {
    var n: nat :| Reachable(Unbounded, n, s);
    var threads: nat, blank: T, acts: seq<Action<T>> :|
      n > 0 && s == Run(Unbounded, Init(n, threads, blank), acts) && Fits(Unbounded, s.m);
    Snoc(Init(n, threads, blank), acts, a);
    assert Reachable(Unbounded, n, Step(Unbounded, s, a));
  }

  lemma SoundStart<T(!new)>(n: nat, threads: nat, blank: T)
    requires n > 0
    ensures Sound(Init(n, threads, blank))
  {
    var acts: seq<Action<T>> := [];
    assert Init(n, threads, blank) == Run(Unbounded, Init(n, threads, blank), acts);
    assert Reachable(Unbounded, n, Init(n, threads, blank));
  }

  lemma ReachedStart<T(!new)>(who: Who, s: State<T>)
    requires Sound(s) && Shape(s)
    ensures Reached(who, s, s)
  {
    var acts: seq<Action<T>> := [];
    assert Only(who, acts) && s == Run(Unbounded, s, acts);
  }

  lemma ReachedOn<T(!new)>(who: Who, s0: State<T>, s: State<T>, a: Action<T>)
    requires Reached(who, s0, s) && Acts(who, a.tid)
    ensures Reached(who, s0, Step(Unbounded, s, a))
  {
    SoundOn(s, a);
    var acts: seq<Action<T>> :| Only(who, acts) && s == Run(Unbounded, s0, acts);
    Snoc(s0, acts, a);
    assert Only(who, acts + [a]);
  }

  /** Only thread p has moved, and no pop() has returned false. */
  ghost predicate Moved<T>(s: State<T>, p: nat, s': State<T>) {
    && |s'.threads| == |s.threads| && s'.drained == s.drained
    && forall q :: 0 <= q < |s.threads| && q != p ==> s'.threads[q] == s.threads[q]
  }

  function Here<T>(s: State<T>, p: nat): nat
    requires Shape(s) && p < |s.threads|
  {
    s.threads[p].ticket % s.m.cap
  }

  /** What thread p may rely on between its steps: positions count the tickets, and its
      view points into the histories. */
  lemma Positions<T(!new)>(s: State<T>, p: nat)
    requires Sound(s) && Shape(s) && p < |s.threads|
    ensures |s.m.epos| == Tail(s.m) + 1 && s.m.epos[Tail(s.m)] == Tail(s.m)
    ensures |s.m.dpos| == Head(s.m) + 1 && s.m.dpos[Head(s.m)] == Head(s.m)
    ensures var v := s.threads[p].view;
      && v.e <= Tail(s.m) && v.d <= Head(s.m) && v.c < |s.m.closed|
      && forall i :: 0 <= i < s.m.cap ==> v.sq[i] < |s.m.sq[i]|
  {
    SoundInv(s);
    assert ThreadOk(s.m, p, s.threads[p]);
  }

  // --------------------------------------------------------------- from call to CAS

  lemma CallIs<T>(s: State<T>, p: nat, op: Op<T>)
    requires Shape(s) && p < |s.threads| && s.threads[p].pc.Idle? && !op.Close? && !op.Sync?
    ensures var s' := Step(Unbounded, s, Action(p, Call(op)));
      && s'.m == s.m && Moved(s, p, s')
      && s'.threads[p].view == s.threads[p].view
      && (op.TryPush? || op.Push? ==>
            s'.threads[p].pc.PushCheck? && s'.threads[p].item == op.item && s'.threads[p].blocking == op.Push?)
      && (op.TryPop? || op.Pop? ==>
            s'.threads[p].pc.DeqLoad? && !s'.threads[p].final && s'.threads[p].blocking == op.Pop?)
  {
  }

  lemma CheckIs<T>(s: State<T>, p: nat, k: nat)
    requires Shape(s) && p < |s.threads| && s.threads[p].pc.PushCheck?
    requires Readable(s.threads[p].view.c, k, |s.m.closed|)
    ensures var s' := Step(Unbounded, s, Action(p, Go(k, false)));
      && s'.m == s.m && Moved(s, p, s')
      && s'.threads[p].pc == (if s.m.closed[k].val then Idle else EnqLoad)
      && s'.threads[p].item == s.threads[p].item && s'.threads[p].view == s.threads[p].view.(c := k)
      && s'.threads[p].blocking == s.threads[p].blocking
  {
  }

  lemma LoadIs<T>(s: State<T>, p: nat, t: nat)
    requires Shape(s) && p < |s.threads|
    ensures s.threads[p].pc.EnqLoad? && Readable(s.threads[p].view.e, t, |s.m.epos|) && s.m.epos[t] == t ==>
      var s' := Step(Unbounded, s, Action(p, Go(t, false)));
      && s'.m == s.m && Moved(s, p, s') && s'.threads[p].pc.EnqSeq? && s'.threads[p].ticket == t
      && s'.threads[p].item == s.threads[p].item && s'.threads[p].view == s.threads[p].view.(e := t)
      && s'.threads[p].blocking == s.threads[p].blocking
    ensures s.threads[p].pc.DeqLoad? && Readable(s.threads[p].view.d, t, |s.m.dpos|) && s.m.dpos[t] == t ==>
      var s' := Step(Unbounded, s, Action(p, Go(t, false)));
      && s'.m == s.m && Moved(s, p, s') && s'.threads[p].pc.DeqSeq? && s'.threads[p].ticket == t
      && s'.threads[p].view == s.threads[p].view.(d := t)
      && s'.threads[p].blocking == s.threads[p].blocking && s'.threads[p].final == s.threads[p].final
  {
  }

  lemma EnqSeqIs<T>(s: State<T>, p: nat, i: nat, pick: nat)
    requires Shape(s) && p < |s.threads| && s.threads[p].pc.EnqSeq? && i == s.threads[p].ticket % s.m.cap
    requires Readable(s.threads[p].view.sq[i], pick, |s.m.sq[i]|) && !s.threads[p].blocking
    ensures var s', t, val := Step(Unbounded, s, Action(p, Go(pick, false))), s.threads[p].ticket, s.m.sq[i][pick].val;
      && s'.m == s.m && Moved(s, p, s') && s'.threads[p].ticket == t
      && s'.threads[p].item == s.threads[p].item && s'.threads[p].view == Acquire(s.m, s.threads[p].view, i, pick)
      && (val == 2 * t ==> s'.threads[p].pc.EnqCas?)
      && (val < 2 * t ==> s'.threads[p].pc.Idle?)
  {
  }

  lemma DeqSeqIs<T>(s: State<T>, p: nat, i: nat, pick: nat)
    requires Shape(s) && p < |s.threads| && s.threads[p].pc.DeqSeq? && i == s.threads[p].ticket % s.m.cap
    requires Readable(s.threads[p].view.sq[i], pick, |s.m.sq[i]|)
    ensures var s', t, val := Step(Unbounded, s, Action(p, Go(pick, false))), s.threads[p].ticket, s.m.sq[i][pick].val;
      var th, th' := s.threads[p], s'.threads[p];
      && s'.m == s.m && |s'.threads| == |s.threads|
      && (forall q :: 0 <= q < |s.threads| && q != p ==> s'.threads[q] == s.threads[q])
      && th'.ticket == t && th'.view == Acquire(s.m, th.view, i, pick)
      && th'.blocking == th.blocking && th'.final == th.final
      && (val == 2 * t + 1 ==> th'.pc.DeqCas? && s'.drained == s.drained)
      && (val < 2 * t + 1 ==> th'.pc == (if th.blocking && !th.final then PopCheck else Idle))
      && (val < 2 * t + 1 ==> s'.drained == (s.drained || (th.blocking && th.final)))
  {
  }

  // ------------------------------------------------------------ from CAS to return

  /** A holder's two steps; the ticket's slot is i. */
  lemma WriteOn<T(!new)>(who: Who, s0: State<T>, s: State<T>, p: nat) returns (s': State<T>)
    requires Reached(who, s0, s) && Acts(who, p) && p < |s.threads| && s.threads[p].pc.EnqWrite?
    ensures Reached(who, s0, s') && Moved(s, p, s')
    ensures s'.threads[p].pc.EnqPublish? && s'.threads[p].ticket == s.threads[p].ticket
    ensures s'.threads[p].view.c == s.threads[p].view.c
    ensures s'.m.sq == s.m.sq && s'.m.value == s.m.value[Here(s, p) := s.threads[p].item]
    ensures Kept(s.m, s'.m) && s'.m.deq == s.m.deq
  {
    var t := s.threads[p].ticket;
    HolderIs(Unbounded, s, p, 0, false, t, t % s.m.cap);
    s' := Step(Unbounded, s, Action(p, Go(0, false)));
    ReachedOn(who, s0, s, Action(p, Go(0, false)));
  }

  /** Tickets, positions and closed_ are as before. */
  ghost predicate Kept<T>(m: Mem<T>, m': Mem<T>) {
    && m'.cap == m.cap && m'.enq == m.enq && |m'.deq| == |m.deq|
    && m'.closed == m.closed && m'.epos == m.epos && m'.dpos == m.dpos
  }

  lemma StoreIs<T>(s: State<T>, p: nat, i: nat, val: nat)
    requires Shape(s) && p < |s.threads| && i < s.m.cap
    ensures var s' := StoreSeq(s, p, i, val);
      && Moved(s, p, s') && s'.threads[p].pc.Idle? && s'.threads[p].view.c == s.threads[p].view.c
      && s'.threads[p].item == s.threads[p].item
      && Kept(s.m, s'.m) && s'.m.deq == s.m.deq && s'.m.value == s.m.value
      && Top(s'.m, i) == val && (forall j :: 0 <= j < s.m.cap && j != i ==> s'.m.sq[j] == s.m.sq[j])
  {
  }

  lemma PublishOn<T(!new)>(who: Who, s0: State<T>, s: State<T>, p: nat) returns (s': State<T>)
    requires Reached(who, s0, s) && Acts(who, p) && p < |s.threads|
    requires s.threads[p].pc.EnqPublish? || s.threads[p].pc.DeqRelease?
    ensures Reached(who, s0, s') && Moved(s, p, s') && s'.threads[p].pc.Idle?
    ensures s'.threads[p].view.c == s.threads[p].view.c && s'.threads[p].item == s.threads[p].item
    ensures Kept(s.m, s'.m) && s'.m.deq == s.m.deq && s'.m.value == s.m.value
    ensures Top(s'.m, Here(s, p)) ==
      if s.threads[p].pc.EnqPublish? then 2 * s.threads[p].ticket + 1 else 2 * (s.threads[p].ticket + s.m.cap)
    ensures forall j :: 0 <= j < s.m.cap && j != Here(s, p) ==> s'.m.sq[j] == s.m.sq[j]
  {
    var t := s.threads[p].ticket;
    var val := if s.threads[p].pc.EnqPublish? then 2 * t + 1 else 2 * (t + s.m.cap);
    HolderIs(Unbounded, s, p, 0, false, t, t % s.m.cap);
    StoreIs(s, p, t % s.m.cap, val);
    s' := Step(Unbounded, s, Action(p, Go(0, false)));
    ReachedOn(who, s0, s, Action(p, Go(0, false)));
  }

  lemma ReadOn<T(!new)>(who: Who, s0: State<T>, s: State<T>, p: nat) returns (s': State<T>)
    requires Reached(who, s0, s) && Acts(who, p) && p < |s.threads| && s.threads[p].pc.DeqRead?
    ensures Reached(who, s0, s') && Moved(s, p, s')
    ensures s'.threads[p].pc.DeqRelease? && s'.threads[p].ticket == s.threads[p].ticket
    ensures s'.threads[p].item == s.m.value[Here(s, p)]
    ensures s'.m.sq == s.m.sq && s'.m.value == s.m.value && Kept(s.m, s'.m)
    ensures forall u :: 0 <= u < |s.m.deq| && u != s.threads[p].ticket ==> s'.m.deq[u] == s.m.deq[u]
  {
    var t := s.threads[p].ticket;
    HolderIs(Unbounded, s, p, 0, false, t, t % s.m.cap);
    s' := Step(Unbounded, s, Action(p, Go(0, false)));
    ReachedOn(who, s0, s, Action(p, Go(0, false)));
  }

  // ------------------------------------------------------------------ whole calls

  /** try_push up to its fresh load of enqueue_pos_; closed_ is read as message k. */
  lemma PushCheck<T(!new)>(who: Who, s0: State<T>, s: State<T>, p: nat, x: T, k: nat) returns (s': State<T>)
    requires Reached(who, s0, s) && Acts(who, p) && p < |s.threads| && s.threads[p].pc.Idle?
    requires Readable(s.threads[p].view.c, k, |s.m.closed|)
    ensures Reached(who, s0, s') && Moved(s, p, s') && s'.m == s.m
    ensures s'.threads[p].pc == (if s.m.closed[k].val then Idle else EnqLoad)
    ensures s'.threads[p].item == x && !s'.threads[p].blocking && s'.threads[p].view == s.threads[p].view.(c := k)
  {
    CallIs(s, p, TryPush(x));
    var s1 := Step(Unbounded, s, Action(p, Call(TryPush(x))));
    ReachedOn(who, s0, s, Action(p, Call(TryPush(x))));
    CheckIs(s1, p, k);
    s' := Step(Unbounded, s1, Action(p, Go(k, false)));
    ReachedOn(who, s0, s1, Action(p, Go(k, false)));
  }

  lemma EnqAttempt<T(!new)>(who: Who, s0: State<T>, s: State<T>, p: nat) returns (s': State<T>)
    requires Reached(who, s0, s) && Acts(who, p) && p < |s.threads|
    requires s.threads[p].pc.EnqLoad? && !s.threads[p].blocking
    requires Top(s.m, Tail(s.m) % s.m.cap) <= 2 * Tail(s.m)
    ensures Reached(who, s0, s') && Moved(s, p, s') && s'.m == s.m
    ensures s'.threads[p].item == s.threads[p].item && s'.threads[p].ticket == Tail(s.m)
    ensures s'.threads[p].pc == (if Top(s.m, Tail(s.m) % s.m.cap) == 2 * Tail(s.m) then EnqCas else Idle)
    ensures s'.threads[p].view.c == Max(s.threads[p].view.c, Last(s.m.sq[Tail(s.m) % s.m.cap]).view.c)
  {
    var t := Tail(s.m);
    var i := t % s.m.cap;
    Positions(s, p);
    LoadIs(s, p, t);
    var s1 := Step(Unbounded, s, Action(p, Go(t, false)));
    ReachedOn(who, s0, s, Action(p, Go(t, false)));
    EnqSeqIs(s1, p, i, |s.m.sq[i]| - 1);
    s' := Step(Unbounded, s1, Action(p, Go(|s.m.sq[i]| - 1, false)));
    ReachedOn(who, s0, s1, Action(p, Go(|s.m.sq[i]| - 1, false)));
  }

  lemma EnqWin<T(!new)>(who: Who, s0: State<T>, s: State<T>, p: nat) returns (s': State<T>)
    requires Reached(who, s0, s) && Acts(who, p) && p < |s.threads|
    requires s.threads[p].pc.EnqCas? && s.threads[p].ticket == Tail(s.m)
    ensures Reached(who, s0, s') && Moved(s, p, s')
    ensures s'.threads[p].pc.EnqWrite? && s'.threads[p].ticket == Tail(s.m) && s'.threads[p].item == s.threads[p].item
    ensures s'.threads[p].view.c == s.threads[p].view.c
    ensures s'.m.enq == s.m.enq + [Claim(p, s.threads[p].item)] && s'.m.deq == s.m.deq && s'.m.cap == s.m.cap
    ensures s'.m.sq == s.m.sq && s'.m.value == s.m.value && s'.m.closed == s.m.closed
  {
    Positions(s, p);
    CasEnqWins(Unbounded, s, p, 0);
    s' := Step(Unbounded, s, Action(p, Go(0, false)));
    ReachedOn(who, s0, s, Action(p, Go(0, false)));
  }

  /** The effect of an uncontended successful push on slot i. */
  ghost predicate Pushed<T>(m: Mem<T>, p: nat, x: T, m': Mem<T>)
    requires MemShape(m) && MemShape(m')
  {
    var i := Tail(m) % m.cap;
    && m'.cap == m.cap && m'.enq == m.enq + [Claim(p, x)] && m'.deq == m.deq && m'.closed == m.closed
    && m'.value == m.value[i := x] && Top(m', i) == 2 * Tail(m) + 1
    && (forall j :: 0 <= j < m.cap && j != i ==> m'.sq[j] == m.sq[j])
  }

  /** An uncontended try_push with fresh positions and sequences: it lands exactly when
      the closed_ message it read says open and its slot is free. */
  lemma PushSolo<T(!new)>(who: Who, s0: State<T>, s: State<T>, p: nat, x: T, k: nat) returns (s': State<T>)
    requires Reached(who, s0, s) && Acts(who, p) && p < |s.threads| && s.threads[p].pc.Idle?
    requires Readable(s.threads[p].view.c, k, |s.m.closed|) && Top(s.m, Tail(s.m) % s.m.cap) <= 2 * Tail(s.m)
    ensures Reached(who, s0, s') && Moved(s, p, s') && s'.threads[p].pc.Idle?
    ensures if !s.m.closed[k].val && Top(s.m, Tail(s.m) % s.m.cap) == 2 * Tail(s.m)
      then Pushed(s.m, p, x, s'.m) && s'.threads[p].view.c == Max(k, Last(s.m.sq[Tail(s.m) % s.m.cap]).view.c)
      else s'.m == s.m
  {
    s' := PushCheck(who, s0, s, p, x, k);
    if !s.m.closed[k].val {
      s' := EnqAttempt(who, s0, s', p);
      if s'.threads[p].pc.EnqCas? {
        s' := EnqWin(who, s0, s', p);
        s' := WriteOn(who, s0, s', p);
        s' := PublishOn(who, s0, s', p);
      }
    }
  }

  lemma DeqAttempt<T(!new)>(who: Who, s0: State<T>, s: State<T>, p: nat) returns (s': State<T>)
    requires Reached(who, s0, s) && Acts(who, p) && p < |s.threads| && s.threads[p].pc.Idle?
    requires Top(s.m, Head(s.m) % s.m.cap) <= 2 * Head(s.m) + 1
    ensures Reached(who, s0, s') && Moved(s, p, s') && s'.m == s.m
    ensures s'.threads[p].ticket == Head(s.m)
    ensures s'.threads[p].pc == (if Top(s.m, Head(s.m) % s.m.cap) == 2 * Head(s.m) + 1 then DeqCas else Idle)
  {
    var t := Head(s.m);
    var i := t % s.m.cap;
    CallIs(s, p, TryPop);
    var s1 := Step(Unbounded, s, Action(p, Call(TryPop)));
    ReachedOn(who, s0, s, Action(p, Call(TryPop)));
    Positions(s1, p);
    LoadIs(s1, p, t);
    var s2 := Step(Unbounded, s1, Action(p, Go(t, false)));
    ReachedOn(who, s0, s1, Action(p, Go(t, false)));
    DeqSeqIs(s2, p, i, |s.m.sq[i]| - 1);
    s' := Step(Unbounded, s2, Action(p, Go(|s.m.sq[i]| - 1, false)));
    ReachedOn(who, s0, s2, Action(p, Go(|s.m.sq[i]| - 1, false)));
  }

  lemma DeqWin<T(!new)>(who: Who, s0: State<T>, s: State<T>, p: nat) returns (s': State<T>)
    requires Reached(who, s0, s) && Acts(who, p) && p < |s.threads|
    requires s.threads[p].pc.DeqCas? && s.threads[p].ticket == Head(s.m)
    ensures Reached(who, s0, s') && Moved(s, p, s')
    ensures s'.threads[p].pc.DeqRead? && s'.threads[p].ticket == Head(s.m)
    ensures s'.m.enq == s.m.enq && s'.m.deq == s.m.deq + [Take(p, None)] && s'.m.cap == s.m.cap
    ensures s'.m.sq == s.m.sq && s'.m.value == s.m.value && s'.m.closed == s.m.closed
  {
    Positions(s, p);
    CasDeqWins(Unbounded, s, p, 0);
    s' := Step(Unbounded, s, Action(p, Go(0, false)));
    ReachedOn(who, s0, s, Action(p, Go(0, false)));
  }

  /** The effect of an uncontended successful pop. */
  ghost predicate Popped<T>(m: Mem<T>, m': Mem<T>)
    requires MemShape(m) && MemShape(m')
  {
    var i := Head(m) % m.cap;
    && m'.cap == m.cap && m'.enq == m.enq && |m'.deq| == |m.deq| + 1 && m'.closed == m.closed
    && m'.value == m.value && Top(m', i) == 2 * (Head(m) + m.cap)
    && (forall j :: 0 <= j < m.cap && j != i ==> m'.sq[j] == m.sq[j])
  }

  lemma DeqFinish<T(!new)>(who: Who, s0: State<T>, s: State<T>, p: nat) returns (s': State<T>)
    requires Reached(who, s0, s) && Acts(who, p) && p < |s.threads|
    requires s.threads[p].pc.DeqCas? && s.threads[p].ticket == Head(s.m)
    ensures Reached(who, s0, s') && Moved(s, p, s') && s'.threads[p].pc.Idle?
    ensures s'.threads[p].item == s.m.value[Head(s.m) % s.m.cap] && Popped(s.m, s'.m)
  {
    var s1 := DeqWin(who, s0, s, p);
    var s2 := ReadOn(who, s0, s1, p);
    s' := PublishOn(who, s0, s2, p);
  }

  lemma HeadItem<T(!new)>(s: State<T>)
    requires Sound(s) && Shape(s)
    ensures var i := Head(s.m) % s.m.cap;
      Top(s.m, i) == 2 * Head(s.m) + 1 ==> Head(s.m) < Tail(s.m) && s.m.value[i] == s.m.enq[Head(s.m)].item
  {
    SoundInv(s);
    ItemAt(s, Head(s.m) % s.m.cap, Head(s.m));
  }

  lemma ItemAt<T>(s: State<T>, i: nat, t: nat)
    requires MemShape(s.m) && Slots(s.m, s.threads) && i < s.m.cap
    ensures Top(s.m, i) == 2 * t + 1 ==> t < Tail(s.m) && s.m.value[i] == s.m.enq[t].item
  {
    assert SlotOk(s.m, s.threads, i);
  }

  /** An uncontended try_pop with fresh loads: it takes the item at the head exactly
      when that item is published. */
  lemma PopSolo<T(!new)>(who: Who, s0: State<T>, s: State<T>, p: nat) returns (s': State<T>)
    requires Reached(who, s0, s) && Acts(who, p) && p < |s.threads| && s.threads[p].pc.Idle?
    requires Top(s.m, Head(s.m) % s.m.cap) <= 2 * Head(s.m) + 1
    ensures Reached(who, s0, s') && Moved(s, p, s') && s'.threads[p].pc.Idle?
    ensures if Top(s.m, Head(s.m) % s.m.cap) == 2 * Head(s.m) + 1
      then Head(s.m) < Tail(s.m) && s'.threads[p].item == s.m.enq[Head(s.m)].item && Popped(s.m, s'.m)
      else s'.m == s.m
  {
    HeadItem(s);
    s' := DeqAttempt(who, s0, s, p);
    if s'.threads[p].pc.DeqCas? { s' := DeqFinish(who, s0, s', p); }
  }
}
