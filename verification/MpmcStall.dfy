/** What a stranded ticket of MpmcQueue cannot prevent: everything below it can still be
    delivered, by the other threads alone. */
module MpmcStall {
  import opened Common
  import opened Words
  import opened MpmcModel
  import opened MpmcInvariant
  import opened MpmcRuns
  import opened MpmcProgress
  import opened MpmcSolo

  /** Thread r returns from the call in which it holds a ticket. */
  lemma FinishOne<T(!new)>(who: Who, s0: State<T>, s: State<T>, r: nat) returns (s': State<T>)
    requires Reached(who, s0, s) && Acts(who, r) && r < |s.threads| && Holding(s.threads[r].pc)
    ensures Reached(who, s0, s') && Moved(s, r, s') && Kept(s.m, s'.m) && s'.threads[r].pc.Idle?
  {
    s' := s;
    if s.threads[r].pc.EnqWrite? {
      s' := WriteOn(who, s0, s, r);
    } else if s.threads[r].pc.DeqRead? {
      s' := ReadOn(who, s0, s, r);
    }
    s' := PublishOn(who, s0, s', r);
  }

  /** Of the threads below j, only p may hold a ticket. */
  predicate Quiet<T>(threads: seq<Thread<T>>, p: nat, j: nat) {
    forall r :: 0 <= r < |threads| && r < j && r != p ==> !Holding(threads[r].pc)
  }

  /** From `before` to `after`, only holders other than p and below j have moved, and
      none of them holds a ticket any more. */
  ghost predicate Settles<T>(before: seq<Thread<T>>, after: seq<Thread<T>>, p: nat, j: nat) {
    && |after| == |before| && Quiet(after, p, j)
    && forall r :: 0 <= r < |before| && (r == p || r >= j || !Holding(before[r].pc)) ==> after[r] == before[r]
  }

  lemma SettlesOn<T>(before: seq<Thread<T>>, after: seq<Thread<T>>, p: nat, j: nat, next: seq<Thread<T>>)
    requires j < |before| && Settles(before, after, p, j) && |next| == |after|
    requires forall r :: 0 <= r < |after| && r != j ==> next[r] == after[r]
    requires j == p || !Holding(after[j].pc) ==> next[j] == after[j]
    requires j == p || !Holding(next[j].pc)
    ensures Settles(before, next, p, j + 1)
  {
  }

  lemma FinishNext<T(!new)>(s0: State<T>, s: State<T>, p: nat, j: nat) returns (s': State<T>)
    requires Reached(AllBut(p), s0, s) && j < |s.threads|
    ensures Reached(AllBut(p), s0, s') && Kept(s.m, s'.m) && Moved(s, j, s')
    ensures j == p || !Holding(s.threads[j].pc) ==> s' == s
    ensures j == p || !Holding(s'.threads[j].pc)
  {
    s' := s;
    if j != p && Holding(s.threads[j].pc) { s' := FinishOne(AllBut(p), s0, s, j); }
  }

  lemma {:induction false} FinishAll<T(!new)>(s0: State<T>, p: nat, j: nat) returns (s': State<T>)
    requires Reached(AllBut(p), s0, s0) && j <= |s0.threads|
    ensures Reached(AllBut(p), s0, s') && Kept(s0.m, s'.m) && Settles(s0.threads, s'.threads, p, j)
    decreases j
  {
    if j == 0 {
      s' := s0;
    } else {
      var s := FinishAll(s0, p, j - 1);
      s' := FinishNext(s0, s, p, j - 1);
      SettlesOn(s0.threads, s.threads, p, j - 1, s'.threads);
    }
  }

  /** With nobody but the producer of a later ticket at work, the head is published. */
  lemma HeadPublished<T>(s: State<T>, p: nat)
    requires Inv(s) && p < |s.threads| && Producing(s.threads[p].pc) && Head(s.m) < s.threads[p].ticket
    requires Quiet(s.threads, p, |s.threads|)
    ensures Top(s.m, Head(s.m) % s.m.cap) == 2 * Head(s.m) + 1
  {
    var t := Head(s.m);
    var i := t % s.m.cap;
    var u := Top(s.m, i) / 2;
    assert ThreadOk(s.m, p, s.threads[p]) && SlotOk(s.m, s.threads, i) && History(s.m, i);
    assert u % s.m.cap == i;
    if t < u {
      CongruentGap(t, u, s.m.cap);
    } else if Top(s.m, i) < 2 * t + 1 {
      EmptyFacts(s, t);
    }
  }

  lemma {:induction false} DeliverBelow<T(!new)>(s0: State<T>, s: State<T>, p: nat, q: nat) returns (s': State<T>)
    requires Reached(AllBut(p), s0, s) && p < |s.threads| && q < |s.threads| && q != p
    requires Producing(s.threads[p].pc) && s.threads[q].pc.Idle? && Quiet(s.threads, p, |s.threads|)
    requires Head(s.m) <= s.threads[p].ticket
    ensures Reached(AllBut(p), s0, s') && s'.m.enq == s.m.enq && Head(s'.m) == s.threads[p].ticket
    ensures |s'.threads| == |s.threads| && Quiet(s'.threads, p, |s.threads|) && s'.threads[p] == s.threads[p]
    decreases s.threads[p].ticket - Head(s.m)
  {
    if Head(s.m) == s.threads[p].ticket {
      s' := s;
    } else {
      SoundInv(s);
      HeadPublished(s, p);
      s' := PopSolo(AllBut(p), s0, s, q);
      s' := DeliverBelow(s0, s', p, q);
    }
  }

  /** Exactly the tickets below t have been taken, each with its own item. */
  ghost predicate Delivered<T>(m: Mem<T>, m': Mem<T>, t: nat) {
    && m'.enq == m.enq && |m'.deq| == t <= |m.enq|
    && forall u :: 0 <= u < t ==> m'.deq[u].got == Some(m.enq[u].item)
  }

  lemma QuietDelivered<T>(m: Mem<T>, s: State<T>, p: nat, t: nat)
    requires Inv(s) && p < |s.threads| && Producing(s.threads[p].pc) && Quiet(s.threads, p, |s.threads|)
    requires Head(s.m) == t && s.m.enq == m.enq
    ensures Delivered(m, s.m, t)
  {
    forall u | 0 <= u < t ensures s.m.deq[u].got == Some(m.enq[u].item) {
      assert Delivers(s.m, s.threads, u);
    }
  }

  lemma StillBelow<T(!new)>(s: State<T>, p: nat)
    requires Sound(s) && p < |s.threads| && Producing(s.threads[p].pc)
    ensures Head(s.m) <= s.threads[p].ticket
  {
    SoundInv(s);
    HolderStalls(s, p);
  }

  /** A stranded ticket stalls the ring and nothing worse: as long as some other thread
      is free to pop, the others alone can still deliver every ticket below it, each
      with its own item. */
  lemma DeliversBelow<T(!new)>(s: State<T>, p: nat, q: nat)
    requires Sound(s) && Shape(s)
    requires p < |s.threads| && Producing(s.threads[p].pc) && q < |s.threads| && s.threads[q].pc.Idle?
    ensures exists s' :: Via(AllBut(p), s, s') && Delivered(s.m, s'.m, s.threads[p].ticket)
  {
    ReachedStart(AllBut(p), s);
    var s1 := FinishAll(s, p, |s.threads|);
    StillBelow(s1, p);
    var s' := DeliverBelow(s, s1, p, q);
    SoundInv(s');
    QuietDelivered(s.m, s', p, s.threads[p].ticket);
  }
}
