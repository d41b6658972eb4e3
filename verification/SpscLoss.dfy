/** Exactly when a pop() of SpscQueue can report "closed and drained" and be wrong. */
module SpscLoss {
  import opened Common
  import opened Words
  import opened Rings
  import opened SpscModel
  import opened SpscInvariant
  import opened SpscShutdown
  import opened SpscSolo

  // --------------------------------------------------------------- transitive views

  /** Whoever knows a published tail knows what the producer then knew of closed_. */
  ghost predicate Learned<V>(m: Mem<V>, v: View) {
    forall j :: 0 <= j < |m.tail| && m.tail[j].count <= v.t ==> m.tail[j].view.c <= v.c
  }

  ghost predicate MemLearned<V>(m: Mem<V>) {
    && (forall k :: 0 <= k < |m.tail| ==> Learned(m, m.tail[k].view))
    && (forall k :: 0 <= k < |m.head| ==> Learned(m, m.head[k].view))
    && (forall k :: 0 <= k < |m.closed| ==> Learned(m, m.closed[k].view))
  }

  ghost predicate AllLearned<V>(s: State<V>) {
    && MemLearned(s.m) && Learned(s.m, s.p.view) && Learned(s.m, s.c.view)
    && (forall k :: 0 <= k < |s.others| ==> Learned(s.m, s.others[k]))
  }

  lemma JoinLearned<V>(m: Mem<V>, a: View, b: View)
    requires Learned(m, a) && Learned(m, b)
    ensures Learned(m, Join(a, b))
  {
  }

  lemma ProducerLearns<V>(s: State<V>, pick: nat)
    requires Inv(s) && AllLearned(s) && !s.p.pc.PPublish?
    ensures Learned(s.m, ProducerGo(s, pick).p.view) && ProducerGo(s, pick).m.tail == s.m.tail
  {
    if s.p.pc.PRoom? && Readable(s.p.view.h, pick, s.m.head) {
      JoinLearned(s.m, s.p.view.(h := s.m.head[pick].count), s.m.head[pick].view);
    }
  }

  /** Reading a tail message brings everything the older ones would bring. */
  lemma RefreshLearns<V>(m: Mem<V>, c: Consumer<V>, pick: nat)
    requires MemShape(m) && TailOk(m) && MemLearned(m) && Learned(m, c.view) && Readable(c.view.t, pick, m.tail)
    ensures Learned(m, RefreshTail(m, c, pick).view)
  {
    assert Learned(m, m.tail[pick].view) && m.tail[pick].view.t == m.tail[pick].count;
  }

  lemma ConsumerLearns<V>(s: State<V>, pick: nat)
    requires Inv(s) && AllLearned(s)
    ensures Learned(s.m, ConsumerGo(s, pick).c.view) && ConsumerGo(s, pick).m.tail == s.m.tail
  {
    if s.c.pc.CData? && Readable(s.c.view.t, pick, s.m.tail) {
      RefreshLearns(s.m, s.c, pick);
    } else if s.c.pc.CCheck? && ReadableFlag(s.c.view.c, pick, s.m.closed) {
      JoinLearned(s.m, s.c.view.(c := pick), s.m.closed[pick].view);
    }
  }

  /** Nothing is published: only views and the other histories may have changed. */
  lemma LearnedFrame<V>(m: Mem<V>, m': Mem<V>)
    requires MemLearned(m) && m'.tail == m.tail
    requires forall k :: 0 <= k < |m'.head| ==> Learned(m, m'.head[k].view)
    requires forall k :: 0 <= k < |m'.closed| ==> Learned(m, m'.closed[k].view)
    ensures MemLearned(m')
  {
  }

  lemma PublishedLater<V>(s: State<V>, v: View)
    requires Inv(s) && s.p.pc.PPublish? && ViewOk(s.m, v) && Learned(s.m, v)
    ensures Learned(PublishTail(s).m, v)
  {
    var m' := PublishTail(s).m;
    assert m'.tail[..|s.m.tail|] == s.m.tail;
  }

  lemma PublishLearns<V>(s: State<V>)
    requires Inv(s) && AllLearned(s) && s.p.pc.PPublish?
    ensures AllLearned(PublishTail(s))
  {
    var s' := PublishTail(s);
    var m, m' := s.m, s'.m;
    PublishOwn(s);
    forall k | 0 <= k < |m'.tail| ensures Learned(m', m'.tail[k].view) {
      if k < |m.tail| { PublishedLater(s, m.tail[k].view); }
    }
    forall k | 0 <= k < |m.head| ensures Learned(m', m.head[k].view) { PublishedLater(s, m.head[k].view); }
    forall k | 0 <= k < |m.closed| ensures Learned(m', m.closed[k].view) { PublishedLater(s, m.closed[k].view); }
    forall k | 0 <= k < |s.others| ensures Learned(m', s.others[k]) { PublishedLater(s, s.others[k]); }
    PublishedLater(s, s.c.view);
  }

  lemma PublishOwn<V>(s: State<V>)
    requires Shape(s) && s.p.pc.PPublish? && Learned(s.m, s.p.view) && s.p.view.t == T(s.m)
    requires forall k :: 0 <= k < |s.m.tail| ==> s.m.tail[k].count <= T(s.m)
    ensures Learned(PublishTail(s).m, PublishTail(s).p.view)
  {
    var m' := PublishTail(s).m;
    assert m'.tail[..|s.m.tail|] == s.m.tail;
  }

  lemma ConsumerKeepsLearned<V>(s: State<V>, pick: nat)
    requires Inv(s) && AllLearned(s)
    ensures AllLearned(ConsumerGo(s, pick))
  {
    var s' := ConsumerGo(s, pick);
    ConsumerLearns(s, pick);
    ConsumerHeads(s, pick);
    LearnedFrame(s.m, s'.m);
  }

  lemma ConsumerHeads<V>(s: State<V>, pick: nat)
    requires Shape(s)
    ensures var s' := ConsumerGo(s, pick);
      && s'.m.closed == s.m.closed && s'.p == s.p && s'.others == s.others
      && (s'.m.head == s.m.head ||
          (|s'.m.head| == |s.m.head| + 1 && s'.m.head[..|s.m.head|] == s.m.head
           && Last(s'.m.head).view.t == s.c.view.t && Last(s'.m.head).view.c == s.c.view.c))
  {
  }

  lemma ProducerKeepsLearned<V>(s: State<V>, pick: nat)
    requires Inv(s) && AllLearned(s)
    ensures AllLearned(ProducerGo(s, pick))
  {
    if s.p.pc.PPublish? {
      PublishLearns(s);
    } else {
      ProducerLearns(s, pick);
      ProducerKeeps(s, pick);
      OthersKept(s, pick);
      LearnedFrame(s.m, ProducerGo(s, pick).m);
    }
  }

  lemma OthersKept<V>(s: State<V>, pick: nat)
    requires Shape(s)
    ensures ProducerGo(s, pick).others == s.others
  {
  }

  lemma SetViewLearns<V>(s: State<V>, a: Actor, v: View)
    requires Shape(s) && AllLearned(s) && IdleActor(s, a) && Learned(s.m, v)
    ensures AllLearned(SetView(s, a, v))
  {
  }

  lemma CloseLearns<V>(s: State<V>, a: Actor)
    requires Inv(s) && AllLearned(s) && IdleActor(s, a)
    ensures AllLearned(CloseBy(s, a))
  {
    ViewOfOk(s, a);
    var v := ViewOf(s, a).(c := |s.m.closed|);
    assert Learned(s.m, ViewOf(s, a));
    assert Learned(s.m, v);
    SetViewLearns(s, a, v);
    LearnedFrame(s.m, CloseBy(s, a).m);
  }

  lemma SyncLearns<V>(s: State<V>, a: Actor, o: Actor)
    requires Inv(s) && AllLearned(s) && IdleActor(s, a) && IdleActor(s, o)
    ensures AllLearned(SetView(s, a, Join(ViewOf(s, a), ViewOf(s, o))))
  {
    JoinLearned(s.m, ViewOf(s, a), ViewOf(s, o));
    SetViewLearns(s, a, Join(ViewOf(s, a), ViewOf(s, o)));
  }

  lemma StepLearns<V>(s: State<V>, a: Action<V>)
    requires Inv(s) && AllLearned(s)
    ensures AllLearned(Step(s, a))
  {
    StepIs(s, a);
    match a.cmd {
      case Go(pick) =>
        if a.actor.P? {
          ProducerKeepsLearned(s, pick);
        } else if a.actor.C? {
          ConsumerKeepsLearned(s, pick);
        }
      case Close => if IdleActor(s, a.actor) { CloseLearns(s, a.actor); }
      case Sync(o) => if IdleActor(s, a.actor) && IdleActor(s, o) { SyncLearns(s, a.actor, o); }
      case _ =>
    }
  }

  lemma {:induction false} RunLearns<V>(s0: State<V>, acts: seq<Action<V>>)
    requires Inv(s0) && AllLearned(s0)
    ensures Inv(Run(s0, acts)) && AllLearned(Run(s0, acts))
    decreases |acts|
  {
    if acts != [] {
      var prior, a := acts[..|acts| - 1], acts[|acts| - 1];
      RunLearns(s0, prior);
      StepInv(Run(s0, prior), a);
      StepLearns(Run(s0, prior), a);
    }
  }

  lemma SoundLearned<V(!new)>(s: State<V>)
    requires Sound(s)
    ensures Inv(s) && AllLearned(s)
  {
    var capacity: nat, others: nat, blank: V, acts: seq<Action<V>> :|
      capacity > 0 && s == Run(Init(capacity, others, blank), acts);
    InitInv(capacity, others, blank);
    RunLearns(Init(capacity, others, blank), acts);
  }

  // ------------------------------------------------------------------ the condition

  /** The consumer may act on close message k and still read tail message j, which says
      that everything published has been taken. */
  ghost predicate CanMiss<V>(m: Mem<V>, v: View, k: nat, j: nat) {
    && v.c <= k < |m.closed| && m.closed[k].val
    && |m.head| > 0 && j < |m.tail| && Join(v, m.closed[k].view).t <= m.tail[j].count == H(m)
  }

  /** The consumer, acting alone, has had a pop() return false, and the queue is as it
      was. */
  ghost predicate GivesUp<V(!new)>(s: State<V>, s': State<V>)
    requires Shape(s)
  {
    Via(C, s, s') && s'.drained && s'.m == s.m && s'.c.pc.CIdle?
  }

  // ------------------------------------------------------------- it can be wrong then

  /** Tail message j brings a consumer that has taken all of it nothing new. */
  lemma Reread<V(!new)>(s: State<V>, j: nat)
    requires Sound(s) && Shape(s) && s.c.pc.CData? && j < |s.m.tail| && s.c.view.t <= s.m.tail[j].count == H(s.m)
    ensures var c := TailRead(s.m, s.c, j);
      && Data(s.m.ring, c) == 0 && c.view.c == s.c.view.c && c.view.t == H(s.m)
      && c.mode == s.c.mode && c.final == s.c.final
  {
    SoundLearned(s);
    DataIs(s.m, s.c);
    RefreshTailOk(s.m, s.c, j);
    DataIs(s.m, RefreshTail(s.m, s.c, j));
    assert s.m.tail[j].view.t == s.m.tail[j].count;
  }

  lemma MissOnce<V(!new)>(s0: State<V>, s: State<V>, j: nat) returns (s': State<V>)
    requires Reached(C, s0, s) && s.c.pc.CLoad? && s.c.mode.Pop?
    requires j < |s.m.tail| && s.c.view.t <= s.m.tail[j].count == H(s.m)
    ensures Reached(C, s0, s') && s'.m == s.m && s'.c.mode.Pop?
    ensures s'.c.pc == (if s.c.final then CIdle else CCheck) && (s.c.final ==> s'.drained)
    ensures s'.c.view.c == s.c.view.c && s'.c.view.t == H(s.m)
  {
    var s1 := PopLoad(s0, s);
    Reread(s1, j);
    s' := PopData(s0, s1, j);
  }

  lemma CheckOn<V(!new)>(s0: State<V>, s: State<V>, k: nat) returns (s': State<V>)
    requires Reached(C, s0, s) && s.c.pc.CCheck? && ReadableFlag(s.c.view.c, k, s.m.closed) && s.m.closed[k].val
    ensures Reached(C, s0, s') && s'.m == s.m
    ensures s'.c.pc.CLoad? && s'.c.final && s'.c.mode == s.c.mode
    ensures s'.c.view == Join(s.c.view.(c := k), s.m.closed[k].view)
  {
    var a: Action<V> := Action(C, Go(k));
    ReachedOn(C, s0, s, a);
    s' := Step(s, a);
  }

  lemma MissTwice<V(!new)>(s: State<V>, k: nat, j: nat) returns (s': State<V>)
    requires Sound(s) && Shape(s) && s.c.pc.CIdle? && CanMiss(s.m, s.c.view, k, j)
    ensures GivesUp(s, s')
  {
    ReachedStart(C, s);
    var s1 := PopStart(s, s, Pop, 0);
    var s2 := MissOnce(s, s1, j);
    var s3 := CheckOn(s, s2, k);
    s' := MissOnce(s, s3, j);
  }

  // ------------------------------------------------------------------ and only then

  /** The consumer has acted on close message k since it had view v0. */
  predicate Seen<V>(m: Mem<V>, v0: View, v: View, k: nat) {
    v0.c <= k < |m.closed| && m.closed[k].val && Join(v0, m.closed[k].view).t <= v.t
  }

  /** A consumer that had view v0 and has read no slot since: its final attempt follows a
      close it has seen. */
  ghost predicate Trail<V>(m: Mem<V>, v0: View, c: Consumer<V>) {
    && v0.c <= c.view.c && v0.t <= c.view.t && !c.pc.CPublish?
    && ((c.pc.CLoad? || c.pc.CData?) && c.final ==> exists k :: Seen(m, v0, c.view, k))
  }

  /** A slot was read or the queue closed since memory was m. */
  predicate Advanced<V>(m: Mem<V>, m': Mem<V>) {
    |m'.takes| > |m.takes| || |m'.closed| > |m.closed|
  }

  lemma SeenOn<V>(m: Mem<V>, v0: View, v: View, v': View)
    requires v.t <= v'.t
    ensures forall k :: Seen(m, v0, v, k) ==> Seen(m, v0, v', k)
  {
  }

  lemma TrailGo<V>(s: State<V>, pick: nat, v0: View)
    requires Shape(s) && Trail(s.m, v0, s.c)
    ensures var s' := ConsumerGo(s, pick);
      Advanced(s.m, s'.m) || (s'.m == s.m && Trail(s.m, v0, s'.c)) || (s.c.pc.CRead? && s.c.head >= s.m.ring)
  {
    var s' := ConsumerGo(s, pick);
    if !s.c.pc.CRead? {
      SeenOn(s.m, v0, s.c.view, s'.c.view);
      if s.c.pc.CCheck? && s'.c.final && s' != s { assert Seen(s.m, v0, s'.c.view, pick); }
    }
  }

  lemma DrainsBlind<V>(s: State<V>, pick: nat, v0: View)
    requires Inv(s) && !s.drained && ConsumerGo(s, pick).drained && Trail(s.m, v0, s.c)
    ensures exists k: nat, j: nat :: CanMiss(s.m, v0, k, j)
  {
    RefreshTailOk(s.m, s.c, pick);
    DataIs(s.m, RefreshTail(s.m, s.c, pick));
    var k :| Seen(s.m, v0, s.c.view, k);
    assert CanMiss(s.m, v0, k, pick);
  }

  /** Where the consumer's own actions may lead from memory m and view v0. */
  ghost predicate OnTrail<V>(m: Mem<V>, v0: View, z: State<V>) {
    Advanced(m, z.m) ||
    (z.m == m && Trail(m, v0, z.c) && (z.drained ==> exists k: nat, j: nat :: CanMiss(m, v0, k, j)))
  }

  lemma GoGrows<V>(s: State<V>, a: Action<V>)
    requires Shape(s)
    ensures |s.m.takes| <= |Step(s, a).m.takes| && |s.m.closed| <= |Step(s, a).m.closed|
  {
    StepIs(s, a);
  }

  lemma OnTrailStep<V>(m: Mem<V>, v0: View, z: State<V>, a: Action<V>)
    requires Inv(z) && OnTrail(m, v0, z) && a.actor.C?
    ensures OnTrail(m, v0, Step(z, a))
  {
    GoGrows(z, a);
    StepIs(z, a);
    if !Advanced(m, z.m) {
      if a.cmd.Go? {
        TrailGo(z, a.cmd.pick, v0);
        if !z.drained && ConsumerGo(z, a.cmd.pick).drained { DrainsBlind(z, a.cmd.pick, v0); }
      } else if a.cmd.Sync? && IdleActor(z, C) && IdleActor(z, a.cmd.from) {
        SeenOn(m, v0, z.c.view, Step(z, a).c.view);
      }
    }
  }

  lemma {:induction false} OnTrailRun<V>(s: State<V>, acts: seq<Action<V>>)
    requires Inv(s) && s.c.pc.CIdle? && !s.drained && Only(C, acts)
    ensures OnTrail(s.m, s.c.view, Run(s, acts))
    decreases |acts|
  {
    if acts != [] {
      var prior := acts[..|acts| - 1];
      OnTrailRun(s, prior);
      RunInv(s, prior);
      OnTrailStep(s.m, s.c.view, Run(s, prior), acts[|acts| - 1]);
    }
  }

  /** The exact condition. In a reachable state where no pop() has returned false yet, the
      idle consumer acting alone can have its pop() return false and leave the queue as
      it is, if and only if it may act on some close and still read a tail that says
      empty. With an item published, that is a loss. */
  lemma MissesExactly<V(!new)>(s: State<V>)
    requires Sound(s) && Shape(s) && s.c.pc.CIdle? && !s.drained
    ensures (exists s' :: GivesUp(s, s')) <==> (exists k: nat, j: nat :: CanMiss(s.m, s.c.view, k, j))
  {
    if k: nat, j: nat :| CanMiss(s.m, s.c.view, k, j) {
      var s' := MissTwice(s, k, j);
    }
    if s' :| GivesUp(s, s') {
      SoundInv(s);
      var acts: seq<Action<V>> :| Only(C, acts) && s' == Run(s, acts);
      OnTrailRun(s, acts);
    }
  }

  /** Under the documented discipline the condition fails while anything is queued. */
  lemma CoveredNeverMisses<V>(m: Mem<V>, v: View, k: nat, j: nat)
    requires MemShape(m) && H(m) < T(m) && k < |m.closed| && T(m) <= m.closed[k].view.t
    ensures !CanMiss(m, v, k, j)
  {
  }

  /** At every capacity: the producer pushes, another thread closes without having
      synchronised with it, and the consumer may give up on the item. */
  lemma UnsyncedCloseLoses<V(!new)>(capacity: nat, others: nat, blank: V, x: V) returns (s: State<V>)
    requires capacity > 0 && others > 0
    ensures Sound(s) && Shape(s) && !s.drained && s.c.pc.CIdle? && H(s.m) == 0 < T(s.m)
    ensures CanMiss(s.m, s.c.view, 1, 0)
  {
    var s0 := Init(capacity, others, blank);
    SoundStart(capacity, others, blank);
    ReachedStart(P, s0);
    var s1 := PushSolo(s0, s0, TryPush, [x], 0);
    FirstTail(s0, s1);
    SoundOn(s1, Action(O(0), Close));
    s := Step(s1, Action(O(0), Close));
  }

  lemma TailKept<V>(s: State<V>, a: Action<V>)
    requires Shape(s)
    ensures Step(s, a).m.tail[0] == s.m.tail[0]
  {
    StepIs(s, a);
  }

  lemma {:induction false} FirstTailRun<V>(s: State<V>, acts: seq<Action<V>>)
    requires Shape(s)
    ensures Run(s, acts).m.tail[0] == s.m.tail[0]
    decreases |acts|
  {
    if acts != [] {
      FirstTailRun(s, acts[..|acts| - 1]);
      TailKept(Run(s, acts[..|acts| - 1]), acts[|acts| - 1]);
    }
  }

  lemma FirstTail<V(!new)>(s0: State<V>, s: State<V>)
    requires Reached(P, s0, s)
    ensures s.m.tail[0] == s0.m.tail[0]
  {
    var acts: seq<Action<V>> :| Only(P, acts) && s == Run(s0, acts);
    FirstTailRun(s0, acts);
  }
}
