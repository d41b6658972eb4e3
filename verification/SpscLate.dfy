/** Pushes of SpscQueue that race with close(). */
module SpscLate {
  import opened Common
  import opened Words
  import opened Rings
  import opened SpscModel
  import opened SpscInvariant
  import opened SpscShutdown
  import opened SpscSolo

  // ------------------------------------------------------ when closed_ loads are fresh

  /** The producer has seen the queue open and may still publish. */
  predicate PastCheck<V>(p: Producer<V>) {
    p.pc.PRoom? || p.pc.PWrite? || p.pc.PPublish? || (p.pc.PLoad? && !p.mode.Push?)
  }

  predicate FreshCheck<V>(s: State<V>, a: Action<V>) {
    a.cmd.Go? && a.actor.P? && s.p.pc.PCheck? ==> a.cmd.pick == |s.m.closed| - 1
  }

  predicate FreshChecks<V>(s: State<V>, acts: seq<Action<V>>)
    requires Shape(s)
    decreases |acts|
  {
    acts == [] ||
    (FreshChecks(s, acts[..|acts| - 1]) && FreshCheck(Run(s, acts[..|acts| - 1]), acts[|acts| - 1]))
  }

  /** Publishes made plus the one that may still come. */
  function Budget<V>(s: State<V>): nat {
    |s.m.tail| + (if PastCheck(s.p) then 1 else 0)
  }

  lemma ProducerBudget<V>(s: State<V>, pick: nat)
    requires Shape(s) && Last(s.m.closed).val && (s.p.pc.PCheck? ==> pick == |s.m.closed| - 1)
    ensures Budget(ProducerGo(s, pick)) <= Budget(s)
  {
  }

  lemma StepBudget<V>(s: State<V>, a: Action<V>)
    requires Shape(s) && Last(s.m.closed).val && FreshCheck(s, a)
    ensures Budget(Step(s, a)) <= Budget(s) && Last(Step(s, a).m.closed).val
  {
    StepIs(s, a);
    if a.cmd.Go? && a.actor.P? {
      ProducerBudget(s, a.cmd.pick);
      ProducerKeeps(s, a.cmd.pick);
    } else if a.cmd.Go? && a.actor.C? {
      ConsumerKeepsTail(s, a.cmd.pick);
    }
  }

  /** A close racing with the producer admits at most one more push or batch, and only
      from a producer already past its check. */
  lemma {:induction false} LatePushes<V>(s: State<V>, acts: seq<Action<V>>)
    requires Shape(s) && Last(s.m.closed).val && FreshChecks(s, acts)
    ensures Budget(Run(s, acts)) <= Budget(s) && Last(Run(s, acts).m.closed).val
    ensures |Run(s, acts).m.tail| <= |s.m.tail| + (if PastCheck(s.p) then 1 else 0)
    decreases |acts|
  {
    if acts != [] {
      LatePushes(s, acts[..|acts| - 1]);
      StepBudget(Run(s, acts[..|acts| - 1]), acts[|acts| - 1]);
    }
  }

  // ------------------------------------------------------------- whatever loads return

  /** closed_ starts false and is true ever after. */
  predicate ClosedShape<V>(m: Mem<V>) {
    |m.closed| > 0 && forall k :: 0 <= k < |m.closed| ==> (m.closed[k].val <==> k > 0)
  }

  /** The producer can no longer read the initial value of closed_. */
  predicate Informed<V>(s: State<V>) { s.p.view.c > 0 }

  lemma ClosedShapeStep<V>(s: State<V>, a: Action<V>)
    requires Shape(s) && ClosedShape(s.m)
    ensures ClosedShape(Step(s, a).m)
  {
    StepIs(s, a);
    if a.cmd.Go? {
      ProducerKeeps(s, a.cmd.pick);
      ConsumerKeepsTail(s, a.cmd.pick);
    }
  }

  lemma {:induction false} ClosedShapeRun<V>(s: State<V>, acts: seq<Action<V>>)
    requires Shape(s) && ClosedShape(s.m)
    ensures ClosedShape(Run(s, acts).m)
    decreases |acts|
  {
    if acts != [] {
      ClosedShapeRun(s, acts[..|acts| - 1]);
      ClosedShapeStep(Run(s, acts[..|acts| - 1]), acts[|acts| - 1]);
    }
  }

  lemma InformedGo<V>(s: State<V>, pick: nat)
    requires Shape(s) && ClosedShape(s.m) && Informed(s)
    ensures Budget(ProducerGo(s, pick)) <= Budget(s) && Informed(ProducerGo(s, pick))
  {
  }

  lemma InformedStep<V>(s: State<V>, a: Action<V>)
    requires Shape(s) && ClosedShape(s.m) && Informed(s)
    ensures Budget(Step(s, a)) <= Budget(s) && Informed(Step(s, a))
  {
    StepIs(s, a);
    if a.cmd.Go? && a.actor.P? {
      InformedGo(s, a.cmd.pick);
    } else if a.cmd.Go? && a.actor.C? {
      ConsumerKeepsTail(s, a.cmd.pick);
    }
  }

  /** In every continuation, stale loads included: a producer that knows of a close
      publishes nothing more, or once if it is already past its check. */
  lemma {:induction false} InformedPushes<V>(s: State<V>, acts: seq<Action<V>>)
    requires Shape(s) && ClosedShape(s.m) && Informed(s)
    ensures Budget(Run(s, acts)) <= Budget(s) && Informed(Run(s, acts)) && ClosedShape(Run(s, acts).m)
    ensures |Run(s, acts).m.tail| <= |s.m.tail| + (if PastCheck(s.p) then 1 else 0)
    decreases |acts|
  {
    if acts != [] {
      InformedPushes(s, acts[..|acts| - 1]);
      InformedStep(Run(s, acts[..|acts| - 1]), acts[|acts| - 1]);
      ClosedShapeStep(Run(s, acts[..|acts| - 1]), acts[|acts| - 1]);
    }
  }

  lemma SoundClosed<V(!new)>(s: State<V>)
    requires Sound(s)
    ensures ClosedShape(s.m)
  {
    var capacity: nat, others: nat, blank: V, acts: seq<Action<V>> :|
      capacity > 0 && s == Run(Init(capacity, others, blank), acts);
    ClosedShapeRun(Init(capacity, others, blank), acts);
  }

  /** Some continuation in which only the producer acts publishes an item. */
  ghost predicate Lands<V(!new)>(s: State<V>)
    requires Shape(s)
  {
    exists s' :: Via(P, s, s') && |s'.m.tail| > |s.m.tail|
  }

  lemma RoomOnIndices<V(!new)>(s: State<V>)
    requires Sound(s) && Shape(s) && T(s.m) < H(s.m) + s.m.ring - 1
    ensures var head, tail := Last(s.m.head).idx, Last(s.m.tail).idx;
      Space(TryPush, 1, s.m.ring, HeadSeen(TryPush, 1, s.m.ring, s.p.cache, head, tail), tail) > 0
  {
    SoundInv(s);
    assert s.m.tail[|s.m.tail| - 1].idx == Slot(s.m.ring, T(s.m));
    assert s.m.head[|s.m.head| - 1].idx == Slot(s.m.ring, H(s.m));
    RoomTest(s.m.ring, H(s.m), T(s.m));
  }

  /** The exact condition for a late push: with room, an idle producer can still land an
      item if and only if it does not know of any close. */
  lemma LandsExactly<V(!new)>(s: State<V>, x: V)
    requires Sound(s) && Shape(s) && s.p.pc.PIdle? && T(s.m) < H(s.m) + s.m.ring - 1
    ensures Lands(s) <==> !Informed(s)
  {
    SoundClosed(s);
    if Informed(s) {
      forall s' | Via(P, s, s') ensures |s'.m.tail| <= |s.m.tail| {
        var acts: seq<Action<V>> :| Only(P, acts) && s' == Run(s, acts);
        InformedPushes(s, acts);
      }
    } else {
      ReachedStart(P, s);
      RoomOnIndices(s);
      var s' := PushSolo(s, s, TryPush, [x], 0);
    }
  }

  /** Without fresh loads the bound fails: after a close it does not know of, the producer
      lands two items. */
  lemma TwoLate<V(!new)>(capacity: nat, others: nat, blank: V, x: V, y: V) returns (s: State<V>, s': State<V>)
    requires capacity > 1 && others > 0
    ensures Sound(s) && Shape(s) && Last(s.m.closed).val && s.p.pc.PIdle? && |s.m.tail| == 1
    ensures Via(P, s, s') && |s'.m.tail| == 3 && Last(s'.m.tail).count == 2
  {
    var s0 := Init(capacity, others, blank);
    SoundStart(capacity, others, blank);
    SoundOn(s0, Action(O(0), Close));
    s := Step(s0, Action(O(0), Close));
    ReachedStart(P, s);
    StoredOne(s.m.buffer, 0, x);
    var s1 := PushSolo(s, s, TryPush, [x], 0);
    s' := PushSolo(s, s1, TryPush, [y], 0);
  }
}
