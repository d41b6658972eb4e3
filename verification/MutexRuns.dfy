/** MutexQueue loses no wakeup and no item, and its drain is final. */
module MutexRuns {
  import opened MutexModel

  // ------------------------------------------------------------------- counting

  /** How many threads are at a given point of the code. */
  function Count<T>(threads: seq<Thread<T>>, pc: Pc): nat
    decreases |threads|
  {
    if threads == [] then 0
    else Count(threads[..|threads| - 1], pc) + (if threads[|threads| - 1].pc == pc then 1 else 0)
  }

  lemma {:induction false} CountSet<T>(threads: seq<Thread<T>>, p: nat, th: Thread<T>, pc: Pc)
    requires p < |threads|
    ensures Count(threads[p := th], pc) + (if threads[p].pc == pc then 1 else 0)
         == Count(threads, pc) + (if th.pc == pc then 1 else 0)
    decreases |threads|
  {
    var n, updated := |threads| - 1, threads[p := th];
    if p == n {
      assert updated[..n] == threads[..n];
    } else {
      assert updated[..n] == threads[..n][p := th];
      CountSet(threads[..n], p, th, pc);
    }
  }

  lemma {:induction false} CountZero<T>(threads: seq<Thread<T>>, pc: Pc)
    ensures Count(threads, pc) == 0 <==> forall q :: 0 <= q < |threads| ==> threads[q].pc != pc
    decreases |threads|
  {
    if threads != [] { CountZero(threads[..|threads| - 1], pc); }
  }

  lemma {:induction false} CountSame<T>(a: seq<Thread<T>>, b: seq<Thread<T>>, pc: Pc)
    requires |a| == |b| && forall q :: 0 <= q < |a| ==> (a[q].pc == pc <==> b[q].pc == pc)
    ensures Count(a, pc) == Count(b, pc)
    decreases |a|
  {
    if a != [] { CountSame(a[..|a| - 1], b[..|b| - 1], pc); }
  }

  lemma CountWakeAll<T>(threads: seq<Thread<T>>, asleep: Pc, woken: Pc, pc: Pc)
    requires asleep != woken
    ensures pc != woken ==>
      Count(WakeAll(threads, asleep, woken), pc) == if pc == asleep then 0 else Count(threads, pc)
  {
    if pc == asleep {
      CountZero(WakeAll(threads, asleep, woken), pc);
    } else if pc != woken {
      CountSame(WakeAll(threads, asleep, woken), threads, pc);
    }
  }

  // ------------------------------------------------------------------- invariant

  /** How many threads are at each point the invariant speaks about. */
  datatype Tally = Tally(
    popAsleep: int, popWoken: int, oweEmpty: int,
    pushAsleep: int, pushWoken: int, oweFull: int,
    closeFull: int, closeEmpty: int)

  function Tallied<T>(threads: seq<Thread<T>>): Tally {
    Tally(Count(threads, PopAsleep), Count(threads, PopWoken), Count(threads, NotifyEmpty),
          Count(threads, PushAsleep), Count(threads, PushWoken), Count(threads, NotifyFull),
          Count(threads, CloseFull), Count(threads, CloseEmpty))
  }

  function Shift(t: Tally, pc: Pc, d: int): Tally {
    match pc
    case PopAsleep => t.(popAsleep := t.popAsleep + d)
    case PopWoken => t.(popWoken := t.popWoken + d)
    case NotifyEmpty => t.(oweEmpty := t.oweEmpty + d)
    case PushAsleep => t.(pushAsleep := t.pushAsleep + d)
    case PushWoken => t.(pushWoken := t.pushWoken + d)
    case NotifyFull => t.(oweFull := t.oweFull + d)
    case CloseFull => t.(closeFull := t.closeFull + d)
    case CloseEmpty => t.(closeEmpty := t.closeEmpty + d)
    case _ => t
  }

  lemma TallySet<T>(threads: seq<Thread<T>>, p: nat, th: Thread<T>)
    requires p < |threads|
    ensures Tallied(threads[p := th]) == Shift(Shift(Tallied(threads), threads[p].pc, -1), th.pc, 1)
  {
    CountSet(threads, p, th, PopAsleep);
    CountSet(threads, p, th, PopWoken);
    CountSet(threads, p, th, NotifyEmpty);
    CountSet(threads, p, th, PushAsleep);
    CountSet(threads, p, th, PushWoken);
    CountSet(threads, p, th, NotifyFull);
    CountSet(threads, p, th, CloseFull);
    CountSet(threads, p, th, CloseEmpty);
  }

  lemma TallyPositive<T>(threads: seq<Thread<T>>, p: nat)
    requires p < |threads|
    ensures Count(threads, threads[p].pc) > 0
  {
    CountZero(threads, threads[p].pc);
  }

  /** While open: if a consumer sleeps, every queued item is covered by a notification
      still owed or by a woken consumer that has yet to look; likewise for sleeping
      producers and free slots. */
  predicate Covered(cap: int, size: int, t: Tally) {
    && (t.popAsleep > 0 ==> size <= t.oweEmpty + t.popWoken)
    && (t.pushAsleep > 0 ==> cap - size <= t.oweFull + t.pushWoken)
  }

  /** Once closed: whoever still sleeps, the first closer is on its way to wake it. */
  predicate ClosingCovers(t: Tally) {
    && (t.pushAsleep > 0 ==> t.closeFull > 0)
    && (t.popAsleep > 0 ==> t.closeFull + t.closeEmpty > 0)
  }

  predicate WaitersOk(cap: int, size: int, closed: bool, t: Tally) {
    if closed then ClosingCovers(t) && t.closeFull + t.closeEmpty <= 1
    else Covered(cap, size, t) && t.closeFull == t.closeEmpty == 0
  }

  ghost predicate Inv<T>(s: State<T>) {
    && |s.q| <= s.cap
    && s.accepted == s.popped + s.q
    && (s.drained ==> s.closed && s.q == [])
    && WaitersOk(s.cap, |s.q|, s.closed, Tallied(s.threads))
  }

  lemma InitInv<T>(cap: nat, threads: nat, blank: T)
    ensures Inv(Init(cap, threads, blank))
  {
    var s := Init(cap, threads, blank);
    CountZero(s.threads, PopAsleep);
    CountZero(s.threads, PushAsleep);
    CountZero(s.threads, CloseFull);
    CountZero(s.threads, CloseEmpty);
  }

  // --------------------------------------------------------------------- every step

  lemma PushSectionInv<T>(s: State<T>, p: nat)
    requires Inv(s) && p < |s.threads| && (s.threads[p].pc.PushLock? || s.threads[p].pc.PushWoken?)
    ensures Inv(PushSection(s, p))
  {
    TallySet(s.threads, p, PushSection(s, p).threads[p]);
  }

  lemma PopSectionInv<T>(s: State<T>, p: nat)
    requires Inv(s) && p < |s.threads| && (s.threads[p].pc.PopLock? || s.threads[p].pc.PopWoken?)
    ensures Inv(PopSection(s, p))
  {
    TallySet(s.threads, p, PopSection(s, p).threads[p]);
  }

  lemma CloseSectionInv<T>(s: State<T>, p: nat)
    requires Inv(s) && p < |s.threads| && s.threads[p].pc.CloseLock?
    ensures Inv(CloseSection(s, p))
  {
    TallySet(s.threads, p, CloseSection(s, p).threads[p]);
  }

  lemma NotifyOneInv<T>(s: State<T>, p: nat, target: nat, asleep: Pc, woken: Pc)
    requires Inv(s) && p < |s.threads|
    requires (s.threads[p].pc.NotifyEmpty? && asleep.PopAsleep? && woken.PopWoken?)
          || (s.threads[p].pc.NotifyFull? && asleep.PushAsleep? && woken.PushWoken?)
    ensures Inv(NotifyOne(s, p, target, asleep, woken))
  {
    var idle := s.threads[p].(pc := Idle);
    TallySet(s.threads, p, idle);
    CountZero(s.threads, asleep);
    if Sleeps(s.threads, target, asleep) && target != p {
      TallySet(s.threads[p := idle], target, s.threads[target].(pc := woken));
    }
  }

  lemma NotifyAllInv<T>(s: State<T>, p: nat, asleep: Pc, woken: Pc, next: Pc)
    requires Inv(s) && p < |s.threads|
    requires (s.threads[p].pc.CloseFull? && asleep.PushAsleep? && woken.PushWoken? && next.CloseEmpty?)
          || (s.threads[p].pc.CloseEmpty? && asleep.PopAsleep? && woken.PopWoken? && next.Idle?)
    ensures Inv(NotifyAll(s, p, asleep, woken, next))
  {
    var moved := s.threads[p := s.threads[p].(pc := next)];
    TallySet(s.threads, p, moved[p]);
    TallyPositive(s.threads, p);
    CountWakeAll(moved, asleep, woken, PopAsleep);
    CountWakeAll(moved, asleep, woken, PushAsleep);
    CountWakeAll(moved, asleep, woken, CloseFull);
    CountWakeAll(moved, asleep, woken, CloseEmpty);
  }

  lemma CallInv<T>(s: State<T>, a: Action<T>)
    requires Inv(s) && a.tid < |s.threads| && (a.cmd.CallPush? || a.cmd.CallPop? || a.cmd.CallClose?)
    ensures Inv(Step(s, a))
  {
    TallySet(s.threads, a.tid, Step(s, a).threads[a.tid]);
  }

  /** Leaving a wait on its own account only adds to the cover. */
  lemma LeaveInv<T>(s: State<T>, p: nat, th: Thread<T>)
    requires Inv(s) && p < |s.threads|
    requires (s.threads[p].pc.PushAsleep? && th.pc.PushWoken?) || (s.threads[p].pc.PopAsleep? && th.pc.PopWoken?)
          || s.threads[p].pc == th.pc
    ensures Inv(Set(s, p, th))
  {
    TallySet(s.threads, p, th);
  }

  lemma NotifyInv<T>(s: State<T>, p: nat, target: nat)
    requires Inv(s) && p < |s.threads|
    ensures Inv(Step(s, Action(p, Notify(target))))
  {
    match s.threads[p].pc {
      case NotifyEmpty => NotifyOneInv(s, p, target, PopAsleep, PopWoken);
      case NotifyFull => NotifyOneInv(s, p, target, PushAsleep, PushWoken);
      case CloseFull => NotifyAllInv(s, p, PushAsleep, PushWoken, CloseEmpty);
      case CloseEmpty => NotifyAllInv(s, p, PopAsleep, PopWoken, Idle);
      case _ =>
    }
  }

  lemma StepInv<T>(s: State<T>, a: Action<T>)
    requires Inv(s)
    ensures Inv(Step(s, a))
  {
    if a.tid < |s.threads| {
      var p, pc := a.tid, s.threads[a.tid].pc;
      match a.cmd {
        case Lock =>
          if pc.PushLock? || pc.PushWoken? {
            PushSectionInv(s, p);
          } else if pc.PopLock? || pc.PopWoken? {
            PopSectionInv(s, p);
          } else if pc.CloseLock? {
            CloseSectionInv(s, p);
          }
        case Notify(target) => NotifyInv(s, p, target);
        case Wake => LeaveInv(s, p, Step(s, a).threads[p]);
        case Expire => LeaveInv(s, p, Step(s, a).threads[p]);
        case _ => CallInv(s, a);
      }
    }
  }

  lemma {:induction false} RunInv<T>(s: State<T>, acts: seq<Action<T>>)
    requires Inv(s)
    ensures Inv(Run(s, acts))
    decreases |acts|
  {
    if acts != [] {
      RunInv(s, acts[..|acts| - 1]);
      StepInv(Run(s, acts[..|acts| - 1]), acts[|acts| - 1]);
    }
  }

  // -------------------------------------------------------------------- the theorems

  /** No wakeup is lost, in any run with spurious wakeups, barging threads and expiring
      timeouts: while the queue is open, a sleeping consumer is outnumbered by no more
      items than wakeups in flight, and a sleeping producer by no more free slots. */
  lemma NoLostWakeup<T>(cap: nat, threads: nat, blank: T, acts: seq<Action<T>>)
    ensures var s := Run(Init(cap, threads, blank), acts);
      && s.cap == cap
      && (!s.closed && Count(s.threads, PopAsleep) > 0 ==>
            |s.q| <= Count(s.threads, NotifyEmpty) + Count(s.threads, PopWoken))
      && (!s.closed && Count(s.threads, PushAsleep) > 0 ==>
            cap - |s.q| <= Count(s.threads, NotifyFull) + Count(s.threads, PushWoken))
  {
    InitInv(cap, threads, blank);
    RunInv(Init(cap, threads, blank), acts);
    RunKeeps(Init(cap, threads, blank), acts);
  }

  /** No thread is on its way: all are between calls or asleep. */
  predicate Still<T>(s: State<T>) {
    forall p :: 0 <= p < |s.threads| ==>
      s.threads[p].pc.Idle? || s.threads[p].pc.PushAsleep? || s.threads[p].pc.PopAsleep?
  }

  /** Nobody sleeps without cause. In a reachable state where nothing else is under
      way, a sleeping consumer means open and empty, a sleeping producer means open
      and full, and never both. */
  lemma NoStuckSleeper<T>(s: State<T>)
    requires Inv(s) && s.cap > 0 && Still(s)
    ensures Count(s.threads, PopAsleep) > 0 ==> !s.closed && s.q == []
    ensures Count(s.threads, PushAsleep) > 0 ==> !s.closed && |s.q| == s.cap
    ensures Count(s.threads, PopAsleep) == 0 || Count(s.threads, PushAsleep) == 0
  {
    CountZero(s.threads, NotifyEmpty);
    CountZero(s.threads, PopWoken);
    CountZero(s.threads, NotifyFull);
    CountZero(s.threads, PushWoken);
    CountZero(s.threads, CloseFull);
    CountZero(s.threads, CloseEmpty);
  }

  /** What every step keeps: capacity, the closed flag, what was accepted and popped. */
  ghost predicate Extends<T>(s: State<T>, s': State<T>) {
    && s'.cap == s.cap && |s'.threads| == |s.threads|
    && s.accepted <= s'.accepted && s.popped <= s'.popped
    && (s.closed ==> s'.closed && s'.accepted == s.accepted)
    && (s.drained ==> s'.drained)
  }

  lemma StepKeeps<T>(s: State<T>, a: Action<T>)
    ensures Extends(s, Step(s, a))
  {
  }

  lemma {:induction false} RunKeeps<T>(s: State<T>, acts: seq<Action<T>>)
    ensures Extends(s, Run(s, acts))
    decreases |acts|
  {
    if acts != [] {
      RunKeeps(s, acts[..|acts| - 1]);
      StepKeeps(Run(s, acts[..|acts| - 1]), acts[|acts| - 1]);
    }
  }

  /** Nothing accepted is lost, duplicated or reordered, and nothing is accepted after
      close: what was popped followed by what is queued is what was accepted. */
  lemma Conservation<T>(cap: nat, threads: nat, blank: T, acts: seq<Action<T>>, more: seq<Action<T>>)
    ensures var s := Run(Init(cap, threads, blank), acts);
      var s' := Run(s, more);
      && s.accepted == s.popped + s.q && |s.q| <= cap
      && s'.accepted == s'.popped + s'.q
      && (s.closed ==> s'.accepted == s.accepted)
  {
    var s0 := Init(cap, threads, blank);
    InitInv(cap, threads, blank);
    RunInv(s0, acts);
    RunKeeps(s0, acts);
    RunInv(Run(s0, acts), more);
    RunKeeps(Run(s0, acts), more);
  }

  /** The drain is final, with no need to stop the producers first: once any pop() has
      returned false, everything ever accepted has been popped, then and forever. */
  lemma DrainFinal<T>(cap: nat, threads: nat, blank: T, acts: seq<Action<T>>, more: seq<Action<T>>)
    requires Run(Init(cap, threads, blank), acts).drained
    ensures var s := Run(Init(cap, threads, blank), acts);
      var s' := Run(s, more);
      s.accepted == s.popped == s'.accepted == s'.popped
  {
    var s0 := Init(cap, threads, blank);
    var s := Run(s0, acts);
    InitInv(cap, threads, blank);
    RunInv(s0, acts);
    RunInv(s, more);
    RunKeeps(s, more);
  }

  /** The first closer has delivered both notify_all calls. */
  predicate ShutDown<T>(s: State<T>) {
    s.closed && forall p :: 0 <= p < |s.threads| ==> !s.threads[p].pc.CloseFull? && !s.threads[p].pc.CloseEmpty?
  }

  lemma NotifyStaysShutDown<T>(s: State<T>, p: nat, target: nat)
    requires ShutDown(s)
    ensures ShutDown(Step(s, Action(p, Notify(target))))
  {
  }

  lemma StaysShutDown<T>(s: State<T>, a: Action<T>)
    requires ShutDown(s)
    ensures ShutDown(Step(s, a))
  {
    if a.cmd.Notify? { NotifyStaysShutDown(s, a.tid, a.cmd.target); } else { QuietStaysShutDown(s, a); }
  }

  lemma QuietStaysShutDown<T>(s: State<T>, a: Action<T>)
    requires ShutDown(s) && !a.cmd.Notify?
    ensures ShutDown(Step(s, a))
  {
  }

  lemma {:induction false} AllAwake<T>(s: State<T>, more: seq<Action<T>>, p: nat)
    requires Inv(s) && ShutDown(s) && p < |s.threads|
    ensures var s' := Run(s, more);
      && ShutDown(s') && Inv(s') && p < |s'.threads|
      && !s'.threads[p].pc.PushAsleep? && !s'.threads[p].pc.PopAsleep?
    decreases |more|
  {
    var s' := Run(s, more);
    RunInv(s, more);
    RunKeeps(s, more);
    if more != [] {
      AllAwake(s, more[..|more| - 1], p);
      StaysShutDown(Run(s, more[..|more| - 1]), more[|more| - 1]);
    }
    CountZero(s'.threads, CloseFull);
    CountZero(s'.threads, CloseEmpty);
    CountZero(s'.threads, PushAsleep);
    CountZero(s'.threads, PopAsleep);
  }
}
