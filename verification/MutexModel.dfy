/** MutexQueue as a monitor with two condition variables, any number of threads.

    A critical section is one step; the notifications that follow the unlock are
    steps of their own. A wait that finds its predicate false puts the thread to
    sleep in the same step (condition_variable::wait releases the lock atomically).
    Sleepers may be woken by a notification, spuriously, or by an expiring timeout,
    and then have to take the lock again like any other thread; threads that never
    slept may barge in between. The ring behind the queue is module MutexRing; here
    its contents are the sequence `q`. */
module MutexModel {

  /** push/pop wait forever, try_*_for until a timeout, try_* not at all. */
  datatype Wait = Forever | Timed | Never

  datatype Pc =
    | Idle
    | PushLock       // about to enter push's critical section
    | PushAsleep     // waiting on not_full_
    | PushWoken      // left the wait, has to take the lock again
    | NotifyEmpty    // has enqueued, owes not_empty_.notify_one()
    | PopLock
    | PopAsleep      // waiting on not_empty_
    | PopWoken
    | NotifyFull     // has dequeued, owes not_full_.notify_one()
    | CloseLock
    | CloseFull      // first closer: owes not_full_.notify_all()
    | CloseEmpty     // then owes not_empty_.notify_all()

  /** `expired`: the timed wait has timed out and evaluates its predicate last. `ok` is
      what the last call returned. */
  datatype Thread<T> = Thread(pc: Pc, wait: Wait, expired: bool, ok: bool, item: T)

  /** `drained` records that some untimed pop() has returned false. */
  datatype State<T> = State(
    cap: nat, q: seq<T>, closed: bool, threads: seq<Thread<T>>,
    accepted: seq<T>, popped: seq<T>, drained: bool)

  datatype Cmd<T> =
    | CallPush(item: T, wait: Wait)
    | CallPop(wait: Wait)
    | CallClose
    | Lock                  // run the critical section
    | Notify(target: nat)   // deliver the owed notification
    | Wake                  // spurious wakeup
    | Expire                // timeout

  datatype Action<T> = Action(tid: nat, cmd: Cmd<T>)

  function Init<T>(cap: nat, threads: nat, blank: T): State<T> {
    State(cap, [], false, seq(threads, i => Thread(Idle, Never, false, false, blank)), [], [], false)
  }

  function Set<T>(s: State<T>, p: nat, th: Thread<T>): State<T>
    requires p < |s.threads|
  {
    s.(threads := s.threads[p := th])
  }

  /** push, try_push and try_push_for under the lock. */
  function PushSection<T>(s: State<T>, p: nat): State<T>
    requires p < |s.threads|
  {
    var th := s.threads[p];
    if s.closed then Set(s, p, th.(pc := Idle, ok := false))
    else if |s.q| < s.cap then
      Set(s, p, th.(pc := NotifyEmpty, ok := true)).(q := s.q + [th.item], accepted := s.accepted + [th.item])
    else if th.wait.Never? || th.expired then Set(s, p, th.(pc := Idle, ok := false))
    else Set(s, p, th.(pc := PushAsleep))
  }

  /** pop, try_pop and try_pop_for under the lock. */
  function PopSection<T>(s: State<T>, p: nat): State<T>
    requires p < |s.threads|
  {
    var th := s.threads[p];
    if |s.q| > 0 then
      Set(s, p, th.(pc := NotifyFull, ok := true, item := s.q[0])).(q := s.q[1..], popped := s.popped + [s.q[0]])
    else if s.closed then Set(s, p, th.(pc := Idle, ok := false)).(drained := s.drained || th.wait.Forever?)
    else if th.wait.Never? || th.expired then Set(s, p, th.(pc := Idle, ok := false))
    else Set(s, p, th.(pc := PopAsleep))
  }

  function CloseSection<T>(s: State<T>, p: nat): State<T>
    requires p < |s.threads|
  {
    if s.closed then Set(s, p, s.threads[p].(pc := Idle))
    else Set(s, p, s.threads[p].(pc := CloseFull)).(closed := true)
  }

  predicate Sleeps<T>(threads: seq<Thread<T>>, p: nat, asleep: Pc) {
    p < |threads| && threads[p].pc == asleep
  }

  /** notify_one: wakes the chosen sleeper; nobody when there is none. A choice that
      does not name a sleeper while one exists is not a step. */
  function NotifyOne<T>(s: State<T>, p: nat, target: nat, asleep: Pc, woken: Pc): State<T>
    requires p < |s.threads|
  {
    var rest := Set(s, p, s.threads[p].(pc := Idle));
    if Sleeps(s.threads, target, asleep) && target != p
    then Set(rest, target, s.threads[target].(pc := woken))
    else if forall q :: 0 <= q < |s.threads| ==> s.threads[q].pc != asleep then rest
    else s
  }

  function WakeAll<T>(threads: seq<Thread<T>>, asleep: Pc, woken: Pc): (r: seq<Thread<T>>)
    ensures |r| == |threads|
    ensures forall q :: 0 <= q < |threads| ==>
      r[q] == if threads[q].pc == asleep then threads[q].(pc := woken) else threads[q]
  {
    seq(|threads|, q requires 0 <= q < |threads| =>
      if threads[q].pc == asleep then threads[q].(pc := woken) else threads[q])
  }

  function NotifyAll<T>(s: State<T>, p: nat, asleep: Pc, woken: Pc, next: Pc): State<T>
    requires p < |s.threads|
  {
    s.(threads := WakeAll(s.threads[p := s.threads[p].(pc := next)], asleep, woken))
  }

  function Step<T>(s: State<T>, a: Action<T>): State<T> {
    if a.tid >= |s.threads| then s
    else
      var p, th := a.tid, s.threads[a.tid];
      match a.cmd
      case CallPush(x, w) =>
        if th.pc.Idle? then Set(s, p, th.(pc := PushLock, wait := w, expired := false, item := x)) else s
      case CallPop(w) =>
        if th.pc.Idle? then Set(s, p, th.(pc := PopLock, wait := w, expired := false)) else s
      case CallClose =>
        if th.pc.Idle? then Set(s, p, th.(pc := CloseLock)) else s
      case Lock =>
        if th.pc.PushLock? || th.pc.PushWoken? then PushSection(s, p)
        else if th.pc.PopLock? || th.pc.PopWoken? then PopSection(s, p)
        else if th.pc.CloseLock? then CloseSection(s, p)
        else s
      case Notify(target) =>
        if th.pc.NotifyEmpty? then NotifyOne(s, p, target, PopAsleep, PopWoken)
        else if th.pc.NotifyFull? then NotifyOne(s, p, target, PushAsleep, PushWoken)
        else if th.pc.CloseFull? then NotifyAll(s, p, PushAsleep, PushWoken, CloseEmpty)
        else if th.pc.CloseEmpty? then NotifyAll(s, p, PopAsleep, PopWoken, Idle)
        else s
      case Wake =>
        if th.pc.PushAsleep? then Set(s, p, th.(pc := PushWoken))
        else if th.pc.PopAsleep? then Set(s, p, th.(pc := PopWoken))
        else s
      case Expire =>
        if !th.wait.Timed? then s
        else if th.pc.PushAsleep? || th.pc.PushWoken? then Set(s, p, th.(pc := PushWoken, expired := true))
        else if th.pc.PopAsleep? || th.pc.PopWoken? then Set(s, p, th.(pc := PopWoken, expired := true))
        else s
  }

  function Run<T>(s: State<T>, acts: seq<Action<T>>): State<T>
    decreases |acts|
  {
    if acts == [] then s else Step(Run(s, acts[..|acts| - 1]), acts[|acts| - 1])
  }
}
