/** What MutexQueue's calls answer: a push enqueues its own argument exactly when it returns
    true, a pop takes one item exactly when it returns true, and no call returns false, or
    waits, without cause. Which call a thread is executing is read off the actions. */
module MutexCalls {
  import opened Common
  import opened MutexModel
  import opened MutexRuns

  predicate Begins<T>(s: State<T>, a: Action<T>, p: nat) {
    && a.tid == p < |s.threads| && s.threads[p].pc.Idle?
    && (a.cmd.CallPush? || a.cmd.CallPop? || a.cmd.CallClose?)
  }

  /** The last call that p began. */
  function LastCall<T>(s0: State<T>, acts: seq<Action<T>>, p: nat): Option<Cmd<T>>
    decreases |acts|
  {
    if acts == [] then None
    else
      var prior, a := acts[..|acts| - 1], acts[|acts| - 1];
      if Begins(Run(s0, prior), a, p) then Some(a.cmd) else LastCall(s0, prior, p)
  }

  /** What p has put into the queue and got from it since. */
  datatype Ledger<T> = Ledger(put: seq<T>, got: seq<T>)

  function Booked<T>(l: Ledger<T>, s: State<T>, s': State<T>): Ledger<T> {
    Ledger(l.put + (if |s.accepted| <= |s'.accepted| then s'.accepted[|s.accepted|..] else []),
           l.got + (if |s.popped| <= |s'.popped| then s'.popped[|s.popped|..] else []))
  }

  function Since<T>(s0: State<T>, acts: seq<Action<T>>, p: nat): Ledger<T>
    decreases |acts|
  {
    if acts == [] then Ledger([], [])
    else
      var prior, a := acts[..|acts| - 1], acts[|acts| - 1];
      if Begins(Run(s0, prior), a, p) then Ledger([], [])
      else if a.tid == p then Booked(Since(s0, prior, p), Run(s0, prior), Run(s0, acts))
      else Since(s0, prior, p)
  }

  predicate PushWaiting(pc: Pc) { pc.PushLock? || pc.PushAsleep? || pc.PushWoken? }
  predicate PopWaiting(pc: Pc) { pc.PopLock? || pc.PopAsleep? || pc.PopWoken? }
  predicate Closing(pc: Pc) { pc.CloseLock? || pc.CloseFull? || pc.CloseEmpty? }

  /** The thread works for call c with the call's argument and patience, it has booked what
      it should, and once it has returned `ok` says what it did. */
  ghost predicate Answers<T>(th: Thread<T>, c: Option<Cmd<T>>, l: Ledger<T>) {
    && (PushWaiting(th.pc) ==>
          c == Some(CallPush(th.item, th.wait)) && l == Ledger([], []) && (th.expired ==> th.wait.Timed?))
    && (th.pc.NotifyEmpty? ==> c == Some(CallPush(th.item, th.wait)) && l == Ledger([th.item], []) && th.ok)
    && (PopWaiting(th.pc) ==>
          c == Some(CallPop(th.wait)) && l == Ledger([], []) && (th.expired ==> th.wait.Timed?))
    && (th.pc.NotifyFull? ==> c == Some(CallPop(th.wait)) && l == Ledger([], [th.item]) && th.ok)
    && (Closing(th.pc) ==> c == Some(CallClose) && l == Ledger([], []))
    && (th.pc.Idle? && c.Some? ==>
          match c.value
          case CallPush(x, _) => l == Ledger(if th.ok then [x] else [], [])
          case CallPop(_) => l == Ledger([], if th.ok then [th.item] else [])
          case _ => l == Ledger([], []))
  }

  /** Another thread's step changes p at most by waking it. */
  ghost predicate OnlyWoken<T>(th: Thread<T>, th': Thread<T>) {
    th' == th || (th.pc.PushAsleep? && th' == th.(pc := PushWoken)) || (th.pc.PopAsleep? && th' == th.(pc := PopWoken))
  }

  lemma OtherNotify<T>(s: State<T>, r: nat, p: nat, target: nat)
    requires p < |s.threads| && r != p && r < |s.threads|
    ensures var s' := Step(s, Action(r, Notify(target))); p < |s'.threads| && OnlyWoken(s.threads[p], s'.threads[p])
  {
  }

  lemma OtherStep<T>(s: State<T>, a: Action<T>, p: nat)
    requires p < |s.threads| && a.tid != p
    ensures var s' := Step(s, a); p < |s'.threads| && OnlyWoken(s.threads[p], s'.threads[p])
  {
    if a.cmd.Notify? && a.tid < |s.threads| {
      OtherNotify(s, a.tid, p, a.cmd.target);
    } else {
      OtherQuiet(s, a, p);
    }
  }

  lemma OtherQuiet<T>(s: State<T>, a: Action<T>, p: nat)
    requires p < |s.threads| && a.tid != p && (!a.cmd.Notify? || a.tid >= |s.threads|)
    ensures var s' := Step(s, a); p < |s'.threads| && s'.threads[p] == s.threads[p]
  {
  }

  /** A call made between calls goes for the lock. */
  lemma CallsEnter<T>(s: State<T>, a: Action<T>)
    requires Begins(s, a, a.tid)
    ensures var s' := Step(s, a); var th' := s'.threads[a.tid];
      && s' == Set(s, a.tid, th')
      && (a.cmd.CallPush? ==> th'.pc.PushLock? && th'.item == a.cmd.item && th'.wait == a.cmd.wait && !th'.expired)
      && (a.cmd.CallPop? ==> th'.pc.PopLock? && th'.wait == a.cmd.wait && !th'.expired)
      && (a.cmd.CallClose? ==> th'.pc.CloseLock?)
  {
  }

  lemma CallAnswers<T>(s: State<T>, a: Action<T>, c: Option<Cmd<T>>, l: Ledger<T>)
    requires a.tid < |s.threads| && (a.cmd.CallPush? || a.cmd.CallPop? || a.cmd.CallClose?)
    requires Answers(s.threads[a.tid], c, l)
    ensures var s' := Step(s, a);
      && a.tid < |s'.threads| && s'.accepted == s.accepted && s'.popped == s.popped
      && if Begins(s, a, a.tid) then Answers(s'.threads[a.tid], Some(a.cmd), Ledger([], []))
         else Answers(s'.threads[a.tid], c, l)
  {
  }

  lemma PushAnswers<T>(s: State<T>, p: nat, c: Option<Cmd<T>>, l: Ledger<T>)
    requires p < |s.threads| && Answers(s.threads[p], c, l)
    requires s.threads[p].pc.PushLock? || s.threads[p].pc.PushWoken?
    ensures var s' := PushSection(s, p); Answers(s'.threads[p], c, Booked(l, s, s'))
  {
    var s' := PushSection(s, p);
    if |s'.accepted| > |s.accepted| { assert s'.accepted[|s.accepted|..] == [s.threads[p].item]; }
    assert l == Ledger([], []);
  }

  lemma PopAnswers<T>(s: State<T>, p: nat, c: Option<Cmd<T>>, l: Ledger<T>)
    requires p < |s.threads| && Answers(s.threads[p], c, l)
    requires s.threads[p].pc.PopLock? || s.threads[p].pc.PopWoken?
    ensures var s' := PopSection(s, p); Answers(s'.threads[p], c, Booked(l, s, s'))
  {
    var s' := PopSection(s, p);
    if |s'.popped| > |s.popped| { assert s'.popped[|s.popped|..] == [s.q[0]]; }
    assert l == Ledger([], []);
  }

  lemma CloseAnswers<T>(s: State<T>, p: nat, c: Option<Cmd<T>>, l: Ledger<T>)
    requires p < |s.threads| && Answers(s.threads[p], c, l) && s.threads[p].pc.CloseLock?
    ensures var s' := CloseSection(s, p);
      Answers(s'.threads[p], c, l) && s'.accepted == s.accepted && s'.popped == s.popped
  {
  }

  lemma LockAnswers<T>(s: State<T>, p: nat, c: Option<Cmd<T>>, l: Ledger<T>)
    requires p < |s.threads| && Answers(s.threads[p], c, l)
    ensures var s' := Step(s, Action(p, Lock));
      p < |s'.threads| && Answers(s'.threads[p], c, Booked(l, s, s'))
  {
    var pc := s.threads[p].pc;
    if pc.PushLock? || pc.PushWoken? {
      PushAnswers(s, p, c, l);
    } else if pc.PopLock? || pc.PopWoken? {
      PopAnswers(s, p, c, l);
    } else if pc.CloseLock? {
      CloseAnswers(s, p, c, l);
      NothingBooked(l, s, CloseSection(s, p));
    } else {
      NothingBooked(l, s, s);
    }
  }

  lemma NotifyAnswers<T>(s: State<T>, p: nat, target: nat, c: Option<Cmd<T>>, l: Ledger<T>)
    requires p < |s.threads| && Answers(s.threads[p], c, l)
    ensures var s' := Step(s, Action(p, Notify(target)));
      && p < |s'.threads| && s'.accepted == s.accepted && s'.popped == s.popped
      && Answers(s'.threads[p], c, l)
  {
  }

  lemma WakeAnswers<T>(s: State<T>, p: nat, cmd: Cmd<T>, c: Option<Cmd<T>>, l: Ledger<T>)
    requires p < |s.threads| && Answers(s.threads[p], c, l) && (cmd.Wake? || cmd.Expire?)
    ensures var s' := Step(s, Action(p, cmd));
      && p < |s'.threads| && s'.accepted == s.accepted && s'.popped == s.popped
      && Answers(s'.threads[p], c, l)
  {
  }

  lemma NothingBooked<T>(l: Ledger<T>, s: State<T>, s': State<T>)
    requires s'.accepted == s.accepted && s'.popped == s.popped
    ensures Booked(l, s, s') == l
  {
  }

  lemma AnswersStep<T>(s: State<T>, a: Action<T>, p: nat, c: Option<Cmd<T>>, l: Ledger<T>)
    requires p < |s.threads| && Answers(s.threads[p], c, l)
    ensures var s' := Step(s, a);
      p < |s'.threads|
      && if Begins(s, a, p) then Answers(s'.threads[p], Some(a.cmd), Ledger([], []))
         else Answers(s'.threads[p], c, if a.tid == p then Booked(l, s, s') else l)
  {
    if a.tid != p {
      OtherStep(s, a, p);
    } else {
      var s' := Step(s, a);
      match a.cmd {
        case Lock => LockAnswers(s, p, c, l);
        case Notify(target) => NotifyAnswers(s, p, target, c, l); NothingBooked(l, s, s');
        case Wake => WakeAnswers(s, p, a.cmd, c, l); NothingBooked(l, s, s');
        case Expire => WakeAnswers(s, p, a.cmd, c, l); NothingBooked(l, s, s');
        case _ => CallAnswers(s, a, c, l); NothingBooked(l, s, s');
      }
    }
  }

  /** Every answer is right. Since a thread began its last call, it has put exactly the
      call's argument into the queue if that is a push which returned true, and nothing
      otherwise; and it has got exactly the item it returns if that is a pop which returned
      true, and nothing otherwise. */
  lemma {:induction false} EveryCallAnswers<T>(cap: nat, threads: nat, blank: T, acts: seq<Action<T>>, p: nat)
    requires p < threads
    ensures var s0 := Init(cap, threads, blank); var s := Run(s0, acts);
      p < |s.threads| && Answers(s.threads[p], LastCall(s0, acts, p), Since(s0, acts, p))
    decreases |acts|
  {
    if acts != [] {
      var s0, prior := Init(cap, threads, blank), acts[..|acts| - 1];
      EveryCallAnswers(cap, threads, blank, prior, p);
      AnswersStep(Run(s0, prior), acts[|acts| - 1], p, LastCall(s0, prior, p), Since(s0, prior, p));
    }
  }

  // --------------------------------------------------------- from arguments to results

  /** The arguments of the pushes that were accepted, in order. */
  function Arguments<T>(s0: State<T>, acts: seq<Action<T>>): seq<T>
    decreases |acts|
  {
    if acts == [] then []
    else
      var prior := acts[..|acts| - 1];
      var c := LastCall(s0, prior, acts[|acts| - 1].tid);
      Arguments(s0, prior) +
      if |Run(s0, acts).accepted| > |Run(s0, prior).accepted| && c.Some? && c.value.CallPush? then [c.value.item] else []
  }

  /** What the pops that returned true returned, in order. */
  function Results<T>(s0: State<T>, acts: seq<Action<T>>): seq<T>
    decreases |acts|
  {
    if acts == [] then []
    else
      var prior, p, s := acts[..|acts| - 1], acts[|acts| - 1].tid, Run(s0, acts);
      Results(s0, prior) +
      if |s.popped| > |Run(s0, prior).popped| && p < |s.threads| then [s.threads[p].item] else []
  }

  /** Who changes the records, and how. */
  lemma Records<T>(s: State<T>, a: Action<T>)
    ensures var s' := Step(s, a);
      && (s'.accepted == s.accepted ||
          (a.tid < |s.threads| && PushWaiting(s.threads[a.tid].pc) && s'.accepted == s.accepted + [s.threads[a.tid].item]))
      && (s'.popped == s.popped ||
          (a.tid < |s'.threads| && s'.popped == s.popped + [s'.threads[a.tid].item]))
  {
  }

  /** In every run, what was accepted are the arguments of the accepting pushes, what was
      popped is what the pops returned, and the results are a prefix of the arguments. */
  lemma {:induction false} ResultsAreArguments<T>(cap: nat, threads: nat, blank: T, acts: seq<Action<T>>)
    ensures var s0 := Init(cap, threads, blank); var s := Run(s0, acts);
      && s.accepted == Arguments(s0, acts) && s.popped == Results(s0, acts)
      && Results(s0, acts) <= Arguments(s0, acts)
    decreases |acts|
  {
    var s0 := Init(cap, threads, blank);
    if acts != [] {
      var prior, a := acts[..|acts| - 1], acts[|acts| - 1];
      ResultsAreArguments(cap, threads, blank, prior);
      Records(Run(s0, prior), a);
      RunKeeps(s0, prior);
      if a.tid < threads { EveryCallAnswers(cap, threads, blank, prior, a.tid); }
    }
    InitInv(cap, threads, blank);
    RunInv(s0, acts);
  }

  // -------------------------------------------------- why a call returns false or waits

  /** Under the lock a push enqueues exactly when open with room; returns false exactly
      when closed, or when full and out of patience; and sleeps exactly when full, open and
      patient. With endless patience it returns false only when closed. */
  lemma PushDecides<T>(s: State<T>, p: nat, c: Option<Cmd<T>>, l: Ledger<T>)
    requires p < |s.threads| && Answers(s.threads[p], c, l)
    requires s.threads[p].pc.PushLock? || s.threads[p].pc.PushWoken?
    ensures var th, s' := s.threads[p], Step(s, Action(p, Lock)); var th' := s'.threads[p];
      && (th'.pc.NotifyEmpty? <==> !s.closed && |s.q| < s.cap)
      && (th'.pc.NotifyEmpty? ==> th'.ok && s'.q == s.q + [th.item])
      && (th'.pc.Idle? <==> s.closed || (|s.q| >= s.cap && (th.wait.Never? || th.expired)))
      && (th'.pc.PushAsleep? <==> !s.closed && |s.q| >= s.cap && !th.wait.Never? && !th.expired)
      && (th'.pc.Idle? ==> !th'.ok && s'.q == s.q && (th.wait.Forever? ==> s.closed))
      && s'.closed == s.closed
  {
  }

  /** Under the lock a pop takes the oldest item exactly when there is one; returns false
      exactly when there is none and the queue is closed or its patience is over; and sleeps
      exactly when the queue is empty, open and it is patient. With endless patience it
      returns false only when closed, and that is recorded. */
  lemma PopDecides<T>(s: State<T>, p: nat, c: Option<Cmd<T>>, l: Ledger<T>)
    requires p < |s.threads| && Answers(s.threads[p], c, l)
    requires s.threads[p].pc.PopLock? || s.threads[p].pc.PopWoken?
    ensures var th, s' := s.threads[p], Step(s, Action(p, Lock)); var th' := s'.threads[p];
      && (th'.pc.NotifyFull? <==> s.q != [])
      && (th'.pc.NotifyFull? ==> th'.ok && [th'.item] + s'.q == s.q)
      && (th'.pc.Idle? <==> s.q == [] && (s.closed || th.wait.Never? || th.expired))
      && (th'.pc.PopAsleep? <==> s.q == [] && !s.closed && !th.wait.Never? && !th.expired)
      && (th'.pc.Idle? ==> !th'.ok && s'.q == s.q && (th.wait.Forever? ==> s.closed && s'.drained))
      && s'.closed == s.closed
  {
  }

  /** No other step makes a push or pop return false. */
  lemma ReturnsOnlyThen<T>(s: State<T>, a: Action<T>, p: nat, c: Option<Cmd<T>>, l: Ledger<T>)
    requires p < |s.threads| && Answers(s.threads[p], c, l) && !s.threads[p].pc.Idle?
    ensures var th, s' := s.threads[p], Step(s, a);
      p < |s'.threads| && (s'.threads[p].pc.Idle? && !s'.threads[p].ok && !Closing(th.pc) ==>
        a == Action(p, Lock) && !th.pc.PushAsleep? && !th.pc.PopAsleep?)
  {
    if a.tid != p { OtherStep(s, a, p); }
  }

  predicate OwnActs<T>(p: nat, acts: seq<Action<T>>) {
    forall k :: 0 <= k < |acts| ==> acts[k].tid == p
  }

  /** A push or pop with endless patience that finds the queue open and full (empty) stays
      in its call and changes nothing, whatever it does alone: wake spuriously, look again,
      sleep again. */
  lemma {:induction false} Waits<T>(s: State<T>, p: nat, acts: seq<Action<T>>)
    requires p < |s.threads| && OwnActs(p, acts) && !s.closed && s.threads[p].wait.Forever? && !s.threads[p].expired
    requires (PushWaiting(s.threads[p].pc) && |s.q| >= s.cap) || (PopWaiting(s.threads[p].pc) && s.q == [])
    ensures var s' := Run(s, acts);
      && p < |s'.threads| && !s'.closed && s'.q == s.q && s'.cap == s.cap && s'.drained == s.drained
      && s'.threads[p].wait.Forever? && !s'.threads[p].expired
      && (PushWaiting(s.threads[p].pc) ==> PushWaiting(s'.threads[p].pc))
      && (PopWaiting(s.threads[p].pc) ==> PopWaiting(s'.threads[p].pc))
    decreases |acts|
  {
    if acts != [] {
      var prior := acts[..|acts| - 1];
      Waits(s, p, prior);
      WaitsStep(Run(s, prior), p, acts[|acts| - 1]);
    }
  }

  lemma WaitsStep<T>(s: State<T>, p: nat, a: Action<T>)
    requires p < |s.threads| && a.tid == p && !s.closed && s.threads[p].wait.Forever? && !s.threads[p].expired
    requires (PushWaiting(s.threads[p].pc) && |s.q| >= s.cap) || (PopWaiting(s.threads[p].pc) && s.q == [])
    ensures var s' := Step(s, a);
      && p < |s'.threads| && !s'.closed && s'.q == s.q && s'.cap == s.cap && s'.drained == s.drained
      && s'.threads[p].wait.Forever? && !s'.threads[p].expired
      && (PushWaiting(s.threads[p].pc) ==> PushWaiting(s'.threads[p].pc))
      && (PopWaiting(s.threads[p].pc) ==> PopWaiting(s'.threads[p].pc))
  {
  }

  /** What may happen to a sleeper: a spurious wakeup; a timeout, if the wait is timed, after
      which the next look is its last; and any notification owed on its condition may be
      the one it gets. */
  lemma SleepersWake<T>(s: State<T>, p: nat, r: nat)
    requires p < |s.threads| && r < |s.threads| && p != r
    requires s.threads[p].pc.PushAsleep? || s.threads[p].pc.PopAsleep?
    ensures var woken := if s.threads[p].pc.PushAsleep? then PushWoken else PopWoken;
      && Step(s, Action(p, Wake)).threads == s.threads[p := s.threads[p].(pc := woken)]
      && (s.threads[p].wait.Timed? ==>
            Step(s, Action(p, Expire)).threads == s.threads[p := s.threads[p].(pc := woken, expired := true)])
      && (s.threads[r].pc == (if s.threads[p].pc.PushAsleep? then NotifyFull else NotifyEmpty) ==>
            Step(s, Action(r, Notify(p))).threads
            == s.threads[r := s.threads[r].(pc := Idle)][p := s.threads[p].(pc := woken)])
  {
  }

  /** Owed notifications can be delivered, and then the call returns: with nobody asleep any
      notify_one does, otherwise one naming a sleeper; close() after both notify_all. */
  lemma NotifyReturns<T>(s: State<T>, p: nat, target: nat)
    requires p < |s.threads|
    ensures var asleep := if s.threads[p].pc.NotifyEmpty? then PopAsleep else PushAsleep;
      (s.threads[p].pc.NotifyEmpty? || s.threads[p].pc.NotifyFull?)
      && (Count(s.threads, asleep) == 0 || Sleeps(s.threads, target, asleep)) ==>
      Step(s, Action(p, Notify(target))).threads[p] == s.threads[p].(pc := Idle)
    ensures s.threads[p].pc.CloseFull? ==>
      Step(s, Action(p, Notify(target))).threads[p] == s.threads[p].(pc := CloseEmpty)
    ensures s.threads[p].pc.CloseEmpty? ==>
      Step(s, Action(p, Notify(target))).threads[p] == s.threads[p].(pc := Idle)
  {
    CountZero(s.threads, PopAsleep);
    CountZero(s.threads, PushAsleep);
  }
}
