/** What SpscQueue's calls answer: every push publishes the front of its own argument,
    every pop returns what it took, and no call comes back empty-handed without cause.
    Which call a side is executing is read off the actions, not off its variables. */
module SpscCalls {
  import opened Common
  import opened Words
  import opened Rings
  import opened SpscModel
  import opened SpscInvariant
  import opened SpscRuns

  datatype PushArg<V> = PushArg(mode: PMode, items: seq<V>)
  datatype PopArg = PopArg(mode: CMode, want: nat)

  /** a is a push by the producer, made between calls. */
  predicate BeginsPush<V>(s: State<V>, a: Action<V>) {
    a.actor.P? && a.cmd.CallPush? && s.p.pc.PIdle? && (a.cmd.pmode.PushN? || |a.cmd.items| == 1)
  }

  predicate BeginsPop<V>(s: State<V>, a: Action<V>) {
    a.actor.C? && a.cmd.CallPop? && s.c.pc.CIdle?
  }

  /** The last push (pop) begun, and how many items have been published (taken) since. */
  function LastPush<V>(s0: State<V>, acts: seq<Action<V>>): Option<PushArg<V>>
    requires Shape(s0)
    decreases |acts|
  {
    if acts == [] then None
    else
      var prior, a := acts[..|acts| - 1], acts[|acts| - 1];
      if BeginsPush(Run(s0, prior), a) then Some(PushArg(a.cmd.pmode, a.cmd.items)) else LastPush(s0, prior)
  }

  function LastPop<V>(s0: State<V>, acts: seq<Action<V>>): Option<PopArg>
    requires Shape(s0)
    decreases |acts|
  {
    if acts == [] then None
    else
      var prior, a := acts[..|acts| - 1], acts[|acts| - 1];
      if BeginsPop(Run(s0, prior), a) then Some(PopArg(a.cmd.cmode, if a.cmd.cmode.PopN? then a.cmd.want else 1))
      else LastPop(s0, prior)
  }

  function PublishedSince<V>(s0: State<V>, acts: seq<Action<V>>): int
    requires Shape(s0)
    decreases |acts|
  {
    if acts == [] then 0
    else
      var prior, a := acts[..|acts| - 1], acts[|acts| - 1];
      if BeginsPush(Run(s0, prior), a) then 0
      else PublishedSince(s0, prior) + T(Run(s0, acts).m) - T(Run(s0, prior).m)
  }

  function TakenSince<V>(s0: State<V>, acts: seq<Action<V>>): int
    requires Shape(s0)
    decreases |acts|
  {
    if acts == [] then 0
    else
      var prior, a := acts[..|acts| - 1], acts[|acts| - 1];
      if BeginsPop(Run(s0, prior), a) then 0
      else TakenSince(s0, prior) + H(Run(s0, acts).m) - H(Run(s0, prior).m)
  }

  // ------------------------------------------------------------------- the producer

  /** What the producer's last call c has published, n items so far, and what its answer
      means once it has returned. */
  ghost predicate PushAnswers<V>(m: Mem<V>, p: Producer<V>, c: Option<PushArg<V>>, n: int)
    requires |m.tail| > 0
  {
    && (!p.pc.PIdle? ==> c == Some(PushArg(p.mode, p.items)) && n == 0)
    && (p.pc.PIdle? && c.Some? ==>
          && n == p.ret <= |c.value.items| && (!c.value.mode.PushN? ==> p.ret <= 1)
          && p.ret <= T(m) == |m.puts|
          && forall i :: 0 <= i < p.ret ==> m.puts[T(m) - p.ret + i].item == c.value.items[i])
  }

  lemma PushCallAnswers<V>(s: State<V>, mode: PMode, items: seq<V>)
    requires Shape(s) && s.p.pc.PIdle? && (mode.PushN? || |items| == 1) && T(s.m) == |s.m.puts|
    ensures PushAnswers(s.m, StartPush(s, mode, items).p, Some(PushArg(mode, items)), 0)
    ensures StartPush(s, mode, items).m == s.m
  {
  }

  /** Before its publish the producer keeps its call; it returns only with nothing. */
  lemma ProducerQuiet<V>(s: State<V>, pick: nat)
    requires Shape(s) && !s.p.pc.PIdle? && !s.p.pc.PPublish?
    ensures var s' := ProducerGo(s, pick);
      && s'.m.tail == s.m.tail && s'.p.mode == s.p.mode && s'.p.items == s.p.items
      && (s'.p.pc.PIdle? ==> s'.p.ret == 0)
  {
  }

  lemma QuietAnswers<V>(m: Mem<V>, p: Producer<V>, m': Mem<V>, p': Producer<V>, c: Option<PushArg<V>>, n: int)
    requires |m.tail| > 0 && PushAnswers(m, p, c, n) && !p.pc.PIdle?
    requires m'.tail == m.tail && p'.mode == p.mode && p'.items == p.items
    requires p'.pc.PIdle? ==> p'.ret == 0 && T(m') == |m'.puts|
    ensures PushAnswers(m', p', c, n)
  {
  }

  lemma ProducerAnswers<V>(s: State<V>, pick: nat, c: Option<PushArg<V>>, n: int)
    requires Inv(s) && PushAnswers(s.m, s.p, c, n)
    ensures var s' := ProducerGo(s, pick);
      |s'.m.tail| > 0 && PushAnswers(s'.m, s'.p, c, n + T(s'.m) - T(s.m))
  {
    if s.p.pc.PPublish? {
      PublishAnswers(s, c, n);
    } else if !s.p.pc.PIdle? {
      var s' := ProducerGo(s, pick);
      ProducerQuiet(s, pick);
      PublishedAll(s, pick);
      QuietAnswers(s.m, s.p, s'.m, s'.p, c, n);
    }
  }

  lemma PublishedAll<V>(s: State<V>, pick: nat)
    requires Inv(s)
    ensures var s' := ProducerGo(s, pick); |s'.m.tail| > 0 && (s'.p.pc.PIdle? ==> T(s'.m) == |s'.m.puts|)
  {
    ProducerInv(s, pick);
  }

  lemma PublishAnswers<V>(s: State<V>, c: Option<PushArg<V>>, n: int)
    requires Shape(s) && ProdOk(s.m, s.p) && s.p.pc.PPublish? && PushAnswers(s.m, s.p, c, n)
    ensures var s' := PublishTail(s); PushAnswers(s'.m, s'.p, c, n + T(s'.m) - T(s.m))
  {
  }

  /** The consumer and the closers leave the producer's answer alone. */
  lemma PushFrame<V>(m: Mem<V>, m': Mem<V>, p: Producer<V>, p': Producer<V>, c: Option<PushArg<V>>, n: int)
    requires |m.tail| > 0 && PushAnswers(m, p, c, n)
    requires m'.tail == m.tail && m'.puts == m.puts && p' == p.(view := p'.view)
    ensures PushAnswers(m', p', c, n)
  {
  }

  lemma ConsumerLeaves<V>(s: State<V>, pick: nat)
    requires Shape(s)
    ensures var s' := ConsumerGo(s, pick); s'.m.tail == s.m.tail && s'.m.puts == s.m.puts && s'.p == s.p
  {
  }

  lemma PushGoAnswers<V>(s: State<V>, a: Action<V>, c: Option<PushArg<V>>, n: int)
    requires Inv(s) && PushAnswers(s.m, s.p, c, n) && a.cmd.Go?
    ensures var s' := Step(s, a); PushAnswers(s'.m, s'.p, c, n + T(s'.m) - T(s.m))
  {
    StepIs(s, a);
    if a.actor.P? {
      ProducerAnswers(s, a.cmd.pick, c, n);
    } else if a.actor.C? {
      ConsumerLeaves(s, a.cmd.pick);
      PushFrame(s.m, ConsumerGo(s, a.cmd.pick).m, s.p, s.p, c, n);
    }
  }

  lemma PushOtherAnswers<V>(s: State<V>, a: Action<V>, c: Option<PushArg<V>>, n: int)
    requires Shape(s) && PushAnswers(s.m, s.p, c, n) && !a.cmd.Go? && !BeginsPush(s, a)
    requires T(s.m) == |s.m.puts| || !s.p.pc.PIdle?
    ensures var s' := Step(s, a); T(s'.m) == T(s.m) && PushAnswers(s'.m, s'.p, c, n)
  {
    StepIs(s, a);
    if a.cmd.Close? || a.cmd.Sync? { PushFrame(s.m, Step(s, a).m, s.p, Step(s, a).p, c, n); }
  }

  lemma PushAnswersStep<V>(s: State<V>, a: Action<V>, c: Option<PushArg<V>>, n: int)
    requires Inv(s) && PushAnswers(s.m, s.p, c, n)
    ensures var s' := Step(s, a);
      if BeginsPush(s, a) then PushAnswers(s'.m, s'.p, Some(PushArg(a.cmd.pmode, a.cmd.items)), 0)
      else PushAnswers(s'.m, s'.p, c, n + T(s'.m) - T(s.m))
  {
    if a.cmd.Go? {
      PushGoAnswers(s, a, c, n);
    } else if BeginsPush(s, a) {
      StepIs(s, a);
      PushCallAnswers(s, a.cmd.pmode, a.cmd.items);
    } else {
      PushOtherAnswers(s, a, c, n);
    }
  }

  /** Every push's answer is right: since the producer began its last call, it has
      published as many items as the call returned, none while the call runs, and they
      are the first items of its argument. */
  lemma {:induction false} EveryPushAnswers<V>(capacity: nat, others: nat, blank: V, acts: seq<Action<V>>)
    requires capacity > 0
    ensures var s0 := Init(capacity, others, blank); var s := Run(s0, acts);
      PushAnswers(s.m, s.p, LastPush(s0, acts), PublishedSince(s0, acts))
    decreases |acts|
  {
    var s0 := Init(capacity, others, blank);
    if acts != [] {
      var prior := acts[..|acts| - 1];
      EveryPushAnswers(capacity, others, blank, prior);
      InitInv(capacity, others, blank);
      RunInv(s0, prior);
      PushAnswersStep(Run(s0, prior), acts[|acts| - 1], LastPush(s0, prior), PublishedSince(s0, prior));
    }
  }

  // ------------------------------------------------------------------- the consumer

  ghost predicate PopAnswers<V>(m: Mem<V>, c: Consumer<V>, arg: Option<PopArg>, n: int)
    requires |m.head| > 0
  {
    && (!c.pc.CIdle? ==> arg == Some(PopArg(c.mode, c.want)) && n == 0 && (c.final ==> c.mode.Pop?))
    && (c.pc.CCheck? ==> c.mode.Pop?)
    && (c.pc.CIdle? && arg.Some? ==>
          && n == |c.out| <= arg.value.want && |c.out| <= H(m) == |m.takes|
          && forall i :: 0 <= i < |c.out| ==> m.takes[H(m) - |c.out| + i].item == c.out[i])
  }

  lemma PopCallAnswers<V>(s: State<V>, mode: CMode, want: nat)
    requires Shape(s) && s.c.pc.CIdle? && H(s.m) == |s.m.takes|
    ensures PopAnswers(s.m, StartPop(s, mode, want).c, Some(PopArg(mode, if mode.PopN? then want else 1)), 0)
    ensures StartPop(s, mode, want).m == s.m
  {
  }

  lemma TakeAnswers<V>(s: State<V>, arg: Option<PopArg>, n: int)
    requires Shape(s) && ConsOk(s.m, s.c) && s.c.pc.CPublish? && PopAnswers(s.m, s.c, arg, n)
    ensures var s' := PublishHead(s); PopAnswers(s'.m, s'.c, arg, n + H(s'.m) - H(s.m))
  {
  }

  /** Before it gives its slots back the consumer keeps its call; it returns only with
      nothing. */
  lemma ConsumerQuiet<V>(s: State<V>, pick: nat)
    requires Shape(s) && !s.c.pc.CIdle? && !s.c.pc.CPublish?
    ensures var s' := ConsumerGo(s, pick);
      && s'.m.head == s.m.head && s'.c.mode == s.c.mode && s'.c.want == s.c.want
      && (s'.c.pc.CIdle? ==> s'.c.out == [])
      && (s'.c.pc.CCheck? && !s.c.pc.CCheck? ==> s.c.mode.Pop?)
      && (s'.c.final ==> s.c.final || s.c.pc.CCheck?)
  {
  }

  lemma QuietPopAnswers<V>(m: Mem<V>, c: Consumer<V>, m': Mem<V>, c': Consumer<V>, arg: Option<PopArg>, n: int)
    requires |m.head| > 0 && PopAnswers(m, c, arg, n) && !c.pc.CIdle?
    requires m'.head == m.head && c'.mode == c.mode && c'.want == c.want
    requires c'.pc.CIdle? ==> c'.out == [] && H(m') == |m'.takes|
    requires c'.pc.CCheck? && !c.pc.CCheck? ==> c.mode.Pop?
    requires c'.final ==> c.final || c.pc.CCheck?
    ensures PopAnswers(m', c', arg, n)
  {
  }

  lemma ConsumerAnswers<V>(s: State<V>, pick: nat, arg: Option<PopArg>, n: int)
    requires Inv(s) && PopAnswers(s.m, s.c, arg, n)
    ensures var s' := ConsumerGo(s, pick);
      |s'.m.head| > 0 && PopAnswers(s'.m, s'.c, arg, n + H(s'.m) - H(s.m))
  {
    if s.c.pc.CPublish? {
      TakeAnswers(s, arg, n);
    } else if !s.c.pc.CIdle? {
      var s' := ConsumerGo(s, pick);
      ConsumerQuiet(s, pick);
      TakenAll(s, pick);
      QuietPopAnswers(s.m, s.c, s'.m, s'.c, arg, n);
    }
  }

  lemma TakenAll<V>(s: State<V>, pick: nat)
    requires Inv(s)
    ensures var s' := ConsumerGo(s, pick); |s'.m.head| > 0 && (s'.c.pc.CIdle? ==> H(s'.m) == |s'.m.takes|)
  {
    ConsumerInv(s, pick);
  }

  lemma PopFrame<V>(m: Mem<V>, m': Mem<V>, c: Consumer<V>, c': Consumer<V>, arg: Option<PopArg>, n: int)
    requires |m.head| > 0 && PopAnswers(m, c, arg, n)
    requires m'.head == m.head && m'.takes == m.takes && c' == c.(view := c'.view)
    ensures PopAnswers(m', c', arg, n)
  {
  }

  lemma ProducerLeaves<V>(s: State<V>, pick: nat)
    requires Shape(s)
    ensures var s' := ProducerGo(s, pick); s'.m.head == s.m.head && s'.m.takes == s.m.takes && s'.c == s.c
  {
  }

  lemma PopGoAnswers<V>(s: State<V>, a: Action<V>, arg: Option<PopArg>, n: int)
    requires Inv(s) && PopAnswers(s.m, s.c, arg, n) && a.cmd.Go?
    ensures var s' := Step(s, a); PopAnswers(s'.m, s'.c, arg, n + H(s'.m) - H(s.m))
  {
    StepIs(s, a);
    if a.actor.C? {
      ConsumerAnswers(s, a.cmd.pick, arg, n);
    } else if a.actor.P? {
      ProducerLeaves(s, a.cmd.pick);
      PopFrame(s.m, ProducerGo(s, a.cmd.pick).m, s.c, s.c, arg, n);
    }
  }

  lemma PopOtherAnswers<V>(s: State<V>, a: Action<V>, arg: Option<PopArg>, n: int)
    requires Shape(s) && PopAnswers(s.m, s.c, arg, n) && !a.cmd.Go? && !BeginsPop(s, a)
    ensures var s' := Step(s, a); H(s'.m) == H(s.m) && PopAnswers(s'.m, s'.c, arg, n)
  {
    StepIs(s, a);
    if a.cmd.Close? || a.cmd.Sync? { PopFrame(s.m, Step(s, a).m, s.c, Step(s, a).c, arg, n); }
  }

  lemma PopAnswersStep<V>(s: State<V>, a: Action<V>, arg: Option<PopArg>, n: int)
    requires Inv(s) && PopAnswers(s.m, s.c, arg, n)
    ensures var s' := Step(s, a);
      if BeginsPop(s, a) then
        PopAnswers(s'.m, s'.c, Some(PopArg(a.cmd.cmode, if a.cmd.cmode.PopN? then a.cmd.want else 1)), 0)
      else PopAnswers(s'.m, s'.c, arg, n + H(s'.m) - H(s.m))
  {
    if a.cmd.Go? {
      PopGoAnswers(s, a, arg, n);
    } else if BeginsPop(s, a) {
      StepIs(s, a);
      PopCallAnswers(s, a.cmd.cmode, a.cmd.want);
    } else {
      PopOtherAnswers(s, a, arg, n);
    }
  }

  /** Every pop's answer is right: since the consumer began its last call, it has taken as
      many items as the call returned, and those are the ones it returned. */
  lemma {:induction false} EveryPopAnswers<V>(capacity: nat, others: nat, blank: V, acts: seq<Action<V>>)
    requires capacity > 0
    ensures var s0 := Init(capacity, others, blank); var s := Run(s0, acts);
      PopAnswers(s.m, s.c, LastPop(s0, acts), TakenSince(s0, acts))
    decreases |acts|
  {
    var s0 := Init(capacity, others, blank);
    if acts != [] {
      var prior := acts[..|acts| - 1];
      EveryPopAnswers(capacity, others, blank, prior);
      InitInv(capacity, others, blank);
      RunInv(s0, prior);
      PopAnswersStep(Run(s0, prior), acts[|acts| - 1], LastPop(s0, prior), TakenSince(s0, prior));
    }
  }

  // --------------------------------------------------------- from arguments to results

  /** The items accepted so far: at each publish of n items, the first n of the argument of
      the push begun last. */
  function Accepted<V>(s0: State<V>, acts: seq<Action<V>>): seq<V>
    requires Shape(s0)
    decreases |acts|
  {
    if acts == [] then []
    else
      var prior := acts[..|acts| - 1];
      var n, c := T(Run(s0, acts).m) - T(Run(s0, prior).m), LastPush(s0, prior);
      Accepted(s0, prior) + if c.Some? && 0 < n <= |c.value.items| then c.value.items[..n] else []
  }

  /** The items handed out so far: what each pop that took something returned. */
  function HandedOut<V>(s0: State<V>, acts: seq<Action<V>>): seq<V>
    requires Shape(s0)
    decreases |acts|
  {
    if acts == [] then []
    else
      var prior := acts[..|acts| - 1];
      HandedOut(s0, prior) + if H(Run(s0, acts).m) > H(Run(s0, prior).m) then Run(s0, acts).c.out else []
  }

  lemma LogsGrow<V>(s: State<V>, a: Action<V>)
    requires Shape(s)
    ensures s.m.puts <= Step(s, a).m.puts && s.m.takes <= Step(s, a).m.takes
  {
    StepIs(s, a);
  }

  /** Publishes and pops happen only where they should. */
  lemma WhoPublishes<V>(s: State<V>, a: Action<V>)
    requires Shape(s)
    ensures var s' := Step(s, a);
      && (T(s'.m) != T(s.m) ==> a.cmd.Go? && a.actor.P? && s.p.pc.PPublish? && s'.p.pc.PIdle?)
      && (H(s'.m) != H(s.m) ==> a.cmd.Go? && a.actor.C? && s.c.pc.CPublish? && s'.c.pc.CIdle?)
  {
    StepIs(s, a);
  }

  ghost predicate Lists<V>(log: seq<Access<V>>, n: nat, items: seq<V>) {
    n == |items| <= |log| && forall i :: 0 <= i < n ==> log[i].item == items[i]
  }

  lemma ListsOn<V>(log: seq<Access<V>>, n: nat, items: seq<V>, log': seq<Access<V>>, more: seq<V>)
    requires Lists(log, n, items) && log <= log' && n + |more| <= |log'|
    requires forall i :: 0 <= i < |more| ==> log'[n + i].item == more[i]
    ensures Lists(log', n + |more|, items + more)
  {
  }

  lemma {:induction false} AcceptedAreArguments<V>(capacity: nat, others: nat, blank: V, acts: seq<Action<V>>)
    requires capacity > 0
    ensures var s0 := Init(capacity, others, blank); var s := Run(s0, acts);
      Lists(s.m.puts, T(s.m), Accepted(s0, acts))
    decreases |acts|
  {
    var s0 := Init(capacity, others, blank);
    if acts != [] {
      var prior, a := acts[..|acts| - 1], acts[|acts| - 1];
      var s, s' := Run(s0, prior), Run(s0, acts);
      AcceptedAreArguments(capacity, others, blank, prior);
      LogsGrow(s, a);
      WhoPublishes(s, a);
      EveryPushAnswers(capacity, others, blank, prior);
      EveryPushAnswers(capacity, others, blank, acts);
      var c := LastPush(s0, prior);
      var more := if T(s'.m) > T(s.m) then c.value.items[..s'.p.ret] else [];
      ListsOn(s.m.puts, T(s.m), Accepted(s0, prior), s'.m.puts, more);
    }
  }

  lemma HandsOutStep<V>(s: State<V>, a: Action<V>, items: seq<V>, arg: Option<PopArg>, n: int)
    requires Inv(s) && Lists(s.m.takes, H(s.m), items) && PopAnswers(s.m, s.c, arg, n)
    ensures var s' := Step(s, a);
      Lists(s'.m.takes, H(s'.m), items + if H(s'.m) > H(s.m) then s'.c.out else [])
  {
    var s' := Step(s, a);
    LogsGrow(s, a);
    WhoPublishes(s, a);
    if H(s'.m) == H(s.m) {
      ListsOn(s.m.takes, H(s.m), items, s'.m.takes, []);
    } else {
      StepIs(s, a);
      TakeAnswers(s, arg, n);
      ListsOn(s.m.takes, H(s.m), items, s'.m.takes, s'.c.out);
    }
  }

  lemma {:induction false} HandedOutAreTaken<V>(capacity: nat, others: nat, blank: V, acts: seq<Action<V>>)
    requires capacity > 0
    ensures var s0 := Init(capacity, others, blank); var s := Run(s0, acts);
      Lists(s.m.takes, H(s.m), HandedOut(s0, acts))
    decreases |acts|
  {
    var s0 := Init(capacity, others, blank);
    if acts != [] {
      var prior := acts[..|acts| - 1];
      HandedOutAreTaken(capacity, others, blank, prior);
      EveryPopAnswers(capacity, others, blank, prior);
      InitInv(capacity, others, blank);
      RunInv(s0, prior);
      HandsOutStep(Run(s0, prior), acts[|acts| - 1], HandedOut(s0, prior), LastPop(s0, prior), TakenSince(s0, prior));
    }
  }

  /** From arguments to results: what pops have returned is, in order, a prefix of what
      pushes accepted of their arguments. */
  lemma HandsOutArguments<V>(capacity: nat, others: nat, blank: V, acts: seq<Action<V>>)
    requires capacity > 0
    ensures var s0 := Init(capacity, others, blank);
      HandedOut(s0, acts) <= Accepted(s0, acts)
  {
    var s0 := Init(capacity, others, blank);
    AcceptedAreArguments(capacity, others, blank, acts);
    HandedOutAreTaken(capacity, others, blank, acts);
    RaceFree(capacity, others, blank, acts);
    CounterChain(capacity, others, blank, acts);
  }

  // -------------------------------------------------------------- why a call gives up

  /** push, try_push and try_push_n return nothing accepted on reading closed_ true and go
      on otherwise; pop always tries again, for the last time if it read true. */
  lemma ChecksDecide<V>(s: State<V>, k: nat)
    requires Shape(s)
    ensures s.p.pc.PCheck? && ReadableFlag(s.p.view.c, k, s.m.closed) ==>
      var p' := ProducerGo(s, k).p;
      if s.m.closed[k].val then p'.pc.PIdle? && p'.ret == 0
      else p'.pc == if s.p.mode.Push? then PRoom else PLoad
    ensures s.c.pc.CCheck? && ReadableFlag(s.c.view.c, k, s.m.closed) ==>
      var c' := ConsumerGo(s, k).c; c'.pc.CLoad? && (c'.final <==> s.m.closed[k].val)
  {
  }

  /** Past its check the producer gives up only when neither its cache nor the head it then
      loads shows room, with a fresh load exactly when the queue is full. A blocking push
      then checks closed_ again; the others return 0. In all other cases it writes. */
  lemma PushFails<V>(s: State<V>, pick: nat)
    requires Inv(s) && Bounded(s.m) && s.p.pc.PRoom? && Readable(s.p.view.h, pick, s.m.head)
    ensures var p', seen := ProducerGo(s, pick).p, Room(s.m.ring, s.p) + Room(s.m.ring, RefreshHead(s.m, s.p, pick));
      && (p'.pc.PWrite? <==> seen > 0)
      && (seen == 0 ==> p'.ret == 0 && p'.pc == if s.p.mode.Push? then PCheck else PIdle)
      && (pick == |s.m.head| - 1 ==> (seen == 0 <==> |Contents(s.m)| == s.m.ring - 1))
  {
    RoomVerdict(s);
    if Room(s.m.ring, s.p) > 0 { CachedRoom(s); }
  }

  lemma CachedRoom<V>(s: State<V>)
    requires Inv(s) && Bounded(s.m) && s.p.pc.PRoom? && Room(s.m.ring, s.p) > 0
    ensures T(s.m) < H(s.m) + s.m.ring - 1
  {
    RoomIs(s.m, s.p);
  }

  /** The consumer gives up only when neither its cache nor the tail it then loads shows an
      item, with a fresh load exactly when the queue is empty. A blocking pop then checks
      closed_ unless it has found it true; otherwise the call returns nothing. */
  lemma PopFails<V>(s: State<V>, pick: nat)
    requires Inv(s) && Bounded(s.m) && s.c.pc.CData? && Readable(s.c.view.t, pick, s.m.tail)
    ensures var c', seen := ConsumerGo(s, pick).c, Data(s.m.ring, s.c) + Data(s.m.ring, RefreshTail(s.m, s.c, pick));
      && (c'.pc.CRead? <==> seen > 0)
      && (seen == 0 ==> c'.out == [] && c'.pc == if s.c.mode.Pop? && !s.c.final then CCheck else CIdle)
      && (pick == |s.m.tail| - 1 ==> (seen == 0 <==> |Contents(s.m)| == 0))
  {
    DataVerdict(s);
    if Data(s.m.ring, s.c) > 0 { CachedData(s); }
  }

  lemma CachedData<V>(s: State<V>)
    requires Inv(s) && Bounded(s.m) && s.c.pc.CData? && Data(s.m.ring, s.c) > 0
    ensures H(s.m) < T(s.m)
  {
    DataIs(s.m, s.c);
  }

  /** Only these steps end a call: a refusal at the check, a failed attempt of a call that
      does not wait (any more), or the publish. */
  lemma ReturnsOnlyThen<V>(s: State<V>, pick: nat)
    requires Shape(s)
    ensures !s.p.pc.PIdle? && ProducerGo(s, pick).p.pc.PIdle? ==>
      || (s.p.pc.PCheck? && ReadableFlag(s.p.view.c, pick, s.m.closed) && s.m.closed[pick].val)
      || (s.p.pc.PRoom? && !s.p.mode.Push?) || s.p.pc.PPublish?
    ensures !s.c.pc.CIdle? && ConsumerGo(s, pick).c.pc.CIdle? ==>
      (s.c.pc.CData? && !(s.c.mode.Pop? && !s.c.final)) || s.c.pc.CPublish?
  {
  }
}
