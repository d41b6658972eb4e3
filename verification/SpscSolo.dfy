/** Runs of SpscQueue in which one side acts alone: an uncontended call, step by step,
    and what it leaves in the ring. */
module SpscSolo {
  import opened Common
  import opened Words
  import opened Rings
  import opened SpscModel
  import opened SpscInvariant

  predicate Only<V>(who: Actor, acts: seq<Action<V>>) {
    forall k :: 0 <= k < |acts| ==> acts[k].actor == who
  }

  /** s' is reached from s by actions of `who` alone. */
  ghost predicate Via<V(!new)>(who: Actor, s: State<V>, s': State<V>)
    requires Shape(s)
  {
    exists acts: seq<Action<V>> :: Only(who, acts) && s' == Run(s, acts)
  }

  /** Some queue gets from its initial state to s. */
  ghost predicate Sound<V(!new)>(s: State<V>) {
    exists capacity: nat, others: nat, blank: V, acts: seq<Action<V>> ::
      capacity > 0 && s == Run(Init(capacity, others, blank), acts)
  }

  /** s is a reachable state, reached from s0 by actions of `who` alone. */
  ghost predicate Reached<V(!new)>(who: Actor, s0: State<V>, s: State<V>) {
    Shape(s0) && Shape(s) && Sound(s) && Via(who, s0, s)
  }

  lemma SoundInv<V(!new)>(s: State<V>)
    requires Sound(s)
    ensures Inv(s)
  {
    var capacity: nat, others: nat, blank: V, acts: seq<Action<V>> :|
      capacity > 0 && s == Run(Init(capacity, others, blank), acts);
    InitInv(capacity, others, blank);
    RunInv(Init(capacity, others, blank), acts);
  }

  lemma Snoc<V>(s: State<V>, acts: seq<Action<V>>, a: Action<V>)
    requires Shape(s)
    ensures Run(s, acts + [a]) == Step(Run(s, acts), a)
  {
    assert (acts + [a])[..|acts + [a]| - 1] == acts;
  }

  lemma SoundOn<V(!new)>(s: State<V>, a: Action<V>)
    requires Sound(s) && Shape(s)
    ensures Sound(Step(s, a))
  {
    var capacity: nat, others: nat, blank: V, acts: seq<Action<V>> :|
      capacity > 0 && s == Run(Init(capacity, others, blank), acts);
    Snoc(Init(capacity, others, blank), acts, a);
  }

  lemma SoundStart<V(!new)>(capacity: nat, others: nat, blank: V)
    requires capacity > 0
    ensures Sound(Init(capacity, others, blank))
  {
    var acts: seq<Action<V>> := [];
    assert Init(capacity, others, blank) == Run(Init(capacity, others, blank), acts);
  }

  lemma ReachedStart<V(!new)>(who: Actor, s: State<V>)
    requires Sound(s) && Shape(s)
    ensures Reached(who, s, s)
  {
    var acts: seq<Action<V>> := [];
    assert Only(who, acts) && s == Run(s, acts);
  }

  lemma ReachedOn<V(!new)>(who: Actor, s0: State<V>, s: State<V>, a: Action<V>)
    requires Reached(who, s0, s) && a.actor == who
    ensures Reached(who, s0, Step(s, a))
  {
    SoundOn(s, a);
    var acts: seq<Action<V>> :| Only(who, acts) && s == Run(s0, acts);
    Snoc(s0, acts, a);
    assert Only(who, acts + [a]);
  }

  // -------------------------------------------------------------------- the producer

  /** Everything but the producer, the buffer, tail_ and the access logs. */
  ghost predicate ByProducer<V>(s: State<V>, s': State<V>) {
    && s'.m.ring == s.m.ring && s'.m.head == s.m.head && s'.m.closed == s.m.closed && s'.m.takes == s.m.takes
    && s'.c == s.c && s'.others == s.others && s'.drained == s.drained
  }

  /** What the producer may rely on between its steps. */
  lemma ProducerKnows<V(!new)>(s: State<V>)
    requires Sound(s)
    ensures Shape(s) && s.p.view.t == Last(s.m.tail).count && s.p.view.h <= Last(s.m.head).count
    ensures s.p.view.c < |s.m.closed|
    ensures s.p.pc.PRoom? ==> s.p.tail == Last(s.m.tail).idx < s.m.ring
    ensures s.p.pc.PWrite? ==> s.p.tail < s.m.ring && s.p.done < s.p.count <= |s.p.items|
    ensures s.p.pc.PPublish? ==> s.p.done == s.p.count
  {
    SoundInv(s);
    assert s.m.tail[|s.m.tail| - 1].idx == Slot(s.m.ring, s.m.tail[|s.m.tail| - 1].count);
  }

  /** The call and its check of closed_, read as message k. */
  lemma PushStart<V(!new)>(s0: State<V>, s: State<V>, mode: PMode, items: seq<V>, k: nat) returns (s': State<V>)
    requires Reached(P, s0, s) && s.p.pc.PIdle? && !mode.Push? && items != [] && (mode.TryPush? ==> |items| == 1)
    requires ReadableFlag(s.p.view.c, k, s.m.closed)
    ensures Reached(P, s0, s') && ByProducer(s, s') && s'.m == s.m
    ensures s'.p == s.p.(mode := mode, items := items, ret := 0, view := s.p.view.(c := k),
                         pc := if s.m.closed[k].val then PIdle else PLoad)
  {
    var a := Action(P, CallPush(mode, items));
    ReachedOn(P, s0, s, a);
    var s1 := Step(s, a);
    ReachedOn(P, s0, s1, Action(P, Go(k)));
    s' := Step(s1, Action(P, Go(k)));
  }

  lemma PushLoad<V(!new)>(s0: State<V>, s: State<V>) returns (s': State<V>)
    requires Reached(P, s0, s) && s.p.pc.PLoad? && !s.p.mode.Push?
    ensures Reached(P, s0, s') && ByProducer(s, s') && s'.m == s.m
    ensures s'.p == s.p.(tail := Last(s.m.tail).idx, pc := PRoom)
  {
    ProducerKnows(s);
    var a: Action<V> := Action(P, Go(|s.m.tail| - 1));
    ReachedOn(P, s0, s, a);
    s' := Step(s, a);
  }

  /** has_room, or the count of free slots, with a fresh load of head_ if any. */
  function Refreshed<V>(m: Mem<V>, p: Producer<V>): Producer<V>
    requires m.ring > 0 && |m.head| > 0
  {
    if Room(m.ring, p) > 0 then p else RefreshHead(m, p, |m.head| - 1)
  }

  lemma PushRoom<V(!new)>(s0: State<V>, s: State<V>) returns (s': State<V>)
    requires Reached(P, s0, s) && s.p.pc.PRoom?
    ensures Reached(P, s0, s') && ByProducer(s, s') && s'.m == s.m
    ensures s'.p == Decide(s.m.ring, Refreshed(s.m, s.p))
  {
    ProducerKnows(s);
    var a: Action<V> := Action(P, Go(|s.m.head| - 1));
    ReachedOn(P, s0, s, a);
    s' := Step(s, a);
  }

  /** Items stored in the slots from `at` on, and the index behind them. */
  function Stored<V>(b: seq<V>, at: nat, xs: seq<V>): (r: (seq<V>, nat))
    requires at < |b|
    ensures |r.0| == |b| && r.1 < |b|
    decreases |xs|
  {
    if xs == [] then (b, at)
    else
      var r := Stored(b, at, xs[..|xs| - 1]);
      (r.0[r.1 := xs[|xs| - 1]], Next(|b|, r.1))
  }

  lemma StoredOne<V>(b: seq<V>, at: nat, x: V)
    requires at < |b|
    ensures Stored(b, at, [x][..0]) == (b, at) && Stored(b, at, [x][..1]) == (b[at := x], Next(|b|, at))
  {
    assert [x][..1][..0] == [];
  }

  lemma PushWrite<V(!new)>(s0: State<V>, s: State<V>) returns (s': State<V>)
    requires Reached(P, s0, s) && s.p.pc.PWrite?
    ensures s.p.tail < s.m.ring && s.p.done < s.p.count <= |s.p.items|
    ensures Reached(P, s0, s') && ByProducer(s, s') && s'.m.tail == s.m.tail
    ensures s'.m.buffer == s.m.buffer[s.p.tail := s.p.items[s.p.done]]
    ensures s'.p.tail == Next(s.m.ring, s.p.tail) && s'.p.done == s.p.done + 1
    ensures s'.p.pc == if s.p.done + 1 == s.p.count then PPublish else PWrite
    ensures SameCall(s.p, s'.p)
  {
    ProducerKnows(s);
    var a: Action<V> := Action(P, Go(0));
    ReachedOn(P, s0, s, a);
    s' := Step(s, a);
  }

  ghost predicate SameCall<V>(p: Producer<V>, p': Producer<V>) {
    p'.items == p.items && p'.count == p.count && p'.cache == p.cache && p'.hc == p.hc && p'.view.c == p.view.c
  }

  /** The first j writes of a batch. */
  lemma {:induction false} PushWrites<V(!new)>(s0: State<V>, s: State<V>, j: nat) returns (s': State<V>)
    requires Reached(P, s0, s) && s.p.pc.PWrite? && s.p.done == 0 && j <= s.p.count
    requires s.p.tail < s.m.ring && s.p.count <= |s.p.items|
    ensures Reached(P, s0, s') && ByProducer(s, s') && s'.m.tail == s.m.tail
    ensures (s'.m.buffer, s'.p.tail) == Stored(s.m.buffer, s.p.tail, s.p.items[..j])
    ensures SameCall(s.p, s'.p) && s'.p.done == j && s'.p.pc == if j == s.p.count then PPublish else PWrite
    decreases j
  {
    ProducerKnows(s);
    if j == 0 {
      s' := s;
    } else {
      var s1 := PushWrites(s0, s, j - 1);
      s' := PushWrite(s0, s1);
      assert s.p.items[..j][..j - 1] == s.p.items[..j - 1];
    }
  }

  lemma PushPublish<V(!new)>(s0: State<V>, s: State<V>) returns (s': State<V>)
    requires Reached(P, s0, s) && s.p.pc.PPublish?
    ensures Reached(P, s0, s') && ByProducer(s, s') && s'.m.buffer == s.m.buffer && s'.p.pc.PIdle?
    ensures |s'.m.tail| == |s.m.tail| + 1
    ensures Last(s'.m.tail).idx == s.p.tail && Last(s'.m.tail).count == Last(s.m.tail).count + s.p.count
    ensures SameCall(s.p, s'.p)
  {
    var a: Action<V> := Action(P, Go(0));
    ReachedOn(P, s0, s, a);
    s' := Step(s, a);
  }

  /** Room on indices: has_room for a single push, free slots for a batch. */
  function Space(mode: PMode, wanted: nat, ring: nat, cache: nat, tail: nat): (n: nat)
    requires ring > 0
    ensures wanted > 0 ==> n <= wanted
  {
    if mode.PushN? then Min(wanted, FreeSlots(ring, cache, tail))
    else if Next(ring, tail) != cache then 1 else 0
  }

  /** The cached head index after the room test. */
  function HeadSeen(mode: PMode, wanted: nat, ring: nat, cache: nat, head: nat, tail: nat): nat
    requires ring > 0
  {
    if Space(mode, wanted, ring, cache, tail) > 0 then cache else head
  }

  /** n items of the argument are in the ring behind the old tail and published. */
  ghost predicate PushEffect<V>(s: State<V>, mode: PMode, items: seq<V>, s': State<V>)
    requires Shape(s) && Shape(s') && items != []
  {
    var head, tail := Last(s.m.head).idx, Last(s.m.tail).idx;
    var cache := HeadSeen(mode, |items|, s.m.ring, s.p.cache, head, tail);
    var n := Space(mode, |items|, s.m.ring, cache, tail);
    && s'.p.cache == cache && tail < s.m.ring
    && (n == 0 ==> s'.m == s.m)
    && (n > 0 ==>
          && |s'.m.tail| == |s.m.tail| + 1 && Last(s'.m.tail).count == Last(s.m.tail).count + n
          && (s'.m.buffer, Last(s'.m.tail).idx) == Stored(s.m.buffer, tail, items[..n]))
  }

  /** From the room test on, when it will succeed or the call does not wait. */
  lemma PushFromRoom<V(!new)>(s0: State<V>, s: State<V>) returns (s': State<V>)
    requires Reached(P, s0, s) && s.p.pc.PRoom? && s.p.items != [] && (!s.p.mode.PushN? ==> |s.p.items| == 1)
    requires s.p.mode.Push? ==> RoomAfter(s, s.p.mode, 1) > 0
    ensures Reached(P, s0, s') && ByProducer(s, s') && s'.p.pc.PIdle? && PushEffect(s, s.p.mode, s.p.items, s')
    ensures Space(s.p.mode, |s.p.items|, s.m.ring, s.p.cache, Last(s.m.tail).idx) > 0 ==> s'.p.view.c == s.p.view.c
  {
    DecideIs(s.m, s.p);
    ProducerKnows(s);
    s' := PushRoom(s0, s);
    if s'.p.pc.PWrite? { s' := PushTransfer(s0, s'); }
  }

  /** The room a push of `wanted` items finds with a fresh load of head_ if it needs it. */
  function RoomAfter<V>(s: State<V>, mode: PMode, wanted: nat): nat
    requires Shape(s)
  {
    var head, tail := Last(s.m.head).idx, Last(s.m.tail).idx;
    Space(mode, wanted, s.m.ring, HeadSeen(mode, wanted, s.m.ring, s.p.cache, head, tail), tail)
  }

  /** The first two steps of a blocking push. */
  lemma BlockingStart<V(!new)>(s0: State<V>, s: State<V>, x: V) returns (s': State<V>)
    requires Reached(P, s0, s) && s.p.pc.PIdle?
    ensures Reached(P, s0, s') && ByProducer(s, s') && s'.m == s.m
    ensures s'.p == s.p.(mode := Push, items := [x], tail := Last(s.m.tail).idx, pc := PCheck)
  {
    var a := Action(P, CallPush(Push, [x]));
    ReachedOn(P, s0, s, a);
    var s1 := Step(s, a);
    ProducerKnows(s1);
    var b: Action<V> := Action(P, Go(|s.m.tail| - 1));
    ReachedOn(P, s0, s1, b);
    s' := Step(s1, b);
  }

  lemma BlockingCheck<V(!new)>(s0: State<V>, s: State<V>, k: nat) returns (s': State<V>)
    requires Reached(P, s0, s) && s.p.pc.PCheck? && s.p.mode.Push? && ReadableFlag(s.p.view.c, k, s.m.closed)
    ensures Reached(P, s0, s') && ByProducer(s, s') && s'.m == s.m
    ensures s'.p == s.p.(ret := 0, view := s.p.view.(c := k), pc := if s.m.closed[k].val then PIdle else PRoom)
  {
    var a: Action<V> := Action(P, Go(k));
    ReachedOn(P, s0, s, a);
    s' := Step(s, a);
  }

  /** An uncontended blocking push that reads closed_ as message k, when it does not have to
      wait: with room it stores and publishes its item. */
  lemma BlockingPushSolo<V(!new)>(s0: State<V>, s: State<V>, x: V, k: nat) returns (s': State<V>)
    requires Reached(P, s0, s) && s.p.pc.PIdle? && ReadableFlag(s.p.view.c, k, s.m.closed)
    requires s.m.closed[k].val || RoomAfter(s, Push, 1) > 0
    ensures Reached(P, s0, s') && ByProducer(s, s') && s'.p.pc.PIdle?
    ensures s.m.closed[k].val ==> s'.m == s.m && s'.p.cache == s.p.cache
    ensures !s.m.closed[k].val ==> PushEffect(s, Push, [x], s') && |s'.m.tail| == |s.m.tail| + 1
  {
    s' := BlockingStart(s0, s, x);
    s' := BlockingCheck(s0, s', k);
    if !s.m.closed[k].val { s' := PushFromRoom(s0, s'); }
  }

  lemma PushTransfer<V(!new)>(s0: State<V>, s: State<V>) returns (s': State<V>)
    requires Reached(P, s0, s) && s.p.pc.PWrite? && s.p.done == 0 && s.p.count <= |s.p.items| && s.p.tail < s.m.ring
    ensures Reached(P, s0, s') && ByProducer(s, s') && s'.p.pc.PIdle? && SameCall(s.p, s'.p)
    ensures |s'.m.tail| == |s.m.tail| + 1 && Last(s'.m.tail).count == Last(s.m.tail).count + s.p.count
    ensures (s'.m.buffer, Last(s'.m.tail).idx) == Stored(s.m.buffer, s.p.tail, s.p.items[..s.p.count])
  {
    var s1 := PushWrites(s0, s, s.p.count);
    s' := PushPublish(s0, s1);
  }

  lemma DecideIs<V>(m: Mem<V>, p: Producer<V>)
    requires m.ring > 0 && |m.head| > 0 && p.items != [] && (!p.mode.PushN? ==> |p.items| == 1)
    ensures var cache := HeadSeen(p.mode, |p.items|, m.ring, p.cache, Last(m.head).idx, p.tail);
      var n, p' := Space(p.mode, |p.items|, m.ring, cache, p.tail), Decide(m.ring, Refreshed(m, p));
      && p'.cache == cache && p'.tail == p.tail && p'.items == p.items
      && (n == 0 ==> p'.pc == if p.mode.Push? then PCheck else PIdle) && (n > 0 ==> p'.pc.PWrite? && p'.count == n <= |p.items| && p'.done == 0)
      && (Space(p.mode, |p.items|, m.ring, p.cache, p.tail) > 0 ==> p'.view == p.view)
  {
  }

  lemma PushAttempt<V(!new)>(s0: State<V>, s: State<V>) returns (s': State<V>)
    requires Reached(P, s0, s) && s.p.pc.PLoad? && !s.p.mode.Push? && s.p.items != []
    requires s.p.mode.TryPush? ==> |s.p.items| == 1
    ensures Reached(P, s0, s') && ByProducer(s, s') && s'.p.pc.PIdle? && PushEffect(s, s.p.mode, s.p.items, s')
    ensures Space(s.p.mode, |s.p.items|, s.m.ring, s.p.cache, Last(s.m.tail).idx) > 0 ==> s'.p.view.c == s.p.view.c
  {
    var s1 := PushLoad(s0, s);
    ProducerKnows(s1);
    s' := PushFromRoom(s0, s1);
  }

  /** An uncontended try_push or try_push_n that reads closed_ as message k and the
      newest head_ if it needs to. */
  lemma PushSolo<V(!new)>(s0: State<V>, s: State<V>, mode: PMode, items: seq<V>, k: nat) returns (s': State<V>)
    requires Reached(P, s0, s) && s.p.pc.PIdle? && !mode.Push? && items != [] && (mode.TryPush? ==> |items| == 1)
    requires ReadableFlag(s.p.view.c, k, s.m.closed)
    ensures Reached(P, s0, s') && ByProducer(s, s') && s'.p.pc.PIdle?
    ensures s.m.closed[k].val ==> s'.m == s.m && s'.p.cache == s.p.cache
    ensures !s.m.closed[k].val ==> PushEffect(s, mode, items, s')
    ensures !s.m.closed[k].val && Space(mode, |items|, s.m.ring, s.p.cache, Last(s.m.tail).idx) > 0 ==> s'.p.view.c == k
  {
    s' := PushStart(s0, s, mode, items, k);
    if !s.m.closed[k].val { s' := PushAttempt(s0, s'); }
  }

  // -------------------------------------------------------------------- the consumer

  ghost predicate ByConsumer<V>(s: State<V>, s': State<V>) {
    && s'.m.ring == s.m.ring && s'.m.buffer == s.m.buffer && s'.m.tail == s.m.tail
    && s'.m.closed == s.m.closed && s'.m.puts == s.m.puts && s'.p == s.p && s'.others == s.others
  }

  lemma ConsumerKnows<V(!new)>(s: State<V>)
    requires Sound(s)
    ensures Shape(s) && s.c.view.h == Last(s.m.head).count && s.c.view.t <= Last(s.m.tail).count
    ensures s.c.view.c < |s.m.closed|
    ensures s.c.pc.CData? ==> s.c.head == Last(s.m.head).idx < s.m.ring
    ensures s.c.pc.CRead? ==> s.c.head < s.m.ring && |s.c.out| < s.c.count
    ensures s.c.pc.CPublish? ==> |s.c.out| == s.c.count
  {
    SoundInv(s);
    assert s.m.head[|s.m.head| - 1].idx == Slot(s.m.ring, s.m.head[|s.m.head| - 1].count);
  }

  lemma PopStart<V(!new)>(s0: State<V>, s: State<V>, mode: CMode, want: nat) returns (s': State<V>)
    requires Reached(C, s0, s) && s.c.pc.CIdle? && (mode.PopN? ==> want > 0)
    ensures Reached(C, s0, s') && ByConsumer(s, s') && s'.m == s.m && s'.drained == s.drained
    ensures s'.c == s.c.(mode := mode, want := if mode.PopN? then want else 1, final := false, pc := CLoad)
  {
    var a: Action<V> := Action(C, CallPop(mode, want));
    ReachedOn(C, s0, s, a);
    s' := Step(s, a);
  }

  lemma LoadHeadIs<V>(s: State<V>)
    requires Shape(s) && s.c.pc.CLoad? && s.c.view.h == Last(s.m.head).count
    ensures Step(s, Action(C, Go(|s.m.head| - 1))) == s.(c := s.c.(head := Last(s.m.head).idx, pc := CData))
  {
  }

  lemma PopLoad<V(!new)>(s0: State<V>, s: State<V>) returns (s': State<V>)
    requires Reached(C, s0, s) && s.c.pc.CLoad?
    ensures Reached(C, s0, s') && ByConsumer(s, s') && s'.m == s.m && s'.drained == s.drained
    ensures s'.c == s.c.(head := Last(s.m.head).idx, pc := CData)
  {
    ConsumerKnows(s);
    LoadHeadIs(s);
    var a: Action<V> := Action(C, Go(|s.m.head| - 1));
    ReachedOn(C, s0, s, a);
    s' := Step(s, a);
  }

  /** has_data, or the count of available items, with tail_ read as message j if any. */
  function TailRead<V>(m: Mem<V>, c: Consumer<V>, j: nat): Consumer<V>
    requires m.ring > 0 && j < |m.tail|
  {
    if Data(m.ring, c) > 0 then c else RefreshTail(m, c, j)
  }

  lemma PopData<V(!new)>(s0: State<V>, s: State<V>, j: nat) returns (s': State<V>)
    requires Reached(C, s0, s) && s.c.pc.CData? && Readable(s.c.view.t, j, s.m.tail)
    ensures Reached(C, s0, s') && ByConsumer(s, s') && s'.m == s.m
    ensures s'.c == DecidePop(s.m.ring, TailRead(s.m, s.c, j))
    ensures s'.drained == (s.drained || (s'.c.pc.CIdle? && s.c.mode.Pop?))
  {
    var a: Action<V> := Action(C, Go(j));
    ReachedOn(C, s0, s, a);
    s' := Step(s, a);
  }

  /** The items in n slots from `at` on, and the index behind them. */
  function Gathered<V>(b: seq<V>, at: nat, n: nat): (r: (seq<V>, nat))
    requires at < |b|
    ensures |r.0| == n && r.1 < |b|
  {
    if n == 0 then ([], at)
    else
      var r := Gathered(b, at, n - 1);
      (r.0 + [b[r.1]], Next(|b|, r.1))
  }

  lemma GatheredOne<V>(b: seq<V>, at: nat)
    requires at < |b|
    ensures Gathered(b, at, 1) == ([b[at]], Next(|b|, at))
  {
    assert Gathered(b, at, 0) == ([], at);
    assert [] + [b[at]] == [b[at]];
  }

  lemma PopRead<V(!new)>(s0: State<V>, s: State<V>) returns (s': State<V>)
    requires Reached(C, s0, s) && s.c.pc.CRead?
    ensures s.c.head < s.m.ring && |s.c.out| < s.c.count
    ensures Reached(C, s0, s') && ByConsumer(s, s') && s'.m.head == s.m.head && s'.drained == s.drained
    ensures s'.c.out == s.c.out + [s.m.buffer[s.c.head]] && s'.c.head == Next(s.m.ring, s.c.head)
    ensures s'.c.pc == if |s.c.out| + 1 == s.c.count then CPublish else CRead
    ensures s'.c.count == s.c.count && s'.c.cache == s.c.cache
  {
    ConsumerKnows(s);
    var a: Action<V> := Action(C, Go(0));
    ReachedOn(C, s0, s, a);
    s' := Step(s, a);
  }

  /** The first j reads of a batch. */
  lemma {:induction false} PopReads<V(!new)>(s0: State<V>, s: State<V>, j: nat) returns (s': State<V>)
    requires Reached(C, s0, s) && s.c.pc.CRead? && s.c.out == [] && j <= s.c.count && s.c.head < s.m.ring
    ensures Reached(C, s0, s') && ByConsumer(s, s') && s'.m.head == s.m.head && s'.drained == s.drained
    ensures (s'.c.out, s'.c.head) == Gathered(s.m.buffer, s.c.head, j)
    ensures s'.c.count == s.c.count && s'.c.cache == s.c.cache
    ensures s'.c.pc == if j == s.c.count then CPublish else CRead
    decreases j
  {
    ConsumerKnows(s);
    if j == 0 {
      s' := s;
    } else {
      var s1 := PopReads(s0, s, j - 1);
      s' := PopRead(s0, s1);
    }
  }

  lemma PopPublish<V(!new)>(s0: State<V>, s: State<V>) returns (s': State<V>)
    requires Reached(C, s0, s) && s.c.pc.CPublish?
    ensures Reached(C, s0, s') && ByConsumer(s, s') && s'.c.pc.CIdle? && s'.drained == s.drained
    ensures |s'.m.head| == |s.m.head| + 1
    ensures Last(s'.m.head).idx == s.c.head && Last(s'.m.head).count == Last(s.m.head).count + s.c.count
    ensures s'.c.out == s.c.out && s'.c.cache == s.c.cache
  {
    var a: Action<V> := Action(C, Go(0));
    ReachedOn(C, s0, s, a);
    s' := Step(s, a);
  }

  /** Data on indices: has_data for a single pop, available items for a batch. */
  function Items(mode: CMode, wanted: nat, ring: nat, cache: nat, head: nat): (n: nat)
    requires ring > 0
  {
    if mode.PopN? then Min(wanted, Available(ring, cache, head))
    else if head != cache then 1 else 0
  }

  function TailSeen(mode: CMode, wanted: nat, ring: nat, cache: nat, head: nat, tail: nat): nat
    requires ring > 0
  {
    if Items(mode, wanted, ring, cache, head) > 0 then cache else tail
  }

  /** n items have left the ring from the old head on; the call returns them. */
  ghost predicate PopEffect<V>(s: State<V>, mode: CMode, wanted: nat, s': State<V>)
    requires Shape(s) && Shape(s')
  {
    var head, tail := Last(s.m.head).idx, Last(s.m.tail).idx;
    var cache := TailSeen(mode, wanted, s.m.ring, s.c.cache, head, tail);
    var n := Items(mode, wanted, s.m.ring, cache, head);
    && s'.c.cache == cache && head < s.m.ring
    && (n == 0 ==> s'.m == s.m)
    && (n > 0 ==>
          && |s'.m.head| == |s.m.head| + 1 && Last(s'.m.head).count == Last(s.m.head).count + n
          && (s'.c.out, Last(s'.m.head).idx) == Gathered(s.m.buffer, head, n))
  }

  /** An uncontended try_pop or try_pop_n with the newest tail_ if it needs it. */
  lemma PopSolo<V(!new)>(s0: State<V>, s: State<V>, mode: CMode, wanted: nat) returns (s': State<V>)
    requires Reached(C, s0, s) && s.c.pc.CIdle? && !mode.Pop? && wanted > 0 && (mode.TryPop? ==> wanted == 1)
    ensures Reached(C, s0, s') && ByConsumer(s, s') && s'.c.pc.CIdle? && s'.drained == s.drained
    ensures PopEffect(s, mode, wanted, s')
  {
    var s1 := PopStart(s0, s, mode, wanted);
    var s2 := PopLoad(s0, s1);
    ConsumerKnows(s2);
    var s3 := PopData(s0, s2, |s.m.tail| - 1);
    if s3.c.pc.CRead? {
      var s4 := PopReads(s0, s3, s3.c.count);
      s' := PopPublish(s0, s4);
    } else {
      s' := s3;
    }
  }
}
