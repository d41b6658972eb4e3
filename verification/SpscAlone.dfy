/** Every call of SpscQueue left to run alone with fresh loads, from any point inside it:
    when it transfers items, when it comes back with nothing, and when it keeps waiting. */
module SpscAlone {
  import opened Common
  import opened Words
  import opened Rings
  import opened SpscModel
  import opened SpscInvariant
  import opened SpscSolo

  /** The side's next step, every load returning the newest message. */
  function ProducerNext<V>(): State<V> -> State<V> {
    (z: State<V>) =>
      if !Shape(z) then z
      else if z.p.pc.PLoad? then Step(z, Action(P, Go(|z.m.tail| - 1)))
      else if z.p.pc.PCheck? then Step(z, Action(P, Go(|z.m.closed| - 1)))
      else Step(z, Action(P, Go(|z.m.head| - 1)))
  }

  function ConsumerNext<V>(): State<V> -> State<V> {
    (z: State<V>) =>
      if !Shape(z) then z
      else if z.c.pc.CLoad? then Step(z, Action(C, Go(|z.m.head| - 1)))
      else if z.c.pc.CCheck? then Step(z, Action(C, Go(|z.m.closed| - 1)))
      else Step(z, Action(C, Go(|z.m.tail| - 1)))
  }

  predicate Open<V>(m: Mem<V>)
    requires |m.closed| > 0
  {
    !Last(m.closed).val
  }

  predicate HasRoom<V>(m: Mem<V>)
    requires MemShape(m)
  {
    T(m) < H(m) + m.ring - 1
  }

  predicate HasItems<V>(m: Mem<V>)
    requires MemShape(m)
  {
    H(m) < T(m)
  }

  // -------------------------------------------------------------------------- pushes

  /** The call has yet to read closed_ before it may write. */
  predicate StillChecks<V>(p: Producer<V>) { p.pc.PCheck? || (p.pc.PLoad? && p.mode.Push?) }

  function PushRank<V>(m: Mem<V>, p: Producer<V>): nat
    requires |m.closed| > 0
  {
    match p.pc
    case PIdle => 0
    case PLoad => |p.items| + if p.mode.Push? then 5 else 4
    case PCheck => if Open(m) then |p.items| + (if p.mode.Push? then 4 else 5) else 1
    case PRoom => |p.items| + 3
    case PWrite => if p.done < p.count then p.count - p.done + 1 else 0
    case PPublish => 1
  }

  ghost predicate SameQueue<V>(m: Mem<V>, m': Mem<V>) {
    && m'.ring == m.ring && m'.head == m.head && m'.tail == m.tail && m'.closed == m.closed && |m'.buffer| == |m.buffer|
  }

  /** Nearer to the publish, the publish, back to the check, or the answer 0. */
  ghost predicate PushNearer<V>(s: State<V>, s': State<V>)
    requires MemShape(s.m)
  {
    && SameQueue(s.m, s'.m) && (!Filling(s.p.pc) ==> s'.m == s.m)
    && s'.p.mode == s.p.mode && s'.p.items == s.p.items && !s'.p.pc.PIdle?
    && (s.p.pc.PRoom? || Filling(s.p.pc) ==> HasRoom(s.m)) && (s.p.pc.PCheck? ==> Open(s.m))
    && (StillChecks(s'.p) ==> StillChecks(s.p)) && (Filling(s'.p.pc) ==> HasRoom(s.m))
    && (s.p.pc.PLoad? && s.p.mode.Push? ==> s'.p.pc.PCheck?)
    && PushRank(s.m, s'.p) < PushRank(s.m, s.p)
  }

  ghost predicate Published<V>(s: State<V>, s': State<V>)
    requires MemShape(s.m)
  {
    && MemShape(s'.m) && s'.p.pc.PIdle? && 0 < s'.p.ret <= |s.p.items| && (!s.p.mode.PushN? ==> s'.p.ret == 1)
    && T(s'.m) == T(s.m) + s'.p.ret <= |s'.m.puts| && s'.m.head == s.m.head && s'.m.closed == s.m.closed
    && forall i :: 0 <= i < s'.p.ret ==> s'.m.puts[T(s.m) + i].item == s.p.items[i]
  }

  ghost predicate PushMoves<V>(s: State<V>, s': State<V>)
    requires MemShape(s.m)
  {
    || PushNearer(s, s')
    || (s.p.pc.PPublish? && Published(s, s') && HasRoom(s.m))
    || (s.p.pc.PRoom? && s.p.mode.Push? && !HasRoom(s.m) && s'.m == s.m && s'.p.pc.PCheck?
        && s'.p.mode == s.p.mode && s'.p.items == s.p.items)
    || (s'.p.pc.PIdle? && s'.p.ret == 0 && s'.m == s.m
        && ((s.p.pc.PCheck? && !Open(s.m)) || (s.p.pc.PRoom? && !s.p.mode.Push? && !HasRoom(s.m))))
  }

  lemma RoomDecides<V>(s: State<V>)
    requires Inv(s) && s.p.pc.PRoom?
    ensures Readable(s.p.view.h, |s.m.head| - 1, s.m.head)
    ensures Room(s.m.ring, s.p) > 0 ==> HasRoom(s.m)
    ensures HasRoom(s.m) <==> Room(s.m.ring, RefreshHead(s.m, s.p, |s.m.head| - 1)) > 0
    ensures Room(s.m.ring, s.p) <= |s.p.items| && Room(s.m.ring, RefreshHead(s.m, s.p, |s.m.head| - 1)) <= |s.p.items|
  {
    RefreshHeadOk(s.m, s.p, |s.m.head| - 1);
    RoomIs(s.m, s.p);
    RoomIs(s.m, RefreshHead(s.m, s.p, |s.m.head| - 1));
  }

  lemma RoomMoves<V>(s: State<V>)
    requires Shape(s) && s.p.pc.PRoom? && Readable(s.p.view.h, |s.m.head| - 1, s.m.head)
    requires Room(s.m.ring, s.p) > 0 ==> HasRoom(s.m)
    requires HasRoom(s.m) <==> Room(s.m.ring, RefreshHead(s.m, s.p, |s.m.head| - 1)) > 0
    requires Room(s.m.ring, s.p) <= |s.p.items| && Room(s.m.ring, RefreshHead(s.m, s.p, |s.m.head| - 1)) <= |s.p.items|
    ensures PushMoves(s, CheckRoom(s, |s.m.head| - 1))
  {
  }

  lemma WriteMoves<V>(s: State<V>)
    requires Shape(s) && ProdOk(s.m, s.p) && s.p.pc.PWrite? && HasRoom(s.m)
    ensures PushMoves(s, WriteSlot(s))
  {
    assert Slot(s.m.ring, |s.m.puts|) < s.m.ring;
  }

  lemma PublishMoves<V>(s: State<V>)
    requires Shape(s) && ProdOk(s.m, s.p) && s.p.pc.PPublish? && HasRoom(s.m)
    ensures PushMoves(s, PublishTail(s))
  {
  }

  lemma CheckMoves<V>(s: State<V>)
    requires Shape(s) && ProdOk(s.m, s.p)
    ensures s.p.pc.PLoad? ==> PushMoves(s, LoadTail(s, |s.m.tail| - 1))
    ensures s.p.pc.PCheck? ==> PushMoves(s, CheckPush(s, |s.m.closed| - 1))
  {
  }

  lemma ProducerNextIs<V>(s: State<V>)
    requires Shape(s)
    ensures var s' := ProducerNext()(s);
      && (s.p.pc.PLoad? ==> s' == LoadTail(s, |s.m.tail| - 1))
      && (s.p.pc.PCheck? ==> s' == CheckPush(s, |s.m.closed| - 1))
      && (s.p.pc.PRoom? ==> s' == CheckRoom(s, |s.m.head| - 1))
      && (s.p.pc.PWrite? ==> s' == WriteSlot(s)) && (s.p.pc.PPublish? ==> s' == PublishTail(s))
  {
  }

  lemma ProducerMovesInv<V>(s: State<V>)
    requires Inv(s) && !s.p.pc.PIdle?
    ensures PushMoves(s, ProducerNext()(s))
  {
    ProducerNextIs(s);
    match s.p.pc {
      case PLoad => CheckMoves(s);
      case PCheck => CheckMoves(s);
      case PRoom => RoomDecides(s); RoomMoves(s);
      case PWrite => WriteMoves(s);
      case PPublish => PublishMoves(s);
    }
  }

  ghost predicate Drives<V(!new)>(f: State<V> -> State<V>, g: State<V> -> bool) {
    && (forall z :: g(z) ==> MemShape(z.m))
    && (forall z {:trigger f(z)} :: g(z) && !z.p.pc.PIdle? ==> g(f(z)) && PushMoves(z, f(z)))
  }

  lemma ProducerMoves<V(!new)>(s: State<V>)
    requires Sound(s) && !s.p.pc.PIdle?
    ensures Shape(s) && Sound(ProducerNext()(s)) && PushMoves(s, ProducerNext()(s))
  {
    SoundInv(s);
    SoundOn(s, Action(P, Go(|s.m.tail| - 1)));
    SoundOn(s, Action(P, Go(|s.m.closed| - 1)));
    SoundOn(s, Action(P, Go(|s.m.head| - 1)));
    ProducerMovesInv(s);
  }

  lemma SoundDrives<V(!new)>()
    ensures Drives(ProducerNext<V>(), (z: State<V>) => Sound(z))
  {
    var f, g := ProducerNext<V>(), (z: State<V>) => Sound(z);
    forall z: State<V> | g(z) ensures MemShape(z.m) { SoundInv(z); }
    forall z: State<V> | g(z) && !z.p.pc.PIdle? ensures g(f(z)) && PushMoves(z, f(z)) { ProducerMoves(z); }
  }

  lemma {:induction false} PublishesBy<V(!new)>(f: State<V> -> State<V>, g: State<V> -> bool, s: State<V>)
    requires Drives(f, g) && g(s) && MemShape(s.m) && !s.p.pc.PIdle? && HasRoom(s.m)
    requires StillChecks(s.p) ==> Open(s.m)
    ensures exists k: nat :: k <= PushRank(s.m, s.p) + 1 && Published(s, Iter(f, s, k))
    decreases PushRank(s.m, s.p)
  {
    var s1 := f(s);
    assert PushMoves(s, s1);
    if s.p.pc.PPublish? && Published(s, s1) {
      assert Iter(f, s, 1) == Iter(f, s1, 0) == s1;
    } else {
      PublishesBy(f, g, s1);
      var k: nat :| k <= PushRank(s1.m, s1.p) + 1 && Published(s1, Iter(f, s1, k));
      assert Iter(f, s, k + 1) == Iter(f, s1, k);
    }
  }

  /** The call has returned 0 and left the queue as it was. */
  ghost predicate Refused<V>(s: State<V>, z: State<V>) {
    z.p.pc.PIdle? && z.p.ret == 0 && z.m == s.m
  }

  lemma {:induction false} RefusedBy<V(!new)>(f: State<V> -> State<V>, g: State<V> -> bool, s: State<V>)
    requires Drives(f, g) && g(s) && MemShape(s.m) && !s.p.pc.PIdle? && !Filling(s.p.pc)
    requires if StillChecks(s.p) && !Open(s.m) then true else !HasRoom(s.m) && (s.p.mode.Push? ==> !Open(s.m))
    ensures exists k: nat :: k <= PushRank(s.m, s.p) && Refused(s, Iter(f, s, k))
    decreases PushRank(s.m, s.p)
  {
    var s1 := f(s);
    assert PushMoves(s, s1);
    if s1.p.pc.PIdle? {
      assert Iter(f, s, 1) == Iter(f, s1, 0) == s1;
    } else {
      RefusedBy(f, g, s1);
      var k: nat :| k <= PushRank(s1.m, s1.p) && Refused(s1, Iter(f, s1, k));
      assert Iter(f, s, k + 1) == Iter(f, s1, k);
    }
  }

  lemma {:induction false} WaitsBy<V(!new)>(f: State<V> -> State<V>, g: State<V> -> bool, s: State<V>, k: nat)
    requires Drives(f, g) && g(s) && MemShape(s.m) && !s.p.pc.PIdle? && !Filling(s.p.pc)
    requires s.p.mode.Push? && !HasRoom(s.m) && Open(s.m)
    ensures var z := Iter(f, s, k); !z.p.pc.PIdle? && z.m == s.m
    decreases k
  {
    if k > 0 {
      assert PushMoves(s, f(s));
      WaitsBy(f, g, f(s), k - 1);
    }
  }

  /** From every reachable state: with room, a push, try_push or try_push_n that is past its
      check, or about to check an open queue, publishes the front of its argument, all of
      it for a single push, within a number of own steps fixed by its length. */
  lemma PushPublishes<V(!new)>(s: State<V>)
    requires Sound(s) && MemShape(s.m) && !s.p.pc.PIdle? && HasRoom(s.m) && (StillChecks(s.p) ==> Open(s.m))
    ensures exists k: nat :: k <= PushRank(s.m, s.p) + 1 && Published(s, Iter(ProducerNext(), s, k))
  {
    SoundDrives<V>();
    PublishesBy(ProducerNext(), (z: State<V>) => Sound(z), s);
  }

  /** A push of any kind that finds the queue closed at its check, or a try_push or
      try_push_n that finds it full, returns 0 and leaves the queue as it was. */
  lemma PushRefused<V(!new)>(s: State<V>)
    requires Sound(s) && MemShape(s.m) && !s.p.pc.PIdle? && !Filling(s.p.pc)
    requires if StillChecks(s.p) && !Open(s.m) then true else !HasRoom(s.m) && (s.p.mode.Push? ==> !Open(s.m))
    ensures exists k: nat :: k <= PushRank(s.m, s.p) && Refused(s, Iter(ProducerNext(), s, k))
  {
    SoundDrives<V>();
    RefusedBy(ProducerNext(), (z: State<V>) => Sound(z), s);
  }

  /** A blocking push on a full open queue does not return and leaves the queue as it is,
      however long it is left alone. */
  lemma PushWaits<V(!new)>(s: State<V>, k: nat)
    requires Sound(s) && MemShape(s.m) && !s.p.pc.PIdle? && !Filling(s.p.pc)
    requires s.p.mode.Push? && !HasRoom(s.m) && Open(s.m)
    ensures var z := Iter(ProducerNext(), s, k); !z.p.pc.PIdle? && z.m == s.m
  {
    SoundDrives<V>();
    WaitsBy(ProducerNext(), (z: State<V>) => Sound(z), s, k);
  }

  // ---------------------------------------------------------------------------- pops

  /** A failed attempt would not be the last one. */
  predicate MayRetry<V>(c: Consumer<V>) { c.mode.Pop? && !c.final && !c.pc.CCheck? }

  function PopRank<V>(c: Consumer<V>): nat {
    (match c.pc
     case CIdle => 0
     case CCheck => c.want + 5
     case CLoad => c.want + 4
     case CData => c.want + 3
     case CRead => if |c.out| < c.count then c.count - |c.out| + 1 else 0
     case CPublish => 1) + (if MayRetry(c) then c.want + 6 else 0)
  }

  ghost predicate SameRing<V>(m: Mem<V>, m': Mem<V>) {
    && m'.ring == m.ring && m'.buffer == m.buffer && m'.puts == m.puts
    && m'.head == m.head && m'.tail == m.tail && m'.closed == m.closed
  }

  ghost predicate PopNearer<V>(s: State<V>, s': State<V>)
    requires MemShape(s.m)
  {
    && SameRing(s.m, s'.m) && (!Emptying(s.c.pc) ==> s'.m == s.m) && s'.drained == s.drained
    && s'.c.mode == s.c.mode && s'.c.want == s.c.want && !s'.c.pc.CIdle?
    && s'.c.final == (if s.c.pc.CCheck? then !Open(s.m) else s.c.final)
    && (Emptying(s'.c.pc) ==> HasItems(s.m)) && (s.c.pc.CData? && HasItems(s.m) ==> Emptying(s'.c.pc))
    && (s'.c.pc.CCheck? ==> !HasItems(s.m) && MayRetry(s.c)) && (s.c.pc.CCheck? ==> s'.c.pc.CLoad?)
    && ((s.c.pc.CCheck? && Open(s.m) && s.c.mode.Pop?) || PopRank(s'.c) < PopRank(s.c))
  }

  /** The call has returned items from the front of the queue and given their slots back. */
  ghost predicate Got<V>(s: State<V>, s': State<V>)
    requires MemShape(s.m)
  {
    && MemShape(s'.m) && s'.c.pc.CIdle? && 0 < |s'.c.out| <= s.c.want && H(s.m) + |s'.c.out| <= |s.m.puts|
    && H(s'.m) == H(s.m) + |s'.c.out| && s'.m.tail == s.m.tail && s'.m.closed == s.m.closed
    && forall i :: 0 <= i < |s'.c.out| ==> s'.c.out[i] == s.m.puts[H(s.m) + i].item
  }

  ghost predicate PopMoves<V>(s: State<V>, s': State<V>)
    requires MemShape(s.m)
  {
    || PopNearer(s, s')
    || (s.c.pc.CPublish? && Got(s, s'))
    || (s.c.pc.CData? && !HasItems(s.m) && !MayRetry(s.c) && s'.c.pc.CIdle? && s'.c.out == [] && s'.m == s.m
        && (s'.drained <==> s.drained || s.c.mode.Pop?))
  }

  lemma DataDecides<V>(s: State<V>)
    requires Inv(s) && s.c.pc.CData?
    ensures Readable(s.c.view.t, |s.m.tail| - 1, s.m.tail)
    ensures Data(s.m.ring, s.c) > 0 ==> HasItems(s.m)
    ensures HasItems(s.m) <==> Data(s.m.ring, RefreshTail(s.m, s.c, |s.m.tail| - 1)) > 0
    ensures Data(s.m.ring, s.c) <= s.c.want && Data(s.m.ring, RefreshTail(s.m, s.c, |s.m.tail| - 1)) <= s.c.want
  {
    RefreshTailOk(s.m, s.c, |s.m.tail| - 1);
    DataIs(s.m, s.c);
    DataIs(s.m, RefreshTail(s.m, s.c, |s.m.tail| - 1));
  }

  lemma DataMoves<V>(s: State<V>)
    requires Shape(s) && s.c.pc.CData? && Readable(s.c.view.t, |s.m.tail| - 1, s.m.tail)
    requires Data(s.m.ring, s.c) > 0 ==> HasItems(s.m)
    requires HasItems(s.m) <==> Data(s.m.ring, RefreshTail(s.m, s.c, |s.m.tail| - 1)) > 0
    requires Data(s.m.ring, s.c) <= s.c.want && Data(s.m.ring, RefreshTail(s.m, s.c, |s.m.tail| - 1)) <= s.c.want
    ensures PopMoves(s, CheckData(s, |s.m.tail| - 1))
  {
  }

  lemma ReadMoves<V>(s: State<V>)
    requires Shape(s) && ConsOk(s.m, s.c) && s.c.pc.CRead? && HasItems(s.m)
    ensures PopMoves(s, ReadSlot(s))
  {
    assert Slot(s.m.ring, |s.m.takes|) < s.m.ring;
  }

  lemma TakeMoves<V>(s: State<V>)
    requires Shape(s) && ConsOk(s.m, s.c) && LogsOk(s.m) && s.c.pc.CPublish?
    ensures PopMoves(s, PublishHead(s))
  {
    forall i | 0 <= i < |s.c.out| ensures s.c.out[i] == s.m.puts[H(s.m) + i].item {
      assert s.m.takes[H(s.m) + i] == s.m.puts[H(s.m) + i];
    }
  }

  lemma PopCheckMoves<V>(s: State<V>)
    requires Shape(s) && ConsOk(s.m, s.c)
    ensures s.c.pc.CLoad? ==> PopMoves(s, LoadHead(s, |s.m.head| - 1))
    ensures s.c.pc.CCheck? ==> PopMoves(s, CheckPop(s, |s.m.closed| - 1))
  {
  }

  lemma ConsumerNextIs<V>(s: State<V>)
    requires Shape(s)
    ensures var s' := ConsumerNext()(s);
      && (s.c.pc.CLoad? ==> s' == LoadHead(s, |s.m.head| - 1))
      && (s.c.pc.CCheck? ==> s' == CheckPop(s, |s.m.closed| - 1))
      && (s.c.pc.CData? ==> s' == CheckData(s, |s.m.tail| - 1))
      && (s.c.pc.CRead? ==> s' == ReadSlot(s)) && (s.c.pc.CPublish? ==> s' == PublishHead(s))
  {
  }

  lemma ConsumerMovesInv<V>(s: State<V>)
    requires Inv(s) && !s.c.pc.CIdle?
    ensures PopMoves(s, ConsumerNext()(s))
  {
    ConsumerNextIs(s);
    match s.c.pc {
      case CLoad => PopCheckMoves(s);
      case CCheck => PopCheckMoves(s);
      case CData => DataDecides(s); DataMoves(s);
      case CRead => ReadMoves(s);
      case CPublish => TakeMoves(s);
    }
  }

  ghost predicate PopDrives<V(!new)>(f: State<V> -> State<V>, g: State<V> -> bool) {
    && (forall z :: g(z) ==> MemShape(z.m))
    && (forall z {:trigger f(z)} :: g(z) && !z.c.pc.CIdle? ==> g(f(z)) && PopMoves(z, f(z)))
  }

  lemma ConsumerMoves<V(!new)>(s: State<V>)
    requires Sound(s) && !s.c.pc.CIdle?
    ensures Shape(s) && Sound(ConsumerNext()(s)) && PopMoves(s, ConsumerNext()(s))
  {
    SoundInv(s);
    SoundOn(s, Action(C, Go(|s.m.tail| - 1)));
    SoundOn(s, Action(C, Go(|s.m.closed| - 1)));
    SoundOn(s, Action(C, Go(|s.m.head| - 1)));
    ConsumerMovesInv(s);
  }

  lemma SoundPopDrives<V(!new)>()
    ensures PopDrives(ConsumerNext<V>(), (z: State<V>) => Sound(z))
  {
    var f, g := ConsumerNext<V>(), (z: State<V>) => Sound(z);
    forall z: State<V> | g(z) ensures MemShape(z.m) { SoundInv(z); }
    forall z: State<V> | g(z) && !z.c.pc.CIdle? ensures g(f(z)) && PopMoves(z, f(z)) { ConsumerMoves(z); }
  }

  /** Own steps to the answer when the queue is not empty. */
  function GetRank<V>(c: Consumer<V>): nat {
    if c.pc.CCheck? then 2 * c.want + 11 else PopRank(c)
  }

  lemma {:induction false} GotBy<V(!new)>(f: State<V> -> State<V>, g: State<V> -> bool, s: State<V>)
    requires PopDrives(f, g) && g(s) && MemShape(s.m) && !s.c.pc.CIdle? && HasItems(s.m)
    ensures exists k: nat :: k <= GetRank(s.c) + 1 && Got(s, Iter(f, s, k))
    decreases GetRank(s.c)
  {
    var s1 := f(s);
    assert PopMoves(s, s1);
    if s.c.pc.CPublish? && Got(s, s1) {
      assert Iter(f, s, 1) == Iter(f, s1, 0) == s1;
    } else {
      GotBy(f, g, s1);
      var k: nat :| k <= GetRank(s1.c) + 1 && Got(s1, Iter(f, s1, k));
      assert Iter(f, s, k + 1) == Iter(f, s1, k);
    }
  }

  /** The call has returned nothing and left the queue as it was; a blocking one has
      recorded it. */
  ghost predicate FoundNone<V>(s: State<V>, z: State<V>) {
    z.c.pc.CIdle? && z.c.out == [] && z.m == s.m && (s.c.mode.Pop? ==> z.drained)
  }

  lemma {:induction false} NoneBy<V(!new)>(f: State<V> -> State<V>, g: State<V> -> bool, s: State<V>)
    requires PopDrives(f, g) && g(s) && MemShape(s.m) && !s.c.pc.CIdle? && !Emptying(s.c.pc) && !HasItems(s.m)
    requires s.c.mode.Pop? && (s.c.pc.CCheck? || !s.c.final) ==> !Open(s.m)
    ensures exists k: nat :: k <= PopRank(s.c) && FoundNone(s, Iter(f, s, k))
    decreases PopRank(s.c)
  {
    var s1 := f(s);
    assert PopMoves(s, s1);
    if s1.c.pc.CIdle? {
      assert Iter(f, s, 1) == Iter(f, s1, 0) == s1;
    } else {
      NoneBy(f, g, s1);
      var k: nat :| k <= PopRank(s1.c) && FoundNone(s1, Iter(f, s1, k));
      assert Iter(f, s, k + 1) == Iter(f, s1, k);
    }
  }

  lemma {:induction false} PopWaitsBy<V(!new)>(f: State<V> -> State<V>, g: State<V> -> bool, s: State<V>, k: nat)
    requires PopDrives(f, g) && g(s) && MemShape(s.m) && !s.c.pc.CIdle? && !Emptying(s.c.pc) && !HasItems(s.m)
    requires s.c.mode.Pop? && (s.c.final ==> s.c.pc.CCheck?) && Open(s.m)
    ensures var z := Iter(f, s, k); !z.c.pc.CIdle? && z.m == s.m && z.drained == s.drained
    decreases k
  {
    if k > 0 {
      assert PopMoves(s, f(s));
      PopWaitsBy(f, g, f(s), k - 1);
    }
  }

  /** From every reachable state: on a queue that is not empty, a pop, try_pop or try_pop_n
      left alone returns items from the front, within a number of own steps fixed by what
      it wants; after a failed attempt a blocking pop does try again. */
  lemma PopGets<V(!new)>(s: State<V>)
    requires Sound(s) && MemShape(s.m) && !s.c.pc.CIdle? && HasItems(s.m)
    ensures exists k: nat :: k <= GetRank(s.c) + 1 && Got(s, Iter(ConsumerNext(), s, k))
  {
    SoundPopDrives<V>();
    GotBy(ConsumerNext(), (z: State<V>) => Sound(z), s);
  }

  /** On an empty queue a try_pop or try_pop_n returns nothing, and so does a pop once the
      queue is closed. */
  lemma PopFindsNone<V(!new)>(s: State<V>)
    requires Sound(s) && MemShape(s.m) && !s.c.pc.CIdle? && !Emptying(s.c.pc) && !HasItems(s.m)
    requires s.c.mode.Pop? && (s.c.pc.CCheck? || !s.c.final) ==> !Open(s.m)
    ensures exists k: nat :: k <= PopRank(s.c) && FoundNone(s, Iter(ConsumerNext(), s, k))
  {
    SoundPopDrives<V>();
    NoneBy(ConsumerNext(), (z: State<V>) => Sound(z), s);
  }

  /** A blocking pop on an empty open queue does not return, however long it is left
      alone. */
  lemma PopWaits<V(!new)>(s: State<V>, k: nat)
    requires Sound(s) && MemShape(s.m) && !s.c.pc.CIdle? && !Emptying(s.c.pc) && !HasItems(s.m)
    requires s.c.mode.Pop? && (s.c.final ==> s.c.pc.CCheck?) && Open(s.m)
    ensures var z := Iter(ConsumerNext(), s, k); !z.c.pc.CIdle? && z.m == s.m && z.drained == s.drained
  {
    SoundPopDrives<V>();
    PopWaitsBy(ConsumerNext(), (z: State<V>) => Sound(z), s, k);
  }
}
