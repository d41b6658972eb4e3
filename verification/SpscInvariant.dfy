/** The inductive invariant of SpscQueue: the counters behind the indices satisfy
    HC <= H <= TC <= T <= HC + capacity at every step. */
module SpscInvariant {
  import opened Common
  import opened Words
  import opened Rings
  import opened SpscModel

  // --------------------------------------------------------- indices and counters

  lemma FreeSlotsMod(ring: nat, hc: nat, t: nat)
    requires ring > 0 && hc <= t < hc + ring
    ensures FreeSlots(ring, hc % ring, t % ring) == hc + ring - 1 - t
  {
    var v, d, q := hc % ring + ring - 1 - t % ring, hc + ring - 1 - t, t / ring - hc / ring;
    assert hc == ring * (hc / ring) + hc % ring;
    assert t == ring * (t / ring) + t % ring;
    assert ring * q == ring * (t / ring) - ring * (hc / ring);
    assert v == ring * q + d;
    MultipleOf(ring, q);
    DivModUnique(v, q, d, ring);
  }

  lemma AvailableMod(ring: nat, h: nat, tc: nat)
    requires ring > 0 && h <= tc < h + ring
    ensures Available(ring, tc % ring, h % ring) == tc - h
  {
    var v, d, q := tc % ring + ring - h % ring, tc - h, 1 + h / ring - tc / ring;
    assert h == ring * (h / ring) + h % ring;
    assert tc == ring * (tc / ring) + tc % ring;
    assert ring * q == ring + ring * (h / ring) - ring * (tc / ring);
    assert v == ring * q + d;
    MultipleOf(ring, q);
    DivModUnique(v, q, d, ring);
  }

  /** The modular free-slot formula of try_push_n is HC + capacity - T. */
  lemma FreeSlotsIs(ring: nat, hc: nat, t: nat)
    requires ring > 0 && hc <= t < hc + ring
    ensures FreeSlots(ring, Slot(ring, hc), Slot(ring, t)) == hc + ring - 1 - t
  {
    SlotIsMod(ring, hc);
    SlotIsMod(ring, t);
    FreeSlotsMod(ring, hc, t);
  }

  /** The available-items formula of try_pop_n is TC - H. */
  lemma AvailableIs(ring: nat, h: nat, tc: nat)
    requires ring > 0 && h <= tc < h + ring
    ensures Available(ring, Slot(ring, tc), Slot(ring, h)) == tc - h
  {
    SlotIsMod(ring, h);
    SlotIsMod(ring, tc);
    AvailableMod(ring, h, tc);
  }

  /** In 64-bit arithmetic the free-slot and available-item expressions give these
      values exactly when cache + ring - own (- 1) does not reach 2^64, and so for
      every ring of up to 2^63 slots. */
  lemma FormulasFit(ring: nat, cache: nat, own: nat)
    requires 0 < ring < W64 && cache < ring && own < ring
    ensures (((cache + ring) % W64 - 1 - own) % W64) % ring == FreeSlots(ring, cache, own)
      <==> cache + ring - 1 - own < W64
    ensures (((cache + ring) % W64 - own) % W64) % ring == Available(ring, cache, own)
      <==> cache + ring - own < W64
    ensures ring <= HALF64 ==> cache + ring - own < W64
  {
    WrapsOnce(cache + ring, 1 + own, ring);
    WrapsOnce(cache + ring, own, ring);
  }

  lemma WrapsOnce(x: nat, y: nat, ring: nat)
    requires y <= ring <= x < 2 * ring && ring < W64
    ensures ((x % W64 - y) % W64) % ring == (x - y) % ring <==> x - y < W64
  {
    var v := x - y;
    if v < W64 {
      assert (x % W64 - y) % W64 == v;
    } else {
      assert (x % W64 - y) % W64 == v - W64;
      DivModUnique(v, 1, v - ring, ring);
      DivModUnique(v - W64, 0, v - W64, ring);
    }
  }

  lemma RoomTest(ring: nat, hc: nat, t: nat)
    requires ring > 0 && hc <= t < hc + ring
    ensures Next(ring, Slot(ring, t)) != Slot(ring, hc) <==> t < hc + ring - 1
  {
    NextSlot(ring, t);
    if t + 1 < hc + ring && Slot(ring, t + 1) == Slot(ring, hc) {
      SameSlot(ring, hc, t + 1);
    }
  }

  lemma DataTest(ring: nat, h: nat, tc: nat)
    requires ring > 0 && h <= tc < h + ring
    ensures Slot(ring, h) != Slot(ring, tc) <==> h < tc
  {
    if Slot(ring, h) == Slot(ring, tc) { SameSlot(ring, h, tc); }
  }

  // ------------------------------------------------------------------ the invariant

  /** Items published, items taken. */
  function T<V>(m: Mem<V>): nat
    requires |m.tail| > 0
  {
    Last(m.tail).count
  }

  function H<V>(m: Mem<V>): nat
    requires |m.head| > 0
  {
    Last(m.head).count
  }

  predicate MemShape<V>(m: Mem<V>) {
    m.ring > 1 && |m.buffer| == m.ring && |m.head| > 0 && |m.tail| > 0 && |m.closed| > 0
  }

  /** Whoever knows a published index knows the slot accesses it stands for. */
  predicate ViewOk<V>(m: Mem<V>, v: View)
    requires MemShape(m)
  {
    v.t <= T(m) && v.h <= H(m) && v.c < |m.closed| && v.t <= v.w <= |m.puts| && v.h <= v.r <= |m.takes|
  }

  ghost predicate TailOk<V>(m: Mem<V>)
    requires MemShape(m)
  {
    forall k :: 0 <= k < |m.tail| ==>
      && m.tail[k].idx == Slot(m.ring, m.tail[k].count)
      && ViewOk(m, m.tail[k].view) && m.tail[k].view.t == m.tail[k].count
  }

  ghost predicate HeadOk<V>(m: Mem<V>)
    requires MemShape(m)
  {
    forall k :: 0 <= k < |m.head| ==>
      && m.head[k].idx == Slot(m.ring, m.head[k].count)
      && ViewOk(m, m.head[k].view) && m.head[k].view.h == m.head[k].count
  }

  /** The i-th put and the i-th take use slot i mod ring and move the same item. */
  ghost predicate LogsOk<V>(m: Mem<V>) {
    && m.ring > 0 && |m.buffer| == m.ring
    && |m.takes| <= |m.puts|
    && (forall x {:trigger m.puts[x]} :: 0 <= x < |m.puts| ==> m.puts[x].slot == Slot(m.ring, x))
    && (forall x :: 0 <= x < |m.takes| ==> m.takes[x] == m.puts[x])
    && (forall x {:trigger m.puts[x]} :: |m.takes| <= x < |m.puts| ==> m.buffer[Slot(m.ring, x)] == m.puts[x].item)
    && !m.raced
  }

  ghost predicate ClosedOk<V>(m: Mem<V>)
    requires MemShape(m)
  {
    forall k :: 0 <= k < |m.closed| ==> ViewOk(m, m.closed[k].view)
  }

  ghost predicate MemInv<V>(m: Mem<V>) {
    MemShape(m) && TailOk(m) && HeadOk(m) && LogsOk(m) && ClosedOk(m)
  }

  predicate Filling(pc: PPc) { pc.PWrite? || pc.PPublish? }
  predicate Emptying(pc: CPc) { pc.CRead? || pc.CPublish? }

  ghost predicate ProdOk<V>(m: Mem<V>, p: Producer<V>)
    requires MemShape(m)
  {
    && ViewOk(m, p.view) && p.view.t == T(m) && p.view.w == |m.puts|
    && p.cache == Slot(m.ring, p.hc) && p.hc <= p.view.h
    && T(m) < p.hc + m.ring
    && (Filling(p.pc) ==>
          && |m.puts| == T(m) + p.done && p.tail == Slot(m.ring, |m.puts|)
          && 0 < p.count <= |p.items| && T(m) + p.count < p.hc + m.ring
          && (if p.pc.PWrite? then p.done < p.count else p.done == p.count)
          && (forall i :: 0 <= i < p.done ==> m.puts[T(m) + i].item == p.items[i]))
    && (!Filling(p.pc) ==> |m.puts| == T(m))
    && (p.pc.PRoom? || (p.pc.PCheck? && p.mode.Push?) ==> p.tail == Slot(m.ring, T(m)))
    && (!p.pc.PIdle? ==> |p.items| > 0 && (!p.mode.PushN? ==> |p.items| == 1))
  }

  ghost predicate ConsOk<V>(m: Mem<V>, c: Consumer<V>)
    requires MemShape(m)
  {
    && ViewOk(m, c.view) && c.view.h == H(m) && c.view.r == |m.takes|
    && c.cache == Slot(m.ring, c.tc) && c.tc <= c.view.t
    && H(m) <= c.tc
    && (Emptying(c.pc) ==>
          && |m.takes| == H(m) + |c.out| && c.head == Slot(m.ring, |m.takes|)
          && 0 < c.count <= c.want && H(m) + c.count <= c.tc
          && (if c.pc.CRead? then |c.out| < c.count else |c.out| == c.count)
          && (forall i :: 0 <= i < |c.out| ==> m.takes[H(m) + i].item == c.out[i]))
    && (!Emptying(c.pc) ==> |m.takes| == H(m))
    && (c.pc.CData? ==> c.head == Slot(m.ring, H(m)))
    && (!c.pc.CIdle? ==> c.want > 0)
  }

  ghost predicate OthersOk<V>(m: Mem<V>, others: seq<View>)
    requires MemShape(m)
  {
    forall k :: 0 <= k < |others| ==> ViewOk(m, others[k])
  }

  ghost predicate Inv<V>(s: State<V>) {
    && MemInv(s.m) && ProdOk(s.m, s.p) && ConsOk(s.m, s.c) && OthersOk(s.m, s.others)
    && s.p.hc <= H(s.m) && s.c.tc <= T(s.m)
  }

  lemma InitInv<V>(capacity: nat, others: nat, blank: V)
    requires capacity > 0
    ensures Inv(Init(capacity, others, blank))
  {
  }

  // ------------------------------------------------------------------------ frames

  ghost predicate Grows<V>(m: Mem<V>, m': Mem<V>)
    requires MemShape(m) && MemShape(m')
  {
    && m'.ring == m.ring
    && T(m) <= T(m') && H(m) <= H(m')
    && m.head <= m'.head && m.tail <= m'.tail && m.closed <= m'.closed
    && m.puts <= m'.puts && m.takes <= m'.takes
  }

  lemma ViewFrame<V>(m: Mem<V>, m': Mem<V>)
    requires MemShape(m) && MemShape(m') && Grows(m, m')
    ensures forall v :: ViewOk(m, v) ==> ViewOk(m', v)
  {
  }

  lemma JoinOk<V>(m: Mem<V>, a: View, b: View)
    requires MemShape(m) && ViewOk(m, a) && ViewOk(m, b)
    ensures ViewOk(m, Join(a, b))
  {
  }

  lemma ConsFrame<V>(m: Mem<V>, m': Mem<V>, c: Consumer<V>)
    requires MemShape(m) && MemShape(m') && Grows(m, m') && ConsOk(m, c)
    requires m'.head == m.head && m'.takes == m.takes
    ensures ConsOk(m', c)
  {
  }

  lemma ProdFrame<V>(m: Mem<V>, m': Mem<V>, p: Producer<V>)
    requires MemShape(m) && MemShape(m') && Grows(m, m') && ProdOk(m, p)
    requires m'.tail == m.tail && m'.puts == m.puts
    ensures ProdOk(m', p)
  {
  }

  /** Messages, closers and bystanders survive any growth of the logs. */
  lemma MessagesFrame<V>(m: Mem<V>, m': Mem<V>, others: seq<View>)
    requires MemShape(m) && MemShape(m') && Grows(m, m') && OthersOk(m, others)
    ensures OthersOk(m', others)
    ensures HeadOk(m) && m'.head == m.head ==> HeadOk(m')
    ensures TailOk(m) && m'.tail == m.tail ==> TailOk(m')
    ensures ClosedOk(m) && m'.closed == m.closed ==> ClosedOk(m')
  {
    ViewFrame(m, m');
  }

  /** A step that changes only the producer's (consumer's) own variables. */
  lemma ProdStep<V>(s: State<V>, p: Producer<V>)
    requires Inv(s) && ProdOk(s.m, p) && p.hc <= H(s.m)
    ensures Inv(s.(p := p))
  {
  }

  lemma ConsStep<V>(s: State<V>, c: Consumer<V>, d: bool)
    requires Inv(s) && ConsOk(s.m, c) && c.tc <= T(s.m)
    ensures Inv(s.(c := c, drained := d))
  {
  }

  // -------------------------------------------------------------- producer's steps

  lemma LoadTailOk<V>(s: State<V>, pick: nat)
    requires Shape(s) && ProdOk(s.m, s.p) && s.p.pc.PLoad?
    requires TailOk(s.m)
    ensures ProdOk(s.m, LoadTail(s, pick).p)
  {
  }

  lemma CheckPushOk<V>(s: State<V>, pick: nat)
    requires Shape(s) && ProdOk(s.m, s.p) && s.p.pc.PCheck?
    ensures ProdOk(s.m, CheckPush(s, pick).p)
  {
  }

  lemma StartPushOk<V>(s: State<V>, mode: PMode, items: seq<V>)
    requires Shape(s) && ProdOk(s.m, s.p) && s.p.pc.PIdle?
    ensures ProdOk(s.m, StartPush(s, mode, items).p)
  {
  }

  /** The verdict on the cached index is exact for the cached head. */
  lemma RoomIs<V>(m: Mem<V>, p: Producer<V>)
    requires MemShape(m) && p.cache == Slot(m.ring, p.hc) && p.tail == Slot(m.ring, T(m))
    requires p.hc <= T(m) < p.hc + m.ring && |p.items| > 0
    ensures Room(m.ring, p) ==
      if p.mode.PushN? then Min(|p.items|, p.hc + m.ring - 1 - T(m))
      else if T(m) < p.hc + m.ring - 1 then 1 else 0
  {
    FreeSlotsIs(m.ring, p.hc, T(m));
    RoomTest(m.ring, p.hc, T(m));
  }

  lemma DecideOk<V>(m: Mem<V>, p: Producer<V>)
    requires MemShape(m) && ProdOk(m, p) && p.pc.PRoom? && p.hc <= T(m)
    ensures ProdOk(m, Decide(m.ring, p)) && Decide(m.ring, p).hc == p.hc
  {
    RoomIs(m, p);
  }

  lemma RefreshHeadOk<V>(m: Mem<V>, p: Producer<V>, pick: nat)
    requires MemShape(m) && HeadOk(m) && ProdOk(m, p) && p.pc.PRoom?
    requires Readable(p.view.h, pick, m.head)
    ensures var p' := RefreshHead(m, p, pick);
      ProdOk(m, p') && p.hc <= p'.hc <= H(m)
  {
    var msg := m.head[pick];
    assert ViewOk(m, msg.view) && msg.view.h == msg.count;
  }

  /** The producer's next slot has been given back, and the producer knows it: the
      reads it does not know of concern other slots. */
  lemma WriteInTurn<V>(s: State<V>)
    requires LogsOk(s.m) && MemShape(s.m) && ProdOk(s.m, s.p) && s.p.pc.PWrite?
    ensures !WriteRaces(s.m, s.p.view, s.p.tail)
  {
    forall x | s.p.view.r <= x < |s.m.takes| ensures s.m.takes[x].slot != s.p.tail {
      assert s.m.takes[x] == s.m.puts[x];
      if Slot(s.m.ring, x) == Slot(s.m.ring, |s.m.puts|) { SameSlot(s.m.ring, x, |s.m.puts|); }
    }
  }

  lemma WriteLogs<V>(s: State<V>)
    requires Shape(s) && LogsOk(s.m) && ProdOk(s.m, s.p) && s.p.pc.PWrite?
    requires s.p.hc <= |s.m.takes|
    ensures LogsOk(WriteSlot(s).m)
  {
    var m, m' := s.m, WriteSlot(s).m;
    WriteInTurn(s);
    forall x | |m'.takes| <= x < |m'.puts| ensures m'.buffer[Slot(m.ring, x)] == m'.puts[x].item {
      if x < |m.puts| && Slot(m.ring, x) == Slot(m.ring, |m.puts|) { SameSlot(m.ring, x, |m.puts|); }
    }
  }

  lemma WriteProd<V>(s: State<V>)
    requires Shape(s) && ProdOk(s.m, s.p) && s.p.pc.PWrite?
    ensures ProdOk(WriteSlot(s).m, WriteSlot(s).p) && Grows(s.m, WriteSlot(s).m)
  {
    NextSlot(s.m.ring, |s.m.puts|);
  }

  lemma WriteSlotInv<V>(s: State<V>)
    requires Inv(s) && s.p.pc.PWrite?
    ensures Inv(WriteSlot(s))
  {
    var s' := WriteSlot(s);
    WriteProd(s);
    WriteLogs(s);
    ConsFrame(s.m, s'.m, s.c);
    MessagesFrame(s.m, s'.m, s.others);
  }

  lemma PublishTailOk<V>(s: State<V>)
    requires Shape(s) && TailOk(s.m) && ProdOk(s.m, s.p) && s.p.pc.PPublish?
    ensures var s' := PublishTail(s);
      TailOk(s'.m) && ProdOk(s'.m, s'.p) && Grows(s.m, s'.m) && T(s.m) <= T(s'.m)
  {
    var s' := PublishTail(s);
    ViewFrame(s.m, s'.m);
    assert ViewOk(s'.m, s'.p.view);
  }

  lemma PublishTailInv<V>(s: State<V>)
    requires Inv(s) && s.p.pc.PPublish?
    ensures Inv(PublishTail(s))
  {
    var s' := PublishTail(s);
    PublishTailOk(s);
    ConsFrame(s.m, s'.m, s.c);
    MessagesFrame(s.m, s'.m, s.others);
  }

  lemma CheckRoomInv<V>(s: State<V>, pick: nat)
    requires Inv(s) && s.p.pc.PRoom?
    ensures Inv(CheckRoom(s, pick))
  {
    assert s.p.hc <= T(s.m);
    if Room(s.m.ring, s.p) > 0 {
      DecideOk(s.m, s.p);
      ProdStep(s, Decide(s.m.ring, s.p));
    } else if Readable(s.p.view.h, pick, s.m.head) {
      RefreshHeadOk(s.m, s.p, pick);
      var p := RefreshHead(s.m, s.p, pick);
      DecideOk(s.m, p);
      ProdStep(s, Decide(s.m.ring, p));
    }
  }

  lemma LoadTailInv<V>(s: State<V>, pick: nat)
    requires Inv(s) && s.p.pc.PLoad?
    ensures Inv(LoadTail(s, pick))
  {
    LoadTailOk(s, pick);
    ProdStep(s, LoadTail(s, pick).p);
  }

  lemma CheckPushInv<V>(s: State<V>, pick: nat)
    requires Inv(s) && s.p.pc.PCheck?
    ensures Inv(CheckPush(s, pick))
  {
    CheckPushOk(s, pick);
    ProdStep(s, CheckPush(s, pick).p);
  }

  lemma StartPushInv<V>(s: State<V>, mode: PMode, items: seq<V>)
    requires Inv(s) && s.p.pc.PIdle?
    ensures Inv(StartPush(s, mode, items))
  {
    StartPushOk(s, mode, items);
    ProdStep(s, StartPush(s, mode, items).p);
  }

  lemma ProducerInv<V>(s: State<V>, pick: nat)
    requires Inv(s)
    ensures Inv(ProducerGo(s, pick))
  {
    match s.p.pc {
      case PIdle =>
      case PLoad => LoadTailInv(s, pick);
      case PCheck => CheckPushInv(s, pick);
      case PRoom => CheckRoomInv(s, pick);
      case PWrite => WriteSlotInv(s);
      case PPublish => PublishTailInv(s);
    }
  }

  // -------------------------------------------------------------- consumer's steps

  lemma LoadHeadOk<V>(s: State<V>, pick: nat)
    requires Shape(s) && ConsOk(s.m, s.c) && s.c.pc.CLoad?
    requires HeadOk(s.m)
    ensures ConsOk(s.m, LoadHead(s, pick).c)
  {
  }

  lemma CheckPopOk<V>(s: State<V>, pick: nat)
    requires Shape(s) && ConsOk(s.m, s.c) && s.c.pc.CCheck?
    requires pick < |s.m.closed| ==> ViewOk(s.m, s.m.closed[pick].view)
    ensures ConsOk(s.m, CheckPop(s, pick).c) && CheckPop(s, pick).c.tc == s.c.tc
  {
  }

  lemma StartPopOk<V>(s: State<V>, mode: CMode, want: nat)
    requires Shape(s) && ConsOk(s.m, s.c) && s.c.pc.CIdle?
    ensures ConsOk(s.m, StartPop(s, mode, want).c)
  {
  }

  /** The verdict on the cached index is exact for the cached tail. */
  lemma DataIs<V>(m: Mem<V>, c: Consumer<V>)
    requires MemShape(m) && c.cache == Slot(m.ring, c.tc) && c.head == Slot(m.ring, H(m))
    requires H(m) <= c.tc < H(m) + m.ring && c.want > 0
    ensures Data(m.ring, c) ==
      if c.mode.PopN? then Min(c.want, c.tc - H(m)) else if H(m) < c.tc then 1 else 0
  {
    AvailableIs(m.ring, H(m), c.tc);
    DataTest(m.ring, H(m), c.tc);
  }

  lemma DecidePopOk<V>(m: Mem<V>, c: Consumer<V>)
    requires MemShape(m) && ConsOk(m, c) && c.pc.CData? && c.tc < H(m) + m.ring
    ensures ConsOk(m, DecidePop(m.ring, c)) && DecidePop(m.ring, c).tc == c.tc
  {
    DataIs(m, c);
  }

  lemma RefreshTailOk<V>(m: Mem<V>, c: Consumer<V>, pick: nat)
    requires MemShape(m) && TailOk(m) && ConsOk(m, c) && c.pc.CData?
    requires Readable(c.view.t, pick, m.tail)
    ensures var c' := RefreshTail(m, c, pick);
      ConsOk(m, c') && c.tc <= c'.tc <= T(m)
  {
    var msg := m.tail[pick];
    assert ViewOk(m, msg.view) && msg.view.t == msg.count;
  }

  lemma CheckDataInv<V>(s: State<V>, pick: nat)
    requires Inv(s) && s.c.pc.CData?
    ensures Inv(CheckData(s, pick))
  {
    assert T(s.m) < H(s.m) + s.m.ring;
    if Data(s.m.ring, s.c) > 0 {
      DecidePopOk(s.m, s.c);
      ConsStep(s, DecidePop(s.m.ring, s.c), s.drained);
    } else if Readable(s.c.view.t, pick, s.m.tail) {
      RefreshTailOk(s.m, s.c, pick);
      var c := RefreshTail(s.m, s.c, pick);
      DecidePopOk(s.m, c);
      ConsStep(s, DecidePop(s.m.ring, c), CheckData(s, pick).drained);
    }
  }

  /** The consumer's next slot has been filled, and the consumer knows it. */
  lemma ReadInTurn<V>(s: State<V>)
    requires LogsOk(s.m) && MemShape(s.m) && ConsOk(s.m, s.c) && s.c.pc.CRead?
    requires |s.m.puts| < |s.m.takes| + s.m.ring
    ensures !ReadRaces(s.m, s.c.view, s.c.head)
  {
    forall x | s.c.view.w <= x < |s.m.puts| ensures s.m.puts[x].slot != s.c.head {
      if Slot(s.m.ring, x) == Slot(s.m.ring, |s.m.takes|) { SameSlot(s.m.ring, |s.m.takes|, x); }
    }
  }

  lemma ReadLogs<V>(s: State<V>)
    requires Shape(s) && LogsOk(s.m) && ConsOk(s.m, s.c) && s.c.pc.CRead?
    requires |s.m.puts| < |s.m.takes| + s.m.ring
    ensures LogsOk(ReadSlot(s).m)
  {
    ReadInTurn(s);
    assert s.m.puts[|s.m.takes|].slot == Slot(s.m.ring, |s.m.takes|);
  }

  lemma ReadCons<V>(s: State<V>)
    requires Shape(s) && ConsOk(s.m, s.c) && s.c.pc.CRead?
    ensures ConsOk(ReadSlot(s).m, ReadSlot(s).c) && Grows(s.m, ReadSlot(s).m)
  {
    NextSlot(s.m.ring, |s.m.takes|);
  }

  lemma ReadSlotInv<V>(s: State<V>)
    requires Inv(s) && s.c.pc.CRead?
    ensures Inv(ReadSlot(s))
  {
    var s' := ReadSlot(s);
    ReadLogs(s);
    ReadCons(s);
    ProdFrame(s.m, s'.m, s.p);
    MessagesFrame(s.m, s'.m, s.others);
  }

  lemma PublishHeadOk<V>(s: State<V>)
    requires Shape(s) && HeadOk(s.m) && ConsOk(s.m, s.c) && s.c.pc.CPublish?
    ensures var s' := PublishHead(s);
      HeadOk(s'.m) && ConsOk(s'.m, s'.c) && Grows(s.m, s'.m) && H(s.m) <= H(s'.m)
  {
    var s' := PublishHead(s);
    ViewFrame(s.m, s'.m);
    assert ViewOk(s'.m, s'.c.view);
  }

  lemma PublishHeadInv<V>(s: State<V>)
    requires Inv(s) && s.c.pc.CPublish?
    ensures Inv(PublishHead(s))
  {
    var s' := PublishHead(s);
    PublishHeadOk(s);
    ProdFrame(s.m, s'.m, s.p);
    MessagesFrame(s.m, s'.m, s.others);
  }

  lemma LoadHeadInv<V>(s: State<V>, pick: nat)
    requires Inv(s) && s.c.pc.CLoad?
    ensures Inv(LoadHead(s, pick))
  {
    LoadHeadOk(s, pick);
    ConsStep(s, LoadHead(s, pick).c, s.drained);
  }

  lemma CheckPopInv<V>(s: State<V>, pick: nat)
    requires Inv(s) && s.c.pc.CCheck?
    ensures Inv(CheckPop(s, pick))
  {
    if ReadableFlag(s.c.view.c, pick, s.m.closed) {
      assert ViewOk(s.m, s.m.closed[pick].view);
      CheckPopOk(s, pick);
      ConsStep(s, CheckPop(s, pick).c, s.drained);
    }
  }

  lemma StartPopInv<V>(s: State<V>, mode: CMode, want: nat)
    requires Inv(s) && s.c.pc.CIdle?
    ensures Inv(StartPop(s, mode, want))
  {
    StartPopOk(s, mode, want);
    ConsStep(s, StartPop(s, mode, want).c, s.drained);
  }

  lemma ConsumerInv<V>(s: State<V>, pick: nat)
    requires Inv(s)
    ensures Inv(ConsumerGo(s, pick))
  {
    match s.c.pc {
      case CIdle =>
      case CLoad => LoadHeadInv(s, pick);
      case CData => CheckDataInv(s, pick);
      case CRead => ReadSlotInv(s);
      case CPublish => PublishHeadInv(s);
      case CCheck => CheckPopInv(s, pick);
    }
  }

  // -------------------------------------------------------------------- every step

  lemma ViewOfOk<V>(s: State<V>, a: Actor)
    requires Inv(s) && IdleActor(s, a)
    ensures ViewOk(s.m, ViewOf(s, a))
  {
  }

  lemma OtherStep<V>(s: State<V>, k: nat, v: View)
    requires Inv(s) && k < |s.others| && ViewOk(s.m, v)
    ensures Inv(s.(others := s.others[k := v]))
  {
    assert OthersOk(s.m, s.others[k := v]);
  }

  /** An idle thread may learn more without disturbing anything. */
  lemma SetViewInv<V>(s: State<V>, a: Actor, v: View)
    requires Inv(s) && IdleActor(s, a) && ViewOk(s.m, v) && Join(ViewOf(s, a), v) == v
    ensures Inv(SetView(s, a, v))
  {
    match a {
      case P => ProdStep(s, s.p.(view := v));
      case C => ConsStep(s, s.c.(view := v), s.drained);
      case O(k) => OtherStep(s, k, v);
    }
  }

  lemma ClosedGrows<V>(m: Mem<V>, v: View)
    requires MemInv(m) && ViewOk(m.(closed := m.closed + [ClosedMsg(true, v)]), v)
    ensures MemInv(m.(closed := m.closed + [ClosedMsg(true, v)]))
  {
    var m' := m.(closed := m.closed + [ClosedMsg(true, v)]);
    MessagesFrame(m, m', []);
    ViewFrame(m, m');
    assert ClosedOk(m');
  }

  lemma CloseFrame<V>(s: State<V>, v: View)
    requires Inv(s) && ViewOk(s.m.(closed := s.m.closed + [ClosedMsg(true, v)]), v)
    ensures Inv(s.(m := s.m.(closed := s.m.closed + [ClosedMsg(true, v)])))
  {
    var m' := s.m.(closed := s.m.closed + [ClosedMsg(true, v)]);
    ClosedGrows(s.m, v);
    ProdFrame(s.m, m', s.p);
    ConsFrame(s.m, m', s.c);
    MessagesFrame(s.m, m', s.others);
  }

  lemma CloseInv<V>(s: State<V>, a: Actor)
    requires Inv(s) && IdleActor(s, a)
    ensures Inv(CloseBy(s, a))
  {
    ViewOfOk(s, a);
    var v := ViewOf(s, a).(c := |s.m.closed|);
    CloseFrame(s, v);
    SetViewInv(s.(m := s.m.(closed := s.m.closed + [ClosedMsg(true, v)])), a, v);
  }

  lemma SyncInv<V>(s: State<V>, a: Actor, o: Actor)
    requires Inv(s) && IdleActor(s, a) && IdleActor(s, o)
    ensures Inv(SetView(s, a, Join(ViewOf(s, a), ViewOf(s, o))))
  {
    ViewOfOk(s, a);
    ViewOfOk(s, o);
    JoinOk(s.m, ViewOf(s, a), ViewOf(s, o));
    SetViewInv(s, a, Join(ViewOf(s, a), ViewOf(s, o)));
  }

  /** Step, case by case. */
  lemma StepIs<V>(s: State<V>, a: Action<V>)
    requires Shape(s)
    ensures a.cmd.Go? && a.actor.P? ==> Step(s, a) == ProducerGo(s, a.cmd.pick)
    ensures a.cmd.Go? && a.actor.C? ==> Step(s, a) == ConsumerGo(s, a.cmd.pick)
    ensures a.cmd.Go? && a.actor.O? ==> Step(s, a) == s
    ensures a.cmd.CallPush? && a.actor.P? && s.p.pc.PIdle? ==>
      Step(s, a) == StartPush(s, a.cmd.pmode, a.cmd.items)
    ensures a.cmd.CallPush? && !(a.actor.P? && s.p.pc.PIdle?) ==> Step(s, a) == s
    ensures a.cmd.CallPop? && a.actor.C? && s.c.pc.CIdle? ==>
      Step(s, a) == StartPop(s, a.cmd.cmode, a.cmd.want)
    ensures a.cmd.CallPop? && !(a.actor.C? && s.c.pc.CIdle?) ==> Step(s, a) == s
    ensures a.cmd.Close? && IdleActor(s, a.actor) ==> Step(s, a) == CloseBy(s, a.actor)
    ensures a.cmd.Close? && !IdleActor(s, a.actor) ==> Step(s, a) == s
    ensures a.cmd.Sync? && IdleActor(s, a.actor) && IdleActor(s, a.cmd.from) ==>
      Step(s, a) == SetView(s, a.actor, Join(ViewOf(s, a.actor), ViewOf(s, a.cmd.from)))
    ensures a.cmd.Sync? && !(IdleActor(s, a.actor) && IdleActor(s, a.cmd.from)) ==> Step(s, a) == s
  {
  }

  lemma Same<V>(s: State<V>, t: State<V>)
    requires Inv(t) && s == t
    ensures Inv(s)
  {
  }

  lemma StepInv<V>(s: State<V>, a: Action<V>)
    requires Inv(s)
    ensures Inv(Step(s, a))
  {
    StepIs(s, a);
    var t := s;
    match a.cmd {
      case Go(pick) =>
        if a.actor.P? {
          ProducerInv(s, pick);
          t := ProducerGo(s, pick);
        } else if a.actor.C? {
          ConsumerInv(s, pick);
          t := ConsumerGo(s, pick);
        }
      case CallPush(mode, items) =>
        if a.actor.P? && s.p.pc.PIdle? {
          StartPushInv(s, mode, items);
          t := StartPush(s, mode, items);
        }
      case CallPop(mode, want) =>
        if a.actor.C? && s.c.pc.CIdle? {
          StartPopInv(s, mode, want);
          t := StartPop(s, mode, want);
        }
      case Close =>
        if IdleActor(s, a.actor) {
          CloseInv(s, a.actor);
          t := CloseBy(s, a.actor);
        }
      case Sync(o) =>
        if IdleActor(s, a.actor) && IdleActor(s, o) {
          SyncInv(s, a.actor, o);
          t := SetView(s, a.actor, Join(ViewOf(s, a.actor), ViewOf(s, o)));
        }
    }
    Same(Step(s, a), t);
  }

  lemma {:induction false} RunInv<V>(s: State<V>, acts: seq<Action<V>>)
    requires Inv(s)
    ensures Inv(Run(s, acts))
    decreases |acts|
  {
    if acts != [] {
      RunInv(s, acts[..|acts| - 1]);
      StepInv(Run(s, acts[..|acts| - 1]), acts[|acts| - 1]);
    }
  }
}
