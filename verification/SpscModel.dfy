/** SpscQueue as a transition system over the same weak memory as MpmcModel: one
    producer, one consumer, any number of other threads that may close.

    head_, tail_ and closed_ keep their modification orders; loads may be stale as
    far as the thread's view allows. Slot writes and reads are logged in order, and
    a slot access that is not ordered by happens-before after every conflicting
    access to the same slot sets `raced`. */
module SpscModel {
  import opened Common
  import opened Rings

  /** Newest known head_, tail_ and closed_ message; known slot writes and reads. An
      index message is identified by its count: counts only grow along head_ and
      tail_, so an older message is one with a smaller count. */
  datatype View = View(h: nat, t: nat, c: nat, w: nat, r: nat)

  /** A published index. `count` is the bookkeeping behind it: the number of items
      published (tail_) or taken (head_) so far. */
  datatype IndexMsg = IndexMsg(idx: nat, count: nat, view: View)
  datatype ClosedMsg = ClosedMsg(val: bool, view: View)
  datatype Access<T> = Access(slot: nat, item: T)

  datatype Mem<T> = Mem(
    ring: nat,
    buffer: seq<T>,
    head: seq<IndexMsg>,
    tail: seq<IndexMsg>,
    closed: seq<ClosedMsg>,
    puts: seq<Access<T>>,
    takes: seq<Access<T>>,
    raced: bool)

  datatype PMode = Push | TryPush | PushN
  datatype PPc = PIdle | PLoad | PCheck | PRoom | PWrite | PPublish

  /** `tail` is the local index, `cache` is head_cache_ and `hc` the count behind it;
      `done` of `count` items have been written. `ret` is how many items the last call
      accepted: false and true are 0 and 1. */
  datatype Producer<T> = Producer(
    pc: PPc, mode: PMode, items: seq<T>, ret: nat, count: nat, done: nat, tail: nat, cache: nat, hc: nat, view: View)

  /** `out` is what the last call returned: false and true are no item and one. */
  datatype CMode = Pop | TryPop | PopN
  datatype CPc = CIdle | CLoad | CData | CRead | CPublish | CCheck

  datatype Consumer<T> = Consumer(
    pc: CPc, mode: CMode, want: nat, final: bool, out: seq<T>, count: nat, head: nat, cache: nat, tc: nat, view: View)

  datatype State<T> = State(m: Mem<T>, p: Producer<T>, c: Consumer<T>, others: seq<View>, drained: bool)

  datatype Actor = P | C | O(k: nat)

  datatype Cmd<T> =
    | CallPush(pmode: PMode, items: seq<T>)
    | CallPop(cmode: CMode, want: nat)
    | Close
    | Sync(from: Actor)
    | Go(pick: nat)

  datatype Action<T> = Action(actor: Actor, cmd: Cmd<T>)

  function Join(a: View, b: View): View {
    View(Max(a.h, b.h), Max(a.t, b.t), Max(a.c, b.c), Max(a.w, b.w), Max(a.r, b.r))
  }

  /** A load may return any message that is not older than the view's entry. */
  predicate Readable(known: nat, pick: nat, history: seq<IndexMsg>) {
    pick < |history| && known <= history[pick].count
  }

  predicate ReadableFlag(known: nat, pick: nat, history: seq<ClosedMsg>) { known <= pick < |history| }

  predicate Shape<T>(s: State<T>) {
    && s.m.ring > 1 && |s.m.buffer| == s.m.ring
    && |s.m.head| > 0 && |s.m.tail| > 0 && |s.m.closed| > 0
  }

  const ZERO: View := View(0, 0, 0, 0, 0)

  /** The constructor allocates capacity + 1 slots. */
  function Init<T>(capacity: nat, others: nat, blank: T): (s: State<T>)
    requires capacity > 0
    ensures Shape(s)
  {
    State(Mem(capacity + 1, seq(capacity + 1, i => blank),
              [IndexMsg(0, 0, ZERO)], [IndexMsg(0, 0, ZERO)], [ClosedMsg(false, ZERO)], [], [], false),
          Producer(PIdle, Push, [], 0, 0, 0, 0, 0, 0, ZERO),
          Consumer(CIdle, Pop, 0, false, [], 0, 0, 0, 0, ZERO),
          seq(others, i => ZERO), false)
  }

  // -------------------------------------------------------------- index arithmetic

  /** try_push_n's free slots and try_pop_n's available items, on indices. */
  function FreeSlots(ring: nat, headCache: nat, tail: nat): nat
    requires ring > 0
  {
    (headCache + ring - 1 - tail) % ring
  }

  function Available(ring: nat, tailCache: nat, head: nat): nat
    requires ring > 0
  {
    (tailCache + ring - head) % ring
  }

  // --------------------------------------------------------------------- producer

  function StartPush<T>(s: State<T>, mode: PMode, items: seq<T>): (r: State<T>)
    requires Shape(s)
    ensures Shape(r)
  {
    if mode.PushN? && items == [] then s.(p := s.p.(ret := 0))
    else if !mode.PushN? && |items| != 1 then s
    else s.(p := s.p.(pc := if mode.Push? then PLoad else PCheck, mode := mode, items := items))
  }

  /** Relaxed load of the producer's own index. */
  function LoadTail<T>(s: State<T>, pick: nat): (r: State<T>)
    requires Shape(s)
    ensures Shape(r)
  {
    if !Readable(s.p.view.t, pick, s.m.tail) then s
    else s.(p := s.p.(view := s.p.view.(t := s.m.tail[pick].count), tail := s.m.tail[pick].idx,
                      pc := if s.p.mode.Push? then PCheck else PRoom))
  }

  function CheckPush<T>(s: State<T>, pick: nat): (r: State<T>)
    requires Shape(s)
    ensures Shape(r)
  {
    if !ReadableFlag(s.p.view.c, pick, s.m.closed) then s
    else s.(p := s.p.(view := s.p.view.(c := pick), ret := 0,
                      pc := if s.m.closed[pick].val then PIdle
                            else if s.p.mode.Push? then PRoom else PLoad))
  }

  /** How many items the cached head index licenses. */
  function Room<T>(ring: nat, p: Producer<T>): nat
    requires ring > 0
  {
    if p.mode.PushN? then Min(|p.items|, FreeSlots(ring, p.cache, p.tail))
    else if Next(ring, p.tail) != p.cache then 1 else 0
  }

  /** Acquire load of head_ into the cache. */
  function RefreshHead<T>(m: Mem<T>, p: Producer<T>, pick: nat): Producer<T>
    requires pick < |m.head|
  {
    p.(cache := m.head[pick].idx, hc := m.head[pick].count,
       view := Join(p.view.(h := m.head[pick].count), m.head[pick].view))
  }

  function Decide<T>(ring: nat, p: Producer<T>): Producer<T>
    requires ring > 0
  {
    var n := Room(ring, p);
    if n > 0 then p.(pc := PWrite, count := n, done := 0)
    else p.(ret := 0, pc := if p.mode.Push? then PCheck else PIdle)
  }

  /** has_room, or the free-slot count of try_push_n: the peer's index is loaded only
      when the cache says full. */
  function CheckRoom<T>(s: State<T>, pick: nat): (r: State<T>)
    requires Shape(s)
    ensures Shape(r)
  {
    if Room(s.m.ring, s.p) > 0 then s.(p := Decide(s.m.ring, s.p))
    else if !Readable(s.p.view.h, pick, s.m.head) then s
    else s.(p := Decide(s.m.ring, RefreshHead(s.m, s.p, pick)))
  }

  /** Some read of the slot is not known to happen-before. */
  predicate WriteRaces<T>(m: Mem<T>, v: View, slot: nat) {
    exists x :: v.r <= x < |m.takes| && m.takes[x].slot == slot
  }

  function WriteSlot<T>(s: State<T>): (r: State<T>)
    requires Shape(s)
    ensures Shape(r)
  {
    var m, p := s.m, s.p;
    if !(p.tail < m.ring && p.done < |p.items|) then s else
    s.(m := m.(buffer := m.buffer[p.tail := p.items[p.done]],
               puts := m.puts + [Access(p.tail, p.items[p.done])],
               raced := m.raced || WriteRaces(m, p.view, p.tail)),
       p := p.(tail := Next(m.ring, p.tail), done := p.done + 1,
               view := p.view.(w := |m.puts| + 1),
               pc := if p.done + 1 == p.count then PPublish else PWrite))
  }

  /** One release store of tail_ publishes the whole batch. */
  function PublishTail<T>(s: State<T>): (r: State<T>)
    requires Shape(s)
    ensures Shape(r)
  {
    var count := Last(s.m.tail).count + s.p.count;
    var view := s.p.view.(t := count);
    s.(m := s.m.(tail := s.m.tail + [IndexMsg(s.p.tail, count, view)]),
       p := s.p.(view := view, ret := s.p.count, pc := PIdle))
  }

  // --------------------------------------------------------------------- consumer

  function StartPop<T>(s: State<T>, mode: CMode, want: nat): (r: State<T>)
    requires Shape(s)
    ensures Shape(r)
  {
    if mode.PopN? && want == 0 then s.(c := s.c.(out := []))
    else s.(c := s.c.(pc := CLoad, mode := mode, want := if mode.PopN? then want else 1, final := false))
  }

  function LoadHead<T>(s: State<T>, pick: nat): (r: State<T>)
    requires Shape(s)
    ensures Shape(r)
  {
    if !Readable(s.c.view.h, pick, s.m.head) then s
    else s.(c := s.c.(view := s.c.view.(h := s.m.head[pick].count), head := s.m.head[pick].idx, pc := CData))
  }

  function Data<T>(ring: nat, c: Consumer<T>): nat
    requires ring > 0
  {
    if c.mode.PopN? then Min(c.want, Available(ring, c.cache, c.head))
    else if c.head != c.cache then 1 else 0
  }

  function RefreshTail<T>(m: Mem<T>, c: Consumer<T>, pick: nat): Consumer<T>
    requires pick < |m.tail|
  {
    c.(cache := m.tail[pick].idx, tc := m.tail[pick].count,
       view := Join(c.view.(t := m.tail[pick].count), m.tail[pick].view))
  }

  function DecidePop<T>(ring: nat, c: Consumer<T>): Consumer<T>
    requires ring > 0
  {
    var n := Data(ring, c);
    if n > 0 then c.(pc := CRead, count := n, out := [])
    else c.(out := [], pc := if c.mode.Pop? && !c.final then CCheck else CIdle)
  }

  function CheckData<T>(s: State<T>, pick: nat): (r: State<T>)
    requires Shape(s)
    ensures Shape(r)
  {
    if Data(s.m.ring, s.c) > 0 then s.(c := DecidePop(s.m.ring, s.c))
    else if !Readable(s.c.view.t, pick, s.m.tail) then s
    else
      var c := DecidePop(s.m.ring, RefreshTail(s.m, s.c, pick));
      s.(c := c, drained := s.drained || (c.pc.CIdle? && c.mode.Pop?))
  }

  predicate ReadRaces<T>(m: Mem<T>, v: View, slot: nat) {
    exists x :: v.w <= x < |m.puts| && m.puts[x].slot == slot
  }

  function ReadSlot<T>(s: State<T>): (r: State<T>)
    requires Shape(s)
    ensures Shape(r)
  {
    var m, c := s.m, s.c;
    if !(c.head < m.ring) then s else
    var item := m.buffer[c.head];
    s.(m := m.(takes := m.takes + [Access(c.head, item)],
               raced := m.raced || ReadRaces(m, c.view, c.head)),
       c := c.(head := Next(m.ring, c.head), out := c.out + [item],
               view := c.view.(r := |m.takes| + 1),
               pc := if |c.out| + 1 == c.count then CPublish else CRead))
  }

  function PublishHead<T>(s: State<T>): (r: State<T>)
    requires Shape(s)
    ensures Shape(r)
  {
    var count := Last(s.m.head).count + s.c.count;
    var view := s.c.view.(h := count);
    s.(m := s.m.(head := s.m.head + [IndexMsg(s.c.head, count, view)]),
       c := s.c.(view := view, pc := CIdle))
  }

  /** pop: acquire load of closed_ after a failed attempt. */
  function CheckPop<T>(s: State<T>, pick: nat): (r: State<T>)
    requires Shape(s)
    ensures Shape(r)
  {
    if !ReadableFlag(s.c.view.c, pick, s.m.closed) then s
    else s.(c := s.c.(view := Join(s.c.view.(c := pick), s.m.closed[pick].view),
                      final := s.m.closed[pick].val, pc := CLoad))
  }

  // ------------------------------------------------------------------ every thread

  predicate IdleActor<T>(s: State<T>, a: Actor) {
    match a
    case P => s.p.pc.PIdle?
    case C => s.c.pc.CIdle?
    case O(k) => k < |s.others|
  }

  function ViewOf<T>(s: State<T>, a: Actor): View
    requires IdleActor(s, a)
  {
    match a
    case P => s.p.view
    case C => s.c.view
    case O(k) => s.others[k]
  }

  function SetView<T>(s: State<T>, a: Actor, v: View): (r: State<T>)
    requires Shape(s) && IdleActor(s, a)
    ensures Shape(r)
  {
    match a
    case P => s.(p := s.p.(view := v))
    case C => s.(c := s.c.(view := v))
    case O(k) => s.(others := s.others[k := v])
  }

  function CloseBy<T>(s: State<T>, a: Actor): (r: State<T>)
    requires Shape(s) && IdleActor(s, a)
    ensures Shape(r)
  {
    var view := ViewOf(s, a).(c := |s.m.closed|);
    SetView(s, a, view).(m := s.m.(closed := s.m.closed + [ClosedMsg(true, view)]))
  }

  function ProducerGo<T>(s: State<T>, pick: nat): (r: State<T>)
    requires Shape(s)
    ensures Shape(r)
  {
    match s.p.pc
    case PIdle => s
    case PLoad => LoadTail(s, pick)
    case PCheck => CheckPush(s, pick)
    case PRoom => CheckRoom(s, pick)
    case PWrite => WriteSlot(s)
    case PPublish => PublishTail(s)
  }

  function ConsumerGo<T>(s: State<T>, pick: nat): (r: State<T>)
    requires Shape(s)
    ensures Shape(r)
  {
    match s.c.pc
    case CIdle => s
    case CLoad => LoadHead(s, pick)
    case CData => CheckData(s, pick)
    case CRead => ReadSlot(s)
    case CPublish => PublishHead(s)
    case CCheck => CheckPop(s, pick)
  }

  function Step<T>(s: State<T>, a: Action<T>): (r: State<T>)
    requires Shape(s)
    ensures Shape(r)
  {
    match a.cmd
    case Go(pick) =>
      if a.actor.P? then ProducerGo(s, pick) else if a.actor.C? then ConsumerGo(s, pick) else s
    case CallPush(mode, items) =>
      if a.actor.P? && s.p.pc.PIdle? then StartPush(s, mode, items) else s
    case CallPop(mode, want) =>
      if a.actor.C? && s.c.pc.CIdle? then StartPop(s, mode, want) else s
    case Close => if IdleActor(s, a.actor) then CloseBy(s, a.actor) else s
    case Sync(o) =>
      if IdleActor(s, a.actor) && IdleActor(s, o)
      then SetView(s, a.actor, Join(ViewOf(s, a.actor), ViewOf(s, o)))
      else s
  }

  function Run<T>(s: State<T>, acts: seq<Action<T>>): (r: State<T>)
    requires Shape(s)
    ensures Shape(r)
    decreases |acts|
  {
    if acts == [] then s else Step(Run(s, acts[..|acts| - 1]), acts[|acts| - 1])
  }
}
