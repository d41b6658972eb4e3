/** MpmcQueue as a transition system: any number of threads, one step per atomic
    action, over a weak memory.

    Every atomic location keeps its whole modification order. A store appends a
    message; a load may return any message that is not older than the last one
    the thread's view knows of (coherence); a release store attaches the storing
    thread's view to its message and an acquire load joins it; a successful
    compare-exchange reads the newest message. Plain interleaving is the special
    case in which every load picks the newest message.

    A slot's value is not atomic. `acc[i]` numbers the accesses to it, a view
    records how many of them happen-before the thread's current point, and an
    access that is not ordered after all earlier ones sets `raced`. */
module MpmcModel {
  import opened Common
  import opened Words

  // ------------------------------------------------------------------- memory

  /** What happens-before a thread's current point: for each atomic location the
      index of the newest known message, for each slot the number of known value
      accesses. */
  datatype View = View(e: nat, d: nat, c: nat, sq: seq<nat>, acc: seq<nat>)

  datatype SeqMsg = SeqMsg(val: nat, view: View)
  datatype ClosedMsg = ClosedMsg(val: bool, view: View)

  function MaxSeq(a: seq<nat>, b: seq<nat>): (r: seq<nat>)
    ensures |r| == |a|
    ensures forall i :: 0 <= i < |a| ==> a[i] <= r[i] && (i < |b| ==> r[i] == Max(a[i], b[i]))
  {
    seq(|a|, i requires 0 <= i < |a| => if i < |b| then Max(a[i], b[i]) else a[i])
  }

  function Join(a: View, b: View): View {
    View(Max(a.e, b.e), Max(a.d, b.d), Max(a.c, b.c), MaxSeq(a.sq, b.sq), MaxSeq(a.acc, b.acc))
  }

  /** A load may return message `pick` of a location with `len` messages when the
      view's entry for it is `known`. */
  predicate Readable(known: nat, pick: nat, len: nat) { known <= pick < len }

  // ------------------------------------------------------------------ threads

  /** The atomic action a thread performs next. */
  datatype Pc =
    | Idle
    | PushCheck   // load closed_ (push, try_push)
    | EnqLoad     // load enqueue_pos_
    | EnqSeq      // load slot.sequence
    | EnqCas      // compare-exchange enqueue_pos_
    | EnqWrite    // slot.value = item
    | EnqPublish  // store slot.sequence = 2t + 1
    | DeqLoad     // load dequeue_pos_
    | DeqSeq      // load slot.sequence
    | DeqCas      // compare-exchange dequeue_pos_
    | DeqRead     // out = slot.value
    | DeqRelease  // store slot.sequence = 2(t + N)
    | PopCheck    // load closed_ (pop)

  /** `blocking` tells push/pop from try_push/try_pop and `final` marks pop's last
      attempt; `ok` is what the last call returned. `first` and `tries` count the retries
      of the current attempt. */
  datatype Thread<T> = Thread(
    pc: Pc, blocking: bool, final: bool, ok: bool, item: T, ticket: nat, first: nat, tries: nat, view: View)

  datatype Op<T> = Push(item: T) | TryPush(item: T) | Pop | TryPop | Close | Sync(other: nat)

  /** `Go` performs the thread's next atomic action; a load returns message `pick`
      and a compare-exchange fails spuriously when `weak`. */
  datatype Cmd<T> = Call(op: Op<T>) | Go(pick: nat, weak: bool)

  datatype Action<T> = Action(tid: nat, cmd: Cmd<T>)

  // -------------------------------------------------------------------- state

  /** Bookkeeping per ticket: who won it, and what it carried or delivered. */
  datatype Claim<T> = Claim(tid: nat, item: T)
  datatype Take<T> = Take(tid: nat, got: Option<T>)

  /** The queue's members, each atomic with its modification order, and the
      ticket bookkeeping. */
  datatype Mem<T> = Mem(
    cap: nat,
    epos: seq<nat>,
    dpos: seq<nat>,
    closed: seq<ClosedMsg>,
    sq: seq<seq<SeqMsg>>,
    value: seq<T>,
    acc: seq<nat>,
    raced: bool,
    enq: seq<Claim<T>>,
    deq: seq<Take<T>>)

  /** `drained` records that some pop() has returned false. */
  datatype State<T> = State(m: Mem<T>, threads: seq<Thread<T>>, drained: bool)

  predicate MemShape<T>(m: Mem<T>) {
    && m.cap > 0
    && |m.sq| == |m.value| == |m.acc| == m.cap
    && |m.epos| > 0 && |m.dpos| > 0 && |m.closed| > 0
    && (forall i :: 0 <= i < m.cap ==> |m.sq[i]| > 0)
  }

  predicate ViewShape(n: nat, v: View) { |v.sq| == |v.acc| == n }

  predicate Shape<T>(s: State<T>) {
    && MemShape(s.m)
    && (forall p :: 0 <= p < |s.threads| ==> ViewShape(s.m.cap, s.threads[p].view))
  }

  function ZeroView(n: nat): View {
    View(0, 0, 0, seq(n, i => 0), seq(n, i => 0))
  }

  /** The constructor: slot i starts free for ticket i. `blank` is the value of a
      default-constructed element. */
  function Init<T>(n: nat, threads: nat, blank: T): (s: State<T>)
    requires n > 0
    ensures Shape(s)
  {
    State(Mem(n, [0], [0], [ClosedMsg(false, ZeroView(n))],
              seq(n, (i: nat) => [SeqMsg(2 * i, ZeroView(n))]),
              seq(n, i => blank), seq(n, i => 0), false, [], []),
          seq(threads, i => Thread(Idle, false, false, false, blank, 0, 0, 0, ZeroView(n))),
          false)
  }

  // -------------------------------------------------------------------- steps

  datatype Verdict = Ours | Behind | Ahead

  /** The three-way test on the signed difference of a sequence and what the
      ticket expects. */
  function Classify(w: Word, sequence: nat, expected: nat): Verdict {
    var dif := SignedDif(w, sequence, expected);
    if dif == 0 then Ours else if dif < 0 then Behind else Ahead
  }

  function SetThread<T>(s: State<T>, p: nat, th: Thread<T>): (r: State<T>)
    requires Shape(s) && p < |s.threads|
    requires ViewShape(s.m.cap, th.view)
    ensures Shape(r)
  {
    s.(threads := s.threads[p := th])
  }

  function StartCall<T>(s: State<T>, p: nat, op: Op<T>): (r: State<T>)
    requires Shape(s) && p < |s.threads|
    ensures Shape(r)
  {
    var th := s.threads[p];
    match op
    case Push(x) => SetThread(s, p, th.(pc := PushCheck, blocking := true, item := x))
    case TryPush(x) => SetThread(s, p, th.(pc := PushCheck, blocking := false, item := x))
    case Pop => SetThread(s, p, th.(pc := DeqLoad, blocking := true, final := false, tries := 0))
    case TryPop => SetThread(s, p, th.(pc := DeqLoad, blocking := false, final := false, tries := 0))
    case Close =>
      var view := th.view.(c := |s.m.closed|);
      SetThread(s, p, th.(view := view)).(m := s.m.(closed := s.m.closed + [ClosedMsg(true, view)]))
    case Sync(o) =>  // p has joined the idle thread o
      if o < |s.threads| && s.threads[o].pc.Idle?
      then SetThread(s, p, th.(view := Join(th.view, s.threads[o].view)))
      else s
  }

  /** push/try_push: relaxed load of closed_. */
  function LoadClosedRelaxed<T>(s: State<T>, p: nat, pick: nat): (r: State<T>)
    requires Shape(s) && p < |s.threads|
    ensures Shape(r)
  {
    var th := s.threads[p];
    if !Readable(th.view.c, pick, |s.m.closed|) then s else
    SetThread(s, p, th.(view := th.view.(c := pick), tries := 0, ok := false,
                        pc := if s.m.closed[pick].val then Idle else EnqLoad))
  }

  /** pop: acquire load of closed_ after a failed attempt. */
  function LoadClosedAcquire<T>(s: State<T>, p: nat, pick: nat): (r: State<T>)
    requires Shape(s) && p < |s.threads|
    ensures Shape(r)
  {
    var th := s.threads[p];
    if !Readable(th.view.c, pick, |s.m.closed|) then s else
    SetThread(s, p, th.(view := Join(th.view.(c := pick), s.m.closed[pick].view), tries := 0,
                        final := s.m.closed[pick].val, pc := DeqLoad))
  }

  function LoadEnqPos<T>(s: State<T>, p: nat, pick: nat): (r: State<T>)
    requires Shape(s) && p < |s.threads|
    ensures Shape(r)
  {
    var th := s.threads[p];
    if !Readable(th.view.e, pick, |s.m.epos|) then s else
    SetThread(s, p, th.(view := th.view.(e := pick), ticket := s.m.epos[pick], pc := EnqSeq,
                        first := if th.tries == 0 then s.m.epos[pick] else th.first))
  }

  function LoadDeqPos<T>(s: State<T>, p: nat, pick: nat): (r: State<T>)
    requires Shape(s) && p < |s.threads|
    ensures Shape(r)
  {
    var th := s.threads[p];
    if !Readable(th.view.d, pick, |s.m.dpos|) then s else
    SetThread(s, p, th.(view := th.view.(d := pick), ticket := s.m.dpos[pick], pc := DeqSeq,
                        first := if th.tries == 0 then s.m.dpos[pick] else th.first))
  }

  /** Acquire load of slot.sequence: the view after reading message `pick`. */
  function Acquire<T>(m: Mem<T>, v: View, i: nat, pick: nat): (r: View)
    requires MemShape(m) && i < m.cap && ViewShape(m.cap, v) && pick < |m.sq[i]|
    ensures ViewShape(m.cap, r)
  {
    Join(v.(sq := v.sq[i := pick]), m.sq[i][pick].view)
  }

  /** try_enqueue after reading message `pick` of its slot's sequence. */
  function JudgeEnq<T>(w: Word, m: Mem<T>, th: Thread<T>, i: nat, pick: nat): (r: Thread<T>)
    requires MemShape(m) && i < m.cap && ViewShape(m.cap, th.view) && pick < |m.sq[i]|
    ensures ViewShape(m.cap, r.view)
  {
    var th' := th.(view := Acquire(m, th.view, i, pick));
    match Classify(w, m.sq[i][pick].val, Wrap(w, 2 * th.ticket))
    case Ours => th'.(pc := EnqCas)
    case Behind => th'.(ok := false, pc := if th.blocking then PushCheck else Idle)
    case Ahead => th'.(pc := EnqLoad, tries := th.tries + 1)
  }

  function JudgeDeq<T>(w: Word, m: Mem<T>, th: Thread<T>, i: nat, pick: nat): (r: Thread<T>)
    requires MemShape(m) && i < m.cap && ViewShape(m.cap, th.view) && pick < |m.sq[i]|
    ensures ViewShape(m.cap, r.view)
  {
    var th' := th.(view := Acquire(m, th.view, i, pick));
    match Classify(w, m.sq[i][pick].val, Wrap(w, 2 * th.ticket + 1))
    case Ours => th'.(pc := DeqCas)
    case Behind => th'.(ok := false, pc := if th.blocking && !th.final then PopCheck else Idle)
    case Ahead => th'.(pc := DeqLoad, tries := th.tries + 1)
  }

  function LoadSeqEnq<T>(w: Word, s: State<T>, p: nat, pick: nat): (r: State<T>)
    requires Shape(s) && p < |s.threads|
    ensures Shape(r)
  {
    var th := s.threads[p];
    var i := SlotIndex(w, s.m.cap, th.ticket);
    if !Readable(th.view.sq[i], pick, |s.m.sq[i]|) then s
    else SetThread(s, p, JudgeEnq(w, s.m, th, i, pick))
  }

  function LoadSeqDeq<T>(w: Word, s: State<T>, p: nat, pick: nat): (r: State<T>)
    requires Shape(s) && p < |s.threads|
    ensures Shape(r)
  {
    var th := s.threads[p];
    var i := SlotIndex(w, s.m.cap, th.ticket);
    if !Readable(th.view.sq[i], pick, |s.m.sq[i]|) then s
    else
      var th' := JudgeDeq(w, s.m, th, i, pick);
      SetThread(s, p, th').(drained := s.drained || (th.blocking && th'.pc.Idle?))
  }

  function CasEnq<T>(w: Word, s: State<T>, p: nat, pick: nat, weak: bool): (r: State<T>)
    requires Shape(s) && p < |s.threads|
    ensures Shape(r)
  {
    var th := s.threads[p];
    if !weak && Last(s.m.epos) == th.ticket then
      SetThread(s, p, th.(view := th.view.(e := |s.m.epos|), pc := EnqWrite))
      .(m := s.m.(epos := s.m.epos + [Wrap(w, th.ticket + 1)], enq := s.m.enq + [Claim(p, th.item)]))
    else if !Readable(th.view.e, pick, |s.m.epos|) then s
    else SetThread(s, p, th.(view := th.view.(e := pick), ticket := s.m.epos[pick], pc := EnqSeq,
                             tries := th.tries + 1))
  }

  function CasDeq<T>(w: Word, s: State<T>, p: nat, pick: nat, weak: bool): (r: State<T>)
    requires Shape(s) && p < |s.threads|
    ensures Shape(r)
  {
    var th := s.threads[p];
    if !weak && Last(s.m.dpos) == th.ticket then
      SetThread(s, p, th.(view := th.view.(d := |s.m.dpos|), pc := DeqRead))
      .(m := s.m.(dpos := s.m.dpos + [Wrap(w, th.ticket + 1)], deq := s.m.deq + [Take(p, None)]))
    else if !Readable(th.view.d, pick, |s.m.dpos|) then s
    else SetThread(s, p, th.(view := th.view.(d := pick), ticket := s.m.dpos[pick], pc := DeqSeq,
                             tries := th.tries + 1))
  }

  /** One non-atomic access to slot i's value by a thread with view v. */
  function Access<T>(m: Mem<T>, v: View, i: nat): (r: Mem<T>)
    requires MemShape(m) && i < m.cap && ViewShape(m.cap, v)
    ensures MemShape(r)
  {
    m.(acc := m.acc[i := m.acc[i] + 1], raced := m.raced || v.acc[i] != m.acc[i])
  }

  function AfterAccess<T>(m: Mem<T>, v: View, i: nat): (r: View)
    requires MemShape(m) && i < m.cap && ViewShape(m.cap, v)
    ensures ViewShape(m.cap, r)
  {
    v.(acc := v.acc[i := m.acc[i] + 1])
  }

  function WriteValue<T>(s: State<T>, p: nat, i: nat): (r: State<T>)
    requires Shape(s) && p < |s.threads| && i < s.m.cap
    ensures Shape(r)
  {
    var th := s.threads[p];
    SetThread(s, p, th.(pc := EnqPublish, view := AfterAccess(s.m, th.view, i)))
    .(m := Access(s.m, th.view, i).(value := s.m.value[i := th.item]))
  }

  function ReadValue<T>(s: State<T>, p: nat, i: nat): (r: State<T>)
    requires Shape(s) && p < |s.threads| && i < s.m.cap
    ensures Shape(r)
  {
    var th, t := s.threads[p], s.threads[p].ticket;
    SetThread(s, p, th.(pc := DeqRelease, item := s.m.value[i], view := AfterAccess(s.m, th.view, i)))
    .(m := Access(s.m, th.view, i).(
      deq := if t < |s.m.deq| then s.m.deq[t := Take(s.m.deq[t].tid, Some(s.m.value[i]))] else s.m.deq))
  }

  /** Release store of `val` to slot i's sequence; the call then returns. */
  function StoreSeq<T>(s: State<T>, p: nat, i: nat, val: nat): (r: State<T>)
    requires Shape(s) && p < |s.threads| && i < s.m.cap
    ensures Shape(r)
  {
    var th := s.threads[p];
    var view := th.view.(sq := th.view.sq[i := |s.m.sq[i]|]);
    SetThread(s, p, th.(view := view, pc := Idle, ok := true))
    .(m := s.m.(sq := s.m.sq[i := s.m.sq[i] + [SeqMsg(val, view)]]))
  }

  function Perform<T>(w: Word, s: State<T>, p: nat, pick: nat, weak: bool): (r: State<T>)
    requires Shape(s) && p < |s.threads|
    ensures Shape(r)
  {
    var th := s.threads[p];
    var i := SlotIndex(w, s.m.cap, th.ticket);
    match th.pc
    case Idle => s
    case PushCheck => LoadClosedRelaxed(s, p, pick)
    case EnqLoad => LoadEnqPos(s, p, pick)
    case EnqSeq => LoadSeqEnq(w, s, p, pick)
    case EnqCas => CasEnq(w, s, p, pick, weak)
    case EnqWrite => WriteValue(s, p, i)
    case EnqPublish => StoreSeq(s, p, i, Wrap(w, 2 * th.ticket + 1))
    case DeqLoad => LoadDeqPos(s, p, pick)
    case DeqSeq => LoadSeqDeq(w, s, p, pick)
    case DeqCas => CasDeq(w, s, p, pick, weak)
    case DeqRead => ReadValue(s, p, i)
    case DeqRelease => StoreSeq(s, p, i, Wrap(w, 2 * (th.ticket + s.m.cap)))
    case PopCheck => LoadClosedAcquire(s, p, pick)
  }

  /** One action of the system. An action that is not possible changes nothing, so
      every sequence of actions is a run. */
  function Step<T>(w: Word, s: State<T>, a: Action<T>): (r: State<T>)
    requires Shape(s)
    ensures Shape(r)
  {
    if a.tid >= |s.threads| then s
    else match a.cmd
      case Call(op) => if s.threads[a.tid].pc.Idle? then StartCall(s, a.tid, op) else s
      case Go(pick, weak) => Perform(w, s, a.tid, pick, weak)
  }

  function Run<T>(w: Word, s: State<T>, acts: seq<Action<T>>): (r: State<T>)
    requires Shape(s)
    ensures Shape(r)
    decreases |acts|
  {
    if acts == [] then s
    else Step(w, Run(w, s, acts[..|acts| - 1]), acts[|acts| - 1])
  }
}
