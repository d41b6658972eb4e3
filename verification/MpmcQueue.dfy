/** MpmcQueue's code, member by member, on the slots it updates in place. One call runs
    at a time here, but the two things a call cannot control are left open: how stale
    its first load of the position is, and how often its compare-exchange fails
    spuriously. MpmcModel interleaves the atomic actions of many calls. */
module MpmcRing {
  import opened Common
  import opened Words
  import opened Rings
  import opened MpmcModel
  import opened MpmcInvariant
  import opened MpmcSolo

  // ----------------------------------------------------------------- slot sequences

  /** Between calls, the slot of ticket x holds x's item or is free for it. */
  function Expected(x: nat, e: nat): nat { if x < e then 2 * x + 1 else 2 * x }

  ghost predicate Sequenced(sq: seq<nat>, d: nat, e: nat) {
    && |sq| > 0 && d <= e <= d + |sq|
    && (forall x :: d <= x < d + |sq| ==> sq[Slot(|sq|, x)] == Expected(x, e))
  }

  lemma AfterEnqueue(sq: seq<nat>, d: nat, e: nat)
    requires Sequenced(sq, d, e) && e < d + |sq|
    ensures Sequenced(sq[Slot(|sq|, e) := 2 * e + 1], d, e + 1)
  {
  }

  lemma AfterDequeue(sq: seq<nat>, d: nat, e: nat)
    requires Sequenced(sq, d, e) && d < e
    ensures Sequenced(sq[Slot(|sq|, d) := 2 * (d + |sq|)], d + 1, e)
  {
  }

  /** The ticket of the window [d, d + n) that uses the slot of an older ticket t. */
  lemma {:induction false} CurrentTicket(n: nat, t: nat, d: nat) returns (x: nat)
    requires n > 0 && t < d + n
    ensures t <= x && d <= x < d + n && Slot(n, x) == Slot(n, t)
    ensures t < d ==> t < x
    decreases d + n - t
  {
    if t >= d {
      x := t;
    } else {
      x := CurrentTicket(n, t + n, d);
    }
  }

  /** What try_enqueue and try_dequeue conclude from a ticket: a stale one is always
      recognised, a current one tells full or empty exactly. */
  lemma Verdicts(sq: seq<nat>, d: nat, e: nat, t: nat)
    requires Sequenced(sq, d, e)
    ensures t <= e ==>
      Classify(Unbounded, sq[Slot(|sq|, t)], 2 * t)
      == if t < e then Ahead else if e < d + |sq| then Ours else Behind
    ensures t <= d ==>
      Classify(Unbounded, sq[Slot(|sq|, t)], 2 * t + 1)
      == if t < d then Ahead else if d < e then Ours else Behind
  {
    if t < d + |sq| {
      var x := CurrentTicket(|sq|, t, d);
    } else if t == e {
      assert Slot(|sq|, t) == Slot(|sq|, d);
    }
  }

  // ------------------------------------------------------------- whole-queue states

  /** The members of a queue between calls. */
  datatype Image<T> = Image(sq: seq<nat>, value: seq<T>, e: nat, d: nat, closed: bool)

  ghost predicate Proper<T>(q: Image<T>) {
    |q.sq| == |q.value| && Sequenced(q.sq, q.d, q.e)
  }

  /** What try_enqueue and try_dequeue make of it. */
  function Enqueued<T>(q: Image<T>, x: T): Image<T>
    requires |q.sq| == |q.value| > 0
  {
    if q.e >= q.d + |q.sq| then q
    else q.(sq := q.sq[Slot(|q.sq|, q.e) := 2 * q.e + 1], value := q.value[Slot(|q.sq|, q.e) := x], e := q.e + 1)
  }

  function Dequeued<T>(q: Image<T>): Image<T>
    requires |q.sq| > 0
  {
    if q.e <= q.d then q
    else q.(sq := q.sq[Slot(|q.sq|, q.d) := 2 * (q.d + |q.sq|)], d := q.d + 1)
  }

  /** The newest messages and the tickets of a model state are those of the queue. */
  ghost predicate Depicts<T>(s: State<T>, q: Image<T>) {
    && Shape(s) && |q.sq| == s.m.cap && s.m.value == q.value
    && Tail(s.m) == q.e && Head(s.m) == q.d && Last(s.m.closed).val == q.closed
    && forall i :: 0 <= i < s.m.cap ==> Top(s.m, i) == q.sq[i]
  }

  /** A new queue. */
  function Blank<T>(n: nat, blank: T): Image<T> {
    Image(seq(n, (i: nat) => 2 * i), seq(n, i => blank), 0, 0, false)
  }

  lemma InitDepicts<T>(n: nat, threads: nat, blank: T)
    requires n > 0
    ensures Depicts(Init(n, threads, blank), Blank(n, blank))
  {
  }

  lemma PushedDepicts<T>(s: State<T>, q: Image<T>, p: nat, x: T, s': State<T>)
    requires Depicts(s, q) && Proper(q) && q.e < q.d + |q.sq| && Shape(s') && Pushed(s.m, p, x, s'.m)
    ensures Depicts(s', Enqueued(q, x))
  {
    SlotIsMod(|q.sq|, q.e);
  }

  lemma PoppedDepicts<T>(s: State<T>, q: Image<T>, s': State<T>)
    requires Depicts(s, q) && Proper(q) && q.d < q.e && Shape(s') && Popped(s.m, s'.m)
    ensures Depicts(s', Dequeued(q))
  {
    SlotIsMod(|q.sq|, q.d);
  }

  /** The newest sequence of the next ticket's slot, in a proper queue. */
  lemma NextSlots<T>(s: State<T>, q: Image<T>)
    requires Depicts(s, q) && Proper(q)
    ensures var n := s.m.cap;
      && (q.e < q.d + n ==> Top(s.m, q.e % n) == 2 * q.e)
      && (q.e == q.d + n ==> Top(s.m, q.e % n) < 2 * q.e)
      && Top(s.m, q.d % n) == (if q.d < q.e then 2 * q.d + 1 else 2 * q.d)
  {
    SlotIsMod(|q.sq|, q.e);
    SlotIsMod(|q.sq|, q.d);
    Verdicts(q.sq, q.d, q.e, q.e);
    Verdicts(q.sq, q.d, q.e, q.d);
  }

  lemma NewestClosed<T(!new)>(s: State<T>, p: nat)
    requires Sound(s) && Shape(s) && p < |s.threads|
    ensures Readable(s.threads[p].view.c, |s.m.closed| - 1, |s.m.closed|)
  {
    SoundInv(s);
    assert ThreadOk(s.m, p, s.threads[p]);
  }

  /** An uncontended try_push is a run of the transition system: from any reachable state
      that depicts the queue, the thread alone reaches one that depicts the queue after
      the call. */
  lemma TryPushRuns<T(!new)>(s: State<T>, q: Image<T>, p: nat, x: T) returns (s': State<T>)
    requires Sound(s) && Depicts(s, q) && Proper(q) && p < |s.threads| && s.threads[p].pc.Idle?
    ensures Sound(s') && Via(Just(p), s, s') && p < |s'.threads| && s'.threads[p].pc.Idle?
    ensures Depicts(s', if q.closed then q else Enqueued(q, x))
  {
    ReachedStart(Just(p), s);
    NextSlots(s, q);
    NewestClosed(s, p);
    s' := PushSolo(Just(p), s, s, p, x, |s.m.closed| - 1);
    if !q.closed && q.e < q.d + |q.sq| { PushedDepicts(s, q, p, x, s'); }
  }

  /** Likewise an uncontended try_pop, which returns the item in the head's slot. */
  lemma TryPopRuns<T(!new)>(s: State<T>, q: Image<T>, p: nat) returns (s': State<T>)
    requires Sound(s) && Depicts(s, q) && Proper(q) && p < |s.threads| && s.threads[p].pc.Idle?
    ensures Sound(s') && Via(Just(p), s, s') && p < |s'.threads| && s'.threads[p].pc.Idle?
    ensures Depicts(s', Dequeued(q))
    ensures q.d < q.e ==> s'.threads[p].item == q.value[Slot(|q.sq|, q.d)]
  {
    ReachedStart(Just(p), s);
    NextSlots(s, q);
    HeadItem(s);
    SlotIsMod(|q.sq|, q.d);
    s' := PopSolo(Just(p), s, s, p);
    if q.d < q.e { PoppedDepicts(s, q, s'); }
  }

  // ------------------------------------------------------------------------ the queue

  class MpmcQueue<T> {
    const sequence: array<nat>
    const value: array<T>
    const mask: nat
    var enqueuePos: nat
    var dequeuePos: nat
    var closed: bool

    ghost predicate Valid()
      reads this, sequence
    {
      && sequence.Length == value.Length > 0
      && (sequence as object) != (value as object)
      && mask == MaskOf(value.Length)
      && Sequenced(sequence[..], dequeuePos, enqueuePos)
    }

    ghost function Contents(): (q: seq<T>)
      requires Valid()
      reads this, sequence, value
      ensures |q| == enqueuePos - dequeuePos <= value.Length
    {
      Window(value[..], dequeuePos, enqueuePos - dequeuePos)
    }

    ghost function Members(): (q: Image<T>)
      requires Valid()
      reads this, sequence, value
      ensures Proper(q)
    {
      Image(sequence[..], value[..], enqueuePos, dequeuePos, closed)
    }

    constructor (capacity: nat, blank: T)
      requires capacity > 0
      ensures Valid() && fresh(sequence) && fresh(value)
      ensures value.Length == capacity && Contents() == [] && !closed
      ensures Members() == Blank(capacity, blank)
    {
      sequence := new nat[capacity](_ => 0);
      value := new T[capacity](_ => blank);
      mask := MaskOf(capacity);
      enqueuePos, dequeuePos, closed := 0, 0, false;
      new;
      for i := 0 to capacity
        invariant forall j :: 0 <= j < i ==> sequence[j] == 2 * j
        modifies sequence
      {
        sequence[i] := 2 * i;
      }
    }

    /** Masking and division agree on every ticket. */
    method SlotOf(ticket: nat) returns (i: nat)
      requires Valid()
      ensures i == ticket % value.Length == Slot(value.Length, ticket)
    {
      SlotIndexIsMod(Word64, value.Length, ticket);
      SlotIsMod(value.Length, ticket);
      i := if mask != 0 then BitAnd(ticket, mask) else ticket % value.Length;
    }

    /** The compare-exchange on enqueue_pos_ has succeeded: writes the claimed slot and
        publishes it. */
    method Fill(ticket: nat, i: nat, item: T)
      requires Valid() && ticket == enqueuePos < dequeuePos + value.Length && i == Slot(value.Length, ticket)
      modifies this`enqueuePos, sequence, value
      ensures Valid() && Contents() == old(Contents()) + [item]
      ensures Members() == Enqueued(old(Members()), item)
    {
      AfterEnqueue(sequence[..], dequeuePos, enqueuePos);
      WindowPut(value[..], dequeuePos, enqueuePos - dequeuePos, item);
      enqueuePos := ticket + 1;
      value[i] := item;
      sequence[i] := 2 * ticket + 1;
    }

    method Drain(ticket: nat, i: nat) returns (out: T)
      requires Valid() && ticket == dequeuePos < enqueuePos && i == Slot(value.Length, ticket)
      modifies this`dequeuePos, sequence
      ensures Valid() && [out] + Contents() == old(Contents())
      ensures Members() == Dequeued(old(Members()))
    {
      AfterDequeue(sequence[..], dequeuePos, enqueuePos);
      WindowTake(value[..], dequeuePos, enqueuePos - dequeuePos);
      dequeuePos := ticket + 1;
      out := value[i];
      sequence[i] := 2 * (ticket + value.Length);
    }

    /** `first` is what the initial relaxed load returned, any earlier position; the
        compare-exchange fails spuriously `weak` times. Neither affects the result. */
    method TryEnqueue(item: T, first: nat, weak: nat) returns (ok: bool)
      requires Valid() && first <= enqueuePos
      modifies this`enqueuePos, sequence, value
      ensures Valid()
      ensures ok <==> |old(Contents())| < value.Length
      ensures Contents() == if ok then old(Contents()) + [item] else old(Contents())
      ensures Members() == Enqueued(old(Members()), item)
    {
      var ticket, spurious, i := first, weak, 0;
      while true
        invariant ticket <= enqueuePos
        decreases enqueuePos - ticket, spurious
        modifies {}
      {
        i := SlotOf(ticket);
        Verdicts(sequence[..], dequeuePos, enqueuePos, ticket);
        match Classify(Unbounded, sequence[i], 2 * ticket) {
          case Ours =>
            if spurious == 0 && enqueuePos == ticket { break; }
            ticket, spurious := enqueuePos, if spurious == 0 then 0 else spurious - 1;
          case Behind => return false;
          case Ahead => ticket := enqueuePos;
        }
      }
      Fill(ticket, i, item);
      ok := true;
    }

    method TryDequeue(first: nat, weak: nat) returns (out: Option<T>)
      requires Valid() && first <= dequeuePos
      modifies this`dequeuePos, sequence
      ensures Valid()
      ensures out.None? <==> old(Contents()) == []
      ensures out.Some? ==> [out.value] + Contents() == old(Contents())
      ensures out.None? ==> Contents() == old(Contents())
      ensures Members() == Dequeued(old(Members()))
    {
      var ticket, spurious, i := first, weak, 0;
      while true
        invariant ticket <= dequeuePos
        decreases dequeuePos - ticket, spurious
        modifies {}
      {
        i := SlotOf(ticket);
        Verdicts(sequence[..], dequeuePos, enqueuePos, ticket);
        match Classify(Unbounded, sequence[i], 2 * ticket + 1) {
          case Ours =>
            if spurious == 0 && dequeuePos == ticket { break; }
            ticket, spurious := dequeuePos, if spurious == 0 then 0 else spurious - 1;
          case Behind => return None;
          case Ahead => ticket := dequeuePos;
        }
      }
      var item := Drain(ticket, i);
      out := Some(item);
    }

    method TryPush(item: T, first: nat, weak: nat) returns (ok: bool)
      requires Valid() && first <= enqueuePos
      modifies this`enqueuePos, sequence, value
      ensures Valid()
      ensures ok <==> !closed && |old(Contents())| < value.Length
      ensures Contents() == if ok then old(Contents()) + [item] else old(Contents())
      ensures Members() == if closed then old(Members()) else Enqueued(old(Members()), item)
    {
      if closed {
        return false;
      }
      ok := TryEnqueue(item, first, weak);
    }

    method Close()
      requires Valid()
      modifies this`closed
      ensures Valid() && closed && Contents() == old(Contents())
    {
      closed := true;
    }

    /** Both loads may be stale; the result is clamped to [0, capacity], and exact when
        they are not. */
    method Size(tail: nat, head: nat) returns (n: nat)
      requires Valid()
      ensures n <= value.Length
      ensures tail == enqueuePos && head == dequeuePos ==> n == |Contents()|
      ensures tail <= enqueuePos && head == dequeuePos ==> n <= |Contents()|
    {
      var dif := SignedDif(Unbounded, tail, head);
      if dif < 0 {
        return 0;
      }
      n := if dif < value.Length then dif else value.Length;
    }
  }

  /** MpmcQueue(capacity): a capacity of zero is an invalid argument. */
  method Make<T>(capacity: nat, blank: T) returns (r: Option<MpmcQueue<T>>)
    ensures r.None? <==> capacity == 0
    ensures r.Some? ==> fresh(r.value) && fresh(r.value.value) && fresh(r.value.sequence)
    ensures r.Some? ==> r.value.Valid() && !r.value.closed
    ensures r.Some? ==> r.value.value.Length == capacity && r.value.Contents() == []
  {
    if capacity == 0 {
      return None;
    }
    var queue := new MpmcQueue(capacity, blank);
    r := Some(queue);
  }
}
