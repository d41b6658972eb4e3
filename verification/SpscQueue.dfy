/** SpscQueue's code, member by member, on the ring it updates in place. One call runs
    at a time here; what the two threads may do between each other's steps is the
    subject of SpscModel. The cached indices lag behind exactly as in the source,
    because they are refreshed only when they say full or empty. */
module SpscRing {
  import opened Common
  import opened Words
  import opened Rings
  import opened SpscModel
  import opened SpscInvariant
  import opened SpscSolo

  datatype Result<+R> = Success(value: R) | InvalidArgument | LengthError

  /** SpscQueue::ring_slots: 64-bit capacity to slot count, or the exception thrown. */
  function RingSlots(capacity: nat): (r: Result<nat>)
    requires capacity < W64
    ensures r.Success? <==> 0 < capacity < W64 - 1
    ensures r.Success? ==> r.value == capacity + 1 < W64
  {
    if capacity == 0 then InvalidArgument
    else if capacity == W64 - 1 then LengthError
    else Success(capacity + 1)
  }

  // ------------------------------------------------------------- whole-queue states

  /** The members of a queue between calls. */
  datatype Image<T> = Image(buffer: seq<T>, head: nat, tail: nat, headCache: nat, tailCache: nat, closed: bool)

  predicate Proper<T>(q: Image<T>) { q.head < |q.buffer| && q.tail < |q.buffer| }

  /** What an accepted part of a push, single or bulk, makes of it. */
  function Pushed<T>(q: Image<T>, mode: PMode, items: seq<T>): Image<T>
    requires Proper(q)
  {
    if q.closed || items == [] then q
    else
      var ring := |q.buffer|;
      var cache := HeadSeen(mode, |items|, ring, q.headCache, q.head, q.tail);
      var n := Space(mode, |items|, ring, cache, q.tail);
      var r := Stored(q.buffer, q.tail, items[..n]);
      q.(buffer := r.0, tail := r.1, headCache := cache)
  }

  function Popped<T>(q: Image<T>, mode: CMode, wanted: nat): (Image<T>, seq<T>)
    requires Proper(q)
  {
    if wanted == 0 then (q, [])
    else
      var ring := |q.buffer|;
      var cache := TailSeen(mode, wanted, ring, q.tailCache, q.head, q.tail);
      var r := Gathered(q.buffer, q.head, Items(mode, wanted, ring, cache, q.head));
      (q.(head := r.1, tailCache := cache), r.0)
  }

  /** The newest messages and the caches of a model state are those of the queue. */
  ghost predicate Depicts<T>(s: State<T>, q: Image<T>) {
    && Shape(s) && s.m.buffer == q.buffer
    && Last(s.m.head).idx == q.head && Last(s.m.tail).idx == q.tail
    && s.p.cache == q.headCache && s.c.cache == q.tailCache && Last(s.m.closed).val == q.closed
  }

  lemma InitDepicts<T>(capacity: nat, others: nat, blank: T)
    requires capacity > 0
    ensures Depicts(Init(capacity, others, blank), Image(seq(capacity + 1, i => blank), 0, 0, 0, 0, false))
  {
  }

  /** A push that would wait: a blocking one on a full open queue. */
  predicate WouldWait<T>(q: Image<T>, mode: PMode)
    requires Proper(q)
  {
    var ring := |q.buffer|;
    mode.Push? && !q.closed
    && Space(mode, 1, ring, HeadSeen(mode, 1, ring, q.headCache, q.head, q.tail), q.tail) == 0
  }

  /** An uncontended push that does not wait, blocking, try or bulk, is a run of the
      transition system: from any reachable state that depicts the queue, the producer
      alone reaches one that depicts the queue after the call. */
  lemma PushRuns<T(!new)>(s: State<T>, q: Image<T>, mode: PMode, items: seq<T>) returns (s': State<T>)
    requires Sound(s) && Depicts(s, q) && Proper(q) && s.p.pc.PIdle? && !WouldWait(q, mode)
    requires items != [] && (!mode.PushN? ==> |items| == 1)
    ensures Sound(s') && Via(P, s, s') && s'.p.pc.PIdle? && Depicts(s', Pushed(q, mode, items))
  {
    ReachedStart(P, s);
    ProducerKnows(s);
    if mode.Push? {
      assert items == [items[0]];
      s' := BlockingPushSolo(s, s, items[0], |s.m.closed| - 1);
    } else {
      s' := PushSolo(s, s, mode, items, |s.m.closed| - 1);
    }
  }

  /** Likewise an uncontended try_pop or try_pop_n, which returns the same items. */
  lemma PopRuns<T(!new)>(s: State<T>, q: Image<T>, mode: CMode, wanted: nat) returns (s': State<T>)
    requires Sound(s) && Depicts(s, q) && Proper(q) && s.c.pc.CIdle?
    requires !mode.Pop? && wanted > 0 && (mode.TryPop? ==> wanted == 1)
    ensures Sound(s') && Via(C, s, s') && s'.c.pc.CIdle? && Depicts(s', Popped(q, mode, wanted).0)
    ensures var out := Popped(q, mode, wanted).1; out != [] ==> s'.c.out == out
  {
    ReachedStart(C, s);
    s' := PopSolo(s, s, mode, wanted);
  }

  // ---------------------------------------------------------------------- copy loops

  /** Storing behind a window with room for it appends to the window. */
  lemma {:induction false} StoredWindow<T>(b: seq<T>, from: nat, n: nat, xs: seq<T>)
    requires |b| > 0 && n + |xs| <= |b|
    ensures var r := Stored(b, Slot(|b|, from + n), xs);
      r.1 == Slot(|b|, from + n + |xs|) && Window(r.0, from, n + |xs|) == Window(b, from, n) + xs
    decreases |xs|
  {
    if xs != [] {
      var k := |xs| - 1;
      StoredWindow(b, from, n, xs[..k]);
      WindowPut(Stored(b, Slot(|b|, from + n), xs[..k]).0, from, n + k, xs[k]);
      NextSlot(|b|, from + n + k);
      assert xs == xs[..k] + [xs[k]];
    }
  }

  /** The copy loop of a batch push, behind a window of n items. */
  method CopyIn<T>(b: array<T>, items: seq<T>, tail: nat, ghost from: nat, ghost n: nat) returns (at: nat)
    requires b.Length > 0 && n + |items| <= b.Length && tail == Slot(b.Length, from + n)
    modifies b
    ensures at == Slot(b.Length, from + n + |items|)
    ensures Window(b[..], from, n + |items|) == old(Window(b[..], from, n)) + items
    ensures (b[..], at) == Stored(old(b[..]), tail, items)
  {
    at := tail;
    for i := 0 to |items|
      invariant (b[..], at) == Stored(old(b[..]), tail, items[..i])
    {
      b[at] := items[i];
      at := Next(b.Length, at);
      assert items[..i + 1][..i] == items[..i];
    }
    assert items[..|items|] == items;
    StoredWindow(old(b[..]), from, n, items);
  }

  /** The copy loop of a batch pop, from the front of a window of n items. */
  method CopyOut<T>(b: array<T>, count: nat, head: nat, ghost from: nat, ghost n: nat)
    returns (out: seq<T>, at: nat)
    requires b.Length > 0 && count <= n && head == Slot(b.Length, from)
    ensures |out| == count && at == Slot(b.Length, from + count)
    ensures out + Window(b[..], from + count, n - count) == Window(b[..], from, n)
    ensures (out, at) == Gathered(b[..], head, count)
  {
    out, at := [], head;
    for i := 0 to count
      invariant at == Slot(b.Length, from + i)
      invariant out == Window(b[..], from, i)
      invariant (out, at) == Gathered(b[..], head, i)
    {
      NextSlot(b.Length, from + i);
      out, at := out + [b[at]], Next(b.Length, at);
    }
    WindowSplit(b[..], from, count, n);
  }

  class SpscQueue<T> {
    const buffer: array<T>
    var head: nat
    var tail: nat
    var headCache: nat
    var tailCache: nat
    var closed: bool

    /** Counters behind the four indices. */
    ghost var h: nat
    ghost var t: nat
    ghost var hc: nat
    ghost var tc: nat

    /** HC <= H <= TC <= T <= HC + capacity. */
    ghost predicate Valid()
      reads this
    {
      && buffer.Length > 1
      && hc <= h <= tc <= t < hc + buffer.Length
      && head == Slot(buffer.Length, h) && tail == Slot(buffer.Length, t)
      && headCache == Slot(buffer.Length, hc) && tailCache == Slot(buffer.Length, tc)
    }

    ghost function Contents(): (q: seq<T>)
      requires Valid()
      reads this, buffer
      ensures |q| == t - h < buffer.Length
    {
      Window(buffer[..], h, t - h)
    }

    ghost function Members(): (q: Image<T>)
      requires Valid()
      reads this, buffer
      ensures Proper(q)
    {
      Image(buffer[..], head, tail, headCache, tailCache, closed)
    }

    constructor (slots: nat, blank: T)
      requires slots > 1
      ensures Valid() && fresh(buffer) && buffer.Length == slots && Contents() == [] && !closed
      ensures Members() == Image(seq(slots, i => blank), 0, 0, 0, 0, false)
    {
      buffer := new T[slots](_ => blank);
      head, tail, headCache, tailCache, closed := 0, 0, 0, 0, false;
      h, t, hc, tc := 0, 0, 0, 0;
    }

    /** The room the cached head index licenses, and after a refresh the real room. */
    method HasRoom(slotAfter: nat) returns (room: bool)
      requires Valid() && slotAfter == Next(buffer.Length, tail)
      modifies this`headCache, this`hc
      ensures Valid()
      ensures room <==> |Contents()| < buffer.Length - 1
      ensures room <==> t + 1 < hc + buffer.Length
      ensures hc == if old(t + 1 < hc + buffer.Length) then old(hc) else h
      ensures headCache == HeadSeen(PMode.TryPush, 1, buffer.Length, old(headCache), head, tail)
      ensures room <==> Space(PMode.TryPush, 1, buffer.Length, headCache, tail) == 1
    {
      RoomTest(buffer.Length, hc, t);
      if slotAfter != headCache {
        return true;
      }
      headCache, hc := head, h;
      RoomTest(buffer.Length, hc, t);
      room := slotAfter != headCache;
    }

    method HasData(at: nat) returns (data: bool)
      requires Valid() && at == head
      modifies this`tailCache, this`tc
      ensures Valid()
      ensures data <==> |Contents()| > 0
      ensures data <==> h < tc
      ensures tc == if old(h < tc) then old(tc) else t
      ensures tailCache == TailSeen(CMode.TryPop, 1, buffer.Length, old(tailCache), head, tail)
      ensures data <==> Items(CMode.TryPop, 1, buffer.Length, tailCache, head) == 1
    {
      DataTest(buffer.Length, h, tc);
      if at != tailCache {
        return true;
      }
      tailCache, tc := tail, t;
      DataTest(buffer.Length, h, tc);
      data := at != tailCache;
    }

    /** Writes the slot behind the newest item and publishes it. */
    method Enqueue(at: nat, value: T)
      requires Valid() && at == tail && t + 1 < hc + buffer.Length
      modifies this`tail, this`t, buffer
      ensures Valid() && Contents() == old(Contents()) + [value]
      ensures Members() == old(Members()).(buffer := old(buffer[..])[old(tail) := value], tail := Next(buffer.Length, old(tail)))
    {
      WindowPut(buffer[..], h, t - h, value);
      NextSlot(buffer.Length, t);
      buffer[at] := value;
      tail, t := Next(buffer.Length, at), t + 1;
    }

    method Dequeue(at: nat) returns (value: T)
      requires Valid() && at == head && h < tc
      modifies this`head, this`h
      ensures Valid() && [value] + Contents() == old(Contents())
      ensures value == buffer[old(head)] && Members() == old(Members()).(head := Next(buffer.Length, old(head)))
    {
      WindowTake(buffer[..], h, t - h);
      NextSlot(buffer.Length, h);
      value := buffer[at];
      head, h := Next(buffer.Length, at), h + 1;
    }

    method TryPush(value: T) returns (ok: bool)
      requires Valid()
      modifies this`tail, this`t, this`headCache, this`hc, buffer
      ensures Valid()
      ensures ok <==> !closed && |old(Contents())| < buffer.Length - 1
      ensures Contents() == if ok then old(Contents()) + [value] else old(Contents())
      ensures Members() == Pushed(old(Members()), PMode.TryPush, [value])
    {
      if closed {
        return false;
      }
      StoredOne(buffer[..], tail, value);
      ok := HasRoom(Next(buffer.Length, tail));
      if ok {
        Enqueue(tail, value);
      }
    }

    method TryPop() returns (out: Option<T>)
      requires Valid()
      modifies this`head, this`h, this`tailCache, this`tc
      ensures Valid()
      ensures out.None? <==> old(Contents()) == []
      ensures out.Some? ==> [out.value] + Contents() == old(Contents())
      ensures out.None? ==> Contents() == old(Contents())
      ensures (Members(), if out.Some? then [out.value] else []) == Popped(old(Members()), CMode.TryPop, 1)
    {
      GatheredOne(buffer[..], head);
      var data := HasData(head);
      if !data {
        return None;
      }
      var value := Dequeue(head);
      out := Some(value);
    }

    /** Free slots through the cache, refreshed once if it says none. */
    method RoomFor(wanted: nat) returns (count: nat)
      requires Valid()
      modifies this`headCache, this`hc
      ensures Valid()
      ensures hc == if old(t + 1 < hc + buffer.Length) then old(hc) else h
      ensures count == Min(wanted, hc + buffer.Length - 1 - t)
      ensures wanted > 0 ==>
        headCache == HeadSeen(PushN, wanted, buffer.Length, old(headCache), head, tail)
        && count == Space(PushN, wanted, buffer.Length, headCache, tail)
      ensures count <= buffer.Length - 1 - |Contents()|
      ensures count == 0 <==> wanted == 0 || |Contents()| == buffer.Length - 1
    {
      FreeSlotsIs(buffer.Length, hc, t);
      if FreeSlots(buffer.Length, headCache, tail) == 0 {
        headCache, hc := head, h;
        FreeSlotsIs(buffer.Length, hc, t);
      }
      count := Min(wanted, FreeSlots(buffer.Length, headCache, tail));
    }

    method DataFor(wanted: nat) returns (count: nat)
      requires Valid()
      modifies this`tailCache, this`tc
      ensures Valid()
      ensures tc == if old(h < tc) then old(tc) else t
      ensures count == Min(wanted, tc - h)
      ensures wanted > 0 ==>
        tailCache == TailSeen(PopN, wanted, buffer.Length, old(tailCache), head, tail)
        && count == Items(PopN, wanted, buffer.Length, tailCache, head)
      ensures count <= |Contents()|
      ensures count == 0 <==> wanted == 0 || Contents() == []
    {
      AvailableIs(buffer.Length, h, tc);
      if Available(buffer.Length, tailCache, head) == 0 {
        tailCache, tc := tail, t;
        AvailableIs(buffer.Length, h, tc);
      }
      count := Min(wanted, Available(buffer.Length, tailCache, head));
    }

    /** The copy loop and the one publish of a batch. */
    method PutBatch(items: seq<T>)
      requires Valid() && t + |items| < hc + buffer.Length
      modifies this`tail, this`t, buffer
      ensures Valid() && t == old(t) + |items| && Contents() == old(Contents()) + items
      ensures var r := Stored(old(buffer[..]), old(tail), items);
        Members() == old(Members()).(buffer := r.0, tail := r.1)
    {
      var at := CopyIn(buffer, items, tail, h, t - h);
      tail, t := at, t + |items|;
    }

    method TakeBatch(count: nat) returns (out: seq<T>)
      requires Valid() && h + count <= tc
      modifies this`head, this`h
      ensures Valid() && |out| == count && out + Contents() == old(Contents())
      ensures var r := Gathered(buffer[..], old(head), count);
        out == r.0 && Members() == old(Members()).(head := r.1)
    {
      var at;
      out, at := CopyOut(buffer, count, head, h, t - h);
      head, h := at, h + count;
    }

    /** A batch: the first k items arrive in order, the rest is refused; none is
        accepted only when there is nothing to push, the queue is closed or it is
        truly full. */
    method TryPushN(items: seq<T>) returns (k: nat)
      requires Valid()
      modifies this`tail, this`t, this`headCache, this`hc, buffer
      ensures Valid()
      ensures k <= |items| && Contents() == old(Contents()) + items[..k]
      ensures k == 0 <==> items == [] || closed || |old(Contents())| == buffer.Length - 1
      ensures k > 0 ==> k == Min(|items|, hc + buffer.Length - 1 - old(t))
      ensures Members() == Pushed(old(Members()), PushN, items)
    {
      if items == [] || closed {
        return 0;
      }
      k := RoomFor(|items|);
      if k != 0 {
        PutBatch(items[..k]);
      }
    }

    /** The mirror: up to `wanted` items leave in order. */
    method TryPopN(wanted: nat) returns (out: seq<T>)
      requires Valid()
      modifies this`head, this`h, this`tailCache, this`tc
      ensures Valid()
      ensures |out| <= wanted && out + Contents() == old(Contents())
      ensures out == [] <==> wanted == 0 || old(Contents()) == []
      ensures out != [] ==> |out| == Min(wanted, tc - old(h))
      ensures (Members(), out) == Popped(old(Members()), PopN, wanted)
    {
      if wanted == 0 {
        return [];
      }
      var count := DataFor(wanted);
      if count == 0 {
        return [];
      }
      out := TakeBatch(count);
    }

    method Close()
      requires Valid()
      modifies this`closed
      ensures Valid() && closed && Contents() == old(Contents())
    {
      closed := true;
    }

    method Size() returns (n: nat)
      requires Valid()
      ensures n == |Contents()|
    {
      AvailableIs(buffer.Length, h, t);
      n := Available(buffer.Length, tail, head);
    }
  }

  /** One try_push per item; with room for all, every call succeeds. */
  method PushEach<T>(b: SpscQueue<T>, items: seq<T>)
    requires b.Valid() && !b.closed && |b.Contents()| + |items| < b.buffer.Length
    modifies b, b.buffer
    ensures b.Valid() && b.Contents() == old(b.Contents()) + items
  {
    for i := 0 to |items|
      invariant b.Valid() && !b.closed && b.Contents() == old(b.Contents()) + items[..i]
    {
      var ok := b.TryPush(items[i]);
      assert ok && items[..i + 1] == items[..i] + [items[i]];
    }
    assert items[..|items|] == items;
  }

  /** One try_pop per item; with that many items, every call succeeds. */
  method PopEach<T>(b: SpscQueue<T>, count: nat) returns (out: seq<T>)
    requires b.Valid() && count <= |b.Contents()|
    modifies b
    ensures b.Valid() && out == old(b.Contents())[..count] && b.Contents() == old(b.Contents())[count..]
  {
    out := [];
    ghost var before := b.Contents();
    for i := 0 to count
      invariant b.Valid() && out == before[..i] && b.Contents() == before[i..]
    {
      var item := b.TryPop();
      assert item == Some(before[i]) && before[i..][1..] == before[i + 1..];
      out := out + [item.value];
    }
  }

  /** Bulk against single calls on two queues with the same contents, capacity and flag:
      try_push_n accepts k items on the first, k calls of try_push with those items all
      succeed on the second, and the contents agree again. */
  method PushBothWays<T>(a: SpscQueue<T>, b: SpscQueue<T>, items: seq<T>) returns (k: nat)
    requires a.Valid() && b.Valid() && a != b && a.buffer != b.buffer
    requires a.buffer.Length == b.buffer.Length && a.closed == b.closed && a.Contents() == b.Contents()
    modifies a, b, a.buffer, b.buffer
    ensures a.Valid() && b.Valid() && k <= |items|
    ensures a.Contents() == b.Contents() == old(a.Contents()) + items[..k]
    ensures k == 0 <==> items == [] || old(a.closed) || |old(a.Contents())| == a.buffer.Length - 1
  {
    k := a.TryPushN(items);
    if k != 0 { PushEach(b, items[..k]); }
  }

  /** The mirror: try_pop_n returns exactly what as many calls of try_pop return. */
  method PopBothWays<T>(a: SpscQueue<T>, b: SpscQueue<T>, wanted: nat) returns (bulk: seq<T>, singles: seq<T>)
    requires a.Valid() && b.Valid() && a != b && a.Contents() == b.Contents()
    modifies a, b
    ensures a.Valid() && b.Valid() && bulk == singles && a.Contents() == b.Contents()
    ensures bulk + a.Contents() == old(a.Contents())
    ensures bulk == [] <==> wanted == 0 || old(a.Contents()) == []
  {
    bulk := a.TryPopN(wanted);
    singles := PopEach(b, |bulk|);
  }

  /** SpscQueue(capacity), with the exceptions of ring_slots. */
  method Make<T>(capacity: nat, blank: T) returns (r: Result<SpscQueue<T>>)
    requires capacity < W64
    ensures r.InvalidArgument? <==> capacity == 0
    ensures r.LengthError? <==> capacity == W64 - 1
    ensures r.Success? ==> fresh(r.value) && fresh(r.value.buffer) && r.value.Valid() && !r.value.closed
    ensures r.Success? ==> r.value.buffer.Length == capacity + 1 && r.value.Contents() == []
  {
    match RingSlots(capacity)
    case InvalidArgument => r := InvalidArgument;
    case LengthError => r := LengthError;
    case Success(slots) =>
      var queue := new SpscQueue(slots, blank);
      r := Success(queue);
  }
}
