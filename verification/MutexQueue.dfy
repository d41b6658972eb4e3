/** MutexQueue's ring and critical sections, on the buffer they update in place. Each
    method is one section under the lock; MutexModel interleaves them. */
module MutexRing {
  import opened Common
  import opened Words
  import opened Rings
  import opened MutexModel

  /** What a section under the lock decides for a blocking or timed call. */
  datatype Outcome = Done | Refused | MustWait

  /** The monitor's abstract state describes a queue with these members. */
  ghost predicate Shows<T>(s: State<T>, capacity: nat, q: seq<T>, closed: bool) {
    s.cap == capacity && s.q == q && s.closed == closed
  }

  class MutexQueue<T> {
    const buffer: array<T>
    var head: nat
    var tail: nat
    var size: nat
    var closed: bool

    /** How many items have ever been dequeued: the counter behind `head`. */
    ghost var taken: nat

    ghost predicate Valid()
      reads this
    {
      && buffer.Length > 0
      && size <= buffer.Length
      && head == Slot(buffer.Length, taken)
      && tail == Slot(buffer.Length, taken + size)
    }

    ghost function Contents(): (q: seq<T>)
      requires Valid()
      reads this, buffer
      ensures |q| == size <= buffer.Length
    {
      Window(buffer[..], taken, size)
    }

    constructor (capacity: nat, blank: T)
      requires capacity > 0
      ensures Valid() && fresh(buffer) && buffer.Length == capacity && Contents() == [] && !closed
    {
      buffer := new T[capacity](_ => blank);
      head, tail, size, closed := 0, 0, 0, false;
      taken := 0;
    }

    predicate NotFullOrClosed()
      reads this
    {
      closed || size < buffer.Length
    }

    predicate NotEmptyOrClosed()
      reads this
    {
      closed || size > 0
    }

    method EnqueueLocked(value: T)
      requires Valid() && size < buffer.Length
      modifies this`tail, this`size, buffer
      ensures Valid() && Contents() == old(Contents()) + [value]
    {
      WindowPut(buffer[..], taken, size, value);
      NextSlot(buffer.Length, taken + size);
      buffer[tail] := value;
      tail := Next(buffer.Length, tail);
      size := size + 1;
    }

    method DequeueLocked() returns (out: T)
      requires Valid() && size > 0
      modifies this`head, this`size, this`taken
      ensures Valid() && [out] + Contents() == old(Contents())
    {
      WindowTake(buffer[..], taken, size);
      NextSlot(buffer.Length, taken);
      out := buffer[head];
      head, taken := Next(buffer.Length, head), taken + 1;
      size := size - 1;
    }

    method TryPush(value: T) returns (ok: bool)
      requires Valid()
      modifies this`tail, this`size, buffer
      ensures Valid()
      ensures ok <==> !closed && |old(Contents())| < buffer.Length
      ensures Contents() == if ok then old(Contents()) + [value] else old(Contents())
      ensures forall s: State<T>, p: nat ::
        p < |s.threads| && s.threads[p].item == value && s.threads[p].wait.Never?
        && Shows(s, buffer.Length, old(Contents()), old(closed)) ==>
        && Shows(PushSection(s, p), buffer.Length, Contents(), closed)
        && PushSection(s, p).threads[p].pc == if ok then NotifyEmpty else Idle
    {
      if closed || size == buffer.Length {
        return false;
      }
      EnqueueLocked(value);
      ok := true;
    }

    method TryPop() returns (out: Option<T>)
      requires Valid()
      modifies this`head, this`size, this`taken
      ensures Valid()
      ensures out.None? <==> old(Contents()) == []
      ensures out.Some? ==> [out.value] + Contents() == old(Contents())
      ensures out.None? ==> Contents() == old(Contents())
      ensures forall s: State<T>, p: nat ::
        p < |s.threads| && s.threads[p].wait.Never? && Shows(s, buffer.Length, old(Contents()), old(closed)) ==>
        && Shows(PopSection(s, p), buffer.Length, Contents(), closed)
        && PopSection(s, p).threads[p].pc == (if out.Some? then NotifyFull else Idle)
        && (out.Some? ==> out.value == PopSection(s, p).threads[p].item)
    {
      if size == 0 {
        return None;
      }
      var value := DequeueLocked();
      out := Some(value);
    }

    /** push and try_push_for under the lock, up to the wait: a closed queue refuses
        even when there is room, and only a full open one waits. */
    method PushLocked(value: T) returns (outcome: Outcome)
      requires Valid()
      modifies this`tail, this`size, buffer
      ensures Valid()
      ensures outcome.Refused? <==> closed
      ensures outcome.MustWait? <==> !closed && |old(Contents())| == buffer.Length
      ensures Contents() == if outcome.Done? then old(Contents()) + [value] else old(Contents())
      ensures forall s: State<T>, p: nat ::
        p < |s.threads| && s.threads[p].item == value && Shows(s, buffer.Length, old(Contents()), old(closed)) ==>
        && Shows(PushSection(s, p), buffer.Length, Contents(), closed)
        && (outcome.Done? <==> PushSection(s, p).threads[p].pc.NotifyEmpty?)
        && (outcome.Refused? ==> PushSection(s, p).threads[p].pc.Idle?)
        && (outcome.MustWait? ==>
              PushSection(s, p).threads[p].pc
              == if s.threads[p].wait.Never? || s.threads[p].expired then Idle else PushAsleep)
    {
      if !NotFullOrClosed() {
        return MustWait;
      }
      if closed {
        return Refused;
      }
      EnqueueLocked(value);
      outcome := Done;
    }

    /** pop and try_pop_for under the lock, up to the wait: a closed queue still hands
        out its items, and refuses only when drained. */
    method PopLocked() returns (outcome: Outcome, out: Option<T>)
      requires Valid()
      modifies this`head, this`size, this`taken
      ensures Valid()
      ensures outcome.Done? <==> old(Contents()) != []
      ensures outcome.Refused? <==> old(Contents()) == [] && closed
      ensures outcome.Done? <==> out.Some?
      ensures out.Some? ==> [out.value] + Contents() == old(Contents())
      ensures out.None? ==> Contents() == old(Contents())
      ensures forall s: State<T>, p: nat ::
        p < |s.threads| && Shows(s, buffer.Length, old(Contents()), old(closed)) ==>
        && Shows(PopSection(s, p), buffer.Length, Contents(), closed)
        && (outcome.Done? <==> PopSection(s, p).threads[p].pc.NotifyFull?)
        && (outcome.Done? ==> out == Some(PopSection(s, p).threads[p].item))
        && (outcome.Refused? ==> PopSection(s, p).threads[p].pc.Idle?)
        && (outcome.MustWait? ==>
              PopSection(s, p).threads[p].pc
              == if s.threads[p].wait.Never? || s.threads[p].expired then Idle else PopAsleep)
    {
      if !NotEmptyOrClosed() {
        return MustWait, None;
      }
      if size == 0 {
        return Refused, None;
      }
      var value := DequeueLocked();
      outcome, out := Done, Some(value);
    }

    /** The section of close(): only the first closer goes on to wake the sleepers. */
    method CloseLocked() returns (first: bool)
      requires Valid()
      modifies this`closed
      ensures Valid() && closed && Contents() == old(Contents())
      ensures first <==> !old(closed)
      ensures forall s: State<T>, p: nat ::
        p < |s.threads| && Shows(s, buffer.Length, old(Contents()), old(closed)) ==>
        && Shows(CloseSection(s, p), buffer.Length, Contents(), closed)
        && (first <==> CloseSection(s, p).threads[p].pc.CloseFull?)
    {
      first := !closed;
      closed := true;
    }
  }

  /** MutexQueue(capacity): a capacity of zero is an invalid argument. */
  method Make<T>(capacity: nat, blank: T) returns (r: Option<MutexQueue<T>>)
    ensures r.None? <==> capacity == 0
    ensures r.Some? ==> fresh(r.value) && fresh(r.value.buffer) && r.value.Valid() && !r.value.closed
    ensures r.Some? ==> r.value.buffer.Length == capacity && r.value.Contents() == []
  {
    if capacity == 0 {
      return None;
    }
    var queue := new MutexQueue(capacity, blank);
    r := Some(queue);
  }
}
