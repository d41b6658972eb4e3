/** Index arithmetic of a ring buffer and the items a window of it holds. */
module Rings {
  import opened Words

  function Next(ring: nat, index: nat): nat {
    if index + 1 == ring then 0 else index + 1
  }

  lemma {:induction false} NextSlot(ring: nat, x: nat)
    requires ring > 0
    ensures Next(ring, Slot(ring, x)) == Slot(ring, x + 1)
    decreases x
  {
    if x >= ring { NextSlot(ring, x - ring); }
  }

  lemma SameSlot(ring: nat, x: nat, y: nat)
    requires ring > 0 && x <= y < x + ring && Slot(ring, x) == Slot(ring, y)
    ensures x == y
  {
    SlotIsMod(ring, x);
    SlotIsMod(ring, y);
    if x < y { CongruentGap(x, y, ring); }
  }

  /** The items in slots from, from + 1, ..., from + n - 1, modulo the ring size. */
  function Window<T>(b: seq<T>, from: nat, n: nat): (q: seq<T>)
    requires |b| > 0
    ensures |q| == n
  {
    seq(n, i requires 0 <= i < n => b[Slot(|b|, from + i)])
  }

  /** Filling the slot behind a window that leaves room appends to it. */
  lemma WindowPut<T>(b: seq<T>, from: nat, n: nat, v: T)
    requires n < |b|
    ensures Window(b[Slot(|b|, from + n) := v], from, n + 1) == Window(b, from, n) + [v]
  {
    var b' := b[Slot(|b|, from + n) := v];
    forall i | 0 <= i < n ensures Window(b', from, n + 1)[i] == Window(b, from, n)[i] {
      if Slot(|b|, from + i) == Slot(|b|, from + n) { SameSlot(|b|, from + i, from + n); }
    }
  }

  /** Passing the first slot of a window removes its first item. */
  lemma WindowTake<T>(b: seq<T>, from: nat, n: nat)
    requires |b| > 0 && n > 0
    ensures Window(b, from, n) == [b[Slot(|b|, from)]] + Window(b, from + 1, n - 1)
  {
  }

  lemma WindowSplit<T>(b: seq<T>, from: nat, k: nat, n: nat)
    requires |b| > 0 && k <= n
    ensures Window(b, from, k) + Window(b, from + k, n - k) == Window(b, from, n)
  {
    assert forall i :: k <= i < n ==> Window(b, from + k, n - k)[i - k] == Window(b, from, n)[i];
  }
}
