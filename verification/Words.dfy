/** Machine arithmetic used by the ring queues: 64-bit wrap-around, the signed
    reading of an unsigned difference, bit masks, and congruence modulo a ring
    size. */
module Words {

  const W64: nat := 0x1_0000_0000_0000_0000
  const HALF64: nat := 0x8000_0000_0000_0000

  /** Unbounded tickets, or `std::size_t` tickets of 64 bits. */
  datatype Word = Unbounded | Word64

  function Wrap(w: Word, x: nat): nat {
    if w.Word64? then x % W64 else x
  }

  lemma WrapSmall(w: Word, x: nat)
    requires w.Word64? ==> x < W64
    ensures Wrap(w, x) == x
  {
  }

  /** static_cast<std::ptrdiff_t>(a - b) */
  function SignedDif(w: Word, a: nat, b: nat): int {
    if w.Unbounded? then a - b
    else
      var u := (a - b) % W64;
      if u < HALF64 then u else u - W64
  }

  /** Below 2^64 the signed difference is zero exactly for equal operands; below
      2^63 it is the true difference. */
  lemma SignedDifFaithful(w: Word, a: nat, b: nat)
    requires a < W64 && b < W64
    ensures SignedDif(w, a, b) == 0 <==> a == b
    ensures a < HALF64 && b < HALF64 ==> SignedDif(w, a, b) == a - b
  {
    if w.Word64? && a < b {
      assert (a - b) % W64 == a - b + W64;
    }
  }

  // ---------------------------------------------------------------- congruence

  lemma MultipleOf(n: int, q: int)
    requires n > 0
    ensures q > 0 ==> n * q >= n
    ensures q <= 0 ==> n * q <= 0
    ensures q < 0 ==> n * q <= -n
  {
  }

  lemma CongruentGap(t: nat, u: nat, n: nat)
    requires n > 0 && t % n == u % n && t < u
    ensures t + n <= u
  {
    var q := u / n - t / n;
    assert u - t == n * q by {
      assert u == n * (u / n) + u % n;
      assert t == n * (t / n) + t % n;
    }
    MultipleOf(n, q);
  }

  lemma DivModUnique(x: nat, q: nat, r: nat, n: nat)
    requires n > 0 && x == n * q + r && r < n
    ensures x % n == r && x / n == q
  {
    var d := x / n - q;
    assert x == n * (x / n) + x % n;
    assert n * d == r - x % n;
    MultipleOf(n, d);
  }

  lemma ShiftMod(t: nat, n: nat)
    requires n > 0
    ensures (t + n) % n == t % n
  {
    assert t == n * (t / n) + t % n;
    assert t + n == n * (t / n + 1) + t % n;
    DivModUnique(t + n, t / n + 1, t % n, n);
  }

  /** The signed comparison survives wrap-around of both operands as long as the true
      difference fits a signed word. */
  lemma SignedDifAcrossWrap(a: nat, b: nat)
    requires b <= a + HALF64 && a < b + HALF64
    ensures SignedDif(Word64, Wrap(Word64, a), Wrap(Word64, b)) == a - b
  {
    assert a == W64 * (a / W64) + a % W64;
    assert b == W64 * (b / W64) + b % W64;
  }

  /** Slot indexing survives wrap-around of the ticket exactly for capacities that
      divide 2^64. */
  lemma IndexAcrossWrap(n: nat)
    requires n > 0
    ensures W64 % n == 0 <==> forall t: nat :: Wrap(Word64, t) % n == t % n
  {
    if W64 % n == 0 {
      var k := W64 / n;
      assert W64 == n * k;
      forall t: nat ensures Wrap(Word64, t) % n == t % n {
        var q, r := t / W64, t % W64;
        assert r == n * (r / n) + r % n;
        assert t == n * (k * q + r / n) + r % n;
        DivModUnique(t, k * q + r / n, r % n, n);
      }
    } else {
      assert Wrap(Word64, W64) == 0;
    }
  }

  /** x mod n, by repeated subtraction: keeps division out of the ring invariants. */
  function Slot(n: nat, x: nat): (i: nat)
    requires n > 0
    ensures i < n
    decreases x
  {
    if x < n then x else Slot(n, x - n)
  }

  lemma {:induction false} SlotIsMod(n: nat, x: nat)
    requires n > 0
    ensures Slot(n, x) == x % n
    decreases x
  {
    if x >= n {
      SlotIsMod(n, x - n);
      ShiftMod(x - n, n);
    }
  }

  // ------------------------------------------------------------------ bit masks

  function PopCount(n: nat): nat {
    if n == 0 then 0 else n % 2 + PopCount(n / 2)
  }

  /** std::has_single_bit */
  predicate HasSingleBit(n: nat) {
    PopCount(n) == 1
  }

  /** a & b, bit by bit. */
  function BitAnd(a: nat, b: nat): (r: nat)
    ensures r <= b
  {
    if a == 0 || b == 0 then 0
    else 2 * BitAnd(a / 2, b / 2) + (if a % 2 == 1 && b % 2 == 1 then 1 else 0)
  }

  lemma HalveMod(t: nat, m: nat)
    requires m > 0
    ensures t % (2 * m) == 2 * ((t / 2) % m) + t % 2
  {
    var h := t / 2;
    assert h == m * (h / m) + h % m;
    assert t == (2 * m) * (h / m) + (2 * (h % m) + t % 2);
    DivModUnique(t, h / m, 2 * (h % m) + t % 2, 2 * m);
  }

  lemma {:induction false} NoBits(n: nat)
    requires PopCount(n) == 0
    ensures n == 0
  {
    if n != 0 { NoBits(n / 2); }
  }

  lemma {:induction false} MaskIsMod(t: nat, n: nat)
    requires HasSingleBit(n)
    ensures n > 0 && BitAnd(t, n - 1) == t % n
    decreases n
  {
    if n % 2 == 1 {
      NoBits(n / 2);
      assert n == 1;
    } else {
      var m := n / 2;
      MaskIsMod(t / 2, m);
      HalveMod(t, m);
      assert (n - 1) / 2 == m - 1 && (n - 1) % 2 == 1;
    }
  }

  /** mask_: capacity - 1 for a power of two, else 0. */
  function MaskOf(n: nat): nat
    requires n > 0
  {
    if HasSingleBit(n) then n - 1 else 0
  }

  /** MpmcQueue::slot_index, with the power-of-two fast path of the 64-bit code. */
  function SlotIndex(w: Word, n: nat, ticket: nat): (i: nat)
    requires n > 0
    ensures i < n
  {
    if w.Word64? && MaskOf(n) != 0 then BitAnd(ticket, MaskOf(n)) else ticket % n
  }

  lemma SlotIndexIsMod(w: Word, n: nat, ticket: nat)
    requires n > 0
    ensures SlotIndex(w, n, ticket) == ticket % n
  {
    if HasSingleBit(n) { MaskIsMod(ticket, n); }
  }

  /** N consecutive tickets occupy N distinct slots. */
  lemma SlotsDistinct(w: Word, n: nat, t: nat, u: nat)
    requires n > 0 && t < u < t + n
    ensures SlotIndex(w, n, t) != SlotIndex(w, n, u)
  {
    SlotIndexIsMod(w, n, t);
    SlotIndexIsMod(w, n, u);
    if t % n == u % n { CongruentGap(t, u, n); }
  }
}
