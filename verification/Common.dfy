/** Shared vocabulary of the models. */
module Common {
  datatype Option<+V> = None | Some(value: V)

  function Max(a: nat, b: nat): nat { if a < b then b else a }
  function Min(a: nat, b: nat): nat { if a < b then a else b }

  function Last<V>(s: seq<V>): V
    requires |s| > 0
  {
    s[|s| - 1]
  }

  /** k steps of f from s. */
  function Iter<S>(f: S -> S, s: S, k: nat): S
    decreases k
  {
    if k == 0 then s else Iter(f, f(s), k - 1)
  }
}
