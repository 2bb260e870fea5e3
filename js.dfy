/** The few JavaScript value rules the adapter relies on: `undefined`,
    truthiness of numbers and strings, `a || b` defaults and `Math.round`.
    NaN is not modelled: every number here is a real. */
module Js {

  /** `undefined` (None) or a value. */
  datatype Option<+T> = None | Some(value: T)

  /** A JavaScript number property that may be `undefined`. */
  type Number = Option<real>

  /** `if (n)` on a number: `undefined` and 0 are falsy. */
  predicate Truthy(n: Number) {
    n.Some? && n.value != 0.0
  }

  /** `n || d` with a number default. */
  function Or(n: Number, d: real): real {
    if Truthy(n) then n.value else d
  }

  /** `a || b` where the default may itself be `undefined`. */
  function OrElse(a: Number, b: Number): Number {
    if Truthy(a) then a else b
  }

  /** `if (s)` on a string that may be `undefined`: the empty string is falsy. */
  predicate TruthyString(s: Option<string>) {
    s.Some? && s.value != ""
  }

  /** `Math.round`: the nearest integer, halves going up. */
  function Round(v: real): (r: int)
    ensures r as real - 0.5 <= v < r as real + 0.5
  {
    (v + 0.5).Floor
  }

  /** The bounds in Round's contract pin the integer down: it is Math.round's only candidate. */
  lemma RoundUnique(v: real, k: int)
    requires k as real - 0.5 <= v < k as real + 0.5
    ensures Round(v) == k
  {
    var r := Round(v);
    assert r as real - k as real < 1.0 && k as real - r as real < 1.0;
  }
}
