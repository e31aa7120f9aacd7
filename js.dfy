/** Values as the JavaScript source receives them, before it validates them. */
module Js {

  datatype Option<+T> = None | Some(value: T)

  /** A JavaScript value as far as a `typeof v === "number"` test can tell:
      a number, or anything else (undefined, null, a string, an object). */
  datatype Value = Number(n: real) | NonNumber

  /** `typeof v === "number" ? v : default` */
  function OrDefault(v: Value, default: real): (r: real)
    ensures v.Number? ==> r == v.n
    ensures v.NonNumber? ==> r == default
  {
    match v
    case Number(n) => n
    case NonNumber => default
  }

  /** `min(a, b)` and `max(a, b)` on numbers */
  function Min(a: real, b: real): real { if a <= b then a else b }
  function Max(a: real, b: real): real { if a >= b then a else b }

  /** `Math.max(lo, Math.min(hi, x))` */
  function Clamp(lo: real, hi: real, x: real): (r: real)
    requires lo <= hi
    ensures lo <= r <= hi
    ensures lo <= x <= hi ==> r == x
    ensures x < lo ==> r == lo
    ensures x > hi ==> r == hi
  {
    Max(lo, Min(hi, x))
  }

  /** `s.slice(0, n)` for n >= 0: the first n elements, or all of them when there are fewer. */
  function Prefix<T>(s: seq<T>, n: nat): (r: seq<T>)
    ensures |r| == if |s| < n then |s| else n
    ensures r <= s
  {
    if |s| < n then s else s[..n]
  }
}
