/**
 * The success, error and hit rates the components report are all
 * `count / max(total, 1)`. They are kept as exact ratios here.
 */
module Stats {

  /** `max(n, 1)`: the denominator of every rate, so a fresh counter never divides by zero. */
  function AtLeastOne(n: nat): (r: nat)
    ensures r >= 1 && r >= n
    ensures n >= 1 ==> r == n
  {
    if n >= 1 then n else 1
  }

  /** The rate `num / den` with `den >= 1`. */
  datatype Ratio = Ratio(num: nat, den: nat)

  /** `part / max(total, 1)`. */
  function Rate(part: nat, total: nat): (r: Ratio)
    ensures r.den >= 1
    ensures part <= total ==> r.num <= r.den
    ensures total >= 1 ==> r == Ratio(part, total)
  {
    Ratio(part, AtLeastOne(total))
  }
}
