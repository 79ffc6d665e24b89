/**
 * The library coin types the denomination logic works on.
 *
 * `Dec` is modelled as an exact `real`; an integer `Coin` carries a `nat`
 * amount and a `DecCoin` a non-negative decimal amount (the library constructors
 * refuse negative amounts).
 */
module Coins {

  type Dec = real

  /** A non-negative decimal amount. */
  type NonNegDec = r: Dec | r >= 0.0

  datatype Coin = Coin(denom: string, amount: nat)

  datatype DecCoin = DecCoin(denom: string, amount: NonNegDec)

  /** Truncation toward zero of a non-negative decimal: the largest integer not above it. */
  function Truncate(x: NonNegDec): (n: nat)
    ensures n as real <= x < n as real + 1.0
  {
    x.Floor
  }

  /** The integer amount as a decimal (`NewDecFromInt`), same denomination. */
  function ToDecCoin(c: Coin): (d: DecCoin)
    ensures d.denom == c.denom && d.amount == c.amount as real
    ensures Truncate(d.amount) == c.amount
  {
    DecCoin(c.denom, c.amount as real)
  }

  /**
   * Splits a decimal coin into its truncated integer coin and the fractional
   * change left over (`DecCoin.TruncateDecimal`).
   */
  function TruncateDecimal(c: DecCoin): (r: (Coin, DecCoin))
    ensures r.0.denom == c.denom && r.1.denom == c.denom
    ensures r.0.amount as real + r.1.amount == c.amount
    ensures r.1.amount < 1.0
  {
    var whole := Truncate(c.amount);
    (Coin(c.denom, whole), DecCoin(c.denom, c.amount - whole as real))
  }
}
