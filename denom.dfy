/**
 * The denomination registry of types/denom.go: the two package-level maps
 * `denomUnits` and `baseDenom`, registration into them, lookups, conversion
 * between registered denominations and normalization to the base denomination.
 */
module Denom {
  import opened Wrappers
  import opened Coins

  datatype Error =
    | InvalidDenom(denom: string)          // the denomination validator refused the name
    | AlreadyRegistered(denom: string)     // "denom %s already registered"
    | SourceNotRegistered(denom: string)   // "source denom not registered: %s"
    | DestNotRegistered(denom: string)     // "destination denom not registered: %s"
    | NoDenomRegistered                    // "no denom is registered"
    | ParseError(input: string)            // an error of the coin parser

  /**
   * The process-wide registry. `validDenom` is the library's denomination
   * validator, whose grammar lives outside this code, injected as a total predicate.
   */
  class DenomRegistry {
    const validDenom: string -> bool
    /** Denomination -> its multiplier on the shared reference scale. */
    var denomUnits: map<string, Dec>
    /** Denomination -> the denomination of its smallest registered unit. */
    var baseDenom: map<string, string>

    /** Every registered multiplier is positive, so every ratio of them is defined and positive. */
    ghost predicate UnitsPositive()
      reads this
    {
      forall d :: d in denomUnits ==> denomUnits[d] > 0.0
    }

    /**
     * Registration writes both maps on the same keys, and every base
     * denomination that a name links to is itself registered as its own base.
     */
    ghost predicate BasesClosed()
      reads this
    {
      && baseDenom.Keys == denomUnits.Keys
      && forall d :: d in baseDenom ==> baseDenom[d] in baseDenom && baseDenom[baseDenom[d]] == baseDenom[d]
    }

    ghost predicate Valid()
      reads this
    {
      UnitsPositive() && BasesClosed()
    }

    /** Both maps start out empty. */
    constructor (validDenom: string -> bool)
      ensures this.validDenom == validDenom
      ensures denomUnits == map[] && baseDenom == map[]
      ensures Valid()
    {
      this.validDenom := validDenom;
      denomUnits := map[];
      baseDenom := map[];
    }

    /**
     * Registers `denom` with multiplier `unit` and base `bDenom` with multiplier
     * `bUnit`. The name is validated first, then checked for an existing
     * multiplier; only `denom` is checked, so an existing multiplier of `bDenom`
     * is overwritten, and when `denom == bDenom` the base multiplier wins.
     * `None` is the nil error.
     */
    method RegisterDenom(denom: string, unit: Dec, bDenom: string, bUnit: Dec) returns (err: Option<Error>)
      modifies this
      ensures !validDenom(denom) ==> err == Some(InvalidDenom(denom))
      ensures validDenom(denom) && denom in old(denomUnits) ==> err == Some(AlreadyRegistered(denom))
      ensures err.None? <==> validDenom(denom) && denom !in old(denomUnits)
      ensures err.Some? ==> denomUnits == old(denomUnits) && baseDenom == old(baseDenom)
      ensures err.None? ==> denomUnits == old(denomUnits)[denom := unit][bDenom := bUnit]
      ensures err.None? ==> baseDenom == old(baseDenom)[denom := bDenom][bDenom := bDenom]
      ensures old(BasesClosed()) ==> BasesClosed()
      ensures old(UnitsPositive()) && unit > 0.0 && bUnit > 0.0 ==> UnitsPositive()
    {
      if !validDenom(denom) {
        return Some(InvalidDenom(denom));
      }
      if denom in denomUnits {
        return Some(AlreadyRegistered(denom));
      }
      ghost var oldBases := baseDenom;
      denomUnits := denomUnits[denom := unit];
      denomUnits := denomUnits[bDenom := bUnit];
      baseDenom := baseDenom[denom := bDenom];
      baseDenom := baseDenom[bDenom := bDenom];
      if old(BasesClosed()) {
        RegisterKeepsBasesClosed(oldBases, denom, bDenom);
      }
      return None;
    }

    /**
     * GetDenomUnit: the multiplier of `d` with `true` exactly when `d` is a
     * valid name that has a multiplier; otherwise zero with `false`.
     */
    function GetDenomUnit(d: string): (r: (Dec, bool))
      reads this
      ensures r.1 <==> validDenom(d) && d in denomUnits
      ensures r.1 ==> r.0 == denomUnits[d]
      ensures !r.1 ==> r.0 == 0.0
    {
      if !validDenom(d) then (0.0, false)
      else if d !in denomUnits then (0.0, false)
      else (denomUnits[d], true)
    }

    /**
     * GetBaseDenom: a missing entry reads as "" in Go, so the lookup fails
     * exactly when there is no entry or the entry is the empty string.
     */
    function GetBaseDenom(d: string): (r: Result<string, Error>)
      reads this
      ensures r.Err? <==> d !in baseDenom || baseDenom[d] == ""
      ensures r.Err? ==> r.error == NoDenomRegistered
      ensures r.Ok? ==> r.value == baseDenom[d] && r.value != ""
    {
      var b := if d in baseDenom then baseDenom[d] else "";
      if b == "" then Err(NoDenomRegistered) else Ok(b)
    }

    /**
     * ConvertCoin: errors come in the order invalid target, unregistered
     * source, unregistered destination. On success the target denomination
     * keeps the whole reference-scale value, truncated to whole units of the
     * target; equal multipliers relabel the amount unchanged.
     */
    function ConvertCoin(coin: Coin, denom: string): (r: Result<Coin, Error>)
      reads this
      requires UnitsPositive()
      ensures !validDenom(denom) ==> r == Err(InvalidDenom(denom))
      ensures validDenom(denom) && !GetDenomUnit(coin.denom).1 ==> r == Err(SourceNotRegistered(coin.denom))
      ensures validDenom(denom) && GetDenomUnit(coin.denom).1 && !GetDenomUnit(denom).1 ==> r == Err(DestNotRegistered(denom))
      ensures r.Ok? <==> validDenom(denom) && GetDenomUnit(coin.denom).1 && GetDenomUnit(denom).1
      ensures r.Ok? ==> r.value.denom == denom
      ensures r.Ok? ==> var src, dst := denomUnits[coin.denom], denomUnits[denom];
                        && r.value.amount as real * dst <= coin.amount as real * src
                        && coin.amount as real * src < (r.value.amount + 1) as real * dst
      ensures r.Ok? && denomUnits[coin.denom] == denomUnits[denom] ==> r.value == Coin(denom, coin.amount)
    {
      if !validDenom(denom) then Err(InvalidDenom(denom))
      else
        var (srcUnit, srcOk) := GetDenomUnit(coin.denom);
        if !srcOk then Err(SourceNotRegistered(coin.denom))
        else
          var (dstUnit, dstOk) := GetDenomUnit(denom);
          if !dstOk then Err(DestNotRegistered(denom))
          else if srcUnit == dstUnit then Ok(Coin(denom, coin.amount))
          else
            Ok(Coin(denom, TruncatedRatio(coin.amount, srcUnit, dstUnit)))
    }

    /**
     * ConvertDecCoin: the same lookups and error order as ConvertCoin, but the
     * amount is not truncated, so the reference-scale value is kept exactly.
     */
    function ConvertDecCoin(coin: DecCoin, denom: string): (r: Result<DecCoin, Error>)
      reads this
      requires UnitsPositive()
      ensures !validDenom(denom) ==> r == Err(InvalidDenom(denom))
      ensures validDenom(denom) && !GetDenomUnit(coin.denom).1 ==> r == Err(SourceNotRegistered(coin.denom))
      ensures validDenom(denom) && GetDenomUnit(coin.denom).1 && !GetDenomUnit(denom).1 ==> r == Err(DestNotRegistered(denom))
      ensures r.Ok? <==> validDenom(denom) && GetDenomUnit(coin.denom).1 && GetDenomUnit(denom).1
      ensures r.Ok? ==> r.value.denom == denom
      ensures r.Ok? ==> r.value.amount * denomUnits[denom] == coin.amount * denomUnits[coin.denom]
      ensures r.Ok? && denomUnits[coin.denom] == denomUnits[denom] ==> r.value == DecCoin(denom, coin.amount)
    {
      if !validDenom(denom) then Err(InvalidDenom(denom))
      else
        var (srcUnit, srcOk) := GetDenomUnit(coin.denom);
        if !srcOk then Err(SourceNotRegistered(coin.denom))
        else
          var (dstUnit, dstOk) := GetDenomUnit(denom);
          if !dstOk then Err(DestNotRegistered(denom))
          else if srcUnit == dstUnit then Ok(DecCoin(denom, coin.amount))
          else Ok(DecCoin(denom, Ratio(coin.amount, srcUnit, dstUnit)))
    }

    /**
     * NormalizeCoin never fails: it is the conversion to the base denomination
     * when both the base lookup and that conversion succeed, and the input
     * coin otherwise.
     */
    function NormalizeCoin(coin: Coin): (r: Coin)
      reads this
      requires UnitsPositive()
      ensures GetBaseDenom(coin.denom).Err? ==> r == coin
      ensures GetBaseDenom(coin.denom).Ok? && ConvertCoin(coin, GetBaseDenom(coin.denom).value).Err? ==> r == coin
      ensures GetBaseDenom(coin.denom).Ok? && ConvertCoin(coin, GetBaseDenom(coin.denom).value).Ok? ==>
                r == ConvertCoin(coin, GetBaseDenom(coin.denom).value).value && r.denom == baseDenom[coin.denom]
    {
      match GetBaseDenom(coin.denom)
      case Err(_) => coin
      case Ok(base) =>
        match ConvertCoin(coin, base)
        case Err(_) => coin
        case Ok(c) => c
    }

    /** NormalizeDecCoin: the same fallback policy as NormalizeCoin, through ConvertDecCoin. */
    function NormalizeDecCoin(coin: DecCoin): (r: DecCoin)
      reads this
      requires UnitsPositive()
      ensures GetBaseDenom(coin.denom).Err? ==> r == coin
      ensures GetBaseDenom(coin.denom).Ok? && ConvertDecCoin(coin, GetBaseDenom(coin.denom).value).Err? ==> r == coin
      ensures GetBaseDenom(coin.denom).Ok? && ConvertDecCoin(coin, GetBaseDenom(coin.denom).value).Ok? ==>
                r == ConvertDecCoin(coin, GetBaseDenom(coin.denom).value).value && r.denom == baseDenom[coin.denom]
    {
      match GetBaseDenom(coin.denom)
      case Err(_) => coin
      case Ok(base) =>
        match ConvertDecCoin(coin, base)
        case Err(_) => coin
        case Ok(c) => c
    }

    /**
     * NormalizeCoins: a nil list stays nil; otherwise every element, in order,
     * is normalized and truncated to an integer coin, and nothing is merged.
     */
    method NormalizeCoins(coins: Option<seq<DecCoin>>) returns (r: Option<seq<Coin>>)
      requires UnitsPositive()
      ensures r.None? <==> coins.None?
      ensures coins.Some? ==> |r.value| == |coins.value|
      ensures coins.Some? ==> forall i :: 0 <= i < |coins.value| ==>
                r.value[i] == TruncateDecimal(NormalizeDecCoin(coins.value[i])).0
    {
      if coins.None? {
        return None;
      }
      var input := coins.value;
      var result: seq<Coin> := [];
      for i := 0 to |input|
        invariant |result| == i
        invariant forall k :: 0 <= k < i ==> result[k] == TruncateDecimal(NormalizeDecCoin(input[k])).0
      {
        var newCoin := TruncateDecimal(NormalizeDecCoin(input[i])).0;
        result := result + [newCoin];
      }
      return Some(result);
    }

    /**
     * ParseCoinNormalized: the parser's error is passed through; a parsed
     * decimal coin is normalized and then truncated to an integer coin.
     */
    function ParseCoinNormalized(parseDecCoin: string -> Result<DecCoin, Error>, s: string): (r: Result<Coin, Error>)
      reads this
      requires UnitsPositive()
      ensures parseDecCoin(s).Err? ==> r == Err(parseDecCoin(s).error)
      ensures parseDecCoin(s).Ok? ==> r.Ok? && r.value == TruncateDecimal(NormalizeDecCoin(parseDecCoin(s).value)).0
    {
      match parseDecCoin(s)
      case Err(e) => Err(e)
      case Ok(decCoin) => Ok(TruncateDecimal(NormalizeDecCoin(decCoin)).0)
    }

    /**
     * ParseCoinsNormalized: the parser's error is passed through; a parsed
     * list, possibly nil, goes through NormalizeCoins.
     */
    method ParseCoinsNormalized(parseDecCoins: string -> Result<Option<seq<DecCoin>>, Error>, s: string)
      returns (r: Result<Option<seq<Coin>>, Error>)
      requires UnitsPositive()
      ensures r.Err? <==> parseDecCoins(s).Err?
      ensures r.Err? ==> r.error == parseDecCoins(s).error
      ensures r.Ok? ==> (r.value.None? <==> parseDecCoins(s).value.None?)
      ensures r.Ok? && r.value.Some? ==> |r.value.value| == |parseDecCoins(s).value.value|
      ensures r.Ok? && r.value.Some? ==> forall i :: 0 <= i < |r.value.value| ==>
                r.value.value[i] == TruncateDecimal(NormalizeDecCoin(parseDecCoins(s).value.value[i])).0
    {
      var parsed := parseDecCoins(s);
      if parsed.Err? {
        return Err(parsed.error);
      }
      var coins := NormalizeCoins(parsed.value);
      return Ok(coins);
    }
  }

  /** `amount * src / dst`, the multiplier-ratio conversion, which stays non-negative. */
  function Ratio(amount: NonNegDec, src: Dec, dst: Dec): (q: NonNegDec)
    requires src > 0.0 && dst > 0.0
    ensures q * dst == amount * src
  {
    amount * src / dst
  }

  /**
   * `amount * src / dst` truncated toward zero: the largest number of `dst`
   * units whose reference value does not exceed that of `amount` `src` units.
   */
  function TruncatedRatio(amount: nat, src: Dec, dst: Dec): (n: nat)
    requires src > 0.0 && dst > 0.0
    ensures n as real * dst <= amount as real * src < (n + 1) as real * dst
  {
    var q := Ratio(amount as real, src, dst);
    var whole := Truncate(q);
    ScaleBounds(whole as real, q, (whole + 1) as real, dst);
    assert q * dst == amount as real * src;
    assert q * dst < (whole + 1) as real * dst;
    assert amount as real * src < (whole + 1) as real * dst;
    whole
  }

  /** Scaling by a positive multiplier keeps a value between the same bounds. */
  lemma ScaleBounds(lo: real, x: real, hi: real, k: real)
    requires lo <= x < hi && k > 0.0
    ensures lo * k <= x * k < hi * k
  {
  }

  /**
   * One registration step keeps every base denomination registered as its own
   * base: `denom` is fresh, so no entry linked to it, and `bDenom` becomes its own base.
   */
  lemma RegisterKeepsBasesClosed(bases: map<string, string>, denom: string, bDenom: string)
    requires forall d :: d in bases ==> bases[d] in bases && bases[bases[d]] == bases[d]
    requires denom !in bases
    ensures var nb := bases[denom := bDenom][bDenom := bDenom];
            forall d :: d in nb ==> nb[d] in nb && nb[nb[d]] == nb[d]
  {
  }
}
