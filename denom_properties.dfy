/**
 * Properties of the denomination registry that relate several of its
 * operations: identity and round-trip conversions, agreement between the
 * integer and decimal paths, idempotent normalization, and the worked
 * examples of a whole unit and its micro unit.
 */
module DenomProperties {
  import opened Wrappers
  import opened Coins
  import opened Denom

  /** Converting a coin of a valid registered denomination to that same denomination is the identity. */
  lemma ConvertCoinIdentity(t: DenomRegistry, c: Coin)
    requires t.UnitsPositive()
    requires t.validDenom(c.denom) && c.denom in t.denomUnits
    ensures t.ConvertCoin(c, c.denom) == Ok(c)
  {
  }

  /** The decimal conversion of a coin to its own valid registered denomination is the identity. */
  lemma ConvertDecCoinIdentity(t: DenomRegistry, c: DecCoin)
    requires t.UnitsPositive()
    requires t.validDenom(c.denom) && c.denom in t.denomUnits
    ensures t.ConvertDecCoin(c, c.denom) == Ok(c)
  {
  }

  /**
   * With exact decimals, decimal conversion loses nothing: converting to a registered denomination
   * and back gives the original coin.
   */
  lemma ConvertDecCoinRoundTrip(t: DenomRegistry, c: DecCoin, d: string)
    requires t.UnitsPositive()
    requires t.ConvertDecCoin(c, d).Ok?
    ensures t.ConvertDecCoin(t.ConvertDecCoin(c, d).value, c.denom) == Ok(c)
  {
  }

  /**
   * The integer conversion fails exactly when the decimal one fails, with the
   * same error, and otherwise is the truncation of the exact decimal result.
   */
  lemma ConvertCoinIsTruncatedConvertDecCoin(t: DenomRegistry, c: Coin, d: string)
    requires t.UnitsPositive()
    ensures t.ConvertCoin(c, d).Err? <==> t.ConvertDecCoin(ToDecCoin(c), d).Err?
    ensures t.ConvertCoin(c, d).Err? ==> t.ConvertCoin(c, d).error == t.ConvertDecCoin(ToDecCoin(c), d).error
    ensures t.ConvertCoin(c, d).Ok? ==>
              t.ConvertCoin(c, d).value == TruncateDecimal(t.ConvertDecCoin(ToDecCoin(c), d).value).0
  {
  }

  /** Normalizing an integer coin agrees with truncating the normalization of the same amount as a decimal coin. */
  lemma NormalizeCoinIsTruncatedNormalizeDecCoin(t: DenomRegistry, c: Coin)
    requires t.UnitsPositive()
    ensures t.NormalizeCoin(c) == TruncateDecimal(t.NormalizeDecCoin(ToDecCoin(c))).0
  {
  }

  /**
   * In a registry whose bases are closed, normalization is idempotent: a coin
   * already in its base denomination is left as it is.
   */
  lemma NormalizeDecCoinIdempotent(t: DenomRegistry, c: DecCoin)
    requires t.Valid()
    ensures t.NormalizeDecCoin(t.NormalizeDecCoin(c)) == t.NormalizeDecCoin(c)
  {
  }

  /** The same idempotence for integer coins. */
  lemma NormalizeCoinIdempotent(t: DenomRegistry, c: Coin)
    requires t.Valid()
    ensures t.NormalizeCoin(t.NormalizeCoin(c)) == t.NormalizeCoin(c)
  {
  }

  /**
   * A base denomination is not validated at registration; when it fails the
   * validator, every coin linked to it normalizes to itself.
   */
  lemma InvalidBaseFallsBack(t: DenomRegistry, c: Coin)
    requires t.UnitsPositive()
    requires c.denom in t.baseDenom && !t.validDenom(t.baseDenom[c.denom])
    ensures t.NormalizeCoin(c) == c
  {
  }

  /**
   * GetDenomUnit cannot tell an invalid name from an unregistered one: an
   * invalid name reports no multiplier even when the map holds one for it.
   */
  lemma GetDenomUnitConflatesInvalid(t: DenomRegistry, d: string)
    requires !t.validDenom(d)
    ensures t.GetDenomUnit(d) == (0.0, false)
  {
  }

  /** A registry holding one whole unit and its micro unit, `1atom == 10^6 uatom`. */
  ghost predicate AtomRegistry(t: DenomRegistry)
    reads t
  {
    && t.validDenom("atom") && t.validDenom("uatom")
    && t.denomUnits == map["atom" := 1.0, "uatom" := 0.000001]
    && t.baseDenom == map["atom" := "uatom", "uatom" := "uatom"]
  }

  /** One atom converts to one million uatom. */
  lemma AtomToMicroAtom(t: DenomRegistry)
    requires AtomRegistry(t)
    ensures t.ConvertCoin(Coin("atom", 1), "uatom") == Ok(Coin("uatom", 1000000))
  {
  }

  /** Parsing "1atom" and normalizing gives one million uatom. */
  lemma ParseAtomNormalized(t: DenomRegistry, parse: string -> Result<DecCoin, Error>)
    requires AtomRegistry(t)
    requires parse("1atom") == Ok(DecCoin("atom", 1.0))
    ensures t.UnitsPositive()
    ensures t.ParseCoinNormalized(parse, "1atom") == Ok(Coin("uatom", 1000000))
  {
  }

  /** Conversion truncates toward zero: at a 1:3 ratio, two small units yield zero large units of the larger denomination. */
  lemma ConvertTruncatesOneThird(t: DenomRegistry, small: string, large: string)
    requires t.validDenom(small) && t.validDenom(large) && small != large
    requires t.denomUnits == map[small := 1.0, large := 3.0]
    ensures t.UnitsPositive()
    ensures t.ConvertCoin(Coin(small, 2), large) == Ok(Coin(large, 0))
  {
  }

  /** A whole run against a fresh registry: registration, a duplicate, conversion, normalization and parsing. */
  method AtomScenario(valid: string -> bool, parse: string -> Result<Option<seq<DecCoin>>, Error>)
    requires valid("atom") && valid("uatom")
    requires parse("1atom,2uatom") == Ok(Some([DecCoin("atom", 1.0), DecCoin("uatom", 2.0)]))
  {
    var t := new DenomRegistry(valid);
    var err := t.RegisterDenom("atom", 1.0, "uatom", 0.000001);
    assert err == None && AtomRegistry(t);
    err := t.RegisterDenom("atom", 2.0, "uatom", 0.000001);
    assert err == Some(AlreadyRegistered("atom")) && AtomRegistry(t);
    AtomToMicroAtom(t);
    assert t.NormalizeCoin(Coin("stake", 5)) == Coin("stake", 5);
    var coins := t.ParseCoinsNormalized(parse, "1atom,2uatom");
    assert coins.Ok? && coins.value.Some? && |coins.value.value| == 2;
    NormalizeAtomExamples(t);
    assert coins.value.value == [Coin("uatom", 1000000), Coin("uatom", 2)];
  }

  /** In the atom registry, 1 atom and 2 uatom normalize and truncate to 1000000 uatom and 2 uatom. */
  lemma NormalizeAtomExamples(t: DenomRegistry)
    requires AtomRegistry(t)
    ensures t.UnitsPositive()
    ensures TruncateDecimal(t.NormalizeDecCoin(DecCoin("atom", 1.0))).0 == Coin("uatom", 1000000)
    ensures TruncateDecimal(t.NormalizeDecCoin(DecCoin("uatom", 2.0))).0 == Coin("uatom", 2)
  {
  }
}
