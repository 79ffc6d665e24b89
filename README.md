# Denomination registry and unit conversion

A Dafny model of the denomination registry in `types/denom.go`. The
registry is a process-wide pair of maps. `denomUnits` maps a
denomination to its multiplier on a shared reference scale
(`1atom = 10^6 uatom` becomes `atom -> 1`, `uatom -> 0.000001`).
`baseDenom` maps a denomination to its smallest registered unit. On top
of these maps the file offers:

- registration, which checks and then inserts;
- lookups of a multiplier and of a base denomination;
- conversion of integer and decimal coins between registered
  denominations by the ratio of their multipliers;
- normalization to the base denomination, which never fails;
- parse-then-normalize wrappers.

Layout:

- `wrappers.dfy` (module `Wrappers`): `Option` (Go's nil) and `Result`
  (Go's `(value, err)`).
- `coins.dfy` (module `Coins`): the library coin types. `Dec` is an exact
  `real`, `Coin` has a `nat` amount, `DecCoin` has a non-negative decimal
  amount. It also holds truncation toward zero and `TruncateDecimal`.
- `denom.dfy` (module `Denom`): class `DenomRegistry`. It holds the two maps
  as `map` fields, `RegisterDenom` as a `modifies this` method, the lookups,
  conversions and normalizations as functions that read the maps, and
  `NormalizeCoins` / `ParseCoinsNormalized` as methods (the source builds
  the list in a loop). The lemma `ScaleBounds` and the asserts in
  `TruncatedRatio` only guide the solver through the non-linear
  arithmetic of the truncated ratio.
- `denom_properties.dfy` (module `DenomProperties`): lemmas relating the
  operations. Also the worked examples: `1atom` is `1000000uatom`, and
  truncation at a 1:3 ratio. `AtomScenario` is a client method that
  registers, registers again, converts, normalizes and parses against a
  fresh registry.

The library's denomination validator (`ValidateDenom`) is given to the
registry's constructor as a total predicate `validDenom`. Its grammar is
not part of this code. The parsers `ParseDecCoin` and `ParseDecCoins` are
function parameters of the two parse wrappers; they return a result or an
error.

Points where the code's behaviour is easy to misread, modelled as the code
behaves:

- A base-denomination lookup also fails when the stored base is the
  empty string. `bDenom` is never validated, so `""` can be registered as
  a base.
- There is no precision-overflow error value. `maxDecBitLen`
  (types/denom.go:8) is declared and never used.
- The parser's own error is passed through unchanged.

## Model

| member | source | states |
|---|---|---|
| `Denom.DenomRegistry.constructor` | types/denom.go:10-15 | both maps start empty; the empty registry satisfies the registry invariant |
| `Denom.DenomRegistry.RegisterDenom` | types/denom.go:17-33 | an invalid `denom` fails with InvalidDenom; a `denom` that already has a multiplier fails with AlreadyRegistered; on failure both maps are unchanged; success happens exactly when `denom` is valid and new; on success `denomUnits` gets `denom := unit` then `bDenom := bUnit`, so the base wins when the two names coincide and an existing `bDenom` multiplier is overwritten; `baseDenom` gets `denom := bDenom` and `bDenom := bDenom`; no other key changes; it keeps the base-closure invariant; given positive units, it keeps unit positivity |
| `Denom.RegisterKeepsBasesClosed` | types/denom.go:28-31 | one registration step over a fresh `denom` keeps every base registered as its own base |
| `Denom.DenomRegistry.GetDenomUnit` | types/denom.go:35-48 | reports a multiplier exactly when the name is valid and present in `denomUnits`; the multiplier is the stored one; otherwise it returns zero |
| `Denom.DenomRegistry.GetBaseDenom` | types/denom.go:50-56 | fails with NoDenomRegistered exactly when there is no entry or the entry is ""; otherwise returns the stored, non-empty base |
| `Denom.Ratio` | types/denom.go:80 | `amount * src / dst` is the amount whose value at `dst` equals the source value at `src` |
| `Denom.TruncatedRatio` | types/denom.go:80 | the ratio conversion truncated toward zero is the largest whole number of destination units whose reference value does not exceed the source's |
| `Denom.DenomRegistry.ConvertCoin` | types/denom.go:58-81 | errors in the order invalid target, source not registered, destination not registered; success exactly when all three checks pass; the result has the target denomination; its amount is the largest whole number of target units whose reference value does not exceed the source's; equal multipliers return the amount unchanged |
| `Denom.DenomRegistry.ConvertDecCoin` | types/denom.go:83-106 | the same errors in the same order; on success the reference-scale value is kept exactly (`result * dstUnit == amount * srcUnit`); equal multipliers return the amount unchanged |
| `Denom.DenomRegistry.NormalizeCoin` | types/denom.go:108-120 | never fails; returns the input when the base lookup fails or the conversion to the base fails; otherwise returns that conversion, which is in the base denomination |
| `Denom.DenomRegistry.NormalizeDecCoin` | types/denom.go:122-134 | the same fallback policy through the decimal conversion |
| `Denom.DenomRegistry.NormalizeCoins` | types/denom.go:136-149 | nil exactly when the input is nil; otherwise the same length and order, with element i the truncated normalization of input element i (duplicates are not merged) |
| `Denom.DenomRegistry.ParseCoinNormalized` | types/denom.go:151-162 | a parser error is returned as is; a parsed coin yields the truncation of its normalization |
| `Denom.DenomRegistry.ParseCoinsNormalized` | types/denom.go:163-169 | fails exactly when the parser fails, with the parser's error; otherwise the parsed list (nil stays nil) normalized element by element, in order |
| `Coins.Truncate` | types/denom.go:80 | truncation toward zero of a non-negative decimal: the unique integer `n` with `n <= x < n + 1` |
| `Coins.ToDecCoin` | types/denom.go:80 | an integer coin as a decimal coin of the same denomination and exactly the same amount, whose truncation gives back the amount |
| `Coins.TruncateDecimal` | types/denom.go:144 | the integer coin plus the change (less than one unit), both in the input denomination, add up to the decimal amount |
| `DenomProperties.ConvertCoinIdentity` | types/denom.go:76-78 | converting a coin of a valid registered denomination to itself returns it unchanged |
| `DenomProperties.ConvertDecCoinIdentity` | types/denom.go:101-103 | the same identity for decimal coins |
| `DenomProperties.ConvertDecCoinRoundTrip` | types/denom.go:86-106 | in the exact-decimal model, a successful decimal conversion converted back returns the original coin |
| `DenomProperties.ConvertCoinIsTruncatedConvertDecCoin` | types/denom.go:61-81 | the integer conversion fails exactly when the decimal conversion of the same amount fails, with the same error; otherwise it is that decimal result truncated |
| `DenomProperties.NormalizeCoinIsTruncatedNormalizeDecCoin` | types/denom.go:110-134 | normalizing an integer coin equals truncating the decimal normalization of the same amount |
| `DenomProperties.NormalizeDecCoinIdempotent` | types/denom.go:124-134 | in a registry whose bases are closed, normalizing a decimal coin twice is the same as once |
| `DenomProperties.NormalizeCoinIdempotent` | types/denom.go:110-120 | the same idempotence for integer coins |
| `DenomProperties.InvalidBaseFallsBack` | types/denom.go:29-31 | a base that fails validation makes every coin linked to it normalize to itself |
| `DenomProperties.GetDenomUnitConflatesInvalid` | types/denom.go:38-40 | an invalid name reports no multiplier, even when the map holds one for it |
| `DenomProperties.AtomToMicroAtom` | types/denom.go:80 | with `atom -> 1`, `uatom -> 0.000001`, one atom converts to 1000000 uatom |
| `DenomProperties.ParseAtomNormalized` | types/denom.go:154-161 | with the same registry, "1atom" parses and normalizes to 1000000 uatom |
| `DenomProperties.ConvertTruncatesOneThird` | types/denom.go:80 | at a 1:3 multiplier ratio, 2 small units convert to 0 large units: truncation, not rounding |
| `DenomProperties.NormalizeAtomExamples` | types/denom.go:144 | in the atom registry, 1 atom and 2 uatom normalize and truncate to 1000000 uatom and 2 uatom |

## Left out

- `Dec` is an exact `real`. The library's 18-decimal fixed point, rounding inside `Mul`/`Quo`, and bit-length panics are not modelled.
- Multipliers are taken to be positive, as a modelling choice: every conversion, normalization and parse wrapper requires all registered multipliers to be positive (`UnitsPositive`). `RegisterDenom` itself accepts any multiplier, as the source does. In the source a conversion panics in these cases only:
  - a zero destination multiplier that differs from the source's;
  - in `ConvertDecCoin`, exactly one negative multiplier with a positive amount;
  - in `ConvertCoin`, exactly one negative multiplier with `amount * |src| >= |dst|`. The truncation toward zero of a ratio in (-1, 0) is 0, which `NewCoin` accepts.

  The precondition also excludes calls that do not panic in the source. These are:
  - a zero source multiplier with a nonzero destination, which gives amount 0;
  - two equal zero multipliers, which take the equal-multiplier shortcut;
  - two negative multipliers, whose ratio is positive;
  - a zero amount with multipliers of opposite signs;
  - `ConvertCoin`/`NormalizeCoin` with exactly one negative multiplier and `amount * |src| < |dst|`, which gives amount 0;
  - any call at all while some unrelated denomination holds a non-positive multiplier, because the precondition covers the whole registry.
- Panics of the coin constructors on negative amounts: coin amounts are `nat` and decimal amounts non-negative by type.
- DenomProperties.ConvertDecCoinRoundTrip: holds only because `Dec` is exact here. With the library's 18-decimal `Quo`, one unit at multipliers small -> 1, large -> 3 converts to 0.333333333333333333 large. Converting back gives 0.999999999999999999, not 1.
- The grammar of `ValidateDenom` and of the coin parsers is library code. It is not part of this model. The validator and the parsers are injected.
- Concurrent access to the package-level maps is not modelled.
- The error message texts are reduced to error values carrying the offending name.
- On error, Go also returns a zero `Coin{}`, `DecCoin{}` or empty `Coins{}`; the model's `Result` carries only the error.
- x/slashing/keeper/keeper.go (the slashing keeper: store access, codecs, events, logging) is not part of this model.
