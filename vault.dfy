/** The vault pallet: per-collateral CDP parameters (`Positions`), the vaults
    of each account (`Vault`), the solvency test `is_cdp_valid` over 256-bit
    arithmetic, and `generate`, which opens or tops up a vault. The oracle
    and token pallets it calls are not part of this model: prices come in as
    a parameter and the token pallet is a stub that may fail. */
module VaultPallet {
  import opened Primitives

  /** The debt token (MTR): `T::AssetId::from(1)`. */
  const MTR_ID: AssetId := 1

  /** A rational parameter [numerator, denominator]. */
  datatype Ratio = Ratio(numerator: U256, denominator: U256)

  /** The `CDP` parameters of one collateral asset. */
  datatype CDP = CDP(liquidationFee: Ratio, maxCollateralizationRate: Ratio, stabilityFee: Ratio)

  /** `to_u256`: a balance of the host's (generic, unsigned) balance type
      saturated into u128, then widened. */
  function ToU256(value: nat): (r: U256)
    ensures r <= U128_MAX && r <= value
    ensures r == value || r == U128_MAX
    ensures value <= U128_MAX ==> r == value
  {
    if value <= U128_MAX then value else U128_MAX
  }

  /** A value clamped to U256, as every overflowing step of `is_cdp_valid`
      falls back to `U256::max_value()`. */
  function Saturate(x: nat): (r: U256)
    ensures r <= x
    ensures r == x || r == U256_MAX
    ensures x <= U256_MAX ==> r == x
  {
    if x <= U256_MAX then x else U256_MAX
  }

  /** `U256::checked_mul`: the product, or nothing when it leaves U256. */
  function CheckedMul(a: U256, b: U256): (r: Option<U256>)
    ensures r.Some? <==> a * b <= U256_MAX
    ensures r.Some? ==> r.value == a * b
  {
    if a * b <= U256_MAX then Some(a * b) else None
  }

  /** `U256::checked_div`: the truncated quotient, or nothing for a zero
      divisor. */
  function CheckedDiv(a: U256, b: U256): (r: Option<U256>)
    ensures r.Some? <==> b != 0
    ensures r.Some? ==> r.value <= a && r.value * b <= a < (r.value + 1) * b
  {
    if b == 0 then None else DivBounds(a, b); Some(a / b)
  }

  /** Truncating division: `a / b` is the largest `q` with `q * b <= a`. */
  lemma DivBounds(a: nat, b: nat)
    requires b != 0
    ensures a / b <= a && (a / b) * b <= a < (a / b + 1) * b
  {
    var q, m := a / b, a % b;
    assert a == q * b + m && 0 <= m < b;
    assert (q + 1) * b == q * b + b;
    assert q <= q * b by { MulMonotone(q, 1, q, b); }
  }

  lemma MulMonotone(a: nat, b: nat, c: nat, d: nat)
    requires a <= c && b <= d
    ensures a * b <= c * d
  {
    assert a * b <= c * b by {
      assert (c - a) * b >= 0;
    }
    assert c * b <= c * d by {
      assert c * (d - b) >= 0;
    }
  }

  lemma DivMonotone(a: nat, b: nat, d: nat)
    requires a <= b && 0 < d
    ensures a / d <= b / d
  {
    var q1, q2 := a / d, b / d;
    DivBounds(a, d);
    DivBounds(b, d);
    assert (q2 + 1 - q1) * d == (q2 + 1) * d - q1 * d;
    PositiveFactor(q2 + 1 - q1, d);
  }

  lemma PositiveFactor(x: int, d: int)
    requires d > 0 && x * d > 0
    ensures x > 0
  {
  }

  /** Two saturated u128 values multiply without leaving U256. */
  lemma ProductFits(a: nat, b: nat)
    requires a <= U128_MAX && b <= U128_MAX
    ensures a * b < U256_MAX
  {
    MulMonotone(a, b, U128_MAX, U128_MAX);
  }

  /** Neither "Multiplication overflow" `expect` of `is_cdp_valid` can fire:
      the product of two `to_u256` values always fits in U256. */
  lemma NoMultiplicationOverflow(x: nat, y: nat)
    ensures CheckedMul(ToU256(x), ToU256(y)).Some?
    ensures CheckedMul(ToU256(x), ToU256(y)).value == ToU256(x) * ToU256(y)
  {
    ProductFits(ToU256(x), ToU256(y));
  }

  /** A price times an amount, both through `to_u256`, with the overflow
      `expect` discharged by `NoMultiplicationOverflow`. */
  function Value256(price: nat, amount: nat): (r: U256)
    ensures r == ToU256(price) * ToU256(amount)
  {
    NoMultiplicationOverflow(price, amount);
    CheckedMul(ToU256(price), ToU256(amount)).value
  }

  /** The `determinant` of `is_cdp_valid`: the collateral value divided by the
      rate's denominator, times its numerator, or `U256::MAX` on overflow. The
      `expect("divided by zero")` is the precondition. */
  function Determinant(rate: Ratio, collateral: U256): (r: U256)
    requires rate.denominator != 0
    ensures r == Saturate((collateral / rate.denominator) * rate.numerator)
  {
    CheckedMul(CheckedDiv(collateral, rate.denominator).value, rate.numerator).GetOr(U256_MAX)
  }

  /** The ceiling of `is_cdp_valid` in exact integer arithmetic, before
      saturation: truncating division first, then the numerator. */
  function ExactCeiling(rate: Ratio, collateralPrice: nat, collateralAmount: nat): nat
    requires rate.denominator != 0
  {
    MulMonotone(0, 0, collateralPrice, collateralAmount);
    var value: nat := collateralPrice * collateralAmount;
    MulMonotone(0, 0, value / rate.denominator, rate.numerator);
    (value / rate.denominator) * rate.numerator
  }

  /** `is_cdp_valid`: the value of the requested debt must stay strictly below
      the determinant of the collateral value. */
  function IsCdpValid(position: CDP, collateralPrice: nat, collateralAmount: nat,
                      requestPrice: nat, requestAmount: nat): (r: bool)
    requires position.maxCollateralizationRate.denominator != 0
    ensures r <==> ToU256(requestPrice) * ToU256(requestAmount) <
                     Saturate(ExactCeiling(position.maxCollateralizationRate,
                                           ToU256(collateralPrice), ToU256(collateralAmount)))
  {
    var collateral := Value256(collateralPrice, collateralAmount);
    var request := Value256(requestPrice, requestAmount);
    request < Determinant(position.maxCollateralizationRate, collateral)
  }

  /** For inputs that fit in u128, `is_cdp_valid` is the exact comparison
      `debt value < min(U256::MAX, ceiling)`. */
  lemma IsCdpValidExact(position: CDP, cp: nat, ca: nat, rp: nat, ra: nat)
    requires position.maxCollateralizationRate.denominator != 0
    requires cp <= U128_MAX && ca <= U128_MAX && rp <= U128_MAX && ra <= U128_MAX
    ensures var ceiling := ExactCeiling(position.maxCollateralizationRate, cp, ca);
            IsCdpValid(position, cp, ca, rp, ra) <==>
              rp * ra < (if ceiling <= U256_MAX then ceiling else U256_MAX)
  {
    var rate := position.maxCollateralizationRate;
    ProductFits(cp, ca);
    ProductFits(rp, ra);
    DivMonotone(cp * ca, U256_MAX, rate.denominator);
    assert U256_MAX / rate.denominator <= U256_MAX;
  }

  /** Below saturation, validity is exactly `debt value < ceiling`: a debt
      whose value reaches the ceiling is rejected and every smaller one is
      accepted. */
  lemma IsCdpValidIff(position: CDP, cp: nat, ca: nat, rp: nat, ra: nat)
    requires position.maxCollateralizationRate.denominator != 0
    requires cp <= U128_MAX && ca <= U128_MAX && rp <= U128_MAX && ra <= U128_MAX
    requires ExactCeiling(position.maxCollateralizationRate, cp, ca) <= U256_MAX
    ensures IsCdpValid(position, cp, ca, rp, ra) <==>
              rp * ra < ExactCeiling(position.maxCollateralizationRate, cp, ca)
  {
    IsCdpValidExact(position, cp, ca, rp, ra);
  }

  /** The boundary is strict: a debt value equal to the ceiling fails. */
  lemma AtCeilingRejected(position: CDP, cp: nat, ca: nat, rp: nat, ra: nat)
    requires position.maxCollateralizationRate.denominator != 0
    requires cp <= U128_MAX && ca <= U128_MAX && rp <= U128_MAX && ra <= U128_MAX
    requires rp * ra == ExactCeiling(position.maxCollateralizationRate, cp, ca)
    ensures !IsCdpValid(position, cp, ca, rp, ra)
  {
    ProductFits(rp, ra);
    IsCdpValidIff(position, cp, ca, rp, ra);
  }

  /** When the ceiling overflows U256 it saturates, and every debt of
      u128-sized price and amount is then accepted. */
  lemma SaturatedCeilingAccepts(position: CDP, cp: nat, ca: nat, rp: nat, ra: nat)
    requires position.maxCollateralizationRate.denominator != 0
    requires cp <= U128_MAX && ca <= U128_MAX && rp <= U128_MAX && ra <= U128_MAX
    requires ExactCeiling(position.maxCollateralizationRate, cp, ca) > U256_MAX
    ensures IsCdpValid(position, cp, ca, rp, ra)
  {
    ProductFits(rp, ra);
    IsCdpValidExact(position, cp, ca, rp, ra);
  }

  /** Inputs beyond u128 count as u128::MAX. */
  lemma IsCdpValidSaturatesInputs(position: CDP, cp: nat, ca: nat, rp: nat, ra: nat)
    requires position.maxCollateralizationRate.denominator != 0
    ensures IsCdpValid(position, cp, ca, rp, ra) ==
              IsCdpValid(position, ToU256(cp), ToU256(ca), ToU256(rp), ToU256(ra))
  {
  }

  /** The saturating ceiling grows with the collateral value. */
  lemma DeterminantMonotone(rate: Ratio, c: U256, c': U256)
    requires rate.denominator != 0 && c <= c'
    ensures Determinant(rate, c) <= Determinant(rate, c')
  {
    DivMonotone(c, c', rate.denominator);
    MulMonotone(c / rate.denominator, rate.numerator, c' / rate.denominator, rate.numerator);
  }

  /** With the collateral side fixed, lowering the debt price or amount keeps
      a valid CDP valid. */
  lemma ValidUnderLowerDebt(position: CDP, cp: nat, ca: nat, rp: nat, ra: nat, rp': nat, ra': nat)
    requires position.maxCollateralizationRate.denominator != 0
    requires rp' <= rp && ra' <= ra
    requires IsCdpValid(position, cp, ca, rp, ra)
    ensures IsCdpValid(position, cp, ca, rp', ra')
  {
    MulMonotone(ToU256(rp'), ToU256(ra'), ToU256(rp), ToU256(ra));
  }

  /** With the debt side fixed, raising the collateral price or amount keeps
      a valid CDP valid. */
  lemma ValidUnderHigherCollateral(position: CDP, cp: nat, ca: nat, rp: nat, ra: nat, cp': nat, ca': nat)
    requires position.maxCollateralizationRate.denominator != 0
    requires cp <= cp' && ca <= ca'
    requires IsCdpValid(position, cp, ca, rp, ra)
    ensures IsCdpValid(position, cp', ca', rp, ra)
  {
    MulMonotone(ToU256(cp), ToU256(ca), ToU256(cp'), ToU256(ca'));
    DeterminantMonotone(position.maxCollateralizationRate, Value256(cp, ca), Value256(cp', ca'));
  }

  /** A 150% rate, collateral 100 at price 100 and MTR at price 1: the
      ceiling is 10000 / 2 * 3 = 15000, so 140 and 14999 MTR pass and 15000
      fails. */
  lemma RateExample()
    ensures var p := CDP(Ratio(0, 1), Ratio(3, 2), Ratio(0, 1));
            && IsCdpValid(p, 100, 100, 1, 140)
            && IsCdpValid(p, 100, 100, 1, 14999)
            && !IsCdpValid(p, 100, 100, 1, 15000)
  {
    var p := CDP(Ratio(0, 1), Ratio(3, 2), Ratio(0, 1));
    assert ExactCeiling(p.maxCollateralizationRate, 100, 100) == 15000;
    IsCdpValidIff(p, 100, 100, 1, 140);
    IsCdpValidIff(p, 100, 100, 1, 14999);
    IsCdpValidIff(p, 100, 100, 1, 15000);
  }

  /** The totals `generate` checks and stores (lib.rs:194-206): the existing
      vault plus the new amounts, or the new amounts alone. */
  function Totals(existing: Option<(nat, nat)>, collateralAmount: nat, requestAmount: nat): (r: (nat, nat))
    ensures collateralAmount <= r.0 && requestAmount <= r.1
    ensures existing.Some? ==> existing.value.0 <= r.0 && existing.value.1 <= r.1
    ensures existing.None? ==> r == (collateralAmount, requestAmount)
  {
    match existing
    case Some(x) => (collateralAmount + x.0, requestAmount + x.1)
    case None => (collateralAmount, requestAmount)
  }

  /** Two top-ups accumulate like one with the summed amounts. */
  lemma TotalsAccumulate(existing: Option<(nat, nat)>, c1: nat, r1: nat, c2: nat, r2: nat)
    ensures Totals(Some(Totals(existing, c1, r1)), c2, r2) == Totals(existing, c1 + c2, r1 + r2)
  {
  }

  datatype VaultError = CollateralNotSupported | InvalidCDP | OracleFailed(asset: AssetId) | TokenFailed

  /** The `DispatchResult` of `generate`. */
  datatype Outcome = Ok | Err(error: VaultError)

  /** One call of the token pallet's `transfer_to_system`, with its result. */
  datatype TransferCall = TransferCall(asset: AssetId, who: AccountId, amount: nat, succeeded: bool)

  /** The token pallet, whose code is not part of this model: each call of
      `transfer_to_system` may succeed or fail, and is recorded. */
  class Token {
    ghost var calls: seq<TransferCall>

    constructor ()
      ensures calls == []
    {
      calls := [];
    }

    method TransferToSystem(asset: AssetId, who: AccountId, amount: nat) returns (ok: bool)
      modifies this
      ensures calls == old(calls) + [TransferCall(asset, who, amount, ok)]
    {
      ok := *;
      calls := calls + [TransferCall(asset, who, amount, ok)];
    }
  }

  class Vault {
    /** `Positions`: the CDP parameters of each supported collateral; written
        by a registration path that is not part of this model. */
    var positions: map<AssetId, CDP>
    /** `Vault`: (account, collateral) to (collateral amount, MTR amount). */
    var vaults: map<(AccountId, AssetId), (nat, nat)>

    /** Every registered rate has a non-zero denominator. */
    ghost predicate Valid()
      reads this
    {
      forall id :: id in positions ==> positions[id].maxCollateralizationRate.denominator != 0
    }

    constructor (registered: map<AssetId, CDP>)
      requires forall id :: id in registered ==> registered[id].maxCollateralizationRate.denominator != 0
      ensures Valid()
      ensures positions == registered && vaults == map[]
    {
      positions := registered;
      vaults := map[];
    }

    /** The `vault` getter: `None` exactly for a key never written. */
    function VaultOf(who: AccountId, collateralId: AssetId): (r: Option<(nat, nat)>)
      reads this
      ensures r.Some? <==> (who, collateralId) in vaults
      ensures r.Some? ==> r.value == vaults[(who, collateralId)]
    {
      if (who, collateralId) in vaults then Some(vaults[(who, collateralId)]) else None
    }

    /** The solvency check `generate` applies to the cumulative totals: the
        debt value of the whole vault after the top-up must stay below the
        saturated ceiling of its whole collateral value. For an account
        without a vault this is the check of the new amounts alone. */
    ghost function Admits(origin: AccountId, requestAmount: nat, collateralId: AssetId,
                          collateralAmount: nat, prices: map<AssetId, nat>): (r: bool)
      reads this
      requires Valid()
      requires collateralId in positions && collateralId in prices && MTR_ID in prices
      ensures var totals := Totals(VaultOf(origin, collateralId), collateralAmount, requestAmount);
              r <==> ToU256(prices[MTR_ID]) * ToU256(totals.1) <
                       Saturate(ExactCeiling(positions[collateralId].maxCollateralizationRate,
                                             ToU256(prices[collateralId]), ToU256(totals.0)))
      ensures VaultOf(origin, collateralId).None? ==>
                (r <==> IsCdpValid(positions[collateralId], prices[collateralId], collateralAmount,
                                   prices[MTR_ID], requestAmount))
    {
      var totals := Totals(VaultOf(origin, collateralId), collateralAmount, requestAmount);
      IsCdpValid(positions[collateralId], prices[collateralId], totals.0, prices[MTR_ID], totals.1)
    }

    /** `generate`: the collateral must be supported, both prices must be
        available and the cumulative vault must pass the solvency check, all
        before anything changes; then the collateral is sent, the vault is
        overwritten with the cumulative totals and the MTR is sent.
        `prices` is what the oracle reports in this call (a missing entry
        is an oracle failure). */
    method Generate(origin: AccountId, requestAmount: nat, collateralId: AssetId, collateralAmount: nat,
                    prices: map<AssetId, nat>, token: Token) returns (r: Outcome)
      requires Valid()
      modifies this`vaults, token
      ensures Valid()
      ensures collateralId !in positions ==>
                r == Err(CollateralNotSupported) && vaults == old(vaults) && token.calls == old(token.calls)
      ensures collateralId in positions && collateralId !in prices ==>
                r == Err(OracleFailed(collateralId)) && vaults == old(vaults) && token.calls == old(token.calls)
      ensures collateralId in positions && collateralId in prices && MTR_ID !in prices ==>
                r == Err(OracleFailed(MTR_ID)) && vaults == old(vaults) && token.calls == old(token.calls)
      ensures collateralId in positions && collateralId in prices && MTR_ID in prices &&
              !old(Admits(origin, requestAmount, collateralId, collateralAmount, prices)) ==>
                r == Err(InvalidCDP) && vaults == old(vaults) && token.calls == old(token.calls)
      ensures collateralId in positions && collateralId in prices && MTR_ID in prices &&
              old(Admits(origin, requestAmount, collateralId, collateralAmount, prices)) ==>
                var n := |old(token.calls)|;
                var totals := Totals(old(VaultOf(origin, collateralId)), collateralAmount, requestAmount);
                && n < |token.calls|
                && token.calls[..n] == old(token.calls)
                && token.calls[n] == TransferCall(collateralId, origin, collateralAmount, token.calls[n].succeeded)
                && (!token.calls[n].succeeded ==>
                      r == Err(TokenFailed) && vaults == old(vaults) && |token.calls| == n + 1)
                && (token.calls[n].succeeded ==>
                      && vaults == old(vaults)[(origin, collateralId) := totals]
                      && |token.calls| == n + 2
                      && token.calls[n + 1] == TransferCall(MTR_ID, origin, requestAmount, token.calls[n + 1].succeeded)
                      && r == if token.calls[n + 1].succeeded then Ok else Err(TokenFailed))
    {
      if collateralId !in positions {
        return Err(CollateralNotSupported);
      }
      var position := positions[collateralId];
      if collateralId !in prices {
        return Err(OracleFailed(collateralId));
      }
      var collateralPrice := prices[collateralId];
      if MTR_ID !in prices {
        return Err(OracleFailed(MTR_ID));
      }
      var mtrPrice := prices[MTR_ID];
      var totals := Totals(VaultOf(origin, collateralId), collateralAmount, requestAmount);
      var result := IsCdpValid(position, collateralPrice, totals.0, mtrPrice, totals.1);
      if !result {
        return Err(InvalidCDP);
      }
      var ok := token.TransferToSystem(collateralId, origin, collateralAmount);
      if !ok {
        return Err(TokenFailed);
      }
      vaults := vaults[(origin, collateralId) := totals];
      ok := token.TransferToSystem(MTR_ID, origin, requestAmount);
      if !ok {
        return Err(TokenFailed);
      }
      r := Ok;
    }
  }
}
