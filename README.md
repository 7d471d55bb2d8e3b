# Subswap ledger and CDP vault, modelled in Dafny

This project models two pallets of a Substrate runtime.

- **The subswap ledger** (`pallets/subswap/src/module.rs`) keeps four pieces of state:
  - an asset-id counter, `NextAssetId`;
  - a balance for each (asset, account), `Balances`;
  - a supply for each asset, `TotalSupply`;
  - the issuing account of each asset, `Creator`.

  Its dispatchables are `issue`, `mint`, `burn`, `transfer` and `destroy`.
- **The vault** (`pallets/vault/src/lib.rs`) holds two storage maps:
  - the CDP parameters of each collateral asset, `Positions`;
  - the vault of each (account, collateral), `Vault`. A vault is a pair (collateral amount, MTR amount).

  `generate` opens or tops up a vault. Before it changes anything, it runs the solvency test
  `is_cdp_valid`. That test multiplies u128-saturated prices and amounts in 256-bit arithmetic.

Modules:

- `Primitives` (`primitives.dfy`): u128 and u256 as bounded integers, account and asset ids, `Option`.
- `MapSum` (`map_sum.dfy`): the sum of the values of a finite map, and how one write or one removal changes it.
- `Subswap` (`subswap.dfy`): class `Ledger`, with one field per storage item and one method per dispatchable. Lemmas on the balance map state what each write does to the sum of an asset's balances.
- `VaultPallet` (`vault.dfy`): the `CDP` datatype, `ToU256` and `IsCdpValid` as functions, lemmas about the solvency test, and class `Vault` with `Generate`.

Storage lookups use the defaults of Substrate's value-query maps:

- an absent balance or supply reads as 0;
- an absent creator reads as the default account (`DEFAULT_ACCOUNT`, account 0);
- callers and targets are account ids that have already been resolved.

The ledger is modelled as the code is written. `mint` and `burn` change a balance without touching
`TotalSupply`. So "the balances of an asset sum to its supply" holds only for three operations:

- `issue` on an asset nobody holds yet;
- `transfer`;
- `destroy`.

For `mint` the sum moves by `+amount` relative to the supply, and for `burn` by `-amount`.

The source's own comments and its code pull apart in three places; the model follows the code:

- The doc comment of `issue` says there "will only ever be" `total` units of the asset
  (module.rs:26-27). `mint` and `burn` nevertheless change a balance without touching `TotalSupply`
  (module.rs:79, module.rs:104). The vault crate's module documentation, by contrast, lists
  `mint_from_system` and `burn_from_system` as raising and lowering the total supply (lib.rs:72-73).
- The comment "save 0 for native currency" (module.rs:39) is the only reservation in `issue`: when the
  counter is 0 the id becomes 1, and the counter then jumps from 0 straight to 2 (module.rs:40-49).
  The first issued id is therefore 1.
- `generate` pays MTR out through `transfer_to_system`, which lib.rs:75 documents as a transfer from the
  system with no change in total supply. It is called twice, with `Vault` written between the two calls
  (lib.rs:213-221), so the second call can fail after the vault has already been written.

## Model

| member | source | states |
|---|---|---|
| `Subswap.Ledger.constructor` | pallets/subswap/src/module.rs:40-43 | The genesis state has the counter at 0 and no balance, supply or creator recorded. `Valid()` holds (every recorded creator belongs to an id below the counter), and every asset is conserved. |
| `Subswap.Ledger.BalanceOf` | pallets/subswap/src/module.rs:99 | A balance lookup yields the stored holding, or 0 for an (asset, account) never written. |
| `Subswap.Ledger.TotalSupplyOf` | pallets/subswap/src/module.rs:147 | A supply lookup yields the stored supply, or 0 for an asset never written. |
| `Subswap.Ledger.CreatorOf` | pallets/subswap/src/module.rs:74 | A creator lookup yields the recorded creator, or the default account for an asset without one. |
| `Subswap.Ledger.Issue` | pallets/subswap/src/module.rs:37-56 | The id is 1 when the counter is 0 and the counter's value otherwise. It is never 0 and was never handed out before. Afterwards the counter is id + 1. Exactly the three entries (id, origin) → total, id → total and id → origin are written. On an asset nobody held, its balances then sum to its supply. Every other asset keeps its sum, and a conserved one stays conserved. |
| `Subswap.IssueConserves` | pallets/subswap/src/module.rs:51-52 | Writing `total` as both a holding and the supply of an asset nobody held makes that asset conserved. Every other asset keeps its sum and its conservation. |
| `Subswap.SuccessiveIssues` | pallets/subswap/src/module.rs:40-49 | Two successive issues return strictly increasing, non-zero ids. |
| `Subswap.IssueSums` | pallets/subswap/src/module.rs:51-52 | Writing `total` for an asset that has no balance entry makes `total` the whole sum of that asset. Other assets' sums are unchanged. |
| `Subswap.Ledger.Mint` | pallets/subswap/src/module.rs:67-80 | Fails with NotTheCreator unless the caller is the recorded creator (the default account when none is recorded). Then fails with AmountZero for 0. A failure changes no balance. Success credits `amount` to (id, target) only and leaves `TotalSupply` as it was, so the asset's sum rises by `amount`. |
| `Subswap.Credit` | pallets/subswap/src/module.rs:79 | After a credit, the key holds its old holding (0 when absent) plus `amount`. Every other entry is unchanged. |
| `Subswap.CreditSums` | pallets/subswap/src/module.rs:79 | A credit raises its asset's sum of balances by exactly `amount` and changes no other asset's sum. |
| `Subswap.Ledger.Burn` | pallets/subswap/src/module.rs:92-105 | Fails with AmountZero for 0, then with BalanceLow when the caller holds less than `amount`. A failure changes no balance. Success writes the old holding minus `amount`, ignores `target`, and leaves `TotalSupply` alone, so the asset's sum falls by `amount`. |
| `Subswap.Debit` | pallets/subswap/src/module.rs:104 | After a debit, the key holds its old holding minus `amount`. Every other entry is unchanged. |
| `Subswap.DebitSums` | pallets/subswap/src/module.rs:104 | A debit lowers its asset's sum of balances by exactly `amount` and changes no other asset's sum. |
| `Subswap.Ledger.Transfer` | pallets/subswap/src/module.rs:116-131 | Has the same two errors as burn, tested in the same order. A failure changes no balance. Success is a debit of the origin followed by a credit of the target that reads the debited map. For distinct accounts the origin loses `amount` and the target gains it. A self-transfer leaves all balances unchanged. The sum of every asset is unchanged, and so is `TotalSupply`, so every conserved asset stays conserved. |
| `Subswap.TransferSums` | pallets/subswap/src/module.rs:129-130 | When the debit is allowed, the credit that follows stays within u128, and the debit and credit together keep the sum of every asset. |
| `Subswap.SelfTransferIsIdentity` | pallets/subswap/src/module.rs:129-130 | For a non-zero amount the caller holds, debiting and then crediting one account gives back the original map. |
| `Subswap.Ledger.Destroy` | pallets/subswap/src/module.rs:142-149 | The (id, origin) entry is taken out of storage (`take`) before anything is checked. The call fails with BalanceZero when that holding was 0; no balance query changes then. Otherwise the supply drops by exactly the amount removed. The asset's sum drops by the same amount, so a conserved asset stays conserved. |
| `Subswap.DestroyConserves` | pallets/subswap/src/module.rs:144-147 | Taking a holding out and lowering the supply by it (by nothing when it was 0) lowers the asset's sum by the holding and keeps a conserved asset conserved. A zero holding leaves every balance query as it was, and no other asset's sum moves. |
| `Subswap.AssetSumTake` | pallets/subswap/src/module.rs:144 | Removing one entry lowers its asset's sum by the removed value (0 when it was absent) and changes no other asset's sum. |
| `Subswap.AssetSumWrite` | pallets/subswap/src/module.rs:51 | Writing v at one key changes that asset's sum by v minus the old value and leaves every other asset's sum unchanged. |
| `Subswap.HoldingBelowSupply` | pallets/subswap/src/module.rs:147 | When an asset's balances sum to its supply, no single holding exceeds that supply. |
| `Subswap.DefaultCreatorMintsUnissued` | pallets/subswap/src/module.rs:74-75 | The default account mints 5 of the un-issued id 1 to account 9 through the corrected mint. A later `issue` of 1 by account 7 then leaves account 9 holding 5 against a supply of 1. |
| `Subswap.ConservedDestroyIsSafe` | pallets/subswap/src/module.rs:147 | For a conserved asset, the `-=` of `destroy` cannot go below zero. |
| `Subswap.MintBreaksConservation` | pallets/subswap/src/module.rs:79 | Issuing 10 and then minting 5 to the creator leaves a holding of 15 against a supply of 10. A holding above the supply is exactly the case the precondition of `Destroy` excludes. |
| `Subswap.Ledger.MintIntended` | pallets/subswap/src/module.rs:67-80 | Same guards, errors and credit as `mint`. It also raises `TotalSupply[id]` by `amount`, so a conserved asset stays conserved. |
| `Subswap.MintConserves` | pallets/subswap/src/module.rs:79 | A credit matched by the same rise in supply keeps the asset conserved and leaves every other asset's sum unchanged. |
| `VaultPallet.ToU256` | pallets/vault/src/lib.rs:289-291 | The result is at most u128::MAX and at most the input. It equals the input when the input fits in u128, and is u128::MAX otherwise. |
| `VaultPallet.CheckedMul` | pallets/vault/src/lib.rs:282 | `checked_mul` yields a value exactly when the product fits in U256, and that value is the product. |
| `VaultPallet.CheckedDiv` | pallets/vault/src/lib.rs:285 | `checked_div` yields nothing exactly for a zero divisor. Otherwise it yields the truncated quotient q, the one with q × d ≤ a < (q + 1) × d. |
| `VaultPallet.Saturate` | pallets/vault/src/lib.rs:285 | The `unwrap_or(U256::max_value())` fallback: the value itself when it fits in U256, U256::MAX otherwise, and never more than the value. |
| `VaultPallet.ProductFits` | pallets/vault/src/lib.rs:282-284 | The product of two values up to u128::MAX is below U256::MAX. |
| `VaultPallet.NoMultiplicationOverflow` | pallets/vault/src/lib.rs:282-284 | `checked_mul` of two `to_u256` values always succeeds, so neither "Multiplication overflow" `expect` can fire. |
| `VaultPallet.Value256` | pallets/vault/src/lib.rs:282-284 | The collateral value and the debt value are the plain products of the saturated price and amount. |
| `VaultPallet.Determinant` | pallets/vault/src/lib.rs:285 | The determinant is (collateral value / denominator) × numerator in exact arithmetic, clamped to U256::MAX. |
| `VaultPallet.IsCdpValid` | pallets/vault/src/lib.rs:278-287 | For any inputs, the test holds exactly when saturated debt price × saturated debt amount is below the clamped ceiling ((saturated collateral price × saturated collateral amount) / denominator) × numerator. |
| `VaultPallet.IsCdpValidExact` | pallets/vault/src/lib.rs:278-287 | For u128 inputs, `is_cdp_valid` holds exactly when debt price × debt amount < min(U256::MAX, (collateral price × collateral amount / denominator) × numerator), with truncating division. |
| `VaultPallet.IsCdpValidIff` | pallets/vault/src/lib.rs:285-286 | When the ceiling does not saturate, validity holds exactly when the debt value < the ceiling, in both directions. |
| `VaultPallet.AtCeilingRejected` | pallets/vault/src/lib.rs:286 | The comparison is strict: a debt value equal to the ceiling is rejected. |
| `VaultPallet.SaturatedCeilingAccepts` | pallets/vault/src/lib.rs:285 | When (collateral value / denominator) × numerator overflows, the ceiling becomes U256::MAX, and every u128-sized debt is then accepted. |
| `VaultPallet.IsCdpValidSaturatesInputs` | pallets/vault/src/lib.rs:279-283 | Prices and amounts above u128::MAX are judged as u128::MAX. |
| `VaultPallet.DeterminantMonotone` | pallets/vault/src/lib.rs:285 | The saturating ceiling never decreases as the collateral value grows. |
| `VaultPallet.ValidUnderLowerDebt` | pallets/vault/src/lib.rs:278-287 | A valid position stays valid when the debt price or the debt amount is lowered. |
| `VaultPallet.ValidUnderHigherCollateral` | pallets/vault/src/lib.rs:278-287 | A valid position stays valid when the collateral price or the collateral amount is raised. |
| `VaultPallet.RateExample` | pallets/vault/src/lib.rs:285-286 | With a rate of 3/2, collateral 100 at price 100 and MTR at price 1, the ceiling is 15000: 140 and 14999 MTR pass and 15000 fails. |
| `VaultPallet.Totals` | pallets/vault/src/lib.rs:194-206 | The totals are the new amounts alone when there is no vault. They never fall below the new amounts or the existing vault, so a vault only grows. |
| `VaultPallet.TotalsAccumulate` | pallets/vault/src/lib.rs:194-206 | Two top-ups give the same totals as one top-up with the summed amounts. |
| `VaultPallet.Vault.constructor` | pallets/vault/src/lib.rs:270-271 | `Positions` holds the registered parameters, every one with a non-zero denominator, and `Vault` is empty. |
| `VaultPallet.Vault.VaultOf` | pallets/vault/src/lib.rs:194 | The `vault` getter yields nothing exactly for a key never written, and the stored pair otherwise. |
| `VaultPallet.Vault.Admits` | pallets/vault/src/lib.rs:194-208 | The check `generate` applies holds exactly when the debt value of the cumulative vault is below the clamped ceiling of its cumulative collateral value. For an account without a vault, it is `is_cdp_valid` on the new amounts alone. |
| `VaultPallet.Token.TransferToSystem` | pallets/vault/src/lib.rs:213 | The token pallet's call is a stub. It may succeed or fail, and each call is appended to a log together with its result. |
| `VaultPallet.Vault.Generate` | pallets/vault/src/lib.rs:181-225 | The guards run in this order, and each failure leaves `Vault` and the token log unchanged: CollateralNotSupported when no parameters are registered, then an oracle failure for the collateral price, then for the MTR price, then InvalidCDP when the cumulative totals fail `is_cdp_valid`. After the check, the collateral transfer is requested. If it fails, nothing else happens. If it succeeds, `Vault[(origin, collateral)]` becomes the cumulative totals and no other key changes. The MTR transfer of `request_amount` is then requested, and its result is the call's result. |

## Findings

| source | as written | input that shows it | evidently intended | confidence | as-written member | corrected member |
|---|---|---|---|---|---|---|
| pallets/subswap/src/module.rs:79 | `mint` credits the target without raising `TotalSupply`. This breaks "the balances of an asset sum to its supply", and later lets the `-=` of `destroy` (module.rs:147) subtract more than the supply holds. | `issue(A, 10)`, then `mint(A, id, A, 5)`, then `destroy(A, id)`: A holds 15 and the supply is 10. | `mint` raises `TotalSupply[id]` by `amount`, as the pallet documents for `mint_from_system` (lib.rs:72). | high (not executed) | `Subswap.MintBreaksConservation` | `Subswap.Ledger.MintIntended` |

Even with the corrected mint, two operations can break conservation: `burn`, and `issue` on an id that
already has balance entries. Such entries arise because `Creator::get` yields the default account for an
id that was never issued (module.rs:74-75), so the default account passes the creator check of `mint` on
any un-issued id. `Subswap.DefaultCreatorMintsUnissued` shows the trace. `Subswap.ConservedDestroyIsSafe`
shows that the precondition of `Destroy` holds for every asset that is conserved; it says nothing about an
asset that `burn` or such an `issue` has left unconserved. `Subswap.Ledger.Mint` itself stays as written.

## Left out

- `liquidate` (lib.rs:228-231) is unfinished: `let vault =` has no right-hand side, so the code does not compile and there is nothing to model.
- The oracle pallet (`oracle::Module::price`, lib.rs:191-192) is not part of this model. `Generate` takes the prices of this call as a map, and a missing entry is an oracle failure.
- VaultPallet.Vault.Generate: both oracle answers come from one `prices` map. When `collateral_id` is 1, the MTR id, the source asks the oracle twice for the same id (lib.rs:191-192). The model rules out two different answers, and it rules out the second call failing after the first succeeded.
- The token pallet (`token::Module::transfer_to_system`, lib.rs:213 and lib.rs:221) is not part of this model. It is a stub that may fail, and nothing is assumed about its balances. In particular it is not assumed to be the subswap ledger, nor to pay the caller.
- VaultPallet.Vault.Generate: makes no atomicity claim after the solvency check. The `Vault` write comes before the second transfer, and whether the host rolls back a failed call belongs to the host.
- Subswap.Ledger.Destroy: the `-=` on `TotalSupply` is unchecked. The model requires the holding to be at most the supply instead of modelling wrap-around or a panic.
- Subswap.Ledger.Mint: the unchecked `+=` is covered by a precondition that the credit stays within u128. It is not modelled as wrap-around.
- Subswap.Ledger.Transfer: the same applies to the unchecked `+=` of the credit.
- Subswap.Ledger.Issue: the model requires the counter to be below u128::MAX, which excludes counter exhaustion.
- Balance width: in both pallets the source uses the runtime's generic balance type, whose width it does not fix. The ledger model uses 128 bits for balances and asset ids, so that its unchecked `+=` and `-=` have a bound to be checked against. The vault model keeps balances and prices as unbounded naturals, so that the saturation of `to_u256` (lib.rs:289-291) is observable.
- VaultPallet.Totals: the additions `collateral_amount + x.0` and `request_amount + x.1` (lib.rs:198-199) are unchecked and can overflow the balance type in the source. In the model they are exact, because vault amounts are unbounded.
- A `generate` that fails on `checked_div` would panic. A zero denominator is excluded by `Vault.Valid()`: every registered rate has a non-zero denominator.
- How `Positions` gets populated is not modelled. The constructor of `Vault` receives the registered parameters.
- Framework plumbing is left out: the `decl_*` macros, events, weights, storage hashers, `ensure_signed` and `T::Lookup::lookup`. Callers and targets are already-resolved ids, so a failed lookup cannot happen in the model.
- Declared but unused state is left out: `CirculatingSupply` (never written), and the `liquidation_fee` and `stability_fee` fields of `CDP`, which are carried but never read. The `ModuleId` constant is left out too.
- The AMM behaviour (swap, liquidity) in the module documentation is left out, because the code has no implementation of it.
