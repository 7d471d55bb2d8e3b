/** Fixed-width unsigned integers, identifiers and the Option wrapper shared by
    the ledger and the vault. */
module Primitives {

  /** u128::MAX */
  const U128_MAX: nat := 0xffff_ffff_ffff_ffff_ffff_ffff_ffff_ffff
  /** U256::max_value() */
  const U256_MAX: nat := 0xffff_ffff_ffff_ffff_ffff_ffff_ffff_ffff_ffff_ffff_ffff_ffff_ffff_ffff_ffff_ffff

  type U128 = x: int | 0 <= x <= U128_MAX
  type U256 = x: int | 0 <= x <= U256_MAX

  /** The ledger's balances and asset identifiers are 128-bit unsigned. */
  type Balance = U128
  type AssetId = U128

  /** Accounts are compared only for equality; `DEFAULT_ACCOUNT` is what a
      storage lookup yields for a key that was never written. */
  type AccountId = nat
  const DEFAULT_ACCOUNT: AccountId := 0

  datatype Option<+T> = None | Some(value: T) {
    function GetOr(default: T): T {
      match this
      case Some(v) => v
      case None => default
    }
  }
}
