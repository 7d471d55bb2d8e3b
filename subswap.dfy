/** The multi-asset ledger of the subswap pallet: an asset-id counter, a
    balance per (asset, account), a total supply per asset and the creator of
    each asset, with the dispatchables `issue`, `mint`, `burn`, `transfer` and
    `destroy`. The model follows the code as written: `mint` and `burn` change
    balances without touching the total supply. */
module Subswap {
  import opened Primitives
  import opened MapSum

  /** Key of the `Balances` storage map. */
  type Key = (AssetId, AccountId)

  datatype Error = NotTheCreator | AmountZero | BalanceLow | BalanceZero

  /** The `DispatchResult` of a dispatchable. */
  datatype Outcome = Ok | Err(error: Error)

  /** The balances of one asset, keyed as in storage. */
  ghost function OfAsset(b: map<Key, Balance>, id: AssetId): map<Key, nat>
  {
    map k | k in b && k.0 == id :: b[k]
  }

  /** The sum of all balances of asset `id`. */
  ghost function AssetSum(b: map<Key, Balance>, id: AssetId): nat
  {
    Sum(OfAsset(b, id))
  }

  /** No account holds a balance entry of asset `id`. */
  ghost predicate FreshAsset(b: map<Key, Balance>, id: AssetId)
  {
    forall k :: k in b ==> k.0 != id
  }

  lemma OfAssetWrite(b: map<Key, Balance>, k: Key, v: Balance, j: AssetId)
    ensures OfAsset(b[k := v], j) == if j == k.0 then OfAsset(b, j)[k := v] else OfAsset(b, j)
  {
    var lhs := OfAsset(b[k := v], j);
    var rhs := if j == k.0 then OfAsset(b, j)[k := v] else OfAsset(b, j);
    assert forall x :: x in lhs <==> x in rhs;
    assert forall x :: x in lhs ==> lhs[x] == rhs[x];
  }

  lemma OfAssetTake(b: map<Key, Balance>, k: Key, j: AssetId)
    ensures OfAsset(b - {k}, j) == if j == k.0 then OfAsset(b, j) - {k} else OfAsset(b, j)
  {
    var lhs := OfAsset(b - {k}, j);
    var rhs := if j == k.0 then OfAsset(b, j) - {k} else OfAsset(b, j);
    assert forall x :: x in lhs <==> x in rhs;
    assert forall x :: x in lhs ==> lhs[x] == rhs[x];
  }

  /** Writing one balance entry changes the sum of that entry's asset by the
      difference and the sum of every other asset not at all. */
  lemma AssetSumWrite(b: map<Key, Balance>, k: Key, v: Balance, after: map<Key, Balance>)
    requires after == b[k := v]
    ensures AssetSum(after, k.0) + Get(b, k) == AssetSum(b, k.0) + v
    ensures forall j :: j != k.0 ==> AssetSum(after, j) == AssetSum(b, j)
  {
    var before := OfAsset(b, k.0);
    OfAssetWrite(b, k, v, k.0);
    assert Get(before, k) == Get(b, k);
    SumUpdate(before, k, v);
    forall j | j != k.0
      ensures AssetSum(after, j) == AssetSum(b, j)
    {
      OfAssetWrite(b, k, v, j);
    }
  }

  /** Removing one balance entry (`take`) lowers its asset's sum by the value
      removed and leaves the other assets' sums alone. */
  lemma AssetSumTake(b: map<Key, Balance>, k: Key)
    ensures AssetSum(b - {k}, k.0) + Get(b, k) == AssetSum(b, k.0)
    ensures forall j :: j != k.0 ==> AssetSum(b - {k}, j) == AssetSum(b, j)
  {
    var before := OfAsset(b, k.0);
    OfAssetTake(b, k, k.0);
    assert Get(before, k) == Get(b, k);
    SumTake(before, k);
    forall j | j != k.0
      ensures AssetSum(b - {k}, j) == AssetSum(b, j)
    {
      OfAssetTake(b, k, j);
    }
  }

  /** Issuing on an asset nobody holds makes the total the whole sum. */
  lemma IssueSums(b: map<Key, Balance>, id: AssetId, origin: AccountId, total: Balance)
    requires FreshAsset(b, id)
    ensures AssetSum(b[(id, origin) := total], id) == total
    ensures forall j :: j != id ==> AssetSum(b[(id, origin) := total], j) == AssetSum(b, j)
  {
    assert OfAsset(b[(id, origin) := total], id) == map[(id, origin) := total];
    SumSingleton((id, origin), total);
    AssetSumWrite(b, (id, origin), total, b[(id, origin) := total]);
  }

  /** The ledger invariant for one asset over plain maps: its balances add up
      to its recorded supply (absent supply reads as 0). */
  ghost predicate ConservedIn(b: map<Key, Balance>, s: map<AssetId, Balance>, id: AssetId)
  {
    AssetSum(b, id) == Get(s, id)
  }

  /** `issue` writes `total` as both the new holding and the new supply: a
      fresh asset starts conserved, and every other asset keeps its sum and
      its conservation. */
  lemma IssueConserves(b: map<Key, Balance>, s: map<AssetId, Balance>, id: AssetId, origin: AccountId,
                       total: Balance, b': map<Key, Balance>, s': map<AssetId, Balance>)
    requires b' == b[(id, origin) := total] && s' == s[id := total]
    ensures FreshAsset(b, id) ==> ConservedIn(b', s', id)
    ensures forall j :: j != id ==> AssetSum(b', j) == AssetSum(b, j)
    ensures forall j :: j != id && ConservedIn(b, s, j) ==> ConservedIn(b', s', j)
  {
    AssetSumWrite(b, (id, origin), total, b');
    if FreshAsset(b, id) {
      IssueSums(b, id, origin, total);
    }
  }

  /** A credit matched by the same rise in supply (the intended `mint`)
      keeps the asset conserved and leaves every other asset's sum alone. */
  lemma MintConserves(b: map<Key, Balance>, s: map<AssetId, Balance>, k: Key, amount: Balance,
                      b': map<Key, Balance>, s': map<AssetId, Balance>)
    requires Get(b, k) + amount <= U128_MAX && Get(s, k.0) + amount <= U128_MAX
    requires b' == Credit(b, k, amount) && s' == s[k.0 := Get(s, k.0) + amount]
    ensures ConservedIn(b, s, k.0) ==> ConservedIn(b', s', k.0)
    ensures forall j :: j != k.0 ==> AssetSum(b', j) == AssetSum(b, j)
  {
    CreditSums(b, k, amount);
  }

  /** `destroy` takes the holding out and lowers the supply by what it took
      (nothing when the holding was 0): the asset's sum drops by the holding,
      so conservation is kept, and no other asset's sum moves. */
  lemma DestroyConserves(b: map<Key, Balance>, s: map<AssetId, Balance>, k: Key,
                         b': map<Key, Balance>, s': map<AssetId, Balance>)
    requires Get(b, k) <= Get(s, k.0)
    requires b' == b - {k}
    requires s' == if Get(b, k) == 0 then s else s[k.0 := Get(s, k.0) - Get(b, k)]
    ensures AssetSum(b', k.0) + Get(b, k) == AssetSum(b, k.0)
    ensures ConservedIn(b, s, k.0) ==> ConservedIn(b', s', k.0)
    ensures forall j :: j != k.0 ==> AssetSum(b', j) == AssetSum(b, j)
    ensures Get(b, k) == 0 ==> forall x :: Get(b', x) == Get(b, x)
  {
    AssetSumTake(b, k);
  }

  /** The credit of module.rs:79 and :130, `*balance += amount` on a storage
      entry that reads as 0 when absent. */
  function Credit(b: map<Key, Balance>, k: Key, amount: Balance): (r: map<Key, Balance>)
    requires Get(b, k) + amount <= U128_MAX
    ensures k in r && r[k] == Get(b, k) + amount
    ensures r - {k} == b - {k}
  {
    b[k := Get(b, k) + amount]
  }

  /** The debit of module.rs:104 and :129, which writes back `balance - amount`. */
  function Debit(b: map<Key, Balance>, k: Key, amount: Balance): (r: map<Key, Balance>)
    requires amount <= Get(b, k)
    ensures k in r && r[k] + amount == Get(b, k)
    ensures r - {k} == b - {k}
  {
    b[k := Get(b, k) - amount]
  }

  /** A credit raises its asset's sum by `amount` and no other asset's. */
  lemma CreditSums(b: map<Key, Balance>, k: Key, amount: Balance)
    requires Get(b, k) + amount <= U128_MAX
    ensures AssetSum(Credit(b, k, amount), k.0) == AssetSum(b, k.0) + amount
    ensures forall j :: j != k.0 ==> AssetSum(Credit(b, k, amount), j) == AssetSum(b, j)
  {
    AssetSumWrite(b, k, Get(b, k) + amount, Credit(b, k, amount));
  }

  /** A debit lowers its asset's sum by `amount` and no other asset's. */
  lemma DebitSums(b: map<Key, Balance>, k: Key, amount: Balance)
    requires amount <= Get(b, k)
    ensures AssetSum(Debit(b, k, amount), k.0) + amount == AssetSum(b, k.0)
    ensures forall j :: j != k.0 ==> AssetSum(Debit(b, k, amount), j) == AssetSum(b, j)
  {
    AssetSumWrite(b, k, Get(b, k) - amount, Debit(b, k, amount));
  }

  /** A transfer as written at module.rs:129-130 (debit, then a credit that
      reads the debited map) cannot overflow the credit when the debit left
      the target's holding in range, and leaves the sum of every asset as it
      was. */
  lemma TransferSums(b: map<Key, Balance>, id: AssetId, from: AccountId, to: AccountId, amount: Balance)
    requires amount <= Get(b, (id, from))
    requires from == to || Get(b, (id, to)) + amount <= U128_MAX
    ensures Get(Debit(b, (id, from), amount), (id, to)) + amount <= U128_MAX
    ensures forall j :: AssetSum(Credit(Debit(b, (id, from), amount), (id, to), amount), j) == AssetSum(b, j)
  {
    var debited := Debit(b, (id, from), amount);
    assert Get(debited, (id, to)) == if from == to then Get(b, (id, from)) - amount else Get(b, (id, to));
    DebitSums(b, (id, from), amount);
    CreditSums(debited, (id, to), amount);
    forall j
      ensures AssetSum(Credit(debited, (id, to), amount), j) == AssetSum(b, j)
    {
      if j != id {
        assert AssetSum(debited, j) == AssetSum(b, j);
      }
    }
  }

  /** A self-transfer of a non-zero amount restores the map it started from:
      the credit reads the holding the debit has just written. */
  lemma SelfTransferIsIdentity(b: map<Key, Balance>, id: AssetId, who: AccountId, amount: Balance)
    requires 0 < amount <= Get(b, (id, who))
    ensures Get(Debit(b, (id, who), amount), (id, who)) + amount <= U128_MAX
    ensures Credit(Debit(b, (id, who), amount), (id, who), amount) == b
  {
    assert (id, who) in b;
  }

  /** Where the sum of an asset equals its recorded supply, no single holding
      exceeds that supply. */
  lemma HoldingBelowSupply(b: map<Key, Balance>, id: AssetId, who: AccountId, supply: nat)
    requires AssetSum(b, id) == supply
    ensures Get(b, (id, who)) <= supply
  {
    EntryBelowSum(OfAsset(b, id), (id, who));
    assert Get(OfAsset(b, id), (id, who)) == Get(b, (id, who));
  }

  class Ledger {
    /** `NextAssetId`: the counter from which `issue` draws identifiers. */
    var nextAssetId: AssetId
    /** `Balances`: (asset, account) to holding; an absent key reads as 0. */
    var balances: map<Key, Balance>
    /** `TotalSupply`: asset to supply; an absent key reads as 0. */
    var totalSupply: map<AssetId, Balance>
    /** `Creator`: asset to issuing account; an absent key reads as the
        default account. */
    var creator: map<AssetId, AccountId>

    /** Every recorded creator belongs to an identifier already handed out;
        identifier 0 ("save 0 for native currency") is never one of them. */
    ghost predicate Valid()
      reads this
    {
      forall id :: id in creator ==> 0 < id < nextAssetId
    }

    /** The genesis state: every storage item at its default. */
    constructor ()
      ensures Valid()
      ensures nextAssetId == 0 && balances == map[] && totalSupply == map[] && creator == map[]
      ensures forall j :: Conserved(j)
    {
      nextAssetId := 0;
      balances := map[];
      totalSupply := map[];
      creator := map[];
      new;
      forall j
        ensures Conserved(j)
      {
        assert OfAsset(balances, j) == map[];
      }
    }

    function BalanceOf(id: AssetId, who: AccountId): (r: Balance)
      reads this
      ensures (id, who) in balances ==> r == balances[(id, who)]
      ensures (id, who) !in balances ==> r == 0
      ensures r == Get(balances, (id, who))
    {
      Get(balances, (id, who))
    }

    function TotalSupplyOf(id: AssetId): (r: Balance)
      reads this
      ensures id in totalSupply ==> r == totalSupply[id]
      ensures id !in totalSupply ==> r == 0
      ensures r == Get(totalSupply, id)
    {
      Get(totalSupply, id)
    }

    function CreatorOf(id: AssetId): (r: AccountId)
      reads this
      ensures id in creator ==> r == creator[id]
      ensures id !in creator ==> r == DEFAULT_ACCOUNT
    {
      if id in creator then creator[id] else DEFAULT_ACCOUNT
    }

    /** The ledger invariant for one asset: its balances add up to its supply. */
    ghost predicate Conserved(id: AssetId)
      reads this
    {
      ConservedIn(balances, totalSupply, id)
    }

    /** `issue`: a fresh identifier (never 0, never handed out before) whose
        whole supply `total` belongs to `origin`. */
    method Issue(origin: AccountId, total: Balance) returns (id: AssetId)
      requires Valid()
      requires nextAssetId < U128_MAX
      modifies this
      ensures Valid()
      ensures id != 0 && old(nextAssetId) <= id && nextAssetId == id + 1
      ensures id == if old(nextAssetId) == 0 then 1 else old(nextAssetId)
      ensures id !in old(creator)
      ensures balances == old(balances)[(id, origin) := total]
      ensures totalSupply == old(totalSupply)[id := total]
      ensures creator == old(creator)[id := origin]
      ensures FreshAsset(old(balances), id) ==> Conserved(id)
      ensures forall j :: j != id ==> AssetSum(balances, j) == AssetSum(old(balances), j)
      ensures forall j :: j != id && old(Conserved(j)) ==> Conserved(j)
    {
      id := nextAssetId;
      if id == 0 {
        id := id + 1;
      }
      var next := nextAssetId;
      if next == 0 {
        next := next + 1;
      }
      next := next + 1;
      nextAssetId := next;

      ghost var before, supplyBefore := balances, totalSupply;
      balances := balances[(id, origin) := total];
      totalSupply := totalSupply[id := total];
      creator := creator[id := origin];
      IssueConserves(before, supplyBefore, id, origin, total, balances, totalSupply);
    }

    /** `mint`: only the creator may mint, and never zero; the target's holding
        grows by `amount` while the total supply stays as it was. */
    method Mint(origin: AccountId, id: AssetId, target: AccountId, amount: Balance) returns (r: Outcome)
      requires Valid()
      requires origin == CreatorOf(id) && amount != 0 ==> BalanceOf(id, target) + amount <= U128_MAX
      modifies this`balances
      ensures Valid()
      ensures r == if origin != CreatorOf(id) then Err(NotTheCreator)
                   else if amount == 0 then Err(AmountZero)
                   else Ok
      ensures r.Err? ==> balances == old(balances)
      ensures r.Ok? ==> balances == Credit(old(balances), (id, target), amount)
      ensures totalSupply == old(totalSupply)
      ensures r.Ok? ==> AssetSum(balances, id) == AssetSum(old(balances), id) + amount
      ensures forall j :: j != id ==> AssetSum(balances, j) == AssetSum(old(balances), j)
    {
      var creatorId := CreatorOf(id);
      if origin != creatorId {
        return Err(NotTheCreator);
      }
      if amount == 0 {
        return Err(AmountZero);
      }
      CreditSums(balances, (id, target), amount);
      balances := Credit(balances, (id, target), amount);
      r := Ok;
    }

    /** `mint` as it is evidently meant: the same guards and credit, and the
        total supply grows by the same amount, which keeps the ledger
        invariant. */
    method MintIntended(origin: AccountId, id: AssetId, target: AccountId, amount: Balance) returns (r: Outcome)
      requires Valid()
      requires origin == CreatorOf(id) && amount != 0 ==>
                 BalanceOf(id, target) + amount <= U128_MAX && TotalSupplyOf(id) + amount <= U128_MAX
      modifies this`balances, this`totalSupply
      ensures Valid()
      ensures r == if origin != CreatorOf(id) then Err(NotTheCreator)
                   else if amount == 0 then Err(AmountZero)
                   else Ok
      ensures r.Err? ==> balances == old(balances) && totalSupply == old(totalSupply)
      ensures r.Ok? ==> balances == Credit(old(balances), (id, target), amount)
      ensures r.Ok? ==> totalSupply == old(totalSupply)[id := old(TotalSupplyOf(id)) + amount]
      ensures old(Conserved(id)) ==> Conserved(id)
      ensures forall j :: j != id ==> AssetSum(balances, j) == AssetSum(old(balances), j)
    {
      var creatorId := CreatorOf(id);
      if origin != creatorId {
        return Err(NotTheCreator);
      }
      if amount == 0 {
        return Err(AmountZero);
      }
      ghost var before, supplyBefore := balances, totalSupply;
      balances := Credit(balances, (id, target), amount);
      totalSupply := totalSupply[id := TotalSupplyOf(id) + amount];
      MintConserves(before, supplyBefore, (id, target), amount, balances, totalSupply);
      r := Ok;
    }

    /** `burn`: never zero and never more than the caller holds; the caller's
        holding drops by `amount` while the total supply stays as it was.
        `target` is accepted and ignored. */
    method Burn(origin: AccountId, id: AssetId, target: AccountId, amount: Balance) returns (r: Outcome)
      requires Valid()
      modifies this`balances
      ensures Valid()
      ensures r == if amount == 0 then Err(AmountZero)
                   else if old(BalanceOf(id, origin)) < amount then Err(BalanceLow)
                   else Ok
      ensures r.Err? ==> balances == old(balances)
      ensures r.Ok? ==> balances == Debit(old(balances), (id, origin), amount)
      ensures totalSupply == old(totalSupply)
      ensures r.Ok? ==> AssetSum(balances, id) + amount == AssetSum(old(balances), id)
      ensures forall j :: j != id ==> AssetSum(balances, j) == AssetSum(old(balances), j)
    {
      var originBalance := BalanceOf(id, origin);
      if amount == 0 {
        return Err(AmountZero);
      }
      if originBalance < amount {
        return Err(BalanceLow);
      }
      DebitSums(balances, (id, origin), amount);
      balances := Debit(balances, (id, origin), amount);
      r := Ok;
    }

    /** `transfer`: never zero and never more than the caller holds; the debit
        is written before the credit reads the target, so a self-transfer
        leaves the holding as it was. Every asset's sum is preserved. */
    method Transfer(origin: AccountId, id: AssetId, target: AccountId, amount: Balance) returns (r: Outcome)
      requires Valid()
      requires amount != 0 && amount <= BalanceOf(id, origin) && origin != target ==>
                 BalanceOf(id, target) + amount <= U128_MAX
      modifies this`balances
      ensures Valid()
      ensures r == if amount == 0 then Err(AmountZero)
                   else if old(BalanceOf(id, origin)) < amount then Err(BalanceLow)
                   else Ok
      ensures r.Err? ==> balances == old(balances)
      ensures r.Ok? ==> Get(Debit(old(balances), (id, origin), amount), (id, target)) + amount <= U128_MAX
      ensures r.Ok? ==> balances == Credit(Debit(old(balances), (id, origin), amount), (id, target), amount)
      ensures r.Ok? && origin != target ==>
                && BalanceOf(id, origin) == old(BalanceOf(id, origin)) - amount
                && BalanceOf(id, target) == old(BalanceOf(id, target)) + amount
      ensures origin == target ==> balances == old(balances)
      ensures totalSupply == old(totalSupply)
      ensures forall j :: AssetSum(balances, j) == AssetSum(old(balances), j)
      ensures forall j :: old(Conserved(j)) ==> Conserved(j)
    {
      var originBalance := BalanceOf(id, origin);
      if amount == 0 {
        return Err(AmountZero);
      }
      if originBalance < amount {
        return Err(BalanceLow);
      }
      TransferSums(balances, id, origin, target, amount);
      if origin == target {
        SelfTransferIsIdentity(balances, id, origin, amount);
      }
      balances := Debit(balances, (id, origin), amount);
      balances := Credit(balances, (id, target), amount);
      r := Ok;
    }

    /** `destroy`: the caller's holding is taken out of storage first and the
        call fails if it was zero; otherwise the total supply drops by the
        amount removed, so "sum minus supply" is preserved. */
    method Destroy(origin: AccountId, id: AssetId) returns (r: Outcome)
      requires Valid()
      requires BalanceOf(id, origin) <= TotalSupplyOf(id)
      modifies this`balances, this`totalSupply
      ensures Valid()
      ensures r == if old(BalanceOf(id, origin)) == 0 then Err(BalanceZero) else Ok
      ensures balances == old(balances) - {(id, origin)}
      ensures r.Err? ==> totalSupply == old(totalSupply)
      ensures r.Err? ==> forall k :: Get(balances, k) == Get(old(balances), k)
      ensures r.Ok? ==> totalSupply == old(totalSupply)[id := old(TotalSupplyOf(id)) - old(BalanceOf(id, origin))]
      ensures AssetSum(balances, id) + old(BalanceOf(id, origin)) == AssetSum(old(balances), id)
      ensures old(Conserved(id)) ==> Conserved(id)
      ensures forall j :: j != id ==> AssetSum(balances, j) == AssetSum(old(balances), j)
    {
      var balance := BalanceOf(id, origin);
      ghost var before, supplyBefore := balances, totalSupply;
      balances := balances - {(id, origin)};
      if balance == 0 {
        DestroyConserves(before, supplyBefore, (id, origin), balances, totalSupply);
        return Err(BalanceZero);
      }
      totalSupply := totalSupply[id := TotalSupplyOf(id) - balance];
      DestroyConserves(before, supplyBefore, (id, origin), balances, totalSupply);
      r := Ok;
    }
  }

  /** Two successive issues hand out strictly increasing identifiers. */
  method SuccessiveIssues(ledger: Ledger, a: AccountId, b: AccountId, ta: Balance, tb: Balance)
    returns (first: AssetId, second: AssetId)
    requires ledger.Valid()
    requires ledger.nextAssetId < U128_MAX - 2
    modifies ledger
    ensures 0 < first < second
  {
    first := ledger.Issue(a, ta);
    second := ledger.Issue(b, tb);
  }

  /** Under the code as written, a creator who mints after issuing holds more
      than the recorded supply: the asset is no longer conserved, and
      `holding > supply` is exactly the precondition of `Destroy` failing,
      so the `-=` of `destroy` (module.rs:147) would subtract past zero. */
  method MintBreaksConservation() returns (holding: Balance, supply: Balance)
    ensures holding == 15 && supply == 10
    ensures holding > supply
  {
    var ledger := new Ledger();
    var id := ledger.Issue(7, 10);
    var r := ledger.Mint(7, id, 7, 5);
    holding := ledger.BalanceOf(id, 7);
    supply := ledger.TotalSupplyOf(id);
  }

  /** `Creator::get` yields the default account for an asset never issued, so
      that account passes the creator check of `mint` (even of the corrected
      one) on such an asset. When `issue` later hands that identifier out it
      writes only its own holding and the supply, and the earlier holding is
      left uncounted: account 9 holds 5 of a supply of 1. */
  method DefaultCreatorMintsUnissued() returns (holding: Balance, supply: Balance)
    ensures holding == 5 && supply == 1
    ensures holding > supply
  {
    var ledger := new Ledger();
    var r := ledger.MintIntended(DEFAULT_ACCOUNT, 1, 9, 5);
    var id := ledger.Issue(7, 1);
    holding := ledger.BalanceOf(id, 9);
    supply := ledger.TotalSupplyOf(id);
  }

  /** Under the ledger invariant the precondition of `Destroy` always holds. */
  lemma ConservedDestroyIsSafe(ledger: Ledger, id: AssetId, who: AccountId)
    requires ledger.Conserved(id)
    ensures ledger.BalanceOf(id, who) <= ledger.TotalSupplyOf(id)
  {
    HoldingBelowSupply(ledger.balances, id, who, ledger.TotalSupplyOf(id));
  }
}
