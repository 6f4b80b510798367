/** The share ledger of one securitized NFT: a fixed supply of fungible
    shares issued to the NFT's owner, redeemable for the NFT either with all
    shares or with a payment topping up the shares the redeemer holds, after
    which the remaining holders claim their part of that payment.

    Calls to other contracts (NEAR transfers, `nft_transfer`, the chained
    `cleanup`, `delete_account`) are recorded in `outbox`, in the order the
    contract issues them; what happens to them afterwards is not modelled. */
module SharesContract {
  import opened Outcomes
  import opened Accounts
  import opened Balances
  import opened SharesMetadata

  /** A promise the ledger issues to the runtime. */
  datatype Effect =
    | Transfer(receiver: AccountId, amount: nat)
    | NftTransfer(nftContract: AccountId, receiver: AccountId, tokenId: TokenId)
      // a NEAR transfer with a `cleanup` call on this ledger chained after it
    | TransferThenCleanup(receiver: AccountId, amount: nat)
      // delete this ledger's account, leftover NEAR going to `beneficiary`
    | DeleteAccount(beneficiary: AccountId)

  datatype LedgerError =
    | AlreadyRedeemed      // "token already redeemed"
    | InsufficientPayment  // "insufficient payment amount"
    | NotRedeemed          // "token not redeemed"
    | NothingToClaim       // "nothing to claim"
    | AlreadyClaimed       // "balance has already been claimed"
    | SameAccount          // transfer: sender and receiver should be different
    | ZeroAmount           // transfer: the amount should be positive
    | InsufficientBalance  // transfer: the sender does not have enough

  class Shares {
    // token.accounts and token.total_supply of the fungible-token primitive
    var balances: map<AccountId, nat>
    var totalSupply: nat
    // the metadata singleton; it holds the share price and the released flag
    var metadata: Metadata
    // every promise issued so far, oldest first
    var outbox: seq<Effect>

    /** The accounting invariant: the balances add up to the total supply;
        and the metadata is the kind `assert_valid` accepts. */
    ghost predicate Valid()
      reads this
    {
      && Sum(balances) == totalSupply
      && AssertValid(metadata) == Pass
    }

    function Released(): bool
      reads this
    {
      metadata.released
    }

    function SharePrice(): nat
      reads this
    {
      metadata.sharePrice
    }

    /** `ft_balance_of`: what `account` holds, never more than the supply. */
    function FtBalanceOf(account: AccountId): (r: nat)
      reads this
      ensures Valid() ==> r <= totalSupply
    {
      BalanceOf(balances, account)
    }

    /** `create`: issues all `sharesCount` shares to `ownerId`. */
    constructor Create(nftContractAddress: AccountId, nftTokenId: TokenId, ownerId: AccountId,
                       sharesCount: nat, decimals: byte, sharePrice: nat)
      ensures Valid()
      ensures totalSupply == sharesCount && FtBalanceOf(ownerId) == sharesCount
      ensures forall a :: a != ownerId ==> FtBalanceOf(a) == 0
      ensures !Released() && SharePrice() == sharePrice
      ensures metadata == InitialMetadata(nftContractAddress, nftTokenId, decimals, sharePrice)
      ensures outbox == []
    {
      metadata := InitialMetadata(nftContractAddress, nftTokenId, decimals, sharePrice);
      // internal_register_account, then internal_deposit
      balances := map[ownerId := 0];
      totalSupply := 0;
      outbox := [];
      new;
      balances := balances[ownerId := balances[ownerId] + sharesCount];
      totalSupply := totalSupply + sharesCount;
      SumUpdate(map[ownerId := 0], ownerId, sharesCount);
      SumRemove(map[ownerId := 0], ownerId);
      assert map[ownerId := 0] - {ownerId} == map[];
    }

    /** `exit_price`: the NEAR it takes to buy every outstanding share, that
        is, the sum of what each holder's shares are worth. */
    function ExitPrice(): (r: nat)
      reads this
      ensures Valid() ==> r == Sum(Scaled(balances, SharePrice()))
    {
      SumScaled(balances, SharePrice());
      totalSupply * SharePrice()
    }

    /** `redeem_amount_of`: the NEAR `from` must add to the shares it holds
        to redeem the NFT: exactly what all the other holders' shares are
        worth. Fails once the NFT has been redeemed. */
    function RedeemAmountOf(from: AccountId): (r: Result<nat, LedgerError>)
      reads this
      requires Valid()
      ensures r.Err? <==> Released()
      ensures r.Err? ==> r.error == AlreadyRedeemed
      ensures r.Ok? ==> r.value + FtBalanceOf(from) * SharePrice() == ExitPrice()
      ensures r.Ok? ==> r.value == Sum(Scaled(balances - {from}, SharePrice()))
    {
      if Released() then Err(AlreadyRedeemed)
      else
        SumScaled(balances - {from}, SharePrice());
        PriceOfDifference(FtBalanceOf(from), totalSupply, SharePrice());
        Ok(ExitPrice() - FtBalanceOf(from) * SharePrice())
    }

    /** `vault_balance`: nothing while the NFT is unredeemed; afterwards the
        redeemer's payment still owed to the remaining holders, which covers
        every holder's claim exactly. */
    function VaultBalance(): (r: nat)
      reads this
      ensures !Released() ==> r == 0
      ensures Released() ==> r == ExitPrice()
      ensures Valid() && Released() ==> r == Sum(Scaled(balances, SharePrice()))
    {
      if !Released() then 0 else totalSupply * SharePrice()
    }

    /** `vault_balance_of`: nothing while the NFT is unredeemed; afterwards
        what `from`'s shares are worth, never more than the vault holds. */
    function VaultBalanceOf(from: AccountId): (r: nat)
      reads this
      ensures !Released() ==> r == 0
      ensures Released() ==> r == FtBalanceOf(from) * SharePrice()
      ensures Valid() ==> r <= VaultBalance()
    {
      if !Released() then 0
      else
        ValueAtMostTotal(balances, from, SharePrice());
        FtBalanceOf(from) * SharePrice()
    }

    /** The fungible-token primitive's `ft_transfer` from `sender`: moves
        `amount` shares to `receiver`. */
    method FtTransfer(sender: AccountId, receiver: AccountId, amount: nat)
      returns (r: Outcome<LedgerError>)
      requires Valid()
      modifies this
      ensures Valid()
      ensures r == Pass <==> sender != receiver && 0 < amount <= old(FtBalanceOf(sender))
      ensures sender == receiver ==> r == Fail(SameAccount)
      ensures sender != receiver && amount == 0 ==> r == Fail(ZeroAmount)
      ensures sender != receiver && 0 < amount && old(FtBalanceOf(sender)) < amount
              ==> r == Fail(InsufficientBalance)
      ensures r.Fail? ==> unchanged(this)
      ensures r.Pass? ==> FtBalanceOf(sender) == old(FtBalanceOf(sender)) - amount
      ensures r.Pass? ==> FtBalanceOf(receiver) == old(FtBalanceOf(receiver)) + amount
      ensures r.Pass? ==> forall a :: a != sender && a != receiver ==> FtBalanceOf(a) == old(FtBalanceOf(a))
      ensures totalSupply == old(totalSupply) && metadata == old(metadata) && outbox == old(outbox)
    {
      if sender == receiver {
        return Fail(SameAccount);
      }
      if amount == 0 {
        return Fail(ZeroAmount);
      }
      var senderBalance := FtBalanceOf(sender);
      if senderBalance < amount {
        return Fail(InsufficientBalance);
      }
      SumTransfer(balances, sender, receiver, amount);
      balances := balances[sender := senderBalance - amount];
      balances := balances[receiver := FtBalanceOf(receiver) + amount];
      r := Pass;
    }

    /** `redeem` by `caller` with `payment` NEAR attached. */
    method Redeem(caller: AccountId, payment: nat) returns (r: Outcome<LedgerError>)
      requires Valid()
      modifies this
      ensures Valid()
      ensures old(Released()) ==> r == Fail(AlreadyRedeemed)
      ensures !old(Released()) ==> (r == Pass <==> old(RedeemAmountOf(caller)).value <= payment)
      ensures !old(Released()) && payment < old(RedeemAmountOf(caller)).value
              ==> r == Fail(InsufficientPayment)
      ensures r.Fail? ==> unchanged(this)
      // a successful redeem releases the NFT and burns all the caller's shares
      ensures r.Pass? ==> metadata == SetAsReleased(old(metadata))
      ensures r.Pass? ==> balances == old(balances)[caller := 0]
      ensures r.Pass? ==> totalSupply == old(totalSupply) - old(FtBalanceOf(caller))
      ensures r.Pass? ==> forall a :: a != caller ==> FtBalanceOf(a) == old(FtBalanceOf(a))
      // change to the caller, the NFT to the caller, then cleanup
      ensures r.Pass? ==>
                outbox == old(outbox)
                  + [ Transfer(caller, payment - old(RedeemAmountOf(caller)).value),
                      NftTransfer(metadata.nftContractAddress, caller, metadata.nftTokenId) ]
                  + (if totalSupply == 0 then [DeleteAccount(caller)] else [])
      // the NEAR the redeemer paid and kept back stays in the vault
      ensures r.Pass? ==> VaultBalance() == old(RedeemAmountOf(caller)).value
    {
      if Released() {
        return Fail(AlreadyRedeemed);
      }
      var redeemAmount := RedeemAmountOf(caller).value;
      if payment < redeemAmount {
        return Fail(InsufficientPayment);
      }
      outbox := outbox + [Transfer(caller, payment - redeemAmount)];

      metadata := SetAsReleased(metadata);

      var userShares := FtBalanceOf(caller);
      SumUpdate(balances, caller, 0);
      PriceOfDifference(userShares, totalSupply, SharePrice());
      balances := balances[caller := 0];
      totalSupply := totalSupply - userShares;

      outbox := outbox + [NftTransfer(metadata.nftContractAddress, caller, metadata.nftTokenId)];
      Cleanup(caller);
      r := Pass;
    }

    /** `claim` by `caller` once the NFT has been redeemed by payment. */
    method Claim(caller: AccountId) returns (r: Outcome<LedgerError>)
      requires Valid()
      modifies this
      ensures Valid()
      ensures !old(Released()) ==> r == Fail(NotRedeemed)
      ensures old(Released()) && old(FtBalanceOf(caller)) == 0 ==> r == Fail(NothingToClaim)
      ensures old(Released()) && old(FtBalanceOf(caller)) > 0 && SharePrice() == 0
              ==> r == Fail(AlreadyClaimed)
      ensures r == Pass <==> old(VaultBalanceOf(caller)) > 0
      ensures r.Fail? ==> unchanged(this)
      // the caller's shares are burnt, and it is paid exactly what they were worth
      ensures r.Pass? ==> balances == old(balances)[caller := 0]
      ensures r.Pass? ==> totalSupply == old(totalSupply) - old(FtBalanceOf(caller))
      ensures r.Pass? ==> metadata == old(metadata)
      ensures r.Pass? ==> outbox == old(outbox) + [TransferThenCleanup(caller, old(VaultBalanceOf(caller)))]
      // the vault shrinks by exactly the payout
      ensures r.Pass? ==> VaultBalance() + old(VaultBalanceOf(caller)) == old(VaultBalance())
    {
      if !Released() {
        return Fail(NotRedeemed);
      }
      var userShares := FtBalanceOf(caller);
      if userShares == 0 {
        return Fail(NothingToClaim);
      }
      var claimAmount := VaultBalanceOf(caller);
      if claimAmount == 0 {
        return Fail(AlreadyClaimed);
      }
      SumUpdate(balances, caller, 0);
      PriceOfDifference(userShares, totalSupply, SharePrice());
      balances := balances[caller := 0];
      totalSupply := totalSupply - userShares;
      outbox := outbox + [TransferThenCleanup(caller, claimAmount)];
      r := Pass;
    }

    /** `cleanup`: once no share is left, asks for this ledger's account to
        be deleted, leftover NEAR going to `signer`. */
    method Cleanup(signer: AccountId)
      modifies this`outbox
      ensures totalSupply == 0 ==> outbox == old(outbox) + [DeleteAccount(signer)]
      ensures totalSupply != 0 ==> outbox == old(outbox)
    {
      if totalSupply == 0 {
        outbox := outbox + [DeleteAccount(signer)];
      }
    }
  }
}
