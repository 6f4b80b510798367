# Fractose share ledger, in Dafny

A model of the NEAR contracts that securitize an NFT into fungible shares:

- **The share ledger** (`shares/src/lib.rs`, class `SharesContract.Shares`).
  One ledger is created per securitized NFT. It issues a fixed supply of
  shares to the NFT's owner at a fixed share price. Anyone can then redeem
  the NFT: with every share, or with fewer shares plus NEAR covering the
  shares held by everyone else. Redeeming releases the ledger. After that,
  the remaining holders claim what their shares are worth from the
  redeemer's payment, and the ledger asks to be deleted once no share is
  left. The class keeps the balance map, the total supply, the metadata
  (share price and `released` flag) and an `outbox` of the promises the
  contract issues, in order. Its invariant `Valid()` says that the balances
  add up to the total supply. Every operation keeps that invariant.
- **The metadata record** (`shares/src/shares_metadata.rs`, module
  `SharesMetadata`): the validity check, the one-way release toggle, and
  the metadata `create` builds.
- **The registry's wrapper-name derivation** (`contract/src/lib.rs`, module
  `Fractose`): dots become dashes, and the registry's own account is
  appended. `securitize` has no state and issues one deployment request.

Module `Accounts` holds the account-name type both contracts share.
Module `Balances` holds the balance map's lookup and the ghost sum of all
balances, with its lemmas. `SharesScenarios` replays the contract's unit
tests as client code of the class; its last scenario extends
`test_redeem_with_shares_and_exit_price` with a claim by the remaining
holder and a repeated claim, which the source's tests do not have. `Outcomes` holds the result types: a
contract panic is an `Err`/`Fail` result, and a failed call leaves the
ledger unchanged, because a panic reverts the whole call.

`SharesMetadata` is a plain value. The contract copies it out of storage,
calls `set_as_released` on the copy and stores the copy back, so nothing
else can see the change in between. The model therefore writes
`metadata := SetAsReleased(metadata)`. `Redeem` is the only operation that
changes `metadata`, and it only sets the flag. So `released` never goes
back to `false`.

The caller (`env::signer_account_id`) is a parameter of every operation;
the attached deposit is a parameter of `Redeem`, the only payable method. Promises to other contracts are appended to `outbox` and never
executed.

Three facts about the code that the model shows:

- The wrapper naming is not collision-free. `replace(".", "-")` gives
  `a.b` and `a-b` the same wrapper account (`WrapperNameCollision`). It
  is injective only on names without dashes (`WrapperNameInjective`).
- The "balance has already been claimed" failure of `claim` can happen.
  `create` accepts a share price of 0, and then every claim by a holder
  with shares fails with exactly that error (`Claim`'s third
  postcondition).
- `contract/src/lib.rs` keeps no wrapper set and no asset-to-ledger map,
  does not stop a wrapper from being wrapped, and does not compute the
  share price. It only derives the wrapper name and requests the
  deployment, so only that is modelled.

## Model

| member | source | states |
|---|---|---|
| SharesMetadata.AssertValid | shares/src/shares_metadata.rs:31-37 | passes iff the spec tag is `shares-ft-1.0.0`, reference and hash are both set or both unset, and a set hash is 32 bytes; otherwise fails with the first check that fails, in source order |
| SharesMetadata.SetAsReleased | shares/src/shares_metadata.rs:39-41 | the result is released; spec, reference, hash, decimals, share price and NFT identifiers are unchanged |
| SharesMetadata.SetAsReleasedIdempotent | shares/src/shares_metadata.rs:39-41 | releasing twice equals releasing once |
| SharesMetadata.SetAsReleasedKeepsValidity | shares/src/shares_metadata.rs:39-41 | releasing does not change the outcome of `assert_valid` |
| SharesMetadata.InitialMetadata | shares/src/lib.rs:58-73 | the metadata `create` builds passes `assert_valid`, is not released and carries the given price, decimals and NFT identifiers |
| SharesContract.Shares.Create | shares/src/lib.rs:53-86 | the owner holds all `shares_count` shares, every other account holds none, total supply is `shares_count`, not released, no promise issued; the supply invariant holds |
| SharesContract.Shares.ExitPrice | shares/src/lib.rs:88-91 | `total_supply * share_price` is the sum of what every holder's shares are worth |
| SharesContract.Shares.RedeemAmountOf | shares/src/lib.rs:93-101 | fails iff released; otherwise the amount plus the holder's shares at the share price equals the exit price, and equals what all other holders' shares are worth (never negative) |
| SharesContract.Shares.VaultBalance | shares/src/lib.rs:103-114 | 0 while not released; once released, the exit price, which is the sum of every holder's claim |
| SharesContract.Shares.VaultBalanceOf | shares/src/lib.rs:116-128 | 0 while not released; once released, the holder's balance times the share price, never more than the vault |
| SharesContract.Shares.FtTransfer | shares/src/lib.rs:254 | the NEP-141 transfer stand-in: succeeds iff sender and receiver differ, the amount is positive and covered; moves exactly the amount; other balances, total supply and metadata unchanged; fails with no change |
| SharesContract.Shares.Redeem | shares/src/lib.rs:130-180 | fails if released, or if the payment is below `redeem_amount_of(caller)`, and then changes nothing; on success: released, caller's balance 0, total supply lowered by exactly that balance, other balances unchanged, promises issued are refund `payment - redeem_amount`, `nft_transfer` to the caller, then deletion iff no share is left; the vault then holds exactly `redeem_amount`; supply invariant kept |
| SharesContract.Shares.Claim | shares/src/lib.rs:182-214 | fails unless released ("token not redeemed"), unless the caller holds shares ("nothing to claim"), unless they are worth something ("balance has already been claimed"), changing nothing; succeeds iff the caller's vault share is positive; on success the caller's balance is 0, supply lowered by it, metadata unchanged, one payout of exactly the vault share chained before `cleanup`, and the vault shrinks by exactly the payout |
| SharesContract.Shares.Cleanup | shares/src/lib.rs:217-230 | requests deletion of the ledger, leftover NEAR to the signer, iff total supply is 0; nothing else changes |
| Balances.BalanceOf | shares/src/lib.rs:254 | `ft_balance_of`: a holder's balance never exceeds the sum of all balances, and the sum is that balance plus the sum of everyone else's, so `exit_price - balance * share_price` (lib.rs:100) cannot underflow |
| SharesContract.Shares.FtBalanceOf | shares/src/lib.rs:254 | the ledger's `ft_balance_of`; under the supply invariant no balance exceeds the total supply |
| Balances.SumUpdate | shares/src/lib.rs:159-161 | overwriting one balance changes the sum by exactly the difference, so burning a balance and subtracting it from the supply keeps the supply equal to the sum |
| Balances.SumTransfer | shares/src/lib.rs:254 | moving shares between two distinct accounts keeps the sum |
| Balances.SumScaled | shares/src/lib.rs:103-128 | the vault balances of all holders add up to the total supply times the share price |
| Balances.ValueAtMostTotal | shares/src/lib.rs:118-125 | no holder's vault share exceeds the whole vault |
| Fractose.ReplaceDots | contract/src/lib.rs:39 | same length as the input, each dot replaced by a dash, every other character kept at its position, no dot left |
| Fractose.RestoreDotsAfterReplace | contract/src/lib.rs:39 | for names without a dash, turning dashes back into dots recovers the input |
| Fractose.WrapperName | contract/src/lib.rs:39-40 | the name is the sanitized prefix, a dot, then the registry account: a dot-free label directly under the registry, of length `len + 1 + len(current)` |
| Fractose.WrapperNameInjective | contract/src/lib.rs:39-40 | two dash-free NFT contract names never get the same wrapper name |
| Fractose.WrapperNameCollision | contract/src/lib.rs:39-40 | `a.b` and `a-b` get the same wrapper name |
| Fractose.EnsureWrapper | contract/src/lib.rs:38-52 | the deployment request targets the derived wrapper name, which ends in `.` plus the registry account |
| Fractose.Securitize | contract/src/lib.rs:21-25 | issues exactly one wrapper deployment, whose name is the target contract with dots replaced by dashes, then `.` and the registry account; `Fractose` has no fields, so no state changes |

## Left out

- Execution of promises: refunds, payouts, `nft_transfer`, the chained `cleanup` and `delete_account` are recorded in `outbox` and never run. Their failure is not modelled. Calls made to a ledger after it requested its deletion are not refused.
- The `cleanup` that `claim` chains after its payout: recorded as part of the `TransferThenCleanup` promise and never run. The method it targets is not public.
- Gas (`prepaid_gas() / 2`), the 1 yoctoNEAR attached to `nft_transfer`, and the funding amount, signer key and wasm bytes of the wrapper deployment.
- SharesContract.Shares.Claim: `claim` is not payable, so the runtime rejects a call that attaches a deposit and the call reverts; the model has no deposit parameter and covers only deposit-free calls.
- SharesContract.Shares.FtTransfer: models only the library's balance move and its three checks. Storage registration is not modelled, so a transfer to an account that never registered succeeds here but panics in the library. `ft_transfer_call`, storage deposits and `on_account_closed` are not modelled either.
- u128 width: balances, supply and prices are unbounded naturals. An overflow of `total_supply * share_price` or of a deposit is not modelled, so no member fails on it.
- `env::state_exists` ("Already initialized"): a Dafny constructor always runs on a fresh object.
- Signer versus predecessor account, and `ValidAccountId` parsing: the caller is a parameter.
- Log and event helpers (`on_securitize`, `on_redeem`, `on_claim`, `on_tokens_burned`, the `securitize` log line).
- The metadata's `name`, `symbol` and `icon` fields: fixed strings that no check reads.
- The NFT token id's type: `String` in `shares/src/lib.rs` and `u64` in `shares/src/shares_metadata.rs`. Here it is one string type that is carried and never inspected.
- `hello_world` in `contract/src/lib.rs`: it only logs.
