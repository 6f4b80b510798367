/** Client code: the ledger's unit scenarios, checked against the contracts
    of SharesContract alone. */
module SharesScenarios {
  import opened Outcomes
  import opened SharesContract

  const TOTAL_SUPPLY: nat := 1_000_000_000_000_000
  const SHARE_PRICE: nat := 100000

  /** A fresh ledger: the owner holds the whole supply. */
  method NewLedgerScenario()
  {
    var s := new Shares.Create("nft.near", "0", "alice", TOTAL_SUPPLY, 8, SHARE_PRICE);
    assert s.totalSupply == TOTAL_SUPPLY && s.FtBalanceOf("alice") == TOTAL_SUPPLY;
    assert s.FtBalanceOf("bob") == 0;
    assert s.ExitPrice() == TOTAL_SUPPLY * SHARE_PRICE;
    var owed := s.RedeemAmountOf("alice");
    assert owed == Ok(0);
  }

  /** The owner moves a third of the supply to another holder. */
  method TransferScenario()
  {
    var s := new Shares.Create("nft.near", "0", "carol", TOTAL_SUPPLY, 8, SHARE_PRICE);
    var amount := TOTAL_SUPPLY / 3;
    var r := s.FtTransfer("carol", "bob", amount);
    assert r == Pass;
    assert s.FtBalanceOf("carol") == TOTAL_SUPPLY - amount;
    assert s.FtBalanceOf("bob") == amount;
  }

  /** The owner of every share redeems with no payment and the ledger asks
      to be deleted. */
  method RedeemWithSharesScenario()
  {
    var s := new Shares.Create("nft.near", "0", "alice", TOTAL_SUPPLY, 8, SHARE_PRICE);
    var r := s.Redeem("alice", 0);
    assert r == Pass;
    assert s.Released() && s.FtBalanceOf("alice") == 0 && s.totalSupply == 0;
    assert s.outbox == [Transfer("alice", 0), NftTransfer("nft.near", "alice", "0"),
                        DeleteAccount("alice")];
  }

  /** A holder of no shares buys the NFT at the exit price; the shares stay
      and the vault holds the payment. */
  method RedeemWithExitPriceScenario()
  {
    var s := new Shares.Create("nft.near", "0", "bob", TOTAL_SUPPLY, 8, SHARE_PRICE);
    var owed := s.RedeemAmountOf("alice");
    assert owed.value == TOTAL_SUPPLY * SHARE_PRICE;
    var r := s.Redeem("alice", owed.value);
    assert r == Pass;
    assert s.Released() && s.FtBalanceOf("alice") == 0 && s.totalSupply == TOTAL_SUPPLY;
    assert s.VaultBalance() == owed.value;
  }

  /** A holder of 100 shares tops them up with NEAR; then the remaining
      holder claims, and a second claim finds nothing. */
  method RedeemWithSharesAndExitPriceScenario()
  {
    var s := new Shares.Create("nft.near", "0", "alice", TOTAL_SUPPLY, 8, SHARE_PRICE);
    var t := s.FtTransfer("alice", "bob", 100);
    assert t == Pass;
    var owed := s.RedeemAmountOf("bob");
    assert owed.value + 100 * SHARE_PRICE == s.ExitPrice();

    var r := s.Redeem("bob", owed.value);
    assert r == Pass;
    assert s.Released() && s.totalSupply == TOTAL_SUPPLY - 100;
    assert s.FtBalanceOf("bob") == 0 && s.FtBalanceOf("alice") == TOTAL_SUPPLY - 100;
    assert s.VaultBalanceOf("alice") == (TOTAL_SUPPLY - 100) * SHARE_PRICE;

    var c := s.Claim("alice");
    assert c == Pass;
    assert s.FtBalanceOf("alice") == 0 && s.totalSupply == 0;
    assert s.outbox[|s.outbox| - 1] == TransferThenCleanup("alice", (TOTAL_SUPPLY - 100) * SHARE_PRICE);
    var again := s.Claim("alice");
    assert again == Fail(NothingToClaim);
  }
}
