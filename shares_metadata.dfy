/** The metadata record of one share ledger: the fungible-token fields the
    ledger validates, the securitized NFT it stands for, the fixed price of a
    share, and the one-way `released` flag. */
module SharesMetadata {
  import opened Outcomes
  import opened Accounts

  /** The format tag every ledger's metadata must carry. */
  const SHARES_FT_METADATA_SPEC: string := "shares-ft-1.0.0"

  newtype byte = x: int | 0 <= x < 256

  /** The NFT's identifier on its own contract, carried and never inspected. */
  type TokenId = string

  datatype Metadata = Metadata(
    spec: string,
    reference: Option<string>,
    referenceHash: Option<seq<byte>>,
    decimals: byte,
    nftContractAddress: AccountId,
    nftTokenId: TokenId,
    sharePrice: nat,
    released: bool)

  datatype MetadataError =
    | SpecMismatch          // spec is not SHARES_FT_METADATA_SPEC
    | ReferenceHashMismatch // exactly one of reference, reference hash is set
    | HashNot32Bytes        // "Hash has to be 32 bytes"

  /** `assert_valid`: the three checks, in the order the contract makes them;
      the first that fails decides the error. */
  function AssertValid(m: Metadata): (r: Outcome<MetadataError>)
    ensures r == Pass <==>
      && m.spec == SHARES_FT_METADATA_SPEC
      && m.reference.Some? == m.referenceHash.Some?
      && (m.referenceHash.Some? ==> |m.referenceHash.value| == 32)
    ensures m.spec != SHARES_FT_METADATA_SPEC ==> r == Fail(SpecMismatch)
    ensures (m.spec == SHARES_FT_METADATA_SPEC && m.reference.Some? != m.referenceHash.Some?)
              ==> r == Fail(ReferenceHashMismatch)
    ensures (m.spec == SHARES_FT_METADATA_SPEC && m.reference.Some? && m.referenceHash.Some?
             && |m.referenceHash.value| != 32)
              ==> r == Fail(HashNot32Bytes)
  {
    if m.spec != SHARES_FT_METADATA_SPEC then Fail(SpecMismatch)
    else if m.reference.Some? != m.referenceHash.Some? then Fail(ReferenceHashMismatch)
    else if m.referenceHash.Some? && |m.referenceHash.value| != 32 then Fail(HashNot32Bytes)
    else Pass
  }

  /** `set_as_released`: raises the flag and touches no other field. */
  function SetAsReleased(m: Metadata): (r: Metadata)
    ensures r.released
    ensures r.spec == m.spec && r.reference == m.reference && r.referenceHash == m.referenceHash
    ensures r.decimals == m.decimals && r.sharePrice == m.sharePrice
    ensures r.nftContractAddress == m.nftContractAddress && r.nftTokenId == m.nftTokenId
  {
    m.(released := true)
  }

  /** The metadata `create` builds: the spec tag, no reference and no hash,
      not yet released. It always passes `assert_valid`. */
  function InitialMetadata(nftContractAddress: AccountId, nftTokenId: TokenId,
                           decimals: byte, sharePrice: nat): (r: Metadata)
    ensures AssertValid(r) == Pass
    ensures !r.released && r.sharePrice == sharePrice && r.decimals == decimals
    ensures r.nftContractAddress == nftContractAddress && r.nftTokenId == nftTokenId
  {
    Metadata(SHARES_FT_METADATA_SPEC, None, None, decimals,
             nftContractAddress, nftTokenId, sharePrice, false)
  }

  /** Releasing twice is releasing once. */
  lemma SetAsReleasedIdempotent(m: Metadata)
    ensures SetAsReleased(SetAsReleased(m)) == SetAsReleased(m)
  {
  }

  /** Releasing never turns valid metadata invalid, nor invalid valid. */
  lemma SetAsReleasedKeepsValidity(m: Metadata)
    ensures AssertValid(SetAsReleased(m)) == AssertValid(m)
  {
  }
}
