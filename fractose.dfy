/** The registry contract `Fractose`. It has no state; `securitize` derives
    the name of the wrapper contract for an NFT contract and asks the runtime
    to create that account and deploy the wrapper there. */
module Fractose {
  import opened Accounts

  /** The promise `ensure_wrapper` issues: create the account, fund it, add
      the signer's key and deploy the wrapper code (funding and code are
      fixed and not modelled). */
  datatype Effect = DeployWrapper(wrapper: AccountId)

  /** `account_id.replace(".", "-")`: every dot becomes a dash and nothing
      else moves. */
  function ReplaceDots(s: string): (r: string)
    ensures |r| == |s|
    ensures forall i :: 0 <= i < |s| ==> r[i] == (if s[i] == '.' then '-' else s[i])
    ensures '.' !in r
  {
    if s == [] then []
    else [if s[0] == '.' then '-' else s[0]] + ReplaceDots(s[1..])
  }

  /** Turns every dash back into a dot: undoes ReplaceDots on names that had
      no dash to begin with. */
  function RestoreDots(s: string): (r: string)
    ensures |r| == |s|
    ensures forall i :: 0 <= i < |s| ==> r[i] == (if s[i] == '-' then '.' else s[i])
  {
    if s == [] then []
    else [if s[0] == '-' then '.' else s[0]] + RestoreDots(s[1..])
  }

  /** The wrapper's account: the sanitized NFT contract name as a direct
      sub-account of the registry `currentAccountId`. */
  function WrapperName(accountId: AccountId, currentAccountId: AccountId): (r: AccountId)
    ensures |r| == |accountId| + 1 + |currentAccountId|
    ensures forall i :: 0 <= i < |accountId| ==>
              r[i] == (if accountId[i] == '.' then '-' else accountId[i])
    ensures r[|accountId|..] == "." + currentAccountId
    ensures '.' !in r[..|accountId|]
  {
    var prefix := ReplaceDots(accountId);
    assert (prefix + "." + currentAccountId)[..|accountId|] == prefix;
    prefix + "." + currentAccountId
  }

  /** `ensure_wrapper`: derives the name and requests the deployment. */
  function EnsureWrapper(accountId: AccountId, currentAccountId: AccountId): (r: Effect)
    ensures |r.wrapper| == |accountId| + 1 + |currentAccountId|
    ensures r.wrapper[|accountId|..] == "." + currentAccountId
    ensures r.wrapper[..|accountId|] == ReplaceDots(accountId)
  {
    DeployWrapper(WrapperName(accountId, currentAccountId))
  }

  /** `securitize`: the token id is only logged; the only effect is the one
      wrapper deployment for `target`, and no state changes. */
  function Securitize(target: AccountId, tokenId: string, currentAccountId: AccountId)
    : (effects: seq<Effect>)
    ensures |effects| == 1
    ensures |effects[0].wrapper| == |target| + 1 + |currentAccountId|
    ensures effects[0].wrapper[..|target|] == ReplaceDots(target)
    ensures effects[0].wrapper[|target|..] == "." + currentAccountId
  {
    [EnsureWrapper(target, currentAccountId)]
  }

  /** Replacing dots is undone by restoring them, for names without dashes. */
  lemma RestoreDotsAfterReplace(s: string)
    requires '-' !in s
    ensures RestoreDots(ReplaceDots(s)) == s
  {
  }

  /** Two dash-free NFT contract names never share a wrapper. */
  lemma WrapperNameInjective(a: AccountId, b: AccountId, current: AccountId)
    requires '-' !in a && '-' !in b
    requires WrapperName(a, current) == WrapperName(b, current)
    ensures a == b
  {
  }

  /** With dashes allowed, the derivation is not collision-free: `a.b` and
      `a-b` get the same wrapper account. */
  lemma WrapperNameCollision(current: AccountId)
    ensures "a.b" != "a-b"
    ensures WrapperName("a.b", current) == WrapperName("a-b", current)
  {
  }
}
