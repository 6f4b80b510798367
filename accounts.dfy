/** NEAR account names, shared by the registry and the share ledger. */
module Accounts {

  type AccountId = string
}
