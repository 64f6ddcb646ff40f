/**
  The account types the store and the authentication routes share. Their
  defining file, `types/account.rs`, is not part of this model: the shapes
  below are the ones the store and the routes use.
 */
module TypesAccount {
  import opened Wrappers
  import opened RustStd

  datatype AccountId = AccountId(value: int32)

  /** An account: no id before the store assigns one; a plaintext password on the way in, a hash at rest. */
  datatype Account = Account(id: Option<AccountId>, email: string, password: string)

  /** What a valid token proves: the account it was issued to */
  datatype Session = Session(accountId: AccountId)
}
