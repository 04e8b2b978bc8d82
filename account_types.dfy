/** The records the account machine passes around: accounts as the account store returns
    them, the inputs of the user events, the errors the services raise and the machine's
    context. */
module AccountTypes {
  import opened Wrappers

  /** An account as the account store returns it; `address` identifies it. */
  datatype Account = Account(
    address: string,
    name: string,
    publicKey: string,
    isHidden: bool,
    vaultId: int,
    balance: Option<string>)

  /** The record handed to the account store when an account is created. `isHidden` is
      absent when the add flow leaves it out. */
  datatype AccountRecord = AccountRecord(
    name: string,
    address: string,
    publicKey: string,
    vaultId: int,
    isHidden: Option<bool>)

  /** What the vault returns for a newly derived or imported key. */
  datatype VaultAccount = VaultAccount(address: string, publicKey: string, vaultId: int)

  /** The selected network; only its provider url is read. */
  datatype Network = Network(url: string)

  /** Input of `HIDE_ACCOUNT`. */
  datatype HideInput = HideInput(address: string, isHidden: bool)

  /** Input of `IMPORT_ACCOUNT`. */
  datatype ImportInput = ImportInput(name: string, privateKey: string)

  /** The errors the services throw themselves, and any error a collaborator throws. */
  datatype Error =
    | InvalidAccountAddress
    | FailedToSelectAccount
    | NameCannotBeEmpty
    | AccountNameAlreadyExists
    | PrivateKeyCannotBeEmpty
    | UndefinedName        // `trim` called on an absent name
    | Thrown(message: string)

  /** The message each error carries in the source. */
  function Message(e: Error): string {
    match e
    case InvalidAccountAddress => "Invalid account address"
    case FailedToSelectAccount => "Failed to select account"
    case NameCannotBeEmpty => "Name cannot be empty"
    case AccountNameAlreadyExists => "Account name already exists"
    case PrivateKeyCannotBeEmpty => "Private key cannot be empty"
    case UndefinedName => "Cannot read properties of undefined (reading 'trim')"
    case Thrown(m) => m
  }

  /** A value, or the error that was thrown instead of returning it. */
  datatype Result<+T> = Ok(value: T) | Err(error: Error)

  /** `MachineContext`: every field may be absent. */
  datatype Context = Context(
    accounts: Option<seq<Account>>,
    accountName: Option<string>,
    account: Option<Account>,
    error: Option<Error>)

  /** The context the machine starts with and `clearContext` restores. */
  const EmptyContext := Context(None, None, None, None)
}
