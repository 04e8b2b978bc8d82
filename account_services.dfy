/** The fetch functions of the six services the account machine invokes. Every collaborator
    (account store, vault, network, session) is an oracle: `Collaborators` says what each call
    returns or throws, and a run records the calls made, in order, beside its result. */
module AccountServices {
  import opened Wrappers
  import opened AccountTypes
  import opened JsString

  /** A call to a collaborator. */
  datatype Call =
    | GetAccounts                                   // AccountService.getAccounts
    | GetCurrentAccount                             // AccountService.getCurrentAccount
    | GetSelectedNetwork                            // NetworkService.getSelectedNetwork
    | FetchBalance(account: Account, providerUrl: string)
    | SelectAccount(address: string)                // AccountService.setCurrentAccount
    | CheckAccountNameExists(name: string)
    | VaultAddAccount(vaultId: int)                 // VaultService.addAccount
    | CreateVault(kind: string, secret: string)     // VaultService.createVault
    | StoreAccount(record: AccountRecord)           // AccountService.addAccount
    | ClearSession                                  // CoreService.clear

  /** What each collaborator call returns, or throws. */
  datatype Collaborators = Collaborators(
    getAccounts: Result<Option<seq<Account>>>,
    getCurrentAccount: Result<Option<Account>>,
    getSelectedNetwork: Result<Option<Network>>,
    fetchBalance: (Account, string) -> Result<Account>,
    setCurrentAccount: string -> Result<Option<Account>>,
    checkAccountNameExists: string -> Result<bool>,
    vaultAddAccount: int -> Result<VaultAccount>,
    createVault: (string, string) -> Result<VaultAccount>,
    addAccount: AccountRecord -> Result<Account>,
    clear: Result<()>)

  /** One run of a fetch function: what it returned or threw, and the calls it made. */
  datatype Run<+T> = Run(result: Result<T>, calls: seq<Call>)

  /** The only vault accounts are added to. */
  const DefaultVaultId := 0

  /** The vault type an imported private key is stored under. */
  const PrivateKeyVault := "privateKey"

  /** `fetchAccounts`: the account list, exactly as the store returns it. */
  function FetchAccounts(o: Collaborators): Run<Option<seq<Account>>> {
    Run(o.getAccounts, [GetAccounts])
  }

  /** `selectedNetwork?.url || defaultUrl`: an absent network or an empty url falls back. */
  function ProviderUrl(network: Option<Network>, defaultUrl: string): string {
    if network.Some? && network.value.url != "" then network.value.url else defaultUrl
  }

  /** `fetchAccount`: the current account with its balance, or nothing when no account
      is selected. `defaultUrl` is the build-time provider url. */
  function FetchAccount(o: Collaborators, defaultUrl: string): (r: Run<Option<Account>>)
    ensures 1 <= |r.calls| <= 3 && r.calls[0] == GetCurrentAccount
    // having no current account is a success without data, and nothing else is asked
    ensures o.getCurrentAccount == Ok(None) <==> r == Run(Ok(None), [GetCurrentAccount])
    // a returned account is the current one, hydrated from the selected network's provider
    ensures r.result.Ok? && r.result.value.Some? ==>
      o.getCurrentAccount.Ok? && o.getCurrentAccount.value.Some? && o.getSelectedNetwork.Ok?
      && var url := ProviderUrl(o.getSelectedNetwork.value, defaultUrl);
         r.calls == [GetCurrentAccount, GetSelectedNetwork, FetchBalance(o.getCurrentAccount.value.value, url)]
         && o.fetchBalance(o.getCurrentAccount.value.value, url) == Ok(r.result.value.value)
    // a thrown error is passed through and stops the run
    ensures o.getCurrentAccount.Err? ==> r == Run(Err(o.getCurrentAccount.error), [GetCurrentAccount])
    ensures o.getCurrentAccount.Ok? && o.getCurrentAccount.value.Some? && o.getSelectedNetwork.Err? ==>
      r == Run(Err(o.getSelectedNetwork.error), [GetCurrentAccount, GetSelectedNetwork])
    // otherwise the balance is fetched, and it decides: its account, or its error
    ensures o.getCurrentAccount.Ok? && o.getCurrentAccount.value.Some? && o.getSelectedNetwork.Ok? ==>
      var current := o.getCurrentAccount.value.value;
      var url := ProviderUrl(o.getSelectedNetwork.value, defaultUrl);
      var b := o.fetchBalance(current, url);
      r.calls == [GetCurrentAccount, GetSelectedNetwork, FetchBalance(current, url)]
      && r.result == if b.Ok? then Ok(Some(b.value)) else Err(b.error)
  {
    match o.getCurrentAccount
    case Err(e) => Run(Err(e), [GetCurrentAccount])
    case Ok(None) => Run(Ok(None), [GetCurrentAccount])
    case Ok(Some(current)) =>
      match o.getSelectedNetwork
      case Err(e) => Run(Err(e), [GetCurrentAccount, GetSelectedNetwork])
      case Ok(network) =>
        var url := ProviderUrl(network, defaultUrl);
        var calls := [GetCurrentAccount, GetSelectedNetwork, FetchBalance(current, url)];
        match o.fetchBalance(current, url)
        case Err(e) => Run(Err(e), calls)
        case Ok(hydrated) => Run(Ok(Some(hydrated)), calls)
  }

  /** `!input?.address`: the input or its address is missing, or the address is empty. */
  predicate MissingAddress(address: Option<string>) {
    address.None? || address.value == ""
  }

  /** `setCurrentAccount`: select the account at `address`. */
  function SetCurrentAccount(address: Option<string>, o: Collaborators): (r: Run<Account>)
    // a missing address is rejected before the store is asked, and only then
    ensures MissingAddress(address) <==> r == Run(Err(InvalidAccountAddress), [])
    ensures !MissingAddress(address) ==> r.calls == [SelectAccount(address.value)]
    // an empty answer from the store is an error too
    ensures !MissingAddress(address) && o.setCurrentAccount(address.value) == Ok(None) ==>
      r.result == Err(FailedToSelectAccount)
    ensures r.result.Ok? <==>
      !MissingAddress(address) && o.setCurrentAccount(address.value).Ok? && o.setCurrentAccount(address.value).value.Some?
    ensures r.result.Ok? ==> o.setCurrentAccount(address.value) == Ok(Some(r.result.value))
    // an error the store throws is passed through unchanged
    ensures !MissingAddress(address) && o.setCurrentAccount(address.value).Err? ==>
      r.result == Err(o.setCurrentAccount(address.value).error)
  {
    if MissingAddress(address) then Run(Err(InvalidAccountAddress), [])
    else
      var calls := [SelectAccount(address.value)];
      match o.setCurrentAccount(address.value)
      case Err(e) => Run(Err(e), calls)
      case Ok(None) => Run(Err(FailedToSelectAccount), calls)
      case Ok(Some(selected)) => Run(Ok(selected), calls)
  }

  /** The tail both account-creating flows share: store the record, then select the stored
      account. A store error is thrown; otherwise the selection's answer, account or error,
      is the run's. `done` is the calls made before. */
  function StoreAndSelect(done: seq<Call>, record: AccountRecord, o: Collaborators): Run<Option<Account>> {
    var stored := done + [StoreAccount(record)];
    match o.addAccount(record)
    case Err(e) => Run(Err(e), stored)
    case Ok(account) => Run(o.setCurrentAccount(account.address), stored + [SelectAccount(account.address)])
  }

  /** True when the add flow may ask the vault: the name is present, not blank and unused. */
  predicate AcceptedNewName(name: Option<string>, o: Collaborators) {
    name.Some? && !IsBlank(name.value) && o.checkAccountNameExists(name.value) == Ok(false)
  }

  /** `addAccount`: derive a new key in the vault, store it under `name` and select it. */
  function AddAccount(name: Option<string>, o: Collaborators): (r: Run<Option<Account>>)
    ensures name.None? ==> r == Run(Err(UndefinedName), [])
    // a blank name is rejected before any collaborator is called
    ensures name.Some? && IsBlank(name.value) ==> r == Run(Err(NameCannotBeEmpty), [])
    ensures name.Some? && !IsBlank(name.value) ==> 1 <= |r.calls| && r.calls[0] == CheckAccountNameExists(name.value)
    // a name in use is rejected after the check and before the vault is called
    ensures name.Some? && !IsBlank(name.value) && o.checkAccountNameExists(name.value) == Ok(true) ==>
      r == Run(Err(AccountNameAlreadyExists), [CheckAccountNameExists(name.value)])
    ensures |r.calls| >= 2 <==> AcceptedNewName(name, o)
    ensures |r.calls| >= 2 ==> r.calls[1] == VaultAddAccount(DefaultVaultId)
    // the stored record is the given name merged with what the vault returned
    ensures |r.calls| >= 3 ==>
      o.vaultAddAccount(DefaultVaultId).Ok?
      && var v := o.vaultAddAccount(DefaultVaultId).value;
         r.calls[2] == StoreAccount(AccountRecord(name.value, v.address, v.publicKey, v.vaultId, None))
    // success returns whatever selecting the stored account returned
    ensures r.result.Ok? ==>
      |r.calls| == 4 && r.calls[2].StoreAccount? && o.addAccount(r.calls[2].record).Ok?
      && var stored := o.addAccount(r.calls[2].record).value;
         r.calls[3] == SelectAccount(stored.address) && o.setCurrentAccount(stored.address) == Ok(r.result.value)
  {
    if name.None? then Run(Err(UndefinedName), [])
    else if IsBlank(name.value) then Run(Err(NameCannotBeEmpty), [])
    else
      var n := name.value;
      var checked := [CheckAccountNameExists(n)];
      match o.checkAccountNameExists(n)
      case Err(e) => Run(Err(e), checked)
      case Ok(true) => Run(Err(AccountNameAlreadyExists), checked)
      case Ok(false) =>
        var vaulted := [CheckAccountNameExists(n), VaultAddAccount(DefaultVaultId)];
        match o.vaultAddAccount(DefaultVaultId)
        case Err(e) => Run(Err(e), vaulted)
        case Ok(v) =>
          StoreAndSelect(vaulted, AccountRecord(n, v.address, v.publicKey, v.vaultId, None), o)
  }

  /** An error thrown by one of `addAccount`'s collaborators stops the run, and the run
      throws that error. */
  lemma AddAccountThrows(name: Option<string>, o: Collaborators)
    requires name.Some? && !IsBlank(name.value)
    ensures o.checkAccountNameExists(name.value).Err? ==>
      AddAccount(name, o) == Run(Err(o.checkAccountNameExists(name.value).error), [CheckAccountNameExists(name.value)])
    ensures AcceptedNewName(name, o) && o.vaultAddAccount(DefaultVaultId).Err? ==>
      AddAccount(name, o) ==
        Run(Err(o.vaultAddAccount(DefaultVaultId).error), [CheckAccountNameExists(name.value), VaultAddAccount(DefaultVaultId)])
  {
  }

  /** Once the vault has derived the key, `addAccount` stores the record: a store error is
      thrown, and otherwise the run answers whatever selecting the stored account answers,
      account or error. */
  lemma AddAccountStores(name: Option<string>, o: Collaborators)
    requires AcceptedNewName(name, o) && o.vaultAddAccount(DefaultVaultId).Ok?
    ensures var v := o.vaultAddAccount(DefaultVaultId).value;
      var record := AccountRecord(name.value, v.address, v.publicKey, v.vaultId, None);
      var stored := [CheckAccountNameExists(name.value), VaultAddAccount(DefaultVaultId), StoreAccount(record)];
      (o.addAccount(record).Err? ==> AddAccount(name, o) == Run(Err(o.addAccount(record).error), stored))
      && (o.addAccount(record).Ok? ==>
            var address := o.addAccount(record).value.address;
            AddAccount(name, o) == Run(o.setCurrentAccount(address), stored + [SelectAccount(address)]))
  {
  }

  /** True when the import flow may ask the vault: a non-blank private key and name. */
  predicate AcceptedImport(input: Option<ImportInput>) {
    input.Some? && !IsBlank(input.value.privateKey) && !IsBlank(input.value.name)
  }

  /** `importAccount`: store the key in a private-key vault, record the account as not
      hidden and select it. */
  function ImportAccount(input: Option<ImportInput>, o: Collaborators): (r: Run<Option<Account>>)
    // the private key is checked first, then the name, both before any collaborator call
    ensures input.None? || IsBlank(input.value.privateKey) ==> r == Run(Err(PrivateKeyCannotBeEmpty), [])
    ensures input.Some? && !IsBlank(input.value.privateKey) && IsBlank(input.value.name) ==>
      r == Run(Err(NameCannotBeEmpty), [])
    ensures r.calls != [] <==> AcceptedImport(input)
    ensures r.calls != [] ==> r.calls[0] == CreateVault(PrivateKeyVault, input.value.privateKey)
    // the stored record carries the given name, the vault's key and isHidden = false
    ensures |r.calls| >= 2 ==>
      o.createVault(PrivateKeyVault, input.value.privateKey).Ok?
      && var v := o.createVault(PrivateKeyVault, input.value.privateKey).value;
         r.calls[1] == StoreAccount(AccountRecord(input.value.name, v.address, v.publicKey, v.vaultId, Some(false)))
    ensures r.result.Ok? ==>
      |r.calls| == 3 && r.calls[1].StoreAccount? && o.addAccount(r.calls[1].record).Ok?
      && var stored := o.addAccount(r.calls[1].record).value;
         r.calls[2] == SelectAccount(stored.address) && o.setCurrentAccount(stored.address) == Ok(r.result.value)
  {
    if input.None? || IsBlank(input.value.privateKey) then Run(Err(PrivateKeyCannotBeEmpty), [])
    else if IsBlank(input.value.name) then Run(Err(NameCannotBeEmpty), [])
    else
      var secret := input.value.privateKey;
      var vaulted := [CreateVault(PrivateKeyVault, secret)];
      match o.createVault(PrivateKeyVault, secret)
      case Err(e) => Run(Err(e), vaulted)
      case Ok(v) =>
        StoreAndSelect(vaulted, AccountRecord(input.value.name, v.address, v.publicKey, v.vaultId, Some(false)), o)
  }

  /** An error thrown by the vault stops `importAccount`, and the run throws it. */
  lemma ImportAccountThrows(input: Option<ImportInput>, o: Collaborators)
    requires AcceptedImport(input) && o.createVault(PrivateKeyVault, input.value.privateKey).Err?
    ensures ImportAccount(input, o) ==
      Run(Err(o.createVault(PrivateKeyVault, input.value.privateKey).error), [CreateVault(PrivateKeyVault, input.value.privateKey)])
  {
  }

  /** Once the vault holds the key, `importAccount` stores the record: a store error is
      thrown, and otherwise the run answers whatever selecting the stored account answers,
      account or error. */
  lemma ImportAccountStores(input: Option<ImportInput>, o: Collaborators)
    requires AcceptedImport(input) && o.createVault(PrivateKeyVault, input.value.privateKey).Ok?
    ensures var v := o.createVault(PrivateKeyVault, input.value.privateKey).value;
      var record := AccountRecord(input.value.name, v.address, v.publicKey, v.vaultId, Some(false));
      var stored := [CreateVault(PrivateKeyVault, input.value.privateKey), StoreAccount(record)];
      (o.addAccount(record).Err? ==> ImportAccount(input, o) == Run(Err(o.addAccount(record).error), stored))
      && (o.addAccount(record).Ok? ==>
            var address := o.addAccount(record).value.address;
            ImportAccount(input, o) == Run(o.setCurrentAccount(address), stored + [SelectAccount(address)]))
  {
  }

  /** `logout`: clear the session. */
  function Logout(o: Collaborators): Run<()> {
    Run(o.clear, [ClearSession])
  }
}
