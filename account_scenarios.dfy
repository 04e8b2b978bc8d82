/** The machine and its services together: the service a state starts runs against the
    collaborators, and its outcome comes back to the machine as the completion event the
    fetch machine wrapping the service sends. */
module AccountScenarios {
  import opened Wrappers
  import opened AccountTypes
  import opened JsString
  import S = AccountServices
  import opened AccountMachine
  import opened AccountProperties

  /** The completion an invoked service sends. The write services and the logout report a
      caught error inside their done event; the two fetches report it with an error event. */
  function Complete(inv: Invocation, o: S.Collaborators, defaultUrl: string): Event
  {
    match inv
    case FetchAccountsCall =>
      (match S.FetchAccounts(o).result
       case Ok(accounts) => FetchAccountsDone(accounts)
       case Err(e) => FetchAccountsError(e))
    case FetchAccountCall =>
      (match S.FetchAccount(o, defaultUrl).result
       case Ok(account) => FetchAccountDone(account)
       case Err(e) => FetchAccountError(e))
    case SetCurrentAccountCall(address) => SetCurrentAccountDone(S.SetCurrentAccount(address, o).result)
    case AddAccountCall(name) => AddAccountDone(S.AddAccount(name, o).result)
    case ImportAccountCall(input) => ImportAccountDone(S.ImportAccount(input, o).result)
    case LogoutCall => LogoutDone(S.Logout(o).result)
  }

  /** The service an event started, if any: the last effect of its reaction. */
  function Started(r: Reaction): Option<Invocation> {
    if r.effects != [] && r.effects[|r.effects| - 1].Invoked? then Some(r.effects[|r.effects| - 1].invocation)
    else None
  }

  /** The configuration after `ev` and, when `ev` started a service, after that service's
      completion has been delivered. */
  function Serve(c: Config, ev: Event, o: S.Collaborators, defaultUrl: string): Config {
    var r := Next(c, ev);
    match Started(r)
    case None => r.config
    case Some(inv) => Next(r.config, Complete(inv, o, defaultUrl)).config
  }

  /** The state that owns an invocation: the one whose entry starts it. */
  predicate Owns(s: State, inv: Invocation) {
    match inv
    case FetchAccountsCall => s == FetchingAccounts
    case FetchAccountCall => s == FetchingAccount || s == State.UpdateAccount
    case SetCurrentAccountCall(_) => s == SettingCurrentAccount
    case AddAccountCall(_) => s == AddingAccount
    case ImportAccountCall(_) => s == ImportingAccount
    case LogoutCall => s == LoggingOut
  }

  /** Entering a state ends with starting the service it owns, or with no service. */
  lemma EntryStartsOwnService(p: Progress, s: State, ev: Event)
    ensures var q := RunShort(p, Entry(s), ev);
      q.effects != [] && q.effects[|q.effects| - 1].Invoked? ==> Owns(s, q.effects[|q.effects| - 1].invocation)
  {
  }

  /** A service is started only by the entry of the state the event led to, which owns it. */
  lemma StartedByEntry(c: Config, ev: Event)
    ensures var r := Next(c, ev);
      Started(r).Some? ==> Select(c, ev).Some? && Owns(r.config.state, Started(r).value)
  {
    if Select(c, ev).None? {
      assert Next(c, ev) == Reaction(c, []);
    } else {
      var t := Select(c, ev).value;
      SelectShort(c, ev);
      var p1 := RunShort(Progress(c.ctx, c.isLogged, []), Exit(c.state), ev);
      var p2 := RunShort(p1, t.actions, ev);
      var p3 := RunShort(p2, Entry(t.target), ev);
      assert Next(c, ev) == Reaction(Config(t.target, p3.ctx, p3.isLogged), p3.effects);
      EntryStartsOwnService(p2, t.target, ev);
    }
  }

  /** The events by which an invoked service reports back. */
  predicate CompletionOf(inv: Invocation, ev: Event) {
    match inv
    case FetchAccountsCall => ev.FetchAccountsDone? || ev.FetchAccountsError?
    case FetchAccountCall => ev.FetchAccountDone? || ev.FetchAccountError?
    case SetCurrentAccountCall(_) => ev.SetCurrentAccountDone?
    case AddAccountCall(_) => ev.AddAccountDone?
    case ImportAccountCall(_) => ev.ImportAccountDone?
    case LogoutCall => ev.LogoutDone?
  }

  /** Whatever the collaborators answer, a service reports back with one of its own
      completion events, never with a user or delayed event. */
  lemma CompleteIsCompletion(inv: Invocation, o: S.Collaborators, defaultUrl: string)
    ensures CompletionOf(inv, Complete(inv, o, defaultUrl))
    ensures !IsUserEvent(Complete(inv, o, defaultUrl))
  {
  }

  /** The error a service's run throws, if any. */
  function ServiceFailure(inv: Invocation, o: S.Collaborators, defaultUrl: string): Option<Error> {
    match inv
    case FetchAccountsCall => Failure(S.FetchAccounts(o).result)
    case FetchAccountCall => Failure(S.FetchAccount(o, defaultUrl).result)
    case SetCurrentAccountCall(address) => Failure(S.SetCurrentAccount(address, o).result)
    case AddAccountCall(name) => Failure(S.AddAccount(name, o).result)
    case ImportAccountCall(input) => Failure(S.ImportAccount(input, o).result)
    case LogoutCall => Failure(S.Logout(o).result)
  }

  /** The error the machine reads off a completion is exactly the one the service threw;
      the write services and the logout report it inside their done event, which the
      `hasError` guard then recognises. */
  lemma CompletionReportsFailure(inv: Invocation, o: S.Collaborators, defaultUrl: string)
    ensures ErrorData(Complete(inv, o, defaultUrl)) == ServiceFailure(inv, o, defaultUrl)
    ensures HasError(Complete(inv, o, defaultUrl)) <==>
      ServiceFailure(inv, o, defaultUrl).Some? && !inv.FetchAccountsCall? && !inv.FetchAccountCall?
  {
  }

  /** The owner of a service handles every completion the service can send, whatever the
      context, the flag and the data the completion carries. */
  lemma OwnerHandles(c: Config, inv: Invocation, ev: Event)
    requires Owns(c.state, inv) && CompletionOf(inv, ev)
    ensures Select(c, ev).Some?
  {
  }

  /** Hence no completion is dropped by the state that started its service. */
  lemma CompletionHandled(c: Config, ev: Event, o: S.Collaborators, defaultUrl: string)
    requires Started(Next(c, ev)).Some?
    ensures var r := Next(c, ev);
      Select(r.config, Complete(Started(r).value, o, defaultUrl)).Some?
  {
    var r := Next(c, ev);
    StartedByEntry(c, ev);
    CompleteIsCompletion(Started(r).value, o, defaultUrl);
    OwnerHandles(r.config, Started(r).value, Complete(Started(r).value, o, defaultUrl));
  }

  /** The configuration a write completion leaves, from the state that ran the write. */
  function AfterWrite(c: Config, ctx: Context, failure: Option<Error>): Config {
    match failure
    case Some(e) => Config(Failed, ctx.(error := Some(e)), c.isLogged)
    case None => Config(FetchingAccounts, ctx, c.isLogged)
  }

  /** The failure a service result carries, if any. */
  function Failure<T>(r: Result<T>): Option<Error> {
    if r.Err? then Some(r.error) else None
  }

  /** SET_CURRENT_ACCOUNT in `idle`, served. */
  lemma SetCurrentServed(c: Config, address: Option<string>, o: S.Collaborators, defaultUrl: string)
    requires c.state == Idle
    ensures Serve(c, Event.SetCurrentAccount(address), o, defaultUrl) ==
      AfterWrite(c, c.ctx, Failure(S.SetCurrentAccount(address, o).result))
  {
    var r := Next(c, Event.SetCurrentAccount(address));
    RequestsFromIdle(c, address, None);
    assert Started(r) == Some(SetCurrentAccountCall(address));
    WriteCompleted(r.config, Complete(SetCurrentAccountCall(address), o, defaultUrl));
  }

  /** Serving an event that started a service is delivering that service's completion. */
  lemma ServeStarted(c: Config, ev: Event, inv: Invocation, done: Event, o: S.Collaborators, defaultUrl: string)
    requires Started(Next(c, ev)) == Some(inv) && Complete(inv, o, defaultUrl) == done
    ensures Serve(c, ev, o, defaultUrl) == Next(Next(c, ev).config, done).config
  {
  }

  /** ADD_ACCOUNT in `idle` followed by the add service's completion, whatever its result. */
  lemma AddThenDone(c: Config, name: string, res: Result<Option<Account>>)
    requires c.state == Idle
    ensures var r := Next(c, Event.AddAccount(name));
      Started(r) == Some(AddAccountCall(Some(name)))
      && Next(r.config, AddAccountDone(res)).config == AfterWrite(c, c.ctx.(accountName := None), Failure(res))
  {
    var r := Next(c, Event.AddAccount(name));
    AddAccountStagesName(c, name);
    WriteCompleted(r.config, AddAccountDone(res));
  }

  /** ADD_ACCOUNT in `idle`, served: the staged name is gone afterwards. */
  lemma AddServed(c: Config, name: string, o: S.Collaborators, defaultUrl: string)
    requires c.state == Idle
    ensures Serve(c, Event.AddAccount(name), o, defaultUrl) ==
      AfterWrite(c, c.ctx.(accountName := None), Failure(S.AddAccount(Some(name), o).result))
  {
    var run := S.AddAccount(Some(name), o);
    AddThenDone(c, name, run.result);
    assert Complete(AddAccountCall(Some(name)), o, defaultUrl) == AddAccountDone(run.result);
    ServeStarted(c, Event.AddAccount(name), AddAccountCall(Some(name)), AddAccountDone(run.result), o, defaultUrl);
  }

  /** IMPORT_ACCOUNT in `idle`, served. */
  lemma ImportServed(c: Config, input: Option<ImportInput>, o: S.Collaborators, defaultUrl: string)
    requires c.state == Idle
    ensures Serve(c, Event.ImportAccount(input), o, defaultUrl) ==
      AfterWrite(c, c.ctx, Failure(S.ImportAccount(input, o).result))
  {
    var r := Next(c, Event.ImportAccount(input));
    RequestsFromIdle(c, None, input);
    assert Started(r) == Some(ImportAccountCall(input));
    WriteCompleted(r.config, Complete(ImportAccountCall(input), o, defaultUrl));
  }

  /** The error a write service requested by `ev` ends with, if any. */
  function WriteError(ev: Event, o: S.Collaborators): Option<Error> {
    if ev.SetCurrentAccount? then Failure(S.SetCurrentAccount(ev.address, o).result)
    else if ev.AddAccount? then Failure(S.AddAccount(Some(ev.name), o).result)
    else if ev.ImportAccount? then Failure(S.ImportAccount(ev.input, o).result)
    else None
  }

  /** A write requested in `idle` ends in `failed` with the service's error, or in
      `fetchingAccounts` refetching the list; either way the staged name is gone and
      nothing else in the context or the flag changes. */
  lemma WriteServed(c: Config, ev: Event, o: S.Collaborators, defaultUrl: string)
    requires c.state == Idle && (ev.SetCurrentAccount? || ev.AddAccount? || ev.ImportAccount?)
    ensures var ctx := if ev.AddAccount? then c.ctx.(accountName := None) else c.ctx;
      Serve(c, ev, o, defaultUrl) ==
        match WriteError(ev, o)
        case Some(e) => Config(Failed, ctx.(error := Some(e)), c.isLogged)
        case None => Config(FetchingAccounts, ctx, c.isLogged)
  {
    if ev.SetCurrentAccount? {
      SetCurrentServed(c, ev.address, o, defaultUrl);
    } else if ev.AddAccount? {
      AddServed(c, ev.name, o, defaultUrl);
    } else {
      ImportServed(c, ev.input, o, defaultUrl);
    }
  }

  /** Adding an account under a name already in use parks in `failed` with that error and
      the staged name cleared, the vault never asked. */
  lemma DuplicateNameFails(c: Config, name: string, o: S.Collaborators, defaultUrl: string)
    requires c.state == Idle && !IsBlank(name) && o.checkAccountNameExists(name) == Ok(true)
    ensures S.AddAccount(Some(name), o).calls == [S.CheckAccountNameExists(name)]
    ensures Serve(c, Event.AddAccount(name), o, defaultUrl) ==
      Config(Failed, c.ctx.(accountName := None, error := Some(AccountNameAlreadyExists)), c.isLogged)
  {
    WriteServed(c, Event.AddAccount(name), o, defaultUrl);
  }

  /** Importing with a key but a blank name fails without calling any collaborator. */
  lemma ImportWithBlankNameFails(c: Config, input: ImportInput, o: S.Collaborators, defaultUrl: string)
    requires c.state == Idle && !IsBlank(input.privateKey) && IsBlank(input.name)
    ensures S.ImportAccount(Some(input), o).calls == []
    ensures Serve(c, Event.ImportAccount(Some(input)), o, defaultUrl) ==
      Config(Failed, c.ctx.(error := Some(NameCannotBeEmpty)), c.isLogged)
  {
    var ev := Event.ImportAccount(Some(input));
    assert S.ImportAccount(Some(input), o) == S.Run(Err(NameCannotBeEmpty), []);
    assert WriteError(ev, o) == Some(NameCannotBeEmpty);
    WriteServed(c, ev, o, defaultUrl);
  }

  /** At start-up, an empty account list rests in `idle` with the flag removed, whatever
      the stored flag said. */
  lemma StartWithoutAccounts(storedIsLogged: bool, o: S.Collaborators, defaultUrl: string)
    requires o.getAccounts == Ok(Some([]))
    ensures Next(Initial(storedIsLogged), Complete(FetchAccountsCall, o, defaultUrl)).config ==
      Config(Idle, EmptyContext.(accounts := Some([])), false)
  {
    AccountsFetched(Initial(storedIsLogged), []);
  }

  /** At start-up, a non-empty list and a current account rest in `idle` logged in, holding
      both; the account is the one the store called current, hydrated with its balance. */
  lemma StartWithAccount(storedIsLogged: bool, a: Account, current: Account, o: S.Collaborators, defaultUrl: string)
    requires o.getAccounts == Ok(Some([a])) && o.getCurrentAccount == Ok(Some(current))
    requires o.getSelectedNetwork.Ok?
    requires o.fetchBalance(current, S.ProviderUrl(o.getSelectedNetwork.value, defaultUrl)).Ok?
    ensures var c1 := Next(Initial(storedIsLogged), Complete(FetchAccountsCall, o, defaultUrl)).config;
      var hydrated := o.fetchBalance(current, S.ProviderUrl(o.getSelectedNetwork.value, defaultUrl)).value;
      Serve(c1, Complete(FetchAccountCall, o, defaultUrl), o, defaultUrl) ==
        Config(Idle, EmptyContext.(accounts := Some([a]), account := Some(hydrated)), true)
  {
    var c0 := Initial(storedIsLogged);
    AccountsFetched(c0, [a]);
    var c1 := Next(c0, Complete(FetchAccountsCall, o, defaultUrl)).config;
    var ev := Complete(FetchAccountCall, o, defaultUrl);
    AccountFetched(c1, ev.account);
    assert Started(Next(c1, ev)).None?;
  }
}
