/** What the account machine guarantees, stated over its transition function. */
module AccountProperties {
  import opened Wrappers
  import opened AccountTypes
  import opened AccountMachine

  // ----- fetching the account list -----

  /** A list completes `fetchingAccounts`: it is stored, the flag records whether it is
      empty, and a non-empty list goes on to fetch the current account. */
  lemma AccountsFetched(c: Config, accounts: seq<Account>)
    requires c.state == FetchingAccounts
    ensures Next(c, FetchAccountsDone(Some(accounts))) ==
      if accounts != [] then
        Reaction(Config(FetchingAccount, c.ctx.(accounts := Some(accounts)), true), [Invoked(FetchAccountCall)])
      else
        Reaction(Config(Idle, c.ctx.(accounts := Some([])), false), [TimerStarted(TimeoutDelay)])
  {
  }

  /** A completion without a list clears the stored list, but the guard falls back on the
      list the context held before. */
  lemma AccountsFetchedWithoutList(c: Config)
    requires c.state == FetchingAccounts
    ensures var r := Next(c, FetchAccountsDone(None));
      var held := c.ctx.accounts.Some? && c.ctx.accounts.value != [];
      r.config == Config(if held then FetchingAccount else Idle, c.ctx.(accounts := None), held)
  {
  }

  lemma AccountsFetchFailed(c: Config, e: Error)
    requires c.state == FetchingAccounts
    ensures Next(c, FetchAccountsError(e)) ==
      Reaction(Config(Failed, c.ctx.(error := Some(e)), c.isLogged), [TimerStarted(IntervalDelay)])
  {
  }

  // ----- fetching the current account -----

  /** A completion of `fetchingAccount` or `updateAccount` stores what it carries, even
      nothing, and rests in `idle`; the flag is removed only when neither the completion
      nor the context held an account. */
  lemma AccountFetched(c: Config, account: Option<Account>)
    requires c.state == FetchingAccount || c.state == State.UpdateAccount
    ensures var r := Next(c, FetchAccountDone(account));
      r == Reaction(Config(Idle, c.ctx.(account := account), r.config.isLogged), [TimerStarted(TimeoutDelay)])
      && (r.config.isLogged <==> c.isLogged && (account.Some? || c.ctx.account.Some?))
  {
  }

  lemma AccountFetchFailed(c: Config, e: Error)
    requires c.state == FetchingAccount || c.state == State.UpdateAccount
    ensures Next(c, FetchAccountError(e)) ==
      Reaction(Config(Failed, c.ctx.(error := Some(e)), c.isLogged), [TimerStarted(IntervalDelay)])
  {
    var p := Progress(c.ctx, c.isLogged, []);
    assert Apply(p, AssignError, FetchAccountError(e)) == p.(ctx := c.ctx.(error := Some(e)));
  }

  // ----- user events -----

  /** Outside `idle` every user event but LOGOUT is dropped. */
  lemma UserEventsOnlyInIdle(c: Config, ev: Event)
    requires c.state != Idle && IsUserEvent(ev) && !ev.Logout?
    ensures Next(c, ev) == Reaction(c, [])
  {
  }

  /** In `idle`, HIDE_ACCOUNT re-enters `idle` and changes nothing but the current
      account's hidden flag, which it also persists; without a current account it changes
      nothing at all. */
  lemma HideAccountInIdle(c: Config, hiding: HideInput)
    requires c.state == Idle
    ensures Next(c, Event.HideAccount(hiding)) ==
      if c.ctx.account.Some? then
        var hidden := c.ctx.account.value.(isHidden := hiding.isHidden);
        Reaction(Config(Idle, c.ctx.(account := Some(hidden)), c.isLogged),
                 [TimerCancelled(TimeoutDelay), HiddenPersisted(hiding.address, hiding.isHidden), TimerStarted(TimeoutDelay)])
      else
        Reaction(c, [TimerCancelled(TimeoutDelay), TimerStarted(TimeoutDelay)])
  {
  }

  /** The refresh requests leave `idle` for their fetch, cancelling TIMEOUT. */
  lemma RefreshesFromIdle(c: Config)
    requires c.state == Idle
    ensures Next(c, Event.UpdateAccounts) == Reaction(Config(FetchingAccounts, c.ctx, c.isLogged), [TimerCancelled(TimeoutDelay), Invoked(FetchAccountsCall)])
    ensures Next(c, Event.UpdateAccount) == Reaction(Config(State.UpdateAccount, c.ctx, c.isLogged), [TimerCancelled(TimeoutDelay), Invoked(FetchAccountCall)])
  {
  }

  /** SET_CURRENT_ACCOUNT and IMPORT_ACCOUNT leave `idle` for their service, which gets the
      event's input. */
  lemma RequestsFromIdle(c: Config, address: Option<string>, input: Option<ImportInput>)
    requires c.state == Idle
    ensures Next(c, Event.SetCurrentAccount(address)) ==
      Reaction(Config(SettingCurrentAccount, c.ctx, c.isLogged), [TimerCancelled(TimeoutDelay), Invoked(SetCurrentAccountCall(address))])
    ensures Next(c, Event.ImportAccount(input)) ==
      Reaction(Config(ImportingAccount, c.ctx, c.isLogged), [TimerCancelled(TimeoutDelay), Invoked(ImportAccountCall(input))])
  {
  }

  // ----- logging out -----

  /** LOGOUT is taken from every state and starts the logout service; only the add flow's
      own exit touches the context. */
  lemma LogoutFromAnyState(c: Config)
    ensures var r := Next(c, Logout);
      r.config == Config(LoggingOut, if c.state == AddingAccount then c.ctx.(accountName := None) else c.ctx, c.isLogged)
      && r.effects != [] && r.effects[|r.effects| - 1] == Invoked(LogoutCall)
  {
  }

  /** A successful logout emits `refreshApplication` and rests in `idle`; `clearContext`
      writes no field, so the context is kept as it was. */
  lemma LogoutSucceeded(c: Config)
    requires c.state == LoggingOut
    ensures Next(c, LogoutDone(Ok(()))) ==
      Reaction(Config(Idle, c.ctx, c.isLogged), [ApplicationRefreshed, TimerStarted(TimeoutDelay)])
  {
  }

  /** A logout that completes with an error parks in `failed` with the error. */
  lemma LogoutFailed(c: Config, e: Error)
    requires c.state == LoggingOut
    ensures Next(c, LogoutDone(Err(e))) ==
      Reaction(Config(Failed, c.ctx.(error := Some(e)), c.isLogged), [TimerStarted(IntervalDelay)])
  {
  }

  /** Both completions of the logout service. */
  lemma LogoutCompleted(c: Config, e: Error)
    requires c.state == LoggingOut
    ensures Next(c, LogoutDone(Ok(()))) ==
      Reaction(Config(Idle, c.ctx, c.isLogged), [ApplicationRefreshed, TimerStarted(TimeoutDelay)])
    ensures Next(c, LogoutDone(Err(e))) ==
      Reaction(Config(Failed, c.ctx.(error := Some(e)), c.isLogged), [TimerStarted(IntervalDelay)])
  {
    LogoutSucceeded(c);
    LogoutFailed(c, e);
  }

  /** From any configuration, LOGOUT followed by a successful logout reaches `idle` with the
      flag untouched and the context as it was, except the name the add flow staged. */
  lemma LogoutThenKept(c: Config)
    ensures Next(Next(c, Logout).config, LogoutDone(Ok(()))).config ==
      Config(Idle, if c.state == AddingAccount then c.ctx.(accountName := None) else c.ctx, c.isLogged)
  {
    LogoutFromAnyState(c);
    LogoutSucceeded(Next(c, Logout).config);
  }

  /** A recorded error and a stored account list survive a completed logout, so the
      context is not the empty one `clearContext` is named for. */
  lemma LogoutKeepsErrorAndAccounts(c: Config)
    requires c.ctx.error.Some? || c.ctx.accounts.Some?
    ensures var r := Next(Next(c, Logout).config, LogoutDone(Ok(()))).config;
      r.state == Idle && r.ctx.error == c.ctx.error && r.ctx.accounts == c.ctx.accounts
      && r.ctx != EmptyContext
  {
    LogoutThenKept(c);
  }

  /** Either completion of the logout service, as one step. */
  lemma LogoutDoneStep(c: Config, ev: Event)
    requires c.state == LoggingOut && ev.LogoutDone?
    ensures Next(c, ev).config ==
      if ev.cleared.Ok? then Config(Idle, c.ctx, c.isLogged)
      else Config(Failed, c.ctx.(error := Some(ev.cleared.error)), c.isLogged)
    ensures ev.cleared.Ok? ==> ev == LogoutDone(Ok(()))
  {
    if ev.cleared.Ok? {
      var u: () := ev.cleared.value;
      match u { case () => }
      assert ev == LogoutDone(Ok(()));
      LogoutCompleted(c, Thrown(""));
    } else {
      LogoutCompleted(c, ev.cleared.error);
    }
  }

  // ----- the add flow and its staged name -----

  /** ADD_ACCOUNT in `idle` stages the name and starts the add service with it. */
  lemma AddAccountStagesName(c: Config, name: string)
    requires c.state == Idle
    ensures Next(c, Event.AddAccount(name)) ==
      Reaction(Config(AddingAccount, c.ctx.(accountName := Some(name)), c.isLogged),
               [TimerCancelled(TimeoutDelay), Invoked(AddAccountCall(Some(name)))])
  {
  }

  /** `addingAccount` is left exactly on its completion or on LOGOUT, and leaving it always
      clears the staged name. */
  lemma LeavingAddingAccountClearsName(c: Config, ev: Event)
    requires c.state == AddingAccount
    ensures Next(c, ev).config.state != AddingAccount <==> ev.AddAccountDone? || ev.Logout?
    ensures Next(c, ev).config.state != AddingAccount ==> Next(c, ev).config.ctx.accountName.None?
  {
  }

  /** The staged name is present exactly while the add flow runs. */
  ghost predicate NameStagedOnlyWhileAdding(c: Config) {
    c.ctx.accountName.Some? <==> c.state == AddingAccount
  }

  lemma NextKeepsStagedName(c: Config, ev: Event)
    requires NameStagedOnlyWhileAdding(c)
    ensures NameStagedOnlyWhileAdding(Next(c, ev).config)
  {
    NextFrame(c, ev);
    if Select(c, ev).Some? {
      TableWriters(c, ev);
      if c.state == AddingAccount {
        LeavingAddingAccountClearsName(c, ev);
      } else if c.state == Idle && ev.AddAccount? {
        AddAccountStagesName(c, ev.name);
      } else if c.state == LoggingOut && ev.LogoutDone? {
        LogoutDoneStep(c, ev);
      }
    }
  }

  /** The configuration after a sequence of events. */
  function After(c: Config, evs: seq<Event>): Config
    decreases |evs|
  {
    if evs == [] then c else Next(After(c, evs[..|evs| - 1]), evs[|evs| - 1]).config
  }

  lemma {:induction false} RunKeepsStagedName(c: Config, evs: seq<Event>)
    requires NameStagedOnlyWhileAdding(c)
    ensures NameStagedOnlyWhileAdding(After(c, evs))
    decreases |evs|
  {
    if evs != [] {
      RunKeepsStagedName(c, evs[..|evs| - 1]);
      NextKeepsStagedName(After(c, evs[..|evs| - 1]), evs[|evs| - 1]);
    }
  }

  /** In every configuration the machine reaches from its start, a name is staged exactly
      while the add flow runs. */
  lemma ReachableStagesNameOnlyWhileAdding(storedIsLogged: bool, evs: seq<Event>)
    ensures NameStagedOnlyWhileAdding(After(Initial(storedIsLogged), evs))
  {
    RunKeepsStagedName(Initial(storedIsLogged), evs);
  }

  /** An action other than entering `addingAccount` never emits the add service's
      invocation. */
  lemma ApplyAddInvocation(p: Progress, a: Action, ev: Event)
    ensures forall n | Invoked(AddAccountCall(n)) in Apply(p, a, ev).effects ::
      Invoked(AddAccountCall(n)) in p.effects || a == Invoke(AddingAccount)
  {
  }

  /** The add service is started only by ADD_ACCOUNT, and with that event's name: the
      staged name it reads was assigned by the same transition. */
  lemma AddServiceGetsEventName(c: Config, ev: Event)
    ensures forall n | Invoked(AddAccountCall(n)) in Next(c, ev).effects ::
      ev.AddAccount? && n == Some(ev.name)
  {
    if Select(c, ev).Some? {
      var t := Select(c, ev).value;
      TableWriters(c, ev);
      if t.target == AddingAccount {
        AddAccountStagesName(c, ev.name);
      } else {
        SelectShort(c, ev);
        ExitEntryFrame(c.state, t.target);
        var p0 := Progress(c.ctx, c.isLogged, []);
        var p1 := RunShort(p0, Exit(c.state), ev);
        var p2 := RunShort(p1, t.actions, ev);
        RunShortFrame(p0, Exit(c.state), ev);
        RunShortFrame(p1, t.actions, ev);
        RunShortFrame(p2, Entry(t.target), ev);
      }
    }
  }

  // ----- the write paths -----

  /** `ev` is the completion of the service the write state `s` invoked. */
  predicate CompletesWrite(s: State, ev: Event) {
    (s == SettingCurrentAccount && ev.SetCurrentAccountDone?)
    || (s == AddingAccount && ev.AddAccountDone?)
    || (s == ImportingAccount && ev.ImportAccountDone?)
  }

  /** A write service completing with an error parks in `failed` with the error recorded. */
  lemma WriteFailed(c: Config, ev: Event)
    requires CompletesWrite(c.state, ev) && HasError(ev)
    ensures var ctx := if c.state == AddingAccount then c.ctx.(accountName := None) else c.ctx;
      Next(c, ev) == Reaction(Config(Failed, ctx.(error := ErrorData(ev)), c.isLogged), [TimerStarted(IntervalDelay)])
      && ErrorData(ev).Some?
  {
  }

  /** Any other completion notifies, closes the overlay and refetches the account list. */
  lemma WriteSucceeded(c: Config, ev: Event)
    requires CompletesWrite(c.state, ev) && !HasError(ev)
    ensures var ctx := if c.state == AddingAccount then c.ctx.(accountName := None) else c.ctx;
      Next(c, ev) ==
        Reaction(Config(FetchingAccounts, ctx, c.isLogged), [AccountsUpdateNotified, OverlayClosed, Invoked(FetchAccountsCall)])
  {
  }

  /** The two outcomes together. */
  lemma WriteCompleted(c: Config, ev: Event)
    requires CompletesWrite(c.state, ev)
    ensures var ctx := if c.state == AddingAccount then c.ctx.(accountName := None) else c.ctx;
      Next(c, ev) ==
        if HasError(ev) then
          Reaction(Config(Failed, ctx.(error := ErrorData(ev)), c.isLogged), [TimerStarted(IntervalDelay)])
        else
          Reaction(Config(FetchingAccounts, ctx, c.isLogged), [AccountsUpdateNotified, OverlayClosed, Invoked(FetchAccountsCall)])
    ensures HasError(ev) ==> Next(c, ev).config.ctx.error.Some?
  {
    if HasError(ev) {
      WriteFailed(c, ev);
    } else {
      WriteSucceeded(c, ev);
    }
  }

  // ----- the delayed events -----

  /** In `idle` the TIMEOUT event refreshes the current account only when logged in. */
  lemma TimeoutInIdle(c: Config)
    requires c.state == Idle
    ensures Next(c, Timeout) ==
      if c.isLogged then Reaction(Config(State.UpdateAccount, c.ctx, c.isLogged), [TimerCancelled(TimeoutDelay), Invoked(FetchAccountCall)])
      else Reaction(c, [])
  {
  }

  /** In `failed` the INTERVAL event retries the account list only when logged in. */
  lemma IntervalInFailed(c: Config)
    requires c.state == Failed
    ensures Next(c, Interval) ==
      if c.isLogged then Reaction(Config(FetchingAccounts, c.ctx, c.isLogged), [TimerCancelled(IntervalDelay), Invoked(FetchAccountsCall)])
      else Reaction(c, [])
  {
  }

  /** Each delayed event belongs to one state and is dropped in every other. */
  lemma DelayedEventsOwned(c: Config)
    ensures c.state != Idle ==> Next(c, Timeout) == Reaction(c, [])
    ensures c.state != Failed ==> Next(c, Interval) == Reaction(c, [])
  {
  }

  /** Entering `idle` schedules TIMEOUT and entering `failed` schedules INTERVAL, as the
      last thing a transition does. */
  lemma DelayedEventsScheduledOnEntry(c: Config, ev: Event)
    requires Select(c, ev).Some?
    ensures var r := Next(c, ev);
      (r.config.state == Idle ==> r.effects != [] && r.effects[|r.effects| - 1] == TimerStarted(TimeoutDelay))
      && (r.config.state == Failed ==> r.effects != [] && r.effects[|r.effects| - 1] == TimerStarted(IntervalDelay))
  {
    var t := Select(c, ev).value;
    var xs := TransitionActions(c.state, t);
    assert xs[|xs| - 1] == Entry(t.target)[0];
  }

  /** Leaving `idle` or `failed` first cancels its pending delayed event, also when the
      transition re-enters the same state. */
  lemma DelayedEventsCancelledOnExit(c: Config, ev: Event)
    requires Select(c, ev).Some?
    ensures var r := Next(c, ev);
      (c.state == Idle ==> r.effects != [] && r.effects[0] == TimerCancelled(TimeoutDelay))
      && (c.state == Failed ==> r.effects != [] && r.effects[0] == TimerCancelled(IntervalDelay))
  {
  }

  /** Nothing changes the flag while the machine rests in `idle` or `failed`, so a
      further delayed event there sees the same guard as the first. */
  lemma RestingKeepsFlag(c: Config, ev: Event)
    requires c.state == Idle || c.state == Failed
    requires Next(c, ev).config.state == c.state
    ensures Next(c, ev).config.isLogged == c.isLogged
  {
  }

  // ----- what each context field and the flag are written by -----

  /** The actions that write each part of the configuration. */
  predicate WritesFlag(a: Action) {
    a == SetIsLogged || a == SetIsUnlogged
  }

  predicate WritesAccountName(a: Action) {
    a == AssignAccountName || a == ClearAccountName
  }

  predicate WritesError(a: Action) {
    a == AssignError
  }

  predicate WritesAccount(a: Action) {
    a == AssignAccount || a == Action.HideAccount
  }

  /** An action that does not write a part leaves that part as it was. */
  lemma ApplyFrame(p: Progress, a: Action, ev: Event)
    ensures !WritesFlag(a) ==> Apply(p, a, ev).isLogged == p.isLogged
    ensures !WritesAccountName(a) ==> Apply(p, a, ev).ctx.accountName == p.ctx.accountName
    ensures !WritesError(a) ==> Apply(p, a, ev).ctx.error == p.ctx.error
    ensures !WritesAccount(a) ==> Apply(p, a, ev).ctx.account == p.ctx.account
  {
  }

  /** A short run of actions none of which writes a part leaves that part as it was, and
      one that does not enter `addingAccount` emits no add invocation. */
  lemma RunShortFrame(p: Progress, xs: seq<Action>, ev: Event)
    requires |xs| <= 2
    ensures (forall a | a in xs :: !WritesFlag(a)) ==> RunShort(p, xs, ev).isLogged == p.isLogged
    ensures (forall a | a in xs :: !WritesAccountName(a)) ==> RunShort(p, xs, ev).ctx.accountName == p.ctx.accountName
    ensures (forall a | a in xs :: !WritesError(a)) ==> RunShort(p, xs, ev).ctx.error == p.ctx.error
    ensures (forall a | a in xs :: !WritesAccount(a)) ==> RunShort(p, xs, ev).ctx.account == p.ctx.account
    ensures Invoke(AddingAccount) !in xs ==>
      forall n | Invoked(AddAccountCall(n)) in RunShort(p, xs, ev).effects :: Invoked(AddAccountCall(n)) in p.effects
  {
    if |xs| >= 1 {
      assert xs[0] in xs;
      ApplyFrame(p, xs[0], ev);
      ApplyAddInvocation(p, xs[0], ev);
    }
    if |xs| == 2 {
      assert xs[1] in xs;
      ApplyFrame(Apply(p, xs[0], ev), xs[1], ev);
      ApplyAddInvocation(Apply(p, xs[0], ev), xs[1], ev);
    }
  }

  /** Leaving and entering a state write none of the flag, the error and the account;
      only leaving `addingAccount` writes the staged name. */
  lemma ExitEntryFrame(s: State, target: State)
    ensures forall a | a in Exit(s) ::
      !WritesFlag(a) && !WritesError(a) && !WritesAccount(a) && a != Invoke(AddingAccount)
      && (s != AddingAccount ==> !WritesAccountName(a))
    ensures forall a | a in Entry(target) ::
      !WritesFlag(a) && !WritesError(a) && !WritesAccount(a) && !WritesAccountName(a)
      && (target != AddingAccount ==> a != Invoke(AddingAccount))
  {
  }

  /** Which table entries run a writer of each part among their own actions. */
  lemma TableWriters(c: Config, ev: Event)
    requires Select(c, ev).Some?
    ensures var acts := Select(c, ev).value.actions;
      ((exists a | a in acts :: WritesFlag(a)) ==>
         (c.state == FetchingAccounts && ev.FetchAccountsDone?)
         || ((c.state == FetchingAccount || c.state == State.UpdateAccount) && ev.FetchAccountDone? && !HasAccount(c.ctx, ev)))
      && ((exists a | a in acts :: WritesAccountName(a)) ==> c.state == Idle && ev.AddAccount?)
      && ((exists a | a in acts :: WritesError(a)) ==>
         (c.state == FetchingAccounts && ev.FetchAccountsError?)
         || ((c.state == FetchingAccount || c.state == State.UpdateAccount) && ev.FetchAccountError?)
         || CompletesWrite(c.state, ev) || (c.state == LoggingOut && ev.LogoutDone? && HasError(ev)))
      && ((exists a | a in acts :: WritesAccount(a)) ==>
         ((c.state == FetchingAccount || c.state == State.UpdateAccount) && ev.FetchAccountDone?)
         || (c.state == Idle && ev.HideAccount?))
      && (forall a | a in acts :: !a.Invoke?)
      && (Select(c, ev).value.target == AddingAccount ==> c.state == Idle && ev.AddAccount?)
  {
  }

  /** How `Next` relates to the writers among a taken transition's own actions. */
  lemma NextFrame(c: Config, ev: Event)
    ensures var r := Next(c, ev).config;
      (Select(c, ev).None? ==> r == c)
      && (Select(c, ev).Some? ==>
            var acts := Select(c, ev).value.actions;
            r.state == Select(c, ev).value.target
            && ((forall a | a in acts :: !WritesFlag(a)) ==> r.isLogged == c.isLogged)
            && ((forall a | a in acts :: !WritesAccountName(a)) && c.state != AddingAccount ==>
                  r.ctx.accountName == c.ctx.accountName)
            && ((forall a | a in acts :: !WritesError(a)) ==> r.ctx.error == c.ctx.error)
            && ((forall a | a in acts :: !WritesAccount(a)) ==> r.ctx.account == c.ctx.account))
  {
    if Select(c, ev).Some? {
      var t := Select(c, ev).value;
      SelectShort(c, ev);
      ExitEntryFrame(c.state, t.target);
      var p0 := Progress(c.ctx, c.isLogged, []);
      var p1 := RunShort(p0, Exit(c.state), ev);
      var p2 := RunShort(p1, t.actions, ev);
      RunShortFrame(p0, Exit(c.state), ev);
      RunShortFrame(p1, t.actions, ev);
      RunShortFrame(p2, Entry(t.target), ev);
    }
  }

  /** The flag is written only when a fetch completes: `fetchingAccounts` sets it to
      whether accounts exist, and the current-account fetch removes it when no account is
      known. */
  lemma FlagWrittenOnlyByFetches(c: Config, ev: Event)
    ensures var r := Next(c, ev);
      r.config.isLogged != c.isLogged ==>
        (c.state == FetchingAccounts && ev.FetchAccountsDone? && r.config.isLogged == HasAccounts(c.ctx, ev))
        || ((c.state == FetchingAccount || c.state == State.UpdateAccount)
            && ev.FetchAccountDone? && !HasAccount(c.ctx, ev) && !r.config.isLogged)
  {
    NextFrame(c, ev);
    if Select(c, ev).Some? {
      TableWriters(c, ev);
    }
  }

  /** A recorded error stays until the next error replaces it: only a transition into
      `failed` writes it, and no transition ever clears it. */
  lemma ErrorWrittenOnlyByFailures(c: Config, ev: Event)
    ensures var r := Next(c, ev);
      r.config.ctx.error != c.ctx.error ==>
        r.config.state == Failed && r.config.ctx.error == ErrorData(ev) && ErrorData(ev).Some?
  {
    NextFrame(c, ev);
    if Select(c, ev).Some? {
      TableWriters(c, ev);
      if c.state == FetchingAccounts && ev.FetchAccountsError? {
        AccountsFetchFailed(c, ev.error);
      } else if (c.state == FetchingAccount || c.state == State.UpdateAccount) && ev.FetchAccountError? {
        AccountFetchFailed(c, ev.error);
      } else if CompletesWrite(c.state, ev) {
        WriteCompleted(c, ev);
      } else if c.state == LoggingOut && ev.LogoutDone? {
        LogoutDoneStep(c, ev);
      }
    }
  }

  /** The current account changes only by a current-account fetch or by HIDE_ACCOUNT on
      its hidden flag; a logout keeps it. */
  lemma AccountWrittenOnlyByFetchOrHide(c: Config, ev: Event)
    ensures var r := Next(c, ev);
      r.config.ctx.account != c.ctx.account ==>
        ((c.state == FetchingAccount || c.state == State.UpdateAccount) && ev.FetchAccountDone? && r.config.ctx.account == ev.account)
        || (c.state == Idle && ev.HideAccount? && c.ctx.account.Some?
            && r.config.ctx.account == Some(c.ctx.account.value.(isHidden := ev.hiding.isHidden)))
  {
    NextFrame(c, ev);
    if Select(c, ev).Some? {
      TableWriters(c, ev);
      if (c.state == FetchingAccount || c.state == State.UpdateAccount) && ev.FetchAccountDone? {
        AccountFetched(c, ev.account);
      } else if c.state == Idle && ev.HideAccount? {
        HideAccountInIdle(c, ev.hiding);
      }
    }
  }

  /** The flag is not a cache of the last account-list fetch: a non-empty list followed by
      a fetch that finds no current account leaves the list stored and the flag removed. */
  lemma FlagRemovedWithAccountsStored(storedIsLogged: bool, a: Account)
    ensures var c := After(Initial(storedIsLogged), [FetchAccountsDone(Some([a])), FetchAccountDone(None)]);
      c == Config(Idle, EmptyContext.(accounts := Some([a])), false)
  {
    var c0 := Initial(storedIsLogged);
    var evs := [FetchAccountsDone(Some([a])), FetchAccountDone(None)];
    assert evs[..1] == [FetchAccountsDone(Some([a]))];
    assert evs[..1][..0] == [];
    AccountsFetched(c0, [a]);
    var c1 := Next(c0, evs[0]).config;
    assert After(c0, evs[..1]) == c1;
    AccountFetched(c1, None);
  }
}
