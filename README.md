# Account lifecycle of the Fuel wallet, in Dafny

This project models the `accountsMachine` of the Fuel wallet app
(`packages/app/src/systems/Account/machines/accountsMachine.tsx`). The machine keeps the
wallet's accounts in a context of four optional fields: the account list, the name staged for
an account being added, the current account, and the last error. Beside the context it keeps
a logged-in marker in persisted storage. Its nine states fetch the account list and the
current account, take the user's requests to select, add, import or hide an account, and log
out. `idle` and `failed` poll with the delayed events `TIMEOUT` (5000 ms) and `INTERVAL`
(2000 ms), and the logged-in marker gates both.

Modules:

- `Wrappers` holds `Option`.
- `JsString` models ECMAScript `String.prototype.trim` (WhiteSpace and LineTerminator code
  points). The services use it to reject blank names and keys.
- `AccountTypes` holds the account records, the service inputs, the errors with the
  messages the services throw, and the machine context.
- `AccountServices` models the fetch functions of the six invoked services: `fetchAccounts`,
  `fetchAccount`, `setCurrentAccount`, `addAccount`, `importAccount` and `logout`.
  - Each collaborator (AccountService, VaultService, NetworkService, CoreService) is an
    oracle. A `Collaborators` value says what each call returns or throws.
  - A run returns the service's result and the ordered log of collaborator calls it made.
    This is how "rejected before any collaborator is called" is stated.
- `AccountMachine` holds the machine's states, events, actions, guards and transition table
  (`Select`).
  - It also holds the entry and exit work of each state, and the transition function `Next`.
    `Next` runs the source state's exit actions, then the transition's actions, then the
    target's entry actions, in that order. Each action reads the context as the previous
    action left it, as xstate does with `predictableActionArguments`.
  - The class `AccountsMachine` keeps `state`, `ctx` and `isLogged` as fields. `Step`
    updates them in place, one action at a time, and is proved to agree with `Next`.
- `AccountProperties` holds the lemmas about the table. They cover:
  - the fetch completions
  - user events outside `idle`
  - `HIDE_ACCOUNT`
  - logout from every state
  - the staged name's invariant, with the add service being started with the event's name
  - the write completions
  - the delayed events
  - which transitions may write each part of the configuration
- `AccountFindings` holds the reading of `clearContext` its name evidently intends, a reset
  of the whole context, beside the machine as written (see "## Findings").
- `AccountScenarios` connects the two halves. The completion an invoked service sends is
  computed from the service's run: a done event for the write services and logout, and a
  done or error event for the two fetches. End-to-end lemmas follow a user request through
  its service and back.

Four behaviours of the code worth noting:

- `loggingout` parks in `failed` when the logout service reports an error
  (accountsMachine.tsx:223-228).
- No transition clears `error`. A later success leaves the old error in the context, and so
  does a successful logout: `clearContext` is `assign(() => ({}))`
  (accountsMachine.tsx:266), and xstate's `assign` merges the object the assigner returns
  into the context, so an empty object writes no field (`ErrorWrittenOnlyByFailures`,
  `LogoutKeepsErrorAndAccounts`).
- The logged-in marker is not a cache of the last account-list fetch. A current-account fetch
  that finds no account removes it while the list stays stored
  (`FlagRemovedWithAccountsStored`). The machine's own logout actions do not write it;
  what `CoreService.clear` does to `Storage` is not modelled.
- `refreshApplication` is named at accountsMachine.tsx:230 but is not defined among the
  machine's actions. It is modelled as an effect with no change to the configuration.

## Model

| member | source | states |
|---|---|---|
| JsString.TrimStart | packages/app/src/systems/Account/machines/accountsMachine.tsx:342 | the result is a suffix of the input; everything dropped is white space, and the result does not start with white space |
| JsString.TrimEnd | packages/app/src/systems/Account/machines/accountsMachine.tsx:342 | the result is a prefix of the input; everything dropped is white space, and the result does not end with white space |
| JsString.Trim | packages/app/src/systems/Account/machines/accountsMachine.tsx:381-386 | neither end of the trimmed string is white space, and it is no longer than the input |
| JsString.TrimKeepsMiddle | packages/app/src/systems/Account/machines/accountsMachine.tsx:381-386 | what `trim` keeps is one slice of the input, and everything it drops from either end is white space |
| JsString.IsBlank | packages/app/src/systems/Account/machines/accountsMachine.tsx:342 | definition of `!s.trim()`; `JsString.BlankIffAllWhiteSpace` states what it means |
| JsString.BlankIffAllWhiteSpace | packages/app/src/systems/Account/machines/accountsMachine.tsx:342-344 | `!s.trim()` holds exactly when every character of `s` is white space |
| AccountServices.FetchAccounts | packages/app/src/systems/Account/machines/accountsMachine.tsx:300-305 | definition: the store's answer, after one call; `AccountScenarios.StartWithoutAccounts` and `AccountScenarios.StartWithAccount` use it |
| AccountServices.ProviderUrl | packages/app/src/systems/Account/machines/accountsMachine.tsx:313-314 | definition of the selected network's url, falling back on the default url when it is absent or empty; `AccountServices.FetchAccount` states the hydration it feeds |
| AccountServices.FetchAccount | packages/app/src/systems/Account/machines/accountsMachine.tsx:306-321 | no current account gives an empty success after one call; otherwise the selected network's url, or the default url when it is absent or empty, hydrates the current account with its balance; each thrown error stops the run and is passed through, and once the network answers the log is exactly the three calls, whatever the balance lookup does |
| AccountServices.MissingAddress | packages/app/src/systems/Account/machines/accountsMachine.tsx:328 | definition of `!input?.address`; `AccountServices.SetCurrentAccount` states that exactly these inputs are rejected before any call |
| AccountServices.SetCurrentAccount | packages/app/src/systems/Account/machines/accountsMachine.tsx:322-337 | a missing or empty address is rejected with "Invalid account address" before the store is called, and only then; an empty answer is "Failed to select account"; success is exactly a non-empty answer, which is returned; an error the store throws is the run's error, unchanged |
| AccountServices.StoreAndSelect | packages/app/src/systems/Account/machines/accountsMachine.tsx:358-370 | definition of the tail adding and importing share; `AccountServices.AddAccountStores` and `AccountServices.ImportAccountStores` state it for both callers |
| AccountServices.AddAccount | packages/app/src/systems/Account/machines/accountsMachine.tsx:338-373 | a blank name is rejected before any call, then a name in use, before the vault is asked; the vault is asked exactly when the name is accepted; the stored record is the name merged with vault 0's new key; success selects the stored account and returns what selecting returned |
| AccountServices.AddAccountThrows | packages/app/src/systems/Account/machines/accountsMachine.tsx:347-356 | an error thrown by the name check or by the vault stops `addAccount`, which throws it, with the calls made so far logged |
| AccountServices.AddAccountStores | packages/app/src/systems/Account/machines/accountsMachine.tsx:358-372 | once the vault has derived the key, the record is stored and the stored account selected: a store error is thrown, and otherwise the run answers what the selection answers, account or error |
| AccountServices.ImportAccount | packages/app/src/systems/Account/machines/accountsMachine.tsx:374-412 | a blank private key is rejected before a blank name, both before any call; `createVault` is called exactly when both pass; the stored record has the given name, the vault's key and `isHidden = false`; success selects the stored account |
| AccountServices.ImportAccountThrows | packages/app/src/systems/Account/machines/accountsMachine.tsx:388-392 | an error thrown by the vault stops `importAccount`, which throws it, with the vault call logged |
| AccountServices.ImportAccountStores | packages/app/src/systems/Account/machines/accountsMachine.tsx:394-411 | once the vault holds the key, the record is stored with `isHidden` false and the stored account selected: a store error is thrown, and otherwise the run answers what the selection answers |
| AccountServices.Logout | packages/app/src/systems/Account/machines/accountsMachine.tsx:413-419 | definition: the session clear, after one call; `AccountScenarios.CompletionReportsFailure` states how its error reaches the machine |
| AccountMachine.Initial | packages/app/src/systems/Account/machines/accountsMachine.tsx:92 | definition of the start configuration; `AccountProperties.ReachableStagesNameOnlyWhileAdding` and the start-up scenarios use it |
| AccountMachine.AccountsMachine.constructor | packages/app/src/systems/Account/machines/accountsMachine.tsx:92 | a new machine starts in `fetchingAccounts` with an empty context and the stored flag |
| AccountMachine.AccountsMachine.Step | packages/app/src/systems/Account/machines/accountsMachine.tsx:93-298 | running the taken transition's actions on the fields in order leaves the machine in the configuration `Next` gives and returns the effects `Next` gives |
| AccountMachine.AccountsMachine.RunInPlace | packages/app/src/systems/Account/machines/accountsMachine.tsx:256-298 | performing a list of actions on the fields one by one leaves the context, flag and effects that running them in order gives, and the state untouched |
| AccountMachine.AccountsMachine.Perform | packages/app/src/systems/Account/machines/accountsMachine.tsx:256-298 | one action updates the fields as the table's reducer does and emits the same effects, and never changes the state |
| AccountMachine.IsLoggedIn | packages/app/src/systems/Account/machines/accountsMachine.tsx:422-424 | definition of the `isLoggedIn` guard on the stored marker; `AccountProperties.TimeoutInIdle` and `AccountProperties.IntervalInFailed` state what it gates |
| AccountMachine.HasAccount | packages/app/src/systems/Account/machines/accountsMachine.tsx:425-427 | definition of the `hasAccount` guard; `AccountProperties.AccountFetched` states which branch it picks |
| AccountMachine.HasAccounts | packages/app/src/systems/Account/machines/accountsMachine.tsx:428-430 | definition of the `hasAccounts` guard; `AccountProperties.AccountsFetched` and `AccountProperties.AccountsFetchedWithoutList` state which branch it picks |
| AccountMachine.HasError | packages/app/src/systems/Account/machines/accountsMachine.tsx:163-173 | definition of `FetchMachine.hasError` on a write or logout completion; `AccountScenarios.CompletionReportsFailure` states that it holds exactly when the service threw |
| AccountMachine.Select | packages/app/src/systems/Account/machines/accountsMachine.tsx:93-249 | definition of the transition table; `AccountMachine.SelectShort`, `AccountProperties.TableWriters` and the per-state lemmas state what it selects |
| AccountMachine.FetchAccountTransition | packages/app/src/systems/Account/machines/accountsMachine.tsx:58-79 | definition of the shared current-account fetch handlers; `AccountProperties.AccountFetched` and `AccountProperties.AccountFetchFailed` state them |
| AccountMachine.WriteDoneTransition | packages/app/src/systems/Account/machines/accountsMachine.tsx:163-173 | definition of the shared write-completion handlers; `AccountProperties.WriteFailed` and `AccountProperties.WriteSucceeded` state them |
| AccountMachine.Exit | packages/app/src/systems/Account/machines/accountsMachine.tsx:117-243 | definition of each state's exit work; `AccountProperties.ExitEntryFrame` and `AccountProperties.DelayedEventsCancelledOnExit` state it |
| AccountMachine.Entry | packages/app/src/systems/Account/machines/accountsMachine.tsx:117-243 | definition of each state's entry work; `AccountProperties.DelayedEventsScheduledOnEntry` and `AccountScenarios.EntryStartsOwnService` state it |
| AccountMachine.InvocationOf | packages/app/src/systems/Account/machines/accountsMachine.tsx:157-205 | definition of the invoke `data` mappers: the selection and import services get the entering event's input, the add service the staged name; `AccountScenarios.StartedByEntry`, `AccountProperties.ApplyAddInvocation` and `AccountProperties.AddServiceGetsEventName` state what they pass |
| AccountMachine.Apply | packages/app/src/systems/Account/machines/accountsMachine.tsx:256-298 | definition of the actions, with `clearContext` writing no field; `AccountProperties.ApplyFrame`, `AccountMachine.ApplyAppends` and `AccountProperties.ApplyAddInvocation` state what each may write |
| AccountMachine.Next | packages/app/src/systems/Account/machines/accountsMachine.tsx:93-298 | definition of the response to one event; `AccountMachine.NextRunsActions` states that it runs exit, transition and entry actions in order, and `AccountMachine.AccountsMachine.Step` is proved against it |
| AccountMachine.ApplyAppends | packages/app/src/systems/Account/machines/accountsMachine.tsx:256-298 | an action only appends to the effects already produced, and what it does to the context and flag does not depend on them |
| AccountMachine.RunActionsAppend | packages/app/src/systems/Account/machines/accountsMachine.tsx:256-298 | running two lists of actions one after the other is running them joined |
| AccountMachine.NextRunsActions | packages/app/src/systems/Account/machines/accountsMachine.tsx:93-249 | a handled event runs the source's exit actions, then the transition's own, then the target's entry actions as one sequence, each on what the previous one left; the new configuration is the target with the context and flag that sequence ends with |
| AccountMachine.RunTransition | packages/app/src/systems/Account/machines/accountsMachine.tsx:93-249 | running the exit, transition and entry actions joined is running the three phases one after the other |
| AccountMachine.RunShortRuns | packages/app/src/systems/Account/machines/accountsMachine.tsx:256-298 | running a short list of actions step by step is running them in order as one sequence |
| AccountMachine.SelectShort | packages/app/src/systems/Account/machines/accountsMachine.tsx:93-249 | no transition of the table carries more than two actions of its own |
| AccountProperties.AccountsFetched | packages/app/src/systems/Account/machines/accountsMachine.tsx:127-141 | a non-empty list is stored, the marker set, and the current account fetched; an empty list is stored, the marker removed, and the machine rests in `idle` |
| AccountProperties.AccountsFetchedWithoutList | packages/app/src/systems/Account/machines/accountsMachine.tsx:428-430 | a completion without a list clears the stored list, but `hasAccounts` falls back on the list held before |
| AccountProperties.AccountsFetchFailed | packages/app/src/systems/Account/machines/accountsMachine.tsx:142-147 | an error of the list fetch is recorded and the machine parks in `failed`, scheduling INTERVAL |
| AccountProperties.AccountFetched | packages/app/src/systems/Account/machines/accountsMachine.tsx:58-71 | a current-account completion stores what it carries, even nothing, and rests in `idle`; the marker survives exactly when it was set and an account is in the completion or the context |
| AccountProperties.AccountFetchFailed | packages/app/src/systems/Account/machines/accountsMachine.tsx:72-77 | an error of the current-account fetch is recorded and the machine parks in `failed` |
| AccountProperties.UserEventsOnlyInIdle | packages/app/src/systems/Account/machines/accountsMachine.tsx:94-116 | outside `idle` every user event but LOGOUT is dropped and nothing changes |
| AccountProperties.HideAccountInIdle | packages/app/src/systems/Account/machines/accountsMachine.tsx:96-99 | HIDE_ACCOUNT re-enters `idle`, changes only the current account's hidden flag and persists it; without a current account it changes nothing |
| AccountProperties.RefreshesFromIdle | packages/app/src/systems/Account/machines/accountsMachine.tsx:107-112 | UPDATE_ACCOUNTS and UPDATE_ACCOUNT leave `idle` for their fetch, cancel TIMEOUT and start the fetch, context and flag untouched |
| AccountProperties.RequestsFromIdle | packages/app/src/systems/Account/machines/accountsMachine.tsx:100-115 | SET_CURRENT_ACCOUNT and IMPORT_ACCOUNT leave `idle` for their state, cancel TIMEOUT and start that state's service with the event's input, context and flag untouched |
| AccountProperties.LogoutFromAnyState | packages/app/src/systems/Account/machines/accountsMachine.tsx:245-249 | LOGOUT is taken in every state and starts the logout service; only leaving the add flow touches the context |
| AccountProperties.LogoutSucceeded | packages/app/src/systems/Account/machines/accountsMachine.tsx:229-232 | a successful logout emits the `refreshApplication` action and rests in `idle`, scheduling TIMEOUT, with the context as it was |
| AccountProperties.LogoutFailed | packages/app/src/systems/Account/machines/accountsMachine.tsx:224-228 | a logout completing with an error records it in `failed`, scheduling INTERVAL |
| AccountProperties.LogoutCompleted | packages/app/src/systems/Account/machines/accountsMachine.tsx:219-235 | a successful logout emits the `refreshApplication` action and rests in `idle` with the context kept; an error is recorded in `failed` |
| AccountProperties.LogoutDoneStep | packages/app/src/systems/Account/machines/accountsMachine.tsx:223-233 | either completion of the logout service, read off its result: `idle` with the context kept, or `failed` with the error recorded |
| AccountProperties.LogoutThenKept | packages/app/src/systems/Account/machines/accountsMachine.tsx:219-266 | from any configuration, LOGOUT and a successful logout reach `idle` with the marker untouched and the context as it was, except that leaving the add flow clears the staged name |
| AccountProperties.LogoutKeepsErrorAndAccounts | packages/app/src/systems/Account/machines/accountsMachine.tsx:266 | a recorded error and a stored list survive LOGOUT and a successful logout, so the context is not emptied |
| AccountProperties.AddAccountStagesName | packages/app/src/systems/Account/machines/accountsMachine.tsx:103-106 | ADD_ACCOUNT in `idle` stages the event's name and starts the add service with it |
| AccountProperties.LeavingAddingAccountClearsName | packages/app/src/systems/Account/machines/accountsMachine.tsx:176-197 | `addingAccount` is left exactly on its completion or LOGOUT, and leaving clears the staged name |
| AccountProperties.NextKeepsStagedName | packages/app/src/systems/Account/machines/accountsMachine.tsx:103-184  | every step keeps "a name is staged exactly while adding" |
| AccountProperties.RunKeepsStagedName | packages/app/src/systems/Account/machines/accountsMachine.tsx:176-198 | so does every sequence of steps |
| AccountProperties.ReachableStagesNameOnlyWhileAdding | packages/app/src/systems/Account/machines/accountsMachine.tsx:92-198  | every configuration reached from the start stages a name exactly while adding |
| AccountProperties.ApplyAddInvocation | packages/app/src/systems/Account/machines/accountsMachine.tsx:180-185 | only the action invoking `addingAccount`'s service starts the add service |
| AccountProperties.AddServiceGetsEventName | packages/app/src/systems/Account/machines/accountsMachine.tsx:180-185 | the add service is started only by ADD_ACCOUNT, and with that event's name |
| AccountProperties.WriteFailed | packages/app/src/systems/Account/machines/accountsMachine.tsx:157-218 | a write completing with an error parks in `failed` with the error recorded and INTERVAL scheduled; leaving `addingAccount` clears the staged name |
| AccountProperties.WriteSucceeded | packages/app/src/systems/Account/machines/accountsMachine.tsx:157-218 | any other write completion notifies, closes the overlay and refetches the list, context otherwise untouched |
| AccountProperties.WriteCompleted | packages/app/src/systems/Account/machines/accountsMachine.tsx:157-218 | a write completing with an error parks in `failed` with it recorded; otherwise it notifies, closes the overlay and refetches the list |
| AccountProperties.TimeoutInIdle | packages/app/src/systems/Account/machines/accountsMachine.tsx:117-125  | TIMEOUT in `idle` refreshes the current account exactly when logged in, and is dropped otherwise |
| AccountProperties.IntervalInFailed | packages/app/src/systems/Account/machines/accountsMachine.tsx:236-243  | INTERVAL in `failed` refetches the list exactly when logged in, and is dropped otherwise |
| AccountProperties.DelayedEventsOwned | packages/app/src/systems/Account/machines/accountsMachine.tsx:117-243  | TIMEOUT outside `idle` and INTERVAL outside `failed` change nothing |
| AccountProperties.DelayedEventsScheduledOnEntry | packages/app/src/systems/Account/machines/accountsMachine.tsx:117-255  | entering `idle` schedules TIMEOUT (5000) and entering `failed` schedules INTERVAL (2000); leaving either cancels its pending event first |
| AccountProperties.DelayedEventsCancelledOnExit | packages/app/src/systems/Account/machines/accountsMachine.tsx:117-243 | every transition out of `idle` or `failed` first cancels that state's delayed event |
| AccountProperties.RestingKeepsFlag | packages/app/src/systems/Account/machines/accountsMachine.tsx:94-126  | a step that stays in `idle` or `failed` leaves the marker as it was |
| AccountProperties.ApplyFrame | packages/app/src/systems/Account/machines/accountsMachine.tsx:256-298 | an action that does not write the marker, the staged name, the error or the account leaves it as it was |
| AccountProperties.ExitEntryFrame | packages/app/src/systems/Account/machines/accountsMachine.tsx:117-243 | leaving and entering a state write none of the marker, the error and the account; only leaving `addingAccount` writes the staged name, and only entering it starts the add service |
| AccountProperties.TableWriters | packages/app/src/systems/Account/machines/accountsMachine.tsx:93-249 | which transitions of the table write the marker, the staged name, the error or the account among their own actions; none of them invokes a service, and only ADD_ACCOUNT in `idle` leads to `addingAccount` |
| AccountProperties.RunShortFrame | packages/app/src/systems/Account/machines/accountsMachine.tsx:256-298 | actions none of which writes the marker, the staged name, the error or the account leave that part as it was, and only invoking `addingAccount` starts the add service |
| AccountProperties.NextFrame | packages/app/src/systems/Account/machines/accountsMachine.tsx:93-298 | a step changes the marker, the staged name, the error or the account only when an action of its transition writes it |
| AccountProperties.FlagWrittenOnlyByFetches | packages/app/src/systems/Account/machines/accountsMachine.tsx:58-272  | the marker changes only on a list completion, to whether accounts exist, or on a current-account completion that finds none, to removed |
| AccountProperties.ErrorWrittenOnlyByFailures | packages/app/src/systems/Account/machines/accountsMachine.tsx:72-266  | the error changes only by entering `failed` with the event's error; no transition clears it |
| AccountProperties.AccountWrittenOnlyByFetchOrHide | packages/app/src/systems/Account/machines/accountsMachine.tsx:58-285  | the current account changes only by a current-account completion or by HIDE_ACCOUNT on its hidden flag; a logout keeps it |
| AccountProperties.FlagRemovedWithAccountsStored | packages/app/src/systems/Account/machines/accountsMachine.tsx:58-71  | a one-account list followed by a fetch finding no current account rests in `idle` with the list stored and the marker removed |
| AccountScenarios.Complete | packages/app/src/systems/Account/machines/accountsMachine.tsx:129-233 | definition of the completion a service sends; `AccountScenarios.CompleteIsCompletion` and `AccountScenarios.CompletionReportsFailure` state its properties |
| AccountScenarios.CompleteIsCompletion | packages/app/src/systems/Account/machines/accountsMachine.tsx:129-233 | whatever the collaborators answer, a service reports back with one of its own completion events, never a user event |
| AccountScenarios.CompletionReportsFailure | packages/app/src/systems/Account/machines/accountsMachine.tsx:163-233 | the error the machine reads off a completion is exactly the one the service threw, and `hasError` holds on a write or logout completion exactly when that service threw |
| AccountScenarios.EntryStartsOwnService | packages/app/src/systems/Account/machines/accountsMachine.tsx:127-235 | when entering a state ends with starting a service, that state owns the service |
| AccountScenarios.StartedByEntry | packages/app/src/systems/Account/machines/accountsMachine.tsx:127-235 | a service is started only by entering the state that invokes it |
| AccountScenarios.OwnerHandles | packages/app/src/systems/Account/machines/accountsMachine.tsx:127-235 | the state that invokes a service has a transition for every completion event of that service, whatever the context, the flag and the data it carries |
| AccountScenarios.CompletionHandled | packages/app/src/systems/Account/machines/accountsMachine.tsx:127-235 | no completion is dropped by the state that started its service |
| AccountScenarios.ServeStarted | packages/app/src/systems/Account/machines/accountsMachine.tsx:127-235 | serving an event that started a service is delivering that service's completion to the state it led to |
| AccountScenarios.SetCurrentServed | packages/app/src/systems/Account/machines/accountsMachine.tsx:100-102 | SET_CURRENT_ACCOUNT in `idle`, with its service's completion delivered, ends in `failed` with the service's error or in `fetchingAccounts` |
| AccountScenarios.AddThenDone | packages/app/src/systems/Account/machines/accountsMachine.tsx:103-106 | ADD_ACCOUNT in `idle` starts the add service with the event's name, and any completion leaves `addingAccount` with the staged name cleared |
| AccountScenarios.AddServed | packages/app/src/systems/Account/machines/accountsMachine.tsx:103-106 | ADD_ACCOUNT in `idle`, served, ends in `failed` with the service's error or in `fetchingAccounts`, the staged name gone |
| AccountScenarios.ImportServed | packages/app/src/systems/Account/machines/accountsMachine.tsx:113-115 | IMPORT_ACCOUNT in `idle`, served, ends in `failed` with the service's error or in `fetchingAccounts` |
| AccountScenarios.WriteServed | packages/app/src/systems/Account/machines/accountsMachine.tsx:100-218  | a request to select, add or import ends in `failed` with the context's error set to the service's error, or in `fetchingAccounts` with the context as before; either way the staged name is cleared and the marker kept |
| AccountScenarios.DuplicateNameFails | packages/app/src/systems/Account/machines/accountsMachine.tsx:347-349  | adding under a name in use calls only the name check and parks in `failed` with "Account name already exists", the staged name cleared |
| AccountScenarios.ImportWithBlankNameFails | packages/app/src/systems/Account/machines/accountsMachine.tsx:384-386  | importing with a key but a blank name calls no collaborator and parks in `failed` with "Name cannot be empty" |
| AccountScenarios.StartWithoutAccounts | packages/app/src/systems/Account/machines/accountsMachine.tsx:137-140  | at start-up an empty list rests in `idle` with the marker removed, whatever was stored |
| AccountFindings.NextReset | packages/app/src/systems/Account/machines/accountsMachine.tsx:266 | definition of the machine with `clearContext` resetting the whole context; `AccountFindings.NextResetDiffers` and `AccountFindings.LogoutThenCleared` state it |
| AccountFindings.RunResetAgrees | packages/app/src/systems/Account/machines/accountsMachine.tsx:256-298 | without `clearContext` among them, the resetting reading runs actions exactly as the machine does |
| AccountFindings.ClearContextOnlyOnLogout | packages/app/src/systems/Account/machines/accountsMachine.tsx:229-232 | the only transition that runs `clearContext` is a successful logout |
| AccountFindings.NextResetDiffers | packages/app/src/systems/Account/machines/accountsMachine.tsx:219-266 | the resetting reading reacts to every event as the machine does, except that after a successful logout the context is empty |
| AccountFindings.LogoutThenCleared | packages/app/src/systems/Account/machines/accountsMachine.tsx:219-266 | with the resetting `clearContext`, LOGOUT and a successful logout reach `idle` from any configuration with an empty context and the marker untouched |
| AccountScenarios.StartWithAccount | packages/app/src/systems/Account/machines/accountsMachine.tsx:92-153  | at start-up one account and a current account rest in `idle` logged in, holding the list and the current account hydrated with its balance |

## Findings

| source | as written | input that shows it | evidently intended | confidence | as-written member | corrected member |
|---|---|---|---|---|---|---|
| packages/app/src/systems/Account/machines/accountsMachine.tsx:266 | `clearContext: assign(() => ({}))` merges an empty object into the context, so a successful logout writes no field | a configuration whose context holds an error and an account list, then LOGOUT and `LogoutDone(Ok(()))`: the machine rests in `idle` with both kept | a reset of the whole context to the empty one, as the action's name says | medium, not executed | AccountProperties.LogoutKeepsErrorAndAccounts | AccountFindings.LogoutThenCleared |

The rest of the model follows the code as written. `AccountFindings.NextReset` is the machine
with the resetting action, and `AccountFindings.NextResetDiffers` shows that it differs only
in the context a successful logout leaves.

## Left out

- The retry and attempt counting inside `FetchMachine` is defined outside this file. Each
  invocation completes once, with a result or an error. Only the `maxAttempts: 1` values seen
  in the configuration are relied on, and the model claims no retry bound.
- The `error.platform` event the fetch machine of a write state or of `loggingout` could send if it itself failed
  is not generated by the model. None of these states has an `onError` handler, and what the
  interpreter does with such an event is not part of this model.
- Real time and asynchrony are not modelled.
  - `TIMEOUT` and `INTERVAL` are explicit events. Entering their state records
    `TimerStarted` and leaving records `TimerCancelled`.
  - The model does not track whether a delayed event is still pending. `RestingKeepsFlag`
    shows that a repeated one would see the same guard.
  - A service's completion is an event delivered while its state is current. Late results
    of stopped services, and races between them, are not modelled.
- The collaborators' own behaviour is not modelled: AccountService, VaultService,
  NetworkService, CoreService, Storage and the balance lookup.
  - Their replies are inputs.
  - `VITE_FUEL_PROVIDER_URL` is the `defaultUrl` parameter.
  - Whatever `CoreService.clear` does to storage, including the logged-in marker, is not
    modelled.
- `AccountMachine.AccountsMachine.constructor` does not record the start-up invocation of
  `fetchAccounts` that entering the initial state makes: a constructor returns no effects.
  The start-up scenarios begin with that service's completion.
- `hideAccount` mutates the current account in place. The model builds the updated
  account as a new value, so sharing of that object with other holders is not captured.
- `AccountServices.AddAccount`: the source throws a `TypeError` from `undefined.trim()` when
  no name is staged. The model returns the error `UndefinedName` instead. The staged-name
  invariant shows that the machine never starts the service without a name.
- `AccountServices.AddAccount` stores only the name and the vault's address, public key and
  vault id. Any further fields the vault returns, which the source spreads into the record,
  are not modelled.
- The service bodies are modelled as pure functions from collaborator replies to
  (result, calls). The reassigned local `account` (lines 359-369) becomes one named
  intermediate per step.
- `refreshApplication` has no definition in this file. It is only recorded as an effect.
- The React components, the global store wiring and the `TxRecipientCard` view are not part
  of this model, since they hold no logic of the machine. Neither are the typegen and schema
  declarations.
