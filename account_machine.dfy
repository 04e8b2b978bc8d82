/** The account-lifecycle state machine: its states, events, guards and actions, the
    transition table as a pure function, and the machine object whose `Step` executes a
    transition by updating its state, context and persisted logged-in flag in place. */
module AccountMachine {
  import opened Wrappers
  import opened AccountTypes

  datatype State =
    | Idle
    | FetchingAccounts
    | FetchingAccount
    | UpdateAccount
    | SettingCurrentAccount
    | AddingAccount
    | ImportingAccount
    | LoggingOut
    | Failed

  /** The user events, the two delayed events, and the completion of each invoked service.
      The write services report a thrown error through their completion (`Err`); the two
      fetch services report it with a separate error event. */
  datatype Event =
    | UpdateAccount
    | UpdateAccounts
    | HideAccount(hiding: HideInput)
    | SetCurrentAccount(address: Option<string>)
    | AddAccount(name: string)
    | ImportAccount(input: Option<ImportInput>)
    | Logout
    | Timeout
    | Interval
    | FetchAccountsDone(accounts: Option<seq<Account>>)
    | FetchAccountsError(error: Error)
    | FetchAccountDone(account: Option<Account>)
    | FetchAccountError(error: Error)
    | SetCurrentAccountDone(selected: Result<Account>)
    | AddAccountDone(added: Result<Option<Account>>)
    | ImportAccountDone(imported: Result<Option<Account>>)
    | LogoutDone(cleared: Result<()>)

  predicate IsUserEvent(ev: Event) {
    ev.UpdateAccount? || ev.UpdateAccounts? || ev.HideAccount? || ev.SetCurrentAccount?
    || ev.AddAccount? || ev.ImportAccount? || ev.Logout?
  }

  /** The delays, in milliseconds, of the `TIMEOUT` and `INTERVAL` delayed events. */
  const TimeoutDelay := 5000
  const IntervalDelay := 2000

  /** A service started on entry to its state, with the input it is given. */
  datatype Invocation =
    | FetchAccountsCall
    | FetchAccountCall
    | SetCurrentAccountCall(address: Option<string>)
    | AddAccountCall(name: Option<string>)
    | ImportAccountCall(input: Option<ImportInput>)
    | LogoutCall

  /** What the machine does to the world outside its own configuration. */
  datatype Effect =
    | Invoked(invocation: Invocation)
    | TimerStarted(delay: nat)
    | TimerCancelled(delay: nat)
    | HiddenPersisted(address: string, isHidden: bool)   // AccountService.hideAccount
    | AccountsUpdateNotified                             // store.updateAccounts
    | OverlayClosed                                      // store.closeOverlay
    | ApplicationRefreshed                               // the `refreshApplication` action

  /** The named actions of the machine, and the entry and exit work of its states. */
  datatype Action =
    | AssignAccounts
    | AssignAccount
    | AssignError
    | ClearContext
    | SetIsLogged
    | SetIsUnlogged
    | HideAccount
    | AssignAccountName
    | ClearAccountName
    | NotifyUpdateAccounts
    | RedirectToHome
    | RefreshApplication
    | Invoke(owner: State)
    | StartTimer(delay: nat)
    | CancelTimer(delay: nat)

  /** The whole configuration: the active state, the context and the persisted flag. */
  datatype Config = Config(state: State, ctx: Context, isLogged: bool)

  datatype Transition = Transition(target: State, actions: seq<Action>)

  /** The configuration after an event, and the effects the event had. */
  datatype Reaction = Reaction(config: Config, effects: seq<Effect>)

  /** The configuration the machine starts in, reading the persisted flag. */
  function Initial(storedIsLogged: bool): Config {
    Config(FetchingAccounts, EmptyContext, storedIsLogged)
  }

  // ----- the data an action reads from its event (`ev.data`, `ev.input`) -----

  function AccountsData(ev: Event): Option<seq<Account>> {
    if ev.FetchAccountsDone? then ev.accounts else None
  }

  function AccountData(ev: Event): Option<Account> {
    if ev.FetchAccountDone? then ev.account else None
  }

  function ErrorData(ev: Event): Option<Error> {
    match ev
    case FetchAccountsError(e) => Some(e)
    case FetchAccountError(e) => Some(e)
    case SetCurrentAccountDone(Err(e)) => Some(e)
    case AddAccountDone(Err(e)) => Some(e)
    case ImportAccountDone(Err(e)) => Some(e)
    case LogoutDone(Err(e)) => Some(e)
    case _ => None
  }

  // ----- guards -----

  /** `isLoggedIn`: the persisted flag is set. */
  predicate IsLoggedIn(isLogged: bool) {
    isLogged
  }

  /** `hasAccount`: the completion carries an account, or the context already holds one. */
  predicate HasAccount(ctx: Context, ev: Event) {
    AccountData(ev).Some? || ctx.account.Some?
  }

  /** `hasAccounts`: the list the completion carries is non-empty; when it carries none,
      the list already in the context is. */
  predicate HasAccounts(ctx: Context, ev: Event) {
    match AccountsData(ev)
    case Some(list) => |list| > 0
    case None => ctx.accounts.Some? && |ctx.accounts.value| > 0
  }

  /** `FetchMachine.hasError`: a write service or the logout service completed with the
      error it caught. */
  predicate HasError(ev: Event) {
    match ev
    case SetCurrentAccountDone(r) => r.Err?
    case AddAccountDone(r) => r.Err?
    case ImportAccountDone(r) => r.Err?
    case LogoutDone(r) => r.Err?
    case _ => false
  }

  // ----- the transition table -----

  /** The transition an event selects in a configuration, or None when the event is not
      handled there and is dropped. */
  function Select(c: Config, ev: Event): Option<Transition> {
    // no state handles LOGOUT itself, so the machine-wide handler applies everywhere
    if ev.Logout? then Some(Transition(LoggingOut, []))
    else match c.state
      case Idle =>
        (match ev
         case HideAccount(_) => Some(Transition(Idle, [Action.HideAccount]))
         case SetCurrentAccount(_) => Some(Transition(SettingCurrentAccount, []))
         case AddAccount(_) => Some(Transition(AddingAccount, [AssignAccountName]))
         case UpdateAccounts => Some(Transition(FetchingAccounts, []))
         case UpdateAccount => Some(Transition(State.UpdateAccount, []))
         case ImportAccount(_) => Some(Transition(ImportingAccount, []))
         case Timeout => if IsLoggedIn(c.isLogged) then Some(Transition(State.UpdateAccount, [])) else None
         case _ => None)
      case FetchingAccounts =>
        (match ev
         case FetchAccountsDone(_) =>
           if HasAccounts(c.ctx, ev) then Some(Transition(FetchingAccount, [AssignAccounts, SetIsLogged]))
           else Some(Transition(Idle, [AssignAccounts, SetIsUnlogged]))
         case FetchAccountsError(_) => Some(Transition(Failed, [AssignError]))
         case _ => None)
      case FetchingAccount => FetchAccountTransition(c, ev)
      case UpdateAccount => FetchAccountTransition(c, ev)
      case SettingCurrentAccount => if ev.SetCurrentAccountDone? then Some(WriteDoneTransition(ev)) else None
      case AddingAccount => if ev.AddAccountDone? then Some(WriteDoneTransition(ev)) else None
      case ImportingAccount => if ev.ImportAccountDone? then Some(WriteDoneTransition(ev)) else None
      case LoggingOut =>
        if !ev.LogoutDone? then None
        else if HasError(ev) then Some(Transition(Failed, [AssignError]))
        else Some(Transition(Idle, [ClearContext, RefreshApplication]))
      case Failed =>
        if ev.Interval? && IsLoggedIn(c.isLogged) then Some(Transition(FetchingAccounts, [])) else None
  }

  /** The block `fetchingAccount` and `updateAccount` share. */
  function FetchAccountTransition(c: Config, ev: Event): Option<Transition> {
    match ev
    case FetchAccountDone(_) =>
      if HasAccount(c.ctx, ev) then Some(Transition(Idle, [AssignAccount]))
      else Some(Transition(Idle, [AssignAccount, SetIsUnlogged]))
    case FetchAccountError(_) => Some(Transition(Failed, [AssignError]))
    case _ => None
  }

  /** The completion of `setCurrentAccount`, `addAccount` or `importAccount`. */
  function WriteDoneTransition(ev: Event): Transition {
    if HasError(ev) then Transition(Failed, [AssignError])
    else Transition(FetchingAccounts, [NotifyUpdateAccounts, RedirectToHome])
  }

  /** What leaving a state does: cancel its delayed event, or clear the staged name. */
  function Exit(s: State): seq<Action> {
    match s
    case Idle => [CancelTimer(TimeoutDelay)]
    case Failed => [CancelTimer(IntervalDelay)]
    case AddingAccount => [ClearAccountName]
    case _ => []
  }

  /** What entering a state does: schedule its delayed event, or start its service. */
  function Entry(s: State): seq<Action> {
    match s
    case Idle => [StartTimer(TimeoutDelay)]
    case Failed => [StartTimer(IntervalDelay)]
    case _ => [Invoke(s)]
  }

  /** The service a state invokes and its input, read from the context and the event that
      entered the state. */
  function InvocationOf(s: State, ctx: Context, ev: Event): Option<Invocation> {
    match s
    case FetchingAccounts => Some(FetchAccountsCall)
    case FetchingAccount => Some(FetchAccountCall)
    case UpdateAccount => Some(FetchAccountCall)
    case SettingCurrentAccount => Some(SetCurrentAccountCall(if ev.SetCurrentAccount? then ev.address else None))
    case AddingAccount => Some(AddAccountCall(ctx.accountName))
    case ImportingAccount => Some(ImportAccountCall(if ev.ImportAccount? then ev.input else None))
    case LoggingOut => Some(LogoutCall)
    case _ => None
  }

  // ----- the actions -----

  /** The context and flag while a transition's actions run, and the effects so far. */
  datatype Progress = Progress(ctx: Context, isLogged: bool, effects: seq<Effect>)

  /** One action, reading the event that triggered the transition. */
  function Apply(p: Progress, a: Action, ev: Event): Progress {
    match a
    case AssignAccounts => p.(ctx := p.ctx.(accounts := AccountsData(ev)))
    case AssignAccount => p.(ctx := p.ctx.(account := AccountData(ev)))
    case AssignError => p.(ctx := p.ctx.(error := ErrorData(ev)))
    // `assign(() => ({}))` merges an empty object into the context: no field is written
    case ClearContext => p
    case SetIsLogged => p.(isLogged := true)
    case SetIsUnlogged => p.(isLogged := false)
    case HideAccount =>
      if ev.HideAccount? && p.ctx.account.Some? then
        p.(ctx := p.ctx.(account := Some(p.ctx.account.value.(isHidden := ev.hiding.isHidden))),
           effects := p.effects + [HiddenPersisted(ev.hiding.address, ev.hiding.isHidden)])
      else p
    case AssignAccountName => p.(ctx := p.ctx.(accountName := if ev.AddAccount? then Some(ev.name) else None))
    case ClearAccountName => p.(ctx := p.ctx.(accountName := None))
    case NotifyUpdateAccounts => p.(effects := p.effects + [AccountsUpdateNotified])
    case RedirectToHome => p.(effects := p.effects + [OverlayClosed])
    case RefreshApplication => p.(effects := p.effects + [ApplicationRefreshed])
    case Invoke(s) =>
      (match InvocationOf(s, p.ctx, ev)
       case Some(inv) => p.(effects := p.effects + [Invoked(inv)])
       case None => p)
    case StartTimer(d) => p.(effects := p.effects + [TimerStarted(d)])
    case CancelTimer(d) => p.(effects := p.effects + [TimerCancelled(d)])
  }

  /** The actions in order. */
  function RunActions(p: Progress, actions: seq<Action>, ev: Event): Progress
    decreases |actions|
  {
    if actions == [] then p
    else Apply(RunActions(p, actions[..|actions| - 1], ev), actions[|actions| - 1], ev)
  }

  /** Every action taking part in a transition: the source's exit actions, the transition's
      own, and the target's entry actions. A transition with a target always leaves and
      re-enters, even when the target is the source. */
  function TransitionActions(source: State, t: Transition): seq<Action> {
    Exit(source) + t.actions + Entry(t.target)
  }

  /** At most two actions, one after the other. */
  function RunShort(p: Progress, xs: seq<Action>, ev: Event): Progress
    requires |xs| <= 2
  {
    if |xs| == 0 then p
    else if |xs| == 1 then Apply(p, xs[0], ev)
    else Apply(Apply(p, xs[0], ev), xs[1], ev)
  }

  /** The machine's response to one event: the source's exit actions, then the
      transition's own, then the target's entry actions, each reading the context and
      flag the previous one left. */
  function Next(c: Config, ev: Event): Reaction {
    match Select(c, ev)
    case None => Reaction(c, [])
    case Some(t) =>
      var left := RunShort(Progress(c.ctx, c.isLogged, []), Exit(c.state), ev);
      var taken := RunShort(left, t.actions, ev);
      var entered := RunShort(taken, Entry(t.target), ev);
      Reaction(Config(t.target, entered.ctx, entered.isLogged), entered.effects)
  }

  /** An action appends to the effects already produced and never removes any. */
  lemma ApplyAppends(p: Progress, a: Action, ev: Event)
    ensures var q := Apply(p.(effects := []), a, ev);
            Apply(p, a, ev) == q.(effects := p.effects + q.effects)
  {
  }

  /** Running two runs of actions one after the other is running them joined. */
  lemma {:induction false} RunActionsAppend(p: Progress, xs: seq<Action>, ys: seq<Action>, ev: Event)
    ensures RunActions(p, xs + ys, ev) == RunActions(RunActions(p, xs, ev), ys, ev)
    decreases |ys|
  {
    if ys == [] {
      assert xs + ys == xs;
    } else {
      var init := ys[..|ys| - 1];
      assert (xs + ys)[..|xs + ys| - 1] == xs + init;
      RunActionsAppend(p, xs, init, ev);
    }
  }

  lemma RunShortRuns(p: Progress, xs: seq<Action>, ev: Event)
    requires |xs| <= 2
    ensures RunActions(p, xs, ev) == RunShort(p, xs, ev)
  {
    if |xs| == 2 {
      assert xs[..1][..0] == [];
    }
  }

  /** No transition of the table runs more than two actions of its own. */
  lemma SelectShort(c: Config, ev: Event)
    ensures Select(c, ev).Some? ==> |Select(c, ev).value.actions| <= 2
  {
  }

  /** Running a transition's actions in one sequence is running its three phases. */
  lemma RunTransition(p: Progress, source: State, t: Transition, ev: Event)
    requires |t.actions| <= 2
    ensures RunActions(p, TransitionActions(source, t), ev) ==
      RunShort(RunShort(RunShort(p, Exit(source), ev), t.actions, ev), Entry(t.target), ev)
  {
    RunActionsAppend(p, Exit(source) + t.actions, Entry(t.target), ev);
    RunActionsAppend(p, Exit(source), t.actions, ev);
    var p1 := RunActions(p, Exit(source), ev);
    var p2 := RunActions(p1, t.actions, ev);
    RunShortRuns(p, Exit(source), ev);
    RunShortRuns(p1, t.actions, ev);
    RunShortRuns(p2, Entry(t.target), ev);
  }

  /** `Next` is running all of a taken transition's actions in one sequence, as the
      running machine does. */
  lemma NextRunsActions(c: Config, ev: Event)
    ensures Select(c, ev).Some? ==>
      var t := Select(c, ev).value;
      var p := RunActions(Progress(c.ctx, c.isLogged, []), TransitionActions(c.state, t), ev);
      Next(c, ev) == Reaction(Config(t.target, p.ctx, p.isLogged), p.effects)
  {
    if Select(c, ev).Some? {
      SelectShort(c, ev);
      RunTransition(Progress(c.ctx, c.isLogged, []), c.state, Select(c, ev).value, ev);
    }
  }

  /** The running machine. */
  class AccountsMachine {
    var state: State
    var ctx: Context
    /** The logged-in marker kept in persisted storage. */
    var isLogged: bool

    function Current(): Config
      reads this
    {
      Config(state, ctx, isLogged)
    }

    /** A machine in its initial state, reading the persisted flag. */
    constructor (storedIsLogged: bool)
      ensures Current() == Initial(storedIsLogged)
    {
      state := FetchingAccounts;
      ctx := EmptyContext;
      isLogged := storedIsLogged;
    }

    /** Deliver one event: select a transition and run its actions in place. */
    method Step(ev: Event) returns (effects: seq<Effect>)
      modifies this
      ensures Reaction(Current(), effects) == Next(old(Current()), ev)
    {
      var selected := Select(Current(), ev);
      if selected.None? {
        return [];
      }
      var t := selected.value;
      effects := RunInPlace(TransitionActions(state, t), ev);
      NextRunsActions(old(Current()), ev);
      state := t.target;
    }

    /** Run actions one after another on the fields, collecting what they emit. */
    method RunInPlace(actions: seq<Action>, ev: Event) returns (effects: seq<Effect>)
      modifies this
      ensures state == old(state)
      ensures Progress(ctx, isLogged, effects) == RunActions(Progress(old(ctx), old(isLogged), []), actions, ev)
    {
      ghost var start := Progress(ctx, isLogged, []);
      effects := [];
      for i := 0 to |actions|
        invariant state == old(state)
        invariant RunActions(start, actions[..i], ev) == Progress(ctx, isLogged, effects)
      {
        ghost var before := Progress(ctx, isLogged, effects);
        var emitted := Perform(actions[i], ev);
        ApplyAppends(before, actions[i], ev);
        assert actions[..i + 1][..i] == actions[..i];
        effects := effects + emitted;
      }
      assert actions[..|actions|] == actions;
    }

    /** Run one action on the fields: assignments rewrite the context, the logged-in
        actions write the persisted flag, the rest are effects. */
    method Perform(a: Action, ev: Event) returns (emitted: seq<Effect>)
      modifies this
      ensures state == old(state)
      ensures Progress(ctx, isLogged, emitted) == Apply(Progress(old(ctx), old(isLogged), []), a, ev)
    {
      emitted := [];
      match a
      case AssignAccounts => ctx := ctx.(accounts := AccountsData(ev));
      case AssignAccount => ctx := ctx.(account := AccountData(ev));
      case AssignError => ctx := ctx.(error := ErrorData(ev));
      case ClearContext =>
      case SetIsLogged => isLogged := true;
      case SetIsUnlogged => isLogged := false;
      case HideAccount =>
        if ev.HideAccount? && ctx.account.Some? {
          var account := ctx.account.value;
          account := account.(isHidden := ev.hiding.isHidden);
          ctx := ctx.(account := Some(account));
          emitted := [HiddenPersisted(ev.hiding.address, ev.hiding.isHidden)];
        }
      case AssignAccountName => ctx := ctx.(accountName := if ev.AddAccount? then Some(ev.name) else None);
      case ClearAccountName => ctx := ctx.(accountName := None);
      case NotifyUpdateAccounts => emitted := [AccountsUpdateNotified];
      case RedirectToHome => emitted := [OverlayClosed];
      case RefreshApplication => emitted := [ApplicationRefreshed];
      case Invoke(s) =>
        var inv := InvocationOf(s, ctx, ev);
        if inv.Some? {
          emitted := [Invoked(inv.value)];
        }
      case StartTimer(d) => emitted := [TimerStarted(d)];
      case CancelTimer(d) => emitted := [TimerCancelled(d)];
    }
  }
}
