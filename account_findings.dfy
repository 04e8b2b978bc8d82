/** The machine as its `clearContext` action is evidently meant to read: a successful
    logout resets the whole context. As written, the action merges an empty object and
    writes nothing (`AccountMachine.Apply`); everything else is the machine unchanged. */
module AccountFindings {
  import opened Wrappers
  import opened AccountTypes
  import opened AccountMachine
  import opened AccountProperties

  /** One action, with `clearContext` resetting every field of the context. */
  function ApplyReset(p: Progress, a: Action, ev: Event): Progress {
    if a == ClearContext then p.(ctx := EmptyContext) else Apply(p, a, ev)
  }

  function RunReset(p: Progress, actions: seq<Action>, ev: Event): Progress
    decreases |actions|
  {
    if actions == [] then p
    else ApplyReset(RunReset(p, actions[..|actions| - 1], ev), actions[|actions| - 1], ev)
  }

  /** The response to one event, with the resetting `clearContext`. */
  function NextReset(c: Config, ev: Event): Reaction {
    match Select(c, ev)
    case None => Reaction(c, [])
    case Some(t) =>
      var p := RunReset(Progress(c.ctx, c.isLogged, []), TransitionActions(c.state, t), ev);
      Reaction(Config(t.target, p.ctx, p.isLogged), p.effects)
  }

  /** Without `clearContext` among them, the two readings run actions alike. */
  lemma {:induction false} RunResetAgrees(p: Progress, xs: seq<Action>, ev: Event)
    requires ClearContext !in xs
    ensures RunReset(p, xs, ev) == RunActions(p, xs, ev)
    decreases |xs|
  {
    if xs != [] {
      var init := xs[..|xs| - 1];
      assert forall a | a in init :: a in xs;
      assert xs[|xs| - 1] in xs;
      RunResetAgrees(p, init, ev);
    }
  }

  /** The only transition that runs `clearContext` is a successful logout. */
  lemma ClearContextOnlyOnLogout(c: Config, ev: Event)
    requires Select(c, ev).Some?
    ensures ClearContext in TransitionActions(c.state, Select(c, ev).value) <==>
      c.state == LoggingOut && ev.LogoutDone? && !HasError(ev)
  {
    var t := Select(c, ev).value;
    assert TransitionActions(c.state, t) == Exit(c.state) + t.actions + Entry(t.target);
  }

  /** The actions of a successful logout, with `clearContext` resetting. */
  lemma RunResetLogout(p: Progress, ev: Event)
    ensures RunReset(p, [ClearContext, RefreshApplication, StartTimer(TimeoutDelay)], ev) ==
      Progress(EmptyContext, p.isLogged, p.effects + [ApplicationRefreshed, TimerStarted(TimeoutDelay)])
  {
    var xs := [ClearContext, RefreshApplication, StartTimer(TimeoutDelay)];
    assert xs[..2] == [ClearContext, RefreshApplication];
    assert xs[..2][..1] == [ClearContext] && xs[..2][..1][..0] == [];
    var cleared := p.(ctx := EmptyContext);
    assert RunReset(p, xs[..2][..1], ev) == cleared;
    assert RunReset(p, xs[..2], ev) == cleared.(effects := p.effects + [ApplicationRefreshed]);
    assert p.effects + [ApplicationRefreshed] + [TimerStarted(TimeoutDelay)] ==
      p.effects + [ApplicationRefreshed, TimerStarted(TimeoutDelay)];
  }

  /** On a successful logout the resetting reading empties the context. */
  lemma NextResetOnLogout(c: Config)
    requires c.state == LoggingOut
    ensures NextReset(c, LogoutDone(Ok(()))) == Reaction(Config(Idle, EmptyContext, c.isLogged), [ApplicationRefreshed, TimerStarted(TimeoutDelay)])
  {
    var t := Transition(Idle, [ClearContext, RefreshApplication]);
    assert Select(c, LogoutDone(Ok(()))) == Some(t);
    assert TransitionActions(LoggingOut, t) == [ClearContext, RefreshApplication, StartTimer(TimeoutDelay)];
    RunResetLogout(Progress(c.ctx, c.isLogged, []), LogoutDone(Ok(())));
  }

  /** The resetting reading differs from the machine as written only in the context a
      successful logout leaves: every other event reacts the same, and that one empties
      the context and changes nothing else. */
  lemma NextResetDiffers(c: Config, ev: Event)
    ensures !(c.state == LoggingOut && ev == LogoutDone(Ok(()))) ==> NextReset(c, ev) == Next(c, ev)
    ensures c.state == LoggingOut && ev == LogoutDone(Ok(())) ==>
      NextReset(c, ev) == Reaction(Next(c, ev).config.(ctx := EmptyContext), Next(c, ev).effects)
  {
    if c.state == LoggingOut && ev.LogoutDone? && !HasError(ev) {
      var u: () := ev.cleared.value;
      match u { case () => }
      assert ev == LogoutDone(Ok(()));
      NextResetOnLogout(c);
      LogoutSucceeded(c);
    } else if Select(c, ev).Some? {
      ClearContextOnlyOnLogout(c, ev);
      NextRunsActions(c, ev);
      RunResetAgrees(Progress(c.ctx, c.isLogged, []), TransitionActions(c.state, Select(c, ev).value), ev);
    }
  }

  /** With the resetting action, LOGOUT followed by a successful logout reaches `idle`
      from any configuration with an empty context, no error and the flag untouched. */
  lemma LogoutThenCleared(c: Config)
    ensures NextReset(NextReset(c, Logout).config, LogoutDone(Ok(()))).config == Config(Idle, EmptyContext, c.isLogged)
  {
    NextResetDiffers(c, Logout);
    LogoutFromAnyState(c);
    var l := Next(c, Logout).config;
    NextResetDiffers(l, LogoutDone(Ok(())));
    LogoutSucceeded(l);
  }
}
