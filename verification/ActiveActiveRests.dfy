/**
 What the handlers of the active-active link manager leave alone, and in which composites they never come
 to rest: a port that knows what to do does it before the handler returns.
 */
module ActiveActiveRests {
  import opened Labels
  import opened Strand
  import opened ActiveActiveSpec
  import opened ActiveActiveSafety
  import MuxState
  import LinkState
  import LinkProberState

  /** Serving a change or a request posts nothing, brings no component up and leaves mode and route alone. */
  predicate Frame(s: State, s': State) {
    && s'.queue == s.queue
    && s'.admin.init == s.admin.init
    && s'.admin.mode == s.admin.mode
    && s'.admin.route == s.admin.route
    && s'.admin.deferred == s.admin.deferred
  }

  /** The modes that take the mux to standby by themselves, and those that take it to active. */
  predicate GoesStandby(mode: Mode) {
    mode == Auto || mode == Detached || mode == ModeStandby
  }

  predicate GoesActive(mode: Mode) {
    mode == Auto || mode == Detached
  }

  /**
   A prober that has lost the server does not rest on an active mux, nor on a waiting one while the link is up;
   one that hears the server does not rest on a waiting mux, nor in auto mode on a standby one, unless the
   default route is missing. What is asked before it rests over an unknown or erroneous mux, `ActiveActiveAsks` says.
   */
  predicate AtRest(c: Composite, mode: Mode, route: DefaultRoute) {
    && (GoesStandby(mode) && c.ps == PUnknown ==> c.ms != MActive && (c.ls == LUp ==> c.ms != MWait))
    && (GoesActive(mode) && c.ps == PActive && c.ls == LUp ==> c.ms != MWait)
    && (mode == Auto && c.ps == PActive && c.ls == LUp && c.ms == MStandby ==> route == RouteNA)
  }

  predicate Rests(s: State) {
    AtRest(s.comp, s.admin.mode, s.admin.route)
  }

  /** An active port is at rest, and no configuration still waits for the activation. */
  predicate Settled(s: State) {
    s.admin.init.All() ==> Rests(s) && s.admin.deferred == []
  }

  // ----- building blocks -----

  lemma SwitchMuxFrame(s: State, l: MuxLabel, force: bool)
    ensures var s' := SwitchMux(s, l, force);
            && Frame(s, s')
            && s'.comp == if force || Allowed(s.admin.mode, l) then s.comp.(ms := l) else s.comp
  {
    hide Record, MuxState.SetCause, MuxState.Entered;
  }

  lemma StartMuxProbeTimerFrame(s: State)
    ensures Frame(s, StartMuxProbeTimer(s)) && StartMuxProbeTimer(s).comp == s.comp
  {
    hide Record, MuxState.SetCause;
  }

  lemma UpdateHealthFrame(cfg: Config, s: State)
    ensures var s' := UpdateHealth(cfg, s); Frame(s, s') && s'.comp == s.comp && s'.prober == s.prober
  {
    hide Record;
  }

  lemma ShutdownOrRestartFrame(s: State)
    ensures var s' := ShutdownOrRestart(s); Frame(s, s') && s'.comp == s.comp && s'.prober == s.prober
  {
    hide Record;
  }

  lemma TransitionRests(s: State, left: Composite)
    ensures Frame(s, Transition(s, left)) && Rests(Transition(s, left))
  {
    hide Record, SwitchMux, StartMuxProbeTimer;
    SwitchMuxFrame(s, MActive, false);
    SwitchMuxFrame(s, MActive, true);
    SwitchMuxFrame(s, MStandby, false);
    SwitchMuxFrame(s, MStandby, true);
    StartMuxProbeTimerFrame(s);
  }

  lemma ProberChangeRests(cfg: Config, s: State, l: ProberLabel)
    ensures var s' := HandleProberChange(cfg, s, l); Frame(s, s') && (Rests(s) ==> Rests(s'))
  {
    hide Record, Transition, UpdateHealth;
    TransitionRests(NoteProberChange(s, l).(comp := s.comp.(ps := l)), s.comp);
    UpdateHealthFrame(cfg, if s.prober.current == l then AcceptProberChange(s, l) else s);
  }

  lemma MuxChangeRests(cfg: Config, s: State, l: MuxLabel)
    ensures var s' := HandleMuxChange(cfg, s, l); Frame(s, s') && (Rests(s) ==> Rests(s'))
  {
    hide Transition, UpdateHealth;
    TransitionRests(s.(comp := s.comp.(ms := l)), s.comp);
    UpdateHealthFrame(cfg, if s.mux.current == l then AcceptMuxChange(s, l) else s);
  }

  lemma LinkCameUpRests(s: State, left: Composite)
    ensures Frame(s, LinkCameUp(s, left)) && Rests(LinkCameUp(s, left))
  {
    hide Transition, LinkProberState.Entered, LinkProberState.PeerEntered;
    TransitionRests(InitPeer(s), left);
  }

  lemma LinkChangeRests(cfg: Config, s: State, l: LinkLabel)
    ensures var s' := HandleLinkChange(cfg, s, l); Frame(s, s') && (Rests(s) ==> Rests(s'))
  {
    hide Record, Transition, SwitchMux, LinkCameUp, UpdateHealth;
    var s' := Emit(s, LinkAccepted(l, Now(s))).(comp := s.comp.(ls := l));
    LinkCameUpRests(s', s.comp);
    SwitchMuxFrame(s', MStandby, false);
    TransitionRests(s', s.comp);
    UpdateHealthFrame(cfg, if s.link.current == l then AcceptLinkChange(s, l) else s);
  }

  lemma PeerChangeRests(s: State, l: PeerLabel)
    ensures Frame(s, HandlePeerChange(s, l)) && HandlePeerChange(s, l).comp == s.comp
  {
    hide Record, LinkProberState.PeerEntered;
  }

  lemma ProbeIfIdleRests(s: State)
    ensures Frame(s, ProbeIfIdle(s)) && ProbeIfIdle(s).comp == s.comp
  {
    hide Record, MuxState.SetCause;
  }

  lemma ActOnModeRests(s: State, mode: Mode)
    requires s.admin.mode == mode
    ensures Frame(s, ActOnMode(s, mode)) && Rests(ActOnMode(s, mode))
  {
    hide SwitchMux, Transition, LinkProberState.Entered;
    SwitchMuxFrame(s, MActive, true);
    SwitchMuxFrame(s, MStandby, true);
    TransitionRests(s, s.comp);
  }

  lemma MuxConfigRests(cfg: Config, s: State, mode: Mode)
    ensures var s' := HandleMuxConfig(cfg, s, mode);
            && s'.queue == s.queue && s'.admin.init == s.admin.init && s'.admin.route == s.admin.route
            && s'.admin.mode == mode
            && s'.admin.deferred == s.admin.deferred + (if s.admin.init.All() then [] else [mode])
            && (s.admin.init.All() ==> Rests(s'))
  {
    hide Record, ActOnMode, UpdateHealth, ShutdownOrRestart;
    var s1 := s.(admin := s.admin.(mode := mode));
    ActOnModeRests(s1, mode);
    UpdateHealthFrame(cfg, ActOnMode(s1, mode));
    ShutdownOrRestartFrame(
      if s.admin.init.All() then UpdateHealth(cfg, ActOnMode(s1, mode))
      else s1.(admin := s1.admin.(deferred := s1.admin.deferred + [mode])));
  }

  lemma DefaultRouteRests(cfg: Config, s: State, r: DefaultRoute)
    requires s.admin.init.All() ==> Rests(s)
    requires r != RouteWait
    ensures var s' := HandleDefaultRoute(cfg, s, r);
            && Frame(s.(admin := s.admin.(route := r)), s')
            && (s.admin.init.All() ==> Rests(s'))
  {
    hide Record, ShutdownOrRestart, UpdateHealth, SwitchMux, LinkProberState.Entered;
    var s0 := s.(admin := s.admin.(route := r));
    ShutdownOrRestartFrame(s0);
    var s1 := ShutdownOrRestart(s0);
    SwitchMuxFrame(s1, MStandby, false);
    UpdateHealthFrame(cfg, RouteBack(RouteMissing(s1), s.admin.route));
  }

  /** The port starts on a prober label that matches the mux, with what was deferred on the strand. */
  lemma StartProberRests(cfg: Config, s: State)
    ensures var s' := StartProber(cfg, s);
            && Rests(s')
            && s'.comp.ps == s'.prober.current == InitialProber(s'.comp.ms)
            && s'.admin.init == s.admin.init && s'.admin.mode == s.admin.mode
            && s'.admin.deferred == [] && s'.queue == s.queue + ConfigMessages(s.admin.deferred)
  {
    hide Record, UpdateHealth, ShutdownOrRestart;
    var s1 := InitProber(s);
    ShutdownOrRestartFrame(s1);
    var s2 := if cfg.defaultRouteFeature then ShutdownOrRestart(s1) else s1;
    UpdateHealthFrame(cfg, Emit(Emit(s2, InitializeProber), StartProbing));
  }

  // ----- every step -----

  lemma DeliverRests(cfg: Config, s: State, m: Message)
    requires Settled(s)
    ensures var s' := Deliver(cfg, s, m); s'.admin.init == s.admin.init && Settled(s')
  {
    hide HandleProberChange, HandlePeerChange, HandleMuxChange, HandleLinkChange, HandleMuxConfig, ProbeIfIdle;
    hide LinkProberState.Handled, LinkProberState.PeerHandled, MuxState.Handled, LinkState.Handled, Record;
    match m
    case ProberChange(l) => ProberChangeRests(cfg, s, l);
    case MuxChange(l) => MuxChangeRests(cfg, s, l);
    case LinkChange(l) => LinkChangeRests(cfg, s, l);
    case PeerChange(l) => PeerChangeRests(s, l);
    case HandleMuxProbeRequest => ProbeIfIdleRests(s);
    case DeferredMuxConfig(mode) => MuxConfigRests(cfg, s, mode);
    case _ =>
  }

  /** On an active port these notifications leave the composite alone; the last one before that starts the prober. */
  lemma ComponentStepRests(cfg: Config, s: State, step: Step)
    requires BringsComponentUp(step) && Settled(s)
    ensures var s' := Next(cfg, s, step);
            && (s.admin.init.All() ==> s'.admin.init.All())
            && Settled(s')
            && (s'.admin.init.All() && !s.admin.init.All() ==>
                  && s'.comp.ps == s'.prober.current == InitialProber(s'.comp.ms)
                  && s'.queue == s.queue + ConfigMessages(s.admin.deferred))
  {
    hide Next;
    if s.admin.init.All() {
      ActiveComponentFrame(cfg, s, step);
    } else {
      ComponentUpRests(cfg, s, step);
    }
  }

  lemma ComponentUpRests(cfg: Config, s: State, step: Step)
    requires BringsComponentUp(step) && !s.admin.init.All()
    ensures var s' := Next(cfg, s, step);
            s'.admin.init.All() ==>
              && Rests(s')
              && s'.comp.ps == s'.prober.current == InitialProber(s'.comp.ms)
              && s'.admin.deferred == [] && s'.queue == s.queue + ConfigMessages(s.admin.deferred)
  {
    hide Record, StartProber, SettleMux, UpdateHealth, LinkState.Entered, InitialProber, ConfigMessages, AtRest;
    match step
    case SoCIp(_) => StartProberRests(cfg, WithInit(s, s.admin.init.(prober := true)));
    case SwssLink(l) =>
      StartProberRests(cfg, WithInit(EnterLink(Emit(s, LinkForced(l)), l), s.admin.init.(link := true)));
    case MuxStateNotification(l) =>
      SettledMuxRests(cfg, s.(admin := s.admin.(lastNotification := FromToggle, lastMuxState := l)), l);
    case ProbeMuxStateNotification(l) =>
      var s1 := s.(admin := s.admin.(lastNotification := FromProbe, lastMuxProbe := l));
      SettledMuxRests(cfg, if l == MActive || l == MStandby then ResetBackoff(s1) else s1, l);
  }

  lemma ActiveComponentFrame(cfg: Config, s: State, step: Step)
    requires BringsComponentUp(step) && s.admin.init.All()
    ensures var s' := Next(cfg, s, step);
            && s'.comp == s.comp && s'.admin.init == s.admin.init && s'.admin.mode == s.admin.mode
            && s'.admin.route == s.admin.route && s'.admin.deferred == s.admin.deferred
  {
    hide Record, Activate, SettleMux, UpdateHealth, EventFor;
    if step.MuxStateNotification? {
      var s1 := s.(admin := s.admin.(lastNotification := FromToggle, lastMuxState := step.ms));
      UpdateHealthFrame(cfg, Emit(Post(Emit(Emit(s1, ProbePeerTor), ResumeTx), EventFor(step.ms)), SwitchingEnd(step.ms)));
    }
  }

  lemma SettledMuxRests(cfg: Config, s: State, l: MuxLabel)
    ensures var s' := SettleMux(cfg, s, l);
            s'.admin.init.All() ==>
              && Rests(s')
              && s'.comp.ps == s'.prober.current == InitialProber(s'.comp.ms)
              && s'.admin.deferred == [] && s'.queue == s.queue + ConfigMessages(s.admin.deferred)
  {
    hide Record, StartProber, MuxState.SetCause, MuxState.Entered;
    var s' := if l == MUnknown then EnterMux(ProbeMuxState(s), MWait) else EnterMux(s, l);
    StartProberRests(cfg, WithInit(s', s.admin.init.(mux := true)));
  }

  lemma NextRests(cfg: Config, s: State, step: Step)
    requires Settled(s)
    ensures Settled(Next(cfg, s, step))
  {
    if BringsComponentUp(step) {
      hide Next;
      ComponentStepRests(cfg, s, step);
    } else {
      OtherStepRests(cfg, s, step);
    }
  }

  lemma OtherStepRests(cfg: Config, s: State, step: Step)
    requires !BringsComponentUp(step) && Settled(s)
    ensures var s' := Next(cfg, s, step); s'.admin.init == s.admin.init && Settled(s')
  {
    hide Record, Deliver, HandleMuxConfig, HandleDefaultRoute, StartMuxProbeTimer, ProbeIfIdle, MuxState.SetCause;
    match step
    case RunStrand =>
      if s.queue != [] {
        DeliverRests(cfg, s.(queue := s.queue[1..]), s.queue[0]);
      }
    case MuxConfig(mode) => MuxConfigRests(cfg, s, mode);
    case DefaultRouteState(present) => DefaultRouteRests(cfg, s, if present then RouteOK else RouteNA);
    case MuxProbeTimeout(success) => StartMuxProbeTimerFrame(DoubleBackoff(StopWaitMux(s)));
    case AdminSync => ProbeIfIdleRests(s);
    case _ =>
  }
}
