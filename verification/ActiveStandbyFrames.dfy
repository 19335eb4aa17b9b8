/** What the handlers of the active-standby link manager leave alone: the strand, and a deferred mode change. */
module ActiveStandbyFrames {
  import opened Labels
  import opened Strand
  import opened Logs
  import opened ActiveStandbySpec
  import MuxState
  import LinkState
  import LinkProberState

  /**
   The handlers that serve a change or a request post nothing on the strand, bring no component up, touch
   neither the mode nor a deferred change, and move the composite's mux only into Wait.
   */
  predicate Frame(s: State, s': State) {
    && s'.queue == s.queue
    && s'.admin.init == s.admin.init
    && s'.admin.mode == s.admin.mode
    && s'.admin.pending == s.admin.pending
    && s'.admin.target == s.admin.target
    && (s'.comp.ms == s.comp.ms || s'.comp.ms == MWait)
  }

  lemma EnterMuxWaitFrame(s: State)
    ensures Frame(s, EnterMuxWait(s))
  {
    hide Record, MuxState.SetCause, MuxState.Entered;
  }

  lemma AnnouncedFrame(cfg: Config, s: State, cause: SwitchCause, l: MuxLabel, at: Circumstance)
    ensures var s' := Announced(cfg, s, cause, l, at); Frame(s, s') && s'.comp == s.comp
  {
    hide Record;
  }

  lemma ToggleMuxFrame(cfg: Config, s: State, cause: SwitchCause, l: MuxLabel, force: bool)
    ensures Frame(s, ToggleMux(cfg, s, cause, l, force))
  {
    hide Announced, MuxState.SetCause, MuxState.Entered;
    AnnouncedFrame(cfg, SetCause(EnterMux(ToggleNoted(s, l), MWait), SwssUpdate), cause, l,
                   Circumstance(s.comp, s.admin.mode, s.admin.route, force));
  }

  lemma SwitchMuxFrame(cfg: Config, s: State, cause: SwitchCause, l: MuxLabel, force: bool)
    ensures Frame(s, SwitchMux(cfg, s, cause, l, force))
  {
    hide Record, ToggleMux, EnterMuxWait;
    ToggleMuxFrame(cfg, s, cause, l, force);
    EnterMuxWaitFrame(s);
  }

  lemma UnknownStandbyUpFrame(cfg: Config, s: State)
    ensures Frame(s, UnknownStandbyUpTransition(cfg, s))
  {
    hide Record, SwitchMux, EnterMuxWait;
    SwitchMuxFrame(cfg, EnterProber(s, PWait, false), PeerHeartbeatMissing, MActive, false);
    EnterMuxWaitFrame(EnterProber(s, PWait, false));
  }

  lemma UnknownUpFrames(cfg: Config, s: State, left: Composite)
    ensures Frame(s, ActiveUnknownUpTransition(cfg, s))
    ensures Frame(s, StandbyUnknownUpTransition(cfg, s, left))
  {
    hide Record, SwitchMux, EnterMuxWait;
    var s1 := s.(counters := s.counters.(activeUnknownUp := Inc32(s.counters.activeUnknownUp)));
    var s2 := s.(counters := s.counters.(standbyUnknownUp := Inc32(s.counters.standbyUnknownUp)));
    SwitchMuxFrame(cfg, s1, HardwareStateUnknown, MActive, false);
    SwitchMuxFrame(cfg, s2, HardwareStateUnknown, MStandby, false);
    EnterMuxWaitFrame(s1);
    EnterMuxWaitFrame(s2);
  }

  lemma WaitActiveUpFrame(s: State)
    ensures Frame(s, WaitActiveUpTransition(s))
  {
    hide Record;
  }

  lemma TransitionFrame(cfg: Config, s: State, left: Composite)
    ensures Frame(s, Transition(cfg, s, left))
  {
    hide Record, EnterMuxWait;
    hide WaitActiveUpTransition, UnknownStandbyUpTransition, ActiveUnknownUpTransition, StandbyUnknownUpTransition;
    EnterMuxWaitFrame(s);
    WaitActiveUpFrame(s);
    UnknownStandbyUpFrame(cfg, s);
    UnknownUpFrames(cfg, s, left);
  }

  lemma UpdateHealthFrame(cfg: Config, s: State)
    ensures var s' := UpdateHealth(cfg, s); Frame(s, s') && s'.comp == s.comp && s'.prober == s.prober
  {
    hide Record;
  }

  lemma InitProberFrame(s: State)
    ensures Frame(s, InitProber(s, false)) && InitProber(s, false).admin == s.admin
  {
    hide Record, LinkProberState.Entered;
  }

  lemma ShutdownOrRestartFrame(s: State)
    ensures Frame(s, ShutdownOrRestart(s))
  {
    hide Record;
  }

  lemma HandleProberChangeFrame(cfg: Config, s: State, l: ProberLabel)
    ensures Frame(s, HandleProberChange(cfg, s, l))
  {
    hide Record, Transition, UpdateHealth;
    TransitionFrame(cfg, NoteProberChange(s, l).(comp := s.comp.(ps := l)), s.comp);
    var s1 := if s.prober.current == l then AcceptProberChange(cfg, s, l) else s;
    UpdateHealthFrame(cfg, s1);
    UpdateHealthFrame(cfg, ResetBackoff(Emit(s1, ResumeTx), UnknownActiveUp));
  }

  lemma HandleLinkChangeFrame(cfg: Config, s: State, l: LinkLabel)
    ensures Frame(s, HandleLinkChange(cfg, s, l))
  {
    hide Record, Transition, UpdateHealth, SwitchMux;
    var s1 := s.(comp := s.comp.(ls := l));
    TransitionFrame(cfg, s1, s.comp);
    SwitchMuxFrame(cfg, s.(comp := s.comp.(ls := LDown)), LinkDown, MStandby, false);
    UpdateHealthFrame(cfg, if s.link.current == l then AcceptLinkChange(cfg, s, l) else s);
  }

  lemma RequestFrames(cfg: Config, s: State)
    ensures Frame(s, HandleSuspendExpiry(s))
    ensures Frame(s, SwitchCompleted(cfg, s))
    ensures Frame(s, SwitchRequested(cfg, s))
  {
    hide Record, SwitchMux, EnterMuxWait;
    EnterMuxWaitFrame(s);
    var s1 := EnterProber(s, PWait, false);
    SwitchMuxFrame(cfg, s1, TlvSwitchActiveCommand, MActive, false);
    if s.admin.sendCause.Some? {
      SwitchMuxFrame(cfg, s1, s.admin.sendCause.value, MStandby, true);
    }
  }

  lemma NotificationFrames(cfg: Config, s: State, m: MuxLabel, l: LinkLabel, r: DefaultRoute)
    ensures Frame(s, HandleGetMuxState(cfg, s, m))
    ensures Frame(s, HandlePeerLink(cfg, s, l))
    ensures Frame(s, HandleDefaultRoute(cfg, s, r))
    ensures Frame(s, HandleResetSuspendTimer(s))
  {
    hide Record, SwitchMux, HandleDefaultRoute;
    SwitchMuxFrame(cfg, s, MatchingHardwareState, s.comp.ms, true);
    SwitchMuxFrame(cfg, EnterProber(s.(admin := s.admin.(peerLink := l)), PWait, false), PeerLinkDown, MActive, false);
    DefaultRouteFrame(cfg, s, r);
  }

  lemma DefaultRouteFrame(cfg: Config, s: State, r: DefaultRoute)
    ensures Frame(s, HandleDefaultRoute(cfg, s, r))
  {
    hide UpdateHealth, InitProber, ShutdownOrRestart;
    InitProberFrame(s);
    var s1 := if s.admin.route == RouteNA && r == RouteOK then InitProber(s, false) else s;
    var s2 := s1.(admin := s.admin.(route := r));
    ShutdownOrRestartFrame(s2);
    UpdateHealthFrame(cfg, ShutdownOrRestart(s2));
  }

  lemma TimeoutFrames(cfg: Config, s: State, success: bool)
    ensures Frame(s, HandleMuxProbeTimeout(s, success))
    ensures Frame(s, HandleMuxWaitTimeout(s, success))
    ensures Frame(s, HandleOscillationTimeout(cfg, s, success))
  {
    hide Record, SwitchMux, EnterMuxWait;
    EnterMuxWaitFrame(s);
    EnterMuxWaitFrame(ResetBackoff(s, WaitStandbyUp));
    SwitchMuxFrame(cfg, CancelOscillation(s), TimedOscillation, MStandby, false);
  }

  lemma ActOnModeFrame(cfg: Config, s: State, mode: Mode)
    ensures Frame(s, ActOnMode(cfg, s, mode))
  {
    hide Record, SwitchMux;
    SwitchMuxFrame(cfg, EnterProber(s, PWait, false), ConfigMuxMode, MActive, false);
    SwitchMuxFrame(cfg, s, LinkDown, MStandby, true);
  }

  /** Applying a mode is the one thing that stores it, and it leaves a deferred change pending. */
  lemma ApplyModeFrame(cfg: Config, s: State, mode: Mode)
    ensures var s' := ApplyMode(cfg, s, mode); s'.admin.mode == mode && Frame(s.(admin := s.admin.(mode := mode)), s')
  {
    hide Record, ActOnMode, UpdateHealth;
    ActOnModeFrame(cfg, s, mode);
    UpdateHealthFrame(cfg, ActOnMode(cfg, s, mode));
  }

  // ----- a deferred mode change -----

  /** A pending change implies a mux in Wait. */
  predicate PendingWaits(s: State) {
    s.admin.pending ==> s.comp.ms == MWait
  }

  /** The composite that the transition leaves behind when a mux change is taken up. */
  function AfterMuxChange(cfg: Config, s: State, l: MuxLabel): State {
    if s.mux.current == l then AcceptMuxChange(cfg, s, l) else s
  }

  lemma AfterMuxChangeDefers(cfg: Config, s: State, l: MuxLabel)
    ensures var s' := AfterMuxChange(cfg, s, l);
            && s'.admin.pending == s.admin.pending && s'.admin.target == s.admin.target
            && s'.admin.mode == s.admin.mode && s'.admin.init == s.admin.init && s'.queue == s.queue
  {
    hide Record, Transition;
    TransitionFrame(cfg, Emit(s, MuxAccepted(l)).(comp := s.comp.(ms := l)), s.comp);
  }

  /** The configuration handler's work for the deferred mode, over a mux that has settled. */
  function Applied(cfg: Config, s: State, l: MuxLabel): State {
    ApplyMode(cfg, Emit(AfterMuxChange(cfg, s, l), GetMux), s.admin.target)
  }

  /**
   The first mux change that leaves the mux settled carries the deferred change out: the handler's composite
   and all its outputs are there, its target is the mode and nothing stays pending. Until then the change is
   kept.
   */
  lemma DeferredModeIsApplied(cfg: Config, s: State, l: MuxLabel)
    requires s.admin.pending
    ensures var s' := HandleMuxChange(cfg, s, l);
            && s'.queue == s.queue && s'.admin.init == s.admin.init
            && if AfterMuxChange(cfg, s, l).comp.ms == MWait then
                 s'.admin.pending && s'.admin.target == s.admin.target && s'.admin.mode == s.admin.mode && s'.comp.ms == MWait
               else
                 && !s'.admin.pending && s'.admin.mode == s.admin.target
                 && s'.comp == Applied(cfg, s, l).comp
                 && Extends(Applied(cfg, s, l).journal.log, s'.journal.log)
  {
    hide Transition, UpdateHealth, ApplyMode, ClearUnknownUps, ResetBackoff;
    AfterMuxChangeDefers(cfg, s, l);
    ApplyModeFrame(cfg, Emit(AfterMuxChange(cfg, s, l), GetMux), s.admin.target);
    MuxChangeEnds(cfg, MuxChangeTaken(cfg, s, l), l);
  }

  /** The end of the handler after the change was taken up. */
  lemma MuxChangeEnds(cfg: Config, s: State, l: MuxLabel)
    ensures var s1 := if l != MUnknown then ClearUnknownUps(ResetBackoff(s, MuxUnknown)) else s;
            var s' := UpdateHealth(cfg, if l == MStandby then CancelOscillation(s1) else s1);
            Frame(s, s') && s'.comp == s.comp && Extends(s.journal.log, s'.journal.log)
  {
    hide UpdateHealth;
    var s1 := if l != MUnknown then ClearUnknownUps(ResetBackoff(s, MuxUnknown)) else s;
    UpdateHealthFrame(cfg, s1);
    UpdateHealthFrame(cfg, CancelOscillation(s1));
    if l != MUnknown {
      assert Extends(s.journal.log, s1.journal.log);
    }
    UpdateHealthExtends(cfg, s1, s.journal.log);
    UpdateHealthExtends(cfg, CancelOscillation(s1), s.journal.log);
  }

  lemma UpdateHealthExtends(cfg: Config, s: State, start: Log<Output>)
    requires Extends(start, s.journal.log)
    ensures var s' := UpdateHealth(cfg, s); s'.comp == s.comp && Extends(start, s'.journal.log)
  {
    hide Digest;
    assert Extends(start, Emit(s, RevertInterval).journal.log);
  }

  lemma NothingDeferredFrame(cfg: Config, s: State, l: MuxLabel)
    requires !s.admin.pending
    ensures var s' := HandleMuxChange(cfg, s, l);
            && s'.queue == s.queue && s'.admin.init == s.admin.init && s'.admin.mode == s.admin.mode
            && !s'.admin.pending && s'.admin.target == s.admin.target
  {
    hide Transition, UpdateHealth, ClearUnknownUps, ResetBackoff;
    AfterMuxChangeDefers(cfg, s, l);
    MuxChangeEnds(cfg, MuxChangeTaken(cfg, s, l), l);
  }

  predicate BringsComponentUp(step: Step) {
    step.BladeIp? || step.MuxStateNotification? || step.ProbeMuxState? || step.SwssLink?
  }

  predicate FromProber(step: Step) {
    step.Heartbeat? || step.SuspendTimerExpired? || step.SwitchCommandSent? || step.SwitchRequestReceived?
  }

  predicate SameDeferral(s: State, s': State) {
    s'.admin.pending == s.admin.pending && s'.admin.target == s.admin.target
  }

  predicate SameModes(s: State, s': State) {
    SameDeferral(s, s') && s'.admin.mode == s.admin.mode
  }

  lemma StartProberDefers(cfg: Config, s: State)
    ensures SameModes(s, StartProber(cfg, s))
  {
    hide Record, UpdateHealth, LinkProberState.Entered, LinkProberState.Cleared;
    var s1 := InitProber(s, false);
    var s2 := if cfg.defaultRouteFeature then ShutdownOrRestart(s1) else s1;
    UpdateHealthFrame(cfg, Emit(Emit(s2, InitializeProber), StartProbing));
  }

  lemma ActivateDefers(cfg: Config, s: State)
    ensures SameModes(s, Activate(cfg, s))
  {
    hide Record, StartProber;
    StartProberDefers(cfg, s);
  }

  /** On an active port these only post messages. */
  lemma ActiveComponentFrame(cfg: Config, s: State, step: Step)
    requires BringsComponentUp(step) && s.admin.init.All()
    ensures Next(cfg, s, step).admin == s.admin && Next(cfg, s, step).comp == s.comp
  {
    hide Record, Activate, SettleMux, EnterMuxWait, EnterMux, EnterLink, EventFor;
  }

  /** The components come up without touching a deferral. */
  lemma ComponentDefers(cfg: Config, s: State, step: Step)
    requires BringsComponentUp(step)
    ensures SameModes(s, Next(cfg, s, step))
  {
    hide Record, Activate, EnterMuxWait, MuxState.SetCause, MuxState.Entered, LinkState.Entered, EventFor;
    match step
    case BladeIp(_) => ActivateDefers(cfg, WithInit(s, s.admin.init.(prober := true)));
    case MuxStateNotification(l) =>
      EnterMuxWaitFrame(s);
      ActivateDefers(cfg, WithInit(EnterMux(Emit(s, MuxForced(l)), l), s.admin.init.(mux := true)));
    case ProbeMuxState(l) =>
      ActivateDefers(cfg, WithInit(EnterMux(Emit(s, MuxForced(l)), l), s.admin.init.(mux := true)));
    case SwssLink(l) => ActivateDefers(cfg, WithInit(EnterLink(s, l), s.admin.init.(link := true)));
  }

  lemma NotificationFrame(cfg: Config, s: State, step: Step)
    requires !BringsComponentUp(step) && !FromProber(step) && !step.RunStrand? && !step.MuxConfig?
    ensures Frame(s, Next(cfg, s, step))
  {
    hide Frame;
    hide HandleGetMuxState, HandlePeerLink, HandleDefaultRoute, HandleResetSuspendTimer;
    hide HandleMuxProbeTimeout, HandleMuxWaitTimeout, HandleOscillationTimeout;
    match step
    case GetMuxState(m) => NotificationFrames(cfg, s, m, LUp, RouteOK);
    case PeerLink(l) => NotificationFrames(cfg, s, MWait, l, RouteOK);
    case DefaultRouteState(r) => NotificationFrames(cfg, s, MWait, LUp, r);
    case ResetSuspendTimer => NotificationFrames(cfg, s, MWait, LUp, RouteOK);
    case MuxProbeTimeout(success) => TimeoutFrames(cfg, s, success);
    case MuxWaitTimeout(success) => TimeoutFrames(cfg, s, success);
    case OscillationTimeout(success) => TimeoutFrames(cfg, s, success);
  }

  /** What the prober reports is only posted. */
  lemma ProberReportFrame(cfg: Config, s: State, step: Step)
    requires FromProber(step)
    ensures SameModes(s, Next(cfg, s, step)) && Next(cfg, s, step).comp == s.comp
  {
  }

  /** The strand takes up a mux change and finds the mux settled after its transition. */
  predicate SettlesMux(cfg: Config, s: State, step: Step) {
    && step.RunStrand? && s.queue != [] && s.queue[0].MuxChange?
    && AfterMuxChange(cfg, s.(queue := s.queue[1..]), s.queue[0].ms).comp.ms != MWait
  }

  lemma DeliverDefers(cfg: Config, s: State, m: Message)
    ensures var s' := Deliver(cfg, s, m);
            if m.MuxChange? && AfterMuxChange(cfg, s, m.ms).comp.ms != MWait then !s'.admin.pending
            else SameDeferral(s, s') && (s'.comp.ms == s.comp.ms || s'.comp.ms == MWait || m.MuxChange?)
    ensures m.MuxChange? && s.admin.pending ==>
              var s' := Deliver(cfg, s, m);
              if s'.admin.pending then s'.comp.ms == MWait else s'.admin.mode == s.admin.target
    ensures !(m.MuxChange? && AfterMuxChange(cfg, s, m.ms).comp.ms != MWait && s.admin.pending) ==>
              Deliver(cfg, s, m).admin.mode == s.admin.mode
  {
    hide HandleProberChange, HandleMuxChange, HandleLinkChange, HandleSuspendExpiry, SwitchCompleted, SwitchRequested;
    hide LinkProberState.Handled, MuxState.Handled, LinkState.Handled, AfterMuxChange;
    match m
    case ProberChange(l) => HandleProberChangeFrame(cfg, s, l);
    case LinkChange(l) => HandleLinkChangeFrame(cfg, s, l);
    case MuxChange(l) =>
      if s.admin.pending {
        DeferredModeIsApplied(cfg, s, l);
      } else {
        NothingDeferredFrame(cfg, s, l);
      }
    case HandleSuspendTimerExpiry => RequestFrames(cfg, s);
    case HandleSwitchCompletion => RequestFrames(cfg, s);
    case HandleSwitchRequest => RequestFrames(cfg, s);
    case _ =>
  }

  /**
   What every step does to a deferral: a configuration over a waiting mux sets it, the first mux change that
   leaves the mux settled ends it, and nothing else touches it.
   */
  lemma StepDefers(cfg: Config, s: State, step: Step)
    ensures var s' := Next(cfg, s, step);
            if step.MuxConfig? && Deferred(s, step.mode) then s'.admin.pending && s'.admin.target == step.mode
            else if SettlesMux(cfg, s, step) then !s'.admin.pending
            else SameDeferral(s, s')
  {
    hide Deliver, ApplyMode, AfterMuxChange, Deferred;
    if step.MuxConfig? {
      ApplyModeFrame(cfg, s, step.mode);
    } else if step.RunStrand? {
      if s.queue != [] {
        DeliverDefers(cfg, s.(queue := s.queue[1..]), s.queue[0]);
      }
    } else {
      hide Next;
      if FromProber(step) {
        ProberReportFrame(cfg, s, step);
      } else if BringsComponentUp(step) {
        ComponentDefers(cfg, s, step);
      } else {
        NotificationFrame(cfg, s, step);
      }
    }
  }

  /** The mode is that of the last configuration that was not deferred, or of a deferred one carried out since. */
  lemma StepSetsMode(cfg: Config, s: State, step: Step)
    ensures Next(cfg, s, step).admin.mode ==
            if step.MuxConfig? && !Deferred(s, step.mode) then step.mode
            else if SettlesMux(cfg, s, step) && s.admin.pending then s.admin.target
            else s.admin.mode
  {
    hide Deliver, ApplyMode, AfterMuxChange, Deferred;
    if step.MuxConfig? {
      ApplyModeFrame(cfg, s, step.mode);
    } else if step.RunStrand? {
      if s.queue != [] {
        DeliverDefers(cfg, s.(queue := s.queue[1..]), s.queue[0]);
      }
    } else {
      hide Next;
      if FromProber(step) {
        ProberReportFrame(cfg, s, step);
      } else if BringsComponentUp(step) {
        ComponentDefers(cfg, s, step);
      } else {
        NotificationFrame(cfg, s, step);
      }
    }
  }

  lemma MuxConfigPending(cfg: Config, s: State, mode: Mode)
    requires PendingWaits(s)
    ensures var s' := HandleMuxConfig(cfg, s, mode);
            && PendingWaits(s')
            && (s.admin.pending ==> s'.admin.pending)
            && (s'.admin.pending && !(s.admin.pending && s'.admin.target == s.admin.target) ==>
                  mode == s'.admin.target && s.comp.ms == MWait)
  {
    hide ApplyMode;
    ApplyModeFrame(cfg, s, mode);
  }

  /** Every other step leaves a deferred change alone, but for a configuration that is deferred in its place. */
  lemma NotificationPending(cfg: Config, s: State, step: Step)
    requires s.admin.init.All() && PendingWaits(s) && !step.RunStrand?
    ensures var s' := Next(cfg, s, step);
            && PendingWaits(s')
            && (s.admin.pending ==> s'.admin.pending)
            && (s'.admin.pending && !(s.admin.pending && s'.admin.target == s.admin.target) ==>
                  step == MuxConfig(s'.admin.target) && s.comp.ms == MWait)
  {
    hide Next, HandleMuxConfig;
    if step.MuxConfig? {
      NextConfig(cfg, s, step.mode);
      MuxConfigPending(cfg, s, step.mode);
    } else {
      OtherNotificationFrame(cfg, s, step);
    }
  }

  lemma NextConfig(cfg: Config, s: State, mode: Mode)
    ensures Next(cfg, s, MuxConfig(mode)) == HandleMuxConfig(cfg, s, mode)
  {
    hide HandleMuxConfig;
  }

  lemma OtherNotificationFrame(cfg: Config, s: State, step: Step)
    requires s.admin.init.All() && !step.RunStrand? && !step.MuxConfig?
    ensures var s' := Next(cfg, s, step); SameDeferral(s, s') && (s'.comp.ms == s.comp.ms || s'.comp.ms == MWait)
  {
    hide Next;
    if FromProber(step) {
      ProberReportFrame(cfg, s, step);
    } else if BringsComponentUp(step) {
      ActiveComponentFrame(cfg, s, step);
    } else {
      NotificationFrame(cfg, s, step);
    }
  }

  /**
   On an active port every step keeps "a pending change implies a mux in Wait"; a pending change ends only by
   being carried out in a mux change, and its target is replaced only by another deferred configuration.
   */
  lemma DeferredModeWaits(cfg: Config, s: State, step: Step)
    requires s.admin.init.All() && PendingWaits(s)
    ensures var s' := Next(cfg, s, step);
            && PendingWaits(s')
            && (s.admin.pending && !s'.admin.pending ==>
                  step == RunStrand && s.queue != [] && s.queue[0].MuxChange? && s'.admin.mode == s.admin.target)
            && (s'.admin.pending && !(s.admin.pending && s'.admin.target == s.admin.target) ==>
                  step == MuxConfig(s'.admin.target) && s.comp.ms == MWait)
  {
    hide Deliver, AfterMuxChange;
    if step.RunStrand? {
      if s.queue != [] {
        DeliverDefers(cfg, s.(queue := s.queue[1..]), s.queue[0]);
      }
    } else {
      hide Next;
      NotificationPending(cfg, s, step);
    }
  }
}
