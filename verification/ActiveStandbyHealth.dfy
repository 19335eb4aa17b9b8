/**
 The health that an active-standby port reports, against the health that its composite and its default route
 determine: some handlers change the composite and leave the report to the next change.
 */
module ActiveStandbyHealth {
  import opened Labels
  import opened Strand
  import opened ActiveStandbySpec
  import opened ActiveStandbyAnswers
  import opened ActiveStandbyFrames
  import opened ActiveStandbyRuns
  import MuxState
  import LinkState
  import LinkProberState

  /**
   The report is what composite and route determine: healthy if the link is up, prober and mux are both active
   or both standby, and the default route is there or does not matter, and else unhealthy.
   */
  predicate Fresh(cfg: Config, s: State) {
    s.admin.health == if Well(cfg, s.comp, s.admin.route) then Healthy else Unhealthy
  }

  /** No report, and a composite that is the same or waits for the prober or the mux. */
  predicate Silent(s: State, s': State) {
    && s'.admin.health == s.admin.health && s'.admin.route == s.admin.route && s'.admin.init == s.admin.init
    && (s'.comp == s.comp || s'.comp.ms == MWait || s'.comp.ps == PWait)
  }

  lemma UpdateHealthReports(cfg: Config, s: State)
    ensures Fresh(cfg, UpdateHealth(cfg, s))
  {
    hide Record;
  }

  lemma EnterMuxWaitIsSilent(s: State)
    ensures Silent(s, EnterMuxWait(s)) && EnterMuxWait(s).comp == s.comp.(ms := MWait)
  {
    hide Record, MuxState.SetCause, MuxState.Entered;
  }

  lemma ToggleMuxIsSilent(cfg: Config, s: State, cause: SwitchCause, l: MuxLabel, force: bool)
    ensures var s' := ToggleMux(cfg, s, cause, l, force); Silent(s, s') && s'.comp == s.comp.(ms := MWait)
  {
    hide Record, MuxState.SetCause, MuxState.Entered, Restarted;
  }

  lemma SwitchMuxIsSilent(cfg: Config, s: State, cause: SwitchCause, l: MuxLabel, force: bool)
    ensures var s' := SwitchMux(cfg, s, cause, l, force); Silent(s, s') && s'.comp == s.comp.(ms := MWait)
  {
    hide ToggleMux, EnterMuxWait;
    ToggleMuxIsSilent(cfg, s, cause, l, force);
    EnterMuxWaitIsSilent(s);
  }

  lemma EnterProberWaitIsSilent(s: State)
    ensures Silent(s, EnterProber(s, PWait, false))
  {
    hide Record, LinkProberState.Entered;
  }

  lemma RequestsAreSilent(cfg: Config, s: State)
    ensures Silent(s, HandleSuspendExpiry(s)) && Silent(s, SwitchCompleted(cfg, s)) && Silent(s, SwitchRequested(cfg, s))
  {
    hide Record, SwitchMux, EnterMuxWait, EnterProber;
    EnterMuxWaitIsSilent(s);
    EnterProberWaitIsSilent(s);
    var s1 := EnterProber(s, PWait, false);
    SwitchMuxIsSilent(cfg, s1, TlvSwitchActiveCommand, MActive, false);
    if s.admin.sendCause.Some? {
      SwitchMuxIsSilent(cfg, s1, s.admin.sendCause.value, MStandby, true);
    }
  }

  lemma NotificationsAreSilent(cfg: Config, s: State, m: MuxLabel, l: LinkLabel)
    ensures Silent(s, HandleGetMuxState(cfg, s, m)) && Silent(s, HandlePeerLink(cfg, s, l))
    ensures Silent(s, HandleResetSuspendTimer(s))
  {
    hide Record, SwitchMux, EnterProber;
    SwitchMuxIsSilent(cfg, s, MatchingHardwareState, s.comp.ms, true);
    var s1 := s.(admin := s.admin.(peerLink := l));
    EnterProberWaitIsSilent(s1);
    SwitchMuxIsSilent(cfg, EnterProber(s1, PWait, false), PeerLinkDown, MActive, false);
  }

  lemma TimeoutsAreSilent(cfg: Config, s: State, success: bool)
    ensures Silent(s, HandleMuxProbeTimeout(s, success)) && Silent(s, HandleMuxWaitTimeout(s, success))
    ensures Silent(s, HandleOscillationTimeout(cfg, s, success))
  {
    hide Record, SwitchMux, EnterMuxWait;
    EnterMuxWaitIsSilent(s);
    EnterMuxWaitIsSilent(ResetBackoff(s, WaitStandbyUp));
    SwitchMuxIsSilent(cfg, CancelOscillation(s), TimedOscillation, MStandby, false);
  }

  // ----- the steps of an active port -----

  /** The steps that end with a report: served changes, routes, and configurations that are not deferred. */
  predicate Reports(s: State, step: Step) {
    || step.DefaultRouteState?
    || (step.MuxConfig? && !Deferred(s, step.mode))
    || (step.RunStrand? && s.queue != []
        && (s.queue[0].ProberChange? || s.queue[0].MuxChange? || s.queue[0].LinkChange?))
  }

  lemma ConfigReports(cfg: Config, s: State, mode: Mode)
    requires s.admin.init.All()
    ensures Fresh(cfg, ApplyMode(cfg, s, mode))
  {
    hide Record, ActOnMode, UpdateHealth;
    UpdateHealthReports(cfg, ActOnMode(cfg, s, mode));
  }

  lemma ReportingIsFresh(cfg: Config, s: State, step: Step)
    requires s.admin.init.All() && Reports(s, step)
    ensures Fresh(cfg, Next(cfg, s, step))
  {
    hide UpdateHealth, ApplyMode, AcceptProberChange, AcceptLinkChange, MuxChangeTaken, Fresh;
    hide ResetBackoff, ClearUnknownUps, CancelOscillation, ShutdownOrRestart, EnterProber, Record;
    match step
    case MuxConfig(mode) => ConfigReports(cfg, s, mode);
    case DefaultRouteState(r) =>
      var s1 := if s.admin.route == RouteNA && r == RouteOK then InitProber(s, false) else s;
      UpdateHealthReports(cfg, ShutdownOrRestart(s1.(admin := s.admin.(route := r))));
    case RunStrand =>
      ServedChangeIsFresh(cfg, s.(queue := s.queue[1..]), s.queue[0]);
  }

  lemma ServedChangeIsFresh(cfg: Config, s: State, m: Message)
    requires m.ProberChange? || m.MuxChange? || m.LinkChange?
    ensures Fresh(cfg, Deliver(cfg, s, m))
  {
    hide UpdateHealth, AcceptProberChange, AcceptLinkChange, MuxChangeTaken, Fresh, Record;
    hide ResetBackoff, ClearUnknownUps, CancelOscillation;
    match m
    case ProberChange(l) =>
      var s1 := if s.prober.current == l then AcceptProberChange(cfg, s, l) else s;
      UpdateHealthReports(cfg, s1);
      UpdateHealthReports(cfg, ResetBackoff(Emit(s1, ResumeTx), UnknownActiveUp));
    case MuxChange(l) =>
      var s1 := MuxChangeTaken(cfg, s, l);
      var s2 := if l != MUnknown then ClearUnknownUps(ResetBackoff(s1, MuxUnknown)) else s1;
      UpdateHealthReports(cfg, if l == MStandby then CancelOscillation(s2) else s2);
    case LinkChange(l) => UpdateHealthReports(cfg, if s.link.current == l then AcceptLinkChange(cfg, s, l) else s);
  }

  lemma DeliverIsSilent(cfg: Config, s: State, m: Message)
    requires !m.ProberChange? && !m.MuxChange? && !m.LinkChange?
    ensures Silent(s, Deliver(cfg, s, m))
  {
    hide HandleSuspendExpiry, SwitchCompleted, SwitchRequested;
    hide LinkProberState.Handled, MuxState.Handled, LinkState.Handled;
    RequestsAreSilent(cfg, s);
  }

  lemma NotificationIsSilent(cfg: Config, s: State, step: Step)
    requires !BringsComponentUp(step) && !FromProber(step) && !step.RunStrand? && !Reports(s, step)
    ensures Silent(s, Next(cfg, s, step))
  {
    hide HandleGetMuxState, HandlePeerLink, HandleResetSuspendTimer, HandleDefaultRoute, ApplyMode, Deferred;
    hide HandleMuxProbeTimeout, HandleMuxWaitTimeout, HandleOscillationTimeout;
    match step
    case GetMuxState(m) => NotificationsAreSilent(cfg, s, m, LUp);
    case PeerLink(l) => NotificationsAreSilent(cfg, s, MWait, l);
    case MuxConfig(_) =>
    case ResetSuspendTimer => NotificationsAreSilent(cfg, s, MWait, LUp);
    case MuxProbeTimeout(success) => TimeoutsAreSilent(cfg, s, success);
    case MuxWaitTimeout(success) => TimeoutsAreSilent(cfg, s, success);
    case OscillationTimeout(success) => TimeoutsAreSilent(cfg, s, success);
  }

  lemma ProberReportIsSilent(cfg: Config, s: State, step: Step)
    requires FromProber(step)
    ensures Silent(s, Next(cfg, s, step))
  {
  }

  lemma StrandIsSilent(cfg: Config, s: State)
    requires !Reports(s, RunStrand)
    ensures Silent(s, Next(cfg, s, RunStrand))
  {
    hide Deliver;
    if s.queue != [] {
      DeliverIsSilent(cfg, s.(queue := s.queue[1..]), s.queue[0]);
    }
  }

  lemma OthersAreSilent(cfg: Config, s: State, step: Step)
    requires s.admin.init.All() && !Reports(s, step)
    ensures Silent(s, Next(cfg, s, step))
  {
    hide Next, Reports;
    if BringsComponentUp(step) {
      ActiveComponentFrame(cfg, s, step);
    } else if FromProber(step) {
      ProberReportIsSilent(cfg, s, step);
    } else if step.RunStrand? {
      StrandIsSilent(cfg, s);
    } else {
      NotificationIsSilent(cfg, s, step);
    }
  }

  /** A report goes stale only where a step that does not report changes the composite of a healthy port. */
  lemma StaleWhenChanged(cfg: Config, s: State, step: Step)
    requires s.admin.init.All() && Fresh(cfg, s)
    ensures var s' := Next(cfg, s, step);
            !Fresh(cfg, s') <==> !Reports(s, step) && s.admin.health == Healthy && s'.comp != s.comp
  {
    hide Next, Reports;
    if Reports(s, step) {
      ReportingIsFresh(cfg, s, step);
    } else {
      OthersAreSilent(cfg, s, step);
    }
  }

  /**
   What takes a healthy port out of its composite without a report: a mux check that the hardware or the last
   toggle contradicts, a peer link that falls while this side stands by, a switch command to the peer that has
   gone out of an active side, and a switch request that reaches a standby side.
   */
  predicate Disturbs(s: State, step: Step) {
    match step
    case GetMuxState(l) => s.comp.ms != l || s.admin.lastSet != l
    case PeerLink(l) => l == LDown && s.comp.ms == MStandby
    case RunStrand =>
      && s.queue != []
      && (|| (s.queue[0] == Message.HandleSwitchCompletion && s.comp.ms == MActive && s.admin.sendCause.Some?)
          || (s.queue[0] == Message.HandleSwitchRequest && s.comp.ms == MStandby))
    case _ => false
  }

  lemma StrandDisturbs(cfg: Config, s: State)
    requires HealthOf(cfg, s) == Healthy && !Reports(s, RunStrand)
    ensures Next(cfg, s, RunStrand).comp != s.comp <==> Disturbs(s, RunStrand)
  {
    hide HandleSuspendExpiry, SwitchCompleted, SwitchRequested, HandleProberChange, HandleMuxChange, HandleLinkChange;
    hide LinkProberState.Handled, MuxState.Handled, LinkState.Handled;
    if s.queue != [] {
      RequestsDisturb(cfg, s.(queue := s.queue[1..]));
    }
  }

  lemma RequestsDisturb(cfg: Config, s: State)
    requires HealthOf(cfg, s) == Healthy
    ensures HandleSuspendExpiry(s).comp == s.comp
    ensures SwitchCompleted(cfg, s).comp != s.comp <==> s.comp.ms == MActive && s.admin.sendCause.Some?
    ensures SwitchRequested(cfg, s).comp != s.comp <==> s.comp.ms == MStandby
  {
    hide Record, SwitchMux, EnterProber, EnterMuxWait;
    var s1 := EnterProber(s, PWait, false);
    SwitchMuxIsSilent(cfg, s1, TlvSwitchActiveCommand, MActive, false);
    if s.admin.sendCause.Some? {
      SwitchMuxIsSilent(cfg, s1, s.admin.sendCause.value, MStandby, true);
    }
  }

  lemma EnterProberShows(s: State, l: ProberLabel)
    ensures EnterProber(s, l, false).comp == s.comp.(ps := l)
  {
    hide Record, LinkProberState.Entered;
  }

  lemma NotificationDisturbs(cfg: Config, s: State, step: Step)
    requires HealthOf(cfg, s) == Healthy && s.admin.init.All()
    requires !BringsComponentUp(step) && !FromProber(step) && !step.RunStrand? && !Reports(s, step)
    ensures Next(cfg, s, step).comp != s.comp <==> Disturbs(s, step)
  {
    hide Record, SwitchMux, EnterProber, EnterMuxWait, HandleDefaultRoute, ApplyMode;
    match step
    case GetMuxState(_) => SwitchMuxIsSilent(cfg, s, MatchingHardwareState, s.comp.ms, true);
    case PeerLink(l) =>
      var s1 := s.(admin := s.admin.(peerLink := l));
      EnterProberShows(s1, PWait);
      SwitchMuxIsSilent(cfg, EnterProber(s1, PWait, false), PeerLinkDown, MActive, false);
    case _ =>
  }

  /**
   From a fresh report every step of an active port leaves a stale one exactly when it does not report, the
   port was healthy and the step disturbs it.
   */
  lemma StaleExactlyWhen(cfg: Config, s: State, step: Step)
    requires s.admin.init.All() && Fresh(cfg, s)
    ensures !Fresh(cfg, Next(cfg, s, step)) <==> !Reports(s, step) && s.admin.health == Healthy && Disturbs(s, step)
  {
    hide Next, Reports, Disturbs;
    StaleWhenChanged(cfg, s, step);
    if !Reports(s, step) && s.admin.health == Healthy {
      UndisturbedStays(cfg, s, step);
    }
  }

  lemma UndisturbedStays(cfg: Config, s: State, step: Step)
    requires s.admin.init.All() && HealthOf(cfg, s) == Healthy && !Reports(s, step)
    ensures Next(cfg, s, step).comp != s.comp <==> Disturbs(s, step)
  {
    if BringsComponentUp(step) {
      hide Next;
      ActiveComponentFrame(cfg, s, step);
    } else if step.RunStrand? {
      StrandDisturbs(cfg, s);
    } else if !FromProber(step) {
      NotificationDisturbs(cfg, s, step);
    }
  }

  // ----- every run -----

  lemma StartProberReports(cfg: Config, s: State)
    ensures Fresh(cfg, StartProber(cfg, s)) && StartProber(cfg, s).admin.init == s.admin.init
  {
    hide Record, UpdateHealth, ShutdownOrRestart, EnterProber;
    InitProberFrame(s);
    ShutdownOrRestartFrame(InitProber(s, false));
    var s1 := InitProber(s, false);
    var s2 := if cfg.defaultRouteFeature then ShutdownOrRestart(s1) else s1;
    UpdateHealthReports(cfg, Emit(Emit(s2, InitializeProber), StartProbing));
    UpdateHealthFrame(cfg, Emit(Emit(s2, InitializeProber), StartProbing));
  }

  lemma ActivateReports(cfg: Config, s: State)
    ensures var s' := Activate(cfg, s); s'.admin.init == s.admin.init && (s'.admin.init.All() ==> Fresh(cfg, s'))
  {
    hide Record, StartProber;
    StartProberReports(cfg, s);
  }

  lemma ActivationReports(cfg: Config, s: State, step: Step)
    requires !s.admin.init.All() && BringsComponentUp(step)
    ensures var s' := Next(cfg, s, step); s'.admin.init.All() ==> Fresh(cfg, s')
  {
    hide Record, Activate, EnterMuxWait, MuxState.SetCause, MuxState.Entered, LinkState.Entered, HealthOf;
    match step
    case BladeIp(_) => ActivateReports(cfg, WithInit(s, s.admin.init.(prober := true)));
    case MuxStateNotification(l) =>
      EnterMuxWaitFrame(s);
      ActivateReports(cfg, WithInit(EnterMux(Emit(s, MuxForced(l)), l), s.admin.init.(mux := true)));
    case ProbeMuxState(l) =>
      ActivateReports(cfg, WithInit(EnterMux(Emit(s, MuxForced(l)), l), s.admin.init.(mux := true)));
    case SwssLink(l) => ActivateReports(cfg, WithInit(EnterLink(s, l), s.admin.init.(link := true)));
  }

  /** A healthy port says so. */
  predicate HealthIsTold(cfg: Config, s: State) {
    s.admin.init.All() && Well(cfg, s.comp, s.admin.route) ==> s.admin.health == Healthy
  }

  lemma NextTellsHealth(cfg: Config, s: State, step: Step)
    requires HealthIsTold(cfg, s)
    ensures HealthIsTold(cfg, Next(cfg, s, step))
  {
    hide Next, Reports;
    if !s.admin.init.All() {
      if BringsComponentUp(step) {
        ActivationReports(cfg, s, step);
      } else {
        OtherStepsKeepInit(cfg, s, step);
      }
    } else if Reports(s, step) {
      ReportingIsFresh(cfg, s, step);
    } else {
      OthersAreSilent(cfg, s, step);
    }
  }

  ghost predicate HealthIsToldAfter(cfg: Config, steps: seq<Step>) {
    HealthIsTold(cfg, Run(cfg, steps))
  }

  /**
   In every reachable state an active port that is healthy has reported so: a report errs only by still saying
   healthy of a port that waits.
   */
  lemma {:induction false} HealthyPortsSaySo(cfg: Config, steps: seq<Step>)
    ensures HealthIsToldAfter(cfg, steps)
  {
    hide Next, HealthIsTold;
    if steps == [] {
      InitialTellsHealth(cfg);
    } else {
      HealthyPortsSaySo(cfg, steps[..|steps| - 1]);
      NextTellsHealth(cfg, Run(cfg, steps[..|steps| - 1]), steps[|steps| - 1]);
    }
  }

  lemma InitialTellsHealth(cfg: Config)
    ensures HealthIsTold(cfg, Initial())
  {
  }

  // ----- a stale report -----

  /** The mux is checked against the hardware, which differs. */
  const CHECKED: seq<Step> := [BladeIp(false), MuxStateNotification(MActive), SwssLink(LUp), GetMuxState(MStandby)]

  predicate AllWell(s: State) {
    s.comp == Composite(PActive, MActive, LUp) && s.admin.init.All() && s.admin.health == Healthy
  }

  lemma MuxIsIn(cfg: Config)
    ensures var s := Next(cfg, Next(cfg, Initial(), BladeIp(false)), MuxStateNotification(MActive));
            s.comp.ms == MActive && s.admin.init == InitBits(true, true, false)
  {
    hide Record, StartProber;
  }

  lemma PortIsWell(cfg: Config, s: State)
    requires s.comp.ms == MActive && s.admin.init == InitBits(true, true, false) && !cfg.defaultRouteFeature
    ensures AllWell(Next(cfg, s, SwssLink(LUp)))
  {
    hide Record, LinkState.Entered, LinkProberState.Entered;
  }

  lemma CheckIsSilent(cfg: Config, s: State)
    requires AllWell(s)
    ensures var s' := Next(cfg, s, GetMuxState(MStandby)); s'.admin.health == Healthy && !Well(cfg, s'.comp, s'.admin.route)
  {
    hide SwitchMux;
    SwitchMuxIsSilent(cfg, s, MatchingHardwareState, MActive, true);
  }

  /** A run that leaves a port reported as healthy whose mux waits. */
  lemma ReportGoesStale(cfg: Config)
    requires !cfg.defaultRouteFeature
    ensures var s := Run(cfg, CHECKED);
            s.admin.init.All() && s.admin.health == Healthy && !Well(cfg, s.comp, s.admin.route)
  {
    hide Next, HealthOf, AllWell;
    assert CHECKED[..3][..2] == CHECKED[..2] && CHECKED[..2][..1] == CHECKED[..1] && CHECKED[..1][..0] == [];
    assert Run(cfg, CHECKED[..1]) == Next(cfg, Initial(), BladeIp(false));
    MuxIsIn(cfg);
    PortIsWell(cfg, Run(cfg, CHECKED[..2]));
    CheckIsSilent(cfg, Run(cfg, CHECKED[..3]));
    CheckKeepsInit(cfg, Run(cfg, CHECKED[..3]));
  }

  lemma CheckKeepsInit(cfg: Config, s: State)
    requires AllWell(s)
    ensures Next(cfg, s, GetMuxState(MStandby)).admin.init.All()
  {
    hide HandleGetMuxState;
    NotificationsAreSilent(cfg, s, MStandby, LUp);
  }
}
