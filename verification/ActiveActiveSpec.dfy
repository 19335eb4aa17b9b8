/**
 What the active-active link manager does, as functions on its state: one per handler, the table of
 transition functions, and the steps and runs of the whole port.
 */
module ActiveActiveSpec {
  import opened Labels
  import opened Strand
  import opened Logs
  import MuxState
  import LinkState
  import LinkProberState

  const MAX_BACKOFF_FACTOR: uint32 := 32

  datatype Notification = NotReceived | FromToggle | FromProbe

  datatype ProberMetric = LinkProberUnknownStart | LinkProberActiveStart

  /** What held when a toggle was requested, `comp` the composite being entered, or before a link was taken up. */
  datatype Circumstance = Circumstance(comp: Composite, mode: Mode, health: Health)

  datatype Output =
    // to orchagent, the transceiver daemon and the databases
    | SwitchingStart(ms: MuxLabel)
    | SwitchingEnd(ms: MuxLabel)
    | Toggle(ms: MuxLabel, at: Circumstance)
    | TogglePeer(ms: MuxLabel, at: Circumstance)
    | ProbeMux
    | PostProberMetric(metric: ProberMetric)
    | LinkmgrState(health: Health)
    // to the prober
    | InitializeProber
    | StartProbing
    | UpdateEthernetFrame
    | ProbePeerTor
    | SuspendTx
    | ResumeTx
    | ShutdownTx
    | RestartTx
    | SendPeerProbeCommand
    // timers
    | WaitTimer
    | PeerWaitTimer
    | SyncTimer
    | Backoff(factor: uint32)
    // marks that nobody else sees: a link label that is forced, or taken up from the sub-machine
    | LinkForced(ls: LinkLabel)
    | LinkAccepted(ls: LinkLabel, at: Circumstance)

  /** The bookkeeping of the link manager itself. */
  datatype Admin = Admin(
    init: InitBits,
    mode: Mode,
    deferred: seq<Mode>,
    route: DefaultRoute,
    peerProber: PeerLabel,
    peerMux: MuxLabel,
    lastSetPeerMux: MuxLabel,
    lastMuxState: MuxLabel,
    lastMuxProbe: MuxLabel,
    lastNotification: Notification,
    probeFactor: uint32,
    waitMux: bool,
    continuousUnknown: bool,
    health: Health
  )

  /** While a handler runs, `comp` is the composite that it is about to enter. */
  datatype State = State(
    comp: Composite,
    prober: LinkProberState.Machine,
    peer: LinkProberState.PeerMachine,
    mux: MuxState.Machine,
    link: LinkState.Machine,
    queue: seq<Message>,
    admin: Admin,
    journal: Journal
  )

  // ----- what the log amounts to -----

  datatype Summary = Summary(
    inits: nat,       // times the prober was initialised
    probings: nat,    // times probing was started
    link: LinkLabel,  // the link as the composite last took it up
    ok: bool          // every output so far met its condition
  )

  /** The modes under which a toggle to `l` may be sent. */
  predicate Allowed(mode: Mode, l: MuxLabel) {
    || mode == Auto || mode == Detached
    || (mode == ModeActive && l == MActive)
    || (mode == ModeStandby && l == MStandby)
  }

  /** What holds of every toggle, forced or not. */
  predicate ToggleMet(l: MuxLabel, at: Circumstance) {
    && (l == MActive || l == MStandby)
    && Allowed(at.mode, l)
    && (l == MActive && at.mode != ModeActive ==> at.comp.ps == PActive && at.comp.ls == LUp)
  }

  predicate PeerToggleMet(l: MuxLabel, at: Circumstance) {
    l == MStandby && at.mode == Auto && at.health == Healthy
  }

  function Digest(t: Summary, o: Output): Summary {
    match o
    case Toggle(l, at) =>
      t.(ok := t.ok && ToggleMet(l, at) && (l == MActive && at.mode != ModeActive ==> t.link == LUp))
    case TogglePeer(l, at) => t.(ok := t.ok && PeerToggleMet(l, at))
    case InitializeProber => t.(inits := t.inits + 1)
    case StartProbing => t.(probings := t.probings + 1)
    case LinkForced(l) => t.(link := l)
    case LinkAccepted(l, _) => t.(link := l)
    case _ => t
  }

  const NO_OUTPUT := Summary(0, 0, LDown, true)

  function Summarize(log: Log<Output>): Summary {
    match log
    case Empty => NO_OUTPUT
    case After(earlier, o) => Digest(Summarize(earlier), o)
  }

  /** The outputs so far, with their running totals. */
  datatype Pages = Pages(log: Log<Output>, totals: Summary)

  type Journal = j: Pages | j.totals == Summarize(j.log) witness Pages(Empty, NO_OUTPUT)

  function Record(j: Journal, o: Output): Journal {
    Pages(After(j.log, o), Digest(j.totals, o))
  }

  function Emit(s: State, o: Output): State {
    s.(journal := Record(s.journal, o))
  }

  // ----- forcing the sub-machines and the composite together -----

  function EnterProber(s: State, l: ProberLabel): State {
    s.(prober := LinkProberState.Entered(s.prober, l, ActiveActiveCable), comp := s.comp.(ps := l))
  }

  function EnterPeer(s: State, l: PeerLabel): State {
    s.(peer := LinkProberState.PeerEntered(s.peer, l), admin := s.admin.(peerProber := l))
  }

  function EnterMux(s: State, l: MuxLabel): State {
    s.(mux := MuxState.Entered(s.mux, l), comp := s.comp.(ms := l))
  }

  function EnterLink(s: State, l: LinkLabel): State {
    s.(link := LinkState.Entered(s.link, l), comp := s.comp.(ls := l))
  }

  function SetCause(s: State, cause: WaitCause): State {
    s.(mux := MuxState.SetCause(s.mux, cause))
  }

  function StartWaitMux(s: State): State {
    s.(admin := s.admin.(waitMux := true))
  }

  /** Ask the transceiver daemon for the mux state; the composite stays. */
  function ProbeMuxState(s: State): State {
    Emit(Emit(StartWaitMux(SetCause(s, DriverUpdate)), ProbeMux), WaitTimer)
  }

  /** What a toggle tells the outside world. */
  function Announced(s: State, l: MuxLabel, at: Circumstance): State {
    Emit(Emit(Emit(s, SwitchingStart(l)), Toggle(l, at)), WaitTimer)
  }

  function Now(s: State): Circumstance {
    Circumstance(s.comp, s.admin.mode, s.admin.health)
  }

  function ToggleMux(s: State, l: MuxLabel): State {
    var s' := if l == MStandby then Emit(s, SuspendTx) else s;
    Announced(StartWaitMux(SetCause(EnterMux(s', l), SwssUpdate)), l, Now(s))
  }

  /** Toggle the mux when forced or when the mode allows it, else probe it. */
  function SwitchMux(s: State, l: MuxLabel, force: bool): State {
    if force || Allowed(s.admin.mode, l) then ToggleMux(s, l) else ProbeMuxState(s)
  }

  function InitialProber(l: MuxLabel): ProberLabel {
    match l
    case MActive => PActive
    case MStandby => PUnknown
    case MUnknown => PWait
    case MError => PWait
    case MWait => PWait
  }

  function InitProber(s: State): State {
    EnterProber(s, InitialProber(s.comp.ms))
  }

  function InitialPeer(l: MuxLabel): PeerLabel {
    match l
    case MActive => PeerActive
    case MStandby => PeerUnknown
    case MUnknown => PeerWait
    case MError => PeerWait
    case MWait => PeerWait
  }

  function InitPeer(s: State): State {
    EnterPeer(s, InitialPeer(s.admin.peerMux))
  }

  function TogglePeerMux(s: State, l: MuxLabel): State {
    if s.admin.mode != Auto then s
    else
      var s' := s.(admin := s.admin.(peerMux := l, lastSetPeerMux := l));
      Emit(Emit(s', TogglePeer(l, Now(s))), PeerWaitTimer)
  }

  // ----- probe backoff -----

  function StartMuxProbeTimer(s: State): State {
    Emit(ProbeMuxState(s), Backoff(s.admin.probeFactor))
  }

  function DoubleBackoff(s: State): State {
    s.(admin := s.admin.(probeFactor := Doubled(MAX_BACKOFF_FACTOR, s.admin.probeFactor)))
  }

  function ResetBackoff(s: State): State {
    s.(admin := s.admin.(probeFactor := 1))
  }

  // ----- health and default route -----

  /** What the last notifications say of the mux does not contradict the composite. */
  predicate MuxReported(s: State) {
    || s.comp.ms == s.admin.lastMuxState
    || s.admin.lastMuxState == MUnknown
    || (s.admin.lastNotification == FromProbe && s.admin.lastMuxProbe == MUnknown)
  }

  function HealthOf(cfg: Config, s: State): Health {
    if && s.comp.ls == LUp && s.comp.ps == PActive && MuxReported(s)
       && (!cfg.defaultRouteFeature || s.admin.route == RouteOK)
    then Healthy else Unhealthy
  }

  function UpdateHealth(cfg: Config, s: State): State {
    var h := HealthOf(cfg, s);
    if s.admin.health == h then s else Emit(s.(admin := s.admin.(health := h)), LinkmgrState(h))
  }

  function ShutdownOrRestart(s: State): State {
    if !s.admin.init.All() then s
    else if (s.admin.mode == Auto || s.admin.mode == Detached || s.admin.mode == ModeStandby) && s.admin.route != RouteOK then
      Emit(s, ShutdownTx)
    else Emit(s, RestartTx)
  }

  // ----- the table of transition functions -----

  /** The hardware is known to be where a pinned mode wants it. */
  predicate Confirmed(s: State, l: MuxLabel) {
    s.admin.lastMuxState == l && !(s.admin.lastNotification == FromProbe && s.admin.lastMuxProbe != l)
  }

  /** Repeat a toggle that failed, or that a later probe has contradicted. */
  function Reinforce(s: State, l: MuxLabel): State {
    if Confirmed(s, l) then s else SwitchMux(s, l, true)
  }

  function ActiveActiveUp(s: State): State {
    if s.admin.mode == ModeStandby then Reinforce(s, MStandby)
    else if s.admin.lastMuxState == MUnknown then SwitchMux(s, MActive, false)
    else s
  }

  function ActiveStandbyUp(s: State): State {
    if s.admin.mode == ModeStandby then Reinforce(s, MStandby)
    else if s.admin.route != RouteNA then SwitchMux(s, MActive, false)
    else s
  }

  function UnknownActiveUp(s: State): State {
    if s.admin.mode == ModeActive then Reinforce(s, MActive) else SwitchMux(s, MStandby, false)
  }

  function UnknownStandbyUp(s: State): State {
    if s.admin.mode == ModeActive then Reinforce(s, MActive)
    else if s.admin.lastMuxState == MUnknown then SwitchMux(s, MStandby, false)
    else s
  }

  /** A prober that has just changed decides; one that had decided before leaves it to the mux. */
  function SwitchOrProbe(s: State, left: Composite, l: MuxLabel): State {
    if left.ps != s.comp.ps then SwitchMux(s, l, false) else StartMuxProbeTimer(s)
  }

  /** What entering the composite `s.comp` triggers, having left the composite `left`. */
  function Transition(s: State, left: Composite): State {
    match s.comp
    case Composite(PActive, MActive, LUp) => ActiveActiveUp(s)
    case Composite(PActive, MStandby, LUp) => ActiveStandbyUp(s)
    case Composite(PUnknown, MActive, LUp) => UnknownActiveUp(s)
    case Composite(PUnknown, MStandby, LUp) => UnknownStandbyUp(s)
    case Composite(PActive, MUnknown, LUp) => SwitchOrProbe(s, left, MActive)
    case Composite(PUnknown, MUnknown, LUp) => SwitchOrProbe(s, left, MStandby)
    case Composite(PActive, MError, LUp) => StartMuxProbeTimer(s)
    case Composite(PActive, MWait, LUp) => SwitchMux(s, MActive, false)
    case Composite(PUnknown, MWait, LUp) => SwitchMux(s, MStandby, false)
    case Composite(PUnknown, MWait, LDown) => SwitchOrProbe(s, left, MStandby)
    case Composite(PUnknown, MUnknown, LDown) => SwitchOrProbe(s, left, MStandby)
    case Composite(PUnknown, MActive, LDown) => SwitchMux(s, MStandby, false)
    case _ => s
  }

  // ----- changes reported by the sub-machines -----

  function NoteProberChange(s: State, l: ProberLabel): State {
    var s' := s.(admin := s.admin.(continuousUnknown := l == PUnknown));
    if s.admin.continuousUnknown && l != PUnknown then Emit(s', PostProberMetric(LinkProberActiveStart))
    else if !s.admin.continuousUnknown && l == PUnknown then Emit(s', PostProberMetric(LinkProberUnknownStart))
    else s'
  }

  function AcceptProberChange(s: State, l: ProberLabel): State {
    Transition(NoteProberChange(s, l).(comp := s.comp.(ps := l)), s.comp)
  }

  function HandleProberChange(cfg: Config, s: State, l: ProberLabel): State {
    UpdateHealth(cfg, if s.prober.current == l then AcceptProberChange(s, l) else s)
  }

  function AcceptMuxChange(s: State, l: MuxLabel): State {
    Transition(s.(comp := s.comp.(ms := l)), s.comp)
  }

  function HandleMuxChange(cfg: Config, s: State, l: MuxLabel): State {
    UpdateHealth(cfg, if s.mux.current == l then AcceptMuxChange(s, l) else s)
  }

  /** A prober that is already active keeps its label over a link that comes up. */
  function LinkCameUp(s: State, left: Composite): State {
    if left.ps == PActive then Transition(InitPeer(s), left) else InitPeer(InitProber(s))
  }

  function AcceptLinkChange(s: State, l: LinkLabel): State {
    var s' := Emit(s, LinkAccepted(l, Now(s))).(comp := s.comp.(ls := l));
    if s.comp.ls == LDown && l == LUp then LinkCameUp(s', s.comp)
    else if s.comp.ls == LUp && l == LDown && s.comp.ms != MStandby then SwitchMux(s', MStandby, false)
    else Transition(s', s.comp)
  }

  function HandleLinkChange(cfg: Config, s: State, l: LinkLabel): State {
    UpdateHealth(cfg, if s.link.current == l then AcceptLinkChange(s, l) else s)
  }

  function AcceptPeerChange(s: State, l: PeerLabel): State {
    var s' := EnterPeer(s, l);
    match l
    case PeerActive => s'.(admin := s'.admin.(peerMux := MActive))
    case PeerUnknown => if s'.admin.health == Healthy then TogglePeerMux(s', MStandby) else s'
    case PeerWait => s'
  }

  function HandlePeerChange(s: State, l: PeerLabel): State {
    if s.peer.current == l then AcceptPeerChange(s, l) else s
  }

  // ----- activation -----

  function WithInit(s: State, init: InitBits): State {
    s.(admin := s.admin.(init := init))
  }

  function Post(s: State, ms: seq<Message>): State {
    s.(queue := s.queue + ms)
  }

  function ConfigMessages(modes: seq<Mode>): (ms: seq<Message>) {
    seq(|modes|, i requires 0 <= i < |modes| => DeferredMuxConfig(modes[i]))
  }

  /** The configuration handlers that waited for the activation go on the strand, in their order. */
  function NotifyWaiting(s: State): State {
    Post(s, ConfigMessages(s.admin.deferred)).(admin := s.admin.(deferred := []))
  }

  function StartProber(cfg: Config, s: State): State {
    var s1 := InitProber(s);
    var s2 := if cfg.defaultRouteFeature then ShutdownOrRestart(s1) else s1;
    NotifyWaiting(Emit(UpdateHealth(cfg, Emit(Emit(s2, InitializeProber), StartProbing)), SyncTimer))
  }

  function Activate(cfg: Config, s: State): State {
    if s.admin.init.All() then StartProber(cfg, s) else s
  }

  function HandleSoCIp(cfg: Config, s: State, changed: bool): State {
    if !s.admin.init.prober then Activate(cfg, WithInit(s, s.admin.init.(prober := true)))
    else if changed then Emit(s, UpdateEthernetFrame)
    else s
  }

  function EventFor(l: MuxLabel): seq<Message> {
    match l
    case MActive => [MuxEventMsg(ActiveEvent)]
    case MStandby => [MuxEventMsg(StandbyEvent)]
    case MUnknown => [MuxEventMsg(UnknownEvent)]
    case MError => [MuxEventMsg(ErrorEvent)]
    case MWait => []
  }

  /** Before the activation the mux settles on what it is reported to be, or waits for a probe. */
  function SettleMux(cfg: Config, s: State, l: MuxLabel): State {
    var s' := if l == MUnknown then EnterMux(ProbeMuxState(s), MWait) else EnterMux(s, l);
    Activate(cfg, WithInit(s', s.admin.init.(mux := true)))
  }

  function HandleMuxState(cfg: Config, s: State, l: MuxLabel): State {
    var s1 := s.(admin := s.admin.(lastNotification := FromToggle, lastMuxState := l));
    if s.admin.init.All() then
      UpdateHealth(cfg, Emit(Post(Emit(Emit(s1, ProbePeerTor), ResumeTx), EventFor(l)), SwitchingEnd(l)))
    else SettleMux(cfg, s1, l)
  }

  function HandleProbeMuxState(cfg: Config, s: State, l: MuxLabel): State {
    var s1 := s.(admin := s.admin.(lastNotification := FromProbe, lastMuxProbe := l));
    var s2 := if l == MActive || l == MStandby then ResetBackoff(s1) else s1;
    if s.admin.init.All() then Post(s2, EventFor(l)) else SettleMux(cfg, s2, l)
  }

  function HandleSwssLink(cfg: Config, s: State, l: LinkLabel): State {
    if s.admin.init.All() then Post(s, [LinkEventMsg(if l == LUp then UpEvent else DownEvent)])
    else Activate(cfg, WithInit(EnterLink(Emit(s, LinkForced(l)), l), s.admin.init.(link := true)))
  }

  // ----- the other notifications -----

  function ActOnMode(s: State, mode: Mode): State {
    if mode == ModeActive && s.comp.ms != MActive then SwitchMux(s, MActive, true)
    else if mode == ModeStandby && s.comp.ms != MStandby then SwitchMux(s, MStandby, true)
    else if mode == Auto && s.comp.ms == MUnknown then InitProber(s)
    else Transition(s, s.comp)
  }

  /** The mode is stored first; a port that is not active yet repeats the whole handler once it is. */
  function HandleMuxConfig(cfg: Config, s: State, mode: Mode): State {
    var s1 := s.(admin := s.admin.(mode := mode));
    ShutdownOrRestart(
      if s.admin.init.All() then UpdateHealth(cfg, ActOnMode(s1, mode))
      else s1.(admin := s1.admin.(deferred := s1.admin.deferred + [mode])))
  }

  function HandlePeerMuxState(s: State, l: MuxLabel): State {
    s.(admin := s.admin.(peerMux := l))
  }

  /** Without a default route the port steps back before its peer notices. */
  function RouteMissing(s: State): State {
    if s.admin.init.All() && s.admin.mode != ModeActive && s.admin.route == RouteNA then SwitchMux(s, MStandby, false) else s
  }

  /** A route that flaps faster than the prober notices resets the prober. */
  function RouteBack(s: State, was: DefaultRoute): State {
    if && s.admin.init.All() && was == RouteNA && s.admin.route == RouteOK
       && s.comp.ps == PActive && s.admin.mode == Auto
    then InitProber(s) else s
  }

  function HandleDefaultRoute(cfg: Config, s: State, r: DefaultRoute): State {
    UpdateHealth(cfg, RouteBack(RouteMissing(ShutdownOrRestart(s.(admin := s.admin.(route := r)))), s.admin.route))
  }

  function ProbeIfIdle(s: State): State {
    if s.admin.waitMux then s else ProbeMuxState(s)
  }

  // ----- timers -----

  function StopWaitMux(s: State): State {
    s.(admin := s.admin.(waitMux := false))
  }

  predicate Undetermined(l: MuxLabel) {
    l == MUnknown || l == MError || l == MWait
  }

  function HandleMuxProbeTimeout(s: State, success: bool): State {
    var s' := StopWaitMux(s);
    if !success then s'
    else if Undetermined(s.comp.ms) then StartMuxProbeTimer(DoubleBackoff(s'))
    else ResetBackoff(s')
  }

  function HandlePeerMuxWaitTimeout(s: State): State {
    if s.admin.lastSetPeerMux == MStandby then Emit(s, SendPeerProbeCommand) else s
  }

  function HandleAdminSync(s: State): State {
    Emit(ProbeIfIdle(s), SyncTimer)
  }

  // ----- steps and runs -----

  function RulesOf(cfg: Config): LinkProberState.Rules {
    LinkProberState.Rules(cfg.positiveRetry, cfg.negativeRetry, ActiveActiveCable, cfg.hardwareProber)
  }

  /** The strand runs its oldest message. */
  function Deliver(cfg: Config, s: State, m: Message): State {
    match m
    case ProberEventMsg(e) =>
      var p := LinkProberState.Handled(s.prober, e, RulesOf(cfg));
      Post(s.(prober := p), LinkProberState.Posted(s.prober, p))
    case PeerEventMsg(e) =>
      var p := LinkProberState.PeerHandled(s.peer, e, RulesOf(cfg));
      Post(s.(peer := p), LinkProberState.PeerPosted(s.peer, p))
    case MuxEventMsg(e) =>
      var m' := MuxState.Handled(s.mux, e, cfg.muxRetry);
      Post(s.(mux := m'), MuxState.Posted(s.mux, m'))
    case LinkEventMsg(e) =>
      var l := LinkState.Handled(s.link, e, cfg.linkRetry);
      Post(s.(link := l), LinkState.Posted(s.link, l))
    case SuspendTimerExpiredMsg => Post(s, [HandleSuspendTimerExpiry])
    case MuxProbeRequestMsg => Post(s, [HandleMuxProbeRequest])
    case ProberChange(l) => HandleProberChange(cfg, s, l)
    case PeerChange(l) => HandlePeerChange(s, l)
    case MuxChange(l) => HandleMuxChange(cfg, s, l)
    case LinkChange(l) => HandleLinkChange(cfg, s, l)
    case HandleSuspendTimerExpiry => Emit(s, ResumeTx)
    case HandleMuxProbeRequest => ProbeIfIdle(s)
    case DeferredMuxConfig(mode) => HandleMuxConfig(cfg, s, mode)
    case _ => s  // addressed to active-standby ports
  }

  datatype Step =
    | RunStrand
    // notifications
    | SoCIp(changed: bool)
    | MuxStateNotification(ms: MuxLabel)
    | ProbeMuxStateNotification(ms: MuxLabel)
    | ProbeMuxFailure(waitTimerExpired: bool)
    | PeerMuxState(ms: MuxLabel)
    | SwssLink(ls: LinkLabel)
    | MuxConfig(mode: Mode)
    | DefaultRouteState(present: bool)
    // the prober
    | Heartbeat(event: ProbeEvent)
    | PeerHeartbeat(peerEvent: PeerProbeEvent)
    | SuspendTimerExpired
    | MuxProbeRequestReceived
    // timers, expired or aborted
    | MuxProbeTimeout(success: bool)
    | MuxWaitTimeout
    | PeerMuxWaitTimeout
    | AdminSync

  function Next(cfg: Config, s: State, step: Step): State {
    match step
    case RunStrand => if s.queue == [] then s else Deliver(cfg, s.(queue := s.queue[1..]), s.queue[0])
    case SoCIp(changed) => HandleSoCIp(cfg, s, changed)
    case MuxStateNotification(l) => HandleMuxState(cfg, s, l)
    case ProbeMuxStateNotification(l) => HandleProbeMuxState(cfg, s, l)
    case ProbeMuxFailure(expired) => if expired then ProbeMuxState(s) else s
    case PeerMuxState(l) => HandlePeerMuxState(s, l)
    case SwssLink(l) => HandleSwssLink(cfg, s, l)
    case MuxConfig(mode) => HandleMuxConfig(cfg, s, mode)
    case DefaultRouteState(present) => HandleDefaultRoute(cfg, s, if present then RouteOK else RouteNA)
    case Heartbeat(e) => Post(s, [ProberEventMsg(e)])
    case PeerHeartbeat(e) => Post(s, [PeerEventMsg(e)])
    case SuspendTimerExpired => Post(s, [SuspendTimerExpiredMsg])
    case MuxProbeRequestReceived => Post(s, [MuxProbeRequestMsg])
    case MuxProbeTimeout(success) => HandleMuxProbeTimeout(s, success)
    case MuxWaitTimeout => StopWaitMux(s)
    case PeerMuxWaitTimeout => HandlePeerMuxWaitTimeout(s)
    case AdminSync => HandleAdminSync(s)
  }

  function Initial(): State {
    State(Composite(PWait, MWait, LDown),
          LinkProberState.Machine(PWait, LinkProberState.NO_COUNTS),
          LinkProberState.PeerMachine(PeerWait, LinkProberState.NO_PEER_COUNTS),
          MuxState.Initial(MWait),
          LinkState.Machine(LDown, 0),
          [],
          Admin(InitBits(false, false, false), Manual, [], RouteWait, PeerWait, MWait, MWait, MUnknown, MUnknown,
                NotReceived, 1, false, false, Uninitialized),
          Record(Pages(Empty, NO_OUTPUT), LinkmgrState(Uninitialized)))
  }

  /** The state that a sequence of steps leads to from construction. */
  function Run(cfg: Config, steps: seq<Step>): State {
    if steps == [] then Initial()
    else Next(cfg, Run(cfg, steps[..|steps| - 1]), steps[|steps| - 1])
  }
}
