/**
 What the active-standby link manager does, as functions on its state: one per handler, the table of
 transition functions, and the steps and runs of the whole port.
 */
module ActiveStandbySpec {
  import opened Labels
  import opened Strand
  import opened Logs
  import MuxState
  import LinkState
  import LinkProberState

  const MAX_BACKOFF_FACTOR: uint32 := 128

  datatype SwitchCause =
    | PeerHeartbeatMissing
    | PeerLinkDown
    | TlvSwitchActiveCommand
    | LinkDown
    | TransceiverDaemonTimeout
    | MatchingHardwareState
    | ConfigMuxMode
    | HardwareStateUnknown
    | TimedOscillation

  /** The doubling factors: of heartbeat suspension and of the three kinds of repeated mux probing. */
  datatype BackoffKind = UnknownActiveUp | WaitStandbyUp | MuxUnknown | WaitActiveUp

  datatype ProberMetric = LinkProberUnknownStart | LinkProberWaitStart | LinkProberActiveStart | LinkProberStandbyStart

  /** What held when a toggle was requested. */
  datatype Circumstance = Circumstance(comp: Composite, mode: Mode, route: DefaultRoute, forced: bool)

  datatype Output =
    // to orchagent, the transceiver daemon and the databases
    | SwitchingStart(ms: MuxLabel)
    | SwitchingEnd(ms: MuxLabel)
    | Toggle(cause: SwitchCause, ms: MuxLabel, at: Circumstance)
    | InitialSet(ms: MuxLabel)
    | ProbeMux
    | GetMux
    | PostProberMetric(metric: ProberMetric)
    | LinkmgrState(health: Health)
    | WarmRestartReconciliation
    // to the prober
    | InitializeProber
    | StartProbing
    | UpdateEthernetFrame
    | ProbePeerTor
    | DetectLink
    | SuspendTx
    | ResumeTx
    | ShutdownTx
    | RestartTx
    | SendPeerSwitchCommand
    | DecreaseInterval
    | RevertInterval
    // timers
    | ProbeTimer(factor: uint32)
    | WaitTimer(factor: uint32)
    | OscillationTimer
    | Backoff(kind: BackoffKind, factor: uint32)
    // marks that nobody else sees
    | MuxAccepted(ms: MuxLabel)
    | MuxForced(ms: MuxLabel)
    | ModeSet(mode: Mode)
    | BackoffReset(kind: BackoffKind)

  /** The bookkeeping of the link manager itself. */
  datatype Admin = Admin(
    init: InitBits,
    mode: Mode,
    pending: bool,
    target: Mode,
    route: DefaultRoute,
    peerLink: LinkLabel,
    lastSet: MuxLabel,
    sendCause: Option<SwitchCause>,
    switchCommands: nat,
    oscillationAlive: bool,
    continuousUnknown: bool,
    health: Health
  )

  datatype Counters = Counters(
    waitActiveUp: uint32,
    activeUnknownUp: uint32,
    standbyUnknownUp: uint32,
    muxUnknownFactor: uint32,
    waitStandbyUpFactor: uint32,
    unknownActiveUpFactor: uint32
  )

  /** While a handler runs, `comp` is the composite that it is about to enter. */
  datatype State = State(
    comp: Composite,
    prober: LinkProberState.Machine,
    mux: MuxState.Machine,
    link: LinkState.Machine,
    queue: seq<Message>,
    admin: Admin,
    counters: Counters,
    journal: Journal
  )

  // ----- what the log amounts to -----

  /** The running totals of a log that the theorems are about. */
  datatype Summary = Summary(
    starts: nat,            // SwitchingStart posts
    ends: nat,              // SwitchingEnd posts
    endOpen: bool,          // the last of these was an end
    activeOpen: bool,       // an Active toggle has not been followed by a settled mux
    inits: nat,             // times the prober was initialised
    probings: nat,          // times probing was started
    unknownActiveUpUses: nat,
    waitStandbyUpUses: nat,
    muxUnknownUses: nat,
    waitActiveUpUses: nat,
    modes: seq<Mode>,       // the modes that were stored, in order
    ok: bool                // every output so far met its condition
  )

  /** The condition that each cause of a toggle has to meet. */
  predicate CauseMet(cause: SwitchCause, l: MuxLabel, at: Circumstance) {
    match cause
    case PeerHeartbeatMissing => l == MActive && at.route == RouteOK && at.comp == Composite(PWait, MStandby, LUp)
    case PeerLinkDown => l == MActive && at.route == RouteOK && at.comp == Composite(PWait, MStandby, LUp)
    case TlvSwitchActiveCommand => l == MActive && at.comp.ms != MActive && at.comp.ps == PWait
    case LinkDown => l == MStandby && at.comp.ms != MStandby && at.comp.ls == LDown
    case TransceiverDaemonTimeout => l == MStandby && at.comp.ms != MStandby && at.comp.ps == PWait
    case MatchingHardwareState => l == at.comp.ms && (l == MActive || l == MStandby)
    case ConfigMuxMode => (l == MActive || l == MStandby) && at.comp.ms != l && at.comp.ps == PWait
    case HardwareStateUnknown =>
      at.comp.ms == MUnknown && at.comp.ls == LUp
      && ((l == MActive && at.comp.ps == PActive) || (l == MStandby && at.comp.ps == PStandby))
    case TimedOscillation => l == MStandby && at.comp == Composite(PWait, MActive, LUp)
  }

  /** What holds of every toggle, whatever its cause. */
  predicate ToggleMet(cause: SwitchCause, l: MuxLabel, at: Circumstance) {
    && CauseMet(cause, l, at)
    && (l == MActive ==> at.comp.ms != MWait)
    && (at.mode != Auto ==> at.forced)
    && (at.mode != Auto && l == MActive ==> at.comp.ms == MActive)
  }

  /** min(2^k, 128) */
  function CappedFactor(k: nat): uint32 {
    Capped(MAX_BACKOFF_FACTOR, k)
  }

  /** The factor of a backoff that was used `k` times since its last reset; one kind counts its uses in 32 bits. */
  function FactorAfter(kind: BackoffKind, k: nat): uint32 {
    CappedFactor(if kind == WaitActiveUp then k % 0x1_0000_0000 else k)
  }

  /** A power of two within the cap. */
  predicate IsFactor(f: uint32) {
    f == 1 || f == 2 || f == 4 || f == 8 || f == 16 || f == 32 || f == 64 || f == MAX_BACKOFF_FACTOR
  }

  function UsesOf(t: Summary, kind: BackoffKind): nat {
    match kind
    case UnknownActiveUp => t.unknownActiveUpUses
    case WaitStandbyUp => t.waitStandbyUpUses
    case MuxUnknown => t.muxUnknownUses
    case WaitActiveUp => t.waitActiveUpUses
  }

  function WithUses(t: Summary, kind: BackoffKind, n: nat): Summary {
    match kind
    case UnknownActiveUp => t.(unknownActiveUpUses := n)
    case WaitStandbyUp => t.(waitStandbyUpUses := n)
    case MuxUnknown => t.(muxUnknownUses := n)
    case WaitActiveUp => t.(waitActiveUpUses := n)
  }

  function Digest(t: Summary, o: Output): Summary {
    match o
    case SwitchingStart(_) => t.(starts := t.starts + 1, endOpen := false)
    case SwitchingEnd(_) => t.(ends := t.ends + 1, endOpen := true, ok := t.ok && !t.endOpen && t.probings > 0)
    case Toggle(cause, l, at) =>
      t.(activeOpen := t.activeOpen || l == MActive,
         ok := t.ok && ToggleMet(cause, l, at) && (l == MActive ==> !t.activeOpen))
    case MuxAccepted(l) => t.(activeOpen := t.activeOpen && l == MWait)
    case MuxForced(l) => t.(activeOpen := t.activeOpen && l == MWait, ok := t.ok && t.probings == 0)
    case InitializeProber => t.(inits := t.inits + 1)
    case StartProbing => t.(probings := t.probings + 1)
    case ProbeTimer(f) => t.(ok := t.ok && IsFactor(f))
    case WaitTimer(f) => t.(ok := t.ok && IsFactor(f))
    case Backoff(kind, f) =>
      WithUses(t, kind, UsesOf(t, kind) + 1).(ok := t.ok && f == FactorAfter(kind, UsesOf(t, kind)))
    case BackoffReset(kind) => WithUses(t, kind, 0)
    case ModeSet(mode) => t.(modes := t.modes + [mode])
    case _ => t
  }

  const NO_OUTPUT := Summary(0, 0, false, false, 0, 0, 0, 0, 0, 0, [], true)

  function Summarize(log: Log<Output>): Summary {
    match log
    case Empty => NO_OUTPUT
    case After(earlier, o) => Digest(Summarize(earlier), o)
  }

  /** The outputs so far, with their running totals. */
  datatype Pages = Pages(log: Log<Output>, totals: Summary)

  type Journal = j: Pages | j.totals == Summarize(j.log) witness Pages(Empty, NO_OUTPUT)

  function Record(j: Journal, o: Output): Journal {
    Pages(After(j.log, o), Digest(j.totals, o))
  }

  function Emit(s: State, o: Output): State {
    s.(journal := Record(s.journal, o))
  }

  // ----- backoffs -----

  /** `1 << n` */
  function ShiftedOne(n: nat): uint32
    requires n <= 7
  {
    if n == 0 then 1 else 2 * ShiftedOne(n - 1) % 0x1_0000_0000
  }

  /** The factor that the next use has; the last kind keeps the count of its uses and shifts. */
  function FactorOf(c: Counters, kind: BackoffKind): uint32 {
    match kind
    case UnknownActiveUp => c.unknownActiveUpFactor
    case WaitStandbyUp => c.waitStandbyUpFactor
    case MuxUnknown => c.muxUnknownFactor
    case WaitActiveUp => if c.waitActiveUp > 7 then MAX_BACKOFF_FACTOR else ShiftedOne(c.waitActiveUp)
  }

  function Used(c: Counters, kind: BackoffKind): Counters {
    match kind
    case UnknownActiveUp => c.(unknownActiveUpFactor := Doubled(MAX_BACKOFF_FACTOR, c.unknownActiveUpFactor))
    case WaitStandbyUp => c.(waitStandbyUpFactor := Doubled(MAX_BACKOFF_FACTOR, c.waitStandbyUpFactor))
    case MuxUnknown => c.(muxUnknownFactor := Doubled(MAX_BACKOFF_FACTOR, c.muxUnknownFactor))
    case WaitActiveUp => c.(waitActiveUp := Inc32(c.waitActiveUp))
  }

  function Restarted(c: Counters, kind: BackoffKind): Counters {
    match kind
    case UnknownActiveUp => c.(unknownActiveUpFactor := 1)
    case WaitStandbyUp => c.(waitStandbyUpFactor := 1)
    case MuxUnknown => c.(muxUnknownFactor := 1)
    case WaitActiveUp => c.(waitActiveUp := 0)
  }

  function UseBackoff(s: State, kind: BackoffKind): State {
    Emit(s, Backoff(kind, FactorOf(s.counters, kind))).(counters := Used(s.counters, kind))
  }

  function ResetBackoff(s: State, kind: BackoffKind): State {
    Emit(s, BackoffReset(kind)).(counters := Restarted(s.counters, kind))
  }

  function ClearUnknownUps(s: State): State {
    s.(counters := s.counters.(activeUnknownUp := 0, standbyUnknownUp := 0))
  }

  // ----- forcing the sub-machines and the composite together -----

  function EnterProber(s: State, l: ProberLabel, forceReset: bool): State {
    var p := LinkProberState.Entered(s.prober, l, ActiveStandbyCable);
    var p' := if forceReset && s.comp.ps == l then LinkProberState.Cleared(p) else p;
    var s' := s.(prober := p', comp := s.comp.(ps := l));
    if l == PWait then Emit(s', PostProberMetric(LinkProberWaitStart)) else s'
  }

  function EnterMux(s: State, l: MuxLabel): State {
    s.(mux := MuxState.Entered(s.mux, l), comp := s.comp.(ms := l))
  }

  function EnterLink(s: State, l: LinkLabel): State {
    s.(link := LinkState.Entered(s.link, l), comp := s.comp.(ls := l))
  }

  function SetCause(s: State, cause: WaitCause): State {
    s.(mux := MuxState.SetCause(s.mux, cause))
  }

  /** Enter Wait and ask the transceiver daemon for the mux state. */
  function EnterMuxWait(s: State): State {
    Emit(Emit(SetCause(EnterMux(s, MWait), DriverUpdate), ProbeMux), WaitTimer(MAX_BACKOFF_FACTOR))
  }

  /** What a toggle tells the outside world. */
  function Announced(cfg: Config, s: State, cause: SwitchCause, l: MuxLabel, at: Circumstance): State {
    var s1 := Emit(Emit(s, SwitchingStart(l)), Toggle(cause, l, at));
    Emit(if cfg.switchoverMeasurement then Emit(s1, DecreaseInterval) else s1, WaitTimer(MAX_BACKOFF_FACTOR))
  }

  function ToggleNoted(s: State, l: MuxLabel): State {
    var s' := if l == MActive then ResetBackoff(s, WaitActiveUp) else s;
    s'.(admin := s'.admin.(lastSet := l))
  }

  function ToggleMux(cfg: Config, s: State, cause: SwitchCause, l: MuxLabel, force: bool): State {
    Announced(cfg, SetCause(EnterMux(ToggleNoted(s, l), MWait), SwssUpdate), cause, l,
              Circumstance(s.comp, s.admin.mode, s.admin.route, force))
  }

  /** Toggle the mux when forced or in auto mode, else probe it. */
  function SwitchMux(cfg: Config, s: State, cause: SwitchCause, l: MuxLabel, force: bool): State {
    if force || s.admin.mode == Auto then ToggleMux(cfg, s, cause, l, force) else EnterMuxWait(s)
  }

  function InitialProber(l: MuxLabel): ProberLabel {
    match l
    case MActive => PActive
    case MStandby => PStandby
    case MUnknown => PUnknown
    case MError => PWait
    case MWait => PWait
  }

  function InitProber(s: State, forceReset: bool): State {
    EnterProber(s, InitialProber(s.comp.ms), forceReset)
  }

  // ----- health, default route and oscillation timer -----

  function HealthOf(cfg: Config, s: State): Health {
    if && s.comp.ls == LUp
       && ((s.comp.ps == PActive && s.comp.ms == MActive) || (s.comp.ps == PStandby && s.comp.ms == MStandby))
       && (!cfg.defaultRouteFeature || s.admin.route == RouteOK)
    then Healthy else Unhealthy
  }

  function UpdateHealth(cfg: Config, s: State): State {
    var h := HealthOf(cfg, s);
    var s' := if h == Healthy then Emit(s, RevertInterval) else s;
    if s.admin.health == h then s' else Emit(s'.(admin := s.admin.(health := h)), LinkmgrState(h))
  }

  function ShutdownOrRestart(s: State): State {
    if !s.admin.init.All() then s
    else if (s.admin.mode == Auto || s.admin.mode == ModeStandby) && s.admin.route == RouteNA then Emit(s, ShutdownTx)
    else Emit(s, RestartTx)
  }

  function CancelOscillation(s: State): State {
    s.(admin := s.admin.(oscillationAlive := false))
  }

  // ----- the table of transition functions -----

  /** The prober has just become active or standby. */
  predicate ProberDecided(left: Composite, entered: Composite) {
    left.ps != entered.ps && (entered.ps == PActive || entered.ps == PStandby)
  }

  function ProbeNowOrLater(s: State, left: Composite): State {
    if ProberDecided(left, s.comp) then EnterMuxWait(s) else Emit(s, ProbeTimer(1))
  }

  function StartOscillation(s: State): State {
    if s.admin.oscillationAlive then s else Emit(s.(admin := s.admin.(oscillationAlive := true)), OscillationTimer)
  }

  function WaitActiveUpTransition(s: State): State {
    var s' := UseBackoff(s, WaitActiveUp);
    StartOscillation(if s.counters.waitActiveUp % 2 == 1 then Emit(s', SuspendTx) else s')
  }

  function UnknownStandbyUpTransition(cfg: Config, s: State): State {
    var s' := EnterProber(s, PWait, false);
    ResetBackoff(
      if s.admin.route == RouteOK then SwitchMux(cfg, s', PeerHeartbeatMissing, MActive, false) else EnterMuxWait(s'),
      WaitActiveUp)
  }

  function ActiveUnknownUpTransition(cfg: Config, s: State): State {
    var s' := s.(counters := s.counters.(activeUnknownUp := Inc32(s.counters.activeUnknownUp)));
    if s'.counters.activeUnknownUp == cfg.negativeRetry then SwitchMux(cfg, s', HardwareStateUnknown, MActive, false)
    else EnterMuxWait(s')
  }

  function StandbyUnknownUpTransition(cfg: Config, s: State, left: Composite): State {
    var s' := s.(counters := s.counters.(standbyUnknownUp := Inc32(s.counters.standbyUnknownUp)));
    if ProberDecided(left, s.comp) then EnterMuxWait(s')
    else if s'.counters.standbyUnknownUp == cfg.negativeRetry then
      SwitchMux(cfg, s', HardwareStateUnknown, MStandby, false)
    else Emit(s', ProbeTimer(1))
  }

  /** What entering the composite `s.comp` triggers, having left the composite `left`. */
  function Transition(cfg: Config, s: State, left: Composite): State {
    match s.comp
    case Composite(PStandby, MActive, LUp) => ProbeNowOrLater(s, left)
    case Composite(PActive, MStandby, LUp) => ProbeNowOrLater(s, left)
    case Composite(PUnknown, MActive, LUp) => ResetBackoff(UseBackoff(s, UnknownActiveUp), WaitActiveUp)
    case Composite(PUnknown, MStandby, LUp) => UnknownStandbyUpTransition(cfg, s)
    case Composite(PActive, MUnknown, LUp) => ActiveUnknownUpTransition(cfg, s)
    case Composite(PStandby, MUnknown, LUp) => StandbyUnknownUpTransition(cfg, s, left)
    case Composite(PUnknown, MUnknown, _) => UseBackoff(s, MuxUnknown)
    case Composite(PWait, MUnknown, _) => UseBackoff(s, MuxUnknown)
    case Composite(_, MError, LUp) => if ProberDecided(left, s.comp) then EnterMuxWait(s) else s
    case Composite(PWait, MActive, LUp) => WaitActiveUpTransition(s)
    case Composite(PWait, MStandby, LUp) => UseBackoff(s, WaitStandbyUp)
    case Composite(PUnknown, MActive, LDown) => Emit(s, ProbeTimer(1))
    case Composite(PUnknown, MStandby, LDown) => Emit(s, ProbeTimer(1))
    case Composite(PWait, MActive, LDown) => Emit(s, ProbeTimer(1))
    case Composite(PWait, MStandby, LDown) => Emit(s, ProbeTimer(1))
    case _ => s
  }

  // ----- changes reported by the sub-machines -----

  function NoteContinuousUnknown(s: State, l: ProberLabel): State {
    var s' := s.(admin := s.admin.(continuousUnknown := l == PUnknown));
    if l == PUnknown && !s.admin.continuousUnknown then Emit(s', PostProberMetric(LinkProberUnknownStart)) else s'
  }

  function NoteProberActive(s: State): State {
    var s' := Emit(s, PostProberMetric(LinkProberActiveStart));
    CancelOscillation(s'.(counters := s'.counters.(standbyUnknownUp := 0)))
  }

  function NoteProberStandby(s: State): State {
    var s' := Emit(s, PostProberMetric(LinkProberStandbyStart));
    CancelOscillation(s'.(counters := s'.counters.(activeUnknownUp := 0)))
  }

  function NoteProberChange(s: State, l: ProberLabel): State {
    var s' := NoteContinuousUnknown(s, l);
    match l
    case PActive => NoteProberActive(s')
    case PStandby => NoteProberStandby(s')
    case _ => s'
  }

  function AcceptProberChange(cfg: Config, s: State, l: ProberLabel): State {
    Transition(cfg, NoteProberChange(s, l).(comp := s.comp.(ps := l)), s.comp)
  }

  function HandleProberChange(cfg: Config, s: State, l: ProberLabel): State {
    var s1 := if s.prober.current == l then AcceptProberChange(cfg, s, l) else s;
    var s2 := if s1.comp.ps != PUnknown then ResetBackoff(Emit(s1, ResumeTx), UnknownActiveUp) else s1;
    UpdateHealth(cfg, s2)
  }

  function AcceptMuxChange(cfg: Config, s: State, l: MuxLabel): State {
    Transition(cfg, Emit(s, MuxAccepted(l)).(comp := s.comp.(ms := l)), s.comp)
  }

  /** A settled mux is compared with the hardware, and a deferred mode change is carried out. */
  function MuxSettled(cfg: Config, s: State): State {
    var s1 := Emit(s, GetMux);
    if s.admin.pending then
      var s2 := HandleMuxConfig(cfg, s1, s.admin.target);
      s2.(admin := s2.admin.(pending := false))
    else s1
  }

  function MuxChangeTaken(cfg: Config, s: State, l: MuxLabel): State {
    var s' := if s.mux.current == l then AcceptMuxChange(cfg, s, l) else s;
    if s'.comp.ms != MWait then MuxSettled(cfg, s') else s'
  }

  function HandleMuxChange(cfg: Config, s: State, l: MuxLabel): State {
    var s1 := MuxChangeTaken(cfg, s, l);
    var s2 := if l != MUnknown then ClearUnknownUps(ResetBackoff(s1, MuxUnknown)) else s1;
    UpdateHealth(cfg, if l == MStandby then CancelOscillation(s2) else s2)
  }

  function LinkCameUp(s: State): State {
    ResetBackoff(InitProber(s.(comp := s.comp.(ls := LUp)), true), MuxUnknown)
  }

  function LinkWentDown(cfg: Config, s: State): State {
    var s1 := SwitchMux(cfg, s.(comp := s.comp.(ls := LDown)), LinkDown, MStandby, false);
    var s2 := ResetBackoff(ClearUnknownUps(s1), WaitActiveUp);
    CancelOscillation(ResetBackoff(ResetBackoff(s2, WaitStandbyUp), UnknownActiveUp))
  }

  function AcceptLinkChange(cfg: Config, s: State, l: LinkLabel): State {
    if s.comp.ls == LDown && l == LUp then LinkCameUp(s)
    else if s.comp.ls == LUp && l == LDown && s.comp.ms != MStandby then LinkWentDown(cfg, s)
    else Transition(cfg, s.(comp := s.comp.(ls := l)), s.comp)
  }

  function HandleLinkChange(cfg: Config, s: State, l: LinkLabel): State {
    UpdateHealth(cfg, if s.link.current == l then AcceptLinkChange(cfg, s, l) else s)
  }

  // ----- activation -----

  function WithInit(s: State, init: InitBits): State {
    s.(admin := s.admin.(init := init))
  }

  function StartProber(cfg: Config, s: State): State {
    var s1 := InitProber(s, false);
    var s2 := if cfg.defaultRouteFeature then ShutdownOrRestart(s1) else s1;
    UpdateHealth(cfg, Emit(Emit(s2, InitializeProber), StartProbing))
  }

  function Activate(cfg: Config, s: State): State {
    var s1 := if s.admin.init.All() then StartProber(cfg, s) else s;
    if s.admin.init.prober && s.admin.init.mux then Emit(s1, WarmRestartReconciliation) else s1
  }

  function HandleBladeIp(cfg: Config, s: State, changed: bool): State {
    if !s.admin.init.prober then Activate(cfg, WithInit(s, s.admin.init.(prober := true)))
    else if changed then Emit(s, UpdateEthernetFrame)
    else s
  }

  function EventFor(l: MuxLabel): seq<Message> {
    match l
    case MActive => [MuxEventMsg(ActiveEvent)]
    case MStandby => [MuxEventMsg(StandbyEvent)]
    case MUnknown => [MuxEventMsg(UnknownEvent)]
    case MError => [MuxEventMsg(ErrorEvent)]
    case MWait => []
  }

  function Post(s: State, ms: seq<Message>): State {
    s.(queue := s.queue + ms)
  }

  /** The mux component settles on a label before the activation. */
  function SettleMux(cfg: Config, s: State, l: MuxLabel): State {
    Activate(cfg, WithInit(EnterMux(Emit(s, MuxForced(l)), l), s.admin.init.(mux := true)))
  }

  function HandleProbeMuxState(cfg: Config, s: State, l: MuxLabel): State {
    if s.admin.init.All() then Post(s, EventFor(l))
    else if l != MUnknown then Emit(SetCause(EnterMux(s, MWait), SwssUpdate), InitialSet(l))
    else SettleMux(cfg, s, l)
  }

  function HandleMuxState(cfg: Config, s: State, l: MuxLabel): State {
    if s.admin.init.All() then
      var s1 := Post(Emit(s, ProbePeerTor), EventFor(l));
      if s.mux.swssCause then Emit(s1, SwitchingEnd(l)).(mux := MuxState.ResetSwssCause(s.mux)) else s1
    else if l == MUnknown then EnterMuxWait(s)
    else SettleMux(cfg, s, l)
  }

  function HandleSwssLink(cfg: Config, s: State, l: LinkLabel): State {
    if s.admin.init.All() then Post(s, [LinkEventMsg(if l == LUp then UpEvent else DownEvent)])
    else Activate(cfg, WithInit(EnterLink(s, l), s.admin.init.(link := true)))
  }

  // ----- the other notifications -----

  function HandleGetMuxState(cfg: Config, s: State, l: MuxLabel): State {
    var held := s.comp.ms;
    if s.admin.init.All() && (held == MActive || held == MStandby) && (held != l || s.admin.lastSet != l) then
      SwitchMux(cfg, s, MatchingHardwareState, held, true)
    else s
  }

  function HandlePeerLink(cfg: Config, s: State, l: LinkLabel): State {
    var s1 := s.(admin := s.admin.(peerLink := l));
    if l == LDown && s.comp.ls == LUp && s.comp.ms == MStandby then
      var s2 := EnterProber(s1, PWait, false);
      if s.admin.route == RouteOK then SwitchMux(cfg, s2, PeerLinkDown, MActive, false) else s2
    else s1
  }

  function SendSwitchCommand(s: State, cause: SwitchCause): State {
    Emit(s.(admin := s.admin.(sendCause := Some(cause), switchCommands := s.admin.switchCommands + 1)), SendPeerSwitchCommand)
  }

  /** Whether a configured mode has to wait for the mux to settle. */
  predicate Deferred(s: State, mode: Mode) {
    s.admin.init.mux && mode != Auto && mode != Manual && s.comp.ms == MWait
  }

  function ActOnMode(cfg: Config, s: State, mode: Mode): State {
    if mode == ModeActive && s.comp.ms != MActive then
      SwitchMux(cfg, EnterProber(s, PWait, false), ConfigMuxMode, MActive, false)
    else if mode == ModeStandby && s.comp.ms != MStandby then SendSwitchCommand(s, ConfigMuxMode)
    else if s.comp.ls == LDown && s.comp.ms != MStandby then SwitchMux(cfg, s, LinkDown, MStandby, true)
    else Emit(s, ProbeTimer(1))
  }

  /** The handler acts under the old mode and stores the new one last. */
  function ApplyMode(cfg: Config, s: State, mode: Mode): State {
    var s1 := if s.admin.init.All() then UpdateHealth(cfg, ActOnMode(cfg, s, mode)) else s;
    ShutdownOrRestart(Emit(s1.(admin := s1.admin.(mode := mode)), ModeSet(mode)))
  }

  function HandleMuxConfig(cfg: Config, s: State, mode: Mode): State {
    if Deferred(s, mode) then s.(admin := s.admin.(pending := true, target := mode)) else ApplyMode(cfg, s, mode)
  }

  function HandleSuspendExpiry(s: State): State {
    if s.comp == Composite(PUnknown, MActive, LUp) then Emit(EnterMuxWait(s), DetectLink)
    else ResetBackoff(s, UnknownActiveUp)
  }

  /** A command to the peer was sent: this side goes standby. The stored cause is never missing in a run. */
  function SwitchCompleted(cfg: Config, s: State): State {
    if s.comp.ms != MStandby && s.admin.sendCause.Some? then
      SwitchMux(cfg, EnterProber(s, PWait, false), s.admin.sendCause.value, MStandby, true)
    else s
  }

  function SwitchRequested(cfg: Config, s: State): State {
    if s.comp.ms != MActive && s.comp.ms != MWait then
      SwitchMux(cfg, EnterProber(s, PWait, false), TlvSwitchActiveCommand, MActive, false)
    else s
  }

  function HandleDefaultRoute(cfg: Config, s: State, r: DefaultRoute): State {
    var s1 := if s.admin.route == RouteNA && r == RouteOK then InitProber(s, false) else s;
    UpdateHealth(cfg, ShutdownOrRestart(s1.(admin := s.admin.(route := r))))
  }

  function HandleResetSuspendTimer(s: State): State {
    if s.comp == Composite(PUnknown, MActive, LUp) then Emit(ResetBackoff(s, UnknownActiveUp), ResumeTx) else s
  }

  // ----- timers -----

  predicate ProbeIsDue(c: Composite) {
    || c.ps == PWait || c.ms == MUnknown || c.ls == LDown
    || (c.ps == PStandby && c.ms == MActive)
    || (c.ps == PActive && c.ms == MStandby)
  }

  function HandleMuxProbeTimeout(s: State, success: bool): State {
    var s1 := if s.comp == Composite(PWait, MStandby, LUp) then s else ResetBackoff(s, WaitStandbyUp);
    if success && ProbeIsDue(s.comp) then EnterMuxWait(s1) else s1
  }

  function HandleMuxWaitTimeout(s: State, success: bool): State {
    if success && s.mux.lastCause == DriverUpdate then SendSwitchCommand(s, TransceiverDaemonTimeout) else s
  }

  function HandleOscillationTimeout(cfg: Config, s: State, success: bool): State {
    var s1 := CancelOscillation(s);
    if cfg.oscillationEnabled && success && s.comp == Composite(PWait, MActive, LUp) then
      SwitchMux(cfg, s1, TimedOscillation, MStandby, false)
    else s1
  }

  // ----- steps and runs -----

  function RulesOf(cfg: Config): LinkProberState.Rules {
    LinkProberState.Rules(cfg.positiveRetry, cfg.negativeRetry, ActiveStandbyCable, cfg.hardwareProber)
  }

  /** The strand runs its oldest message. */
  function Deliver(cfg: Config, s: State, m: Message): State {
    match m
    case ProberEventMsg(e) =>
      var p := LinkProberState.Handled(s.prober, e, RulesOf(cfg));
      Post(s.(prober := p), LinkProberState.Posted(s.prober, p))
    case MuxEventMsg(e) =>
      var m' := MuxState.Handled(s.mux, e, cfg.muxRetry);
      Post(s.(mux := m'), MuxState.Posted(s.mux, m'))
    case LinkEventMsg(e) =>
      var l := LinkState.Handled(s.link, e, cfg.linkRetry);
      Post(s.(link := l), LinkState.Posted(s.link, l))
    case SuspendTimerExpiredMsg => Post(s, [HandleSuspendTimerExpiry])
    case SwitchCommandCompleteMsg => Post(s, [HandleSwitchCompletion])
    case SwitchRequestMsg => Post(s, [HandleSwitchRequest])
    case ProberChange(l) => HandleProberChange(cfg, s, l)
    case MuxChange(l) => HandleMuxChange(cfg, s, l)
    case LinkChange(l) => HandleLinkChange(cfg, s, l)
    case HandleSuspendTimerExpiry => HandleSuspendExpiry(s)
    case HandleSwitchCompletion => SwitchCompleted(cfg, s)
    case HandleSwitchRequest => SwitchRequested(cfg, s)
    case _ => s  // addressed to active-active ports
  }

  datatype Step =
    | RunStrand
    // notifications
    | BladeIp(changed: bool)
    | MuxStateNotification(ms: MuxLabel)
    | ProbeMuxState(ms: MuxLabel)
    | GetMuxState(ms: MuxLabel)
    | SwssLink(ls: LinkLabel)
    | PeerLink(ls: LinkLabel)
    | MuxConfig(mode: Mode)
    | DefaultRouteState(route: DefaultRoute)
    | ResetSuspendTimer
    // the prober
    | Heartbeat(event: ProbeEvent)
    | SuspendTimerExpired
    | SwitchCommandSent
    | SwitchRequestReceived
    // timers, expired or aborted
    | MuxProbeTimeout(success: bool)
    | MuxWaitTimeout(success: bool)
    | OscillationTimeout(success: bool)

  function Next(cfg: Config, s: State, step: Step): State {
    match step
    case RunStrand => if s.queue == [] then s else Deliver(cfg, s.(queue := s.queue[1..]), s.queue[0])
    case BladeIp(changed) => HandleBladeIp(cfg, s, changed)
    case MuxStateNotification(l) => HandleMuxState(cfg, s, l)
    case ProbeMuxState(l) => HandleProbeMuxState(cfg, s, l)
    case GetMuxState(l) => HandleGetMuxState(cfg, s, l)
    case SwssLink(l) => HandleSwssLink(cfg, s, l)
    case PeerLink(l) => HandlePeerLink(cfg, s, l)
    case MuxConfig(mode) => HandleMuxConfig(cfg, s, mode)
    case DefaultRouteState(r) => HandleDefaultRoute(cfg, s, r)
    case ResetSuspendTimer => HandleResetSuspendTimer(s)
    case Heartbeat(e) => Post(s, [ProberEventMsg(e)])
    case SuspendTimerExpired => Post(s, [SuspendTimerExpiredMsg])
    case SwitchCommandSent =>
      if s.admin.switchCommands == 0 then s
      else Post(s.(admin := s.admin.(switchCommands := s.admin.switchCommands - 1)), [SwitchCommandCompleteMsg])
    case SwitchRequestReceived => Post(s, [SwitchRequestMsg])
    case MuxProbeTimeout(success) => HandleMuxProbeTimeout(s, success)
    case MuxWaitTimeout(success) => HandleMuxWaitTimeout(s, success)
    case OscillationTimeout(success) => HandleOscillationTimeout(cfg, s, success)
  }

  function Initial(): State {
    State(Composite(PUnknown, MWait, LDown),
          LinkProberState.Machine(PUnknown, LinkProberState.NO_COUNTS),
          MuxState.SetCause(MuxState.Initial(MWait), SwssUpdate),
          LinkState.Machine(LDown, 0),
          [],
          Admin(InitBits(false, false, false), Manual, false, Auto, RouteWait, LDown, MWait, None, 0, false, false, Uninitialized),
          Counters(0, 0, 0, 1, 1, 1),
          Record(Pages(Empty, NO_OUTPUT), LinkmgrState(Uninitialized)))
  }

  /** The state that a sequence of steps leads to from construction. */
  function Run(cfg: Config, steps: seq<Step>): State {
    if steps == [] then Initial()
    else Next(cfg, Run(cfg, steps[..|steps| - 1]), steps[|steps| - 1])
  }
}
