/**
 What an active-active port owes for everything that happens to it: the outputs, one by one, and what is left
 in its fields, said as tables on labels.
 */
module ActiveActiveAnswers {
  import opened Labels
  import opened Strand
  import opened Logs
  import opened ActiveActiveSpec
  import MuxState
  import LinkState
  import LinkProberState

  /** A port without its log. */
  datatype Face = Face(
    comp: Composite,
    ps: ProberLabel,
    peer: PeerLabel,
    ms: MuxLabel,
    ls: LinkLabel,
    lastCause: WaitCause,
    queue: seq<Message>,
    admin: Admin
  )

  function FaceOf(s: State): Face {
    Face(s.comp, s.prober.current, s.peer.current, s.mux.current, s.link.current, s.mux.lastCause, s.queue, s.admin)
  }

  /** From `s` to `s'` exactly `outs` is put out, and `f` is left. */
  ghost predicate Puts(s: State, s': State, outs: seq<Output>, f: Face) {
    Outputs(s'.journal.log) == Outputs(s.journal.log) + outs && FaceOf(s') == f
  }

  /** What the mux sub-machine has counted is kept, or starts over. */
  predicate CountsKept(s: State, s': State) {
    s'.mux.counts == s.mux.counts || s'.mux.counts == MuxState.NO_COUNTS
  }

  ghost predicate Did(s: State, s': State, outs: seq<Output>, f: Face) {
    Puts(s, s', outs, f) && CountsKept(s, s')
  }

  lemma DidBoth(s: State, s1: State, s2: State, outs1: seq<Output>, outs2: seq<Output>, f1: Face, f2: Face)
    requires Did(s, s1, outs1, f1) && Did(s1, s2, outs2, f2)
    ensures Did(s, s2, outs1 + outs2, f2)
  {
  }

  lemma FaceIsLeft(s: State, s': State, outs: seq<Output>, f: Face)
    requires Did(s, s', outs, f)
    ensures FaceOf(s') == f
  {
  }

  lemma DidNothing(s: State)
    ensures Did(s, s, [], FaceOf(s))
  {
  }

  lemma EmitDoes(s: State, o: Output)
    ensures Did(s, Emit(s, o), [o], FaceOf(s))
  {
    hide Digest;
  }

  lemma EmitTwo(s: State, o1: Output, o2: Output)
    ensures Did(s, Emit(Emit(s, o1), o2), [o1, o2], FaceOf(s))
  {
    hide Digest, Emit, Did;
    EmitDoes(s, o1);
    EmitDoes(Emit(s, o1), o2);
    FaceIsLeft(s, Emit(s, o1), [o1], FaceOf(s));
    DidBoth(s, Emit(s, o1), Emit(Emit(s, o1), o2), [o1], [o2], FaceOf(s), FaceOf(s));
    assert [o1] + [o2] == [o1, o2];
  }

  lemma EmitThree(s: State, o1: Output, o2: Output, o3: Output)
    ensures Did(s, Emit(Emit(Emit(s, o1), o2), o3), [o1, o2, o3], FaceOf(s))
  {
    hide Digest, Emit, Did;
    var s2 := Emit(Emit(s, o1), o2);
    EmitTwo(s, o1, o2);
    FaceIsLeft(s, s2, [o1, o2], FaceOf(s));
    EmitDoes(s2, o3);
    DidBoth(s, s2, Emit(s2, o3), [o1, o2], [o3], FaceOf(s), FaceOf(s));
    assert [o1, o2] + [o3] == [o1, o2, o3];
  }

  // ----- asking and toggling -----

  const ASKING: seq<Output> := [ProbeMux, WaitTimer]

  /** The transceiver daemon has been asked; the composite stays. */
  function Asked(f: Face): Face {
    f.(lastCause := DriverUpdate, admin := f.admin.(waitMux := true))
  }

  function Toggling(l: MuxLabel, at: Circumstance): seq<Output> {
    (if l == MStandby then [SuspendTx] else []) + [SwitchingStart(l), Toggle(l, at), WaitTimer]
  }

  /** Orchagent has been asked for `l`, which the port shows at once. */
  function Toggled(f: Face, l: MuxLabel): Face {
    f.(comp := f.comp.(ms := l), ms := l, lastCause := SwssUpdate, admin := f.admin.(waitMux := true))
  }

  /** In manual mode nothing is toggled, in a pinned mode nothing but to the pinned label. */
  predicate Permits(mode: Mode, l: MuxLabel) {
    mode == Auto || mode == Detached || (mode == ModeActive && l == MActive) || (mode == ModeStandby && l == MStandby)
  }

  function Requesting(f: Face, l: MuxLabel, forced: bool): seq<Output> {
    if forced || Permits(f.admin.mode, l) then Toggling(l, Circumstance(f.comp, f.admin.mode, f.admin.health)) else ASKING
  }

  function Requested(f: Face, l: MuxLabel, forced: bool): Face {
    if forced || Permits(f.admin.mode, l) then Toggled(f, l) else Asked(f)
  }

  lemma ProbeMuxDoes(s: State)
    ensures Did(s, ProbeMuxState(s), ASKING, Asked(FaceOf(s)))
  {
    hide Emit;
    EmitTwo(StartWaitMux(SetCause(s, DriverUpdate)), ProbeMux, WaitTimer);
  }

  lemma ToggleMuxDoes(s: State, l: MuxLabel)
    ensures Did(s, ToggleMux(s, l), Toggling(l, Circumstance(s.comp, s.admin.mode, s.admin.health)),
                Toggled(FaceOf(s), l))
  {
    hide Emit;
    EmitDoes(s, SuspendTx);
    var s' := if l == MStandby then Emit(s, SuspendTx) else s;
    var at := Circumstance(s.comp, s.admin.mode, s.admin.health);
    EmitThree(StartWaitMux(SetCause(EnterMux(s', l), SwssUpdate)), SwitchingStart(l), Toggle(l, at), WaitTimer);
  }

  lemma SwitchMuxDoes(s: State, l: MuxLabel, force: bool)
    ensures Did(s, SwitchMux(s, l, force), Requesting(FaceOf(s), l, force), Requested(FaceOf(s), l, force))
  {
    hide ToggleMux, ProbeMuxState, Did, Toggled, Asked, Toggling;
    ToggleMuxDoes(s, l);
    ProbeMuxDoes(s);
  }

  lemma StartMuxProbeTimerDoes(s: State)
    ensures Did(s, StartMuxProbeTimer(s), ASKING + [Backoff(s.admin.probeFactor)], Asked(FaceOf(s)))
  {
    hide Emit, ProbeMuxState;
    ProbeMuxDoes(s);
    EmitDoes(ProbeMuxState(s), Backoff(s.admin.probeFactor));
  }

  // ----- labels that are forced -----

  /** The prober shows `l`, on both sides. */
  function Showing(f: Face, l: ProberLabel): Face {
    f.(comp := f.comp.(ps := l), ps := l)
  }

  /** An active mux has a server that is heard, a standby one a server that is not; any other leaves it open. */
  function Matching(l: MuxLabel): ProberLabel {
    if l == MActive then PActive else if l == MStandby then PUnknown else PWait
  }

  function ShowingPeer(f: Face, l: PeerLabel): Face {
    f.(peer := l, admin := f.admin.(peerProber := l))
  }

  function MatchingPeer(l: MuxLabel): PeerLabel {
    if l == MActive then PeerActive else if l == MStandby then PeerUnknown else PeerWait
  }

  lemma InitProberDoes(s: State)
    ensures Did(s, InitProber(s), [], Showing(FaceOf(s), Matching(s.comp.ms)))
  {
  }

  lemma InitPeerDoes(s: State)
    ensures Did(s, InitPeer(s), [], ShowingPeer(FaceOf(s), MatchingPeer(s.admin.peerMux)))
  {
  }

  // ----- health -----

  /** The mux is what orchagent last said, or what was last said of it is that it is unknown. */
  predicate MuxBelieved(c: Composite, a: Admin) {
    || c.ms == a.lastMuxState
    || a.lastMuxState == MUnknown
    || (a.lastNotification == FromProbe && a.lastMuxProbe == MUnknown)
  }

  /** Link up, server heard, mux believed, and the default route there where it matters. */
  predicate Well(cfg: Config, c: Composite, a: Admin) {
    && c.ls == LUp && c.ps == PActive && MuxBelieved(c, a)
    && (cfg.defaultRouteFeature ==> a.route == RouteOK)
  }

  function HealthBy(cfg: Config, f: Face): Health {
    if Well(cfg, f.comp, f.admin) then Healthy else Unhealthy
  }

  function HealthNotes(cfg: Config, f: Face): seq<Output> {
    if HealthBy(cfg, f) != f.admin.health then [LinkmgrState(HealthBy(cfg, f))] else []
  }

  function Reported(cfg: Config, f: Face): Face {
    f.(admin := f.admin.(health := HealthBy(cfg, f)))
  }

  lemma UpdateHealthDoes(cfg: Config, s: State)
    ensures Did(s, UpdateHealth(cfg, s), HealthNotes(cfg, FaceOf(s)), Reported(cfg, FaceOf(s)))
  {
    hide Emit;
    assert HealthBy(cfg, FaceOf(s)) == HealthOf(cfg, s);
    EmitDoes(s.(admin := s.admin.(health := HealthOf(cfg, s))), LinkmgrState(HealthOf(cfg, s)));
  }

  // ----- the table: what a port owes when it comes to a composite -----

  /** `Keep` holds a pinned mux against the prober, `AskOften` paces probes by the backoff. */
  datatype Answer = Rest | Request(ms: MuxLabel) | Keep(ms: MuxLabel) | AskOften

  /** The prober has just changed and decides, or leaves the mux to be asked for. */
  function DecideOrAsk(c: Composite, left: Composite, l: MuxLabel): Answer {
    if left.ps != c.ps then Request(l) else AskOften
  }

  /** A server that is heard wants the mux active. */
  function AnswerHeard(f: Face, left: Composite): Answer {
    if f.comp.ls == LDown then Rest
    else match f.comp.ms
      case MActive =>
        if f.admin.mode == ModeStandby then Keep(MStandby)
        else if f.admin.lastMuxState == MUnknown then Request(MActive)
        else Rest
      case MStandby =>
        if f.admin.mode == ModeStandby then Keep(MStandby)
        else if f.admin.route == RouteNA then Rest
        else Request(MActive)
      case MUnknown => DecideOrAsk(f.comp, left, MActive)
      case MError => AskOften
      case MWait => Request(MActive)
  }

  /** A server that is lost wants it standby. */
  function AnswerLost(f: Face, left: Composite): Answer {
    match f.comp.ms
    case MActive => if f.comp.ls == LUp && f.admin.mode == ModeActive then Keep(MActive) else Request(MStandby)
    case MStandby =>
      if f.comp.ls == LDown then Rest
      else if f.admin.mode == ModeActive then Keep(MActive)
      else if f.admin.lastMuxState == MUnknown then Request(MStandby)
      else Rest
    case MUnknown => DecideOrAsk(f.comp, left, MStandby)
    case MError => Rest
    case MWait => if f.comp.ls == LUp then Request(MStandby) else DecideOrAsk(f.comp, left, MStandby)
  }

  function AnswerOf(f: Face, left: Composite): Answer {
    if f.comp.ps == PActive then AnswerHeard(f, left)
    else if f.comp.ps == PUnknown then AnswerLost(f, left)
    else Rest
  }

  /** The last toggle was answered with the label, and no probe since says otherwise. */
  predicate Settled(a: Admin, l: MuxLabel) {
    a.lastMuxState == l && (a.lastNotification == FromProbe ==> a.lastMuxProbe == l)
  }

  function TableOutputs(f: Face, left: Composite): seq<Output> {
    match AnswerOf(f, left)
    case Rest => []
    case Request(l) => Requesting(f, l, false)
    case Keep(l) => if Settled(f.admin, l) then [] else Requesting(f, l, true)
    case AskOften => ASKING + [Backoff(f.admin.probeFactor)]
  }

  function TableFace(f: Face, left: Composite): Face {
    match AnswerOf(f, left)
    case Rest => f
    case Request(l) => Requested(f, l, false)
    case Keep(l) => if Settled(f.admin, l) then f else Requested(f, l, true)
    case AskOften => Asked(f)
  }

  /** Every entry of the table of transition functions gives the answer that the composite calls for. */
  lemma TransitionAnswers(s: State, left: Composite)
    ensures Did(s, Transition(s, left), TableOutputs(FaceOf(s), left), TableFace(FaceOf(s), left))
  {
    hide Did, SwitchMux, StartMuxProbeTimer, Requesting, Requested, Asked;
    DidNothing(s);
    StartMuxProbeTimerDoes(s);
    SwitchMuxDoes(s, MActive, false);
    SwitchMuxDoes(s, MActive, true);
    SwitchMuxDoes(s, MStandby, false);
    SwitchMuxDoes(s, MStandby, true);
  }

  // ----- what is owed for a message or a notification -----

  /** Outputs, in their order, and what is left. */
  datatype Duty = Duty(outs: seq<Output>, face: Face)

  ghost predicate Does(s: State, s': State, d: Duty) {
    Did(s, s', d.outs, d.face)
  }

  /** What is told of the health ends a duty. */
  function ThenReport(cfg: Config, d: Duty): Duty {
    Duty(d.outs + HealthNotes(cfg, d.face), Reported(cfg, d.face))
  }

  lemma ReportDoes(cfg: Config, s: State, s1: State, d: Duty)
    requires Does(s, s1, d)
    ensures Does(s, UpdateHealth(cfg, s1), ThenReport(cfg, d))
  {
    hide Did, UpdateHealth, HealthNotes, Reported;
    FaceIsLeft(s, s1, d.outs, d.face);
    UpdateHealthDoes(cfg, s1);
    DidBoth(s, s1, UpdateHealth(cfg, s1), d.outs, HealthNotes(cfg, d.face), d.face, Reported(cfg, d.face));
  }

  function Noted(f: Face, l: ProberLabel): Face {
    f.(comp := f.comp.(ps := l), admin := f.admin.(continuousUnknown := l == PUnknown))
  }

  /** The loss of the server is measured once, and so is its return. */
  function MetricNotes(f: Face, l: ProberLabel): seq<Output> {
    if f.admin.continuousUnknown && l != PUnknown then [PostProberMetric(LinkProberActiveStart)]
    else if !f.admin.continuousUnknown && l == PUnknown then [PostProberMetric(LinkProberUnknownStart)]
    else []
  }

  function ProberTaken(f: Face, l: ProberLabel): Duty {
    if f.ps == l then Duty(MetricNotes(f, l) + TableOutputs(Noted(f, l), f.comp), TableFace(Noted(f, l), f.comp))
    else Duty([], f)
  }

  function MuxTaken(f: Face, l: MuxLabel): Duty {
    var f1 := f.(comp := f.comp.(ms := l));
    if f.ms == l then Duty(TableOutputs(f1, f.comp), TableFace(f1, f.comp)) else Duty([], f)
  }

  /**
   A link that comes up puts the peer, and a prober that is not active, where the muxes are; one that falls under
   a mux that is not standby asks for standby; anything else is left to the table.
   */
  function LinkTaken(f: Face, l: LinkLabel): Duty {
    var f1 := f.(comp := f.comp.(ls := l));
    var f2 := ShowingPeer(f1, MatchingPeer(f.admin.peerMux));
    var mark := [LinkAccepted(l, Circumstance(f.comp, f.admin.mode, f.admin.health))];
    if f.ls != l then Duty([], f)
    else if f.comp.ls == LDown && l == LUp then
      if f.comp.ps == PActive then Duty(mark + TableOutputs(f2, f.comp), TableFace(f2, f.comp))
      else Duty(mark, Showing(f2, Matching(f.comp.ms)))
    else if f.comp.ls == LUp && l == LDown && f.comp.ms != MStandby then
      Duty(mark + Requesting(f1, MStandby, false), Requested(f1, MStandby, false))
    else Duty(mark + TableOutputs(f1, f.comp), TableFace(f1, f.comp))
  }

  /** A healthy port in auto mode sends a peer that it has lost to standby. */
  function PeerDuty(f: Face, l: PeerLabel): Duty {
    var f1 := ShowingPeer(f, l);
    if f.peer != l then Duty([], f)
    else if l == PeerActive then Duty([], f1.(admin := f1.admin.(peerMux := MActive)))
    else if l == PeerUnknown && f.admin.health == Healthy && f.admin.mode == Auto then
      Duty([TogglePeer(MStandby, Circumstance(f.comp, Auto, Healthy)), PeerWaitTimer],
           f1.(admin := f1.admin.(peerMux := MStandby, lastSetPeerMux := MStandby)))
    else Duty([], f1)
  }

  lemma AcceptProberDoes(s: State, l: ProberLabel)
    ensures var s' := if s.prober.current == l then AcceptProberChange(s, l) else s;
            Does(s, s', ProberTaken(FaceOf(s), l))
  {
    hide Emit, Transition, TableOutputs, TableFace;
    EmitDoes(s.(admin := s.admin.(continuousUnknown := l == PUnknown)), PostProberMetric(LinkProberActiveStart));
    EmitDoes(s.(admin := s.admin.(continuousUnknown := l == PUnknown)), PostProberMetric(LinkProberUnknownStart));
    TransitionAnswers(NoteProberChange(s, l).(comp := s.comp.(ps := l)), s.comp);
  }

  lemma AcceptMuxDoes(s: State, l: MuxLabel)
    ensures var s' := if s.mux.current == l then AcceptMuxChange(s, l) else s; Does(s, s', MuxTaken(FaceOf(s), l))
  {
    hide Transition, TableOutputs, TableFace;
    TransitionAnswers(s.(comp := s.comp.(ms := l)), s.comp);
  }

  lemma LinkUpDoes(s: State, left: Composite)
    ensures var f := ShowingPeer(FaceOf(s), MatchingPeer(s.admin.peerMux));
            if left.ps == PActive then Did(s, LinkCameUp(s, left), TableOutputs(f, left), TableFace(f, left))
            else Did(s, LinkCameUp(s, left), [], Showing(f, Matching(s.comp.ms)))
  {
    hide Transition, TableOutputs, TableFace, InitProber, InitPeer;
    InitPeerDoes(s);
    InitProberDoes(s);
    InitPeerDoes(InitProber(s));
    TransitionAnswers(InitPeer(s), left);
  }

  lemma AcceptLinkDoes(s: State, l: LinkLabel)
    ensures var s' := if s.link.current == l then AcceptLinkChange(s, l) else s; Does(s, s', LinkTaken(FaceOf(s), l))
  {
    hide Emit, Transition, LinkCameUp, SwitchMux, TableOutputs, TableFace, Requesting, Requested;
    var mark := LinkAccepted(l, Circumstance(s.comp, s.admin.mode, s.admin.health));
    var s1 := Emit(s, mark).(comp := s.comp.(ls := l));
    EmitDoes(s, mark);
    LinkUpDoes(s1, s.comp);
    SwitchMuxDoes(s1, MStandby, false);
    TransitionAnswers(s1, s.comp);
  }

  lemma PeerChangeDoes(s: State, l: PeerLabel)
    ensures Does(s, HandlePeerChange(s, l), PeerDuty(FaceOf(s), l))
  {
    hide Emit;
    var s1 := EnterPeer(s, l);
    var s2 := s1.(admin := s1.admin.(peerMux := MStandby, lastSetPeerMux := MStandby));
    EmitTwo(s2, TogglePeer(MStandby, Circumstance(s.comp, s.admin.mode, s.admin.health)), PeerWaitTimer);
  }

  // ----- configuration and the default route -----

  predicate AllUp(f: Face) {
    f.admin.init.prober && f.admin.init.mux && f.admin.init.link
  }

  /** In auto, detached and standby mode a port without a default route stays silent; any other active port sends. */
  function TransmitNotes(f: Face): seq<Output> {
    if !AllUp(f) then []
    else if f.admin.route != RouteOK && f.admin.mode != ModeActive && f.admin.mode != Manual then [ShutdownTx]
    else [RestartTx]
  }

  lemma ShutdownOrRestartDoes(s: State)
    ensures Did(s, ShutdownOrRestart(s), TransmitNotes(FaceOf(s)), FaceOf(s))
  {
    hide Digest;
  }

  function ThenTransmit(d: Duty): Duty {
    Duty(d.outs + TransmitNotes(d.face), d.face)
  }

  lemma TransmitDoes(s: State, s1: State, d: Duty)
    requires Does(s, s1, d)
    ensures Does(s, ShutdownOrRestart(s1), ThenTransmit(d))
  {
    hide Did, ShutdownOrRestart, TransmitNotes;
    FaceIsLeft(s, s1, d.outs, d.face);
    ShutdownOrRestartDoes(s1);
    DidBoth(s, s1, ShutdownOrRestart(s1), d.outs, TransmitNotes(d.face), d.face, d.face);
  }

  /** A pinned mode that the mux is not in is asked for; automatic mode over an unknown mux starts the prober over. */
  function ModeDuty(f: Face, mode: Mode): Duty {
    if mode == ModeActive && f.comp.ms != MActive then Duty(Requesting(f, MActive, true), Requested(f, MActive, true))
    else if mode == ModeStandby && f.comp.ms != MStandby then
      Duty(Requesting(f, MStandby, true), Requested(f, MStandby, true))
    else if mode == Auto && f.comp.ms == MUnknown then Duty([], Showing(f, PWait))
    else Duty(TableOutputs(f, f.comp), TableFace(f, f.comp))
  }

  /** The mode is in force first; a port that is not active yet keeps the configuration for later. */
  function MuxConfigDuty(cfg: Config, f: Face, mode: Mode): Duty {
    var f1 := f.(admin := f.admin.(mode := mode));
    ThenTransmit(
      if AllUp(f) then ThenReport(cfg, ModeDuty(f1, mode))
      else Duty([], f1.(admin := f1.admin.(deferred := f.admin.deferred + [mode]))))
  }

  lemma ActOnModeDoes(s: State, mode: Mode)
    ensures Does(s, ActOnMode(s, mode), ModeDuty(FaceOf(s), mode))
  {
    hide SwitchMux, Transition, TableOutputs, TableFace, Requesting, Requested, InitProber;
    SwitchMuxDoes(s, MActive, true);
    SwitchMuxDoes(s, MStandby, true);
    InitProberDoes(s);
    TransitionAnswers(s, s.comp);
  }

  lemma MuxConfigDoes(cfg: Config, s: State, mode: Mode)
    ensures Does(s, HandleMuxConfig(cfg, s, mode), MuxConfigDuty(cfg, FaceOf(s), mode))
  {
    hide ActOnMode, ModeDuty, ThenReport, ThenTransmit, UpdateHealth, ShutdownOrRestart;
    var s1 := s.(admin := s.admin.(mode := mode));
    var f1 := FaceOf(s1);
    if s.admin.init.All() {
      ActOnModeDoes(s1, mode);
      ReportDoes(cfg, s1, ActOnMode(s1, mode), ModeDuty(f1, mode));
      TransmitDoes(s1, UpdateHealth(cfg, ActOnMode(s1, mode)), ThenReport(cfg, ModeDuty(f1, mode)));
      SameStart(s, s1, HandleMuxConfig(cfg, s, mode), MuxConfigDuty(cfg, FaceOf(s), mode));
    } else {
      var s2 := s1.(admin := s1.admin.(deferred := s1.admin.deferred + [mode]));
      TransmitDoes(s, s2, Duty([], FaceOf(s2)));
    }
  }

  lemma SameStart(s: State, s1: State, s2: State, d: Duty)
    requires s1.journal == s.journal && s1.mux == s.mux && Does(s1, s2, d)
    ensures Does(s, s2, d)
  {
  }

  /** Outside the active mode a missing route sends the mux to standby. */
  function RouteLost(f: Face): Duty {
    if AllUp(f) && f.admin.mode != ModeActive && f.admin.route == RouteNA then
      Duty(Requesting(f, MStandby, false), Requested(f, MStandby, false))
    else Duty([], f)
  }

  /** A route that comes back under an active prober in auto mode puts the prober where the mux is. */
  function RouteBackFace(f: Face, was: DefaultRoute): Face {
    if && AllUp(f) && was == RouteNA && f.admin.route == RouteOK && f.comp.ps == PActive && f.admin.mode == Auto
    then Showing(f, Matching(f.comp.ms)) else f
  }

  function RouteDuty(cfg: Config, f: Face, route: DefaultRoute): Duty {
    var f1 := f.(admin := f.admin.(route := route));
    var lost := RouteLost(f1);
    ThenReport(cfg, Duty(TransmitNotes(f1) + lost.outs, RouteBackFace(lost.face, f.admin.route)))
  }

  lemma RouteMissingDoes(s: State)
    ensures Does(s, RouteMissing(s), RouteLost(FaceOf(s)))
  {
    hide SwitchMux, Requesting, Requested;
    SwitchMuxDoes(s, MStandby, false);
  }

  lemma DefaultRouteDoes(cfg: Config, s: State, route: DefaultRoute)
    ensures Does(s, HandleDefaultRoute(cfg, s, route), RouteDuty(cfg, FaceOf(s), route))
  {
    hide RouteMissing, RouteLost, RouteBackFace, ThenReport, UpdateHealth, ShutdownOrRestart, TransmitNotes;
    var s1 := s.(admin := s.admin.(route := route));
    var s2 := ShutdownOrRestart(s1);
    ShutdownOrRestartDoes(s1);
    RouteMissingDoes(s2);
    RouteBackDoes(RouteMissing(s2), s.admin.route);
    var lost := RouteLost(FaceOf(s1));
    ReportDoes(cfg, s, RouteBack(RouteMissing(s2), s.admin.route),
               Duty(TransmitNotes(FaceOf(s1)) + lost.outs, RouteBackFace(lost.face, s.admin.route)));
  }

  lemma RouteBackDoes(s: State, was: DefaultRoute)
    ensures Did(s, RouteBack(s, was), [], RouteBackFace(FaceOf(s), was))
  {
    hide InitProber;
    InitProberDoes(s);
  }

  // ----- timers and requests -----

  function Idle(f: Face): Face {
    f.(admin := f.admin.(waitMux := false))
  }

  function Paced(f: Face, factor: uint32): Face {
    f.(admin := f.admin.(probeFactor := factor))
  }

  /** A probe that ran out over a mux that is still not known is repeated, half as often. */
  function ProbeTimeoutDuty(f: Face, expired: bool): Duty {
    var f1, doubled := Idle(f), 2 * f.admin.probeFactor % 0x1_0000_0000;
    var slower := if doubled > 32 then 32 else doubled;
    if !expired then Duty([], f1)
    else if f.comp.ms == MActive || f.comp.ms == MStandby then Duty([], Paced(f1, 1))
    else Duty(ASKING + [Backoff(slower)], Asked(Paced(f1, slower)))
  }

  /** The daemon is asked unless an answer is still awaited. */
  function IdleDuty(f: Face): Duty {
    if f.admin.waitMux then Duty([], f) else Duty(ASKING, Asked(f))
  }

  lemma ProbeTimeoutDoes(s: State, expired: bool)
    ensures Does(s, HandleMuxProbeTimeout(s, expired), ProbeTimeoutDuty(FaceOf(s), expired))
  {
    hide StartMuxProbeTimer, Asked;
    StartMuxProbeTimerDoes(DoubleBackoff(StopWaitMux(s)));
  }

  lemma IdleDoes(s: State)
    ensures Does(s, ProbeIfIdle(s), IdleDuty(FaceOf(s)))
    ensures var d := IdleDuty(FaceOf(s)); Did(s, HandleAdminSync(s), d.outs + [SyncTimer], d.face)
  {
    hide Emit, ProbeMuxState, Asked;
    ProbeMuxDoes(s);
    EmitDoes(ProbeIfIdle(s), SyncTimer);
  }

  // ----- the components -----

  function Up(f: Face, init: InitBits): Face {
    f.(admin := f.admin.(init := init))
  }

  function Later(modes: seq<Mode>): seq<Message> {
    seq(|modes|, i requires 0 <= i < |modes| => DeferredMuxConfig(modes[i]))
  }

  /** The last component to come up starts the prober, where the mux is, and the configurations that have waited. */
  function ActivateDuty(cfg: Config, f: Face): Duty {
    if !AllUp(f) then Duty([], f)
    else
      var f1 := Showing(f, Matching(f.comp.ms));
      var started := (if cfg.defaultRouteFeature then TransmitNotes(f1) else []) + [InitializeProber, StartProbing];
      var d := ThenReport(cfg, Duty(started, f1));
      Duty(d.outs + [SyncTimer],
           d.face.(queue := f.queue + Later(f.admin.deferred), admin := d.face.admin.(deferred := [])))
  }

  function SoCIpDuty(cfg: Config, f: Face, changed: bool): Duty {
    if !f.admin.init.prober then ActivateDuty(cfg, Up(f, f.admin.init.(prober := true)))
    else Duty(if changed then [UpdateEthernetFrame] else [], f)
  }

  function SwssLinkDuty(cfg: Config, f: Face, l: LinkLabel): Duty {
    if AllUp(f) then Duty([], f.(queue := f.queue + [LinkEventMsg(if l == LUp then UpEvent else DownEvent)]))
    else
      var d := ActivateDuty(cfg, Up(f.(comp := f.comp.(ls := l), ls := l), f.admin.init.(link := true)));
      Duty([LinkForced(l)] + d.outs, d.face)
  }

  /** The event that reports a label. */
  function Reporting(l: MuxLabel): seq<Message> {
    if l == MActive then [MuxEventMsg(ActiveEvent)]
    else if l == MStandby then [MuxEventMsg(StandbyEvent)]
    else if l == MUnknown then [MuxEventMsg(UnknownEvent)]
    else if l == MError then [MuxEventMsg(ErrorEvent)]
    else []
  }

  /** Before the activation an unknown mux is asked for and waited for; any other label is taken as it is. */
  function SettleDuty(cfg: Config, f: Face, l: MuxLabel): Duty {
    var at := if l == MUnknown then MWait else l;
    var f1 := (if l == MUnknown then Asked(f) else f).(comp := f.comp.(ms := at), ms := at);
    var d := ActivateDuty(cfg, Up(f1, f.admin.init.(mux := true)));
    Duty((if l == MUnknown then ASKING else []) + d.outs, d.face)
  }

  function Told(f: Face, l: MuxLabel): Face {
    f.(admin := f.admin.(lastNotification := FromToggle, lastMuxState := l))
  }

  /** A probe that finds the mux decided ends the backoff. */
  function Probed(f: Face, l: MuxLabel): Face {
    f.(admin := f.admin.(lastNotification := FromProbe, lastMuxProbe := l,
                         probeFactor := if l == MActive || l == MStandby then 1 else f.admin.probeFactor))
  }

  function MuxStateDuty(cfg: Config, f: Face, l: MuxLabel): Duty {
    var f1 := Told(f, l);
    if AllUp(f) then
      ThenReport(cfg, Duty([ProbePeerTor, ResumeTx, SwitchingEnd(l)], f1.(queue := f.queue + Reporting(l))))
    else SettleDuty(cfg, f1, l)
  }

  function ProbeAnswerDuty(cfg: Config, f: Face, l: MuxLabel): Duty {
    var f1 := Probed(f, l);
    if AllUp(f) then Duty([], f1.(queue := f.queue + Reporting(l))) else SettleDuty(cfg, f1, l)
  }

  lemma StartProberDoes(cfg: Config, s: State)
    requires s.admin.init.All()
    ensures Does(s, StartProber(cfg, s), ActivateDuty(cfg, FaceOf(s)))
  {
    hide Emit, InitProber, UpdateHealth, ThenReport, ShutdownOrRestart, TransmitNotes;
    InitProberDoes(s);
    var s1 := InitProber(s);
    ShutdownOrRestartDoes(s1);
    var s2 := if cfg.defaultRouteFeature then ShutdownOrRestart(s1) else s1;
    EmitTwo(s2, InitializeProber, StartProbing);
    var s3 := Emit(Emit(s2, InitializeProber), StartProbing);
    var started := (if cfg.defaultRouteFeature then TransmitNotes(FaceOf(s1)) else []) + [InitializeProber, StartProbing];
    var d := Duty(started, FaceOf(s1));
    ReportDoes(cfg, s, s3, d);
    ReportKeeps(cfg, d);
    EmitDoes(UpdateHealth(cfg, s3), SyncTimer);
  }

  lemma ReportKeeps(cfg: Config, d: Duty)
    ensures var f := ThenReport(cfg, d).face;
            f.queue == d.face.queue && f.admin.deferred == d.face.admin.deferred && f.admin.init == d.face.admin.init
  {
  }

  lemma ActivateDoes(cfg: Config, s: State)
    ensures Does(s, Activate(cfg, s), ActivateDuty(cfg, FaceOf(s)))
  {
    hide StartProber, ThenReport;
    if s.admin.init.All() {
      StartProberDoes(cfg, s);
    }
  }

  lemma SoCIpDoes(cfg: Config, s: State, changed: bool)
    ensures Does(s, HandleSoCIp(cfg, s, changed), SoCIpDuty(cfg, FaceOf(s), changed))
  {
    hide Emit, Activate, ActivateDuty;
    ActivateDoes(cfg, WithInit(s, s.admin.init.(prober := true)));
    EmitDoes(s, UpdateEthernetFrame);
  }

  lemma SwssLinkDoes(cfg: Config, s: State, l: LinkLabel)
    ensures Does(s, HandleSwssLink(cfg, s, l), SwssLinkDuty(cfg, FaceOf(s), l))
  {
    hide Emit, Activate, ActivateDuty;
    EmitDoes(s, LinkForced(l));
    ActivateDoes(cfg, WithInit(EnterLink(Emit(s, LinkForced(l)), l), s.admin.init.(link := true)));
  }

  lemma SettleMuxDoes(cfg: Config, s: State, l: MuxLabel)
    ensures Does(s, SettleMux(cfg, s, l), SettleDuty(cfg, FaceOf(s), l))
  {
    hide ProbeMuxState, Activate, ActivateDuty;
    ProbeMuxDoes(s);
    var s' := if l == MUnknown then EnterMux(ProbeMuxState(s), MWait) else EnterMux(s, l);
    ActivateDoes(cfg, WithInit(s', s.admin.init.(mux := true)));
  }

  lemma MuxStateDoes(cfg: Config, s: State, l: MuxLabel)
    ensures Does(s, HandleMuxState(cfg, s, l), MuxStateDuty(cfg, FaceOf(s), l))
  {
    hide Emit, SettleMux, SettleDuty, UpdateHealth, ThenReport;
    var s1 := s.(admin := s.admin.(lastNotification := FromToggle, lastMuxState := l));
    if s.admin.init.All() {
      EmitTwo(s1, ProbePeerTor, ResumeTx);
      var s2 := Post(Emit(Emit(s1, ProbePeerTor), ResumeTx), EventFor(l));
      EmitDoes(s2, SwitchingEnd(l));
      assert [ProbePeerTor, ResumeTx] + [SwitchingEnd(l)] == [ProbePeerTor, ResumeTx, SwitchingEnd(l)];
      ReportDoes(cfg, s, Emit(s2, SwitchingEnd(l)), Duty([ProbePeerTor, ResumeTx, SwitchingEnd(l)], FaceOf(s2)));
    } else {
      SettleMuxDoes(cfg, s1, l);
    }
  }

  lemma ProbeAnswerDoes(cfg: Config, s: State, l: MuxLabel)
    ensures Does(s, HandleProbeMuxState(cfg, s, l), ProbeAnswerDuty(cfg, FaceOf(s), l))
  {
    hide SettleMux, SettleDuty;
    var s1 := s.(admin := s.admin.(lastNotification := FromProbe, lastMuxProbe := l));
    SettleMuxDoes(cfg, if l == MActive || l == MStandby then ResetBackoff(s1) else s1, l);
  }
}
