/**
 What an active-standby port owes for everything that happens to it: the outputs, one by one, and what is
 left in its fields, said as tables on labels.
 */
module ActiveStandbyAnswers {
  import opened Labels
  import opened Strand
  import opened Logs
  import opened ActiveStandbySpec
  import MuxState
  import LinkState
  import LinkProberState

  /** A port without its log and its backoff counters. */
  datatype Face = Face(
    comp: Composite,
    ps: ProberLabel,
    ms: MuxLabel,
    ls: LinkLabel,
    swssCause: bool,
    lastCause: WaitCause,
    queue: seq<Message>,
    admin: Admin,
    activeUnknownUp: uint32,
    standbyUnknownUp: uint32
  )

  function FaceOf(s: State): Face {
    Face(s.comp, s.prober.current, s.mux.current, s.link.current, s.mux.swssCause, s.mux.lastCause, s.queue,
         s.admin, s.counters.activeUnknownUp, s.counters.standbyUnknownUp)
  }

  /** From `s` to `s'` exactly `outs` is put out, and `f` is left. */
  ghost predicate Puts(s: State, s': State, outs: seq<Output>, f: Face) {
    Outputs(s'.journal.log) == Outputs(s.journal.log) + outs && FaceOf(s') == f
  }

  /** What the mux sub-machine has counted is kept, or starts over. */
  predicate CountsKept(s: State, s': State) {
    s'.mux.counts == s.mux.counts || s'.mux.counts == MuxState.NO_COUNTS
  }

  ghost predicate Did(s: State, s': State, outs: seq<Output>, f: Face) {
    Puts(s, s', outs, f) && CountsKept(s, s')
  }

  lemma DidBoth(s: State, s1: State, s2: State, outs1: seq<Output>, outs2: seq<Output>, f1: Face, f2: Face)
    requires Did(s, s1, outs1, f1) && Did(s1, s2, outs2, f2)
    ensures Did(s, s2, outs1 + outs2, f2)
  {
  }

  lemma DidNothing(s: State)
    ensures Did(s, s, [], FaceOf(s))
  {
  }

  lemma EmitDoes(s: State, o: Output)
    ensures Did(s, Emit(s, o), [o], FaceOf(s))
  {
    hide Digest;
  }

  lemma EmitTwo(s: State, o1: Output, o2: Output)
    ensures Did(s, Emit(Emit(s, o1), o2), [o1, o2], FaceOf(s))
  {
    hide Digest, Emit, Did;
    EmitDoes(s, o1);
    EmitDoes(Emit(s, o1), o2);
    EmitFace(s, o1);
    DidBoth(s, Emit(s, o1), Emit(Emit(s, o1), o2), [o1], [o2], FaceOf(s), FaceOf(s));
    assert [o1] + [o2] == [o1, o2];
  }

  lemma EmitFace(s: State, o: Output)
    ensures FaceOf(Emit(s, o)) == FaceOf(s)
  {
  }

  // ----- asking and toggling -----

  const ASKING: seq<Output> := [ProbeMux, WaitTimer(128)]

  function Toggling(cfg: Config, cause: SwitchCause, l: MuxLabel, at: Circumstance): seq<Output> {
    (if l == MActive then [BackoffReset(WaitActiveUp)] else [])
    + [SwitchingStart(l), Toggle(cause, l, at)]
    + (if cfg.switchoverMeasurement then [DecreaseInterval] else [])
    + [WaitTimer(128)]
  }

  /** The transceiver daemon has been asked. */
  function Asked(f: Face): Face {
    f.(comp := f.comp.(ms := MWait), ms := MWait, lastCause := DriverUpdate)
  }

  /** Orchagent has been asked for `l`. */
  function Toggled(f: Face, l: MuxLabel): Face {
    f.(comp := f.comp.(ms := MWait), ms := MWait, lastCause := SwssUpdate, swssCause := true,
       admin := f.admin.(lastSet := l))
  }

  /** Outside auto mode only a forced request is a toggle; another one asks the daemon. */
  function Requesting(cfg: Config, f: Face, cause: SwitchCause, l: MuxLabel, forced: bool): seq<Output> {
    if forced || f.admin.mode == Auto then
      Toggling(cfg, cause, l, Circumstance(f.comp, f.admin.mode, f.admin.route, forced))
    else ASKING
  }

  function Requested(f: Face, l: MuxLabel, forced: bool): Face {
    if forced || f.admin.mode == Auto then Toggled(f, l) else Asked(f)
  }

  lemma EnterMuxWaitDoes(s: State)
    ensures Did(s, EnterMuxWait(s), ASKING, Asked(FaceOf(s)))
  {
    hide Record, Did;
    var s1 := SetCause(EnterMux(s, MWait), DriverUpdate);
    EmitTwo(s1, ProbeMux, WaitTimer(128));
    SameLog(s, s1, EnterMuxWait(s), ASKING, FaceOf(s1));
  }

  lemma SameLog(s: State, s1: State, s2: State, outs: seq<Output>, f: Face)
    requires s1.journal == s.journal && CountsKept(s, s1) && Did(s1, s2, outs, f)
    ensures Did(s, s2, outs, f)
  {
  }

  lemma ResetBackoffDoes(s: State, kind: BackoffKind)
    ensures Did(s, ResetBackoff(s, kind), [BackoffReset(kind)], FaceOf(s))
  {
    hide Digest;
  }

  lemma UseBackoffDoes(s: State, kind: BackoffKind)
    ensures Did(s, UseBackoff(s, kind), [Backoff(kind, FactorOf(s.counters, kind))], FaceOf(s))
  {
    hide Digest, FactorOf, Doubled;
  }

  lemma AnnouncedDoes(cfg: Config, s: State, cause: SwitchCause, l: MuxLabel, at: Circumstance)
    ensures Did(s, Announced(cfg, s, cause, l, at),
                [SwitchingStart(l), Toggle(cause, l, at)]
                + (if cfg.switchoverMeasurement then [DecreaseInterval] else []) + [WaitTimer(128)],
                FaceOf(s))
  {
    hide Digest, Did, Emit;
    var s1 := Emit(Emit(s, SwitchingStart(l)), Toggle(cause, l, at));
    EmitTwo(s, SwitchingStart(l), Toggle(cause, l, at));
    var outs := [SwitchingStart(l), Toggle(cause, l, at)];
    var s2 := if cfg.switchoverMeasurement then Emit(s1, DecreaseInterval) else s1;
    FaceIsLeft(s, s1, outs, FaceOf(s));
    EmitDoes(s1, DecreaseInterval);
    DidNothing(s1);
    var more: seq<Output> := if cfg.switchoverMeasurement then [DecreaseInterval] else [];
    DidBoth(s, s1, s2, outs, more, FaceOf(s), FaceOf(s));
    FaceIsLeft(s, s2, outs + more, FaceOf(s));
    EmitDoes(s2, WaitTimer(128));
    DidBoth(s, s2, Emit(s2, WaitTimer(128)), outs + more, [WaitTimer(128)], FaceOf(s), FaceOf(s));
  }

  lemma FaceIsLeft(s: State, s': State, outs: seq<Output>, f: Face)
    requires Did(s, s', outs, f)
    ensures FaceOf(s') == f
  {
  }

  lemma ToggleMuxDoes(cfg: Config, s: State, cause: SwitchCause, l: MuxLabel, force: bool)
    ensures Did(s, ToggleMux(cfg, s, cause, l, force),
                Toggling(cfg, cause, l, Circumstance(s.comp, s.admin.mode, s.admin.route, force)), Toggled(FaceOf(s), l))
  {
    hide Announced, Record;
    var at := Circumstance(s.comp, s.admin.mode, s.admin.route, force);
    ResetBackoffDoes(s, WaitActiveUp);
    var s1 := SetCause(EnterMux(ToggleNoted(s, l), MWait), SwssUpdate);
    AnnouncedDoes(cfg, s1, cause, l, at);
  }

  lemma SwitchMuxDoes(cfg: Config, s: State, cause: SwitchCause, l: MuxLabel, force: bool)
    ensures Did(s, SwitchMux(cfg, s, cause, l, force), Requesting(cfg, FaceOf(s), cause, l, force),
                Requested(FaceOf(s), l, force))
  {
    hide ToggleMux, EnterMuxWait, Did, Toggled, Asked, Toggling;
    ToggleMuxDoes(cfg, s, cause, l, force);
    EnterMuxWaitDoes(s);
  }

  // ----- the prober label that is forced -----

  function WaitNote(l: ProberLabel): seq<Output> {
    if l == PWait then [PostProberMetric(LinkProberWaitStart)] else []
  }

  /** The prober shows `l`, on both sides. */
  function Showing(f: Face, l: ProberLabel): Face {
    f.(comp := f.comp.(ps := l), ps := l)
  }

  /** A decided mux decides the prober; an unknown one leaves it unknown, and any other one waiting. */
  function Matching(l: MuxLabel): ProberLabel {
    if l == MActive then PActive
    else if l == MStandby then PStandby
    else if l == MUnknown then PUnknown
    else PWait
  }

  lemma EnterProberDoes(s: State, l: ProberLabel, force: bool)
    ensures Did(s, EnterProber(s, l, force), WaitNote(l), Showing(FaceOf(s), l))
  {
    hide Digest;
  }

  lemma InitProberDoes(s: State, force: bool)
    ensures Did(s, InitProber(s, force), WaitNote(Matching(s.comp.ms)), Showing(FaceOf(s), Matching(s.comp.ms)))
  {
    hide Did, EnterProber, Showing, WaitNote;
    EnterProberDoes(s, InitialProber(s.comp.ms), force);
  }

  // ----- health -----

  /** Link up, prober and mux decided alike, and the default route there where it matters. */
  predicate Well(cfg: Config, c: Composite, route: DefaultRoute) {
    && (c == Composite(PActive, MActive, LUp) || c == Composite(PStandby, MStandby, LUp))
    && (cfg.defaultRouteFeature ==> route == RouteOK)
  }

  function HealthBy(cfg: Config, f: Face): Health {
    if Well(cfg, f.comp, f.admin.route) then Healthy else Unhealthy
  }

  /** A healthy port probes at its usual interval again; a health that has changed is reported. */
  function HealthNotes(cfg: Config, f: Face): seq<Output> {
    var h := HealthBy(cfg, f);
    (if h == Healthy then [RevertInterval] else []) + (if h != f.admin.health then [LinkmgrState(h)] else [])
  }

  function Reported(cfg: Config, f: Face): Face {
    f.(admin := f.admin.(health := HealthBy(cfg, f)))
  }

  lemma UpdateHealthDoes(cfg: Config, s: State)
    ensures Did(s, UpdateHealth(cfg, s), HealthNotes(cfg, FaceOf(s)), Reported(cfg, FaceOf(s)))
  {
    hide Record;
    var h := HealthBy(cfg, FaceOf(s));
    assert h == HealthOf(cfg, s);
    var s1 := if h == Healthy then Emit(s, RevertInterval) else s;
    EmitDoes(s, RevertInterval);
    EmitDoes(s1.(admin := s1.admin.(health := h)), LinkmgrState(h));
  }

  // ----- the table: what a port owes when it comes to a composite -----

  /** The prober has just become active or standby. */
  predicate JustDecided(left: Composite, c: Composite) {
    left.ps != c.ps && (c.ps == PActive || c.ps == PStandby)
  }

  datatype Answer =
    | Rest
    | AskLater
    | AskNow
    | SlowDown(kind: BackoffKind)
    | TakeOver
    | RepeatToggle(ms: MuxLabel)
    | Silence
    | LongWait

  /** The table itself: `decided` says that the prober has just decided, `tried` that the mux was asked often enough. */
  function AnswerTo(c: Composite, decided: bool, tried: bool): Answer {
    if c.ls == LUp && c.ps == PUnknown && c.ms == MStandby then TakeOver
    else if c.ls == LUp && c.ps == PUnknown && c.ms == MActive then Silence
    else if c.ls == LUp && c.ps == PWait && c.ms == MActive then LongWait
    else if c.ls == LUp && c.ps == PWait && c.ms == MStandby then SlowDown(WaitStandbyUp)
    else if c.ms == MUnknown && (c.ps == PUnknown || c.ps == PWait) then SlowDown(MuxUnknown)
    else if c.ls == LUp && c.ms == MUnknown && c.ps == PActive then (if tried then RepeatToggle(MActive) else AskNow)
    else if c.ls == LUp && c.ms == MUnknown && c.ps == PStandby then
      (if decided then AskNow else if tried then RepeatToggle(MStandby) else AskLater)
    else if c.ls == LUp && (c == Composite(PStandby, MActive, LUp) || c == Composite(PActive, MStandby, LUp)) then
      (if decided then AskNow else AskLater)
    else if c.ls == LUp && c.ms == MError then (if decided then AskNow else Rest)
    else if c.ls == LDown && (c.ps == PUnknown || c.ps == PWait) && (c.ms == MActive || c.ms == MStandby) then AskLater
    else Rest
  }

  /** The mux has been found unknown under a decided prober as often as the negative retry count says. */
  predicate Tried(cfg: Config, f: Face) {
    || (f.comp.ps == PActive && (f.activeUnknownUp + 1) % 0x1_0000_0000 == cfg.negativeRetry)
    || (f.comp.ps == PStandby && (f.standbyUnknownUp + 1) % 0x1_0000_0000 == cfg.negativeRetry)
  }

  function AnswerOf(cfg: Config, f: Face, left: Composite): Answer {
    AnswerTo(f.comp, JustDecided(left, f.comp), Tried(cfg, f))
  }

  function TableOutputs(cfg: Config, k: Counters, f: Face, left: Composite): seq<Output> {
    match AnswerOf(cfg, f, left)
    case Rest => []
    case AskLater => [ProbeTimer(1)]
    case AskNow => ASKING
    case SlowDown(kind) => [Backoff(kind, FactorOf(k, kind))]
    case TakeOver =>
      [PostProberMetric(LinkProberWaitStart)]
      + (if f.admin.route == RouteOK then Requesting(cfg, Showing(f, PWait), PeerHeartbeatMissing, MActive, false)
         else ASKING)
      + [BackoffReset(WaitActiveUp)]
    case RepeatToggle(l) => Requesting(cfg, f, HardwareStateUnknown, l, false)
    case Silence => [Backoff(UnknownActiveUp, FactorOf(k, UnknownActiveUp)), BackoffReset(WaitActiveUp)]
    case LongWait =>
      [Backoff(WaitActiveUp, FactorOf(k, WaitActiveUp))]
      + (if k.waitActiveUp % 2 == 1 then [SuspendTx] else [])
      + (if f.admin.oscillationAlive then [] else [OscillationTimer])
  }

  /** An unknown mux under a decided prober is counted. */
  function UnknownCounted(f: Face): Face {
    if f.comp.ms == MUnknown && f.comp.ls == LUp && f.comp.ps == PActive then
      f.(activeUnknownUp := (f.activeUnknownUp + 1) % 0x1_0000_0000)
    else if f.comp.ms == MUnknown && f.comp.ls == LUp && f.comp.ps == PStandby then
      f.(standbyUnknownUp := (f.standbyUnknownUp + 1) % 0x1_0000_0000)
    else f
  }

  function TableFace(cfg: Config, f: Face, left: Composite): Face {
    var f' := UnknownCounted(f);
    match AnswerOf(cfg, f, left)
    case AskNow => Asked(f')
    case TakeOver =>
      if f.admin.route == RouteOK then Requested(Showing(f, PWait), MActive, false) else Asked(Showing(f, PWait))
    case RepeatToggle(l) => Requested(f', l, false)
    case LongWait => f.(admin := f.admin.(oscillationAlive := true))
    case _ => f'
  }

  lemma TakeOverDoes(cfg: Config, s: State)
    ensures var f := Showing(FaceOf(s), PWait);
            Did(s, UnknownStandbyUpTransition(cfg, s),
                [PostProberMetric(LinkProberWaitStart)]
                + (if f.admin.route == RouteOK then Requesting(cfg, f, PeerHeartbeatMissing, MActive, false) else ASKING)
                + [BackoffReset(WaitActiveUp)],
                if f.admin.route == RouteOK then Requested(f, MActive, false) else Asked(f))
  {
    hide Digest, SwitchMux, EnterMuxWait, Requesting, Requested, EnterProber, ResetBackoff;
    var s1 := EnterProber(s, PWait, false);
    EnterProberDoes(s, PWait, false);
    SwitchMuxDoes(cfg, s1, PeerHeartbeatMissing, MActive, false);
    EnterMuxWaitDoes(s1);
    ResetBackoffDoes(if s.admin.route == RouteOK then SwitchMux(cfg, s1, PeerHeartbeatMissing, MActive, false)
                     else EnterMuxWait(s1), WaitActiveUp);
  }

  lemma ActiveUnknownDoes(cfg: Config, s: State, left: Composite)
    requires s.comp == Composite(PActive, MUnknown, LUp)
    ensures Did(s, ActiveUnknownUpTransition(cfg, s), TableOutputs(cfg, s.counters, FaceOf(s), left),
                TableFace(cfg, FaceOf(s), left))
  {
    hide SwitchMux, EnterMuxWait, Requesting, Requested, Asked;
    var s1 := s.(counters := s.counters.(activeUnknownUp := Inc32(s.counters.activeUnknownUp)));
    SwitchMuxDoes(cfg, s1, HardwareStateUnknown, MActive, false);
    EnterMuxWaitDoes(s1);
    RequestingSame(cfg, FaceOf(s), FaceOf(s1), HardwareStateUnknown, MActive);
  }

  lemma StandbyUnknownDoes(cfg: Config, s: State, left: Composite)
    requires s.comp == Composite(PStandby, MUnknown, LUp)
    ensures Did(s, StandbyUnknownUpTransition(cfg, s, left), TableOutputs(cfg, s.counters, FaceOf(s), left),
                TableFace(cfg, FaceOf(s), left))
  {
    hide SwitchMux, EnterMuxWait, Emit, Requesting, Requested, Asked;
    var s1 := s.(counters := s.counters.(standbyUnknownUp := Inc32(s.counters.standbyUnknownUp)));
    SwitchMuxDoes(cfg, s1, HardwareStateUnknown, MStandby, false);
    EnterMuxWaitDoes(s1);
    EmitDoes(s1, ProbeTimer(1));
    RequestingSame(cfg, FaceOf(s), FaceOf(s1), HardwareStateUnknown, MStandby);
  }

  lemma RequestingSame(cfg: Config, f: Face, f': Face, cause: SwitchCause, l: MuxLabel)
    requires f'.comp == f.comp && f'.admin == f.admin
    ensures Requesting(cfg, f', cause, l, false) == Requesting(cfg, f, cause, l, false)
  {
  }

  lemma LongWaitDoes(s: State)
    ensures Did(s, WaitActiveUpTransition(s),
                [Backoff(WaitActiveUp, FactorOf(s.counters, WaitActiveUp))]
                + (if s.counters.waitActiveUp % 2 == 1 then [SuspendTx] else [])
                + (if s.admin.oscillationAlive then [] else [OscillationTimer]),
                FaceOf(s).(admin := s.admin.(oscillationAlive := true)))
  {
    hide Record, FactorOf, UseBackoff;
    var s1 := UseBackoff(s, WaitActiveUp);
    UseBackoffDoes(s, WaitActiveUp);
    EmitDoes(s1, SuspendTx);
    var s2 := if s.counters.waitActiveUp % 2 == 1 then Emit(s1, SuspendTx) else s1;
    EmitDoes(s2.(admin := s2.admin.(oscillationAlive := true)), OscillationTimer);
  }

  lemma SilenceDoes(s: State)
    ensures Did(s, ResetBackoff(UseBackoff(s, UnknownActiveUp), WaitActiveUp),
                [Backoff(UnknownActiveUp, FactorOf(s.counters, UnknownActiveUp)), BackoffReset(WaitActiveUp)], FaceOf(s))
  {
    hide Digest, UseBackoff, ResetBackoff, FactorOf;
    var s1 := UseBackoff(s, UnknownActiveUp);
    UseBackoffDoes(s, UnknownActiveUp);
    ResetBackoffDoes(s1, WaitActiveUp);
    assert [Backoff(UnknownActiveUp, FactorOf(s.counters, UnknownActiveUp))] + [BackoffReset(WaitActiveUp)]
           == [Backoff(UnknownActiveUp, FactorOf(s.counters, UnknownActiveUp)), BackoffReset(WaitActiveUp)];
  }

  /** Every entry of the table of transition functions gives the answer that the composite calls for. */
  lemma TransitionAnswers(cfg: Config, s: State, left: Composite)
    ensures Did(s, Transition(cfg, s, left), TableOutputs(cfg, s.counters, FaceOf(s), left),
                TableFace(cfg, FaceOf(s), left))
  {
    hide Did, EnterMuxWait, UseBackoff, ResetBackoff, Emit, FactorOf, Requesting, Requested, Asked;
    hide UnknownStandbyUpTransition, ActiveUnknownUpTransition, StandbyUnknownUpTransition, WaitActiveUpTransition;
    DidNothing(s);
    EmitDoes(s, ProbeTimer(1));
    EnterMuxWaitDoes(s);
    UseBackoffDoes(s, MuxUnknown);
    UseBackoffDoes(s, WaitStandbyUp);
    TakeOverDoes(cfg, s);
    SilenceDoes(s);
    LongWaitDoes(s);
    if s.comp == Composite(PActive, MUnknown, LUp) {
      ActiveUnknownDoes(cfg, s, left);
    } else if s.comp == Composite(PStandby, MUnknown, LUp) {
      StandbyUnknownDoes(cfg, s, left);
    }
  }

  // ----- what is owed for a message or a notification -----

  /** Outputs, in their order, and what is left. */
  datatype Duty = Duty(outs: seq<Output>, face: Face)

  ghost predicate Does(s: State, s': State, d: Duty) {
    Did(s, s', d.outs, d.face)
  }

  /** A prober that decides ends the oscillation and the count of unknown muxes on the other side. */
  function Noted(f: Face, l: ProberLabel): Face {
    f.(comp := f.comp.(ps := l),
       admin := f.admin.(continuousUnknown := l == PUnknown,
                         oscillationAlive := f.admin.oscillationAlive && l != PActive && l != PStandby),
       activeUnknownUp := if l == PStandby then 0 else f.activeUnknownUp,
       standbyUnknownUp := if l == PActive then 0 else f.standbyUnknownUp)
  }

  function MetricNotes(f: Face, l: ProberLabel): seq<Output> {
    (if l == PUnknown && !f.admin.continuousUnknown then [PostProberMetric(LinkProberUnknownStart)] else [])
    + (if l == PActive then [PostProberMetric(LinkProberActiveStart)]
       else if l == PStandby then [PostProberMetric(LinkProberStandbyStart)]
       else [])
  }

  /** A prober change is answered by the table; then a server that is not lost ends the silence. */
  function ProberChangeDuty(cfg: Config, k: Counters, f: Face, l: ProberLabel): Duty {
    var f1 := if f.ps == l then TableFace(cfg, Noted(f, l), f.comp) else f;
    Duty((if f.ps == l then MetricNotes(f, l) + TableOutputs(cfg, k, Noted(f, l), f.comp) else [])
         + (if f1.comp.ps != PUnknown then [ResumeTx, BackoffReset(UnknownActiveUp)] else [])
         + HealthNotes(cfg, f1),
         Reported(cfg, f1))
  }

  lemma NotedDoes(s: State, l: ProberLabel)
    ensures var s' := NoteProberChange(s, l).(comp := s.comp.(ps := l));
            Did(s, s', MetricNotes(FaceOf(s), l), Noted(FaceOf(s), l))
    ensures SameBackoffs(NoteProberChange(s, l).counters, s.counters)
  {
    hide Digest;
  }

  predicate SameBackoffs(k: Counters, k': Counters) {
    && k.waitActiveUp == k'.waitActiveUp && k.muxUnknownFactor == k'.muxUnknownFactor
    && k.waitStandbyUpFactor == k'.waitStandbyUpFactor && k.unknownActiveUpFactor == k'.unknownActiveUpFactor
  }

  lemma SameTable(cfg: Config, k: Counters, k': Counters, f: Face, left: Composite)
    requires SameBackoffs(k, k')
    ensures TableOutputs(cfg, k, f, left) == TableOutputs(cfg, k', f, left)
  {
    hide Requesting, AnswerOf;
  }

  lemma AcceptProberDoes(cfg: Config, s: State, l: ProberLabel)
    ensures var f := FaceOf(s);
            Did(s, AcceptProberChange(cfg, s, l), MetricNotes(f, l) + TableOutputs(cfg, s.counters, Noted(f, l), f.comp),
                TableFace(cfg, Noted(f, l), f.comp))
  {
    hide NoteProberChange, Transition, TableOutputs, TableFace, MetricNotes, Noted;
    var s1 := NoteProberChange(s, l).(comp := s.comp.(ps := l));
    NotedDoes(s, l);
    TransitionAnswers(cfg, s1, s.comp);
    SameTable(cfg, s.counters, s1.counters, FaceOf(s1), s.comp);
  }

  lemma ResumeDoes(s: State)
    ensures Did(s, if s.comp.ps != PUnknown then ResetBackoff(Emit(s, ResumeTx), UnknownActiveUp) else s,
                if s.comp.ps != PUnknown then [ResumeTx, BackoffReset(UnknownActiveUp)] else [], FaceOf(s))
  {
    hide Record, ResetBackoff;
    EmitDoes(s, ResumeTx);
    ResetBackoffDoes(Emit(s, ResumeTx), UnknownActiveUp);
    assert [ResumeTx] + [BackoffReset(UnknownActiveUp)] == [ResumeTx, BackoffReset(UnknownActiveUp)];
  }

  lemma ProberChangeDoes(cfg: Config, s: State, l: ProberLabel)
    ensures Does(s, HandleProberChange(cfg, s, l), ProberChangeDuty(cfg, s.counters, FaceOf(s), l))
  {
    hide Did, Emit, ResetBackoff, AcceptProberChange, UpdateHealth;
    hide TableOutputs, TableFace, MetricNotes, Noted, HealthNotes, Reported;
    var f := FaceOf(s);
    var f1 := if f.ps == l then TableFace(cfg, Noted(f, l), f.comp) else f;
    var taken := if f.ps == l then MetricNotes(f, l) + TableOutputs(cfg, s.counters, Noted(f, l), f.comp) else [];
    var s1 := if s.prober.current == l then AcceptProberChange(cfg, s, l) else s;
    AcceptProberDoes(cfg, s, l);
    DidNothing(s);
    FaceIsLeft(s, s1, taken, f1);
    ResumeDoes(s1);
    var s2 := if s1.comp.ps != PUnknown then ResetBackoff(Emit(s1, ResumeTx), UnknownActiveUp) else s1;
    var resumed := if f1.comp.ps != PUnknown then [ResumeTx, BackoffReset(UnknownActiveUp)] else [];
    DidBoth(s, s1, s2, taken, resumed, f1, f1);
    FaceIsLeft(s1, s2, resumed, f1);
    UpdateHealthDoes(cfg, s2);
    DidBoth(s, s2, UpdateHealth(cfg, s2), taken + resumed, HealthNotes(cfg, f1), f1, Reported(cfg, f1));
  }

  // ----- configuration and the default route -----

  /** In auto and standby mode a port without a default route stays silent; any other active port sends. */
  function TransmitNotes(f: Face): seq<Output> {
    if !(f.admin.init.prober && f.admin.init.mux && f.admin.init.link) then []
    else if f.admin.route == RouteNA && (f.admin.mode == Auto || f.admin.mode == ModeStandby) then [ShutdownTx]
    else [RestartTx]
  }

  lemma ShutdownOrRestartDoes(s: State)
    ensures Did(s, ShutdownOrRestart(s), TransmitNotes(FaceOf(s)), FaceOf(s))
  {
    hide Digest;
  }

  /** The peer is to be told to take over, for a cause that its answer will be taken with. */
  function Commanded(f: Face, cause: SwitchCause): Face {
    f.(admin := f.admin.(sendCause := Some(cause), switchCommands := f.admin.switchCommands + 1))
  }

  function ModeDuty(cfg: Config, f: Face, mode: Mode): Duty {
    if mode == ModeActive && f.comp.ms != MActive then
      var f1 := Showing(f, PWait);
      Duty([PostProberMetric(LinkProberWaitStart)] + Requesting(cfg, f1, ConfigMuxMode, MActive, false),
           Requested(f1, MActive, false))
    else if mode == ModeStandby && f.comp.ms != MStandby then Duty([SendPeerSwitchCommand], Commanded(f, ConfigMuxMode))
    else if f.comp.ls == LDown && f.comp.ms != MStandby then
      Duty(Requesting(cfg, f, LinkDown, MStandby, true), Requested(f, MStandby, true))
    else Duty([ProbeTimer(1)], f)
  }

  predicate AllUp(f: Face) {
    f.admin.init.prober && f.admin.init.mux && f.admin.init.link
  }

  function InMode(f: Face, mode: Mode): Face {
    f.(admin := f.admin.(mode := mode))
  }

  /** An active port acts under the mode that it leaves, and says how it is; then it is in the new mode. */
  function ConfigDuty(cfg: Config, f: Face, mode: Mode): Duty {
    var acted := ModeDuty(cfg, f, mode);
    var f1 := if AllUp(f) then Reported(cfg, acted.face) else f;
    Duty((if AllUp(f) then acted.outs + HealthNotes(cfg, acted.face) else [])
         + [ModeSet(mode)] + TransmitNotes(InMode(f1, mode)),
         InMode(f1, mode))
  }

  lemma ActOnModeDoes(cfg: Config, s: State, mode: Mode)
    ensures Does(s, ActOnMode(cfg, s, mode), ModeDuty(cfg, FaceOf(s), mode))
  {
    hide Digest, SwitchMux, EnterProber, Requesting, Requested;
    var s1 := EnterProber(s, PWait, false);
    EnterProberDoes(s, PWait, false);
    SwitchMuxDoes(cfg, s1, ConfigMuxMode, MActive, false);
    SwitchMuxDoes(cfg, s, LinkDown, MStandby, true);
  }

  lemma ApplyModeDoes(cfg: Config, s: State, mode: Mode)
    ensures Does(s, ApplyMode(cfg, s, mode), ConfigDuty(cfg, FaceOf(s), mode))
  {
    hide Did, Emit, ActOnMode, ModeDuty, UpdateHealth, HealthNotes, Reported, ShutdownOrRestart, TransmitNotes;
    var f, acted := FaceOf(s), ModeDuty(cfg, FaceOf(s), mode);
    var f1 := if AllUp(f) then Reported(cfg, acted.face) else f;
    var outs := if AllUp(f) then acted.outs + HealthNotes(cfg, acted.face) else [];
    var s1 := if s.admin.init.All() then UpdateHealth(cfg, ActOnMode(cfg, s, mode)) else s;
    ModeIsActedOn(cfg, s, mode);
    var s2 := Emit(s1.(admin := s1.admin.(mode := mode)), ModeSet(mode));
    ModeIsSet(s, s1, outs, f1, mode);
    FaceIsLeft(s, s2, outs + [ModeSet(mode)], InMode(f1, mode));
    ShutdownOrRestartDoes(s2);
    DidBoth(s, s2, ShutdownOrRestart(s2), outs + [ModeSet(mode)], TransmitNotes(InMode(f1, mode)), InMode(f1, mode),
            InMode(f1, mode));
  }

  lemma ModeIsActedOn(cfg: Config, s: State, mode: Mode)
    ensures var acted := ModeDuty(cfg, FaceOf(s), mode);
            var s1 := if s.admin.init.All() then UpdateHealth(cfg, ActOnMode(cfg, s, mode)) else s;
            Did(s, s1, if AllUp(FaceOf(s)) then acted.outs + HealthNotes(cfg, acted.face) else [],
                if AllUp(FaceOf(s)) then Reported(cfg, acted.face) else FaceOf(s))
  {
    hide Did, ActOnMode, ModeDuty, UpdateHealth, HealthNotes, Reported;
    var acted, s1 := ModeDuty(cfg, FaceOf(s), mode), ActOnMode(cfg, s, mode);
    ActOnModeDoes(cfg, s, mode);
    FaceIsLeft(s, s1, acted.outs, acted.face);
    UpdateHealthDoes(cfg, s1);
    DidBoth(s, s1, UpdateHealth(cfg, s1), acted.outs, HealthNotes(cfg, acted.face), acted.face, Reported(cfg, acted.face));
    DidNothing(s);
  }

  lemma ModeIsSet(s: State, s1: State, outs: seq<Output>, f: Face, mode: Mode)
    requires Did(s, s1, outs, f)
    ensures Did(s, Emit(s1.(admin := s1.admin.(mode := mode)), ModeSet(mode)), outs + [ModeSet(mode)], InMode(f, mode))
  {
    hide Emit;
    EmitDoes(s1.(admin := s1.admin.(mode := mode)), ModeSet(mode));
  }

  /** Over a waiting mux the modes that would move it are put off; only the last of them is remembered. */
  function MuxConfigDuty(cfg: Config, f: Face, mode: Mode): Duty {
    if f.admin.init.mux && f.comp.ms == MWait && mode != Auto && mode != Manual then
      Duty([], f.(admin := f.admin.(pending := true, target := mode)))
    else ConfigDuty(cfg, f, mode)
  }

  lemma MuxConfigDoes(cfg: Config, s: State, mode: Mode)
    ensures Does(s, HandleMuxConfig(cfg, s, mode), MuxConfigDuty(cfg, FaceOf(s), mode))
  {
    hide ApplyMode, ConfigDuty;
    ApplyModeDoes(cfg, s, mode);
  }

  /** A route that comes back puts the prober where the mux is. */
  function RouteDuty(cfg: Config, f: Face, route: DefaultRoute): Duty {
    var back := f.admin.route == RouteNA && route == RouteOK;
    var f1 := (if back then Showing(f, Matching(f.comp.ms)) else f).(admin := f.admin.(route := route));
    Duty((if back then WaitNote(Matching(f.comp.ms)) else []) + TransmitNotes(f1) + HealthNotes(cfg, f1),
         Reported(cfg, f1))
  }

  lemma DefaultRouteDoes(cfg: Config, s: State, route: DefaultRoute)
    ensures Does(s, HandleDefaultRoute(cfg, s, route), RouteDuty(cfg, FaceOf(s), route))
  {
    hide Did, UpdateHealth, HealthNotes, Reported, ShutdownOrRestart, TransmitNotes, InitProber, WaitNote, Showing;
    var back := s.admin.route == RouteNA && route == RouteOK;
    var s2 := (if back then InitProber(s, false) else s).(admin := s.admin.(route := route));
    var f := FaceOf(s);
    var f1 := (if back then Showing(f, Matching(f.comp.ms)) else f).(admin := f.admin.(route := route));
    var noted := if back then WaitNote(Matching(f.comp.ms)) else [];
    RouteIsNoted(s, route);
    FaceIsLeft(s, s2, noted, f1);
    ShutdownOrRestartDoes(s2);
    var s3 := ShutdownOrRestart(s2);
    DidBoth(s, s2, s3, noted, TransmitNotes(f1), f1, f1);
    FaceIsLeft(s2, s3, TransmitNotes(f1), f1);
    UpdateHealthDoes(cfg, s3);
    DidBoth(s, s3, UpdateHealth(cfg, s3), noted + TransmitNotes(f1), HealthNotes(cfg, f1), f1, Reported(cfg, f1));
  }

  lemma RouteIsNoted(s: State, route: DefaultRoute)
    ensures var back := s.admin.route == RouteNA && route == RouteOK;
            var f := FaceOf(s);
            Did(s, (if back then InitProber(s, false) else s).(admin := s.admin.(route := route)),
                if back then WaitNote(Matching(f.comp.ms)) else [],
                (if back then Showing(f, Matching(f.comp.ms)) else f).(admin := f.admin.(route := route)))
  {
    hide InitProber, WaitNote;
    InitProberDoes(s, false);
  }

  // ----- changes of the mux and of the link -----

  function MuxTaken(cfg: Config, k: Counters, f: Face, l: MuxLabel): Duty {
    var f1 := f.(comp := f.comp.(ms := l));
    if f.ms == l then Duty([MuxAccepted(l)] + TableOutputs(cfg, k, f1, f.comp), TableFace(cfg, f1, f.comp))
    else Duty([], f)
  }

  /** A mux that has settled is compared with the hardware, and a mode that was put off is carried out. */
  function SettledDuty(cfg: Config, f: Face): Duty {
    if f.comp.ms == MWait then Duty([], f)
    else if f.admin.pending then
      var d := ConfigDuty(cfg, f, f.admin.target);
      Duty([GetMux] + d.outs, d.face.(admin := d.face.admin.(pending := false)))
    else Duty([GetMux], f)
  }

  /** A mux that is not unknown ends the backoff and the counts of unknown ones, a standby one the oscillation. */
  function MuxKnown(f: Face, l: MuxLabel): Face {
    var f1 := if l != MUnknown then f.(activeUnknownUp := 0, standbyUnknownUp := 0) else f;
    if l == MStandby then f1.(admin := f1.admin.(oscillationAlive := false)) else f1
  }

  function MuxChangeDuty(cfg: Config, k: Counters, f: Face, l: MuxLabel): Duty {
    var taken := MuxTaken(cfg, k, f, l);
    var settled := SettledDuty(cfg, taken.face);
    var f1 := MuxKnown(settled.face, l);
    Duty(taken.outs + settled.outs + (if l != MUnknown then [BackoffReset(MuxUnknown)] else []) + HealthNotes(cfg, f1),
         Reported(cfg, f1))
  }

  lemma AcceptMuxDoes(cfg: Config, s: State, l: MuxLabel)
    requires s.mux.current == l
    ensures Does(s, AcceptMuxChange(cfg, s, l), MuxTaken(cfg, s.counters, FaceOf(s), l))
  {
    hide Record, Transition, TableOutputs, TableFace;
    EmitDoes(s, MuxAccepted(l));
    TransitionAnswers(cfg, Emit(s, MuxAccepted(l)).(comp := s.comp.(ms := l)), s.comp);
  }

  lemma MuxSettledDoes(cfg: Config, s: State)
    requires s.comp.ms != MWait
    ensures Does(s, MuxSettled(cfg, s), SettledDuty(cfg, FaceOf(s)))
  {
    hide Record, ApplyMode, ConfigDuty;
    EmitDoes(s, GetMux);
    ApplyModeDoes(cfg, Emit(s, GetMux), s.admin.target);
  }

  lemma MuxKnownDoes(s: State, l: MuxLabel)
    ensures var s1 := if l != MUnknown then ClearUnknownUps(ResetBackoff(s, MuxUnknown)) else s;
            Did(s, if l == MStandby then CancelOscillation(s1) else s1,
                if l != MUnknown then [BackoffReset(MuxUnknown)] else [], MuxKnown(FaceOf(s), l))
  {
    hide Record, ResetBackoff;
    ResetBackoffDoes(s, MuxUnknown);
  }

  lemma MuxChangeDoes(cfg: Config, s: State, l: MuxLabel)
    ensures Does(s, HandleMuxChange(cfg, s, l), MuxChangeDuty(cfg, s.counters, FaceOf(s), l))
  {
    hide Did, ResetBackoff, ClearUnknownUps, CancelOscillation, MuxChangeTaken, UpdateHealth;
    hide MuxTaken, SettledDuty, MuxKnown, HealthNotes, Reported;
    var settled := SettledDuty(cfg, MuxTaken(cfg, s.counters, FaceOf(s), l).face);
    var taken := MuxTaken(cfg, s.counters, FaceOf(s), l).outs + settled.outs;
    MuxTakenDoes(cfg, s, l);
    var s1 := MuxChangeTaken(cfg, s, l);
    FaceIsLeft(s, s1, taken, settled.face);
    MuxKnownDoes(s1, l);
    var s2 := if l != MUnknown then ClearUnknownUps(ResetBackoff(s1, MuxUnknown)) else s1;
    var s3 := if l == MStandby then CancelOscillation(s2) else s2;
    var known := if l != MUnknown then [BackoffReset(MuxUnknown)] else [];
    var f1 := MuxKnown(settled.face, l);
    DidBoth(s, s1, s3, taken, known, settled.face, f1);
    FaceIsLeft(s1, s3, known, f1);
    UpdateHealthDoes(cfg, s3);
    DidBoth(s, s3, UpdateHealth(cfg, s3), taken + known, HealthNotes(cfg, f1), f1, Reported(cfg, f1));
  }

  lemma MuxTakenDoes(cfg: Config, s: State, l: MuxLabel)
    ensures var taken := MuxTaken(cfg, s.counters, FaceOf(s), l);
            var settled := SettledDuty(cfg, taken.face);
            Did(s, MuxChangeTaken(cfg, s, l), taken.outs + settled.outs, settled.face)
  {
    hide AcceptMuxChange, MuxSettled, ConfigDuty, TableOutputs, TableFace;
    var s1 := if s.mux.current == l then AcceptMuxChange(cfg, s, l) else s;
    if s.mux.current == l {
      AcceptMuxDoes(cfg, s, l);
    }
    if s1.comp.ms != MWait {
      MuxSettledDoes(cfg, s1);
    }
  }

  /** A link that falls under a mux that is not standby gives the server up: the backoffs start over. */
  function LinkFallDuty(cfg: Config, f: Face): Duty {
    var f1 := f.(comp := f.comp.(ls := LDown));
    var f2 := Requested(f1, MStandby, false);
    Duty(Requesting(cfg, f1, LinkDown, MStandby, false)
         + [BackoffReset(WaitActiveUp), BackoffReset(WaitStandbyUp), BackoffReset(UnknownActiveUp)],
         f2.(admin := f2.admin.(oscillationAlive := false), activeUnknownUp := 0, standbyUnknownUp := 0))
  }

  /** A link that comes up puts the prober where the mux is. */
  function LinkTaken(cfg: Config, k: Counters, f: Face, l: LinkLabel): Duty {
    var f1 := f.(comp := f.comp.(ls := l));
    if f.comp.ls == LDown && l == LUp then
      Duty(WaitNote(Matching(f.comp.ms)) + [BackoffReset(MuxUnknown)], Showing(f1, Matching(f.comp.ms)))
    else if f.comp.ls == LUp && l == LDown && f.comp.ms != MStandby then LinkFallDuty(cfg, f)
    else Duty(TableOutputs(cfg, k, f1, f.comp), TableFace(cfg, f1, f.comp))
  }

  function LinkChangeDuty(cfg: Config, k: Counters, f: Face, l: LinkLabel): Duty {
    var taken := if f.ls == l then LinkTaken(cfg, k, f, l) else Duty([], f);
    Duty(taken.outs + HealthNotes(cfg, taken.face), Reported(cfg, taken.face))
  }

  lemma LinkWentDownDoes(cfg: Config, s: State)
    ensures Does(s, LinkWentDown(cfg, s), LinkFallDuty(cfg, FaceOf(s)))
  {
    hide Record, SwitchMux, Requesting, Requested;
    var s0 := s.(comp := s.comp.(ls := LDown));
    SwitchMuxDoes(cfg, s0, LinkDown, MStandby, false);
    var s1 := ClearUnknownUps(SwitchMux(cfg, s0, LinkDown, MStandby, false));
    ResetBackoffDoes(s1, WaitActiveUp);
    var s2 := ResetBackoff(s1, WaitActiveUp);
    ResetBackoffDoes(s2, WaitStandbyUp);
    var s3 := ResetBackoff(s2, WaitStandbyUp);
    ResetBackoffDoes(s3, UnknownActiveUp);
    assert [BackoffReset(WaitActiveUp)] + [BackoffReset(WaitStandbyUp)] + [BackoffReset(UnknownActiveUp)]
           == [BackoffReset(WaitActiveUp), BackoffReset(WaitStandbyUp), BackoffReset(UnknownActiveUp)];
  }

  lemma AcceptLinkDoes(cfg: Config, s: State, l: LinkLabel)
    ensures Does(s, AcceptLinkChange(cfg, s, l), LinkTaken(cfg, s.counters, FaceOf(s), l))
  {
    hide Record, Transition, TableOutputs, TableFace, LinkWentDown, LinkFallDuty, InitProber, ResetBackoff, WaitNote;
    LinkWentDownDoes(cfg, s);
    var s1 := s.(comp := s.comp.(ls := l));
    TransitionAnswers(cfg, s1, s.comp);
    InitProberDoes(s1, true);
    ResetBackoffDoes(InitProber(s1, true), MuxUnknown);
  }

  lemma LinkChangeDoes(cfg: Config, s: State, l: LinkLabel)
    ensures Does(s, HandleLinkChange(cfg, s, l), LinkChangeDuty(cfg, s.counters, FaceOf(s), l))
  {
    hide AcceptLinkChange, LinkTaken, UpdateHealth, HealthNotes, Reported;
    AcceptLinkDoes(cfg, s, l);
    UpdateHealthDoes(cfg, if s.link.current == l then AcceptLinkChange(cfg, s, l) else s);
  }

  // ----- requests of the prober, checks and timers -----

  /** A server that has been silent for the time of the suspension is asked for, heartbeats and mux alike. */
  function SuspendExpiryDuty(f: Face): Duty {
    if f.comp == Composite(PUnknown, MActive, LUp) then Duty(ASKING + [DetectLink], Asked(f))
    else Duty([BackoffReset(UnknownActiveUp)], f)
  }

  /** The peer has been told to take over: this side gives the mux up, whatever the mode. */
  function CompletionDuty(cfg: Config, f: Face): Duty {
    if f.comp.ms != MStandby && f.admin.sendCause.Some? then
      var f1 := Showing(f, PWait);
      Duty([PostProberMetric(LinkProberWaitStart)] + Requesting(cfg, f1, f.admin.sendCause.value, MStandby, true),
           Requested(f1, MStandby, true))
    else Duty([], f)
  }

  /** The peer tells this side to take over. */
  function RequestDuty(cfg: Config, f: Face): Duty {
    if f.comp.ms != MActive && f.comp.ms != MWait then
      var f1 := Showing(f, PWait);
      Duty([PostProberMetric(LinkProberWaitStart)] + Requesting(cfg, f1, TlvSwitchActiveCommand, MActive, false),
           Requested(f1, MActive, false))
    else Duty([], f)
  }

  /** The hardware, or what was last asked for, is not what the port believes: it asks for its belief again. */
  function CheckDuty(cfg: Config, f: Face, l: MuxLabel): Duty {
    var held := f.comp.ms;
    if AllUp(f) && (held == MActive || held == MStandby) && (held != l || f.admin.lastSet != l) then
      Duty(Requesting(cfg, f, MatchingHardwareState, held, true), Requested(f, held, true))
    else Duty([], f)
  }

  /** The peer's link has fallen: a standby side over a link of its own takes over, given a default route. */
  function PeerLinkDuty(cfg: Config, f: Face, l: LinkLabel): Duty {
    var f1 := f.(admin := f.admin.(peerLink := l));
    if l == LDown && f.comp.ls == LUp && f.comp.ms == MStandby then
      var f2 := Showing(f1, PWait);
      if f.admin.route == RouteOK then
        Duty([PostProberMetric(LinkProberWaitStart)] + Requesting(cfg, f2, PeerLinkDown, MActive, false),
             Requested(f2, MActive, false))
      else Duty([PostProberMetric(LinkProberWaitStart)], f2)
    else Duty([], f1)
  }

  /** A probe of the mux is due where prober, mux or link leave a doubt. */
  predicate InDoubt(c: Composite) {
    || c.ps == PWait || c.ms == MUnknown || c.ls == LDown
    || (c.ps == PStandby && c.ms == MActive) || (c.ps == PActive && c.ms == MStandby)
  }

  function ProbeTimeoutDuty(f: Face, expired: bool): Duty {
    var waits := f.comp == Composite(PWait, MStandby, LUp);
    Duty((if waits then [] else [BackoffReset(WaitStandbyUp)]) + (if expired && InDoubt(f.comp) then ASKING else []),
         if expired && InDoubt(f.comp) then Asked(f) else f)
  }

  /** A daemon that does not answer: the peer is told to take over. */
  function WaitTimeoutDuty(f: Face, expired: bool): Duty {
    if expired && f.lastCause == DriverUpdate then Duty([SendPeerSwitchCommand], Commanded(f, TransceiverDaemonTimeout))
    else Duty([], f)
  }

  /** An active side that has waited for its server long enough gives the mux up. */
  function OscillationDuty(cfg: Config, f: Face, expired: bool): Duty {
    var f1 := f.(admin := f.admin.(oscillationAlive := false));
    if cfg.oscillationEnabled && expired && f.comp == Composite(PWait, MActive, LUp) then
      Duty(Requesting(cfg, f1, TimedOscillation, MStandby, false), Requested(f1, MStandby, false))
    else Duty([], f1)
  }

  function ResetSuspendDuty(f: Face): Duty {
    if f.comp == Composite(PUnknown, MActive, LUp) then Duty([BackoffReset(UnknownActiveUp), ResumeTx], f)
    else Duty([], f)
  }

  lemma SuspendExpiryDoes(s: State)
    ensures Does(s, HandleSuspendExpiry(s), SuspendExpiryDuty(FaceOf(s)))
  {
    hide Record, EnterMuxWait, ResetBackoff, Asked;
    EnterMuxWaitDoes(s);
    EmitDoes(EnterMuxWait(s), DetectLink);
    ResetBackoffDoes(s, UnknownActiveUp);
  }

  lemma RequestsDo(cfg: Config, s: State)
    ensures Does(s, SwitchCompleted(cfg, s), CompletionDuty(cfg, FaceOf(s)))
    ensures Does(s, SwitchRequested(cfg, s), RequestDuty(cfg, FaceOf(s)))
  {
    hide Record, SwitchMux, EnterProber, Requesting, Requested;
    var s1 := EnterProber(s, PWait, false);
    EnterProberDoes(s, PWait, false);
    SwitchMuxDoes(cfg, s1, TlvSwitchActiveCommand, MActive, false);
    if s.admin.sendCause.Some? {
      SwitchMuxDoes(cfg, s1, s.admin.sendCause.value, MStandby, true);
    }
  }

  lemma GetMuxDoes(cfg: Config, s: State, l: MuxLabel)
    ensures Does(s, HandleGetMuxState(cfg, s, l), CheckDuty(cfg, FaceOf(s), l))
  {
    hide SwitchMux, Requesting, Requested;
    SwitchMuxDoes(cfg, s, MatchingHardwareState, s.comp.ms, true);
  }

  lemma PeerLinkDoes(cfg: Config, s: State, ls: LinkLabel)
    ensures Does(s, HandlePeerLink(cfg, s, ls), PeerLinkDuty(cfg, FaceOf(s), ls))
  {
    hide SwitchMux, EnterProber, Requesting, Requested;
    var s1 := s.(admin := s.admin.(peerLink := ls));
    EnterProberDoes(s1, PWait, false);
    SwitchMuxDoes(cfg, EnterProber(s1, PWait, false), PeerLinkDown, MActive, false);
  }

  lemma ProbeTimeoutDoes(s: State, expired: bool)
    ensures Does(s, HandleMuxProbeTimeout(s, expired), ProbeTimeoutDuty(FaceOf(s), expired))
  {
    hide EnterMuxWait, ResetBackoff, Asked;
    ResetBackoffDoes(s, WaitStandbyUp);
    EnterMuxWaitDoes(s);
    EnterMuxWaitDoes(ResetBackoff(s, WaitStandbyUp));
  }

  lemma WaitTimeoutDoes(s: State, expired: bool)
    ensures Does(s, HandleMuxWaitTimeout(s, expired), WaitTimeoutDuty(FaceOf(s), expired))
  {
    hide Digest;
  }

  lemma OscillationDoes(cfg: Config, s: State, expired: bool)
    ensures Does(s, HandleOscillationTimeout(cfg, s, expired), OscillationDuty(cfg, FaceOf(s), expired))
  {
    hide SwitchMux, Requesting, Requested;
    SwitchMuxDoes(cfg, CancelOscillation(s), TimedOscillation, MStandby, false);
  }

  lemma ResetSuspendDoes(s: State)
    ensures Does(s, HandleResetSuspendTimer(s), ResetSuspendDuty(FaceOf(s)))
  {
    hide Record, ResetBackoff;
    ResetBackoffDoes(s, UnknownActiveUp);
    EmitDoes(ResetBackoff(s, UnknownActiveUp), ResumeTx);
    assert [BackoffReset(UnknownActiveUp)] + [ResumeTx] == [BackoffReset(UnknownActiveUp), ResumeTx];
  }

  // ----- the components -----

  function Up(f: Face, init: InitBits): Face {
    f.(admin := f.admin.(init := init))
  }

  /** The last component to come up starts the prober, where the mux is; prober and mux together reconcile. */
  function ActivateDuty(cfg: Config, f: Face): Duty {
    var f1 := if AllUp(f) then Showing(f, Matching(f.comp.ms)) else f;
    Duty((if AllUp(f) then
            WaitNote(Matching(f.comp.ms)) + (if cfg.defaultRouteFeature then TransmitNotes(f1) else [])
            + [InitializeProber, StartProbing] + HealthNotes(cfg, f1)
          else [])
         + (if f.admin.init.prober && f.admin.init.mux then [WarmRestartReconciliation] else []),
         if AllUp(f) then Reported(cfg, f1) else f1)
  }

  function BladeIpDuty(cfg: Config, f: Face, changed: bool): Duty {
    if !f.admin.init.prober then ActivateDuty(cfg, Up(f, f.admin.init.(prober := true)))
    else Duty(if changed then [UpdateEthernetFrame] else [], f)
  }

  function SwssLinkDuty(cfg: Config, f: Face, l: LinkLabel): Duty {
    if AllUp(f) then Duty([], f.(queue := f.queue + [LinkEventMsg(if l == LUp then UpEvent else DownEvent)]))
    else ActivateDuty(cfg, Up(f.(comp := f.comp.(ls := l), ls := l), f.admin.init.(link := true)))
  }

  /** The event that reports a label. */
  function Reporting(l: MuxLabel): seq<Message> {
    if l == MActive then [MuxEventMsg(ActiveEvent)]
    else if l == MStandby then [MuxEventMsg(StandbyEvent)]
    else if l == MUnknown then [MuxEventMsg(UnknownEvent)]
    else if l == MError then [MuxEventMsg(ErrorEvent)]
    else []
  }

  function SettleDuty(cfg: Config, f: Face, l: MuxLabel): Duty {
    var d := ActivateDuty(cfg, Up(f.(comp := f.comp.(ms := l), ms := l), f.admin.init.(mux := true)));
    Duty([MuxForced(l)] + d.outs, d.face)
  }

  /** The answer to a toggle: the peer is probed early, and the switch-over that is open ends. */
  function MuxStateDuty(cfg: Config, f: Face, l: MuxLabel): Duty {
    if AllUp(f) then
      Duty([ProbePeerTor] + (if f.swssCause then [SwitchingEnd(l)] else []),
           f.(queue := f.queue + Reporting(l), swssCause := false))
    else if l == MUnknown then Duty(ASKING, Asked(f))
    else SettleDuty(cfg, f, l)
  }

  /** The answer to a probe. */
  function ProbeAnswerDuty(cfg: Config, f: Face, l: MuxLabel): Duty {
    if AllUp(f) then Duty([], f.(queue := f.queue + Reporting(l)))
    else if l != MUnknown then
      Duty([InitialSet(l)], f.(comp := f.comp.(ms := MWait), ms := MWait, lastCause := SwssUpdate, swssCause := true))
    else SettleDuty(cfg, f, l)
  }

  lemma StartProberDoes(cfg: Config, s: State)
    ensures var f1 := Showing(FaceOf(s), Matching(s.comp.ms));
            Did(s, StartProber(cfg, s),
                WaitNote(Matching(s.comp.ms)) + (if cfg.defaultRouteFeature then TransmitNotes(f1) else [])
                + [InitializeProber, StartProbing] + HealthNotes(cfg, f1),
                Reported(cfg, f1))
  {
    hide Digest, Emit, InitProber, WaitNote, UpdateHealth, HealthNotes, Reported, ShutdownOrRestart, TransmitNotes;
    InitProberDoes(s, false);
    var s1 := InitProber(s, false);
    ShutdownOrRestartDoes(s1);
    var s2 := if cfg.defaultRouteFeature then ShutdownOrRestart(s1) else s1;
    EmitTwo(s2, InitializeProber, StartProbing);
    UpdateHealthDoes(cfg, Emit(Emit(s2, InitializeProber), StartProbing));
  }

  lemma ActivateDoes(cfg: Config, s: State)
    ensures Does(s, Activate(cfg, s), ActivateDuty(cfg, FaceOf(s)))
  {
    hide Record, StartProber, WaitNote, HealthNotes, TransmitNotes;
    StartProberDoes(cfg, s);
    EmitDoes(if s.admin.init.All() then StartProber(cfg, s) else s, WarmRestartReconciliation);
  }

  lemma ComponentsDo(cfg: Config, s: State, changed: bool, l: LinkLabel)
    ensures Does(s, HandleBladeIp(cfg, s, changed), BladeIpDuty(cfg, FaceOf(s), changed))
    ensures Does(s, HandleSwssLink(cfg, s, l), SwssLinkDuty(cfg, FaceOf(s), l))
  {
    hide Record, Activate, ActivateDuty;
    ActivateDoes(cfg, WithInit(s, s.admin.init.(prober := true)));
    ActivateDoes(cfg, WithInit(EnterLink(s, l), s.admin.init.(link := true)));
    EmitDoes(s, UpdateEthernetFrame);
  }

  lemma SettleMuxDoes(cfg: Config, s: State, l: MuxLabel)
    ensures Does(s, SettleMux(cfg, s, l), SettleDuty(cfg, FaceOf(s), l))
  {
    hide Record, Activate, ActivateDuty;
    EmitDoes(s, MuxForced(l));
    ActivateDoes(cfg, WithInit(EnterMux(Emit(s, MuxForced(l)), l), s.admin.init.(mux := true)));
  }

  lemma MuxStateDoes(cfg: Config, s: State, l: MuxLabel)
    ensures Does(s, HandleMuxState(cfg, s, l), MuxStateDuty(cfg, FaceOf(s), l))
  {
    hide Record, SettleMux, SettleDuty, EnterMuxWait, Asked;
    SettleMuxDoes(cfg, s, l);
    EnterMuxWaitDoes(s);
    EmitDoes(s, ProbePeerTor);
    EmitDoes(Post(Emit(s, ProbePeerTor), EventFor(l)), SwitchingEnd(l));
  }

  lemma ProbeAnswerDoes(cfg: Config, s: State, l: MuxLabel)
    ensures Does(s, HandleProbeMuxState(cfg, s, l), ProbeAnswerDuty(cfg, FaceOf(s), l))
  {
    hide Record, SettleMux, SettleDuty;
    SettleMuxDoes(cfg, s, l);
    EmitDoes(SetCause(EnterMux(s, MWait), SwssUpdate), InitialSet(l));
  }
}
