/** Safety of the active-standby link manager over every run. */
module ActiveStandbySafety {
  import opened Labels
  import opened Strand
  import opened Logs
  import opened ActiveStandbySpec
  import opened ActiveStandbyFrames
  import MuxState
  import LinkState
  import LinkProberState

  /**
   Agreement: each entry of the composite is the sub-machine's current label, or a change to exactly that
   label is still queued.
   */
  ghost predicate Agrees(s: State) {
    var c := s.comp;
    && (c.ps == s.prober.current || ProberChange(s.prober.current) in s.queue)
    && (c.ms == s.mux.current || MuxChange(s.mux.current) in s.queue)
    && (c.ls == s.link.current || LinkChange(s.link.current) in s.queue)
  }

  ghost predicate FactorsFollow(c: Counters, t: Summary) {
    && c.unknownActiveUpFactor == CappedFactor(t.unknownActiveUpUses)
    && c.waitStandbyUpFactor == CappedFactor(t.waitStandbyUpUses)
    && c.muxUnknownFactor == CappedFactor(t.muxUnknownUses)
    && c.waitActiveUp == t.waitActiveUpUses % 0x1_0000_0000
  }

  /** A switch command, sent or still to be sent, has stored the cause that its completion will report. */
  ghost predicate CauseStored(s: State) {
    && (s.admin.switchCommands > 0 || SwitchCommandCompleteMsg in s.queue || HandleSwitchCompletion in s.queue ==>
          s.admin.sendCause.Some?)
    && (s.admin.sendCause.Some? ==>
          s.admin.sendCause.value == ConfigMuxMode || s.admin.sendCause.value == TransceiverDaemonTimeout)
  }

  ghost predicate MetricsPaired(s: State) {
    var t := s.journal.totals;
    && t.ends + (if s.mux.swssCause then 1 else 0) <= t.starts + 1
    && (t.endOpen ==> !s.mux.swssCause)
    && (!s.admin.init.All() ==> t.ends == 0 && !t.endOpen && s.mux.swssCause)
  }

  /** How often the prober has been started, the components that are up, and the modes that were stored. */
  datatype Phase = Phase(starts: nat, init: InitBits, modes: seq<Mode>)

  /** What every handler keeps. */
  ghost predicate Inv(s: State, ph: Phase) {
    var t := s.journal.totals;
    && Agrees(s)
    && (t.activeOpen ==> s.comp.ms == MWait)
    && MetricsPaired(s)
    && CauseStored(s)
    && FactorsFollow(s.counters, t)
    && t.inits == t.probings == ph.starts
    && s.admin.init == ph.init
    && t.modes == ph.modes
    && t.ok
  }

  // ----- the building blocks keep the invariant -----

  lemma EnterProberKeeps(s: State, l: ProberLabel, force: bool, ph: Phase)
    requires Inv(s, ph)
    ensures Inv(EnterProber(s, l, force), ph)
  {
  }

  lemma EnterMuxWaitKeeps(s: State, ph: Phase)
    requires Inv(s, ph)
    ensures Inv(EnterMuxWait(s), ph)
  {
  }

  /** The factors walk through 1, 2, 4, ... up to the cap. */
  lemma FactorsDouble(k: nat)
    ensures Doubled(MAX_BACKOFF_FACTOR, CappedFactor(k)) == CappedFactor(k + 1)
    ensures exists j: nat :: j <= 7 && CappedFactor(k) == Pow2(j) <= MAX_BACKOFF_FACTOR
  {
    assert Pow2(7) == MAX_BACKOFF_FACTOR;
    DoublingFollows(MAX_BACKOFF_FACTOR, 7, k);
  }

  /** The shifted factor is the doubled one: `1 << n`, and the cap beyond the seventh visit. */
  lemma ShiftFollows(c: Counters)
    ensures FactorOf(c, WaitActiveUp) == CappedFactor(c.waitActiveUp)
  {
    var n := c.waitActiveUp;
    assert Pow2(7) == MAX_BACKOFF_FACTOR;
    if n > 7 {
      Pow2Grows(8, n);
    } else {
      ShiftIsPower(n);
      Pow2Grows(n, 7);
    }
  }

  lemma {:induction false} ShiftIsPower(n: nat)
    requires n <= 7
    ensures ShiftedOne(n) == Pow2(n) <= 128
  {
    if n > 0 {
      ShiftIsPower(n - 1);
      Pow2Grows(n, 7);
    }
  }

  lemma UsedFollows(c: Counters, t: Summary, kind: BackoffKind)
    requires FactorsFollow(c, t)
    ensures FactorOf(c, kind) == FactorAfter(kind, UsesOf(t, kind))
    ensures FactorsFollow(Used(c, kind), WithUses(t, kind, UsesOf(t, kind) + 1))
  {
    hide Doubled, CappedFactor, ShiftedOne;
    FactorsDouble(UsesOf(t, kind));
    ShiftFollows(c);
  }

  /** Neither the uses nor the verdict on an output matter to the rest of the invariant. */
  lemma UsesDoNotMatter(t: Summary, kind: BackoffKind, n: nat, ok: bool)
    ensures var t' := WithUses(t, kind, n);
            && t'.starts == t.starts && t'.ends == t.ends && t'.endOpen == t.endOpen && t'.activeOpen == t.activeOpen
            && t'.inits == t.inits && t'.probings == t.probings && t'.modes == t.modes && t'.ok == t.ok
    ensures forall c: Counters :: FactorsFollow(c, WithUses(t, kind, n)) ==>
              FactorsFollow(c, WithUses(t, kind, n).(ok := ok))
  {
    hide CappedFactor;
  }

  lemma UseBackoffKeeps(s: State, kind: BackoffKind, ph: Phase)
    requires Inv(s, ph)
    ensures Inv(UseBackoff(s, kind), ph)
  {
    hide FactorsFollow, FactorOf, FactorAfter, Used, UsesOf, WithUses, ToggleMet, IsFactor;
    var t := s.journal.totals;
    UsedFollows(s.counters, t, kind);
    UsesDoNotMatter(t, kind, UsesOf(t, kind) + 1, true);
  }

  lemma ResetBackoffKeeps(s: State, kind: BackoffKind, ph: Phase)
    requires Inv(s, ph)
    ensures Inv(ResetBackoff(s, kind), ph)
  {
  }

  lemma ToggleNotedKeeps(s: State, l: MuxLabel, ph: Phase)
    requires Inv(s, ph)
    ensures Inv(ToggleNoted(s, l), ph) && ToggleNoted(s, l).comp == s.comp
  {
    hide Inv, Record;
    ResetBackoffKeeps(s, WaitActiveUp, ph);
    var s' := if l == MActive then ResetBackoff(s, WaitActiveUp) else s;
    AdminKeeps(s', s'.admin.(lastSet := l), ph);
  }

  /** A toggle to Active is not made over a mux in Wait, so none is open. */
  lemma NotOpen(s: State, cause: SwitchCause, l: MuxLabel, force: bool, ph: Phase)
    requires Inv(s, ph)
    requires ToggleMet(cause, l, Circumstance(s.comp, s.admin.mode, s.admin.route, force))
    ensures l == MActive ==> !ToggleNoted(s, l).journal.totals.activeOpen
  {
    hide FactorsFollow;
  }

  lemma SwitchingStartKeeps(s: State, l: MuxLabel, ph: Phase)
    requires Inv(s, ph)
    ensures var s' := Emit(SetCause(EnterMux(s, MWait), SwssUpdate), SwitchingStart(l));
            Inv(s', ph) && s'.comp.ms == MWait && s'.journal.totals.activeOpen == s.journal.totals.activeOpen
  {
    hide CappedFactor;
  }

  lemma ToggleOutputKeeps(s: State, cause: SwitchCause, l: MuxLabel, at: Circumstance, ph: Phase)
    requires Inv(s, ph) && ToggleMet(cause, l, at) && s.comp.ms == MWait
    requires l == MActive ==> !s.journal.totals.activeOpen
    ensures Inv(Emit(s, Toggle(cause, l, at)), ph)
  {
    hide ToggleMet, CappedFactor;
  }

  lemma ToggleMuxKeeps(cfg: Config, s: State, cause: SwitchCause, l: MuxLabel, force: bool, ph: Phase)
    requires Inv(s, ph)
    requires ToggleMet(cause, l, Circumstance(s.comp, s.admin.mode, s.admin.route, force))
    ensures Inv(ToggleMux(cfg, s, cause, l, force), ph)
  {
    hide Inv, ToggleNoted, ToggleMet, EnterMux, Record;
    ToggleNotedKeeps(s, l, ph);
    NotOpen(s, cause, l, force, ph);
    SwitchingStartKeeps(ToggleNoted(s, l), l, ph);
    var s1 := Emit(SetCause(EnterMux(ToggleNoted(s, l), MWait), SwssUpdate), SwitchingStart(l));
    var at := Circumstance(s.comp, s.admin.mode, s.admin.route, force);
    ToggleOutputKeeps(s1, cause, l, at, ph);
    var s2 := Emit(s1, Toggle(cause, l, at));
    EmitKeeps(s2, DecreaseInterval, ph);
    EmitKeeps(if cfg.switchoverMeasurement then Emit(s2, DecreaseInterval) else s2, WaitTimer(MAX_BACKOFF_FACTOR), ph);
  }

  /** Outputs that do not touch the totals, and fields that the invariant does not look at. */
  lemma EmitKeeps(s: State, o: Output, ph: Phase)
    requires Inv(s, ph)
    requires Digest(s.journal.totals, o) == s.journal.totals
    ensures Inv(Emit(s, o), ph)
  {
  }

  predicate SameFactors(c: Counters, c': Counters) {
    && c.unknownActiveUpFactor == c'.unknownActiveUpFactor
    && c.waitStandbyUpFactor == c'.waitStandbyUpFactor
    && c.muxUnknownFactor == c'.muxUnknownFactor
    && c.waitActiveUp == c'.waitActiveUp
  }

  lemma CountersKeep(s: State, counters: Counters, ph: Phase)
    requires Inv(s, ph) && SameFactors(s.counters, counters)
    ensures Inv(s.(counters := counters), ph)
  {
  }

  predicate SameDuties(a: Admin, a': Admin) {
    a.init == a'.init && a.sendCause == a'.sendCause && a.switchCommands == a'.switchCommands
  }

  lemma AdminKeeps(s: State, admin: Admin, ph: Phase)
    requires Inv(s, ph) && SameDuties(s.admin, admin)
    ensures Inv(s.(admin := admin), ph)
  {
  }

  lemma UpdateHealthKeeps(cfg: Config, s: State, ph: Phase)
    requires Inv(s, ph)
    ensures Inv(UpdateHealth(cfg, s), ph)
  {
    hide Inv;
    var h := HealthOf(cfg, s);
    EmitKeeps(s, RevertInterval, ph);
    var s' := if h == Healthy then Emit(s, RevertInterval) else s;
    AdminKeeps(s', s.admin.(health := h), ph);
    EmitKeeps(s'.(admin := s.admin.(health := h)), LinkmgrState(h), ph);
  }

  /** A toggle, or the probe that replaces it outside auto mode. */
  lemma SwitchMuxKeeps(cfg: Config, s: State, cause: SwitchCause, l: MuxLabel, force: bool, ph: Phase)
    requires Inv(s, ph)
    requires force || s.admin.mode == Auto ==>
               ToggleMet(cause, l, Circumstance(s.comp, s.admin.mode, s.admin.route, force))
    ensures Inv(SwitchMux(cfg, s, cause, l, force), ph)
  {
    hide Inv, ToggleMux, EnterMuxWait;
    EnterMuxWaitKeeps(s, ph);
    if force || s.admin.mode == Auto {
      ToggleMuxKeeps(cfg, s, cause, l, force, ph);
    }
  }

  // ----- the table of transition functions -----

  lemma WaitActiveUpKeeps(s: State, ph: Phase)
    requires Inv(s, ph)
    ensures Inv(WaitActiveUpTransition(s), ph)
  {
    hide Inv, UseBackoff;
    UseBackoffKeeps(s, WaitActiveUp, ph);
    var s' := UseBackoff(s, WaitActiveUp);
    EmitKeeps(s', SuspendTx, ph);
    var s3 := if s.counters.waitActiveUp % 2 == 1 then Emit(s', SuspendTx) else s';
    AdminKeeps(s3, s3.admin.(oscillationAlive := true), ph);
    EmitKeeps(s3.(admin := s3.admin.(oscillationAlive := true)), OscillationTimer, ph);
  }

  lemma UnknownStandbyUpKeeps(cfg: Config, s: State, ph: Phase)
    requires Inv(s, ph) && s.comp == Composite(PUnknown, MStandby, LUp)
    ensures Inv(UnknownStandbyUpTransition(cfg, s), ph)
  {
    hide Inv, ToggleMux, EnterMuxWait, ResetBackoff;
    EnterProberKeeps(s, PWait, false, ph);
    var s1 := EnterProber(s, PWait, false);
    if s.admin.route == RouteOK {
      SwitchMuxKeeps(cfg, s1, PeerHeartbeatMissing, MActive, false, ph);
    }
    EnterMuxWaitKeeps(s1, ph);
    var s2 := if s.admin.route == RouteOK then SwitchMux(cfg, s1, PeerHeartbeatMissing, MActive, false) else EnterMuxWait(s1);
    ResetBackoffKeeps(s2, WaitActiveUp, ph);
  }

  lemma ActiveUnknownUpKeeps(cfg: Config, s: State, ph: Phase)
    requires Inv(s, ph) && s.comp == Composite(PActive, MUnknown, LUp)
    ensures Inv(ActiveUnknownUpTransition(cfg, s), ph)
  {
    hide Inv, ToggleMux, EnterMuxWait;
    var counters := s.counters.(activeUnknownUp := Inc32(s.counters.activeUnknownUp));
    CountersKeep(s, counters, ph);
    SwitchMuxKeeps(cfg, s.(counters := counters), HardwareStateUnknown, MActive, false, ph);
    EnterMuxWaitKeeps(s.(counters := counters), ph);
  }

  lemma StandbyUnknownUpKeeps(cfg: Config, s: State, left: Composite, ph: Phase)
    requires Inv(s, ph) && s.comp == Composite(PStandby, MUnknown, LUp)
    ensures Inv(StandbyUnknownUpTransition(cfg, s, left), ph)
  {
    hide Inv, ToggleMux, EnterMuxWait;
    var counters := s.counters.(standbyUnknownUp := Inc32(s.counters.standbyUnknownUp));
    CountersKeep(s, counters, ph);
    SwitchMuxKeeps(cfg, s.(counters := counters), HardwareStateUnknown, MStandby, false, ph);
    EnterMuxWaitKeeps(s.(counters := counters), ph);
    EmitKeeps(s.(counters := counters), ProbeTimer(1), ph);
  }

  lemma TransitionKeeps(cfg: Config, s: State, left: Composite, ph: Phase)
    requires Inv(s, ph)
    ensures Inv(Transition(cfg, s, left), ph)
  {
    hide Inv, EnterMuxWait, UseBackoff, ResetBackoff;
    hide WaitActiveUpTransition, UnknownStandbyUpTransition, ActiveUnknownUpTransition, StandbyUnknownUpTransition;
    EnterMuxWaitKeeps(s, ph);
    EmitKeeps(s, ProbeTimer(1), ph);
    UseBackoffKeeps(s, MuxUnknown, ph);
    UseBackoffKeeps(s, WaitStandbyUp, ph);
    match s.comp
    case Composite(PUnknown, MStandby, LUp) => UnknownStandbyUpKeeps(cfg, s, ph);
    case Composite(PActive, MUnknown, LUp) => ActiveUnknownUpKeeps(cfg, s, ph);
    case Composite(PStandby, MUnknown, LUp) => StandbyUnknownUpKeeps(cfg, s, left, ph);
    case Composite(PWait, MActive, LUp) => WaitActiveUpKeeps(s, ph);
    case Composite(PUnknown, MActive, LUp) =>
      UseBackoffKeeps(s, UnknownActiveUp, ph);
      ResetBackoffKeeps(UseBackoff(s, UnknownActiveUp), WaitActiveUp, ph);
    case _ =>
  }

  // ----- changes reported by the sub-machines -----

  /** The invariant of a state whose oldest message `m` has just been taken off the strand. */
  ghost predicate InvTaken(s: State, m: Message, ph: Phase) {
    Inv(s.(queue := [m] + s.queue), ph)
  }

  lemma ProberTakenUpKeeps(s: State, l: ProberLabel, ph: Phase)
    requires InvTaken(s, ProberChange(l), ph) && s.prober.current == l
    ensures Inv(s.(comp := s.comp.(ps := l)), ph)
  {
    hide FactorsFollow;
  }

  lemma NoteProberChangeKeeps(s: State, l: ProberLabel, ph: Phase)
    requires Inv(s, ph)
    ensures Inv(NoteProberChange(s, l), ph)
  {
    hide Inv;
    AdminKeeps(s, s.admin.(continuousUnknown := l == PUnknown), ph);
    EmitKeeps(s.(admin := s.admin.(continuousUnknown := l == PUnknown)), PostProberMetric(LinkProberUnknownStart), ph);
    var s1 := NoteContinuousUnknown(s, l);
    assert Inv(s1, ph);
    NoteDecisionKeeps(s1, ph);
  }

  lemma NoteDecisionKeeps(s: State, ph: Phase)
    requires Inv(s, ph)
    ensures Inv(NoteProberActive(s), ph) && Inv(NoteProberStandby(s), ph)
  {
    hide Inv;
    EmitKeeps(s, PostProberMetric(LinkProberActiveStart), ph);
    EmitKeeps(s, PostProberMetric(LinkProberStandbyStart), ph);
    var s1, s2 := Emit(s, PostProberMetric(LinkProberActiveStart)), Emit(s, PostProberMetric(LinkProberStandbyStart));
    CountersKeep(s1, s1.counters.(standbyUnknownUp := 0), ph);
    CountersKeep(s2, s2.counters.(activeUnknownUp := 0), ph);
    AdminKeeps(s1.(counters := s1.counters.(standbyUnknownUp := 0)), s1.admin.(oscillationAlive := false), ph);
    AdminKeeps(s2.(counters := s2.counters.(activeUnknownUp := 0)), s2.admin.(oscillationAlive := false), ph);
  }

  lemma AcceptProberChangeKeeps(cfg: Config, s: State, l: ProberLabel, ph: Phase)
    requires InvTaken(s, ProberChange(l), ph) && s.prober.current == l
    ensures Inv(AcceptProberChange(cfg, s, l), ph)
  {
    hide Record;
    var s1 := s.(comp := s.comp.(ps := l));
    ProberTakenUpKeeps(s, l, ph);
    NoteProberChangeKeeps(s1, l, ph);
    assert NoteProberChange(s, l).(comp := s1.comp) == NoteProberChange(s1, l);
    hide *;
    TransitionKeeps(cfg, NoteProberChange(s1, l), s.comp, ph);
  }

  lemma StaleChangeKeeps(s: State, m: Message, ph: Phase)
    requires InvTaken(s, m, ph)
    requires m.ProberChange? ==> s.prober.current != m.ps
    requires m.MuxChange? ==> s.mux.current != m.ms
    requires m.LinkChange? ==> s.link.current != m.ls
    ensures Inv(s, ph)
  {
  }

  lemma HandleProberChangeKeeps(cfg: Config, s: State, l: ProberLabel, ph: Phase)
    requires InvTaken(s, ProberChange(l), ph)
    ensures Inv(HandleProberChange(cfg, s, l), ph)
  {
    hide Inv, InvTaken, AcceptProberChange, UpdateHealth, ResetBackoff;
    if s.prober.current == l {
      AcceptProberChangeKeeps(cfg, s, l, ph);
    } else {
      StaleChangeKeeps(s, ProberChange(l), ph);
    }
    var s1 := if s.prober.current == l then AcceptProberChange(cfg, s, l) else s;
    EmitKeeps(s1, ResumeTx, ph);
    ResetBackoffKeeps(Emit(s1, ResumeTx), UnknownActiveUp, ph);
    UpdateHealthKeeps(cfg, s1, ph);
    UpdateHealthKeeps(cfg, ResetBackoff(Emit(s1, ResumeTx), UnknownActiveUp), ph);
  }

  lemma AcceptMuxChangeKeeps(cfg: Config, s: State, l: MuxLabel, ph: Phase)
    requires InvTaken(s, MuxChange(l), ph) && s.mux.current == l
    ensures Inv(AcceptMuxChange(cfg, s, l), ph)
  {
    var s1 := Emit(s, MuxAccepted(l)).(comp := s.comp.(ms := l));
    assert Inv(s1, ph);
    TransitionKeeps(cfg, s1, s.comp, ph) by {
      hide *;
    }
  }

  lemma SendSwitchCommandKeeps(s: State, cause: SwitchCause, ph: Phase)
    requires Inv(s, ph) && (cause == ConfigMuxMode || cause == TransceiverDaemonTimeout)
    ensures Inv(SendSwitchCommand(s, cause), ph)
  {
  }

  lemma ActOnModeKeeps(cfg: Config, s: State, mode: Mode, ph: Phase)
    requires Inv(s, ph) && !Deferred(s, mode) && s.admin.init.mux
    ensures Inv(ActOnMode(cfg, s, mode), ph)
  {
    hide Inv, SwitchMux, SendSwitchCommand;
    if mode == ModeActive && s.comp.ms != MActive {
      EnterProberKeeps(s, PWait, false, ph);
      SwitchMuxKeeps(cfg, EnterProber(s, PWait, false), ConfigMuxMode, MActive, false, ph);
    } else if mode == ModeStandby && s.comp.ms != MStandby {
      SendSwitchCommandKeeps(s, ConfigMuxMode, ph);
    } else if s.comp.ls == LDown && s.comp.ms != MStandby {
      SwitchMuxKeeps(cfg, s, LinkDown, MStandby, true, ph);
    } else {
      EmitKeeps(s, ProbeTimer(1), ph);
    }
  }

  lemma ShutdownOrRestartKeeps(s: State, ph: Phase)
    requires Inv(s, ph)
    ensures Inv(ShutdownOrRestart(s), ph)
  {
    hide Inv;
    EmitKeeps(s, ShutdownTx, ph);
    EmitKeeps(s, RestartTx, ph);
  }

  /** The modes that a configuration stores at once. */
  function ConfigStores(s: State, mode: Mode): seq<Mode> {
    if Deferred(s, mode) then [] else [mode]
  }

  function Storing(ph: Phase, modes: seq<Mode>): Phase {
    ph.(modes := ph.modes + modes)
  }

  lemma StoringNone(ph: Phase)
    ensures Storing(ph, []) == ph
  {
  }

  lemma SetModeKeeps(s: State, mode: Mode, ph: Phase)
    requires Inv(s, ph)
    ensures Inv(Emit(s.(admin := s.admin.(mode := mode)), ModeSet(mode)), Storing(ph, [mode]))
  {
  }

  lemma HandleMuxConfigKeeps(cfg: Config, s: State, mode: Mode, ph: Phase)
    requires Inv(s, ph)
    ensures Inv(HandleMuxConfig(cfg, s, mode), Storing(ph, ConfigStores(s, mode)))
  {
    hide Inv, ActOnMode, UpdateHealth, ShutdownOrRestart;
    if Deferred(s, mode) {
      AdminKeeps(s, s.admin.(pending := true, target := mode), ph);
      StoringNone(ph);
    } else {
      if s.admin.init.All() {
        ActOnModeKeeps(cfg, s, mode, ph);
        UpdateHealthKeeps(cfg, ActOnMode(cfg, s, mode), ph);
      }
      var s1 := if s.admin.init.All() then UpdateHealth(cfg, ActOnMode(cfg, s, mode)) else s;
      SetModeKeeps(s1, mode, ph);
      ShutdownOrRestartKeeps(Emit(s1.(admin := s1.admin.(mode := mode)), ModeSet(mode)), Storing(ph, [mode]));
    }
  }

  /** A mux that has settled stores the mode that was waiting for it. */
  function SettledStores(s: State): seq<Mode> {
    if s.comp.ms != MWait && s.admin.pending then [s.admin.target] else []
  }

  lemma MuxSettledKeeps(cfg: Config, s: State, ph: Phase)
    requires Inv(s, ph) && s.comp.ms != MWait
    ensures Inv(MuxSettled(cfg, s), Storing(ph, SettledStores(s)))
  {
    hide Inv, HandleMuxConfig;
    EmitKeeps(s, GetMux, ph);
    var s1 := Emit(s, GetMux);
    HandleMuxConfigKeeps(cfg, s1, s.admin.target, ph);
    var s2 := HandleMuxConfig(cfg, s1, s.admin.target);
    AdminKeeps(s2, s2.admin.(pending := false), Storing(ph, [s.admin.target]));
    StoringNone(ph);
  }

  lemma HandleMuxChangeKeeps(cfg: Config, s: State, l: MuxLabel, ph: Phase)
    requires InvTaken(s, MuxChange(l), ph)
    ensures Inv(HandleMuxChange(cfg, s, l), Storing(ph, SettledStores(AfterMuxChange(cfg, s, l))))
  {
    hide Inv, InvTaken, AcceptMuxChange, MuxSettled, UpdateHealth, ResetBackoff;
    if s.mux.current == l {
      AcceptMuxChangeKeeps(cfg, s, l, ph);
    } else {
      StaleChangeKeeps(s, MuxChange(l), ph);
    }
    var s1 := AfterMuxChange(cfg, s, l);
    if s1.comp.ms != MWait {
      MuxSettledKeeps(cfg, s1, ph);
    }
    StoringNone(ph);
    MuxChangeEndKeeps(cfg, MuxChangeTaken(cfg, s, l), l, Storing(ph, SettledStores(s1)));
  }

  lemma MuxChangeEndKeeps(cfg: Config, s: State, l: MuxLabel, ph: Phase)
    requires Inv(s, ph)
    ensures var s' := if l != MUnknown then ClearUnknownUps(ResetBackoff(s, MuxUnknown)) else s;
            Inv(UpdateHealth(cfg, if l == MStandby then CancelOscillation(s') else s'), ph)
  {
    hide Inv, UpdateHealth, ResetBackoff;
    ResetBackoffKeeps(s, MuxUnknown, ph);
    var s1 := ResetBackoff(s, MuxUnknown);
    CountersKeep(s1, s1.counters.(activeUnknownUp := 0, standbyUnknownUp := 0), ph);
    var s2 := if l != MUnknown then ClearUnknownUps(s1) else s;
    AdminKeeps(s2, s2.admin.(oscillationAlive := false), ph);
    UpdateHealthKeeps(cfg, s2, ph);
    UpdateHealthKeeps(cfg, CancelOscillation(s2), ph);
  }

  lemma LinkCameUpKeeps(s: State, ph: Phase)
    requires InvTaken(s, LinkChange(LUp), ph) && s.link.current == LUp
    ensures Inv(LinkCameUp(s), ph)
  {
    hide ResetBackoff, EnterProber;
    var s1 := s.(comp := s.comp.(ls := LUp));
    assert Inv(s1, ph);
    EnterProberKeeps(s1, InitialProber(s1.comp.ms), true, ph) by {
      hide *;
    }
    ResetBackoffKeeps(InitProber(s1, true), MuxUnknown, ph);
  }

  lemma LinkWentDownKeeps(cfg: Config, s: State, ph: Phase)
    requires Inv(s, ph) && s.comp.ls == LDown && s.comp.ms != MStandby
    ensures Inv(LinkWentDown(cfg, s), ph)
  {
    hide Inv, SwitchMux, ResetBackoff;
    assert s.(comp := s.comp.(ls := LDown)) == s;
    SwitchMuxKeeps(cfg, s, LinkDown, MStandby, false, ph);
    var s1 := SwitchMux(cfg, s, LinkDown, MStandby, false);
    CountersKeep(s1, s1.counters.(activeUnknownUp := 0, standbyUnknownUp := 0), ph);
    ResetBackoffKeeps(ClearUnknownUps(s1), WaitActiveUp, ph);
    var s2 := ResetBackoff(ClearUnknownUps(s1), WaitActiveUp);
    ResetBackoffKeeps(s2, WaitStandbyUp, ph);
    ResetBackoffKeeps(ResetBackoff(s2, WaitStandbyUp), UnknownActiveUp, ph);
    var s3 := ResetBackoff(ResetBackoff(s2, WaitStandbyUp), UnknownActiveUp);
    AdminKeeps(s3, s3.admin.(oscillationAlive := false), ph);
  }

  lemma AcceptLinkChangeKeeps(cfg: Config, s: State, l: LinkLabel, ph: Phase)
    requires InvTaken(s, LinkChange(l), ph) && s.link.current == l
    ensures Inv(AcceptLinkChange(cfg, s, l), ph)
  {
    var s1 := s.(comp := s.comp.(ls := l));
    assert Inv(s1, ph);
    if s.comp.ls == LDown && l == LUp {
      LinkCameUpKeeps(s, ph);
    } else if s.comp.ls == LUp && l == LDown && s.comp.ms != MStandby {
      LinkWentDownKeeps(cfg, s1, ph);
      assert LinkWentDown(cfg, s) == LinkWentDown(cfg, s1);
    } else {
      TransitionKeeps(cfg, s1, s.comp, ph);
    }
  }

  lemma HandleLinkChangeKeeps(cfg: Config, s: State, l: LinkLabel, ph: Phase)
    requires InvTaken(s, LinkChange(l), ph)
    ensures Inv(HandleLinkChange(cfg, s, l), ph)
  {
    hide Inv, InvTaken, AcceptLinkChange, UpdateHealth;
    if s.link.current == l {
      AcceptLinkChangeKeeps(cfg, s, l, ph);
    } else {
      StaleChangeKeeps(s, LinkChange(l), ph);
    }
    UpdateHealthKeeps(cfg, if s.link.current == l then AcceptLinkChange(cfg, s, l) else s, ph);
  }

  // ----- activation -----

  lemma StartedKeeps(s: State, ph: Phase)
    requires Inv(s, ph)
    ensures Inv(Emit(Emit(s, InitializeProber), StartProbing), ph.(starts := ph.starts + 1))
  {
  }

  lemma StartProberKeeps(cfg: Config, s: State, ph: Phase)
    requires Inv(s, ph)
    ensures Inv(StartProber(cfg, s), ph.(starts := ph.starts + 1))
  {
    hide Inv, EnterProber, ShutdownOrRestart, UpdateHealth;
    EnterProberKeeps(s, InitialProber(s.comp.ms), false, ph);
    var s1 := InitProber(s, false);
    ShutdownOrRestartKeeps(s1, ph);
    var s2 := if cfg.defaultRouteFeature then ShutdownOrRestart(s1) else s1;
    StartedKeeps(s2, ph);
    UpdateHealthKeeps(cfg, Emit(Emit(s2, InitializeProber), StartProbing), ph.(starts := ph.starts + 1));
  }

  /** The prober of a port whose three components are up has been started once, else not yet. */
  function PhaseOf(s: State): Phase {
    Phase(if s.admin.init.All() then 1 else 0, s.admin.init, s.journal.totals.modes)
  }

  predicate Inactive(s: State) {
    !s.admin.init.All()
  }

  /** What the steps that bring a component up keep: the invariant, and they store no mode. */
  ghost predicate Keeps(s: State, s': State) {
    Inv(s', PhaseOf(s')) && s'.journal.totals.modes == s.journal.totals.modes
  }

  /** One more component comes up on a port that is not active yet. */
  lemma ComponentUpKeeps(cfg: Config, s: State, init: InitBits)
    requires Inv(s, PhaseOf(s)) && Inactive(s)
    ensures var s' := Activate(cfg, WithInit(s, init)); Keeps(s, s') && s'.admin.init == init
  {
    var s1 := WithInit(s, init);
    var ph := Phase(0, init, s.journal.totals.modes);
    assert Inv(s1, ph);
    StartProberKeeps(cfg, s1, ph) by {
      hide *;
    }
    hide StartProber;
    var s2 := if init.All() then StartProber(cfg, s1) else s1;
    EmitKeeps(s2, WarmRestartReconciliation, if init.All() then ph.(starts := 1) else ph);
  }

  lemma HandleBladeIpKeeps(cfg: Config, s: State, changed: bool)
    requires Inv(s, PhaseOf(s))
    ensures Keeps(s, HandleBladeIp(cfg, s, changed))
  {
    hide Inv, Activate;
    if !s.admin.init.prober {
      ComponentUpKeeps(cfg, s, s.admin.init.(prober := true));
    } else {
      EmitKeeps(s, UpdateEthernetFrame, PhaseOf(s));
    }
  }

  lemma EnterMuxForcedKeeps(s: State, l: MuxLabel, ph: Phase)
    requires Inv(s, ph) && ph.starts == 0
    ensures Inv(EnterMux(Emit(s, MuxForced(l)), l), ph)
  {
  }

  lemma SettleMuxKeeps(cfg: Config, s: State, l: MuxLabel)
    requires Inv(s, PhaseOf(s)) && Inactive(s)
    ensures Keeps(s, SettleMux(cfg, s, l))
  {
    hide Inv, Activate;
    EnterMuxForcedKeeps(s, l, PhaseOf(s));
    ComponentUpKeeps(cfg, EnterMux(Emit(s, MuxForced(l)), l), s.admin.init.(mux := true));
  }

  lemma PostKeeps(s: State, ms: seq<Message>, ph: Phase)
    requires Inv(s, ph)
    requires SwitchCommandCompleteMsg !in ms && HandleSwitchCompletion !in ms
    ensures Inv(Post(s, ms), ph)
  {
  }

  lemma InitialSetKeeps(s: State, l: MuxLabel, ph: Phase)
    requires Inv(s, ph) && Inactive(s)
    ensures Inv(Emit(SetCause(EnterMux(s, MWait), SwssUpdate), InitialSet(l)), ph)
  {
  }

  lemma HandleProbeMuxStateKeeps(cfg: Config, s: State, l: MuxLabel)
    requires Inv(s, PhaseOf(s))
    ensures Keeps(s, HandleProbeMuxState(cfg, s, l))
  {
    hide Inv, SettleMux;
    if s.admin.init.All() {
      PostKeeps(s, EventFor(l), PhaseOf(s));
    } else if l != MUnknown {
      InitialSetKeeps(s, l, PhaseOf(s));
    } else {
      SettleMuxKeeps(cfg, s, l);
    }
  }

  /** The end of a toggle consumes the cause that its start had set. */
  lemma SwitchingEndKeeps(s: State, l: MuxLabel, ph: Phase)
    requires Inv(s, ph) && s.mux.swssCause && !Inactive(s) && ph.starts == 1
    ensures Inv(Emit(s, SwitchingEnd(l)).(mux := MuxState.ResetSwssCause(s.mux)), ph)
  {
  }

  lemma HandleMuxStateKeeps(cfg: Config, s: State, l: MuxLabel)
    requires Inv(s, PhaseOf(s))
    ensures Keeps(s, HandleMuxState(cfg, s, l))
  {
    hide Inv, SettleMux;
    if s.admin.init.All() {
      EmitKeeps(s, ProbePeerTor, PhaseOf(s));
      PostKeeps(Emit(s, ProbePeerTor), EventFor(l), PhaseOf(s));
      if s.mux.swssCause {
        SwitchingEndKeeps(Post(Emit(s, ProbePeerTor), EventFor(l)), l, PhaseOf(s));
      }
    } else if l == MUnknown {
      EnterMuxWaitKeeps(s, PhaseOf(s));
    } else {
      SettleMuxKeeps(cfg, s, l);
    }
  }

  lemma EnterLinkKeeps(s: State, l: LinkLabel, ph: Phase)
    requires Inv(s, ph)
    ensures Inv(EnterLink(s, l), ph)
  {
  }

  lemma HandleSwssLinkKeeps(cfg: Config, s: State, l: LinkLabel)
    requires Inv(s, PhaseOf(s))
    ensures Keeps(s, HandleSwssLink(cfg, s, l))
  {
    hide Inv, Activate;
    if s.admin.init.All() {
      PostKeeps(s, [LinkEventMsg(if l == LUp then UpEvent else DownEvent)], PhaseOf(s));
    } else {
      EnterLinkKeeps(s, l, PhaseOf(s));
      ComponentUpKeeps(cfg, EnterLink(s, l), s.admin.init.(link := true));
    }
  }

  // ----- the other notifications and the timers -----

  lemma HandleGetMuxStateKeeps(cfg: Config, s: State, l: MuxLabel, ph: Phase)
    requires Inv(s, ph)
    ensures Inv(HandleGetMuxState(cfg, s, l), ph)
  {
    hide Inv, SwitchMux;
    if s.comp.ms == MActive || s.comp.ms == MStandby {
      SwitchMuxKeeps(cfg, s, MatchingHardwareState, s.comp.ms, true, ph);
    }
  }

  lemma HandlePeerLinkKeeps(cfg: Config, s: State, l: LinkLabel, ph: Phase)
    requires Inv(s, ph)
    ensures Inv(HandlePeerLink(cfg, s, l), ph)
  {
    hide Inv, SwitchMux;
    AdminKeeps(s, s.admin.(peerLink := l), ph);
    var s1 := s.(admin := s.admin.(peerLink := l));
    if s.comp.ls == LUp && s.comp.ms == MStandby {
      EnterProberKeeps(s1, PWait, false, ph);
      if s.admin.route == RouteOK {
        SwitchMuxKeeps(cfg, EnterProber(s1, PWait, false), PeerLinkDown, MActive, false, ph);
      }
    }
  }

  lemma HandleSuspendExpiryKeeps(s: State, ph: Phase)
    requires Inv(s, ph)
    ensures Inv(HandleSuspendExpiry(s), ph)
  {
    hide Inv, EnterMuxWait, ResetBackoff;
    EnterMuxWaitKeeps(s, ph);
    EmitKeeps(EnterMuxWait(s), DetectLink, ph);
    ResetBackoffKeeps(s, UnknownActiveUp, ph);
  }

  lemma SwitchCompletedKeeps(cfg: Config, s: State, ph: Phase)
    requires Inv(s, ph)
    ensures Inv(SwitchCompleted(cfg, s), ph)
  {
    hide SwitchMux;
    if s.comp.ms != MStandby && s.admin.sendCause.Some? {
      EnterProberKeeps(s, PWait, false, ph) by {
        hide *;
      }
      SwitchMuxKeeps(cfg, EnterProber(s, PWait, false), s.admin.sendCause.value, MStandby, true, ph);
    }
  }

  lemma SwitchRequestedKeeps(cfg: Config, s: State, ph: Phase)
    requires Inv(s, ph)
    ensures Inv(SwitchRequested(cfg, s), ph)
  {
    hide Inv, SwitchMux;
    if s.comp.ms != MActive && s.comp.ms != MWait {
      EnterProberKeeps(s, PWait, false, ph);
      SwitchMuxKeeps(cfg, EnterProber(s, PWait, false), TlvSwitchActiveCommand, MActive, false, ph);
    }
  }

  lemma HandleDefaultRouteKeeps(cfg: Config, s: State, r: DefaultRoute, ph: Phase)
    requires Inv(s, ph)
    ensures Inv(HandleDefaultRoute(cfg, s, r), ph)
  {
    hide Inv, UpdateHealth, ShutdownOrRestart;
    EnterProberKeeps(s, InitialProber(s.comp.ms), false, ph);
    var s1 := if s.admin.route == RouteNA && r == RouteOK then InitProber(s, false) else s;
    AdminKeeps(s1, s.admin.(route := r), ph);
    ShutdownOrRestartKeeps(s1.(admin := s.admin.(route := r)), ph);
    UpdateHealthKeeps(cfg, ShutdownOrRestart(s1.(admin := s.admin.(route := r))), ph);
  }

  lemma HandleResetSuspendTimerKeeps(s: State, ph: Phase)
    requires Inv(s, ph)
    ensures Inv(HandleResetSuspendTimer(s), ph)
  {
    hide Inv, ResetBackoff;
    ResetBackoffKeeps(s, UnknownActiveUp, ph);
    EmitKeeps(ResetBackoff(s, UnknownActiveUp), ResumeTx, ph);
  }

  lemma HandleMuxProbeTimeoutKeeps(s: State, success: bool, ph: Phase)
    requires Inv(s, ph)
    ensures Inv(HandleMuxProbeTimeout(s, success), ph)
  {
    hide Inv, ResetBackoff, EnterMuxWait;
    ResetBackoffKeeps(s, WaitStandbyUp, ph);
    var s1 := if s.comp == Composite(PWait, MStandby, LUp) then s else ResetBackoff(s, WaitStandbyUp);
    EnterMuxWaitKeeps(s1, ph);
  }

  lemma HandleMuxWaitTimeoutKeeps(s: State, success: bool, ph: Phase)
    requires Inv(s, ph)
    ensures Inv(HandleMuxWaitTimeout(s, success), ph)
  {
    hide Inv, SendSwitchCommand;
    SendSwitchCommandKeeps(s, TransceiverDaemonTimeout, ph);
  }

  lemma HandleOscillationTimeoutKeeps(cfg: Config, s: State, success: bool, ph: Phase)
    requires Inv(s, ph)
    ensures Inv(HandleOscillationTimeout(cfg, s, success), ph)
  {
    hide Inv, SwitchMux;
    AdminKeeps(s, s.admin.(oscillationAlive := false), ph);
    if s.comp == Composite(PWait, MActive, LUp) {
      SwitchMuxKeeps(cfg, CancelOscillation(s), TimedOscillation, MStandby, false, ph);
    }
  }

  // ----- the strand -----

  lemma SubMachineEventKeeps(cfg: Config, s: State, m: Message, ph: Phase)
    requires InvTaken(s, m, ph)
    requires m.ProberEventMsg? || m.MuxEventMsg? || m.LinkEventMsg?
    ensures Inv(Deliver(cfg, s, m), ph)
  {
  }

  lemma ForwardedKeeps(cfg: Config, s: State, m: Message, ph: Phase)
    requires InvTaken(s, m, ph)
    requires m.SuspendTimerExpiredMsg? || m.SwitchCommandCompleteMsg? || m.SwitchRequestMsg?
    ensures Inv(Deliver(cfg, s, m), ph)
  {
  }

  /** The modes that a strand turn stores: the deferred one, when it takes up a mux change that settles the mux. */
  function MessageStores(cfg: Config, s: State, m: Message): seq<Mode> {
    if m.MuxChange? then SettledStores(AfterMuxChange(cfg, s, m.ms)) else []
  }

  lemma DeliverKeeps(cfg: Config, s: State, m: Message, ph: Phase)
    requires InvTaken(s, m, ph)
    ensures Inv(Deliver(cfg, s, m), Storing(ph, MessageStores(cfg, s, m)))
  {
    hide Inv, InvTaken, Storing;
    hide HandleProberChange, HandleMuxChange, HandleLinkChange, HandleSuspendExpiry, SwitchCompleted, SwitchRequested;
    StoringNone(ph);
    match m
    case ProberEventMsg(e) => SubMachineEventKeeps(cfg, s, m, ph);
    case MuxEventMsg(e) => SubMachineEventKeeps(cfg, s, m, ph);
    case LinkEventMsg(e) => SubMachineEventKeeps(cfg, s, m, ph);
    case SuspendTimerExpiredMsg => ForwardedKeeps(cfg, s, m, ph);
    case SwitchCommandCompleteMsg => ForwardedKeeps(cfg, s, m, ph);
    case SwitchRequestMsg => ForwardedKeeps(cfg, s, m, ph);
    case ProberChange(l) => HandleProberChangeKeeps(cfg, s, l, ph);
    case MuxChange(l) => HandleMuxChangeKeeps(cfg, s, l, ph);
    case LinkChange(l) => HandleLinkChangeKeeps(cfg, s, l, ph);
    case HandleSuspendTimerExpiry => StaleChangeKeeps(s, m, ph); HandleSuspendExpiryKeeps(s, ph);
    case HandleSwitchCompletion => StaleChangeKeeps(s, m, ph); SwitchCompletedKeeps(cfg, s, ph);
    case HandleSwitchRequest => StaleChangeKeeps(s, m, ph); SwitchRequestedKeeps(cfg, s, ph);
    case _ => StaleChangeKeeps(s, m, ph);
  }

  // ----- every step and every run -----

  /** The modes that a step stores. */
  function Stores(cfg: Config, s: State, step: Step): seq<Mode> {
    if step.MuxConfig? then ConfigStores(s, step.mode)
    else if SettlesMux(cfg, s, step) && s.admin.pending then [s.admin.target]
    else []
  }

  /** What every step keeps: the invariant, and the account of the stored modes. */
  ghost predicate Kept(s: State, s': State, stored: seq<Mode>) {
    Inv(s', PhaseOf(s')) && s'.journal.totals.modes == s.journal.totals.modes + stored
  }

  lemma PhaseKept(s: State, s': State, stored: seq<Mode>)
    requires Inv(s, PhaseOf(s)) && Inv(s', Storing(PhaseOf(s), stored))
    ensures Kept(s, s', stored)
  {
  }

  lemma RunStrandKeeps(cfg: Config, s: State, ph: Phase)
    requires Inv(s, ph)
    ensures Inv(Next(cfg, s, RunStrand), Storing(ph, Stores(cfg, s, RunStrand)))
  {
    hide Inv, Deliver, Storing, AfterMuxChange;
    if s.queue != [] {
      var taken := s.(queue := s.queue[1..]);
      assert taken.(queue := [s.queue[0]] + taken.queue) == s;
      DeliverKeeps(cfg, taken, s.queue[0], ph);
      if s.queue[0].MuxChange? {
        AfterMuxChangeDefers(cfg, taken, s.queue[0].ms);
      }
    } else {
      StoringNone(ph);
    }
  }

  lemma SwitchCommandSentKeeps(cfg: Config, s: State, ph: Phase)
    requires Inv(s, ph)
    ensures Inv(Next(cfg, s, SwitchCommandSent), ph)
  {
  }

  lemma ComponentStepKeeps(cfg: Config, s: State, step: Step)
    requires Inv(s, PhaseOf(s)) && BringsComponentUp(step)
    ensures Keeps(s, Next(cfg, s, step))
  {
    hide Inv, Keeps, HandleBladeIp, HandleMuxState, HandleProbeMuxState, HandleSwssLink;
    match step
    case BladeIp(changed) => HandleBladeIpKeeps(cfg, s, changed);
    case MuxStateNotification(l) => HandleMuxStateKeeps(cfg, s, l);
    case ProbeMuxState(l) => HandleProbeMuxStateKeeps(cfg, s, l);
    case SwssLink(l) => HandleSwssLinkKeeps(cfg, s, l);
  }

  lemma OtherStepKeeps(cfg: Config, s: State, step: Step, ph: Phase)
    requires Inv(s, ph) && !BringsComponentUp(step) && !step.RunStrand? && !step.MuxConfig?
    ensures Inv(Next(cfg, s, step), ph)
  {
    hide Inv;
    hide HandleGetMuxState, HandlePeerLink, HandleDefaultRoute, HandleResetSuspendTimer;
    hide HandleMuxProbeTimeout, HandleMuxWaitTimeout, HandleOscillationTimeout;
    match step
    case GetMuxState(l) => HandleGetMuxStateKeeps(cfg, s, l, ph);
    case PeerLink(l) => HandlePeerLinkKeeps(cfg, s, l, ph);
    case DefaultRouteState(r) => HandleDefaultRouteKeeps(cfg, s, r, ph);
    case ResetSuspendTimer => HandleResetSuspendTimerKeeps(s, ph);
    case Heartbeat(e) => PostKeeps(s, [ProberEventMsg(e)], ph);
    case SuspendTimerExpired => PostKeeps(s, [SuspendTimerExpiredMsg], ph);
    case SwitchCommandSent => SwitchCommandSentKeeps(cfg, s, ph);
    case SwitchRequestReceived => PostKeeps(s, [SwitchRequestMsg], ph);
    case MuxProbeTimeout(success) => HandleMuxProbeTimeoutKeeps(s, success, ph);
    case MuxWaitTimeout(success) => HandleMuxWaitTimeoutKeeps(s, success, ph);
    case OscillationTimeout(success) => HandleOscillationTimeoutKeeps(cfg, s, success, ph);
  }

  lemma NextKeeps(cfg: Config, s: State, step: Step)
    requires Inv(s, PhaseOf(s))
    ensures Kept(s, Next(cfg, s, step), Stores(cfg, s, step))
  {
    var ph, s' := PhaseOf(s), Next(cfg, s, step);
    if BringsComponentUp(step) {
      hide Inv, Next, AfterMuxChange;
      ComponentStepKeeps(cfg, s, step);
    } else {
      hide Inv, Kept, Deliver, HandleMuxConfig, AfterMuxChange;
      if step.MuxConfig? {
        HandleMuxConfigKeeps(cfg, s, step.mode, ph);
      } else if step.RunStrand? {
        hide Next;
        RunStrandKeeps(cfg, s, ph);
      } else {
        hide Next;
        OtherStepKeeps(cfg, s, step, ph);
        StoringNone(ph);
      }
      PhaseKept(s, s', Stores(cfg, s, step));
    }
  }

  lemma {:induction false} EveryRunKeeps(cfg: Config, steps: seq<Step>)
    ensures var s := Run(cfg, steps); Inv(s, PhaseOf(s))
  {
    if steps == [] {
      assert Inv(Initial(), PhaseOf(Initial()));
    } else {
      EveryRunKeeps(cfg, steps[..|steps| - 1]);
      NextKeeps(cfg, Run(cfg, steps[..|steps| - 1]), steps[|steps| - 1]) by {
        hide *;
      }
    }
  }
}
