/** Safety of the active-active link manager over every run. */
module ActiveActiveSafety {
  import opened Labels
  import opened Strand
  import opened Logs
  import opened ActiveActiveSpec
  import MuxState
  import LinkState
  import LinkProberState

  /**
   Agreement: each entry of the composite, and the peer label beside it, is the sub-machine's current label,
   or a change to exactly that label is still queued.
   */
  ghost predicate Agrees(s: State) {
    var c := s.comp;
    && (c.ps == s.prober.current || ProberChange(s.prober.current) in s.queue)
    && (c.ms == s.mux.current || MuxChange(s.mux.current) in s.queue)
    && (c.ls == s.link.current || LinkChange(s.link.current) in s.queue)
    && (s.admin.peerProber == s.peer.current || PeerChange(s.peer.current) in s.queue)
  }

  /** What only a few kinds of step change: the probe factor, and what the last notifications said of the mux. */
  datatype Kept = Kept(factor: uint32, lastMuxState: MuxLabel, lastMuxProbe: MuxLabel, lastNotification: Notification)

  function KeptOf(a: Admin): Kept {
    Kept(a.probeFactor, a.lastMuxState, a.lastMuxProbe, a.lastNotification)
  }

  /**
   Where a handler stands: how often the prober has been started, the components that are up, the log that the
   step began with, and the one peer toggle or accepted link that the step may put out.
   */
  datatype Phase = Phase(starts: nat, init: InitBits, kept: Kept, start: Log<Output>, mark: Option<Output>)

  /** A probe is made with the step's factor; peers are toggled and links accepted only where the step says so. */
  predicate Explained(factor: uint32, mark: Option<Output>, o: Output) {
    && (o.Backoff? ==> o.factor == factor)
    && (o.TogglePeer? || o.LinkAccepted? ==> mark == Some(o))
  }

  /** The log is the one that the step began with and outputs that the step explains. */
  ghost predicate Since(start: Log<Output>, factor: uint32, mark: Option<Output>, log: Log<Output>)
    decreases log
  {
    log == start || (log.After? && Explained(factor, mark, log.last) && Since(start, factor, mark, log.earlier))
  }

  /** What every handler keeps. */
  ghost predicate Inv(s: State, ph: Phase) {
    var t := s.journal.totals;
    && Agrees(s)
    && s.comp.ls == t.link
    && t.inits == t.probings == ph.starts
    && s.admin.init == ph.init
    && KeptOf(s.admin) == ph.kept
    && Since(ph.start, ph.kept.factor, ph.mark, s.journal.log)
    && t.ok
  }

  // ----- the building blocks keep the invariant -----

  /** Outputs that do not touch the totals, and fields that the invariant does not look at. */
  lemma EmitKeeps(s: State, o: Output, ph: Phase)
    requires Inv(s, ph)
    requires Digest(s.journal.totals, o) == s.journal.totals && Explained(ph.kept.factor, ph.mark, o)
    ensures Inv(Emit(s, o), ph)
  {
  }

  predicate SameDuties(a: Admin, a': Admin) {
    a.init == a'.init && KeptOf(a) == KeptOf(a') && a.peerProber == a'.peerProber
  }

  lemma AdminKeeps(s: State, admin: Admin, ph: Phase)
    requires Inv(s, ph) && SameDuties(s.admin, admin)
    ensures Inv(s.(admin := admin), ph)
  {
  }

  /** At the start of a step what is kept may change. */
  lemma KeptChanges(s: State, admin: Admin, ph: Phase)
    requires Inv(s, ph) && s.journal.log == ph.start
    requires admin.init == s.admin.init && admin.peerProber == s.admin.peerProber
    ensures Inv(s.(admin := admin), ph.(kept := KeptOf(admin)))
  {
  }

  lemma EnterProberKeeps(s: State, l: ProberLabel, ph: Phase)
    requires Inv(s, ph) && l != PStandby
    ensures Inv(EnterProber(s, l), ph)
  {
  }

  lemma EnterPeerKeeps(s: State, l: PeerLabel, ph: Phase)
    requires Inv(s, ph)
    ensures Inv(EnterPeer(s, l), ph)
  {
  }

  lemma EnterMuxKeeps(s: State, l: MuxLabel, ph: Phase)
    requires Inv(s, ph)
    ensures Inv(EnterMux(s, l), ph)
  {
  }

  lemma WaitStartKeeps(s: State, cause: WaitCause, ph: Phase)
    requires Inv(s, ph)
    ensures Inv(StartWaitMux(SetCause(s, cause)), ph)
  {
    hide Since;
  }

  lemma ProbeMuxStateKeeps(s: State, ph: Phase)
    requires Inv(s, ph)
    ensures Inv(ProbeMuxState(s), ph)
  {
    hide Inv, SetCause;
    WaitStartKeeps(s, DriverUpdate, ph);
    var s1 := StartWaitMux(SetCause(s, DriverUpdate));
    EmitKeeps(s1, ProbeMux, ph);
    EmitKeeps(Emit(s1, ProbeMux), WaitTimer, ph);
  }

  ghost predicate MayToggle(s: State, l: MuxLabel) {
    ToggleMet(l, Now(s))
  }

  lemma ToggleOutputKeeps(s: State, l: MuxLabel, at: Circumstance, ph: Phase)
    requires Inv(s, ph) && ToggleMet(l, at) && at.comp.ls == s.comp.ls
    ensures Inv(Emit(s, Toggle(l, at)), ph)
  {
    hide Agrees;
    assert Agrees(Emit(s, Toggle(l, at))) == Agrees(s) by {
      AgreesIsSilent(s, Toggle(l, at));
    }
  }

  lemma AgreesIsSilent(s: State, o: Output)
    ensures Agrees(Emit(s, o)) == Agrees(s)
  {
    hide Record;
  }

  lemma ToggleMuxKeeps(s: State, l: MuxLabel, ph: Phase)
    requires Inv(s, ph) && MayToggle(s, l)
    ensures Inv(ToggleMux(s, l), ph)
  {
    hide Inv, EnterMux, SetCause, ToggleMet, Record;
    EmitKeeps(s, SuspendTx, ph);
    var s1 := if l == MStandby then Emit(s, SuspendTx) else s;
    EnterMuxKeeps(s1, l, ph);
    WaitStartKeeps(EnterMux(s1, l), SwssUpdate, ph);
    var s2 := StartWaitMux(SetCause(EnterMux(s1, l), SwssUpdate));
    EnterMuxKeepsLink(s1, l, SwssUpdate);
    EmitKeeps(s2, SwitchingStart(l), ph);
    ToggleOutputKeeps(Emit(s2, SwitchingStart(l)), l, Now(s), ph);
    EmitKeeps(Emit(Emit(s2, SwitchingStart(l)), Toggle(l, Now(s))), WaitTimer, ph);
  }

  lemma EnterMuxKeepsLink(s: State, l: MuxLabel, cause: WaitCause)
    ensures SetCause(EnterMux(s, l), cause).comp.ls == s.comp.ls
  {
  }

  /** A toggle, or the probe that replaces it under the other modes. */
  lemma SwitchMuxKeeps(s: State, l: MuxLabel, force: bool, ph: Phase)
    requires Inv(s, ph)
    requires force || Allowed(s.admin.mode, l) ==> MayToggle(s, l)
    ensures Inv(SwitchMux(s, l, force), ph)
  {
    hide Inv, ToggleMux, ProbeMuxState, MayToggle;
    ProbeMuxStateKeeps(s, ph);
    if force || Allowed(s.admin.mode, l) {
      ToggleMuxKeeps(s, l, ph);
    }
  }

  lemma TogglePeerMuxKeeps(s: State, l: MuxLabel, ph: Phase)
    requires Inv(s, ph) && l == MStandby && s.admin.health == Healthy
    requires s.admin.mode == Auto ==> ph.mark == Some(TogglePeer(l, Now(s)))
    ensures Inv(TogglePeerMux(s, l), ph)
  {
    hide Inv;
    if s.admin.mode == Auto {
      var admin := s.admin.(peerMux := l, lastSetPeerMux := l);
      AdminKeeps(s, admin, ph);
      PeerToggleKeeps(s.(admin := admin), l, ph);
      EmitKeeps(Emit(s.(admin := admin), TogglePeer(l, Now(s))), PeerWaitTimer, ph);
    }
  }

  lemma PeerToggleKeeps(s: State, l: MuxLabel, ph: Phase)
    requires Inv(s, ph) && PeerToggleMet(l, Now(s)) && ph.mark == Some(TogglePeer(l, Now(s)))
    ensures Inv(Emit(s, TogglePeer(l, Now(s))), ph)
  {
  }

  lemma StartMuxProbeTimerKeeps(s: State, ph: Phase)
    requires Inv(s, ph)
    ensures Inv(StartMuxProbeTimer(s), ph)
  {
    hide ProbeMuxState, Agrees;
    ProbeMuxStateKeeps(s, ph);
    var s1, o := ProbeMuxState(s), Backoff(s.admin.probeFactor);
    AgreesIsSilent(s1, o);
  }

  lemma UpdateHealthKeeps(cfg: Config, s: State, ph: Phase)
    requires Inv(s, ph)
    ensures Inv(UpdateHealth(cfg, s), ph)
  {
    hide Inv;
    var h := HealthOf(cfg, s);
    AdminKeeps(s, s.admin.(health := h), ph);
    EmitKeeps(s.(admin := s.admin.(health := h)), LinkmgrState(h), ph);
  }

  lemma ShutdownOrRestartKeeps(s: State, ph: Phase)
    requires Inv(s, ph)
    ensures Inv(ShutdownOrRestart(s), ph)
  {
    hide Inv;
    EmitKeeps(s, ShutdownTx, ph);
    EmitKeeps(s, RestartTx, ph);
  }

  // ----- the table of transition functions -----

  lemma ReinforceKeeps(s: State, l: MuxLabel, ph: Phase)
    requires Inv(s, ph) && MayToggle(s, l)
    ensures Inv(Reinforce(s, l), ph)
  {
    hide Inv, MayToggle, SwitchMux;
    SwitchMuxKeeps(s, l, true, ph);
  }

  lemma SwitchOrProbeKeeps(s: State, left: Composite, l: MuxLabel, ph: Phase)
    requires Inv(s, ph)
    requires Allowed(s.admin.mode, l) ==> MayToggle(s, l)
    ensures Inv(SwitchOrProbe(s, left, l), ph)
  {
    hide Inv, MayToggle, SwitchMux, StartMuxProbeTimer;
    SwitchMuxKeeps(s, l, false, ph);
    StartMuxProbeTimerKeeps(s, ph);
  }

  lemma ActiveProberKeeps(s: State, ph: Phase)
    requires Inv(s, ph) && s.comp.ps == PActive && s.comp.ls == LUp
    ensures Inv(ActiveActiveUp(s), ph) && Inv(ActiveStandbyUp(s), ph)
  {
    hide Inv, Reinforce, SwitchMux;
    if s.admin.mode == ModeStandby {
      ReinforceKeeps(s, MStandby, ph);
    }
    SwitchMuxKeeps(s, MActive, false, ph);
  }

  lemma UnknownProberKeeps(s: State, ph: Phase)
    requires Inv(s, ph)
    ensures Inv(UnknownActiveUp(s), ph) && Inv(UnknownStandbyUp(s), ph)
  {
    hide Inv, Reinforce, SwitchMux;
    if s.admin.mode == ModeActive {
      ReinforceKeeps(s, MActive, ph);
    }
    SwitchMuxKeeps(s, MStandby, false, ph);
  }

  lemma TransitionKeeps(s: State, left: Composite, ph: Phase)
    requires Inv(s, ph)
    ensures Inv(Transition(s, left), ph)
  {
    hide Inv, SwitchMux, SwitchOrProbe, StartMuxProbeTimer;
    hide ActiveActiveUp, ActiveStandbyUp, UnknownActiveUp, UnknownStandbyUp;
    StartMuxProbeTimerKeeps(s, ph);
    SwitchMuxKeeps(s, MStandby, false, ph);
    SwitchOrProbeKeeps(s, left, MStandby, ph);
    UnknownProberKeeps(s, ph);
    if s.comp.ps == PActive && s.comp.ls == LUp {
      ActiveProberKeeps(s, ph);
      SwitchMuxKeeps(s, MActive, false, ph);
      SwitchOrProbeKeeps(s, left, MActive, ph);
    }
  }

  // ----- changes reported by the sub-machines -----

  /** The peer is lost, and this side is healthy and in auto mode. */
  predicate LosesPeer(s: State, l: PeerLabel) {
    l == PeerUnknown && s.peer.current == l && s.admin.health == Healthy && s.admin.mode == Auto
  }

  /** The peer toggle or the accepted link that serving a message puts out. */
  function MarkFor(s: State, m: Message): Option<Output> {
    match m
    case LinkChange(l) => if s.link.current == l then Some(LinkAccepted(l, Now(s))) else None
    case PeerChange(l) => if LosesPeer(s, l) then Some(TogglePeer(MStandby, Now(s))) else None
    case _ => None
  }

  /** The invariant of a state whose oldest message `m` has just been taken off the strand. */
  ghost predicate InvTaken(s: State, m: Message, ph: Phase) {
    Inv(s.(queue := [m] + s.queue), ph)
  }

  lemma StaleChangeKeeps(s: State, m: Message, ph: Phase)
    requires InvTaken(s, m, ph)
    requires m.ProberChange? ==> s.prober.current != m.ps
    requires m.PeerChange? ==> s.peer.current != m.peer
    requires m.MuxChange? ==> s.mux.current != m.ms
    requires m.LinkChange? ==> s.link.current != m.ls
    ensures Inv(s, ph)
  {
  }

  lemma AcceptProberChangeKeeps(s: State, l: ProberLabel, ph: Phase)
    requires InvTaken(s, ProberChange(l), ph) && s.prober.current == l
    ensures Inv(AcceptProberChange(s, l), ph)
  {
    var s1 := NoteProberChange(s, l).(comp := s.comp.(ps := l));
    assert Inv(s1, ph);
    TransitionKeeps(s1, s.comp, ph) by {
      hide *;
    }
  }

  lemma HandleProberChangeKeeps(cfg: Config, s: State, l: ProberLabel, ph: Phase)
    requires InvTaken(s, ProberChange(l), ph)
    ensures Inv(HandleProberChange(cfg, s, l), ph)
  {
    hide Inv, InvTaken, AcceptProberChange, UpdateHealth;
    if s.prober.current == l {
      AcceptProberChangeKeeps(s, l, ph);
    } else {
      StaleChangeKeeps(s, ProberChange(l), ph);
    }
    UpdateHealthKeeps(cfg, if s.prober.current == l then AcceptProberChange(s, l) else s, ph);
  }

  lemma HandleMuxChangeKeeps(cfg: Config, s: State, l: MuxLabel, ph: Phase)
    requires InvTaken(s, MuxChange(l), ph)
    ensures Inv(HandleMuxChange(cfg, s, l), ph)
  {
    hide Transition, UpdateHealth;
    if s.mux.current == l {
      var s1 := s.(comp := s.comp.(ms := l));
      assert Inv(s1, ph);
      TransitionKeeps(s1, s.comp, ph);
    } else {
      StaleChangeKeeps(s, MuxChange(l), ph);
    }
    UpdateHealthKeeps(cfg, if s.mux.current == l then AcceptMuxChange(s, l) else s, ph);
  }

  lemma InitPeerKeeps(s: State, ph: Phase)
    requires Inv(s, ph)
    ensures Inv(InitPeer(s), ph)
  {
    hide Inv, EnterPeer;
    EnterPeerKeeps(s, InitialPeer(s.admin.peerMux), ph);
  }

  lemma InitProberKeeps(s: State, ph: Phase)
    requires Inv(s, ph)
    ensures Inv(InitProber(s), ph)
  {
    hide Inv, EnterProber;
    EnterProberKeeps(s, InitialProber(s.comp.ms), ph);
  }

  lemma LinkCameUpKeeps(s: State, left: Composite, ph: Phase)
    requires Inv(s, ph)
    ensures Inv(LinkCameUp(s, left), ph)
  {
    hide Inv, Transition, InitPeer, InitProber;
    if left.ps == PActive {
      InitPeerKeeps(s, ph);
      TransitionKeeps(InitPeer(s), left, ph);
    } else {
      InitProberKeeps(s, ph);
      InitPeerKeeps(InitProber(s), ph);
    }
  }

  lemma LinkTakenUpKeeps(s: State, l: LinkLabel, ph: Phase)
    requires InvTaken(s, LinkChange(l), ph) && s.link.current == l && ph.mark == Some(LinkAccepted(l, Now(s)))
    ensures Inv(Emit(s, LinkAccepted(l, Now(s))).(comp := s.comp.(ls := l)), ph)
  {
  }

  lemma AcceptLinkChangeKeeps(s: State, l: LinkLabel, ph: Phase)
    requires InvTaken(s, LinkChange(l), ph) && s.link.current == l && ph.mark == Some(LinkAccepted(l, Now(s)))
    ensures Inv(AcceptLinkChange(s, l), ph)
  {
    hide Inv, InvTaken, LinkCameUp, SwitchMux, Transition;
    var s' := Emit(s, LinkAccepted(l, Now(s))).(comp := s.comp.(ls := l));
    LinkTakenUpKeeps(s, l, ph);
    LinkCameUpKeeps(s', s.comp, ph);
    SwitchMuxKeeps(s', MStandby, false, ph);
    TransitionKeeps(s', s.comp, ph);
  }

  lemma HandleLinkChangeKeeps(cfg: Config, s: State, l: LinkLabel, ph: Phase)
    requires InvTaken(s, LinkChange(l), ph) && ph.mark == MarkFor(s, LinkChange(l))
    ensures Inv(HandleLinkChange(cfg, s, l), ph)
  {
    hide Inv, InvTaken, AcceptLinkChange, UpdateHealth;
    if s.link.current == l {
      AcceptLinkChangeKeeps(s, l, ph);
    } else {
      StaleChangeKeeps(s, LinkChange(l), ph);
    }
    UpdateHealthKeeps(cfg, if s.link.current == l then AcceptLinkChange(s, l) else s, ph);
  }

  lemma EnterPeerKeepsNow(s: State, l: PeerLabel)
    ensures Now(EnterPeer(s, l)) == Now(s)
  {
  }

  lemma AcceptPeerChangeKeeps(s: State, l: PeerLabel, ph: Phase)
    requires Inv(EnterPeer(s, l), ph)
    requires LosesPeer(s, l) ==> ph.mark == Some(TogglePeer(MStandby, Now(s)))
    requires s.peer.current == l
    ensures Inv(AcceptPeerChange(s, l), ph)
  {
    hide Inv, TogglePeerMux, EnterPeer;
    var s' := EnterPeer(s, l);
    AdminKeeps(s', s'.admin.(peerMux := MActive), ph);
    EnterPeerKeepsNow(s, l);
    if l == PeerUnknown && s'.admin.health == Healthy {
      TogglePeerMuxKeeps(s', MStandby, ph);
    }
  }

  lemma HandlePeerChangeKeeps(s: State, l: PeerLabel, ph: Phase)
    requires InvTaken(s, PeerChange(l), ph) && ph.mark == MarkFor(s, PeerChange(l))
    ensures Inv(HandlePeerChange(s, l), ph)
  {
    hide AcceptPeerChange;
    if s.peer.current == l {
      assert Inv(EnterPeer(s, l), ph);
      AcceptPeerChangeKeeps(s, l, ph);
    } else {
      StaleChangeKeeps(s, PeerChange(l), ph);
    }
  }

  // ----- configuration -----

  lemma ActOnModeKeeps(s: State, mode: Mode, ph: Phase)
    requires Inv(s, ph) && s.admin.mode == mode
    ensures Inv(ActOnMode(s, mode), ph)
  {
    hide Inv, SwitchMux, InitProber, Transition;
    if mode == ModeActive {
      SwitchMuxKeeps(s, MActive, true, ph);
    } else if mode == ModeStandby {
      SwitchMuxKeeps(s, MStandby, true, ph);
    }
    InitProberKeeps(s, ph);
    TransitionKeeps(s, s.comp, ph);
  }

  lemma HandleMuxConfigKeeps(cfg: Config, s: State, mode: Mode, ph: Phase)
    requires Inv(s, ph)
    ensures Inv(HandleMuxConfig(cfg, s, mode), ph)
  {
    hide Inv, ActOnMode, UpdateHealth, ShutdownOrRestart;
    AdminKeeps(s, s.admin.(mode := mode), ph);
    var s1 := s.(admin := s.admin.(mode := mode));
    ActOnModeKeeps(s1, mode, ph);
    UpdateHealthKeeps(cfg, ActOnMode(s1, mode), ph);
    AdminKeeps(s1, s1.admin.(deferred := s1.admin.deferred + [mode]), ph);
    ShutdownOrRestartKeeps(
      if s.admin.init.All() then UpdateHealth(cfg, ActOnMode(s1, mode))
      else s1.(admin := s1.admin.(deferred := s1.admin.deferred + [mode])), ph);
  }

  // ----- activation -----

  lemma PostKeeps(s: State, ms: seq<Message>, ph: Phase)
    requires Inv(s, ph)
    ensures Inv(Post(s, ms), ph)
  {
  }

  lemma StartedKeeps(s: State, ph: Phase)
    requires Inv(s, ph)
    ensures Inv(Emit(Emit(s, InitializeProber), StartProbing), ph.(starts := ph.starts + 1))
  {
    hide Agrees;
    AgreesIsSilent(s, InitializeProber);
    AgreesIsSilent(Emit(s, InitializeProber), StartProbing);
    assert Since(ph.start, ph.kept.factor, ph.mark, Emit(s, InitializeProber).journal.log);
  }

  lemma StartProberKeeps(cfg: Config, s: State, ph: Phase)
    requires Inv(s, ph)
    ensures Inv(StartProber(cfg, s), ph.(starts := ph.starts + 1))
  {
    hide Inv, InitProber, ShutdownOrRestart, UpdateHealth;
    var ph' := ph.(starts := ph.starts + 1);
    InitProberKeeps(s, ph);
    var s1 := InitProber(s);
    ShutdownOrRestartKeeps(s1, ph);
    var s2 := if cfg.defaultRouteFeature then ShutdownOrRestart(s1) else s1;
    StartedKeeps(s2, ph);
    UpdateHealthKeeps(cfg, Emit(Emit(s2, InitializeProber), StartProbing), ph');
    var s3 := UpdateHealth(cfg, Emit(Emit(s2, InitializeProber), StartProbing));
    EmitKeeps(s3, SyncTimer, ph');
    var s4 := Emit(s3, SyncTimer);
    PostKeeps(s4, ConfigMessages(s4.admin.deferred), ph');
    var s5 := Post(s4, ConfigMessages(s4.admin.deferred));
    AdminKeeps(s5, s5.admin.(deferred := []), ph');
  }

  /** The prober of a port whose three components are up has been started once, else not yet. */
  function StartsWith(init: InitBits): nat {
    if init.All() then 1 else 0
  }

  function Up(ph: Phase, init: InitBits): Phase {
    ph.(starts := StartsWith(init), init := init)
  }

  /** One more component comes up on a port that is not active yet. */
  lemma ComponentUpKeeps(cfg: Config, s: State, init: InitBits, ph: Phase)
    requires Inv(s, ph) && !ph.init.All() && ph.starts == 0
    ensures var s' := Activate(cfg, WithInit(s, init)); Inv(s', Up(ph, init)) && s'.admin.init == init
  {
    var s1 := WithInit(s, init);
    var ph1 := ph.(init := init);
    assert Inv(s1, ph1);
    StartProberKeeps(cfg, s1, ph1) by {
      hide *;
    }
    hide StartProber;
  }

  lemma HandleSoCIpKeeps(cfg: Config, s: State, changed: bool, ph: Phase)
    requires Inv(s, ph) && ph.init == s.admin.init && ph.starts == StartsWith(ph.init)
    ensures var s' := HandleSoCIp(cfg, s, changed); Inv(s', Up(ph, s'.admin.init))
  {
    hide Inv, Activate;
    if !s.admin.init.prober {
      ComponentUpKeeps(cfg, s, s.admin.init.(prober := true), ph);
    } else {
      EmitKeeps(s, UpdateEthernetFrame, ph);
    }
  }

  lemma SettleMuxKeeps(cfg: Config, s: State, l: MuxLabel, ph: Phase)
    requires Inv(s, ph) && !ph.init.All() && ph.starts == 0
    ensures var s' := SettleMux(cfg, s, l); Inv(s', Up(ph, s'.admin.init))
  {
    hide Inv, Activate;
    ProbeMuxStateKeeps(s, ph);
    EnterMuxKeeps(ProbeMuxState(s), MWait, ph);
    EnterMuxKeeps(s, l, ph);
    var s' := if l == MUnknown then EnterMux(ProbeMuxState(s), MWait) else EnterMux(s, l);
    ComponentUpKeeps(cfg, s', s.admin.init.(mux := true), ph);
  }

  /** What a step does to what is kept. */
  function KeptAfter(s: State, step: Step): Kept {
    var k := KeptOf(s.admin);
    match step
    case MuxStateNotification(l) => k.(lastMuxState := l, lastNotification := FromToggle)
    case ProbeMuxStateNotification(l) =>
      k.(lastMuxProbe := l, lastNotification := FromProbe, factor := if l == MActive || l == MStandby then 1 else k.factor)
    case MuxProbeTimeout(success) =>
      if !success then k
      else k.(factor := if Undetermined(s.comp.ms) then Doubled(MAX_BACKOFF_FACTOR, k.factor) else 1)
    case _ => k
  }

  lemma HandleMuxStateKeeps(cfg: Config, s: State, l: MuxLabel, ph: Phase)
    requires Inv(s, ph) && s.journal.log == ph.start && ph.init == s.admin.init && ph.starts == StartsWith(ph.init)
    ensures var s' := HandleMuxState(cfg, s, l);
            Inv(s', Up(ph, s'.admin.init).(kept := KeptAfter(s, MuxStateNotification(l))))
  {
    hide Inv, SettleMux, UpdateHealth;
    var ph1 := ph.(kept := KeptAfter(s, MuxStateNotification(l)));
    KeptChanges(s, s.admin.(lastNotification := FromToggle, lastMuxState := l), ph);
    var s1 := s.(admin := s.admin.(lastNotification := FromToggle, lastMuxState := l));
    if s.admin.init.All() {
      EmitKeeps(s1, ProbePeerTor, ph1);
      EmitKeeps(Emit(s1, ProbePeerTor), ResumeTx, ph1);
      var s2 := Emit(Emit(s1, ProbePeerTor), ResumeTx);
      PostKeeps(s2, EventFor(l), ph1);
      EmitKeeps(Post(s2, EventFor(l)), SwitchingEnd(l), ph1);
      UpdateHealthKeeps(cfg, Emit(Post(s2, EventFor(l)), SwitchingEnd(l)), ph1);
      UpdateHealthKeepsInit(cfg, Emit(Post(s2, EventFor(l)), SwitchingEnd(l)));
    } else {
      SettleMuxKeeps(cfg, s1, l, ph1);
    }
  }

  lemma UpdateHealthKeepsInit(cfg: Config, s: State)
    ensures UpdateHealth(cfg, s).admin.init == s.admin.init
  {
    hide Record;
  }

  lemma HandleProbeMuxStateKeeps(cfg: Config, s: State, l: MuxLabel, ph: Phase)
    requires Inv(s, ph) && s.journal.log == ph.start && ph.init == s.admin.init && ph.starts == StartsWith(ph.init)
    ensures var s' := HandleProbeMuxState(cfg, s, l);
            Inv(s', Up(ph, s'.admin.init).(kept := KeptAfter(s, ProbeMuxStateNotification(l))))
  {
    hide Inv, SettleMux;
    var ph1 := ph.(kept := KeptAfter(s, ProbeMuxStateNotification(l)));
    var s1 := s.(admin := s.admin.(lastNotification := FromProbe, lastMuxProbe := l));
    var s2 := if l == MActive || l == MStandby then ResetBackoff(s1) else s1;
    KeptChanges(s, s2.admin, ph);
    if s.admin.init.All() {
      PostKeeps(s2, EventFor(l), ph1);
    } else {
      SettleMuxKeeps(cfg, s2, l, ph1);
    }
  }

  lemma EnterLinkKeeps(s: State, l: LinkLabel, ph: Phase)
    requires Inv(s, ph)
    ensures Inv(EnterLink(Emit(s, LinkForced(l)), l), ph)
  {
  }

  lemma HandleSwssLinkKeeps(cfg: Config, s: State, l: LinkLabel, ph: Phase)
    requires Inv(s, ph) && ph.init == s.admin.init && ph.starts == StartsWith(ph.init)
    ensures var s' := HandleSwssLink(cfg, s, l); Inv(s', Up(ph, s'.admin.init))
  {
    hide Inv, Activate;
    if s.admin.init.All() {
      PostKeeps(s, [LinkEventMsg(if l == LUp then UpEvent else DownEvent)], ph);
    } else {
      EnterLinkKeeps(s, l, ph);
      ComponentUpKeeps(cfg, EnterLink(Emit(s, LinkForced(l)), l), s.admin.init.(link := true), ph);
    }
  }

  // ----- the other notifications and the timers -----

  lemma HandleDefaultRouteKeeps(cfg: Config, s: State, r: DefaultRoute, ph: Phase)
    requires Inv(s, ph)
    ensures Inv(HandleDefaultRoute(cfg, s, r), ph)
  {
    hide Inv, UpdateHealth, SwitchMux, InitProber, ShutdownOrRestart;
    AdminKeeps(s, s.admin.(route := r), ph);
    var s1 := ShutdownOrRestart(s.(admin := s.admin.(route := r)));
    ShutdownOrRestartKeeps(s.(admin := s.admin.(route := r)), ph);
    SwitchMuxKeeps(s1, MStandby, false, ph);
    InitProberKeeps(RouteMissing(s1), ph);
    UpdateHealthKeeps(cfg, RouteBack(RouteMissing(s1), s.admin.route), ph);
  }

  lemma ProbeIfIdleKeeps(s: State, ph: Phase)
    requires Inv(s, ph)
    ensures Inv(ProbeIfIdle(s), ph)
  {
    hide Inv, ProbeMuxState;
    ProbeMuxStateKeeps(s, ph);
  }

  lemma HandleMuxProbeTimeoutKeeps(s: State, success: bool, ph: Phase)
    requires Inv(s, ph) && s.journal.log == ph.start
    ensures Inv(HandleMuxProbeTimeout(s, success), ph.(kept := KeptAfter(s, MuxProbeTimeout(success))))
  {
    hide Inv, StartMuxProbeTimer;
    KeptChanges(s, s.admin.(waitMux := false), ph);
    var s' := StopWaitMux(s);
    KeptChanges(s, DoubleBackoff(s').admin, ph);
    KeptChanges(s, ResetBackoff(s').admin, ph);
    if success && Undetermined(s.comp.ms) {
      StartMuxProbeTimerKeeps(DoubleBackoff(s'), ph.(kept := KeptAfter(s, MuxProbeTimeout(success))));
    }
  }

  lemma HandleAdminSyncKeeps(s: State, ph: Phase)
    requires Inv(s, ph)
    ensures Inv(HandleAdminSync(s), ph)
  {
    hide Inv, ProbeIfIdle;
    ProbeIfIdleKeeps(s, ph);
    EmitKeeps(ProbeIfIdle(s), SyncTimer, ph);
  }

  // ----- the strand -----

  lemma SubMachineEventKeeps(cfg: Config, s: State, m: Message, ph: Phase)
    requires InvTaken(s, m, ph)
    requires m.ProberEventMsg? || m.PeerEventMsg? || m.MuxEventMsg? || m.LinkEventMsg?
    ensures Inv(Deliver(cfg, s, m), ph)
  {
  }

  lemma DeliverKeeps(cfg: Config, s: State, m: Message, ph: Phase)
    requires InvTaken(s, m, ph) && ph.mark == MarkFor(s, m)
    ensures Inv(Deliver(cfg, s, m), ph)
  {
    hide Inv, InvTaken;
    hide HandleProberChange, HandlePeerChange, HandleMuxChange, HandleLinkChange, HandleMuxConfig, ProbeIfIdle;
    match m
    case ProberEventMsg(e) => SubMachineEventKeeps(cfg, s, m, ph);
    case PeerEventMsg(e) => SubMachineEventKeeps(cfg, s, m, ph);
    case MuxEventMsg(e) => SubMachineEventKeeps(cfg, s, m, ph);
    case LinkEventMsg(e) => SubMachineEventKeeps(cfg, s, m, ph);
    case SuspendTimerExpiredMsg => StaleChangeKeeps(s, m, ph); PostKeeps(s, [HandleSuspendTimerExpiry], ph);
    case MuxProbeRequestMsg => StaleChangeKeeps(s, m, ph); PostKeeps(s, [HandleMuxProbeRequest], ph);
    case ProberChange(l) => HandleProberChangeKeeps(cfg, s, l, ph);
    case PeerChange(l) => HandlePeerChangeKeeps(s, l, ph);
    case MuxChange(l) => HandleMuxChangeKeeps(cfg, s, l, ph);
    case LinkChange(l) => HandleLinkChangeKeeps(cfg, s, l, ph);
    case HandleSuspendTimerExpiry => StaleChangeKeeps(s, m, ph); EmitKeeps(s, ResumeTx, ph);
    case HandleMuxProbeRequest => StaleChangeKeeps(s, m, ph); ProbeIfIdleKeeps(s, ph);
    case DeferredMuxConfig(mode) => StaleChangeKeeps(s, m, ph); HandleMuxConfigKeeps(cfg, s, mode, ph);
    case _ => StaleChangeKeeps(s, m, ph);
  }

  // ----- every step and every run -----

  /** The peer toggle or the accepted link that a step puts out. */
  function MarkOf(s: State, step: Step): Option<Output> {
    if step.RunStrand? && s.queue != [] then MarkFor(s, s.queue[0]) else None
  }

  /** Where a port stands when a step begins. */
  function PhaseAt(s: State, mark: Option<Output>): Phase {
    Phase(StartsWith(s.admin.init), s.admin.init, KeptOf(s.admin), s.journal.log, mark)
  }

  ghost predicate Sound(s: State) {
    Inv(s, PhaseAt(s, None))
  }

  lemma PhaseKept(s: State, ph: Phase)
    requires Inv(s, ph) && ph.starts == StartsWith(ph.init)
    ensures Sound(s)
    ensures Inv(s, Up(ph, s.admin.init))
  {
  }

  lemma SoundAt(s: State, mark: Option<Output>)
    requires Sound(s)
    ensures Inv(s, PhaseAt(s, mark))
  {
  }

  lemma RunStrandKeeps(cfg: Config, s: State, ph: Phase)
    requires Inv(s, ph) && ph.mark == MarkOf(s, RunStrand)
    ensures Inv(Next(cfg, s, RunStrand), ph)
  {
    hide Inv, Deliver;
    if s.queue != [] {
      var taken := s.(queue := s.queue[1..]);
      assert taken.(queue := [s.queue[0]] + taken.queue) == s;
      DeliverKeeps(cfg, taken, s.queue[0], ph);
    }
  }

  predicate BringsComponentUp(step: Step) {
    step.SoCIp? || step.MuxStateNotification? || step.ProbeMuxStateNotification? || step.SwssLink?
  }

  lemma ComponentStepKeeps(cfg: Config, s: State, step: Step, ph: Phase)
    requires Inv(s, ph) && ph == PhaseAt(s, None) && BringsComponentUp(step)
    ensures var s' := Next(cfg, s, step); Inv(s', Up(ph, s'.admin.init).(kept := KeptAfter(s, step)))
  {
    hide Inv, HandleSoCIp, HandleMuxState, HandleProbeMuxState, HandleSwssLink;
    match step
    case SoCIp(changed) => HandleSoCIpKeeps(cfg, s, changed, ph);
    case MuxStateNotification(l) => HandleMuxStateKeeps(cfg, s, l, ph);
    case ProbeMuxStateNotification(l) => HandleProbeMuxStateKeeps(cfg, s, l, ph);
    case SwssLink(l) => HandleSwssLinkKeeps(cfg, s, l, ph);
  }

  lemma OtherStepKeeps(cfg: Config, s: State, step: Step, ph: Phase)
    requires Inv(s, ph) && ph == PhaseAt(s, MarkOf(s, step)) && !BringsComponentUp(step)
    ensures Inv(Next(cfg, s, step), ph.(kept := KeptAfter(s, step)))
  {
    hide Inv;
    hide Deliver, HandleMuxConfig, HandleDefaultRoute, ProbeMuxState, HandleMuxProbeTimeout, HandleAdminSync;
    match step
    case RunStrand => RunStrandKeeps(cfg, s, ph);
    case ProbeMuxFailure(expired) => ProbeMuxStateKeeps(s, ph);
    case PeerMuxState(l) => AdminKeeps(s, s.admin.(peerMux := l), ph);
    case MuxConfig(mode) => HandleMuxConfigKeeps(cfg, s, mode, ph);
    case DefaultRouteState(present) => HandleDefaultRouteKeeps(cfg, s, if present then RouteOK else RouteNA, ph);
    case Heartbeat(e) => PostKeeps(s, [ProberEventMsg(e)], ph);
    case PeerHeartbeat(e) => PostKeeps(s, [PeerEventMsg(e)], ph);
    case SuspendTimerExpired => PostKeeps(s, [SuspendTimerExpiredMsg], ph);
    case MuxProbeRequestReceived => PostKeeps(s, [MuxProbeRequestMsg], ph);
    case MuxProbeTimeout(success) => HandleMuxProbeTimeoutKeeps(s, success, ph);
    case MuxWaitTimeout => AdminKeeps(s, s.admin.(waitMux := false), ph);
    case PeerMuxWaitTimeout => EmitKeeps(s, SendPeerProbeCommand, ph);
    case AdminSync => HandleAdminSyncKeeps(s, ph);
  }

  /** What a step has done: it kept the invariant, changed what it says, and its outputs are explained. */
  ghost predicate Accounted(s: State, step: Step, s': State) {
    && Sound(s')
    && KeptOf(s'.admin) == KeptAfter(s, step)
    && Since(s.journal.log, KeptAfter(s, step).factor, MarkOf(s, step), s'.journal.log)
  }

  lemma StepKept(s: State, step: Step, s': State, ph: Phase)
    requires Inv(s', ph) && ph.starts == StartsWith(ph.init)
    requires ph.kept == KeptAfter(s, step) && ph.start == s.journal.log && ph.mark == MarkOf(s, step)
    ensures Accounted(s, step, s')
  {
    PhaseKept(s', ph);
  }

  lemma NextKeeps(cfg: Config, s: State, step: Step)
    requires Sound(s)
    ensures Accounted(s, step, Next(cfg, s, step))
  {
    hide Inv, Next, KeptAfter, Sound, Accounted;
    var ph, s' := PhaseAt(s, MarkOf(s, step)), Next(cfg, s, step);
    SoundAt(s, MarkOf(s, step));
    if BringsComponentUp(step) {
      ComponentStepKeeps(cfg, s, step, ph);
      StepKept(s, step, s', Up(ph, s'.admin.init).(kept := KeptAfter(s, step)));
    } else {
      OtherStepKeeps(cfg, s, step, ph);
      StepKept(s, step, s', ph.(kept := KeptAfter(s, step)));
    }
  }

  lemma {:induction false} EveryRunKeeps(cfg: Config, steps: seq<Step>)
    ensures Sound(Run(cfg, steps))
  {
    if steps == [] {
      assert Inv(Initial(), PhaseAt(Initial(), None));
    } else {
      EveryRunKeeps(cfg, steps[..|steps| - 1]);
      NextKeeps(cfg, Run(cfg, steps[..|steps| - 1]), steps[|steps| - 1]) by {
        hide *;
      }
    }
  }
}
