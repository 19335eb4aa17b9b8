/**
 The active-active link manager itself: a composite state, the sub-machines and the strand they share.
 Every handler is proved against its specification function.
 */
module ActiveActive {
  import opened Labels
  import opened Strand
  import Logs
  import Spec = ActiveActiveSpec
  import Runs = ActiveActiveRuns
  import MuxState
  import LinkState
  import LinkProberState

  class ActiveActiveStateMachine {
    const cfg: Config
    const strand: Strand
    const linkProberStateMachine: LinkProberState.LinkProberStateMachine
    const muxStateMachine: MuxState.MuxStateMachine
    const linkStateMachine: LinkState.LinkStateMachine

    var compositeState: Composite
    var componentInitState: InitBits
    var mode: Mode
    var waitStateMachineInit: seq<Mode>  // configuration handlers that wait for the activation
    var defaultRouteState: DefaultRoute
    var peerLinkProberState: PeerLabel
    var peerMuxState: MuxLabel
    var lastSetPeerMuxState: MuxLabel
    var lastMuxStateNotification: MuxLabel
    var lastMuxProbeNotification: MuxLabel
    var lastMuxNotificationType: Spec.Notification
    var muxProbeBackoffFactor: uint32
    var waitMux: bool
    var continuousLinkProberUnknownEvent: bool
    var health: Health
    ghost var journal: Spec.Journal

    ghost predicate Valid()
      reads this, linkProberStateMachine, muxStateMachine, linkStateMachine
    {
      && linkProberStateMachine.Valid() && muxStateMachine.Valid()
      && linkProberStateMachine.strand == muxStateMachine.strand == linkStateMachine.strand == strand
      && linkProberStateMachine.rules == Spec.RulesOf(cfg)
      && muxStateMachine.retry == cfg.muxRetry
      && linkStateMachine.retry == cfg.linkRetry
    }

    /** The state of the whole port as seen by a handler that is about to enter `c`. */
    ghost function Working(c: Composite): Spec.State
      requires Valid()
      reads this, linkProberStateMachine, muxStateMachine, linkStateMachine, strand
    {
      Spec.State(
        c, linkProberStateMachine.View(), linkProberStateMachine.PeerView(), muxStateMachine.View(),
        linkStateMachine.View(), strand.queue,
        Spec.Admin(componentInitState, mode, waitStateMachineInit, defaultRouteState, peerLinkProberState, peerMuxState,
                   lastSetPeerMuxState, lastMuxStateNotification, lastMuxProbeNotification, lastMuxNotificationType,
                   muxProbeBackoffFactor, waitMux, continuousLinkProberUnknownEvent, health),
        journal)
    }

    ghost function View(): Spec.State
      requires Valid()
      reads this, linkProberStateMachine, muxStateMachine, linkStateMachine, strand
    {
      Working(compositeState)
    }

    constructor (cfg: Config)
      ensures Valid() && View() == Spec.Initial() && this.cfg == cfg
      ensures fresh(strand) && fresh(linkProberStateMachine) && fresh(muxStateMachine) && fresh(linkStateMachine)
    {
      this.cfg := cfg;
      var s := new Strand();
      strand := s;
      compositeState := Composite(PWait, MWait, LDown);
      muxStateMachine := new MuxState.MuxStateMachine(s, cfg.muxRetry, MWait);
      linkStateMachine := new LinkState.LinkStateMachine(s, cfg.linkRetry, LDown);
      linkProberStateMachine := new LinkProberState.LinkProberStateMachine(s, Spec.RulesOf(cfg), PWait);
      componentInitState := InitBits(false, false, false);
      mode, waitStateMachineInit, defaultRouteState := Manual, [], RouteWait;
      peerLinkProberState, peerMuxState, lastSetPeerMuxState := PeerWait, MWait, MWait;
      lastMuxStateNotification, lastMuxProbeNotification, lastMuxNotificationType := MUnknown, MUnknown, Spec.NotReceived;
      muxProbeBackoffFactor, waitMux, continuousLinkProberUnknownEvent, health := 1, false, false, Uninitialized;
      journal := Spec.Pages(Logs.Empty, Spec.NO_OUTPUT);
      new;
      Emit(compositeState, Spec.LinkmgrState(Uninitialized));
    }

    /** A call out of the link manager: recorded, and otherwise without effect here. */
    method Emit(ghost c: Composite, o: Spec.Output)
      requires Valid()
      modifies this`journal
      ensures Valid() && Working(c) == Spec.Emit(old(Working(c)), o)
    {
      hide Spec.Record;
      journal := Spec.Record(journal, o);
    }

    /** The handler is done: the composite it has been working towards becomes current. */
    method SetCompositeState(nextState: Composite)
      requires Valid()
      modifies this`compositeState
      ensures Valid() && View() == old(Working(nextState)) && compositeState == nextState
    {
      compositeState := nextState;
    }

    // ----- forcing the sub-machines -----

    /** The prober is never forced to standby on this cable. */
    method EnterLinkProberState(nextState: Composite, l: ProberLabel) returns (next: Composite)
      requires Valid()
      modifies linkProberStateMachine
      ensures Valid() && Working(next) == Spec.EnterProber(old(Working(nextState)), l)
    {
      hide LinkProberState.Entered;
      linkProberStateMachine.EnterState(l);
      next := nextState.(ps := l);
    }

    method EnterMuxState(nextState: Composite, l: MuxLabel) returns (next: Composite)
      requires Valid()
      modifies muxStateMachine
      ensures Valid() && Working(next) == Spec.EnterMux(old(Working(nextState)), l)
    {
      hide MuxState.Entered;
      muxStateMachine.EnterState(l);
      next := nextState.(ms := l);
    }

    method EnterLinkState(nextState: Composite, l: LinkLabel) returns (next: Composite)
      requires Valid()
      modifies this`journal, linkStateMachine
      ensures Valid() && Working(next) == Spec.EnterLink(Spec.Emit(old(Working(nextState)), Spec.LinkForced(l)), l)
    {
      hide Spec.Record, LinkState.Entered;
      Emit(nextState, Spec.LinkForced(l));
      linkStateMachine.EnterState(l);
      next := nextState.(ls := l);
    }

    method EnterPeerLinkProberState(nextState: Composite, l: PeerLabel)
      requires Valid()
      modifies this`peerLinkProberState, linkProberStateMachine
      ensures Valid() && Working(nextState) == Spec.EnterPeer(old(Working(nextState)), l)
    {
      hide LinkProberState.PeerEntered;
      linkProberStateMachine.EnterPeerState(l);
      peerLinkProberState := l;
    }

    method InitLinkProberState(nextState: Composite) returns (next: Composite)
      requires Valid()
      modifies linkProberStateMachine
      ensures Valid() && Working(next) == Spec.InitProber(old(Working(nextState)))
    {
      hide Spec.EnterProber;
      match nextState.ms {
        case MActive => next := EnterLinkProberState(nextState, PActive);
        case MStandby => next := EnterLinkProberState(nextState, PUnknown);
        case MUnknown => next := EnterLinkProberState(nextState, PWait);
        case MError => next := EnterLinkProberState(nextState, PWait);
        case MWait => next := EnterLinkProberState(nextState, PWait);
      }
    }

    method InitPeerLinkProberState(nextState: Composite)
      requires Valid()
      modifies this`peerLinkProberState, linkProberStateMachine
      ensures Valid() && Working(nextState) == Spec.InitPeer(old(Working(nextState)))
    {
      hide Spec.EnterPeer;
      match peerMuxState {
        case MActive => EnterPeerLinkProberState(nextState, PeerActive);
        case MStandby => EnterPeerLinkProberState(nextState, PeerUnknown);
        case MUnknown => EnterPeerLinkProberState(nextState, PeerWait);
        case MError => EnterPeerLinkProberState(nextState, PeerWait);
        case MWait => EnterPeerLinkProberState(nextState, PeerWait);
      }
    }

    method SetWaitStateCause(nextState: Composite, cause: WaitCause)
      requires Valid()
      modifies this`waitMux, muxStateMachine
      ensures Valid() && Working(nextState) == Spec.StartWaitMux(Spec.SetCause(old(Working(nextState)), cause))
    {
      hide MuxState.SetCause;
      muxStateMachine.SetWaitStateCause(cause);
      waitMux := true;
    }

    method ProbeMuxState(nextState: Composite)
      requires Valid()
      modifies this`journal, this`waitMux, muxStateMachine
      ensures Valid() && Working(nextState) == Spec.ProbeMuxState(old(Working(nextState)))
    {
      hide Spec.Emit, Spec.StartWaitMux, Spec.SetCause;
      SetWaitStateCause(nextState, DriverUpdate);
      Emit(nextState, Spec.ProbeMux);
      Emit(nextState, Spec.WaitTimer);
    }

    method Announce(nextState: Composite, l: MuxLabel, at: Spec.Circumstance)
      requires Valid()
      modifies this`journal
      ensures Valid() && Working(nextState) == Spec.Announced(old(Working(nextState)), l, at)
    {
      hide Spec.Emit;
      Emit(nextState, Spec.SwitchingStart(l));
      Emit(nextState, Spec.Toggle(l, at));
      Emit(nextState, Spec.WaitTimer);
    }

    method ToggleMux(nextState: Composite, l: MuxLabel) returns (next: Composite)
      requires Valid()
      modifies this`journal, this`waitMux, muxStateMachine
      ensures Valid() && Working(next) == Spec.ToggleMux(old(Working(nextState)), l)
    {
      hide Spec.Emit, Spec.EnterMux, Spec.StartWaitMux, Spec.SetCause, Spec.Announced;
      var at := Spec.Circumstance(nextState, mode, health);
      if l == MStandby {
        Emit(nextState, Spec.SuspendTx);
      }
      next := EnterMuxState(nextState, l);
      SetWaitStateCause(next, SwssUpdate);
      Announce(next, l, at);
    }

    method SwitchMuxState(nextState: Composite, l: MuxLabel, forceSwitch: bool) returns (next: Composite)
      requires Valid()
      modifies this`journal, this`waitMux, muxStateMachine
      ensures Valid() && Working(next) == Spec.SwitchMux(old(Working(nextState)), l, forceSwitch)
    {
      hide Spec.ToggleMux, Spec.ProbeMuxState;
      next := nextState;
      if || forceSwitch || mode == Auto || mode == Detached
         || (mode == ModeActive && l == MActive) || (mode == ModeStandby && l == MStandby) {
        next := ToggleMux(nextState, l);
      } else {
        ProbeMuxState(nextState);
      }
    }

    method NotePeerToggle(l: MuxLabel)
      requires Valid()
      modifies this`peerMuxState, this`lastSetPeerMuxState
      ensures Valid()
      ensures var s := old(View()); View() == s.(admin := s.admin.(peerMux := l, lastSetPeerMux := l))
    {
      peerMuxState := l;
      lastSetPeerMuxState := l;
    }

    method SwitchPeerMuxState(l: MuxLabel)
      requires Valid()
      modifies this`peerMuxState, this`lastSetPeerMuxState, this`journal
      ensures Valid() && View() == Spec.TogglePeerMux(old(View()), l)
    {
      hide Spec.Emit;
      if mode == Auto {
        NotePeerToggle(l);
        Emit(compositeState, Spec.TogglePeer(l, Spec.Circumstance(compositeState, mode, health)));
        Emit(compositeState, Spec.PeerWaitTimer);
      }
    }

    // ----- backoff, health and default route -----

    method StartMuxProbeTimer(nextState: Composite)
      requires Valid()
      modifies this`journal, this`waitMux, muxStateMachine
      ensures Valid() && Working(nextState) == Spec.StartMuxProbeTimer(old(Working(nextState)))
    {
      hide Spec.Emit, Spec.ProbeMuxState;
      ProbeMuxState(nextState);
      Emit(nextState, Spec.Backoff(muxProbeBackoffFactor));
    }

    method DoubleBackoff()
      requires Valid()
      modifies this`muxProbeBackoffFactor
      ensures Valid() && View() == Spec.DoubleBackoff(old(View()))
    {
      muxProbeBackoffFactor := Logs.Doubled(Spec.MAX_BACKOFF_FACTOR, muxProbeBackoffFactor);
    }

    method ResetBackoff()
      requires Valid()
      modifies this`muxProbeBackoffFactor
      ensures Valid() && View() == Spec.ResetBackoff(old(View()))
    {
      muxProbeBackoffFactor := 1;
    }

    method SetHealth(h: Health)
      requires Valid()
      modifies this`health, this`journal
      ensures Valid()
      ensures var s := old(View());
              View() == if s.admin.health == h then s else Spec.Emit(s.(admin := s.admin.(health := h)), Spec.LinkmgrState(h))
    {
      hide Spec.Emit;
      if health != h {
        health := h;
        Emit(compositeState, Spec.LinkmgrState(h));
      }
    }

    method UpdateMuxLinkmgrState()
      requires Valid()
      modifies this`health, this`journal
      ensures Valid() && View() == Spec.UpdateHealth(cfg, old(View()))
    {
      hide Spec.Emit;
      var c, h := compositeState, Unhealthy;
      if && c.ls == LUp && c.ps == PActive
         && (c.ms == lastMuxStateNotification || lastMuxStateNotification == MUnknown
             || (lastMuxNotificationType == Spec.FromProbe && lastMuxProbeNotification == MUnknown))
         && (!cfg.defaultRouteFeature || defaultRouteState == RouteOK) {
        h := Healthy;
      }
      SetHealth(h);
    }

    method ShutdownOrRestartLinkProber()
      requires Valid()
      modifies this`journal
      ensures Valid() && View() == Spec.ShutdownOrRestart(old(View()))
    {
      hide Spec.Emit;
      if componentInitState.All() {
        if (mode == Auto || mode == Detached || mode == ModeStandby) && defaultRouteState != RouteOK {
          Emit(compositeState, Spec.ShutdownTx);
        } else {
          Emit(compositeState, Spec.RestartTx);
        }
      }
    }

    // ----- transition functions; they run before `nextState` replaces `compositeState` -----

    /** Repeat a failed or contradicted toggle to the label of a pinned mode. */
    method ReinforceMuxState(nextState: Composite, l: MuxLabel) returns (next: Composite)
      requires Valid()
      modifies this`journal, this`waitMux, muxStateMachine
      ensures Valid() && Working(next) == Spec.Reinforce(old(Working(nextState)), l)
    {
      hide Spec.SwitchMux;
      next := nextState;
      if lastMuxStateNotification != l {
        next := SwitchMuxState(nextState, l, true);
      } else if lastMuxNotificationType == Spec.FromProbe && lastMuxProbeNotification != l {
        next := SwitchMuxState(nextState, l, true);
      }
    }

    method LinkProberActiveMuxActiveLinkUp(nextState: Composite) returns (next: Composite)
      requires Valid()
      modifies this`journal, this`waitMux, muxStateMachine
      ensures Valid() && Working(next) == Spec.ActiveActiveUp(old(Working(nextState)))
    {
      hide Spec.SwitchMux, Spec.Reinforce;
      next := nextState;
      if mode == ModeStandby {
        next := ReinforceMuxState(nextState, MStandby);
      } else if lastMuxStateNotification == MUnknown {
        next := SwitchMuxState(nextState, MActive, false);
      }
    }

    method LinkProberActiveMuxStandbyLinkUp(nextState: Composite) returns (next: Composite)
      requires Valid()
      modifies this`journal, this`waitMux, muxStateMachine
      ensures Valid() && Working(next) == Spec.ActiveStandbyUp(old(Working(nextState)))
    {
      hide Spec.SwitchMux, Spec.Reinforce;
      next := nextState;
      if mode == ModeStandby {
        next := ReinforceMuxState(nextState, MStandby);
      } else if defaultRouteState != RouteNA {
        next := SwitchMuxState(nextState, MActive, false);
      }
    }

    method LinkProberUnknownMuxActiveLinkUp(nextState: Composite) returns (next: Composite)
      requires Valid()
      modifies this`journal, this`waitMux, muxStateMachine
      ensures Valid() && Working(next) == Spec.UnknownActiveUp(old(Working(nextState)))
    {
      hide Spec.SwitchMux, Spec.Reinforce;
      if mode == ModeActive {
        next := ReinforceMuxState(nextState, MActive);
      } else {
        next := SwitchMuxState(nextState, MStandby, false);
      }
    }

    method LinkProberUnknownMuxStandbyLinkUp(nextState: Composite) returns (next: Composite)
      requires Valid()
      modifies this`journal, this`waitMux, muxStateMachine
      ensures Valid() && Working(next) == Spec.UnknownStandbyUp(old(Working(nextState)))
    {
      hide Spec.SwitchMux, Spec.Reinforce;
      next := nextState;
      if mode == ModeActive {
        next := ReinforceMuxState(nextState, MActive);
      } else if lastMuxStateNotification == MUnknown {
        next := SwitchMuxState(nextState, MStandby, false);
      }
    }

    /** Switch when the prober has just changed, else ask what the mux is. */
    method SwitchOrProbe(nextState: Composite, l: MuxLabel) returns (next: Composite)
      requires Valid()
      modifies this`journal, this`waitMux, muxStateMachine
      ensures Valid() && Working(next) == Spec.SwitchOrProbe(old(Working(nextState)), compositeState, l)
    {
      hide Spec.SwitchMux, Spec.StartMuxProbeTimer;
      next := nextState;
      if compositeState.ps != nextState.ps {
        next := SwitchMuxState(nextState, l, false);
      } else {
        StartMuxProbeTimer(nextState);
      }
    }

    /** `mStateTransitionHandler[ps][ms][ls]`; an entry that is not filled in does nothing. */
    method StateTransition(nextState: Composite) returns (next: Composite)
      requires Valid()
      modifies this`journal, this`waitMux, muxStateMachine
      ensures Valid() && Working(next) == Spec.Transition(old(Working(nextState)), compositeState)
    {
      hide Spec.SwitchMux, Spec.SwitchOrProbe, Spec.StartMuxProbeTimer;
      hide Spec.ActiveActiveUp, Spec.ActiveStandbyUp, Spec.UnknownActiveUp, Spec.UnknownStandbyUp;
      next := nextState;
      match nextState {
        case Composite(PActive, MActive, LUp) => next := LinkProberActiveMuxActiveLinkUp(nextState);
        case Composite(PActive, MStandby, LUp) => next := LinkProberActiveMuxStandbyLinkUp(nextState);
        case Composite(PUnknown, MActive, LUp) => next := LinkProberUnknownMuxActiveLinkUp(nextState);
        case Composite(PUnknown, MStandby, LUp) => next := LinkProberUnknownMuxStandbyLinkUp(nextState);
        case Composite(PActive, MUnknown, LUp) => next := SwitchOrProbe(nextState, MActive);
        case Composite(PUnknown, MUnknown, LUp) => next := SwitchOrProbe(nextState, MStandby);
        case Composite(PActive, MError, LUp) => StartMuxProbeTimer(nextState);
        case Composite(PActive, MWait, LUp) => next := SwitchMuxState(nextState, MActive, false);
        case Composite(PUnknown, MWait, LUp) => next := SwitchMuxState(nextState, MStandby, false);
        case Composite(PUnknown, MWait, LDown) => next := SwitchOrProbe(nextState, MStandby);
        case Composite(PUnknown, MUnknown, LDown) => next := SwitchOrProbe(nextState, MStandby);
        case Composite(PUnknown, MActive, LDown) => next := SwitchMuxState(nextState, MStandby, false);
        case _ =>
      }
    }

    // ----- changes reported by the sub-machines -----

    method NoteProberChange(l: ProberLabel)
      requires Valid()
      modifies this`continuousLinkProberUnknownEvent, this`journal
      ensures Valid() && View() == Spec.NoteProberChange(old(View()), l)
    {
      hide Spec.Emit;
      if continuousLinkProberUnknownEvent && l != PUnknown {
        continuousLinkProberUnknownEvent := false;
        Emit(compositeState, Spec.PostProberMetric(Spec.LinkProberActiveStart));
      } else if !continuousLinkProberUnknownEvent && l == PUnknown {
        continuousLinkProberUnknownEvent := true;
        Emit(compositeState, Spec.PostProberMetric(Spec.LinkProberUnknownStart));
      }
    }

    method AcceptProberChange(l: ProberLabel)
      requires Valid()
      modifies this, muxStateMachine
      ensures Valid() && View() == Spec.AcceptProberChange(old(View()), l)
    {
      hide Spec.NoteProberChange, Spec.Transition;
      ghost var left := compositeState;
      NoteProberChange(l);
      assert View() == Spec.NoteProberChange(old(View()), l) && compositeState == left;
      var next := StateTransition(compositeState.(ps := l));
      SetCompositeState(next);
    }

    /** `handleStateChange(LinkProberEvent)`: a change that the prober has left behind is dropped. */
    method HandleProberStateChange(l: ProberLabel)
      requires Valid()
      modifies this, muxStateMachine
      ensures Valid() && View() == Spec.HandleProberChange(cfg, old(View()), l)
    {
      hide Spec.AcceptProberChange, Spec.UpdateHealth;
      if linkProberStateMachine.current == l {
        AcceptProberChange(l);
      }
      UpdateMuxLinkmgrState();
    }

    /** `handleStateChange(MuxStateEvent)` */
    method HandleMuxStateChange(l: MuxLabel)
      requires Valid()
      modifies this, muxStateMachine
      ensures Valid() && View() == Spec.HandleMuxChange(cfg, old(View()), l)
    {
      hide Spec.Transition, Spec.UpdateHealth;
      if muxStateMachine.current == l {
        var next := StateTransition(compositeState.(ms := l));
        SetCompositeState(next);
      }
      UpdateMuxLinkmgrState();
    }

    method LinkCameUp(nextState: Composite) returns (next: Composite)
      requires Valid()
      modifies this`journal, this`waitMux, this`peerLinkProberState, muxStateMachine, linkProberStateMachine
      ensures Valid() && Working(next) == Spec.LinkCameUp(old(Working(nextState)), compositeState)
    {
      hide Spec.InitPeer, Spec.InitProber, Spec.Transition;
      if compositeState.ps == PActive {
        InitPeerLinkProberState(nextState);
        next := StateTransition(nextState);
      } else {
        next := InitLinkProberState(nextState);
        InitPeerLinkProberState(next);
      }
    }

    method AcceptLinkChange(l: LinkLabel)
      requires Valid()
      modifies this, muxStateMachine, linkProberStateMachine
      ensures Valid() && View() == Spec.AcceptLinkChange(old(View()), l)
    {
      hide Spec.Record, Spec.LinkCameUp, Spec.SwitchMux, Spec.Transition;
      Emit(compositeState, Spec.LinkAccepted(l, Spec.Circumstance(compositeState, mode, health)));
      var next := compositeState.(ls := l);
      if compositeState.ls == LDown && l == LUp {
        next := LinkCameUp(next);
      } else if compositeState.ls == LUp && l == LDown && compositeState.ms != MStandby {
        next := SwitchMuxState(next, MStandby, false);
      } else {
        next := StateTransition(next);
      }
      SetCompositeState(next);
    }

    /** `handleStateChange(LinkStateEvent)` */
    method HandleLinkStateChange(l: LinkLabel)
      requires Valid()
      modifies this, muxStateMachine, linkProberStateMachine
      ensures Valid() && View() == Spec.HandleLinkChange(cfg, old(View()), l)
    {
      hide Spec.AcceptLinkChange, Spec.UpdateHealth;
      if linkStateMachine.current == l {
        AcceptLinkChange(l);
      }
      UpdateMuxLinkmgrState();
    }

    method EnterPeerMuxState(l: MuxLabel)
      requires Valid()
      modifies this`peerMuxState
      ensures Valid() && View() == Spec.HandlePeerMuxState(old(View()), l)
    {
      peerMuxState := l;
    }

    method HandlePeerStateChange(l: PeerLabel)
      requires Valid()
      modifies this, linkProberStateMachine
      ensures Valid() && View() == Spec.HandlePeerChange(old(View()), l)
    {
      hide LinkProberState.PeerEntered, Spec.TogglePeerMux;
      if linkProberStateMachine.currentPeer == l {
        EnterPeerLinkProberState(compositeState, l);
        match l {
          case PeerActive => EnterPeerMuxState(MActive);
          case PeerUnknown =>
            if health == Healthy {
              SwitchPeerMuxState(MStandby);
            }
          case PeerWait =>
        }
      }
    }

    // ----- configuration -----

    method ActOnMode(newMode: Mode)
      requires Valid()
      modifies this, muxStateMachine, linkProberStateMachine
      ensures Valid() && View() == Spec.ActOnMode(old(View()), newMode)
    {
      hide Spec.SwitchMux, Spec.InitProber, Spec.Transition;
      var next := compositeState;
      if newMode == ModeActive && compositeState.ms != MActive {
        next := SwitchMuxState(next, MActive, true);
      } else if newMode == ModeStandby && compositeState.ms != MStandby {
        next := SwitchMuxState(next, MStandby, true);
      } else if newMode == Auto && compositeState.ms == MUnknown {
        next := InitLinkProberState(next);
      } else {
        next := StateTransition(next);
      }
      SetCompositeState(next);
    }

    method SetMode(newMode: Mode)
      requires Valid()
      modifies this`mode
      ensures Valid()
      ensures var s := old(View()); View() == s.(admin := s.admin.(mode := newMode))
    {
      mode := newMode;
    }

    method RegisterWaitHandler(newMode: Mode)
      requires Valid()
      modifies this`waitStateMachineInit
      ensures Valid()
      ensures var s := old(View()); View() == s.(admin := s.admin.(deferred := s.admin.deferred + [newMode]))
    {
      waitStateMachineInit := waitStateMachineInit + [newMode];
    }

    method HandleMuxConfigNotification(newMode: Mode)
      requires Valid()
      modifies this, muxStateMachine, linkProberStateMachine
      ensures Valid() && View() == Spec.HandleMuxConfig(cfg, old(View()), newMode)
    {
      hide Spec.Record, Spec.ActOnMode, Spec.UpdateHealth, Spec.ShutdownOrRestart;
      SetMode(newMode);
      if componentInitState.All() {
        ActOnMode(newMode);
        UpdateMuxLinkmgrState();
      } else {
        RegisterWaitHandler(newMode);
      }
      ShutdownOrRestartLinkProber();
    }

    // ----- activation -----

    method NotifyWaiting()
      requires Valid()
      modifies this`waitStateMachineInit, strand
      ensures Valid() && View() == Spec.NotifyWaiting(old(View()))
    {
      var i := 0;
      while i < |waitStateMachineInit|
        invariant 0 <= i <= |waitStateMachineInit|
        invariant strand.queue == old(strand.queue) + Spec.ConfigMessages(waitStateMachineInit[..i])
        invariant waitStateMachineInit == old(waitStateMachineInit)
      {
        strand.Post(DeferredMuxConfig(waitStateMachineInit[i]));
        assert Spec.ConfigMessages(waitStateMachineInit[..i + 1]) ==
               Spec.ConfigMessages(waitStateMachineInit[..i]) + [DeferredMuxConfig(waitStateMachineInit[i])];
        i := i + 1;
      }
      assert waitStateMachineInit[..i] == waitStateMachineInit;
      waitStateMachineInit := [];
    }

    method StartProber()
      requires Valid()
      modifies this, linkProberStateMachine, strand
      ensures Valid() && View() == Spec.StartProber(cfg, old(View()))
    {
      hide Spec.Emit, Spec.InitProber, Spec.UpdateHealth, Spec.ShutdownOrRestart, Spec.NotifyWaiting;
      var next := InitLinkProberState(compositeState);
      SetCompositeState(next);
      if cfg.defaultRouteFeature {
        ShutdownOrRestartLinkProber();
      }
      Emit(compositeState, Spec.InitializeProber);
      Emit(compositeState, Spec.StartProbing);
      UpdateMuxLinkmgrState();
      Emit(compositeState, Spec.SyncTimer);
      NotifyWaiting();
    }

    method ActivateStateMachine()
      requires Valid()
      modifies this, linkProberStateMachine, strand
      ensures Valid() && View() == Spec.Activate(cfg, old(View()))
    {
      hide Spec.StartProber;
      if componentInitState.All() {
        StartProber();
      }
    }

    method SetComponentInitState(init: InitBits)
      requires Valid()
      modifies this`componentInitState
      ensures Valid() && View() == Spec.WithInit(old(View()), init)
    {
      componentInitState := init;
    }

    method HandleSoCIpv4AddressUpdate(changed: bool)
      requires Valid()
      modifies this, linkProberStateMachine, strand
      ensures Valid() && View() == Spec.HandleSoCIp(cfg, old(View()), changed)
    {
      hide Spec.Emit, Spec.Activate, Spec.WithInit;
      if !componentInitState.prober {
        SetComponentInitState(componentInitState.(prober := true));
        ActivateStateMachine();
      } else if changed {
        Emit(compositeState, Spec.UpdateEthernetFrame);
      }
    }

    method PostMuxStateEvent(l: MuxLabel)
      requires Valid()
      modifies strand
      ensures Valid() && View() == Spec.Post(old(View()), Spec.EventFor(l))
    {
      match l {
        case MActive => strand.Post(MuxEventMsg(ActiveEvent));
        case MStandby => strand.Post(MuxEventMsg(StandbyEvent));
        case MUnknown => strand.Post(MuxEventMsg(UnknownEvent));
        case MError => strand.Post(MuxEventMsg(ErrorEvent));
        case MWait =>
      }
    }

    method SettleMux(l: MuxLabel)
      requires Valid()
      modifies this, linkProberStateMachine, muxStateMachine, strand
      ensures Valid() && View() == Spec.SettleMux(cfg, old(View()), l)
    {
      hide Spec.Emit, Spec.Activate, Spec.WithInit, MuxState.Entered, MuxState.SetCause;
      var init := componentInitState;
      var next := compositeState;
      if l == MUnknown {
        ProbeMuxState(next);
        next := EnterMuxState(next, MWait);
      } else {
        next := EnterMuxState(next, l);
      }
      SetCompositeState(next);
      SetComponentInitState(init.(mux := true));
      ActivateStateMachine();
    }

    method NoteMuxState(l: MuxLabel)
      requires Valid()
      modifies this`lastMuxNotificationType, this`lastMuxStateNotification
      ensures Valid()
      ensures var s := old(View()); View() == s.(admin := s.admin.(lastNotification := Spec.FromToggle, lastMuxState := l))
    {
      lastMuxNotificationType := Spec.FromToggle;
      lastMuxStateNotification := l;
    }

    method HandleMuxStateNotification(l: MuxLabel)
      requires Valid()
      modifies this, linkProberStateMachine, muxStateMachine, strand
      ensures Valid() && View() == Spec.HandleMuxState(cfg, old(View()), l)
    {
      hide Spec.Emit, Spec.Post, Spec.SettleMux, Spec.UpdateHealth;
      NoteMuxState(l);
      if componentInitState.All() {
        Emit(compositeState, Spec.ProbePeerTor);
        Emit(compositeState, Spec.ResumeTx);
        PostMuxStateEvent(l);
        Emit(compositeState, Spec.SwitchingEnd(l));
        UpdateMuxLinkmgrState();
      } else {
        SettleMux(l);
      }
    }

    method NoteMuxProbe(l: MuxLabel)
      requires Valid()
      modifies this`lastMuxNotificationType, this`lastMuxProbeNotification
      ensures Valid()
      ensures var s := old(View()); View() == s.(admin := s.admin.(lastNotification := Spec.FromProbe, lastMuxProbe := l))
    {
      lastMuxNotificationType := Spec.FromProbe;
      lastMuxProbeNotification := l;
    }

    method HandleProbeMuxStateNotification(l: MuxLabel)
      requires Valid()
      modifies this, linkProberStateMachine, muxStateMachine, strand
      ensures Valid() && View() == Spec.HandleProbeMuxState(cfg, old(View()), l)
    {
      hide Spec.Post, Spec.SettleMux, Spec.ResetBackoff;
      var active := componentInitState.All();
      NoteMuxProbe(l);
      if l == MActive || l == MStandby {
        ResetBackoff();
      }
      if active {
        PostMuxStateEvent(l);
      } else {
        SettleMux(l);
      }
    }

    method HandleSwssLinkStateNotification(l: LinkLabel)
      requires Valid()
      modifies this, linkProberStateMachine, linkStateMachine, strand
      ensures Valid() && View() == Spec.HandleSwssLink(cfg, old(View()), l)
    {
      hide Spec.Record, Spec.Activate, Spec.WithInit, LinkState.Entered;
      if componentInitState.All() {
        match l {
          case LUp => strand.Post(LinkEventMsg(UpEvent));
          case LDown => strand.Post(LinkEventMsg(DownEvent));
        }
      } else {
        var next := EnterLinkState(compositeState, l);
        SetCompositeState(next);
        SetComponentInitState(componentInitState.(link := true));
        ActivateStateMachine();
      }
    }

    // ----- the other notifications -----

    method SetDefaultRouteState(r: DefaultRoute)
      requires Valid()
      modifies this`defaultRouteState
      ensures Valid() && View() == old(View()).(admin := old(View()).admin.(route := r))
    {
      defaultRouteState := r;
    }

    method LeaveMissingRoute()
      requires Valid()
      modifies this, muxStateMachine
      ensures Valid() && View() == Spec.RouteMissing(old(View()))
    {
      hide Spec.SwitchMux;
      if componentInitState.All() && mode != ModeActive && defaultRouteState == RouteNA {
        var next := SwitchMuxState(compositeState, MStandby, false);
        SetCompositeState(next);
      }
    }

    method ResetOnRouteFlap(oldRouteState: DefaultRoute)
      requires Valid()
      modifies this, linkProberStateMachine
      ensures Valid() && View() == Spec.RouteBack(old(View()), oldRouteState)
    {
      hide Spec.InitProber;
      if && componentInitState.All() && oldRouteState == RouteNA && defaultRouteState == RouteOK
         && compositeState.ps == PActive && mode == Auto {
        var next := InitLinkProberState(compositeState);
        SetCompositeState(next);
      }
    }

    method HandleDefaultRouteStateNotification(r: DefaultRoute)
      requires Valid()
      modifies this, linkProberStateMachine, muxStateMachine
      ensures Valid() && View() == Spec.HandleDefaultRoute(cfg, old(View()), r)
    {
      hide Spec.ShutdownOrRestart, Spec.RouteMissing, Spec.RouteBack, Spec.UpdateHealth;
      var oldRouteState := defaultRouteState;
      SetDefaultRouteState(r);
      ShutdownOrRestartLinkProber();
      LeaveMissingRoute();
      ResetOnRouteFlap(oldRouteState);
      UpdateMuxLinkmgrState();
    }

    method ProbeIfIdle()
      requires Valid()
      modifies this`journal, this`waitMux, muxStateMachine
      ensures Valid() && View() == Spec.ProbeIfIdle(old(View()))
    {
      hide Spec.ProbeMuxState;
      if !waitMux {
        ProbeMuxState(compositeState);
      }
    }

    // ----- timers -----

    method StopWaitMux()
      requires Valid()
      modifies this`waitMux
      ensures Valid() && View() == Spec.StopWaitMux(old(View()))
    {
      waitMux := false;
    }

    method HandleMuxProbeTimeout(success: bool)
      requires Valid()
      modifies this, muxStateMachine
      ensures Valid() && View() == Spec.HandleMuxProbeTimeout(old(View()), success)
    {
      hide Spec.StartMuxProbeTimer, Spec.DoubleBackoff, Spec.ResetBackoff;
      var held := compositeState.ms;
      StopWaitMux();
      if success {
        if held == MUnknown || held == MError || held == MWait {
          DoubleBackoff();
          StartMuxProbeTimer(compositeState);
        } else {
          ResetBackoff();
        }
      }
    }

    method HandlePeerMuxWaitTimeout()
      requires Valid()
      modifies this`journal
      ensures Valid() && View() == Spec.HandlePeerMuxWaitTimeout(old(View()))
    {
      hide Spec.Emit;
      if lastSetPeerMuxState == MStandby {
        Emit(compositeState, Spec.SendPeerProbeCommand);
      }
    }

    method HandleAdminForwardingStateSyncUp()
      requires Valid()
      modifies this`journal, this`waitMux, muxStateMachine
      ensures Valid() && View() == Spec.HandleAdminSync(old(View()))
    {
      hide Spec.Emit, Spec.ProbeIfIdle;
      ProbeIfIdle();
      Emit(compositeState, Spec.SyncTimer);
    }

    // ----- the strand -----

    /** A message that a sub-machine digests. */
    method DeliverToSubMachine(m: Message)
      requires Valid() && ForSubMachine(m)
      modifies linkProberStateMachine, muxStateMachine, linkStateMachine, strand
      ensures Valid() && compositeState == old(compositeState) && View() == Spec.Deliver(cfg, old(View()), m)
    {
      hide LinkProberState.Handled, LinkProberState.PeerHandled, MuxState.Handled, LinkState.Handled;
      match m {
        case ProberEventMsg(e) => linkProberStateMachine.ProcessEvent(e);
        case PeerEventMsg(e) => linkProberStateMachine.ProcessPeerEvent(e);
        case MuxEventMsg(e) => muxStateMachine.ProcessEvent(e);
        case LinkEventMsg(e) => linkStateMachine.ProcessEvent(e);
        case SuspendTimerExpiredMsg => strand.Post(HandleSuspendTimerExpiry);
        case MuxProbeRequestMsg => strand.Post(HandleMuxProbeRequest);
        case _ =>
      }
    }

    method Deliver(m: Message)
      requires Valid()
      modifies this, linkProberStateMachine, muxStateMachine, linkStateMachine, strand
      ensures Valid() && View() == Spec.Deliver(cfg, old(View()), m)
    {
      hide View, Working;
      hide Spec.HandleProberChange, Spec.HandlePeerChange, Spec.HandleMuxChange, Spec.HandleLinkChange;
      hide Spec.HandleMuxConfig, Spec.ProbeIfIdle, Spec.Emit;
      if ForSubMachine(m) {
        hide Spec.Deliver;
        DeliverToSubMachine(m);
        return;
      }
      match m {
        case ProberChange(l) => HandleProberStateChange(l);
        case PeerChange(l) => HandlePeerStateChange(l);
        case MuxChange(l) => HandleMuxStateChange(l);
        case LinkChange(l) => HandleLinkStateChange(l);
        case HandleSuspendTimerExpiry => HandleSuspendTimerExpiredEvent();
        case HandleMuxProbeRequest => ProbeIfIdle();
        case DeferredMuxConfig(newMode) => HandleMuxConfigNotification(newMode);
        case _ =>
      }
    }

    method HandleSuspendTimerExpiredEvent()
      requires Valid()
      modifies this`journal
      ensures Valid() && View() == Spec.Emit(old(View()), Spec.ResumeTx)
    {
      Emit(compositeState, Spec.ResumeTx);
    }

    method RunStrand()
      requires Valid()
      modifies this, linkProberStateMachine, muxStateMachine, linkStateMachine, strand
      ensures Valid() && View() == Spec.Next(cfg, old(View()), Spec.RunStrand)
    {
      hide Spec.Deliver;
      if strand.queue != [] {
        var m := strand.Take();
        Deliver(m);
      }
    }

    predicate FromProber(step: Spec.Step) {
      step.Heartbeat? || step.PeerHeartbeat? || step.SuspendTimerExpired? || step.MuxProbeRequestReceived?
    }

    /** What the prober reports goes on the strand. */
    method PostProberReport(step: Spec.Step)
      requires Valid() && FromProber(step)
      modifies strand
      ensures Valid() && View() == Spec.Next(cfg, old(View()), step)
    {
      match step {
        case Heartbeat(e) => strand.Post(ProberEventMsg(e));
        case PeerHeartbeat(e) => strand.Post(PeerEventMsg(e));
        case SuspendTimerExpired => strand.Post(SuspendTimerExpiredMsg);
        case MuxProbeRequestReceived => strand.Post(MuxProbeRequestMsg);
      }
    }

    method HandleProbeMuxFailure(waitTimerExpired: bool)
      requires Valid()
      modifies this`journal, this`waitMux, muxStateMachine
      ensures Valid() && View() == if waitTimerExpired then Spec.ProbeMuxState(old(View())) else old(View())
    {
      hide Spec.ProbeMuxState;
      if waitTimerExpired {
        ProbeMuxState(compositeState);
      }
    }

    /** Everything that can happen to a port, one thing at a time. */
    method Perform(step: Spec.Step)
      requires Valid()
      modifies this, linkProberStateMachine, muxStateMachine, linkStateMachine, strand
      ensures Valid() && View() == Spec.Next(cfg, old(View()), step)
    {
      hide View, Working;
      hide Spec.Deliver, Spec.HandleSoCIp, Spec.HandleMuxState, Spec.HandleProbeMuxState, Spec.HandleSwssLink;
      hide Spec.ProbeMuxState, Spec.HandlePeerMuxState, Spec.HandleMuxConfig, Spec.HandleDefaultRoute;
      hide Spec.HandleMuxProbeTimeout, Spec.StopWaitMux, Spec.HandlePeerMuxWaitTimeout, Spec.HandleAdminSync;
      match step {
        case RunStrand => RunStrand();
        case SoCIp(changed) => HandleSoCIpv4AddressUpdate(changed);
        case MuxStateNotification(l) => HandleMuxStateNotification(l);
        case ProbeMuxStateNotification(l) => HandleProbeMuxStateNotification(l);
        case ProbeMuxFailure(expired) => HandleProbeMuxFailure(expired);
        case PeerMuxState(l) => EnterPeerMuxState(l);
        case SwssLink(l) => HandleSwssLinkStateNotification(l);
        case MuxConfig(newMode) => HandleMuxConfigNotification(newMode);
        case DefaultRouteState(present) => HandleDefaultRouteStateNotification(if present then RouteOK else RouteNA);
        case MuxProbeTimeout(success) => HandleMuxProbeTimeout(success);
        case MuxWaitTimeout => StopWaitMux();
        case PeerMuxWaitTimeout => HandlePeerMuxWaitTimeout();
        case AdminSync => HandleAdminForwardingStateSyncUp();
        case _ => PostProberReport(step);
      }
    }

    /**
     What holds of the port at any moment: its composite and its peer label agree with its sub-machines up to
     what is queued, every toggle that it has sent was allowed by its mode, every peer toggle was earned, and it
     has started the prober once if it is active.
     */
    ghost predicate Safe()
      requires Valid()
      reads this, linkProberStateMachine, muxStateMachine, linkStateMachine, strand
    {
      var c, p, outs := compositeState, linkProberStateMachine, Logs.Outputs(journal.log);
      && (c.ps == p.current || ProberChange(p.current) in strand.queue)
      && (c.ms == muxStateMachine.current || MuxChange(muxStateMachine.current) in strand.queue)
      && (c.ls == linkStateMachine.current || LinkChange(linkStateMachine.current) in strand.queue)
      && (peerLinkProberState == p.currentPeer || PeerChange(p.currentPeer) in strand.queue)
      && (forall i :: 0 <= i < |outs| && outs[i].Toggle? ==> Spec.ToggleMet(outs[i].ms, outs[i].at))
      && (forall i :: 0 <= i < |outs| && outs[i].TogglePeer? ==> Spec.PeerToggleMet(outs[i].ms, outs[i].at))
      && Logs.Count(outs, Runs.IsInitialisation) == Logs.Count(outs, Runs.IsProbing)
         == (if componentInitState.All() then 1 else 0)
    }

    lemma RunIsSafe(steps: seq<Spec.Step>)
      requires Valid() && View() == Spec.Run(cfg, steps)
      ensures Safe()
    {
      hide Spec.Run;
      Runs.AlwaysAgrees(cfg, steps);
      Runs.ProberStartsOnce(cfg, steps);
      Runs.InitFollowsNotifications(cfg, steps);
      var outs := Logs.Outputs(journal.log);
      forall i | 0 <= i < |outs| && outs[i].Toggle?
        ensures Spec.ToggleMet(outs[i].ms, outs[i].at)
      {
        Runs.TogglesObeyTheMode(cfg, steps, i);
      }
      forall i | 0 <= i < |outs| && outs[i].TogglePeer?
        ensures Spec.PeerToggleMet(outs[i].ms, outs[i].at)
      {
        Runs.PeerTogglesAreEarned(cfg, steps, i);
      }
    }
  }

  /** A port that is built and then lives through any steps is where the specification's run is, and safe. */
  method Serve(cfg: Config, steps: seq<Spec.Step>) returns (port: ActiveActiveStateMachine)
    ensures fresh(port) && fresh(port.linkProberStateMachine) && fresh(port.muxStateMachine)
    ensures fresh(port.linkStateMachine) && fresh(port.strand)
    ensures port.Valid() && port.cfg == cfg && port.View() == Spec.Run(cfg, steps) && port.Safe()
  {
    hide Spec.Next, Spec.Initial;
    port := new ActiveActiveStateMachine(cfg);
    var i := 0;
    while i < |steps|
      invariant 0 <= i <= |steps|
      invariant fresh(port) && fresh(port.linkProberStateMachine) && fresh(port.muxStateMachine)
      invariant fresh(port.linkStateMachine) && fresh(port.strand)
      invariant port.Valid() && port.cfg == cfg && port.View() == Spec.Run(cfg, steps[..i])
    {
      port.Perform(steps[i]);
      assert steps[..i + 1][..i] == steps[..i];
      i := i + 1;
    }
    assert steps[..i] == steps;
    port.RunIsSafe(steps);
  }

  lemma OneMoreTurn(cfg: Config, steps: seq<Spec.Step>, turns: nat)
    ensures Spec.Run(cfg, steps + seq(turns + 1, _ => Spec.RunStrand))
            == Spec.Next(cfg, Spec.Run(cfg, steps + seq(turns, _ => Spec.RunStrand)), Spec.RunStrand)
  {
    var before, after := steps + seq(turns, _ => Spec.RunStrand), steps + seq(turns + 1, _ => Spec.RunStrand);
    assert after == before + [Spec.RunStrand] && after[..|after| - 1] == before;
  }

  /**
   Left alone after any steps, the port runs its strand dry, and then its composite and its peer label are exactly
   its sub-machines' labels.
   */
  method ServeUntilIdle(cfg: Config, steps: seq<Spec.Step>) returns (port: ActiveActiveStateMachine, ghost turns: nat)
    ensures port.Valid() && port.View() == Spec.Run(cfg, steps + seq(turns, _ => Spec.RunStrand)) && port.Safe()
    ensures port.strand.queue == [] && port.peerLinkProberState == port.linkProberStateMachine.currentPeer
    ensures port.compositeState ==
            Composite(port.linkProberStateMachine.current, port.muxStateMachine.current, port.linkStateMachine.current)
  {
    hide Spec.Run, Spec.Next;
    port := Serve(cfg, steps);
    turns := 0;
    assert steps + seq(0, _ => Spec.RunStrand) == steps;
    while port.strand.queue != []
      invariant fresh(port) && fresh(port.linkProberStateMachine) && fresh(port.muxStateMachine)
      invariant fresh(port.linkStateMachine) && fresh(port.strand)
      invariant port.Valid() && port.cfg == cfg
      invariant port.View() == Spec.Run(cfg, steps + seq(turns, _ => Spec.RunStrand))
      decreases Weight(port.strand.queue)
    {
      Runs.StrandShrinks(cfg, port.View());
      OneMoreTurn(cfg, steps, turns);
      port.RunStrand();
      turns := turns + 1;
    }
    port.RunIsSafe(steps + seq(turns, _ => Spec.RunStrand));
  }
}
