/**
 The active-standby link manager itself: a composite state, three sub-machines and the strand they share.
 Every handler is proved against its specification function.
 */
module ActiveStandby {
  import opened Labels
  import opened Strand
  import Logs
  import Spec = ActiveStandbySpec
  import Runs = ActiveStandbyRuns
  import MuxState
  import LinkState
  import LinkProberState

  class ActiveStandbyStateMachine {
    const cfg: Config
    const strand: Strand
    const linkProberStateMachine: LinkProberState.LinkProberStateMachine
    const muxStateMachine: MuxState.MuxStateMachine
    const linkStateMachine: LinkState.LinkStateMachine

    var compositeState: Composite
    var componentInitState: InitBits
    var mode: Mode
    var pendingMuxModeChange: bool
    var targetMuxMode: Mode
    var defaultRouteState: DefaultRoute
    var peerLinkState: LinkLabel
    var lastSetMuxState: MuxLabel
    var sendSwitchActiveCommandCause: Option<Spec.SwitchCause>
    var switchCommands: nat  // handed to the prober and not yet sent
    var oscillationTimerAlive: bool
    var continuousLinkProberUnknownEvent: bool
    var health: Health
    var waitActiveUpCount: uint32
    var activeUnknownUpCount: uint32
    var standbyUnknownUpCount: uint32
    var muxUnknownBackoffFactor: uint32
    var waitStandbyUpBackoffFactor: uint32
    var unknownActiveUpBackoffFactor: uint32
    ghost var journal: Spec.Journal

    ghost predicate Valid()
      reads this, linkProberStateMachine, muxStateMachine, linkStateMachine
    {
      && linkProberStateMachine.Valid() && muxStateMachine.Valid()
      && linkProberStateMachine.strand == muxStateMachine.strand == linkStateMachine.strand == strand
      && linkProberStateMachine.rules == Spec.RulesOf(cfg)
      && muxStateMachine.retry == cfg.muxRetry
      && linkStateMachine.retry == cfg.linkRetry
    }

    /** The state of the whole port as seen by a handler that is about to enter `c`. */
    ghost function Working(c: Composite): Spec.State
      requires Valid()
      reads this, linkProberStateMachine, muxStateMachine, linkStateMachine, strand
    {
      Spec.State(
        c, linkProberStateMachine.View(), muxStateMachine.View(), linkStateMachine.View(), strand.queue,
        Spec.Admin(componentInitState, mode, pendingMuxModeChange, targetMuxMode, defaultRouteState, peerLinkState,
                   lastSetMuxState, sendSwitchActiveCommandCause, switchCommands, oscillationTimerAlive,
                   continuousLinkProberUnknownEvent, health),
        Counters(), journal)
    }

    ghost function Counters(): Spec.Counters
      reads this`waitActiveUpCount, this`activeUnknownUpCount, this`standbyUnknownUpCount, this`muxUnknownBackoffFactor
      reads this`waitStandbyUpBackoffFactor, this`unknownActiveUpBackoffFactor
    {
      Spec.Counters(waitActiveUpCount, activeUnknownUpCount, standbyUnknownUpCount, muxUnknownBackoffFactor,
                    waitStandbyUpBackoffFactor, unknownActiveUpBackoffFactor)
    }

    ghost function View(): Spec.State
      requires Valid()
      reads this, linkProberStateMachine, muxStateMachine, linkStateMachine, strand
    {
      Working(compositeState)
    }

    constructor (cfg: Config)
      ensures Valid() && View() == Spec.Initial() && this.cfg == cfg
      ensures fresh(strand) && fresh(linkProberStateMachine) && fresh(muxStateMachine) && fresh(linkStateMachine)
    {
      this.cfg := cfg;
      var s := new Strand();
      strand := s;
      compositeState := Composite(PUnknown, MWait, LDown);
      muxStateMachine := new MuxState.MuxStateMachine(s, cfg.muxRetry, MWait);
      linkStateMachine := new LinkState.LinkStateMachine(s, cfg.linkRetry, LDown);
      linkProberStateMachine := new LinkProberState.LinkProberStateMachine(s, Spec.RulesOf(cfg), PUnknown);
      componentInitState := InitBits(false, false, false);
      mode, pendingMuxModeChange, targetMuxMode := Manual, false, Auto;
      defaultRouteState, peerLinkState, lastSetMuxState := RouteWait, LDown, MWait;
      sendSwitchActiveCommandCause, switchCommands := None, 0;
      oscillationTimerAlive, continuousLinkProberUnknownEvent, health := false, false, Uninitialized;
      waitActiveUpCount, activeUnknownUpCount, standbyUnknownUpCount := 0, 0, 0;
      muxUnknownBackoffFactor, waitStandbyUpBackoffFactor, unknownActiveUpBackoffFactor := 1, 1, 1;
      journal := Spec.Pages(Logs.Empty, Spec.NO_OUTPUT);
      new;
      muxStateMachine.SetWaitStateCause(SwssUpdate);
      Emit(compositeState, Spec.LinkmgrState(Uninitialized));
    }

    /** A call out of the link manager: recorded, and otherwise without effect here. */
    method Emit(ghost c: Composite, o: Spec.Output)
      requires Valid()
      modifies this`journal
      ensures Valid() && Working(c) == Spec.Emit(old(Working(c)), o)
    {
      hide Spec.Record;
      journal := Spec.Record(journal, o);
    }

    /** The handler is done: the composite it has been working towards becomes current. */
    method SetCompositeState(nextState: Composite)
      requires Valid()
      modifies this`compositeState
      ensures Valid() && View() == old(Working(nextState)) && compositeState == nextState
    {
      compositeState := nextState;
    }

    // ----- forcing the sub-machines -----

    method EnterLinkProberState(nextState: Composite, l: ProberLabel, forceReset: bool) returns (next: Composite)
      requires Valid()
      modifies this`journal, linkProberStateMachine
      ensures Valid()
      ensures Working(next) == Spec.EnterProber(old(Working(nextState)), l, forceReset)
    {
      hide Spec.Record, LinkProberState.Entered;
      linkProberStateMachine.EnterState(l);
      if forceReset && nextState.ps == l {
        linkProberStateMachine.ResetCurrentState();
      }
      next := nextState.(ps := l);
      if l == PWait {
        Emit(next, Spec.PostProberMetric(Spec.LinkProberWaitStart));
      }
    }

    method EnterMuxState(nextState: Composite, l: MuxLabel) returns (next: Composite)
      requires Valid()
      modifies muxStateMachine
      ensures Valid()
      ensures Working(next) == Spec.EnterMux(old(Working(nextState)), l)
    {
      muxStateMachine.EnterState(l);
      next := nextState.(ms := l);
    }

    method EnterLinkState(nextState: Composite, l: LinkLabel) returns (next: Composite)
      requires Valid()
      modifies linkStateMachine
      ensures Valid()
      ensures Working(next) == Spec.EnterLink(old(Working(nextState)), l)
    {
      linkStateMachine.EnterState(l);
      next := nextState.(ls := l);
    }

    method EnterMuxWaitState(nextState: Composite) returns (next: Composite)
      requires Valid()
      modifies this`journal, muxStateMachine
      ensures Valid()
      ensures Working(next) == Spec.EnterMuxWait(old(Working(nextState)))
    {
      hide Spec.Record;
      next := EnterMuxState(nextState, MWait);
      muxStateMachine.SetWaitStateCause(DriverUpdate);
      Emit(next, Spec.ProbeMux);
      Emit(next, Spec.WaitTimer(Spec.MAX_BACKOFF_FACTOR));
    }

    method NoteToggle(nextState: Composite, l: MuxLabel)
      requires Valid()
      modifies this
      ensures Valid() && compositeState == old(compositeState)
      ensures Working(nextState) == Spec.ToggleNoted(old(Working(nextState)), l)
    {
      hide Spec.ResetBackoff;
      if l == MActive {
        ResetBackoff(nextState, Spec.WaitActiveUp);
      }
      lastSetMuxState := l;
    }

    method Announce(cause: Spec.SwitchCause, nextState: Composite, l: MuxLabel, at: Spec.Circumstance)
      requires Valid()
      modifies this`journal
      ensures Valid() && Working(nextState) == Spec.Announced(cfg, old(Working(nextState)), cause, l, at)
    {
      hide Spec.Record;
      Emit(nextState, Spec.SwitchingStart(l));
      Emit(nextState, Spec.Toggle(cause, l, at));
      if cfg.switchoverMeasurement {
        Emit(nextState, Spec.DecreaseInterval);
      }
      Emit(nextState, Spec.WaitTimer(Spec.MAX_BACKOFF_FACTOR));
    }

    method ToggleMux(cause: Spec.SwitchCause, nextState: Composite, l: MuxLabel, forceSwitch: bool)
      returns (next: Composite)
      requires Valid()
      modifies this, muxStateMachine
      ensures Valid() && compositeState == old(compositeState)
      ensures Working(next) == Spec.ToggleMux(cfg, old(Working(nextState)), cause, l, forceSwitch)
    {
      hide Spec.Announced, Spec.ToggleNoted, MuxState.Entered;
      var at := Spec.Circumstance(nextState, mode, defaultRouteState, forceSwitch);
      NoteToggle(nextState, l);
      next := EnterMuxState(nextState, MWait);
      muxStateMachine.SetWaitStateCause(SwssUpdate);
      Announce(cause, next, l, at);
    }

    method SwitchMuxState(cause: Spec.SwitchCause, nextState: Composite, l: MuxLabel, forceSwitch: bool)
      returns (next: Composite)
      requires Valid()
      modifies this, muxStateMachine
      ensures Valid() && compositeState == old(compositeState)
      ensures Working(next) == Spec.SwitchMux(cfg, old(Working(nextState)), cause, l, forceSwitch)
    {
      hide Spec.ToggleMux, Spec.EnterMuxWait;
      if forceSwitch || mode == Auto {
        next := ToggleMux(cause, nextState, l, forceSwitch);
      } else {
        next := EnterMuxWaitState(nextState);
      }
    }

    method InitLinkProberState(nextState: Composite, forceReset: bool) returns (next: Composite)
      requires Valid()
      modifies this`journal, linkProberStateMachine
      ensures Valid()
      ensures Working(next) == Spec.InitProber(old(Working(nextState)), forceReset)
    {
      hide Spec.EnterProber;
      match nextState.ms {
        case MActive => next := EnterLinkProberState(nextState, PActive, forceReset);
        case MStandby => next := EnterLinkProberState(nextState, PStandby, forceReset);
        case MUnknown => next := EnterLinkProberState(nextState, PUnknown, forceReset);
        case MError => next := EnterLinkProberState(nextState, PWait, forceReset);
        case MWait => next := EnterLinkProberState(nextState, PWait, forceReset);
      }
    }

    // ----- backoffs, health and default route -----

    method StepBackoff(kind: Spec.BackoffKind)
      modifies this`unknownActiveUpBackoffFactor, this`waitStandbyUpBackoffFactor, this`muxUnknownBackoffFactor
      modifies this`waitActiveUpCount
      ensures Counters() == Spec.Used(old(Counters()), kind)
    {
      match kind {
        case UnknownActiveUp =>
          unknownActiveUpBackoffFactor := Logs.Doubled(Spec.MAX_BACKOFF_FACTOR, unknownActiveUpBackoffFactor);
        case WaitStandbyUp =>
          waitStandbyUpBackoffFactor := Logs.Doubled(Spec.MAX_BACKOFF_FACTOR, waitStandbyUpBackoffFactor);
        case MuxUnknown => muxUnknownBackoffFactor := Logs.Doubled(Spec.MAX_BACKOFF_FACTOR, muxUnknownBackoffFactor);
        case WaitActiveUp => waitActiveUpCount := Inc32(waitActiveUpCount);
      }
    }

    method RestartBackoff(kind: Spec.BackoffKind)
      modifies this`unknownActiveUpBackoffFactor, this`waitStandbyUpBackoffFactor, this`muxUnknownBackoffFactor
      modifies this`waitActiveUpCount
      ensures Counters() == Spec.Restarted(old(Counters()), kind)
    {
      match kind {
        case UnknownActiveUp => unknownActiveUpBackoffFactor := 1;
        case WaitStandbyUp => waitStandbyUpBackoffFactor := 1;
        case MuxUnknown => muxUnknownBackoffFactor := 1;
        case WaitActiveUp => waitActiveUpCount := 0;
      }
    }

    function BackoffFactor(kind: Spec.BackoffKind): (f: uint32)
      reads this
      ensures f == Spec.FactorOf(Counters(), kind)
    {
      match kind
      case UnknownActiveUp => unknownActiveUpBackoffFactor
      case WaitStandbyUp => waitStandbyUpBackoffFactor
      case MuxUnknown => muxUnknownBackoffFactor
      case WaitActiveUp => if waitActiveUpCount > 7 then Spec.MAX_BACKOFF_FACTOR else Spec.ShiftedOne(waitActiveUpCount)
    }

    /** Start a timer, or a suspension, with the current factor and step on to the next one. */
    method UseBackoff(nextState: Composite, kind: Spec.BackoffKind)
      requires Valid()
      modifies this`journal, this`unknownActiveUpBackoffFactor, this`waitStandbyUpBackoffFactor
      modifies this`muxUnknownBackoffFactor, this`waitActiveUpCount
      ensures Valid()
      ensures Working(nextState) == Spec.UseBackoff(old(Working(nextState)), kind)
    {
      hide BackoffFactor, Counters, Spec.FactorOf, Spec.Used, Spec.Record;
      Emit(nextState, Spec.Backoff(kind, BackoffFactor(kind)));
      ghost var s := Working(nextState);
      StepBackoff(kind);
      assert Working(nextState) == s.(counters := Counters());
    }

    method ResetBackoff(nextState: Composite, kind: Spec.BackoffKind)
      requires Valid()
      modifies this`journal, this`unknownActiveUpBackoffFactor, this`waitStandbyUpBackoffFactor
      modifies this`muxUnknownBackoffFactor, this`waitActiveUpCount
      ensures Valid()
      ensures Working(nextState) == Spec.ResetBackoff(old(Working(nextState)), kind)
    {
      hide Counters, Spec.Restarted, Spec.Record;
      Emit(nextState, Spec.BackoffReset(kind));
      ghost var s := Working(nextState);
      RestartBackoff(kind);
      assert Working(nextState) == s.(counters := Counters());
    }

    method SetHealth(h: Health)
      requires Valid()
      modifies this`health, this`journal
      ensures Valid()
      ensures var s := old(View());
              View() == if s.admin.health == h then s else Spec.Emit(s.(admin := s.admin.(health := h)), Spec.LinkmgrState(h))
    {
      hide Spec.Emit;
      if health != h {
        health := h;
        Emit(compositeState, Spec.LinkmgrState(h));
      }
    }

    method UpdateMuxLinkmgrState()
      requires Valid()
      modifies this`health, this`journal
      ensures Valid() && View() == Spec.UpdateHealth(cfg, old(View()))
    {
      hide Spec.Record;
      var c, h := compositeState, Unhealthy;
      if && c.ls == LUp
         && ((c.ps == PActive && c.ms == MActive) || (c.ps == PStandby && c.ms == MStandby))
         && (!cfg.defaultRouteFeature || defaultRouteState == RouteOK) {
        h := Healthy;
        Emit(compositeState, Spec.RevertInterval);
      }
      SetHealth(h);
    }

    method ShutdownOrRestartLinkProber()
      requires Valid()
      modifies this`journal
      ensures Valid() && View() == Spec.ShutdownOrRestart(old(View()))
    {
      hide Spec.Record;
      if componentInitState.All() {
        if (mode == Auto || mode == ModeStandby) && defaultRouteState == RouteNA {
          Emit(compositeState, Spec.ShutdownTx);
        } else {
          Emit(compositeState, Spec.RestartTx);
        }
      }
    }

    // ----- transition functions; they run before `nextState` replaces `compositeState` -----

    /** Active prober over standby mux, and standby prober over active mux. */
    method ProbeNowOrLater(nextState: Composite) returns (next: Composite)
      requires Valid()
      modifies this, muxStateMachine
      ensures Valid() && compositeState == old(compositeState)
      ensures Working(next) == Spec.ProbeNowOrLater(old(Working(nextState)), compositeState)
    {
      hide Spec.Record, Spec.EnterMuxWait;
      next := nextState;
      if compositeState.ps != nextState.ps && (nextState.ps == PActive || nextState.ps == PStandby) {
        next := EnterMuxWaitState(nextState);
      } else {
        Emit(nextState, Spec.ProbeTimer(1));
      }
    }

    method LinkProberUnknownMuxActiveLinkUp(nextState: Composite)
      requires Valid()
      modifies this
      ensures Valid() && compositeState == old(compositeState)
      ensures Working(nextState) ==
              Spec.ResetBackoff(Spec.UseBackoff(old(Working(nextState)), Spec.UnknownActiveUp), Spec.WaitActiveUp)
    {
      hide Spec.UseBackoff, Spec.ResetBackoff;
      UseBackoff(nextState, Spec.UnknownActiveUp);
      ResetBackoff(nextState, Spec.WaitActiveUp);
    }

    method LinkProberUnknownMuxStandbyLinkUp(nextState: Composite) returns (next: Composite)
      requires Valid()
      modifies this, linkProberStateMachine, muxStateMachine
      ensures Valid() && compositeState == old(compositeState)
      ensures Working(next) == Spec.UnknownStandbyUpTransition(cfg, old(Working(nextState)))
    {
      hide Spec.EnterProber, Spec.SwitchMux, Spec.EnterMuxWait, Spec.ResetBackoff;
      next := EnterLinkProberState(nextState, PWait, false);
      if defaultRouteState == RouteOK {
        next := SwitchMuxState(Spec.PeerHeartbeatMissing, next, MActive, false);
      } else {
        next := EnterMuxWaitState(next);
      }
      ResetBackoff(next, Spec.WaitActiveUp);
    }

    method LinkProberActiveMuxUnknownLinkUp(nextState: Composite) returns (next: Composite)
      requires Valid()
      modifies this, muxStateMachine
      ensures Valid() && compositeState == old(compositeState)
      ensures Working(next) == Spec.ActiveUnknownUpTransition(cfg, old(Working(nextState)))
    {
      hide Spec.SwitchMux, Spec.EnterMuxWait;
      activeUnknownUpCount := Inc32(activeUnknownUpCount);
      if activeUnknownUpCount == cfg.negativeRetry {
        next := SwitchMuxState(Spec.HardwareStateUnknown, nextState, MActive, false);
      } else {
        next := EnterMuxWaitState(nextState);
      }
    }

    method LinkProberStandbyMuxUnknownLinkUp(nextState: Composite) returns (next: Composite)
      requires Valid()
      modifies this, muxStateMachine
      ensures Valid() && compositeState == old(compositeState)
      ensures Working(next) == Spec.StandbyUnknownUpTransition(cfg, old(Working(nextState)), compositeState)
    {
      hide Spec.Emit, Spec.SwitchMux, Spec.EnterMuxWait;
      standbyUnknownUpCount := Inc32(standbyUnknownUpCount);
      next := nextState;
      if compositeState.ps != nextState.ps && (nextState.ps == PActive || nextState.ps == PStandby) {
        next := EnterMuxWaitState(nextState);
      } else if standbyUnknownUpCount == cfg.negativeRetry {
        next := SwitchMuxState(Spec.HardwareStateUnknown, nextState, MStandby, false);
      } else {
        Emit(nextState, Spec.ProbeTimer(1));
      }
    }

    /** Any prober over a mux in error: only a prober that has just decided is a reason to probe. */
    method MuxErrorLinkUp(nextState: Composite) returns (next: Composite)
      requires Valid()
      modifies this, muxStateMachine
      ensures Valid() && compositeState == old(compositeState)
      ensures var s := old(Working(nextState));
              Working(next) == if Spec.ProberDecided(compositeState, s.comp) then Spec.EnterMuxWait(s) else s
    {
      hide Spec.EnterMuxWait;
      next := nextState;
      if compositeState.ps != nextState.ps && (nextState.ps == PActive || nextState.ps == PStandby) {
        next := EnterMuxWaitState(nextState);
      }
    }

    method StartOscillationTimer(nextState: Composite)
      requires Valid()
      modifies this`oscillationTimerAlive, this`journal
      ensures Valid() && Working(nextState) == Spec.StartOscillation(old(Working(nextState)))
    {
      hide Spec.Emit;
      if !oscillationTimerAlive {
        oscillationTimerAlive := true;
        Emit(nextState, Spec.OscillationTimer);
      }
    }

    method LinkProberWaitMuxActiveLinkUp(nextState: Composite)
      requires Valid()
      modifies this
      ensures Valid() && compositeState == old(compositeState)
      ensures Working(nextState) == Spec.WaitActiveUpTransition(old(Working(nextState)))
    {
      hide Spec.Record, Spec.UseBackoff, Spec.StartOscillation;
      var n := waitActiveUpCount;
      UseBackoff(nextState, Spec.WaitActiveUp);
      if n % 2 == 1 {
        Emit(nextState, Spec.SuspendTx);
      }
      StartOscillationTimer(nextState);
    }

    /** `mStateTransitionHandler[ps][ms][ls]`; an entry that is not filled in does nothing. */
    method StateTransition(nextState: Composite) returns (next: Composite)
      requires Valid()
      modifies this, linkProberStateMachine, muxStateMachine
      ensures Valid() && compositeState == old(compositeState)
      ensures Working(next) == Spec.Transition(cfg, old(Working(nextState)), compositeState)
    {
      hide Spec.Emit, Spec.ProbeNowOrLater, Spec.ResetBackoff, Spec.UseBackoff, Spec.EnterMuxWait;
      hide Spec.UnknownStandbyUpTransition, Spec.ActiveUnknownUpTransition, Spec.StandbyUnknownUpTransition;
      hide Spec.WaitActiveUpTransition;
      next := nextState;
      match nextState {
        case Composite(PStandby, MActive, LUp) => next := ProbeNowOrLater(nextState);
        case Composite(PActive, MStandby, LUp) => next := ProbeNowOrLater(nextState);
        case Composite(PUnknown, MActive, LUp) => LinkProberUnknownMuxActiveLinkUp(nextState);
        case Composite(PUnknown, MStandby, LUp) => next := LinkProberUnknownMuxStandbyLinkUp(nextState);
        case Composite(PActive, MUnknown, LUp) => next := LinkProberActiveMuxUnknownLinkUp(nextState);
        case Composite(PStandby, MUnknown, LUp) => next := LinkProberStandbyMuxUnknownLinkUp(nextState);
        case Composite(PUnknown, MUnknown, _) => UseBackoff(nextState, Spec.MuxUnknown);
        case Composite(PWait, MUnknown, _) => UseBackoff(nextState, Spec.MuxUnknown);
        case Composite(PActive, MError, LUp) => next := MuxErrorLinkUp(nextState);
        case Composite(PStandby, MError, LUp) => next := MuxErrorLinkUp(nextState);
        case Composite(PWait, MActive, LUp) => LinkProberWaitMuxActiveLinkUp(nextState);
        case Composite(PWait, MStandby, LUp) => UseBackoff(nextState, Spec.WaitStandbyUp);
        case Composite(PUnknown, MActive, LDown) => Emit(nextState, Spec.ProbeTimer(1));
        case Composite(PUnknown, MStandby, LDown) => Emit(nextState, Spec.ProbeTimer(1));
        case Composite(PWait, MActive, LDown) => Emit(nextState, Spec.ProbeTimer(1));
        case Composite(PWait, MStandby, LDown) => Emit(nextState, Spec.ProbeTimer(1));
        case _ =>
      }
    }

    // ----- changes reported by the sub-machines -----

    method CancelOscillationTimer(nextState: Composite)
      requires Valid()
      modifies this`oscillationTimerAlive
      ensures Valid() && Working(nextState) == Spec.CancelOscillation(old(Working(nextState)))
    {
      if oscillationTimerAlive {
        oscillationTimerAlive := false;
      }
    }

    method NoteContinuousUnknown(l: ProberLabel)
      requires Valid()
      modifies this`continuousLinkProberUnknownEvent, this`journal
      ensures Valid() && View() == Spec.NoteContinuousUnknown(old(View()), l)
    {
      hide Spec.Emit;
      if continuousLinkProberUnknownEvent && l != PUnknown {
        continuousLinkProberUnknownEvent := false;
      }
      if !continuousLinkProberUnknownEvent && l == PUnknown {
        continuousLinkProberUnknownEvent := true;
        Emit(compositeState, Spec.PostProberMetric(Spec.LinkProberUnknownStart));
      }
    }

    method NoteProberActive()
      requires Valid()
      modifies this`journal, this`oscillationTimerAlive, this`standbyUnknownUpCount
      ensures Valid() && View() == Spec.NoteProberActive(old(View()))
    {
      hide Spec.Record, Spec.CancelOscillation;
      Emit(compositeState, Spec.PostProberMetric(Spec.LinkProberActiveStart));
      standbyUnknownUpCount := 0;
      CancelOscillationTimer(compositeState);
    }

    method NoteProberStandby()
      requires Valid()
      modifies this`journal, this`oscillationTimerAlive, this`activeUnknownUpCount
      ensures Valid() && View() == Spec.NoteProberStandby(old(View()))
    {
      hide Spec.Record, Spec.CancelOscillation;
      Emit(compositeState, Spec.PostProberMetric(Spec.LinkProberStandbyStart));
      activeUnknownUpCount := 0;
      CancelOscillationTimer(compositeState);
    }

    method NoteProberChange(l: ProberLabel)
      requires Valid()
      modifies this`continuousLinkProberUnknownEvent, this`journal, this`oscillationTimerAlive
      modifies this`standbyUnknownUpCount, this`activeUnknownUpCount
      ensures Valid() && View() == Spec.NoteProberChange(old(View()), l)
    {
      hide Spec.NoteContinuousUnknown, Spec.NoteProberActive, Spec.NoteProberStandby;
      NoteContinuousUnknown(l);
      if l == PActive {
        NoteProberActive();
      }
      if l == PStandby {
        NoteProberStandby();
      }
    }

    method AcceptProberChange(l: ProberLabel)
      requires Valid()
      modifies this, linkProberStateMachine, muxStateMachine
      ensures Valid() && View() == Spec.AcceptProberChange(cfg, old(View()), l)
    {
      hide Spec.NoteProberChange, Spec.Transition;
      NoteProberChange(l);
      var next := StateTransition(compositeState.(ps := l));
      SetCompositeState(next);
    }

    method ResumeHeartbeats()
      requires Valid()
      modifies this
      ensures Valid() && compositeState == old(compositeState)
      ensures View() == Spec.ResetBackoff(Spec.Emit(old(View()), Spec.ResumeTx), Spec.UnknownActiveUp)
    {
      hide Spec.ResetBackoff, Spec.Emit;
      Emit(compositeState, Spec.ResumeTx);
      ResetBackoff(compositeState, Spec.UnknownActiveUp);
    }

    /** `handleStateChange(LinkProberEvent)`: a change that the prober has left behind is dropped. */
    method HandleProberStateChange(l: ProberLabel)
      requires Valid()
      modifies this, linkProberStateMachine, muxStateMachine
      ensures Valid() && View() == Spec.HandleProberChange(cfg, old(View()), l)
    {
      hide Spec.AcceptProberChange, Spec.UpdateHealth, Spec.ResetBackoff, Spec.Emit;
      if linkProberStateMachine.current == l {
        AcceptProberChange(l);
      }
      if compositeState.ps != PUnknown {
        ResumeHeartbeats();
      }
      UpdateMuxLinkmgrState();
    }

    method AcceptMuxChange(l: MuxLabel)
      requires Valid()
      modifies this, linkProberStateMachine, muxStateMachine
      ensures Valid() && View() == Spec.AcceptMuxChange(cfg, old(View()), l)
    {
      hide Spec.Transition, Spec.Record;
      Emit(compositeState, Spec.MuxAccepted(l));
      var next := StateTransition(compositeState.(ms := l));
      SetCompositeState(next);
    }

    method TakeUpMuxChange(l: MuxLabel)
      requires Valid()
      modifies this, linkProberStateMachine, muxStateMachine
      ensures Valid() && View() == Spec.MuxChangeTaken(cfg, old(View()), l)
    {
      hide Spec.AcceptMuxChange, Spec.MuxSettled;
      if muxStateMachine.current == l {
        AcceptMuxChange(l);
      }
      if compositeState.ms != MWait {
        MuxSettled();
      }
    }

    method MuxSettled()
      requires Valid()
      modifies this, linkProberStateMachine, muxStateMachine
      ensures Valid() && View() == Spec.MuxSettled(cfg, old(View()))
    {
      hide Spec.Record, Spec.HandleMuxConfig;
      Emit(compositeState, Spec.GetMux);
      if pendingMuxModeChange {
        HandleMuxConfigNotification(targetMuxMode);
        pendingMuxModeChange := false;
      }
    }

    method ClearUnknownUpCounts(nextState: Composite)
      requires Valid()
      modifies this`activeUnknownUpCount, this`standbyUnknownUpCount
      ensures Valid() && Working(nextState) == Spec.ClearUnknownUps(old(Working(nextState)))
    {
      activeUnknownUpCount := 0;
      standbyUnknownUpCount := 0;
    }

    method ForgetUnknownMux()
      requires Valid()
      modifies this
      ensures Valid() && compositeState == old(compositeState)
      ensures View() == Spec.ClearUnknownUps(Spec.ResetBackoff(old(View()), Spec.MuxUnknown))
    {
      hide Spec.ResetBackoff, Spec.ClearUnknownUps;
      ResetBackoff(compositeState, Spec.MuxUnknown);
      ClearUnknownUpCounts(compositeState);
    }

    /** `handleStateChange(MuxStateEvent)` */
    method HandleMuxStateChange(l: MuxLabel)
      requires Valid()
      modifies this, linkProberStateMachine, muxStateMachine
      ensures Valid() && View() == Spec.HandleMuxChange(cfg, old(View()), l)
    {
      hide Spec.MuxChangeTaken, Spec.UpdateHealth, Spec.ResetBackoff;
      hide Spec.ClearUnknownUps, Spec.CancelOscillation;
      TakeUpMuxChange(l);
      if l != MUnknown {
        ForgetUnknownMux();
      }
      if l == MStandby {
        CancelOscillationTimer(compositeState);
      }
      UpdateMuxLinkmgrState();
    }

    method LinkCameUp()
      requires Valid()
      modifies this, linkProberStateMachine
      ensures Valid() && View() == Spec.LinkCameUp(old(View()))
    {
      hide Spec.InitProber, Spec.ResetBackoff;
      var next := InitLinkProberState(compositeState.(ls := LUp), true);
      ResetBackoff(next, Spec.MuxUnknown);
      SetCompositeState(next);
    }

    method LinkWentDown()
      requires Valid()
      modifies this, muxStateMachine
      ensures Valid() && View() == Spec.LinkWentDown(cfg, old(View()))
    {
      hide Spec.SwitchMux, Spec.ResetBackoff, Spec.CancelOscillation, Spec.ClearUnknownUps;
      var next := SwitchMuxState(Spec.LinkDown, compositeState.(ls := LDown), MStandby, false);
      ClearUnknownUpCounts(next);
      ResetBackoff(next, Spec.WaitActiveUp);
      ResetBackoff(next, Spec.WaitStandbyUp);
      ResetBackoff(next, Spec.UnknownActiveUp);
      CancelOscillationTimer(next);
      SetCompositeState(next);
    }

    method AcceptLinkChange(l: LinkLabel)
      requires Valid()
      modifies this, linkProberStateMachine, muxStateMachine
      ensures Valid() && View() == Spec.AcceptLinkChange(cfg, old(View()), l)
    {
      hide Spec.LinkCameUp, Spec.LinkWentDown, Spec.Transition;
      if compositeState.ls == LDown && l == LUp {
        LinkCameUp();
      } else if compositeState.ls == LUp && l == LDown && compositeState.ms != MStandby {
        LinkWentDown();
      } else {
        var next := StateTransition(compositeState.(ls := l));
        SetCompositeState(next);
      }
    }

    /** `handleStateChange(LinkStateEvent)` */
    method HandleLinkStateChange(l: LinkLabel)
      requires Valid()
      modifies this, linkProberStateMachine, muxStateMachine
      ensures Valid() && View() == Spec.HandleLinkChange(cfg, old(View()), l)
    {
      hide Spec.AcceptLinkChange, Spec.UpdateHealth;
      if linkStateMachine.current == l {
        AcceptLinkChange(l);
      }
      UpdateMuxLinkmgrState();
    }

    // ----- configuration -----

    method NoteSwitchCommand(cause: Spec.SwitchCause)
      requires Valid()
      modifies this`sendSwitchActiveCommandCause, this`switchCommands
      ensures Valid()
      ensures var s := old(View());
              View() == s.(admin := s.admin.(sendCause := Some(cause), switchCommands := s.admin.switchCommands + 1))
    {
      sendSwitchActiveCommandCause := Some(cause);
      switchCommands := switchCommands + 1;
    }

    method SendPeerSwitchCommand(cause: Spec.SwitchCause)
      requires Valid()
      modifies this`sendSwitchActiveCommandCause, this`switchCommands, this`journal
      ensures Valid() && View() == Spec.SendSwitchCommand(old(View()), cause)
    {
      hide Spec.Emit;
      NoteSwitchCommand(cause);
      Emit(compositeState, Spec.SendPeerSwitchCommand);
    }

    method ActOnMode(newMode: Mode)
      requires Valid()
      modifies this, linkProberStateMachine, muxStateMachine
      ensures Valid() && View() == Spec.ActOnMode(cfg, old(View()), newMode)
    {
      hide Spec.Emit, Spec.EnterProber, Spec.SwitchMux, Spec.SendSwitchCommand;
      if newMode == ModeActive && compositeState.ms != MActive {
        var next := EnterLinkProberState(compositeState, PWait, false);
        next := SwitchMuxState(Spec.ConfigMuxMode, next, MActive, false);
        SetCompositeState(next);
      } else if newMode == ModeStandby && compositeState.ms != MStandby {
        SendPeerSwitchCommand(Spec.ConfigMuxMode);
      } else if compositeState.ls == LDown && compositeState.ms != MStandby {
        var next := SwitchMuxState(Spec.LinkDown, compositeState, MStandby, true);
        SetCompositeState(next);
      } else {
        Emit(compositeState, Spec.ProbeTimer(1));
      }
    }

    method SetMode(newMode: Mode)
      requires Valid()
      modifies this`mode, this`journal
      ensures Valid() && View() == Spec.Emit(old(View()).(admin := old(View()).admin.(mode := newMode)), Spec.ModeSet(newMode))
    {
      hide Spec.Emit;
      mode := newMode;
      Emit(compositeState, Spec.ModeSet(newMode));
    }

    method ApplyMode(newMode: Mode)
      requires Valid()
      modifies this, linkProberStateMachine, muxStateMachine
      ensures Valid() && View() == Spec.ApplyMode(cfg, old(View()), newMode)
    {
      hide Spec.Emit, Spec.ActOnMode, Spec.UpdateHealth, Spec.ShutdownOrRestart;
      if componentInitState.All() {
        ActOnMode(newMode);
        UpdateMuxLinkmgrState();
      }
      SetMode(newMode);
      ShutdownOrRestartLinkProber();
    }

    method HandleMuxConfigNotification(newMode: Mode)
      requires Valid()
      modifies this, linkProberStateMachine, muxStateMachine
      ensures Valid() && View() == Spec.HandleMuxConfig(cfg, old(View()), newMode)
    {
      hide Spec.ApplyMode;
      if componentInitState.mux && newMode != Auto && newMode != Manual && compositeState.ms == MWait {
        pendingMuxModeChange := true;
        targetMuxMode := newMode;
        return;
      }
      ApplyMode(newMode);
    }

    // ----- activation -----

    method StartProber()
      requires Valid()
      modifies this, linkProberStateMachine
      ensures Valid() && View() == Spec.StartProber(cfg, old(View()))
    {
      hide Spec.Emit, Spec.InitProber, Spec.UpdateHealth, Spec.ShutdownOrRestart;
      var next := InitLinkProberState(compositeState, false);
      SetCompositeState(next);
      if cfg.defaultRouteFeature {
        ShutdownOrRestartLinkProber();
      }
      Emit(compositeState, Spec.InitializeProber);
      Emit(compositeState, Spec.StartProbing);
      UpdateMuxLinkmgrState();
    }

    method ActivateStateMachine()
      requires Valid()
      modifies this, linkProberStateMachine
      ensures Valid() && View() == Spec.Activate(cfg, old(View()))
    {
      hide Spec.Emit, Spec.StartProber;
      var init := componentInitState;
      if init.All() {
        StartProber();
      }
      if init.prober && init.mux {
        Emit(compositeState, Spec.WarmRestartReconciliation);
      }
    }

    method SetComponentInitState(init: InitBits)
      requires Valid()
      modifies this`componentInitState
      ensures Valid() && View() == Spec.WithInit(old(View()), init)
    {
      componentInitState := init;
    }

    method HandleBladeIpv4AddressUpdate(changed: bool)
      requires Valid()
      modifies this, linkProberStateMachine
      ensures Valid() && View() == Spec.HandleBladeIp(cfg, old(View()), changed)
    {
      hide Spec.Emit, Spec.Activate, Spec.WithInit;
      if !componentInitState.prober {
        SetComponentInitState(componentInitState.(prober := true));
        ActivateStateMachine();
      } else if changed {
        Emit(compositeState, Spec.UpdateEthernetFrame);
      }
    }

    method PostMuxStateEvent(l: MuxLabel)
      requires Valid()
      modifies strand
      ensures Valid() && View() == Spec.Post(old(View()), Spec.EventFor(l))
    {
      match l {
        case MActive => strand.Post(MuxEventMsg(ActiveEvent));
        case MStandby => strand.Post(MuxEventMsg(StandbyEvent));
        case MUnknown => strand.Post(MuxEventMsg(UnknownEvent));
        case MError => strand.Post(MuxEventMsg(ErrorEvent));
        case MWait =>
      }
    }

    method SettleMux(l: MuxLabel)
      requires Valid()
      modifies this, linkProberStateMachine, muxStateMachine
      ensures Valid() && View() == Spec.SettleMux(cfg, old(View()), l)
    {
      hide Spec.Record, Spec.Activate, Spec.WithInit, MuxState.Entered;
      Emit(compositeState, Spec.MuxForced(l));
      var next := EnterMuxState(compositeState, l);
      SetCompositeState(next);
      SetComponentInitState(componentInitState.(mux := true));
      ActivateStateMachine();
    }

    method HandleProbeMuxStateNotification(l: MuxLabel)
      requires Valid()
      modifies this, linkProberStateMachine, muxStateMachine, strand
      ensures Valid() && View() == Spec.HandleProbeMuxState(cfg, old(View()), l)
    {
      hide Spec.Emit, Spec.SettleMux, Spec.Post, MuxState.Entered, MuxState.SetCause;
      if componentInitState.All() {
        PostMuxStateEvent(l);
      } else if l != MUnknown {
        var next := EnterMuxState(compositeState, MWait);
        SetCompositeState(next);
        muxStateMachine.SetWaitStateCause(SwssUpdate);
        Emit(compositeState, Spec.InitialSet(l));
      } else {
        SettleMux(l);
      }
    }

    method EndSwitching(l: MuxLabel)
      requires Valid()
      modifies this`journal, muxStateMachine
      ensures Valid()
      ensures var s := old(View());
              View() == if s.mux.swssCause then Spec.Emit(s, Spec.SwitchingEnd(l)).(mux := MuxState.ResetSwssCause(s.mux)) else s
    {
      hide Spec.Record, MuxState.ResetSwssCause;
      if muxStateMachine.swssCause {
        Emit(compositeState, Spec.SwitchingEnd(l));
        muxStateMachine.ResetSwssUpdateCause();
      }
    }

    method HandleMuxStateNotification(l: MuxLabel)
      requires Valid()
      modifies this, linkProberStateMachine, muxStateMachine, strand
      ensures Valid() && View() == Spec.HandleMuxState(cfg, old(View()), l)
    {
      hide Spec.Record, Spec.EventFor, Spec.EnterMuxWait, Spec.SettleMux;
      if componentInitState.All() {
        Emit(compositeState, Spec.ProbePeerTor);
        PostMuxStateEvent(l);
        EndSwitching(l);
      } else if l == MUnknown {
        var next := EnterMuxWaitState(compositeState);
        SetCompositeState(next);
      } else {
        SettleMux(l);
      }
    }

    method HandleSwssLinkStateNotification(l: LinkLabel)
      requires Valid()
      modifies this, linkProberStateMachine, linkStateMachine, strand
      ensures Valid() && View() == Spec.HandleSwssLink(cfg, old(View()), l)
    {
      hide Spec.Activate, Spec.WithInit;
      if componentInitState.All() {
        match l {
          case LUp => strand.Post(LinkEventMsg(UpEvent));
          case LDown => strand.Post(LinkEventMsg(DownEvent));
        }
      } else {
        var next := EnterLinkState(compositeState, l);
        SetCompositeState(next);
        SetComponentInitState(componentInitState.(link := true));
        ActivateStateMachine();
      }
    }

    // ----- the other notifications -----

    method HandleGetMuxStateNotification(l: MuxLabel)
      requires Valid()
      modifies this, muxStateMachine
      ensures Valid() && View() == Spec.HandleGetMuxState(cfg, old(View()), l)
    {
      hide Spec.SwitchMux;
      var held := compositeState.ms;
      if && componentInitState.All()
         && held != MWait && held != MError && held != MUnknown
         && (held != l || lastSetMuxState != l) {
        var next := SwitchMuxState(Spec.MatchingHardwareState, compositeState, held, true);
        SetCompositeState(next);
      }
    }

    method NotePeerLink(l: LinkLabel)
      requires Valid()
      modifies this`peerLinkState
      ensures Valid() && View() == old(View()).(admin := old(View()).admin.(peerLink := l))
    {
      peerLinkState := l;
    }

    method HandlePeerLinkStateNotification(l: LinkLabel)
      requires Valid()
      modifies this, linkProberStateMachine, muxStateMachine
      ensures Valid() && View() == Spec.HandlePeerLink(cfg, old(View()), l)
    {
      hide Spec.EnterProber, Spec.SwitchMux;
      NotePeerLink(l);
      if l == LDown && compositeState.ls == LUp && compositeState.ms == MStandby {
        var next := EnterLinkProberState(compositeState, PWait, false);
        if defaultRouteState == RouteOK {
          next := SwitchMuxState(Spec.PeerLinkDown, next, MActive, false);
        }
        SetCompositeState(next);
      }
    }

    method HandleSuspendTimerExpiry()
      requires Valid()
      modifies this, muxStateMachine
      ensures Valid() && View() == Spec.HandleSuspendExpiry(old(View()))
    {
      hide Spec.Emit, Spec.EnterMuxWait, Spec.ResetBackoff;
      if compositeState.ps == PUnknown && compositeState.ms == MActive && compositeState.ls == LUp {
        var next := EnterMuxWaitState(compositeState);
        SetCompositeState(next);
        Emit(compositeState, Spec.DetectLink);
      } else {
        ResetBackoff(compositeState, Spec.UnknownActiveUp);
      }
    }

    method HandleSwitchActiveCommandCompletion()
      requires Valid()
      modifies this, linkProberStateMachine, muxStateMachine
      ensures Valid() && View() == Spec.SwitchCompleted(cfg, old(View()))
    {
      hide Spec.EnterProber, Spec.SwitchMux;
      if compositeState.ms != MStandby {
        match sendSwitchActiveCommandCause {
          case Some(cause) =>
            var next := EnterLinkProberState(compositeState, PWait, false);
            next := SwitchMuxState(cause, next, MStandby, true);
            SetCompositeState(next);
          case None =>
        }
      }
    }

    method HandleSwitchActiveRequestEvent()
      requires Valid()
      modifies this, linkProberStateMachine, muxStateMachine
      ensures Valid() && View() == Spec.SwitchRequested(cfg, old(View()))
    {
      hide Spec.EnterProber, Spec.SwitchMux;
      if compositeState.ms != MActive && compositeState.ms != MWait {
        var next := EnterLinkProberState(compositeState, PWait, false);
        next := SwitchMuxState(Spec.TlvSwitchActiveCommand, next, MActive, false);
        SetCompositeState(next);
      }
    }

    method SetDefaultRouteState(r: DefaultRoute)
      requires Valid()
      modifies this`defaultRouteState
      ensures Valid() && View() == old(View()).(admin := old(View()).admin.(route := r))
    {
      defaultRouteState := r;
    }

    method HandleDefaultRouteStateNotification(r: DefaultRoute)
      requires Valid()
      modifies this, linkProberStateMachine
      ensures Valid() && View() == Spec.HandleDefaultRoute(cfg, old(View()), r)
    {
      hide Spec.InitProber, Spec.UpdateHealth, Spec.ShutdownOrRestart;
      if defaultRouteState == RouteNA && r == RouteOK {
        var next := InitLinkProberState(compositeState, false);
        SetCompositeState(next);
      }
      SetDefaultRouteState(r);
      ShutdownOrRestartLinkProber();
      UpdateMuxLinkmgrState();
    }

    method HandleResetSuspendTimer()
      requires Valid()
      modifies this
      ensures Valid() && View() == Spec.HandleResetSuspendTimer(old(View()))
    {
      hide Spec.Emit, Spec.ResetBackoff;
      if compositeState.ps == PUnknown && compositeState.ms == MActive && compositeState.ls == LUp {
        ResetBackoff(compositeState, Spec.UnknownActiveUp);
        Emit(compositeState, Spec.ResumeTx);
      }
    }

    // ----- timers -----

    method HandleMuxProbeTimeout(success: bool)
      requires Valid()
      modifies this, muxStateMachine
      ensures Valid() && View() == Spec.HandleMuxProbeTimeout(old(View()), success)
    {
      hide Spec.EnterMuxWait, Spec.ResetBackoff;
      var c := compositeState;
      if !(c.ps == PWait && c.ms == MStandby && c.ls == LUp) {
        ResetBackoff(c, Spec.WaitStandbyUp);
      }
      if success && (c.ps == PWait || c.ms == MUnknown || c.ls == LDown
                     || (c.ps == PStandby && c.ms == MActive) || (c.ps == PActive && c.ms == MStandby)) {
        var next := EnterMuxWaitState(c);
        SetCompositeState(next);
      }
    }

    method HandleMuxWaitTimeout(success: bool)
      requires Valid()
      modifies this
      ensures Valid() && View() == Spec.HandleMuxWaitTimeout(old(View()), success)
    {
      hide Spec.SendSwitchCommand;
      if success && muxStateMachine.lastCause == DriverUpdate {
        SendPeerSwitchCommand(Spec.TransceiverDaemonTimeout);
      }
    }

    method HandleOscillationTimeout(success: bool)
      requires Valid()
      modifies this, muxStateMachine
      ensures Valid() && View() == Spec.HandleOscillationTimeout(cfg, old(View()), success)
    {
      hide Spec.SwitchMux;
      var c := compositeState;
      CancelOscillationTimer(c);
      if cfg.oscillationEnabled && success && c.ps == PWait && c.ms == MActive && c.ls == LUp {
        var next := SwitchMuxState(Spec.TimedOscillation, c, MStandby, false);
        SetCompositeState(next);
      }
    }

    // ----- the strand -----

    /** A message that a sub-machine digests. */
    method DeliverToSubMachine(m: Message)
      requires Valid() && ForSubMachine(m)
      modifies linkProberStateMachine, muxStateMachine, linkStateMachine, strand
      ensures Valid() && compositeState == old(compositeState) && View() == Spec.Deliver(cfg, old(View()), m)
    {
      hide LinkProberState.Handled, MuxState.Handled, LinkState.Handled;
      match m {
        case ProberEventMsg(e) => linkProberStateMachine.ProcessEvent(e);
        case MuxEventMsg(e) => muxStateMachine.ProcessEvent(e);
        case LinkEventMsg(e) => linkStateMachine.ProcessEvent(e);
        case SuspendTimerExpiredMsg => strand.Post(Message.HandleSuspendTimerExpiry);
        case SwitchCommandCompleteMsg => strand.Post(HandleSwitchCompletion);
        case SwitchRequestMsg => strand.Post(HandleSwitchRequest);
        case _ =>
      }
    }

    method Deliver(m: Message)
      requires Valid()
      modifies this, linkProberStateMachine, muxStateMachine, linkStateMachine, strand
      ensures Valid() && View() == Spec.Deliver(cfg, old(View()), m)
    {
      hide View, Working;
      hide Spec.HandleProberChange, Spec.HandleMuxChange, Spec.HandleLinkChange;
      hide Spec.HandleSuspendExpiry, Spec.SwitchCompleted, Spec.SwitchRequested;
      if ForSubMachine(m) {
        hide Spec.Deliver;
        DeliverToSubMachine(m);
        return;
      }
      match m {
        case ProberChange(l) => HandleProberStateChange(l);
        case MuxChange(l) => HandleMuxStateChange(l);
        case LinkChange(l) => HandleLinkStateChange(l);
        case HandleSuspendTimerExpiry => HandleSuspendTimerExpiry();
        case HandleSwitchCompletion => HandleSwitchActiveCommandCompletion();
        case HandleSwitchRequest => HandleSwitchActiveRequestEvent();
        case _ =>
      }
    }

    method RunStrand()
      requires Valid()
      modifies this, linkProberStateMachine, muxStateMachine, linkStateMachine, strand
      ensures Valid() && View() == Spec.Next(cfg, old(View()), Spec.RunStrand)
    {
      hide Spec.Deliver;
      if strand.queue != [] {
        var m := strand.Take();
        Deliver(m);
      }
    }

    method NoteSwitchCommandSent()
      requires Valid()
      modifies this`switchCommands, strand
      ensures Valid() && View() == Spec.Next(cfg, old(View()), Spec.SwitchCommandSent)
    {
      if switchCommands != 0 {
        switchCommands := switchCommands - 1;
        strand.Post(SwitchCommandCompleteMsg);
      }
    }

    predicate FromProber(step: Spec.Step) {
      step.Heartbeat? || step.SuspendTimerExpired? || step.SwitchCommandSent? || step.SwitchRequestReceived?
    }

    /** What the prober reports goes on the strand. */
    method PostProberReport(step: Spec.Step)
      requires Valid() && FromProber(step)
      modifies this`switchCommands, strand
      ensures Valid() && View() == Spec.Next(cfg, old(View()), step)
    {
      match step {
        case Heartbeat(e) => strand.Post(ProberEventMsg(e));
        case SuspendTimerExpired => strand.Post(SuspendTimerExpiredMsg);
        case SwitchCommandSent => NoteSwitchCommandSent();
        case SwitchRequestReceived => strand.Post(SwitchRequestMsg);
      }
    }

    /** Everything that can happen to a port, one thing at a time. */
    method Perform(step: Spec.Step)
      requires Valid()
      modifies this, linkProberStateMachine, muxStateMachine, linkStateMachine, strand
      ensures Valid() && View() == Spec.Next(cfg, old(View()), step)
    {
      hide View, Working;
      hide Spec.Deliver, Spec.HandleBladeIp, Spec.HandleMuxState, Spec.HandleProbeMuxState, Spec.HandleSwssLink;
      hide Spec.HandleGetMuxState, Spec.HandlePeerLink, Spec.HandleMuxConfig, Spec.HandleDefaultRoute;
      hide Spec.HandleResetSuspendTimer, Spec.HandleMuxProbeTimeout, Spec.HandleMuxWaitTimeout;
      hide Spec.HandleOscillationTimeout;
      match step {
        case RunStrand => RunStrand();
        case BladeIp(changed) => HandleBladeIpv4AddressUpdate(changed);
        case MuxStateNotification(l) => HandleMuxStateNotification(l);
        case ProbeMuxState(l) => HandleProbeMuxStateNotification(l);
        case GetMuxState(l) => HandleGetMuxStateNotification(l);
        case SwssLink(l) => HandleSwssLinkStateNotification(l);
        case PeerLink(l) => HandlePeerLinkStateNotification(l);
        case MuxConfig(newMode) => HandleMuxConfigNotification(newMode);
        case DefaultRouteState(r) => HandleDefaultRouteStateNotification(r);
        case ResetSuspendTimer => HandleResetSuspendTimer();
        case MuxProbeTimeout(success) => HandleMuxProbeTimeout(success);
        case MuxWaitTimeout(success) => HandleMuxWaitTimeout(success);
        case OscillationTimeout(success) => HandleOscillationTimeout(success);
        case _ => PostProberReport(step);
      }
    }

    /**
     What holds of the port at any moment: its composite agrees with its sub-machines up to what is queued,
     every toggle that it has sent met its condition, and it has started the prober once if it is active.
     */
    ghost predicate Safe()
      requires Valid()
      reads this, linkProberStateMachine, muxStateMachine, linkStateMachine, strand
    {
      var c, outs := compositeState, Logs.Outputs(journal.log);
      && (c.ps == linkProberStateMachine.current || ProberChange(linkProberStateMachine.current) in strand.queue)
      && (c.ms == muxStateMachine.current || MuxChange(muxStateMachine.current) in strand.queue)
      && (c.ls == linkStateMachine.current || LinkChange(linkStateMachine.current) in strand.queue)
      && (forall i :: 0 <= i < |outs| && outs[i].Toggle? ==> Spec.ToggleMet(outs[i].cause, outs[i].ms, outs[i].at))
      && Logs.Count(outs, Runs.IsInitialisation) == Logs.Count(outs, Runs.IsProbing)
         == (if componentInitState.All() then 1 else 0)
    }

    lemma RunIsSafe(steps: seq<Spec.Step>)
      requires Valid() && View() == Spec.Run(cfg, steps)
      ensures Safe()
    {
      hide Spec.Run, Spec.ToggleMet;
      Runs.AlwaysAgrees(cfg, steps);
      Runs.ProberStartsOnce(cfg, steps);
      Runs.InitFollowsNotifications(cfg, steps);
      var outs := Logs.Outputs(journal.log);
      forall i | 0 <= i < |outs| && outs[i].Toggle?
        ensures Spec.ToggleMet(outs[i].cause, outs[i].ms, outs[i].at)
      {
        Runs.TogglesMeetTheirCause(cfg, steps, i);
      }
    }
  }

  /** A port that is built and then lives through any steps is where the specification's run is, and safe. */
  method Serve(cfg: Config, steps: seq<Spec.Step>) returns (port: ActiveStandbyStateMachine)
    ensures fresh(port) && fresh(port.linkProberStateMachine) && fresh(port.muxStateMachine)
    ensures fresh(port.linkStateMachine) && fresh(port.strand)
    ensures port.Valid() && port.cfg == cfg && port.View() == Spec.Run(cfg, steps) && port.Safe()
  {
    hide Spec.Next, Spec.Initial;
    port := new ActiveStandbyStateMachine(cfg);
    var i := 0;
    while i < |steps|
      invariant 0 <= i <= |steps|
      invariant fresh(port) && fresh(port.linkProberStateMachine) && fresh(port.muxStateMachine)
      invariant fresh(port.linkStateMachine) && fresh(port.strand)
      invariant port.Valid() && port.cfg == cfg && port.View() == Spec.Run(cfg, steps[..i])
    {
      port.Perform(steps[i]);
      assert steps[..i + 1][..i] == steps[..i];
      i := i + 1;
    }
    assert steps[..i] == steps;
    port.RunIsSafe(steps);
  }

  lemma OneMoreTurn(cfg: Config, steps: seq<Spec.Step>, turns: nat)
    ensures Spec.Run(cfg, steps + seq(turns + 1, _ => Spec.RunStrand))
            == Spec.Next(cfg, Spec.Run(cfg, steps + seq(turns, _ => Spec.RunStrand)), Spec.RunStrand)
  {
    var before, after := steps + seq(turns, _ => Spec.RunStrand), steps + seq(turns + 1, _ => Spec.RunStrand);
    assert after == before + [Spec.RunStrand] && after[..|after| - 1] == before;
  }

  /**
   Left alone after any steps, the port runs its strand dry, and then its composite is exactly the triple of its
   sub-machines' labels.
   */
  method ServeUntilIdle(cfg: Config, steps: seq<Spec.Step>) returns (port: ActiveStandbyStateMachine, ghost turns: nat)
    ensures port.Valid() && port.View() == Spec.Run(cfg, steps + seq(turns, _ => Spec.RunStrand)) && port.Safe()
    ensures port.strand.queue == []
    ensures port.compositeState ==
            Composite(port.linkProberStateMachine.current, port.muxStateMachine.current, port.linkStateMachine.current)
  {
    hide Spec.Run, Spec.Next;
    port := Serve(cfg, steps);
    turns := 0;
    assert steps + seq(0, _ => Spec.RunStrand) == steps;
    while port.strand.queue != []
      invariant fresh(port) && fresh(port.linkProberStateMachine) && fresh(port.muxStateMachine)
      invariant fresh(port.linkStateMachine) && fresh(port.strand)
      invariant port.Valid() && port.cfg == cfg
      invariant port.View() == Spec.Run(cfg, steps + seq(turns, _ => Spec.RunStrand))
      decreases Weight(port.strand.queue)
    {
      Runs.StrandShrinks(cfg, port.View());
      OneMoreTurn(cfg, steps, turns);
      port.RunStrand();
      turns := turns + 1;
    }
    port.RunIsSafe(steps + seq(turns, _ => Spec.RunStrand));
  }
}
