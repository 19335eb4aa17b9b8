/** What every step of every active-standby run owes, and what follows for the switch-overs that have to happen. */
module ActiveStandbyDuties {
  import opened Labels
  import opened Strand
  import opened Logs
  import opened EventRules
  import opened ActiveStandbySpec
  import opened ActiveStandbyAnswers
  import opened ActiveStandbyRuns
  import MuxState
  import LinkState
  import LinkProberState

  // ----- every step -----

  /** A sub-machine that shows another label says so. */
  function EventDuty(cfg: Config, s: State, m: Message): Duty
    requires m.ProberEventMsg? || m.MuxEventMsg? || m.LinkEventMsg?
  {
    var f := FaceOf(s);
    match m
    case ProberEventMsg(e) =>
      var rules := LinkProberState.Rules(cfg.positiveRetry, cfg.negativeRetry, ActiveStandbyCable, cfg.hardwareProber);
      var l := ProberAfter(s.prober, e, rules);
      Duty([], f.(ps := l, queue := f.queue + if l != f.ps then [ProberChange(l)] else []))
    case MuxEventMsg(e) =>
      var l := MuxAfter(s.mux, e, cfg.muxRetry);
      Duty([], f.(ms := l, queue := f.queue + if l != f.ms then [MuxChange(l)] else []))
    case LinkEventMsg(e) =>
      var l := LinkAfter(s.link, e, cfg.linkRetry);
      Duty([], f.(ls := l, queue := f.queue + if l != f.ls then [LinkChange(l)] else []))
  }

  /** What is owed for a message that has been taken off the strand. */
  function MessageDuty(cfg: Config, s: State, m: Message): Duty {
    var f := FaceOf(s);
    match m
    case ProberEventMsg(_) => EventDuty(cfg, s, m)
    case MuxEventMsg(_) => EventDuty(cfg, s, m)
    case LinkEventMsg(_) => EventDuty(cfg, s, m)
    case SuspendTimerExpiredMsg => Duty([], f.(queue := f.queue + [HandleSuspendTimerExpiry]))
    case SwitchCommandCompleteMsg => Duty([], f.(queue := f.queue + [HandleSwitchCompletion]))
    case SwitchRequestMsg => Duty([], f.(queue := f.queue + [HandleSwitchRequest]))
    case ProberChange(l) => ProberChangeDuty(cfg, s.counters, f, l)
    case MuxChange(l) => MuxChangeDuty(cfg, s.counters, f, l)
    case LinkChange(l) => LinkChangeDuty(cfg, s.counters, f, l)
    case HandleSuspendTimerExpiry => SuspendExpiryDuty(f)
    case HandleSwitchCompletion => CompletionDuty(cfg, f)
    case HandleSwitchRequest => RequestDuty(cfg, f)
    case _ => Duty([], f)
  }

  function DutyOf(cfg: Config, s: State, step: Step): Duty {
    var f := FaceOf(s);
    match step
    case RunStrand => if s.queue == [] then Duty([], f) else MessageDuty(cfg, s.(queue := s.queue[1..]), s.queue[0])
    case BladeIp(changed) => BladeIpDuty(cfg, f, changed)
    case MuxStateNotification(l) => MuxStateDuty(cfg, f, l)
    case ProbeMuxState(l) => ProbeAnswerDuty(cfg, f, l)
    case GetMuxState(l) => CheckDuty(cfg, f, l)
    case SwssLink(l) => SwssLinkDuty(cfg, f, l)
    case PeerLink(l) => PeerLinkDuty(cfg, f, l)
    case MuxConfig(mode) => MuxConfigDuty(cfg, f, mode)
    case DefaultRouteState(route) => RouteDuty(cfg, f, route)
    case ResetSuspendTimer => ResetSuspendDuty(f)
    case Heartbeat(e) => Duty([], f.(queue := f.queue + [ProberEventMsg(e)]))
    case SuspendTimerExpired => Duty([], f.(queue := f.queue + [SuspendTimerExpiredMsg]))
    case SwitchCommandSent =>
      if f.admin.switchCommands == 0 then Duty([], f)
      else Duty([], f.(queue := f.queue + [SwitchCommandCompleteMsg],
                       admin := f.admin.(switchCommands := f.admin.switchCommands - 1)))
    case SwitchRequestReceived => Duty([], f.(queue := f.queue + [SwitchRequestMsg]))
    case MuxProbeTimeout(expired) => ProbeTimeoutDuty(f, expired)
    case MuxWaitTimeout(expired) => WaitTimeoutDuty(f, expired)
    case OscillationTimeout(expired) => OscillationDuty(cfg, f, expired)
  }

  /** All that a step may do to the port. */
  ghost predicate Owes(s: State, s': State, d: Duty) {
    Puts(s, s', d.outs, d.face)
  }

  predicate ServesMuxEvent(s: State, step: Step) {
    step.RunStrand? && s.queue != [] && s.queue[0].MuxEventMsg?
  }

  lemma EventDoes(cfg: Config, s: State, m: Message)
    requires m.ProberEventMsg? || m.MuxEventMsg? || m.LinkEventMsg?
    ensures Owes(s, Deliver(cfg, s, m), EventDuty(cfg, s, m)) && (!m.MuxEventMsg? ==> CountsKept(s, Deliver(cfg, s, m)))
  {
    hide LinkProberState.Handled, MuxState.Handled, LinkState.Handled, ProberAfter, MuxAfter, LinkAfter;
    match m
    case ProberEventMsg(e) => ProberEventShows(s.prober, e, RulesOf(cfg));
    case MuxEventMsg(e) => MuxEventIsCounted(s.mux, e, cfg.muxRetry);
    case LinkEventMsg(e) => LinkEventIsCounted(s.link, e, cfg.linkRetry);
  }

  lemma MessageDoes(cfg: Config, s: State, m: Message)
    ensures Owes(s, Deliver(cfg, s, m), MessageDuty(cfg, s, m)) && (!m.MuxEventMsg? ==> CountsKept(s, Deliver(cfg, s, m)))
  {
    hide HandleProberChange, HandleMuxChange, HandleLinkChange, HandleSuspendExpiry, SwitchCompleted, SwitchRequested;
    hide ProberChangeDuty, MuxChangeDuty, LinkChangeDuty, SuspendExpiryDuty, CompletionDuty, RequestDuty, EventDuty;
    hide LinkProberState.Handled, MuxState.Handled, LinkState.Handled;
    match m
    case ProberEventMsg(_) => EventDoes(cfg, s, m);
    case MuxEventMsg(_) => EventDoes(cfg, s, m);
    case LinkEventMsg(_) => EventDoes(cfg, s, m);
    case ProberChange(l) => ProberChangeDoes(cfg, s, l);
    case MuxChange(l) => MuxChangeDoes(cfg, s, l);
    case LinkChange(l) => LinkChangeDoes(cfg, s, l);
    case HandleSuspendTimerExpiry => SuspendExpiryDoes(s);
    case HandleSwitchCompletion => RequestsDo(cfg, s);
    case HandleSwitchRequest => RequestsDo(cfg, s);
    case _ =>
  }

  lemma StrandDoes(cfg: Config, s: State)
    ensures Owes(s, Next(cfg, s, RunStrand), DutyOf(cfg, s, RunStrand))
    ensures !ServesMuxEvent(s, RunStrand) ==> CountsKept(s, Next(cfg, s, RunStrand))
  {
    hide Deliver, MessageDuty;
    if s.queue != [] {
      MessageDoes(cfg, s.(queue := s.queue[1..]), s.queue[0]);
    }
  }

  predicate Posts(step: Step) {
    step.Heartbeat? || step.SuspendTimerExpired? || step.SwitchCommandSent? || step.SwitchRequestReceived?
  }

  lemma PostDoes(cfg: Config, s: State, step: Step)
    requires Posts(step)
    ensures Does(s, Next(cfg, s, step), DutyOf(cfg, s, step))
  {
    hide Deliver, MessageDuty;
    hide HandleBladeIp, HandleMuxState, HandleProbeMuxState, HandleGetMuxState, HandleSwssLink, HandlePeerLink;
    hide HandleMuxConfig, HandleDefaultRoute, HandleResetSuspendTimer;
    hide HandleMuxProbeTimeout, HandleMuxWaitTimeout, HandleOscillationTimeout;
  }

  lemma NotificationDoes(cfg: Config, s: State, step: Step)
    requires !step.RunStrand? && !Posts(step)
    ensures Does(s, Next(cfg, s, step), DutyOf(cfg, s, step))
  {
    hide HandleBladeIp, HandleMuxState, HandleProbeMuxState, HandleGetMuxState, HandleSwssLink, HandlePeerLink;
    hide HandleMuxConfig, HandleDefaultRoute, HandleResetSuspendTimer, Deliver, MessageDuty, Does;
    hide HandleMuxProbeTimeout, HandleMuxWaitTimeout, HandleOscillationTimeout;
    hide BladeIpDuty, MuxStateDuty, ProbeAnswerDuty, CheckDuty, SwssLinkDuty, PeerLinkDuty, MuxConfigDuty, RouteDuty;
    hide ResetSuspendDuty, ProbeTimeoutDuty, WaitTimeoutDuty, OscillationDuty;
    match step
    case BladeIp(changed) => ComponentsDo(cfg, s, changed, LUp);
    case MuxStateNotification(l) => MuxStateDoes(cfg, s, l);
    case ProbeMuxState(l) => ProbeAnswerDoes(cfg, s, l);
    case GetMuxState(l) => GetMuxDoes(cfg, s, l);
    case SwssLink(l) => ComponentsDo(cfg, s, false, l);
    case PeerLink(l) => PeerLinkDoes(cfg, s, l);
    case MuxConfig(mode) => MuxConfigDoes(cfg, s, mode);
    case DefaultRouteState(route) => DefaultRouteDoes(cfg, s, route);
    case ResetSuspendTimer => ResetSuspendDoes(s);
    case MuxProbeTimeout(expired) => ProbeTimeoutDoes(s, expired);
    case MuxWaitTimeout(expired) => WaitTimeoutDoes(s, expired);
    case OscillationTimeout(expired) => OscillationDoes(cfg, s, expired);
  }

  lemma StepDoes(cfg: Config, s: State, step: Step)
    ensures Owes(s, Next(cfg, s, step), DutyOf(cfg, s, step))
    ensures !ServesMuxEvent(s, step) ==> CountsKept(s, Next(cfg, s, step))
  {
    hide Next, DutyOf, Puts;
    if step.RunStrand? {
      StrandDoes(cfg, s);
    } else if Posts(step) {
      PostDoes(cfg, s, step);
    } else {
      NotificationDoes(cfg, s, step);
    }
  }

  /** Step `n` of a run puts out exactly `outs`, and leaves `f`. */
  ghost predicate Adds(cfg: Config, steps: seq<Step>, n: nat, outs: seq<Output>, f: Face)
    requires n < |steps|
  {
    && OutputsOf(cfg, steps[..n + 1]) == OutputsOf(cfg, steps[..n]) + outs
    && FaceOf(Run(cfg, steps[..n + 1])) == f
  }

  /** Every step of every run puts out exactly what it owes, and leaves the port as it should. */
  lemma EveryStepDoesItsDuty(cfg: Config, steps: seq<Step>, n: nat)
    requires n < |steps|
    ensures var d := DutyOf(cfg, Run(cfg, steps[..n]), steps[n]); Adds(cfg, steps, n, d.outs, d.face)
  {
    hide Next, DutyOf;
    assert steps[..n + 1][..n] == steps[..n];
    StepDoes(cfg, Run(cfg, steps[..n]), steps[n]);
  }

  // ----- the takeover -----

  /** Step `n` takes up that the server is lost, on a standby side whose link is up. */
  ghost predicate LosesServer(cfg: Config, steps: seq<Step>, n: nat)
    requires n < |steps|
  {
    var s := Run(cfg, steps[..n]);
    && steps[n] == RunStrand && s.queue != [] && s.queue[0] == ProberChange(PUnknown)
    && s.prober.current == PUnknown && s.comp.ms == MStandby && s.comp.ls == LUp
  }

  /**
   A standby side that loses its server takes over: in auto mode and with a default route, the step that takes
   the loss up asks orchagent, exactly once, for the active side. In any other mode, or without the route, it asks
   the daemon for the mux and nobody for a toggle. Either way prober and mux wait, on both sides.
   */
  lemma StandbyTakesOver(cfg: Config, steps: seq<Step>, n: nat)
    requires n < |steps| && LosesServer(cfg, steps, n)
    ensures var s, s' := Run(cfg, steps[..n]), Run(cfg, steps[..n + 1]);
            var takesOver := s.admin.mode == Auto && s.admin.route == RouteOK;
            && OutputsOf(cfg, steps[..n + 1]) ==
               OutputsOf(cfg, steps[..n])
               + ((if s.admin.continuousUnknown then [] else [PostProberMetric(LinkProberUnknownStart)])
                  + ([PostProberMetric(LinkProberWaitStart)]
                     + (if takesOver then
                          Toggling(cfg, PeerHeartbeatMissing, MActive,
                                   Circumstance(Composite(PWait, MStandby, LUp), Auto, RouteOK, false))
                        else ASKING)
                     + [BackoffReset(WaitActiveUp)])
                  + [ResumeTx, BackoffReset(UnknownActiveUp)]
                  + (if s.admin.health == Unhealthy then [] else [LinkmgrState(Unhealthy)]))
            && s'.comp == Composite(PWait, MWait, LUp) && s'.prober.current == PWait && s'.mux.current == MWait
            && s'.admin.lastSet == (if takesOver then MActive else s.admin.lastSet)
            && s'.mux.lastCause == (if takesOver then SwssUpdate else DriverUpdate)
  {
    hide Run, Next, OutputsOf, Toggling, ProberChangeDuty, TakeOverFace;
    EveryStepDoesItsDuty(cfg, steps, n);
    var s := Run(cfg, steps[..n]);
    var s0 := s.(queue := s.queue[1..]);
    LossIsTakenOver(cfg, s0.counters, FaceOf(s0));
    TakeOverShows(FaceOf(s0));
  }

  function TakeOverFace(f: Face): Face {
    var f1 := Showing(f, PWait);
    var f2 := f1.(admin := f1.admin.(continuousUnknown := true));
    var f3 := if f.admin.mode == Auto && f.admin.route == RouteOK then Toggled(f2, MActive) else Asked(f2);
    f3.(admin := f3.admin.(health := Unhealthy))
  }

  lemma TakeOverShows(f: Face)
    requires f.comp.ms == MStandby && f.comp.ls == LUp
    ensures var f', takesOver := TakeOverFace(f), f.admin.mode == Auto && f.admin.route == RouteOK;
            && f'.comp == Composite(PWait, MWait, LUp) && f'.ps == PWait && f'.ms == MWait
            && f'.admin.lastSet == (if takesOver then MActive else f.admin.lastSet)
            && f'.lastCause == (if takesOver then SwssUpdate else DriverUpdate)
  {
  }

  lemma LossIsTakenOver(cfg: Config, k: Counters, f: Face)
    requires f.ps == PUnknown && f.comp.ms == MStandby && f.comp.ls == LUp
    ensures var takesOver := f.admin.mode == Auto && f.admin.route == RouteOK;
            ProberChangeDuty(cfg, k, f, PUnknown) ==
            Duty((if f.admin.continuousUnknown then [] else [PostProberMetric(LinkProberUnknownStart)])
                  + ([PostProberMetric(LinkProberWaitStart)]
                     + (if takesOver then
                          Toggling(cfg, PeerHeartbeatMissing, MActive,
                                   Circumstance(Composite(PWait, MStandby, LUp), Auto, RouteOK, false))
                        else ASKING)
                     + [BackoffReset(WaitActiveUp)])
                  + [ResumeTx, BackoffReset(UnknownActiveUp)]
                  + (if f.admin.health == Unhealthy then [] else [LinkmgrState(Unhealthy)]),
                 TakeOverFace(f))
  {
    hide Toggling, TableOutputs, TableFace, HealthNotes, Reported, TakeOverFace, Noted, MetricNotes;
    LossIsAnswered(cfg, k, f);
    LossIsReported(cfg, f);
    LossIsMeasured(f);
  }

  lemma LossIsAnswered(cfg: Config, k: Counters, f: Face)
    requires f.ps == PUnknown && f.comp.ms == MStandby && f.comp.ls == LUp
    ensures TableOutputs(cfg, k, Noted(f, PUnknown), f.comp) ==
            [PostProberMetric(LinkProberWaitStart)]
            + (if f.admin.mode == Auto && f.admin.route == RouteOK then
                 Toggling(cfg, PeerHeartbeatMissing, MActive,
                          Circumstance(Composite(PWait, MStandby, LUp), Auto, RouteOK, false))
               else ASKING)
            + [BackoffReset(WaitActiveUp)]
  {
    hide Toggling;
    assert AnswerOf(cfg, Noted(f, PUnknown), f.comp) == TakeOver;
  }

  lemma LossIsReported(cfg: Config, f: Face)
    requires f.ps == PUnknown && f.comp.ms == MStandby && f.comp.ls == LUp
    ensures var f1 := TableFace(cfg, Noted(f, PUnknown), f.comp);
            && f1.comp.ps == PWait && Reported(cfg, f1) == TakeOverFace(f)
            && HealthNotes(cfg, f1) == if f.admin.health == Unhealthy then [] else [LinkmgrState(Unhealthy)]
  {
    assert AnswerOf(cfg, Noted(f, PUnknown), f.comp) == TakeOver;
  }

  lemma LossIsMeasured(f: Face)
    ensures MetricNotes(f, PUnknown)
            == if f.admin.continuousUnknown then [] else [PostProberMetric(LinkProberUnknownStart)]
  {
  }

  // ----- the answers of orchagent and of the daemon -----

  /** An answer for an active port: to a toggle, or to a probe. */
  function AnswerStep(toggled: bool, l: MuxLabel): Step {
    if toggled then MuxStateNotification(l) else ProbeMuxState(l)
  }

  /** Every answer to an active port goes on the strand as the mux event that reports it, and leaves the composite. */
  lemma AnswersAreReported(cfg: Config, steps: seq<Step>, toggled: bool, l: MuxLabel) returns (e: MuxEvent)
    requires Run(cfg, steps).admin.init.All() && l != MWait
    ensures var s, s' := Run(cfg, steps), Run(cfg, steps + [AnswerStep(toggled, l)]);
            && ReportedMux(e) == MuxState.TargetOf(e) == l && s'.queue == s.queue + [MuxEventMsg(e)]
            && s'.comp == s.comp && s'.mux.current == s.mux.current && s'.admin == s.admin
  {
    hide Run, Next;
    e := if l == MActive then ActiveEvent else if l == MStandby then StandbyEvent
         else if l == MUnknown then UnknownEvent else ErrorEvent;
    OneMoreStep(cfg, steps, AnswerStep(toggled, l));
    StepDoes(cfg, Run(cfg, steps), AnswerStep(toggled, l));
  }

  lemma OneMoreStep(cfg: Config, steps: seq<Step>, step: Step)
    ensures Run(cfg, steps + [step]) == Next(cfg, Run(cfg, steps), step)
  {
    hide Next;
    assert (steps + [step])[..|steps|] == steps;
  }

  /** No label has been reported as often as it takes to be shown, or none has been at all. */
  predicate CountsBelow(cfg: Config, s: State) {
    forall l :: MuxCount(s.mux.counts, l) == 0 || MuxCount(s.mux.counts, l) < cfg.muxRetry
  }

  lemma StepCountsBelow(cfg: Config, s: State, step: Step)
    requires CountsBelow(cfg, s)
    ensures CountsBelow(cfg, Next(cfg, s, step))
  {
    hide Next, Deliver, DutyOf, MuxState.Handled;
    StepDoes(cfg, s, step);
    if ServesMuxEvent(s, step) {
      MuxEventIsServed(cfg, s, s.queue[0].muxEvent);
      MuxEventIsCounted(s.mux, s.queue[0].muxEvent, cfg.muxRetry);
    }
  }

  lemma MuxEventIsServed(cfg: Config, s: State, e: MuxEvent)
    requires s.queue != [] && s.queue[0] == MuxEventMsg(e)
    ensures Next(cfg, s, RunStrand).mux == MuxState.Handled(s.mux, e, cfg.muxRetry)
  {
    hide MuxState.Handled;
  }

  lemma {:induction false} RunCountsBelow(cfg: Config, steps: seq<Step>)
    ensures CountsBelow(cfg, Run(cfg, steps))
  {
    if steps != [] {
      hide Next, CountsBelow;
      RunCountsBelow(cfg, steps[..|steps| - 1]);
      StepCountsBelow(cfg, Run(cfg, steps[..|steps| - 1]), steps[|steps| - 1]);
    }
  }

  /**
   With a retry count of at most one every answer counts: once its event is served, the mux sub-machine is on the
   label of the answer, and a label that it was not on before is on its way to the composite.
   */
  lemma AnswersMoveTheMux(cfg: Config, steps: seq<Step>, toggled: bool, l: MuxLabel)
    requires Run(cfg, steps).admin.init.All() && Run(cfg, steps).queue == [] && cfg.muxRetry <= 1 && l != MWait
    ensures var s, s' := Run(cfg, steps), Run(cfg, steps + [AnswerStep(toggled, l)] + [RunStrand]);
            && s'.mux.current == l && s'.queue == (if s.mux.current == l then [] else [MuxChange(l)])
            && s'.comp == s.comp && s'.admin == s.admin
  {
    hide Run, Next, DutyOf, MuxState.Handled;
    var before := steps + [AnswerStep(toggled, l)];
    var e := AnswersAreReported(cfg, steps, toggled, l);
    RunCountsBelow(cfg, before);
    OneMoreStep(cfg, before, RunStrand);
    assert [MuxEventMsg(e)] == Run(cfg, before).queue;
    EventMovesMux(cfg, Run(cfg, before), e);
  }

  lemma EventMovesMux(cfg: Config, s: State, e: MuxEvent)
    requires s.queue == [MuxEventMsg(e)] && cfg.muxRetry <= 1 && CountsBelow(cfg, s)
    ensures var s', l := Next(cfg, s, RunStrand), ReportedMux(e);
            && s'.mux.current == l && s'.queue == (if s.mux.current == l then [] else [MuxChange(l)])
            && s'.comp == s.comp && s'.admin == s.admin
  {
    hide Next, Deliver, MuxState.Handled;
    assert MuxCount(s.mux.counts, ReportedMux(e)) == 0;
    StepDoes(cfg, s, RunStrand);
  }

  // ----- a switch-over from end to end -----

  lemma TakeOverStep(cfg: Config, s: State)
    requires s.queue != [] && s.queue[0] == ProberChange(PUnknown)
    requires s.prober.current == PUnknown && s.comp.ms == MStandby && s.comp.ls == LUp
    ensures FaceOf(Next(cfg, s, RunStrand)) == TakeOverFace(FaceOf(s).(queue := s.queue[1..]))
  {
    hide Next, Deliver, ProberChangeDuty, TakeOverFace;
    StepDoes(cfg, s, RunStrand);
    var s0 := s.(queue := s.queue[1..]);
    LossIsTakenOver(cfg, s0.counters, FaceOf(s0));
  }

  /** An answer that reaches the composite of a waiting prober shows the active mux and leaves nothing queued. */
  lemma AnswerIsShown(cfg: Config, s: State)
    requires s.queue == [MuxChange(MActive)] && s.mux.current == MActive && !s.admin.pending
    requires s.comp == Composite(PWait, MWait, LUp)
    ensures var s' := Next(cfg, s, RunStrand);
            && s'.comp == Composite(PWait, MActive, LUp) && s'.mux.current == MActive && s'.queue == []
            && s'.admin.lastSet == s.admin.lastSet && s'.prober.current == s.prober.current
  {
    hide Next, Deliver, MuxChangeDuty;
    StepDoes(cfg, s, RunStrand);
    var s0 := s.(queue := s.queue[1..]);
    ActiveAnswerFace(cfg, s0.counters, FaceOf(s0));
  }

  lemma ActiveAnswerFace(cfg: Config, k: Counters, f: Face)
    requires f.ms == MActive && f.comp == Composite(PWait, MWait, LUp) && !f.admin.pending
    ensures var f' := MuxChangeDuty(cfg, k, f, MActive).face;
            && f'.comp == Composite(PWait, MActive, LUp) && f'.ms == MActive && f'.queue == f.queue
            && f'.admin.lastSet == f.admin.lastSet && f'.ps == f.ps
  {
    hide TableOutputs, HealthNotes;
    assert AnswerOf(cfg, f.(comp := f.comp.(ms := MActive)), f.comp) == LongWait;
  }

  /** Orchagent's answer ends the switch-over that it answers. */
  lemma AnswerEnds(cfg: Config, s: State, l: MuxLabel)
    requires s.admin.init.All() && s.mux.swssCause
    ensures var s' := Next(cfg, s, MuxStateNotification(l));
            Outputs(s'.journal.log) == Outputs(s.journal.log) + [ProbePeerTor, SwitchingEnd(l)]
  {
    hide Next;
    StepDoes(cfg, s, MuxStateNotification(l));
    assert [ProbePeerTor] + [SwitchingEnd(l)] == [ProbePeerTor, SwitchingEnd(l)];
  }

  /**
   The switch-over from end to end, in every run: a standby side in auto mode with a default route takes the loss
   of its server up, orchagent answers that the mux is active, and with a mux retry count of at most one two more
   turns of the strand leave this side the active one, with the switch-over reported as ended and nothing queued.
   */
  lemma FailoverCompletes(cfg: Config, steps: seq<Step>)
    requires var s := Run(cfg, steps);
             && s.admin.init.All() && s.admin.mode == Auto && s.admin.route == RouteOK && !s.admin.pending
             && s.queue == [ProberChange(PUnknown)] && s.prober.current == PUnknown
             && s.comp.ms == MStandby && s.comp.ls == LUp && cfg.muxRetry <= 1
    ensures var asked := steps + [RunStrand];
            var answered := asked + [MuxStateNotification(MActive)];
            var s' := Run(cfg, answered + [RunStrand] + [RunStrand]);
            && OutputsOf(cfg, answered) == OutputsOf(cfg, asked) + [ProbePeerTor, SwitchingEnd(MActive)]
            && s'.comp == Composite(PWait, MActive, LUp) && s'.mux.current == MActive && s'.admin.lastSet == MActive
            && s'.queue == []
  {
    hide Run, Next, TakeOverFace, MuxState.Handled;
    var s := Run(cfg, steps);
    var asked := steps + [RunStrand];
    var answered := asked + [MuxStateNotification(MActive)];
    OneMoreStep(cfg, steps, RunStrand);
    TakeOverStep(cfg, s);
    AskedFace(FaceOf(s).(queue := s.queue[1..]));
    OneMoreStep(cfg, asked, MuxStateNotification(MActive));
    AnswerEnds(cfg, Run(cfg, asked), MActive);
    AnswersMoveTheMux(cfg, asked, true, MActive);
    OneMoreStep(cfg, answered + [RunStrand], RunStrand);
    AnswerIsShown(cfg, Run(cfg, answered + [RunStrand]));
  }

  lemma AskedFace(f: Face)
    requires f.comp.ms == MStandby && f.comp.ls == LUp && f.admin.mode == Auto && f.admin.route == RouteOK
    ensures var f' := TakeOverFace(f);
            && f'.comp == Composite(PWait, MWait, LUp) && f'.ms == MWait && f'.swssCause && f'.queue == f.queue
            && f'.admin.init == f.admin.init && f'.admin.pending == f.admin.pending && f'.admin.lastSet == MActive
  {
  }
}
