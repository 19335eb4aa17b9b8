/** What every step of every active-active run owes, and what follows for answers, health and the peer. */
module ActiveActiveDuties {
  import opened Labels
  import opened Strand
  import opened Logs
  import opened EventRules
  import opened ActiveActiveSpec
  import opened ActiveActiveAnswers
  import opened ActiveActiveRuns
  import MuxState
  import LinkState
  import LinkProberState

  // ----- every step -----

  predicate IsEvent(m: Message) {
    m.ProberEventMsg? || m.PeerEventMsg? || m.MuxEventMsg? || m.LinkEventMsg?
  }

  /** A sub-machine that shows another label says so. */
  function EventDuty(cfg: Config, s: State, m: Message): Duty
    requires IsEvent(m)
  {
    var f := FaceOf(s);
    var rules := LinkProberState.Rules(cfg.positiveRetry, cfg.negativeRetry, ActiveActiveCable, cfg.hardwareProber);
    match m
    case ProberEventMsg(e) =>
      var l := ProberAfter(s.prober, e, rules);
      Duty([], f.(ps := l, queue := f.queue + if l != f.ps then [ProberChange(l)] else []))
    case PeerEventMsg(e) =>
      var l := PeerAfter(s.peer, e, rules);
      Duty([], f.(peer := l, queue := f.queue + if l != f.peer then [PeerChange(l)] else []))
    case MuxEventMsg(e) =>
      var l := MuxAfter(s.mux, e, cfg.muxRetry);
      Duty([], f.(ms := l, queue := f.queue + if l != f.ms then [MuxChange(l)] else []))
    case LinkEventMsg(e) =>
      var l := LinkAfter(s.link, e, cfg.linkRetry);
      Duty([], f.(ls := l, queue := f.queue + if l != f.ls then [LinkChange(l)] else []))
  }

  /** What is owed for a message that has been taken off the strand. */
  function MessageDuty(cfg: Config, s: State, m: Message): Duty {
    var f := FaceOf(s);
    match m
    case ProberEventMsg(_) => EventDuty(cfg, s, m)
    case PeerEventMsg(_) => EventDuty(cfg, s, m)
    case MuxEventMsg(_) => EventDuty(cfg, s, m)
    case LinkEventMsg(_) => EventDuty(cfg, s, m)
    case SuspendTimerExpiredMsg => Duty([], f.(queue := f.queue + [HandleSuspendTimerExpiry]))
    case MuxProbeRequestMsg => Duty([], f.(queue := f.queue + [HandleMuxProbeRequest]))
    case ProberChange(l) => ThenReport(cfg, ProberTaken(f, l))
    case PeerChange(l) => PeerDuty(f, l)
    case MuxChange(l) => ThenReport(cfg, MuxTaken(f, l))
    case LinkChange(l) => ThenReport(cfg, LinkTaken(f, l))
    case HandleSuspendTimerExpiry => Duty([ResumeTx], f)
    case HandleMuxProbeRequest => IdleDuty(f)
    case DeferredMuxConfig(mode) => MuxConfigDuty(cfg, f, mode)
    case _ => Duty([], f)
  }

  function DutyOf(cfg: Config, s: State, step: Step): Duty {
    var f := FaceOf(s);
    match step
    case RunStrand => if s.queue == [] then Duty([], f) else MessageDuty(cfg, s.(queue := s.queue[1..]), s.queue[0])
    case SoCIp(changed) => SoCIpDuty(cfg, f, changed)
    case MuxStateNotification(l) => MuxStateDuty(cfg, f, l)
    case ProbeMuxStateNotification(l) => ProbeAnswerDuty(cfg, f, l)
    case ProbeMuxFailure(expired) => if expired then Duty(ASKING, Asked(f)) else Duty([], f)
    case PeerMuxState(l) => Duty([], f.(admin := f.admin.(peerMux := l)))
    case SwssLink(l) => SwssLinkDuty(cfg, f, l)
    case MuxConfig(mode) => MuxConfigDuty(cfg, f, mode)
    case DefaultRouteState(present) => RouteDuty(cfg, f, if present then RouteOK else RouteNA)
    case Heartbeat(e) => Duty([], f.(queue := f.queue + [ProberEventMsg(e)]))
    case PeerHeartbeat(e) => Duty([], f.(queue := f.queue + [PeerEventMsg(e)]))
    case SuspendTimerExpired => Duty([], f.(queue := f.queue + [SuspendTimerExpiredMsg]))
    case MuxProbeRequestReceived => Duty([], f.(queue := f.queue + [MuxProbeRequestMsg]))
    case MuxProbeTimeout(expired) => ProbeTimeoutDuty(f, expired)
    case MuxWaitTimeout => Duty([], Idle(f))
    case PeerMuxWaitTimeout => Duty(if f.admin.lastSetPeerMux == MStandby then [SendPeerProbeCommand] else [], f)
    case AdminSync => Duty(IdleDuty(f).outs + [SyncTimer], IdleDuty(f).face)
  }

  /** All that a step may do to the port. */
  ghost predicate Owes(s: State, s': State, d: Duty) {
    Puts(s, s', d.outs, d.face)
  }

  predicate ServesMuxEvent(s: State, step: Step) {
    step.RunStrand? && s.queue != [] && s.queue[0].MuxEventMsg?
  }

  lemma EventDoes(cfg: Config, s: State, m: Message)
    requires IsEvent(m)
    ensures Owes(s, Deliver(cfg, s, m), EventDuty(cfg, s, m)) && (!m.MuxEventMsg? ==> CountsKept(s, Deliver(cfg, s, m)))
  {
    hide LinkProberState.Handled, LinkProberState.PeerHandled, MuxState.Handled, LinkState.Handled;
    hide ProberAfter, PeerAfter, MuxAfter, LinkAfter;
    match m
    case ProberEventMsg(e) => ProberEventShows(s.prober, e, RulesOf(cfg));
    case PeerEventMsg(e) => PeerEventShows(s.peer, e, RulesOf(cfg));
    case MuxEventMsg(e) => MuxEventIsCounted(s.mux, e, cfg.muxRetry);
    case LinkEventMsg(e) => LinkEventIsCounted(s.link, e, cfg.linkRetry);
  }

  lemma ChangeDoes(cfg: Config, s: State, m: Message)
    requires m.ProberChange? || m.MuxChange? || m.LinkChange?
    ensures Does(s, Deliver(cfg, s, m), MessageDuty(cfg, s, m))
  {
    hide AcceptProberChange, AcceptMuxChange, AcceptLinkChange, UpdateHealth, ThenReport;
    hide ProberTaken, MuxTaken, LinkTaken;
    match m
    case ProberChange(l) =>
      AcceptProberDoes(s, l);
      ReportDoes(cfg, s, if s.prober.current == l then AcceptProberChange(s, l) else s, ProberTaken(FaceOf(s), l));
    case MuxChange(l) =>
      AcceptMuxDoes(s, l);
      ReportDoes(cfg, s, if s.mux.current == l then AcceptMuxChange(s, l) else s, MuxTaken(FaceOf(s), l));
    case LinkChange(l) =>
      AcceptLinkDoes(s, l);
      ReportDoes(cfg, s, if s.link.current == l then AcceptLinkChange(s, l) else s, LinkTaken(FaceOf(s), l));
  }

  lemma MessageDoes(cfg: Config, s: State, m: Message)
    ensures Owes(s, Deliver(cfg, s, m), MessageDuty(cfg, s, m)) && (!m.MuxEventMsg? ==> CountsKept(s, Deliver(cfg, s, m)))
  {
    if IsEvent(m) {
      hide Deliver, EventDuty;
      EventDoes(cfg, s, m);
    } else if m.ProberChange? || m.MuxChange? || m.LinkChange? {
      hide Deliver, MessageDuty;
      ChangeDoes(cfg, s, m);
    } else {
      RequestDoes(cfg, s, m);
    }
  }

  lemma RequestDoes(cfg: Config, s: State, m: Message)
    requires !IsEvent(m) && !m.ProberChange? && !m.MuxChange? && !m.LinkChange?
    ensures Does(s, Deliver(cfg, s, m), MessageDuty(cfg, s, m))
  {
    hide Emit, HandlePeerChange, HandleMuxConfig, ProbeIfIdle, PeerDuty, MuxConfigDuty, IdleDuty;
    hide HandleProberChange, HandleMuxChange, HandleLinkChange, EventDuty;
    match m
    case PeerChange(l) => PeerChangeDoes(s, l);
    case HandleSuspendTimerExpiry => EmitDoes(s, ResumeTx);
    case HandleMuxProbeRequest => IdleDoes(s);
    case DeferredMuxConfig(mode) => MuxConfigDoes(cfg, s, mode);
    case _ =>
  }

  lemma StrandDoes(cfg: Config, s: State)
    ensures Owes(s, Next(cfg, s, RunStrand), DutyOf(cfg, s, RunStrand))
    ensures !ServesMuxEvent(s, RunStrand) ==> CountsKept(s, Next(cfg, s, RunStrand))
  {
    hide Deliver, MessageDuty;
    if s.queue != [] {
      MessageDoes(cfg, s.(queue := s.queue[1..]), s.queue[0]);
    }
  }

  predicate Simple(step: Step) {
    || step.Heartbeat? || step.PeerHeartbeat? || step.SuspendTimerExpired? || step.MuxProbeRequestReceived?
    || step.PeerMuxState? || step.MuxWaitTimeout? || step.PeerMuxWaitTimeout? || step.ProbeMuxFailure?
  }

  lemma SimpleDoes(cfg: Config, s: State, step: Step)
    requires Simple(step)
    ensures Does(s, Next(cfg, s, step), DutyOf(cfg, s, step))
  {
    hide Emit, ProbeMuxState, Deliver, MessageDuty;
    hide HandleSoCIp, HandleMuxState, HandleProbeMuxState, HandleSwssLink, HandleMuxConfig, HandleDefaultRoute;
    hide HandleMuxProbeTimeout, HandleAdminSync;
    ProbeMuxDoes(s);
    EmitDoes(s, SendPeerProbeCommand);
  }

  lemma NotificationDoes(cfg: Config, s: State, step: Step)
    requires !step.RunStrand? && !Simple(step)
    ensures Does(s, Next(cfg, s, step), DutyOf(cfg, s, step))
  {
    hide Did, Deliver, MessageDuty;
    hide HandleSoCIp, HandleMuxState, HandleProbeMuxState, HandleSwssLink, HandleMuxConfig, HandleDefaultRoute;
    hide HandleMuxProbeTimeout, HandleAdminSync;
    hide SoCIpDuty, MuxStateDuty, ProbeAnswerDuty, SwssLinkDuty, MuxConfigDuty, RouteDuty, ProbeTimeoutDuty, IdleDuty;
    match step
    case SoCIp(changed) => SoCIpDoes(cfg, s, changed);
    case MuxStateNotification(l) => MuxStateDoes(cfg, s, l);
    case ProbeMuxStateNotification(l) => ProbeAnswerDoes(cfg, s, l);
    case SwssLink(l) => SwssLinkDoes(cfg, s, l);
    case MuxConfig(mode) => MuxConfigDoes(cfg, s, mode);
    case DefaultRouteState(present) => DefaultRouteDoes(cfg, s, if present then RouteOK else RouteNA);
    case MuxProbeTimeout(expired) => ProbeTimeoutDoes(s, expired);
    case AdminSync => IdleDoes(s);
  }

  lemma StepDoes(cfg: Config, s: State, step: Step)
    ensures Owes(s, Next(cfg, s, step), DutyOf(cfg, s, step))
    ensures !ServesMuxEvent(s, step) ==> CountsKept(s, Next(cfg, s, step))
  {
    hide Next, DutyOf, Puts;
    if step.RunStrand? {
      StrandDoes(cfg, s);
    } else if Simple(step) {
      SimpleDoes(cfg, s, step);
    } else {
      NotificationDoes(cfg, s, step);
    }
  }

  /** Step `n` of a run puts out exactly `outs`, and leaves `f`. */
  ghost predicate Adds(cfg: Config, steps: seq<Step>, n: nat, outs: seq<Output>, f: Face)
    requires n < |steps|
  {
    && OutputsOf(cfg, steps[..n + 1]) == OutputsOf(cfg, steps[..n]) + outs
    && FaceOf(Run(cfg, steps[..n + 1])) == f
  }

  /** Every step of every run puts out exactly what it owes, and leaves the port as it should. */
  lemma EveryStepDoesItsDuty(cfg: Config, steps: seq<Step>, n: nat)
    requires n < |steps|
    ensures var d := DutyOf(cfg, Run(cfg, steps[..n]), steps[n]); Adds(cfg, steps, n, d.outs, d.face)
  {
    hide Next, DutyOf;
    assert steps[..n + 1][..n] == steps[..n];
    StepDoes(cfg, Run(cfg, steps[..n]), steps[n]);
  }

  // ----- the answers of orchagent and of the daemon -----

  /** An answer for an active port: to a toggle, or to a probe. */
  function AnswerStep(toggled: bool, l: MuxLabel): Step {
    if toggled then MuxStateNotification(l) else ProbeMuxStateNotification(l)
  }

  lemma OneMoreStep(cfg: Config, steps: seq<Step>, step: Step)
    ensures Run(cfg, steps + [step]) == Next(cfg, Run(cfg, steps), step)
  {
    hide Next;
    assert (steps + [step])[..|steps|] == steps;
  }

  /** Every answer to an active port goes on the strand as the mux event that reports it, and leaves the composite. */
  lemma AnswersAreReported(cfg: Config, steps: seq<Step>, toggled: bool, l: MuxLabel) returns (e: MuxEvent)
    requires Run(cfg, steps).admin.init.All() && l != MWait
    ensures var s, s' := Run(cfg, steps), Run(cfg, steps + [AnswerStep(toggled, l)]);
            && ReportedMux(e) == MuxState.TargetOf(e) == l && s'.queue == s.queue + [MuxEventMsg(e)]
            && s'.comp == s.comp && s'.mux.current == s.mux.current && s'.admin.init == s.admin.init
  {
    hide Run, Next, HealthNotes;
    e := if l == MActive then ActiveEvent else if l == MStandby then StandbyEvent
         else if l == MUnknown then UnknownEvent else ErrorEvent;
    OneMoreStep(cfg, steps, AnswerStep(toggled, l));
    StepDoes(cfg, Run(cfg, steps), AnswerStep(toggled, l));
  }

  /** No label has been reported as often as it takes to be shown, or none has been at all. */
  predicate CountsBelow(cfg: Config, s: State) {
    forall l :: MuxCount(s.mux.counts, l) == 0 || MuxCount(s.mux.counts, l) < cfg.muxRetry
  }

  lemma StepCountsBelow(cfg: Config, s: State, step: Step)
    requires CountsBelow(cfg, s)
    ensures CountsBelow(cfg, Next(cfg, s, step))
  {
    hide Next, Deliver, DutyOf, MuxState.Handled;
    StepDoes(cfg, s, step);
    if ServesMuxEvent(s, step) {
      MuxEventIsServed(cfg, s, s.queue[0].muxEvent);
      MuxEventIsCounted(s.mux, s.queue[0].muxEvent, cfg.muxRetry);
    }
  }

  lemma MuxEventIsServed(cfg: Config, s: State, e: MuxEvent)
    requires s.queue != [] && s.queue[0] == MuxEventMsg(e)
    ensures Next(cfg, s, RunStrand).mux == MuxState.Handled(s.mux, e, cfg.muxRetry)
  {
    hide MuxState.Handled;
  }

  lemma {:induction false} RunCountsBelow(cfg: Config, steps: seq<Step>)
    ensures CountsBelow(cfg, Run(cfg, steps))
  {
    if steps != [] {
      hide Next, CountsBelow;
      RunCountsBelow(cfg, steps[..|steps| - 1]);
      StepCountsBelow(cfg, Run(cfg, steps[..|steps| - 1]), steps[|steps| - 1]);
    }
  }

  /**
   With a retry count of at most one every answer counts: once its event is served, the mux sub-machine is on the
   label of the answer, and a label that it was not on before is on its way to the composite.
   */
  lemma AnswersMoveTheMux(cfg: Config, steps: seq<Step>, toggled: bool, l: MuxLabel)
    requires Run(cfg, steps).admin.init.All() && Run(cfg, steps).queue == [] && cfg.muxRetry <= 1 && l != MWait
    ensures var s, s' := Run(cfg, steps), Run(cfg, steps + [AnswerStep(toggled, l)] + [RunStrand]);
            && s'.mux.current == l && s'.queue == (if s.mux.current == l then [] else [MuxChange(l)])
            && s'.comp == s.comp
  {
    hide Run, Next, DutyOf, MuxState.Handled;
    var before := steps + [AnswerStep(toggled, l)];
    var e := AnswersAreReported(cfg, steps, toggled, l);
    RunCountsBelow(cfg, before);
    OneMoreStep(cfg, before, RunStrand);
    assert [MuxEventMsg(e)] == Run(cfg, before).queue;
    EventMovesMux(cfg, Run(cfg, before), e);
  }

  lemma EventMovesMux(cfg: Config, s: State, e: MuxEvent)
    requires s.queue == [MuxEventMsg(e)] && cfg.muxRetry <= 1 && CountsBelow(cfg, s)
    ensures var s', l := Next(cfg, s, RunStrand), ReportedMux(e);
            && s'.mux.current == l && s'.queue == (if s.mux.current == l then [] else [MuxChange(l)])
            && s'.comp == s.comp && s'.admin == s.admin
  {
    hide Next, Deliver, MuxState.Handled;
    assert MuxCount(s.mux.counts, ReportedMux(e)) == 0;
    StepDoes(cfg, s, RunStrand);
  }
}
