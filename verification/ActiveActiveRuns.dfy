/** The theorems about every run of an active-active port. */
module ActiveActiveRuns {
  import opened Labels
  import opened Strand
  import opened Logs
  import opened ActiveActiveSpec
  import opened ActiveActiveSafety
  import opened ActiveActiveRests
  import Answers = ActiveActiveAnswers
  import MuxState
  import LinkState
  import LinkProberState

  /** The outputs of a run, oldest first. */
  function OutputsOf(cfg: Config, steps: seq<Step>): seq<Output> {
    Outputs(Run(cfg, steps).journal.log)
  }

  // ----- agreement and convergence -----

  ghost predicate AgreesWithPeerAfter(cfg: Config, steps: seq<Step>) {
    Agrees(Run(cfg, steps))
  }

  /**
   In every reachable state the composite, the peer label and the sub-machines agree, up to changes that are
   still queued.
   */
  lemma AlwaysAgrees(cfg: Config, steps: seq<Step>)
    ensures AgreesWithPeerAfter(cfg, steps)
  {
    EveryRunKeeps(cfg, steps);
  }

  lemma SubMachineEventShrinks(cfg: Config, s: State, m: Message)
    requires m.ProberEventMsg? || m.PeerEventMsg? || m.MuxEventMsg? || m.LinkEventMsg?
    ensures Weight(Deliver(cfg, s, m).queue) < Weight(s.queue) + 2
  {
    var r := RulesOf(cfg);
    match m
    case ProberEventMsg(e) =>
      WeightPost(s.queue, LinkProberState.Posted(s.prober, LinkProberState.Handled(s.prober, e, r)));
    case PeerEventMsg(e) =>
      WeightPost(s.queue, LinkProberState.PeerPosted(s.peer, LinkProberState.PeerHandled(s.peer, e, r)));
    case MuxEventMsg(e) => WeightPost(s.queue, MuxState.Posted(s.mux, MuxState.Handled(s.mux, e, cfg.muxRetry)));
    case LinkEventMsg(e) => WeightPost(s.queue, LinkState.Posted(s.link, LinkState.Handled(s.link, e, cfg.linkRetry)));
  }

  lemma DeliverShrinks(cfg: Config, s: State, m: Message)
    ensures Weight(Deliver(cfg, s, m).queue) < Weight(s.queue) + if ForSubMachine(m) then 2 else 1
  {
    hide Record, HandleProberChange, HandlePeerChange, HandleMuxChange, HandleLinkChange, HandleMuxConfig, ProbeIfIdle;
    hide LinkProberState.Handled, LinkProberState.PeerHandled, MuxState.Handled, LinkState.Handled;
    match m
    case ProberChange(l) => ProberChangeRests(cfg, s, l);
    case MuxChange(l) => MuxChangeRests(cfg, s, l);
    case LinkChange(l) => LinkChangeRests(cfg, s, l);
    case PeerChange(l) => PeerChangeRests(s, l);
    case HandleMuxProbeRequest => ProbeIfIdleRests(s);
    case DeferredMuxConfig(mode) => MuxConfigRests(cfg, s, mode);
    case ProberEventMsg(_) => SubMachineEventShrinks(cfg, s, m);
    case PeerEventMsg(_) => SubMachineEventShrinks(cfg, s, m);
    case MuxEventMsg(_) => SubMachineEventShrinks(cfg, s, m);
    case LinkEventMsg(_) => SubMachineEventShrinks(cfg, s, m);
    case SuspendTimerExpiredMsg => WeightPost(s.queue, [HandleSuspendTimerExpiry]);
    case MuxProbeRequestMsg => WeightPost(s.queue, [HandleMuxProbeRequest]);
    case _ =>
  }

  /** Running the strand digests its messages: no handler that it runs posts an event. */
  lemma StrandShrinks(cfg: Config, s: State)
    requires s.queue != []
    ensures Weight(Next(cfg, s, RunStrand).queue) < Weight(s.queue)
  {
    hide Deliver;
    DeliverShrinks(cfg, s.(queue := s.queue[1..]), s.queue[0]);
  }

  /** Nothing is queued, and the port shows exactly the sub-machines' labels. */
  ghost predicate DrainedAfter(cfg: Config, steps: seq<Step>) {
    var s := Run(cfg, steps);
    && s.queue == []
    && s.comp == Composite(s.prober.current, s.mux.current, s.link.current)
    && s.admin.peerProber == s.peer.current
  }

  /**
   Left alone, a port settles: after running the strand at most as often as its messages weigh, nothing is
   queued and the composite and the peer label are exactly the sub-machines' labels.
   */
  lemma {:induction false} Converges(cfg: Config, steps: seq<Step>) returns (k: nat)
    ensures k <= Weight(Run(cfg, steps).queue)
    ensures DrainedAfter(cfg, steps + seq(k, _ => RunStrand))
    decreases Weight(Run(cfg, steps).queue)
  {
    hide Next;
    var s := Run(cfg, steps);
    if s.queue == [] {
      k := 0;
      assert steps + seq(0, _ => RunStrand) == steps;
      AlwaysAgrees(cfg, steps);
    } else {
      StrandShrinks(cfg, s);
      assert (steps + [RunStrand])[..|steps|] == steps;
      var more := Converges(cfg, steps + [RunStrand]);
      k := more + 1;
      assert steps + [RunStrand] + seq(more, _ => RunStrand) == steps + seq(k, _ => RunStrand);
    }
  }

  // ----- where a port does not come to rest -----

  lemma {:induction false} EveryRunSettles(cfg: Config, steps: seq<Step>)
    ensures Settled(Run(cfg, steps))
  {
    if steps != [] {
      EveryRunSettles(cfg, steps[..|steps| - 1]);
      NextRests(cfg, Run(cfg, steps[..|steps| - 1]), steps[|steps| - 1]) by {
        hide *;
      }
    }
  }

  ghost predicate AtRestAfter(cfg: Config, steps: seq<Step>) {
    var s := Run(cfg, steps);
    s.admin.init.All() ==> AtRest(s.comp, s.admin.mode, s.admin.route)
  }

  /** After the activation no step of any run leaves the port in one of the composites that call for action. */
  lemma DecidedPortsAct(cfg: Config, steps: seq<Step>)
    ensures AtRestAfter(cfg, steps)
  {
    EveryRunSettles(cfg, steps);
  }

  /** A configuration that came before the activation is on the strand when it is over, and waits nowhere else. */
  lemma ActivationRunsDeferredConfigs(cfg: Config, steps: seq<Step>, step: Step)
    requires !Run(cfg, steps).admin.init.All() && Next(cfg, Run(cfg, steps), step).admin.init.All()
    ensures var s, s' := Run(cfg, steps), Next(cfg, Run(cfg, steps), step);
            && s'.admin.deferred == []
            && s'.queue == s.queue + Answers.Later(s.admin.deferred)
            && s'.comp.ps == s'.prober.current == Answers.Matching(s'.comp.ms)
  {
    hide Next, Run;
    var s := Run(cfg, steps);
    assert ConfigMessages(s.admin.deferred) == Answers.Later(s.admin.deferred);
    EveryRunSettles(cfg, steps);
    if BringsComponentUp(step) {
      ComponentStepRests(cfg, s, step);
    } else {
      OtherStepRests(cfg, s, step);
    }
  }

  // ----- what the totals say about the outputs -----

  /** The condition of an output was met when it was made. */
  lemma {:induction false} WasOk(log: Log<Output>, i: nat)
    requires i <= |Outputs(log)| && Summarize(log).ok
    ensures Summarize(Prefix(log, i)).ok
    ensures i < |Outputs(log)| ==> Digest(Summarize(Prefix(log, i)), Outputs(log)[i]).ok
  {
    if i < |Outputs(log)| {
      WasOk(log.earlier, i);
    }
  }

  lemma RunIsOk(cfg: Config, steps: seq<Step>)
    ensures Summarize(Run(cfg, steps).journal.log) == Run(cfg, steps).journal.totals
    ensures Run(cfg, steps).journal.totals.ok
  {
    EveryRunKeeps(cfg, steps);
  }

  /**
   Every toggle of every run, forced ones included, is one that the mode allows: in manual mode there is none
   at all. Outside the active mode a toggle to active has a heard server and a link that is up behind it.
   */
  lemma TogglesObeyTheMode(cfg: Config, steps: seq<Step>, i: nat)
    requires i < |OutputsOf(cfg, steps)| && OutputsOf(cfg, steps)[i].Toggle?
    ensures var Toggle(l, at) := OutputsOf(cfg, steps)[i];
            && (l == MActive || l == MStandby) && at.mode != Manual
            && (at.mode == ModeActive ==> l == MActive)
            && (at.mode == ModeStandby ==> l == MStandby)
            && (l == MActive && at.mode != ModeActive ==> at.comp.ps == PActive && at.comp.ls == LUp)
  {
    hide Run;
    RunIsOk(cfg, steps);
    WasOk(Run(cfg, steps).journal.log, i);
  }

  /** The peer is only ever sent to standby, by a healthy port in auto mode. */
  lemma PeerTogglesAreEarned(cfg: Config, steps: seq<Step>, i: nat)
    requires i < |OutputsOf(cfg, steps)| && OutputsOf(cfg, steps)[i].TogglePeer?
    ensures var TogglePeer(l, at) := OutputsOf(cfg, steps)[i]; l == MStandby && at.mode == Auto && at.health == Healthy
  {
    hide Run;
    RunIsOk(cfg, steps);
    WasOk(Run(cfg, steps).journal.log, i);
  }

  /** The composite has a link with this label from now on. */
  predicate TakesLink(o: Output, l: LinkLabel) {
    (o.LinkForced? || o.LinkAccepted?) && o.ls == l
  }

  lemma {:induction false} DownUntilUp(log: Log<Output>, i: nat)
    requires i < |Outputs(log)| && TakesLink(Outputs(log)[i], LDown)
    ensures Summarize(log).link == LDown || exists k :: i < k < |Outputs(log)| && TakesLink(Outputs(log)[k], LUp)
  {
    hide ToggleMet, PeerToggleMet;
    var outs := Outputs(log);
    if i < |outs| - 1 {
      DownUntilUp(log.earlier, i);
      if Summarize(log.earlier).link == LUp {
        var k :| i < k < |Outputs(log.earlier)| && TakesLink(Outputs(log.earlier)[k], LUp);
        assert outs[k] == Outputs(log.earlier)[k];
      } else if TakesLink(log.last, LUp) {
        assert outs[|outs| - 1] == log.last;
      }
    }
  }

  /** Once the link is down, no toggle to active follows outside the active mode before the link is up again. */
  lemma NoActiveToggleWhileDown(cfg: Config, steps: seq<Step>, i: nat, j: nat)
    requires i < j < |OutputsOf(cfg, steps)|
    requires TakesLink(OutputsOf(cfg, steps)[i], LDown)
    requires var o := OutputsOf(cfg, steps)[j]; o.Toggle? && o.ms == MActive && o.at.mode != ModeActive
    ensures exists k :: i < k < j && TakesLink(OutputsOf(cfg, steps)[k], LUp)
  {
    hide Run, ToggleMet, TakesLink;
    RunIsOk(cfg, steps);
    var outs := OutputsOf(cfg, steps);
    var prefix := Prefix(Run(cfg, steps).journal.log, j);
    WasOk(Run(cfg, steps).journal.log, j);
    DownUntilUp(prefix, i);
    var k :| i < k < j && TakesLink(outs[..j][k], LUp);
  }

  // ----- activation -----

  predicate IsInitialisation(o: Output) {
    o == InitializeProber
  }

  predicate IsProbing(o: Output) {
    o == StartProbing
  }

  lemma DigestCounts(t: Summary, o: Output)
    ensures Digest(t, o).inits == t.inits + if IsInitialisation(o) then 1 else 0
    ensures Digest(t, o).probings == t.probings + if IsProbing(o) then 1 else 0
  {
    hide ToggleMet, PeerToggleMet;
  }

  lemma {:induction false} TotalsCount(log: Log<Output>)
    ensures Summarize(log).inits == Count(Outputs(log), IsInitialisation)
    ensures Summarize(log).probings == Count(Outputs(log), IsProbing)
  {
    hide Digest, Count;
    match log
    case Empty =>
      CountNone(IsInitialisation);
      CountNone(IsProbing);
    case After(earlier, o) =>
      TotalsCount(earlier);
      DigestCounts(Summarize(earlier), o);
      CountLast(Outputs(earlier), o, IsInitialisation);
      CountLast(Outputs(earlier), o, IsProbing);
  }

  // ----- the notifications that bring the components up -----

  predicate BringsProber(step: Step) {
    step.SoCIp?
  }

  predicate BringsMux(step: Step) {
    step.MuxStateNotification? || step.ProbeMuxStateNotification?
  }

  predicate BringsLink(step: Step) {
    step.SwssLink?
  }

  function InitAfterStep(init: InitBits, step: Step): InitBits {
    InitBits(init.prober || BringsProber(step), init.mux || BringsMux(step), init.link || BringsLink(step))
  }

  lemma StepInit(cfg: Config, s: State, step: Step)
    requires Settled(s)
    ensures Next(cfg, s, step).admin.init == InitAfterStep(s.admin.init, step)
  {
    hide Next;
    if !BringsComponentUp(step) {
      OtherStepRests(cfg, s, step);
    } else if s.admin.init.All() {
      ActiveComponentFrame(cfg, s, step);
    } else {
      ComponentInit(cfg, s, step);
    }
  }

  lemma ComponentInit(cfg: Config, s: State, step: Step)
    requires BringsComponentUp(step) && !s.admin.init.All()
    ensures Next(cfg, s, step).admin.init == InitAfterStep(s.admin.init, step)
  {
    hide HandleSoCIp, HandleMuxState, HandleProbeMuxState, HandleSwssLink, Deliver, Post;
    hide ProbeMuxState, HandlePeerMuxState, HandleMuxConfig, HandleDefaultRoute;
    hide HandleMuxProbeTimeout, HandlePeerMuxWaitTimeout, HandleAdminSync;
    match step
    case SoCIp(changed) => SoCIpInit(cfg, s, changed);
    case SwssLink(l) => SwssLinkInit(cfg, s, l);
    case MuxStateNotification(l) => MuxStateInit(cfg, s, l);
    case ProbeMuxStateNotification(l) => MuxStateInit(cfg, s, l);
  }

  lemma SoCIpInit(cfg: Config, s: State, changed: bool)
    requires !s.admin.init.All()
    ensures HandleSoCIp(cfg, s, changed).admin.init == s.admin.init.(prober := true)
  {
    hide StartProber, Record;
    StartProberRests(cfg, WithInit(s, s.admin.init.(prober := true)));
  }

  lemma SwssLinkInit(cfg: Config, s: State, l: LinkLabel)
    requires !s.admin.init.All()
    ensures HandleSwssLink(cfg, s, l).admin.init == s.admin.init.(link := true)
  {
    hide StartProber, Record, LinkState.Entered;
    StartProberRests(cfg, WithInit(EnterLink(Emit(s, LinkForced(l)), l), s.admin.init.(link := true)));
  }

  lemma MuxStateInit(cfg: Config, s: State, l: MuxLabel)
    requires !s.admin.init.All()
    ensures HandleMuxState(cfg, s, l).admin.init == HandleProbeMuxState(cfg, s, l).admin.init == s.admin.init.(mux := true)
  {
    hide SettleMux, UpdateHealth, Record;
    SettledMuxInit(cfg, s.(admin := s.admin.(lastNotification := FromToggle, lastMuxState := l)), l);
    var s1 := s.(admin := s.admin.(lastNotification := FromProbe, lastMuxProbe := l));
    SettledMuxInit(cfg, if l == MActive || l == MStandby then ResetBackoff(s1) else s1, l);
  }

  lemma SettledMuxInit(cfg: Config, s: State, l: MuxLabel)
    ensures SettleMux(cfg, s, l).admin.init == s.admin.init.(mux := true)
  {
    hide Record, StartProber, MuxState.SetCause, MuxState.Entered;
    var s' := if l == MUnknown then EnterMux(ProbeMuxState(s), MWait) else EnterMux(s, l);
    StartProberRests(cfg, WithInit(s', s.admin.init.(mux := true)));
  }

  ghost predicate HasCome(steps: seq<Step>, brings: Step -> bool) {
    exists i :: 0 <= i < |steps| && brings(steps[i])
  }

  /** Which components the notifications of a run have brought up. */
  ghost function Notified(steps: seq<Step>): InitBits {
    InitBits(HasCome(steps, BringsProber), HasCome(steps, BringsMux), HasCome(steps, BringsLink))
  }

  lemma HasComeLast(steps: seq<Step>, brings: Step -> bool)
    requires steps != []
    ensures HasCome(steps, brings) <==> HasCome(steps[..|steps| - 1], brings) || brings(steps[|steps| - 1])
  {
    if HasCome(steps[..|steps| - 1], brings) {
      var i :| 0 <= i < |steps| - 1 && brings(steps[..|steps| - 1][i]);
      assert brings(steps[i]);
    }
    if HasCome(steps, brings) && !brings(steps[|steps| - 1]) {
      var i :| 0 <= i < |steps| && brings(steps[i]);
      assert brings(steps[..|steps| - 1][i]);
    }
  }

  /** A component is up exactly when a notification that brings it up has come. */
  lemma {:induction false} InitFollowsNotifications(cfg: Config, steps: seq<Step>)
    ensures Run(cfg, steps).admin.init == Notified(steps)
  {
    hide Next, HasCome;
    if steps == [] {
      hide *;
      NothingNotified(cfg);
    } else {
      var m := |steps| - 1;
      InitFollowsNotifications(cfg, steps[..m]);
      HasComeLast(steps, BringsProber);
      HasComeLast(steps, BringsMux);
      HasComeLast(steps, BringsLink);
      EveryRunSettles(cfg, steps[..m]);
      StepInit(cfg, Run(cfg, steps[..m]), steps[m]);
    }
  }

  lemma NothingNotified(cfg: Config)
    ensures Run(cfg, []).admin.init == Notified([])
  {
  }

  /** One initialisation and one start of the prober if all components have been notified, else none. */
  ghost predicate StartedOnce(cfg: Config, steps: seq<Step>) {
    var n := if Notified(steps).All() then 1 else 0;
    Count(OutputsOf(cfg, steps), IsInitialisation) == n && Count(OutputsOf(cfg, steps), IsProbing) == n
  }

  /** Whatever the order and repetition of the notifications, the prober is started once, when all three are in. */
  lemma ProberStartsOnce(cfg: Config, steps: seq<Step>)
    ensures StartedOnce(cfg, steps)
  {
    hide Run;
    EveryRunKeeps(cfg, steps);
    RunIsOk(cfg, steps);
    InitFollowsNotifications(cfg, steps);
    TotalsCount(Run(cfg, steps).journal.log);
  }
}
