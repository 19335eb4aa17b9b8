/** The theorems about every run of an active-standby port. */
module ActiveStandbyRuns {
  import opened Labels
  import opened Strand
  import opened Logs
  import opened ActiveStandbySpec
  import opened ActiveStandbySafety
  import opened ActiveStandbyFrames
  import Answers = ActiveStandbyAnswers
  import MuxState
  import LinkState
  import LinkProberState

  /** The outputs of a run, oldest first. */
  function OutputsOf(cfg: Config, steps: seq<Step>): seq<Output> {
    Outputs(Run(cfg, steps).journal.log)
  }

  // ----- agreement and convergence -----

  ghost predicate AgreesAfter(cfg: Config, steps: seq<Step>) {
    Agrees(Run(cfg, steps))
  }

  /** In every reachable state the composite and the sub-machines agree, up to changes that are still queued. */
  lemma AlwaysAgrees(cfg: Config, steps: seq<Step>)
    ensures AgreesAfter(cfg, steps)
  {
    EveryRunKeeps(cfg, steps);
  }

  lemma SubMachineEventShrinks(cfg: Config, s: State, m: Message)
    requires m.ProberEventMsg? || m.MuxEventMsg? || m.LinkEventMsg?
    ensures Weight(Deliver(cfg, s, m).queue) < Weight(s.queue) + 2
  {
    match m
    case ProberEventMsg(e) =>
      WeightPost(s.queue, LinkProberState.Posted(s.prober, LinkProberState.Handled(s.prober, e, RulesOf(cfg))));
    case MuxEventMsg(e) => WeightPost(s.queue, MuxState.Posted(s.mux, MuxState.Handled(s.mux, e, cfg.muxRetry)));
    case LinkEventMsg(e) => WeightPost(s.queue, LinkState.Posted(s.link, LinkState.Handled(s.link, e, cfg.linkRetry)));
  }

  lemma DeliverShrinks(cfg: Config, s: State, m: Message)
    ensures Weight(Deliver(cfg, s, m).queue) < Weight(s.queue) + if ForSubMachine(m) then 2 else 1
  {
    hide HandleProberChange, HandleMuxChange, HandleLinkChange, HandleSuspendExpiry, SwitchCompleted, SwitchRequested;
    hide LinkProberState.Handled, MuxState.Handled, LinkState.Handled, AfterMuxChange, Applied;
    match m
    case ProberChange(l) => HandleProberChangeFrame(cfg, s, l);
    case LinkChange(l) => HandleLinkChangeFrame(cfg, s, l);
    case MuxChange(l) =>
      if s.admin.pending {
        DeferredModeIsApplied(cfg, s, l);
      } else {
        NothingDeferredFrame(cfg, s, l);
      }
    case ProberEventMsg(_) => SubMachineEventShrinks(cfg, s, m);
    case MuxEventMsg(_) => SubMachineEventShrinks(cfg, s, m);
    case LinkEventMsg(_) => SubMachineEventShrinks(cfg, s, m);
    case SuspendTimerExpiredMsg => WeightPost(s.queue, [HandleSuspendTimerExpiry]);
    case SwitchCommandCompleteMsg => WeightPost(s.queue, [HandleSwitchCompletion]);
    case SwitchRequestMsg => WeightPost(s.queue, [HandleSwitchRequest]);
    case _ => RequestFrames(cfg, s);
  }

  /** Running the strand digests its messages: changes post no events, so it cannot go on forever. */
  lemma StrandShrinks(cfg: Config, s: State)
    requires s.queue != []
    ensures Weight(Next(cfg, s, RunStrand).queue) < Weight(s.queue)
  {
    hide Deliver;
    DeliverShrinks(cfg, s.(queue := s.queue[1..]), s.queue[0]);
  }

  /** Nothing is queued, and the port shows exactly the sub-machines' labels. */
  ghost predicate DrainedAfter(cfg: Config, steps: seq<Step>) {
    var s := Run(cfg, steps);
    s.queue == [] && s.comp == Composite(s.prober.current, s.mux.current, s.link.current)
  }

  /**
   Left alone, a port settles: after running the strand at most as often as its messages weigh, nothing is
   queued and the composite is exactly the triple of the sub-machines' labels.
   */
  lemma {:induction false} Converges(cfg: Config, steps: seq<Step>) returns (k: nat)
    ensures k <= Weight(Run(cfg, steps).queue)
    ensures DrainedAfter(cfg, steps + seq(k, _ => RunStrand))
    decreases Weight(Run(cfg, steps).queue)
  {
    hide Next;
    var s := Run(cfg, steps);
    if s.queue == [] {
      k := 0;
      assert steps + seq(0, _ => RunStrand) == steps;
      AlwaysAgrees(cfg, steps);
    } else {
      StrandShrinks(cfg, s);
      assert (steps + [RunStrand])[..|steps|] == steps;
      var more := Converges(cfg, steps + [RunStrand]);
      k := more + 1;
      assert steps + [RunStrand] + seq(more, _ => RunStrand) == steps + seq(k, _ => RunStrand);
    }
  }

  // ----- what the totals say about the outputs -----

  /** The condition of an output was met when it was made. */
  lemma {:induction false} WasOk(log: Log<Output>, i: nat)
    requires i <= |Outputs(log)| && Summarize(log).ok
    ensures Summarize(Prefix(log, i)).ok
    ensures i < |Outputs(log)| ==> Digest(Summarize(Prefix(log, i)), Outputs(log)[i]).ok
  {
    if i < |Outputs(log)| {
      WasOk(log.earlier, i);
    }
  }

  lemma RunIsOk(cfg: Config, steps: seq<Step>)
    ensures Summarize(Run(cfg, steps).journal.log) == Run(cfg, steps).journal.totals
    ensures Run(cfg, steps).journal.totals.ok
  {
    EveryRunKeeps(cfg, steps);
  }

  /** Every toggle of every run meets the condition of its cause and of its mode. */
  lemma TogglesMeetTheirCause(cfg: Config, steps: seq<Step>, i: nat)
    requires i < |OutputsOf(cfg, steps)| && OutputsOf(cfg, steps)[i].Toggle?
    ensures var o := OutputsOf(cfg, steps)[i]; ToggleMet(o.cause, o.ms, o.at)
  {
    hide Run, ToggleMet;
    RunIsOk(cfg, steps);
    WasOk(Run(cfg, steps).journal.log, i);
  }

  predicate ActiveToggle(o: Output) {
    o.Toggle? && o.ms == MActive
  }

  predicate MuxSettles(o: Output) {
    (o.MuxAccepted? || o.MuxForced?) && o.ms != MWait
  }

  lemma {:induction false} OpenUntilSettled(log: Log<Output>, i: nat)
    requires i < |Outputs(log)| && ActiveToggle(Outputs(log)[i])
    ensures Summarize(log).activeOpen || exists k :: i < k < |Outputs(log)| && MuxSettles(Outputs(log)[k])
  {
    hide ToggleMet, CappedFactor, IsFactor;
    var outs := Outputs(log);
    if i < |outs| - 1 {
      OpenUntilSettled(log.earlier, i);
      if !Summarize(log.earlier).activeOpen {
        var k :| i < k < |Outputs(log.earlier)| && MuxSettles(Outputs(log.earlier)[k]);
        assert outs[k] == Outputs(log.earlier)[k];
      } else if MuxSettles(log.last) {
        assert outs[|outs| - 1] == log.last;
      }
    }
  }

  lemma {:induction false} ProbingCounted(log: Log<Output>, i: nat)
    requires i < |Outputs(log)| && Outputs(log)[i] == StartProbing
    ensures Summarize(log).probings > 0
  {
    hide Digest;
    DigestProbings(Summarize(log.earlier), log.last);
    if i < |Outputs(log)| - 1 {
      ProbingCounted(log.earlier, i);
    }
  }

  lemma DigestProbings(t: Summary, o: Output)
    ensures Digest(t, o).probings == t.probings + if o == StartProbing then 1 else 0
  {
    hide ToggleMet, CappedFactor, IsFactor;
  }

  lemma SettledBetween(log: Log<Output>, i: nat, j: nat)
    requires i < j < |Outputs(log)| && Summarize(log).ok
    requires ActiveToggle(Outputs(log)[i]) && ActiveToggle(Outputs(log)[j])
    ensures exists k :: i < k < j && MuxSettles(Outputs(log)[k])
  {
    hide ToggleMet;
    WasOk(log, j);
    OpenUntilSettled(Prefix(log, j), i);
    var k :| i < k < j && MuxSettles(Outputs(log)[..j][k]);
  }

  /** Once probing has started the mux is not forced any more. */
  lemma ForcedBeforeProbing(log: Log<Output>, i: nat, k: nat)
    requires i < k < |Outputs(log)| && Summarize(log).ok && StartProbing in Outputs(log)[..i]
    ensures !Outputs(log)[k].MuxForced?
  {
    hide ToggleMet;
    var p :| 0 <= p < i && Outputs(log)[p] == StartProbing;
    WasOk(log, k);
    assert Outputs(log)[..k][p] == StartProbing;
    ProbingCounted(Prefix(log, k), p);
  }

  /**
   Between two Active toggles the mux has settled, on a label other than Wait; once probing has started, it
   settled by a mux change that the composite accepted. So a port never asks twice for the active side without
   an answer.
   */
  lemma ActiveTogglesAreSeparated(cfg: Config, steps: seq<Step>, i: nat, j: nat)
    requires i < j < |OutputsOf(cfg, steps)|
    requires ActiveToggle(OutputsOf(cfg, steps)[i]) && ActiveToggle(OutputsOf(cfg, steps)[j])
    ensures exists k :: i < k < j && MuxSettles(OutputsOf(cfg, steps)[k])
                        && (StartProbing in OutputsOf(cfg, steps)[..i] ==> OutputsOf(cfg, steps)[k].MuxAccepted?)
  {
    hide Run;
    RunIsOk(cfg, steps);
    var log := Run(cfg, steps).journal.log;
    SettledBetween(log, i, j);
    var k :| i < k < j && MuxSettles(Outputs(log)[k]);
    if StartProbing in Outputs(log)[..i] {
      ForcedBeforeProbing(log, i, k);
    }
  }

  lemma {:induction false} OpenEndIsLast(log: Log<Output>, i: nat)
    requires i < |Outputs(log)| && Outputs(log)[i].SwitchingEnd?
    ensures Summarize(log).endOpen || exists k :: i < k < |Outputs(log)| && Outputs(log)[k].SwitchingStart?
  {
    hide Digest;
    var outs := Outputs(log);
    DigestEnds(Summarize(log.earlier), log.last);
    assert outs[|outs| - 1] == log.last;
    if i < |outs| - 1 {
      assert outs[i] == Outputs(log.earlier)[i];
      OpenEndIsLast(log.earlier, i);
      if !Summarize(log.earlier).endOpen {
        var k :| i < k < |Outputs(log.earlier)| && Outputs(log.earlier)[k].SwitchingStart?;
        assert outs[k] == Outputs(log.earlier)[k];
      }
    }
  }

  lemma DigestEnds(t: Summary, o: Output)
    ensures Digest(t, o).endOpen == (o.SwitchingEnd? || (t.endOpen && !o.SwitchingStart?))
  {
    hide ToggleMet, CappedFactor, IsFactor;
  }

  /** Two ends of a switch-over always have a start between them. */
  lemma SwitchingEndsArePaired(cfg: Config, steps: seq<Step>, i: nat, j: nat)
    requires i < j < |OutputsOf(cfg, steps)|
    requires OutputsOf(cfg, steps)[i].SwitchingEnd? && OutputsOf(cfg, steps)[j].SwitchingEnd?
    ensures exists k :: i < k < j && OutputsOf(cfg, steps)[k].SwitchingStart?
  {
    hide Run, ToggleMet;
    var outs := OutputsOf(cfg, steps);
    RunIsOk(cfg, steps);
    var prefix := Prefix(Run(cfg, steps).journal.log, j);
    WasOk(Run(cfg, steps).journal.log, j);
    OpenEndIsLast(prefix, i);
    var k :| i < k < j && outs[..j][k].SwitchingStart?;
  }

  datatype Counted = Starts | Ends | Initialisations | Probings

  predicate IsStart(o: Output) {
    o.SwitchingStart?
  }

  predicate IsEnd(o: Output) {
    o.SwitchingEnd?
  }

  predicate IsInitialisation(o: Output) {
    o == InitializeProber
  }

  predicate IsProbing(o: Output) {
    o == StartProbing
  }

  function Test(c: Counted): Output -> bool {
    match c
    case Starts => IsStart
    case Ends => IsEnd
    case Initialisations => IsInitialisation
    case Probings => IsProbing
  }

  function TotalOf(t: Summary, c: Counted): nat {
    match c
    case Starts => t.starts
    case Ends => t.ends
    case Initialisations => t.inits
    case Probings => t.probings
  }

  lemma DigestCounts(t: Summary, o: Output, c: Counted)
    ensures TotalOf(Digest(t, o), c) == TotalOf(t, c) + if Test(c)(o) then 1 else 0
  {
    hide ToggleMet, CappedFactor, IsFactor;
  }

  lemma {:induction false} TotalsCount(log: Log<Output>, c: Counted)
    ensures TotalOf(Summarize(log), c) == Count(Outputs(log), Test(c))
  {
    hide Digest, Test, Count;
    match log
    case Empty => CountNone(Test(c));
    case After(earlier, o) =>
      TotalsCount(earlier, c);
      DigestCounts(Summarize(earlier), o, c);
      CountLast(Outputs(earlier), o, Test(c));
  }

  /** Over any run the ends exceed the starts by at most one, the one that the construction owes. */
  lemma SwitchingEndsAreBounded(cfg: Config, steps: seq<Step>)
    ensures Count(OutputsOf(cfg, steps), IsEnd) <= Count(OutputsOf(cfg, steps), IsStart) + 1
  {
    hide Run;
    EveryRunKeeps(cfg, steps);
    RunIsOk(cfg, steps);
    TotalsCount(Run(cfg, steps).journal.log, Ends);
    TotalsCount(Run(cfg, steps).journal.log, Starts);
  }

  // ----- the notifications that bring the components up -----

  predicate BringsProber(step: Step) {
    step.BladeIp?
  }

  /** A mux state that is known, or the answer to a probe that it is not. */
  predicate BringsMux(step: Step) {
    (step.MuxStateNotification? && step.ms != MUnknown) || step == Step.ProbeMuxState(MUnknown)
  }

  predicate BringsLink(step: Step) {
    step.SwssLink?
  }

  function InitAfterStep(init: InitBits, step: Step): InitBits {
    InitBits(init.prober || BringsProber(step), init.mux || BringsMux(step), init.link || BringsLink(step))
  }

  lemma StepInit(cfg: Config, s: State, step: Step)
    ensures Next(cfg, s, step).admin.init == InitAfterStep(s.admin.init, step)
  {
    if BringsComponentUp(step) {
      hide Next;
      if s.admin.init.All() {
        ActiveComponentFrame(cfg, s, step);
      } else {
        ComponentInit(cfg, s, step);
      }
    } else {
      hide Next;
      OtherStepsKeepInit(cfg, s, step);
    }
  }

  lemma SettleMuxInit(cfg: Config, s: State, l: MuxLabel)
    ensures SettleMux(cfg, s, l).admin.init == s.admin.init.(mux := true)
  {
    hide Activate, Record, MuxState.Entered;
    ActivateAligns(cfg, WithInit(EnterMux(Emit(s, MuxForced(l)), l), s.admin.init.(mux := true)));
  }

  lemma ComponentInit(cfg: Config, s: State, step: Step)
    requires BringsComponentUp(step) && !s.admin.init.All()
    ensures Next(cfg, s, step).admin.init == InitAfterStep(s.admin.init, step)
  {
    hide HandleBladeIp, HandleMuxState, HandleProbeMuxState, HandleSwssLink, Deliver, Post;
    hide HandleGetMuxState, HandlePeerLink, HandleMuxConfig, HandleDefaultRoute, HandleResetSuspendTimer;
    hide HandleMuxProbeTimeout, HandleMuxWaitTimeout, HandleOscillationTimeout;
    match step
    case BladeIp(changed) => BladeIpInit(cfg, s, changed);
    case SwssLink(l) => SwssLinkInit(cfg, s, l);
    case MuxStateNotification(l) => MuxStateInit(cfg, s, l);
    case ProbeMuxState(l) => MuxStateInit(cfg, s, l);
  }

  lemma BladeIpInit(cfg: Config, s: State, changed: bool)
    requires !s.admin.init.All()
    ensures HandleBladeIp(cfg, s, changed).admin.init == s.admin.init.(prober := true)
  {
    hide Activate, Record;
    ActivateAligns(cfg, WithInit(s, s.admin.init.(prober := true)));
  }

  lemma SwssLinkInit(cfg: Config, s: State, l: LinkLabel)
    requires !s.admin.init.All()
    ensures HandleSwssLink(cfg, s, l).admin.init == s.admin.init.(link := true)
  {
    hide Activate, Record, LinkState.Entered;
    ActivateAligns(cfg, WithInit(EnterLink(s, l), s.admin.init.(link := true)));
  }

  lemma MuxStateInit(cfg: Config, s: State, l: MuxLabel)
    requires !s.admin.init.All()
    ensures HandleMuxState(cfg, s, l).admin.init == if l == MUnknown then s.admin.init else s.admin.init.(mux := true)
    ensures HandleProbeMuxState(cfg, s, l).admin.init == if l != MUnknown then s.admin.init else s.admin.init.(mux := true)
  {
    hide SettleMux, EnterMuxWait, Record, MuxState.SetCause, MuxState.Entered;
    SettleMuxInit(cfg, s, l);
    EnterMuxWaitFrame(s);
  }

  ghost predicate HasCome(steps: seq<Step>, brings: Step -> bool) {
    exists i :: 0 <= i < |steps| && brings(steps[i])
  }

  /** Which components the notifications of a run have brought up. */
  ghost function Notified(steps: seq<Step>): InitBits {
    InitBits(HasCome(steps, BringsProber), HasCome(steps, BringsMux), HasCome(steps, BringsLink))
  }

  lemma HasComeLast(steps: seq<Step>, brings: Step -> bool)
    requires steps != []
    ensures HasCome(steps, brings) <==> HasCome(steps[..|steps| - 1], brings) || brings(steps[|steps| - 1])
  {
    if HasCome(steps[..|steps| - 1], brings) {
      var i :| 0 <= i < |steps| - 1 && brings(steps[..|steps| - 1][i]);
      assert brings(steps[i]);
    }
    if HasCome(steps, brings) && !brings(steps[|steps| - 1]) {
      var i :| 0 <= i < |steps| && brings(steps[i]);
      assert brings(steps[..|steps| - 1][i]);
    }
  }

  /** A component is up exactly when a notification that brings it up has come. */
  lemma {:induction false} InitFollowsNotifications(cfg: Config, steps: seq<Step>)
    ensures Run(cfg, steps).admin.init == Notified(steps)
  {
    hide Next, HasCome;
    if steps == [] {
      hide *;
      NothingNotified(cfg);
    } else {
      var m := |steps| - 1;
      InitFollowsNotifications(cfg, steps[..m]);
      HasComeLast(steps, BringsProber);
      HasComeLast(steps, BringsMux);
      HasComeLast(steps, BringsLink);
      StepInit(cfg, Run(cfg, steps[..m]), steps[m]);
    }
  }

  lemma NothingNotified(cfg: Config)
    ensures Run(cfg, []).admin.init == Notified([])
  {
  }

  /** One initialisation and one start of the prober if all components have been notified, else none. */
  ghost predicate StartedOnce(cfg: Config, steps: seq<Step>) {
    var n := if Notified(steps).All() then 1 else 0;
    Count(OutputsOf(cfg, steps), IsInitialisation) == n && Count(OutputsOf(cfg, steps), IsProbing) == n
  }

  /** Whatever the order and repetition of the notifications, the prober is started once, when all three are in. */
  lemma ProberStartsOnce(cfg: Config, steps: seq<Step>)
    ensures StartedOnce(cfg, steps)
  {
    hide Run;
    EveryRunKeeps(cfg, steps);
    RunIsOk(cfg, steps);
    InitFollowsNotifications(cfg, steps);
    TotalsCount(Run(cfg, steps).journal.log, Initialisations);
    TotalsCount(Run(cfg, steps).journal.log, Probings);
  }

  lemma StartProberAligns(cfg: Config, s: State)
    ensures var s' := StartProber(cfg, s);
            s'.admin.init == s.admin.init && s'.comp.ps == s'.prober.current == InitialProber(s'.comp.ms)
  {
    hide Record, UpdateHealth, ShutdownOrRestart, LinkProberState.Entered, LinkProberState.Cleared;
    var s1 := InitProber(s, false);
    EnteredAligns(s.prober, InitialProber(s.comp.ms));
    ShutdownOrRestartAligns(s1);
    var s2 := if cfg.defaultRouteFeature then ShutdownOrRestart(s1) else s1;
    UpdateHealthFrame(cfg, Emit(Emit(s2, InitializeProber), StartProbing));
  }

  lemma EnteredAligns(p: LinkProberState.Machine, l: ProberLabel)
    ensures LinkProberState.Entered(p, l, ActiveStandbyCable).current == l
  {
  }

  lemma ShutdownOrRestartAligns(s: State)
    ensures var s' := ShutdownOrRestart(s); s'.comp == s.comp && s'.prober == s.prober && s'.admin == s.admin
  {
    hide Record;
  }

  lemma DeliverKeepsInit(cfg: Config, s: State, m: Message)
    ensures Deliver(cfg, s, m).admin.init == s.admin.init
  {
    hide HandleProberChange, HandleMuxChange, HandleLinkChange, HandleSuspendExpiry, SwitchCompleted, SwitchRequested;
    hide LinkProberState.Handled, MuxState.Handled, LinkState.Handled, AfterMuxChange, Applied;
    match m
    case ProberChange(l) => HandleProberChangeFrame(cfg, s, l);
    case LinkChange(l) => HandleLinkChangeFrame(cfg, s, l);
    case MuxChange(l) =>
      if s.admin.pending {
        DeferredModeIsApplied(cfg, s, l);
      } else {
        NothingDeferredFrame(cfg, s, l);
      }
    case HandleSuspendTimerExpiry => RequestFrames(cfg, s);
    case HandleSwitchCompletion => RequestFrames(cfg, s);
    case HandleSwitchRequest => RequestFrames(cfg, s);
    case _ =>
  }

  lemma OtherStepsKeepInit(cfg: Config, s: State, step: Step)
    requires !BringsComponentUp(step)
    ensures Next(cfg, s, step).admin.init == s.admin.init
  {
    hide Record, Deliver, HandleGetMuxState, HandlePeerLink, HandleDefaultRoute, HandleResetSuspendTimer;
    hide HandleMuxProbeTimeout, HandleMuxWaitTimeout, HandleOscillationTimeout, ApplyMode;
    match step
    case RunStrand =>
      if s.queue != [] {
        DeliverKeepsInit(cfg, s.(queue := s.queue[1..]), s.queue[0]);
      }
    case GetMuxState(m) => NotificationFrames(cfg, s, m, LUp, RouteOK);
    case PeerLink(l) => NotificationFrames(cfg, s, MWait, l, RouteOK);
    case MuxConfig(mode) => ApplyModeFrame(cfg, s, mode);
    case DefaultRouteState(r) => NotificationFrames(cfg, s, MWait, LUp, r);
    case ResetSuspendTimer => NotificationFrames(cfg, s, MWait, LUp, RouteOK);
    case MuxProbeTimeout(success) => TimeoutFrames(cfg, s, success);
    case MuxWaitTimeout(success) => TimeoutFrames(cfg, s, success);
    case OscillationTimeout(success) => TimeoutFrames(cfg, s, success);
    case _ =>
  }

  lemma ActivateAligns(cfg: Config, s: State)
    ensures var s' := Activate(cfg, s);
            s'.admin.init == s.admin.init
            && (s'.admin.init.All() ==> s'.comp.ps == s'.prober.current == InitialProber(s'.comp.ms))
  {
    hide Record, StartProber;
    StartProberAligns(cfg, s);
  }

  lemma SettleMuxAligns(cfg: Config, s: State, l: MuxLabel)
    ensures var s' := SettleMux(cfg, s, l);
            s'.admin.init.All() ==> s'.comp.ps == s'.prober.current == InitialProber(s'.comp.ms)
  {
    hide Activate;
    ActivateAligns(cfg, WithInit(EnterMux(Emit(s, MuxForced(l)), l), s.admin.init.(mux := true)));
  }

  /** The step that brings the last component up shows the prober label that matches the mux, on both sides. */
  lemma ActivationAlignsProber(cfg: Config, s: State, step: Step)
    requires !s.admin.init.All()
    ensures var s' := Next(cfg, s, step);
            s'.admin.init.All() ==> s'.comp.ps == s'.prober.current == Answers.Matching(s'.comp.ms)
  {
    hide Next;
    if BringsComponentUp(step) {
      ComponentAligns(cfg, s, step);
    } else {
      OtherStepsKeepInit(cfg, s, step);
    }
  }

  lemma ComponentAligns(cfg: Config, s: State, step: Step)
    requires !s.admin.init.All() && BringsComponentUp(step)
    ensures var s' := Next(cfg, s, step);
            s'.admin.init.All() ==> s'.comp.ps == s'.prober.current == InitialProber(s'.comp.ms)
  {
    hide Record, Activate, EnterMuxWait, SettleMux, MuxState.SetCause, MuxState.Entered, LinkState.Entered, InitialProber;
    match step
    case BladeIp(_) => ActivateAligns(cfg, WithInit(s, s.admin.init.(prober := true)));
    case MuxStateNotification(l) => EnterMuxWaitFrame(s); SettleMuxAligns(cfg, s, l);
    case ProbeMuxState(l) => SettleMuxAligns(cfg, s, l);
    case SwssLink(l) => ActivateAligns(cfg, WithInit(EnterLink(s, l), s.admin.init.(link := true)));
  }

  // ----- backoffs -----

  /** How often a backoff has been used since its last reset. */
  function UsesSinceReset(outs: seq<Output>, kind: BackoffKind): nat {
    if outs == [] then 0
    else
      var o, before := outs[|outs| - 1], UsesSinceReset(outs[..|outs| - 1], kind);
      if o.Backoff? && o.kind == kind then before + 1
      else if o == BackoffReset(kind) then 0
      else before
  }

  lemma DigestUses(t: Summary, o: Output, kind: BackoffKind)
    ensures UsesOf(Digest(t, o), kind) == if o.Backoff? && o.kind == kind then UsesOf(t, kind) + 1
                                          else if o == BackoffReset(kind) then 0
                                          else UsesOf(t, kind)
  {
    hide ToggleMet, CappedFactor, IsFactor;
  }

  lemma {:induction false} UsesAreCounted(log: Log<Output>, kind: BackoffKind)
    ensures UsesOf(Summarize(log), kind) == UsesSinceReset(Outputs(log), kind)
  {
    match log
    case Empty =>
    case After(earlier, o) =>
      hide Digest;
      UsesAreCounted(earlier, kind);
      DigestUses(Summarize(earlier), o, kind);
      assert Outputs(log)[..|Outputs(log)| - 1] == Outputs(earlier);
  }

  /**
   The k-th use of a backoff since its last reset has the factor min(2^k, 128). The visits of a waiting prober
   over an active mux are counted in 32 bits: there the factor is that of k modulo 2^32, and so it is
   min(2^k, 128) exactly when k is below 2^32 or at least seven more than a multiple of it.
   */
  lemma BackoffsAreClosedForm(cfg: Config, steps: seq<Step>, i: nat)
    requires i < |OutputsOf(cfg, steps)| && OutputsOf(cfg, steps)[i].Backoff?
    ensures var Backoff(kind, factor) := OutputsOf(cfg, steps)[i];
            var k := UsesSinceReset(OutputsOf(cfg, steps)[..i], kind);
            && factor == CappedFactor(if kind == WaitActiveUp then k % 0x1_0000_0000 else k)
            && (factor == CappedFactor(k) <==> kind != WaitActiveUp || k < 0x1_0000_0000 || k % 0x1_0000_0000 >= 7)
  {
    hide Run, ToggleMet, UsesSinceReset, UsesOf, WithUses, IsFactor, CappedFactor;
    var log := Run(cfg, steps).journal.log;
    var Backoff(kind, factor) := OutputsOf(cfg, steps)[i];
    RunIsOk(cfg, steps);
    WasOk(log, i);
    UsesAreCounted(Prefix(log, i), kind);
    var k := UsesSinceReset(OutputsOf(cfg, steps)[..i], kind);
    assert factor == FactorAfter(kind, k);
    WrappedFactor(k);
  }

  /** Seven doublings reach the cap; fewer do not. */
  lemma FactorReachesCap(k: nat)
    ensures CappedFactor(k) == 128 <==> k >= 7
  {
    assert Pow2(7) == 128;
    if k < 7 {
      Pow2Grows(k + 1, 7);
    } else {
      Pow2Grows(7, k);
    }
  }

  lemma WrappedFactor(k: nat)
    ensures CappedFactor(k % 0x1_0000_0000) == CappedFactor(k) <==> k < 0x1_0000_0000 || k % 0x1_0000_0000 >= 7
  {
    hide CappedFactor;
    FactorReachesCap(k);
    FactorReachesCap(k % 0x1_0000_0000);
  }

  lemma ProductFits(factor: nat, base: nat)
    requires factor <= 128 && base < 0x200_0000
    ensures factor * base < 0x1_0000_0000
  {
    assert factor * base <= 128 * base;
  }

  predicate HasFactor(o: Output) {
    o.ProbeTimer? || o.WaitTimer? || o.Backoff?
  }

  lemma FactorsArePowers(f: uint32)
    requires IsFactor(f)
    ensures exists j: nat :: j <= 7 && f == Pow2(j)
  {
    assert Pow2(0) == 1 && Pow2(1) == 2 && Pow2(2) == 4 && Pow2(3) == 8;
    assert Pow2(4) == 16 && Pow2(5) == 32 && Pow2(6) == 64 && Pow2(7) == 128;
  }

  /**
   Every factor that a timer or a suspension is started with is a power of two within the cap, so no product
   with a base below 2^25 ms leaves 32 bits.
   */
  lemma BackoffsFitTheirTimers(cfg: Config, steps: seq<Step>, i: nat, base: nat)
    requires i < |OutputsOf(cfg, steps)| && HasFactor(OutputsOf(cfg, steps)[i])
    requires base < 0x200_0000
    ensures exists j: nat :: j <= 7 && OutputsOf(cfg, steps)[i].factor == Pow2(j)
    ensures OutputsOf(cfg, steps)[i].factor * base < 0x1_0000_0000
  {
    hide Run, ToggleMet, UsesOf, WithUses, CappedFactor, Pow2, IsFactor;
    var log, o := Run(cfg, steps).journal.log, OutputsOf(cfg, steps)[i];
    RunIsOk(cfg, steps);
    WasOk(log, i);
    if o.Backoff? {
      var k := UsesOf(Summarize(Prefix(log, i)), o.kind);
      FactorsDouble(k);
      FactorsDouble(k % 0x1_0000_0000);
    } else {
      FactorsArePowers(o.factor);
      FactorIsSmall(o.factor);
    }
    ProductFits(o.factor, base);
  }

  lemma FactorIsSmall(f: uint32)
    requires IsFactor(f)
    ensures f <= 128
  {
  }
}
