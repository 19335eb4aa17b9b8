/** When an active-active port is healthy, when it says so, and what its peer is toggled on. */
module ActiveActiveHealth {
  import opened Labels
  import opened Strand
  import opened Logs
  import opened ActiveActiveSpec
  import opened ActiveActiveRuns
  import opened ActiveActiveDuties
  import Answers = ActiveActiveAnswers
  import Safety = ActiveActiveSafety
  import Steps = ActiveActiveSteps
  import Toggles = ActiveActiveToggles

  /**
   The steps that report the health: served changes, routes, and, of an active port, configurations and answers
   to toggles; and the step that activates the port.
   */
  predicate Reports(s: State, step: Step) {
    var up := s.admin.init.All();
    match step
    case RunStrand =>
      && s.queue != []
      && (|| s.queue[0].ProberChange? || s.queue[0].MuxChange? || s.queue[0].LinkChange?
          || (up && s.queue[0].DeferredMuxConfig?))
    case DefaultRouteState(_) => true
    case MuxConfig(_) => up
    case _ =>
      && InitAfterStep(s.admin.init, step).All()
      && (if up then step.MuxStateNotification? else Safety.BringsComponentUp(step))
  }

  /**
   The link is up, the server is heard, the mux is where orchagent last said it is, unless the last word on it is
   that it is unknown, and the default route is there or does not matter.
   */
  predicate Healthful(cfg: Config, s: State) {
    var a := s.admin;
    && s.comp.ls == LUp && s.comp.ps == PActive
    && (s.comp.ms == a.lastMuxState || a.lastMuxState == MUnknown
        || (a.lastNotification == FromProbe && a.lastMuxProbe == MUnknown))
    && (a.route == RouteOK || !cfg.defaultRouteFeature)
  }

  /** The port says what it is. */
  predicate Told(cfg: Config, s: State) {
    s.admin.health == if Healthful(cfg, s) then Healthy else Unhealthy
  }

  lemma ReportedIsTold(cfg: Config, s: State, d: Answers.Duty)
    requires Answers.FaceOf(s).comp == d.face.comp
    requires Answers.FaceOf(s).admin == Answers.ThenReport(cfg, d).face.admin.(deferred := s.admin.deferred)
    ensures Told(cfg, s)
  {
    hide Answers.HealthNotes;
  }

  lemma StrandReports(cfg: Config, s: State)
    ensures var s' := Next(cfg, s, RunStrand);
            if Reports(s, RunStrand) then Told(cfg, s') else s'.admin.health == s.admin.health
  {
    hide Next, Deliver, Told, Answers.ProberTaken, Answers.MuxTaken, Answers.LinkTaken, Answers.ModeDuty;
    hide Answers.TransmitNotes, Answers.HealthBy, EventDuty, Answers.HealthNotes;
    StepDoes(cfg, s, RunStrand);
    if s.queue != [] {
      var f, s' := Answers.FaceOf(s.(queue := s.queue[1..])), Next(cfg, s, RunStrand);
      match s.queue[0]
      case ProberChange(l) => ReportedIsTold(cfg, s', Answers.ProberTaken(f, l));
      case MuxChange(l) => ReportedIsTold(cfg, s', Answers.MuxTaken(f, l));
      case LinkChange(l) => ReportedIsTold(cfg, s', Answers.LinkTaken(f, l));
      case DeferredMuxConfig(mode) =>
        if s.admin.init.All() {
          ReportedIsTold(cfg, s', Answers.ModeDuty(f.(admin := f.admin.(mode := mode)), mode));
        }
      case _ => EventKeepsHealth(cfg, s.(queue := s.queue[1..]), s.queue[0]);
    }
  }

  lemma EventKeepsHealth(cfg: Config, s: State, m: Message)
    ensures IsEvent(m) ==> EventDuty(cfg, s, m).face.admin == s.admin
  {
  }

  lemma SettingsReport(cfg: Config, s: State, step: Step)
    requires step.MuxConfig? || step.DefaultRouteState?
    ensures var s' := Next(cfg, s, step); if Reports(s, step) then Told(cfg, s') else s'.admin.health == s.admin.health
  {
    hide Next, Told, Answers.ModeDuty, Answers.RouteLost, Answers.RouteBackFace, Answers.TransmitNotes, Answers.HealthBy;
    hide Answers.HealthNotes;
    StepDoes(cfg, s, step);
    var f, s' := Answers.FaceOf(s), Next(cfg, s, step);
    match step
    case MuxConfig(mode) =>
      if s.admin.init.All() {
        ReportedIsTold(cfg, s', Answers.ModeDuty(f.(admin := f.admin.(mode := mode)), mode));
      }
    case DefaultRouteState(present) =>
      var f1 := f.(admin := f.admin.(route := if present then RouteOK else RouteNA));
      var lost := Answers.RouteLost(f1);
      ReportedIsTold(cfg, s', Answers.Duty(Answers.TransmitNotes(f1) + lost.outs,
                                           Answers.RouteBackFace(lost.face, f.admin.route)));
  }

  /** What the activation leaves, if it comes to that. */
  lemma ActivationIsTold(cfg: Config, s: State, f: Answers.Face)
    requires Answers.FaceOf(s) == Answers.ActivateDuty(cfg, f).face
    ensures if Answers.AllUp(f) then Told(cfg, s) else s.admin.health == f.admin.health
  {
    hide Told, Answers.HealthBy, Answers.TransmitNotes, Answers.HealthNotes;
    if Answers.AllUp(f) {
      var f1 := Answers.Showing(f, Answers.Matching(f.comp.ms));
      var outs := (if cfg.defaultRouteFeature then Answers.TransmitNotes(f1) else []) + [InitializeProber, StartProbing];
      ReportedIsTold(cfg, s, Answers.Duty(outs, f1));
    }
  }

  lemma ComponentReports(cfg: Config, s: State, step: Step)
    requires Safety.BringsComponentUp(step) && !s.admin.init.All()
    ensures var s' := Next(cfg, s, step); if Reports(s, step) then Told(cfg, s') else s'.admin.health == s.admin.health
  {
    hide Next, Told, MessageDuty, Answers.SoCIpDuty, Answers.SwssLinkDuty, Answers.SettleDuty, Answers.RouteDuty;
    hide Answers.MuxConfigDuty, Answers.ProbeTimeoutDuty, Answers.ActivateDuty;
    StepDoes(cfg, s, step);
    var f, s' := Answers.FaceOf(s), Next(cfg, s, step);
    match step
    case SoCIp(changed) => SoCIpIsTold(cfg, s', f, changed);
    case SwssLink(l) => SwssLinkIsTold(cfg, s', f, l);
    case MuxStateNotification(l) => SettlingIsTold(cfg, s', Answers.Told(f, l), l);
    case ProbeMuxStateNotification(l) => SettlingIsTold(cfg, s', Answers.Probed(f, l), l);
  }

  lemma SoCIpIsTold(cfg: Config, s: State, f: Answers.Face, changed: bool)
    requires Answers.FaceOf(s) == Answers.SoCIpDuty(cfg, f, changed).face && !Answers.AllUp(f)
    ensures if f.admin.init.mux && f.admin.init.link then Told(cfg, s) else s.admin.health == f.admin.health
  {
    hide Told, Answers.ActivateDuty;
    if !f.admin.init.prober {
      ActivationIsTold(cfg, s, Answers.Up(f, f.admin.init.(prober := true)));
    }
  }

  lemma SwssLinkIsTold(cfg: Config, s: State, f: Answers.Face, l: LinkLabel)
    requires Answers.FaceOf(s) == Answers.SwssLinkDuty(cfg, f, l).face && !Answers.AllUp(f)
    ensures if f.admin.init.prober && f.admin.init.mux then Told(cfg, s) else s.admin.health == f.admin.health
  {
    hide Told, Answers.ActivateDuty;
    ActivationIsTold(cfg, s, Answers.Up(f.(comp := f.comp.(ls := l), ls := l), f.admin.init.(link := true)));
  }

  lemma SettlingIsTold(cfg: Config, s: State, f: Answers.Face, l: MuxLabel)
    requires Answers.FaceOf(s) == Answers.SettleDuty(cfg, f, l).face
    ensures if f.admin.init.prober && f.admin.init.link then Told(cfg, s) else s.admin.health == f.admin.health
  {
    hide Told, Answers.ActivateDuty;
    var at := if l == MUnknown then MWait else l;
    var f1 := (if l == MUnknown then Answers.Asked(f) else f).(comp := f.comp.(ms := at), ms := at);
    ActivationIsTold(cfg, s, Answers.Up(f1, f.admin.init.(mux := true)));
  }

  lemma OtherReports(cfg: Config, s: State, step: Step)
    requires !step.RunStrand? && !step.MuxConfig? && !step.DefaultRouteState?
    requires Safety.BringsComponentUp(step) ==> s.admin.init.All()
    ensures var s' := Next(cfg, s, step); if Reports(s, step) then Told(cfg, s') else s'.admin.health == s.admin.health
  {
    hide Next, Told, Answers.ActivateDuty, Answers.SettleDuty, Answers.HealthBy, MessageDuty, Answers.RouteDuty;
    hide Answers.MuxConfigDuty, Answers.HealthNotes;
    StepDoes(cfg, s, step);
    if step.MuxStateNotification? {
      var f1 := Answers.Told(Answers.FaceOf(s), step.ms);
      ReportedIsTold(cfg, Next(cfg, s, step), Answers.Duty([ProbePeerTor, ResumeTx, SwitchingEnd(step.ms)],
                                                           f1.(queue := s.queue + Answers.Reporting(step.ms))));
    }
  }

  lemma StepReports(cfg: Config, s: State, step: Step)
    ensures var s' := Next(cfg, s, step); if Reports(s, step) then Told(cfg, s') else s'.admin.health == s.admin.health
  {
    hide Next, Told, Reports;
    if step.RunStrand? {
      StrandReports(cfg, s);
    } else if step.MuxConfig? || step.DefaultRouteState? {
      SettingsReport(cfg, s, step);
    } else if Safety.BringsComponentUp(step) && !s.admin.init.All() {
      ComponentReports(cfg, s, step);
    } else {
      OtherReports(cfg, s, step);
    }
  }

  // ----- every run -----

  /** Step `n` of the run reports. */
  ghost predicate ReportsAt(cfg: Config, steps: seq<Step>, n: nat)
    requires n < |steps|
  {
    Reports(Run(cfg, steps[..n]), steps[n])
  }

  /** The same in the words of the run: the answers and probes are those of its notifications. */
  ghost predicate HealthfulAfter(cfg: Config, steps: seq<Step>) {
    var s := Run(cfg, steps);
    && s.comp.ls == LUp && s.comp.ps == PActive
    && (s.comp.ms == Toggles.LastAnswer(steps) || Toggles.LastAnswer(steps) == MUnknown
        || Toggles.LaterProbe(steps) == Some(MUnknown))
    && (s.admin.route == RouteOK || !cfg.defaultRouteFeature)
  }

  /** Every reporting step of every run leaves the health that link, prober, notifications and route determine. */
  lemma ReportsAreRight(cfg: Config, steps: seq<Step>, n: nat)
    requires n < |steps| && ReportsAt(cfg, steps, n)
    ensures Run(cfg, steps[..n + 1]).admin.health == if HealthfulAfter(cfg, steps[..n + 1]) then Healthy else Unhealthy
  {
    hide Next, Run, Reports, Toggles.LastAnswer, Toggles.LaterProbe;
    Steps.StepAdds(cfg, steps, n);
    StepReports(cfg, Run(cfg, steps[..n]), steps[n]);
    Toggles.NotificationsAreKept(cfg, steps[..n + 1]);
  }

  /** Step `m` was the last to report before step `n`. */
  ghost predicate LastReport(cfg: Config, steps: seq<Step>, m: nat, n: nat) {
    m < n <= |steps| && ReportsAt(cfg, steps, m) && forall k :: m < k < n ==> !ReportsAt(cfg, steps, k)
  }

  /** A port that counts as healthy was so when it last reported. */
  lemma {:induction false} HealthIsLastReport(cfg: Config, steps: seq<Step>, n: nat) returns (m: nat)
    requires n <= |steps| && Run(cfg, steps[..n]).admin.health == Healthy
    ensures LastReport(cfg, steps, m, n) && HealthfulAfter(cfg, steps[..m + 1])
  {
    hide Next, Reports, HealthfulAfter;
    if n == 0 {
      NotHealthyAtFirst(cfg);
      assert false;
    } else if ReportsAt(cfg, steps, n - 1) {
      m := n - 1;
      ReportsAreRight(cfg, steps, n - 1);
    } else {
      hide Run;
      Steps.StepAdds(cfg, steps, n - 1);
      StepReports(cfg, Run(cfg, steps[..n - 1]), steps[n - 1]);
      m := HealthIsLastReport(cfg, steps, n - 1);
    }
  }

  lemma NotHealthyAtFirst(cfg: Config)
    ensures Run(cfg, []).admin.health == Uninitialized
  {
  }

  /**
   Every toggle of the peer is made by a port that was healthy when it last reported: its link was up, its server
   heard, its mux believed and its route there.
   */
  lemma PeerTogglesAreHealthful(cfg: Config, steps: seq<Step>, i: nat) returns (m: nat, n: nat)
    requires i < |OutputsOf(cfg, steps)| && OutputsOf(cfg, steps)[i].TogglePeer?
    ensures n < |steps| && i == |OutputsOf(cfg, steps[..n])| && Toggles.LosesPeerAt(cfg, steps, n)
    ensures LastReport(cfg, steps, m, n) && HealthfulAfter(cfg, steps[..m + 1])
  {
    hide Run, LastReport, HealthfulAfter;
    Toggles.PeerTogglesAnswerLosses(cfg, steps, i);
    n :| 0 <= n < |steps| && Toggles.LosesPeerAt(cfg, steps, n) && i == |OutputsOf(cfg, steps[..n])|;
    m := HealthIsLastReport(cfg, steps, n);
  }
}
