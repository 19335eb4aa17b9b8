/** Which configuration is in force on an active-active port: those that waited for the activation come again. */
module ActiveActiveModes {
  import opened Labels
  import opened Strand
  import opened ActiveActiveSpec
  import opened ActiveActiveSafety
  import opened ActiveActiveRests
  import opened ActiveActiveRuns
  import MuxState
  import LinkState
  import LinkProberState

  function ModeIn(m: Message): seq<Mode> {
    if m.DeferredMuxConfig? then [m.mode] else []
  }

  /** The configurations that a queue still brings. */
  function DeferredIn(queue: seq<Message>): seq<Mode> {
    if queue == [] then [] else ModeIn(queue[0]) + DeferredIn(queue[1..])
  }

  lemma DeferredUnfolds(queue: seq<Message>)
    ensures DeferredIn(queue) == if queue == [] then [] else ModeIn(queue[0]) + DeferredIn(queue[1..])
  {
  }

  lemma {:induction false} DeferredInBoth(queue: seq<Message>, more: seq<Message>)
    ensures DeferredIn(queue + more) == DeferredIn(queue) + DeferredIn(more)
  {
    hide DeferredIn, ModeIn;
    DeferredUnfolds(queue);
    if queue == [] {
      assert queue + more == more;
    } else {
      DeferredInBoth(queue[1..], more);
      DeferredUnfolds(queue + more);
      assert (queue + more)[1..] == queue[1..] + more;
    }
  }

  lemma {:induction false} DeferredInMessages(modes: seq<Mode>)
    ensures DeferredIn(ConfigMessages(modes)) == modes
  {
    if modes != [] {
      DeferredInMessages(modes[1..]);
      assert ConfigMessages(modes)[1..] == ConfigMessages(modes[1..]);
    }
  }

  lemma {:induction false} NoneDeferredIn(queue: seq<Message>)
    requires forall m :: m in queue ==> !m.DeferredMuxConfig?
    ensures DeferredIn(queue) == []
  {
    if queue != [] {
      assert queue[0] in queue;
      NoneDeferredIn(queue[1..]);
    }
  }

  /** The configurations that are still to be carried out again: on the strand, or waiting for the activation. */
  function PendingModes(s: State): seq<Mode> {
    DeferredIn(s.queue) + s.admin.deferred
  }

  /** Before the activation none is on the strand, after it none waits elsewhere. */
  predicate InOnePlace(s: State) {
    if s.admin.init.All() then s.admin.deferred == [] else DeferredIn(s.queue) == []
  }

  /** The strand is about to carry a configuration out again. */
  predicate Repeats(s: State, step: Step) {
    step.RunStrand? && s.queue != [] && s.queue[0].DeferredMuxConfig?
  }

  /** What a step does to the mode and to the configurations that are still to come. */
  ghost predicate ModesMove(s: State, step: Step, s': State) {
    && s'.admin.mode == (if step.MuxConfig? then step.mode
                         else if Repeats(s, step) then s.queue[0].mode else s.admin.mode)
    && PendingModes(s') == (if step.MuxConfig? && !s.admin.init.All() then PendingModes(s) + [step.mode]
                            else if Repeats(s, step) then DeferredIn(s.queue)[1..] + s.admin.deferred
                            else PendingModes(s))
    && InOnePlace(s')
  }

  /** A handler that posts messages that are not configurations, and leaves modes alone. */
  predicate Posts(s: State, s': State, ms: seq<Message>) {
    && s'.queue == s.queue + ms && (forall m :: m in ms ==> !m.DeferredMuxConfig?)
    && s'.admin.init == s.admin.init && s'.admin.mode == s.admin.mode && s'.admin.deferred == s.admin.deferred
  }

  lemma PostsMove(s: State, s': State, ms: seq<Message>)
    requires Posts(s, s', ms) && InOnePlace(s)
    ensures InOnePlace(s') && PendingModes(s') == PendingModes(s) && s'.admin.mode == s.admin.mode
  {
    DeferredInBoth(s.queue, ms);
    NoneDeferredIn(ms);
  }

  lemma DeliverPosts(cfg: Config, s: State, m: Message) returns (ms: seq<Message>)
    requires !m.DeferredMuxConfig?
    ensures Posts(s, Deliver(cfg, s, m), ms)
  {
    hide Record, HandleProberChange, HandlePeerChange, HandleMuxChange, HandleLinkChange, HandleMuxConfig, ProbeIfIdle;
    hide LinkProberState.Handled, LinkProberState.PeerHandled, MuxState.Handled, LinkState.Handled;
    ms := [];
    match m
    case ProberEventMsg(e) => ms := LinkProberState.Posted(s.prober, LinkProberState.Handled(s.prober, e, RulesOf(cfg)));
    case PeerEventMsg(e) => ms := LinkProberState.PeerPosted(s.peer, LinkProberState.PeerHandled(s.peer, e, RulesOf(cfg)));
    case MuxEventMsg(e) => ms := MuxState.Posted(s.mux, MuxState.Handled(s.mux, e, cfg.muxRetry));
    case LinkEventMsg(e) => ms := LinkState.Posted(s.link, LinkState.Handled(s.link, e, cfg.linkRetry));
    case SuspendTimerExpiredMsg => ms := [Message.HandleSuspendTimerExpiry];
    case MuxProbeRequestMsg => ms := [Message.HandleMuxProbeRequest];
    case ProberChange(l) => ProberChangeRests(cfg, s, l);
    case MuxChange(l) => MuxChangeRests(cfg, s, l);
    case LinkChange(l) => LinkChangeRests(cfg, s, l);
    case PeerChange(l) => PeerChangeRests(s, l);
    case HandleMuxProbeRequest => ProbeIfIdleRests(s);
    case _ =>
  }

  lemma StrandMoves(cfg: Config, s: State)
    requires InOnePlace(s)
    ensures ModesMove(s, RunStrand, Next(cfg, s, RunStrand))
  {
    hide Deliver;
    if s.queue != [] {
      var m, taken := s.queue[0], s.(queue := s.queue[1..]);
      if m.DeferredMuxConfig? {
        RepeatMoves(cfg, taken, m.mode);
        assert DeferredIn(s.queue) == [m.mode] + DeferredIn(taken.queue);
      } else {
        var ms := DeliverPosts(cfg, taken, m);
        assert DeferredIn(s.queue) == DeferredIn(taken.queue);
        PostsMove(taken, Deliver(cfg, taken, m), ms);
      }
    }
  }

  lemma RepeatMoves(cfg: Config, s: State, mode: Mode)
    ensures var s' := Deliver(cfg, s, DeferredMuxConfig(mode));
            && s'.queue == s.queue && s'.admin.init == s.admin.init && s'.admin.mode == mode
            && s'.admin.deferred == s.admin.deferred + (if s.admin.init.All() then [] else [mode])
  {
    hide HandleMuxConfig;
    MuxConfigRests(cfg, s, mode);
  }

  lemma ComponentMoves(cfg: Config, s: State, step: Step)
    requires InOnePlace(s) && BringsComponentUp(step)
    ensures ModesMove(s, step, Next(cfg, s, step))
  {
    hide Next;
    if s.admin.init.All() {
      var ms := ActiveComponentPosts(cfg, s, step);
      PostsMove(s, Next(cfg, s, step), ms);
    } else {
      ComponentUpMoves(cfg, s, step);
      DeferredInMessages(s.admin.deferred);
      DeferredInBoth(s.queue, ConfigMessages(s.admin.deferred));
    }
  }

  lemma ActiveComponentPosts(cfg: Config, s: State, step: Step) returns (ms: seq<Message>)
    requires BringsComponentUp(step) && s.admin.init.All()
    ensures Posts(s, Next(cfg, s, step), ms)
  {
    hide Record, Activate, SettleMux, UpdateHealth;
    ms := [];
    match step
    case SoCIp(_) =>
    case SwssLink(l) => ms := [LinkEventMsg(if l == LUp then UpEvent else DownEvent)];
    case MuxStateNotification(l) =>
      ms := EventFor(l);
      var s1 := s.(admin := s.admin.(lastNotification := FromToggle, lastMuxState := l));
      UpdateHealthFrame(cfg, Emit(Post(Emit(Emit(s1, ProbePeerTor), ResumeTx), EventFor(l)), SwitchingEnd(l)));
    case ProbeMuxStateNotification(l) => ms := EventFor(l);
  }

  lemma ComponentUpMoves(cfg: Config, s: State, step: Step)
    requires BringsComponentUp(step) && !s.admin.init.All()
    ensures var s' := Next(cfg, s, step);
            && s'.admin.mode == s.admin.mode
            && if s'.admin.init.All() then s'.admin.deferred == [] && s'.queue == s.queue + ConfigMessages(s.admin.deferred)
               else s'.admin.deferred == s.admin.deferred && s'.queue == s.queue
  {
    hide Record, StartProber, SettleMux, LinkState.Entered, ConfigMessages, InitialProber, AtRest;
    match step
    case SoCIp(_) => StartProberRests(cfg, WithInit(s, s.admin.init.(prober := true)));
    case SwssLink(l) =>
      StartProberRests(cfg, WithInit(EnterLink(Emit(s, LinkForced(l)), l), s.admin.init.(link := true)));
    case MuxStateNotification(l) =>
      SettledMuxMoves(cfg, s.(admin := s.admin.(lastNotification := FromToggle, lastMuxState := l)), l);
    case ProbeMuxStateNotification(l) =>
      var s1 := s.(admin := s.admin.(lastNotification := FromProbe, lastMuxProbe := l));
      SettledMuxMoves(cfg, if l == MActive || l == MStandby then ResetBackoff(s1) else s1, l);
  }

  lemma SettledMuxMoves(cfg: Config, s: State, l: MuxLabel)
    ensures var s' := SettleMux(cfg, s, l);
            && s'.admin.mode == s.admin.mode
            && if s'.admin.init.All() then s'.admin.deferred == [] && s'.queue == s.queue + ConfigMessages(s.admin.deferred)
               else s'.admin.deferred == s.admin.deferred && s'.queue == s.queue
  {
    hide Record, StartProber, MuxState.SetCause, MuxState.Entered, ConfigMessages;
    var s' := if l == MUnknown then EnterMux(ProbeMuxState(s), MWait) else EnterMux(s, l);
    StartProberRests(cfg, WithInit(s', s.admin.init.(mux := true)));
  }

  lemma OthersPost(cfg: Config, s: State, step: Step) returns (ms: seq<Message>)
    requires !BringsComponentUp(step) && !step.RunStrand? && !step.MuxConfig?
    ensures Posts(s, Next(cfg, s, step), ms)
  {
    hide Record, StartMuxProbeTimer, ProbeIfIdle, MuxState.SetCause, HandleDefaultRoute;
    ms := [];
    match step
    case DefaultRouteState(present) => RouteIsSilent(cfg, s, if present then RouteOK else RouteNA);
    case Heartbeat(e) => ms := [ProberEventMsg(e)];
    case PeerHeartbeat(e) => ms := [PeerEventMsg(e)];
    case SuspendTimerExpired => ms := [SuspendTimerExpiredMsg];
    case MuxProbeRequestReceived => ms := [MuxProbeRequestMsg];
    case MuxProbeTimeout(success) => StartMuxProbeTimerFrame(DoubleBackoff(StopWaitMux(s)));
    case AdminSync => ProbeIfIdleRests(s);
    case _ =>
  }

  lemma RouteIsSilent(cfg: Config, s: State, r: DefaultRoute)
    ensures Posts(s, HandleDefaultRoute(cfg, s, r), [])
  {
    hide Record, ShutdownOrRestart, UpdateHealth, SwitchMux, LinkProberState.Entered;
    var s0 := s.(admin := s.admin.(route := r));
    ShutdownOrRestartFrame(s0);
    var s1 := ShutdownOrRestart(s0);
    SwitchMuxFrame(s1, MStandby, false);
    UpdateHealthFrame(cfg, RouteBack(RouteMissing(s1), s.admin.route));
  }

  lemma NextMoves(cfg: Config, s: State, step: Step)
    requires InOnePlace(s)
    ensures ModesMove(s, step, Next(cfg, s, step))
  {
    if step.MuxConfig? {
      hide HandleMuxConfig;
      MuxConfigRests(cfg, s, step.mode);
    } else {
      hide Next;
      if BringsComponentUp(step) {
        ComponentMoves(cfg, s, step);
      } else if step.RunStrand? {
        StrandMoves(cfg, s);
      } else {
        var ms := OthersPost(cfg, s, step);
        PostsMove(s, Next(cfg, s, step), ms);
      }
    }
  }

  // ----- every run -----

  lemma {:induction false} AlwaysInOnePlace(cfg: Config, steps: seq<Step>)
    ensures InOnePlace(Run(cfg, steps))
  {
    hide Next;
    if steps != [] {
      AlwaysInOnePlace(cfg, steps[..|steps| - 1]);
      NextMoves(cfg, Run(cfg, steps[..|steps| - 1]), steps[|steps| - 1]);
    }
  }

  function Last(modes: seq<Mode>, otherwise: Mode): Mode {
    if modes == [] then otherwise else modes[|modes| - 1]
  }

  /** The first `k` of the pending configurations have been carried out. */
  predicate CarriedOut(pending: seq<Mode>, mode: Mode, k: nat, s: State) {
    k <= |pending| && PendingModes(s) == pending[k..] && s.admin.mode == Last(pending[..k], mode)
  }

  lemma CarriesOn(pending: seq<Mode>, mode: Mode, k: nat, s: State, step: Step, s': State)
    requires CarriedOut(pending, mode, k, s) && ModesMove(s, step, s') && !step.MuxConfig?
    ensures CarriedOut(pending, mode, if Repeats(s, step) then k + 1 else k, s')
  {
    hide PendingModes, InOnePlace, DeferredIn;
    if Repeats(s, step) {
      RepeatsFirst(s);
      assert pending[k..][1..] == pending[k + 1..];
      assert pending[..k + 1][k] == pending[k..][0];
    }
  }

  /** After the last configuration those that were pending are carried out one by one. */
  lemma {:induction false} ModesSince(cfg: Config, steps: seq<Step>, c: nat, j: nat) returns (k: nat)
    requires c < j <= |steps| && forall n :: c < n < j ==> !steps[n].MuxConfig?
    ensures var after := Run(cfg, steps[..c + 1]);
            CarriedOut(PendingModes(after), after.admin.mode, k, Run(cfg, steps[..j]))
  {
    hide Next, PendingModes, InOnePlace, ModesMove, Repeats;
    if j == c + 1 {
      k := 0;
      assert PendingModes(Run(cfg, steps[..j])) == PendingModes(Run(cfg, steps[..j]))[0..];
    } else {
      hide CarriedOut;
      var s, after := Run(cfg, steps[..j - 1]), Run(cfg, steps[..c + 1]);
      assert steps[..j][..j - 1] == steps[..j - 1] && Run(cfg, steps[..j]) == Next(cfg, s, steps[j - 1]);
      k := ModesSince(cfg, steps, c, j - 1);
      AlwaysInOnePlace(cfg, steps[..j - 1]);
      NextMoves(cfg, s, steps[j - 1]);
      CarriesOn(PendingModes(after), after.admin.mode, k, s, steps[j - 1], Next(cfg, s, steps[j - 1]));
      k := if Repeats(s, steps[j - 1]) then k + 1 else k;
    }
  }

  lemma RepeatsFirst(s: State)
    requires Repeats(s, RunStrand)
    ensures var ms := PendingModes(s);
            ms != [] && ms[0] == s.queue[0].mode && DeferredIn(s.queue)[1..] + s.admin.deferred == ms[1..]
  {
  }

  /**
   Once an active port has carried out everything that was pending, the mode of the last configuration is in
   force exactly when it came before the activation, or when nothing, or at last the same mode, was pending as
   it came: an older configuration that waited for the activation can be carried out after a newer one.
   */
  lemma LatestConfigWinsExactlyWhen(cfg: Config, steps: seq<Step>, c: nat)
    requires c < |steps| && steps[c].MuxConfig? && forall n :: c < n < |steps| ==> !steps[n].MuxConfig?
    requires PendingModes(Run(cfg, steps)) == []
    ensures var before := Run(cfg, steps[..c]);
            Run(cfg, steps).admin.mode == steps[c].mode <==>
              !before.admin.init.All() || Last(DeferredIn(before.queue), steps[c].mode) == steps[c].mode
  {
    hide Run, Next, DeferredIn, PendingModes, ModesMove, InOnePlace;
    ConfigMoves(cfg, steps, c);
    assert steps[..|steps|] == steps;
    var k := ModesSince(cfg, steps, c, |steps|);
    var pending := PendingModes(Run(cfg, steps[..c + 1]));
    assert pending[..k] == pending;
  }

  /** A configuration is in force at once, and before the activation it is also the last to be repeated. */
  lemma ConfigMoves(cfg: Config, steps: seq<Step>, c: nat)
    requires c < |steps| && steps[c].MuxConfig?
    ensures var before, after := Run(cfg, steps[..c]), Run(cfg, steps[..c + 1]);
            && after.admin.mode == steps[c].mode
            && PendingModes(after) == if before.admin.init.All() then DeferredIn(before.queue)
                                      else PendingModes(before) + [steps[c].mode]
  {
    hide Next, DeferredIn;
    assert steps[..c + 1][..c] == steps[..c];
    AlwaysInOnePlace(cfg, steps[..c]);
    NextMoves(cfg, Run(cfg, steps[..c]), steps[c]);
  }

  // ----- an older configuration that wins -----

  /** A mode is configured, the port comes up, automatic mode is configured, and the strand repeats the first. */
  const OVERTAKEN: seq<Step> := [MuxConfig(ModeStandby), SoCIp(false), MuxStateNotification(MActive), SwssLink(LUp),
                                 MuxConfig(Auto), RunStrand]

  lemma ComesUpDeferring(cfg: Config, s: State)
    requires s.queue == [] && s.admin.deferred == [ModeStandby] && s.admin.init == InitBits(false, false, false)
    ensures var s' := Next(cfg, Next(cfg, Next(cfg, s, SoCIp(false)), MuxStateNotification(MActive)), SwssLink(LUp));
            s'.admin.init.All() && s'.queue == [DeferredMuxConfig(ModeStandby)]
  {
    hide Record, StartProber, MuxState.Entered, LinkState.Entered, ConfigMessages, InitialProber, AtRest;
    var s1 := Next(cfg, s, SoCIp(false));
    var s2 := Next(cfg, s1, MuxStateNotification(MActive));
    assert s2.queue == [] && s2.admin.deferred == [ModeStandby] && s2.admin.init == InitBits(true, true, false);
    StartProberRests(cfg, WithInit(EnterLink(Emit(s2, LinkForced(LUp)), LUp), InitBits(true, true, true)));
    OneConfigMessage(ModeStandby);
  }

  lemma OneConfigMessage(mode: Mode)
    ensures ConfigMessages([mode]) == [DeferredMuxConfig(mode)]
  {
  }

  lemma OvertakenStep(cfg: Config, n: nat)
    requires n < 6
    ensures Run(cfg, OVERTAKEN[..n + 1]) == Next(cfg, Run(cfg, OVERTAKEN[..n]), OVERTAKEN[n])
  {
    hide Next;
    assert OVERTAKEN[..n + 1][..n] == OVERTAKEN[..n];
  }

  /** On every port the run ends in the older mode and not in the automatic mode that came last. */
  lemma OlderModeWins(cfg: Config)
    ensures Run(cfg, OVERTAKEN).admin.mode == ModeStandby && OVERTAKEN[4] == MuxConfig(Auto)
  {
    hide Next, HandleMuxConfig;
    assert Run(cfg, OVERTAKEN[..0]) == Initial();
    hide Run;
    OvertakenStep(cfg, 0);
    OvertakenStep(cfg, 1);
    OvertakenStep(cfg, 2);
    OvertakenStep(cfg, 3);
    OvertakenStep(cfg, 4);
    OvertakenStep(cfg, 5);
    NextConfig(cfg, Initial(), ModeStandby);
    ComesUpDeferring(cfg, Run(cfg, OVERTAKEN[..1]));
    var s := Run(cfg, OVERTAKEN[..4]);
    NextConfig(cfg, s, Auto);
    NextRepeats(cfg, Run(cfg, OVERTAKEN[..5]), ModeStandby);
    assert OVERTAKEN[..6] == OVERTAKEN;
  }

  lemma NextConfig(cfg: Config, s: State, mode: Mode)
    ensures var s' := Next(cfg, s, MuxConfig(mode));
            && s'.queue == s.queue && s'.admin.init == s.admin.init
            && s'.admin.deferred == s.admin.deferred + (if s.admin.init.All() then [] else [mode])
  {
    hide HandleMuxConfig;
    MuxConfigRests(cfg, s, mode);
  }

  lemma NextRepeats(cfg: Config, s: State, mode: Mode)
    requires s.queue == [DeferredMuxConfig(mode)]
    ensures Next(cfg, s, RunStrand).admin.mode == mode
  {
    hide Deliver;
    RepeatMoves(cfg, s.(queue := s.queue[1..]), mode);
  }
}
