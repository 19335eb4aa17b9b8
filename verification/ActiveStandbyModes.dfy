/** Which modes an active-standby run stores, and when: configurations at once, deferred ones later. */
module ActiveStandbyModes {
  import opened Labels
  import opened Strand
  import opened Logs
  import opened ActiveStandbySpec
  import opened ActiveStandbySafety
  import opened ActiveStandbyFrames
  import opened ActiveStandbyRuns
  import opened ActiveStandbyVisits
  import MuxState
  import LinkState
  import LinkProberState

  /** The modes that were stored, in their order. */
  function ModesOf(outs: seq<Output>): seq<Mode> {
    if outs == [] then []
    else
      var o := outs[|outs| - 1];
      ModesOf(outs[..|outs| - 1]) + if o.ModeSet? then [o.mode] else []
  }

  lemma DigestModes(t: Summary, o: Output)
    ensures Digest(t, o).modes == t.modes + if o.ModeSet? then [o.mode] else []
  {
    hide ToggleMet, CappedFactor, IsFactor, UsesOf, FactorAfter;
  }

  lemma {:induction false} ModesAreCollected(log: Log<Output>)
    ensures Summarize(log).modes == ModesOf(Outputs(log))
  {
    match log
    case Empty =>
    case After(earlier, o) =>
      hide Digest;
      ModesAreCollected(earlier);
      DigestModes(Summarize(earlier), o);
      assert Outputs(log)[..|Outputs(log)| - 1] == Outputs(earlier);
  }

  /** Step `n` is a configuration that has to wait for the mux. */
  ghost predicate DefersAt(cfg: Config, steps: seq<Step>, n: nat)
    requires n < |steps|
  {
    steps[n].MuxConfig? && Deferred(Run(cfg, steps[..n]), steps[n].mode)
  }

  /** Step `n` takes up a mux change and leaves the mux settled. */
  ghost predicate SettlesAt(cfg: Config, steps: seq<Step>, n: nat)
    requires n < |steps|
  {
    SettlesMux(cfg, Run(cfg, steps[..n]), steps[n])
  }

  /** Step `n` stores exactly these modes. */
  ghost predicate StoresAt(cfg: Config, steps: seq<Step>, n: nat, modes: seq<Mode>)
    requires n < |steps|
  {
    ModesOf(OutputsOf(cfg, steps[..n + 1])) == ModesOf(OutputsOf(cfg, steps[..n])) + modes
  }

  lemma StepStores(cfg: Config, steps: seq<Step>, n: nat)
    requires n < |steps|
    ensures StoresAt(cfg, steps, n, Stores(cfg, Run(cfg, steps[..n]), steps[n]))
  {
    hide Next, ModesOf, Stores;
    var s := Run(cfg, steps[..n]);
    assert steps[..n + 1][..n] == steps[..n];
    EveryRunKeeps(cfg, steps[..n]);
    NextKeeps(cfg, s, steps[n]);
    ModesAreCollected(s.journal.log);
    ModesAreCollected(Next(cfg, s, steps[n]).journal.log);
  }

  /** From a deferral until the next one its mode is pending before the first settled mux change, and nothing after. */
  lemma {:induction false} DeferralIsPending(cfg: Config, steps: seq<Step>, i: nat, j: nat)
    requires i < j <= |steps| && DefersAt(cfg, steps, i)
    requires forall n :: i < n < j ==> !DefersAt(cfg, steps, n)
    ensures var s := Run(cfg, steps[..j]);
            if exists n :: i < n < j && SettlesAt(cfg, steps, n) then !s.admin.pending
            else s.admin.pending && s.admin.target == steps[i].mode
  {
    hide Next, SettlesMux, Deferred;
    var s := Run(cfg, steps[..j - 1]);
    assert steps[..j][..j - 1] == steps[..j - 1] && Run(cfg, steps[..j]) == Next(cfg, s, steps[j - 1]);
    StepDefers(cfg, s, steps[j - 1]);
    if j - 1 > i {
      DeferralIsPending(cfg, steps, i, j - 1);
      assert !DefersAt(cfg, steps, j - 1);
      assert SettlesAt(cfg, steps, j - 1) == SettlesMux(cfg, s, steps[j - 1]);
    }
  }

  /**
   A deferred mode is stored exactly once, at the first mux change that leaves the mux settled, unless another
   deferral has replaced it by then: until the next deferral that step stores the mode, every configuration
   stores its own, and no other step stores any.
   */
  lemma DeferredModeIsStoredOnce(cfg: Config, steps: seq<Step>, i: nat, j: nat)
    requires i < j < |steps| && DefersAt(cfg, steps, i)
    requires forall n :: i < n < j ==> !DefersAt(cfg, steps, n)
    ensures var first := SettlesAt(cfg, steps, j) && !exists n :: i < n < j && SettlesAt(cfg, steps, n);
            StoresAt(cfg, steps, j, if first then [steps[i].mode]
                                    else if steps[j].MuxConfig? && !DefersAt(cfg, steps, j) then [steps[j].mode]
                                    else [])
  {
    hide Run, StoresAt, Deferred, AfterMuxChange;
    StepStores(cfg, steps, j);
    DeferralIsPending(cfg, steps, i, j);
  }

  // ----- which configuration wins -----

  /** Some step in between takes up a mux change and leaves the mux settled. */
  ghost predicate SettlesBetween(cfg: Config, steps: seq<Step>, i: nat, j: nat)
    requires j <= |steps|
  {
    exists n :: i < n < j && SettlesAt(cfg, steps, n)
  }

  lemma SettlesBefore(cfg: Config, steps: seq<Step>, i: nat, j: nat)
    requires i + 1 < j <= |steps|
    ensures SettlesBetween(cfg, steps, i, j) <==> SettlesBetween(cfg, steps, i, j - 1) || SettlesAt(cfg, steps, j - 1)
  {
    hide SettlesAt;
  }

  /** Without further configurations a pending mode comes into force at the first settled mux change. */
  lemma {:induction false} ModeSince(cfg: Config, steps: seq<Step>, c: nat, j: nat)
    requires c < j <= |steps| && forall n :: c < n < j ==> !steps[n].MuxConfig?
    ensures var s, after := Run(cfg, steps[..j]), Run(cfg, steps[..c + 1]);
            if SettlesBetween(cfg, steps, c, j) then
              !s.admin.pending && s.admin.mode == if after.admin.pending then after.admin.target else after.admin.mode
            else SameModes(after, s)
  {
    hide Next, SettlesMux, SettlesBetween;
    if j == c + 1 {
      NoneBetween(cfg, steps, c);
    } else {
      var s := Run(cfg, steps[..j - 1]);
      assert steps[..j][..j - 1] == steps[..j - 1] && Run(cfg, steps[..j]) == Next(cfg, s, steps[j - 1]);
      SettlesBefore(cfg, steps, c, j);
      ModeSince(cfg, steps, c, j - 1);
      StepDefers(cfg, s, steps[j - 1]);
      StepSetsMode(cfg, s, steps[j - 1]);
    }
  }

  lemma NoneBetween(cfg: Config, steps: seq<Step>, c: nat)
    requires c < |steps|
    ensures !SettlesBetween(cfg, steps, c, c + 1)
  {
  }

  /**
   Once the mux has settled after the last configuration of a run, its mode is in force exactly when it was
   deferred itself, or when no other mode was pending as it came: an older mode that was deferred is carried
   out after a newer one that was not.
   */
  lemma LatestConfigWinsExactlyWhen(cfg: Config, steps: seq<Step>, c: nat)
    requires c < |steps| && steps[c].MuxConfig? && forall n :: c < n < |steps| ==> !steps[n].MuxConfig?
    requires SettlesBetween(cfg, steps, c, |steps|)
    ensures var before := Run(cfg, steps[..c]).admin;
            Run(cfg, steps).admin.mode == steps[c].mode <==>
              DefersAt(cfg, steps, c) || !before.pending || before.target == steps[c].mode
  {
    hide Next, SettlesMux, SettlesBetween, Deferred;
    var s := Run(cfg, steps[..c]);
    assert steps[..c + 1][..c] == steps[..c] && Run(cfg, steps[..c + 1]) == Next(cfg, s, steps[c]);
    assert steps[..|steps|] == steps;
    ModeSince(cfg, steps, c, |steps|);
    StepDefers(cfg, s, steps[c]);
    StepSetsMode(cfg, s, steps[c]);
    ConfigDoesNotSettle(cfg, s, steps[c]);
  }

  lemma ConfigDoesNotSettle(cfg: Config, s: State, step: Step)
    requires step.MuxConfig?
    ensures !SettlesMux(cfg, s, step)
  {
  }

  // ----- an older mode that wins -----

  /** A mode is deferred over a mux that waits for its first setting, automatic mode follows, and the mux answers. */
  const OVERTAKEN: seq<Step> := [MuxStateNotification(MActive), ProbeMuxState(MActive), MuxConfig(ModeStandby), MuxConfig(Auto),
                                 BladeIp(false), SwssLink(LUp), ProbeMuxState(MActive), RunStrand, RunStrand]

  predicate MuxWaits(s: State) {
    s.comp.ms == s.mux.current == MWait && s.mux.counts == MuxState.NO_COUNTS && s.queue == []
  }

  predicate Held(s: State) {
    MuxWaits(s) && s.admin.pending && s.admin.target == ModeStandby
  }

  lemma MuxIsSet(cfg: Config)
    ensures var s := Next(cfg, Next(cfg, Initial(), MuxStateNotification(MActive)), ProbeMuxState(MActive));
            MuxWaits(s) && s.admin.init == InitBits(false, true, false)
  {
    hide StartProber, Record;
  }

  lemma ModesCome(cfg: Config, s: State)
    requires MuxWaits(s) && s.admin.init == InitBits(false, true, false)
    ensures var s' := Next(cfg, Next(cfg, s, MuxConfig(ModeStandby)), MuxConfig(Auto)); Held(s') && s'.admin.init == s.admin.init
  {
    hide Record, ActOnMode, UpdateHealth;
  }

  lemma PortComesUp(cfg: Config, s: State)
    requires Held(s) && s.admin.init == InitBits(false, true, false)
    ensures var s' := Next(cfg, Next(cfg, s, BladeIp(false)), SwssLink(LUp));
            Held(s') && s'.admin.init.All() && s'.comp == Composite(PWait, MWait, LUp)
  {
    hide Record, StartProber, LinkState.Entered;
    var s1 := Next(cfg, s, BladeIp(false));
    assert Held(s1) && s1.admin.init == InitBits(true, true, false);
    WaitingStart(cfg, WithInit(EnterLink(s1, LUp), InitBits(true, true, true)));
  }

  lemma WaitingStart(cfg: Config, s: State)
    requires Held(s) && s.comp.ls == LUp
    ensures var s' := StartProber(cfg, s);
            Held(s') && s'.admin.init == s.admin.init && s'.comp == Composite(PWait, MWait, LUp)
  {
    hide Record, UpdateHealth, ShutdownOrRestart, LinkProberState.Entered;
    var s1 := InitProber(s, false);
    ShutdownOrRestartFrame(s1);
    ShutdownOrRestartAligns(s1);
    var s2 := if cfg.defaultRouteFeature then ShutdownOrRestart(s1) else s1;
    UpdateHealthFrame(cfg, Emit(Emit(s2, InitializeProber), StartProbing));
    SameMux(cfg, s1, s2);
  }

  lemma SameMux(cfg: Config, s1: State, s2: State)
    ensures ShutdownOrRestart(s1).mux == s1.mux
    ensures UpdateHealth(cfg, s2).mux == s2.mux
    ensures UpdateHealth(cfg, Emit(Emit(s2, InitializeProber), StartProbing)).mux == s2.mux
  {
    hide Record;
  }

  lemma MuxAnswers(cfg: Config, s: State)
    requires Held(s) && s.admin.init.All() && s.comp == Composite(PWait, MWait, LUp) && cfg.muxRetry == 1
    ensures SettlesMux(cfg, Next(cfg, Next(cfg, s, ProbeMuxState(MActive)), RunStrand), RunStrand)
  {
    hide AcceptMuxChange;
    var s1 := Next(cfg, s, ProbeMuxState(MActive));
    assert s1 == Post(s, [MuxEventMsg(ActiveEvent)]);
    var answered := s.(mux := MuxState.Entered(s.mux, MActive));
    assert Next(cfg, s1, RunStrand) == Post(answered, [MuxChange(MActive)]);
    var s2 := Post(answered, [MuxChange(MActive)]);
    assert s2.(queue := s2.queue[1..]) == answered;
    AcceptVisits(cfg, answered);
  }

  lemma OvertakenStep(cfg: Config, n: nat)
    requires n < 9
    ensures Run(cfg, OVERTAKEN[..n + 1]) == Next(cfg, Run(cfg, OVERTAKEN[..n]), OVERTAKEN[n])
  {
    hide Next;
    assert OVERTAKEN[..n + 1][..n] == OVERTAKEN[..n];
  }

  /** The deferred mode is still pending when automatic mode has been stored. */
  lemma StandbyIsHeld(cfg: Config)
    ensures var s := Run(cfg, OVERTAKEN[..4]); Held(s) && s.admin.init == InitBits(false, true, false)
  {
    hide Next, MuxWaits, Held;
    assert Run(cfg, OVERTAKEN[..0]) == Initial();
    hide Run;
    OvertakenStep(cfg, 0);
    OvertakenStep(cfg, 1);
    MuxIsSet(cfg);
    OvertakenStep(cfg, 2);
    OvertakenStep(cfg, 3);
    ModesCome(cfg, Run(cfg, OVERTAKEN[..2]));
  }

  lemma MuxSettlesLast(cfg: Config)
    requires cfg.muxRetry == 1
    ensures SettlesAt(cfg, OVERTAKEN, 8)
  {
    hide Run, Next, MuxWaits, Held, SettlesMux;
    StandbyIsHeld(cfg);
    OvertakenStep(cfg, 4);
    OvertakenStep(cfg, 5);
    PortComesUp(cfg, Run(cfg, OVERTAKEN[..4]));
    OvertakenStep(cfg, 6);
    OvertakenStep(cfg, 7);
    MuxAnswers(cfg, Run(cfg, OVERTAKEN[..6]));
  }

  /** On such a port the run ends in the older, deferred mode and not in the automatic mode that came last. */
  lemma OlderModeWins(cfg: Config)
    requires cfg.muxRetry == 1
    ensures Run(cfg, OVERTAKEN).admin.mode == ModeStandby && LastConfigIs(OVERTAKEN, 3, Auto)
  {
    hide Run, SettlesAt;
    StandbyIsHeld(cfg);
    HeldTells(Run(cfg, OVERTAKEN[..4]));
    MuxSettlesLast(cfg);
    ModeSince(cfg, OVERTAKEN, 3, 9);
    assert OVERTAKEN[..9] == OVERTAKEN;
  }

  lemma HeldTells(s: State)
    requires Held(s)
    ensures s.admin.pending && s.admin.target == ModeStandby
  {
  }

  predicate LastConfigIs(steps: seq<Step>, c: nat, mode: Mode) {
    c < |steps| && steps[c] == MuxConfig(mode) && forall n :: c < n < |steps| ==> !steps[n].MuxConfig?
  }
}
