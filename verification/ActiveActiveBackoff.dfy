/** The probe backoff of active-active runs, against the timeouts and the probes that they are made of. */
module ActiveActiveBackoff {
  import opened Labels
  import opened Logs
  import opened ActiveActiveSpec
  import opened ActiveActiveSafety
  import opened ActiveActiveRuns
  import opened ActiveActiveSteps
  import opened Strand
  import MuxState
  import LinkState
  import LinkProberState

  // ----- probe backoff -----

  /** Step `n` is a probe timeout over an undetermined mux. */
  ghost predicate TimesOutAt(cfg: Config, steps: seq<Step>, n: nat)
    requires n < |steps|
  {
    steps[n] == MuxProbeTimeout(true) && Undetermined(Run(cfg, steps[..n]).comp.ms)
  }

  /** Step `n` finds the mux determined: a probe timeout over such a mux, or a probe's answer that names a side. */
  ghost predicate ResetsAt(cfg: Config, steps: seq<Step>, n: nat)
    requires n < |steps|
  {
    || (steps[n] == MuxProbeTimeout(true) && !Undetermined(Run(cfg, steps[..n]).comp.ms))
    || steps[n] == ProbeMuxStateNotification(MActive) || steps[n] == ProbeMuxStateNotification(MStandby)
  }

  /** The probe timeouts over an undetermined mux since the mux was last determined. */
  ghost function Timeouts(cfg: Config, steps: seq<Step>): nat {
    if steps == [] then 0
    else
      var n := |steps| - 1;
      if ResetsAt(cfg, steps, n) then 0 else Timeouts(cfg, steps[..n]) + if TimesOutAt(cfg, steps, n) then 1 else 0
  }

  /** min(2^k, 32) */
  function CappedFactor(k: nat): uint32 {
    Capped(MAX_BACKOFF_FACTOR, k)
  }

  /** The factors walk through 1, 2, 4, ... up to the cap. */
  lemma FactorsDouble(k: nat)
    ensures CappedFactor(k) <= MAX_BACKOFF_FACTOR && Doubled(MAX_BACKOFF_FACTOR, CappedFactor(k)) == CappedFactor(k + 1)
    ensures exists j: nat :: j <= 5 && CappedFactor(k) == Pow2(j) <= MAX_BACKOFF_FACTOR
  {
    assert Pow2(5) == MAX_BACKOFF_FACTOR;
    DoublingFollows(MAX_BACKOFF_FACTOR, 5, k);
  }

  /** Five doublings reach the cap, and below it no two numbers of them give the same factor. */
  lemma FactorReachesCap(k: nat, d: nat)
    ensures CappedFactor(k) == CappedFactor(d) <==> k == d || (k >= 5 && d >= 5)
  {
    assert Pow2(5) == 32;
    if k < d {
      Pow2Grows(k + 1, d);
      FewSteps(k);
    } else if d < k {
      Pow2Grows(d + 1, k);
      FewSteps(d);
    }
  }

  lemma FewSteps(k: nat)
    ensures k < 5 ==> Pow2(k + 1) == 2 * Pow2(k) <= 32
    ensures k >= 5 ==> Pow2(k) >= 32
  {
    assert Pow2(5) == 32;
    if k < 5 {
      Pow2Grows(k + 1, 5);
    } else {
      Pow2Grows(5, k);
    }
  }

  /** What the steps of a run make of the factor. */
  lemma {:induction false} FactorFollowsTimeouts(cfg: Config, steps: seq<Step>)
    ensures Run(cfg, steps).admin.probeFactor == CappedFactor(Timeouts(cfg, steps))
  {
    hide CappedFactor, Doubled, Next, Inv, Since;
    if steps == [] {
      FirstFactor();
    } else {
      var m := |steps| - 1;
      FactorFollowsTimeouts(cfg, steps[..m]);
      FactorsDouble(Timeouts(cfg, steps[..m]));
      FirstFactor();
      EveryRunKeeps(cfg, steps[..m]);
      NextKeeps(cfg, Run(cfg, steps[..m]), steps[m]);
    }
  }

  lemma FirstFactor()
    ensures CappedFactor(0) == 1
  {
  }

  /**
   A probe is made with the factor min(2^d, 32) for the d timeouts since the mux was last determined, the one
   that makes the probe included.
   */
  lemma BackoffsAreClosedForm(cfg: Config, steps: seq<Step>, i: nat, n: nat)
    requires MadeBy(cfg, steps, i, n) && i < |OutputsOf(cfg, steps)| && OutputsOf(cfg, steps)[i].Backoff?
    ensures OutputsOf(cfg, steps)[i] == Backoff(CappedFactor(Timeouts(cfg, steps[..n + 1])))
  {
    hide Run, CappedFactor, Timeouts, KeptAfter, MarkOf;
    MadeIsExplained(cfg, steps, i, n);
    FactorAfterStep(cfg, steps, n);
    FactorFollowsTimeouts(cfg, steps[..n + 1]);
  }

  lemma FactorAfterStep(cfg: Config, steps: seq<Step>, n: nat)
    requires n < |steps|
    ensures KeptAfter(Run(cfg, steps[..n]), steps[n]).factor == Run(cfg, steps[..n + 1]).admin.probeFactor
  {
    hide Run, Next, KeptAfter, Inv;
    StepAdds(cfg, steps, n);
    EveryRunKeeps(cfg, steps[..n]);
    NextKeeps(cfg, Run(cfg, steps[..n]), steps[n]);
  }

  /** Every factor is a power of two within the cap, so no timer product of a base below 2^25 ms leaves 32 bits. */
  lemma BackoffsFitTheirTimers(cfg: Config, steps: seq<Step>, i: nat, base: nat)
    requires i < |OutputsOf(cfg, steps)| && OutputsOf(cfg, steps)[i].Backoff?
    requires base < 0x200_0000
    ensures exists j: nat :: j <= 5 && OutputsOf(cfg, steps)[i].factor == Pow2(j)
    ensures OutputsOf(cfg, steps)[i].factor * base < 0x1_0000_0000
  {
    hide Run, CappedFactor, Timeouts, Pow2, Explained, KeptAfter, MarkOf;
    FirstOutput(cfg);
    RunGrows(cfg, steps, 0);
    var n := EveryOutputIsMade(cfg, steps, i);
    MadeIsExplained(cfg, steps, i, n);
    BackoffsAreClosedForm(cfg, steps, i, n);
    FactorsDouble(Timeouts(cfg, steps[..n + 1]));
    ProductFits(OutputsOf(cfg, steps)[i].factor, base);
  }

  lemma ProductFits(factor: nat, base: nat)
    requires factor <= 32 && base < 0x200_0000
    ensures factor * base < 0x1_0000_0000
  {
    assert factor * base <= 32 * base;
  }

  // ----- probes against timeouts -----

  predicate IsProbe(o: Output) {
    o.Backoff?
  }

  /** The outputs that had been made when the mux was last determined. */
  ghost function ResetPoint(cfg: Config, steps: seq<Step>): nat {
    if steps == [] then 0
    else
      var n := |steps| - 1;
      if ResetsAt(cfg, steps, n) then |OutputsOf(cfg, steps[..n])| else ResetPoint(cfg, steps[..n])
  }

  lemma {:induction false} ResetPointIsPast(cfg: Config, steps: seq<Step>, n: nat)
    requires n < |steps|
    ensures ResetPoint(cfg, steps[..n + 1]) <= |OutputsOf(cfg, steps[..n])|
  {
    hide Run, OutputsOf, ResetsAt;
    assert steps[..n + 1][..n] == steps[..n];
    if n > 0 {
      ResetPointIsPast(cfg, steps, n - 1);
      StepAdds(cfg, steps, n - 1);
    }
  }

  /** The probes since the mux was last determined that no timeout made. */
  ghost function OtherProbes(cfg: Config, steps: seq<Step>): nat {
    if steps == [] then 0
    else
      var n := |steps| - 1;
      (if ResetsAt(cfg, steps, n) then 0 else OtherProbes(cfg, steps[..n]))
      + if TimesOutAt(cfg, steps, n) then 0 else Count(Added(cfg, steps, n), IsProbe)
  }

  /** A timeout over an undetermined mux makes exactly one probe. */
  lemma TimeoutProbes(cfg: Config, steps: seq<Step>, n: nat)
    requires n < |steps| && TimesOutAt(cfg, steps, n)
    ensures exists f :: Added(cfg, steps, n) == [ProbeMux, WaitTimer, Backoff(f)]
  {
    hide Run, Digest, MuxState.SetCause, Doubled;
    StepAdds(cfg, steps, n);
    var s := Run(cfg, steps[..n]);
    var log := s.journal.log;
    var f := DoubleBackoff(StopWaitMux(s)).admin.probeFactor;
    var asked := After(After(log, ProbeMux), WaitTimer);
    assert Next(cfg, s, steps[n]).journal.log == After(asked, Backoff(f));
    assert Outputs(asked) == Outputs(log) + [ProbeMux, WaitTimer];
    assert Added(cfg, steps, n) == [ProbeMux, WaitTimer, Backoff(f)];
  }

  lemma OneProbe(f: uint32)
    ensures Count([ProbeMux, WaitTimer], IsProbe) == 0
    ensures Count([ProbeMux, WaitTimer, Backoff(f)], IsProbe) == 1
  {
    var none, one := [ProbeMux, WaitTimer], [ProbeMux, WaitTimer, Backoff(f)];
    assert none[..1] == [ProbeMux] && [ProbeMux][..0] == [];
    assert Count(none, IsProbe) == 0;
    assert one[..2] == none;
  }

  /** All probes since the mux was last determined: those that timeouts made, and the others. */
  lemma {:induction false} ProbesAreCounted(cfg: Config, steps: seq<Step>)
    ensures ResetPoint(cfg, steps) <= |OutputsOf(cfg, steps)|
    ensures Count(OutputsOf(cfg, steps)[ResetPoint(cfg, steps)..], IsProbe) == Timeouts(cfg, steps) + OtherProbes(cfg, steps)
  {
    hide Run, OutputsOf, Count;
    if steps == [] {
      NoneCounted(cfg);
    } else {
      var n := |steps| - 1;
      assert steps[..n + 1] == steps;
      ResetPointIsPast(cfg, steps, n);
      ProbesAreCounted(cfg, steps[..n]);
      StepAdds(cfg, steps, n);
      var before, r := OutputsOf(cfg, steps[..n]), ResetPoint(cfg, steps);
      assert OutputsOf(cfg, steps)[r..] == before[r..] + Added(cfg, steps, n);
      CountAppend(before[r..], Added(cfg, steps, n), IsProbe);
      if TimesOutAt(cfg, steps, n) {
        TimeoutProbes(cfg, steps, n);
        var f :| Added(cfg, steps, n) == [ProbeMux, WaitTimer, Backoff(f)];
        OneProbe(f);
      } else if ResetsAt(cfg, steps, n) {
        assert before[r..] == [];
        CountNone(IsProbe);
      }
    }
  }

  lemma NoneCounted(cfg: Config)
    ensures Count(OutputsOf(cfg, [])[ResetPoint(cfg, [])..], IsProbe) == 0
  {
    FirstOutput(cfg);
  }

  /** The probes before output `i` of step `n`, since the mux was last determined, that no timeout made. */
  ghost function OthersBefore(cfg: Config, steps: seq<Step>, i: nat, n: nat): nat
    requires MadeBy(cfg, steps, i, n)
  {
    if TimesOutAt(cfg, steps, n) then OtherProbes(cfg, steps[..n])
    else
      (if ResetsAt(cfg, steps, n) then 0 else OtherProbes(cfg, steps[..n]))
      + Count(OutputsOf(cfg, steps[..n + 1])[|OutputsOf(cfg, steps[..n])|..i], IsProbe)
  }

  /**
   The k-th probe since the mux was last determined has the factor min(2^k, 32) exactly when as many timeouts as
   probes have come since, or both have reached the cap. So it does exactly when all probes before it came from
   timeouts, but for one if a timeout makes it too, or beyond the cap.
   */
  lemma KthProbeExactlyWhen(cfg: Config, steps: seq<Step>, i: nat, n: nat)
    requires MadeBy(cfg, steps, i, n) && i < |OutputsOf(cfg, steps)| && OutputsOf(cfg, steps)[i].Backoff?
    ensures ResetPoint(cfg, steps[..n + 1]) <= i < |OutputsOf(cfg, steps)|
    ensures var k := Count(OutputsOf(cfg, steps)[ResetPoint(cfg, steps[..n + 1])..i], IsProbe);
            var d := Timeouts(cfg, steps[..n + 1]);
            && (OutputsOf(cfg, steps)[i] == Backoff(CappedFactor(k)) <==> k == d || (k >= 5 && d >= 5))
            && (k == d <==> OthersBefore(cfg, steps, i, n) == if TimesOutAt(cfg, steps, n) then 1 else 0)
  {
    hide Run, CappedFactor, Timeouts, ResetPoint, Count;
    BackoffsAreClosedForm(cfg, steps, i, n);
    ResetPointIsPast(cfg, steps, n);
    MadeIsExplained(cfg, steps, i, n);
    FactorReachesCap(Count(OutputsOf(cfg, steps)[ResetPoint(cfg, steps[..n + 1])..i], IsProbe), Timeouts(cfg, steps[..n + 1]));
    ProbesBefore(cfg, steps, i, n);
  }

  lemma ProbesBefore(cfg: Config, steps: seq<Step>, i: nat, n: nat)
    requires MadeBy(cfg, steps, i, n) && OutputsOf(cfg, steps[..n + 1])[i].Backoff?
    ensures ResetPoint(cfg, steps[..n + 1]) <= i < |OutputsOf(cfg, steps)|
    ensures Count(OutputsOf(cfg, steps)[ResetPoint(cfg, steps[..n + 1])..i], IsProbe) ==
            Timeouts(cfg, steps[..n + 1]) + OthersBefore(cfg, steps, i, n) - if TimesOutAt(cfg, steps, n) then 1 else 0
  {
    hide Run, OutputsOf, Count, IsProbe, TimesOutAt, ResetsAt;
    var outs, before, after := OutputsOf(cfg, steps), OutputsOf(cfg, steps[..n]), OutputsOf(cfg, steps[..n + 1]);
    var r := ResetPoint(cfg, steps[..n + 1]);
    assert steps[..n + 1][..n] == steps[..n];
    LastStepIsKnown(cfg, steps, n);
    MadeIsExplained(cfg, steps, i, n);
    StepAdds(cfg, steps, n);
    RunGrows(cfg, steps, n + 1);
    ResetPointIsPast(cfg, steps, n);
    ProbesAreCounted(cfg, steps[..n]);
    Stretches(outs, before, after, r, i);
    CountAppend(before[r..], after[|before|..i], IsProbe);
    if TimesOutAt(cfg, steps, n) {
      TimeoutsDoNotReset(cfg, steps, n);
      TimeoutProbesLast(cfg, steps, i, n);
    } else if ResetsAt(cfg, steps, n) {
      assert before[r..] == [];
      CountNone(IsProbe);
    }
  }

  lemma LastStepIsKnown(cfg: Config, steps: seq<Step>, n: nat)
    requires n < |steps|
    ensures TimesOutAt(cfg, steps[..n + 1], n) == TimesOutAt(cfg, steps, n)
    ensures ResetsAt(cfg, steps[..n + 1], n) == ResetsAt(cfg, steps, n)
  {
    assert steps[..n + 1][..n] == steps[..n];
  }

  lemma TimeoutsDoNotReset(cfg: Config, steps: seq<Step>, n: nat)
    requires n < |steps| && TimesOutAt(cfg, steps, n)
    ensures !ResetsAt(cfg, steps, n)
  {
  }

  lemma Stretches(outs: seq<Output>, before: seq<Output>, after: seq<Output>, r: nat, i: nat)
    requires r <= |before| <= i < |after| && before <= after <= outs
    ensures outs[r..i] == before[r..] + after[|before|..i]
  {
  }

  /** A timeout's probe is the last of its step's outputs. */
  lemma TimeoutProbesLast(cfg: Config, steps: seq<Step>, i: nat, n: nat)
    requires MadeBy(cfg, steps, i, n) && OutputsOf(cfg, steps[..n + 1])[i].Backoff? && TimesOutAt(cfg, steps, n)
    ensures Count(OutputsOf(cfg, steps[..n + 1])[|OutputsOf(cfg, steps[..n])|..i], IsProbe) == 0
  {
    hide Run, OutputsOf, Count;
    var before, after := OutputsOf(cfg, steps[..n]), OutputsOf(cfg, steps[..n + 1]);
    StepAdds(cfg, steps, n);
    TimeoutProbes(cfg, steps, n);
    var f :| Added(cfg, steps, n) == [ProbeMux, WaitTimer, Backoff(f)];
    assert after[i] == Added(cfg, steps, n)[i - |before|];
    assert after[|before|..i] == Added(cfg, steps, n)[..2] == [ProbeMux, WaitTimer];
    OneProbe(f);
  }

  // ----- a second probe that is no slower than the first -----

  /** A mux in error, a server that is heard, and then a configuration that probes again. */
  const REPEATED: seq<Step> := [SoCIp(false), MuxStateNotification(MError), SwssLink(LUp),
                                Heartbeat(IcmpHwSelf), RunStrand, RunStrand, MuxConfig(Manual)]

  function Probes(log: Log<Output>): nat {
    Count(Outputs(log), IsProbe)
  }

  lemma EmitProbes(s: State, o: Output)
    ensures Probes(Emit(s, o).journal.log) == Probes(s.journal.log) + if o.Backoff? then 1 else 0
  {
    CountLast(Outputs(s.journal.log), o, IsProbe);
  }

  lemma UpdateHealthProbesNot(cfg: Config, s: State)
    ensures var s' := UpdateHealth(cfg, s);
            && Probes(s'.journal.log) == Probes(s.journal.log) && s'.comp == s.comp && s'.prober == s.prober && s'.queue == s.queue
            && s'.admin.init == s.admin.init && s'.admin.deferred == s.admin.deferred
  {
    hide Record, Probes;
    var h := HealthOf(cfg, s);
    EmitProbes(s.(admin := s.admin.(health := h)), LinkmgrState(h));
  }

  lemma ShutdownOrRestartProbesNot(s: State)
    ensures var s' := ShutdownOrRestart(s);
            && Probes(s'.journal.log) == Probes(s.journal.log) && s'.comp == s.comp && s'.prober == s.prober && s'.queue == s.queue
            && s'.admin == s.admin
  {
    hide Record, Probes;
    EmitProbes(s, ShutdownTx);
    EmitProbes(s, RestartTx);
  }

  lemma ProbeTimerProbes(s: State)
    ensures var s' := StartMuxProbeTimer(s);
            && Probes(s'.journal.log) == Probes(s.journal.log) + 1 && s'.comp == s.comp && s'.prober == s.prober && s'.queue == s.queue
            && s'.admin.init == s.admin.init
  {
    hide Record, Probes, MuxState.SetCause;
    var s1 := StartWaitMux(SetCause(s, DriverUpdate));
    EmitProbes(s1, ProbeMux);
    EmitProbes(Emit(s1, ProbeMux), WaitTimer);
    EmitProbes(ProbeMuxState(s), Backoff(s.admin.probeFactor));
  }

  /** A waiting prober over a mux in error, on an active port with nothing queued and no probe made. */
  predicate Waiting(s: State) {
    && s.comp == Composite(PWait, MError, LUp) && s.prober.current == PWait && s.queue == [] && s.admin.init.All()
    && Probes(s.journal.log) == 0
  }

  /** The server is heard, and one probe made. */
  predicate Heard(s: State) {
    s.comp == Composite(PActive, MError, LUp) && s.admin.init.All() && Probes(s.journal.log) == 1
  }

  predicate HalfUp(s: State) {
    && s.comp.ps == s.prober.current == PWait && s.comp.ms == MError && s.queue == [] && s.admin.deferred == []
    && s.admin.init == InitBits(true, true, false) && Probes(s.journal.log) == 0
  }

  lemma ComesUp(cfg: Config)
    ensures HalfUp(Next(cfg, Next(cfg, Initial(), SoCIp(false)), MuxStateNotification(MError)))
  {
    hide StartProber;
  }

  lemma LinkComesUp(cfg: Config, s: State)
    requires HalfUp(s)
    ensures Waiting(Next(cfg, s, SwssLink(LUp)))
  {
    hide Record, Probes, LinkState.Entered, UpdateHealth, ShutdownOrRestart;
    var up := WithInit(EnterLink(Emit(s, LinkForced(LUp)), LUp), InitBits(true, true, true));
    EmitProbes(s, LinkForced(LUp));
    assert InitProber(up) == up;
    ShutdownOrRestartProbesNot(up);
    var s1 := if cfg.defaultRouteFeature then ShutdownOrRestart(up) else up;
    EmitProbes(s1, InitializeProber);
    EmitProbes(Emit(s1, InitializeProber), StartProbing);
    var s2 := Emit(Emit(s1, InitializeProber), StartProbing);
    UpdateHealthProbesNot(cfg, s2);
    EmitProbes(UpdateHealth(cfg, s2), SyncTimer);
    assert ConfigMessages([]) == [];
  }

  lemma ServerIsHeard(cfg: Config, s: State)
    requires Waiting(s)
    ensures Heard(Next(cfg, Next(cfg, Next(cfg, s, Heartbeat(IcmpHwSelf)), RunStrand), RunStrand))
  {
    hide Record, Probes, HandleProberChange;
    var s1 := Next(cfg, s, Heartbeat(IcmpHwSelf));
    assert s1 == Post(s, [ProberEventMsg(IcmpHwSelf)]);
    var s2 := Next(cfg, s1, RunStrand);
    var heard := s.(prober := LinkProberState.Machine(PActive, LinkProberState.NO_COUNTS));
    assert s2 == Post(heard, [ProberChange(PActive)]);
    assert s2.(queue := s2.queue[1..]) == heard;
    ProberTakenUp(cfg, heard);
  }

  lemma ProberTakenUp(cfg: Config, s: State)
    requires s.comp == Composite(PWait, MError, LUp) && s.prober.current == PActive && s.admin.init.All()
    ensures var s' := HandleProberChange(cfg, s, PActive);
            && s'.comp == Composite(PActive, MError, LUp) && s'.admin.init == s.admin.init
            && Probes(s'.journal.log) == Probes(s.journal.log) + 1
  {
    hide Record, Probes, UpdateHealth, StartMuxProbeTimer;
    EmitProbes(s.(admin := s.admin.(continuousUnknown := false)), PostProberMetric(LinkProberActiveStart));
    var s1 := NoteProberChange(s, PActive).(comp := s.comp.(ps := PActive));
    ProbeTimerProbes(s1);
    UpdateHealthProbesNot(cfg, StartMuxProbeTimer(s1));
  }

  lemma ConfigProbes(cfg: Config, s: State)
    requires Heard(s)
    ensures Probes(Next(cfg, s, MuxConfig(Manual)).journal.log) == 2
  {
    hide Record, Probes, UpdateHealth, ShutdownOrRestart, StartMuxProbeTimer;
    var s1 := s.(admin := s.admin.(mode := Manual));
    ProbeTimerProbes(s1);
    UpdateHealthProbesNot(cfg, StartMuxProbeTimer(s1));
    ShutdownOrRestartProbesNot(UpdateHealth(cfg, StartMuxProbeTimer(s1)));
  }

  lemma RunOf(cfg: Config, steps: seq<Step>, step: Step)
    ensures Run(cfg, steps + [step]) == Next(cfg, Run(cfg, steps), step)
  {
    assert (steps + [step])[..|steps|] == steps;
  }

  lemma RepeatedProbesTwice(cfg: Config)
    ensures Probes(Run(cfg, REPEATED).journal.log) == 2
  {
    hide Next, Probes, HalfUp, Waiting, Heard;
    var steps := REPEATED;
    forall n | 0 <= n < 7
      ensures Run(cfg, steps[..n + 1]) == Next(cfg, Run(cfg, steps[..n]), steps[n])
    {
      assert steps[..n + 1] == steps[..n] + [steps[n]];
      RunOf(cfg, steps[..n], steps[n]);
    }
    assert Run(cfg, steps[..0]) == Initial();
    ComesUp(cfg);
    LinkComesUp(cfg, Run(cfg, steps[..2]));
    ServerIsHeard(cfg, Run(cfg, steps[..3]));
    ConfigProbes(cfg, Run(cfg, steps[..6]));
    assert steps[..7] == steps;
  }

  /** Where the last probe is. */
  lemma {:induction false} LastProbe(outs: seq<Output>) returns (i: nat)
    requires Count(outs, IsProbe) > 0
    ensures i < |outs| && outs[i].Backoff? && Count(outs[..i], IsProbe) + 1 == Count(outs, IsProbe)
  {
    i := |outs| - 1;
    if !outs[i].Backoff? {
      var shorter := outs[..i];
      i := LastProbe(shorter);
      assert outs[..i] == shorter[..i];
    }
  }

  lemma {:induction false} NothingTimesOut(cfg: Config, steps: seq<Step>)
    requires forall step :: step in steps ==> !step.MuxProbeTimeout? && !step.ProbeMuxStateNotification?
    ensures Timeouts(cfg, steps) == 0 && ResetPoint(cfg, steps) == 0
  {
    hide Run;
    if steps != [] {
      NothingTimesOut(cfg, steps[..|steps| - 1]);
    }
  }

  /**
   On every port there is a run whose second probe since the mux was last determined has the factor 1, and not
   2: the transition function probes again without a timeout in between.
   */
  lemma SecondProbeRepeats(cfg: Config) returns (i: nat)
    ensures i < |OutputsOf(cfg, REPEATED)| && OutputsOf(cfg, REPEATED)[i] == Backoff(1)
    ensures ResetPoint(cfg, REPEATED) == 0 && Count(OutputsOf(cfg, REPEATED)[..i], IsProbe) == 1
  {
    hide Run, Timeouts, ResetPoint, Count;
    RepeatedProbesTwice(cfg);
    i := LastProbe(OutputsOf(cfg, REPEATED));
    FirstOutput(cfg);
    RunGrows(cfg, REPEATED, 0);
    var n := EveryOutputIsMade(cfg, REPEATED, i);
    BackoffsAreClosedForm(cfg, REPEATED, i, n);
    NothingTimesOut(cfg, REPEATED[..n + 1]);
    NothingTimesOut(cfg, REPEATED);
    FirstFactor();
  }
}
