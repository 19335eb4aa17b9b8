/**
 A run that outlives the 32-bit count of the visits of a waiting prober over an active mux: the mux is probed
 again and again, and answers that it is active.
 */
module ActiveStandbyVisits {
  import opened Labels
  import opened Strand
  import opened Logs
  import opened ActiveStandbySpec
  import opened ActiveStandbyFrames
  import opened ActiveStandbyRuns
  import MuxState
  import LinkState
  import LinkProberState

  const SETUP: seq<Step> := [BladeIp(false), MuxStateNotification(MError), SwssLink(LUp)]

  /** The mux answers that it is active, and the strand takes the answer up. */
  const ANSWER: seq<Step> := [ProbeMuxState(MActive), RunStrand, RunStrand]

  /** A port whose mux starts in error and becomes active, and is probed over and over: `n + 1` visits. */
  function Laps(n: nat): seq<Step> {
    if n == 0 then SETUP + ANSWER else Laps(n - 1) + [MuxProbeTimeout(true)] + ANSWER
  }

  predicate Ready(s: State, n: nat) {
    && s.comp.ps == PWait && s.comp.ls == LUp && s.comp.ms == s.mux.current
    && s.queue == [] && s.admin.init.All() && !s.admin.pending
    && s.journal.totals.waitActiveUpUses == n
  }

  /** The mux has been asked, or is in error, and any report will change it. */
  predicate Asking(s: State, n: nat) {
    Ready(s, n) && (s.comp.ms == MWait || s.comp.ms == MError) && s.mux.counts == MuxState.NO_COUNTS
  }

  predicate Answered(s: State, n: nat) {
    Ready(s, n) && s.comp.ms == MActive
  }

  // ----- what leaves a visited port as it is -----

  predicate Stays(s: State, s': State) {
    && s'.comp == s.comp && s'.mux == s.mux && s'.queue == s.queue
    && s'.admin.init == s.admin.init && s'.admin.pending == s.admin.pending
    && s'.journal.totals.waitActiveUpUses == s.journal.totals.waitActiveUpUses
  }

  lemma EmitStays(s: State, o: Output)
    requires !o.Backoff? && !o.BackoffReset?
    ensures Stays(s, Emit(s, o))
  {
    hide ToggleMet, IsFactor;
  }

  lemma ResetBackoffStays(s: State, kind: BackoffKind)
    requires kind != WaitActiveUp
    ensures Stays(s, ResetBackoff(s, kind))
  {
  }

  lemma UpdateHealthStays(cfg: Config, s: State)
    ensures Stays(s, UpdateHealth(cfg, s))
  {
    hide Record;
    EmitStays(s, RevertInterval);
    var s' := if HealthOf(cfg, s) == Healthy then Emit(s, RevertInterval) else s;
    var h := HealthOf(cfg, s);
    EmitStays(s'.(admin := s.admin.(health := h)), LinkmgrState(h));
  }

  lemma MuxChangeEndStays(cfg: Config, s: State)
    ensures Stays(s, UpdateHealth(cfg, ClearUnknownUps(ResetBackoff(s, MuxUnknown))))
  {
    hide UpdateHealth, ResetBackoff;
    ResetBackoffStays(s, MuxUnknown);
    UpdateHealthStays(cfg, ClearUnknownUps(ResetBackoff(s, MuxUnknown)));
  }

  // ----- a visit, and the probe before the next one -----

  lemma VisitCounts(s: State)
    ensures var s' := WaitActiveUpTransition(s);
            && s'.mux == s.mux && s'.comp == s.comp && Frame(s, s')
            && s'.journal.totals.waitActiveUpUses == s.journal.totals.waitActiveUpUses + 1
  {
    hide StartOscillation, Frame, CappedFactor, ShiftedOne;
    WaitActiveUpFrame(s);
    var s1 := UseBackoff(s, WaitActiveUp);
    var s2 := if s.counters.waitActiveUp % 2 == 1 then Emit(s1, SuspendTx) else s1;
    OscillationStays(s2);
  }

  lemma OscillationStays(s: State)
    ensures Stays(s, StartOscillation(s))
  {
    hide Record;
    var s' := s.(admin := s.admin.(oscillationAlive := true));
    EmitStays(s', OscillationTimer);
  }

  lemma TakenUp(cfg: Config, s: State)
    requires s.comp.ps == PWait && s.comp.ls == LUp && s.mux.current == MActive && !s.admin.pending
    ensures var s' := HandleMuxChange(cfg, s, MActive);
            && s'.comp == s.comp.(ms := MActive) && s'.mux == s.mux && s'.queue == s.queue
            && s'.admin.init == s.admin.init && !s'.admin.pending
            && s'.journal.totals.waitActiveUpUses == s.journal.totals.waitActiveUpUses + 1
  {
    hide Record, AcceptMuxChange, UpdateHealth, ClearUnknownUps, ResetBackoff;
    AcceptVisits(cfg, s);
    EmitStays(AcceptMuxChange(cfg, s, MActive), GetMux);
    MuxChangeEndStays(cfg, MuxChangeTaken(cfg, s, MActive));
  }

  lemma AcceptVisits(cfg: Config, s: State)
    requires s.comp.ps == PWait && s.comp.ls == LUp
    ensures var s' := AcceptMuxChange(cfg, s, MActive);
            && s'.comp == s.comp.(ms := MActive) && s'.mux == s.mux && s'.queue == s.queue
            && s'.admin.init == s.admin.init && s'.admin.pending == s.admin.pending
            && s'.journal.totals.waitActiveUpUses == s.journal.totals.waitActiveUpUses + 1
  {
    hide Record, WaitActiveUpTransition;
    EmitStays(s, MuxAccepted(MActive));
    VisitCounts(Emit(s, MuxAccepted(MActive)).(comp := s.comp.(ms := MActive)));
  }

  /** The answer turns the mux active, and with it comes the next visit. */
  lemma AnswerVisits(cfg: Config, s: State, n: nat)
    requires Asking(s, n) && cfg.muxRetry == 1
    ensures Answered(Next(cfg, Next(cfg, Next(cfg, s, ProbeMuxState(MActive)), RunStrand), RunStrand), n + 1)
  {
    hide HandleMuxChange;
    var s1 := Next(cfg, s, ProbeMuxState(MActive));
    assert s1 == Post(s, [MuxEventMsg(ActiveEvent)]);
    var s2 := Next(cfg, s1, RunStrand);
    assert s2 == s.(mux := MuxState.Entered(s.mux, MActive), queue := [MuxChange(MActive)]);
    assert s2.(queue := s2.queue[1..]) == s2.(queue := []);
    TakenUp(cfg, s2.(queue := []));
  }

  lemma EnterMuxWaitAsks(s: State)
    ensures var s' := EnterMuxWait(s);
            && s'.comp == s.comp.(ms := MWait) && Stays(s.(comp := s'.comp, mux := s'.mux), s')
            && s'.mux.current == MWait && (s.mux.current != MWait ==> s'.mux.counts == MuxState.NO_COUNTS)
  {
    hide Emit;
    var s' := SetCause(EnterMux(s, MWait), DriverUpdate);
    EmitStays(s', ProbeMux);
    EmitStays(Emit(s', ProbeMux), WaitTimer(MAX_BACKOFF_FACTOR));
  }

  lemma ProbeAsks(cfg: Config, s: State, n: nat)
    requires Answered(s, n)
    ensures Asking(Next(cfg, s, MuxProbeTimeout(true)), n)
  {
    hide ResetBackoff, EnterMuxWait;
    ResetBackoffStays(s, WaitStandbyUp);
    EnterMuxWaitAsks(ResetBackoff(s, WaitStandbyUp));
  }

  // ----- the run -----

  lemma StartStays(cfg: Config, s: State)
    requires s.comp.ms == MError && !cfg.defaultRouteFeature
    ensures var s' := StartProber(cfg, s);
            s'.comp.ps == PWait && Stays(s.(comp := s'.comp), s') && s'.comp == s.comp.(ps := PWait)
  {
    hide UpdateHealth, Emit, LinkProberState.Entered;
    var s1 := s.(prober := LinkProberState.Entered(s.prober, PWait, ActiveStandbyCable), comp := s.comp.(ps := PWait));
    var s2 := Emit(s1, PostProberMetric(LinkProberWaitStart));
    EmitStays(s1, PostProberMetric(LinkProberWaitStart));
    EmitStays(s2, InitializeProber);
    EmitStays(Emit(s2, InitializeProber), StartProbing);
    UpdateHealthStays(cfg, Emit(Emit(s2, InitializeProber), StartProbing));
  }

  /** The prober and the mux are in, the mux in error; the link is still missing. */
  predicate HalfUp(s: State) {
    && s.comp.ms == s.mux.current == MError && s.mux.counts == MuxState.NO_COUNTS
    && s.queue == [] && s.admin.init == InitBits(true, true, false) && !s.admin.pending
    && s.journal.totals.waitActiveUpUses == 0
  }

  /** Only the prober is in. */
  predicate JustBuilt(s: State) {
    && s.mux.current == MWait && s.queue == [] && s.admin.init == InitBits(true, false, false) && !s.admin.pending
    && s.journal.totals.waitActiveUpUses == 0
  }

  lemma MuxComesUp(cfg: Config, s: State)
    requires JustBuilt(s)
    ensures HalfUp(Next(cfg, s, MuxStateNotification(MError)))
  {
    hide Record, StartProber;
    EmitStays(s, MuxForced(MError));
    EmitStays(WithInit(EnterMux(Emit(s, MuxForced(MError)), MError), InitBits(true, true, false)), WarmRestartReconciliation);
  }

  lemma LinkComesUp(cfg: Config, s: State)
    requires HalfUp(s) && !cfg.defaultRouteFeature
    ensures Asking(Next(cfg, s, SwssLink(LUp)), 0)
  {
    hide Record, StartProber, LinkState.Entered;
    var up := WithInit(EnterLink(s, LUp), InitBits(true, true, true));
    StartStays(cfg, up);
    EmitStays(StartProber(cfg, up), WarmRestartReconciliation);
  }

  /** A mux in error and a link that is up, on a port that needs no default route. */
  lemma SetUp(cfg: Config)
    requires !cfg.defaultRouteFeature
    ensures Asking(Run(cfg, SETUP), 0)
  {
    hide Run, Next, JustBuilt, HalfUp, Asking;
    OneMore(cfg, [], BladeIp(false));
    OneMore(cfg, [BladeIp(false)], MuxStateNotification(MError));
    OneMore(cfg, [BladeIp(false)] + [MuxStateNotification(MError)], SwssLink(LUp));
    assert SETUP == [BladeIp(false)] + [MuxStateNotification(MError)] + [SwssLink(LUp)];
    assert [] + [BladeIp(false)] == [BladeIp(false)];
    ProberComesUp(cfg);
    MuxComesUp(cfg, Run(cfg, [BladeIp(false)]));
    LinkComesUp(cfg, Run(cfg, [BladeIp(false)] + [MuxStateNotification(MError)]));
  }

  lemma ProberComesUp(cfg: Config)
    ensures JustBuilt(Next(cfg, Run(cfg, []), BladeIp(false)))
  {
    hide StartProber;
  }

  lemma OneMore(cfg: Config, steps: seq<Step>, step: Step)
    ensures Run(cfg, steps + [step]) == Next(cfg, Run(cfg, steps), step)
  {
    assert (steps + [step])[..|steps|] == steps;
  }

  lemma Answer(cfg: Config, steps: seq<Step>, n: nat)
    requires Asking(Run(cfg, steps), n) && cfg.muxRetry == 1
    ensures Answered(Run(cfg, steps + ANSWER), n + 1)
  {
    hide Run, Next, Asking, Answered;
    OneMore(cfg, steps, ProbeMuxState(MActive));
    OneMore(cfg, steps + [ProbeMuxState(MActive)], RunStrand);
    OneMore(cfg, steps + [ProbeMuxState(MActive)] + [RunStrand], RunStrand);
    assert steps + [ProbeMuxState(MActive)] + [RunStrand] + [RunStrand] == steps + ANSWER;
    AnswerVisits(cfg, Run(cfg, steps), n);
  }

  lemma {:induction false} LapsVisit(cfg: Config, n: nat)
    requires !cfg.defaultRouteFeature && cfg.muxRetry == 1
    ensures Answered(Run(cfg, Laps(n)), n + 1)
  {
    hide Run, Asking, Answered;
    if n == 0 {
      SetUp(cfg);
      Answer(cfg, SETUP, 0);
    } else {
      LapsVisit(cfg, n - 1);
      ProbeAsks(cfg, Run(cfg, Laps(n - 1)), n);
      OneMore(cfg, Laps(n - 1), MuxProbeTimeout(true));
      Answer(cfg, Laps(n - 1) + [MuxProbeTimeout(true)], n);
    }
  }

  lemma {:induction false} LastUse(log: Log<Output>, kind: BackoffKind)
    requires UsesOf(Summarize(log), kind) > 0
    ensures exists i: nat :: i < |Outputs(log)| && Outputs(log)[i].Backoff? && Outputs(log)[i].kind == kind
                        && UsesOf(Summarize(Prefix(log, i)), kind) + 1 == UsesOf(Summarize(log), kind)
  {
    assert log.After?;
    hide UsesOf, Digest;
    DigestUses(Summarize(log.earlier), log.last, kind);
    var outs := Outputs(log);
    if log.last.Backoff? && log.last.kind == kind {
      assert Prefix(log, |outs| - 1) == log.earlier;
    } else {
      LastUse(log.earlier, kind);
      var i: nat :| i < |Outputs(log.earlier)| && Outputs(log.earlier)[i].Backoff? && Outputs(log.earlier)[i].kind == kind
                    && UsesOf(Summarize(Prefix(log.earlier, i)), kind) + 1 == UsesOf(Summarize(log.earlier), kind);
      assert outs[i] == Outputs(log.earlier)[i] && Prefix(log, i) == Prefix(log.earlier, i);
    }
  }

  /** The k-th visit since the last reset is reached by a run. */
  ghost predicate Reached(outs: seq<Output>, k: nat, i: nat) {
    i < |outs| && outs[i].Backoff? && outs[i].kind == WaitActiveUp && UsesSinceReset(outs[..i], WaitActiveUp) == k
  }

  lemma VisitIsReached(cfg: Config, n: nat)
    requires !cfg.defaultRouteFeature && cfg.muxRetry == 1
    ensures exists i: nat :: Reached(OutputsOf(cfg, Laps(n)), n, i)
  {
    hide Run, Laps, UsesSinceReset, UsesOf;
    var log := Run(cfg, Laps(n)).journal.log;
    LapsVisit(cfg, n);
    RunIsOk(cfg, Laps(n));
    assert UsesOf(Summarize(log), WaitActiveUp) == n + 1 by {
      VisitsAreUses(Summarize(log));
    }
    LastUse(log, WaitActiveUp);
    var i: nat :| i < |Outputs(log)| && Outputs(log)[i].Backoff? && Outputs(log)[i].kind == WaitActiveUp
                  && UsesOf(Summarize(Prefix(log, i)), WaitActiveUp) + 1 == UsesOf(Summarize(log), WaitActiveUp);
    UsesAreCounted(Prefix(log, i), WaitActiveUp);
    assert Reached(OutputsOf(cfg, Laps(n)), n, i);
  }

  lemma VisitsAreUses(t: Summary)
    ensures UsesOf(t, WaitActiveUp) == t.waitActiveUpUses
  {
  }

  /**
   The visit after 2^32 others falls back to the factor 1, where min(2^k, 128) is 128: without a reset in
   between, a prober that has been waiting for so long probes at the fastest rate again.
   */
  lemma LateVisitFallsBack(cfg: Config)
    requires !cfg.defaultRouteFeature && cfg.muxRetry == 1
    ensures exists i: nat :: Reached(OutputsOf(cfg, Laps(0x1_0000_0000)), 0x1_0000_0000, i)
                             && OutputsOf(cfg, Laps(0x1_0000_0000))[i].factor == 1
  {
    hide Run, Laps, CappedFactor, UsesSinceReset;
    var n: nat := 0x1_0000_0000;
    VisitIsReached(cfg, n);
    var i: nat :| Reached(OutputsOf(cfg, Laps(n)), n, i);
    BackoffsAreClosedForm(cfg, Laps(n), i);
    FirstFactor();
  }

  lemma FirstFactor()
    ensures CappedFactor(0) == 1
  {
  }
}
