/**
 What an active-active port does over a mux that is unknown or in error: there it may rest, but it does not
 come to such a composite without asking the mux, or toggling it.
 */
module ActiveActiveAsks {
  import opened Labels
  import opened Strand
  import opened Logs
  import opened ActiveActiveSpec
  import opened ActiveActiveSafety
  import opened ActiveActiveRests
  import opened ActiveActiveRuns
  import opened ActiveActiveSteps
  import opened ActiveActiveToggles
  import MuxState
  import LinkState
  import LinkProberState

  /** The link is up and the prober has decided, or the server is lost, over a mux that tells nothing. */
  predicate Unclear(c: Composite) {
    && c.ls == LUp
    && ((c.ps == PActive && (c.ms == MUnknown || c.ms == MError)) || (c.ps == PUnknown && c.ms == MUnknown))
  }

  /** A change that still is what the sub-machine says. */
  predicate Current(s: State, m: Message) {
    || (m.ProberChange? && s.prober.current == m.ps)
    || (m.MuxChange? && s.mux.current == m.ms)
    || (m.LinkChange? && s.link.current == m.ls)
  }

  /** The composite with the change in it. */
  function TakenUp(c: Composite, m: Message): Composite {
    match m
    case ProberChange(l) => c.(ps := l)
    case MuxChange(l) => c.(ms := l)
    case LinkChange(l) => c.(ls := l)
    case _ => c
  }

  /** A link that comes up sends a prober that is not active back to waiting. */
  predicate StartsOver(c: Composite, m: Message) {
    m.LinkChange? && c.ls == LDown && c.ps != PActive
  }

  /** Where the prober wants the mux. */
  function Wanted(c: Composite): MuxLabel {
    if c.ps == PActive then MActive else MStandby
  }

  /** A prober that has just changed, over a mux that is not in error, decides where the mode lets it. */
  predicate Decides(s: State, left: Composite, c: Composite) {
    left.ps != c.ps && c.ms == MUnknown && Allowed(s.admin.mode, Wanted(c))
  }

  /** Probe at once; a prober that has not just changed also paces the probes. */
  function ProbeOutputs(s: State, left: Composite, c: Composite): seq<Output> {
    [ProbeMux, WaitTimer] + if left.ps == c.ps || c.ms == MError then [Backoff(s.admin.probeFactor)] else []
  }

  function Answer(s: State, left: Composite, c: Composite): seq<Output> {
    if Decides(s, left, c) then ToggleOutputs(Wanted(c), Circumstance(c, s.admin.mode, s.admin.health))
    else ProbeOutputs(s, left, c)
  }

  /** The composite stays, and the transceiver daemon is asked. */
  predicate Probed(s: State, c: Composite) {
    s.comp == c && s.mux.lastCause == DriverUpdate && s.admin.waitMux
  }

  // ----- the handlers -----

  lemma ProbeAsks(s: State)
    ensures var s' := ProbeMuxState(s);
            && Probed(s', s.comp) && s'.admin.health == s.admin.health && s'.admin.probeFactor == s.admin.probeFactor
            && Outputs(s'.journal.log) == Outputs(s.journal.log) + [ProbeMux, WaitTimer]
  {
    hide Digest;
    var asked := After(s.journal.log, ProbeMux);
    assert Outputs(asked) == Outputs(s.journal.log) + [ProbeMux];
    assert ProbeMuxState(s).journal.log == After(asked, WaitTimer);
  }

  lemma ProbeTimerAsks(s: State)
    ensures var s' := StartMuxProbeTimer(s);
            && Probed(s', s.comp) && s'.admin.health == s.admin.health
            && Outputs(s'.journal.log) == Outputs(s.journal.log) + ([ProbeMux, WaitTimer] + [Backoff(s.admin.probeFactor)])
  {
    hide Digest, ProbeMuxState;
    ProbeAsks(s);
  }

  lemma TransitionAnswers(s: State, left: Composite)
    requires Unclear(s.comp)
    ensures var s' := Transition(s, left);
            && s'.admin.health == s.admin.health
            && (if Decides(s, left, s.comp) then Asked(s', Wanted(s.comp)) else Probed(s', s.comp))
            && Outputs(s'.journal.log) == Outputs(s.journal.log) + Answer(s, left, s.comp)
  {
    hide Record, ToggleMux, ProbeMuxState, StartMuxProbeTimer, ToggleOutputs, Asked, Probed;
    ProbeTimerAsks(s);
    ProbeAsks(s);
    ToggleMuxAsks(s, Wanted(s.comp));
  }

  /** What is put out for a change before it is answered. */
  function Preface(s: State, m: Message): seq<Output> {
    match m
    case ProberChange(l) =>
      if s.admin.continuousUnknown && l != PUnknown then [PostProberMetric(LinkProberActiveStart)]
      else if !s.admin.continuousUnknown && l == PUnknown then [PostProberMetric(LinkProberUnknownStart)]
      else []
    case LinkChange(l) => [LinkAccepted(l, Now(s))]
    case _ => []
  }

  /** The state in which a change is answered. */
  function Prefaced(s: State, m: Message): State
    requires m.ProberChange? || m.MuxChange? || m.LinkChange?
  {
    match m
    case ProberChange(l) => NoteProberChange(s, l).(comp := s.comp.(ps := l))
    case MuxChange(l) => s.(comp := s.comp.(ms := l))
    case LinkChange(l) =>
      var s' := Emit(s, LinkAccepted(l, Now(s))).(comp := s.comp.(ls := l));
      if s.comp.ls == LDown && s.comp.ps == PActive then InitPeer(s') else s'
  }

  lemma PrefacedIsTakenUp(s: State, m: Message)
    requires Current(s, m)
    ensures var s' := Prefaced(s, m);
            && s'.comp == TakenUp(s.comp, m) && s'.admin.mode == s.admin.mode && s'.admin.health == s.admin.health
            && s'.admin.probeFactor == s.admin.probeFactor
            && Outputs(s'.journal.log) == Outputs(s.journal.log) + Preface(s, m)
  {
    hide Digest, LinkProberState.PeerEntered;
  }

  /** A current change that leaves the link up is answered by the table of transition functions. */
  lemma AnsweredByTable(cfg: Config, s: State, m: Message)
    requires Current(s, m) && TakenUp(s.comp, m).ls == LUp && !StartsOver(s.comp, m)
    ensures Deliver(cfg, s, m) == UpdateHealth(cfg, Transition(Prefaced(s, m), s.comp))
  {
    hide Transition, UpdateHealth, InitPeer, InitProber, SwitchMux, NoteProberChange, Record;
  }

  lemma UnclearIsUp(c: Composite)
    requires Unclear(c)
    ensures c.ls == LUp
  {
  }

  lemma ChangeIsAnswered(cfg: Config, s: State, m: Message)
    requires Current(s, m) && Unclear(TakenUp(s.comp, m)) && !StartsOver(s.comp, m)
    ensures var s', c := Deliver(cfg, s, m), TakenUp(s.comp, m);
            && (if Decides(s, s.comp, c) then Asked(s', Wanted(c)) else Probed(s', c))
            && Outputs(s'.journal.log) == Outputs(s.journal.log) + Preface(s, m) + Answer(s, s.comp, c) + HealthNote(s, s')
  {
    hide Deliver, Transition, UpdateHealth, Prefaced, Preface, Unclear, Record, ToggleOutputs;
    UnclearIsUp(TakenUp(s.comp, m));
    AnsweredByTable(cfg, s, m);
    PrefacedIsTakenUp(s, m);
    var s1 := Prefaced(s, m);
    TransitionAnswers(s1, s.comp);
    UpdateHealthNotes(cfg, Transition(s1, s.comp));
  }

  lemma LinkStartsOver(cfg: Config, s: State, m: Message)
    requires Current(s, m) && Unclear(TakenUp(s.comp, m)) && StartsOver(s.comp, m)
    ensures var s' := Deliver(cfg, s, m);
            && s'.comp == Composite(PWait, s.comp.ms, LUp)
            && Outputs(s'.journal.log) == Outputs(s.journal.log) + Preface(s, m) + HealthNote(s, s')
  {
    hide Digest, UpdateHealth, LinkProberState.Entered, LinkProberState.PeerEntered;
    var s' := Emit(s, LinkAccepted(LUp, Now(s))).(comp := s.comp.(ls := LUp));
    UpdateHealthNotes(cfg, InitPeer(InitProber(s')));
  }

  /**
   Every step that takes up a change to an unclear composite answers it at once: it toggles the mux where the
   prober has just changed over an unknown mux and the mode allows it, and else probes it, with a wait timer
   and, unless the prober has just changed, with the probe timer. Only a link that comes up under a prober that
   is not active starts the prober over instead.
   */
  lemma UnclearMuxIsAnswered(cfg: Config, steps: seq<Step>, n: nat, m: Message)
    requires n < |steps| && Serves(cfg, steps, n, m)
    requires var s := Run(cfg, steps[..n]); Current(s, m) && Unclear(TakenUp(s.comp, m))
    ensures var s, s' := Run(cfg, steps[..n]), Run(cfg, steps[..n + 1]);
            var c := TakenUp(s.comp, m);
            if StartsOver(s.comp, m) then
              s'.comp == c.(ps := PWait) && Added(cfg, steps, n) == Preface(s, m) + HealthNote(s, s')
            else
              && Added(cfg, steps, n) == Preface(s, m) + Answer(s, s.comp, c) + HealthNote(s, s')
              && if Decides(s, s.comp, c) then Asked(s', Wanted(c)) else Probed(s', c)
  {
    hide Run, Deliver, Preface, Answer, HealthNote, Asked, Probed, Unclear, Explained, KeptAfter, MarkOf;
    ServedBy(cfg, steps, n, m);
    StepAdds(cfg, steps, n);
    var s := Run(cfg, steps[..n]);
    var s0 := s.(queue := s.queue[1..]);
    SameBesidesQueue(s, s0, m, Run(cfg, steps[..n + 1]));
    if StartsOver(s.comp, m) {
      UpIsTakenUp(s.comp, m);
      LinkStartsOver(cfg, s0, m);
    } else {
      ChangeIsAnswered(cfg, s0, m);
    }
  }

  lemma UpIsTakenUp(c: Composite, m: Message)
    requires StartsOver(c, m) && Unclear(TakenUp(c, m))
    ensures m == LinkChange(LUp)
  {
  }

  lemma SameBesidesQueue(s: State, s0: State, m: Message, s': State)
    requires s.queue != [] && s0 == s.(queue := s.queue[1..])
    ensures Preface(s0, m) == Preface(s, m) && HealthNote(s0, s') == HealthNote(s, s')
    ensures forall c :: Answer(s0, s.comp, c) == Answer(s, s.comp, c)
  {
  }

  /**
   A link that comes up under an active prober keeps that prober and probes the mux first; orchagent is asked for
   nothing before the mux is known.
   */
  lemma LinkUpProbesFirst(cfg: Config, steps: seq<Step>, n: nat)
    requires n < |steps| && Serves(cfg, steps, n, LinkChange(LUp))
    requires var s := Run(cfg, steps[..n]);
             s.link.current == LUp && s.comp.ps == PActive && (s.comp.ms == MUnknown || s.comp.ms == MError)
    ensures var s, s' := Run(cfg, steps[..n]), Run(cfg, steps[..n + 1]);
            && Probed(s', s.comp.(ls := LUp))
            && Added(cfg, steps, n) == [LinkAccepted(LUp, Now(s)), ProbeMux, WaitTimer, Backoff(s.admin.probeFactor)]
                                       + HealthNote(s, s')
  {
    hide Run, HealthNote, Probed;
    UnclearMuxIsAnswered(cfg, steps, n, LinkChange(LUp));
    var s := Run(cfg, steps[..n]);
    assert [LinkAccepted(LUp, Now(s))] + ProbeOutputs(s, s.comp, s.comp.(ls := LUp))
           == [LinkAccepted(LUp, Now(s)), ProbeMux, WaitTimer, Backoff(s.admin.probeFactor)];
  }

  /** The one composite with a decided prober, a link that is up and a mux that tells nothing, that is left alone. */
  const LOST_OVER_ERROR := Composite(PUnknown, MError, LUp)

  lemma ErrorIsLeft(cfg: Config, s: State, m: Message)
    requires Current(s, m) && TakenUp(s.comp, m) == LOST_OVER_ERROR && !StartsOver(s.comp, m)
    ensures var s' := Deliver(cfg, s, m);
            && s'.comp == LOST_OVER_ERROR
            && Outputs(s'.journal.log) == Outputs(s.journal.log) + Preface(s, m) + HealthNote(s, s')
  {
    hide Deliver, UpdateHealth, Prefaced, Preface, Record;
    AnsweredByTable(cfg, s, m);
    PrefacedIsTakenUp(s, m);
    UpdateHealthNotes(cfg, Prefaced(s, m));
  }

  lemma LostOverErrorRests(cfg: Config, steps: seq<Step>, n: nat, m: Message)
    requires n < |steps| && Serves(cfg, steps, n, m)
    requires var s := Run(cfg, steps[..n]);
             Current(s, m) && TakenUp(s.comp, m) == LOST_OVER_ERROR && !StartsOver(s.comp, m)
    ensures var s, s' := Run(cfg, steps[..n]), Run(cfg, steps[..n + 1]);
            s'.comp == LOST_OVER_ERROR && Added(cfg, steps, n) == Preface(s, m) + HealthNote(s, s')
  {
    hide Run, Deliver, Preface, HealthNote, Explained, KeptAfter, MarkOf;
    ServedBy(cfg, steps, n, m);
    StepAdds(cfg, steps, n);
    var s := Run(cfg, steps[..n]);
    var s0 := s.(queue := s.queue[1..]);
    SameBesidesQueue(s, s0, m, Run(cfg, steps[..n + 1]));
    ErrorIsLeft(cfg, s0, m);
  }

  predicate Undecided(c: Composite) {
    c.ls == LUp && (c.ps == PActive || c.ps == PUnknown) && (c.ms == MUnknown || c.ms == MError)
  }

  predicate Asks(o: Output) {
    o == ProbeMux || o.Toggle?
  }

  /**
   A step that takes up a mux in one of the undetermined labels, over a link that is up and a prober that has
   decided, asks for it exactly unless the server is lost and the mux is in error.
   */
  lemma AsksExactlyWhen(cfg: Config, steps: seq<Step>, n: nat, m: Message)
    requires n < |steps| && Serves(cfg, steps, n, m)
    requires var s := Run(cfg, steps[..n]);
             Current(s, m) && Undecided(TakenUp(s.comp, m)) && !StartsOver(s.comp, m)
    ensures (exists o :: o in Added(cfg, steps, n) && Asks(o))
            <==> TakenUp(Run(cfg, steps[..n]).comp, m) != LOST_OVER_ERROR
  {
    hide Run, Deliver, Asked, Probed, Explained, KeptAfter, MarkOf;
    var s, s' := Run(cfg, steps[..n]), Run(cfg, steps[..n + 1]);
    var c := TakenUp(s.comp, m);
    if c == LOST_OVER_ERROR {
      LostOverErrorRests(cfg, steps, n, m);
      NotesAskNothing(s, m, s');
    } else {
      UnclearMuxIsAnswered(cfg, steps, n, m);
      var o := AnswerAsks(s, s.comp, c);
      assert o in Added(cfg, steps, n);
    }
  }

  lemma NotesAskNothing(s: State, m: Message, s': State)
    ensures forall o :: o in Preface(s, m) + HealthNote(s, s') ==> !Asks(o)
  {
  }

  lemma AnswerAsks(s: State, left: Composite, c: Composite) returns (o: Output)
    ensures o in Answer(s, left, c) && Asks(o)
  {
    if Decides(s, left, c) {
      o := Toggle(Wanted(c), Circumstance(c, s.admin.mode, s.admin.health));
    } else {
      o := ProbeMux;
      assert ProbeOutputs(s, left, c)[0] == o;
    }
  }

  // ----- no other way there -----

  /** From `c` the port comes to no unclear composite but `c` itself. */
  predicate ClearedFrom(c: Composite, s: State) {
    Unclear(s.comp) ==> s.comp == c
  }

  lemma SwitchMuxClears(s: State, l: MuxLabel, force: bool)
    requires l == MActive || l == MStandby
    ensures ClearedFrom(s.comp, SwitchMux(s, l, force))
  {
    hide SwitchMux;
    SwitchMuxFrame(s, l, force);
  }

  lemma InitProberClears(s: State)
    ensures ClearedFrom(s.comp, InitProber(s)) && InitProber(s).comp == s.comp.(ps := InitialProber(s.comp.ms))
  {
    hide LinkProberState.Entered;
  }

  lemma TransitionClears(s: State, left: Composite)
    ensures ClearedFrom(s.comp, Transition(s, left))
  {
    hide SwitchMux, StartMuxProbeTimer, ClearedFrom;
    SwitchMuxClears(s, MActive, false);
    SwitchMuxClears(s, MActive, true);
    SwitchMuxClears(s, MStandby, false);
    SwitchMuxClears(s, MStandby, true);
    StartMuxProbeTimerFrame(s);
    StaysCleared(s, StartMuxProbeTimer(s));
    StaysCleared(s, s);
  }

  lemma StaysCleared(s: State, s': State)
    requires s'.comp == s.comp
    ensures ClearedFrom(s.comp, s')
  {
  }

  lemma ActOnModeClears(s: State, mode: Mode)
    ensures ClearedFrom(s.comp, ActOnMode(s, mode))
  {
    hide SwitchMux, Transition, InitProber, ClearedFrom;
    SwitchMuxClears(s, MActive, true);
    SwitchMuxClears(s, MStandby, true);
    InitProberClears(s);
    TransitionClears(s, s.comp);
  }

  lemma MuxConfigClears(cfg: Config, s: State, mode: Mode)
    ensures ClearedFrom(s.comp, HandleMuxConfig(cfg, s, mode))
  {
    hide ActOnMode, UpdateHealth, ShutdownOrRestart;
    var s1 := s.(admin := s.admin.(mode := mode));
    ActOnModeClears(s1, mode);
    UpdateHealthFrame(cfg, ActOnMode(s1, mode));
    ShutdownOrRestartFrame(
      if s.admin.init.All() then UpdateHealth(cfg, ActOnMode(s1, mode))
      else s1.(admin := s1.admin.(deferred := s1.admin.deferred + [mode])));
  }

  lemma DefaultRouteClears(cfg: Config, s: State, r: DefaultRoute)
    ensures ClearedFrom(s.comp, HandleDefaultRoute(cfg, s, r))
  {
    hide UpdateHealth, ShutdownOrRestart, SwitchMux, InitProber;
    var s0 := ShutdownOrRestart(s.(admin := s.admin.(route := r)));
    ShutdownOrRestartFrame(s.(admin := s.admin.(route := r)));
    SwitchMuxFrame(s0, MStandby, false);
    InitProberClears(RouteMissing(s0));
    UpdateHealthFrame(cfg, RouteBack(RouteMissing(s0), s.admin.route));
  }

  lemma LinkChangeClears(cfg: Config, s: State, l: LinkLabel)
    ensures ClearedFrom(if s.link.current == l then s.comp.(ls := l) else s.comp, HandleLinkChange(cfg, s, l))
  {
    hide Transition, SwitchMux, InitProber, UpdateHealth, Record, LinkProberState.PeerEntered;
    var s' := Emit(s, LinkAccepted(l, Now(s))).(comp := s.comp.(ls := l));
    TransitionClears(s', s.comp);
    TransitionClears(InitPeer(s'), s.comp);
    InitProberClears(s');
    SwitchMuxClears(s', MStandby, false);
    UpdateHealthFrame(cfg, if s.link.current == l then AcceptLinkChange(s, l) else s);
  }

  lemma ProberChangeClears(cfg: Config, s: State, l: ProberLabel)
    ensures ClearedFrom(if s.prober.current == l then s.comp.(ps := l) else s.comp, HandleProberChange(cfg, s, l))
  {
    hide Transition, UpdateHealth, Record;
    TransitionClears(NoteProberChange(s, l).(comp := s.comp.(ps := l)), s.comp);
    UpdateHealthFrame(cfg, if s.prober.current == l then AcceptProberChange(s, l) else s);
  }

  lemma MuxChangeClears(cfg: Config, s: State, l: MuxLabel)
    ensures ClearedFrom(if s.mux.current == l then s.comp.(ms := l) else s.comp, HandleMuxChange(cfg, s, l))
  {
    hide Transition, UpdateHealth;
    TransitionClears(s.(comp := s.comp.(ms := l)), s.comp);
    UpdateHealthFrame(cfg, if s.mux.current == l then AcceptMuxChange(s, l) else s);
  }

  lemma DeliverClears(cfg: Config, s: State, m: Message)
    ensures ClearedFrom(if Current(s, m) then TakenUp(s.comp, m) else s.comp, Deliver(cfg, s, m))
  {
    hide HandleProberChange, HandlePeerChange, HandleMuxChange, HandleLinkChange, HandleMuxConfig, ProbeIfIdle, Unclear;
    hide LinkProberState.Handled, LinkProberState.PeerHandled, MuxState.Handled, LinkState.Handled, Record;
    match m
    case ProberChange(l) => ProberChangeClears(cfg, s, l);
    case MuxChange(l) => MuxChangeClears(cfg, s, l);
    case LinkChange(l) => LinkChangeClears(cfg, s, l);
    case PeerChange(l) => PeerChangeRests(s, l);
    case HandleMuxProbeRequest => ProbeIfIdleRests(s);
    case DeferredMuxConfig(mode) => MuxConfigClears(cfg, s, mode);
    case _ =>
  }

  lemma OtherStepClears(cfg: Config, s: State, step: Step)
    requires !BringsComponentUp(step) && !step.RunStrand?
    ensures ClearedFrom(s.comp, Next(cfg, s, step))
  {
    hide HandleMuxConfig, HandleDefaultRoute, StartMuxProbeTimer, ProbeIfIdle, MuxState.SetCause, Record, Unclear;
    match step
    case MuxConfig(mode) => MuxConfigClears(cfg, s, mode);
    case DefaultRouteState(present) => DefaultRouteClears(cfg, s, if present then RouteOK else RouteNA);
    case MuxProbeTimeout(success) => StartMuxProbeTimerFrame(DoubleBackoff(StopWaitMux(s)));
    case AdminSync => ProbeIfIdleRests(s);
    case _ =>
  }

  lemma ComponentClears(cfg: Config, s: State, step: Step)
    requires BringsComponentUp(step) && Settled(s) && Next(cfg, s, step).admin.init.All()
    ensures ClearedFrom(s.comp, Next(cfg, s, step))
  {
    hide Next, Settled;
    ComponentStepRests(cfg, s, step);
    if s.admin.init.All() {
      ActiveComponentFrame(cfg, s, step);
    }
  }

  lemma StrandClears(cfg: Config, s: State)
    ensures var c := if s.queue != [] && Current(s, s.queue[0]) then TakenUp(s.comp, s.queue[0]) else s.comp;
            ClearedFrom(c, Next(cfg, s, RunStrand))
  {
    hide Deliver, Unclear, TakenUp;
    if s.queue != [] {
      DeliverClears(cfg, s.(queue := s.queue[1..]), s.queue[0]);
    }
  }

  /** An active port comes to an unclear composite only by serving a current change to it. */
  lemma OnlyChangesUnclear(cfg: Config, s: State, step: Step)
    requires Settled(s) && Next(cfg, s, step).admin.init.All()
    requires Unclear(Next(cfg, s, step).comp) && Next(cfg, s, step).comp != s.comp
    ensures step == RunStrand && s.queue != [] && Current(s, s.queue[0])
            && Next(cfg, s, step).comp == TakenUp(s.comp, s.queue[0])
  {
    hide Next, Unclear, Settled, Current, TakenUp;
    if BringsComponentUp(step) {
      ComponentClears(cfg, s, step);
    } else if step.RunStrand? {
      StrandClears(cfg, s);
    } else {
      OtherStepClears(cfg, s, step);
    }
  }

  /**
   Whenever a step of a run brings the port to an unclear composite, that step serves the change to it and asks
   the transceiver daemon for the mux: it puts out a probe with the wait timer behind it, and next to the notes
   on prober, link and health nothing but, perhaps, the probe timer.
   */
  lemma UnclearPortsAsk(cfg: Config, steps: seq<Step>, n: nat) returns (m: Message)
    requires n < |steps|
    requires var s, s' := Run(cfg, steps[..n]), Run(cfg, steps[..n + 1]);
             s'.admin.init.All() && Unclear(s'.comp) && s'.comp != s.comp
    ensures var s, s' := Run(cfg, steps[..n]), Run(cfg, steps[..n + 1]);
            && Serves(cfg, steps, n, m) && Current(s, m) && s'.comp == TakenUp(s.comp, m)
            && Probed(s', s'.comp)
            && Added(cfg, steps, n) == Preface(s, m) + ProbeOutputs(s, s.comp, s'.comp) + HealthNote(s, s')
  {
    hide Run, Next, Deliver, Preface, HealthNote, Probed, Explained, KeptAfter, MarkOf, Settled, ToggleOutputs;
    EveryRunSettles(cfg, steps[..n]);
    StepAdds(cfg, steps, n);
    var s := Run(cfg, steps[..n]);
    OnlyChangesUnclear(cfg, s, steps[n]);
    m := s.queue[0];
    UnclearMuxIsAnswered(cfg, steps, n, m);
  }
}
