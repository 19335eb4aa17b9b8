/** How far the prober sub-machines meet the run specification of `Debounce`, under software probing. */
module LinkProberDebounce {
  import opened Labels
  import opened Strand
  import opened Debounce
  import opened LinkProberState

  function TargetOf(e: ProbeEvent): ProberLabel {
    match e
    case IcmpSelf => PActive
    case IcmpHwSelf => PActive
    case IcmpPeer => PStandby
    case IcmpHwPeer => PStandby
    case IcmpUnknown => PUnknown
    case IcmpHwUnknown => PUnknown
    case IcmpWait => PWait
    case IcmpHwWait => PWait
  }

  function ThresholdOf(r: Rules, e: ProbeEvent): uint32 {
    match e
    case IcmpUnknown => r.negative
    case IcmpHwUnknown => r.negative
    case _ => r.positive
  }

  /** On an active-standby cable a waiting prober does not listen to lost heartbeats. */
  function RunPolicy(r: Rules): Policy<ProberLabel, ProbeEvent> {
    Policy((e: ProbeEvent) => TargetOf(e),
           (e: ProbeEvent) => ThresholdOf(r, e),
           (l: ProberLabel, e: ProbeEvent) => !(r.cable.ActiveStandbyCable? && l == PWait && e == IcmpUnknown))
  }

  type ProberOp = Op<ProberLabel, ProbeEvent>

  function RunMachine(m: Machine, r: Rules, ops: seq<ProberOp>): Machine {
    if ops == [] then m
    else
      var before := RunMachine(m, r, ops[..|ops| - 1]);
      match ops[|ops| - 1]
      case Event(e) => Handled(before, e, r)
      case Forced(l) => Entered(before, l, r.cable)
  }

  /** What can reach the sub-machine of each cable type when the prober is the software one. */
  predicate SoftwareOp(cable: CableType, op: ProberOp) {
    match op
    case Event(e) => e == IcmpSelf || e == IcmpUnknown || (cable.ActiveStandbyCable? && e == IcmpPeer)
    case Forced(l) => cable.ActiveStandbyCable? || l != PStandby
  }

  /** After every such run of the machine from a fresh label the specified label is shown. */
  ghost predicate MeetsRunSpec(r: Rules) {
    forall l: ProberLabel, ops: seq<ProberOp> ::
      (r.cable.ActiveStandbyCable? || l != PStandby) && (forall op :: op in ops ==> SoftwareOp(r.cable, op)) ==>
        var h := Remembered(RunPolicy(r), l, ops);
        RunMachine(Machine(l, NO_COUNTS), r, ops).current == LabelOf(RunPolicy(r), h.entry, h.events)
  }

  predicate OneStreak(m: Machine) {
    var c := m.counts;
    && (c.self != 0 ==> c.peer == 0 && c.unknown == 0 && m.current != PActive)
    && (c.peer != 0 ==> c.unknown == 0 && m.current != PStandby)
    && (c.unknown != 0 ==> m.current != PUnknown)
  }

  ghost function Abstract(m: Machine): Debouncer<ProberLabel, ProbeEvent> {
    var c := m.counts;
    Debouncer(m.current,
              if c.unknown != 0 then Streak(IcmpUnknown, c.unknown)
              else if c.self != 0 then Streak(IcmpSelf, c.self)
              else if c.peer != 0 then Streak(IcmpPeer, c.peer)
              else NoStreak)
  }

  /** When a self heartbeat or a lost one moves the machine at once, the counter that survives in Wait is zero. */
  predicate SingleShot(r: Rules) {
    r.positive <= 1 || r.negative <= 1
  }

  predicate Tracked(m: Machine, r: Rules) {
    && OneStreak(m)
    && (r.cable.ActiveStandbyCable? ==> m.current == PWait ==> m.counts.unknown == 0)
    && (r.cable.ActiveActiveCable? ==>
         && m.counts.peer == 0
         && m.current != PStandby
         && (r.positive <= 1 ==> m.counts.self == 0)
         && (r.negative <= 1 ==> m.counts.unknown == 0))
  }

  lemma SelfAbstracts(m: Machine, r: Rules)
    requires Tracked(m, r) && !r.hardware
    ensures Tracked(Handled(m, IcmpSelf, r), r)
    ensures Abstract(Handled(m, IcmpSelf, r)) == Step(RunPolicy(r), Abstract(m), IcmpSelf)
  {
  }

  lemma PeerAbstracts(m: Machine, r: Rules)
    requires Tracked(m, r) && !r.hardware && r.cable.ActiveStandbyCable?
    ensures Tracked(Handled(m, IcmpPeer, r), r)
    ensures Abstract(Handled(m, IcmpPeer, r)) == Step(RunPolicy(r), Abstract(m), IcmpPeer)
  {
  }

  lemma UnknownAbstracts(m: Machine, r: Rules)
    requires Tracked(m, r) && !r.hardware
    requires r.cable.ActiveActiveCable? ==> SingleShot(r)
    ensures Tracked(Handled(m, IcmpUnknown, r), r)
    ensures Abstract(Handled(m, IcmpUnknown, r)) == Step(RunPolicy(r), Abstract(m), IcmpUnknown)
  {
  }

  lemma EventAbstracts(m: Machine, r: Rules, e: ProbeEvent)
    requires Tracked(m, r) && SoftwareOp(r.cable, Event(e)) && !r.hardware
    requires r.cable.ActiveActiveCable? ==> SingleShot(r)
    ensures Tracked(Handled(m, e, r), r) && Abstract(Handled(m, e, r)) == Step(RunPolicy(r), Abstract(m), e)
  {
    hide Tracked, Abstract, Handled, Step, RunPolicy;
    match e
    case IcmpSelf => SelfAbstracts(m, r);
    case IcmpPeer => PeerAbstracts(m, r);
    case IcmpUnknown => UnknownAbstracts(m, r);
  }

  lemma ForcedAbstracts(m: Machine, r: Rules, l: ProberLabel)
    requires Tracked(m, r) && SoftwareOp(r.cable, Forced(l))
    ensures Tracked(Entered(m, l, r.cable), r) && Abstract(Entered(m, l, r.cable)) == Force(Abstract(m), l)
  {
  }

  lemma {:induction false} RunAbstracts(l: ProberLabel, r: Rules, ops: seq<ProberOp>)
    requires !r.hardware
    requires r.cable.ActiveActiveCable? ==> SingleShot(r) && l != PStandby
    requires forall op :: op in ops ==> SoftwareOp(r.cable, op)
    ensures Tracked(RunMachine(Machine(l, NO_COUNTS), r, ops), r)
    ensures Abstract(RunMachine(Machine(l, NO_COUNTS), r, ops)) == RunOps(RunPolicy(r), l, ops)
  {
    if ops == [] {
      assert Tracked(Machine(l, NO_COUNTS), r) && Abstract(Machine(l, NO_COUNTS)) == Debouncer(l, NoStreak);
    } else {
      var init, op := ops[..|ops| - 1], ops[|ops| - 1];
      assert op in ops;
      forall o | o in init ensures o in ops {}
      RunAbstracts(l, r, init);
      hide Tracked, Abstract, Handled, Entered, Step, Force;
      var before := RunMachine(Machine(l, NO_COUNTS), r, init);
      match op
      case Event(e) => EventAbstracts(before, r, e);
      case Forced(f) => ForcedAbstracts(before, r, f);
    }
  }

  lemma ShowsLastRun(l: ProberLabel, r: Rules, ops: seq<ProberOp>)
    requires !r.hardware && r.positive <= 255 && r.negative <= 255
    requires r.cable.ActiveActiveCable? ==> SingleShot(r) && l != PStandby
    requires forall op :: op in ops ==> SoftwareOp(r.cable, op)
    ensures var h := Remembered(RunPolicy(r), l, ops);
            RunMachine(Machine(l, NO_COUNTS), r, ops).current == LabelOf(RunPolicy(r), h.entry, h.events)
  {
    RunAbstracts(l, r, ops);
    RefinesOps(RunPolicy(r), l, ops);
  }

  /** A count below its threshold keeps the label, whatever the counter has wrapped to. */
  lemma {:induction false} LongRunUnheard(l: ProberLabel, r: Rules, e: ProbeEvent, n: nat)
    requires !r.hardware && ThresholdOf(r, e) > 255
    requires (l, e) == (PUnknown, IcmpSelf) || (l, e) == (PActive, IcmpUnknown)
    ensures RunMachine(Machine(l, NO_COUNTS), r, Events<ProberLabel, ProbeEvent>(seq(n, _ => e))).current == l
  {
    if n != 0 {
      LongRunUnheard(l, r, e, n - 1);
      assert Events<ProberLabel, ProbeEvent>(seq(n, _ => e))[..n - 1] == Events<ProberLabel, ProbeEvent>(seq(n - 1, _ => e));
    }
  }

  lemma WideThresholdFails(l: ProberLabel, r: Rules, e: ProbeEvent)
    requires !r.hardware && ThresholdOf(r, e) > 255
    requires (l, e) == (PUnknown, IcmpSelf) || (l, e) == (PActive, IcmpUnknown)
    ensures !MeetsRunSpec(r)
  {
    var p, n := RunPolicy(r), ThresholdOf(r, e);
    var es := seq(n, _ => e);
    RangeIsSharp(p, l, e);
    assert es == seq(p.threshold(e), _ => e);
    RememberedEvents(p, l, es);
    LongRunUnheard(l, r, e, n);
    assert forall op :: op in Events<ProberLabel, ProbeEvent>(es) ==> SoftwareOp(r.cable, op);
  }

  /**
   Active-standby: the prober meets the run specification, with Wait deaf to lost heartbeats, for exactly
   the retry counts that the 8-bit counters can reach.
   */
  lemma ActiveStandbyMeetsRunSpecExactly(r: Rules)
    requires r.cable.ActiveStandbyCable? && !r.hardware
    ensures MeetsRunSpec(r) <==> r.positive <= 255 && r.negative <= 255
  {
    if r.positive > 255 {
      WideThresholdFails(PUnknown, r, IcmpSelf);
    } else if r.negative > 255 {
      WideThresholdFails(PActive, r, IcmpUnknown);
    } else {
      forall l: ProberLabel, ops: seq<ProberOp> | forall op :: op in ops ==> SoftwareOp(r.cable, op)
        ensures var h := Remembered(RunPolicy(r), l, ops);
                RunMachine(Machine(l, NO_COUNTS), r, ops).current == LabelOf(RunPolicy(r), h.entry, h.events)
      {
        ShowsLastRun(l, r, ops);
      }
    }
  }

  // ----- active-active -----

  /** Self heartbeats with one lost heartbeat before the last of them. */
  function Interrupted(k: nat): seq<ProbeEvent> {
    seq(k, _ => IcmpSelf) + [IcmpUnknown, IcmpSelf]
  }

  lemma {:induction false} WaitCountsSelf(r: Rules, k: nat)
    requires k < r.positive && k <= 255 && r.cable.ActiveActiveCable?
    ensures RunMachine(Machine(PWait, NO_COUNTS), r, Events<ProberLabel, ProbeEvent>(seq(k, _ => IcmpSelf))) == Machine(PWait, Counts(k, 0, 0))
  {
    if k != 0 {
      WaitCountsSelf(r, k - 1);
      assert Events<ProberLabel, ProbeEvent>(seq(k, _ => IcmpSelf))[..k - 1] == Events<ProberLabel, ProbeEvent>(seq(k - 1, _ => IcmpSelf));
    }
  }

  lemma MachineForgives(r: Rules)
    requires r.cable.ActiveActiveCable? && !r.hardware && 2 <= r.positive <= 255 && 2 <= r.negative
    ensures RunMachine(Machine(PWait, NO_COUNTS), r, Events<ProberLabel, ProbeEvent>(Interrupted(r.positive - 1))).current == PActive
  {
    var k := r.positive - 1;
    var es, selfs := Interrupted(k), seq(k, _ => IcmpSelf);
    WaitCountsSelf(r, k);
    assert Events<ProberLabel, ProbeEvent>(es)[..k + 1] == Events<ProberLabel, ProbeEvent>(selfs + [IcmpUnknown]);
    assert Events<ProberLabel, ProbeEvent>(selfs + [IcmpUnknown])[..k] == Events<ProberLabel, ProbeEvent>(selfs);
    assert RunMachine(Machine(PWait, NO_COUNTS), r, Events<ProberLabel, ProbeEvent>(es)[..k + 1]) == Machine(PWait, Counts(k, 0, 1));
  }

  lemma SpecificationDoesNot(r: Rules)
    requires r.cable.ActiveActiveCable? && 2 <= r.positive && 2 <= r.negative
    ensures LabelOf(RunPolicy(r), PWait, Interrupted(r.positive - 1)) == PWait
  {
    var k := r.positive - 1;
    var es, selfs := Interrupted(k), seq(k, _ => IcmpSelf);
    assert es[..k + 1] == selfs + [IcmpUnknown];
    assert (selfs + [IcmpUnknown])[..k] == selfs;
    ShortRunsKeepEntry(RunPolicy(r), PWait, selfs);
    assert es[k - 1] == IcmpSelf && es[k] == IcmpUnknown && es[k + 1] == IcmpSelf;
  }

  /** In Wait the self count survives a lost heartbeat: P heartbeats that are not consecutive reach Active. */
  lemma WaitForgivesLoss(r: Rules)
    requires r.cable.ActiveActiveCable? && !r.hardware && 2 <= r.positive <= 255 && 2 <= r.negative
    ensures RunMachine(Machine(PWait, NO_COUNTS), r, Events<ProberLabel, ProbeEvent>(Interrupted(r.positive - 1))).current == PActive
    ensures LabelOf(RunPolicy(r), PWait, Interrupted(r.positive - 1)) == PWait
  {
    MachineForgives(r);
    SpecificationDoesNot(r);
  }

  lemma ForgivenessShows(r: Rules)
    requires r.cable.ActiveActiveCable? && !r.hardware && 2 <= r.positive <= 255 && 2 <= r.negative
    ensures !MeetsRunSpec(r)
  {
    hide RunMachine, LabelOf, RunPolicy;
    WaitForgivesLoss(r);
    RememberedEvents(RunPolicy(r), PWait, Interrupted(r.positive - 1));
    assert forall op :: op in Events<ProberLabel, ProbeEvent>(Interrupted(r.positive - 1)) ==> SoftwareOp(r.cable, op);
  }

  /**
   Active-active: the prober meets the run specification exactly when, within the counters' range, one of
   the two retry counts is at most one; otherwise the self count kept in Wait makes it show Active early.
   */
  lemma ActiveActiveMeetsRunSpecExactly(r: Rules)
    requires r.cable.ActiveActiveCable? && !r.hardware
    ensures MeetsRunSpec(r) <==> r.positive <= 255 && r.negative <= 255 && SingleShot(r)
  {
    if r.positive > 255 {
      WideThresholdFails(PUnknown, r, IcmpSelf);
    } else if r.negative > 255 {
      WideThresholdFails(PActive, r, IcmpUnknown);
    } else if SingleShot(r) {
      forall l: ProberLabel, ops: seq<ProberOp> | l != PStandby && forall op :: op in ops ==> SoftwareOp(r.cable, op)
        ensures var h := Remembered(RunPolicy(r), l, ops);
                RunMachine(Machine(l, NO_COUNTS), r, ops).current == LabelOf(RunPolicy(r), h.entry, h.events)
      {
        ShowsLastRun(l, r, ops);
      }
    } else {
      ForgivenessShows(r);
    }
  }

  // ----- the peer prober -----

  function PeerTargetOf(e: PeerProbeEvent): PeerLabel {
    match e
    case IcmpPeerActive => PeerActive
    case IcmpPeerUnknown => PeerUnknown
    case IcmpHwPeerActive => PeerActive
    case IcmpHwPeerUnknown => PeerUnknown
    case _ => PeerWait
  }

  function PeerPolicy(r: Rules): Policy<PeerLabel, PeerProbeEvent> {
    Policy((e: PeerProbeEvent) => PeerTargetOf(e),
           (e: PeerProbeEvent) => if PeerTargetOf(e) == PeerActive then r.positive else r.negative,
           (l: PeerLabel, e: PeerProbeEvent) => true)
  }

  type PeerOp = Op<PeerLabel, PeerProbeEvent>

  function RunPeer(m: PeerMachine, r: Rules, ops: seq<PeerOp>): PeerMachine {
    if ops == [] then m
    else
      var before := RunPeer(m, r, ops[..|ops| - 1]);
      match ops[|ops| - 1]
      case Event(e) => PeerHandled(before, e, r)
      case Forced(l) => PeerEntered(before, l)
  }

  predicate SoftwarePeerOp(op: PeerOp) {
    op.Event? ==> op.event == IcmpPeerActive || op.event == IcmpPeerUnknown
  }

  predicate OnePeerStreak(m: PeerMachine) {
    && (m.counts.active != 0 ==> m.counts.unknown == 0 && m.current != PeerActive)
    && (m.counts.unknown != 0 ==> m.current != PeerUnknown)
  }

  ghost function AbstractPeer(m: PeerMachine): Debouncer<PeerLabel, PeerProbeEvent> {
    Debouncer(m.current,
              if m.counts.active != 0 then Streak(IcmpPeerActive, m.counts.active)
              else if m.counts.unknown != 0 then Streak(IcmpPeerUnknown, m.counts.unknown)
              else NoStreak)
  }

  lemma PeerOpAbstracts(m: PeerMachine, r: Rules, op: PeerOp)
    requires OnePeerStreak(m) && SoftwarePeerOp(op)
    ensures var m' := if op.Event? then PeerHandled(m, op.event, r) else PeerEntered(m, op.forced);
            && OnePeerStreak(m')
            && AbstractPeer(m') == if op.Event? then Step(PeerPolicy(r), AbstractPeer(m), op.event) else Force(AbstractPeer(m), op.forced)
  {
  }

  lemma {:induction false} RunPeerAbstracts(l: PeerLabel, r: Rules, ops: seq<PeerOp>)
    requires forall op :: op in ops ==> SoftwarePeerOp(op)
    ensures OnePeerStreak(RunPeer(PeerMachine(l, NO_PEER_COUNTS), r, ops))
    ensures AbstractPeer(RunPeer(PeerMachine(l, NO_PEER_COUNTS), r, ops)) == RunOps(PeerPolicy(r), l, ops)
  {
    if ops != [] {
      var init, op := ops[..|ops| - 1], ops[|ops| - 1];
      assert op in ops;
      forall o | o in init ensures o in ops {}
      RunPeerAbstracts(l, r, init);
      PeerOpAbstracts(RunPeer(PeerMachine(l, NO_PEER_COUNTS), r, init), r, op);
    }
  }

  /** The peer prober shows the label of the last long-enough run for every trace. */
  lemma PeerShowsLastRun(l: PeerLabel, r: Rules, ops: seq<PeerOp>)
    requires r.positive <= 255 && r.negative <= 255
    requires forall op :: op in ops ==> SoftwarePeerOp(op)
    ensures var h := Remembered(PeerPolicy(r), l, ops);
            RunPeer(PeerMachine(l, NO_PEER_COUNTS), r, ops).current == LabelOf(PeerPolicy(r), h.entry, h.events)
  {
    RunPeerAbstracts(l, r, ops);
    RefinesOps(PeerPolicy(r), l, ops);
  }

  /** After every trace of software events and forced labels the specified peer label is shown. */
  ghost predicate PeerMeetsRunSpec(r: Rules) {
    forall l: PeerLabel, ops: seq<PeerOp> :: (forall op :: op in ops ==> SoftwarePeerOp(op)) ==>
      var h := Remembered(PeerPolicy(r), l, ops);
      RunPeer(PeerMachine(l, NO_PEER_COUNTS), r, ops).current == LabelOf(PeerPolicy(r), h.entry, h.events)
  }

  lemma WidePeerThresholdFails(r: Rules, e: PeerProbeEvent)
    requires PeerPolicy(r).threshold(e) > 255 && (e == IcmpPeerActive || e == IcmpPeerUnknown)
    ensures !PeerMeetsRunSpec(r)
  {
    var p := PeerPolicy(r);
    var ops := Events<PeerLabel, PeerProbeEvent>(seq(p.threshold(e), _ => e));
    LongRunIsMissed(p, PeerWait, e);
    RunPeerAbstracts(PeerWait, r, ops);
  }

  /** The peer prober meets the run specification exactly for the retry counts that the 8-bit counters can reach. */
  lemma PeerMeetsRunSpecExactly(r: Rules)
    ensures PeerMeetsRunSpec(r) <==> r.positive <= 255 && r.negative <= 255
  {
    if r.positive > 255 {
      WidePeerThresholdFails(r, IcmpPeerActive);
    } else if r.negative > 255 {
      WidePeerThresholdFails(r, IcmpPeerUnknown);
    } else {
      forall l: PeerLabel, ops: seq<PeerOp> | forall op :: op in ops ==> SoftwarePeerOp(op)
        ensures var h := Remembered(PeerPolicy(r), l, ops);
                RunPeer(PeerMachine(l, NO_PEER_COUNTS), r, ops).current == LabelOf(PeerPolicy(r), h.entry, h.events)
      {
        PeerShowsLastRun(l, r, ops);
      }
    }
  }
}
