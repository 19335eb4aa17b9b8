/**
 What each sub-machine shows after one event, said by its label, the counter of that event and the retry count;
 and, for the hardware prober, what it shows after every trace.
 */
module EventRules {
  import opened Labels
  import opened Strand
  import opened Debounce
  import opened LinkProberDebounce
  import LinkProberState
  import MuxState
  import LinkState

  // ----- mux and link -----

  /** The label that an event reports. */
  function ReportedMux(e: MuxEvent): MuxLabel {
    if e == ActiveEvent then MActive
    else if e == StandbyEvent then MStandby
    else if e == UnknownEvent then MUnknown
    else MError
  }

  function MuxCount(c: MuxState.Counts, l: MuxLabel): nat {
    if l == MActive then c.active
    else if l == MStandby then c.standby
    else if l == MUnknown then c.unknown
    else c.error
  }

  /** Another label than the one shown has to be reported often enough in a row, counted in 8 bits. */
  function MuxAfter(m: MuxState.Machine, e: MuxEvent, retry: uint32): MuxLabel {
    if (MuxCount(m.counts, ReportedMux(e)) + 1) % 0x100 >= retry then ReportedMux(e) else m.current
  }

  /** One label has been reported `n` times in a row. */
  function Only(l: MuxLabel, n: uint8): MuxState.Counts {
    MuxState.Counts(if l == MActive then n else 0, if l == MStandby then n else 0,
                    if l == MUnknown then n else 0, if l == MError then n else 0)
  }

  /** An event for another label counts for that label alone; one for the label shown ends every count. */
  lemma MuxEventIsCounted(m: MuxState.Machine, e: MuxEvent, retry: uint32)
    ensures var m', l := MuxState.Handled(m, e, retry), ReportedMux(e);
            && m'.current == MuxAfter(m, e, retry)
            && m'.counts == (if m'.current == l then Only(l, 0) else Only(l, (MuxCount(m.counts, l) + 1) % 0x100))
            && m'.swssCause == m.swssCause && m'.driverCause == m.driverCause && m'.lastCause == m.lastCause
  {
  }

  function ReportedLink(e: LinkEvent): LinkLabel {
    if e == UpEvent then LUp else LDown
  }

  function LinkAfter(m: LinkState.Machine, e: LinkEvent, retry: uint32): LinkLabel {
    if m.current == ReportedLink(e) || (m.count + 1) % 0x100 >= retry then ReportedLink(e) else m.current
  }

  lemma LinkEventIsCounted(m: LinkState.Machine, e: LinkEvent, retry: uint32)
    ensures var m' := LinkState.Handled(m, e, retry);
            && m'.current == LinkAfter(m, e, retry)
            && m'.count == if m'.current == m.current != ReportedLink(e) then (m.count + 1) % 0x100 else 0
  {
  }

  // ----- the prober -----

  predicate FromHardware(e: ProbeEvent) {
    e == IcmpHwSelf || e == IcmpHwPeer || e == IcmpHwUnknown
  }

  predicate IsWait(e: ProbeEvent) {
    e == IcmpWait || e == IcmpHwWait
  }

  function ProberCount(c: LinkProberState.Counts, l: ProberLabel): nat {
    if l == PActive then c.self else if l == PStandby then c.peer else c.unknown
  }

  /**
   A wait event takes a prober that was active or lost to Wait. On an active-standby cable a waiting prober does
   not listen to losses. Apart from that the hardware decides at once, and so does a loss that a hardware prober
   reports while it waits on an active-active cable; heartbeats of the software prober are counted in 8 bits.
   */
  function ProberAfter(m: LinkProberState.Machine, e: ProbeEvent, r: LinkProberState.Rules): ProberLabel {
    if IsWait(e) then (if m.current == PActive || m.current == PUnknown then PWait else m.current)
    else if r.cable == ActiveStandbyCable && m.current == PWait && TargetOf(e) == PUnknown then PWait
    else if FromHardware(e) then TargetOf(e)
    else if r.hardware && m.current == PWait && e == IcmpUnknown then PUnknown
    else if (ProberCount(m.counts, TargetOf(e)) + 1) % 0x100 >= (if e == IcmpUnknown then r.negative else r.positive) then
      TargetOf(e)
    else m.current
  }

  lemma ProberEventShows(m: LinkProberState.Machine, e: ProbeEvent, r: LinkProberState.Rules)
    ensures LinkProberState.Handled(m, e, r).current == ProberAfter(m, e, r)
  {
  }

  // ----- hardware probing -----

  /**
   Whatever came before, heartbeats of either prober and forced labels alike: an event of the hardware prober
   leaves the label that it reports, but for a loss while an active-standby prober waits, which leaves it waiting.
   */
  lemma HardwareDecides(l: ProberLabel, r: LinkProberState.Rules, ops: seq<ProberOp>, e: ProbeEvent)
    requires FromHardware(e)
    ensures var before := RunMachine(LinkProberState.Machine(l, LinkProberState.NO_COUNTS), r, ops).current;
            RunMachine(LinkProberState.Machine(l, LinkProberState.NO_COUNTS), r, ops + [Event(e)]).current ==
              if r.cable == ActiveStandbyCable && before == PWait && e == IcmpHwUnknown then PWait
              else if e == IcmpHwSelf then PActive
              else if e == IcmpHwPeer then PStandby
              else PUnknown
  {
    hide LinkProberState.Handled;
    var m := LinkProberState.Machine(l, LinkProberState.NO_COUNTS);
    assert (ops + [Event(e)])[..|ops + [Event(e)]| - 1] == ops;
    ProberEventShows(RunMachine(m, r, ops), e, r);
  }

  /** The run specification with threshold one. */
  function HardwarePolicy(cable: CableType): Policy<ProberLabel, ProbeEvent> {
    Policy((e: ProbeEvent) => TargetOf(e),
           (e: ProbeEvent) => 1,
           (l: ProberLabel, e: ProbeEvent) =>
             if e == IcmpHwWait then l == PActive || l == PUnknown
             else !(cable == ActiveStandbyCable && l == PWait && e == IcmpHwUnknown))
  }

  predicate HardwareOp(cable: CableType, op: ProberOp) {
    match op
    case Event(e) => FromHardware(e) || e == IcmpHwWait
    case Forced(l) => cable == ActiveStandbyCable || l != PStandby
  }

  lemma {:induction false} HardwareRunAbstracts(l: ProberLabel, r: LinkProberState.Rules, ops: seq<ProberOp>)
    requires forall op :: op in ops ==> HardwareOp(r.cable, op)
    ensures RunOps(HardwarePolicy(r.cable), l, ops)
            == Debouncer(RunMachine(LinkProberState.Machine(l, LinkProberState.NO_COUNTS), r, ops).current, NoStreak)
  {
    if ops != [] {
      hide LinkProberState.Handled, ProberCount;
      var init, op := ops[..|ops| - 1], ops[|ops| - 1];
      assert op in ops;
      forall o | o in init ensures o in ops {}
      HardwareRunAbstracts(l, r, init);
      if op.Event? {
        ProberEventShows(RunMachine(LinkProberState.Machine(l, LinkProberState.NO_COUNTS), r, init), op.event, r);
      }
    }
  }

  /**
   Under hardware probing, on either cable and for every retry count, every trace of hardware events and forced
   labels shows the label of the run specification with threshold one: the last event that the label listens to.
   */
  lemma HardwareShowsLast(l: ProberLabel, r: LinkProberState.Rules, ops: seq<ProberOp>)
    requires forall op :: op in ops ==> HardwareOp(r.cable, op)
    ensures var h := Remembered(HardwarePolicy(r.cable), l, ops);
            RunMachine(LinkProberState.Machine(l, LinkProberState.NO_COUNTS), r, ops).current
            == LabelOf(HardwarePolicy(r.cable), h.entry, h.events)
  {
    HardwareRunAbstracts(l, r, ops);
    RefinesOps(HardwarePolicy(r.cable), l, ops);
  }

  // ----- the peer prober -----

  /** Losses and replies are counted in 8 bits, the hardware decides at once, and no wait event gets here. */
  function PeerAfter(m: LinkProberState.PeerMachine, e: PeerProbeEvent, r: LinkProberState.Rules): PeerLabel {
    if e == IcmpHwPeerActive then PeerActive
    else if e == IcmpHwPeerUnknown then PeerUnknown
    else if e == IcmpPeerActive && (m.counts.active + 1) % 0x100 >= r.positive then PeerActive
    else if e == IcmpPeerUnknown && (m.counts.unknown + 1) % 0x100 >= r.negative then PeerUnknown
    else m.current
  }

  lemma PeerEventShows(m: LinkProberState.PeerMachine, e: PeerProbeEvent, r: LinkProberState.Rules)
    ensures LinkProberState.PeerHandled(m, e, r).current == PeerAfter(m, e, r)
  {
  }

  /** The peer prober, after whatever trace: an event of the hardware prober leaves the label that it reports. */
  lemma HardwareDecidesPeer(l: PeerLabel, r: LinkProberState.Rules, ops: seq<PeerOp>, e: PeerProbeEvent)
    requires e == IcmpHwPeerActive || e == IcmpHwPeerUnknown
    ensures RunPeer(LinkProberState.PeerMachine(l, LinkProberState.NO_PEER_COUNTS), r, ops + [Event(e)]).current ==
              if e == IcmpHwPeerActive then PeerActive else PeerUnknown
  {
    hide LinkProberState.PeerHandled;
    var m := LinkProberState.PeerMachine(l, LinkProberState.NO_PEER_COUNTS);
    assert (ops + [Event(e)])[..|ops + [Event(e)]| - 1] == ops;
    PeerEventShows(RunPeer(m, r, ops), e, r);
  }
}
