/** The link prober sub-machine and, on active-active cables, the peer prober beside it (`src/link_prober`). */
module LinkProberState {
  import opened Labels
  import opened Strand

  /** The current state's event counters. */
  datatype Counts = Counts(self: uint8, peer: uint8, unknown: uint8)

  const NO_COUNTS := Counts(0, 0, 0)

  datatype Machine = Machine(current: ProberLabel, counts: Counts)

  /** What decides how the states count: the retry counts, the cable and the prober type. */
  datatype Rules = Rules(positive: uint32, negative: uint32, cable: CableType, hardware: bool)

  /** The next label together with the counters that the handling state is left with. */
  function Handling(m: Machine, e: ProbeEvent, r: Rules): (ProberLabel, Counts) {
    var c := m.counts;
    match (m.current, e)
    case (PActive, IcmpSelf) => (PActive, NO_COUNTS)
    case (PActive, IcmpHwSelf) => (PActive, NO_COUNTS)
    case (PActive, IcmpPeer) =>
      var c' := c.(unknown := 0, peer := Inc8(c.peer));
      (if c'.peer >= r.positive then PStandby else PActive, c')
    case (PActive, IcmpUnknown) =>
      var c' := c.(peer := 0, unknown := Inc8(c.unknown));
      (if c'.unknown >= r.negative then PUnknown else PActive, c')
    case (PActive, IcmpHwPeer) => (PStandby, c.(unknown := 0))
    case (PActive, IcmpHwUnknown) => (PUnknown, c.(peer := 0))
    case (PActive, _) => (PWait, c)

    case (PStandby, IcmpPeer) => (PStandby, NO_COUNTS)
    case (PStandby, IcmpHwPeer) => (PStandby, NO_COUNTS)
    case (PStandby, IcmpSelf) =>
      var c' := c.(unknown := 0, self := Inc8(c.self));
      (if c'.self >= r.positive then PActive else PStandby, c')
    case (PStandby, IcmpHwSelf) => (PActive, c.(unknown := 0))
    case (PStandby, IcmpUnknown) =>
      var c' := c.(self := 0, unknown := Inc8(c.unknown));
      (if c'.unknown >= r.negative then PUnknown else PStandby, c')
    case (PStandby, IcmpHwUnknown) => (PUnknown, c.(self := 0))
    case (PStandby, _) => (PStandby, c)  // an event that the state cannot handle

    case (PUnknown, IcmpUnknown) => (PUnknown, NO_COUNTS)
    case (PUnknown, IcmpHwUnknown) => (PUnknown, NO_COUNTS)
    case (PUnknown, IcmpSelf) =>
      var c' := c.(peer := 0, self := Inc8(c.self));
      (if c'.self >= r.positive then PActive else PUnknown, c')
    case (PUnknown, IcmpHwSelf) => (PActive, c.(peer := 0))
    case (PUnknown, IcmpPeer) =>
      var c' := c.(self := 0, peer := Inc8(c.peer));
      (if c'.peer >= r.positive then PStandby else PUnknown, c')
    case (PUnknown, IcmpHwPeer) => (PStandby, c.(self := 0))
    case (PUnknown, _) => (PWait, c)

    case (PWait, IcmpSelf) =>
      var c' := c.(peer := 0, unknown := 0, self := Inc8(c.self));
      (if c'.self >= r.positive then PActive else PWait, c')
    case (PWait, IcmpHwSelf) => (PActive, c.(peer := 0, unknown := 0))
    case (PWait, IcmpPeer) =>
      var c' := c.(self := 0, unknown := 0, peer := Inc8(c.peer));
      (if c'.peer >= r.positive then PStandby else PWait, c')
    case (PWait, IcmpUnknown) =>
      if r.cable.ActiveStandbyCable? then (PWait, NO_COUNTS)
      else if r.hardware then (PUnknown, c)
      else
        // the self count survives
        var c' := c.(unknown := Inc8(c.unknown));
        (if c'.unknown >= r.negative then PUnknown else PWait, c')
    case (PWait, IcmpHwPeer) => (PStandby, c.(self := 0, unknown := 0))
    case (PWait, IcmpHwUnknown) =>
      if r.cable.ActiveStandbyCable? then (PWait, NO_COUNTS) else (PUnknown, c)
    case (PWait, _) => (PWait, c)  // an event that the state cannot handle
  }

  function Handled(m: Machine, e: ProbeEvent, r: Rules): Machine {
    var (next, c) := Handling(m, e, r);
    if next == m.current then Machine(next, c) else Machine(next, NO_COUNTS)
  }

  /** Forcing a label; an active-active prober has no standby state and ignores that request. */
  function Entered(m: Machine, l: ProberLabel, cable: CableType): Machine {
    if m.current == l || (cable.ActiveActiveCable? && l == PStandby) then m else Machine(l, NO_COUNTS)
  }

  function Cleared(m: Machine): Machine {
    Machine(m.current, NO_COUNTS)
  }

  function Posted(m: Machine, m': Machine): seq<Message> {
    if m'.current != m.current then [ProberChange(m'.current)] else []
  }

  // ----- the peer prober -----

  datatype PeerCounts = PeerCounts(active: uint8, unknown: uint8)

  const NO_PEER_COUNTS := PeerCounts(0, 0)

  datatype PeerMachine = PeerMachine(current: PeerLabel, counts: PeerCounts)

  function PeerHandling(m: PeerMachine, e: PeerProbeEvent, r: Rules): (PeerLabel, PeerCounts) {
    var c := m.counts;
    match e
    case IcmpPeerActive =>
      if m.current == PeerActive then (PeerActive, NO_PEER_COUNTS)
      else
        var c' := PeerCounts(Inc8(c.active), 0);
        (if c'.active >= r.positive then PeerActive else m.current, c')
    case IcmpPeerUnknown =>
      if m.current == PeerUnknown then (PeerUnknown, NO_PEER_COUNTS)
      else
        var c' := PeerCounts(0, Inc8(c.unknown));
        (if c'.unknown >= r.negative then PeerUnknown else m.current, c')
    case IcmpHwPeerActive => (PeerActive, NO_PEER_COUNTS)
    case IcmpHwPeerUnknown => (PeerUnknown, NO_PEER_COUNTS)
    case _ => (PeerWait, c)  // in Wait, an event that the state cannot handle
  }

  /** The machine hands the peer's wait events to the state of the own prober, none of which can handle them. */
  predicate Misdirected(e: PeerProbeEvent) {
    e == IcmpPeerWait || e == IcmpHwPeerWait
  }

  function PeerHandled(m: PeerMachine, e: PeerProbeEvent, r: Rules): PeerMachine {
    var (next, c) := PeerHandling(m, e, r);
    if Misdirected(e) then m
    else if next == m.current then PeerMachine(next, c)
    else PeerMachine(next, NO_PEER_COUNTS)
  }

  function PeerEntered(m: PeerMachine, l: PeerLabel): PeerMachine {
    if m.current == l then m else PeerMachine(l, NO_PEER_COUNTS)
  }

  function PeerPosted(m: PeerMachine, m': PeerMachine): seq<Message> {
    if m'.current != m.current then [PeerChange(m'.current)] else []
  }

  class LinkProberStateMachine {
    const strand: Strand
    const rules: Rules
    var current: ProberLabel
    var counts: map<ProberLabel, Counts>
    var currentPeer: PeerLabel
    var peerCounts: map<PeerLabel, PeerCounts>

    ghost predicate Valid()
      reads this
    {
      && PActive in counts && PStandby in counts && PUnknown in counts && PWait in counts
      && current in counts
      && PeerActive in peerCounts && PeerUnknown in peerCounts && PeerWait in peerCounts
      && currentPeer in peerCounts
    }

    ghost function View(): Machine
      requires Valid()
      reads this
    {
      Machine(current, counts[current])
    }

    ghost function PeerView(): PeerMachine
      requires Valid()
      reads this
    {
      PeerMachine(currentPeer, peerCounts[currentPeer])
    }

    constructor (strand: Strand, rules: Rules, l: ProberLabel)
      ensures Valid() && this.strand == strand && this.rules == rules
      ensures View() == Machine(l, NO_COUNTS)
      ensures PeerView() == PeerMachine(PeerWait, NO_PEER_COUNTS)
    {
      this.strand, this.rules := strand, rules;
      current := l;
      counts := map[PActive := NO_COUNTS, PStandby := NO_COUNTS, PUnknown := NO_COUNTS, PWait := NO_COUNTS];
      currentPeer := PeerWait;
      peerCounts := map[PeerActive := NO_PEER_COUNTS, PeerUnknown := NO_PEER_COUNTS, PeerWait := NO_PEER_COUNTS];
    }

    method SetCurrentState(l: ProberLabel)
      requires Valid()
      modifies this
      ensures Valid() && PeerView() == old(PeerView())
      ensures View() == if l == old(current) then old(View()) else Machine(l, NO_COUNTS)
    {
      if current != l {
        current := l;
        counts := counts[l := NO_COUNTS];
      }
    }

    method EnterState(l: ProberLabel)
      requires Valid()
      modifies this
      ensures Valid() && PeerView() == old(PeerView())
      ensures View() == Entered(old(View()), l, rules.cable)
    {
      match rules.cable {
        case ActiveStandbyCable => SetCurrentState(l);
        case ActiveActiveCable =>
          if l != PStandby {
            SetCurrentState(l);
          }
      }
    }

    method ResetCurrentState()
      requires Valid()
      modifies this
      ensures Valid() && PeerView() == old(PeerView())
      ensures View() == Cleared(old(View()))
    {
      counts := counts[current := NO_COUNTS];
    }

    /** `ActiveState::handleEvent` */
    method ActiveHandleEvent(e: ProbeEvent) returns (next: ProberLabel)
      requires Valid() && current == PActive
      modifies this`counts
      ensures Valid() && (next, counts[current]) == Handling(old(View()), e, rules)
    {
      var c := counts[PActive];
      next := PActive;
      match e {
        case IcmpPeer =>
          c := c.(unknown := 0);
          c := c.(peer := Inc8(c.peer));
          if c.peer >= rules.positive {
            next := PStandby;
          }
        case IcmpSelf =>
          c := NO_COUNTS;
        case IcmpUnknown =>
          c := c.(peer := 0);
          c := c.(unknown := Inc8(c.unknown));
          if c.unknown >= rules.negative {
            next := PUnknown;
          }
        case IcmpHwSelf =>
          c := NO_COUNTS;
        case IcmpHwPeer =>
          c := c.(unknown := 0);
          next := PStandby;
        case IcmpHwUnknown =>
          c := c.(peer := 0);
          next := PUnknown;
        case IcmpWait => next := PWait;
        case IcmpHwWait => next := PWait;
      }
      counts := counts[PActive := c];
    }

    /** `StandbyState::handleEvent` */
    method StandbyHandleEvent(e: ProbeEvent) returns (next: ProberLabel)
      requires Valid() && current == PStandby
      modifies this`counts
      ensures Valid() && (next, counts[current]) == Handling(old(View()), e, rules)
    {
      var c := counts[PStandby];
      next := PStandby;
      match e {
        case IcmpPeer =>
          c := NO_COUNTS;
        case IcmpHwPeer =>
          c := NO_COUNTS;
        case IcmpWait =>
        case IcmpHwWait =>
        case IcmpSelf =>
          c := c.(unknown := 0);
          c := c.(self := Inc8(c.self));
          if c.self >= rules.positive {
            next := PActive;
          }
        case IcmpUnknown =>
          c := c.(self := 0);
          c := c.(unknown := Inc8(c.unknown));
          if c.unknown >= rules.negative {
            next := PUnknown;
          }
        case IcmpHwSelf =>
          c := c.(unknown := 0);
          next := PActive;
        case IcmpHwUnknown =>
          c := c.(self := 0);
          next := PUnknown;
      }
      counts := counts[PStandby := c];
    }

    /** `UnknownState::handleEvent` */
    method UnknownHandleEvent(e: ProbeEvent) returns (next: ProberLabel)
      requires Valid() && current == PUnknown
      modifies this`counts
      ensures Valid() && (next, counts[current]) == Handling(old(View()), e, rules)
    {
      var c := counts[PUnknown];
      next := PUnknown;
      match e {
        case IcmpPeer =>
          c := c.(self := 0);
          c := c.(peer := Inc8(c.peer));
          if c.peer >= rules.positive {
            next := PStandby;
          }
        case IcmpSelf =>
          c := c.(peer := 0);
          c := c.(self := Inc8(c.self));
          if c.self >= rules.positive {
            next := PActive;
          }
        case IcmpUnknown =>
          c := NO_COUNTS;
        case IcmpHwSelf =>
          c := c.(peer := 0);
          next := PActive;
        case IcmpHwPeer =>
          c := c.(self := 0);
          next := PStandby;
        case IcmpHwUnknown =>
          c := NO_COUNTS;
        case IcmpWait => next := PWait;
        case IcmpHwWait => next := PWait;
      }
      counts := counts[PUnknown := c];
    }

    /** `WaitState::handleEvent`: what an unknown event does depends on the cable and the prober type. */
    method WaitHandleEvent(e: ProbeEvent) returns (next: ProberLabel)
      requires Valid() && current == PWait
      modifies this`counts
      ensures Valid() && (next, counts[current]) == Handling(old(View()), e, rules)
    {
      var c := counts[PWait];
      next := PWait;
      match e {
        case IcmpPeer =>
          c := c.(self := 0, unknown := 0);
          c := c.(peer := Inc8(c.peer));
          if c.peer >= rules.positive {
            next := PStandby;
          }
        case IcmpSelf =>
          c := c.(peer := 0, unknown := 0);
          c := c.(self := Inc8(c.self));
          if c.self >= rules.positive {
            next := PActive;
          }
        case IcmpUnknown =>
          match rules.cable {
            case ActiveActiveCable =>
              if rules.hardware {
                return PUnknown;
              }
              c := c.(unknown := Inc8(c.unknown));
              if c.unknown >= rules.negative {
                next := PUnknown;
              }
            case ActiveStandbyCable =>
              c := NO_COUNTS;
          }
        case IcmpHwSelf =>
          c := c.(peer := 0, unknown := 0);
          next := PActive;
        case IcmpHwPeer =>
          c := c.(self := 0, unknown := 0);
          next := PStandby;
        case IcmpWait =>
        case IcmpHwWait =>
        case IcmpHwUnknown =>
          match rules.cable {
            case ActiveActiveCable => next := PUnknown;
            case ActiveStandbyCable => c := NO_COUNTS;
          }
      }
      counts := counts[PWait := c];
    }

    method ProcessEvent(e: ProbeEvent)
      requires Valid()
      modifies this, strand
      ensures Valid() && PeerView() == old(PeerView())
      ensures View() == Handled(old(View()), e, rules)
      ensures strand.queue == old(strand.queue) + Posted(old(View()), View())
    {
      var next: ProberLabel;
      match current {
        case PActive => next := ActiveHandleEvent(e);
        case PStandby => next := StandbyHandleEvent(e);
        case PUnknown => next := UnknownHandleEvent(e);
        case PWait => next := WaitHandleEvent(e);
      }
      if next != current {
        strand.Post(ProberChange(next));
      }
      SetCurrentState(next);
    }

    method SetCurrentPeerState(l: PeerLabel)
      requires Valid()
      modifies this
      ensures Valid() && View() == old(View())
      ensures PeerView() == PeerEntered(old(PeerView()), l)
    {
      if currentPeer != l {
        currentPeer := l;
        peerCounts := peerCounts[l := NO_PEER_COUNTS];
      }
    }

    method EnterPeerState(l: PeerLabel)
      requires Valid()
      modifies this
      ensures Valid() && View() == old(View())
      ensures PeerView() == PeerEntered(old(PeerView()), l)
    {
      SetCurrentPeerState(l);
    }

    /** `handleEvent` of the current one of the three peer states. */
    method HandlePeerEvent(e: PeerProbeEvent) returns (next: PeerLabel)
      requires Valid()
      modifies this`peerCounts
      ensures Valid() && (next, peerCounts[currentPeer]) == PeerHandling(old(PeerView()), e, rules)
    {
      var c := peerCounts[currentPeer];
      next := currentPeer;
      match e {
        case IcmpPeerActive =>
          if currentPeer == PeerActive {
            c := NO_PEER_COUNTS;
          } else {
            c := c.(unknown := 0);
            c := c.(active := Inc8(c.active));
            if c.active >= rules.positive {
              next := PeerActive;
            }
          }
        case IcmpPeerUnknown =>
          if currentPeer == PeerUnknown {
            c := NO_PEER_COUNTS;
          } else {
            c := c.(active := 0);
            c := c.(unknown := Inc8(c.unknown));
            if c.unknown >= rules.negative {
              next := PeerUnknown;
            }
          }
        case IcmpHwPeerActive =>
          c := NO_PEER_COUNTS;
          next := PeerActive;
        case IcmpHwPeerUnknown =>
          c := NO_PEER_COUNTS;
          next := PeerUnknown;
        case _ => next := PeerWait;
      }
      peerCounts := peerCounts[currentPeer := c];
    }

    method ProcessPeerEvent(e: PeerProbeEvent)
      requires Valid()
      modifies this, strand
      ensures Valid() && View() == old(View())
      ensures PeerView() == PeerHandled(old(PeerView()), e, rules)
      ensures strand.queue == old(strand.queue) + PeerPosted(old(PeerView()), PeerView())
    {
      if Misdirected(e) {
        return;
      }
      var next := HandlePeerEvent(e);
      if next != currentPeer {
        strand.Post(PeerChange(next));
      }
      SetCurrentPeerState(next);
    }
  }
}
