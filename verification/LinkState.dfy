/** The link sub-machine (`src/link_state`). */
module LinkState {
  import opened Labels
  import opened Strand
  import opened Debounce

  /** The current label and its counter: down events while up, up events while down. */
  datatype Machine = Machine(current: LinkLabel, count: uint8)

  function TargetOf(e: LinkEvent): LinkLabel {
    match e
    case UpEvent => LUp
    case DownEvent => LDown
  }

  function Entered(m: Machine, l: LinkLabel): Machine {
    if m.current == l then m else Machine(l, 0)
  }

  function Handled(m: Machine, e: LinkEvent, retry: uint32): Machine {
    if TargetOf(e) == m.current then Machine(m.current, 0)
    else if Inc8(m.count) >= retry then Machine(TargetOf(e), 0)
    else Machine(m.current, Inc8(m.count))
  }

  function Posted(m: Machine, m': Machine): seq<Message> {
    if m'.current != m.current then [LinkChange(m'.current)] else []
  }

  class LinkStateMachine {
    const strand: Strand
    const retry: uint32
    var current: LinkLabel
    var downEventCount: uint8  // of the up state
    var upEventCount: uint8    // of the down state

    ghost function View(): Machine
      reads this
    {
      Machine(current, if current == LUp then downEventCount else upEventCount)
    }

    constructor (strand: Strand, retry: uint32, l: LinkLabel)
      ensures this.strand == strand && this.retry == retry
      ensures View() == Machine(l, 0)
    {
      this.strand, this.retry := strand, retry;
      current, downEventCount, upEventCount := l, 0, 0;
    }

    method SetCurrentState(l: LinkLabel)
      modifies this
      ensures View() == Entered(old(View()), l)
    {
      if current != l {
        current := l;
        match l {
          case LUp => downEventCount := 0;
          case LDown => upEventCount := 0;
        }
      }
    }

    method EnterState(l: LinkLabel)
      modifies this
      ensures View() == Entered(old(View()), l)
    {
      SetCurrentState(l);
    }

    /** `LinkState::handleEvent` of the current state: counts the event and names the next state. */
    method HandleEvent(e: LinkEvent) returns (next: LinkLabel)
      modifies this`downEventCount, this`upEventCount
      ensures TargetOf(e) == current ==> next == current && View() == Machine(current, 0)
      ensures TargetOf(e) != current ==> View() == Machine(current, Inc8(old(View()).count))
      ensures next != current <==> TargetOf(e) != current && View().count >= retry
    {
      match current {
        case LUp =>
          if e == UpEvent {
            downEventCount := 0;
            return LUp;
          }
          downEventCount := Inc8(downEventCount);
          next := if downEventCount >= retry then LDown else LUp;
        case LDown =>
          if e == DownEvent {
            upEventCount := 0;
            return LDown;
          }
          upEventCount := Inc8(upEventCount);
          next := if upEventCount >= retry then LUp else LDown;
      }
    }

    method ProcessEvent(e: LinkEvent)
      modifies this, strand
      ensures View() == Handled(old(View()), e, retry)
      ensures strand.queue == old(strand.queue) + Posted(old(View()), View())
    {
      var next := HandleEvent(e);
      if next != current {
        strand.Post(LinkChange(next));
      }
      SetCurrentState(next);
    }
  }

  // ----- refinement of the run specification -----

  function RunPolicy(retry: uint32): Policy<LinkLabel, LinkEvent> {
    Policy((e: LinkEvent) => TargetOf(e), (e: LinkEvent) => retry, (l: LinkLabel, e: LinkEvent) => true)
  }

  ghost function Abstract(m: Machine): Debouncer<LinkLabel, LinkEvent> {
    Debouncer(m.current,
              if m.count == 0 then NoStreak else Streak(if m.current == LUp then DownEvent else UpEvent, m.count))
  }

  function RunMachine(m: Machine, retry: uint32, ops: seq<Op<LinkLabel, LinkEvent>>): Machine {
    if ops == [] then m
    else
      var before := RunMachine(m, retry, ops[..|ops| - 1]);
      match ops[|ops| - 1]
      case Event(e) => Handled(before, e, retry)
      case Forced(l) => Entered(before, l)
  }

  lemma {:induction false} RunAbstracts(l: LinkLabel, retry: uint32, ops: seq<Op<LinkLabel, LinkEvent>>)
    ensures Abstract(RunMachine(Machine(l, 0), retry, ops)) == RunOps(RunPolicy(retry), l, ops)
  {
    if ops != [] {
      RunAbstracts(l, retry, ops[..|ops| - 1]);
      match ops[|ops| - 1]
      case Event(e) =>
      case Forced(f) =>
    }
  }

  /** The link shows the side that last reported `retry` times in a row since the last restart. */
  lemma ShowsLastRun(l: LinkLabel, retry: uint32, ops: seq<Op<LinkLabel, LinkEvent>>)
    requires retry <= 255
    ensures var h := Remembered(RunPolicy(retry), l, ops);
            RunMachine(Machine(l, 0), retry, ops).current == LabelOf(RunPolicy(retry), h.entry, h.events)
  {
    RunAbstracts(l, retry, ops);
    RefinesOps(RunPolicy(retry), l, ops);
  }

  ghost predicate MeetsRunSpec(retry: uint32) {
    forall l: LinkLabel, ops: seq<Op<LinkLabel, LinkEvent>> ::
      var h := Remembered(RunPolicy(retry), l, ops);
      RunMachine(Machine(l, 0), retry, ops).current == LabelOf(RunPolicy(retry), h.entry, h.events)
  }

  /** The run specification is met exactly by the retry counts that the 8-bit counters can reach. */
  lemma MeetsRunSpecExactly(retry: uint32)
    ensures MeetsRunSpec(retry) <==> retry <= 255
  {
    if retry <= 255 {
      forall l: LinkLabel, ops: seq<Op<LinkLabel, LinkEvent>>
        ensures var h := Remembered(RunPolicy(retry), l, ops);
                RunMachine(Machine(l, 0), retry, ops).current == LabelOf(RunPolicy(retry), h.entry, h.events)
      {
        ShowsLastRun(l, retry, ops);
      }
    } else {
      LongRunIsMissed(RunPolicy(retry), LDown, UpEvent);
      RunAbstracts(LDown, retry, Events(seq(retry, _ => UpEvent)));
    }
  }
}
