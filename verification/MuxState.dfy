/** The mux sub-machine (`src/mux_state`). */
module MuxState {
  import opened Labels
  import opened Strand
  import opened Debounce

  /** One state's event counters; the counter of the state's own event stays zero. */
  datatype Counts = Counts(active: uint8, standby: uint8, unknown: uint8, error: uint8)

  const NO_COUNTS := Counts(0, 0, 0, 0)

  /** The current label with that state's counters, and the causes kept in the wait state. */
  datatype Machine = Machine(current: MuxLabel, counts: Counts, swssCause: bool, driverCause: bool, lastCause: WaitCause)

  function TargetOf(e: MuxEvent): MuxLabel {
    match e
    case ActiveEvent => MActive
    case StandbyEvent => MStandby
    case UnknownEvent => MUnknown
    case ErrorEvent => MError
  }

  function CountOf(c: Counts, e: MuxEvent): uint8 {
    match e
    case ActiveEvent => c.active
    case StandbyEvent => c.standby
    case UnknownEvent => c.unknown
    case ErrorEvent => c.error
  }

  /** The counters after another event `e`: the other three are cleared. */
  function Counted(c: Counts, e: MuxEvent): Counts {
    match e
    case ActiveEvent => Counts(Inc8(c.active), 0, 0, 0)
    case StandbyEvent => Counts(0, Inc8(c.standby), 0, 0)
    case UnknownEvent => Counts(0, 0, Inc8(c.unknown), 0)
    case ErrorEvent => Counts(0, 0, 0, Inc8(c.error))
  }

  function Initial(l: MuxLabel): Machine {
    Machine(l, NO_COUNTS, false, false, CauseUnknown)
  }

  function Entered(m: Machine, l: MuxLabel): Machine {
    if m.current == l then m else m.(current := l, counts := NO_COUNTS)
  }

  function Handled(m: Machine, e: MuxEvent, retry: uint32): Machine {
    if TargetOf(e) == m.current then m.(counts := NO_COUNTS)
    else
      var c := Counted(m.counts, e);
      if CountOf(c, e) >= retry then Entered(m, TargetOf(e)) else m.(counts := c)
  }

  function SetCause(m: Machine, cause: WaitCause): Machine {
    m.(lastCause := cause,
       swssCause := m.swssCause || cause == SwssUpdate,
       driverCause := m.driverCause || cause == DriverUpdate)
  }

  function ResetSwssCause(m: Machine): Machine {
    m.(swssCause := false)
  }

  /** What the sub-machine posts to the link manager when an event takes it from `m` to `m'`. */
  function Posted(m: Machine, m': Machine): seq<Message> {
    if m'.current != m.current then [MuxChange(m'.current)] else []
  }

  class MuxStateMachine {
    const strand: Strand
    const retry: uint32
    var current: MuxLabel
    var counts: map<MuxLabel, Counts>
    var swssCause: bool
    var driverCause: bool
    var lastCause: WaitCause

    ghost predicate Valid()
      reads this
    {
      && MActive in counts && MStandby in counts && MUnknown in counts && MError in counts && MWait in counts
      && current in counts
    }

    ghost function View(): Machine
      requires Valid()
      reads this
    {
      Machine(current, counts[current], swssCause, driverCause, lastCause)
    }

    constructor (strand: Strand, retry: uint32, l: MuxLabel)
      ensures Valid() && this.strand == strand && this.retry == retry
      ensures View() == Initial(l)
    {
      this.strand, this.retry := strand, retry;
      current := l;
      counts := map[MActive := NO_COUNTS, MStandby := NO_COUNTS, MUnknown := NO_COUNTS,
                    MError := NO_COUNTS, MWait := NO_COUNTS];
      swssCause, driverCause, lastCause := false, false, CauseUnknown;
    }

    /** `StateMachine::setCurrentState`: the entered state is reset only when it is another one. */
    method SetCurrentState(l: MuxLabel)
      requires Valid()
      modifies this
      ensures Valid() && View() == Entered(old(View()), l)
    {
      if current != l {
        current := l;
        counts := counts[l := NO_COUNTS];
      }
    }

    method EnterState(l: MuxLabel)
      requires Valid()
      modifies this
      ensures Valid() && View() == Entered(old(View()), l)
    {
      SetCurrentState(l);
    }

    /** `MuxState::handleEvent` of the current state: counts the event and names the next state. */
    method HandleEvent(e: MuxEvent) returns (next: MuxLabel)
      requires Valid()
      modifies this`counts
      ensures Valid()
      ensures TargetOf(e) == current ==> next == current && counts[current] == NO_COUNTS
      ensures TargetOf(e) != current ==> counts[current] == Counted(old(counts[current]), e)
      ensures next != current <==> TargetOf(e) != current && CountOf(counts[current], e) >= retry
      ensures next != current ==> next == TargetOf(e)
    {
      var c := counts[current];
      if TargetOf(e) == current {
        counts := counts[current := NO_COUNTS];
        return current;
      }
      var reached: bool;
      match e {
        case ActiveEvent =>
          c := c.(unknown := 0, standby := 0, error := 0, active := Inc8(c.active));
          reached := c.active >= retry;
        case StandbyEvent =>
          c := c.(active := 0, unknown := 0, error := 0, standby := Inc8(c.standby));
          reached := c.standby >= retry;
        case UnknownEvent =>
          c := c.(active := 0, standby := 0, error := 0, unknown := Inc8(c.unknown));
          reached := c.unknown >= retry;
        case ErrorEvent =>
          c := c.(active := 0, standby := 0, unknown := 0, error := Inc8(c.error));
          reached := c.error >= retry;
      }
      counts := counts[current := c];
      next := if reached then TargetOf(e) else current;
    }

    method ProcessEvent(e: MuxEvent)
      requires Valid()
      modifies this, strand
      ensures Valid() && View() == Handled(old(View()), e, retry)
      ensures strand.queue == old(strand.queue) + Posted(old(View()), View())
    {
      var next := HandleEvent(e);
      if next != current {
        strand.Post(MuxChange(next));
      }
      SetCurrentState(next);
    }

    method SetWaitStateCause(cause: WaitCause)
      requires Valid()
      modifies this
      ensures Valid() && View() == SetCause(old(View()), cause)
    {
      lastCause := cause;
      if cause == SwssUpdate {
        swssCause := true;
      } else if cause == DriverUpdate {
        driverCause := true;
      }
    }

    method ResetSwssUpdateCause()
      requires Valid()
      modifies this
      ensures Valid() && View() == ResetSwssCause(old(View()))
    {
      swssCause := false;
    }
  }

  // ----- refinement of the run specification -----

  function RunPolicy(retry: uint32): Policy<MuxLabel, MuxEvent> {
    Policy((e: MuxEvent) => TargetOf(e), (e: MuxEvent) => retry, (l: MuxLabel, e: MuxEvent) => true)
  }

  /** At most one counter of the current state is not zero, and it is not the one of the state's own event. */
  predicate OneStreak(m: Machine) {
    var c := m.counts;
    && (c.active != 0 ==> c.standby == 0 && c.unknown == 0 && c.error == 0 && m.current != MActive)
    && (c.standby != 0 ==> c.unknown == 0 && c.error == 0 && m.current != MStandby)
    && (c.unknown != 0 ==> c.error == 0 && m.current != MUnknown)
    && (c.error != 0 ==> m.current != MError)
  }

  ghost function Abstract(m: Machine): Debouncer<MuxLabel, MuxEvent> {
    var c := m.counts;
    Debouncer(m.current,
              if c.active != 0 then Streak(ActiveEvent, c.active)
              else if c.standby != 0 then Streak(StandbyEvent, c.standby)
              else if c.unknown != 0 then Streak(UnknownEvent, c.unknown)
              else if c.error != 0 then Streak(ErrorEvent, c.error)
              else NoStreak)
  }

  /** What the abstraction remembers is the counter of the event that comes, if that is the one that runs. */
  lemma AbstractCounts(m: Machine, e: MuxEvent)
    requires OneStreak(m)
    ensures var s := Abstract(m).streak; CountOf(m.counts, e) == if s.Streak? && s.event == e then s.count else 0
  {
  }

  lemma FreshAbstracts(m: Machine)
    ensures var m' := m.(counts := NO_COUNTS); OneStreak(m') && Abstract(m') == Debouncer(m.current, NoStreak)
  {
  }

  lemma CountedAbstracts(m: Machine, e: MuxEvent)
    ensures var m' := m.(counts := Counted(m.counts, e));
            && (TargetOf(e) != m.current ==> OneStreak(m'))
            && Abstract(m') == Debouncer(m.current, if CountOf(m'.counts, e) == 0 then NoStreak else Streak(e, CountOf(m'.counts, e)))
            && CountOf(m'.counts, e) == Inc8(CountOf(m.counts, e))
            && Abstract(m).shown == m.current
  {
    hide Inc8;
  }

  lemma HandleEventAbstracts(m: Machine, e: MuxEvent, retry: uint32)
    requires OneStreak(m)
    ensures OneStreak(Handled(m, e, retry))
    ensures Abstract(Handled(m, e, retry)) == Step(RunPolicy(retry), Abstract(m), e)
  {
    hide Counted, CountOf, OneStreak, Abstract;
    FreshAbstracts(m);
    FreshAbstracts(Entered(m, TargetOf(e)));
    AbstractCounts(m, e);
    CountedAbstracts(m, e);
  }

  /** The machine driven by events and forced labels. */
  function RunMachine(m: Machine, retry: uint32, ops: seq<Op<MuxLabel, MuxEvent>>): Machine {
    if ops == [] then m
    else
      var before := RunMachine(m, retry, ops[..|ops| - 1]);
      match ops[|ops| - 1]
      case Event(e) => Handled(before, e, retry)
      case Forced(l) => Entered(before, l)
  }

  lemma {:induction false} RunAbstracts(m: Machine, retry: uint32, ops: seq<Op<MuxLabel, MuxEvent>>)
    requires m.counts == NO_COUNTS
    ensures OneStreak(RunMachine(m, retry, ops))
    ensures Abstract(RunMachine(m, retry, ops)) == RunOps(RunPolicy(retry), m.current, ops)
  {
    if ops != [] {
      RunAbstracts(m, retry, ops[..|ops| - 1]);
      var before := RunMachine(m, retry, ops[..|ops| - 1]);
      match ops[|ops| - 1]
      case Event(e) => HandleEventAbstracts(before, e, retry);
      case Forced(l) =>
    }
  }

  /**
   For every trace of events and forced labels the shown label is that of the most recent run of
   `retry` equal events since the last restart, else the label the machine was restarted with.
   */
  lemma ShowsLastRun(m: Machine, retry: uint32, ops: seq<Op<MuxLabel, MuxEvent>>)
    requires m.counts == NO_COUNTS && retry <= 255
    ensures var h := Remembered(RunPolicy(retry), m.current, ops);
            RunMachine(m, retry, ops).current == LabelOf(RunPolicy(retry), h.entry, h.events)
  {
    RunAbstracts(m, retry, ops);
    RefinesOps(RunPolicy(retry), m.current, ops);
  }

  ghost predicate MeetsRunSpec(retry: uint32) {
    forall l: MuxLabel, ops: seq<Op<MuxLabel, MuxEvent>> ::
      var h := Remembered(RunPolicy(retry), l, ops);
      RunMachine(Initial(l), retry, ops).current == LabelOf(RunPolicy(retry), h.entry, h.events)
  }

  /** The run specification is met exactly by the retry counts that the 8-bit counters can reach. */
  lemma MeetsRunSpecExactly(retry: uint32)
    ensures MeetsRunSpec(retry) <==> retry <= 255
  {
    if retry <= 255 {
      forall l: MuxLabel, ops: seq<Op<MuxLabel, MuxEvent>>
        ensures var h := Remembered(RunPolicy(retry), l, ops);
                RunMachine(Initial(l), retry, ops).current == LabelOf(RunPolicy(retry), h.entry, h.events)
      {
        ShowsLastRun(Initial(l), retry, ops);
      }
    } else {
      LongRunIsMissed(RunPolicy(retry), MWait, ActiveEvent);
      RunAbstracts(Initial(MWait), retry, Events(seq(retry, _ => ActiveEvent)));
    }
  }
}
