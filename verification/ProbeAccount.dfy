/**
 The software prober's accounting: 16-bit sequence numbers that say which replies have been seen since the
 last heartbeat, and the counters of the packet loss statistics.
 */
module ProbeAccount {
  import opened Labels
  import opened Strand
  import opened HeartbeatFrame

  type uint64 = x: int | 0 <= x < 0x1_0000_0000_0000_0000

  function Inc64(x: uint64): uint64 {
    (x + 1) % 0x1_0000_0000_0000_0000
  }

  datatype Account = Account(txSeqNo: uint16, rxSelfSeqNo: uint16, rxPeerSeqNo: uint16, packets: uint64, unknowns: uint64)

  const INITIAL := Account(0xffff, 0, 0, 0, 0)

  /** `updateIcmpSequenceNo`: both received numbers are set to the number that is left behind. */
  function Advance(a: Account): Account {
    a.(txSeqNo := NextSeqNo(a.txSeqNo), rxSelfSeqNo := a.txSeqNo, rxPeerSeqNo := a.txSeqNo)
  }

  /** A reply counts for the heartbeat that was sent last; its own sequence number is not looked at. */
  function Receive(a: Account, fromSelf: bool): Account {
    if fromSelf then a.(rxSelfSeqNo := a.txSeqNo) else a.(rxPeerSeqNo := a.txSeqNo)
  }

  /** `reportHeartbeatReplyReceived` of either cable. */
  function ReplyEvents(cable: CableType, a: Account, fromSelf: bool): seq<Message> {
    match cable
    case ActiveStandbyCable =>
      if a.txSeqNo == a.rxSelfSeqNo then [ProberEventMsg(IcmpSelf)]
      else if a.txSeqNo == a.rxPeerSeqNo then [ProberEventMsg(IcmpPeer)]
      else []
    case ActiveActiveCable =>
      (if fromSelf && a.txSeqNo == a.rxSelfSeqNo then [ProberEventMsg(IcmpSelf)] else [])
      + (if !fromSelf && a.txSeqNo == a.rxPeerSeqNo then [PeerEventMsg(IcmpPeerActive)] else [])
  }

  /** Whether a timeout finds the last heartbeat unanswered. */
  predicate Unanswered(cable: CableType, a: Account) {
    a.txSeqNo != a.rxSelfSeqNo && (cable.ActiveStandbyCable? ==> a.txSeqNo != a.rxPeerSeqNo)
  }

  /** `reportHeartbeatReplyNotReceived` of either cable. */
  function TimeoutEvents(cable: CableType, a: Account): seq<Message> {
    (if Unanswered(cable, a) then [ProberEventMsg(IcmpUnknown)] else [])
    + (if cable.ActiveActiveCable? && a.txSeqNo != a.rxPeerSeqNo then [PeerEventMsg(IcmpPeerUnknown)] else [])
  }

  function CountTimeout(cable: CableType, a: Account): Account {
    a.(packets := Inc64(a.packets), unknowns := if Unanswered(cable, a) then Inc64(a.unknowns) else a.unknowns)
  }

  /** What happens to the prober; a timeout sends the next heartbeat. */
  datatype Happening = Sending | Reply(fromSelf: bool) | Timeout | ResetCounts

  function Next(cable: CableType, a: Account, h: Happening): Account {
    match h
    case Sending => Advance(a)
    case Reply(fromSelf) => Receive(a, fromSelf)
    case Timeout => Advance(CountTimeout(cable, a))
    case ResetCounts => a.(packets := 0, unknowns := 0)
  }

  /** The loss statistics are posted every so many timeouts, at least 50. */
  type Interval = x: uint32 | 50 <= x witness 300

  function LossUpdate(interval: Interval, a: Account): seq<Message> {
    if a.packets % interval == 0 then [PacketLossUpdate(a.unknowns, a.packets)] else []
  }

  function Events(cable: CableType, interval: Interval, a: Account, h: Happening): seq<Message> {
    match h
    case Sending => []
    case Reply(fromSelf) => ReplyEvents(cable, Receive(a, fromSelf), fromSelf)
    case Timeout => TimeoutEvents(cable, a) + LossUpdate(interval, CountTimeout(cable, a))
    case ResetCounts => [PacketLossUpdate(0, 0)]
  }

  function Run(cable: CableType, hs: seq<Happening>): Account {
    if hs == [] then INITIAL else Next(cable, Run(cable, hs[..|hs| - 1]), hs[|hs| - 1])
  }

  // ----- the trace says it without sequence numbers -----

  /** A reply of the kind has come since the last heartbeat went out. */
  predicate Heard(hs: seq<Happening>, fromSelf: bool) {
    exists i :: 0 <= i < |hs| && hs[i] == Reply(fromSelf) && forall j :: i < j < |hs| ==> !hs[j].Sending? && !hs[j].Timeout?
  }

  predicate Answered(cable: CableType, hs: seq<Happening>) {
    Heard(hs, true) || (cable.ActiveStandbyCable? && Heard(hs, false))
  }

  lemma HeardNext(hs: seq<Happening>, h: Happening, fromSelf: bool)
    ensures Heard(hs + [h], fromSelf) <==> h == Reply(fromSelf) || (Heard(hs, fromSelf) && !h.Sending? && !h.Timeout?)
  {
    var after := hs + [h];
    assert after[|hs|] == h;
    if Heard(after, fromSelf) && h != Reply(fromSelf) {
      var i :| 0 <= i < |after| && after[i] == Reply(fromSelf)
               && forall j :: i < j < |after| ==> !after[j].Sending? && !after[j].Timeout?;
      assert forall j :: 0 <= j < |hs| ==> hs[j] == after[j];
      assert hs[i] == Reply(fromSelf);
    }
    if Heard(hs, fromSelf) && !h.Sending? && !h.Timeout? {
      var i :| 0 <= i < |hs| && hs[i] == Reply(fromSelf) && forall j :: i < j < |hs| ==> !hs[j].Sending? && !hs[j].Timeout?;
      assert after[i] == Reply(fromSelf);
    }
  }

  /** Through any number of rollovers a received number equals the sent one exactly when a reply has been heard. */
  lemma {:induction false} SeqNosRefineHeard(cable: CableType, hs: seq<Happening>)
    ensures var a := Run(cable, hs);
            && (a.txSeqNo == a.rxSelfSeqNo <==> Heard(hs, true))
            && (a.txSeqNo == a.rxPeerSeqNo <==> Heard(hs, false))
  {
    if hs != [] {
      var before, h := hs[..|hs| - 1], hs[|hs| - 1];
      SeqNosRefineHeard(cable, before);
      assert before + [h] == hs;
      HeardNext(before, h, true);
      HeardNext(before, h, false);
    }
  }

  // ----- loss statistics -----

  /** Timeouts since the last reset, and those of them that found their heartbeat answered. */
  function Timeouts(hs: seq<Happening>): nat {
    if hs == [] then 0
    else match hs[|hs| - 1]
      case ResetCounts => 0
      case Timeout => Timeouts(hs[..|hs| - 1]) + 1
      case _ => Timeouts(hs[..|hs| - 1])
  }

  function AnsweredTimeouts(cable: CableType, hs: seq<Happening>): (n: nat)
    ensures n <= Timeouts(hs)
  {
    if hs == [] then 0
    else
      var before := hs[..|hs| - 1];
      match hs[|hs| - 1]
      case ResetCounts => 0
      case Timeout => AnsweredTimeouts(cable, before) + if Answered(cable, before) then 1 else 0
      case _ => AnsweredTimeouts(cable, before)
  }

  const TWO_TO_THE_64 := 0x1_0000_0000_0000_0000

  lemma Inc64Counts(x: nat)
    ensures Inc64(x % TWO_TO_THE_64) == (x + 1) % TWO_TO_THE_64
  {
  }

  lemma DifferenceCounts(x: nat, y: nat)
    requires y <= x
    ensures (x % TWO_TO_THE_64 - (x - y) % TWO_TO_THE_64) % TWO_TO_THE_64 == y % TWO_TO_THE_64
  {
    var p, q := x / TWO_TO_THE_64, (x - y) / TWO_TO_THE_64;
    assert x % TWO_TO_THE_64 - (x - y) % TWO_TO_THE_64 == y + (q - p) * TWO_TO_THE_64;
  }

  lemma NextCounts(cable: CableType, a: Account, h: Happening)
    ensures var a' := Next(cable, a, h);
            && a'.packets == (if h.Timeout? then Inc64(a.packets) else if h.ResetCounts? then 0 else a.packets)
            && a'.unknowns == (if h.Timeout? && Unanswered(cable, a) then Inc64(a.unknowns)
                               else if h.ResetCounts? then 0 else a.unknowns)
  {
  }

  lemma {:induction false} CountersCount(cable: CableType, hs: seq<Happening>)
    ensures var a := Run(cable, hs);
            && a.packets == Timeouts(hs) % TWO_TO_THE_64
            && a.unknowns == (Timeouts(hs) - AnsweredTimeouts(cable, hs)) % TWO_TO_THE_64
  {
    if hs != [] {
      hide Inc64, Answered, Unanswered, Next;
      var before := hs[..|hs| - 1];
      CountersCount(cable, before);
      NextCounts(cable, Run(cable, before), hs[|hs| - 1]);
      AnsweredExactly(cable, before);
      Inc64Counts(Timeouts(before));
      Inc64Counts(Timeouts(before) - AnsweredTimeouts(cable, before));
    }
  }

  lemma AnsweredExactly(cable: CableType, hs: seq<Happening>)
    ensures Unanswered(cable, Run(cable, hs)) <==> !Answered(cable, hs)
  {
    SeqNosRefineHeard(cable, hs);
  }

  /**
   The packet count is the number of timeouts since the last reset, the unknown count the number of
   unanswered ones, and their difference the number of answered ones, all in 64 bits.
   */
  lemma CountsAreTimeouts(cable: CableType, hs: seq<Happening>)
    ensures var a := Run(cable, hs);
            && a.packets == Timeouts(hs) % TWO_TO_THE_64
            && a.unknowns == (Timeouts(hs) - AnsweredTimeouts(cable, hs)) % TWO_TO_THE_64
            && (a.packets - a.unknowns) % TWO_TO_THE_64 == AnsweredTimeouts(cable, hs) % TWO_TO_THE_64
  {
    CountersCount(cable, hs);
    DifferenceCounts(Timeouts(hs), AnsweredTimeouts(cable, hs));
  }

  /** The timeouts and the unanswered ones since the last reset, in 64 bits, when it is time to post them. */
  function LossReport(cable: CableType, interval: Interval, hs: seq<Happening>): seq<Message> {
    var packets, answered := Timeouts(hs), AnsweredTimeouts(cable, hs);
    if packets % TWO_TO_THE_64 % interval == 0 then
      [PacketLossUpdate((packets - answered) % TWO_TO_THE_64, packets % TWO_TO_THE_64)]
    else []
  }

  lemma LossIsReported(cable: CableType, interval: Interval, hs: seq<Happening>, h: Happening)
    ensures h.Timeout? ==> LossUpdate(interval, CountTimeout(cable, Run(cable, hs))) == LossReport(cable, interval, hs + [h])
    ensures h.ResetCounts? ==> [PacketLossUpdate(0, 0)] == LossReport(cable, interval, hs + [h])
  {
    hide Timeouts, AnsweredTimeouts, Inc64, Unanswered;
    assert (hs + [h])[..|hs|] == hs;
    CountersCount(cable, hs + [h]);
    if h.ResetCounts? {
      ResetCountsNothing(cable, hs);
    }
  }

  lemma ResetCountsNothing(cable: CableType, hs: seq<Happening>)
    ensures Timeouts(hs + [ResetCounts]) == AnsweredTimeouts(cable, hs + [ResetCounts]) == 0
  {
  }

  /**
   A timeout reports a loss exactly when no reply has come since the last heartbeat, from this side or, on an
   active-standby cable, from either; on an active-active cable it reports the peer's loss likewise. Every
   `interval` timeouts it posts how many timeouts and how many losses there have been since the last reset. A
   reply is reported as the side's own once one of its own has come, on an active-standby cable.
   */
  lemma EventsFollowTheTrace(cable: CableType, interval: Interval, hs: seq<Happening>, h: Happening)
    ensures Events(cable, interval, Run(cable, hs), h) == match h
      case Timeout =>
        (if Answered(cable, hs) then [] else [ProberEventMsg(IcmpUnknown)])
        + (if cable.ActiveActiveCable? && !Heard(hs, false) then [PeerEventMsg(IcmpPeerUnknown)] else [])
        + LossReport(cable, interval, hs + [h])
      case ResetCounts => LossReport(cable, interval, hs + [h])
      case Reply(fromSelf) =>
        if fromSelf || (cable.ActiveStandbyCable? && Heard(hs, true)) then [ProberEventMsg(IcmpSelf)]
        else if cable.ActiveStandbyCable? then [ProberEventMsg(IcmpPeer)]
        else [PeerEventMsg(IcmpPeerActive)]
      case Sending => []
  {
    hide Timeouts, AnsweredTimeouts, LossUpdate, LossReport, Heard;
    SeqNosRefineHeard(cable, hs);
    LossIsReported(cable, interval, hs, h);
  }
}
