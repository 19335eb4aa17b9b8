/**
 The heartbeat frame: an Ethernet, an IPv4 and an ICMP header, the prober's payload and its TLVs, with the
 checksum that is kept up to date incrementally, and what the prober puts on the wire.
 */
module HeartbeatFrame {
  import opened Labels
  import opened Checksum

  const ETHER_SIZE := 14
  const IP_SIZE := 20
  const PACKET_HEADER_SIZE := 42
  const TLV_START_OFFSET := 66
  const BUFFER_SIZE := 9100

  datatype Command = SwitchActive | MuxProbe

  /** What the frame is addressed with, in network byte order. */
  datatype Addresses = Addresses(
    serverMac: seq<uint8>,
    torMac: seq<uint8>,
    loopbackIp: seq<uint8>,
    serverIp: seq<uint8>,
    serverId: uint16,
    guid: seq<uint8>
  )

  type FrameAddresses = a: Addresses
    | |a.serverMac| == 6 && |a.torMac| == 6 && |a.loopbackIp| == 4 && |a.serverIp| == 4 && |a.guid| == 4
    witness Addresses([0, 0, 0, 0, 0, 0], [0, 0, 0, 0, 0, 0], [0, 0, 0, 0], [0, 0, 0, 0], 0, [0, 0, 0, 0])

  /** A big-endian word in front of more bytes. */
  function Put(word: uint16, rest: seq<uint8>): (b: seq<uint8>)
    ensures |b| == 2 + |rest|
  {
    [word / 0x100, word % 0x100] + rest
  }

  // ----- the parts of a frame -----

  function EtherHeader(a: FrameAddresses): (b: seq<uint8>)
    ensures |b| == ETHER_SIZE
  {
    a.serverMac + a.torMac + [0x08, 0x00]
  }

  /** Version 4, five words of header, type of service 0xb8, time to live 64, protocol 1. */
  function IpHeader(a: FrameAddresses, ipId: uint16, totalLength: uint16, check: uint16): (b: seq<uint8>)
    ensures |b| == IP_SIZE
  {
    Put(0x45b8, Put(totalLength, Put(ipId, Put(0, Put(0x4001, Put(check, a.loopbackIp + a.serverIp))))))
  }

  /** The software cookie, version 0, the sender's id and an unused sequence number. */
  function Payload(a: FrameAddresses): (b: seq<uint8>)
    ensures |b| == 24
  {
    [0x47, 0x65, 0x6d, 0x69, 0, 0, 0, 0, 0, 0, 0, 0] + a.guid + [0, 0, 0, 0, 0, 0, 0, 0]
  }

  function CommandByte(c: Command): uint8 {
    match c
    case SwitchActive => 1
    case MuxProbe => 2
  }

  const SENTINEL: seq<uint8> := [0xff, 0, 0]

  function CommandTlv(c: Command): (b: seq<uint8>)
    ensures |b| == 4
  {
    [0x05, 0, 1, CommandByte(c)]
  }

  function Tlvs(command: Option<Command>): (b: seq<uint8>)
    ensures |b| <= 7
  {
    match command
    case None => SENTINEL
    case Some(c) => CommandTlv(c) + SENTINEL
  }

  /** An echo request. */
  function IcmpMessage(a: FrameAddresses, check: uint16, seqNo: uint16, command: Option<Command>): (b: seq<uint8>)
    ensures |b| == 32 + |Tlvs(command)|
  {
    Put(0x0800, Put(check, Put(a.serverId, Put(seqNo, Payload(a) + Tlvs(command)))))
  }

  function IpTotalLength(command: Option<Command>): uint16 {
    20 + 8 + 24 + |Tlvs(command)|
  }

  function IpHeaderChecked(a: FrameAddresses, ipId: uint16, command: Option<Command>): (b: seq<uint8>)
    ensures |b| == 20
  {
    IpHeader(a, ipId, IpTotalLength(command), InternetChecksum(IpHeader(a, ipId, IpTotalLength(command), 0)))
  }

  /** The frame with a given value in the ICMP checksum field. */
  function FrameWith(a: FrameAddresses, ipId: uint16, check: uint16, seqNo: uint16, command: Option<Command>): (b: seq<uint8>)
    ensures |b| == TLV_START_OFFSET + |Tlvs(command)|
  {
    EtherHeader(a) + (IpHeaderChecked(a, ipId, command) + IcmpMessage(a, check, seqNo, command))
  }

  /** The frame as RFC 792 and RFC 1071 want it. */
  function ReferenceFrame(a: FrameAddresses, ipId: uint16, seqNo: uint16, command: Option<Command>): seq<uint8> {
    FrameWith(a, ipId, InternetChecksum(IcmpMessage(a, 0, seqNo, command)), seqNo, command)
  }

  // ----- the frame that the prober maintains -----

  /**
   `exact` is what the 32-bit accumulator would hold if it were unbounded, `sends` how often the sequence
   number has been advanced since the checksum was last computed in full.
   */
  datatype Frame = Frame(
    addresses: FrameAddresses,
    ipId: uint16,
    seqNo: uint16,
    command: Option<Command>,
    exact: nat,
    sends: nat
  )

  function FullSum(a: FrameAddresses, seqNo: uint16, command: Option<Command>): nat {
    WordSum(IcmpMessage(a, 0, seqNo, command))
  }

  function Accumulator(f: Frame): uint32 {
    f.exact % 0x1_0000_0000
  }

  /** The bytes in the transmit buffer. */
  function Contents(f: Frame): seq<uint8> {
    FrameWith(f.addresses, f.ipId, Carryover(Accumulator(f)), f.seqNo, f.command)
  }

  /** `calculateTxPacketChecksum` after the TLVs were rewritten. */
  function Rewritten(f: Frame, command: Option<Command>): Frame {
    f.(command := command, exact := FullSum(f.addresses, f.seqNo, command), sends := 0)
  }

  /** `initializeSendBuffer` */
  function Built(a: FrameAddresses, ipId: uint16, seqNo: uint16): Frame {
    Frame(a, ipId, seqNo, None, FullSum(a, seqNo, None), 0)
  }

  function NextSeqNo(seqNo: uint16): uint16 {
    (seqNo + 1) % 0x1_0000
  }

  /** `updateIcmpSequenceNo` */
  function Advanced(f: Frame): Frame {
    f.(seqNo := NextSeqNo(f.seqNo),
       exact := f.exact + (if NextSeqNo(f.seqNo) != 0 then 1 else 0),
       sends := f.sends + 1)
  }

  // ----- sending -----

  datatype Sent = Sent(frame: Frame, bytes: seq<uint8>)

  datatype Transmitter = Transmitter(frame: Frame, suspended: bool, shutdown: bool, wire: seq<Sent>)

  function SendHeartbeat(t: Transmitter, forced: bool): Transmitter {
    var t' := t.(frame := Advanced(t.frame));
    if forced || (!t.suspended && !t.shutdown) then t'.(wire := t.wire + [Sent(t'.frame, Contents(t'.frame))]) else t'
  }

  /** A command frame carries the command; then the frame is rewritten to carry none. */
  function SendCommand(t: Transmitter, c: Command): Transmitter {
    var t' := SendHeartbeat(t.(frame := Rewritten(t.frame, Some(c))), false);
    t'.(frame := Rewritten(t'.frame, None))
  }

  datatype Op =
    | Heartbeat(forced: bool)
    | CommandSend(command: Command)
    | UpdateEthernetFrame(addresses: FrameAddresses, ipId: uint16)
    | Suspend
    | SuspendEnded
    | Shutdown
    | Restart

  function Perform(t: Transmitter, op: Op): Transmitter {
    match op
    case Heartbeat(forced) => SendHeartbeat(t, forced)
    case CommandSend(c) => SendCommand(t, c)
    case UpdateEthernetFrame(a, ipId) => t.(frame := Built(a, ipId, t.frame.seqNo))
    case Suspend => t.(suspended := true)
    case SuspendEnded => t.(suspended := false)
    case Shutdown => t.(shutdown := true)
    case Restart => t.(shutdown := false)
  }

  function PerformAll(t: Transmitter, ops: seq<Op>): Transmitter {
    if ops == [] then t else Perform(PerformAll(t, ops[..|ops| - 1]), ops[|ops| - 1])
  }

  /** The transmitter after its initialisation and any sequence of operations. */
  function Run(a: FrameAddresses, ipId: uint16, ops: seq<Op>): Transmitter {
    PerformAll(Transmitter(Built(a, ipId, 0xffff), false, false, []), ops)
  }

  // ----- the incremental checksum -----

  /** The sequence number that the checksum was last computed in full for. */
  function FirstSeqNo(f: Frame): uint16 {
    (f.seqNo - f.sends) % 0x1_0000
  }

  /** How often the sequence number has rolled over since then. */
  function Rollovers(f: Frame): nat {
    (FirstSeqNo(f) + f.sends) / 0x1_0000
  }

  /** The full sum of then, and one for every send since, but for those that rolled over. */
  function Counted(f: Frame): nat {
    var sum := FullSum(f.addresses, FirstSeqNo(f), f.command) + f.sends - Rollovers(f);
    if sum < 0 then 0 else sum
  }

  /** The accumulator is that count: congruent to the full sum, never zero, and not far from it. */
  ghost predicate Tracks(f: Frame) {
    && f.exact == Counted(f) == FullSum(f.addresses, FirstSeqNo(f), f.command) + f.sends - Rollovers(f)
    && f.exact > 0
    && f.exact % 0xffff == FullSum(f.addresses, f.seqNo, f.command) % 0xffff
    && f.exact < 0x2000_0000 + f.sends
  }

  lemma FullSumOfSeqNo(a: FrameAddresses, seqNo: uint16, command: Option<Command>)
    ensures FullSum(a, seqNo, command) == FullSum(a, 0, command) + seqNo
    ensures 0 < FullSum(a, seqNo, command) < 0x2000_0000
  {
    SumOfMessage(a, 0, seqNo, command);
    SumOfMessage(a, 0, 0, command);
    WordSumBound(IcmpMessage(a, 0, seqNo, command));
  }

  lemma PutParts(word: uint16, rest: seq<uint8>)
    ensures var b := Put(word, rest); Word(b[0], b[1]) == word && b[2..] == rest
  {
  }

  lemma SumOfPut(word: uint16, rest: seq<uint8>)
    ensures WordSum(Put(word, rest)) == word + WordSum(rest)
  {
    assert Put(word, rest)[2..] == rest;
  }

  /** The checksum field, the sequence number and the rest add up. */
  lemma SumOfMessage(a: FrameAddresses, check: uint16, seqNo: uint16, command: Option<Command>)
    ensures WordSum(IcmpMessage(a, check, seqNo, command)) ==
            0x800 + check + a.serverId + seqNo + WordSum(Payload(a) + Tlvs(command))
  {
    hide Put, WordSum, Payload, Tlvs, Word;
    var rest := Payload(a) + Tlvs(command);
    SumOfPut(0x0800, Put(check, Put(a.serverId, Put(seqNo, rest))));
    SumOfPut(check, Put(a.serverId, Put(seqNo, rest)));
    SumOfPut(a.serverId, Put(seqNo, rest));
    SumOfPut(seqNo, rest);
  }

  lemma RewrittenTracks(f: Frame, command: Option<Command>)
    ensures Tracks(Rewritten(f, command))
  {
    FullSumOfSeqNo(f.addresses, f.seqNo, command);
  }

  lemma BuiltTracks(a: FrameAddresses, ipId: uint16, seqNo: uint16)
    ensures Tracks(Built(a, ipId, seqNo))
  {
    FullSumOfSeqNo(a, seqNo, None);
  }

  /** One more send; when the sequence number rolls over the sum falls by 0xffff, which the fold does not see. */
  lemma AdvancedTracks(f: Frame)
    requires Tracks(f)
    ensures Tracks(Advanced(f))
  {
    hide FullSum;
    FullSumOfSeqNo(f.addresses, f.seqNo, f.command);
    FullSumOfSeqNo(f.addresses, NextSeqNo(f.seqNo), f.command);
    var before, after := FullSum(f.addresses, f.seqNo, f.command), FullSum(f.addresses, NextSeqNo(f.seqNo), f.command);
    assert after == before + 1 || (f.seqNo == 0xffff && after == before - 0xffff);
    RolloverCounts(f);
  }

  lemma RolloverCounts(f: Frame)
    ensures FirstSeqNo(Advanced(f)) == FirstSeqNo(f)
    ensures Rollovers(Advanced(f)) == Rollovers(f) + if NextSeqNo(f.seqNo) == 0 then 1 else 0
  {
    var first, k := FirstSeqNo(f), (f.seqNo - f.sends) / 0x1_0000;
    assert first + f.sends == f.seqNo - k * 0x1_0000;
  }

  /** How often the 32-bit accumulator has wrapped by then. */
  function Wraps(f: Frame): nat {
    Counted(f) / 0x1_0000_0000
  }

  /** 2^32 is one more than a multiple of 0xffff: each wrap takes one off the sum modulo 0xffff. */
  lemma WrapsDecide(f: Frame, full: nat)
    requires Tracks(f) && f.exact % 0xffff == full % 0xffff
    ensures Accumulator(f) == Counted(f) % 0x1_0000_0000
    ensures full % 0xffff == Accumulator(f) % 0xffff <==> Wraps(f) % 0xffff == 0
  {
    var w, acc := Wraps(f), Accumulator(f);
    assert f.exact == w * 0x1_0000_0000 + acc;
    assert f.exact == (w + acc) + 0xffff * (w * 0x1_0001);
    ShiftedModulo(w + acc, w * 0x1_0001);
    CongruentDifference(w + acc, acc);
  }

  /**
   The field holds the reference checksum exactly when the counted sum has wrapped 32 bits a multiple of
   0xffff times and has not come out at zero.
   */
  lemma FieldIsReference(f: Frame)
    requires Tracks(f)
    ensures Contents(f) == ReferenceFrame(f.addresses, f.ipId, f.seqNo, f.command)
            <==> Wraps(f) % 0xffff == 0 && Counted(f) % 0x1_0000_0000 != 0
  {
    hide FullSum, Contents, IcmpMessage, Carryover, Word, Accumulator, Wraps, Fold;
    var full := FullSum(f.addresses, f.seqNo, f.command);
    FullSumOfSeqNo(f.addresses, f.seqNo, f.command);
    FullSumFolds(f.addresses, f.seqNo, f.command);
    CarryoverFolds(Accumulator(f));
    FoldEqual(Accumulator(f), full);
    WrapsDecide(f, full);
    FieldDecides(f, InternetChecksum(IcmpMessage(f.addresses, 0, f.seqNo, f.command)));
  }

  lemma FullSumFolds(a: FrameAddresses, seqNo: uint16, command: Option<Command>)
    ensures InternetChecksum(IcmpMessage(a, 0, seqNo, command)) == 0xffff - Fold(FullSum(a, seqNo, command))
  {
    OnesSumFolds(IcmpMessage(a, 0, seqNo, command));
  }

  /** Two frames that differ at most in the checksum field are equal when the fields are. */
  lemma FieldDecides(f: Frame, check: uint16)
    ensures Contents(f) == FrameWith(f.addresses, f.ipId, check, f.seqNo, f.command) <==> Carryover(Accumulator(f)) == check
  {
    hide Carryover, IpHeaderChecked;
    CheckAt(f.addresses, f.ipId, Carryover(Accumulator(f)), f.seqNo, f.command);
    CheckAt(f.addresses, f.ipId, check, f.seqNo, f.command);
  }

  lemma CheckAt(a: FrameAddresses, ipId: uint16, check: uint16, seqNo: uint16, command: Option<Command>)
    ensures var b := FrameWith(a, ipId, check, seqNo, command); |b| >= 66 && Word(b[36], b[37]) == check
  {
    hide IpHeaderChecked, EtherHeader, Payload, Tlvs, Put, Word;
    FrameParts(a, ipId, check, seqNo, command);
    var b, m := FrameWith(a, ipId, check, seqNo, command), IcmpMessage(a, check, seqNo, command);
    assert b[36] == m[2] && b[37] == m[3];
    var fields := Put(check, Put(a.serverId, Put(seqNo, Payload(a) + Tlvs(command))));
    PutParts(0x0800, fields);
    PutParts(check, Put(a.serverId, Put(seqNo, Payload(a) + Tlvs(command))));
    assert m[2] == fields[0] && m[3] == fields[1];
  }

  lemma PutOfWord(high: uint8, low: uint8)
    ensures Put(Word(high, low), []) == [high, low]
  {
  }

  lemma PutTwice(word: uint16, rest: seq<uint8>)
    ensures Put(word, rest) == Put(word, []) + rest
  {
  }

  lemma Splits(b: seq<uint8>, i: nat, j: nat)
    requires i <= j <= |b|
    ensures b[i..] == b[i..j] + b[j..]
  {
  }

  lemma SliceOfSlice(b: seq<uint8>, from: nat, to: nat, i: nat, j: nat)
    requires from <= to <= |b| && i <= j <= to - from
    ensures b[from..to][i..j] == b[from + i..from + j]
  {
    var outer := b[from..to];
    assert forall k :: 0 <= k < j - i ==> outer[i..j][k] == outer[i + k] == b[from + i + k];
  }

  /** Where the fields of the message are; bytes with these fields are the message. */
  ghost predicate HasFields(m: seq<uint8>, a: FrameAddresses, check: uint16, seqNo: uint16, command: Option<Command>) {
    && |m| == 32 + |Tlvs(command)|
    && m[0..2] == Put(0x0800, []) && m[2..4] == Put(check, [])
    && m[4..6] == Put(a.serverId, []) && m[6..8] == Put(seqNo, [])
    && m[8..32] == Payload(a) && m[32..] == Tlvs(command)
  }

  lemma FieldsAreMessage(m: seq<uint8>, a: FrameAddresses, check: uint16, seqNo: uint16, command: Option<Command>)
    ensures HasFields(m, a, check, seqNo, command) <==> m == IcmpMessage(a, check, seqNo, command)
  {
    hide Put, Payload, Tlvs, Word;
    var rest := Payload(a) + Tlvs(command);
    PutTwice(0x0800, Put(check, Put(a.serverId, Put(seqNo, rest))));
    PutTwice(check, Put(a.serverId, Put(seqNo, rest)));
    PutTwice(a.serverId, Put(seqNo, rest));
    PutTwice(seqNo, rest);
    var whole := Put(0x0800, []) + (Put(check, []) + (Put(a.serverId, []) + (Put(seqNo, []) + rest)));
    assert whole == IcmpMessage(a, check, seqNo, command);
    if HasFields(m, a, check, seqNo, command) {
      Splits(m, 0, 2);
      Splits(m, 2, 4);
      Splits(m, 4, 6);
      Splits(m, 6, 8);
      Splits(m, 8, 32);
    }
    if m == whole {
      assert m[32..] == Tlvs(command);
    }
  }

  /** Where the fields of the message are in a frame without a command. */
  lemma FieldsPlaced(b: seq<uint8>, end: nat, a: FrameAddresses, check: uint16, seqNo: uint16)
    requires end == TLV_START_OFFSET + |Tlvs(None)| <= |b|
    requires b[34..36] == Put(0x0800, []) && b[36..38] == Put(check, []) && b[38..40] == Put(a.serverId, [])
    requires b[40..42] == Put(seqNo, []) && b[42..66] == Payload(a) && b[66..end] == Tlvs(None)
    ensures b[34..end] == IcmpMessage(a, check, seqNo, None)
  {
    hide Put, Word, Payload, IcmpMessage, Tlvs;
    SliceOfSlice(b, 34, end, 0, 2);
    SliceOfSlice(b, 34, end, 2, 4);
    SliceOfSlice(b, 34, end, 4, 6);
    SliceOfSlice(b, 34, end, 6, 8);
    SliceOfSlice(b, 34, end, 8, 32);
    SliceOfSlice(b, 34, end, 32, end - 34);
    FieldsAreMessage(b[34..end], a, check, seqNo, None);
  }

  /** Rewriting the TLVs leaves a message with the other TLVs. */
  lemma TlvsReplaced(before: seq<uint8>, after: seq<uint8>, a: FrameAddresses, check: uint16, seqNo: uint16,
                     was: Option<Command>, command: Option<Command>)
    requires before == IcmpMessage(a, check, seqNo, was)
    requires |after| == 32 + |Tlvs(command)| && after[32..] == Tlvs(command)
    requires forall i :: 0 <= i < 32 ==> after[i] == before[i]
    ensures after == IcmpMessage(a, check, seqNo, command)
  {
    hide Put, Payload, Tlvs, Word, IcmpMessage;
    FieldsAreMessage(before, a, check, seqNo, was);
    assert after[0..2] == before[0..2] && after[2..4] == before[2..4] && after[4..6] == before[4..6];
    assert after[6..8] == before[6..8] && after[8..32] == before[8..32];
    FieldsAreMessage(after, a, check, seqNo, command);
  }

  ghost predicate HasIpFields(h: seq<uint8>, a: FrameAddresses, ipId: uint16, total: uint16, check: uint16) {
    && |h| == IP_SIZE
    && h[0..2] == Put(0x45b8, []) && h[2..4] == Put(total, []) && h[4..6] == Put(ipId, [])
    && h[6..10] == Put(0, Put(0x4001, [])) && h[10..12] == Put(check, [])
    && h[12..16] == a.loopbackIp && h[16..20] == a.serverIp
  }

  lemma SplitIpHeader(h: seq<uint8>)
    requires |h| == IP_SIZE
    ensures h == h[0..2] + (h[2..4] + (h[4..6] + (h[6..10] + (h[10..12] + (h[12..16] + h[16..20])))))
  {
    Splits(h, 0, 2);
    Splits(h, 2, 4);
    Splits(h, 4, 6);
    Splits(h, 6, 10);
    Splits(h, 10, 12);
    Splits(h, 12, 16);
  }

  lemma FieldsAreIpHeader(h: seq<uint8>, a: FrameAddresses, ipId: uint16, total: uint16, check: uint16)
    ensures HasIpFields(h, a, ipId, total, check) <==> h == IpHeader(a, ipId, total, check)
  {
    hide Put, Word;
    var ips := a.loopbackIp + a.serverIp;
    PutTwice(0x45b8, Put(total, Put(ipId, Put(0, Put(0x4001, Put(check, ips))))));
    PutTwice(total, Put(ipId, Put(0, Put(0x4001, Put(check, ips)))));
    PutTwice(ipId, Put(0, Put(0x4001, Put(check, ips))));
    PutTwice(0, Put(0x4001, Put(check, ips)));
    PutTwice(0, Put(0x4001, []));
    PutTwice(0x4001, Put(check, ips));
    PutTwice(check, ips);
    var whole := Put(0x45b8, []) + (Put(total, []) + (Put(ipId, []) + (Put(0, Put(0x4001, [])) + (Put(check, []) + ips))));
    assert whole == IpHeader(a, ipId, total, check);
    if HasIpFields(h, a, ipId, total, check) {
      SplitIpHeader(h);
    }
  }

  /** Where the fields of the header are in a frame. */
  lemma IpFieldsPlaced(b: seq<uint8>, a: FrameAddresses, ipId: uint16, total: uint16)
    requires |b| >= 34
    requires b[14..16] == Put(0x45b8, []) && b[16..18] == Put(total, []) && b[18..20] == Put(ipId, [])
    requires b[20..24] == Put(0, Put(0x4001, [])) && b[24..26] == Put(0, [])
    requires b[26..30] == a.loopbackIp && b[30..34] == a.serverIp
    ensures b[14..34] == IpHeader(a, ipId, total, 0)
  {
    hide Put, Word, IpHeader;
    SliceOfSlice(b, 14, 34, 0, 2);
    SliceOfSlice(b, 14, 34, 2, 4);
    SliceOfSlice(b, 14, 34, 4, 6);
    SliceOfSlice(b, 14, 34, 6, 10);
    SliceOfSlice(b, 14, 34, 10, 12);
    SliceOfSlice(b, 14, 34, 12, 16);
    SliceOfSlice(b, 14, 34, 16, 20);
    FieldsAreIpHeader(b[14..34], a, ipId, total, 0);
  }

  lemma FrameParts(a: FrameAddresses, ipId: uint16, check: uint16, seqNo: uint16, command: Option<Command>)
    ensures var b := FrameWith(a, ipId, check, seqNo, command);
            |b| >= 66 && b[14..34] == IpHeaderChecked(a, ipId, command) && b[34..] == IcmpMessage(a, check, seqNo, command)
  {
    hide IpHeaderChecked, EtherHeader, IcmpMessage, Tlvs;
  }

  /** A receiver accepts the ICMP message exactly when the accumulator has wrapped a multiple of 0xffff times. */
  lemma AcceptedExactlyWhen(f: Frame)
    requires Tracks(f)
    ensures Verifies(Contents(f)[34..]) <==> Wraps(f) % 0xffff == 0
  {
    hide FullSum, FrameWith, IcmpMessage, Carryover, Word, OnesSum, Accumulator, Wraps, Fold;
    var a, check := f.addresses, Carryover(Accumulator(f));
    var m := IcmpMessage(a, check, f.seqNo, f.command);
    FrameParts(a, f.ipId, check, f.seqNo, f.command);
    OnesSumFolds(m);
    SumWithField(a, check, f.seqNo, f.command);
    FullSumOfSeqNo(a, f.seqNo, f.command);
    AcceptedWhenCongruent(FullSum(a, f.seqNo, f.command), Accumulator(f));
    WrapsDecide(f, FullSum(a, f.seqNo, f.command));
  }

  lemma SumWithField(a: FrameAddresses, check: uint16, seqNo: uint16, command: Option<Command>)
    ensures WordSum(IcmpMessage(a, check, seqNo, command)) == FullSum(a, seqNo, command) + check
  {
    SumOfMessage(a, check, seqNo, command);
    SumOfMessage(a, 0, seqNo, command);
  }

  /** The first 2^32 - 2^29 sends after a full computation are all without a wrap. */
  lemma NoWrapForLong(f: Frame)
    requires Tracks(f) && f.sends <= 0x1_0000_0000 - 0x2000_0000
    ensures Wraps(f) == 0 && Counted(f) % 0x1_0000_0000 != 0
  {
  }

  // ----- every run -----

  ghost predicate WireIsGood(wire: seq<Sent>) {
    forall i :: 0 <= i < |wire| ==> Tracks(wire[i].frame) && wire[i].bytes == Contents(wire[i].frame)
  }

  lemma PerformKeeps(t: Transmitter, op: Op)
    requires Tracks(t.frame) && t.frame.command == None && WireIsGood(t.wire)
    ensures var t' := Perform(t, op); Tracks(t'.frame) && t'.frame.command == None && WireIsGood(t'.wire)
  {
    hide Tracks, Contents, FullSum;
    match op
    case Heartbeat(forced) => AdvancedTracks(t.frame);
    case CommandSend(c) =>
      RewrittenTracks(t.frame, Some(c));
      AdvancedTracks(Rewritten(t.frame, Some(c)));
      RewrittenTracks(Advanced(Rewritten(t.frame, Some(c))), None);
    case UpdateEthernetFrame(a, ipId) => BuiltTracks(a, ipId, t.frame.seqNo);
    case _ =>
  }

  lemma {:induction false} RunKeeps(a: FrameAddresses, ipId: uint16, ops: seq<Op>)
    ensures var t := Run(a, ipId, ops); Tracks(t.frame) && t.frame.command == None && WireIsGood(t.wire)
  {
    hide Tracks, Contents, Perform;
    if ops == [] {
      BuiltTracks(a, ipId, 0xffff);
    } else {
      RunKeeps(a, ipId, ops[..|ops| - 1]);
      PerformKeeps(Run(a, ipId, ops[..|ops| - 1]), ops[|ops| - 1]);
    }
  }

  /** The reference frame, and accepted by a receiver, exactly under conditions that hold for 0xe0000000 sends. */
  ghost predicate MeetsReference(sent: Sent) {
    var Sent(f, bytes) := sent;
    var counted := FullSum(f.addresses, FirstSeqNo(f), f.command) + f.sends - Rollovers(f);
    && (f.sends <= 0xe000_0000 ==> 0 < counted < 0x1_0000_0000)
    && (bytes == ReferenceFrame(f.addresses, f.ipId, f.seqNo, f.command)
        <==> counted / 0x1_0000_0000 % 0xffff == 0 && counted % 0x1_0000_0000 != 0)
    && |bytes| >= 34 && (Verifies(bytes[34..]) <==> counted / 0x1_0000_0000 % 0xffff == 0)
  }

  /**
   Whatever the interleaving of heartbeats, commands, rebuilds, suspensions and shutdowns: every frame on the
   wire is the reference frame of its sequence number and command, checksum included, and is accepted by a
   receiver, for at least 2^32 - 2^29 sends since the last full computation. In general it is the reference
   frame, or is accepted, exactly under the conditions on the wraps of the accumulator.
   */
  lemma WireFramesAreReference(a: FrameAddresses, ipId: uint16, ops: seq<Op>, i: nat)
    requires i < |Run(a, ipId, ops).wire|
    ensures MeetsReference(Run(a, ipId, ops).wire[i])
  {
    hide Run, ReferenceFrame;
    RunKeeps(a, ipId, ops);
    var f := Run(a, ipId, ops).wire[i].frame;
    FieldIsReference(f);
    AcceptedExactlyWhen(f);
    if f.sends <= 0xe000_0000 {
      NoWrapForLong(f);
    }
  }

  /** The IP header of every frame verifies and gives the length of the packet behind the Ethernet header. */
  lemma IpHeaderIsValid(f: Frame)
    ensures var b := Contents(f);
            |b| >= 34 && Verifies(b[14..34]) && Word(b[16], b[17]) == |b| - 14
  {
    hide Put, Word, OnesSum, WordSum, Carryover, IpHeader, IcmpMessage, FrameWith;
    var a, total := f.addresses, IpTotalLength(f.command);
    var zero := IpHeader(a, f.ipId, total, 0);
    var check := InternetChecksum(zero);
    var h := IpHeader(a, f.ipId, total, check);
    FrameParts(a, f.ipId, Carryover(Accumulator(f)), f.seqNo, f.command);
    SumOfIpHeader(a, f.ipId, total, 0);
    SumOfIpHeader(a, f.ipId, total, check);
    OnesSumFolds(h);
    WordSumBound(zero);
    CarryoverIsInternetChecksum(zero);
    AcceptedWhenCongruent(WordSum(zero), WordSum(zero));
    var b := Contents(f);
    assert b[16] == b[14..34][2] && b[17] == b[14..34][3];
    TotalLengthAt(a, f.ipId, total, check);
  }

  lemma TotalLengthAt(a: FrameAddresses, ipId: uint16, total: uint16, check: uint16)
    ensures var h := IpHeader(a, ipId, total, check); Word(h[2], h[3]) == total
  {
    hide Put, Word;
    var h, rest := IpHeader(a, ipId, total, check), Put(ipId, Put(0, Put(0x4001, Put(check, a.loopbackIp + a.serverIp))));
    PutParts(0x45b8, Put(total, rest));
    PutParts(total, rest);
    assert h[2] == h[2..][0] && h[3] == h[2..][1];
  }

  lemma SumOfIpHeader(a: FrameAddresses, ipId: uint16, total: uint16, check: uint16)
    ensures WordSum(IpHeader(a, ipId, total, check)) ==
            0x45b8 + total + ipId + 0x4001 + check + WordSum(a.loopbackIp + a.serverIp)
  {
    hide Put, WordSum, Word;
    var rest := a.loopbackIp + a.serverIp;
    SumOfPut(0x45b8, Put(total, Put(ipId, Put(0, Put(0x4001, Put(check, rest))))));
    SumOfPut(total, Put(ipId, Put(0, Put(0x4001, Put(check, rest)))));
    SumOfPut(ipId, Put(0, Put(0x4001, Put(check, rest))));
    SumOfPut(0, Put(0x4001, Put(check, rest)));
    SumOfPut(0x4001, Put(check, rest));
    SumOfPut(check, rest);
  }

  // ----- what a run puts on the wire, said by its operations -----

  predicate Suspended(ops: seq<Op>) {
    ops != [] && (ops[|ops| - 1].Suspend? || (!ops[|ops| - 1].SuspendEnded? && Suspended(ops[..|ops| - 1])))
  }

  predicate ShutDown(ops: seq<Op>) {
    ops != [] && (ops[|ops| - 1].Shutdown? || (!ops[|ops| - 1].Restart? && ShutDown(ops[..|ops| - 1])))
  }

  /** Attempts to send, which all advance the sequence number. */
  function Attempts(ops: seq<Op>): nat {
    if ops == [] then 0
    else Attempts(ops[..|ops| - 1]) + if ops[|ops| - 1].Heartbeat? || ops[|ops| - 1].CommandSend? then 1 else 0
  }

  /** Attempts since the checksum was last computed in full. */
  function AttemptsSinceRebuild(ops: seq<Op>): nat {
    if ops == [] then 0
    else match ops[|ops| - 1]
      case Heartbeat(_) => AttemptsSinceRebuild(ops[..|ops| - 1]) + 1
      case CommandSend(_) => 0
      case UpdateEthernetFrame(_, _) => 0
      case _ => AttemptsSinceRebuild(ops[..|ops| - 1])
  }

  /** The commands that were asked for while nothing held them back. */
  function CommandsMade(ops: seq<Op>): seq<Command> {
    if ops == [] then []
    else
      var before, op := ops[..|ops| - 1], ops[|ops| - 1];
      CommandsMade(before) + if op.CommandSend? && !Suspended(before) && !ShutDown(before) then [op.command] else []
  }

  function CommandsOn(wire: seq<Sent>): seq<Command> {
    if wire == [] then []
    else
      CommandsOn(wire[..|wire| - 1])
      + match wire[|wire| - 1].frame.command
        case Some(c) => [c]
        case None => []
  }

  /** What one operation does to what the operations are counted in. */
  lemma OperationCounts(t: Transmitter, op: Op)
    requires t.frame.command == None
    ensures var t' := Perform(t, op);
            && t'.suspended == (op.Suspend? || (!op.SuspendEnded? && t.suspended))
            && t'.shutdown == (op.Shutdown? || (!op.Restart? && t.shutdown))
            && t'.frame.command == None
            && t'.frame.seqNo == (if op.Heartbeat? || op.CommandSend? then NextSeqNo(t.frame.seqNo) else t.frame.seqNo)
            && t'.frame.sends == (if op.Heartbeat? then t.frame.sends + 1
                                  else if op.CommandSend? || op.UpdateEthernetFrame? then 0 else t.frame.sends)
  {
    hide Contents, FullSum;
  }

  lemma {:induction false} OperationsAreCounted(a: FrameAddresses, ipId: uint16, ops: seq<Op>)
    ensures var t := Run(a, ipId, ops);
            && t.suspended == Suspended(ops) && t.shutdown == ShutDown(ops)
            && t.frame.command == None
            && t.frame.seqNo == (0xffff + Attempts(ops)) % 0x1_0000
            && t.frame.sends == AttemptsSinceRebuild(ops)
  {
    hide Perform, Contents, FullSum;
    if ops != [] {
      OperationsAreCounted(a, ipId, ops[..|ops| - 1]);
      OperationCounts(Run(a, ipId, ops[..|ops| - 1]), ops[|ops| - 1]);
    }
  }

  /** Whether an operation puts a frame on the wire, behind the operations before it. */
  predicate Sends(before: seq<Op>, op: Op) {
    var free := !Suspended(before) && !ShutDown(before);
    (op.Heartbeat? && (op.forced || free)) || (op.CommandSend? && free)
  }

  function FramesSent(ops: seq<Op>): nat {
    if ops == [] then 0
    else FramesSent(ops[..|ops| - 1]) + if Sends(ops[..|ops| - 1], ops[|ops| - 1]) then 1 else 0
  }

  /** Addresses and identification of the last rebuild. */
  function AddressedAs(a: FrameAddresses, ipId: uint16, ops: seq<Op>): (FrameAddresses, uint16) {
    if ops == [] then (a, ipId)
    else if ops[|ops| - 1].UpdateEthernetFrame? then (ops[|ops| - 1].addresses, ops[|ops| - 1].ipId)
    else AddressedAs(a, ipId, ops[..|ops| - 1])
  }

  /** The frame that operation `op` sends behind the operations `before`, read off the operations alone. */
  ghost predicate IsFrameOf(a: FrameAddresses, ipId: uint16, before: seq<Op>, op: Op, f: Frame) {
    && (f.addresses, f.ipId) == AddressedAs(a, ipId, before)
    && f.seqNo == (0xffff + Attempts(before) + 1) % 0x1_0000
    && f.command == (if op.CommandSend? then Some(op.command) else None)
    && f.sends == (if op.CommandSend? then 1 else AttemptsSinceRebuild(before) + 1)
  }

  lemma {:induction false} AddressesAreKept(a: FrameAddresses, ipId: uint16, ops: seq<Op>)
    ensures var f := Run(a, ipId, ops).frame; (f.addresses, f.ipId) == AddressedAs(a, ipId, ops)
  {
    hide Contents, FullSum;
    if ops != [] {
      AddressesAreKept(a, ipId, ops[..|ops| - 1]);
    }
  }

  lemma OperationSends(a: FrameAddresses, ipId: uint16, before: seq<Op>, op: Op)
    ensures var t := Run(a, ipId, before);
            var wire := Perform(t, op).wire;
            if Sends(before, op) then
              |wire| == |t.wire| + 1 && t.wire < wire && IsFrameOf(a, ipId, before, op, wire[|t.wire|].frame)
            else wire == t.wire
  {
    hide Run, Contents, FullSum;
    OperationsAreCounted(a, ipId, before);
    AddressesAreKept(a, ipId, before);
  }

  lemma OneMoreOperation(a: FrameAddresses, ipId: uint16, ops: seq<Op>)
    requires ops != []
    ensures Run(a, ipId, ops) == Perform(Run(a, ipId, ops[..|ops| - 1]), ops[|ops| - 1])
  {
    hide Perform;
  }

  /**
   The frames on the wire, one by one: frame `i` was sent by the operation that has `i` sending ones before it,
   and addresses, sequence number, command and sends since the last full computation are counts of the operations.
   */
  lemma {:induction false} WireIsCounted(a: FrameAddresses, ipId: uint16, ops: seq<Op>, i: nat) returns (n: nat)
    requires i < |Run(a, ipId, ops).wire|
    ensures n < |ops| && Sends(ops[..n], ops[n]) && FramesSent(ops[..n]) == i
    ensures IsFrameOf(a, ipId, ops[..n], ops[n], Run(a, ipId, ops).wire[i].frame)
  {
    hide Run, Perform, IsFrameOf, Sends;
    var m := |ops| - 1;
    if ops == [] {
      NothingSent(a, ipId);
      assert false;
    } else {
      OneMoreOperation(a, ipId, ops);
      OperationSends(a, ipId, ops[..m], ops[m]);
      if i < |Run(a, ipId, ops[..m]).wire| {
        n := WireIsCounted(a, ipId, ops[..m], i);
        assert ops[..m][..n] == ops[..n];
      } else {
        n := m;
        FramesAreCounted(a, ipId, ops[..m]);
      }
    }
  }

  // ----- the wire format, byte by byte -----

  /** High byte, then low byte. */
  function BigEndian(word: uint16): seq<uint8> {
    [word / 0x100, word % 0x100]
  }

  /** Ethernet: to the server, from this side, with type 0x0800. */
  ghost predicate IsEthernet(b: seq<uint8>, a: FrameAddresses) {
    |b| >= 14 && b[0..6] == a.serverMac && b[6..12] == a.torMac && b[12..14] == [0x08, 0x00]
  }

  /** IPv4: a header of twenty bytes, the length behind the Ethernet header, time to live 64, ICMP. */
  ghost predicate IsIp(b: seq<uint8>, a: FrameAddresses, ipId: uint16) {
    && 34 <= |b| < 0x1_0000
    && b[14..16] == [0x45, 0xb8] && b[16..18] == BigEndian(|b| - 14) && b[18..20] == BigEndian(ipId)
    && b[20..24] == [0, 0, 0x40, 0x01]
    && b[26..30] == a.loopbackIp && b[30..34] == a.serverIp
  }

  /** An ICMP echo request. */
  ghost predicate IsEcho(b: seq<uint8>, a: FrameAddresses, seqNo: uint16) {
    |b| >= 42 && b[34..36] == [0x08, 0x00] && b[38..40] == BigEndian(a.serverId) && b[40..42] == BigEndian(seqNo)
  }

  /** The software cookie, version 0 and the sender's id; then the command, if any, and the sentinel. */
  ghost predicate IsProbe(b: seq<uint8>, a: FrameAddresses, command: Option<Command>) {
    && |b| >= 66
    && b[42..46] == [0x47, 0x65, 0x6d, 0x69] && b[46..50] == [0, 0, 0, 0] && b[50..54] == [0, 0, 0, 0]
    && b[54..58] == a.guid
    && b[66..] == (if command == None then [0xff, 0, 0]
                   else [0x05, 0, 1, if command == Some(SwitchActive) then 1 else 2, 0xff, 0, 0])
  }

  lemma EthernetPlaced(a: FrameAddresses, rest: seq<uint8>)
    ensures IsEthernet(EtherHeader(a) + rest, a)
  {
    var b := EtherHeader(a) + rest;
    assert b[0..6] == a.serverMac && b[6..12] == a.torMac && b[12..14] == [0x08, 0x00];
  }

  lemma IpPlaced(f: Frame)
    ensures IsIp(Contents(f), f.addresses, f.ipId)
  {
    hide Put, Word, IcmpMessage, FrameWith, Carryover, IpHeader, InternetChecksum;
    var b, a := Contents(f), f.addresses;
    var total, check := IpTotalLength(f.command), InternetChecksum(IpHeader(a, f.ipId, IpTotalLength(f.command), 0));
    FrameParts(a, f.ipId, Carryover(Accumulator(f)), f.seqNo, f.command);
    FieldsAreIpHeader(b[14..34], a, f.ipId, total, check);
    SliceOfSlice(b, 14, 34, 0, 2);
    SliceOfSlice(b, 14, 34, 2, 4);
    SliceOfSlice(b, 14, 34, 4, 6);
    SliceOfSlice(b, 14, 34, 6, 10);
    SliceOfSlice(b, 14, 34, 12, 16);
    SliceOfSlice(b, 14, 34, 16, 20);
    PutIsBigEndian(0x45b8, []);
    PutIsBigEndian(total, []);
    PutIsBigEndian(f.ipId, []);
    PutIsBigEndian(0, Put(0x4001, []));
    PutIsBigEndian(0x4001, []);
    assert [0, 0] + [0x40, 0x01] == [0, 0, 0x40, 0x01];
  }

  lemma PutIsBigEndian(word: uint16, rest: seq<uint8>)
    ensures Put(word, rest) == BigEndian(word) + rest && (rest == [] ==> Put(word, rest) == BigEndian(word))
  {
  }

  lemma EchoPlaced(f: Frame)
    ensures IsEcho(Contents(f), f.addresses, f.seqNo) && IsProbe(Contents(f), f.addresses, f.command)
  {
    hide Put, Word, IcmpMessage, FrameWith, Carryover, IpHeaderChecked, Payload;
    var b, a, check := Contents(f), f.addresses, Carryover(Accumulator(f));
    FrameParts(a, f.ipId, check, f.seqNo, f.command);
    var m := b[34..];
    FieldsAreMessage(m, a, check, f.seqNo, f.command);
    assert b[34..|b|] == m;
    SliceOfSlice(b, 34, |b|, 0, 2);
    SliceOfSlice(b, 34, |b|, 4, 6);
    SliceOfSlice(b, 34, |b|, 6, 8);
    SliceOfSlice(b, 34, |b|, 8, 32);
    SliceOfSlice(b, 34, |b|, 32, |b| - 34);
    PutIsBigEndian(0x0800, []);
    PutIsBigEndian(a.serverId, []);
    PutIsBigEndian(f.seqNo, []);
    assert m[32..|m|] == m[32..] && b[66..|b|] == b[66..];
    assert b[42..66] == Payload(a);
    PayloadPlaced(b, a);
  }

  lemma PayloadPlaced(b: seq<uint8>, a: FrameAddresses)
    requires |b| >= 66 && b[42..66] == Payload(a)
    ensures b[42..46] == [0x47, 0x65, 0x6d, 0x69] && b[46..50] == [0, 0, 0, 0] && b[50..54] == [0, 0, 0, 0]
    ensures b[54..58] == a.guid
  {
    var p := b[42..66];
    SliceOfSlice(b, 42, 66, 0, 4);
    SliceOfSlice(b, 42, 66, 4, 8);
    SliceOfSlice(b, 42, 66, 8, 12);
    SliceOfSlice(b, 42, 66, 12, 16);
    assert p[0..4] == [0x47, 0x65, 0x6d, 0x69] && p[4..8] == [0, 0, 0, 0] && p[8..12] == [0, 0, 0, 0];
    assert p[12..16] == a.guid;
  }

  /**
   Every frame on the wire of every run, byte by byte: it is addressed as of the last rebuild before the operation
   that sent it, and carries that operation's sequence number and command.
   */
  lemma WireIsWellFormed(a: FrameAddresses, ipId: uint16, ops: seq<Op>, i: nat) returns (n: nat)
    requires i < |Run(a, ipId, ops).wire|
    ensures n < |ops| && Sends(ops[..n], ops[n]) && FramesSent(ops[..n]) == i
    ensures var b, (addresses, id) := Run(a, ipId, ops).wire[i].bytes, AddressedAs(a, ipId, ops[..n]);
            && IsEthernet(b, addresses) && IsIp(b, addresses, id)
            && IsEcho(b, addresses, (0xffff + Attempts(ops[..n]) + 1) % 0x1_0000)
            && IsProbe(b, addresses, if ops[n].CommandSend? then Some(ops[n].command) else None)
  {
    hide Run, IsEthernet, IsIp, IsEcho, IsProbe, Tracks, Sends, EtherHeader, IcmpMessage, IpHeaderChecked;
    n := WireIsCounted(a, ipId, ops, i);
    RunKeeps(a, ipId, ops);
    var f := Run(a, ipId, ops).wire[i].frame;
    EthernetPlaced(f.addresses, IpHeaderChecked(f.addresses, f.ipId, f.command)
                                + IcmpMessage(f.addresses, Carryover(Accumulator(f)), f.seqNo, f.command));
    IpPlaced(f);
    EchoPlaced(f);
  }

  lemma NothingSent(a: FrameAddresses, ipId: uint16)
    ensures Run(a, ipId, []).wire == []
  {
  }

  lemma {:induction false} FramesAreCounted(a: FrameAddresses, ipId: uint16, ops: seq<Op>)
    ensures |Run(a, ipId, ops).wire| == FramesSent(ops)
  {
    hide Run, Perform, IsFrameOf, Sends;
    if ops == [] {
      NothingSent(a, ipId);
    } else {
      OneMoreOperation(a, ipId, ops);
      OperationSends(a, ipId, ops[..|ops| - 1], ops[|ops| - 1]);
      FramesAreCounted(a, ipId, ops[..|ops| - 1]);
    }
  }

  lemma CommandsAfter(t: Transmitter, op: Op)
    requires t.frame.command == None
    ensures CommandsOn(Perform(t, op).wire) ==
            CommandsOn(t.wire) + if op.CommandSend? && !t.suspended && !t.shutdown then [op.command] else []
  {
    hide Contents, FullSum;
    var wire := Perform(t, op).wire;
    if wire != t.wire {
      assert wire[..|wire| - 1] == t.wire;
    }
  }

  /**
   The commands on the wire are exactly those asked for while neither suspended nor shut down, in order, and
   after every operation the frame in the buffer carries none.
   */
  lemma {:induction false} CommandsRideAlone(a: FrameAddresses, ipId: uint16, ops: seq<Op>)
    ensures CommandsOn(Run(a, ipId, ops).wire) == CommandsMade(ops)
    ensures Run(a, ipId, ops).frame.command == None
  {
    OperationsAreCounted(a, ipId, ops);
    if ops != [] {
      hide Perform;
      CommandsRideAlone(a, ipId, ops[..|ops| - 1]);
      OperationsAreCounted(a, ipId, ops[..|ops| - 1]);
      CommandsAfter(Run(a, ipId, ops[..|ops| - 1]), ops[|ops| - 1]);
    }
  }

  // ----- a run that outlives the accumulator -----

  function Heartbeats(n: nat): seq<Op> {
    seq(n, _ => Heartbeat(true))
  }

  /** Forced heartbeats go out whatever is suspended. */
  lemma {:induction false} HeartbeatsReachWire(t: Transmitter, n: nat)
    ensures |PerformAll(t, Heartbeats(n)).wire| == |t.wire| + n
  {
    if n != 0 {
      hide Contents, FullSum;
      assert Heartbeats(n)[..n - 1] == Heartbeats(n - 1);
      HeartbeatsReachWire(t, n - 1);
    }
  }

  lemma {:induction false} HeartbeatsSend(a: FrameAddresses, ipId: uint16, n: nat)
    ensures var t := Run(a, ipId, Heartbeats(n));
            && t.frame.addresses == a && t.frame.ipId == ipId
            && |t.wire| == n && (n > 0 ==> t.wire[n - 1].frame == t.frame)
            && Attempts(Heartbeats(n)) == AttemptsSinceRebuild(Heartbeats(n)) == n
  {
    if n != 0 {
      hide Contents, FullSum;
      assert Heartbeats(n)[..n - 1] == Heartbeats(n - 1);
      HeartbeatsSend(a, ipId, n - 1);
    }
  }

  /** 2^32 heartbeats and the number that make up for the rollovers: enough for the accumulator to wrap once. */
  const LATE: nat := 0x1_0002_0000

  /** After that many heartbeats and nothing else the frame on the wire is wrong, and no receiver accepts it. */
  lemma LateFrameFails(a: FrameAddresses, ipId: uint16)
    ensures var wire := Run(a, ipId, Heartbeats(LATE)).wire;
            && |wire| == LATE
            && var Sent(f, bytes) := wire[LATE - 1];
            && bytes != ReferenceFrame(f.addresses, f.ipId, f.seqNo, f.command)
            && |bytes| >= 34 && !Verifies(bytes[34..])
  {
    hide Run, ReferenceFrame, FullSum, Verifies;
    HeartbeatsSend(a, ipId, LATE);
    OperationsAreCounted(a, ipId, Heartbeats(LATE));
    WireFramesAreReference(a, ipId, Heartbeats(LATE), LATE - 1);
    var f := Run(a, ipId, Heartbeats(LATE)).wire[LATE - 1].frame;
    FullSumOfSeqNo(a, FirstSeqNo(f), None);
    LateSum(f);
  }

  lemma LateSum(f: Frame)
    requires f.sends == LATE && f.seqNo == (0xffff + LATE) % 0x1_0000
    ensures f.sends - Rollovers(f) == 0x1_0000_0000 + 0xfffe
  {
    assert FirstSeqNo(f) == 0xffff;
  }
}
