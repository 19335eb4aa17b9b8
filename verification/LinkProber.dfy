/**
 The software prober: it keeps the transmit buffer, its checksums and sequence numbers in place, parses what
 it receives, and posts what it learns on the strand.
 */
module LinkProber {
  import opened Labels
  import opened Strand
  import opened Checksum
  import opened HeartbeatFrame
  import TlvCodec
  import ProbeAccount

  /** What a received packet is to the prober. */
  datatype Reply = Invalid | NoGuid | FromSelf | FromPeer(hardware: bool)

  datatype SessionType = SessionUnknown | SessionSoftware | SessionHardware

  const HARDWARE_COOKIE: seq<uint8> := [0x58, 0x76, 0x7e, 0x7a]

  /** Version 0, and either the server's echo id or the hardware cookie; then the sender's id decides. */
  function Classify(data: seq<uint8>, serverId: uint16, selfGuid: seq<uint8>): Reply
    requires |data| == BUFFER_SIZE
  {
    var hardware := data[42..46] == HARDWARE_COOKIE;
    if data[46..50] != [0, 0, 0, 0] || (Word(data[38], data[39]) != serverId && !hardware) then Invalid
    else if data[50..58] == [0, 0, 0, 0, 0, 0, 0, 0] then NoGuid
    else if data[54..58] == selfGuid then FromSelf
    else FromPeer(hardware)
  }

  class LinkProberSw {
    const strand: Strand
    const cable: CableType
    const statUpdateInterval: ProbeAccount.Interval
    const selfGuid: seq<uint8>
    const txBuffer: array<uint8>
    const rxBuffer: array<uint8>
    var serverId: uint16
    var txPacketSize: nat
    var txSeqNo: uint16
    var rxSelfSeqNo: uint16
    var rxPeerSeqNo: uint16
    var icmpChecksum: uint32
    var ipChecksum: uint32
    var suspendTx: bool
    var suspendTimer: Option<uint32>
    var shutdownTx: bool
    var icmpUnknownEventCount: ProbeAccount.uint64
    var icmpPacketCount: ProbeAccount.uint64
    var peerGuid: seq<uint8>
    var peerType: SessionType
    ghost var frame: Frame
    ghost var wire: seq<Sent>

    /** The peer is never known to probe in software: only the hardware prober finds that out. */
    ghost predicate Valid()
      reads this`peerType
    {
      && txBuffer.Length == rxBuffer.Length == BUFFER_SIZE && txBuffer != rxBuffer
      && |selfGuid| == 4
      && peerType != SessionSoftware
    }

    /** The transmit buffer holds the contents of `frame`, and the accumulator is that frame's. */
    ghost predicate Ready()
      reads this, txBuffer
    {
      && Valid()
      && frame.seqNo == txSeqNo
      && icmpChecksum == Accumulator(frame)
      && txPacketSize == TLV_START_OFFSET + |Tlvs(frame.command)|
      && Holds(frame.addresses, frame.ipId, Carryover(icmpChecksum), txSeqNo, frame.command)
    }

    /** The three parts of a frame are in the transmit buffer. */
    ghost predicate Holds(a: FrameAddresses, ipId: uint16, check: uint16, seqNo: uint16, command: Option<Command>)
      requires Valid()
      reads txBuffer, this`peerType
    {
      && txBuffer[0..14] == EtherHeader(a)
      && txBuffer[14..34] == IpHeaderChecked(a, ipId, command)
      && txBuffer[34..TLV_START_OFFSET + |Tlvs(command)|] == IcmpMessage(a, check, seqNo, command)
    }

    ghost function Transmitting(): Transmitter
      reads this
    {
      Transmitter(frame, suspendTx, shutdownTx, wire)
    }

    ghost function Account(): ProbeAccount.Account
      reads this
    {
      ProbeAccount.Account(txSeqNo, rxSelfSeqNo, rxPeerSeqNo, icmpPacketCount, icmpUnknownEventCount)
    }

    /** What is posted when `h` happens to the prober. */
    ghost function EventsOf(a: ProbeAccount.Account, h: ProbeAccount.Happening): seq<Message> {
      ProbeAccount.Events(cable, statUpdateInterval, a, h)
    }

    constructor (strand: Strand, cable: CableType, interval: ProbeAccount.Interval, selfGuid: seq<uint8>)
      requires |selfGuid| == 4
      ensures Valid() && this.strand == strand && this.cable == cable && this.selfGuid == selfGuid
      ensures statUpdateInterval == interval && peerGuid == [] && peerType == SessionUnknown
      ensures fresh(txBuffer) && fresh(rxBuffer)
      ensures Account() == ProbeAccount.INITIAL && wire == [] && !suspendTx && suspendTimer == None && !shutdownTx
    {
      this.strand, this.cable, this.selfGuid := strand, cable, selfGuid;
      statUpdateInterval, peerGuid, peerType := interval, [], SessionUnknown;
      txBuffer := new uint8[BUFFER_SIZE];
      rxBuffer := new uint8[BUFFER_SIZE];
      serverId, txPacketSize, txSeqNo, rxSelfSeqNo, rxPeerSeqNo := 0, 0, 0xffff, 0, 0;
      icmpChecksum, ipChecksum, suspendTx, suspendTimer, shutdownTx := 0, 0, false, None, false;
      icmpUnknownEventCount, icmpPacketCount := 0, 0;
      wire := [];
    }

    // ----- the transmit buffer -----

    method Write(offset: nat, bytes: seq<uint8>)
      requires Valid() && offset + |bytes| <= BUFFER_SIZE
      modifies txBuffer
      ensures txBuffer[offset..offset + |bytes|] == bytes
      ensures forall i :: 0 <= i < BUFFER_SIZE && !(offset <= i < offset + |bytes|) ==> txBuffer[i] == old(txBuffer[i])
    {
      var k := 0;
      while k < |bytes|
        invariant 0 <= k <= |bytes|
        invariant txBuffer[offset..offset + k] == bytes[..k]
        invariant forall i :: 0 <= i < BUFFER_SIZE && !(offset <= i < offset + k) ==> txBuffer[i] == old(txBuffer[i])
      {
        txBuffer[offset + k] := bytes[k];
        assert txBuffer[offset..offset + k + 1] == txBuffer[offset..offset + k] + [bytes[k]];
        k := k + 1;
      }
      assert bytes[..k] == bytes;
    }

    /** `computeChecksum(icmphdr)`: zero the field, sum the message in full, fold the sum into the field. */
    method ComputeIcmpChecksum(size: nat, ghost a: FrameAddresses, ghost check: uint16, ghost command: Option<Command>)
      requires Valid() && size == 32 + |Tlvs(command)|
      requires txBuffer[34..34 + size] == IcmpMessage(a, check, txSeqNo, command)
      modifies txBuffer, this`icmpChecksum
      ensures icmpChecksum == FullSum(a, txSeqNo, command) % 0x1_0000_0000
      ensures txBuffer[34..34 + size] == IcmpMessage(a, Carryover(icmpChecksum), txSeqNo, command)
      ensures forall i :: 0 <= i < 34 ==> txBuffer[i] == old(txBuffer[i])
    {
      hide Put, Payload, Tlvs, Carryover, WordSum, IcmpMessage;
      SetIcmpChecksum(size, 0, a, check, command);
      icmpChecksum := CalculateChecksum(txBuffer, 34, size);
      SetIcmpChecksum(size, Carryover(icmpChecksum), a, 0, command);
    }

    method SetIcmpChecksum(size: nat, value: uint16, ghost a: FrameAddresses, ghost check: uint16, ghost command: Option<Command>)
      requires Valid() && size == 32 + |Tlvs(command)|
      requires txBuffer[34..34 + size] == IcmpMessage(a, check, txSeqNo, command)
      modifies txBuffer
      ensures txBuffer[34..34 + size] == IcmpMessage(a, value, txSeqNo, command)
      ensures forall i :: 0 <= i < 34 ==> txBuffer[i] == old(txBuffer[i])
    {
      hide Put, Payload, Tlvs, IcmpMessage, Word;
      ghost var before := txBuffer[34..34 + size];
      FieldsAreMessage(before, a, check, txSeqNo, command);
      Write(36, Put(value, []));
      ghost var after := txBuffer[34..34 + size];
      assert forall i :: 0 <= i < size && !(2 <= i < 4) ==> after[i] == before[i];
      assert after[0..2] == before[0..2] && after[4..6] == before[4..6] && after[6..8] == before[6..8];
      assert after[8..32] == before[8..32] && after[32..] == before[32..];
      assert forall i :: 2 <= i < 4 ==> after[i] == txBuffer[34 + i] == txBuffer[36..38][i - 2];
      assert after[2..4] == txBuffer[36..38];
      FieldsAreMessage(after, a, value, txSeqNo, command);
    }

    /** `computeChecksum(iphdr)`: as above, over the twenty bytes of the IP header. */
    method ComputeIpChecksum(ghost a: FrameAddresses, ghost ipId: uint16, ghost check: uint16, ghost command: Option<Command>)
      requires Valid() && txBuffer[14..34] == IpHeader(a, ipId, IpTotalLength(command), check)
      modifies txBuffer, this`ipChecksum
      ensures txBuffer[14..34] == IpHeaderChecked(a, ipId, command)
      ensures forall i :: 0 <= i < BUFFER_SIZE && !(14 <= i < 34) ==> txBuffer[i] == old(txBuffer[i])
    {
      hide Put, Tlvs, Carryover, WordSum, IpHeader, InternetChecksum;
      ghost var total := IpTotalLength(command);
      SetIpChecksum(0, a, ipId, total, check);
      ipChecksum := CalculateChecksum(txBuffer, 14, IP_SIZE);
      ghost var zero := IpHeader(a, ipId, total, 0);
      WordSumBound(zero);
      CarryoverIsInternetChecksum(zero);
      SetIpChecksum(Carryover(ipChecksum), a, ipId, total, 0);
    }

    method SetIpChecksum(value: uint16, ghost a: FrameAddresses, ghost ipId: uint16, ghost total: uint16, ghost check: uint16)
      requires Valid() && txBuffer[14..34] == IpHeader(a, ipId, total, check)
      modifies txBuffer
      ensures txBuffer[14..34] == IpHeader(a, ipId, total, value)
      ensures forall i :: 0 <= i < BUFFER_SIZE && !(14 <= i < 34) ==> txBuffer[i] == old(txBuffer[i])
    {
      hide Put, IpHeader, Word;
      ghost var before := txBuffer[14..34];
      FieldsAreIpHeader(before, a, ipId, total, check);
      Write(24, Put(value, []));
      ghost var after := txBuffer[14..34];
      assert forall i :: 0 <= i < 20 && !(10 <= i < 12) ==> after[i] == before[i];
      assert after[0..2] == before[0..2] && after[2..4] == before[2..4] && after[4..6] == before[4..6];
      assert after[6..10] == before[6..10] && after[12..16] == before[12..16] && after[16..20] == before[16..20];
      assert forall i :: 10 <= i < 12 ==> after[i] == txBuffer[14 + i] == txBuffer[24..26][i - 10];
      assert after[10..12] == txBuffer[24..26];
      FieldsAreIpHeader(after, a, ipId, total, value);
    }

    /** `ipHeader->tot_len = ...` */
    method SetIpTotalLength(total: uint16, ghost a: FrameAddresses, ghost ipId: uint16, ghost was: uint16, ghost check: uint16)
      requires Valid() && txBuffer[14..34] == IpHeader(a, ipId, was, check)
      modifies txBuffer
      ensures txBuffer[14..34] == IpHeader(a, ipId, total, check)
      ensures forall i :: 0 <= i < BUFFER_SIZE && !(14 <= i < 34) ==> txBuffer[i] == old(txBuffer[i])
    {
      hide Put, IpHeader, Word;
      ghost var before := txBuffer[14..34];
      FieldsAreIpHeader(before, a, ipId, was, check);
      Write(16, Put(total, []));
      ghost var after := txBuffer[14..34];
      assert forall i :: 0 <= i < 20 && !(2 <= i < 4) ==> after[i] == before[i];
      assert after[0..2] == before[0..2] && after[10..12] == before[10..12] && after[4..6] == before[4..6];
      assert after[6..10] == before[6..10] && after[12..16] == before[12..16] && after[16..20] == before[16..20];
      assert forall i :: 2 <= i < 4 ==> after[i] == txBuffer[14 + i] == txBuffer[16..18][i - 2];
      assert after[2..4] == txBuffer[16..18];
      FieldsAreIpHeader(after, a, ipId, total, check);
    }

    // ----- TLVs -----

    method ResetTxBufferTlv()
      modifies this`txPacketSize
      ensures txPacketSize == TLV_START_OFFSET
    {
      txPacketSize := TLV_START_OFFSET;
    }

    method Append(bytes: seq<uint8>)
      requires Valid() && txPacketSize + |bytes| <= BUFFER_SIZE
      modifies txBuffer, this`txPacketSize
      ensures txPacketSize == old(txPacketSize) + |bytes|
      ensures txBuffer[old(txPacketSize)..txPacketSize] == bytes
      ensures forall i :: 0 <= i < old(txPacketSize) ==> txBuffer[i] == old(txBuffer[i])
    {
      Write(txPacketSize, bytes);
      txPacketSize := txPacketSize + |bytes|;
    }

    method AppendTlvSentinel() returns (tlvSize: nat)
      requires Valid() && txPacketSize + 3 <= BUFFER_SIZE
      modifies txBuffer, this`txPacketSize
      ensures tlvSize == 3 && txPacketSize == old(txPacketSize) + tlvSize
      ensures txBuffer[old(txPacketSize)..txPacketSize] == SENTINEL
      ensures forall i :: 0 <= i < old(txPacketSize) ==> txBuffer[i] == old(txBuffer[i])
    {
      tlvSize := 3;
      Append([0xff, 0, 0]);
    }

    method AppendTlvCommand(c: Command) returns (tlvSize: nat)
      requires Valid() && txPacketSize + 4 <= BUFFER_SIZE
      modifies txBuffer, this`txPacketSize
      ensures tlvSize == 4 && txPacketSize == old(txPacketSize) + tlvSize
      ensures txBuffer[old(txPacketSize)..txPacketSize] == CommandTlv(c)
      ensures forall i :: 0 <= i < old(txPacketSize) ==> txBuffer[i] == old(txBuffer[i])
    {
      tlvSize := 4;
      Append([0x05] + [0, 1] + [CommandByte(c)]);
    }

    method AppendTlvDummy(paddingSize: uint16, seqNo: uint32) returns (tlvSize: nat)
      requires Valid() && txPacketSize + 3 + paddingSize + 4 <= BUFFER_SIZE
      modifies txBuffer, this`txPacketSize
      ensures tlvSize == 7 + paddingSize && txPacketSize == old(txPacketSize) + tlvSize
      ensures txBuffer[old(txPacketSize)..txPacketSize] == TlvCodec.Encode(TlvCodec.TlvOf(TlvCodec.DummyItem(paddingSize, seqNo)))
      ensures forall i :: 0 <= i < old(txPacketSize) ==> txBuffer[i] == old(txBuffer[i])
    {
      hide Put;
      tlvSize := 7 + paddingSize;
      var number := Put(seqNo / 0x1_0000, Put(seqNo % 0x1_0000, []));
      Append([TlvCodec.TLV_DUMMY] + Put(paddingSize + 4, TlvCodec.Zeros(paddingSize) + number));
    }

    /** `calculateTxPacketChecksum`: both checksums and the IP length for the TLVs that are now in the buffer. */
    method CalculateTxPacketChecksum(ghost a: FrameAddresses, ghost ipId: uint16, ghost check: uint16,
                                     ghost was: Option<Command>, ghost command: Option<Command>)
      requires Valid() && txPacketSize == TLV_START_OFFSET + |Tlvs(command)|
      requires txBuffer[14..34] == IpHeaderChecked(a, ipId, was)
      requires txBuffer[34..txPacketSize] == IcmpMessage(a, check, txSeqNo, command)
      modifies txBuffer, this`icmpChecksum, this`ipChecksum
      ensures icmpChecksum == FullSum(a, txSeqNo, command) % 0x1_0000_0000
      ensures txBuffer[0..14] == old(txBuffer[0..14])
      ensures txBuffer[14..34] == IpHeaderChecked(a, ipId, command)
      ensures txBuffer[34..txPacketSize] == IcmpMessage(a, Carryover(icmpChecksum), txSeqNo, command)
    {
      hide IpHeader, IcmpMessage, Tlvs, InternetChecksum, Carryover, FullSum;
      ComputeIcmpChecksum(txPacketSize - 34, a, check, command);
      assert txBuffer[14..34] == old(txBuffer[14..34]);
      ghost var message := txBuffer[34..txPacketSize];
      ghost var ipCheck := InternetChecksum(IpHeader(a, ipId, IpTotalLength(was), 0));
      SetIpTotalLength(IpTotal(txPacketSize), a, ipId, IpTotalLength(was), ipCheck);
      assert forall i :: 34 <= i < txPacketSize ==> txBuffer[i] == message[i - 34];
      ComputeIpChecksum(a, ipId, ipCheck, command);
      assert forall i :: 34 <= i < txPacketSize ==> txBuffer[i] == message[i - 34];
      assert txBuffer[34..txPacketSize] == message;
    }

    function IpTotal(packetSize: nat): uint16
      requires TLV_START_OFFSET <= packetSize <= BUFFER_SIZE
    {
      20 + 8 + (packetSize - PACKET_HEADER_SIZE)
    }

    /** `initTxBufferTlvSendProbe`, `initTxBufferTlvSendSwitch` and `initTxBufferTlvSentinel` */
    method InitTxBufferTlv(command: Option<Command>)
      requires Ready()
      modifies txBuffer, this`txPacketSize, this`icmpChecksum, this`ipChecksum, this`frame
      ensures Ready() && frame == Rewritten(old(frame), command)
    {
      hide IpHeaderChecked, IcmpMessage, EtherHeader, Carryover, FullSum, CommandTlv, Put;
      ghost var a, was, check := frame.addresses, frame.command, Carryover(icmpChecksum);
      ghost var before := txBuffer[34..txPacketSize];
      ResetTxBufferTlv();
      if command.Some? {
        var _ := AppendTlvCommand(command.value);
      }
      ghost var commandEnd := txPacketSize;
      ghost var commandBytes := txBuffer[TLV_START_OFFSET..commandEnd];
      var _ := AppendTlvSentinel();
      assert txBuffer[TLV_START_OFFSET..txPacketSize] == txBuffer[TLV_START_OFFSET..commandEnd] + txBuffer[commandEnd..txPacketSize];
      assert txBuffer[TLV_START_OFFSET..commandEnd] == commandBytes;
      assert txBuffer[TLV_START_OFFSET..txPacketSize] == Tlvs(command);
      ghost var after := txBuffer[34..txPacketSize];
      assert forall i :: 0 <= i < 32 ==> after[i] == before[i];
      assert after[32..] == Tlvs(command) by {
        assert after[32..] == txBuffer[TLV_START_OFFSET..txPacketSize];
      }
      TlvsReplaced(before, after, a, check, txSeqNo, was, command);
      assert txBuffer[14..34] == old(txBuffer[14..34]);
      assert txBuffer[0..14] == old(txBuffer[0..14]);
      CalculateTxPacketChecksum(a, frame.ipId, check, was, command);
      frame := Rewritten(frame, command);
    }

    // ----- sending -----

    /** `updateIcmpSequenceNo`: the checksum follows the sequence number without being computed again. */
    method UpdateIcmpSequenceNo()
      requires Ready()
      modifies txBuffer, this`rxPeerSeqNo, this`rxSelfSeqNo, this`txSeqNo, this`icmpChecksum, this`frame
      ensures Ready() && frame == Advanced(old(frame))
      ensures Account() == ProbeAccount.Advance(old(Account()))
    {
      hide IpHeaderChecked, IcmpMessage, EtherHeader, Carryover, Tlvs, Put;
      rxPeerSeqNo := txSeqNo;
      rxSelfSeqNo := txSeqNo;
      txSeqNo := NextSeqNo(txSeqNo);
      ghost var a, check, command := frame.addresses, Carryover(icmpChecksum), frame.command;
      WriteSeqNo(a, check, rxSelfSeqNo, command);
      icmpChecksum := (icmpChecksum + (if txSeqNo != 0 then 1 else 0)) % 0x1_0000_0000;
      SetIcmpChecksum(txPacketSize - 34, Carryover(icmpChecksum), a, check, command);
      assert txBuffer[0..14] == old(txBuffer[0..14]);
      assert txBuffer[14..34] == old(txBuffer[14..34]);
      frame := Advanced(frame);
    }

    method WriteSeqNo(ghost a: FrameAddresses, ghost check: uint16, ghost was: uint16, ghost command: Option<Command>)
      requires Valid() && txPacketSize == TLV_START_OFFSET + |Tlvs(command)|
      requires txBuffer[34..txPacketSize] == IcmpMessage(a, check, was, command)
      modifies txBuffer
      ensures txBuffer[34..txPacketSize] == IcmpMessage(a, check, txSeqNo, command)
      ensures forall i :: 0 <= i < 34 ==> txBuffer[i] == old(txBuffer[i])
    {
      hide Put, Payload, Tlvs, IcmpMessage, Word;
      ghost var before := txBuffer[34..txPacketSize];
      FieldsAreMessage(before, a, check, was, command);
      Write(40, Put(txSeqNo, []));
      ghost var after := txBuffer[34..txPacketSize];
      assert forall i :: 0 <= i < |after| && !(6 <= i < 8) ==> after[i] == before[i];
      assert after[0..2] == before[0..2] && after[2..4] == before[2..4] && after[4..6] == before[4..6];
      assert after[8..32] == before[8..32] && after[32..] == before[32..];
      assert forall i :: 6 <= i < 8 ==> after[i] == txBuffer[34 + i] == txBuffer[40..42][i - 6];
      assert after[6..8] == txBuffer[40..42];
      FieldsAreMessage(after, a, check, txSeqNo, command);
    }

    lemma BufferIsContents()
      requires Ready()
      ensures txPacketSize <= BUFFER_SIZE && txBuffer[..txPacketSize] == Contents(frame)
    {
      hide IpHeaderChecked, IcmpMessage, EtherHeader, Carryover, Tlvs;
      assert txBuffer[..txPacketSize] == txBuffer[0..14] + (txBuffer[14..34] + txBuffer[34..txPacketSize]);
    }

    method SendHeartbeat(forced: bool)
      requires Ready()
      modifies this, txBuffer
      ensures Ready() && Transmitting() == HeartbeatFrame.SendHeartbeat(old(Transmitting()), forced)
      ensures Account() == ProbeAccount.Advance(old(Account()))
      ensures serverId == old(serverId) && txPacketSize == old(txPacketSize) && peerType == old(peerType)
    {
      hide Holds, Contents, Advanced;
      UpdateIcmpSequenceNo();
      if forced || (!suspendTx && !shutdownTx) {
        BufferIsContents();
        wire := wire + [Sent(frame, txBuffer[..txPacketSize])];
      }
    }

    method SendCommandFrame(c: Command)
      requires Ready()
      modifies this, txBuffer
      ensures Ready() && Transmitting() == HeartbeatFrame.SendCommand(old(Transmitting()), c)
      ensures Account() == ProbeAccount.Advance(old(Account())) && serverId == old(serverId)
    {
      hide Holds, Rewritten, HeartbeatFrame.SendHeartbeat;
      InitTxBufferTlv(Some(c));
      SendHeartbeat(false);
      InitTxBufferTlv(None);
    }

    method HandleSendProbeCommand()
      requires Ready()
      modifies this, txBuffer
      ensures Ready() && Transmitting() == HeartbeatFrame.Perform(old(Transmitting()), CommandSend(MuxProbe))
      ensures Account() == ProbeAccount.Advance(old(Account())) && serverId == old(serverId)
    {
      SendCommandFrame(MuxProbe);
    }

    /** The completion is reported even when a suspension kept the command off the wire. */
    method HandleSendSwitchCommand()
      requires Ready()
      modifies this, txBuffer, strand
      ensures Ready() && Transmitting() == HeartbeatFrame.Perform(old(Transmitting()), CommandSend(SwitchActive))
      ensures Account() == ProbeAccount.Advance(old(Account())) && serverId == old(serverId)
      ensures strand.queue == old(strand.queue) + [SwitchCommandCompleteMsg]
    {
      SendCommandFrame(SwitchActive);
      strand.Post(SwitchCommandCompleteMsg);
    }

    // ----- building the frame -----

    method WriteEtherHeader(a: FrameAddresses)
      requires Valid()
      modifies txBuffer
      ensures txBuffer[0..14] == EtherHeader(a)
      ensures forall i :: 14 <= i < BUFFER_SIZE ==> txBuffer[i] == old(txBuffer[i])
    {
      Write(0, a.serverMac);
      assert txBuffer[0..6] == a.serverMac;
      Write(6, a.torMac);
      assert txBuffer[0..6] == a.serverMac && txBuffer[6..12] == a.torMac;
      Write(12, [0x08, 0x00]);
      assert txBuffer[0..14] == txBuffer[0..6] + txBuffer[6..12] + txBuffer[12..14];
    }

    /** Version, length and identification. */
    method WriteIpStart(ipId: uint16, total: uint16)
      requires Valid()
      modifies txBuffer
      ensures txBuffer[14..16] == Put(0x45b8, []) && txBuffer[16..18] == Put(total, []) && txBuffer[18..20] == Put(ipId, [])
      ensures forall i :: 0 <= i < BUFFER_SIZE && !(14 <= i < 20) ==> txBuffer[i] == old(txBuffer[i])
    {
      hide Put;
      Write(14, Put(0x45b8, []));
      Write(16, Put(total, []));
      assert txBuffer[14..16] == Put(0x45b8, []);
      Write(18, Put(ipId, []));
      assert txBuffer[14..16] == Put(0x45b8, []) && txBuffer[16..18] == Put(total, []);
    }

    /** Time to live, protocol and addresses; the checksum is zero until it is computed. */
    method WriteIpEnd(a: FrameAddresses)
      requires Valid()
      modifies txBuffer
      ensures txBuffer[20..24] == Put(0, Put(0x4001, [])) && txBuffer[24..26] == Put(0, [])
      ensures txBuffer[26..30] == a.loopbackIp && txBuffer[30..34] == a.serverIp
      ensures forall i :: 0 <= i < BUFFER_SIZE && !(20 <= i < 34) ==> txBuffer[i] == old(txBuffer[i])
    {
      hide Put;
      Write(20, Put(0, Put(0x4001, [])));
      Write(24, Put(0, []));
      assert txBuffer[20..24] == Put(0, Put(0x4001, []));
      Write(26, a.loopbackIp);
      assert txBuffer[20..24] == Put(0, Put(0x4001, [])) && txBuffer[24..26] == Put(0, []);
      Write(30, a.serverIp);
      assert txBuffer[20..24] == Put(0, Put(0x4001, [])) && txBuffer[24..26] == Put(0, []);
      assert txBuffer[26..30] == a.loopbackIp;
    }

    method WriteIpHeader(a: FrameAddresses, ipId: uint16, total: uint16)
      requires Valid()
      modifies txBuffer
      ensures txBuffer[14..34] == IpHeader(a, ipId, total, 0)
      ensures forall i :: 0 <= i < BUFFER_SIZE && !(14 <= i < 34) ==> txBuffer[i] == old(txBuffer[i])
    {
      hide Put, Word, IpHeader;
      WriteIpStart(ipId, total);
      WriteIpEnd(a);
      assert txBuffer[14..16] == Put(0x45b8, []) && txBuffer[16..18] == Put(total, []) && txBuffer[18..20] == Put(ipId, []);
      IpFieldsPlaced(txBuffer[..], a, ipId, total);
    }

    /** Type, identifier and sequence number; the checksum comes later. */
    method WriteIcmpHeader(a: FrameAddresses)
      requires Valid()
      modifies txBuffer
      ensures txBuffer[34..36] == Put(0x0800, []) && txBuffer[38..40] == Put(a.serverId, [])
      ensures txBuffer[40..42] == Put(txSeqNo, [])
      ensures forall i :: 0 <= i < BUFFER_SIZE && !(34 <= i < 42) ==> txBuffer[i] == old(txBuffer[i])
    {
      hide Put;
      Write(34, Put(0x0800, []));
      Write(38, Put(a.serverId, []));
      assert txBuffer[34..36] == Put(0x0800, []);
      Write(40, Put(txSeqNo, []));
      assert txBuffer[34..36] == Put(0x0800, []) && txBuffer[38..40] == Put(a.serverId, []);
    }

    /** The message but for its checksum field, which keeps whatever it held. */
    method WriteIcmpMessage(a: FrameAddresses)
      requires Valid()
      modifies txBuffer, this`txPacketSize
      ensures txPacketSize == TLV_START_OFFSET + |Tlvs(None)|
      ensures txBuffer[34..txPacketSize] == IcmpMessage(a, Word(txBuffer[36], txBuffer[37]), txSeqNo, None)
      ensures forall i :: 0 <= i < 34 ==> txBuffer[i] == old(txBuffer[i])
    {
      hide Put, Word, Payload, IcmpMessage;
      Write(42, Payload(a));
      ResetTxBufferTlv();
      var _ := AppendTlvSentinel();
      assert txBuffer[42..66] == Payload(a);
      WriteIcmpHeader(a);
      assert txBuffer[42..66] == Payload(a) && txBuffer[66..txPacketSize] == Tlvs(None);
      PutOfWord(txBuffer[36], txBuffer[37]);
      assert txBuffer[36..38] == [txBuffer[36], txBuffer[37]];
      FieldsPlaced(txBuffer[..], txPacketSize, a, Word(txBuffer[36], txBuffer[37]), txSeqNo);
    }

    /** `initializeSendBuffer`: the whole frame, without a command, for the current sequence number. */
    method InitializeSendBuffer(ports: FrameAddresses, ipId: uint16)
      requires Valid()
      modifies txBuffer, this`serverId, this`txPacketSize, this`icmpChecksum, this`ipChecksum, this`frame
      ensures Ready() && frame == Built(ports.(guid := selfGuid), ipId, txSeqNo) && serverId == ports.serverId
    {
      hide IpHeader, EtherHeader, IcmpMessage, Carryover, FullSum, InternetChecksum;
      var a := ports.(guid := selfGuid);
      serverId := a.serverId;
      WriteEtherHeader(a);
      WriteIcmpMessage(a);
      ghost var message := txBuffer[34..txPacketSize];
      WriteIpHeader(a, ipId, IpTotal(txPacketSize));
      assert forall i :: 34 <= i < txPacketSize ==> txBuffer[i] == message[i - 34];
      ComputeIpChecksum(a, ipId, 0, None);
      ghost var kept := txBuffer[34..txPacketSize];
      assert forall i :: 0 <= i < |message| ==> kept[i] == txBuffer[34 + i] == message[i];
      assert kept == message;
      ghost var header := txBuffer[14..34];
      ComputeIcmpChecksum(txPacketSize - 34, a, Word(txBuffer[36], txBuffer[37]), None);
      assert forall i :: 0 <= i < 20 ==> txBuffer[14 + i] == header[i];
      assert txBuffer[14..34] == header;
      assert txBuffer[0..14] == EtherHeader(a);
      frame := Built(a, ipId, txSeqNo);
    }

    /** `handleUpdateEthernetFrame` */
    method HandleUpdateEthernetFrame(ports: FrameAddresses, ipId: uint16)
      requires Ready()
      modifies txBuffer, this`serverId, this`txPacketSize, this`icmpChecksum, this`ipChecksum, this`frame
      ensures Ready() && serverId == ports.serverId
      ensures Transmitting() == HeartbeatFrame.Perform(old(Transmitting()), UpdateEthernetFrame(ports.(guid := selfGuid), ipId))
    {
      hide Holds, Built;
      InitializeSendBuffer(ports, ipId);
    }

    // ----- receiving -----

    method FindNextTlv(readOffset: nat, bytesTransferred: nat) returns (tlvSize: nat)
      requires Valid() && bytesTransferred <= BUFFER_SIZE
      ensures tlvSize == TlvCodec.NextTlvSize(rxBuffer[..], bytesTransferred, readOffset)
    {
      tlvSize := 0;
      if readOffset + TlvCodec.TLV_HEAD_SIZE <= bytesTransferred {
        tlvSize := TlvCodec.TLV_HEAD_SIZE + Word(rxBuffer[readOffset + 1], rxBuffer[readOffset + 2]);
        if readOffset + tlvSize > bytesTransferred {
          tlvSize := 0;
        }
      }
    }

    /** The command byte is read where it would be, whatever the length says; `beyond` follows the buffer. */
    method HandleTlvCommandRecv(offset: nat, isPeer: bool, beyond: uint8)
      requires Valid() && offset + TlvCodec.TLV_HEAD_SIZE <= BUFFER_SIZE
      modifies strand
      ensures strand.queue == old(strand.queue)
              + if isPeer then TlvCodec.RequestFor(TlvCodec.CommandAt(rxBuffer[..], beyond, offset)) else []
    {
      if isPeer {
        var at := offset + TlvCodec.TLV_HEAD_SIZE;
        var command := if at < BUFFER_SIZE then rxBuffer[at] else beyond;
        if command == 1 {
          strand.Post(SwitchRequestMsg);
        } else if command == 2 {
          strand.Post(MuxProbeRequestMsg);
        }
      }
    }

    method HandleTlvRecv(bytesTransferred: nat, isSelfGuid: bool, beyond: uint8)
      requires Valid() && bytesTransferred <= BUFFER_SIZE
      modifies strand
      ensures strand.queue == old(strand.queue)
              + FromPeerOnly(isSelfGuid, TlvCodec.Requests(rxBuffer[..], beyond, bytesTransferred, TLV_START_OFFSET))
    {
      hide TlvCodec.NextTlvSize, TlvCodec.RequestFor, TlvCodec.CommandAt, TlvCodec.Stops, TlvCodec.Requests;
      hide TlvCodec.RequestOf, FromPeerOnly;
      ghost var data, queue := rxBuffer[..], strand.queue;
      var nextTlvOffset, stop := TLV_START_OFFSET, false;
      var nextTlvSize := FindNextTlv(nextTlvOffset, bytesTransferred);
      ghost var delivered, rest := [], TlvCodec.Requests(data, beyond, bytesTransferred, nextTlvOffset);
      FromPeerAppends(isSelfGuid, queue, [], []);
      while nextTlvSize != 0 && !stop
        invariant rxBuffer[..] == data
        invariant nextTlvSize == TlvCodec.NextTlvSize(data, bytesTransferred, nextTlvOffset)
        invariant rest == if stop then [] else TlvCodec.Requests(data, beyond, bytesTransferred, nextTlvOffset)
        invariant TlvCodec.Requests(data, beyond, bytesTransferred, TLV_START_OFFSET) == delivered + rest
        invariant strand.queue == queue + FromPeerOnly(isSelfGuid, delivered)
        decreases bytesTransferred - nextTlvOffset
      {
        ghost var request := TlvCodec.RequestOf(data, beyond, TlvCodec.Visit(nextTlvOffset, nextTlvSize));
        TlvCodec.OneMoreVisit(data, beyond, bytesTransferred, nextTlvOffset, delivered);
        FromPeerAppends(isSelfGuid, queue, delivered, request);
        var kind := rxBuffer[nextTlvOffset];
        if kind == TlvCodec.TLV_COMMAND {
          HandleTlvCommandRecv(nextTlvOffset, !isSelfGuid, beyond);
        }
        stop := TlvCodec.Stops(kind, nextTlvSize);
        delivered := delivered + request;
        nextTlvOffset := nextTlvOffset + nextTlvSize;
        nextTlvSize := FindNextTlv(nextTlvOffset, bytesTransferred);
        rest := if stop then [] else TlvCodec.Requests(data, beyond, bytesTransferred, nextTlvOffset);
      }
      assert rest == [] by {
        TlvCodec.RequestsUnfold(data, beyond, bytesTransferred, nextTlvOffset);
      }
      assert delivered + rest == delivered;
    }

    /** What a side sends itself is not a request. */
    ghost function FromPeerOnly(isSelfGuid: bool, requests: seq<Message>): seq<Message> {
      if isSelfGuid then [] else requests
    }

    lemma FromPeerAppends(isSelfGuid: bool, queue: seq<Message>, delivered: seq<Message>, request: seq<Message>)
      ensures queue + FromPeerOnly(isSelfGuid, delivered) + (if isSelfGuid then [] else request)
              == queue + FromPeerOnly(isSelfGuid, delivered + request)
      ensures queue + FromPeerOnly(isSelfGuid, []) == queue
    {
    }

    method ReportHeartbeatReplyReceived(fromSelf: bool)
      modifies strand
      ensures strand.queue == old(strand.queue) + ProbeAccount.ReplyEvents(cable, Account(), fromSelf)
    {
      match cable {
        case ActiveStandbyCable =>
          if txSeqNo == rxSelfSeqNo {
            strand.Post(ProberEventMsg(IcmpSelf));
          } else if txSeqNo == rxPeerSeqNo {
            strand.Post(ProberEventMsg(IcmpPeer));
          }
        case ActiveActiveCable =>
          if fromSelf && txSeqNo == rxSelfSeqNo {
            strand.Post(ProberEventMsg(IcmpSelf));
          }
          if !fromSelf && txSeqNo == rxPeerSeqNo {
            strand.Post(PeerEventMsg(IcmpPeerActive));
          }
      }
    }

    /** What is posted for the packet in the receive buffer: the reply, then the requests of a peer. */
    method HandleIcmpPayload(bytesTransferred: nat, beyond: uint8)
      requires Valid() && bytesTransferred <= BUFFER_SIZE
      modifies this`rxSelfSeqNo, this`rxPeerSeqNo, this`peerGuid, this`peerType, strand
      ensures Valid()
      ensures match Classify(rxBuffer[..], serverId, selfGuid)
        case FromSelf =>
          && Account() == ProbeAccount.Next(cable, old(Account()), ProbeAccount.Reply(true))
          && strand.queue == old(strand.queue) + EventsOf(old(Account()), ProbeAccount.Reply(true))
        case FromPeer(_) =>
          && Account() == ProbeAccount.Next(cable, old(Account()), ProbeAccount.Reply(false))
          && strand.queue == old(strand.queue) + EventsOf(old(Account()), ProbeAccount.Reply(false))
                             + TlvCodec.Requests(rxBuffer[..], beyond, bytesTransferred, TLV_START_OFFSET)
        case _ => Account() == old(Account()) && strand.queue == old(strand.queue)
      ensures match Classify(rxBuffer[..], serverId, selfGuid)
        case FromPeer(hardware) =>
          peerGuid == rxBuffer[54..58] && peerType == if hardware then SessionHardware else old(peerType)
        case _ => peerGuid == old(peerGuid) && peerType == old(peerType)
    {
      hide TlvCodec.Requests, ProbeAccount.ReplyEvents;
      ghost var data := rxBuffer[..];
      var hardware := rxBuffer[42..46] == HARDWARE_COOKIE;
      assert rxBuffer[42..46] == data[42..46] && rxBuffer[46..50] == data[46..50];
      assert rxBuffer[50..58] == data[50..58] && rxBuffer[54..58] == data[54..58];
      if rxBuffer[46..50] == [0, 0, 0, 0] && (Word(rxBuffer[38], rxBuffer[39]) == serverId || hardware) {
        if rxBuffer[50..58] == [0, 0, 0, 0, 0, 0, 0, 0] {
          return;
        }
        var isSelfGuid := rxBuffer[54..58] == selfGuid;
        if isSelfGuid {
          rxSelfSeqNo := txSeqNo;
        } else {
          rxPeerSeqNo := txSeqNo;
          peerGuid := rxBuffer[54..58];
          if hardware {
            peerType := SessionHardware;
          }
        }
        ReportHeartbeatReplyReceived(isSelfGuid);
        HandleTlvRecv(bytesTransferred, isSelfGuid, beyond);
      }
    }

    // ----- timeouts, suspension and statistics -----

    method ReportHeartbeatReplyNotReceived()
      modifies this`icmpUnknownEventCount, strand
      ensures strand.queue == old(strand.queue) + ProbeAccount.TimeoutEvents(cable, old(Account()))
      ensures icmpUnknownEventCount ==
              if ProbeAccount.Unanswered(cable, old(Account())) then ProbeAccount.Inc64(old(icmpUnknownEventCount))
              else old(icmpUnknownEventCount)
    {
      match cable {
        case ActiveStandbyCable =>
          if txSeqNo != rxSelfSeqNo && txSeqNo != rxPeerSeqNo {
            strand.Post(ProberEventMsg(IcmpUnknown));
            icmpUnknownEventCount := ProbeAccount.Inc64(icmpUnknownEventCount);
          }
        case ActiveActiveCable =>
          if txSeqNo != rxSelfSeqNo {
            strand.Post(ProberEventMsg(IcmpUnknown));
            icmpUnknownEventCount := ProbeAccount.Inc64(icmpUnknownEventCount);
          }
          if txSeqNo != rxPeerSeqNo {
            strand.Post(PeerEventMsg(IcmpPeerUnknown));
          }
      }
    }

    /** The first heartbeat, and the next one after every timeout. */
    method StartProbing()
      requires Ready()
      modifies this, txBuffer
      ensures Ready() && Transmitting() == HeartbeatFrame.Perform(old(Transmitting()), Heartbeat(false))
      ensures Account() == ProbeAccount.Next(cable, old(Account()), ProbeAccount.Sending) && serverId == old(serverId)
    {
      SendHeartbeat(false);
    }

    method HandleTimeout()
      requires Ready()
      modifies this, txBuffer, strand
      ensures Ready() && Transmitting() == HeartbeatFrame.Perform(old(Transmitting()), Heartbeat(false))
      ensures Account() == ProbeAccount.Next(cable, old(Account()), ProbeAccount.Timeout) && serverId == old(serverId)
      ensures strand.queue == old(strand.queue) + EventsOf(old(Account()), ProbeAccount.Timeout)
    {
      hide Holds, HeartbeatFrame.SendHeartbeat, ProbeAccount.TimeoutEvents, ProbeAccount.Inc64, ProbeAccount.Unanswered;
      ReportHeartbeatReplyNotReceived();
      icmpPacketCount := ProbeAccount.Inc64(icmpPacketCount);
      if icmpPacketCount % statUpdateInterval == 0 {
        strand.Post(PacketLossUpdate(icmpUnknownEventCount, icmpPacketCount));
      }
      StartProbing();
    }

    method ResetIcmpPacketCounts()
      modifies this`icmpUnknownEventCount, this`icmpPacketCount, strand
      ensures Account() == ProbeAccount.Next(cable, old(Account()), ProbeAccount.ResetCounts)
      ensures strand.queue == old(strand.queue) + EventsOf(old(Account()), ProbeAccount.ResetCounts)
    {
      icmpUnknownEventCount := 0;
      icmpPacketCount := 0;
      strand.Post(PacketLossUpdate(icmpUnknownEventCount, icmpPacketCount));
    }

    /** Heartbeats that go out whatever is suspended, as many as it takes to be heard. */
    method DetectLink(count: nat)
      requires Ready()
      modifies this, txBuffer
      ensures Ready() && Transmitting() == HeartbeatFrame.PerformAll(old(Transmitting()), Heartbeats(count))
      ensures |wire| == |old(wire)| + count
    {
      hide Holds, HeartbeatFrame.SendHeartbeat;
      for i := 0 to count
        invariant Ready()
        invariant Transmitting() == HeartbeatFrame.PerformAll(old(Transmitting()), Heartbeats(i))
      {
        SendHeartbeat(true);
        assert Heartbeats(i + 1)[..i] == Heartbeats(i);
      }
      HeartbeatsReachWire(old(Transmitting()), count);
    }

    /** An early heartbeat for a peer that is known to probe in software; there never is one, so nothing is sent. */
    method ProbePeerTor()
      requires Ready()
      modifies this, txBuffer
      ensures Ready() && Transmitting() == old(Transmitting()) && Account() == old(Account())
    {
      if peerType == SessionSoftware {
        assert false; // a heartbeat would go out here
      }
    }

    method SuspendTxProbes(suspendTime_msec: uint32)
      modifies this`suspendTx, this`suspendTimer
      ensures Transmitting() == HeartbeatFrame.Perform(old(Transmitting()), Suspend)
      ensures suspendTimer == Some(suspendTime_msec)
    {
      suspendTimer := Some(suspendTime_msec);
      suspendTx := true;
    }

    /** The timer is cancelled; the suspension ends when its handler runs. */
    method ResumeTxProbes()
      modifies this`suspendTimer
      ensures suspendTimer == None && Transmitting() == old(Transmitting())
    {
      suspendTimer := None;
    }

    /** The suspend timer ran out, or was cancelled by a resume or by the next suspension, whose timer then runs on. */
    method HandleSuspendTimeout(success: bool)
      modifies this`suspendTx, this`suspendTimer, strand
      ensures Transmitting() == HeartbeatFrame.Perform(old(Transmitting()), SuspendEnded)
      ensures suspendTimer == if success then None else old(suspendTimer)
      ensures strand.queue == old(strand.queue) + if success then [SuspendTimerExpiredMsg] else []
    {
      suspendTx := false;
      if success {
        suspendTimer := None;
        strand.Post(SuspendTimerExpiredMsg);
      }
    }

    method ShutdownTxProbes()
      modifies this`shutdownTx
      ensures Transmitting() == HeartbeatFrame.Perform(old(Transmitting()), Shutdown)
    {
      shutdownTx := true;
    }

    method RestartTxProbes()
      modifies this`shutdownTx
      ensures Transmitting() == HeartbeatFrame.Perform(old(Transmitting()), Restart)
    {
      shutdownTx := false;
    }
  }

  // ----- what two ends make of a frame -----

  /** The bytes from `from` on. */
  ghost predicate At(data: seq<uint8>, from: nat, bytes: seq<uint8>) {
    from + |bytes| <= |data| && forall i :: 0 <= i < |bytes| ==> data[from + i] == bytes[i]
  }

  /**
   Which packets count, and for whom: those of version 0 that carry the server's number, or the cookie of the
   hardware prober, which leaves the number unset. A sender without an id is nobody; this side's id makes a packet
   its own, and any other id the peer's, whose cookie tells how it probes.
   */
  lemma PacketsAreTold(data: seq<uint8>, serverId: uint16, selfGuid: seq<uint8>)
    requires |data| == BUFFER_SIZE && |selfGuid| == 4
    ensures var hardware := At(data, 42, [0x58, 0x76, 0x7e, 0x7a]);
            var counts := At(data, 46, [0, 0, 0, 0]) && (At(data, 38, [serverId / 0x100, serverId % 0x100]) || hardware);
            var nobody := At(data, 50, [0, 0, 0, 0, 0, 0, 0, 0]);
            && (Classify(data, serverId, selfGuid) == Invalid <==> !counts)
            && (Classify(data, serverId, selfGuid) == NoGuid <==> counts && nobody)
            && (Classify(data, serverId, selfGuid) == FromSelf <==> counts && !nobody && At(data, 54, selfGuid))
            && (Classify(data, serverId, selfGuid) == FromPeer(hardware) <==> counts && !nobody && !At(data, 54, selfGuid))
  {
    SliceIsAt(data, 42, HARDWARE_COOKIE);
    SliceIsAt(data, 46, [0, 0, 0, 0]);
    SliceIsAt(data, 50, [0, 0, 0, 0, 0, 0, 0, 0]);
    SliceIsAt(data, 54, selfGuid);
    WordIsAt(data, serverId);
  }

  lemma SliceIsAt(data: seq<uint8>, from: nat, bytes: seq<uint8>)
    requires from + |bytes| <= |data|
    ensures data[from..from + |bytes|] == bytes <==> At(data, from, bytes)
  {
    var slice := data[from..from + |bytes|];
    assert forall i :: 0 <= i < |bytes| ==> slice[i] == data[from + i];
  }

  lemma WordIsAt(data: seq<uint8>, word: uint16)
    requires |data| == BUFFER_SIZE
    ensures Word(data[38], data[39]) == word <==> At(data, 38, [word / 0x100, word % 0x100])
  {
    var bytes := [word / 0x100, word % 0x100];
    assert At(data, 38, bytes) <==> data[38 + 0] == bytes[0] && data[38 + 1] == bytes[1];
  }

  /**
   A server's echo of a frame, the same bytes as far as the prober looks, is its own reply to the side that sent
   it and a peer's reply to the other side, which is asked for exactly the frame's command.
   */
  lemma EchoIsRecognised(f: Frame, data: seq<uint8>, serverId: uint16, guid: seq<uint8>, received: nat, beyond: uint8)
    requires |data| == BUFFER_SIZE && received <= BUFFER_SIZE && Contents(f) <= data[..received]
    requires f.addresses.serverId == serverId && f.addresses.guid != [0, 0, 0, 0]
    ensures Classify(data, serverId, guid) == if guid == f.addresses.guid then FromSelf else FromPeer(false)
    ensures TlvCodec.Requests(data, beyond, received, TLV_START_OFFSET)
            == if f.command.Some? then [TlvCodec.RequestFrom(f.command.value)] else []
  {
    hide Contents, TlvCodec.Requests, Word;
    TlvCodec.FrameAsksForItsCommand(f, data, beyond, received);
    PayloadAt(f, data, received);
    GuidIsThere(data, f.addresses.guid);
  }

  lemma GuidIsThere(data: seq<uint8>, guid: seq<uint8>)
    requires |data| == BUFFER_SIZE && data[54..58] == guid && guid != [0, 0, 0, 0]
    ensures data[50..58] != [0, 0, 0, 0, 0, 0, 0, 0]
  {
    SliceOfSlice(data, 50, 58, 4, 8);
    var zeros: seq<uint8> := [0, 0, 0, 0, 0, 0, 0, 0];
    assert zeros[4..8] == [0, 0, 0, 0];
  }

  lemma PayloadAt(f: Frame, data: seq<uint8>, received: nat)
    requires |data| == BUFFER_SIZE && received <= BUFFER_SIZE && Contents(f) <= data[..received]
    ensures Word(data[38], data[39]) == f.addresses.serverId
    ensures data[42..46] == [0x47, 0x65, 0x6d, 0x69] && data[46..50] == [0, 0, 0, 0]
    ensures data[50..54] == [0, 0, 0, 0] && data[54..58] == f.addresses.guid
  {
    hide Carryover, IpHeaderChecked, EtherHeader, Tlvs, Put, Payload, IcmpMessage;
    var a, check, b := f.addresses, Carryover(Accumulator(f)), Contents(f);
    var m := IcmpMessage(a, check, f.seqNo, f.command);
    FrameParts(a, f.ipId, check, f.seqNo, f.command);
    FieldsAreMessage(m, a, check, f.seqNo, f.command);
    PutParts(a.serverId, []);
    assert forall i :: 0 <= i < 32 ==> m[i] == b[34..][i] == data[34 + i];
    assert m[4..6] == [data[38], data[39]];
    assert data[42..66] == m[8..32] == Payload(a);
    PayloadPlaced(data, a);
  }
}
