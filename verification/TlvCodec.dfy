/** The TLVs behind the payload of a heartbeat: how they are laid out, and how a received buffer is parsed. */
module TlvCodec {
  import opened Labels
  import opened Strand
  import opened Checksum
  import opened HeartbeatFrame

  const TLV_HEAD_SIZE := 3
  const TLV_COMMAND: uint8 := 0x05
  const TLV_DUMMY: uint8 := 0xfe
  const TLV_SENTINEL: uint8 := 0xff

  // ----- the parser -----

  /** `findNextTlv`: the size of the TLV at the offset, or zero when none fits into the received bytes. */
  function NextTlvSize(data: seq<uint8>, received: nat, offset: nat): (size: nat)
    requires received <= |data|
    ensures size != 0 ==> TLV_HEAD_SIZE <= size && offset + size <= received
  {
    if offset + TLV_HEAD_SIZE > received then 0
    else
      var size := TLV_HEAD_SIZE + Word(data[offset + 1], data[offset + 2]);
      if offset + size > received then 0 else size
  }

  /** A sentinel stops the parse, and so does an unknown TLV with a body of one byte. */
  predicate Stops(kind: uint8, size: nat) {
    kind == TLV_SENTINEL || (kind != TLV_COMMAND && size == 4)
  }

  datatype Visit = Visit(offset: nat, size: nat)

  /** The TLVs that the parse visits from an offset on. */
  function Scan(data: seq<uint8>, received: nat, offset: nat): seq<Visit>
    requires received <= |data|
    decreases received - offset
  {
    var size := NextTlvSize(data, received, offset);
    if size == 0 then []
    else if Stops(data[offset], size) then [Visit(offset, size)]
    else [Visit(offset, size)] + Scan(data, received, offset + size)
  }

  function RequestFor(command: uint8): seq<Message> {
    if command == 1 then [SwitchRequestMsg] else if command == 2 then [MuxProbeRequestMsg] else []
  }

  /** The byte where a command is read, in the body or, when that is empty, behind it. */
  function CommandAt(data: seq<uint8>, beyond: uint8, offset: nat): uint8 {
    if offset + TLV_HEAD_SIZE < |data| then data[offset + TLV_HEAD_SIZE] else beyond
  }

  function RequestOf(data: seq<uint8>, beyond: uint8, v: Visit): seq<Message>
    requires v.offset < |data|
  {
    if data[v.offset] == TLV_COMMAND then RequestFor(CommandAt(data, beyond, v.offset)) else []
  }

  /** The requests that a parse delivers when the sender is the peer. */
  function Requests(data: seq<uint8>, beyond: uint8, received: nat, offset: nat): seq<Message>
    requires received <= |data|
    decreases received - offset
  {
    var size := NextTlvSize(data, received, offset);
    if size == 0 then []
    else
      RequestOf(data, beyond, Visit(offset, size))
      + if Stops(data[offset], size) then [] else Requests(data, beyond, received, offset + size)
  }

  lemma RequestsUnfold(data: seq<uint8>, beyond: uint8, received: nat, offset: nat)
    requires received <= |data|
    ensures var size := NextTlvSize(data, received, offset);
            Requests(data, beyond, received, offset) ==
              if size == 0 then []
              else RequestOf(data, beyond, Visit(offset, size))
                   + if Stops(data[offset], size) then [] else Requests(data, beyond, received, offset + size)
  {
  }

  /** A visit takes its request off the front of what is still to be delivered. */
  lemma OneMoreVisit(data: seq<uint8>, beyond: uint8, received: nat, offset: nat, delivered: seq<Message>)
    requires received <= |data| && NextTlvSize(data, received, offset) != 0
    ensures var size := NextTlvSize(data, received, offset);
            var request := RequestOf(data, beyond, Visit(offset, size));
            && request == (if data[offset] == TLV_COMMAND then RequestFor(CommandAt(data, beyond, offset)) else [])
            && delivered + Requests(data, beyond, received, offset) ==
               delivered + request
               + if Stops(data[offset], size) then [] else Requests(data, beyond, received, offset + size)
  {
    hide Requests;
    RequestsUnfold(data, beyond, received, offset);
  }

  function Collected(data: seq<uint8>, beyond: uint8, visits: seq<Visit>): seq<Message>
    requires forall v :: v in visits ==> v.offset < |data|
  {
    if visits == [] then [] else RequestOf(data, beyond, visits[0]) + Collected(data, beyond, visits[1..])
  }

  /** The requests come from the visited TLVs, in the order of the visits, and from nothing else. */
  lemma {:induction false} RequestsComeFromVisits(data: seq<uint8>, beyond: uint8, received: nat, offset: nat)
    requires received <= |data|
    ensures forall v :: v in Scan(data, received, offset) ==> v.offset < |data|
    ensures Requests(data, beyond, received, offset) == Collected(data, beyond, Scan(data, received, offset))
    decreases received - offset
  {
    var size := NextTlvSize(data, received, offset);
    if size != 0 && !Stops(data[offset], size) {
      RequestsComeFromVisits(data, beyond, received, offset + size);
      assert Scan(data, received, offset)[1..] == Scan(data, received, offset + size);
    }
  }

  /** Visited TLVs lie side by side from the offset on, each within the received bytes. */
  ghost predicate Tiles(visits: seq<Visit>, offset: nat, received: nat) {
    && (visits != [] ==> visits[0].offset == offset)
    && (forall i :: 0 <= i < |visits| ==> visits[i].size >= TLV_HEAD_SIZE && visits[i].offset + visits[i].size <= received)
    && (forall i :: 0 <= i < |visits| - 1 ==> visits[i + 1].offset == visits[i].offset + visits[i].size)
  }

  lemma ScanUnfold(data: seq<uint8>, received: nat, offset: nat)
    requires received <= |data|
    ensures var size := NextTlvSize(data, received, offset);
            Scan(data, received, offset) ==
              if size == 0 then []
              else if Stops(data[offset], size) then [Visit(offset, size)]
              else [Visit(offset, size)] + Scan(data, received, offset + size)
  {
  }

  lemma ConsTiles(v: Visit, rest: seq<Visit>, received: nat)
    requires v.size >= TLV_HEAD_SIZE && v.offset + v.size <= received && Tiles(rest, v.offset + v.size, received)
    ensures Tiles([v] + rest, v.offset, received)
  {
    var visits := [v] + rest;
    assert forall i :: 0 < i < |visits| ==> visits[i] == rest[i - 1];
  }

  /** The parse was stopped, or no TLV fits any more. */
  ghost predicate Finished(data: seq<uint8>, visits: seq<Visit>, offset: nat, received: nat)
    requires received <= |data|
  {
    if visits == [] then NextTlvSize(data, received, offset) == 0
    else
      var v := visits[|visits| - 1];
      (v.offset < |data| && Stops(data[v.offset], v.size)) || NextTlvSize(data, received, v.offset + v.size) == 0
  }

  /** On arbitrary bytes the parse terminates, and what it visits tiles a stretch of the received bytes. */
  lemma {:induction false} ScanTiles(data: seq<uint8>, received: nat, offset: nat)
    requires received <= |data|
    ensures Tiles(Scan(data, received, offset), offset, received)
    decreases received - offset
  {
    hide NextTlvSize, Word, Stops, Scan;
    ScanUnfold(data, received, offset);
    var size := NextTlvSize(data, received, offset);
    if size != 0 {
      hide Tiles;
      var rest := if Stops(data[offset], size) then [] else Scan(data, received, offset + size);
      if Stops(data[offset], size) {
        NothingTiles(offset + size, received);
      } else {
        ScanTiles(data, received, offset + size);
      }
      ConsTiles(Visit(offset, size), rest, received);
      assert Scan(data, received, offset) == [Visit(offset, size)] + rest;
    } else {
      NothingTiles(offset, received);
    }
  }

  lemma NothingTiles(offset: nat, received: nat)
    ensures Tiles([], offset, received)
  {
  }

  /** It goes on until a TLV stops it or none fits any more; no TLV but the last one is of the kind that stops it. */
  lemma {:induction false} ScanIsExhaustive(data: seq<uint8>, received: nat, offset: nat)
    requires received <= |data|
    ensures var visits := Scan(data, received, offset);
            && Finished(data, visits, offset, received)
            && forall i :: 0 <= i < |visits| - 1 ==> visits[i].offset < |data| && !Stops(data[visits[i].offset], visits[i].size)
    decreases received - offset
  {
    hide Stops, NextTlvSize, Word, Scan;
    ScanUnfold(data, received, offset);
    var size := NextTlvSize(data, received, offset);
    if size != 0 && !Stops(data[offset], size) {
      ScanIsExhaustive(data, received, offset + size);
      var rest, visits := Scan(data, received, offset + size), Scan(data, received, offset);
      assert visits == [Visit(offset, size)] + rest;
      assert forall i :: 0 < i < |visits| ==> visits[i] == rest[i - 1];
    }
  }

  // ----- round trip -----

  datatype Tlv = Tlv(kind: uint8, body: seq<uint8>)

  function Encode(t: Tlv): (b: seq<uint8>)
    requires |t.body| < 0x1_0000
    ensures |b| == TLV_HEAD_SIZE + |t.body|
  {
    [t.kind] + Put(|t.body|, t.body)
  }

  ghost predicate Encodable(ts: seq<Tlv>) {
    forall i :: 0 <= i < |ts| ==> |ts[i].body| < 0x1_0000
  }

  /** The TLVs in their order, ended by a sentinel. */
  function EncodeAll(ts: seq<Tlv>): seq<uint8>
    requires Encodable(ts)
  {
    if ts == [] then SENTINEL else Encode(ts[0]) + EncodeAll(ts[1..])
  }

  /** What a sequence of TLVs asks for; a command without a body is read from what follows it. */
  function Meaning(ts: seq<Tlv>): seq<Message>
    requires Encodable(ts)
  {
    if ts == [] then []
    else if ts[0].kind == TLV_COMMAND then RequestFor((ts[0].body + EncodeAll(ts[1..]) + [0])[0]) + Meaning(ts[1..])
    else if ts[0].kind == TLV_SENTINEL || |ts[0].body| == 1 then []
    else Meaning(ts[1..])
  }

  lemma EncodedAt(data: seq<uint8>, received: nat, offset: nat, t: Tlv, rest: seq<uint8>)
    requires offset <= received <= |data| && |t.body| < 0x1_0000
    requires Encode(t) + rest <= data[offset..received]
    ensures NextTlvSize(data, received, offset) == TLV_HEAD_SIZE + |t.body|
    ensures data[offset] == t.kind
    ensures var next := offset + TLV_HEAD_SIZE + |t.body|; next <= received && rest <= data[next..received]
  {
    var b, next := Encode(t) + rest, offset + TLV_HEAD_SIZE + |t.body|;
    PutParts(|t.body|, t.body);
    assert b[0] == t.kind && b[1] == Put(|t.body|, t.body)[0] && b[2] == Put(|t.body|, t.body)[1];
    assert forall i :: 0 <= i < |b| ==> b[i] == data[offset..received][i] == data[offset + i];
    forall i | 0 <= i < |rest| ensures rest[i] == data[next..received][i] {
      assert rest[i] == b[TLV_HEAD_SIZE + |t.body| + i];
    }
  }

  lemma CommandReadAt(data: seq<uint8>, beyond: uint8, received: nat, offset: nat, t: Tlv, rest: seq<uint8>)
    requires offset <= received <= |data| && |t.body| < 0x1_0000 && rest != []
    requires Encode(t) + rest <= data[offset..received]
    ensures CommandAt(data, beyond, offset) == (t.body + rest + [0])[0]
  {
    var b := Encode(t) + rest;
    assert b[3] == data[offset..received][3] == data[offset + 3];
    PutParts(|t.body|, t.body);
    assert Encode(t)[1..] == Put(|t.body|, t.body);
    if t.body == [] {
      assert b[3] == rest[0];
    } else {
      assert b[3] == Put(|t.body|, t.body)[2..][0] == t.body[0];
    }
  }

  ghost predicate Delivers(data: seq<uint8>, beyond: uint8, received: nat, offset: nat, asked: seq<Message>)
    requires received <= |data|
  {
    Requests(data, beyond, received, offset) == asked
  }

  /**
   Whatever TLVs are appended, followed by a sentinel and anything at all: the parse delivers exactly what
   they mean, in their order.
   */
  lemma {:induction false} RoundTrip(data: seq<uint8>, beyond: uint8, received: nat, offset: nat, ts: seq<Tlv>)
    requires offset <= received <= |data| && Encodable(ts)
    requires EncodeAll(ts) <= data[offset..received]
    ensures Delivers(data, beyond, received, offset, Meaning(ts))
    decreases |ts|
  {
    hide NextTlvSize, Word, Encode, CommandAt, RequestFor, Requests;
    RequestsUnfold(data, beyond, received, offset);
    if ts == [] {
      SentinelStops(data, beyond, received, offset);
    } else {
      var t, rest := ts[0], EncodeAll(ts[1..]);
      var next := offset + TLV_HEAD_SIZE + |t.body|;
      EncodedAt(data, received, offset, t, rest);
      CommandReadAt(data, beyond, received, offset, t, rest);
      if !Stops(t.kind, TLV_HEAD_SIZE + |t.body|) {
        RoundTrip(data, beyond, received, next, ts[1..]);
      }
    }
  }

  lemma SentinelAt(data: seq<uint8>, received: nat, offset: nat)
    requires offset <= received <= |data| && SENTINEL <= data[offset..received]
    ensures offset + 3 <= received && data[offset] == TLV_SENTINEL && NextTlvSize(data, received, offset) == TLV_HEAD_SIZE
  {
    var rest := data[offset..received];
    assert rest[0] == SENTINEL[0] && rest[1] == SENTINEL[1] && rest[2] == SENTINEL[2];
  }

  lemma SentinelStops(data: seq<uint8>, beyond: uint8, received: nat, offset: nat)
    requires offset <= received <= |data| && SENTINEL <= data[offset..received]
    ensures Requests(data, beyond, received, offset) == []
  {
    hide Requests, RequestOf, NextTlvSize;
    SentinelAt(data, received, offset);
    RequestsUnfold(data, beyond, received, offset);
    NoRequest(data, beyond, Visit(offset, TLV_HEAD_SIZE));
  }

  lemma NoRequest(data: seq<uint8>, beyond: uint8, v: Visit)
    requires v.offset < |data| && data[v.offset] == TLV_SENTINEL
    ensures RequestOf(data, beyond, v) == []
  {
  }

  // ----- the promise that unknown TLVs are skipped -----

  /** The byte a command at `j` is read from: its body, or what follows when the body is empty. */
  function CommandByteAt(ts: seq<Tlv>, j: nat): uint8
    requires Encodable(ts) && j < |ts|
  {
    (ts[j].body + EncodeAll(ts[j + 1..]) + [0])[0]
  }

  /** What is promised: the requests of all commands in front of the first sentinel, unknown TLVs skipped. */
  function Promised(ts: seq<Tlv>): seq<Message>
    requires Encodable(ts)
  {
    if ts == [] || ts[0].kind == TLV_SENTINEL then []
    else (if ts[0].kind == TLV_COMMAND then RequestFor(CommandByteAt(ts, 0)) else []) + Promised(ts[1..])
  }

  predicate UnknownOfOneByte(t: Tlv) {
    t.kind != TLV_COMMAND && t.kind != TLV_SENTINEL && |t.body| == 1
  }

  /** A command in front of the first sentinel that asks for something. */
  ghost predicate Asks(ts: seq<Tlv>, j: nat)
    requires Encodable(ts)
  {
    && j < |ts| && ts[j].kind == TLV_COMMAND && CommandByteAt(ts, j) in {1, 2}
    && forall k :: 0 <= k < j ==> ts[k].kind != TLV_SENTINEL
  }

  /** An unknown TLV with a body of one byte comes before such a command. */
  ghost predicate HidesACommand(ts: seq<Tlv>)
    requires Encodable(ts)
  {
    exists i, j :: 0 <= i < j < |ts| && UnknownOfOneByte(ts[i]) && Asks(ts, j)
  }

  lemma AsksInRest(ts: seq<Tlv>, j: nat)
    requires Encodable(ts) && ts != [] && ts[0].kind != TLV_SENTINEL && 0 < j
    ensures Asks(ts, j) <==> Asks(ts[1..], j - 1)
  {
    hide RequestFor;
    if j < |ts| {
      assert ts[1..][j - 1] == ts[j] && ts[1..][j..] == ts[j + 1..];
      assert forall k :: 0 < k < j ==> ts[1..][k - 1] == ts[k];
      assert forall k :: 0 <= k < j - 1 ==> ts[1..][k] == ts[k + 1];
    }
  }

  lemma {:induction false} PromisedIsEmpty(ts: seq<Tlv>)
    requires Encodable(ts)
    ensures Promised(ts) == [] <==> !exists j :: Asks(ts, j)
  {
    if ts != [] && ts[0].kind != TLV_SENTINEL {
      hide Asks;
      var rest := ts[1..];
      PromisedIsEmpty(rest);
      AsksFirst(ts);
      if j: nat :| Asks(ts, j) && j > 0 {
        AsksInRest(ts, j);
      }
      if j: nat :| Asks(rest, j) {
        AsksInRest(ts, j + 1);
      }
    } else {
      NobodyAsks(ts);
    }
  }

  lemma AsksFirst(ts: seq<Tlv>)
    requires Encodable(ts) && ts != []
    ensures Asks(ts, 0) <==> ts[0].kind == TLV_COMMAND && RequestFor(CommandByteAt(ts, 0)) != []
  {
  }

  lemma NobodyAsks(ts: seq<Tlv>)
    requires Encodable(ts) && (ts == [] || ts[0].kind == TLV_SENTINEL)
    ensures !exists j :: Asks(ts, j)
  {
  }

  lemma HiddenInRest(ts: seq<Tlv>)
    requires Encodable(ts) && ts != [] && ts[0].kind != TLV_SENTINEL && !UnknownOfOneByte(ts[0])
    ensures HidesACommand(ts) <==> HidesACommand(ts[1..])
  {
    hide Asks;
    var rest := ts[1..];
    if i: nat, j: nat :| i < j < |ts| && UnknownOfOneByte(ts[i]) && Asks(ts, j) {
      AsksInRest(ts, j);
      assert rest[i - 1] == ts[i];
    }
    if i: nat, j: nat :| i < j < |rest| && UnknownOfOneByte(rest[i]) && Asks(rest, j) {
      AsksInRest(ts, j + 1);
      assert rest[i] == ts[i + 1];
    }
  }

  lemma HiddenByFirst(ts: seq<Tlv>)
    requires Encodable(ts) && ts != [] && UnknownOfOneByte(ts[0])
    ensures HidesACommand(ts) <==> exists j :: Asks(ts[1..], j)
  {
    hide Asks;
    var rest := ts[1..];
    if i: nat, j: nat :| i < j < |ts| && UnknownOfOneByte(ts[i]) && Asks(ts, j) {
      AsksInRest(ts, j);
    }
    if j: nat :| Asks(rest, j) {
      AsksInRest(ts, j + 1);
      AsksIsIndex(ts, j + 1);
    }
  }

  lemma AsksIsIndex(ts: seq<Tlv>, j: nat)
    requires Encodable(ts) && Asks(ts, j)
    ensures j < |ts|
  {
  }

  /** What the first TLV adds to both. */
  function FirstRequest(ts: seq<Tlv>): seq<Message>
    requires Encodable(ts) && ts != []
  {
    if ts[0].kind == TLV_COMMAND then RequestFor(CommandByteAt(ts, 0)) else []
  }

  lemma MeaningUnfolds(ts: seq<Tlv>)
    requires Encodable(ts) && ts != [] && ts[0].kind != TLV_SENTINEL
    ensures Promised(ts) == FirstRequest(ts) + Promised(ts[1..])
    ensures Meaning(ts) == if UnknownOfOneByte(ts[0]) then [] else FirstRequest(ts) + Meaning(ts[1..])
  {
    hide EncodeAll, RequestFor;
  }

  lemma {:induction false} MeaningIsPromisedWhen(ts: seq<Tlv>)
    requires Encodable(ts)
    ensures Meaning(ts) == Promised(ts) <==> !HidesACommand(ts)
  {
    if ts == [] || ts[0].kind == TLV_SENTINEL {
      NothingHidden(ts);
    } else {
      hide Meaning, Promised, Asks, HidesACommand, EncodeAll, RequestFor;
      var rest := ts[1..];
      MeaningUnfolds(ts);
      if UnknownOfOneByte(ts[0]) {
        HiddenByFirst(ts);
        PromisedIsEmpty(rest);
      } else {
        HiddenInRest(ts);
        MeaningIsPromisedWhen(rest);
        SamePrefix(FirstRequest(ts), Meaning(rest), Promised(rest));
      }
    }
  }

  lemma SamePrefix(prefix: seq<Message>, a: seq<Message>, b: seq<Message>)
    ensures prefix + a == prefix + b <==> a == b
  {
    assert (prefix + a)[|prefix|..] == a && (prefix + b)[|prefix|..] == b;
  }

  lemma NothingHidden(ts: seq<Tlv>)
    requires Encodable(ts) && (ts == [] || ts[0].kind == TLV_SENTINEL)
    ensures !HidesACommand(ts)
  {
  }

  /**
   The promise holds of a received sequence of TLVs exactly when no unknown TLV with a body of one byte comes,
   in front of the first sentinel, before a command that asks for something.
   */
  lemma UnknownsAreSkippedExactlyWhen(data: seq<uint8>, beyond: uint8, received: nat, offset: nat, ts: seq<Tlv>)
    requires offset <= received <= |data| && Encodable(ts)
    requires EncodeAll(ts) <= data[offset..received]
    ensures Delivers(data, beyond, received, offset, Promised(ts)) <==> !HidesACommand(ts)
  {
    RoundTrip(data, beyond, received, offset, ts);
    MeaningIsPromisedWhen(ts);
  }

  /** An unknown TLV of kind 0x10 in front of a switch command. */
  function SwitchBehindUnknown(body: seq<uint8>): seq<Tlv> {
    [Tlv(0x10, body), Tlv(TLV_COMMAND, [1])]
  }

  /** The bytes that show it: the switch command is lost behind one byte of body and delivered behind two. */
  lemma OneByteUnknownHidesSwitch(beyond: uint8)
    ensures var lost := EncodeAll(SwitchBehindUnknown([0]));
            Requests(lost, beyond, |lost|, 0) == [] && Promised(SwitchBehindUnknown([0])) == [SwitchRequestMsg]
    ensures var kept := EncodeAll(SwitchBehindUnknown([0, 0]));
            Requests(kept, beyond, |kept|, 0) == [SwitchRequestMsg]
  {
    hide Requests, Scan, EncodeAll, Word;
    SwitchMeaning([0]);
    SwitchMeaning([0, 0]);
    var lost, kept := EncodeAll(SwitchBehindUnknown([0])), EncodeAll(SwitchBehindUnknown([0, 0]));
    assert lost[0..|lost|] == lost && kept[0..|kept|] == kept;
    RoundTrip(lost, beyond, |lost|, 0, SwitchBehindUnknown([0]));
    RoundTrip(kept, beyond, |kept|, 0, SwitchBehindUnknown([0, 0]));
  }

  lemma SwitchMeaning(body: seq<uint8>)
    requires |body| < 0x1_0000
    ensures var ts := SwitchBehindUnknown(body);
            Promised(ts) == [SwitchRequestMsg] && Meaning(ts) == if |body| == 1 then [] else [SwitchRequestMsg]
  {
    hide Encode, EncodeAll;
    var ts := SwitchBehindUnknown(body);
    assert ts[1..] == [Tlv(TLV_COMMAND, [1])] && ts[1..][1..] == [];
    assert CommandByteAt(ts[1..], 0) == 1;
    assert Meaning(ts[1..]) == [SwitchRequestMsg] && Promised(ts[1..]) == [SwitchRequestMsg];
  }

  // ----- what the prober itself appends -----

  datatype Item = CommandItem(command: Command) | DummyItem(padding: uint16, seqNo: uint32)

  function Zeros(n: nat): seq<uint8> {
    seq(n, _ => 0)
  }

  predicate Fits(item: Item) {
    item.DummyItem? ==> item.padding + 4 < 0x1_0000
  }

  function TlvOf(item: Item): (t: Tlv)
    requires Fits(item)
    ensures |t.body| < 0x1_0000
  {
    match item
    case CommandItem(c) => Tlv(TLV_COMMAND, [CommandByte(c)])
    case DummyItem(padding, seqNo) =>
      Tlv(TLV_DUMMY, Zeros(padding) + Put(seqNo / 0x1_0000, Put(seqNo % 0x1_0000, [])))
  }

  function TlvsOf(items: seq<Item>): (ts: seq<Tlv>)
    requires forall i :: 0 <= i < |items| ==> Fits(items[i])
    ensures |ts| == |items| && forall i :: 0 <= i < |ts| ==> ts[i] == TlvOf(items[i])
  {
    seq(|items|, i requires 0 <= i < |items| => TlvOf(items[i]))
  }

  function RequestFrom(c: Command): Message {
    match c
    case SwitchActive => SwitchRequestMsg
    case MuxProbe => MuxProbeRequestMsg
  }

  function CommandsIn(items: seq<Item>): seq<Message> {
    if items == [] then []
    else (if items[0].CommandItem? then [RequestFrom(items[0].command)] else []) + CommandsIn(items[1..])
  }

  /** Dummies are skipped: commands and dummies in any order mean exactly the commands, in order. */
  lemma {:induction false} ItemsMeanTheirCommands(items: seq<Item>)
    requires forall i :: 0 <= i < |items| ==> Fits(items[i])
    ensures Meaning(TlvsOf(items)) == CommandsIn(items)
  {
    if items != [] {
      assert TlvsOf(items)[1..] == TlvsOf(items[1..]);
      ItemsMeanTheirCommands(items[1..]);
    }
  }

  /** A frame of the prober asks the peer for its command, and for nothing when it carries none. */
  lemma FrameAsksForItsCommand(f: Frame, data: seq<uint8>, beyond: uint8, received: nat)
    requires received <= |data| && Contents(f) <= data[..received]
    ensures Requests(data, beyond, received, TLV_START_OFFSET)
            == if f.command.Some? then [RequestFrom(f.command.value)] else []
  {
    var items := if f.command.Some? then [CommandItem(f.command.value)] else [];
    ItemsMeanTheirCommands(items);
    TlvsAreItems(f.command, items);
    TlvsOfContents(f);
    var b := Contents(f);
    assert b == data[..|b|];
    assert Tlvs(f.command) == data[TLV_START_OFFSET..received][..|Tlvs(f.command)|];
    RoundTrip(data, beyond, received, TLV_START_OFFSET, TlvsOf(items));
  }

  lemma TlvsAreItems(command: Option<Command>, items: seq<Item>)
    requires items == if command.Some? then [CommandItem(command.value)] else []
    ensures EncodeAll(TlvsOf(items)) == Tlvs(command)
    ensures CommandsIn(items) == if command.Some? then [RequestFrom(command.value)] else []
  {
    if command.Some? {
      assert TlvsOf(items)[1..] == [] && items[1..] == [];
      assert Encode(TlvOf(items[0])) == CommandTlv(command.value);
    }
  }

  lemma TlvsOfContents(f: Frame)
    ensures |Contents(f)| == TLV_START_OFFSET + |Tlvs(f.command)|
    ensures Contents(f)[TLV_START_OFFSET..] == Tlvs(f.command)
  {
    var a, check := f.addresses, Carryover(Accumulator(f));
    FrameParts(a, f.ipId, check, f.seqNo, f.command);
    FieldsAreMessage(IcmpMessage(a, check, f.seqNo, f.command), a, check, f.seqNo, f.command);
    assert Contents(f)[TLV_START_OFFSET..] == Contents(f)[34..][32..];
  }
}
