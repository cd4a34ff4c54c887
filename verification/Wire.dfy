/** The wire format (src/protocol.c): big-endian fields, the message header, frame and
    signal batches, heartbeats and the handshake payloads. */
module Wire {
  import opened Types
  import opened Records

  const MAGIC := 0x5244_4354

  datatype Header = Header(version: nat, kind: nat, flags: nat, payloadBytes: nat, sequence: nat, timestamp: nat)

  datatype FrameBatch = FrameBatch(sampleSeq: nat, total: nat, start: nat, frames: seq<Frame>)
  datatype SignalUpdate = SignalUpdate(index: nat, value: SignalValue)
  datatype SignalBatch = SignalBatch(sampleSeq: nat, total: nat, start: nat, updates: seq<SignalUpdate>)
  datatype Beat = Beat(
    sampleSeq: nat, changeSeq: nat, dropped: nat, coalesced: nat, milliHz: nat, sourceState: nat)
  datatype Greeting = Greeting(
    hz: nat, frameCount: nat, signalCount: nat, maxRequest: nat, maxResponse: nat,
    capabilities: nat, schemaVersion: nat, schemaHash: nat)

  // ---- Big-endian numbers ----

  function Be(v: nat, n: nat): (b: seq<byte>)
    ensures |b| == n
  {
    if n == 0 then [] else Be(v / 256, n - 1) + [v % 256]
  }

  function Num(b: seq<byte>): nat {
    if b == [] then 0 else 256 * Num(b[..|b| - 1]) + b[|b| - 1]
  }

  /** 256 to the n. */
  function Limit(n: nat): nat {
    if n == 0 then 1 else 256 * Limit(n - 1)
  }

  lemma Limits()
    ensures Limit(1) == 256 && Limit(2) == U16_LIMIT && Limit(4) == U32_LIMIT && Limit(8) == U64_LIMIT
  {
    assert Limit(4) == 256 * Limit(3) && Limit(3) == 256 * Limit(2);
    assert Limit(6) == 256 * Limit(5) && Limit(5) == 256 * Limit(4);
    assert Limit(8) == 256 * Limit(7) && Limit(7) == 256 * Limit(6);
  }

  lemma {:induction false} NumOfBe(v: nat, n: nat)
    requires v < Limit(n)
    ensures Num(Be(v, n)) == v
  {
    if n > 0 {
      NumOfBe(v / 256, n - 1);
      assert Be(v, n)[..n - 1] == Be(v / 256, n - 1);
    }
  }

  lemma {:induction false} BeOfNum(b: seq<byte>)
    ensures Be(Num(b), |b|) == b && Num(b) < Limit(|b|)
  {
    if b != [] {
      BeOfNum(b[..|b| - 1]);
    }
  }

  lemma NumU16(v: nat)
    requires v < U16_LIMIT
    ensures Num(Be(v, 2)) == v
  {
    Limits();
    NumOfBe(v, 2);
  }

  lemma NumU32(v: nat)
    requires v < U32_LIMIT
    ensures Num(Be(v, 4)) == v
  {
    Limits();
    NumOfBe(v, 4);
  }

  lemma NumU64(v: nat)
    requires v < U64_LIMIT
    ensures Num(Be(v, 8)) == v
  {
    Limits();
    NumOfBe(v, 8);
  }

  lemma BytesU16(b: seq<byte>)
    requires |b| == 2
    ensures Be(Num(b), 2) == b && Num(b) < U16_LIMIT
  {
    Limits();
    BeOfNum(b);
  }

  lemma BytesU32(b: seq<byte>)
    requires |b| == 4
    ensures Be(Num(b), 4) == b && Num(b) < U32_LIMIT
  {
    Limits();
    BeOfNum(b);
  }

  lemma BytesU64(b: seq<byte>)
    requires |b| == 8
    ensures Be(Num(b), 8) == b && Num(b) < U64_LIMIT
  {
    Limits();
    BeOfNum(b);
  }

  function Get(b: seq<byte>, at: nat, n: nat): nat
    requires at + n <= |b|
  {
    Num(b[at..at + n])
  }

  // ---- States ----

  function StateCode(s: ObsState): byte {
    match s case Unavailable => 0 case NeverObserved => 1 case Valid => 2 case Invalid => 3
  }

  function CodeState(c: byte): ObsState
    requires c <= 3
  {
    if c == 0 then Unavailable else if c == 1 then NeverObserved else if c == 2 then Valid else Invalid
  }

  // ---- Header ----

  function EncodeHeader(h: Header): (b: seq<byte>)
    ensures |b| == HEADER_SIZE
  {
    Be(MAGIC, 4) + Be(h.version, 2) + Be(h.kind, 2) + Be(h.flags, 4) + Be(h.payloadBytes, 4)
    + Be(h.sequence, 8) + Be(h.timestamp, 8)
  }

  function DecodeHeader(b: seq<byte>): Option<Header>
    requires |b| == HEADER_SIZE
  {
    if Get(b, 0, 4) != MAGIC then None
    else
      var h := Header(Get(b, 4, 2), Get(b, 6, 2), Get(b, 8, 4), Get(b, 12, 4), Get(b, 16, 8), Get(b, 24, 8));
      if h.payloadBytes > MAX_PAYLOAD then None else Some(h)
  }

  predicate HeaderFits(h: Header) {
    && h.version < U16_LIMIT && h.kind < U16_LIMIT && h.flags < U32_LIMIT && h.payloadBytes <= MAX_PAYLOAD
    && h.sequence < U64_LIMIT && h.timestamp < U64_LIMIT
  }

  lemma HeaderRoundTrip(h: Header)
    requires HeaderFits(h)
    ensures DecodeHeader(EncodeHeader(h)) == Some(h)
  {
    var b := EncodeHeader(h);
    Cut8(Be(MAGIC, 4), Be(h.version, 2), Be(h.kind, 2), Be(h.flags, 4), Be(h.payloadBytes, 4),
         Be(h.sequence, 8), Be(h.timestamp, 8), []);
    assert b == b + [];
    NumU32(MAGIC);
    NumU16(h.version);
    NumU16(h.kind);
    NumU32(h.flags);
    NumU32(h.payloadBytes);
    NumU64(h.sequence);
    NumU64(h.timestamp);
  }

  /** An accepted header has one encoding. */
  lemma HeaderIsCanonical(b: seq<byte>)
    requires |b| == HEADER_SIZE && DecodeHeader(b).Some?
    ensures EncodeHeader(DecodeHeader(b).value) == b && HeaderFits(DecodeHeader(b).value)
  {
    BytesU32(b[0..4]);
    BytesU16(b[4..6]);
    BytesU16(b[6..8]);
    BytesU32(b[8..12]);
    BytesU32(b[12..16]);
    BytesU64(b[16..24]);
    BytesU64(b[24..32]);
    Join8(b, 4, 6, 8, 12, 16, 24, 32);
  }

  // ---- Records ----

  function FrameRecord(f: Frame): seq<byte> {
    Be(f.canId, 2) + [StateCode(f.state)] + [0] + f.data + Be(f.firstObserved, 8) + Be(f.lastChange, 8)
  }

  function RecordFrame(r: seq<byte>): Option<Frame> {
    if |r| != FRAME_WIRE_SIZE || r[2] > 2 || r[3] != 0 then None
    else Some(Frame(Get(r, 0, 2), CodeState(r[2]), r[4..12], Get(r, 12, 8), Get(r, 20, 8)))
  }

  predicate FrameFits(f: Frame) {
    && f.canId < U16_LIMIT && !f.state.Invalid? && |f.data| == 8
    && f.firstObserved < U64_LIMIT && f.lastChange < U64_LIMIT
  }

  function SignalRecord(u: SignalUpdate): (r: seq<byte>)
    ensures |r| == SIGNAL_WIRE_SIZE
  {
    Be(u.index, 4) + [StateCode(u.value.state)] + [if u.value.calibrated then 1 else 0] + [0, 0]
    + Be(u.value.raw, 8) + Be(u.value.physical, 8) + Be(u.value.firstObserved, 8) + Be(u.value.lastChange, 8)
  }

  function RecordSignal(r: seq<byte>): Option<SignalUpdate> {
    if |r| != SIGNAL_WIRE_SIZE || r[4] > 3 || r[5] > 1 || r[6] != 0 || r[7] != 0 then None
    else Some(SignalUpdate(Get(r, 0, 4),
                           SignalValue(Get(r, 8, 8), Get(r, 16, 8), Get(r, 24, 8), Get(r, 32, 8),
                                       CodeState(r[4]), r[5] == 1)))
  }

  predicate UpdateFits(u: SignalUpdate) {
    && u.index < U32_LIMIT && u.value.raw < U64_LIMIT && u.value.physical < U64_LIMIT
    && u.value.firstObserved < U64_LIMIT && u.value.lastChange < U64_LIMIT
  }

  lemma FrameRecordRoundTrip(f: Frame)
    requires FrameFits(f)
    ensures |FrameRecord(f)| == FRAME_WIRE_SIZE && RecordFrame(FrameRecord(f)) == Some(f)
  {
    var r := FrameRecord(f);
    Cut8(Be(f.canId, 2), [StateCode(f.state)], [0], f.data, Be(f.firstObserved, 8), Be(f.lastChange, 8), [], []);
    assert r == r + [] + [];
    assert r[2..3] == [StateCode(f.state)] && r[3..4] == [0];
    NumU16(f.canId);
    NumU64(f.firstObserved);
    NumU64(f.lastChange);
  }

  lemma FrameRecordCanonical(r: seq<byte>)
    requires RecordFrame(r).Some?
    ensures FrameFits(RecordFrame(r).value) && FrameRecord(RecordFrame(r).value) == r
  {
    BytesU16(r[0..2]);
    BytesU64(r[12..20]);
    BytesU64(r[20..28]);
    Join8(r, 2, 3, 4, 12, 20, 28, 28);
    assert r[2..3] == [r[2]] && r[3..4] == [r[3]];
  }

  lemma SignalRecordRoundTrip(u: SignalUpdate)
    requires UpdateFits(u)
    ensures RecordSignal(SignalRecord(u)) == Some(u)
  {
    var r := SignalRecord(u);
    Cut8(Be(u.index, 4), [StateCode(u.value.state)], [if u.value.calibrated then 1 else 0], [0, 0],
         Be(u.value.raw, 8), Be(u.value.physical, 8), Be(u.value.firstObserved, 8), Be(u.value.lastChange, 8));
    assert r[4] == r[4..5][0] && r[5] == r[5..6][0] && r[6] == r[6..8][0] && r[7] == r[6..8][1];
    NumU32(u.index);
    NumU64(u.value.raw);
    NumU64(u.value.physical);
    NumU64(u.value.firstObserved);
    NumU64(u.value.lastChange);
  }

  lemma SignalRecordCanonical(r: seq<byte>)
    requires RecordSignal(r).Some?
    ensures UpdateFits(RecordSignal(r).value) && SignalRecord(RecordSignal(r).value) == r
  {
    var u := RecordSignal(r).value;
    BytesU32(r[0..4]);
    BytesU64(r[8..16]);
    BytesU64(r[16..24]);
    BytesU64(r[24..32]);
    BytesU64(r[32..40]);
    assert r[4..5] == [StateCode(u.value.state)];
    assert r[5..6] == [if u.value.calibrated then 1 else 0];
    assert r[6..8] == [0, 0];
    SignalRecordJoin(r, u);
  }

  lemma SignalRecordJoin(r: seq<byte>, u: SignalUpdate)
    requires |r| == SIGNAL_WIRE_SIZE
    requires r[0..4] == Be(u.index, 4) && r[4..5] == [StateCode(u.value.state)]
    requires r[5..6] == [if u.value.calibrated then 1 else 0] && r[6..8] == [0, 0]
    requires r[8..16] == Be(u.value.raw, 8) && r[16..24] == Be(u.value.physical, 8)
    requires r[24..32] == Be(u.value.firstObserved, 8) && r[32..40] == Be(u.value.lastChange, 8)
    ensures SignalRecord(u) == r
  {
    Join8(r, 4, 5, 6, 8, 16, 24, 32);
  }

  // ---- Batches ----

  function BatchPrefix(sampleSeq: nat, total: nat, start: nat, count: nat): (b: seq<byte>)
    ensures |b| == BATCH_PREFIX_SIZE
  {
    Be(sampleSeq, 8) + Be(total, 4) + Be(start, 4) + Be(count, 2) + [0, 0]
  }

  function FrameBatchBytes(b: FrameBatch): seq<byte> {
    BatchPrefix(b.sampleSeq, b.total, b.start, |b.frames|) + WriteAll(b.frames, FrameRecord)
  }

  function SignalBatchBytes(b: SignalBatch): seq<byte> {
    BatchPrefix(b.sampleSeq, b.total, b.start, |b.updates|) + WriteAll(b.updates, SignalRecord)
  }

  /** Page bounds: a page lies inside the catalog; a delta batch has no position. */
  predicate PageOk(total: nat, start: nat, count: nat) {
    start == NO_INDEX || (start <= total && count <= total - start)
  }

  predicate PrefixFits(sampleSeq: nat, total: nat, start: nat, count: nat) {
    && sampleSeq < U64_LIMIT && total < U32_LIMIT && start < U32_LIMIT && count < U16_LIMIT
    && PageOk(total, start, count)
  }

  predicate FrameBatchFits(b: FrameBatch) {
    PrefixFits(b.sampleSeq, b.total, b.start, |b.frames|) && AllFit(b.frames, FrameFits)
  }

  predicate SignalBatchFits(b: SignalBatch) {
    PrefixFits(b.sampleSeq, b.total, b.start, |b.updates|) && AllFit(b.updates, UpdateFits)
  }

  /** The prefix checks that both batch decoders start with. */
  predicate PrefixAccepted(p: seq<byte>, size: nat, cap: nat) {
    && |p| >= BATCH_PREFIX_SIZE && p[18] == 0 && p[19] == 0
    && |p| == BATCH_PREFIX_SIZE + Get(p, 16, 2) * size && Get(p, 16, 2) <= cap
    && PageOk(Get(p, 8, 4), Get(p, 12, 4), Get(p, 16, 2))
  }

  function DecodeFrameBatch(p: seq<byte>, cap: nat): Option<FrameBatch> {
    if !PrefixAccepted(p, FRAME_WIRE_SIZE, cap) then None
    else
      var frames := ReadAll(p[BATCH_PREFIX_SIZE..], Get(p, 16, 2), FRAME_WIRE_SIZE, RecordFrame);
      if frames.None? then None else Some(FrameBatch(Get(p, 0, 8), Get(p, 8, 4), Get(p, 12, 4), frames.value))
  }

  function DecodeSignalBatch(p: seq<byte>, cap: nat): Option<SignalBatch> {
    if !PrefixAccepted(p, SIGNAL_WIRE_SIZE, cap) then None
    else
      var updates := ReadAll(p[BATCH_PREFIX_SIZE..], Get(p, 16, 2), SIGNAL_WIRE_SIZE, RecordSignal);
      if updates.None? then None else Some(SignalBatch(Get(p, 0, 8), Get(p, 8, 4), Get(p, 12, 4), updates.value))
  }

  lemma PrefixReads(sampleSeq: nat, total: nat, start: nat, count: nat, rest: seq<byte>)
    requires PrefixFits(sampleSeq, total, start, count)
    ensures var p := BatchPrefix(sampleSeq, total, start, count) + rest;
            && Get(p, 0, 8) == sampleSeq && Get(p, 8, 4) == total && Get(p, 12, 4) == start
            && Get(p, 16, 2) == count && p[18] == 0 && p[19] == 0 && p[BATCH_PREFIX_SIZE..] == rest
  {
    var p := BatchPrefix(sampleSeq, total, start, count) + rest;
    Cut8(Be(sampleSeq, 8), Be(total, 4), Be(start, 4), Be(count, 2), [0, 0], rest, [], []);
    assert p == p + [] + [];
    assert p[18] == p[18..20][0] && p[19] == p[18..20][1];
    NumU64(sampleSeq);
    NumU32(total);
    NumU32(start);
    NumU16(count);
  }

  lemma PrefixCanonical(p: seq<byte>, size: nat, cap: nat)
    requires PrefixAccepted(p, size, cap)
    ensures PrefixFits(Get(p, 0, 8), Get(p, 8, 4), Get(p, 12, 4), Get(p, 16, 2))
    ensures BatchPrefix(Get(p, 0, 8), Get(p, 8, 4), Get(p, 12, 4), Get(p, 16, 2)) == p[..BATCH_PREFIX_SIZE]
  {
    BytesU64(p[0..8]);
    BytesU32(p[8..12]);
    BytesU32(p[12..16]);
    BytesU16(p[16..18]);
    assert [0, 0] == p[18..20];
    Join8(p[..20], 8, 12, 16, 18, 20, 20, 20);
    assert p[..20][0..8] == p[0..8] && p[..20][8..12] == p[8..12] && p[..20][12..16] == p[12..16];
    assert p[..20][16..18] == p[16..18] && p[..20][18..20] == p[18..20];
  }

  lemma FrameCodec()
    ensures Inverse(FrameRecord, RecordFrame, FRAME_WIRE_SIZE, FrameFits)
    ensures Exact(FrameRecord, RecordFrame, FRAME_WIRE_SIZE, FrameFits)
  {
    forall f | FrameFits(f)
      ensures |FrameRecord(f)| == FRAME_WIRE_SIZE && RecordFrame(FrameRecord(f)) == Some(f)
    {
      FrameRecordRoundTrip(f);
    }
    forall r: seq<byte> | |r| == FRAME_WIRE_SIZE && RecordFrame(r).Some?
      ensures FrameFits(RecordFrame(r).value) && FrameRecord(RecordFrame(r).value) == r
    {
      FrameRecordCanonical(r);
    }
  }

  lemma SignalCodec()
    ensures Inverse(SignalRecord, RecordSignal, SIGNAL_WIRE_SIZE, UpdateFits)
    ensures Exact(SignalRecord, RecordSignal, SIGNAL_WIRE_SIZE, UpdateFits)
  {
    forall u | UpdateFits(u)
      ensures |SignalRecord(u)| == SIGNAL_WIRE_SIZE && RecordSignal(SignalRecord(u)) == Some(u)
    {
      SignalRecordRoundTrip(u);
    }
    forall r: seq<byte> | |r| == SIGNAL_WIRE_SIZE && RecordSignal(r).Some?
      ensures UpdateFits(RecordSignal(r).value) && SignalRecord(RecordSignal(r).value) == r
    {
      SignalRecordCanonical(r);
    }
  }

  /** Decoding undoes encoding for every frame batch the format can carry. */
  lemma FrameBatchRoundTrip(b: FrameBatch, cap: nat)
    requires FrameBatchFits(b)
    ensures |FrameBatchBytes(b)| == BATCH_PREFIX_SIZE + |b.frames| * FRAME_WIRE_SIZE
    ensures DecodeFrameBatch(FrameBatchBytes(b), cap) == if |b.frames| <= cap then Some(b) else None
  {
    FrameCodec();
    ReadUndoesWrite(b.frames, FrameRecord, RecordFrame, FRAME_WIRE_SIZE, FrameFits);
    PrefixReads(b.sampleSeq, b.total, b.start, |b.frames|, WriteAll(b.frames, FrameRecord));
  }

  lemma SignalBatchRoundTrip(b: SignalBatch, cap: nat)
    requires SignalBatchFits(b)
    ensures |SignalBatchBytes(b)| == BATCH_PREFIX_SIZE + |b.updates| * SIGNAL_WIRE_SIZE
    ensures DecodeSignalBatch(SignalBatchBytes(b), cap) == if |b.updates| <= cap then Some(b) else None
  {
    SignalCodec();
    ReadUndoesWrite(b.updates, SignalRecord, RecordSignal, SIGNAL_WIRE_SIZE, UpdateFits);
    PrefixReads(b.sampleSeq, b.total, b.start, |b.updates|, WriteAll(b.updates, SignalRecord));
  }

  /** Every accepted payload is the encoding of what it decodes to. */
  lemma FrameBatchIsCanonical(p: seq<byte>, cap: nat)
    requires DecodeFrameBatch(p, cap).Some?
    ensures var b := DecodeFrameBatch(p, cap).value; FrameBatchFits(b) && FrameBatchBytes(b) == p
  {
    PrefixCanonical(p, FRAME_WIRE_SIZE, cap);
    FrameCodec();
    WriteUndoesRead(p[BATCH_PREFIX_SIZE..], Get(p, 16, 2), FrameRecord, RecordFrame, FRAME_WIRE_SIZE, FrameFits);
    assert p == p[..BATCH_PREFIX_SIZE] + p[BATCH_PREFIX_SIZE..];
  }

  lemma SignalBatchIsCanonical(p: seq<byte>, cap: nat)
    requires DecodeSignalBatch(p, cap).Some?
    ensures var b := DecodeSignalBatch(p, cap).value; SignalBatchFits(b) && SignalBatchBytes(b) == p
  {
    PrefixCanonical(p, SIGNAL_WIRE_SIZE, cap);
    SignalCodec();
    WriteUndoesRead(p[BATCH_PREFIX_SIZE..], Get(p, 16, 2), SignalRecord, RecordSignal, SIGNAL_WIRE_SIZE, UpdateFits);
    assert p == p[..BATCH_PREFIX_SIZE] + p[BATCH_PREFIX_SIZE..];
  }

  // ---- Heartbeat and handshake ----

  function BeatBytes(h: Beat): (b: seq<byte>)
    requires h.sourceState < 256
    ensures |b| == HEARTBEAT_SIZE
  {
    Be(h.sampleSeq, 8) + Be(h.changeSeq, 8) + Be(h.dropped, 8) + Be(h.coalesced, 8) + Be(h.milliHz, 4)
    + [h.sourceState] + [0, 0, 0]
  }

  function DecodeBeat(p: seq<byte>): Option<Beat> {
    if |p| != HEARTBEAT_SIZE || p[36] > 2 || p[37] != 0 || p[38] != 0 || p[39] != 0 then None
    else Some(Beat(Get(p, 0, 8), Get(p, 8, 8), Get(p, 16, 8), Get(p, 24, 8), Get(p, 32, 4), p[36]))
  }

  predicate BeatFits(h: Beat) {
    && h.sampleSeq < U64_LIMIT && h.changeSeq < U64_LIMIT && h.dropped < U64_LIMIT
    && h.coalesced < U64_LIMIT && h.milliHz < U32_LIMIT && h.sourceState <= 2
  }

  lemma BeatRoundTrip(h: Beat)
    requires BeatFits(h)
    ensures DecodeBeat(BeatBytes(h)) == Some(h)
  {
    var p := BeatBytes(h);
    Cut8(Be(h.sampleSeq, 8), Be(h.changeSeq, 8), Be(h.dropped, 8), Be(h.coalesced, 8), Be(h.milliHz, 4),
         [h.sourceState], [0, 0, 0], []);
    assert p == p + [];
    assert p[36] == p[36..37][0] && p[37] == p[37..40][0] && p[38] == p[37..40][1] && p[39] == p[37..40][2];
    NumU64(h.sampleSeq);
    NumU64(h.changeSeq);
    NumU64(h.dropped);
    NumU64(h.coalesced);
    NumU32(h.milliHz);
  }

  lemma BeatIsCanonical(p: seq<byte>)
    requires DecodeBeat(p).Some?
    ensures BeatFits(DecodeBeat(p).value) && BeatBytes(DecodeBeat(p).value) == p
  {
    BytesU64(p[0..8]);
    BytesU64(p[8..16]);
    BytesU64(p[16..24]);
    BytesU64(p[24..32]);
    BytesU32(p[32..36]);
    Join8(p, 8, 16, 24, 32, 36, 37, 40);
    assert p[36..37] == [p[36]] && p[37..40] == [0, 0, 0];
  }

  function GreetingBytes(g: Greeting): (b: seq<byte>)
    ensures |b| == WELCOME_SIZE
  {
    Be(g.hz, 4) + Be(g.frameCount, 4) + Be(g.signalCount, 4) + Be(g.maxRequest, 4) + Be(g.maxResponse, 4)
    + Be(g.capabilities, 4) + Be(g.schemaVersion, 4) + Be(g.schemaHash, 8)
  }

  function DecodeGreeting(p: seq<byte>): Option<Greeting> {
    if |p| != WELCOME_SIZE then None
    else Some(Greeting(Get(p, 0, 4), Get(p, 4, 4), Get(p, 8, 4), Get(p, 12, 4), Get(p, 16, 4),
                       Get(p, 20, 4), Get(p, 24, 4), Get(p, 28, 8)))
  }

  predicate GreetingFits(g: Greeting) {
    && g.hz < U32_LIMIT && g.frameCount < U32_LIMIT && g.signalCount < U32_LIMIT && g.maxRequest < U32_LIMIT
    && g.maxResponse < U32_LIMIT && g.capabilities < U32_LIMIT && g.schemaVersion < U32_LIMIT
    && g.schemaHash < U64_LIMIT
  }

  lemma GreetingRoundTrip(g: Greeting)
    requires GreetingFits(g)
    ensures DecodeGreeting(GreetingBytes(g)) == Some(g)
  {
    var p := GreetingBytes(g);
    Cut8(Be(g.hz, 4), Be(g.frameCount, 4), Be(g.signalCount, 4), Be(g.maxRequest, 4), Be(g.maxResponse, 4),
         Be(g.capabilities, 4), Be(g.schemaVersion, 4), Be(g.schemaHash, 8));
    NumU32(g.hz);
    NumU32(g.frameCount);
    NumU32(g.signalCount);
    NumU32(g.maxRequest);
    NumU32(g.maxResponse);
    NumU32(g.capabilities);
    NumU32(g.schemaVersion);
    NumU64(g.schemaHash);
  }
}
