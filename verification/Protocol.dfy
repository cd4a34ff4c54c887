/** The messages and requests of a session, and their bytes. */
module Protocol {
  import opened Types
  import opened Wire
  import Schema

  datatype Msg =
    | Welcome(seqno: nat, ts: nat, greeting: Greeting)
    | SchemaPage(seqno: nat, ts: nat, page: Schema.Page)
    | SnapshotPage(seqno: nat, ts: nat, frames: FrameBatch)
    | SignalPage(seqno: nat, ts: nat, signals: SignalBatch)
    | FrameUpdates(seqno: nat, ts: nat, frames: FrameBatch)
    | SignalUpdates(seqno: nat, ts: nat, signals: SignalBatch)
    | Subscribed(seqno: nat, ts: nat)
    | Heartbeat(seqno: nat, ts: nat, beat: Beat)
    | ResyncRequired(seqno: nat, ts: nat)
    | Pong(seqno: nat, ts: nat)

  datatype Request =
    | Hello
    | GetSchema(start: nat)
    | GetSnapshot(start: nat)
    | GetSignalSnapshot(start: nat)
    | SubscribeAll
    | Ping

  /** The message length the output queue accounts for. */
  function Length(m: Msg): nat {
    HEADER_SIZE +
    match m
    case Welcome(_, _, _) => WELCOME_SIZE
    case SchemaPage(_, _, p) => |Schema.PageBytes(p)|
    case SnapshotPage(_, _, b) => BATCH_PREFIX_SIZE + |b.frames| * FRAME_WIRE_SIZE
    case SignalPage(_, _, b) => BATCH_PREFIX_SIZE + |b.updates| * SIGNAL_WIRE_SIZE
    case FrameUpdates(_, _, b) => BATCH_PREFIX_SIZE + |b.frames| * FRAME_WIRE_SIZE
    case SignalUpdates(_, _, b) => BATCH_PREFIX_SIZE + |b.updates| * SIGNAL_WIRE_SIZE
    case Subscribed(_, _) => 0
    case Heartbeat(_, _, _) => HEARTBEAT_SIZE
    case ResyncRequired(_, _) => 0
    case Pong(_, _) => 0
  }

  // ---- Bytes ----

  function Kind(m: Msg): nat {
    match m
    case Welcome(_, _, _) => 2
    case SnapshotPage(_, _, _) => 4
    case FrameUpdates(_, _, _) => 6
    case Heartbeat(_, _, _) => 7
    case ResyncRequired(_, _) => 8
    case Subscribed(_, _) => 9
    case Pong(_, _) => 11
    case SchemaPage(_, _, _) => 13
    case SignalPage(_, _, _) => 15
    case SignalUpdates(_, _, _) => 16
  }

  function Payload(m: Msg): seq<byte>
    requires m.Heartbeat? ==> m.beat.sourceState < 256
  {
    match m
    case Welcome(_, _, g) => GreetingBytes(g)
    case SchemaPage(_, _, p) => Schema.PageBytes(p)
    case SnapshotPage(_, _, b) => FrameBatchBytes(b)
    case SignalPage(_, _, b) => SignalBatchBytes(b)
    case FrameUpdates(_, _, b) => FrameBatchBytes(b)
    case SignalUpdates(_, _, b) => SignalBatchBytes(b)
    case Heartbeat(_, _, h) => BeatBytes(h)
    case Subscribed(_, _) => []
    case ResyncRequired(_, _) => []
    case Pong(_, _) => []
  }

  /** Every field is within the width the format gives it. */
  predicate Fits(m: Msg) {
    && m.seqno < U64_LIMIT && m.ts < U64_LIMIT && Length(m) <= CLIENT_MESSAGE_CAP
    && match m
       case Welcome(_, _, g) => GreetingFits(g)
       case SchemaPage(_, _, p) => Schema.PageFits(p)
       case SnapshotPage(_, _, b) => FrameBatchFits(b)
       case SignalPage(_, _, b) => SignalBatchFits(b)
       case FrameUpdates(_, _, b) => FrameBatchFits(b)
       case SignalUpdates(_, _, b) => SignalBatchFits(b)
       case Heartbeat(_, _, h) => BeatFits(h)
       case Subscribed(_, _) => true
       case ResyncRequired(_, _) => true
       case Pong(_, _) => true
  }

  function MsgHeader(m: Msg): Header {
    Header(PROTOCOL_VERSION, Kind(m), 0, Length(m) - HEADER_SIZE, m.seqno, m.ts)
  }

  function MsgBytes(m: Msg): seq<byte>
    requires m.Heartbeat? ==> m.beat.sourceState < 256
  {
    EncodeHeader(MsgHeader(m)) + Payload(m)
  }

  function Lift<T>(x: Option<T>, f: T -> Msg): Option<Msg> {
    match x case None => None case Some(v) => Some(f(v))
  }

  /** The client's reading of a message: `cap` entries, frames or updates at most. */
  function ParsePayload(h: Header, p: seq<byte>, cap: nat): Option<Msg> {
    var n, t := h.sequence, h.timestamp;
    if h.kind == 2 then Lift(DecodeGreeting(p), g => Welcome(n, t, g))
    else if h.kind == 13 then Lift(Schema.DecodePage(p, cap), g => SchemaPage(n, t, g))
    else if h.kind == 4 then Lift(DecodeFrameBatch(p, cap), b => SnapshotPage(n, t, b))
    else if h.kind == 15 then Lift(DecodeSignalBatch(p, cap), b => SignalPage(n, t, b))
    else if h.kind == 6 then Lift(DecodeFrameBatch(p, cap), b => FrameUpdates(n, t, b))
    else if h.kind == 16 then Lift(DecodeSignalBatch(p, cap), b => SignalUpdates(n, t, b))
    else if h.kind == 7 then Lift(DecodeBeat(p), b => Heartbeat(n, t, b))
    else if h.kind == 9 then Some(Subscribed(n, t))
    else if h.kind == 8 && p == [] then Some(ResyncRequired(n, t))
    else if h.kind == 11 then Some(Pong(n, t))
    else None
  }

  function ParseMsg(b: seq<byte>, cap: nat): Option<Msg> {
    if |b| < HEADER_SIZE then None
    else
      var h := DecodeHeader(b[..HEADER_SIZE]);
      if h.None? || h.value.version != PROTOCOL_VERSION || h.value.flags != 0
         || h.value.payloadBytes > PAYLOAD_CAP || |b| != HEADER_SIZE + h.value.payloadBytes
      then None
      else ParsePayload(h.value, b[HEADER_SIZE..], cap)
  }

  /** Whether a receiver with room for `cap` records can take the message. */
  predicate Holds(m: Msg, cap: nat) {
    match m
    case SchemaPage(_, _, p) => |p.entries| <= cap
    case SnapshotPage(_, _, b) => |b.frames| <= cap
    case SignalPage(_, _, b) => |b.updates| <= cap
    case FrameUpdates(_, _, b) => |b.frames| <= cap
    case SignalUpdates(_, _, b) => |b.updates| <= cap
    case _ => true
  }

  predicate Reads(m: Msg, cap: nat)
    requires m.Heartbeat? ==> m.beat.sourceState < 256
  {
    |Payload(m)| == Length(m) - HEADER_SIZE && ParsePayload(MsgHeader(m), Payload(m), cap) == Some(m)
  }

  lemma FramesRead(m: Msg, cap: nat)
    requires (m.SnapshotPage? || m.FrameUpdates?) && Fits(m) && Holds(m, cap)
    ensures Reads(m, cap)
  {
    FrameBatchRoundTrip(m.frames, cap);
  }

  lemma SignalsRead(m: Msg, cap: nat)
    requires (m.SignalPage? || m.SignalUpdates?) && Fits(m) && Holds(m, cap)
    ensures Reads(m, cap)
  {
    SignalBatchRoundTrip(m.signals, cap);
  }

  lemma ControlRead(m: Msg, cap: nat)
    requires (m.Welcome? || m.SchemaPage? || m.Heartbeat?) && Fits(m) && Holds(m, cap)
    ensures Reads(m, cap)
  {
    match m
    case Welcome(_, _, g) => GreetingRoundTrip(g);
    case SchemaPage(_, _, p) => Schema.PageRoundTrip(p, cap);
    case Heartbeat(_, _, h) => BeatRoundTrip(h);
  }

  lemma PayloadRoundTrip(m: Msg, cap: nat)
    requires Fits(m) && Holds(m, cap)
    ensures Reads(m, cap)
  {
    match m
    case Welcome(_, _, _) => ControlRead(m, cap);
    case SchemaPage(_, _, _) => ControlRead(m, cap);
    case Heartbeat(_, _, _) => ControlRead(m, cap);
    case SnapshotPage(_, _, _) => FramesRead(m, cap);
    case FrameUpdates(_, _, _) => FramesRead(m, cap);
    case SignalPage(_, _, _) => SignalsRead(m, cap);
    case SignalUpdates(_, _, _) => SignalsRead(m, cap);
    case Subscribed(_, _) =>
    case ResyncRequired(_, _) =>
    case Pong(_, _) =>
  }

  /** What the client reads from a message's bytes is the message, and its bytes are as many
      as the output queue counted. */
  lemma MessageRoundTrip(m: Msg, cap: nat)
    requires Fits(m) && Holds(m, cap)
    ensures |MsgBytes(m)| == Length(m)
    ensures ParseMsg(MsgBytes(m), cap) == Some(m)
  {
    PayloadRoundTrip(m, cap);
    HeaderRoundTrip(MsgHeader(m));
    var b := MsgBytes(m);
    assert b[..HEADER_SIZE] == EncodeHeader(MsgHeader(m)) && b[HEADER_SIZE..] == Payload(m);
  }
}
