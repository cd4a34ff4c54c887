/** The records and constants shared by the daemon, the client library and the
    wire format, and the well-formedness rules of a signal catalog. */
module Types {

  type byte = x: int | 0 <= x < 256

  datatype Option<+T> = None | Some(value: T)

  const U16_LIMIT := 0x1_0000
  const U32_LIMIT := 0x1_0000_0000
  const U64_LIMIT := 0x1_0000_0000_0000_0000
  /** UINT32_MAX: "no invalid flag" in a definition, "delta batch" as a page start. */
  const NO_INDEX := 0xFFFF_FFFF

  const HEADER_SIZE := 32
  const FRAME_WIRE_SIZE := 28
  const BATCH_PREFIX_SIZE := 20
  const SIGNAL_WIRE_SIZE := 40
  const WELCOME_SIZE := 36
  const HEARTBEAT_SIZE := 40
  const INDEX_REQUEST_SIZE := 4
  const SCHEMA_PREFIX_SIZE := 24
  const SCHEMA_ENTRY_FIXED_SIZE := 44
  const SCHEMA_NAME_MAX := 63
  const SCHEMA_UNIT_MAX := 15
  const MAX_PAYLOAD := 65536
  const SCHEMA_VERSION := 1
  const PROTOCOL_VERSION := 3

  const CLIENT_INPUT_CAP := 4096
  const CLIENT_MESSAGE_CAP := 2048
  const PAYLOAD_CAP := 2016
  const FRAMES_PER_MESSAGE := 71
  const SIGNALS_PER_MESSAGE := 49

  /** The three sizes above are the ones the daemon's macros compute. */
  lemma MessageSizes()
    ensures PAYLOAD_CAP == CLIENT_MESSAGE_CAP - HEADER_SIZE
    ensures FRAMES_PER_MESSAGE == (PAYLOAD_CAP - BATCH_PREFIX_SIZE) / FRAME_WIRE_SIZE
    ensures SIGNALS_PER_MESSAGE == (PAYLOAD_CAP - BATCH_PREFIX_SIZE) / SIGNAL_WIRE_SIZE
  {
  }

  const CAN_ID_LOOKUP_CAP := 2048
  const CLIENT_MAX_SIGNALS := 100000

  datatype ObsState = Unavailable | NeverObserved | Valid | Invalid

  datatype Frame = Frame(
    canId: nat, state: ObsState, data: seq<byte>, firstObserved: nat, lastChange: nat)

  /** `physical` is a C double, kept as its 64-bit pattern. */
  datatype SignalValue = SignalValue(
    raw: nat, physical: nat, firstObserved: nat, lastChange: nat, state: ObsState, calibrated: bool)

  datatype Part = Part(word: nat, offset: nat, bits: nat)

  /** `scale` and `offset` are doubles, kept as 64-bit patterns. */
  datatype SignalDef = SignalDef(
    stableId: nat, name: seq<byte>, unit: seq<byte>, parts: seq<Part>, invalidIndex: nat,
    canId: nat, frameIndex: nat, width: nat, isSigned: bool, calibrated: bool,
    scale: nat, offset: nat)

  /** An arbitrary catalog. `convert` stands for the double arithmetic
      `numeric * scale + offset` on the exact integer reading of a signal. */
  datatype Catalog = Catalog(
    canIds: seq<nat>, defs: seq<SignalDef>, schemaHash: nat, convert: (SignalDef, int) -> nat)

  const ZERO_DATA: seq<byte> := [0, 0, 0, 0, 0, 0, 0, 0]

  function PartBits(parts: seq<Part>): nat {
    if parts == [] then 0 else parts[0].bits + PartBits(parts[1..])
  }

  predicate GoodPart(p: Part) {
    && (p.word == 0 || p.word == 4)
    && 1 <= p.bits <= 32
    && p.offset < 32
    && p.offset + p.bits <= 32
  }

  predicate GoodParts(parts: seq<Part>) {
    forall p :: p in parts ==> GoodPart(p)
  }

  /** The rules the catalog generator enforces on one signal. */
  predicate GoodDef(cat: Catalog, d: SignalDef) {
    && d.frameIndex < |cat.canIds|
    && d.canId == cat.canIds[d.frameIndex]
    && 1 <= |d.name| <= SCHEMA_NAME_MAX
    && |d.unit| <= SCHEMA_UNIT_MAX
    && 1 <= d.width <= 64
    && d.parts != []
    && GoodParts(d.parts)
    && PartBits(d.parts) == d.width
    && d.stableId < U64_LIMIT && d.scale < U64_LIMIT && d.offset < U64_LIMIT
    && (d.invalidIndex == NO_INDEX || d.invalidIndex < |cat.defs|)
  }

  predicate Increasing(s: seq<nat>) {
    forall i, j :: 0 <= i < j < |s| ==> s[i] < s[j]
  }

  /** Everything but the rule that an invalid flag lives in its signal's own frame. */
  predicate GoodLayout(cat: Catalog) {
    && 0 < |cat.canIds|
    && Increasing(cat.canIds)
    && (forall i :: 0 <= i < |cat.canIds| ==> cat.canIds[i] < CAN_ID_LOOKUP_CAP)
    && 0 < |cat.defs| <= CLIENT_MAX_SIGNALS
    && cat.schemaHash < U64_LIMIT
    && (forall i :: 0 <= i < |cat.defs| ==> GoodDef(cat, cat.defs[i]))
  }

  predicate FlagInOwnFrame(cat: Catalog, i: nat)
    requires i < |cat.defs|
  {
    var inv := cat.defs[i].invalidIndex;
    inv < |cat.defs| ==> cat.defs[inv].frameIndex == cat.defs[i].frameIndex
  }

  predicate GoodCatalog(cat: Catalog) {
    GoodLayout(cat) && forall i :: 0 <= i < |cat.defs| ==> FlagInOwnFrame(cat, i)
  }

  /** A frame array as every producer fills it: one frame per identifier, in order,
      eight bytes each, never in the signal-only state Invalid. */
  predicate GoodFrame(cat: Catalog, frames: seq<Frame>, i: nat)
    requires i < |frames| && i < |cat.canIds|
  {
    frames[i].canId == cat.canIds[i] && |frames[i].data| == 8 && !frames[i].state.Invalid?
  }

  predicate GoodFrames(cat: Catalog, frames: seq<Frame>) {
    |frames| == |cat.canIds| && forall i :: 0 <= i < |frames| ==> GoodFrame(cat, frames, i)
  }

  function Min(a: int, b: int): int { if a < b then a else b }
}
