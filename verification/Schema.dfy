/** The schema pages: variable-length entries, greedy filling of a page, and the decoder. */
module Schema {
  import opened Types
  import opened Records
  import opened Wire
  import opened VariableRecords

  const ITEM_CAN_SIGNAL: byte := 2
  const SOURCE_RAW_CAN: byte := 1

  datatype Entry = Entry(
    stableId: nat, index: nat, invalidIndex: nat, canId: nat, kind: byte, source: byte, width: byte, flags: byte,
    scale: nat, offset: nat, name: seq<byte>, unit: seq<byte>)

  datatype Page = Page(version: nat, total: nat, start: nat, hash: nat, entries: seq<Entry>)

  function EntryOf(cat: Catalog, i: nat): Entry
    requires i < |cat.defs| && 1 <= cat.defs[i].width <= 64
  {
    var d := cat.defs[i];
    Entry(d.stableId, i, d.invalidIndex, d.canId, ITEM_CAN_SIGNAL, SOURCE_RAW_CAN, d.width,
          (if d.isSigned then 1 else 0) + (if d.calibrated then 2 else 0), d.scale, d.offset, d.name, d.unit)
  }

  /** The entries i, i + 1, ..., j - 1 of the catalog. */
  function Entries(cat: Catalog, i: nat, j: nat): (e: seq<Entry>)
    requires GoodLayout(cat) && i <= j <= |cat.defs|
    ensures |e| == j - i && forall k :: 0 <= k < |e| ==> e[k].index == i + k
    decreases j - i
  {
    if i == j then [] else
      assert GoodDef(cat, cat.defs[i]);
      [EntryOf(cat, i)] + Entries(cat, i + 1, j)
  }

  function EntrySize(e: Entry): nat {
    SCHEMA_ENTRY_FIXED_SIZE + |e.name| + |e.unit|
  }

  function EntryBytes(e: Entry): (b: seq<byte>)
    ensures |b| == EntrySize(e)
  {
    Be(e.stableId, 8) + Be(e.index, 4) + Be(e.invalidIndex, 4) + Be(e.canId, 2)
    + [e.kind, e.source, e.width, e.flags] + EntryLengths(e) + EntryScaling(e) + (e.name + e.unit)
  }

  function EntryLengths(e: Entry): (b: seq<byte>)
    ensures |b| == 6
  {
    Be(|e.name|, 2) + Be(|e.unit|, 2) + [0, 0]
  }

  function EntryScaling(e: Entry): (b: seq<byte>)
    ensures |b| == 16
  {
    Be(e.scale, 8) + Be(e.offset, 8)
  }

  function PagePrefix(version: nat, total: nat, start: nat, count: nat, hash: nat): (b: seq<byte>)
    ensures |b| == SCHEMA_PREFIX_SIZE
  {
    Be(version, 4) + Be(total, 4) + Be(start, 4) + Be(count, 4) + Be(hash, 8)
  }

  function PageBytes(p: Page): seq<byte> {
    PagePrefix(p.version, p.total, p.start, |p.entries|, p.hash) + WriteAll(p.entries, EntryBytes)
  }

  /** How many entries from i on fit into `room` bytes: stop at the first that does not. */
  function Fitting(cat: Catalog, i: nat, room: nat): (n: nat)
    requires i <= |cat.defs|
    ensures i + n <= |cat.defs|
    decreases |cat.defs| - i
  {
    if i == |cat.defs| || DefSize(cat.defs[i]) > room then 0
    else 1 + Fitting(cat, i + 1, room - DefSize(cat.defs[i]))
  }

  function DefSize(d: SignalDef): nat {
    SCHEMA_ENTRY_FIXED_SIZE + |d.name| + |d.unit|
  }

  /** The page `roadcast_encode_schema_chunk` builds from `start` on. */
  function PageFrom(cat: Catalog, start: nat, capacity: nat): (p: Page)
    requires GoodLayout(cat) && start <= |cat.defs| && capacity >= SCHEMA_PREFIX_SIZE
    ensures start + |p.entries| <= |cat.defs| && p.entries == Entries(cat, start, start + |p.entries|)
  {
    var n := Fitting(cat, start, capacity - SCHEMA_PREFIX_SIZE);
    Page(SCHEMA_VERSION, |cat.defs|, start, cat.schemaHash, Entries(cat, start, start + n))
  }

  // ---- Decoding ----

  predicate EntryAccepted(e: Entry, index: nat, total: nat) {
    && e.index == index && e.kind == ITEM_CAN_SIGNAL && e.source == SOURCE_RAW_CAN
    && 1 <= e.width <= 64
    && (e.invalidIndex < total || e.invalidIndex == NO_INDEX)
  }

  function Judge(total: nat): (Entry, nat) -> bool {
    (e: Entry, k: nat) => EntryAccepted(e, k, total)
  }

  function ReadEntry(p: seq<byte>): (r: Option<Entry>)
    ensures r.Some? ==> EntrySize(r.value) <= |p|
  {
    if |p| < SCHEMA_ENTRY_FIXED_SIZE then None
    else
      var name, unit := Get(p, 22, 2), Get(p, 24, 2);
      if p[26] != 0 || p[27] != 0 || name > SCHEMA_NAME_MAX || unit > SCHEMA_UNIT_MAX
         || name + unit > |p| - SCHEMA_ENTRY_FIXED_SIZE
      then None
      else Some(Entry(Get(p, 0, 8), Get(p, 8, 4), Get(p, 12, 4), Get(p, 16, 2), p[18], p[19], p[20], p[21],
                      Get(p, 28, 8), Get(p, 36, 8), p[44..44 + name], p[44 + name..44 + name + unit]))
  }

  /** The decoder's loop: n entries, numbered from `index`, filling the payload exactly. */
  function ReadEntries(p: seq<byte>, n: nat, index: nat, total: nat): Option<seq<Entry>> {
    ReadSome(p, n, index, ReadEntry, EntrySize, Judge(total))
  }

  function DecodePage(p: seq<byte>, capacity: nat): Option<Page> {
    if |p| < SCHEMA_PREFIX_SIZE then None
    else
      var total, start, count := Get(p, 4, 4), Get(p, 8, 4), Get(p, 12, 4);
      if count > capacity || start > total || count > total - start then None
      else
        var entries := ReadEntries(p[SCHEMA_PREFIX_SIZE..], count, start, total);
        if entries.None? then None else Some(Page(Get(p, 0, 4), total, start, Get(p, 16, 8), entries.value))
  }

  // ---- Round trip ----

  predicate EntryFits(e: Entry) {
    && e.stableId < U64_LIMIT && e.index < U32_LIMIT && e.invalidIndex < U32_LIMIT && e.canId < U16_LIMIT
    && e.scale < U64_LIMIT && e.offset < U64_LIMIT && |e.name| <= SCHEMA_NAME_MAX && |e.unit| <= SCHEMA_UNIT_MAX
  }

  lemma EntryPieces(e: Entry, rest: seq<byte>)
    ensures var p := EntryBytes(e) + rest;
            && p[0..8] == Be(e.stableId, 8) && p[8..12] == Be(e.index, 4) && p[12..16] == Be(e.invalidIndex, 4)
            && p[16..18] == Be(e.canId, 2) && p[18..22] == [e.kind, e.source, e.width, e.flags]
            && p[22..28] == EntryLengths(e) && p[28..44] == EntryScaling(e)
            && p[44..EntrySize(e)] == e.name + e.unit && p[EntrySize(e)..] == rest
  {
    var p, b := EntryBytes(e) + rest, EntryBytes(e);
    Cut8(Be(e.stableId, 8), Be(e.index, 4), Be(e.invalidIndex, 4), Be(e.canId, 2),
         [e.kind, e.source, e.width, e.flags], EntryLengths(e), EntryScaling(e), e.name + e.unit);
    assert p[0..8] == b[0..8] && p[8..12] == b[8..12] && p[12..16] == b[12..16] && p[16..18] == b[16..18];
    assert p[18..22] == b[18..22] && p[22..28] == b[22..28] && p[28..44] == b[28..44];
    assert p[44..EntrySize(e)] == b[44..EntrySize(e)];
  }

  lemma EntryTail(e: Entry, p: seq<byte>)
    requires |p| >= EntrySize(e) && EntryFits(e)
    requires p[22..28] == EntryLengths(e) && p[28..44] == EntryScaling(e)
    requires p[44..EntrySize(e)] == e.name + e.unit
    ensures Get(p, 22, 2) == |e.name| && Get(p, 24, 2) == |e.unit| && p[26] == 0 && p[27] == 0
    ensures Get(p, 28, 8) == e.scale && Get(p, 36, 8) == e.offset
    ensures p[44..44 + |e.name|] == e.name && p[44 + |e.name|..EntrySize(e)] == e.unit
  {
    Cut8(Be(|e.name|, 2), Be(|e.unit|, 2), [0, 0], [], [], [], [], []);
    assert EntryLengths(e) == EntryLengths(e) + [] + [] + [] + [] + [];
    SliceOfSlice(p, 22, 28, 0, 2);
    SliceOfSlice(p, 22, 28, 2, 4);
    assert p[26] == EntryLengths(e)[4] && p[27] == EntryLengths(e)[5];
    Cut8(Be(e.scale, 8), Be(e.offset, 8), [], [], [], [], [], []);
    assert EntryScaling(e) == EntryScaling(e) + [] + [] + [] + [] + [] + [];
    SliceOfSlice(p, 28, 44, 0, 8);
    SliceOfSlice(p, 28, 44, 8, 16);
    SliceOfSlice(p, 44, EntrySize(e), 0, |e.name|);
    SliceOfSlice(p, 44, EntrySize(e), |e.name|, |e.name| + |e.unit|);
    NumU16(|e.name|);
    NumU16(|e.unit|);
    NumU64(e.scale);
    NumU64(e.offset);
  }

  lemma EntryRoundTrip(e: Entry, rest: seq<byte>)
    requires EntryFits(e)
    ensures ReadEntry(EntryBytes(e) + rest) == Some(e)
  {
    var p := EntryBytes(e) + rest;
    EntryPieces(e, rest);
    EntryTail(e, p);
    var q := p[18..22];
    assert p[18] == q[0] && p[19] == q[1] && p[20] == q[2] && p[21] == q[3];
    NumU64(e.stableId);
    NumU32(e.index);
    NumU32(e.invalidIndex);
    NumU16(e.canId);
  }

  lemma EntryCodec()
    ensures PrefixInverse(EntryBytes, ReadEntry, EntrySize, EntryFits)
  {
    forall e: Entry, rest: seq<byte> | EntryFits(e)
      ensures |EntryBytes(e)| == EntrySize(e) && ReadEntry(EntryBytes(e) + rest) == Some(e)
    {
      EntryRoundTrip(e, rest);
    }
  }

  predicate EntriesFit(es: seq<Entry>, index: nat, total: nat) {
    AllFitFrom(es, index, EntryFits, Judge(total))
  }

  lemma EntriesRoundTrip(es: seq<Entry>, index: nat, total: nat)
    requires EntriesFit(es, index, total)
    ensures ReadEntries(WriteAll(es, EntryBytes), |es|, index, total) == Some(es)
  {
    EntryCodec();
    ReadSomeUndoesWrite(es, index, EntryBytes, ReadEntry, EntrySize, EntryFits, Judge(total));
  }

  predicate PageFits(p: Page) {
    && p.version < U32_LIMIT && p.total < U32_LIMIT && p.start < U32_LIMIT && p.hash < U64_LIMIT
    && p.start <= p.total && |p.entries| <= p.total - p.start
    && EntriesFit(p.entries, p.start, p.total)
  }

  /** Decoding a page gives back exactly its entries. */
  lemma PageRoundTrip(p: Page, capacity: nat)
    requires PageFits(p) && |p.entries| <= capacity
    ensures DecodePage(PageBytes(p), capacity) == Some(p)
  {
    var b, rest := PageBytes(p), WriteAll(p.entries, EntryBytes);
    Cut8(Be(p.version, 4), Be(p.total, 4), Be(p.start, 4), Be(|p.entries|, 4), Be(p.hash, 8), rest, [], []);
    assert b == b + [] + [];
    NumU32(p.version);
    NumU32(p.total);
    NumU32(p.start);
    NumU32(|p.entries|);
    NumU64(p.hash);
    EntriesRoundTrip(p.entries, p.start, p.total);
  }

  // ---- Paging through the catalog ----

  lemma {:induction false} CatalogEntriesFit(cat: Catalog, i: nat, j: nat)
    requires GoodLayout(cat) && i <= j <= |cat.defs|
    ensures EntriesFit(Entries(cat, i, j), i, |cat.defs|)
    decreases j - i
  {
    if i < j {
      CatalogEntriesFit(cat, i + 1, j);
      assert GoodDef(cat, cat.defs[i]);
      var es, tail := Entries(cat, i, j), Entries(cat, i + 1, j);
      forall k | 0 <= k < |es|
        ensures EntryFits(es[k]) && EntryAccepted(es[k], i + k, |cat.defs|)
      {
        if k > 0 { assert es[k] == tail[k - 1]; }
      }
    }
  }

  lemma {:induction false} EntriesConcat(cat: Catalog, i: nat, j: nat, k: nat)
    requires GoodLayout(cat) && i <= j <= k <= |cat.defs|
    ensures Entries(cat, i, j) + Entries(cat, j, k) == Entries(cat, i, k)
    decreases j - i
  {
    if i < j {
      EntriesConcat(cat, i + 1, j, k);
    }
  }

  lemma {:induction false} FittingSize(cat: Catalog, i: nat, room: nat)
    requires GoodLayout(cat) && i <= |cat.defs|
    ensures |WriteAll(Entries(cat, i, i + Fitting(cat, i, room)), EntryBytes)| <= room
    decreases |cat.defs| - i
  {
    if Fitting(cat, i, room) > 0 {
      FittingSize(cat, i + 1, room - DefSize(cat.defs[i]));
      assert Entries(cat, i, i + Fitting(cat, i, room))[1..] ==
             Entries(cat, i + 1, i + Fitting(cat, i, room));
    }
  }

  /** Every page fits a message and holds at least one entry while any remain. */
  lemma PageSize(cat: Catalog, start: nat)
    requires GoodLayout(cat) && start < |cat.defs|
    ensures |PageFrom(cat, start, PAYLOAD_CAP).entries| >= 1
    ensures |PageBytes(PageFrom(cat, start, PAYLOAD_CAP))| <= PAYLOAD_CAP
  {
    assert GoodDef(cat, cat.defs[start]);
    FittingSize(cat, start, PAYLOAD_CAP - SCHEMA_PREFIX_SIZE);
  }

  lemma PageIsGood(cat: Catalog, start: nat, capacity: nat)
    requires GoodLayout(cat) && start <= |cat.defs| && capacity >= SCHEMA_PREFIX_SIZE
    ensures PageFits(PageFrom(cat, start, capacity))
  {
    CatalogEntriesFit(cat, start, start + |PageFrom(cat, start, capacity).entries|);
  }

  /** Decoding a page of the catalog gives exactly the catalog's next entries. */
  lemma PageDecodes(cat: Catalog, start: nat, p: Page)
    requires GoodLayout(cat) && start <= |cat.defs| && p == PageFrom(cat, start, PAYLOAD_CAP)
    ensures DecodePage(PageBytes(p), |cat.defs| - start) == Some(p)
  {
    assert |p.entries| <= |cat.defs| - start;
    assert PageFits(p) by { PageIsGood(cat, start, PAYLOAD_CAP); }
    PageRoundTrip(p, |cat.defs| - start);
  }
}
