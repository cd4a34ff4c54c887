/** The encoders and decoders that work in place on byte buffers (src/protocol.c and the
    schema encoder of src/catalog.c), proved against the functions of modules Wire and Schema. */
module Encoder {
  import opened Types
  import opened Records
  import opened Wire
  import opened Session
  import opened Schema

  lemma Assoc(p: seq<byte>, a: seq<byte>, b: seq<byte>)
    ensures (p + a) + b == p + (a + b)
  {
  }

  /** Big-endian store, last byte first. */
  method Put(out: array<byte>, at: nat, v: nat, n: nat)
    requires at + n <= out.Length
    modifies out
    ensures out[..at + n] == old(out[..at]) + Be(v, n)
    ensures forall k :: at + n <= k < out.Length ==> out[k] == old(out[k])
  {
    var k, x := n, v;
    while k > 0
      invariant 0 <= k <= n && Be(v, n) == Be(x, k) + out[at + k..at + n]
      invariant forall j :: 0 <= j < out.Length && !(at + k <= j < at + n) ==> out[j] == old(out[j])
    {
      k := k - 1;
      ghost var tail := out[at + k + 1..at + n];
      out[at + k] := x % 256;
      assert out[at + k..at + n] == [x % 256] + tail;
      assert Be(x, k + 1) == Be(x / 256, k) + [x % 256];
      assert Be(x, k + 1) + tail == Be(x / 256, k) + ([x % 256] + tail);
      x := x / 256;
    }
    assert out[..at + n] == out[..at] + out[at..at + n];
    assert out[..at] == old(out[..at]);
  }

  /** `memcpy` into the buffer. */
  method PutBytes(out: array<byte>, at: nat, b: seq<byte>)
    requires at + |b| <= out.Length
    modifies out
    ensures out[..at + |b|] == old(out[..at]) + b
    ensures forall k :: at + |b| <= k < out.Length ==> out[k] == old(out[k])
  {
    var i := 0;
    while i < |b|
      invariant 0 <= i <= |b|
      invariant forall k :: 0 <= k < i ==> out[at + k] == b[k]
      invariant forall k :: 0 <= k < out.Length && !(at <= k < at + i) ==> out[k] == old(out[k])
    {
      out[at + i] := b[i];
      i := i + 1;
    }
    assert out[..at + |b|] == old(out[..at]) + b;
  }

  // ---- Batches ----

  method PutPrefix(out: array<byte>, sampleSeq: nat, total: nat, start: nat, count: nat)
    requires out.Length >= BATCH_PREFIX_SIZE
    modifies out
    ensures out[..BATCH_PREFIX_SIZE] == BatchPrefix(sampleSeq, total, start, count)
  {
    Put(out, 0, sampleSeq, 8);
    assert out[..8] == Be(sampleSeq, 8);
    Put(out, 8, total, 4);
    Put(out, 12, start, 4);
    Put(out, 16, count, 2);
    PutBytes(out, 18, [0, 0]);
  }

  method PutFrame(out: array<byte>, at: nat, f: Frame)
    requires at + FRAME_WIRE_SIZE <= out.Length && |f.data| == 8
    modifies out
    ensures out[..at + FRAME_WIRE_SIZE] == old(out[..at]) + FrameRecord(f)
  {
    ghost var p := out[..at];
    Put(out, at, f.canId, 2);
    PutBytes(out, at + 2, [StateCode(f.state)]);
    Assoc(p, Be(f.canId, 2), [StateCode(f.state)]);
    PutBytes(out, at + 3, [0]);
    Assoc(p, Be(f.canId, 2) + [StateCode(f.state)], [0]);
    PutBytes(out, at + 4, f.data);
    Assoc(p, Be(f.canId, 2) + [StateCode(f.state)] + [0], f.data);
    Put(out, at + 12, f.firstObserved, 8);
    Assoc(p, Be(f.canId, 2) + [StateCode(f.state)] + [0] + f.data, Be(f.firstObserved, 8));
    Put(out, at + 20, f.lastChange, 8);
    Assoc(p, Be(f.canId, 2) + [StateCode(f.state)] + [0] + f.data + Be(f.firstObserved, 8), Be(f.lastChange, 8));
  }

  predicate EightBytes(frames: seq<Frame>) {
    forall i :: 0 <= i < |frames| ==> |frames[i].data| == 8
  }

  /** The frames at `indices`; refused, with result 0, only when they do not fit. */
  method EncodeFrameBatch(
    out: array<byte>, sampleSeq: nat, total: nat, start: nat, frames: seq<Frame>, indices: seq<nat>)
    returns (length: nat)
    requires InRange(indices, |frames|) && EightBytes(frames)
    modifies out
    ensures length == 0 <==> |indices| >= U16_LIMIT || BATCH_PREFIX_SIZE + |indices| * FRAME_WIRE_SIZE > out.Length
    ensures length > 0 ==>
              && length <= out.Length
              && out[..length] == FrameBatchBytes(FrameBatch(sampleSeq, total, start, PickFrames(frames, indices)))
  {
    var count := |indices|;
    if count >= U16_LIMIT || BATCH_PREFIX_SIZE + count * FRAME_WIRE_SIZE > out.Length {
      return 0;
    }
    PutPrefix(out, sampleSeq, total, start, count);
    ghost var prefix := BatchPrefix(sampleSeq, total, start, count);
    ghost var picked := PickFrames(frames, indices);
    var i, at := 0, BATCH_PREFIX_SIZE;
    while i < count
      invariant 0 <= i <= count && at == BATCH_PREFIX_SIZE + i * FRAME_WIRE_SIZE <= out.Length
      invariant out[..at] == prefix + WriteAll(picked[..i], FrameRecord)
    {
      PutFrame(out, at, frames[indices[i]]);
      WriteAllNext(picked, i, FrameRecord);
      Assoc(prefix, WriteAll(picked[..i], FrameRecord), FrameRecord(picked[i]));
      i, at := i + 1, at + FRAME_WIRE_SIZE;
    }
    assert picked[..i] == picked;
    length := at;
  }

  lemma {:induction false} WriteAllNext<T>(xs: seq<T>, i: nat, enc: T -> seq<byte>)
    requires i < |xs|
    ensures WriteAll(xs[..i + 1], enc) == WriteAll(xs[..i], enc) + enc(xs[i])
    decreases i
  {
    if i == 0 {
      assert xs[..1] == [xs[0]] && xs[..0] == [] && [xs[0]][1..] == [];
    } else {
      WriteAllNext(xs[1..], i - 1, enc);
      assert xs[..i + 1][1..] == xs[1..][..i] && xs[..i][1..] == xs[1..][..i - 1];
    }
  }

  method PutUpdate(out: array<byte>, at: nat, u: SignalUpdate)
    requires at + SIGNAL_WIRE_SIZE <= out.Length
    modifies out
    ensures out[..at + SIGNAL_WIRE_SIZE] == old(out[..at]) + SignalRecord(u)
  {
    ghost var p := out[..at];
    ghost var r := Be(u.index, 4);
    Put(out, at, u.index, 4);
    ghost var b := [StateCode(u.value.state)];
    PutBytes(out, at + 4, [StateCode(u.value.state)]);
    Assoc(p, r, b);
    r := r + b;
    b := [if u.value.calibrated then 1 else 0];
    PutBytes(out, at + 5, [if u.value.calibrated then 1 else 0]);
    Assoc(p, r, b);
    r := r + b;
    PutBytes(out, at + 6, [0, 0]);
    Assoc(p, r, [0, 0]);
    r := r + [0, 0];
    Put(out, at + 8, u.value.raw, 8);
    Assoc(p, r, Be(u.value.raw, 8));
    r := r + Be(u.value.raw, 8);
    Put(out, at + 16, u.value.physical, 8);
    Assoc(p, r, Be(u.value.physical, 8));
    r := r + Be(u.value.physical, 8);
    Put(out, at + 24, u.value.firstObserved, 8);
    Assoc(p, r, Be(u.value.firstObserved, 8));
    r := r + Be(u.value.firstObserved, 8);
    Put(out, at + 32, u.value.lastChange, 8);
    Assoc(p, r, Be(u.value.lastChange, 8));
  }

  method EncodeSignalBatch(
    out: array<byte>, sampleSeq: nat, total: nat, start: nat, signals: seq<SignalValue>, indices: seq<nat>)
    returns (length: nat)
    requires InRange(indices, |signals|)
    modifies out
    ensures length == 0 <==> |indices| >= U16_LIMIT || BATCH_PREFIX_SIZE + |indices| * SIGNAL_WIRE_SIZE > out.Length
    ensures length > 0 ==>
              && length <= out.Length
              && out[..length] == SignalBatchBytes(SignalBatch(sampleSeq, total, start, PickSignals(signals, indices)))
  {
    var count := |indices|;
    if count >= U16_LIMIT || BATCH_PREFIX_SIZE + count * SIGNAL_WIRE_SIZE > out.Length {
      return 0;
    }
    PutPrefix(out, sampleSeq, total, start, count);
    ghost var prefix := BatchPrefix(sampleSeq, total, start, count);
    ghost var picked := PickSignals(signals, indices);
    var i, at := 0, BATCH_PREFIX_SIZE;
    while i < count
      invariant 0 <= i <= count && at == BATCH_PREFIX_SIZE + i * SIGNAL_WIRE_SIZE <= out.Length
      invariant out[..at] == prefix + WriteAll(picked[..i], SignalRecord)
    {
      PutUpdate(out, at, SignalUpdate(indices[i], signals[indices[i]]));
      WriteAllNext(picked, i, SignalRecord);
      Assoc(prefix, WriteAll(picked[..i], SignalRecord), SignalRecord(picked[i]));
      i, at := i + 1, at + SIGNAL_WIRE_SIZE;
    }
    assert picked[..i] == picked;
    length := at;
  }

  // ---- Batch decoders ----

  function Joined<T>(done: seq<T>, rest: Option<seq<T>>): Option<seq<T>> {
    if rest.None? then None else Some(done + rest.value)
  }

  lemma NoneDone<T>(r: Option<seq<T>>)
    ensures Joined([], r) == r
  {
    if r.Some? { assert [] + r.value == r.value; }
  }

  /** Reading one more record, or failing at it. */
  lemma OneMore<T>(all: Option<seq<T>>, done: seq<T>, rest: seq<byte>, n: nat, size: nat, dec: seq<byte> -> Option<T>)
    requires n > 0 && |rest| >= size && all == Joined(done, ReadAll(rest, n, size, dec))
    ensures var x := dec(rest[..size]);
            if x.None? then all.None? else all == Joined(done + [x.value], ReadAll(rest[size..], n - 1, size, dec))
  {
    var x, tail := dec(rest[..size]), ReadAll(rest[size..], n - 1, size, dec);
    if x.Some? && tail.Some? {
      assert done + ([x.value] + tail.value) == (done + [x.value]) + tail.value;
    }
  }

  lemma AllDone<T>(done: seq<T>, rest: seq<byte>, size: nat, dec: seq<byte> -> Option<T>)
    ensures Joined(done, ReadAll(rest, 0, size, dec)) == Some(done)
  {
    assert done + [] == done;
  }

  /** One turn of the loop: the next of n records goes into place i. */
  method DecodeRecord<T>(
    rest: seq<byte>, n: nat, size: nat, dec: seq<byte> -> Option<T>, out: array<T>, i: nat, ghost all: Option<seq<T>>)
    returns (ok: bool, tail: seq<byte>)
    requires n > 0 && |rest| == n * size && i < out.Length
    requires all == Joined(out[..i], ReadAll(rest, n, size, dec))
    modifies out
    ensures if ok then |tail| == (n - 1) * size && all == Joined(out[..i + 1], ReadAll(tail, n - 1, size, dec))
            else all.None?
  {
    Peel(n, size);
    OneMore(all, out[..i], rest, n, size, dec);
    var x := dec(rest[..size]);
    ok, tail := x.Some?, rest[size..];
    if ok {
      ghost var done := out[..i];
      out[i] := x.value;
      assert out[..i + 1] == done + [x.value];
    }
  }

  /** The loop of both batch decoders: one record after the other into the output array. */
  method DecodeRecords<T>(q: seq<byte>, count: nat, size: nat, dec: seq<byte> -> Option<T>, out: array<T>)
    returns (ok: bool)
    requires |q| == count * size && count <= out.Length
    modifies out
    ensures ReadAll(q, count, size, dec) == if ok then Some(out[..count]) else None
  {
    var rest, i := q, 0;
    ghost var all := ReadAll(q, count, size, dec);
    NoneDone(all);
    while i < count
      invariant 0 <= i <= count && |rest| == (count - i) * size
      invariant all == Joined(out[..i], ReadAll(rest, count - i, size, dec))
    {
      ok, rest := DecodeRecord(rest, count - i, size, dec, out, i, all);
      if !ok {
        return;
      }
      i := i + 1;
    }
    AllDone(out[..count], rest, size, dec);
    ok := true;
  }

  method DecodeFrames(p: seq<byte>, out: array<Frame>)
    returns (ok: bool, sampleSeq: nat, total: nat, start: nat, count: nat)
    modifies out
    ensures ok <==> DecodeFrameBatch(p, out.Length).Some?
    ensures ok ==> count <= out.Length
    ensures ok ==> DecodeFrameBatch(p, out.Length) == Some(FrameBatch(sampleSeq, total, start, out[..count]))
  {
    ok, sampleSeq, total, start, count := false, 0, 0, 0, 0;
    if |p| < BATCH_PREFIX_SIZE || p[18] != 0 || p[19] != 0 {
      return;
    }
    count := Get(p, 16, 2);
    if BATCH_PREFIX_SIZE + count * FRAME_WIRE_SIZE != |p| || count > out.Length {
      return;
    }
    sampleSeq, total, start := Get(p, 0, 8), Get(p, 8, 4), Get(p, 12, 4);
    if start != NO_INDEX && (start > total || count > total - start) {
      return;
    }
    ok := DecodeRecords(p[BATCH_PREFIX_SIZE..], count, FRAME_WIRE_SIZE, RecordFrame, out);
  }

  method DecodeSignals(p: seq<byte>, out: array<SignalUpdate>)
    returns (ok: bool, sampleSeq: nat, total: nat, start: nat, count: nat)
    modifies out
    ensures ok <==> DecodeSignalBatch(p, out.Length).Some?
    ensures ok ==> count <= out.Length
    ensures ok ==> DecodeSignalBatch(p, out.Length) == Some(SignalBatch(sampleSeq, total, start, out[..count]))
  {
    ok, sampleSeq, total, start, count := false, 0, 0, 0, 0;
    if |p| < BATCH_PREFIX_SIZE || p[18] != 0 || p[19] != 0 {
      return;
    }
    count := Get(p, 16, 2);
    if BATCH_PREFIX_SIZE + count * SIGNAL_WIRE_SIZE != |p| || count > out.Length {
      return;
    }
    sampleSeq, total, start := Get(p, 0, 8), Get(p, 8, 4), Get(p, 12, 4);
    if start != NO_INDEX && (start > total || count > total - start) {
      return;
    }
    ok := DecodeRecords(p[BATCH_PREFIX_SIZE..], count, SIGNAL_WIRE_SIZE, RecordSignal, out);
  }

  // ---- Schema pages ----

  method PutEntryHead(out: array<byte>, at: nat, e: Entry)
    requires at + 28 <= out.Length
    modifies out
    ensures out[..at + 28] == old(out[..at]) + (EntryHead(e) + EntryLengths(e))
  {
    ghost var p, r := out[..at], Be(e.stableId, 8);
    Put(out, at, e.stableId, 8);
    Put(out, at + 8, e.index, 4);
    Assoc(p, r, Be(e.index, 4));
    r := r + Be(e.index, 4);
    Put(out, at + 12, e.invalidIndex, 4);
    Assoc(p, r, Be(e.invalidIndex, 4));
    r := r + Be(e.invalidIndex, 4);
    Put(out, at + 16, e.canId, 2);
    Assoc(p, r, Be(e.canId, 2));
    r := r + Be(e.canId, 2);
    PutBytes(out, at + 18, [e.kind, e.source, e.width, e.flags]);
    Assoc(p, r, [e.kind, e.source, e.width, e.flags]);
    r := p + EntryHead(e);
    assert out[..at + 22] == r;
    Put(out, at + 22, |e.name|, 2);
    Put(out, at + 24, |e.unit|, 2);
    Assoc(r, Be(|e.name|, 2), Be(|e.unit|, 2));
    PutBytes(out, at + 26, [0, 0]);
    Assoc(r, Be(|e.name|, 2) + Be(|e.unit|, 2), [0, 0]);
    Assoc(p, EntryHead(e), EntryLengths(e));
  }

  function EntryHead(e: Entry): (b: seq<byte>)
    ensures |b| == 22
  {
    Be(e.stableId, 8) + Be(e.index, 4) + Be(e.invalidIndex, 4) + Be(e.canId, 2) + [e.kind, e.source, e.width, e.flags]
  }

  method PutEntryTail(out: array<byte>, at: nat, e: Entry)
    requires at + 16 + |e.name| + |e.unit| <= out.Length
    modifies out
    ensures out[..at + 16 + |e.name| + |e.unit|] == old(out[..at]) + EntryScaling(e) + (e.name + e.unit)
  {
    ghost var p := out[..at];
    Put(out, at, e.scale, 8);
    Put(out, at + 8, e.offset, 8);
    Assoc(p, Be(e.scale, 8), Be(e.offset, 8));
    PutBytes(out, at + 16, e.name);
    PutBytes(out, at + 16 + |e.name|, e.unit);
    Assoc(p + EntryScaling(e), e.name, e.unit);
  }

  method PutEntry(out: array<byte>, at: nat, e: Entry)
    requires at + EntrySize(e) <= out.Length
    modifies out
    ensures out[..at + EntrySize(e)] == old(out[..at]) + EntryBytes(e)
  {
    ghost var p, r := out[..at], EntryHead(e) + EntryLengths(e);
    PutEntryHead(out, at, e);
    PutEntryTail(out, at + 28, e);
    Assoc(p, r, EntryScaling(e));
    Assoc(p, r + EntryScaling(e), e.name + e.unit);
  }

  /** As many entries as fit, and the count patched into the prefix afterwards. */
  method EncodeSchemaChunk(cat: Catalog, out: array<byte>, start: nat) returns (length: nat, count: nat)
    requires GoodLayout(cat)
    modifies out
    ensures out.Length < SCHEMA_PREFIX_SIZE || start >= |cat.defs| ==> length == 0 && count == 0
    ensures out.Length >= SCHEMA_PREFIX_SIZE && start < |cat.defs| ==>
              var page := PageFrom(cat, start, out.Length);
              && count == |page.entries| && (count == 0 ==> length == 0)
              && (count > 0 ==> length <= out.Length && out[..length] == PageBytes(page))
  {
    if out.Length < SCHEMA_PREFIX_SIZE || start >= |cat.defs| {
      return 0, 0;
    }
    GoodWidths(cat);
    PutPagePrefix(out, |cat.defs|, start, cat.schemaHash);
    length, count := PutEntries(cat, out, start);
    PatchCount(out, |cat.defs|, start, cat.schemaHash, count, length, Body(cat, start, start + count, EntryBytes));
    PageIsBody(cat, start, out.Length, EntryBytes);
    if count == 0 {
      length := 0;
    }
  }

  lemma GoodWidths(cat: Catalog)
    requires GoodLayout(cat)
    ensures WidthsOk(cat)
  {
    assert forall i :: 0 <= i < |cat.defs| ==> GoodDef(cat, cat.defs[i]);
  }

  /** The entries of the page are the ones that fit, one after the other. */
  lemma PageIsBody(cat: Catalog, start: nat, capacity: nat, enc: Entry -> seq<byte>)
    requires GoodLayout(cat) && WidthsOk(cat) && start <= |cat.defs| && capacity >= SCHEMA_PREFIX_SIZE
    ensures var n := Fitting(cat, start, capacity - SCHEMA_PREFIX_SIZE);
            && |PageFrom(cat, start, capacity).entries| == n
            && WriteAll(PageFrom(cat, start, capacity).entries, enc) == Body(cat, start, start + n, enc)
  {
    BodyIsEntries(cat, start, start + Fitting(cat, start, capacity - SCHEMA_PREFIX_SIZE), enc);
  }

  /** The entries start, ..., i - 1, each after the other. */
  function Body(cat: Catalog, start: nat, i: nat, enc: Entry -> seq<byte>): seq<byte>
    requires WidthsOk(cat) && start <= i <= |cat.defs|
    decreases i
  {
    if i == start then [] else Body(cat, start, i - 1, enc) + enc(EntryOf(cat, i - 1))
  }

  predicate WidthsOk(cat: Catalog) {
    forall i :: 0 <= i < |cat.defs| ==> 1 <= cat.defs[i].width <= 64
  }

  lemma {:induction false} BodyIsEntries(cat: Catalog, start: nat, i: nat, enc: Entry -> seq<byte>)
    requires GoodLayout(cat) && WidthsOk(cat) && start <= i <= |cat.defs|
    ensures Body(cat, start, i, enc) == WriteAll(Entries(cat, start, i), enc)
    decreases i
  {
    if i == start {
      assert Entries(cat, start, start) == [];
    } else {
      BodyIsEntries(cat, start, i - 1, enc);
      EntriesNext(cat, start, i - 1, enc);
    }
  }

  method PutEntries(cat: Catalog, out: array<byte>, start: nat) returns (length: nat, count: nat)
    requires WidthsOk(cat) && out.Length >= SCHEMA_PREFIX_SIZE && start < |cat.defs|
    modifies out
    ensures count == Fitting(cat, start, out.Length - SCHEMA_PREFIX_SIZE)
    ensures SCHEMA_PREFIX_SIZE <= length <= out.Length
    ensures out[..length] == old(out[..SCHEMA_PREFIX_SIZE]) + Body(cat, start, start + count, EntryBytes)
  {
    ghost var prefix := out[..SCHEMA_PREFIX_SIZE];
    length, count := SCHEMA_PREFIX_SIZE, 0;
    var i := start;
    while i < |cat.defs|
      invariant start <= i <= |cat.defs| && i == start + count && SCHEMA_PREFIX_SIZE <= length <= out.Length
      invariant Fitting(cat, start, out.Length - SCHEMA_PREFIX_SIZE) == count + Fitting(cat, i, out.Length - length)
      invariant out[..length] == prefix + Body(cat, start, i, EntryBytes)
    {
      var next := PutSignal(cat, out, length, start, i, prefix);
      if next == length {
        break;
      }
      length, count, i := next, count + 1, i + 1;
    }
  }

  /** One entry, if it fits. */
  method PutSignal(cat: Catalog, out: array<byte>, at: nat, ghost start: nat, i: nat, ghost prefix: seq<byte>)
    returns (next: nat)
    requires WidthsOk(cat) && start <= i < |cat.defs| && at <= out.Length
    requires out[..at] == prefix + Body(cat, start, i, EntryBytes)
    modifies out
    ensures at <= next <= out.Length
    ensures out[..next] == prefix + Body(cat, start, if next == at then i else i + 1, EntryBytes)
    ensures Fitting(cat, i, out.Length - at) == if next == at then 0 else 1 + Fitting(cat, i + 1, out.Length - next)
  {
    FittingNext(cat, i, out.Length - at);
    next := at;
    var size := DefSize(cat.defs[i]);
    if size <= out.Length - at {
      PutEntry(out, at, EntryOf(cat, i));
      Assoc(prefix, Body(cat, start, i, EntryBytes), EntryBytes(EntryOf(cat, i)));
      next := at + size;
    }
  }

  lemma FittingNext(cat: Catalog, i: nat, room: nat)
    requires i < |cat.defs|
    ensures var size := DefSize(cat.defs[i]);
            Fitting(cat, i, room) == if size > room then 0 else 1 + Fitting(cat, i + 1, room - size)
  {
  }

  lemma EntriesNext(cat: Catalog, start: nat, i: nat, enc: Entry -> seq<byte>)
    requires GoodLayout(cat) && start <= i < |cat.defs|
    ensures GoodDef(cat, cat.defs[i])
    ensures WriteAll(Entries(cat, start, i + 1), enc) ==
            WriteAll(Entries(cat, start, i), enc) + enc(EntryOf(cat, i))
  {
    assert GoodDef(cat, cat.defs[i]);
    EntriesConcat(cat, start, i, i + 1);
    var es, front := Entries(cat, start, i + 1), Entries(cat, start, i);
    assert Entries(cat, i + 1, i + 1) == [];
    assert Entries(cat, i, i + 1) == [EntryOf(cat, i)];
    assert es[..|front|] == front && es[..|front| + 1] == es && es[|front|] == EntryOf(cat, i);
    WriteAllNext(es, |front|, enc);
  }

  method PutPagePrefix(out: array<byte>, total: nat, start: nat, hash: nat)
    requires out.Length >= SCHEMA_PREFIX_SIZE
    modifies out
    ensures out[..SCHEMA_PREFIX_SIZE] == PagePrefix(SCHEMA_VERSION, total, start, 0, hash)
  {
    Put(out, 0, SCHEMA_VERSION, 4);
    assert out[..4] == Be(SCHEMA_VERSION, 4);
    Put(out, 4, total, 4);
    Put(out, 8, start, 4);
    Put(out, 12, 0, 4);
    Put(out, 16, hash, 8);
  }

  /** Overwriting the count leaves everything else in place. */
  method PatchCount(out: array<byte>, total: nat, start: nat, hash: nat, count: nat, length: nat, ghost body: seq<byte>)
    requires SCHEMA_PREFIX_SIZE <= length <= out.Length
    requires out[..length] == PagePrefix(SCHEMA_VERSION, total, start, 0, hash) + body
    modifies out
    ensures out[..length] == PagePrefix(SCHEMA_VERSION, total, start, count, hash) + body
  {
    ghost var front, before := Be(SCHEMA_VERSION, 4) + Be(total, 4) + Be(start, 4), out[..];
    assert before[..length] == (front + Be(0, 4) + Be(hash, 8)) + body;
    Put(out, 12, count, 4);
    assert out[..][..16] == before[..12] + Be(count, 4);
    Overwritten(front, Be(0, 4), Be(count, 4), Be(hash, 8), body, length, before, out[..]);
    assert out[..length] == out[..][..length];
  }

  lemma Overwritten(
    a: seq<byte>, b: seq<byte>, c: seq<byte>, d: seq<byte>, body: seq<byte>, n: nat, was: seq<byte>, now: seq<byte>)
    requires |a| == 12 && |b| == |c| == 4 && 16 <= n <= |was| == |now| && was[..n] == (a + b + d) + body
    requires now[..16] == was[..12] + c && forall k :: 16 <= k < |now| ==> now[k] == was[k]
    ensures now[..n] == (a + c + d) + body
  {
    assert was[..12] == was[..n][..12] == a;
    assert was[16..n] == was[..n][16..] == d + body;
    assert now[16..n] == was[16..n];
    assert now[..n] == now[..16] + now[16..n];
  }
}
