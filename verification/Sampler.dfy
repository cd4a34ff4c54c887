/** The sampler: merging each batch into the working frames and re-baselining whenever
    the source was reconnected. */
module Sampler {
  import opened Types
  import Source
  import Canonical

  /** One element of `merge_sampled_frames`. */
  function Merged(d: Frame, s: Frame, ts: nat, initialize: bool): Frame {
    if initialize then s.(firstObserved := 0, lastChange := 0)
    else if s.state.Unavailable? then d.(state := Unavailable)
    else
      var c := if d.data != s.data
        then d.(data := s.data, firstObserved := if d.firstObserved == 0 then ts else d.firstObserved, lastChange := ts)
        else d;
      c.(canId := s.canId, state := if c.firstObserved != 0 then Valid else NeverObserved)
  }

  function MergeAll(d: seq<Frame>, s: seq<Frame>, ts: nat, initialize: bool): (r: seq<Frame>)
    requires |d| == |s|
    ensures |r| == |d| && forall i :: 0 <= i < |r| ==> r[i] == Merged(d[i], s[i], ts, initialize)
  {
    seq(|d|, i requires 0 <= i < |d| => Merged(d[i], s[i], ts, initialize))
  }

  method MergeSampledFrames(destination: array<Frame>, sampled: seq<Frame>, ts: nat, initialize: bool)
    requires destination.Length == |sampled|
    modifies destination
    ensures destination[..] == MergeAll(old(destination[..]), sampled, ts, initialize)
  {
    var i := 0;
    while i < destination.Length
      invariant 0 <= i <= destination.Length
      invariant forall k :: 0 <= k < i ==> destination[k] == Merged(old(destination[k]), sampled[k], ts, initialize)
      invariant forall k :: i <= k < destination.Length ==> destination[k] == old(destination[k])
    {
      if initialize {
        destination[i] := sampled[i];
        destination[i] := destination[i].(firstObserved := 0, lastChange := 0);
        i := i + 1;
        continue;
      }
      if sampled[i].state.Unavailable? {
        destination[i] := destination[i].(state := Unavailable);
        i := i + 1;
        continue;
      }
      if destination[i].data != sampled[i].data {
        destination[i] := destination[i].(data := sampled[i].data);
        if destination[i].firstObserved == 0 {
          destination[i] := destination[i].(firstObserved := ts);
        }
        destination[i] := destination[i].(lastChange := ts);
      }
      destination[i] := destination[i].(
        canId := sampled[i].canId,
        state := if destination[i].firstObserved != 0 then Valid else NeverObserved);
      i := i + 1;
    }
  }

  /** One batch as the sampler saw it: whether it was read, and from which connection. */
  datatype Batch = Batch(ts: nat, frames: seq<Frame>, ok: bool, generation: nat)

  /** `baseline` and `since` are history: the batch that last initialized the working
      frames, and the batches merged after it. */
  datatype State = State(
    source: Source.Session, working: seq<Frame>, published: Canonical.Sample,
    baseline: Batch, since: seq<Batch>)

  /** `sampler_init`: whatever the first read gives is the first baseline. */
  function Start(cat: Catalog, v: Source.Visit, now: nat, ts: nat): State
    requires Source.GoodVisit(cat, v)
  {
    var (s, out) := Source.Read(Source.FRESH, v, now);
    var frames := Source.Delivered(cat, Source.FRESH, v, now);
    var working := MergeAll(frames, frames, ts, true);
    State(s, working, Canonical.Sample(working, 0, ts), Batch(ts, frames, out.Success?, s.generation), [])
  }

  predicate NewSource(st: State, v: Source.Visit, now: nat) {
    var (s, out) := Source.Read(st.source, v, now);
    out.Success? && s.generation != st.source.generation
  }

  /** One turn of the sampler thread. */
  function Tick(cat: Catalog, st: State, v: Source.Visit, now: nat, ts: nat): State
    requires Source.GoodVisit(cat, v) && |st.working| == |cat.canIds|
  {
    var (s, out) := Source.Read(st.source, v, now);
    var frames := Source.Delivered(cat, st.source, v, now);
    var renewed := NewSource(st, v, now);
    var working := MergeAll(st.working, frames, ts, renewed);
    var batch := Batch(ts, frames, out.Success?, s.generation);
    State(s, working, Canonical.Sample(working, st.published.sequence + 1, ts),
          if renewed then batch else st.baseline,
          if renewed then [] else st.since + [batch])
  }

  /** The sampler as its thread holds it; `baseline` and `since` are history. */
  class SamplerThread {
    const source: Source.SourceSession
    const working: array<Frame>
    var published: Canonical.Sample
    var baseline: Batch
    var since: seq<Batch>

    function View(): State
      reads this, source, working
    {
      State(source.State(), working[..], published, baseline, since)
    }

    constructor (cat: Catalog, v: Source.Visit, now: nat, ts: nat)
      requires Source.GoodVisit(cat, v)
      ensures View() == Start(cat, v, now, ts)
    {
      var session := new Source.SourceSession();
      var sampled := new Frame[|cat.canIds|](_ => Frame(0, Unavailable, ZERO_DATA, 0, 0));
      var outcome := session.ReadFrames(cat, sampled, v, now);
      var frames := new Frame[|cat.canIds|](i requires 0 <= i < sampled.Length reads sampled => sampled[i]);
      assert frames[..] == sampled[..];
      MergeSampledFrames(frames, sampled[..], ts, true);
      source, working := session, frames;
      published := Canonical.Sample(frames[..], 0, ts);
      baseline, since := Batch(ts, sampled[..], outcome.Success?, session.generation), [];
    }

    /** One turn of `sampler_thread_main`: read, merge in place, publish. */
    method TickOnce(cat: Catalog, v: Source.Visit, now: nat, ts: nat)
      requires Source.GoodVisit(cat, v) && working.Length == |cat.canIds|
      modifies this, source, working
      ensures View() == Tick(cat, old(View()), v, now, ts)
    {
      var sampled := new Frame[|cat.canIds|](_ => Frame(0, Unavailable, ZERO_DATA, 0, 0));
      var generation := source.generation;
      var outcome := source.ReadFrames(cat, sampled, v, now);
      var newSource := outcome.Success? && generation != source.generation;
      var frames := sampled[..];
      MergeSampledFrames(working, frames, ts, newSource);
      var batch := Batch(ts, frames, outcome.Success?, source.generation);
      if newSource {
        baseline, since := batch, [];
      } else {
        since := since + [batch];
      }
      published := Canonical.Sample(working[..], published.sequence + 1, ts);
    }
  }

  // ---- What a working frame means ----

  /** The bytes last seen available, starting from the baseline's. */
  function Held(base: Batch, since: seq<Batch>, i: nat): seq<byte>
    requires HaveFrame(base, since, i)
  {
    if since == [] then base.frames[i].data
    else
      var n := |since| - 1;
      if since[n].frames[i].state.Unavailable? then Held(base, since[..n], i) else since[n].frames[i].data
  }

  predicate HaveFrame(base: Batch, since: seq<Batch>, i: nat) {
    i < |base.frames| && forall k :: 0 <= k < |since| ==> i < |since[k].frames|
  }

  predicate ChangedNow(base: Batch, since: seq<Batch>, i: nat)
    requires since != [] && HaveFrame(base, since, i)
  {
    var n := |since| - 1;
    !since[n].frames[i].state.Unavailable? && since[n].frames[i].data != Held(base, since[..n], i)
  }

  /** When the bytes of frame i changed since the baseline. */
  function ChangeTimes(base: Batch, since: seq<Batch>, i: nat): seq<nat>
    requires HaveFrame(base, since, i)
  {
    if since == [] then []
    else
      var n := |since| - 1;
      ChangeTimes(base, since[..n], i) + if ChangedNow(base, since, i) then [since[n].ts] else []
  }

  /** The published promise: a frame is observed once its bytes change after the baseline,
      its stamps are the first and last such change, and an unreadable frame is unavailable
      but keeps its last bytes as history. */
  function Meaning(base: Batch, since: seq<Batch>, i: nat): Frame
    requires HaveFrame(base, since, i)
  {
    var times := ChangeTimes(base, since, i);
    Frame(base.frames[i].canId,
          if since == [] then base.frames[i].state
          else if since[|since| - 1].frames[i].state.Unavailable? then Unavailable
          else if times == [] then NeverObserved else Valid,
          Held(base, since, i),
          if times == [] then 0 else times[0],
          if times == [] then 0 else times[|times| - 1])
  }

  predicate GoodBatch(cat: Catalog, b: Batch) {
    Source.GoodRead(cat, b.frames) && b.ts > 0
  }

  predicate AllPositive(times: seq<nat>) {
    forall k :: 0 <= k < |times| ==> times[k] > 0
  }

  predicate AllGood(cat: Catalog, since: seq<Batch>) {
    forall k :: 0 <= k < |since| ==> GoodBatch(cat, since[k])
  }

  predicate SamplerInv(cat: Catalog, st: State) {
    && GoodFrames(cat, st.working)
    && st.published.frames == st.working && st.published.timestamp > 0
    && GoodBatch(cat, st.baseline) && AllGood(cat, st.since)
    && (forall i :: 0 <= i < |st.working| ==> Explained(cat, st, i))
    && GenerationsKept(st)
  }

  predicate Explained(cat: Catalog, st: State, i: nat)
    requires i < |st.working|
  {
    && HaveFrame(st.baseline, st.since, i)
    && st.working[i] == Meaning(st.baseline, st.since, i)
  }

  /** Every batch read since the baseline came over the baseline's own connection. */
  predicate GenerationsKept(st: State) {
    && (st.source.connected ==> st.baseline.ok && st.baseline.generation == st.source.generation)
    && (forall k :: 0 <= k < |st.since| && st.since[k].ok ==>
          st.baseline.ok && st.since[k].generation == st.baseline.generation)
  }

  lemma StartInv(cat: Catalog, v: Source.Visit, now: nat, ts: nat)
    requires Source.GoodVisit(cat, v) && ts > 0
    ensures SamplerInv(cat, Start(cat, v, now, ts))
  {
  }

  lemma HistoryStep(base: Batch, since: seq<Batch>, b: Batch, i: nat)
    requires HaveFrame(base, since, i) && i < |b.frames|
    ensures var f, held, times := b.frames[i], Held(base, since, i), ChangeTimes(base, since, i);
            && HaveFrame(base, since + [b], i)
            && Held(base, since + [b], i) == (if f.state.Unavailable? then held else f.data)
            && ChangeTimes(base, since + [b], i) ==
               times + if !f.state.Unavailable? && f.data != held then [b.ts] else []
  {
    var more, n := since + [b], |since|;
    assert more[..n] == since && more[n] == b;
  }

  lemma MeaningStep(cat: Catalog, st: State, b: Batch, i: nat)
    requires SamplerInv(cat, st) && GoodBatch(cat, b) && i < |cat.canIds|
    ensures HaveFrame(st.baseline, st.since + [b], i)
    ensures Merged(st.working[i], b.frames[i], b.ts, false) == Meaning(st.baseline, st.since + [b], i)
  {
    assert Explained(cat, st, i);
    assert (st.since + [b])[|st.since|] == b;
    HistoryStep(st.baseline, st.since, b, i);
    ChangeTimesPositive(cat, st.baseline, st.since, i);
  }

  lemma {:induction false} ChangeTimesPositive(cat: Catalog, base: Batch, since: seq<Batch>, i: nat)
    requires HaveFrame(base, since, i) && AllGood(cat, since)
    ensures AllPositive(ChangeTimes(base, since, i))
  {
    if since != [] {
      var n := |since| - 1;
      ChangeTimesPositive(cat, base, since[..n], i);
      assert since[n].ts > 0;
      assert AllPositive(if ChangedNow(base, since, i) then [since[n].ts] else []);
    }
  }

  /** Every turn of the sampler keeps the working frames explained by the batches since the
      last baseline, and never mixes two connections into one baseline. */
  lemma TickKeepsInv(cat: Catalog, st: State, v: Source.Visit, now: nat, ts: nat)
    requires SamplerInv(cat, st) && Source.GoodVisit(cat, v) && ts > 0
    ensures SamplerInv(cat, Tick(cat, st, v, now, ts))
  {
    var next := Tick(cat, st, v, now, ts);
    if !NewSource(st, v, now) {
      var b := next.since[|st.since|];
      assert next.since == st.since + [b];
      forall i | 0 <= i < |next.working|
        ensures Explained(cat, next, i) && GoodFrame(cat, next.working, i)
      {
        assert GoodFrame(cat, st.working, i);
        MeaningStep(cat, st, b, i);
      }
    }
  }

  /** The first successful read after a reconnection starts over: nothing counts as observed. */
  lemma ReconnectionRebaselines(cat: Catalog, st: State, v: Source.Visit, now: nat, ts: nat, i: nat)
    requires SamplerInv(cat, st) && Source.GoodVisit(cat, v) && ts > 0 && i < |cat.canIds|
    requires !st.source.connected && Source.Read(st.source, v, now).1.Success?
    ensures var next := Tick(cat, st, v, now, ts);
            && next.since == [] && next.baseline.generation == next.source.generation == st.source.generation + 1
            && next.working[i] == v.read.frames[i].(firstObserved := 0, lastChange := 0)
            && !next.working[i].state.Valid?
  {
  }

  /** A batch that could not be read touches no bytes and no stamps: every frame becomes
      unavailable and keeps what was last seen of it, whatever the failed visit brought. */
  lemma OutageKeepsHistory(cat: Catalog, st: State, v: Source.Visit, now: nat, ts: nat, i: nat)
    requires SamplerInv(cat, st) && Source.GoodVisit(cat, v) && ts > 0 && i < |cat.canIds|
    requires !Source.Read(st.source, v, now).1.Success?
    ensures var next := Tick(cat, st, v, now, ts);
            && next.published.frames[i] == st.working[i].(state := Unavailable)
            && next.baseline == st.baseline && next.published.sequence == st.published.sequence + 1
  {
    assert GoodFrame(cat, st.working, i);
  }

  /** Between two baselines a frame's first stamp is written once, its last stamp moves only
      with its bytes, and an available frame is Valid exactly when it was ever seen to change. */
  lemma WithinGeneration(cat: Catalog, st: State, v: Source.Visit, now: nat, ts: nat, i: nat)
    requires SamplerInv(cat, st) && Source.GoodVisit(cat, v) && ts > 0 && i < |cat.canIds|
    requires !NewSource(st, v, now)
    ensures var a, b := st.working[i], Tick(cat, st, v, now, ts).working[i];
            && (a.firstObserved != 0 ==> b.firstObserved == a.firstObserved)
            && (b.lastChange != a.lastChange || b.firstObserved != a.firstObserved ==> b.data != a.data)
            && (!b.state.Unavailable? ==> (b.state.Valid? <==> b.firstObserved != 0))
  {
  }
}
