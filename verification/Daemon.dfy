/** The daemon's event loop on its canonical state: distributing a sample, scanning and
    decoding in place, encoding each chunk once and sending it to every subscriber. */
module Daemon {
  import opened Types
  import opened Bits
  import opened Canonical
  import opened Protocol
  import opened Session
  import opened OutputQueue
  import opened Client

  // ---- The chunks of a broadcast ----

  function FrameChunks(sv: Server, idx: seq<nat>, at: nat): seq<Msg>
    requires InRange(idx, |sv.frames|) && at <= |idx|
    decreases |idx| - at
  {
    if at == |idx| then []
    else
      var w := Window(idx, at, FRAMES_PER_MESSAGE);
      [FramesNow(sv, w)] + FrameChunks(sv, idx, at + |w|)
  }

  function SignalChunks(sv: Server, idx: seq<nat>, at: nat): seq<Msg>
    requires InRange(idx, |sv.signals|) && at <= |idx|
    decreases |idx| - at
  {
    if at == |idx| then []
    else
      var w := Window(idx, at, SIGNALS_PER_MESSAGE);
      [SignalsNow(sv, w)] + SignalChunks(sv, idx, at + |w|)
  }

  lemma {:induction false} SendAllTail(s: Session, m: Msg, chunks: seq<Msg>, c: nat)
    requires c <= |chunks|
    ensures SendAll(s, [m] + chunks, c + 1) == SendAll(s, chunks, c)
    decreases |chunks| - c
  {
    if c < |chunks| && s.active && !s.needsResync {
      SendAllTail(OrClose(Queue(s, chunks[c], true)), m, chunks, c + 1);
    }
  }

  lemma SendAllHead(s: Session, m: Msg, chunks: seq<Msg>)
    requires s.active && !s.needsResync
    ensures SendAll(s, [m] + chunks, 0) == SendAll(OrClose(Queue(s, m, true)), chunks, 0)
  {
    SendAllTail(OrClose(Queue(s, m, true)), m, chunks, 0);
  }

  /** Sending prepared chunks is sending each batch as it comes. */
  lemma FirstFrameChunk(sv: Server, s: Session, idx: seq<nat>, at: nat) returns (m: Msg, n: nat)
    requires InRange(idx, |sv.frames|) && at < |idx| && s.active && !s.needsResync
    ensures at < n <= |idx| && FrameChunks(sv, idx, at) == [m] + FrameChunks(sv, idx, n)
    ensures SendFrames(sv, s, idx, at) == SendFrames(sv, OrClose(Queue(s, m, true)), idx, n)
  {
    var w := Window(idx, at, FRAMES_PER_MESSAGE);
    m, n := FramesNow(sv, w), at + |w|;
  }

  lemma {:induction false} ChunksAreSendFrames(sv: Server, s: Session, idx: seq<nat>, at: nat)
    requires InRange(idx, |sv.frames|) && at <= |idx|
    ensures SendAll(s, FrameChunks(sv, idx, at), 0) == SendFrames(sv, s, idx, at)
    decreases |idx| - at
  {
    if at < |idx| && s.active && !s.needsResync {
      var m, n := FirstFrameChunk(sv, s, idx, at);
      SendAllHead(s, m, FrameChunks(sv, idx, n));
      ChunksAreSendFrames(sv, OrClose(Queue(s, m, true)), idx, n);
    }
  }

  lemma FirstSignalChunk(sv: Server, s: Session, idx: seq<nat>, at: nat) returns (m: Msg, n: nat)
    requires InRange(idx, |sv.signals|) && at < |idx| && s.active && !s.needsResync
    ensures at < n <= |idx| && SignalChunks(sv, idx, at) == [m] + SignalChunks(sv, idx, n)
    ensures SendSignals(sv, s, idx, at) == SendSignals(sv, OrClose(Queue(s, m, true)), idx, n)
  {
    var w := Window(idx, at, SIGNALS_PER_MESSAGE);
    m, n := SignalsNow(sv, w), at + |w|;
  }

  lemma {:induction false} ChunksAreSendSignals(sv: Server, s: Session, idx: seq<nat>, at: nat)
    requires InRange(idx, |sv.signals|) && at <= |idx|
    ensures SendAll(s, SignalChunks(sv, idx, at), 0) == SendSignals(sv, s, idx, at)
    decreases |idx| - at
  {
    if at < |idx| && s.active && !s.needsResync {
      var m, n := FirstSignalChunk(sv, s, idx, at);
      SendAllHead(s, m, SignalChunks(sv, idx, n));
      ChunksAreSendSignals(sv, OrClose(Queue(s, m, true)), idx, n);
    }
  }

  lemma FrameChunksSplit(sv: Server, idx: seq<nat>, at: nat, before: seq<Msg>, m: Msg)
    requires InRange(idx, |sv.frames|) && at < |idx| && m == FramesNow(sv, Window(idx, at, FRAMES_PER_MESSAGE))
    ensures var n := |Window(idx, at, FRAMES_PER_MESSAGE)|;
            before + FrameChunks(sv, idx, at) == (before + [m]) + FrameChunks(sv, idx, at + n)
  {
  }

  method EncodeFrameChunks(sv: Server, changed: seq<nat>) returns (chunks: seq<Msg>)
    requires InRange(changed, |sv.frames|)
    ensures chunks == FrameChunks(sv, changed, 0)
  {
    chunks := [];
    var offset := 0;
    while offset < |changed|
      invariant offset <= |changed| && chunks + FrameChunks(sv, changed, offset) == FrameChunks(sv, changed, 0)
    {
      var count := |changed| - offset;
      if count > FRAMES_PER_MESSAGE {
        count := FRAMES_PER_MESSAGE;
      }
      var w := changed[offset..offset + count];
      assert w == Window(changed, offset, FRAMES_PER_MESSAGE) && InRange(w, |sv.frames|);
      var m := FramesNow(sv, w);
      FrameChunksSplit(sv, changed, offset, chunks, m);
      chunks := chunks + [m];
      offset := offset + count;
    }
  }

  lemma SignalChunksSplit(sv: Server, idx: seq<nat>, at: nat, before: seq<Msg>, m: Msg)
    requires InRange(idx, |sv.signals|) && at < |idx| && m == SignalsNow(sv, Window(idx, at, SIGNALS_PER_MESSAGE))
    ensures var n := |Window(idx, at, SIGNALS_PER_MESSAGE)|;
            before + SignalChunks(sv, idx, at) == (before + [m]) + SignalChunks(sv, idx, at + n)
  {
  }

  method EncodeSignalChunks(sv: Server, changed: seq<nat>) returns (chunks: seq<Msg>)
    requires InRange(changed, |sv.signals|)
    ensures chunks == SignalChunks(sv, changed, 0)
  {
    chunks := [];
    var offset := 0;
    while offset < |changed|
      invariant offset <= |changed| && chunks + SignalChunks(sv, changed, offset) == SignalChunks(sv, changed, 0)
    {
      var count := |changed| - offset;
      if count > SIGNALS_PER_MESSAGE {
        count := SIGNALS_PER_MESSAGE;
      }
      var w := changed[offset..offset + count];
      assert w == Window(changed, offset, SIGNALS_PER_MESSAGE) && InRange(w, |sv.signals|);
      var m := SignalsNow(sv, w);
      SignalChunksSplit(sv, changed, offset, chunks, m);
      chunks := chunks + [m];
      offset := offset + count;
    }
  }

  /** The loop fills as many places as the sizing macros provide for that many entries. */
  lemma {:induction false} FrameChunkCount(sv: Server, idx: seq<nat>, at: nat)
    requires InRange(idx, |sv.frames|) && at <= |idx|
    ensures |FrameChunks(sv, idx, at)| == Chunks(|idx| - at, FRAMES_PER_MESSAGE)
    decreases |idx| - at
  {
    if at < |idx| { FrameChunkCount(sv, idx, at + |Window(idx, at, FRAMES_PER_MESSAGE)|); }
  }

  lemma {:induction false} SignalChunkCount(sv: Server, idx: seq<nat>, at: nat)
    requires InRange(idx, |sv.signals|) && at <= |idx|
    ensures |SignalChunks(sv, idx, at)| == Chunks(|idx| - at, SIGNALS_PER_MESSAGE)
    decreases |idx| - at
  {
    if at < |idx| { SignalChunkCount(sv, idx, at + |Window(idx, at, SIGNALS_PER_MESSAGE)|); }
  }

  /** No broadcast, whatever changed, overruns the scratch arrays of FRAME_BATCH_CHUNKS and
      SIGNAL_BATCH_CHUNKS places. */
  lemma ScratchSuffices(cat: Catalog, a: Server, b: Server)
    requires Shaped(cat, a) && Shaped(cat, b)
    ensures |FrameChunks(b, Marked(FrameFlags(a.frames, b.frames)), 0)|
            <= (|cat.canIds| + FRAMES_PER_MESSAGE - 1) / FRAMES_PER_MESSAGE
    ensures |SignalChunks(b, Marked(SignalFlags(a.signals, b.signals)), 0)|
            <= (|cat.defs| + SIGNALS_PER_MESSAGE - 1) / SIGNALS_PER_MESSAGE
  {
    var frames, signals := Marked(FrameFlags(a.frames, b.frames)), Marked(SignalFlags(a.signals, b.signals));
    MarkedCount(FrameFlags(a.frames, b.frames));
    MarkedCount(SignalFlags(a.signals, b.signals));
    FrameChunkCount(b, frames, 0);
    SignalChunkCount(b, signals, 0);
    ChunksMonotone(|frames|, |cat.canIds|, FRAMES_PER_MESSAGE);
    ChunksMonotone(|signals|, |cat.defs|, SIGNALS_PER_MESSAGE);
    FrameChunksRoundUp(|cat.canIds|);
    SignalChunksRoundUp(|cat.defs|);
  }

  // ---- Scanning and decoding ----

  method ScanFrames(was: seq<Frame>, latest: seq<Frame>) returns (changed: seq<nat>, flags: seq<bool>)
    requires |was| == |latest|
    ensures flags == FrameFlags(was, latest) && changed == Marked(flags)
  {
    changed, flags := [], [];
    var i := 0;
    while i < |latest|
      invariant 0 <= i <= |latest| && flags == FrameFlags(was, latest)[..i] && changed == Marked(flags)
    {
      var differs := latest[i].state != was[i].state || latest[i].data != was[i].data;
      if differs {
        changed := changed + [i];
      }
      assert (flags + [differs])[..i] == flags;
      flags := flags + [differs];
      i := i + 1;
    }
  }

  method ScanSignals(was: seq<SignalValue>, latest: seq<SignalValue>) returns (changed: seq<nat>)
    requires |was| == |latest|
    ensures changed == Marked(SignalFlags(was, latest))
  {
    changed := [];
    ghost var flags := SignalFlags(was, latest);
    var i := 0;
    while i < |latest|
      invariant 0 <= i <= |latest| && changed == Marked(flags[..i])
    {
      var a, b := latest[i], was[i];
      if a.raw != b.raw || a.state != b.state || a.firstObserved != b.firstObserved || a.lastChange != b.lastChange {
        changed := changed + [i];
      }
      i := i + 1;
      assert flags[..i][..i - 1] == flags[..i - 1];
    }
    assert flags[..i] == flags;
  }

  /** Decode again, in place, the signals of changed frames. */
  method DecodeChanged(cat: Catalog, changed: seq<bool>, latest: seq<Frame>, values: array<SignalValue>)
    requires GoodLayout(cat) && GoodFrames(cat, latest) && |changed| == |latest| && values.Length == |cat.defs|
    modifies values
    ensures forall k :: 0 <= k < values.Length ==> values[k] == Refreshed(cat, changed, latest, old(values[..]), k)
  {
    ghost var was := values[..];
    var i := 0;
    while i < values.Length
      invariant 0 <= i <= values.Length
      invariant forall k :: 0 <= k < i ==> values[k] == Refreshed(cat, changed, latest, was, k)
      invariant forall k :: i <= k < values.Length ==> values[k] == was[k]
    {
      var d := cat.defs[i];
      assert GoodDef(cat, d);
      if changed[d.frameIndex] {
        var frame := latest[d.frameIndex];
        assert GoodFrame(cat, latest, d.frameIndex);
        var raw := DecodeSignalRaw(frame.data, d.parts);
        values[i] := values[i].(raw := raw, physical := Physical(cat, d, raw));
        values[i] := values[i].(state := frame.state, calibrated := d.calibrated);
      }
      i := i + 1;
    }
  }

  lemma FlaggedStep(cat: Catalog, changed: seq<bool>, latest: seq<Frame>, was: seq<SignalValue>, i: nat)
    requires GoodLayout(cat) && GoodFrames(cat, latest) && |changed| == |latest|
    requires |was| == |cat.defs| && i < |cat.defs|
    ensures var d, v := cat.defs[i], Refreshed(cat, changed, latest, was, i);
            && d.frameIndex < |changed|
            && (d.invalidIndex == NO_INDEX || d.invalidIndex < |cat.defs|)
            && (d.invalidIndex != NO_INDEX ==> cat.defs[d.invalidIndex].frameIndex < |changed|)
            && Flagged(cat, changed, latest, was, i) ==
               if && d.invalidIndex != NO_INDEX
                  && (changed[d.frameIndex] || changed[cat.defs[d.invalidIndex].frameIndex])
                  && v.state.Valid? && Refreshed(cat, changed, latest, was, d.invalidIndex).raw != 0
               then v.(state := Invalid) else v
  {
    assert GoodDef(cat, cat.defs[i]);
  }

  /** Apply, in place, the invalid flags of changed frames. */
  method FlagChanged(
    cat: Catalog, changed: seq<bool>, latest: seq<Frame>, ghost was: seq<SignalValue>, values: array<SignalValue>)
    requires GoodLayout(cat) && GoodFrames(cat, latest) && |changed| == |latest|
    requires values.Length == |cat.defs| == |was|
    requires forall k :: 0 <= k < values.Length ==> values[k] == Refreshed(cat, changed, latest, was, k)
    modifies values
    ensures forall k :: 0 <= k < values.Length ==> values[k] == Flagged(cat, changed, latest, was, k)
  {
    var i := 0;
    while i < values.Length
      invariant 0 <= i <= values.Length
      invariant forall k :: 0 <= k < i ==> values[k] == Flagged(cat, changed, latest, was, k)
      invariant forall k :: i <= k < values.Length ==> values[k] == Refreshed(cat, changed, latest, was, k)
    {
      FlaggedStep(cat, changed, latest, was, i);
      var d := cat.defs[i];
      var invalid := d.invalidIndex;
      assert values[i] == Refreshed(cat, changed, latest, was, i);
      if invalid != NO_INDEX {
        assert values[invalid].raw == Refreshed(cat, changed, latest, was, invalid).raw;
        if changed[d.frameIndex] || changed[cat.defs[invalid].frameIndex] {
          if values[i].state.Valid? && values[invalid].raw != 0 {
            values[i] := values[i].(state := Invalid);
          }
        }
      }
      i := i + 1;
    }
  }

  method NextValues(cat: Catalog, sv: Server, sample: Sample, changed: seq<bool>) returns (latest: seq<SignalValue>)
    requires GoodLayout(cat) && Shaped(cat, sv) && GoodFrames(cat, sample.frames)
    requires changed == FrameFlags(sv.frames, sample.frames)
    ensures latest == NextSignals(cat, sv, sample)
  {
    var values := new SignalValue[|sv.signals|](i requires 0 <= i < |sv.signals| => sv.signals[i]);
    assert values[..] == sv.signals;
    DecodeChanged(cat, changed, sample.frames, values);
    FlagChanged(cat, changed, sample.frames, sv.signals, values);
    ReconcileSignalTimestamps(values, sv.signals, sample.timestamp);
    latest := values[..];
  }

  lemma UpdatesAreBroadcast(sv: Server, s: Session, frames: seq<nat>, signals: seq<nat>)
    requires InRange(frames, |sv.frames|) && InRange(signals, |sv.signals|)
    ensures Updates(s, FrameChunks(sv, frames, 0), SignalChunks(sv, signals, 0)) == Broadcast(sv, frames, signals, s)
  {
    if Listens(s) {
      ChunksAreSendFrames(sv, s, frames, 0);
      ChunksAreSendSignals(sv, SendFrames(sv, s, frames, 0), signals, 0);
    }
  }

  method StampFirst(values: array<SignalValue>, ts: nat)
    modifies values
    ensures forall k :: 0 <= k < values.Length ==> values[k] == Stamped(old(values[k]), ts)
  {
    var i := 0;
    while i < values.Length
      invariant 0 <= i <= values.Length
      invariant forall k :: 0 <= k < i ==> values[k] == Stamped(old(values[k]), ts)
      invariant forall k :: i <= k < values.Length ==> values[k] == old(values[k])
    {
      if values[i].state.Valid? {
        values[i] := values[i].(firstObserved := ts, lastChange := ts);
      } else {
        values[i] := values[i].(firstObserved := 0, lastChange := 0);
      }
      i := i + 1;
    }
  }

  // ---- The daemon ----

  class Daemon {
    const cat: Catalog
    const clients: seq<Connection>
    var frames: seq<Frame>
    var signals: seq<SignalValue>
    var sampleSeq: nat
    var changeSeq: nat
    var sampleTs: nat
    var coalesced: nat
    var advances: nat

    function State(): Server
      reads this
    {
      Server(frames, signals, sampleSeq, changeSeq, sampleTs, coalesced, advances)
    }

    /** Start-up: the first sample decoded in full, then stamped in place. */
    constructor (cat: Catalog, clients: seq<Connection>, sample: Sample)
      requires GoodLayout(cat) && GoodFrames(cat, sample.frames)
      ensures this.cat == cat && this.clients == clients && State() == StartUp(cat, sample)
    {
      var values := new SignalValue[|cat.defs|](_ => SignalValue(0, 0, 0, 0, Unavailable, false));
      DecodeSignals(cat, sample.frames, values);
      StampFirst(values, sample.timestamp);
      this.cat, this.clients := cat, clients;
      frames, signals := sample.frames, values[..];
      sampleSeq, changeSeq, sampleTs, coalesced, advances := sample.sequence, 0, sample.timestamp, 0, 0;
    }

    /** The client places are distinct objects with distinct buffers. */
    predicate Separate() {
      forall i, j :: 0 <= i < j < |clients| ==> clients[i] != clients[j] && clients[i].slots != clients[j].slots
    }

    /** Changing one place leaves the others alone. */
    lemma Apart(i: nat)
      requires Separate() && i < |clients|
      ensures forall k :: 0 <= k < |clients| && k != i ==>
                clients[k] != clients[i] && clients[k].slots != clients[i].slots
    {
    }

    function Buffers(): set<array<Slot>> {
      set i | 0 <= i < |clients| :: clients[i].slots
    }

    /** `distribute_latest_sample` up to the broadcast. */
    method AbsorbSample(sample: Sample) returns (changed: seq<nat>, changedSignals: seq<nat>)
      requires GoodLayout(cat) && Shaped(cat, State()) && GoodFrames(cat, sample.frames)
      modifies this
      ensures State() == Absorb(cat, old(State()), sample)
      ensures sample.sequence <= old(sampleSeq) ==> changed == []
      ensures sample.sequence > old(sampleSeq) ==> changed == Marked(FrameFlags(old(frames), frames))
      ensures changed != [] ==> changedSignals == Marked(SignalFlags(old(signals), signals))
    {
      changed, changedSignals := [], [];
      if sample.sequence <= sampleSeq {
        return;
      }
      var elapsed := sample.sequence - sampleSeq;
      var flags;
      changed, flags := ScanFrames(frames, sample.frames);
      if changed != [] {
        var latest := NextValues(cat, State(), sample, flags);
        changedSignals := ScanSignals(signals, latest);
        signals := latest;
        changeSeq := changeSeq + 1;
      }
      frames := sample.frames;
      sampleSeq := sample.sequence;
      sampleTs := sample.timestamp;
      coalesced := coalesced + (elapsed - 1);
      advances := advances + 1;
    }

    /** Every client's share of a distribution. */
    method BroadcastChanges(changed: seq<nat>, changedSignals: seq<nat>)
      requires Separate() && InRange(changed, |frames|) && InRange(changedSignals, |signals|)
      modifies clients, Buffers()
      ensures forall i :: 0 <= i < |clients| ==>
                clients[i].State() == Broadcast(State(), changed, changedSignals, old(clients[i].State()))
    {
      ghost var sv, was := State(), Sessions();
      var frameChunks := EncodeFrameChunks(State(), changed);
      var signalChunks := EncodeSignalChunks(State(), changedSignals);
      var i := 0;
      while i < |clients|
        invariant 0 <= i <= |clients|
        invariant forall k :: 0 <= k < i ==> clients[k].State() == Broadcast(sv, changed, changedSignals, was[k])
        invariant forall k :: i <= k < |clients| ==> clients[k].State() == was[k]
      {
        Apart(i);
        UpdatesAreBroadcast(sv, was[i], changed, changedSignals);
        clients[i].SendUpdates(frameChunks, signalChunks);
        i := i + 1;
      }
    }

    method HasSubscriber() returns (yes: bool)
      ensures yes <==> exists i :: 0 <= i < |clients| && Listens(clients[i].State())
    {
      yes := false;
      var i := 0;
      while i < |clients|
        invariant 0 <= i <= |clients| && !yes && forall k :: 0 <= k < i ==> !Listens(clients[k].State())
      {
        if clients[i].active && clients[i].subscribed && !clients[i].needsResync {
          assert Listens(clients[i].State());
          return true;
        }
        i := i + 1;
      }
    }

    /** The whole of `distribute_latest_sample`. */
    method DistributeLatestSample(sample: Sample)
      requires GoodLayout(cat) && Shaped(cat, State()) && GoodFrames(cat, sample.frames) && Separate()
      modifies this, clients, Buffers()
      ensures State() == Absorb(cat, old(State()), sample)
      ensures forall i :: 0 <= i < |clients| ==>
                clients[i].State() == Shared(old(State()), State(), old(clients[i].State()))
    {
      ghost var was := State();
      var changed, changedSignals := AbsorbSample(sample);
      assert forall i :: 0 <= i < |clients| ==> clients[i].State() == old(clients[i].State());
      if changed == [] {
        return;
      }
      var listened := HasSubscriber();
      if !listened {
        assert forall i :: 0 <= i < |clients| ==> !Listens(clients[i].State());
        return;
      }
      BroadcastChanges(changed, changedSignals);
    }

    /** The sessions as values. */
    ghost function Sessions(): (ss: seq<Session>)
      reads clients, Buffers()
      ensures |ss| == |clients| && forall i :: 0 <= i < |ss| ==> ss[i] == clients[i].State()
    {
      seq(|clients|, i requires 0 <= i < |clients| reads clients, Buffers() => clients[i].State())
    }

    method OnHeartbeat(milliHz: nat, sourceState: nat)
      requires Separate()
      modifies clients, Buffers()
      ensures forall i :: 0 <= i < |clients| ==>
                clients[i].State() == BeatTo(State(), old(clients[i].State()), milliHz, sourceState)
    {
      ghost var sv, was := State(), Sessions();
      var i := 0;
      while i < |clients|
        invariant 0 <= i <= |clients|
        invariant forall k :: 0 <= k < i ==> clients[k].State() == BeatTo(sv, was[k], milliHz, sourceState)
        invariant forall k :: i <= k < |clients| ==> clients[k].State() == was[k]
      {
        Apart(i);
        clients[i].SendHeartbeat(State(), milliHz, sourceState);
        i := i + 1;
      }
    }
  }
}
