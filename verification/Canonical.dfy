/** The canonical vehicle state: full signal decoding, the incremental decoding that
    the daemon runs on every sample, and the observation time stamps it carries on. */
module Canonical {
  import opened Types
  import opened Bits

  datatype Sample = Sample(frames: seq<Frame>, sequence: nat, timestamp: nat)

  /** `advances` counts the distributions that moved `sampleSeq`; it is history only. */
  datatype Server = Server(
    frames: seq<Frame>, signals: seq<SignalValue>,
    sampleSeq: nat, changeSeq: nat, sampleTs: nat, coalesced: nat, advances: nat)

  // ---- Full decoding ----

  function RawAt(cat: Catalog, frames: seq<Frame>, i: nat): nat
    requires GoodLayout(cat) && GoodFrames(cat, frames) && i < |cat.defs|
  {
    var d := cat.defs[i];
    assert GoodFrame(cat, frames, d.frameIndex);
    Raw(frames[d.frameIndex].data, d.parts)
  }

  function StateAt(cat: Catalog, frames: seq<Frame>, i: nat): ObsState
    requires GoodLayout(cat) && GoodFrames(cat, frames) && i < |cat.defs|
  {
    var d := cat.defs[i];
    if frames[d.frameIndex].state.Valid? && d.invalidIndex != NO_INDEX && RawAt(cat, frames, d.invalidIndex) != 0
    then Invalid
    else frames[d.frameIndex].state
  }

  function DecodedAt(cat: Catalog, frames: seq<Frame>, i: nat): SignalValue
    requires GoodLayout(cat) && GoodFrames(cat, frames) && i < |cat.defs|
  {
    var d := cat.defs[i];
    var f := frames[d.frameIndex];
    SignalValue(RawAt(cat, frames, i), Physical(cat, d, RawAt(cat, frames, i)),
                f.firstObserved, f.lastChange, StateAt(cat, frames, i), d.calibrated)
  }

  function FullDecode(cat: Catalog, frames: seq<Frame>): (v: seq<SignalValue>)
    requires GoodLayout(cat) && GoodFrames(cat, frames)
    ensures |v| == |cat.defs| && forall i :: 0 <= i < |v| ==> v[i] == DecodedAt(cat, frames, i)
  {
    seq(|cat.defs|, i requires 0 <= i < |cat.defs| => DecodedAt(cat, frames, i))
  }

  /** The two passes of `roadcast_decode_signals`, filling `values` in place. */
  method DecodeSignals(cat: Catalog, frames: seq<Frame>, values: array<SignalValue>)
    requires GoodLayout(cat) && GoodFrames(cat, frames) && values.Length == |cat.defs|
    modifies values
    ensures values[..] == FullDecode(cat, frames)
  {
    DecodePass(cat, frames, values);
    FlagPass(cat, frames, values);
  }

  method FlagPass(cat: Catalog, frames: seq<Frame>, values: array<SignalValue>)
    requires GoodLayout(cat) && GoodFrames(cat, frames) && values.Length == |cat.defs|
    requires forall k :: 0 <= k < values.Length ==> values[k] == FirstPass(cat, frames, k)
    modifies values
    ensures forall k :: 0 <= k < values.Length ==> values[k] == DecodedAt(cat, frames, k)
  {
    var i := 0;
    while i < values.Length
      invariant 0 <= i <= values.Length
      invariant forall k :: 0 <= k < i ==> values[k] == DecodedAt(cat, frames, k)
      invariant forall k :: i <= k < values.Length ==> values[k] == FirstPass(cat, frames, k)
    {
      FlagStep(cat, frames, i);
      var invalid := cat.defs[i].invalidIndex;
      assert invalid != NO_INDEX ==> values[invalid].raw == RawAt(cat, frames, invalid);
      if values[i].state.Valid? && invalid != NO_INDEX && values[invalid].raw != 0 {
        values[i] := values[i].(state := Invalid);
      }
      i := i + 1;
    }
  }

  method DecodePass(cat: Catalog, frames: seq<Frame>, values: array<SignalValue>)
    requires GoodLayout(cat) && GoodFrames(cat, frames) && values.Length == |cat.defs|
    modifies values
    ensures forall k :: 0 <= k < values.Length ==> values[k] == FirstPass(cat, frames, k)
  {
    var i := 0;
    while i < values.Length
      invariant 0 <= i <= values.Length
      invariant forall k :: 0 <= k < i ==> values[k] == FirstPass(cat, frames, k)
    {
      var d := cat.defs[i];
      var f := frames[d.frameIndex];
      assert GoodFrame(cat, frames, d.frameIndex);
      var raw := DecodeSignalRaw(f.data, d.parts);
      values[i] := SignalValue(raw, Physical(cat, d, raw), f.firstObserved, f.lastChange, f.state, d.calibrated);
      i := i + 1;
    }
  }

  function FirstPass(cat: Catalog, frames: seq<Frame>, i: nat): SignalValue
    requires GoodLayout(cat) && GoodFrames(cat, frames) && i < |cat.defs|
  {
    DecodedAt(cat, frames, i).(state := frames[cat.defs[i].frameIndex].state)
  }

  lemma FlagStep(cat: Catalog, frames: seq<Frame>, i: nat)
    requires GoodLayout(cat) && GoodFrames(cat, frames) && i < |cat.defs|
    ensures var v, flag := FirstPass(cat, frames, i), cat.defs[i].invalidIndex;
            && (flag == NO_INDEX || flag < |cat.defs|)
            && DecodedAt(cat, frames, i) ==
               if v.state.Valid? && flag != NO_INDEX && RawAt(cat, frames, flag) != 0
               then v.(state := Invalid) else v
  {
    assert GoodDef(cat, cat.defs[i]);
  }

  // ---- Incremental decoding ----

  predicate FrameDiffers(a: Frame, b: Frame) {
    a.state != b.state || a.data != b.data
  }

  predicate SignalDiffers(a: SignalValue, b: SignalValue) {
    a.raw != b.raw || a.state != b.state || a.firstObserved != b.firstObserved || a.lastChange != b.lastChange
  }

  /** The positions of the set flags, in order. */
  function Marked(flags: seq<bool>): (idx: seq<nat>)
    ensures forall k :: 0 <= k < |idx| ==> idx[k] < |flags|
  {
    if flags == [] then []
    else
      var n := |flags| - 1;
      Marked(flags[..n]) + if flags[n] then [n] else []
  }

  function FrameFlags(prev: seq<Frame>, latest: seq<Frame>): (flags: seq<bool>)
    requires |prev| == |latest|
    ensures |flags| == |prev| && forall i :: 0 <= i < |flags| ==> flags[i] == FrameDiffers(latest[i], prev[i])
  {
    seq(|prev|, i requires 0 <= i < |prev| => FrameDiffers(latest[i], prev[i]))
  }

  function SignalFlags(prev: seq<SignalValue>, latest: seq<SignalValue>): (flags: seq<bool>)
    requires |prev| == |latest|
    ensures |flags| == |prev| && forall i :: 0 <= i < |flags| ==> flags[i] == SignalDiffers(latest[i], prev[i])
  {
    seq(|prev|, i requires 0 <= i < |prev| => SignalDiffers(latest[i], prev[i]))
  }

  /** First pass: decode again only the signals of changed frames. */
  function Refreshed(
    cat: Catalog, changed: seq<bool>, latest: seq<Frame>, signals: seq<SignalValue>, i: nat): SignalValue
    requires GoodLayout(cat) && GoodFrames(cat, latest) && |changed| == |latest|
    requires |signals| == |cat.defs| && i < |cat.defs|
  {
    var d := cat.defs[i];
    if changed[d.frameIndex]
    then
      var raw := RawAt(cat, latest, i);
      signals[i].(raw := raw, physical := Physical(cat, d, raw),
                  state := latest[d.frameIndex].state, calibrated := d.calibrated)
    else signals[i]
  }

  /** Second pass: apply the invalid flags of changed frames. */
  function Flagged(cat: Catalog, changed: seq<bool>, latest: seq<Frame>, signals: seq<SignalValue>, i: nat): SignalValue
    requires GoodLayout(cat) && GoodFrames(cat, latest) && |changed| == |latest|
    requires |signals| == |cat.defs| && i < |cat.defs|
  {
    var d, v := cat.defs[i], Refreshed(cat, changed, latest, signals, i);
    if && d.invalidIndex != NO_INDEX
       && (changed[d.frameIndex] || changed[cat.defs[d.invalidIndex].frameIndex])
       && v.state.Valid?
       && Refreshed(cat, changed, latest, signals, d.invalidIndex).raw != 0
    then v.(state := Invalid)
    else v
  }

  /** One element of `reconcile_signal_timestamps`. */
  function Reconciled(v: SignalValue, was: SignalValue, ts: nat): SignalValue {
    if v.state.Unavailable? then
      if was.firstObserved != 0
      then v.(firstObserved := was.firstObserved, lastChange := was.lastChange,
              raw := was.raw, physical := was.physical)
      else v.(firstObserved := 0, lastChange := 0)
    else if was.firstObserved != 0 then
      v.(firstObserved := was.firstObserved,
         lastChange := if v.raw == was.raw && v.state == was.state then was.lastChange else ts)
    else if v.state.Valid? then v.(firstObserved := ts, lastChange := ts)
    else v.(firstObserved := 0, lastChange := 0)
  }

  method ReconcileSignalTimestamps(latest: array<SignalValue>, canonical: seq<SignalValue>, ts: nat)
    requires latest.Length == |canonical|
    modifies latest
    ensures forall i :: 0 <= i < latest.Length ==> latest[i] == Reconciled(old(latest[i]), canonical[i], ts)
  {
    var i := 0;
    while i < latest.Length
      invariant 0 <= i <= latest.Length
      invariant forall k :: 0 <= k < i ==> latest[k] == Reconciled(old(latest[k]), canonical[k], ts)
      invariant forall k :: i <= k < latest.Length ==> latest[k] == old(latest[k])
    {
      var v, was := latest[i], canonical[i];
      if v.state.Unavailable? {
        if was.firstObserved != 0 {
          latest[i] := latest[i].(firstObserved := was.firstObserved, lastChange := was.lastChange);
          latest[i] := latest[i].(raw := was.raw, physical := was.physical);
        } else {
          latest[i] := latest[i].(firstObserved := 0, lastChange := 0);
        }
        i := i + 1;
        continue;
      }
      if was.firstObserved != 0 {
        latest[i] := latest[i].(firstObserved := was.firstObserved);
        if v.raw == was.raw && v.state == was.state {
          latest[i] := latest[i].(lastChange := was.lastChange);
        } else {
          latest[i] := latest[i].(lastChange := ts);
        }
      } else if v.state.Valid? {
        latest[i] := latest[i].(firstObserved := ts, lastChange := ts);
      } else {
        latest[i] := latest[i].(firstObserved := 0, lastChange := 0);
      }
      i := i + 1;
    }
  }

  function NextSignal(cat: Catalog, sv: Server, sample: Sample, i: nat): SignalValue
    requires GoodLayout(cat) && Shaped(cat, sv) && GoodFrames(cat, sample.frames) && i < |cat.defs|
  {
    Reconciled(Flagged(cat, FrameFlags(sv.frames, sample.frames), sample.frames, sv.signals, i),
               sv.signals[i], sample.timestamp)
  }

  function NextSignals(cat: Catalog, sv: Server, sample: Sample): (v: seq<SignalValue>)
    requires GoodLayout(cat) && Shaped(cat, sv) && GoodFrames(cat, sample.frames)
    ensures |v| == |cat.defs| && forall i :: 0 <= i < |v| ==> v[i] == NextSignal(cat, sv, sample, i)
  {
    seq(|cat.defs|, i requires 0 <= i < |cat.defs| => NextSignal(cat, sv, sample, i))
  }

  predicate Shaped(cat: Catalog, sv: Server) {
    GoodFrames(cat, sv.frames) && |sv.signals| == |cat.defs|
  }

  predicate Changes(sv: Server, sample: Sample)
    requires |sv.frames| == |sample.frames|
  {
    Marked(FrameFlags(sv.frames, sample.frames)) != []
  }

  /** What `distribute_latest_sample` does to the canonical state. */
  function Absorb(cat: Catalog, sv: Server, sample: Sample): Server
    requires GoodLayout(cat) && Shaped(cat, sv) && GoodFrames(cat, sample.frames)
  {
    if sample.sequence <= sv.sampleSeq then sv
    else
      var base := sv.(frames := sample.frames, sampleSeq := sample.sequence, sampleTs := sample.timestamp,
                      coalesced := sv.coalesced + (sample.sequence - sv.sampleSeq - 1), advances := sv.advances + 1);
      if !Changes(sv, sample) then base
      else base.(signals := NextSignals(cat, sv, sample), changeSeq := sv.changeSeq + 1)
  }

  /** The start-up state: the first sample decoded in full. */
  function StartUp(cat: Catalog, sample: Sample): Server
    requires GoodLayout(cat) && GoodFrames(cat, sample.frames)
  {
    var decoded := FullDecode(cat, sample.frames);
    Server(sample.frames,
           seq(|decoded|, i requires 0 <= i < |decoded| => Stamped(decoded[i], sample.timestamp)),
           sample.sequence, 0, sample.timestamp, 0, 0)
  }

  function Stamped(v: SignalValue, ts: nat): SignalValue {
    if v.state.Valid? then v.(firstObserved := ts, lastChange := ts) else v.(firstObserved := 0, lastChange := 0)
  }

  // ---- The invariant of the canonical state ----

  /** What full decoding of the current frames says about signal i: always its state,
      and its value unless the frame is unavailable, when the last value stays as history. */
  predicate Refines(cat: Catalog, sv: Server, i: nat)
    requires GoodLayout(cat) && Shaped(cat, sv) && i < |cat.defs|
  {
    && sv.signals[i].state == StateAt(cat, sv.frames, i)
    && (!sv.frames[cat.defs[i].frameIndex].state.Unavailable? ==> sv.signals[i].raw == RawAt(cat, sv.frames, i))
  }

  predicate Converted(cat: Catalog, v: SignalValue, i: nat)
    requires i < |cat.defs|
  {
    && v.calibrated == cat.defs[i].calibrated
    && v.physical == Physical(cat, cat.defs[i], v.raw)
  }

  predicate WellStamped(v: SignalValue, now: nat) {
    && (v.state.Valid? ==> v.firstObserved != 0)
    && (v.firstObserved == 0 ==> v.lastChange == 0)
    && v.firstObserved <= v.lastChange <= now
  }

  predicate InWidth(cat: Catalog, v: SignalValue, i: nat)
    requires i < |cat.defs|
  {
    v.raw < Pow2(cat.defs[i].width)
  }

  predicate SignalInv(cat: Catalog, sv: Server, i: nat)
    requires GoodLayout(cat) && Shaped(cat, sv) && i < |cat.defs|
  {
    && Refines(cat, sv, i) && Converted(cat, sv.signals[i], i) && InWidth(cat, sv.signals[i], i)
    && WellStamped(sv.signals[i], sv.sampleTs)
  }

  lemma RawInWidth(cat: Catalog, frames: seq<Frame>, i: nat)
    requires GoodLayout(cat) && GoodFrames(cat, frames) && i < |cat.defs|
    ensures RawAt(cat, frames, i) < Pow2(cat.defs[i].width)
  {
    assert GoodDef(cat, cat.defs[i]) && GoodFrame(cat, frames, cat.defs[i].frameIndex);
    RawBound(frames[cat.defs[i].frameIndex].data, cat.defs[i].parts);
  }

  predicate ServerInv(cat: Catalog, sv: Server)
    requires GoodLayout(cat)
  {
    && Shaped(cat, sv)
    && (forall i :: 0 <= i < |cat.defs| ==> SignalInv(cat, sv, i))
    && sv.coalesced + sv.advances == sv.sampleSeq
    && sv.changeSeq <= sv.advances
  }

  lemma StartUpInv(cat: Catalog, sample: Sample)
    requires GoodLayout(cat) && GoodFrames(cat, sample.frames) && sample.timestamp > 0 && sample.sequence == 0
    ensures ServerInv(cat, StartUp(cat, sample))
  {
    var sv := StartUp(cat, sample);
    forall i | 0 <= i < |cat.defs|
      ensures SignalInv(cat, sv, i)
    {
      RawInWidth(cat, sample.frames, i);
      assert sv.signals[i] == Stamped(DecodedAt(cat, sample.frames, i), sample.timestamp);
    }
  }

  // ---- Marked ----

  lemma {:induction false} MarkedMember(flags: seq<bool>, i: nat)
    ensures i in Marked(flags) <==> i < |flags| && flags[i]
  {
    if flags != [] {
      MarkedMember(flags[..|flags| - 1], i);
    }
  }

  lemma {:induction false} MarkedIncreasing(flags: seq<bool>)
    ensures Increasing(Marked(flags))
  {
    if flags != [] {
      MarkedIncreasing(flags[..|flags| - 1]);
    }
  }

  lemma {:induction false} MarkedCount(flags: seq<bool>)
    ensures |Marked(flags)| <= |flags|
  {
    if flags != [] { MarkedCount(flags[..|flags| - 1]); }
  }

  lemma NoChange(sv: Server, sample: Sample, i: nat)
    requires |sv.frames| == |sample.frames| && !Changes(sv, sample) && i < |sv.frames|
    ensures !FrameDiffers(sample.frames[i], sv.frames[i])
  {
    MarkedMember(FrameFlags(sv.frames, sample.frames), i);
  }

  // ---- Incremental decoding refines full decoding ----

  lemma SameFrameSameDecode(cat: Catalog, a: seq<Frame>, b: seq<Frame>, i: nat)
    requires GoodCatalog(cat) && GoodFrames(cat, a) && GoodFrames(cat, b) && i < |cat.defs|
    requires !FrameDiffers(b[cat.defs[i].frameIndex], a[cat.defs[i].frameIndex])
    ensures RawAt(cat, a, i) == RawAt(cat, b, i) && StateAt(cat, a, i) == StateAt(cat, b, i)
  {
    assert FlagInOwnFrame(cat, i) && GoodDef(cat, cat.defs[i]);
  }

  /** The flag pass sees the flag's bits in the latest frame. */
  lemma FlagPassIsFull(cat: Catalog, sv: Server, latest: seq<Frame>, i: nat)
    requires GoodCatalog(cat) && Shaped(cat, sv) && GoodFrames(cat, latest) && i < |cat.defs|
    requires FrameDiffers(latest[cat.defs[i].frameIndex], sv.frames[cat.defs[i].frameIndex])
    ensures var v := Flagged(cat, FrameFlags(sv.frames, latest), latest, sv.signals, i);
            && v.state == StateAt(cat, latest, i) && v.raw == RawAt(cat, latest, i)
            && Converted(cat, v, i)
  {
    assert FlagInOwnFrame(cat, i) && GoodDef(cat, cat.defs[i]);
  }

  lemma UnchangedFrameKeepsSignal(cat: Catalog, sv: Server, sample: Sample, i: nat)
    requires GoodCatalog(cat) && ServerInv(cat, sv) && GoodFrames(cat, sample.frames) && i < |cat.defs|
    requires !FrameDiffers(sample.frames[cat.defs[i].frameIndex], sv.frames[cat.defs[i].frameIndex])
    ensures NextSignal(cat, sv, sample, i) == sv.signals[i]
  {
    assert SignalInv(cat, sv, i) && FlagInOwnFrame(cat, i) && GoodDef(cat, cat.defs[i]);
  }

  /** A signal is reported changed only if its own frame changed. */
  lemma ChangedSignalHasChangedFrame(cat: Catalog, sv: Server, sample: Sample, i: nat)
    requires GoodCatalog(cat) && ServerInv(cat, sv) && GoodFrames(cat, sample.frames)
    requires i in Marked(SignalFlags(sv.signals, NextSignals(cat, sv, sample)))
    ensures i < |cat.defs| && cat.defs[i].frameIndex in Marked(FrameFlags(sv.frames, sample.frames))
  {
    MarkedMember(SignalFlags(sv.signals, NextSignals(cat, sv, sample)), i);
    var f := cat.defs[i].frameIndex;
    if !FrameDiffers(sample.frames[f], sv.frames[f]) {
      UnchangedFrameKeepsSignal(cat, sv, sample, i);
      assert false;
    }
    MarkedMember(FrameFlags(sv.frames, sample.frames), f);
  }

  lemma NextSignalRefines(cat: Catalog, sv: Server, sample: Sample, i: nat)
    requires GoodCatalog(cat) && ServerInv(cat, sv) && GoodFrames(cat, sample.frames) && i < |cat.defs|
    requires sv.sampleTs <= sample.timestamp && 0 < sample.timestamp
    ensures var v := NextSignal(cat, sv, sample, i);
            && v.state == StateAt(cat, sample.frames, i)
            && (!sample.frames[cat.defs[i].frameIndex].state.Unavailable? ==> v.raw == RawAt(cat, sample.frames, i))
            && Converted(cat, v, i) && InWidth(cat, v, i) && WellStamped(v, sample.timestamp)
  {
    assert SignalInv(cat, sv, i);
    RawInWidth(cat, sample.frames, i);
    var f := cat.defs[i].frameIndex;
    if FrameDiffers(sample.frames[f], sv.frames[f]) {
      FlagPassIsFull(cat, sv, sample.frames, i);
    } else {
      UnchangedFrameKeepsSignal(cat, sv, sample, i);
      SameFrameSameDecode(cat, sv.frames, sample.frames, i);
    }
  }

  /** Every distribution keeps the invariant: signals agree with full decoding, values with
      their conversion, stamps with each other, and no sample goes unaccounted for. */
  lemma AbsorbKeepsInv(cat: Catalog, sv: Server, sample: Sample)
    requires GoodCatalog(cat) && ServerInv(cat, sv) && GoodFrames(cat, sample.frames)
    requires sv.sampleTs <= sample.timestamp && 0 < sample.timestamp
    ensures ServerInv(cat, Absorb(cat, sv, sample))
  {
    var next := Absorb(cat, sv, sample);
    if sample.sequence > sv.sampleSeq {
      forall i | 0 <= i < |cat.defs|
        ensures SignalInv(cat, next, i)
      {
        assert SignalInv(cat, sv, i);
        if Changes(sv, sample) {
          NextSignalRefines(cat, sv, sample, i);
        } else {
          NoChange(sv, sample, cat.defs[i].frameIndex);
          SameFrameSameDecode(cat, sv.frames, sample.frames, i);
        }
      }
    }
  }

  /** What one distribution may do to a signal's history. */
  predicate StampStep(a: SignalValue, b: SignalValue) {
    && (a.firstObserved != 0 ==> b.firstObserved == a.firstObserved)
    && (b.lastChange != a.lastChange ==> b.raw != a.raw || b.state != a.state)
    && a.lastChange <= b.lastChange
  }

  lemma AbsorbStamps(cat: Catalog, sv: Server, sample: Sample, i: nat)
    requires GoodCatalog(cat) && ServerInv(cat, sv) && GoodFrames(cat, sample.frames) && i < |cat.defs|
    requires sv.sampleTs <= sample.timestamp && 0 < sample.timestamp
    ensures StampStep(sv.signals[i], Absorb(cat, sv, sample).signals[i])
  {
    assert SignalInv(cat, sv, i);
    var f := cat.defs[i].frameIndex;
    if !FrameDiffers(sample.frames[f], sv.frames[f]) {
      UnchangedFrameKeepsSignal(cat, sv, sample, i);
    }
  }
}
