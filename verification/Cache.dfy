/** The client library's cache, updated in place by its reader thread: batches applied through
    the identifier index, synchronizations committed, and reads. */
module Cache {
  import opened Types
  import opened Wire
  import opened Peer

  /** UINT16_MAX in `can_id_to_index`. */
  const NO_TARGET := 65535

  /** A batch with a bad entry fails however it goes on. */
  lemma {:induction false} BadPrefixFails(frames: seq<Frame>, lookup: map<nat, nat>, fs: seq<Frame>, n: nat)
    requires n <= |fs| && PutFrames(frames, lookup, fs[..n]).None?
    ensures PutFrames(frames, lookup, fs).None?
    decreases |fs|
  {
    if n < |fs| {
      var front := fs[..|fs| - 1];
      assert front[..n] == fs[..n];
      BadPrefixFails(frames, lookup, front, n);
    } else {
      assert fs[..n] == fs;
    }
  }

  lemma {:induction false} BadSignalFails(signals: seq<SignalValue>, us: seq<SignalUpdate>, n: nat)
    requires n <= |us| && PutSignals(signals, us[..n]).None?
    ensures PutSignals(signals, us).None?
    decreases |us|
  {
    if n < |us| {
      var front := us[..|us| - 1];
      assert front[..n] == us[..n];
      BadSignalFails(signals, front, n);
    } else {
      assert us[..n] == us;
    }
  }

  /** The frames after as much of a batch as could be applied. */
  function PutWhileKnown(frames: seq<Frame>, lookup: map<nat, nat>, fs: seq<Frame>): (r: seq<Frame>)
    ensures PutFrames(frames, lookup, fs).Some? ==> r == PutFrames(frames, lookup, fs).value
  {
    match PutFrames(frames, lookup, fs)
    case Some(r) => r
    case None => PutWhileKnown(frames, lookup, fs[..|fs| - 1])
  }

  function PutWhileInRange(signals: seq<SignalValue>, us: seq<SignalUpdate>): (r: seq<SignalValue>)
    ensures PutSignals(signals, us).Some? ==> r == PutSignals(signals, us).value
  {
    match PutSignals(signals, us)
    case Some(r) => r
    case None => PutWhileInRange(signals, us[..|us| - 1])
  }

  /** It stops at the first bad entry. */
  lemma {:induction false} StopsAtBadFrame(frames: seq<Frame>, lookup: map<nat, nat>, fs: seq<Frame>, n: nat)
    requires n < |fs| && PutFrames(frames, lookup, fs[..n]).Some? && PutFrames(frames, lookup, fs[..n + 1]).None?
    ensures PutFrames(frames, lookup, fs).None?
    ensures PutWhileKnown(frames, lookup, fs) == PutFrames(frames, lookup, fs[..n]).value
    decreases |fs|
  {
    BadPrefixFails(frames, lookup, fs, n + 1);
    var front := fs[..|fs| - 1];
    assert front[..n] == fs[..n];
    if n < |front| {
      assert front[..n + 1] == fs[..n + 1];
      StopsAtBadFrame(frames, lookup, front, n);
    } else {
      assert front == fs[..n];
    }
  }

  lemma {:induction false} StopsAtBadSignal(signals: seq<SignalValue>, us: seq<SignalUpdate>, n: nat)
    requires n < |us| && PutSignals(signals, us[..n]).Some? && PutSignals(signals, us[..n + 1]).None?
    ensures PutSignals(signals, us).None?
    ensures PutWhileInRange(signals, us) == PutSignals(signals, us[..n]).value
    decreases |us|
  {
    BadSignalFails(signals, us, n + 1);
    var front := us[..|us| - 1];
    assert front[..n] == us[..n];
    if n < |front| {
      assert front[..n + 1] == us[..n + 1];
      StopsAtBadSignal(signals, front, n);
    } else {
      assert front == us[..n];
    }
  }

  class ClientCache {
    const frames: array<Frame>
    const signals: array<SignalValue>
    const canIdToIndex: array<nat>
    var sampleSeq: nat
    var changeSeq: nat
    var ts: nat

    constructor (frameCount: nat, signalCount: nat)
      requires frameCount <= NO_TARGET
      ensures Valid() && frames.Length == frameCount && signals.Length == signalCount && Lookup() == map[]
      ensures fresh(frames) && fresh(signals) && fresh(canIdToIndex)
    {
      frames := new Frame[frameCount](_ => Frame(0, Unavailable, ZERO_DATA, 0, 0));
      signals := new SignalValue[signalCount](_ => SignalValue(0, 0, 0, 0, Unavailable, false));
      canIdToIndex := new nat[CAN_ID_LOOKUP_CAP](_ => NO_TARGET);
      sampleSeq, changeSeq, ts := 0, 0, 0;
    }

    predicate Valid() {
      canIdToIndex.Length == CAN_ID_LOOKUP_CAP && frames.Length <= NO_TARGET
    }

    function Lookup(): map<nat, nat>
      reads canIdToIndex
    {
      map k: nat | k < canIdToIndex.Length && canIdToIndex[k] != NO_TARGET :: canIdToIndex[k]
    }

    function Shown(): View
      reads this, frames, signals
    {
      View(frames[..], signals[..], sampleSeq, changeSeq, ts)
    }

    /** `apply_decoded_frames` on the live cache. A refused batch leaves what came before its first
        unknown identifier applied, and the sequences and the time as they were. */
    method ApplyFrames(batch: seq<Frame>, newSampleSeq: nat, seqno: nat, newTs: nat) returns (ok: bool)
      requires Valid()
      modifies this, frames
      ensures ok <==> PutFrames(old(frames[..]), Lookup(), batch).Some?
      ensures Shown() == if ok
                         then old(Shown()).(frames := PutFrames(old(frames[..]), Lookup(), batch).value,
                                            sampleSeq := newSampleSeq, changeSeq := seqno, ts := newTs)
                         else old(Shown()).(frames := PutWhileKnown(old(frames[..]), Lookup(), batch))
    {
      ghost var was := frames[..];
      var i := 0;
      while i < |batch|
        invariant 0 <= i <= |batch| && PutFrames(was, Lookup(), batch[..i]) == Some(frames[..])
        invariant Shown() == old(Shown()).(frames := frames[..])
      {
        var canId := batch[i].canId;
        var target := if canId < CAN_ID_LOOKUP_CAP then canIdToIndex[canId] else NO_TARGET;
        assert batch[..i + 1][..i] == batch[..i];
        if target >= frames.Length {
          StopsAtBadFrame(was, Lookup(), batch, i);
          return false;
        }
        ghost var before := frames[..];
        frames[target] := batch[i];
        assert frames[..] == before[target := batch[i]];
        i := i + 1;
      }
      assert batch[..i] == batch;
      sampleSeq, changeSeq, ts := newSampleSeq, seqno, newTs;
      ok := true;
    }

    method ApplySignals(batch: seq<SignalUpdate>, newSampleSeq: nat, seqno: nat, newTs: nat) returns (ok: bool)
      modifies this, signals
      ensures ok <==> PutSignals(old(signals[..]), batch).Some?
      ensures Shown() == if ok
                         then old(Shown()).(signals := PutSignals(old(signals[..]), batch).value,
                                            sampleSeq := newSampleSeq, changeSeq := seqno, ts := newTs)
                         else old(Shown()).(signals := PutWhileInRange(old(signals[..]), batch))
    {
      ghost var was := signals[..];
      var i := 0;
      while i < |batch|
        invariant 0 <= i <= |batch| && PutSignals(was, batch[..i]) == Some(signals[..])
        invariant Shown() == old(Shown()).(signals := signals[..])
      {
        assert batch[..i + 1][..i] == batch[..i];
        if batch[i].index >= signals.Length {
          StopsAtBadSignal(was, batch, i);
          return false;
        }
        ghost var before := signals[..];
        signals[batch[i].index] := batch[i].value;
        assert signals[..] == before[batch[i].index := batch[i].value];
        i := i + 1;
      }
      assert batch[..i] == batch;
      sampleSeq, changeSeq, ts := newSampleSeq, seqno, newTs;
      ok := true;
    }

    /** The loop that enters an array of frames into the index. */
    method IndexFrames(fs: seq<Frame>)
      requires Valid() && |fs| <= NO_TARGET
      modifies canIdToIndex
      ensures Lookup() == Indexed(old(Lookup()), fs, |fs|)
    {
      var i := 0;
      while i < |fs|
        invariant 0 <= i <= |fs| && Lookup() == Indexed(old(Lookup()), fs, i)
      {
        var canId := fs[i].canId;
        if canId < CAN_ID_LOOKUP_CAP {
          ghost var before := Lookup();
          canIdToIndex[canId] := i;
          assert Lookup() == before[canId := i];
        }
        i := i + 1;
      }
    }

    /** `commit_synchronization`: copy the synchronized state and rebuild the index. */
    method Commit(sync: View)
      requires Valid() && |sync.frames| == frames.Length && |sync.signals| == signals.Length
      modifies this, frames, signals, canIdToIndex
      ensures Shown() == sync && Lookup() == Indexed(map[], sync.frames, |sync.frames|)
    {
      forall i | 0 <= i < frames.Length {
        frames[i] := sync.frames[i];
      }
      forall i | 0 <= i < signals.Length {
        signals[i] := sync.signals[i];
      }
      assert frames[..] == sync.frames && signals[..] == sync.signals;
      sampleSeq, changeSeq, ts := sync.sampleSeq, sync.changeSeq, sync.ts;
      forall i | 0 <= i < canIdToIndex.Length {
        canIdToIndex[i] := NO_TARGET;
      }
      assert Lookup() == map[];
      IndexFrames(sync.frames);
    }

    /** `roadcast_client_read_frame`. */
    method Read(canId: nat) returns (f: Option<Frame>)
      requires Valid()
      ensures f.Some? <==> canId in Lookup() && Lookup()[canId] < frames.Length
      ensures f.Some? ==> f.value == frames[Lookup()[canId]]
    {
      var target := if canId < CAN_ID_LOOKUP_CAP then canIdToIndex[canId] else NO_TARGET;
      if target < frames.Length {
        return Some(frames[target]);
      }
      return None;
    }
  }

  /** The reference tool's gap counter, `observe_change_sequence`. */
  class GapCounter {
    var last: nat
    var gaps: nat

    method Observe(seqno: nat)
      modifies this
      ensures last == seqno
      ensures gaps == old(gaps) <==> old(last) == 0 || seqno == old(last) || seqno == old(last) + 1
      ensures gaps == old(gaps) || gaps == old(gaps) + 1
    {
      if seqno == last {
        return;
      }
      if last != 0 && seqno != last + 1 {
        gaps := gaps + 1;
      }
      last := seqno;
    }
  }
}
