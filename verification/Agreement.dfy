/** When a replica agrees with the canonical state, and what applying updates does to it. */
module Agreement {
  import opened Types
  import opened Canonical
  import opened Session
  import opened Peer

  /** Frames agree on identifier, state and bytes; their time stamps are not compared. */
  predicate SameFrame(a: Frame, b: Frame) {
    a.canId == b.canId && a.state == b.state && a.data == b.data
  }

  /** Agreement everywhere but at the positions in `skip`. */
  predicate FramesMatch(a: seq<Frame>, b: seq<Frame>, skip: seq<nat>) {
    |a| == |b| && forall i :: 0 <= i < |a| ==> i in skip || SameFrame(a[i], b[i])
  }

  predicate SignalsMatch(a: seq<SignalValue>, b: seq<SignalValue>, skip: seq<nat>) {
    |a| == |b| && forall i :: 0 <= i < |a| ==> i in skip || a[i] == b[i]
  }

  predicate Agrees(v: View, sv: Server) {
    FramesMatch(v.frames, sv.frames, []) && SignalsMatch(v.signals, sv.signals, [])
  }

  /** The client's index finds every frame of the catalog at its own place. */
  predicate Locates(cat: Catalog, lookup: map<nat, nat>) {
    forall i :: 0 <= i < |cat.canIds| ==> cat.canIds[i] in lookup && lookup[cat.canIds[i]] == i
  }

  predicate Identified(cat: Catalog, frames: seq<Frame>) {
    |frames| == |cat.canIds| && forall i :: 0 <= i < |frames| ==> frames[i].canId == cat.canIds[i]
  }

  lemma {:induction false} IndexedUpTo(cat: Catalog, lookup: map<nat, nat>, frames: seq<Frame>, n: nat)
    requires GoodLayout(cat) && Identified(cat, frames) && n <= |frames|
    ensures var m := Indexed(lookup, frames, n);
            forall i :: 0 <= i < n ==> cat.canIds[i] in m && m[cat.canIds[i]] == i
  {
    if n > 0 {
      IndexedUpTo(cat, lookup, frames, n - 1);
    }
  }

  lemma IndexedLocates(cat: Catalog, lookup: map<nat, nat>, frames: seq<Frame>)
    requires GoodLayout(cat) && Identified(cat, frames)
    ensures Locates(cat, Indexed(lookup, frames, |frames|))
  {
    IndexedUpTo(cat, lookup, frames, |frames|);
  }

  /** At every position of `rest` the view really is out of date. */
  predicate FramesMissed(v: seq<Frame>, f: seq<Frame>, rest: seq<nat>) {
    |v| == |f| && forall k :: 0 <= k < |rest| ==> rest[k] < |f| && FrameDiffers(v[rest[k]], f[rest[k]])
  }

  predicate SignalsMissed(v: seq<SignalValue>, f: seq<SignalValue>, rest: seq<nat>) {
    |v| == |f| && forall k :: 0 <= k < |rest| ==> rest[k] < |f| && SignalDiffers(v[rest[k]], f[rest[k]])
  }

  predicate SameIds(a: seq<Frame>, b: seq<Frame>) {
    |a| == |b| && forall i :: 0 <= i < |a| ==> a[i].canId == b[i].canId
  }

  /** r is v with the positions in w taken from f. */
  predicate Patched<T(==)>(v: seq<T>, f: seq<T>, w: seq<nat>, r: seq<T>) {
    |v| == |f| == |r| && forall i :: 0 <= i < |r| ==> r[i] == if i in w then f[i] else v[i]
  }

  lemma PutOne(cat: Catalog, v: seq<Frame>, f: seq<Frame>, lookup: map<nat, nat>, k: nat)
    requires GoodLayout(cat) && Identified(cat, f) && |v| == |f| && Locates(cat, lookup) && k < |f|
    ensures PutFrame(v, lookup, f[k]) == Some(v[k := f[k]])
  {
    assert cat.canIds[k] in lookup && lookup[cat.canIds[k]] == k;
  }

  /** Applying the entries w of `f`, found by identifier, replaces exactly those positions. */
  lemma {:induction false} PutPicked(cat: Catalog, v: seq<Frame>, f: seq<Frame>, lookup: map<nat, nat>, w: seq<nat>)
    requires GoodLayout(cat) && Identified(cat, f) && |v| == |f| && Locates(cat, lookup) && InRange(w, |f|)
    ensures var r := PutFrames(v, lookup, PickFrames(f, w));
            r.Some? && Patched(v, f, w, r.value)
  {
    if w != [] {
      var n := |w| - 1;
      var front, k := w[..n], w[n];
      assert InRange(front, |f|);
      PutPicked(cat, v, f, lookup, front);
      assert PickFrames(f, w)[..n] == PickFrames(f, front);
      assert PickFrames(f, w)[n] == f[k];
      PutOne(cat, PutFrames(v, lookup, PickFrames(f, front)).value, f, lookup, k);
      assert w == front + [k];
    }
  }

  lemma {:induction false} PutPickedSignals(v: seq<SignalValue>, f: seq<SignalValue>, w: seq<nat>)
    requires |v| == |f| && InRange(w, |f|)
    ensures var r := PutSignals(v, PickSignals(f, w));
            r.Some? && Patched(v, f, w, r.value)
  {
    if w != [] {
      var n := |w| - 1;
      PutPickedSignals(v, f, w[..n]);
      assert PickSignals(f, w)[..n] == PickSignals(f, w[..n]);
      assert w == w[..n] + [w[n]];
    }
  }

  lemma WindowSplits(idx: seq<nat>, at: nat, limit: nat)
    requires at <= |idx|
    ensures idx[at..] == Window(idx, at, limit) + idx[at + |Window(idx, at, limit)|..]
  {
  }

  /** What a window leaves out of an increasing list is not in the window. */
  lemma LaterNotInWindow(idx: seq<nat>, at: nat, limit: nat, k: nat)
    requires Increasing(idx) && at <= |idx| && at + |Window(idx, at, limit)| + k < |idx|
    ensures idx[at + |Window(idx, at, limit)| + k] !in Window(idx, at, limit)
  {
  }

  lemma WindowRange(idx: seq<nat>, at: nat, limit: nat, n: nat)
    requires InRange(idx, n) && at <= |idx|
    ensures InRange(Window(idx, at, limit), n)
  {
  }

  /** One batch of frames shrinks the disagreement to what is still unsent. */
  lemma FramePatchShrinks(v: seq<Frame>, f: seq<Frame>, r: seq<Frame>, idx: seq<nat>, at: nat)
    requires at <= |idx| && FramesMatch(v, f, idx[at..])
    requires Patched(v, f, Window(idx, at, FRAMES_PER_MESSAGE), r)
    ensures FramesMatch(r, f, idx[at + |Window(idx, at, FRAMES_PER_MESSAGE)|..])
  {
    WindowSplits(idx, at, FRAMES_PER_MESSAGE);
  }

  lemma SignalPatchShrinks(v: seq<SignalValue>, f: seq<SignalValue>, r: seq<SignalValue>, idx: seq<nat>, at: nat)
    requires at <= |idx| && SignalsMatch(v, f, idx[at..])
    requires Patched(v, f, Window(idx, at, SIGNALS_PER_MESSAGE), r)
    ensures SignalsMatch(r, f, idx[at + |Window(idx, at, SIGNALS_PER_MESSAGE)|..])
  {
    WindowSplits(idx, at, SIGNALS_PER_MESSAGE);
  }

  lemma FrameBatchApplied(cat: Catalog, v: seq<Frame>, f: seq<Frame>, lookup: map<nat, nat>, idx: seq<nat>, at: nat)
    requires GoodLayout(cat) && Identified(cat, f) && Locates(cat, lookup) && InRange(idx, |f|) && at <= |idx|
    requires FramesMatch(v, f, idx[at..])
    ensures var w := Window(idx, at, FRAMES_PER_MESSAGE);
            && InRange(w, |f|)
            && var r := PutFrames(v, lookup, PickFrames(f, w)); r.Some? && FramesMatch(r.value, f, idx[at + |w|..])
  {
    var w := Window(idx, at, FRAMES_PER_MESSAGE);
    PutPicked(cat, v, f, lookup, w);
    FramePatchShrinks(v, f, PutFrames(v, lookup, PickFrames(f, w)).value, idx, at);
  }

  lemma SignalBatchApplied(v: seq<SignalValue>, f: seq<SignalValue>, idx: seq<nat>, at: nat)
    requires InRange(idx, |f|) && at <= |idx| && SignalsMatch(v, f, idx[at..])
    ensures var w := Window(idx, at, SIGNALS_PER_MESSAGE);
            && InRange(w, |f|)
            && var r := PutSignals(v, PickSignals(f, w)); r.Some? && SignalsMatch(r.value, f, idx[at + |w|..])
  {
    var w := Window(idx, at, SIGNALS_PER_MESSAGE);
    PutPickedSignals(v, f, w);
    SignalPatchShrinks(v, f, PutSignals(v, PickSignals(f, w)).value, idx, at);
  }

  /** And it leaves the client out of date at all of that. */
  lemma FramePatchNeeded(v: seq<Frame>, f: seq<Frame>, r: seq<Frame>, idx: seq<nat>, at: nat)
    requires at <= |idx| && Increasing(idx) && FramesMissed(v, f, idx[at..])
    requires Patched(v, f, Window(idx, at, FRAMES_PER_MESSAGE), r)
    ensures FramesMissed(r, f, idx[at + |Window(idx, at, FRAMES_PER_MESSAGE)|..])
    ensures SameIds(v, f) ==> SameIds(r, f)
  {
    var w := Window(idx, at, FRAMES_PER_MESSAGE);
    var rest := idx[at + |w|..];
    forall k | 0 <= k < |rest|
      ensures rest[k] !in w && rest[k] == idx[at..][|w| + k]
    {
      LaterNotInWindow(idx, at, FRAMES_PER_MESSAGE, k);
    }
  }

  lemma SignalPatchNeeded(v: seq<SignalValue>, f: seq<SignalValue>, r: seq<SignalValue>, idx: seq<nat>, at: nat)
    requires at <= |idx| && Increasing(idx) && SignalsMissed(v, f, idx[at..])
    requires Patched(v, f, Window(idx, at, SIGNALS_PER_MESSAGE), r)
    ensures SignalsMissed(r, f, idx[at + |Window(idx, at, SIGNALS_PER_MESSAGE)|..])
  {
    var w := Window(idx, at, SIGNALS_PER_MESSAGE);
    var rest := idx[at + |w|..];
    forall k | 0 <= k < |rest|
      ensures rest[k] !in w && rest[k] == idx[at..][|w| + k]
    {
      LaterNotInWindow(idx, at, SIGNALS_PER_MESSAGE, k);
    }
  }

  /** A replica of the old state agrees with the new one except where the scan found a change. */
  lemma FramesMoveOn(cat: Catalog, v: seq<Frame>, a: seq<Frame>, b: seq<Frame>)
    requires Identified(cat, a) && Identified(cat, b) && FramesMatch(v, a, [])
    ensures FramesMatch(v, b, Marked(FrameFlags(a, b))) && FramesMissed(v, b, Marked(FrameFlags(a, b)))
  {
    var marks := Marked(FrameFlags(a, b));
    forall i | 0 <= i < |v|
      ensures i in marks || SameFrame(v[i], b[i])
    {
      MarkedMember(FrameFlags(a, b), i);
    }
    forall k | 0 <= k < |marks|
      ensures marks[k] < |b| && FrameDiffers(v[marks[k]], b[marks[k]])
    {
      MarkedMember(FrameFlags(a, b), marks[k]);
      assert SameFrame(v[marks[k]], a[marks[k]]);
    }
  }

  predicate AllConverted(cat: Catalog, signals: seq<SignalValue>) {
    |signals| == |cat.defs| && forall i :: 0 <= i < |signals| ==> Converted(cat, signals[i], i)
  }

  /** The scan compares four fields; the other two follow from them. */
  lemma SignalsMoveOn(cat: Catalog, v: seq<SignalValue>, a: seq<SignalValue>, b: seq<SignalValue>)
    requires AllConverted(cat, a) && AllConverted(cat, b) && SignalsMatch(v, a, [])
    ensures SignalsMatch(v, b, Marked(SignalFlags(a, b))) && SignalsMissed(v, b, Marked(SignalFlags(a, b)))
  {
    var marks := Marked(SignalFlags(a, b));
    forall i | 0 <= i < |v|
      ensures i in marks || v[i] == b[i]
    {
      MarkedMember(SignalFlags(a, b), i);
      assert Converted(cat, a[i], i) && Converted(cat, b[i], i);
    }
    forall k | 0 <= k < |marks|
      ensures marks[k] < |b| && SignalDiffers(v[marks[k]], b[marks[k]])
    {
      MarkedMember(SignalFlags(a, b), marks[k]);
    }
  }
}
