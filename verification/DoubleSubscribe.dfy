/** Why the client must send SUBSCRIBE_ALL once per snapshot: the command is not refused
    during a catch-up, and taking it again there forgets what was not sent yet. */
module DoubleSubscribe {
  import opened Types
  import opened Canonical
  import opened Protocol
  import opened Session
  import opened Peer
  import opened Agreement
  import opened OutputQueue
  import opened Replication
  import opened Progress

  // ---- An empty round ----

  /** Nothing has changed since the copy was made. */
  predicate Unchanged(e: Env, s: Session)
    requires CopyShaped(e.sv, s)
  {
    RoundDone(BeginRound(e.sv, s))
  }

  lemma NoFrameMarked(cat: Catalog, a: seq<Frame>, b: seq<Frame>)
    requires Identified(cat, a) && Identified(cat, b)
    ensures Marked(FrameFlags(a, b)) == [] <==> FramesMatch(a, b, [])
  {
    var marks := Marked(FrameFlags(a, b));
    if marks != [] {
      MarkedMember(FrameFlags(a, b), marks[0]);
    } else {
      FramesMoveOn(cat, a, a, b);
    }
  }

  lemma NoSignalMarked(cat: Catalog, a: seq<SignalValue>, b: seq<SignalValue>)
    requires AllConverted(cat, a) && AllConverted(cat, b)
    ensures Marked(SignalFlags(a, b)) == [] <==> SignalsMatch(a, b, [])
  {
    var marks := Marked(SignalFlags(a, b));
    if marks != [] {
      MarkedMember(SignalFlags(a, b), marks[0]);
    } else {
      SignalsMoveOn(cat, a, a, b);
    }
  }

  lemma UnchangedMeansAgreement(e: Env, s: Session)
    requires GoodEnv(e) && CopyGood(e, s) && CopyShaped(e.sv, s)
    ensures Unchanged(e, s) <==>
            FramesMatch(s.snap.frames, e.sv.frames, []) && SignalsMatch(s.snap.signals, e.sv.signals, [])
  {
    ServerConverted(e);
    GoodIsIdentified(e.cat, s.snap.frames);
    GoodIsIdentified(e.cat, e.sv.frames);
    NoFrameMarked(e.cat, s.snap.frames, e.sv.frames);
    NoSignalMarked(e.cat, s.snap.signals, e.sv.signals);
  }

  // ---- What a second round forgets ----

  /** The unsent frames of a round that have not changed again since it began. */
  function ForgottenFrames(sv: Server, s: Session): set<nat>
    requires CopyShaped(sv, s) && RoundShaped(s)
  {
    set k | s.round.frameAt <= k < |s.round.frames|
            && !FrameDiffers(sv.frames[s.round.frames[k]], s.snap.frames[s.round.frames[k]]) :: s.round.frames[k]
  }

  function ForgottenSignals(sv: Server, s: Session): set<nat>
    requires CopyShaped(sv, s) && RoundShaped(s)
  {
    set k | s.round.signalAt <= k < |s.round.signals|
            && !SignalDiffers(sv.signals[s.round.signals[k]], s.snap.signals[s.round.signals[k]]) :: s.round.signals[k]
  }

  /** Every unsent entry of the round would be marked again by a new one. */
  predicate Remarked(sv: Server, s: Session)
    requires CopyShaped(sv, s) && RoundShaped(s)
  {
    && (forall k :: s.round.frameAt <= k < |s.round.frames| ==>
          FrameDiffers(sv.frames[s.round.frames[k]], s.snap.frames[s.round.frames[k]]))
    && (forall k :: s.round.signalAt <= k < |s.round.signals| ==>
          SignalDiffers(sv.signals[s.round.signals[k]], s.snap.signals[s.round.signals[k]]))
  }

  lemma RemarkedForgetsNothing(sv: Server, s: Session)
    requires CopyShaped(sv, s) && RoundShaped(s)
    ensures Remarked(sv, s) <==> ForgottenFrames(sv, s) == {} && ForgottenSignals(sv, s) == {}
  {
    if ForgottenFrames(sv, s) == {} {
      forall k | s.round.frameAt <= k < |s.round.frames|
        ensures FrameDiffers(sv.frames[s.round.frames[k]], s.snap.frames[s.round.frames[k]])
      {
        assert s.round.frames[k] !in ForgottenFrames(sv, s);
      }
    }
    if ForgottenSignals(sv, s) == {} {
      forall k | s.round.signalAt <= k < |s.round.signals|
        ensures SignalDiffers(sv.signals[s.round.signals[k]], s.snap.signals[s.round.signals[k]])
      {
        assert s.round.signals[k] !in ForgottenSignals(sv, s);
      }
    }
  }

  /** Once `rest` is sent, v will agree with f exactly outside `lost`. */
  predicate FramesBut(v: seq<Frame>, f: seq<Frame>, rest: seq<nat>, lost: set<nat>) {
    && |v| == |f| && (forall i :: i in lost ==> i < |f| && i !in rest)
    && forall i :: 0 <= i < |f| ==> i in rest || (SameFrame(v[i], f[i]) <==> i !in lost)
  }

  predicate SignalsBut(v: seq<SignalValue>, f: seq<SignalValue>, rest: seq<nat>, lost: set<nat>) {
    && |v| == |f| && (forall i :: i in lost ==> i < |f| && i !in rest)
    && forall i :: 0 <= i < |f| ==> i in rest || (v[i] == f[i] <==> i !in lost)
  }

  lemma FramesForgotten(cat: Catalog, v: seq<Frame>, a: seq<Frame>, b: seq<Frame>, rest: seq<nat>, lost: set<nat>)
    requires Identified(cat, a) && Identified(cat, b) && FramesMatch(v, a, rest) && FramesMissed(v, a, rest)
    requires forall i :: i in lost <==> i in rest && i < |b| && !FrameDiffers(b[i], a[i])
    ensures FramesBut(v, b, Marked(FrameFlags(a, b)), lost)
  {
    var marks := Marked(FrameFlags(a, b));
    forall i | 0 <= i < |b|
      ensures i in lost ==> i !in marks
      ensures i in marks || (SameFrame(v[i], b[i]) <==> i !in lost)
    {
      MarkedMember(FrameFlags(a, b), i);
    }
  }

  lemma SignalsForgotten(
    cat: Catalog, v: seq<SignalValue>, a: seq<SignalValue>, b: seq<SignalValue>, rest: seq<nat>, lost: set<nat>)
    requires AllConverted(cat, a) && AllConverted(cat, b) && SignalsMatch(v, a, rest) && SignalsMissed(v, a, rest)
    requires forall i :: i in lost <==> i in rest && i < |b| && !SignalDiffers(b[i], a[i])
    ensures SignalsBut(v, b, Marked(SignalFlags(a, b)), lost)
  {
    var marks := Marked(SignalFlags(a, b));
    forall i | 0 <= i < |b|
      ensures i in lost ==> i !in marks
      ensures i in marks || (v[i] == b[i] <==> i !in lost)
    {
      MarkedMember(SignalFlags(a, b), i);
      assert Converted(cat, a[i], i) && Converted(cat, b[i], i);
    }
  }

  /** The round has every entry at which the client is out of date. */
  predicate Covers(sv: Server, r: Round, p: Peer) {
    FramesMatch(p.sync.frames, sv.frames, r.frames) && SignalsMatch(p.sync.signals, sv.signals, r.signals)
  }

  /** The new round of a second SUBSCRIBE_ALL covers everything the client misses if and only if
      every unsent entry of the old one is marked again. */
  lemma NewRoundCovers(e: Env, s: Session, p: Peer)
    requires GoodEnv(e) && CatchupStage(e, s, p) && Behind(s, p) && CopyShaped(e.sv, s)
    ensures var b := BeginRound(e.sv, s);
            && FramesBut(p.sync.frames, e.sv.frames, b.round.frames, ForgottenFrames(e.sv, s))
            && SignalsBut(p.sync.signals, e.sv.signals, b.round.signals, ForgottenSignals(e.sv, s))
            && (Covers(e.sv, b.round, p) <==> Remarked(e.sv, s))
  {
    ServerConverted(e);
    GoodIsIdentified(e.cat, s.snap.frames);
    GoodIsIdentified(e.cat, e.sv.frames);
    var r := s.round;
    FramesForgotten(e.cat, p.sync.frames, s.snap.frames, e.sv.frames, r.frames[r.frameAt..], ForgottenFrames(e.sv, s));
    SignalsForgotten(
      e.cat, p.sync.signals, s.snap.signals, e.sv.signals, r.signals[r.signalAt..], ForgottenSignals(e.sv, s));
    RemarkedForgetsNothing(e.sv, s);
  }

  // ---- What later rounds and updates repair ----

  lemma FramesButShrink(v: seq<Frame>, f: seq<Frame>, r: seq<Frame>, idx: seq<nat>, at: nat, lost: set<nat>)
    requires at <= |idx| && FramesBut(v, f, idx[at..], lost) && Patched(v, f, Window(idx, at, FRAMES_PER_MESSAGE), r)
    ensures FramesBut(r, f, idx[at + |Window(idx, at, FRAMES_PER_MESSAGE)|..], lost)
  {
    WindowSplits(idx, at, FRAMES_PER_MESSAGE);
  }

  lemma SignalsButShrink(
    v: seq<SignalValue>, f: seq<SignalValue>, r: seq<SignalValue>, idx: seq<nat>, at: nat, lost: set<nat>)
    requires at <= |idx| && SignalsBut(v, f, idx[at..], lost) && Patched(v, f, Window(idx, at, SIGNALS_PER_MESSAGE), r)
    ensures SignalsBut(r, f, idx[at + |Window(idx, at, SIGNALS_PER_MESSAGE)|..], lost)
  {
    WindowSplits(idx, at, SIGNALS_PER_MESSAGE);
  }

  /** What a catch-up has forgotten. */
  datatype Loss = Loss(frames: set<nat>, signals: set<nat>)

  const NO_LOSS := Loss({}, {})

  function FramesLeft(a: seq<Frame>, b: seq<Frame>, lost: set<nat>): set<nat>
    requires |a| == |b|
  {
    set i | i in lost && !(i < |a| && FrameDiffers(b[i], a[i]))
  }

  function SignalsLeft(a: seq<SignalValue>, b: seq<SignalValue>, lost: set<nat>): set<nat>
    requires |a| == |b|
  {
    set i | i in lost && !(i < |a| && SignalDiffers(b[i], a[i]))
  }

  /** What is still forgotten when everything that changed from a to b is sent. */
  function LossLeft(a: Copy, b: Server, lost: Loss): Loss
    requires |a.frames| == |b.frames| && |a.signals| == |b.signals|
  {
    Loss(FramesLeft(a.frames, b.frames, lost.frames), SignalsLeft(a.signals, b.signals, lost.signals))
  }

  lemma FramesStayLost(cat: Catalog, v: seq<Frame>, a: seq<Frame>, b: seq<Frame>, lost: set<nat>)
    requires Identified(cat, a) && Identified(cat, b) && FramesBut(v, a, [], lost)
    ensures FramesBut(v, b, Marked(FrameFlags(a, b)), FramesLeft(a, b, lost))
  {
    var marks := Marked(FrameFlags(a, b));
    forall i | 0 <= i < |b|
      ensures i in FramesLeft(a, b, lost) ==> i !in marks
      ensures i in marks || (SameFrame(v[i], b[i]) <==> i !in FramesLeft(a, b, lost))
    {
      MarkedMember(FrameFlags(a, b), i);
    }
  }

  lemma SignalsStayLost(cat: Catalog, v: seq<SignalValue>, a: seq<SignalValue>, b: seq<SignalValue>, lost: set<nat>)
    requires AllConverted(cat, a) && AllConverted(cat, b) && SignalsBut(v, a, [], lost)
    ensures SignalsBut(v, b, Marked(SignalFlags(a, b)), SignalsLeft(a, b, lost))
  {
    var marks := Marked(SignalFlags(a, b));
    forall i | 0 <= i < |b|
      ensures i in SignalsLeft(a, b, lost) ==> i !in marks
      ensures i in marks || (v[i] == b[i] <==> i !in SignalsLeft(a, b, lost))
    {
      MarkedMember(SignalFlags(a, b), i);
      assert Converted(cat, a[i], i) && Converted(cat, b[i], i);
    }
  }

  // ---- A forgetful catch-up ----

  /** The round, when sent, will leave the client out of date with the copy at exactly the
      forgotten entries. */
  predicate RoundBut(e: Env, s: Session, p: Peer, lost: Loss)
    requires GoodEnv(e)
  {
    && Following(e, s, p) && NotAhead(e, p) && CopyShaped(e.sv, s) && SameIds(p.sync.frames, s.snap.frames)
    && FramesBut(p.sync.frames, s.snap.frames, s.round.frames[s.round.frameAt..], lost.frames)
    && SignalsBut(p.sync.signals, s.snap.signals, s.round.signals[s.round.signalAt..], lost.signals)
  }

  predicate Forgetting(e: Env, s: Session, p: Peer, lost: Loss)
    requires GoodEnv(e)
  {
    QueueInv(e.setup, s) && s.active && s.catchup && !s.subscribed && !s.needsResync && RoundBut(e, s, p, lost)
  }

  /** A live client that is out of date at the forgotten entries and, until they are sent, at
      those of `frames` and `signals`. */
  predicate LiveBut(e: Env, p: Peer, frames: seq<nat>, signals: seq<nat>, lost: Loss)
    requires GoodEnv(e)
  {
    && p.phase.Live? && p.requests == [] && p.greeting == Greet(e.cat, e.setup) && Locates(e.cat, p.lookup)
    && p.lastSeq == p.cache.changeSeq && NotAhead(e, p) && e.sv.changeSeq <= p.cache.changeSeq + 1
    && FramesBut(p.cache.frames, e.sv.frames, frames, lost.frames)
    && SignalsBut(p.cache.signals, e.sv.signals, signals, lost.signals)
  }

  /** The subscription is announced. */
  predicate Announced(e: Env, s: Session, p: Peer, lost: Loss)
    requires GoodEnv(e)
  {
    && QueueInv(e.setup, s) && s.active && s.subscribed && !s.catchup && !s.needsResync
    && LiveBut(e, p, [], [], lost) && p.cache.changeSeq == e.sv.changeSeq
  }

  lemma FramesTaken(e: Env, s: Session, p: Peer, lost: Loss) returns (q: Peer)
    requires GoodEnv(e) && RoundBut(e, s, p, lost) && s.round.frameAt < |s.round.frames|
    ensures Length(RoundMessage(s)) <= CLIENT_MESSAGE_CAP
    ensures Receive(p, RoundMessage(s)) == Some(q) && q == p.(sync := q.sync) && RoundBut(e, RoundAdvanced(s), q, lost)
  {
    var r := s.round;
    q := RoundFramesReceived(e, s, p);
    FramesButShrink(p.sync.frames, s.snap.frames, q.sync.frames, r.frames, r.frameAt, lost.frames);
  }

  lemma SignalsTaken(e: Env, s: Session, p: Peer, lost: Loss) returns (q: Peer)
    requires GoodEnv(e) && RoundBut(e, s, p, lost)
    requires s.round.frameAt == |s.round.frames| && s.round.signalAt < |s.round.signals|
    ensures Length(RoundMessage(s)) <= CLIENT_MESSAGE_CAP
    ensures Receive(p, RoundMessage(s)) == Some(q) && q == p.(sync := q.sync) && RoundBut(e, RoundAdvanced(s), q, lost)
  {
    var r := s.round;
    q := RoundSignalsReceived(e, s, p);
    SignalsButShrink(p.sync.signals, s.snap.signals, q.sync.signals, r.signals, r.signalAt, lost.signals);
  }

  lemma BatchTaken(e: Env, s: Session, p: Peer, lost: Loss) returns (m: Msg, q: Peer)
    requires GoodEnv(e) && RoundBut(e, s, p, lost) && !RoundDone(s)
    ensures m == RoundMessage(s) && Length(m) <= CLIENT_MESSAGE_CAP
    ensures Receive(p, m) == Some(q) && q == p.(sync := q.sync) && RoundBut(e, RoundAdvanced(s), q, lost)
  {
    m := RoundMessage(s);
    if s.round.frameAt < |s.round.frames| {
      q := FramesTaken(e, s, p, lost);
    } else {
      q := SignalsTaken(e, s, p, lost);
    }
  }

  lemma BatchForgets(e: Env, s: Session, peer: Peer, lost: Loss) returns (t: Session)
    requires GoodEnv(e) && Deliver(peer, s.stream).Some? && Forgetting(e, s, Deliver(peer, s.stream).value, lost)
    requires !RoundDone(s) && FreeCount(s.slots) > 0
    ensures RoundStep(s) == Ok(t) && t.snap == s.snap && t.round == Advance(s.round)
    ensures FreeCount(t.slots) == FreeCount(s.slots) - 1
    ensures Deliver(peer, t.stream).Some? && Forgetting(e, t, Deliver(peer, t.stream).value, lost)
  {
    var m, q := BatchTaken(e, s, Deliver(peer, s.stream).value, lost);
    QueueSucceeds(e.setup, s, m, false);
    SendKeepsQueue(e.setup, s, m);
    Sent(peer, s, m);
    t := RoundAdvanced(Send(s, m));
  }

  /** A new round repairs what it marks. */
  lemma NextRoundBut(e: Env, s: Session, p: Peer, lost: Loss)
    requires GoodEnv(e) && RoundBut(e, s, p, lost) && RoundDone(s)
    ensures RoundBut(e, BeginRound(e.sv, s), p, LossLeft(s.snap, e.sv, lost))
  {
    var b := BeginRound(e.sv, s);
    ServerConverted(e);
    GoodIsIdentified(e.cat, s.snap.frames);
    GoodIsIdentified(e.cat, e.sv.frames);
    assert s.round.frames[s.round.frameAt..] == [] && s.round.signals[s.round.signalAt..] == [];
    FramesStayLost(e.cat, p.sync.frames, s.snap.frames, e.sv.frames, lost.frames);
    SignalsStayLost(e.cat, p.sync.signals, s.snap.signals, e.sv.signals, lost.signals);
    assert b.round.frames[0..] == b.round.frames && b.round.signals[0..] == b.round.signals;
  }

  /** The client publishes what it has. */
  lemma AnnouncementTaken(e: Env, s: Session, p: Peer, lost: Loss) returns (m: Msg, q: Peer)
    requires GoodEnv(e) && RoundBut(e, s, p, lost) && RoundDone(s)
    requires s.snap.frames == e.sv.frames && s.snap.signals == e.sv.signals
    ensures m == Subscribed(e.sv.changeSeq, e.sv.sampleTs)
    ensures Receive(p, m) == Some(q) && Orderly(p, q) && LiveBut(e, q, [], [], lost)
    ensures q.cache.changeSeq == e.sv.changeSeq
  {
    m := Subscribed(e.sv.changeSeq, e.sv.sampleTs);
    q := Receive(p, m).value;
    GoodIsIdentified(e.cat, e.sv.frames);
    IndexedLocates(e.cat, map[], p.sync.frames);
    assert s.round.frames[s.round.frameAt..] == [] && s.round.signals[s.round.signalAt..] == [];
  }

  lemma AnnouncesForgetting(e: Env, s: Session, peer: Peer, lost: Loss) returns (t: Session)
    requires GoodEnv(e) && Deliver(peer, s.stream).Some? && Forgetting(e, s, Deliver(peer, s.stream).value, lost)
    requires RoundDone(s) && FreeCount(s.slots) > 0
    requires s.snap.frames == e.sv.frames && s.snap.signals == e.sv.signals
    ensures Announce(e.sv, s) == Ok(t)
    ensures Deliver(peer, t.stream).Some? && Announced(e, t, Deliver(peer, t.stream).value, lost)
  {
    var m, q := AnnouncementTaken(e, s, Deliver(peer, s.stream).value, lost);
    QueueSucceeds(e.setup, s, m, false);
    SendKeepsQueue(e.setup, s, m);
    Sent(peer, s, m);
    t := Announce(e.sv, s).s;
  }

  /** The client as it will be has everything but what is forgotten, or will have. */
  predicate Heading(e: Env, s: Session, peer: Peer, lost: Loss)
    requires GoodEnv(e)
  {
    var d := Deliver(peer, s.stream);
    && d.Some?
    && (Announced(e, s, d.value, lost) || (Forgetting(e, s, d.value, lost) && FreeCount(s.slots) == 0))
  }

  /** With one slot free a round under way sends its next batch. */
  lemma BatchDrives(e: Env, s: Session, peer: Peer, lost: Loss) returns (t: Session)
    requires GoodEnv(e) && Deliver(peer, s.stream).Some? && Forgetting(e, s, Deliver(peer, s.stream).value, lost)
    requires FreeCount(s.slots) == 1 && !RoundDone(s)
    ensures Drive(e.sv, s) == Ok(t) && !t.needsResync && t.catchup && Heading(e, t, peer, lost)
    ensures t.snap == s.snap && t.round == Advance(s.round)
  {
    RoomIsASlot(e.setup, s, 0, 0);
    t := BatchForgets(e, s, peer, lost);
    RoomIsASlot(e.setup, t, 0, 0);
    assert Drive(e.sv, t) == Ok(t);
  }

  /** What is still forgotten once this write has completed. */
  function LossAfterWrite(e: Env, s: Session, lost: Loss): Loss {
    if s.catchup && RoundDone(s) && CopyShaped(e.sv, s) then LossLeft(s.snap, e.sv, lost) else lost
  }

  /** With one slot free the driver sends one batch, of this round or the next, or announces. */
  lemma DriveForgets(e: Env, s: Session, peer: Peer, lost: Loss)
    requires GoodEnv(e) && Deliver(peer, s.stream).Some? && Forgetting(e, s, Deliver(peer, s.stream).value, lost)
    requires FreeCount(s.slots) == 1
    ensures var o := Drive(e.sv, s);
            o.Ok? && !o.s.needsResync && Heading(e, o.s, peer, LossAfterWrite(e, s, lost))
  {
    if !RoundDone(s) {
      var t := BatchDrives(e, s, peer, lost);
    } else {
      RoomIsASlot(e.setup, s, 0, 0);
      NextRoundBut(e, s, Deliver(peer, s.stream).value, lost);
      var b := BeginRound(e.sv, s);
      if RoundDone(b) {
        var t := AnnouncesForgetting(e, b, peer, LossLeft(s.snap, e.sv, lost));
      } else {
        var t := BatchDrives(e, b, peer, LossLeft(s.snap, e.sv, lost));
      }
    }
  }

  lemma WriteForgets(e: Env, s: Session, peer: Peer, k: nat, lost: Loss)
    requires GoodEnv(e) && Heading(e, s, peer, lost) && k < |s.slots| && s.slots[k].Busy?
    ensures s.catchup ==> CopyShaped(e.sv, s) && RoundShaped(s)
    ensures Heading(e, Written(e.sv, s, k), peer, LossAfterWrite(e, s, lost))
  {
    EmptySlot(s.slots, k);
    var f := FreeSlot(s, k);
    if s.catchup {
      DriveForgets(e, f, peer, lost);
      WrittenIsDrive(e.sv, s, k);
    } else {
      JustFreed(e.sv, s, k);
    }
  }

  // ---- The second SUBSCRIBE_ALL ----

  /** SUBSCRIBE_ALL taken while the queue is full. */
  lemma HeldBack(e: Env, s: Session)
    requires QueueInv(e.setup, s) && FreeCount(s.slots) == 0 && s.active && s.snapDone && !s.needsResync
    requires CopyShaped(e.sv, s)
    ensures ServeSubscribe(e.sv, s) == Ok(BeginRound(e.sv, s.(catchup := true)))
  {
    RoomIsASlot(e.setup, BeginRound(e.sv, s.(catchup := true)), 0, 0);
  }

  lemma NewRoundBut(e: Env, s: Session, p: Peer)
    requires GoodEnv(e) && Acquainted(e, s, p) && p.phase.Subscribing? && NotAhead(e, p)
    requires CatchupStage(e, s, p) && Behind(s, p) && CopyShaped(e.sv, s)
    ensures RoundBut(e, BeginRound(e.sv, s), p, Loss(ForgottenFrames(e.sv, s), ForgottenSignals(e.sv, s)))
  {
    var b := BeginRound(e.sv, s);
    NewRoundCovers(e, s, p);
    ServerConverted(e);
    GoodIsIdentified(e.cat, s.snap.frames);
    GoodIsIdentified(e.cat, e.sv.frames);
    assert b.round.frames[0..] == b.round.frames && b.round.signals[0..] == b.round.signals;
  }

  lemma SecondSubscribeHeads(e: Env, s: Session, peer: Peer)
    requires GoodEnv(e) && Linked(e, s, peer) && BehindOk(s, peer) && s.active && s.catchup
    ensures CopyShaped(e.sv, s) && RoundShaped(s)
    ensures var b := BeginRound(e.sv, s);
            && ServeSubscribe(e.sv, s) == Ok(b)
            && Heading(e, b, peer, Loss(ForgottenFrames(e.sv, s), ForgottenSignals(e.sv, s)))
  {
    HeldBack(e, s);
    assert s.(catchup := true) == s;
    NewRoundBut(e, s, Deliver(peer, s.stream).value);
  }
}
