/** How a session goes on after a second SUBSCRIBE_ALL during its catch-up: what was forgotten
    stays out of date until a later round or update marks it again. */
module Repairs {
  import opened Types
  import opened Canonical
  import opened Protocol
  import opened Session
  import opened Peer
  import opened Agreement
  import opened OutputQueue
  import opened Replication
  import opened Progress
  import opened DoubleSubscribe

  // ---- Without samples ----

  /** The session after the writes on these slots have completed, one after the other, while no
      sample arrives. */
  function AfterWrites(sv: Server, s: Session, ks: seq<nat>): Session
    decreases |ks|
  {
    if ks == [] then s
    else if && ks[0] < |s.slots| && s.slots[ks[0]].Busy? && (s.catchup ==> CopyShaped(sv, s) && RoundShaped(s))
    then AfterWrites(sv, Written(sv, s, ks[0]), ks[1..])
    else AfterWrites(sv, s, ks[1..])
  }

  /** After `done` of `total` completed writes. */
  predicate Counted(e: Env, s: Session, peer: Peer, lost: Loss, total: nat, done: nat)
    requires GoodEnv(e)
  {
    && Heading(e, s, peer, lost)
    && (s.catchup ==>
          && CopyShaped(e.sv, s) && RoundShaped(s) && s.snap.frames == e.sv.frames && s.snap.signals == e.sv.signals
          && done + Todo(e.sv, s) == total)
  }

  /** A round on the current state is the last. */
  lemma LastRound(e: Env, s: Session, peer: Peer, lost: Loss)
    requires GoodEnv(e) && Deliver(peer, s.stream).Some? && Forgetting(e, s, Deliver(peer, s.stream).value, lost)
    requires s.snap.frames == e.sv.frames && s.snap.signals == e.sv.signals
    requires FreeCount(s.slots) == 1 && RoundDone(s)
    ensures LossLeft(s.snap, e.sv, lost) == lost && Drive(e.sv, s).Ok? && !Drive(e.sv, s).s.catchup
    ensures Heading(e, Drive(e.sv, s).s, peer, lost) && !Drive(e.sv, s).s.needsResync
  {
    NoneMarked(FrameFlags(s.snap.frames, e.sv.frames));
    NoneMarked(SignalFlags(s.snap.signals, e.sv.signals));
    NothingLeft(e.sv, lost);
    NextRoundBut(e, s, Deliver(peer, s.stream).value, lost);
    RoomIsASlot(e.setup, s, 0, 0);
    var t := AnnouncesForgetting(e, BeginRound(e.sv, s), peer, lost);
  }

  lemma NothingLeft(sv: Server, lost: Loss)
    ensures FramesLeft(sv.frames, sv.frames, lost.frames) == lost.frames
    ensures SignalsLeft(sv.signals, sv.signals, lost.signals) == lost.signals
  {
  }

  lemma WriteCounts(e: Env, s: Session, peer: Peer, k: nat, lost: Loss, total: nat, done: nat)
    requires GoodEnv(e) && Counted(e, s, peer, lost, total, done) && k < |s.slots| && s.slots[k].Busy?
    ensures Counted(e, Written(e.sv, s, k), peer, lost, total, done + 1)
  {
    EmptySlot(s.slots, k);
    var f := FreeSlot(s, k);
    if !s.catchup {
      WriteForgets(e, s, peer, k, lost);
      JustFreed(e.sv, s, k);
    } else {
      TodoIgnoresQueue(e.sv, s, f);
      WrittenIsDrive(e.sv, s, k);
      if RoundDone(f) {
        LastRound(e, f, peer, lost);
      } else {
        var t := BatchDrives(e, f, peer, lost);
        TodoAfterBatch(e.sv, f, t);
      }
    }
  }

  lemma {:induction false} WritesCount(e: Env, s: Session, peer: Peer, ks: seq<nat>, lost: Loss, total: nat, done: nat)
    requires GoodEnv(e) && Counted(e, s, peer, lost, total, done) && InRange(ks, e.setup.slots)
    ensures Counted(e, AfterWrites(e.sv, s, ks), peer, lost, total, done + |ks|)
    decreases |ks|
  {
    if ks != [] {
      if s.catchup { NoFreeSlot(s.slots, ks[0]); }
      if s.slots[ks[0]].Busy? {
        WriteCounts(e, s, peer, ks[0], lost, total, done);
        WritesCount(e, Written(e.sv, s, ks[0]), peer, ks[1..], lost, total, done + 1);
      } else {
        assert !s.catchup;
        WritesCount(e, s, peer, ks[1..], lost, total, done + 1);
      }
    }
  }

  lemma NothingLost(v: View, sv: Server, lost: Loss)
    requires FramesBut(v.frames, sv.frames, [], lost.frames) && SignalsBut(v.signals, sv.signals, [], lost.signals)
    ensures Agrees(v, sv) <==> lost == NO_LOSS
  {
    if i :| i in lost.frames {
      assert !SameFrame(v.frames[i], sv.frames[i]);
    } else if i :| i in lost.signals {
      assert v.signals[i] != sv.signals[i];
    } else {
      assert lost == NO_LOSS;
    }
  }

  /** A second SUBSCRIBE_ALL during a catch-up, in whatever state, begins the round anew. As many
      completed writes as there are then messages to send announce the subscription, and the
      client then agrees with the canonical state if and only if every entry that was still
      unsent when the command came had changed again. */
  lemma SecondSubscribeForgets(e: Env, s: Session, peer: Peer, ks: seq<nat>)
    requires GoodEnv(e) && Linked(e, s, peer) && BehindOk(s, peer) && s.active && s.catchup
    requires InRange(ks, e.setup.slots)
    ensures CopyShaped(e.sv, s) && RoundShaped(s)
    ensures var b := BeginRound(e.sv, s);
            var t := AfterWrites(e.sv, b, ks);
            var d := Deliver(peer, t.stream);
            && ServeSubscribe(e.sv, s) == Ok(b) && t.active && d.Some?
            && (|ks| >= Todo(e.sv, b) ==> t.subscribed)
            && (t.subscribed ==> d.value.phase.Live? && (Agrees(d.value.cache, e.sv) <==> Remarked(e.sv, s)))
  {
    SecondSubscribeHeads(e, s, peer);
    var b, lost := BeginRound(e.sv, s), Loss(ForgottenFrames(e.sv, s), ForgottenSignals(e.sv, s));
    WritesCount(e, b, peer, ks, lost, Todo(e.sv, b), 0);
    RemarkedForgetsNothing(e.sv, s);
    var t := AfterWrites(e.sv, b, ks);
    if t.subscribed { NothingLost(Deliver(peer, t.stream).value.cache, e.sv, lost); }
  }

  // ---- A live client that has lost something ----

  /** The session has dropped an update and owes a resync, or is closed. */
  predicate GaveUp(s: Session) {
    !s.active || (!s.subscribed && !s.catchup && s.needsResync)
  }

  predicate UpdatingBut(e: Env, s: Session, peer: Peer, frames: seq<nat>, signals: seq<nat>, lost: Loss)
    requires GoodEnv(e)
  {
    || GaveUp(s)
    || (&& QueueInv(e.setup, s) && s.active && s.subscribed && !s.catchup && !s.needsResync
        && Deliver(peer, s.stream).Some? && LiveBut(e, Deliver(peer, s.stream).value, frames, signals, lost))
  }

  /** Whatever has not given up is at the current change. */
  predicate AtChange(e: Env, s: Session, peer: Peer) {
    GaveUp(s) || (Deliver(peer, s.stream).Some? && Deliver(peer, s.stream).value.cache.changeSeq == e.sv.changeSeq)
  }

  function Refreshed(sv: Server, p: Peer, frames: seq<Frame>, signals: seq<SignalValue>): Peer {
    p.(cache := View(frames, signals, sv.sampleSeq, sv.changeSeq, sv.sampleTs), lastSeq := sv.changeSeq)
  }

  lemma LiveFramesReceived(e: Env, p: Peer, w: seq<nat>, fs: seq<Frame>)
    requires GoodEnv(e) && InRange(w, |e.sv.frames|) && |w| <= FRAMES_PER_MESSAGE
    requires p.phase.Live? && p.greeting == Greet(e.cat, e.setup) && p.lastSeq <= e.sv.changeSeq <= p.lastSeq + 1
    requires PutFrames(p.cache.frames, p.lookup, PickFrames(e.sv.frames, w)) == Some(fs)
    ensures Length(FramesNow(e.sv, w)) <= CLIENT_MESSAGE_CAP
    ensures Receive(p, FramesNow(e.sv, w)) == Some(Refreshed(e.sv, p, fs, p.cache.signals))
  {
  }

  lemma LiveSignalsReceived(e: Env, p: Peer, w: seq<nat>, ss: seq<SignalValue>)
    requires GoodEnv(e) && InRange(w, |e.sv.signals|) && |w| <= SIGNALS_PER_MESSAGE
    requires p.phase.Live? && p.greeting == Greet(e.cat, e.setup) && p.lastSeq <= e.sv.changeSeq <= p.lastSeq + 1
    requires PutSignals(p.cache.signals, PickSignals(e.sv.signals, w)) == Some(ss)
    ensures Length(SignalsNow(e.sv, w)) <= CLIENT_MESSAGE_CAP
    ensures Receive(p, SignalsNow(e.sv, w)) == Some(Refreshed(e.sv, p, p.cache.frames, ss))
  {
  }

  lemma FrameUpdateTakenBut(e: Env, p: Peer, idx: seq<nat>, at: nat, signals: seq<nat>, lost: Loss)
    returns (w: seq<nat>, q: Peer)
    requires GoodEnv(e) && InRange(idx, |e.sv.frames|) && at < |idx| && LiveBut(e, p, idx[at..], signals, lost)
    ensures w == Window(idx, at, FRAMES_PER_MESSAGE) && InRange(w, |e.sv.frames|)
    ensures Length(FramesNow(e.sv, w)) <= CLIENT_MESSAGE_CAP && Receive(p, FramesNow(e.sv, w)) == Some(q)
    ensures Orderly(p, q) && q.cache.changeSeq == e.sv.changeSeq && LiveBut(e, q, idx[at + |w|..], signals, lost)
  {
    w := Window(idx, at, FRAMES_PER_MESSAGE);
    GoodIsIdentified(e.cat, e.sv.frames);
    WindowRange(idx, at, FRAMES_PER_MESSAGE, |e.sv.frames|);
    PutPicked(e.cat, p.cache.frames, e.sv.frames, p.lookup, w);
    var fs := PutFrames(p.cache.frames, p.lookup, PickFrames(e.sv.frames, w)).value;
    LiveFramesReceived(e, p, w, fs);
    FramesButShrink(p.cache.frames, e.sv.frames, fs, idx, at, lost.frames);
    q := Refreshed(e.sv, p, fs, p.cache.signals);
  }

  lemma SignalUpdateTakenBut(e: Env, p: Peer, idx: seq<nat>, at: nat, lost: Loss) returns (w: seq<nat>, q: Peer)
    requires GoodEnv(e) && InRange(idx, |e.sv.signals|) && at < |idx| && LiveBut(e, p, [], idx[at..], lost)
    ensures w == Window(idx, at, SIGNALS_PER_MESSAGE) && InRange(w, |e.sv.signals|)
    ensures Length(SignalsNow(e.sv, w)) <= CLIENT_MESSAGE_CAP && Receive(p, SignalsNow(e.sv, w)) == Some(q)
    ensures Orderly(p, q) && q.cache.changeSeq == e.sv.changeSeq && LiveBut(e, q, [], idx[at + |w|..], lost)
  {
    w := Window(idx, at, SIGNALS_PER_MESSAGE);
    WindowRange(idx, at, SIGNALS_PER_MESSAGE, |e.sv.signals|);
    PutPickedSignals(p.cache.signals, e.sv.signals, w);
    var ss := PutSignals(p.cache.signals, PickSignals(e.sv.signals, w)).value;
    LiveSignalsReceived(e, p, w, ss);
    SignalsButShrink(p.cache.signals, e.sv.signals, ss, idx, at, lost.signals);
    q := Refreshed(e.sv, p, p.cache.frames, ss);
  }

  /** A message that the live client would take is queued or dropped. */
  lemma SentBut(e: Env, s: Session, peer: Peer, m: Msg, q: Peer, frames: seq<nat>, signals: seq<nat>, lost: Loss)
    returns (t: Session)
    requires GoodEnv(e) && QueueInv(e.setup, s) && s.active && s.subscribed && !s.catchup && !s.needsResync
    requires Deliver(peer, s.stream).Some? && Length(m) <= CLIENT_MESSAGE_CAP
    requires var p := Deliver(peer, s.stream).value;
             p.requests == [] && Receive(p, m) == Some(q) && Orderly(p, q)
    requires LiveBut(e, q, frames, signals, lost) && q.cache.changeSeq == e.sv.changeSeq
    ensures t == OrClose(Queue(s, m, true)) && UpdatingBut(e, t, peer, frames, signals, lost) && AtChange(e, t, peer)
  {
    QueueSucceeds(e.setup, s, m, true);
    t := OrClose(Queue(s, m, true));
    if FreeCount(s.slots) > 0 {
      SendKeepsQueue(e.setup, s, m);
      Sent(peer, s, m);
    }
  }

  lemma FramesGoOnBut(e: Env, s: Session, peer: Peer, idx: seq<nat>, at: nat, signals: seq<nat>, lost: Loss)
    returns (t: Session, n: nat)
    requires GoodEnv(e) && InRange(idx, |e.sv.frames|) && at < |idx|
    requires UpdatingBut(e, s, peer, idx[at..], signals, lost) && !GaveUp(s)
    ensures at < n <= |idx| && SendFrames(e.sv, s, idx, at) == SendFrames(e.sv, t, idx, n)
    ensures UpdatingBut(e, t, peer, idx[n..], signals, lost) && AtChange(e, t, peer)
  {
    var w, q := FrameUpdateTakenBut(e, Deliver(peer, s.stream).value, idx, at, signals, lost);
    n := at + |w|;
    t := SentBut(e, s, peer, FramesNow(e.sv, w), q, idx[n..], signals, lost);
  }

  lemma {:induction false} FramesBroadcastBut(
    e: Env, s: Session, peer: Peer, idx: seq<nat>, at: nat, signals: seq<nat>, lost: Loss)
    requires GoodEnv(e) && InRange(idx, |e.sv.frames|) && at <= |idx|
    requires UpdatingBut(e, s, peer, idx[at..], signals, lost) && (at > 0 ==> AtChange(e, s, peer))
    ensures var t := SendFrames(e.sv, s, idx, at);
            UpdatingBut(e, t, peer, [], signals, lost) && (idx != [] ==> AtChange(e, t, peer))
    decreases |idx| - at
  {
    if at < |idx| && !GaveUp(s) {
      var t, n := FramesGoOnBut(e, s, peer, idx, at, signals, lost);
      FramesBroadcastBut(e, t, peer, idx, n, signals, lost);
    } else {
      assert at == |idx| ==> idx[at..] == [];
    }
  }

  lemma SignalsGoOnBut(e: Env, s: Session, peer: Peer, idx: seq<nat>, at: nat, lost: Loss)
    returns (t: Session, n: nat)
    requires GoodEnv(e) && InRange(idx, |e.sv.signals|) && at < |idx|
    requires UpdatingBut(e, s, peer, [], idx[at..], lost) && !GaveUp(s)
    ensures at < n <= |idx| && SendSignals(e.sv, s, idx, at) == SendSignals(e.sv, t, idx, n)
    ensures UpdatingBut(e, t, peer, [], idx[n..], lost) && AtChange(e, t, peer)
  {
    var w, q := SignalUpdateTakenBut(e, Deliver(peer, s.stream).value, idx, at, lost);
    n := at + |w|;
    t := SentBut(e, s, peer, SignalsNow(e.sv, w), q, [], idx[n..], lost);
  }

  lemma {:induction false} SignalsBroadcastBut(e: Env, s: Session, peer: Peer, idx: seq<nat>, at: nat, lost: Loss)
    requires GoodEnv(e) && InRange(idx, |e.sv.signals|) && at <= |idx|
    requires UpdatingBut(e, s, peer, [], idx[at..], lost) && AtChange(e, s, peer)
    ensures var t := SendSignals(e.sv, s, idx, at); UpdatingBut(e, t, peer, [], [], lost) && AtChange(e, t, peer)
    decreases |idx| - at
  {
    if at < |idx| && !GaveUp(s) {
      var t, n := SignalsGoOnBut(e, s, peer, idx, at, lost);
      SignalsBroadcastBut(e, t, peer, idx, n, lost);
    } else {
      assert at == |idx| ==> idx[at..] == [];
    }
  }

  // ---- Samples, heartbeats and writes ----

  /** The session is on its way with this loss, or has given up. */
  predicate OnCourse(e: Env, s: Session, peer: Peer, lost: Loss)
    requires GoodEnv(e)
  {
    GaveUp(s) || Heading(e, s, peer, lost)
  }

  lemma FinishedBut(e: Env, s: Session, peer: Peer, lost: Loss)
    requires GoodEnv(e) && UpdatingBut(e, s, peer, [], [], lost) && AtChange(e, s, peer)
    ensures OnCourse(e, s, peer, lost)
  {
  }

  /** What is still forgotten after a sample: an update repairs what it marks. */
  function LossAfterSample(a: Server, b: Server, s: Session, lost: Loss): Loss
    requires |a.frames| == |b.frames| && |a.signals| == |b.signals|
  {
    if s.subscribed then LossLeft(CopyOf(a), b, lost) else lost
  }

  /** A live client misses what was marked, and what stays forgotten. */
  lemma UpdateDueBut(e: Env, sample: Sample, p: Peer, lost: Loss)
    requires GoodEnv(e) && Due(e, sample) && LiveBut(e, p, [], [], lost) && p.cache.changeSeq == e.sv.changeSeq
    ensures var f := Moved(e, sample);
            LiveBut(f, p, Marked(FrameFlags(e.sv.frames, f.sv.frames)), Marked(SignalFlags(e.sv.signals, f.sv.signals)),
                    LossLeft(CopyOf(e.sv), f.sv, lost))
  {
    var f := Moved(e, sample);
    GoodIsIdentified(e.cat, e.sv.frames);
    GoodIsIdentified(e.cat, f.sv.frames);
    ServerConverted(e);
    ServerConverted(f);
    FramesStayLost(e.cat, p.cache.frames, e.sv.frames, f.sv.frames, lost.frames);
    SignalsStayLost(e.cat, p.cache.signals, e.sv.signals, f.sv.signals, lost.signals);
  }

  lemma BroadcastBut(e: Env, s: Session, peer: Peer, frames: seq<nat>, signals: seq<nat>, lost: Loss)
    requires GoodEnv(e) && UpdatingBut(e, s, peer, frames, signals, lost) && !GaveUp(s) && frames != []
    requires InRange(frames, |e.sv.frames|) && InRange(signals, |e.sv.signals|)
    ensures OnCourse(e, Broadcast(e.sv, frames, signals, s), peer, lost)
  {
    assert frames[0..] == frames && signals[0..] == signals;
    FramesBroadcastBut(e, s, peer, frames, 0, signals, lost);
    var t := SendFrames(e.sv, s, frames, 0);
    SignalsBroadcastBut(e, t, peer, signals, 0, lost);
    FinishedBut(e, SendSignals(e.sv, t, signals, 0), peer, lost);
  }

  lemma LiveSampleBut(e: Env, sample: Sample, s: Session, peer: Peer, lost: Loss)
    requires GoodEnv(e) && Due(e, sample) && Heading(e, s, peer, lost) && s.subscribed
    ensures var f := Moved(e, sample);
            OnCourse(f, Distributed(e, sample, s), peer, LossLeft(CopyOf(e.sv), f.sv, lost))
  {
    var f := Moved(e, sample);
    UpdateDueBut(e, sample, Deliver(peer, s.stream).value, lost);
    if Changes(e.sv, sample) {
      BroadcastBut(f, s, peer, Marked(FrameFlags(e.sv.frames, f.sv.frames)),
                   Marked(SignalFlags(e.sv.signals, f.sv.signals)), LossLeft(CopyOf(e.sv), f.sv, lost));
    } else {
      NoSignalChange(e, sample);
    }
  }

  /** A session that is catching up does not notice. */
  lemma CatchupSampleBut(e: Env, sample: Sample, s: Session, peer: Peer, lost: Loss)
    requires GoodEnv(e) && Due(e, sample) && Heading(e, s, peer, lost) && !s.subscribed
    ensures Heading(Moved(e, sample), s, peer, lost)
  {
  }

  lemma SampleForgets(e: Env, sample: Sample, s: Session, peer: Peer, lost: Loss)
    requires GoodEnv(e) && Due(e, sample) && OnCourse(e, s, peer, lost)
    ensures var f := Moved(e, sample);
            OnCourse(f, Distributed(e, sample, s), peer, LossAfterSample(e.sv, f.sv, s, lost))
  {
    SharedOnlySent(e.sv, Moved(e, sample).sv, s);
    if GaveUp(s) {
      GivenUpStays(e.sv, Moved(e, sample).sv, s);
    } else if s.subscribed {
      LiveSampleBut(e, sample, s, peer, lost);
    } else {
      CatchupSampleBut(e, sample, s, peer, lost);
    }
  }

  lemma GivenUpStays(a: Server, b: Server, s: Session)
    requires |a.frames| == |b.frames| && |a.signals| == |b.signals| && GaveUp(s)
    ensures GaveUp(Shared(a, b, s))
  {
  }

  lemma BeatForgets(e: Env, s: Session, peer: Peer, milliHz: nat, sourceState: nat, lost: Loss)
    requires GoodEnv(e) && OnCourse(e, s, peer, lost)
    ensures OnCourse(e, BeatTo(e.sv, s, milliHz, sourceState), peer, lost)
  {
    if !GaveUp(s) && s.subscribed && s.greeted {
      var m, q := BeatTakenBut(e, s, Deliver(peer, s.stream).value, milliHz, sourceState, lost);
      var t := SentBut(e, s, peer, m, q, [], [], lost);
      FinishedBut(e, t, peer, lost);
    }
  }

  lemma BeatTakenBut(e: Env, s: Session, p: Peer, milliHz: nat, sourceState: nat, lost: Loss) returns (m: Msg, q: Peer)
    requires GoodEnv(e) && LiveBut(e, p, [], [], lost) && p.cache.changeSeq == e.sv.changeSeq
    ensures m == BeatOf(e.sv, s, milliHz, sourceState)
    ensures Length(m) <= CLIENT_MESSAGE_CAP && Receive(p, m) == Some(q) && Orderly(p, q)
    ensures LiveBut(e, q, [], [], lost) && q.cache.changeSeq == e.sv.changeSeq
  {
    m := BeatOf(e.sv, s, milliHz, sourceState);
    q := Receive(p, m).value;
  }

  lemma WriteOnCourse(e: Env, s: Session, peer: Peer, k: nat, lost: Loss)
    requires GoodEnv(e) && OnCourse(e, s, peer, lost) && s.active && k < |s.slots| && s.slots[k].Busy?
    ensures s.catchup ==> CopyShaped(e.sv, s) && RoundShaped(s)
    ensures OnCourse(e, Written(e.sv, s, k), peer, LossAfterWrite(e, s, lost))
  {
    if GaveUp(s) {
      GivenUpWrites(e.sv, s, k);
    } else {
      WriteForgets(e, s, peer, k, lost);
    }
  }

  lemma GivenUpWrites(sv: Server, s: Session, k: nat)
    requires GaveUp(s) && s.active && k < |s.slots| && s.slots[k].Busy?
    ensures GaveUp(Written(sv, s, k))
  {
    var t := QueueKeepsBusiness(FreeSlot(s, k), ResyncRequired(sv.changeSeq, sv.sampleTs), false);
  }

  // ---- The whole course ----

  datatype Happening = Sampled(sample: Sample) | Beaten(milliHz: nat, sourceState: nat) | Wrote(slot: nat)

  /** The daemon, the session and what is still forgotten. */
  datatype Course = Course(e: Env, s: Session, lost: Loss)

  /** What happens, where it is possible; otherwise nothing does. */
  function Next(c: Course, h: Happening): (d: Course)
    requires GoodEnv(c.e)
    ensures GoodEnv(d.e)
  {
    match h
    case Sampled(sample) =>
      if Due(c.e, sample)
      then Course(Moved(c.e, sample), Distributed(c.e, sample, c.s),
                  LossAfterSample(c.e.sv, Moved(c.e, sample).sv, c.s, c.lost))
      else c
    case Beaten(milliHz, sourceState) => c.(s := BeatTo(c.e.sv, c.s, milliHz, sourceState))
    case Wrote(k) =>
      if c.s.active && k < |c.s.slots| && c.s.slots[k].Busy?
         && (c.s.catchup ==> CopyShaped(c.e.sv, c.s) && RoundShaped(c.s))
      then c.(s := Written(c.e.sv, c.s, k), lost := LossAfterWrite(c.e, c.s, c.lost))
      else c
  }

  function Play(c: Course, hs: seq<Happening>): (d: Course)
    requires GoodEnv(c.e)
    ensures GoodEnv(d.e)
    decreases |hs|
  {
    if hs == [] then c else Play(Next(c, hs[0]), hs[1..])
  }

  lemma NextOnCourse(c: Course, h: Happening, peer: Peer)
    requires GoodEnv(c.e) && OnCourse(c.e, c.s, peer, c.lost)
    ensures var d := Next(c, h); OnCourse(d.e, d.s, peer, d.lost)
  {
    match h
    case Sampled(sample) => if Due(c.e, sample) { SampleForgets(c.e, sample, c.s, peer, c.lost); }
    case Beaten(milliHz, sourceState) => BeatForgets(c.e, c.s, peer, milliHz, sourceState, c.lost);
    case Wrote(k) =>
      if c.s.active && k < |c.s.slots| && c.s.slots[k].Busy? { WriteOnCourse(c.e, c.s, peer, k, c.lost); }
  }

  lemma {:induction false} PlayOnCourse(c: Course, hs: seq<Happening>, peer: Peer)
    requires GoodEnv(c.e) && OnCourse(c.e, c.s, peer, c.lost)
    ensures var d := Play(c, hs); OnCourse(d.e, d.s, peer, d.lost)
    decreases |hs|
  {
    if hs != [] {
      NextOnCourse(c, hs[0], peer);
      PlayOnCourse(Next(c, hs[0]), hs[1..], peer);
    }
  }

  /** The course of a session from its second SUBSCRIBE_ALL on: what was unsent then and had not
      changed again is forgotten. */
  function Restarted(e: Env, s: Session): Course
    requires CopyShaped(e.sv, s) && RoundShaped(s)
  {
    Course(e, BeginRound(e.sv, s), Loss(ForgottenFrames(e.sv, s), ForgottenSignals(e.sv, s)))
  }

  /** Whatever samples, heartbeats and completed writes follow a second SUBSCRIBE_ALL: as long as
      the session is subscribed, its client is out of date at exactly those forgotten entries
      that no round and no update since has marked. */
  lemma ForgottenUntilMarked(e: Env, s: Session, peer: Peer, hs: seq<Happening>)
    requires GoodEnv(e) && Linked(e, s, peer) && BehindOk(s, peer) && s.active && s.catchup
    ensures CopyShaped(e.sv, s) && RoundShaped(s) && ServeSubscribe(e.sv, s) == Ok(Restarted(e, s).s)
    ensures var c := Play(Restarted(e, s), hs);
            c.s.active && c.s.subscribed ==>
              var d := Deliver(peer, c.s.stream);
              && d.Some? && d.value.phase.Live?
              && FramesBut(d.value.cache.frames, c.e.sv.frames, [], c.lost.frames)
              && SignalsBut(d.value.cache.signals, c.e.sv.signals, [], c.lost.signals)
              && (Agrees(d.value.cache, c.e.sv) <==> c.lost == NO_LOSS)
  {
    SecondSubscribeHeads(e, s, peer);
    PlayOnCourse(Restarted(e, s), hs, peer);
    var c := Play(Restarted(e, s), hs);
    if c.s.active && c.s.subscribed {
      NothingLost(Deliver(peer, c.s.stream).value.cache, c.e.sv, c.lost);
    }
  }
}
