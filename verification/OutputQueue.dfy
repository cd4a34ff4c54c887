/** The bounded output queue: byte accounting and sizing. */
module OutputQueue {
  import opened Types
  import opened Canonical
  import opened Protocol
  import opened Session
  import Schema

  /** What every step keeps: the byte count is the sum over the slots in use, and every
      message is at least a header and at most a full slot. */
  predicate QueueInv(setup: Setup, s: Session) {
    && |s.slots| == setup.slots >= 1
    && s.pending == BusyBytes(s.slots)
    && SlotsInBounds(s.slots)
  }

  predicate SlotsInBounds(slots: seq<Slot>) {
    forall k :: 0 <= k < |slots| && slots[k].Busy? ==> HEADER_SIZE <= slots[k].length <= CLIENT_MESSAGE_CAP
  }

  lemma {:induction false} BytesBound(slots: seq<Slot>)
    requires SlotsInBounds(slots)
    ensures BusyBytes(slots) + FreeCount(slots) * CLIENT_MESSAGE_CAP <= |slots| * CLIENT_MESSAGE_CAP
    ensures BusyBytes(slots) == 0 <==> FreeCount(slots) == |slots|
    ensures FreeCount(slots) <= |slots|
  {
    if slots != [] {
      BytesBound(slots[1..]);
    }
  }

  lemma {:induction false} FreeMeansCount(slots: seq<Slot>)
    ensures FirstFree(slots) < |slots| <==> FreeCount(slots) > 0
  {
    if slots != [] && slots[0].Busy? {
      FreeMeansCount(slots[1..]);
    }
  }

  /** The byte limit never refuses a message that has a slot: neither test on the daemon's own
      count nor the one on libuv's, which is never larger, can fail. */
  lemma RoomIsASlot(setup: Setup, s: Session, length: nat, libuvPending: nat)
    requires QueueInv(setup, s) && length <= CLIENT_MESSAGE_CAP && libuvPending <= s.pending
    ensures HasRoom(s, length) <==> FreeCount(s.slots) > 0
    ensures HasCapacity(s) <==> FreeCount(s.slots) > 0
    ensures FreeCount(s.slots) > 0 ==> libuvPending + length <= |s.slots| * CLIENT_MESSAGE_CAP
  {
    BytesBound(s.slots);
    FreeMeansCount(s.slots);
  }

  lemma SendKeepsQueue(setup: Setup, s: Session, m: Msg)
    requires QueueInv(setup, s) && FreeCount(s.slots) > 0 && Length(m) <= CLIENT_MESSAGE_CAP
    ensures FirstFree(s.slots) < |s.slots|
    ensures QueueInv(setup, Send(s, m))
    ensures FreeCount(Send(s, m).slots) == FreeCount(s.slots) - 1
    ensures Send(s, m).pending > 0
  {
    FreeMeansCount(s.slots);
    FillSlot(s.slots, FirstFree(s.slots), Length(m));
  }

  lemma {:induction false} EmptySlot(slots: seq<Slot>, k: nat)
    requires k < |slots| && slots[k].Busy?
    ensures BusyBytes(slots[k := Free]) + slots[k].length == BusyBytes(slots)
    ensures FreeCount(slots[k := Free]) == FreeCount(slots) + 1
  {
    if k > 0 {
      EmptySlot(slots[1..], k - 1);
      assert slots[k := Free][1..] == slots[1..][k - 1 := Free];
    } else {
      assert slots[0 := Free][1..] == slots[1..];
    }
  }

  lemma {:induction false} AllFree(n: nat)
    ensures var slots := seq(n, _ => Free); BusyBytes(slots) == 0 && FreeCount(slots) == n
  {
    if n > 0 {
      AllFree(n - 1);
      assert seq(n, _ => Free)[1..] == seq(n - 1, _ => Free);
    }
  }

  /** A non-droppable message to an active session fails only for want of a slot. */
  lemma QueueSucceeds(setup: Setup, s: Session, m: Msg, droppable: bool)
    requires QueueInv(setup, s) && s.active && Length(m) <= CLIENT_MESSAGE_CAP
    ensures FreeCount(s.slots) > 0 ==> FirstFree(s.slots) < |s.slots| && Queue(s, m, droppable) == Ok(Send(s, m))
    ensures FreeCount(s.slots) == 0 ==> Queue(s, m, droppable) == if droppable then Ok(Overflow(s)) else Fail(s)
  {
    RoomIsASlot(setup, s, Length(m), 0);
    FreeMeansCount(s.slots);
  }

  // ---- Any client ----

  lemma RoundBatchFits(s: Session)
    requires RoundShaped(s) && !RoundDone(s)
    ensures Length(RoundMessage(s)) <= CLIENT_MESSAGE_CAP
  {
  }

  /** Whatever the client did before, driving a catch-up never fails and keeps the queue. */
  lemma {:induction false} DriveNeverFails(setup: Setup, sv: Server, s: Session)
    requires QueueInv(setup, s) && CopyShaped(sv, s) && RoundShaped(s)
    ensures Drive(sv, s).Ok? && QueueInv(setup, Drive(sv, s).s)
    decreases FreeCount(s.slots), if RoundDone(s) then 1 else 0
  {
    RoomIsASlot(setup, s, 0, 0);
    if s.active && s.catchup && FreeCount(s.slots) > 0 {
      if !RoundDone(s) {
        var t := BatchQueued(setup, s);
        DriveNeverFails(setup, sv, t);
      } else {
        var b := BeginRound(sv, s);
        if !RoundDone(b) {
          DriveNeverFails(setup, sv, b);
        } else {
          QueueSucceeds(setup, b, Subscribed(sv.changeSeq, sv.sampleTs), false);
          SendKeepsQueue(setup, b, Subscribed(sv.changeSeq, sv.sampleTs));
        }
      }
    }
  }

  lemma BatchQueued(setup: Setup, s: Session) returns (t: Session)
    requires QueueInv(setup, s) && RoundShaped(s) && !RoundDone(s) && s.active && FreeCount(s.slots) > 0
    ensures RoundStep(s) == Ok(t) && QueueInv(setup, t) && t.snap == s.snap && RoundShaped(t)
    ensures FreeCount(t.slots) < FreeCount(s.slots)
  {
    RoundBatchFits(s);
    QueueSucceeds(setup, s, RoundMessage(s), false);
    SendKeepsQueue(setup, s, RoundMessage(s));
    t := RoundAdvanced(Send(s, RoundMessage(s)));
  }

  /** The next page of the frozen copy or, when there is none, the first of a new one. */
  predicate NextPage(sv: Server, s: Session, start: nat) {
    if s.snapActive then !s.framesDone && start == s.nextFrame < |s.snap.frames| else start == 0 < |sv.frames|
  }

  /** The commands that are in order: a greeting first and once, pages one after the other,
      the frames of a snapshot before its signals, and a subscription after a whole snapshot. */
  predicate InOrder(cat: Catalog, sv: Server, s: Session, r: Request) {
    match r
    case Hello => !s.greeted
    case Ping => s.greeted
    case GetSchema(start) => s.greeted && start < |cat.defs|
    case GetSnapshot(start) => s.greeted && NextPage(sv, s, start)
    case GetSignalSnapshot(start) =>
      s.greeted && s.snapActive && s.framesDone && start == s.nextSignal < |s.snap.signals|
    case SubscribeAll => s.greeted && s.snapDone && !s.needsResync
  }

  lemma SinglesInOrder(cat: Catalog, setup: Setup, sv: Server, s: Session, r: Request)
    requires GoodLayout(cat) && QueueInv(setup, s) && s.active && (s.snapDone ==> CopyShaped(sv, s))
    requires r.Hello? || r.Ping? || r.GetSchema?
    ensures Serve(cat, setup, sv, s, r).Ok? <==> InOrder(cat, sv, s, r) && FreeCount(s.slots) > 0
    ensures Serve(cat, setup, sv, s, r).Fail? ==> Serve(cat, setup, sv, s, r).s == s
  {
    match r
    case Hello => QueueSucceeds(setup, s, Welcome(sv.changeSeq, sv.sampleTs, Greet(cat, setup)), false);
    case Ping => QueueSucceeds(setup, s, Pong(sv.changeSeq, sv.sampleTs), false);
    case GetSchema(start) =>
      if start < |cat.defs| {
        Schema.PageSize(cat, start);
        QueueSucceeds(setup, s, SchemaPage(sv.changeSeq, sv.sampleTs, Schema.PageFrom(cat, start, PAYLOAD_CAP)), false);
      }
  }

  lemma FramesInOrder(setup: Setup, sv: Server, s: Session, start: nat)
    requires QueueInv(setup, s) && s.active && s.greeted
    ensures var o := ServeFrames(sv, s, start);
            && (o.Ok? <==> FreeCount(s.slots) > 0 && NextPage(sv, s, start))
            && (o.Fail? ==> o.s.stream == s.stream && o.s.slots == s.slots)
  {
    var b := if start == 0 && !s.snapActive then BeginSnapshot(sv, s) else s;
    if start < |b.snap.frames| {
      var m := FramePage(b.snap, start);
      assert Length(m) <= CLIENT_MESSAGE_CAP;
      QueueSucceeds(setup, b, m, false);
    }
  }

  lemma SignalsInOrder(setup: Setup, s: Session, start: nat)
    requires QueueInv(setup, s) && s.active
    ensures var o := ServeSignals(s, start);
            && (o.Ok? <==>
                  && FreeCount(s.slots) > 0 && s.snapActive && s.framesDone
                  && start == s.nextSignal < |s.snap.signals|)
            && (o.Fail? ==> o.s == s)
  {
    if start < |s.snap.signals| {
      var m := SignalsPage(s.snap, start);
      assert Length(m) <= CLIENT_MESSAGE_CAP;
      QueueSucceeds(setup, s, m, false);
    }
  }

  /** Whoever sends it, a command is accepted if and only if it is in order and, unless it is
      SUBSCRIBE_ALL, a slot is free; a refused command sends nothing. */
  lemma CommandsInOrder(cat: Catalog, setup: Setup, sv: Server, s: Session, r: Request)
    requires GoodLayout(cat) && QueueInv(setup, s) && s.active && (s.snapDone ==> CopyShaped(sv, s))
    ensures var o := Serve(cat, setup, sv, s, r);
            && (o.Ok? <==> InOrder(cat, sv, s, r) && (r.SubscribeAll? || FreeCount(s.slots) > 0))
            && (o.Fail? ==> o.s.stream == s.stream && o.s.slots == s.slots)
  {
    match r
    case GetSnapshot(start) => if s.greeted { FramesInOrder(setup, sv, s, start); }
    case GetSignalSnapshot(start) => SignalsInOrder(setup, s, start);
    case SubscribeAll =>
      if s.snapDone { DriveNeverFails(setup, sv, BeginRound(sv, s.(catchup := true))); }
    case _ => SinglesInOrder(cat, setup, sv, s, r);
  }

  // ---- Sizing ----

  /** Messages a loop needs for n entries, at most k to a message. */
  function Chunks(n: nat, k: nat): nat
    requires k > 0
  {
    if n == 0 then 0 else 1 + Chunks(n - Min(n, k), k)
  }

  lemma {:induction false} ChunksMonotone(a: nat, b: nat, k: nat)
    requires k > 0 && a <= b
    ensures Chunks(a, k) <= Chunks(b, k)
  {
    if a > 0 {
      ChunksMonotone(a - Min(a, k), b - Min(b, k), k);
    }
  }

  /** FRAME_BATCH_CHUNKS and SIGNAL_BATCH_CHUNKS round up as the loops do. */
  lemma {:induction false} FrameChunksRoundUp(n: nat)
    ensures Chunks(n, FRAMES_PER_MESSAGE) == (n + FRAMES_PER_MESSAGE - 1) / FRAMES_PER_MESSAGE
  {
    assert FRAMES_PER_MESSAGE == 71;
    if n > 71 {
      FrameChunksRoundUp(n - 71);
      assert (n + 70) / 71 == 1 + (n - 1) / 71;
    }
  }

  lemma {:induction false} SignalChunksRoundUp(n: nat)
    ensures Chunks(n, SIGNALS_PER_MESSAGE) == (n + SIGNALS_PER_MESSAGE - 1) / SIGNALS_PER_MESSAGE
  {
    assert SIGNALS_PER_MESSAGE == 49;
    if n > 49 {
      SignalChunksRoundUp(n - 49);
      assert (n + 48) / 49 == 1 + (n - 1) / 49;
    }
  }

  /** CLIENT_QUEUE_SLOTS, the default queue: one complete update plus one heartbeat. */
  function DefaultSlots(cat: Catalog): nat {
    Chunks(|cat.canIds|, FRAMES_PER_MESSAGE) + Chunks(|cat.defs|, SIGNALS_PER_MESSAGE) + 1
  }

  /** An active subscriber that is not behind. */
  predicate Ready(setup: Setup, s: Session) {
    QueueInv(setup, s) && s.active && s.greeted && s.subscribed && !s.needsResync
  }

  lemma {:induction false} FramesFitQueue(setup: Setup, sv: Server, s: Session, idx: seq<nat>, at: nat)
    requires Ready(setup, s) && InRange(idx, |sv.frames|) && at <= |idx|
    requires FreeCount(s.slots) >= Chunks(|idx| - at, FRAMES_PER_MESSAGE)
    ensures var t := SendFrames(sv, s, idx, at);
            && Ready(setup, t) && t.dropped == s.dropped
            && FreeCount(t.slots) == FreeCount(s.slots) - Chunks(|idx| - at, FRAMES_PER_MESSAGE)
    decreases |idx| - at
  {
    if at < |idx| {
      var w := Window(idx, at, FRAMES_PER_MESSAGE);
      var m := FramesNow(sv, w);
      assert |w| == Min(|idx| - at, FRAMES_PER_MESSAGE) && Length(m) <= CLIENT_MESSAGE_CAP;
      QueueSucceeds(setup, s, m, true);
      SendKeepsQueue(setup, s, m);
      FramesFitQueue(setup, sv, Send(s, m), idx, at + |w|);
    }
  }

  lemma {:induction false} SignalsFitQueue(setup: Setup, sv: Server, s: Session, idx: seq<nat>, at: nat)
    requires Ready(setup, s) && InRange(idx, |sv.signals|) && at <= |idx|
    requires FreeCount(s.slots) >= Chunks(|idx| - at, SIGNALS_PER_MESSAGE)
    ensures var t := SendSignals(sv, s, idx, at);
            && Ready(setup, t) && t.dropped == s.dropped
            && FreeCount(t.slots) == FreeCount(s.slots) - Chunks(|idx| - at, SIGNALS_PER_MESSAGE)
    decreases |idx| - at
  {
    if at < |idx| {
      var w := Window(idx, at, SIGNALS_PER_MESSAGE);
      var m := SignalsNow(sv, w);
      assert |w| == Min(|idx| - at, SIGNALS_PER_MESSAGE) && Length(m) <= CLIENT_MESSAGE_CAP;
      QueueSucceeds(setup, s, m, true);
      SendKeepsQueue(setup, s, m);
      SignalsFitQueue(setup, sv, Send(s, m), idx, at + |w|);
    }
  }

  lemma BeatFitsQueue(setup: Setup, sv: Server, s: Session, milliHz: nat, sourceState: nat)
    requires Ready(setup, s) && FreeCount(s.slots) > 0
    ensures var t := BeatTo(sv, s, milliHz, sourceState); Ready(setup, t) && t.dropped == s.dropped
  {
    QueueSucceeds(setup, s, BeatOf(sv, s, milliHz, sourceState), true);
    SendKeepsQueue(setup, s, BeatOf(sv, s, milliHz, sourceState));
  }

  lemma UpdateAndBeatFit(
    cat: Catalog, setup: Setup, sv: Server, s: Session, frames: seq<nat>, signals: seq<nat>,
    milliHz: nat, sourceState: nat)
    requires setup.slots == DefaultSlots(cat) && Ready(setup, s) && s.pending == 0
    requires InRange(frames, |sv.frames|) && InRange(signals, |sv.signals|)
    requires |frames| <= |cat.canIds| && |signals| <= |cat.defs|
    ensures var t := BeatTo(sv, Broadcast(sv, frames, signals, s), milliHz, sourceState);
            Ready(setup, t) && t.dropped == s.dropped
  {
    ChunksMonotone(|frames|, |cat.canIds|, FRAMES_PER_MESSAGE);
    ChunksMonotone(|signals|, |cat.defs|, SIGNALS_PER_MESSAGE);
    BytesBound(s.slots);
    FramesFitQueue(setup, sv, s, frames, 0);
    var t := SendFrames(sv, s, frames, 0);
    SignalsFitQueue(setup, sv, t, signals, 0);
    BeatFitsQueue(setup, sv, SendSignals(sv, t, signals, 0), milliHz, sourceState);
  }

  /** From an empty default queue the update from any canonical state to any other, however
      dense, and then one heartbeat are queued without a drop. */
  lemma DefaultQueueSuffices(
    cat: Catalog, setup: Setup, a: Server, b: Server, s: Session, milliHz: nat, sourceState: nat)
    requires setup.slots == DefaultSlots(cat) && Ready(setup, s) && s.pending == 0
    requires Shaped(cat, a) && Shaped(cat, b)
    ensures var t := BeatTo(b, Shared(a, b, s), milliHz, sourceState);
            Ready(setup, t) && t.dropped == s.dropped
  {
    MarkedCount(FrameFlags(a.frames, b.frames));
    MarkedCount(SignalFlags(a.signals, b.signals));
    var frames, signals := Marked(FrameFlags(a.frames, b.frames)), Marked(SignalFlags(a.signals, b.signals));
    UpdateAndBeatFit(cat, setup, b, s, frames, signals, milliHz, sourceState);
    BytesBound(s.slots);
    BeatFitsQueue(setup, b, s, milliHz, sourceState);
  }
}
