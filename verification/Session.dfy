/** One client session on the daemon's side: the bounded output queue, the frozen snapshot
    copy, the catch-up rounds and the command dispatch, as functions on values. */
module Session {
  import opened Types
  import opened Wire
  import opened Canonical
  import opened Protocol
  import Schema

  /** Daemon settings: sampling rate and number of output slots per client. */
  datatype Setup = Setup(hz: nat, slots: nat)

  datatype Slot = Free | Busy(length: nat)

  datatype Copy = Copy(frames: seq<Frame>, signals: seq<SignalValue>, sampleSeq: nat, changeSeq: nat, ts: nat)

  /** A catch-up round: which entries to send from the copy, and how far it has got. */
  datatype Round = Round(
    frames: seq<nat>, frameAt: nat, signals: seq<nat>, signalAt: nat, sampleSeq: nat, changeSeq: nat, ts: nat)

  /** `stream` holds the messages handed to libuv that the peer has not read yet.
      `announced` and `resyncs` count the SUBSCRIBED and RESYNC_REQUIRED messages sent; they
      are history only. */
  datatype Session = Session(
    active: bool, greeted: bool, subscribed: bool, needsResync: bool, resyncQueued: bool,
    slots: seq<Slot>, pending: nat, dropped: nat,
    snap: Copy, nextFrame: nat, nextSignal: nat, snapActive: bool, framesDone: bool, snapDone: bool,
    round: Round, catchup: bool,
    stream: seq<Msg>, announced: nat, resyncs: nat)

  /** The daemon with one session. */
  datatype Desk = Desk(sv: Server, s: Session)

  const NO_COPY := Copy([], [], 0, 0, 0)
  const NO_ROUND := Round([], 0, [], 0, 0, 0, 0)

  function Connected(setup: Setup): Session {
    Session(true, false, false, false, false, seq(setup.slots, _ => Free), 0, 0,
            NO_COPY, 0, 0, false, false, false, NO_ROUND, false, [], 0, 0)
  }

  // ---- The output queue ----

  function FirstFree(slots: seq<Slot>): (k: nat)
    ensures k <= |slots| && (k < |slots| ==> slots[k].Free?)
    ensures forall i :: 0 <= i < k ==> slots[i].Busy?
  {
    if slots == [] then 0 else if slots[0].Free? then 0 else 1 + FirstFree(slots[1..])
  }

  function FreeCount(slots: seq<Slot>): nat {
    if slots == [] then 0 else (if slots[0].Free? then 1 else 0) + FreeCount(slots[1..])
  }

  function BusyBytes(slots: seq<Slot>): nat {
    if slots == [] then 0 else (if slots[0].Busy? then slots[0].length else 0) + BusyBytes(slots[1..])
  }

  predicate HasRoom(s: Session, length: nat) {
    FirstFree(s.slots) < |s.slots| && s.pending + length <= |s.slots| * CLIENT_MESSAGE_CAP
  }

  function Send(s: Session, m: Msg): Session
    requires FirstFree(s.slots) < |s.slots|
  {
    s.(slots := s.slots[FirstFree(s.slots) := Busy(Length(m))], pending := s.pending + Length(m),
       stream := s.stream + [m])
  }

  function Overflow(s: Session): Session {
    s.(dropped := s.dropped + 1, needsResync := true, subscribed := false)
  }

  datatype Outcome = Ok(s: Session) | Fail(s: Session)

  function Closed(s: Session): Session {
    s.(active := false)
  }

  function OrClose(o: Outcome): Session {
    if o.Ok? then o.s else Closed(o.s)
  }

  /** `client_queue_message`. */
  function Queue(s: Session, m: Msg, droppable: bool): Outcome {
    if !s.active || Length(m) > CLIENT_MESSAGE_CAP then Fail(s)
    else if !HasRoom(s, Length(m)) then if droppable then Ok(Overflow(s)) else Fail(s)
    else Ok(Send(s, m))
  }

  /** Everything but the queue, the stream and the bookkeeping of drops. */
  predicate SameBusiness(s: Session, t: Session) {
    && t.greeted == s.greeted && t.snap == s.snap && t.nextFrame == s.nextFrame && t.nextSignal == s.nextSignal
    && t.snapActive == s.snapActive && t.framesDone == s.framesDone && t.snapDone == s.snapDone
    && t.round == s.round && t.catchup == s.catchup && t.resyncQueued == s.resyncQueued
    && t.announced == s.announced && t.resyncs == s.resyncs
  }

  lemma SendKeepsBusiness(s: Session, m: Msg)
    requires FirstFree(s.slots) < |s.slots|
    ensures SameBusiness(s, Send(s, m)) && Send(s, m).active == s.active
    ensures Send(s, m).needsResync == s.needsResync && Send(s, m).subscribed == s.subscribed
  {
  }

  /** Queueing a message touches nothing else, and a subscriber stays one or owes a resync. */
  lemma QueueKeepsBusiness(s: Session, m: Msg, droppable: bool) returns (t: Session)
    ensures t == Queue(s, m, droppable).s && SameBusiness(s, t) && t.active == s.active
    ensures (s.subscribed || s.needsResync ==> t.subscribed || t.needsResync) && (s.needsResync ==> t.needsResync)
  {
    t := Queue(s, m, droppable).s;
    if HasRoom(s, Length(m)) { SendKeepsBusiness(s, m); }
  }

  function MaybeResync(sv: Server, s: Session): Session {
    if !s.active || !s.greeted || !s.needsResync || s.resyncQueued || s.pending != 0 then s
    else
      match Queue(s, ResyncRequired(sv.changeSeq, sv.sampleTs), false)
      case Fail(x) => Closed(x)
      case Ok(x) => x.(resyncQueued := true, resyncs := x.resyncs + 1)
  }

  // ---- Selecting entries ----

  predicate InRange(idx: seq<nat>, n: nat) {
    forall k :: 0 <= k < |idx| ==> idx[k] < n
  }

  function PickFrames(frames: seq<Frame>, idx: seq<nat>): (r: seq<Frame>)
    requires InRange(idx, |frames|)
    ensures |r| == |idx| && forall k :: 0 <= k < |r| ==> r[k] == frames[idx[k]]
  {
    seq(|idx|, k requires 0 <= k < |idx| => frames[idx[k]])
  }

  function PickSignals(signals: seq<SignalValue>, idx: seq<nat>): (r: seq<SignalUpdate>)
    requires InRange(idx, |signals|)
    ensures |r| == |idx| && forall k :: 0 <= k < |r| ==> r[k] == SignalUpdate(idx[k], signals[idx[k]])
  {
    seq(|idx|, k requires 0 <= k < |idx| => SignalUpdate(idx[k], signals[idx[k]]))
  }

  function Window(idx: seq<nat>, at: nat, limit: nat): seq<nat>
    requires at <= |idx|
  {
    idx[at..at + Min(|idx| - at, limit)]
  }

  function FrameDelta(frames: seq<Frame>, idx: seq<nat>, sampleSeq: nat, changeSeq: nat, ts: nat): Msg
    requires InRange(idx, |frames|)
  {
    FrameUpdates(changeSeq, ts, FrameBatch(sampleSeq, |frames|, NO_INDEX, PickFrames(frames, idx)))
  }

  function SignalDelta(signals: seq<SignalValue>, idx: seq<nat>, sampleSeq: nat, changeSeq: nat, ts: nat): Msg
    requires InRange(idx, |signals|)
  {
    SignalUpdates(changeSeq, ts, SignalBatch(sampleSeq, |signals|, NO_INDEX, PickSignals(signals, idx)))
  }

  // ---- Snapshot pages ----

  function CopyOf(sv: Server): Copy {
    Copy(sv.frames, sv.signals, sv.sampleSeq, sv.changeSeq, sv.sampleTs)
  }

  function BeginSnapshot(sv: Server, s: Session): Session {
    s.(snap := CopyOf(sv),
       nextFrame := 0, nextSignal := 0, snapActive := true, framesDone := false, snapDone := false,
       needsResync := false, resyncQueued := false)
  }

  function FramePage(snap: Copy, start: nat): Msg
    requires start <= |snap.frames|
  {
    SnapshotPage(snap.changeSeq, snap.ts,
                 FrameBatch(snap.sampleSeq, |snap.frames|, start,
                            snap.frames[start..start + Min(|snap.frames| - start, FRAMES_PER_MESSAGE)]))
  }

  function Upto(start: nat, n: nat): (r: seq<nat>)
    ensures |r| == n && forall k :: 0 <= k < n ==> r[k] == start + k
  {
    seq(n, k requires 0 <= k < n => start + k)
  }

  function SignalsPage(snap: Copy, start: nat): Msg
    requires start <= |snap.signals|
  {
    SignalPage(snap.changeSeq, snap.ts,
               SignalBatch(snap.sampleSeq, |snap.signals|, start,
                           PickSignals(snap.signals, Upto(start, Min(|snap.signals| - start, SIGNALS_PER_MESSAGE)))))
  }

  /** `queue_frame_snapshot_chunk`. */
  function ServeFrames(sv: Server, s0: Session, start: nat): Outcome {
    var s := if start == 0 && !s0.snapActive then BeginSnapshot(sv, s0) else s0;
    if !s.snapActive || s.framesDone || start != s.nextFrame || start >= |s.snap.frames| then Fail(s)
    else
      match Queue(s, FramePage(s.snap, start), false)
      case Fail(x) => Fail(x)
      case Ok(x) =>
        var next := start + Min(|s.snap.frames| - start, FRAMES_PER_MESSAGE);
        Ok(x.(nextFrame := next, framesDone := next == |s.snap.frames|))
  }

  /** `queue_signal_snapshot_chunk`. */
  function ServeSignals(s: Session, start: nat): Outcome {
    if !s.snapActive || !s.framesDone || start != s.nextSignal || start >= |s.snap.signals| then Fail(s)
    else
      match Queue(s, SignalsPage(s.snap, start), false)
      case Fail(x) => Fail(x)
      case Ok(x) =>
        var next := start + Min(|s.snap.signals| - start, SIGNALS_PER_MESSAGE);
        var y := x.(nextSignal := next);
        Ok(if next == |s.snap.signals| then y.(snapActive := false, snapDone := true) else y)
  }

  // ---- Catch-up ----

  predicate HasCapacity(s: Session) {
    FirstFree(s.slots) < |s.slots| && s.pending + CLIENT_MESSAGE_CAP <= |s.slots| * CLIENT_MESSAGE_CAP
  }

  predicate CopyShaped(sv: Server, s: Session) {
    |s.snap.frames| == |sv.frames| && |s.snap.signals| == |sv.signals|
  }

  predicate RoundFits(r: Round, frames: nat, signals: nat) {
    && InRange(r.frames, frames) && r.frameAt <= |r.frames|
    && InRange(r.signals, signals) && r.signalAt <= |r.signals|
  }

  predicate RoundShaped(s: Session) {
    RoundFits(s.round, |s.snap.frames|, |s.snap.signals|)
  }

  function BeginRound(sv: Server, s: Session): (r: Session)
    requires CopyShaped(sv, s)
    ensures CopyShaped(sv, r) && RoundShaped(r)
  {
    s.(round := Round(Marked(FrameFlags(s.snap.frames, sv.frames)), 0,
                      Marked(SignalFlags(s.snap.signals, sv.signals)), 0,
                      sv.sampleSeq, sv.changeSeq, sv.sampleTs),
       snap := s.snap.(frames := sv.frames, signals := sv.signals))
  }

  predicate RoundDone(s: Session) {
    s.round.frameAt == |s.round.frames| && s.round.signalAt == |s.round.signals|
  }

  /** The next batch of the round: frames first, then signals. */
  function RoundMessage(s: Session): Msg
    requires RoundShaped(s) && !RoundDone(s)
  {
    var r := s.round;
    if r.frameAt < |r.frames|
    then FrameDelta(s.snap.frames, Window(r.frames, r.frameAt, FRAMES_PER_MESSAGE), r.sampleSeq, r.changeSeq, r.ts)
    else SignalDelta(s.snap.signals, Window(r.signals, r.signalAt, SIGNALS_PER_MESSAGE), r.sampleSeq, r.changeSeq, r.ts)
  }

  function Advance(r: Round): Round
    requires r.frameAt <= |r.frames| && r.signalAt <= |r.signals|
  {
    if r.frameAt < |r.frames|
    then r.(frameAt := r.frameAt + Min(|r.frames| - r.frameAt, FRAMES_PER_MESSAGE))
    else r.(signalAt := r.signalAt + Min(|r.signals| - r.signalAt, SIGNALS_PER_MESSAGE))
  }

  function RoundAdvanced(s: Session): (r: Session)
    requires RoundShaped(s) && !RoundDone(s)
    ensures RoundShaped(r)
  {
    s.(round := Advance(s.round))
  }

  /** Sending one batch of the round. */
  function RoundStep(s: Session): (o: Outcome)
    requires RoundShaped(s) && !RoundDone(s)
    ensures o.Ok? ==> RoundShaped(o.s) && o.s.snap == s.snap && FreeCount(o.s.slots) < FreeCount(s.slots)
  {
    match Queue(s, RoundMessage(s), false)
    case Fail(x) => Fail(x)
    case Ok(x) =>
      SendTakesSlot(s, RoundMessage(s));
      Ok(RoundAdvanced(x))
  }

  /** Announcing the subscription. */
  function Announce(sv: Server, s: Session): Outcome {
    match Queue(s, Subscribed(sv.changeSeq, sv.sampleTs), false)
    case Fail(x) => Fail(x)
    case Ok(x) => Ok(x.(catchup := false, subscribed := true, announced := x.announced + 1))
  }

  /** `drive_subscription_catchup`: send batches, begin rounds and finally announce the
      subscription, while the queue has room. */
  function Drive(sv: Server, s: Session): Outcome
    requires CopyShaped(sv, s) && RoundShaped(s)
    decreases FreeCount(s.slots), if RoundDone(s) then 1 else 0
  {
    if !s.active || !s.catchup || !HasCapacity(s) then Ok(s)
    else if !RoundDone(s) then
      match RoundStep(s)
      case Fail(x) => Fail(x)
      case Ok(x) => Drive(sv, x)
    else
      var b := BeginRound(sv, s);
      if !RoundDone(b) then Drive(sv, b) else Announce(sv, b)
  }

  lemma SendTakesSlot(s: Session, m: Msg)
    requires FirstFree(s.slots) < |s.slots|
    ensures FreeCount(Send(s, m).slots) == FreeCount(s.slots) - 1
  {
    FillSlot(s.slots, FirstFree(s.slots), Length(m));
  }

  lemma {:induction false} FillSlot(slots: seq<Slot>, k: nat, n: nat)
    requires k < |slots| && slots[k].Free?
    ensures FreeCount(slots[k := Busy(n)]) == FreeCount(slots) - 1
    ensures BusyBytes(slots[k := Busy(n)]) == BusyBytes(slots) + n
  {
    if k > 0 {
      FillSlot(slots[1..], k - 1, n);
      assert slots[k := Busy(n)][1..] == slots[1..][k - 1 := Busy(n)];
    } else {
      assert slots[0 := Busy(n)][1..] == slots[1..];
    }
  }

  // ---- Commands ----

  function Greet(cat: Catalog, setup: Setup): Greeting {
    Greeting(setup.hz, |cat.canIds|, |cat.defs|, CLIENT_INPUT_CAP - HEADER_SIZE, PAYLOAD_CAP, 3,
             SCHEMA_VERSION, cat.schemaHash)
  }

  function ServeHello(cat: Catalog, setup: Setup, sv: Server, s: Session): Outcome {
    if s.greeted then Fail(s)
    else
      match Queue(s, Welcome(sv.changeSeq, sv.sampleTs, Greet(cat, setup)), false)
      case Fail(x) => Fail(x)
      case Ok(x) => Ok(x.(greeted := true))
  }

  function ServeSchema(cat: Catalog, sv: Server, s: Session, start: nat): Outcome
    requires GoodLayout(cat)
  {
    if start >= |cat.defs| || Schema.PageFrom(cat, start, PAYLOAD_CAP).entries == [] then Fail(s)
    else Queue(s, SchemaPage(sv.changeSeq, sv.sampleTs, Schema.PageFrom(cat, start, PAYLOAD_CAP)), false)
  }

  function ServeSubscribe(sv: Server, s: Session): Outcome
    requires s.snapDone ==> CopyShaped(sv, s)
  {
    if s.needsResync || !s.snapDone then Fail(s)
    else Drive(sv, BeginRound(sv, s.(catchup := true)))
  }

  /** `process_command`: any failure ends the session. */
  function Serve(cat: Catalog, setup: Setup, sv: Server, s: Session, r: Request): Outcome
    requires GoodLayout(cat) && (s.snapDone ==> CopyShaped(sv, s))
  {
    if r.Hello? then ServeHello(cat, setup, sv, s)
    else if !s.greeted then Fail(s)
    else
      match r
      case GetSnapshot(start) => ServeFrames(sv, s, start)
      case SubscribeAll => ServeSubscribe(sv, s)
      case Ping => Queue(s, Pong(sv.changeSeq, sv.sampleTs), false)
      case GetSchema(start) => ServeSchema(cat, sv, s, start)
      case GetSignalSnapshot(start) => ServeSignals(s, start)
  }

  // ---- Write completions, broadcasts, heartbeats ----

  function FreeSlot(s: Session, k: nat): (t: Session)
    requires k < |s.slots| && s.slots[k].Busy?
    ensures SameBusiness(s, t)
  {
    s.(slots := s.slots[k := Free], pending := Unpend(s.pending, s.slots[k].length))
  }

  /** The byte count after a write, never below zero. */
  function Unpend(pending: nat, n: nat): nat {
    if pending >= n then pending - n else 0
  }

  /** `on_client_write` for slot k. */
  function Written(sv: Server, s0: Session, k: nat): Session
    requires k < |s0.slots| && s0.slots[k].Busy?
    requires s0.catchup ==> CopyShaped(sv, s0) && RoundShaped(s0)
  {
    var s := FreeSlot(s0, k);
    if s.catchup then Continued(sv, Drive(sv, s)) else MaybeResync(sv, s)
  }

  function Continued(sv: Server, o: Outcome): Session {
    match o
    case Fail(x) => Closed(x)
    case Ok(x) => MaybeResync(sv, x)
  }

  /** An update of the current state. */
  function FramesNow(sv: Server, w: seq<nat>): Msg
    requires InRange(w, |sv.frames|)
  {
    FrameDelta(sv.frames, w, sv.sampleSeq, sv.changeSeq, sv.sampleTs)
  }

  function SignalsNow(sv: Server, w: seq<nat>): Msg
    requires InRange(w, |sv.signals|)
  {
    SignalDelta(sv.signals, w, sv.sampleSeq, sv.changeSeq, sv.sampleTs)
  }

  /** The frame half of a broadcast: stop at the first drop. */
  function SendFrames(sv: Server, s: Session, idx: seq<nat>, at: nat): Session
    requires InRange(idx, |sv.frames|) && at <= |idx|
    decreases |idx| - at
  {
    if at == |idx| || !s.active || s.needsResync then s
    else
      var w := Window(idx, at, FRAMES_PER_MESSAGE);
      SendFrames(sv, OrClose(Queue(s, FramesNow(sv, w), true)), idx, at + |w|)
  }

  function SendSignals(sv: Server, s: Session, idx: seq<nat>, at: nat): Session
    requires InRange(idx, |sv.signals|) && at <= |idx|
    decreases |idx| - at
  {
    if at == |idx| || !s.active || s.needsResync then s
    else
      var w := Window(idx, at, SIGNALS_PER_MESSAGE);
      SendSignals(sv, OrClose(Queue(s, SignalsNow(sv, w), true)), idx, at + |w|)
  }

  /** One client's updates; `sv` is the new canonical state. */
  function Broadcast(sv: Server, frames: seq<nat>, signals: seq<nat>, s: Session): Session
    requires InRange(frames, |sv.frames|) && InRange(signals, |sv.signals|)
  {
    if !s.active || !s.subscribed || s.needsResync then s
    else SendSignals(sv, SendFrames(sv, s, frames, 0), signals, 0)
  }

  /** One client's share of `distribute_latest_sample`, which moved the canonical state from
      a to b: nothing unless a frame changed. */
  function Shared(a: Server, b: Server, s: Session): Session
    requires |a.frames| == |b.frames| && |a.signals| == |b.signals|
  {
    var frames := Marked(FrameFlags(a.frames, b.frames));
    if a.sampleSeq == b.sampleSeq || frames == [] then s
    else Broadcast(b, frames, Marked(SignalFlags(a.signals, b.signals)), s)
  }

  function BeatOf(sv: Server, s: Session, milliHz: nat, sourceState: nat): Msg {
    Heartbeat(sv.changeSeq, sv.sampleTs,
              Beat(sv.sampleSeq, sv.changeSeq, s.dropped, sv.coalesced, milliHz, sourceState))
  }

  function BeatTo(sv: Server, s: Session, milliHz: nat, sourceState: nat): Session {
    if !s.active || !s.greeted || !s.subscribed || s.needsResync then s
    else OrClose(Queue(s, BeatOf(sv, s, milliHz, sourceState), true))
  }
}
