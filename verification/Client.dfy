/** A client connection as the daemon holds it, updated in place by the callbacks of the
    event loop; every method is proved against its function in module Session. */
module Client {
  import opened Types
  import opened Wire
  import opened Canonical
  import opened Protocol
  import opened Session
  import Schema

  /** A call's result: a negative return leaves the state for the caller to close. */
  function Returned(ok: bool, s: Session): Outcome {
    if ok then Ok(s) else Fail(s)
  }

  lemma FirstFreeIs(slots: seq<Slot>, k: nat)
    requires k <= |slots| && (forall j :: 0 <= j < k ==> slots[j].Busy?) && (k < |slots| ==> slots[k].Free?)
    ensures FirstFree(slots) == k
  {
  }

  /** Sending prepared chunks from number c on. */
  function SendAll(s: Session, chunks: seq<Msg>, c: nat): Session
    requires c <= |chunks|
    decreases |chunks| - c
  {
    if c == |chunks| || !s.active || s.needsResync then s
    else SendAll(OrClose(Queue(s, chunks[c], true)), chunks, c + 1)
  }

  predicate Listens(s: Session) {
    s.active && s.subscribed && !s.needsResync
  }

  function Updates(s: Session, frameChunks: seq<Msg>, signalChunks: seq<Msg>): Session {
    if !Listens(s) then s else SendAll(SendAll(s, frameChunks, 0), signalChunks, 0)
  }

  /** How far the pages of a snapshot have got. */
  datatype Paging = Paging(nextFrame: nat, nextSignal: nat, active: bool, framesDone: bool, done: bool)

  class Connection {
    const slots: array<Slot>
    var active: bool
    var greeted: bool
    var subscribed: bool
    var needsResync: bool
    var resyncQueued: bool
    var pending: nat
    var dropped: nat
    var snap: Copy
    var paging: Paging
    var round: Round
    var catchup: bool
    /** Messages handed to libuv and not yet read by the client, and two counters of history. */
    var stream: seq<Msg>
    var announced: nat
    var resyncs: nat

    function State(): Session
      reads this, slots
    {
      Session(active, greeted, subscribed, needsResync, resyncQueued, slots[..], pending, dropped,
              snap, paging.nextFrame, paging.nextSignal, paging.active, paging.framesDone, paging.done, round, catchup,
              stream, announced, resyncs)
    }

    /** `on_connection`: an accepted client starts from cleared memory. */
    constructor (setup: Setup)
      ensures State() == Connected(setup) && fresh(slots)
    {
      slots := new Slot[setup.slots](_ => Free);
      active, greeted, subscribed, needsResync, resyncQueued := true, false, false, false, false;
      pending, dropped, snap, paging := 0, 0, NO_COPY, Paging(0, 0, false, false, false);
      round, catchup := NO_ROUND, false;
      stream, announced, resyncs := [], 0, 0;
    }

    /** `uv_stream_get_write_queue_size`: libuv never holds more than the daemon counted. */
    method WriteQueueSize() returns (n: nat)
      ensures n <= pending
    {
      n :| n <= pending;
    }

    method FindOutputSlot() returns (k: nat)
      ensures k == FirstFree(slots[..])
    {
      k := 0;
      while k < slots.Length
        invariant k <= slots.Length && forall j :: 0 <= j < k ==> slots[j].Busy?
      {
        if slots[k].Free? {
          break;
        }
        k := k + 1;
      }
      FirstFreeIs(slots[..], k);
    }

    method Close()
      modifies this`active
      ensures State() == Closed(old(State()))
    {
      active := false;
      assert slots[..] == old(slots[..]);
    }

    method QueueMessage(m: Msg, droppable: bool) returns (ok: bool)
      modifies this`pending, this`dropped, this`needsResync, this`subscribed, this`stream, slots
      ensures Returned(ok, State()) == Queue(old(State()), m, droppable)
    {
      if !active || Length(m) > CLIENT_MESSAGE_CAP {
        return false;
      }
      var limit := slots.Length * CLIENT_MESSAGE_CAP;
      var libuvPending := WriteQueueSize();
      var k := FindOutputSlot();
      if k == slots.Length || pending + Length(m) > limit || libuvPending + Length(m) > limit {
        if droppable {
          DropMessage();
        }
        return droppable;
      }
      Store(k, m);
      return true;
    }

    method DropMessage()
      modifies this`dropped, this`needsResync, this`subscribed
      ensures State() == Overflow(old(State()))
    {
      dropped := dropped + 1;
      needsResync := true;
      subscribed := false;
    }

    method Store(k: nat, m: Msg)
      requires k < slots.Length && k == FirstFree(slots[..])
      modifies this`pending, this`stream, slots
      ensures State() == Send(old(State()), m)
    {
      slots[k] := Busy(Length(m));
      assert slots[..] == old(slots[..])[k := Busy(Length(m))];
      pending := pending + Length(m);
      stream := stream + [m];
    }

    method HasOutputCapacity() returns (yes: bool)
      ensures yes == HasCapacity(State())
    {
      var libuvPending := WriteQueueSize();
      var limit := slots.Length * CLIENT_MESSAGE_CAP;
      var k := FindOutputSlot();
      yes := k != slots.Length && pending + CLIENT_MESSAGE_CAP <= limit && libuvPending + CLIENT_MESSAGE_CAP <= limit;
    }

    method MaybeQueueResync(sv: Server)
      modifies this, slots
      ensures State() == MaybeResync(sv, old(State()))
    {
      if !active || !greeted || !needsResync || resyncQueued || pending != 0 {
        return;
      }
      var ok := QueueMessage(ResyncRequired(sv.changeSeq, sv.sampleTs), false);
      if !ok {
        Close();
        return;
      }
      resyncQueued := true;
      resyncs := resyncs + 1;
    }

    method TakeSnapshot(sv: Server)
      modifies this
      ensures State() == BeginSnapshot(sv, old(State()))
    {
      snap, paging := CopyOf(sv), Paging(0, 0, true, false, false);
      needsResync, resyncQueued := false, false;
    }

    method QueueFrameSnapshotChunk(sv: Server, start: nat) returns (ok: bool)
      modifies this, slots
      ensures Returned(ok, State()) == ServeFrames(sv, old(State()), start)
    {
      if start == 0 && !paging.active {
        TakeSnapshot(sv);
      }
      ghost var b := State();
      assert b == if start == 0 && !old(State()).snapActive then BeginSnapshot(sv, old(State())) else old(State());
      if !paging.active || paging.framesDone || start != paging.nextFrame || start >= |snap.frames| {
        return false;
      }
      var count := |snap.frames| - start;
      if count > FRAMES_PER_MESSAGE {
        count := FRAMES_PER_MESSAGE;
      }
      var m := SnapshotPage(snap.changeSeq, snap.ts,
                            FrameBatch(snap.sampleSeq, |snap.frames|, start, snap.frames[start..start + count]));
      assert m == FramePage(b.snap, start);
      ok := QueueMessage(m, false);
      if !ok {
        return;
      }
      var next := paging.nextFrame + count;
      paging := paging.(nextFrame := next, framesDone := next == |snap.frames|);
    }

    method QueueSignalSnapshotChunk(start: nat) returns (ok: bool)
      modifies this, slots
      ensures Returned(ok, State()) == ServeSignals(old(State()), start)
    {
      if !paging.active || !paging.framesDone || start != paging.nextSignal || start >= |snap.signals| {
        return false;
      }
      var count := |snap.signals| - start;
      if count > SIGNALS_PER_MESSAGE {
        count := SIGNALS_PER_MESSAGE;
      }
      var indices: seq<nat> := [];
      var i := 0;
      while i < count
        invariant 0 <= i <= count && |indices| == i
        invariant forall k :: 0 <= k < i ==> indices[k] == start + k
      {
        indices := indices + [start + i];
        i := i + 1;
      }
      assert indices == Upto(start, count);
      var batch := SignalBatch(snap.sampleSeq, |snap.signals|, start, PickSignals(snap.signals, indices));
      ok := QueueMessage(SignalPage(snap.changeSeq, snap.ts, batch), false);
      if !ok {
        return;
      }
      paging := paging.(nextSignal := paging.nextSignal + count);
      if paging.nextSignal == |snap.signals| {
        paging := paging.(active := false, done := true);
      }
    }

    /** `begin_catchup_round`: two scans for what differs, then a new copy. */
    method BeginCatchupRound(sv: Server)
      requires CopyShaped(sv, State())
      modifies this`round, this`snap
      ensures State() == BeginRound(sv, old(State()))
    {
      var frames, signals: seq<nat> := [], [];
      ghost var ff, sf := FrameFlags(snap.frames, sv.frames), SignalFlags(snap.signals, sv.signals);
      var i := 0;
      while i < |sv.frames|
        invariant 0 <= i <= |sv.frames| && frames == Marked(ff[..i])
      {
        if sv.frames[i].state != snap.frames[i].state || sv.frames[i].data != snap.frames[i].data {
          frames := frames + [i];
        }
        i := i + 1;
        assert ff[..i][..i - 1] == ff[..i - 1];
      }
      assert ff[..i] == ff;
      i := 0;
      while i < |sv.signals|
        invariant 0 <= i <= |sv.signals| && signals == Marked(sf[..i])
      {
        var a, b := sv.signals[i], snap.signals[i];
        if a.raw != b.raw || a.state != b.state || a.firstObserved != b.firstObserved || a.lastChange != b.lastChange {
          signals := signals + [i];
        }
        i := i + 1;
        assert sf[..i][..i - 1] == sf[..i - 1];
      }
      assert sf[..i] == sf;
      snap := snap.(frames := sv.frames, signals := sv.signals);
      round := Round(frames, 0, signals, 0, sv.sampleSeq, sv.changeSeq, sv.sampleTs);
    }

    method QueueRoundFrames() returns (ok: bool)
      requires RoundShaped(State()) && round.frameAt < |round.frames|
      modifies this, slots
      ensures Returned(ok, State()) == RoundStep(old(State()))
    {
      var count := |round.frames| - round.frameAt;
      if count > FRAMES_PER_MESSAGE {
        count := FRAMES_PER_MESSAGE;
      }
      var m := FrameDelta(snap.frames, round.frames[round.frameAt..round.frameAt + count],
                          round.sampleSeq, round.changeSeq, round.ts);
      assert m == RoundMessage(State());
      ok := QueueMessage(m, false);
      if ok {
        round := round.(frameAt := round.frameAt + count);
      }
    }

    method QueueRoundSignals() returns (ok: bool)
      requires RoundShaped(State()) && round.frameAt == |round.frames| && round.signalAt < |round.signals|
      modifies this, slots
      ensures Returned(ok, State()) == RoundStep(old(State()))
    {
      var count := |round.signals| - round.signalAt;
      if count > SIGNALS_PER_MESSAGE {
        count := SIGNALS_PER_MESSAGE;
      }
      var m := SignalDelta(snap.signals, round.signals[round.signalAt..round.signalAt + count],
                           round.sampleSeq, round.changeSeq, round.ts);
      assert m == RoundMessage(State());
      ok := QueueMessage(m, false);
      if ok {
        round := round.(signalAt := round.signalAt + count);
      }
    }

    method AnnounceSubscription(sv: Server) returns (ok: bool)
      modifies this, slots
      ensures Returned(ok, State()) == Announce(sv, old(State()))
    {
      ok := QueueMessage(Subscribed(sv.changeSeq, sv.sampleTs), false);
      if ok {
        catchup := false;
        subscribed := true;
        announced := announced + 1;
      }
    }

    /** One turn of the driver's loop. */
    method DriveOnce(sv: Server) returns (sent: bool)
      requires CopyShaped(sv, State()) && RoundShaped(State()) && active && catchup && HasCapacity(State())
      modifies this, slots
      ensures !sent ==> Drive(sv, old(State())) == Fail(State())
      ensures sent ==>
                && CopyShaped(sv, State()) && RoundShaped(State()) && Drive(sv, State()) == Drive(sv, old(State()))
                && (!catchup || FreeCount(slots[..]) < old(FreeCount(slots[..]))
                    || (&& FreeCount(slots[..]) == old(FreeCount(slots[..]))
                        && old(RoundDone(State())) && !RoundDone(State())))
    {
      sent := true;
      if round.frameAt < |round.frames| {
        sent := QueueRoundFrames();
      } else if round.signalAt < |round.signals| {
        sent := QueueRoundSignals();
      } else {
        BeginCatchupRound(sv);
        if round.frames == [] && round.signals == [] {
          sent := AnnounceSubscription(sv);
        }
      }
    }

    method DriveSubscriptionCatchup(sv: Server) returns (ok: bool)
      requires CopyShaped(sv, State()) && RoundShaped(State())
      modifies this, slots
      ensures Returned(ok, State()) == Drive(sv, old(State()))
    {
      var room := HasOutputCapacity();
      while active && catchup && room
        invariant CopyShaped(sv, State()) && RoundShaped(State()) && room == HasCapacity(State())
        invariant Drive(sv, State()) == Drive(sv, old(State()))
        decreases catchup, FreeCount(slots[..]), if RoundDone(State()) then 1 else 0
      {
        var sent := DriveOnce(sv);
        if !sent {
          return false;
        }
        room := HasOutputCapacity();
      }
      ok := true;
    }

    method QueueSubscriptionCatchup(sv: Server) returns (ok: bool)
      requires CopyShaped(sv, State())
      modifies this, slots
      ensures Returned(ok, State()) == Drive(sv, BeginRound(sv, old(State()).(catchup := true)))
    {
      catchup := true;
      BeginCatchupRound(sv);
      ok := DriveSubscriptionCatchup(sv);
    }

    method QueueSchemaChunk(cat: Catalog, sv: Server, start: nat) returns (ok: bool)
      requires GoodLayout(cat)
      modifies this, slots
      ensures Returned(ok, State()) == ServeSchema(cat, sv, old(State()), start)
    {
      if start >= |cat.defs| {
        return false;
      }
      var page := Schema.PageFrom(cat, start, PAYLOAD_CAP);
      if page.entries == [] {
        return false;
      }
      ok := QueueMessage(SchemaPage(sv.changeSeq, sv.sampleTs, page), false);
    }

    method ProcessCommand(cat: Catalog, setup: Setup, sv: Server, r: Request) returns (ok: bool)
      requires GoodLayout(cat) && (paging.done ==> CopyShaped(sv, State()))
      modifies this, slots
      ensures Returned(ok, State()) == Serve(cat, setup, sv, old(State()), r)
    {
      if r.Hello? {
        if greeted {
          return false;
        }
        ok := QueueMessage(Welcome(sv.changeSeq, sv.sampleTs, Greet(cat, setup)), false);
        if ok {
          greeted := true;
        }
        return;
      }
      if !greeted {
        return false;
      }
      match r
      case GetSnapshot(start) => ok := QueueFrameSnapshotChunk(sv, start);
      case SubscribeAll =>
        if needsResync || !paging.done {
          return false;
        }
        ok := QueueSubscriptionCatchup(sv);
      case Ping => ok := QueueMessage(Pong(sv.changeSeq, sv.sampleTs), false);
      case GetSchema(start) => ok := QueueSchemaChunk(cat, sv, start);
      case GetSignalSnapshot(start) => ok := QueueSignalSnapshotChunk(start);
    }

    /** `on_client_write` for slot k. */
    method OnWrite(sv: Server, k: nat, failed: bool)
      requires k < slots.Length && slots[k].Busy?
      requires catchup ==> CopyShaped(sv, State()) && RoundShaped(State())
      modifies this, slots
      ensures State() == if failed then Closed(FreeSlot(old(State()), k)) else Written(sv, old(State()), k)
    {
      if pending >= slots[k].length {
        pending := pending - slots[k].length;
      } else {
        pending := 0;
      }
      slots[k] := Free;
      assert State() == FreeSlot(old(State()), k);
      if failed {
        Close();
        return;
      }
      if catchup {
        var ok := DriveSubscriptionCatchup(sv);
        if !ok {
          Close();
          return;
        }
      }
      MaybeQueueResync(sv);
    }

    /** One list of prepared chunks, stopping at the first that does not fit. */
    method SendChunks(chunks: seq<Msg>)
      modifies this, slots
      ensures State() == SendAll(old(State()), chunks, 0)
    {
      var c := 0;
      while c < |chunks| && active && !needsResync
        invariant c <= |chunks| && SendAll(State(), chunks, c) == SendAll(old(State()), chunks, 0)
      {
        var ok := QueueMessage(chunks[c], true);
        if !ok {
          Close();
        }
        c := c + 1;
      }
    }

    /** This client's part of a broadcast. */
    method SendUpdates(frameChunks: seq<Msg>, signalChunks: seq<Msg>)
      modifies this, slots
      ensures State() == Updates(old(State()), frameChunks, signalChunks)
    {
      if !active || !subscribed || needsResync {
        return;
      }
      SendChunks(frameChunks);
      if !active || needsResync {
        return;
      }
      SendChunks(signalChunks);
    }

    method SendHeartbeat(sv: Server, milliHz: nat, sourceState: nat)
      modifies this, slots
      ensures State() == BeatTo(sv, old(State()), milliHz, sourceState)
    {
      if !active || !greeted || !subscribed || needsResync {
        return;
      }
      var ok := QueueMessage(BeatOf(sv, State(), milliHz, sourceState), true);
      if !ok {
        Close();
      }
    }
  }
}
