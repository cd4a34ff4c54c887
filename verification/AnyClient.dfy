/** A session whose client sends whatever it likes, whenever it likes: what the daemon keeps
    on its own side in every run. */
module AnyClient {
  import opened Types
  import opened Canonical
  import opened Protocol
  import opened Session
  import opened OutputQueue
  import Schema

  datatype Event =
    | Sampled(sample: Sample)
    | Beaten(milliHz: nat, sourceState: nat)
    | Asked(request: Request)
    | Wrote(slot: nat)
    | HungUp

  // ---- The invariant ----

  /** What holds also in the middle of a callback. */
  predicate Sound(setup: Setup, sv: Server, s: Session) {
    && QueueInv(setup, s)
    && (s.snapActive || s.snapDone ==> CopyShaped(sv, s))
    && (s.catchup ==> s.snapDone && RoundShaped(s))
    && (s.subscribed || s.needsResync || s.catchup ==> s.greeted)
  }

  /** Whatever the session still owes its client, a write is in flight whose completion will
      take it further. */
  predicate Alert(s: Session) {
    && (s.catchup ==> FreeCount(s.slots) == 0)
    && (s.needsResync && !s.resyncQueued ==> s.pending > 0)
  }

  predicate Kept(setup: Setup, sv: Server, s: Session) {
    s.active ==> Sound(setup, sv, s) && Alert(s)
  }

  predicate DeskInv(cat: Catalog, setup: Setup, d: Desk) {
    GoodLayout(cat) && Shaped(cat, d.sv) && Kept(setup, d.sv, d.s)
  }

  // ---- Queueing ----

  lemma FullIsPending(setup: Setup, s: Session)
    requires QueueInv(setup, s) && FreeCount(s.slots) == 0
    ensures s.pending > 0
  {
    BytesBound(s.slots);
  }

  /** A message that is queued or dropped leaves the session sound and alert. */
  lemma QueueKeeps(setup: Setup, sv: Server, s: Session, m: Msg, droppable: bool)
    requires Sound(setup, sv, s) && Alert(s) && s.active && Length(m) <= CLIENT_MESSAGE_CAP
    requires droppable ==> s.greeted
    ensures var o := Queue(s, m, droppable);
            && (droppable ==> o.Ok?)
            && (o.Ok? ==> o.s.active && o.s.greeted == s.greeted && Sound(setup, sv, o.s) && Alert(o.s))
            && (o.Ok? && !droppable ==> !s.catchup)
  {
    QueueSucceeds(setup, s, m, droppable);
    if FreeCount(s.slots) > 0 {
      SendKeepsQueue(setup, s, m);
    } else {
      FullIsPending(setup, s);
    }
  }

  lemma {:induction false} FramesKeep(setup: Setup, sv: Server, s: Session, idx: seq<nat>, at: nat)
    requires Kept(setup, sv, s) && s.greeted && InRange(idx, |sv.frames|) && at <= |idx|
    ensures var t := SendFrames(sv, s, idx, at); Kept(setup, sv, t) && t.active == s.active && t.greeted
    decreases |idx| - at
  {
    if at < |idx| && s.active && !s.needsResync {
      var w := Window(idx, at, FRAMES_PER_MESSAGE);
      QueueKeeps(setup, sv, s, FramesNow(sv, w), true);
      FramesKeep(setup, sv, Queue(s, FramesNow(sv, w), true).s, idx, at + |w|);
    }
  }

  lemma {:induction false} SignalsKeep(setup: Setup, sv: Server, s: Session, idx: seq<nat>, at: nat)
    requires Kept(setup, sv, s) && s.greeted && InRange(idx, |sv.signals|) && at <= |idx|
    ensures var t := SendSignals(sv, s, idx, at); Kept(setup, sv, t) && t.active == s.active && t.greeted
    decreases |idx| - at
  {
    if at < |idx| && s.active && !s.needsResync {
      var w := Window(idx, at, SIGNALS_PER_MESSAGE);
      QueueKeeps(setup, sv, s, SignalsNow(sv, w), true);
      SignalsKeep(setup, sv, Queue(s, SignalsNow(sv, w), true).s, idx, at + |w|);
    }
  }

  lemma ShareKeeps(setup: Setup, a: Server, b: Server, s: Session)
    requires |a.frames| == |b.frames| && |a.signals| == |b.signals| && Kept(setup, a, s)
    ensures Kept(setup, b, Shared(a, b, s)) && (s.active ==> Shared(a, b, s).active)
  {
    var frames, signals := Marked(FrameFlags(a.frames, b.frames)), Marked(SignalFlags(a.signals, b.signals));
    if s.active && s.subscribed {
      FramesKeep(setup, b, s, frames, 0);
      SignalsKeep(setup, b, SendFrames(b, s, frames, 0), signals, 0);
    }
  }

  lemma BeatKeeps(setup: Setup, sv: Server, s: Session, milliHz: nat, sourceState: nat)
    requires Kept(setup, sv, s)
    ensures var t := BeatTo(sv, s, milliHz, sourceState); Kept(setup, sv, t) && (s.active ==> t.active)
  {
    if s.active && s.greeted { QueueKeeps(setup, sv, s, BeatOf(sv, s, milliHz, sourceState), true); }
  }

  // ---- Catch-up ----

  lemma BatchKeeps(setup: Setup, sv: Server, s: Session) returns (t: Session)
    requires Sound(setup, sv, s) && s.active && s.catchup && FreeCount(s.slots) > 0 && !RoundDone(s)
    ensures RoundStep(s) == Ok(t) && t.active && t.catchup && Sound(setup, sv, t) && t.needsResync == s.needsResync
    ensures FreeCount(t.slots) < FreeCount(s.slots)
  {
    t := BatchQueued(setup, s);
  }

  lemma AnnounceKeeps(setup: Setup, sv: Server, s: Session) returns (t: Session)
    requires Sound(setup, sv, s) && s.active && s.catchup && FreeCount(s.slots) > 0
    ensures Announce(sv, s) == Ok(t) && t.active && !t.catchup && Sound(setup, sv, t) && t.needsResync == s.needsResync
    ensures FreeCount(t.slots) < FreeCount(s.slots)
  {
    var m := Subscribed(sv.changeSeq, sv.sampleTs);
    QueueSucceeds(setup, s, m, false);
    SendKeepsQueue(setup, s, m);
    t := Announce(sv, s).s;
  }

  /** One turn of the driver with room in the queue. */
  lemma TurnKeeps(setup: Setup, sv: Server, s: Session) returns (t: Session, last: bool)
    requires Sound(setup, sv, s) && s.active && s.catchup && FreeCount(s.slots) > 0
    ensures t.active && Sound(setup, sv, t) && t.needsResync == s.needsResync
    ensures if last then Drive(sv, s) == Ok(t) && !t.catchup
            else t.catchup && Drive(sv, s) == Drive(sv, t)
    ensures || FreeCount(t.slots) < FreeCount(s.slots)
            || (FreeCount(t.slots) == FreeCount(s.slots) && RoundDone(s) && !RoundDone(t))
  {
    RoomIsASlot(setup, s, 0, 0);
    if !RoundDone(s) {
      t := BatchKeeps(setup, sv, s);
      last := false;
    } else {
      t := BeginRound(sv, s);
      last := RoundDone(t);
      if last { t := AnnounceKeeps(setup, sv, t); }
    }
  }

  /** The driver never fails, and stops when the client is subscribed or the queue is full. */
  lemma {:induction false} DriveIsSound(setup: Setup, sv: Server, s: Session)
    requires Sound(setup, sv, s) && s.active && s.catchup
    ensures var o := Drive(sv, s);
            && o.Ok? && o.s.active && Sound(setup, sv, o.s) && o.s.needsResync == s.needsResync
            && (o.s.catchup ==> FreeCount(o.s.slots) == 0)
    decreases FreeCount(s.slots), if RoundDone(s) then 1 else 0
  {
    RoomIsASlot(setup, s, 0, 0);
    if FreeCount(s.slots) > 0 {
      var t, last := TurnKeeps(setup, sv, s);
      if !last { DriveIsSound(setup, sv, t); }
    }
  }

  // ---- Commands ----

  lemma SubscribeKeeps(setup: Setup, sv: Server, s: Session)
    requires Kept(setup, sv, s) && s.active && s.greeted
    ensures s.snapDone ==> CopyShaped(sv, s)
    ensures Kept(setup, sv, OrClose(ServeSubscribe(sv, s)))
  {
    if s.snapDone && !s.needsResync { DriveIsSound(setup, sv, BeginRound(sv, s.(catchup := true))); }
  }

  lemma FramePageKeeps(setup: Setup, sv: Server, s: Session, start: nat)
    requires Kept(setup, sv, s) && s.active
    ensures Kept(setup, sv, OrClose(ServeFrames(sv, s, start)))
  {
    var b := if start == 0 && !s.snapActive then BeginSnapshot(sv, s) else s;
    if start < |b.snap.frames| {
      var m := FramePage(b.snap, start);
      assert Length(m) <= CLIENT_MESSAGE_CAP;
      if FreeCount(s.slots) > 0 {
        QueueKeeps(setup, sv, b, m, false);
      } else {
        QueueSucceeds(setup, b, m, false);
      }
    }
  }

  lemma SignalPageKeeps(setup: Setup, sv: Server, s: Session, start: nat)
    requires Kept(setup, sv, s) && s.active
    ensures Kept(setup, sv, OrClose(ServeSignals(s, start)))
  {
    if start < |s.snap.signals| {
      var m := SignalsPage(s.snap, start);
      assert Length(m) <= CLIENT_MESSAGE_CAP;
      QueueKeeps(setup, sv, s, m, false);
    }
  }

  lemma SinglesKeep(cat: Catalog, setup: Setup, sv: Server, s: Session, r: Request)
    requires GoodLayout(cat) && Kept(setup, sv, s) && s.active && (r.Hello? || r.Ping? || r.GetSchema?)
    ensures s.snapDone ==> CopyShaped(sv, s)
    ensures Kept(setup, sv, OrClose(Serve(cat, setup, sv, s, r)))
  {
    match r
    case Hello => QueueKeeps(setup, sv, s, Welcome(sv.changeSeq, sv.sampleTs, Greet(cat, setup)), false);
    case Ping => QueueKeeps(setup, sv, s, Pong(sv.changeSeq, sv.sampleTs), false);
    case GetSchema(start) =>
      if start < |cat.defs| {
        Schema.PageSize(cat, start);
        var m := SchemaPage(sv.changeSeq, sv.sampleTs, Schema.PageFrom(cat, start, PAYLOAD_CAP));
        QueueKeeps(setup, sv, s, m, false);
      }
  }

  lemma CommandKeeps(cat: Catalog, setup: Setup, sv: Server, s: Session, r: Request)
    requires GoodLayout(cat) && Kept(setup, sv, s) && s.active
    ensures s.snapDone ==> CopyShaped(sv, s)
    ensures Kept(setup, sv, OrClose(Serve(cat, setup, sv, s, r)))
  {
    match r
    case GetSnapshot(start) => FramePageKeeps(setup, sv, s, start);
    case GetSignalSnapshot(start) => SignalPageKeeps(setup, sv, s, start);
    case SubscribeAll => if s.greeted { SubscribeKeeps(setup, sv, s); }
    case _ => SinglesKeep(cat, setup, sv, s, r);
  }

  // ---- Write completions ----

  lemma ResyncKeeps(setup: Setup, sv: Server, s: Session)
    requires Sound(setup, sv, s) && s.active && (s.catchup ==> FreeCount(s.slots) == 0)
    ensures Sound(setup, sv, MaybeResync(sv, s)) && Alert(MaybeResync(sv, s)) && MaybeResync(sv, s).active
  {
    if s.needsResync && !s.resyncQueued && s.pending == 0 {
      var m := ResyncRequired(sv.changeSeq, sv.sampleTs);
      BytesBound(s.slots);
      QueueSucceeds(setup, s, m, false);
      SendKeepsQueue(setup, s, m);
    }
  }

  lemma SlotFreedKeeps(setup: Setup, sv: Server, s: Session, k: nat)
    requires Sound(setup, sv, s) && k < |s.slots| && s.slots[k].Busy?
    ensures Sound(setup, sv, FreeSlot(s, k)) && FreeSlot(s, k).active == s.active
  {
    EmptySlot(s.slots, k);
  }

  /** A completed write never closes the session. */
  lemma WriteKeeps(setup: Setup, sv: Server, s: Session, k: nat)
    requires Kept(setup, sv, s) && s.active && k < |s.slots| && s.slots[k].Busy?
    ensures s.catchup ==> CopyShaped(sv, s) && RoundShaped(s)
    ensures Kept(setup, sv, Written(sv, s, k)) && Written(sv, s, k).active
  {
    SlotFreedKeeps(setup, sv, s, k);
    var f := FreeSlot(s, k);
    if s.catchup {
      DriveIsSound(setup, sv, f);
      ResyncKeeps(setup, sv, Drive(sv, f).s);
    } else {
      ResyncKeeps(setup, sv, f);
    }
  }

  // ---- Every run ----

  /** One event, where it is possible; otherwise nothing happens. */
  function Next(cat: Catalog, setup: Setup, d: Desk, event: Event): Desk
    requires DeskInv(cat, setup, d)
  {
    match event
    case Sampled(sample) =>
      if GoodFrames(cat, sample.frames)
      then var sv := Absorb(cat, d.sv, sample); Desk(sv, Shared(d.sv, sv, d.s))
      else d
    case Beaten(milliHz, sourceState) => d.(s := BeatTo(d.sv, d.s, milliHz, sourceState))
    case Asked(r) => if d.s.active then d.(s := OrClose(Serve(cat, setup, d.sv, d.s, r))) else d
    case Wrote(k) =>
      if d.s.active && k < |d.s.slots| && d.s.slots[k].Busy? then d.(s := Written(d.sv, d.s, k)) else d
    case HungUp => d.(s := Closed(d.s))
  }

  lemma NextKeepsInv(cat: Catalog, setup: Setup, d: Desk, event: Event)
    requires DeskInv(cat, setup, d)
    ensures DeskInv(cat, setup, Next(cat, setup, d, event))
  {
    match event
    case Sampled(sample) =>
      if GoodFrames(cat, sample.frames) { ShareKeeps(setup, d.sv, Absorb(cat, d.sv, sample), d.s); }
    case Beaten(milliHz, sourceState) => BeatKeeps(setup, d.sv, d.s, milliHz, sourceState);
    case Asked(r) => if d.s.active { CommandKeeps(cat, setup, d.sv, d.s, r); }
    case Wrote(k) =>
      if d.s.active && k < |d.s.slots| && d.s.slots[k].Busy? { WriteKeeps(setup, d.sv, d.s, k); }
    case HungUp =>
  }

  /** A new connection. */
  function Opened(cat: Catalog, setup: Setup, sv: Server): (d: Desk)
    requires GoodLayout(cat) && Shaped(cat, sv) && setup.slots >= 1
    ensures DeskInv(cat, setup, d)
  {
    AllFree(setup.slots);
    Desk(sv, Connected(setup))
  }

  function Served(cat: Catalog, setup: Setup, d: Desk, events: seq<Event>): (x: Desk)
    requires DeskInv(cat, setup, d)
    ensures DeskInv(cat, setup, x)
    decreases |events|
  {
    if events == [] then d
    else
      NextKeepsInv(cat, setup, d, events[0]);
      Served(cat, setup, Next(cat, setup, d, events[0]), events[1..])
  }

  /** In every run of every client the byte count is exact, a command is accepted if and only if
      it is in order and, unless it is SUBSCRIBE_ALL, a slot is free, a completed write never
      ends the session, and an unfinished catch-up or an owed resync has a write in flight. */
  lemma EveryClient(cat: Catalog, setup: Setup, sv: Server, events: seq<Event>, r: Request, k: nat)
    requires GoodLayout(cat) && Shaped(cat, sv) && setup.slots >= 1
    requires Served(cat, setup, Opened(cat, setup, sv), events).s.active
    ensures var d := Served(cat, setup, Opened(cat, setup, sv), events);
            && d.s.pending == BusyBytes(d.s.slots) && (d.s.snapDone ==> CopyShaped(d.sv, d.s))
            && (d.s.catchup || (d.s.needsResync && !d.s.resyncQueued) ==> FreeCount(d.s.slots) < |d.s.slots|)
            && var o := Serve(cat, setup, d.sv, d.s, r);
            && (o.Ok? <==> InOrder(cat, d.sv, d.s, r) && (r.SubscribeAll? || FreeCount(d.s.slots) > 0))
            && (o.Fail? ==> o.s.stream == d.s.stream)
    ensures var d := Served(cat, setup, Opened(cat, setup, sv), events);
            Next(cat, setup, d, Wrote(k)).s.active
  {
    var d := Served(cat, setup, Opened(cat, setup, sv), events);
    CommandsInOrder(cat, setup, d.sv, d.s, r);
    BytesBound(d.s.slots);
    if k < |d.s.slots| && d.s.slots[k].Busy? { WriteKeeps(setup, d.sv, d.s, k); }
  }
}
