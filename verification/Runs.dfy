/** What the system promises in every run: any interleaving of samples, distributions,
    heartbeats, requests, write completions, reads, connections and disconnections. */
module Runs {
  import opened Types
  import opened Canonical
  import opened Protocol
  import opened Session
  import opened Peer
  import opened Agreement
  import opened OutputQueue
  import opened Replication
  import opened World
  import opened Snapshots
  import Bits
  import OnTheWire
  import Progress
  import Sampler
  import Source
  import Schema

  /** A way to start the daemon: catalog, settings, the first read and the clocks at that
      time, and the number of client places. */
  datatype Start = Start(cat: Catalog, setup: Setup, visit: Source.Visit, now: nat, ts: nat, places: nat)

  predicate GoodStart(b: Start) {
    GoodCatalog(b.cat) && Source.GoodVisit(b.cat, b.visit) && b.ts > 0 && b.setup.slots >= 1
  }

  /** The state after a run. */
  function Reached(b: Start, run: seq<Label>): (w: World)
    requires GoodStart(b)
    ensures Inv(w)
  {
    BootInv(b.cat, b.setup, b.visit, b.now, b.ts, b.places);
    Exec(Boot(b.cat, b.setup, b.visit, b.now, b.ts, b.places), run)
  }

  /** The client of link i once it has read all that is in flight. */
  function Settled(w: World, i: nat): (p: Peer)
    requires Inv(w) && i < |w.links|
    ensures Deliver(w.links[i].peer, w.links[i].session.stream) == Some(p)
  {
    assert LinkOk(w.env, w.links[i]);
    Deliver(w.links[i].peer, w.links[i].session.stream).value
  }

  // ---- Agreement ----

  /** Replica convergence: once a subscribed client has read what is in flight, its readers
      find, under every identifier, the canonical frame, and every signal is equal. */
  lemma ReplicaConvergence(b: Start, run: seq<Label>, i: nat)
    requires GoodStart(b) && i < |Reached(b, run).links|
    requires Reached(b, run).links[i].session.active && Reached(b, run).links[i].session.subscribed
    ensures var w := Reached(b, run);
            var p := Settled(w, i);
            && p.phase.Live? && p.cache.changeSeq == w.env.sv.changeSeq
            && |w.env.sv.frames| == |w.env.cat.canIds|
            && (forall k :: 0 <= k < |w.env.cat.canIds| ==>
                  && ReadFrame(p, w.env.cat.canIds[k]).Some?
                  && SameFrame(ReadFrame(p, w.env.cat.canIds[k]).value, w.env.sv.frames[k]))
            && p.cache.signals == w.env.sv.signals
  {
    var w := Reached(b, run);
    assert LinkOk(w.env, w.links[i]);
    var p := Settled(w, i);
    forall k | 0 <= k < |w.env.cat.canIds|
      ensures ReadFrame(p, w.env.cat.canIds[k]).Some?
      ensures SameFrame(ReadFrame(p, w.env.cat.canIds[k]).value, w.env.sv.frames[k])
    {
      assert p.lookup[w.env.cat.canIds[k]] == k;
    }
  }

  /** While a client catches up, its view matches the daemon's copy everywhere but at the
      entries the current round has not sent yet. */
  lemma CatchupAgreement(b: Start, run: seq<Label>, i: nat)
    requires GoodStart(b) && i < |Reached(b, run).links|
    requires Reached(b, run).links[i].session.active && Reached(b, run).links[i].session.catchup
    ensures var s, p := Reached(b, run).links[i].session, Settled(Reached(b, run), i);
            && RoundShaped(s) && p.phase.Subscribing?
            && FramesMatch(p.sync.frames, s.snap.frames, s.round.frames[s.round.frameAt..])
            && SignalsMatch(p.sync.signals, s.snap.signals, s.round.signals[s.round.signalAt..])
  {
    var w := Reached(b, run);
    assert LinkOk(w.env, w.links[i]);
  }

  // ---- Conformance ----

  /** The reference client never meets a message it rejects, and none while it waits for
      the daemon to take a request. */
  lemma SessionConformance(b: Start, run: seq<Label>, i: nat)
    requires GoodStart(b) && i < |Reached(b, run).links| && Reached(b, run).links[i].session.stream != []
    ensures var l := Reached(b, run).links[i];
            && l.peer.requests == [] && Receive(l.peer, l.session.stream[0]).Some?
            && Orderly(l.peer, Receive(l.peer, l.session.stream[0]).value)
  {
    var w := Reached(b, run);
    assert LinkOk(w.env, w.links[i]);
    ReceptionKeeps(w.env, w.links[i].session, w.links[i].peer);
  }

  /** Before a client is subscribed nothing is sent that it is not waiting for. Samples and
      heartbeats add nothing to its stream. A completed write adds nothing while the daemon
      owes an answer to a request; in catch-up it adds batches of a round, and SUBSCRIBED after
      the last; after a drop it adds RESYNC_REQUIRED at most, and nothing after that. */
  lemma NothingUnsolicited(b: Start, run: seq<Label>, i: nat, l: Label) returns (tail: seq<Msg>)
    requires GoodStart(b) && i < |Reached(b, run).links|
    requires Reached(b, run).links[i].session.active && !Reached(b, run).links[i].session.subscribed
    requires l.Publish? || l.Distribute? || l.HeartbeatTick? || l.WriteDone?
    ensures i < |Step(Reached(b, run), l).links|
    ensures var w := Reached(b, run);
            var s := w.links[i].session;
            && Step(w, l).links[i].session.stream == s.stream + tail
            && (!l.WriteDone? || Settled(w, i).requests != [] ==> tail == [])
            && (tail != [] ==>
                  || (s.catchup && RoundTail(tail))
                  || (s.needsResync && !s.resyncQueued && |tail| == 1 && tail[0].ResyncRequired?))
  {
    tail := QuietStep(Reached(b, run), i, l);
  }

  lemma AwaitsAnswer(e: Env, l: Link)
    requires GoodEnv(e) && LinkOk(e, l) && l.session.active
    requires Deliver(l.peer, l.session.stream).value.requests != []
    ensures !l.session.catchup && l.session.needsResync == l.session.resyncQueued
  {
  }

  /** Batches of updates, and SUBSCRIBED at most at the end. */
  predicate RoundTail(tail: seq<Msg>) {
    forall k :: 0 <= k < |tail| ==>
      tail[k].FrameUpdates? || tail[k].SignalUpdates? || (tail[k].Subscribed? && k == |tail| - 1)
  }

  lemma QueueAppends(s: Session, m: Msg) returns (tail: seq<Msg>)
    ensures Queue(s, m, false).s.stream == s.stream + tail && (tail == [] || tail == [m])
  {
    tail := [];
    if HasRoom(s, Length(m)) && s.active && Length(m) <= CLIENT_MESSAGE_CAP {
      tail := [m];
      assert Send(s, m).stream == s.stream + [m];
    }
  }

  lemma TurnAppends(sv: Server, s: Session) returns (o: Outcome, last: bool, tail: seq<Msg>)
    requires CopyShaped(sv, s) && RoundShaped(s) && s.active && s.catchup && HasCapacity(s)
    ensures o.s.stream == s.stream + tail && |tail| <= 1 && RoundTail(tail)
    ensures !last ==> tail == [] || !tail[0].Subscribed?
    ensures if last then Drive(sv, s) == o
            else && CopyShaped(sv, o.s) && RoundShaped(o.s) && Drive(sv, s) == Drive(sv, o.s)
                 && (FreeCount(o.s.slots) < FreeCount(s.slots)
                     || (FreeCount(o.s.slots) == FreeCount(s.slots) && RoundDone(s) && !RoundDone(o.s)))
  {
    if !RoundDone(s) {
      o := RoundStep(s);
      last := o.Fail?;
      tail := QueueAppends(s, RoundMessage(s));
    } else {
      var b := BeginRound(sv, s);
      last := RoundDone(b);
      o := if last then Announce(sv, b) else Ok(b);
      tail := [];
      if last { tail := QueueAppends(b, Subscribed(sv.changeSeq, sv.sampleTs)); }
    }
  }

  lemma TailsJoin(stream: seq<Msg>, head: seq<Msg>, rest: seq<Msg>)
    requires |head| <= 1 && RoundTail(head) && (head == [] || !head[0].Subscribed?) && RoundTail(rest)
    ensures stream + (head + rest) == (stream + head) + rest && RoundTail(head + rest)
  {
  }

  lemma {:induction false} DriveAppends(sv: Server, s: Session) returns (tail: seq<Msg>)
    requires CopyShaped(sv, s) && RoundShaped(s)
    ensures Drive(sv, s).s.stream == s.stream + tail && RoundTail(tail)
    decreases FreeCount(s.slots), if RoundDone(s) then 1 else 0
  {
    tail := [];
    if s.active && s.catchup && HasCapacity(s) {
      var o, last, head := TurnAppends(sv, s);
      tail := head;
      if !last {
        var rest := DriveAppends(sv, o.s);
        tail := head + rest;
        TailsJoin(s.stream, head, rest);
      }
    }
  }

  lemma WriteAppends(e: Env, l: Link, k: nat) returns (tail: seq<Msg>)
    requires GoodEnv(e) && LinkOk(e, l) && l.session.active
    ensures var s := l.session;
            && Completed(e, l, k).session.stream == s.stream + tail
            && (tail != [] ==>
                  || (s.catchup && RoundTail(tail))
                  || (!s.catchup && s.needsResync && !s.resyncQueued && |tail| == 1 && tail[0].ResyncRequired?))
  {
    var s := l.session;
    tail := [];
    if k < |s.slots| && s.slots[k].Busy? {
      SlotFreed(e, s, Deliver(l.peer, s.stream).value, k);
      var f := FreeSlot(s, k);
      if s.catchup {
        tail := DriveAppends(e.sv, f);
        DriveKeeps(e, f, l.peer);
      } else if f.greeted && f.needsResync && !f.resyncQueued && f.pending == 0 {
        tail := QueueAppends(f, ResyncRequired(e.sv.changeSeq, e.sv.sampleTs));
      }
    }
  }

  lemma QuietStep(w: World, i: nat, l: Label) returns (tail: seq<Msg>)
    requires Inv(w) && i < |w.links| && w.links[i].session.active && !w.links[i].session.subscribed
    requires l.Publish? || l.Distribute? || l.HeartbeatTick? || l.WriteDone?
    ensures i < |Step(w, l).links|
    ensures var s := w.links[i].session;
            && Step(w, l).links[i].session.stream == s.stream + tail
            && (!l.WriteDone? || Settled(w, i).requests != [] ==> tail == [])
            && (tail != [] ==>
                  || (s.catchup && RoundTail(tail))
                  || (s.needsResync && !s.resyncQueued && |tail| == 1 && tail[0].ResyncRequired?))
  {
    assert LinkOk(w.env, w.links[i]);
    var s := w.links[i].session;
    if Settled(w, i).requests != [] { AwaitsAnswer(w.env, w.links[i]); }
    tail := [];
    if l.WriteDone? && l.i == i {
      tail := WriteAppends(w.env, w.links[i], l.slot);
    }
    assert s.stream + [] == s.stream;
  }

  /** A queued RESYNC_REQUIRED means that the client will next ask for a snapshot. */
  lemma ResyncIsAnsweredBySnapshot(b: Start, run: seq<Label>, i: nat)
    requires GoodStart(b) && i < |Reached(b, run).links|
    requires Reached(b, run).links[i].session.active && Reached(b, run).links[i].session.resyncQueued
    ensures Settled(Reached(b, run), i).requests == [GetSnapshot(0)]
  {
    var w := Reached(b, run);
    assert LinkOk(w.env, w.links[i]);
  }

  // ---- Progress and accounting ----

  /** No lost wake-up, and exact accounting of drops, resyncs, subscriptions and bytes. */
  lemma NoLostWakeup(b: Start, run: seq<Label>, i: nat)
    requires GoodStart(b) && i < |Reached(b, run).links| && Reached(b, run).links[i].session.active
    ensures var s := Reached(b, run).links[i].session;
            && (s.catchup || (s.needsResync && !s.resyncQueued) ==> FreeCount(s.slots) < |s.slots|)
            && s.announced == s.dropped + (if s.subscribed then 1 else 0)
            && s.resyncs == s.dropped - (if s.needsResync && !s.resyncQueued then 1 else 0)
            && s.pending == BusyBytes(s.slots)
            && forall k :: 0 <= k < |s.slots| && s.slots[k].Busy? ==> s.slots[k].length <= s.pending
  {
    var w := Reached(b, run);
    assert LinkOk(w.env, w.links[i]);
    var s := w.links[i].session;
    BytesBound(s.slots);
    forall k | 0 <= k < |s.slots| && s.slots[k].Busy?
      ensures s.slots[k].length <= s.pending
    {
      EmptySlot(s.slots, k);
    }
  }

  /** With the default queue no run drops an update, or the heartbeat right after it, of a
      subscriber whose queue was empty, whatever the sample. */
  lemma DefaultQueueNeverDrops(b: Start, run: seq<Label>, i: nat, milliHz: nat, sourceState: nat)
    requires GoodStart(b) && b.setup.slots == DefaultSlots(b.cat)
    requires i < |Reached(b, run).links|
    requires var s := Reached(b, run).links[i].session; s.active && s.subscribed && s.pending == 0
    ensures var w := Reached(b, run);
            Inv(Step(w, Distribute)) &&
            var x := Step(Step(w, Distribute), HeartbeatTick(milliHz, sourceState));
            && i < |x.links| && x.links[i].session.subscribed
            && x.links[i].session.dropped == w.links[i].session.dropped
  {
    var w := Reached(b, run);
    SameSettings(b, run);
    StepKeepsInv(w, Distribute);
    var y := Step(w, Distribute);
    assert LinkOk(w.env, w.links[i]);
    SubscriberIsReady(w.env, w.links[i].session, Settled(w, i));
    UpdateThenBeat(w, y, i, milliHz, sourceState);
    DefaultQueueSuffices(w.env.cat, w.env.setup, w.env.sv, y.env.sv, w.links[i].session, milliHz, sourceState);
  }

  /** What a distribution and a heartbeat after it do to one session. */
  lemma UpdateThenBeat(w: World, y: World, i: nat, milliHz: nat, sourceState: nat)
    requires Inv(w) && y == Step(w, Distribute) && Inv(y) && i < |w.links|
    ensures Shaped(w.env.cat, w.env.sv) && Shaped(w.env.cat, y.env.sv)
    ensures var x := Step(y, HeartbeatTick(milliHz, sourceState));
            && i < |x.links|
            && x.links[i].session ==
               BeatTo(y.env.sv, Shared(w.env.sv, y.env.sv, w.links[i].session), milliHz, sourceState)
  {
  }

  lemma SubscriberIsReady(e: Env, s: Session, p: Peer)
    requires GoodEnv(e) && Core(e, s, p) && s.active && s.subscribed
    ensures Ready(e.setup, s)
  {
  }

  /** A run never changes the catalog, the settings or the number of client places. */
  lemma SameSettings(b: Start, run: seq<Label>)
    requires GoodStart(b)
    ensures Reached(b, run).env.cat == b.cat && Reached(b, run).env.setup == b.setup
    ensures |Reached(b, run).links| == b.places
  {
    BootInv(b.cat, b.setup, b.visit, b.now, b.ts, b.places);
    SettingsStay(Boot(b.cat, b.setup, b.visit, b.now, b.ts, b.places), run);
  }

  lemma {:induction false} SettingsStay(w: World, run: seq<Label>)
    requires Inv(w)
    ensures Exec(w, run).env.cat == w.env.cat && Exec(w, run).env.setup == w.env.setup
    ensures |Exec(w, run).links| == |w.links|
    decreases |run|
  {
    if run != [] {
      StepKeepsInv(w, run[0]);
      SettingsStay(Step(w, run[0]), run[1..]);
    }
  }

  /** When the daemon hangs up on the client: when it takes a request other than SUBSCRIBE_ALL and
      no slot is free for the answer. Nothing else ends a session, but for a disconnection. */
  lemma HangsUpExactly(b: Start, run: seq<Label>, i: nat, l: Label)
    requires GoodStart(b) && i < |Reached(b, run).links| && Reached(b, run).links[i].session.active
    ensures i < |Step(Reached(b, run), l).links|
    ensures !Step(Reached(b, run), l).links[i].session.active <==>
            || Unanswerable(Reached(b, run).links[i], l, i)
            || (l.Disconnect? && l.i == i && l.keep <= |Reached(b, run).links[i].session.stream|)
  {
    HangsUpStep(Reached(b, run), i, l);
  }

  lemma HangsUpStep(w: World, i: nat, l: Label)
    requires Inv(w) && i < |w.links| && w.links[i].session.active
    ensures i < |Step(w, l).links|
    ensures !Step(w, l).links[i].session.active <==>
            || Unanswerable(w.links[i], l, i)
            || (l.Disconnect? && l.i == i && l.keep <= |w.links[i].session.stream|)
  {
    assert LinkOk(w.env, w.links[i]);
    if l.Distribute? || l.HeartbeatTick? {
      BroadcastGoesOn(w, i, l);
    } else if l == TakeRequest(i) {
      AnswersExactly(w.env, w.links[i], i);
    } else if l.WriteDone? && l.i == i {
      WriteGoesOn(w.env, w.links[i], l.slot);
    } else if l == ClientReads(i) {
      ReadOnlyTakes(w.env, w.links[i]);
    }
  }

  /** No sample and no heartbeat ends a session. */
  lemma BroadcastGoesOn(w: World, i: nat, l: Label)
    requires Inv(w) && i < |w.links| && w.links[i].session.active && (l.Distribute? || l.HeartbeatTick?)
    ensures i < |Step(w, l).links| && Step(w, l).links[i].session.active
  {
    var s, peer := w.links[i].session, w.links[i].peer;
    assert LinkOk(w.env, w.links[i]);
    if l.HeartbeatTick? {
      BeatSent(w.env, s, peer, l.milliHz, l.sourceState);
    } else if w.sampler.published.sequence > w.env.sv.sampleSeq {
      DistributionKeeps(w.env, w.sampler.published, s, peer);
    }
  }

  predicate Unanswerable(l: Link, a: Label, i: nat) {
    && a == TakeRequest(i) && l.peer.requests != [] && l.peer.requests != [SubscribeAll]
    && FreeCount(l.session.slots) == 0
  }

  lemma AnswersExactly(e: Env, l: Link, i: nat)
    requires GoodEnv(e) && LinkOk(e, l) && l.session.active
    ensures !RequestTaken(e, l).session.active <==> Unanswerable(l, TakeRequest(i), i)
  {
    var s, p := l.session, l.peer;
    if p.requests != [] {
      Dispatch(e, s, p);
      if p.phase.Subscribing? {
        SubscribeServed(e, s, p);
      } else if FreeCount(s.slots) > 0 {
        Progress.RequestAdvances(e, s, p);
      } else {
        CommandsInOrder(e.cat, e.setup, e.sv, s, p.requests[0]);
      }
    }
  }

  lemma WriteGoesOn(e: Env, l: Link, k: nat)
    requires GoodEnv(e) && LinkOk(e, l) && l.session.active
    ensures Completed(e, l, k).session.active
  {
    if k < |l.session.slots| && l.session.slots[k].Busy? { WriteCompleted(e, l.session, l.peer, k); }
  }

  /** RESYNC_REQUIRED is queued by a completed write only, and on an empty queue only: it is then
      the one write in flight. */
  lemma ResyncFindsQueueEmpty(b: Start, run: seq<Label>, i: nat, l: Label)
    requires GoodStart(b) && i < |Reached(b, run).links| && i < |Step(Reached(b, run), l).links|
    requires Step(Reached(b, run), l).links[i].session.resyncs > Reached(b, run).links[i].session.resyncs
    ensures l.WriteDone? && l.i == i
    ensures var s := Step(Reached(b, run), l).links[i].session;
            s.active && s.resyncQueued && FreeCount(s.slots) == |s.slots| - 1
  {
    var w := Reached(b, run);
    assert LinkOk(w.env, w.links[i]);
    if l.WriteDone? && l.i == i {
      ResyncOnWrite(w.env, w.links[i], l.slot);
    } else {
      OthersSendNoResync(w, l, i);
    }
  }

  lemma OthersSendNoResync(w: World, l: Label, i: nat)
    requires Inv(w) && i < |w.links| && (l.WriteDone? ==> l.i != i)
    ensures i < |Step(w, l).links| && Step(w, l).links[i].session.resyncs <= w.links[i].session.resyncs
  {
    var s := w.links[i].session;
    match l
    case Distribute =>
      if w.sampler.published.sequence > w.env.sv.sampleSeq { SharedOnlySent(w.env.sv, Step(w, l).env.sv, s); }
    case HeartbeatTick(milliHz, sourceState) => BeatOnlySent(w.env.sv, s, milliHz, sourceState);
    case TakeRequest(_) =>
      assert LinkOk(w.env, w.links[i]);
      RequestSendsNoResync(w.env, w.links[i]);
    case ClientReads(_) =>
      assert LinkOk(w.env, w.links[i]);
      ReadOnlyTakes(w.env, w.links[i]);
    case _ =>
  }

  lemma ReadOnlyTakes(e: Env, l: Link)
    requires GoodEnv(e) && LinkOk(e, l)
    ensures Read(e, l).session.resyncs == l.session.resyncs && Read(e, l).session.active == l.session.active
  {
  }

  lemma RequestSendsNoResync(e: Env, l: Link)
    requires GoodEnv(e) && LinkOk(e, l)
    ensures RequestTaken(e, l).session.resyncs == l.session.resyncs
  {
    var s, p := l.session, l.peer;
    if s.active && p.requests != [] {
      Dispatch(e, s, p);
      if p.phase.Subscribing? {
        DriveSendsNoResync(e.sv, BeginRound(e.sv, s.(catchup := true)));
      } else {
        ServeKeepsCatchup(e.cat, e.setup, e.sv, s, p.requests[0]);
      }
    }
  }

  lemma TurnSendsNoResync(sv: Server, s: Session) returns (o: Outcome, last: bool)
    requires CopyShaped(sv, s) && RoundShaped(s) && s.active && s.catchup && HasCapacity(s)
    ensures o.s.resyncs == s.resyncs && o.s.needsResync == s.needsResync
    ensures if last then Drive(sv, s) == o
            else && CopyShaped(sv, o.s) && RoundShaped(o.s) && Drive(sv, s) == Drive(sv, o.s)
                 && (FreeCount(o.s.slots) < FreeCount(s.slots)
                     || (FreeCount(o.s.slots) == FreeCount(s.slots) && RoundDone(s) && !RoundDone(o.s)))
  {
    if !RoundDone(s) {
      o := RoundStep(s);
      last := o.Fail?;
    } else {
      var b := BeginRound(sv, s);
      last := RoundDone(b);
      o := if last then Announce(sv, b) else Ok(b);
    }
  }

  lemma {:induction false} DriveSendsNoResync(sv: Server, s: Session)
    requires CopyShaped(sv, s) && RoundShaped(s)
    ensures Drive(sv, s).s.resyncs == s.resyncs && Drive(sv, s).s.needsResync == s.needsResync
    decreases FreeCount(s.slots), if RoundDone(s) then 1 else 0
  {
    if s.active && s.catchup && HasCapacity(s) {
      var o, last := TurnSendsNoResync(sv, s);
      if !last { DriveSendsNoResync(sv, o.s); }
    }
  }

  lemma ResyncOnWrite(e: Env, l: Link, k: nat)
    requires GoodEnv(e) && LinkOk(e, l) && Completed(e, l, k).session.resyncs > l.session.resyncs
    ensures var s := Completed(e, l, k).session;
            s.active && s.resyncQueued && FreeCount(s.slots) == |s.slots| - 1
  {
    var s := l.session;
    SlotFreed(e, s, Deliver(l.peer, s.stream).value, k);
    var f := FreeSlot(s, k);
    if s.catchup { DriveSendsNoResync(e.sv, f); }
    ResyncTakesOneSlot(e, f);
  }

  lemma ResyncTakesOneSlot(e: Env, s: Session)
    requires QueueInv(e.setup, s)
    ensures var t := MaybeResync(e.sv, s);
            t.resyncs > s.resyncs ==> t.resyncQueued && FreeCount(t.slots) == |t.slots| - 1
  {
    if s.active && s.pending == 0 {
      var m := ResyncRequired(e.sv.changeSeq, e.sv.sampleTs);
      BytesBound(s.slots);
      QueueSucceeds(e.setup, s, m, false);
      if FreeCount(s.slots) > 0 { SendTakesSlot(s, m); }
    }
  }

  /** The gap counter stays at zero. */
  lemma NoGaps(b: Start, run: seq<Label>, i: nat)
    requires GoodStart(b) && i < |Reached(b, run).links|
    ensures Reached(b, run).links[i].peer.gaps == 0
  {
    var w := Reached(b, run);
    assert LinkOk(w.env, w.links[i]);
  }

  /** Every published sample was distributed or counted as coalesced. */
  lemma SampleConservation(b: Start, run: seq<Label>)
    requires GoodStart(b)
    ensures var sv := Reached(b, run).env.sv;
            sv.coalesced + sv.advances == sv.sampleSeq && sv.changeSeq <= sv.advances
  {
  }

  // ---- Snapshots ----

  predicate FramesOf(v: View, sv: Server, n: nat) {
    && n <= |sv.frames| && v.frames == sv.frames[..n]
    && v.sampleSeq == sv.sampleSeq && v.changeSeq == sv.changeSeq && v.ts == sv.sampleTs
  }

  /** The client's copy in progress: the first frames, then the first signals, of one
      canonical state. */
  predicate Portion(v: View, phase: Phase, sv: Server) {
    match phase
    case AwaitFrames(n) => FramesOf(v, sv, n) && v.signals == []
    case AwaitSignals(n) => FramesOf(v, sv, |sv.frames|) && n <= |sv.signals| && v.signals == sv.signals[..n]
    case _ => FramesOf(v, sv, |sv.frames|) && v.signals == sv.signals
  }

  /** The snapshot pages of client i are still coming, or have just all come. */
  predicate Snapshotting(p: Peer) {
    || (p.phase.AwaitFrames? && p.phase.next > 0) || p.phase.AwaitSignals?
    || (p.phase.Subscribing? && p.requests == [SubscribeAll])
  }

  lemma CutPortion(e: Env, s: Session, p: Peer, sv: Server)
    requires GoodEnv(e) && Core(e, s, p) && Snapshotting(p) && s.snap == CopyOf(sv)
    ensures Portion(p.sync, p.phase, sv)
  {
    assert s.snap.frames[..|s.snap.frames|] == s.snap.frames;
    assert s.snap.signals[..|s.snap.signals|] == s.snap.signals;
  }

  /** Step k of the run neither freezes a copy for link i nor gives its place to somebody else. */
  predicate CopyKept(b: Start, run: seq<Label>, i: nat, k: nat)
    requires GoodStart(b) && k < |run|
  {
    Keeps(Reached(b, run[..k]), run[k], i)
  }

  /** Step j of the run took the client's request for a first page, and the copy was kept since. */
  predicate FrozenAt(b: Start, run: seq<Label>, i: nat, j: nat)
    requires GoodStart(b)
  {
    && j < |run| && Freezes(Reached(b, run[..j]), run[j], i)
    && forall k :: j < k < |run| ==> CopyKept(b, run, i, k)
  }

  /** A snapshot is a consistent cut: all the pages a client has, though taken at different
      times, come from the canonical state of the instant at which the daemon took the request
      for the first of them. */
  lemma SnapshotIsACut(b: Start, run: seq<Label>, i: nat) returns (j: nat)
    requires GoodStart(b) && i < |Reached(b, run).links| && Reached(b, run).links[i].session.active
    requires Snapshotting(Settled(Reached(b, run), i))
    ensures FrozenAt(b, run, i, j)
    ensures var p := Settled(Reached(b, run), i);
            Portion(p.sync, p.phase, Reached(b, run[..j]).env.sv)
  {
    var w, p := Reached(b, run), Settled(Reached(b, run), i);
    assert LinkOk(w.env, w.links[i]);
    SnapshotIsFrozen(w.env, w.links[i].session, p);
    assert run[..|run|] == run;
    j := FreezeFound(b, run, i, w.links[i].session.snap);
    CutPortion(w.env, w.links[i].session, p, Reached(b, run[..j]).env.sv);
  }

  lemma SnapshotIsFrozen(e: Env, s: Session, p: Peer)
    requires GoodEnv(e) && Core(e, s, p) && Snapshotting(p)
    ensures CopyInUse(s)
  {
  }

  lemma ReachedNext(b: Start, run: seq<Label>, n: nat)
    requires GoodStart(b) && n < |run|
    ensures Reached(b, run[..n + 1]) == Step(Reached(b, run[..n]), run[n])
  {
    BootInv(b.cat, b.setup, b.visit, b.now, b.ts, b.places);
    var w := Reached(b, run[..n]);
    assert run[..n + 1] == run[..n] + [run[n]] && [run[n]][1..] == [];
    ExecAppend(Boot(b.cat, b.setup, b.visit, b.now, b.ts, b.places), run[..n], [run[n]]);
    assert Exec(w, [run[n]]) == Exec(Step(w, run[n]), []);
  }

  lemma RunPasses(b: Start, run: seq<Label>, i: nat, n: nat, c: Copy)
    requires GoodStart(b) && n < |run|
    ensures Passes(Reached(b, run[..n]), run[n], Reached(b, run[..n + 1]), i, c)
  {
    ReachedNext(b, run, n);
    var w := Reached(b, run[..n]);
    if HasCopy(Step(w, run[n]), i, c) { FreezeStep(w, run[n], i); }
  }

  lemma NothingHeldAtBoot(b: Start, i: nat, c: Copy)
    requires GoodStart(b)
    ensures !HasCopy(Reached(b, []), i, c)
  {
  }

  lemma FreezeFound(b: Start, run: seq<Label>, i: nat, c: Copy) returns (j: nat)
    requires GoodStart(b) && HasCopy(Reached(b, run), i, c)
    ensures FrozenAt(b, run, i, j) && c == CopyOf(Reached(b, run[..j]).env.sv)
  {
    var at := (n: nat) => if n <= |run| then Reached(b, run[..n]) else Reached(b, run);
    NothingHeldAtBoot(b, i, c);
    assert run[..0] == [] && run[..|run|] == run;
    forall n: nat | n < |run| ensures Passes(at(n), run[n], at(n + 1), i, c) {
      RunPasses(b, run, i, n, c);
    }
    j := LastFreeze(at, run, i, c);
    forall k: nat | j < k < |run| ensures CopyKept(b, run, i, k) {
      assert Keeps(at(k), run[k], i);
    }
  }

  /** A client that has got past the schema holds the whole catalog, entry by entry in order,
      whatever happened on the way. */
  lemma SchemaIsWhole(b: Start, run: seq<Label>, i: nat)
    requires GoodStart(b) && i < |Reached(b, run).links| && Reached(b, run).links[i].session.active
    requires !Settled(Reached(b, run), i).phase.AwaitWelcome? && !Settled(Reached(b, run), i).phase.AwaitSchema?
    ensures var e, p := Reached(b, run).env, Settled(Reached(b, run), i);
            && p.greeting == Greet(e.cat, e.setup)
            && |p.schema| == |e.cat.defs|
            && forall k :: 0 <= k < |p.schema| ==>
                 1 <= e.cat.defs[k].width <= 64 && p.schema[k] == Schema.EntryOf(e.cat, k)
  {
    var w := Reached(b, run);
    assert LinkOk(w.env, w.links[i]);
    PastSchema(w.env, w.links[i].session, Settled(w, i));
  }

  lemma PastSchema(e: Env, s: Session, p: Peer)
    requires GoodEnv(e) && Core(e, s, p) && !p.phase.AwaitWelcome? && !p.phase.AwaitSchema?
    ensures p.greeting == Greet(e.cat, e.setup) && |p.schema| == |e.cat.defs|
    ensures forall k :: 0 <= k < |p.schema| ==>
              1 <= e.cat.defs[k].width <= 64 && p.schema[k] == Schema.EntryOf(e.cat, k)
  {
    EntriesInPlace(e.cat);
  }

  lemma EntriesInPlace(cat: Catalog)
    requires GoodLayout(cat)
    ensures |Schema.Entries(cat, 0, |cat.defs|)| == |cat.defs|
    ensures forall k :: 0 <= k < |cat.defs| ==>
              1 <= cat.defs[k].width <= 64 && Schema.Entries(cat, 0, |cat.defs|)[k] == Schema.EntryOf(cat, k)
  {
    forall k | 0 <= k < |cat.defs|
      ensures 1 <= cat.defs[k].width <= 64
      ensures Schema.Entries(cat, 0, |cat.defs|)[k] == Schema.EntryOf(cat, k)
    {
      EntryInPlace(cat, 0, |cat.defs|, k);
    }
  }

  lemma {:induction false} EntryInPlace(cat: Catalog, i: nat, j: nat, k: nat)
    requires GoodLayout(cat) && i <= k < j <= |cat.defs|
    ensures GoodDef(cat, cat.defs[k]) && Schema.Entries(cat, i, j)[k - i] == Schema.EntryOf(cat, k)
    decreases j - i
  {
    assert GoodDef(cat, cat.defs[k]);
    if i < k { EntryInPlace(cat, i + 1, j, k); }
  }

  // ---- Decoding and time stamps ----

  /** In every state each signal is what full decoding of the current frames gives; only the
      value of a signal whose frame is unavailable is kept from before. */
  lemma DecodingRefinesFull(b: Start, run: seq<Label>, i: nat)
    requires GoodStart(b) && i < |Reached(b, run).env.cat.defs|
    ensures var e := Reached(b, run).env;
            var v, full := e.sv.signals[i], FullDecode(e.cat, e.sv.frames)[i];
            && v.state == full.state && v.calibrated == full.calibrated
            && v.physical == Bits.Physical(e.cat, e.cat.defs[i], v.raw)
            && (!e.sv.frames[e.cat.defs[i].frameIndex].state.Unavailable? ==>
                  v.raw == full.raw && v.physical == full.physical)
  {
    var e := Reached(b, run).env;
    assert SignalInv(e.cat, e.sv, i);
  }

  /** Valid signals have been observed, and stamps are ordered. */
  lemma StampsAreOrdered(b: Start, run: seq<Label>, i: nat)
    requires GoodStart(b) && i < |Reached(b, run).env.cat.defs|
    ensures var v := Reached(b, run).env.sv.signals[i];
            && (v.state.Valid? ==> v.firstObserved != 0)
            && v.firstObserved <= v.lastChange <= Reached(b, run).env.sv.sampleTs
  {
    var e := Reached(b, run).env;
    assert SignalInv(e.cat, e.sv, i);
  }

  /** One step of the system moves a signal's stamps only as its history allows. */
  lemma StampsStep(w: World, l: Label, i: nat)
    requires Inv(w) && i < |w.env.cat.defs|
    ensures Step(w, l).env.cat == w.env.cat && i < |Step(w, l).env.sv.signals|
    ensures StampStep(w.env.sv.signals[i], Step(w, l).env.sv.signals[i])
  {
    if l.Distribute? && w.sampler.published.sequence > w.env.sv.sampleSeq {
      AbsorbStamps(w.env.cat, w.env.sv, w.sampler.published, i);
    }
  }

  /** Once a signal was observed its first stamp never changes, whatever the source does. */
  lemma {:induction false} FirstObservationIsForever(w: World, run: seq<Label>, i: nat)
    requires Inv(w) && i < |w.env.cat.defs|
    ensures Exec(w, run).env.cat == w.env.cat && i < |Exec(w, run).env.sv.signals|
    ensures var v, x := w.env.sv.signals[i], Exec(w, run).env.sv.signals[i];
            && (v.firstObserved != 0 ==> x.firstObserved == v.firstObserved)
            && v.lastChange <= x.lastChange
    decreases |run|
  {
    if run != [] {
      StampsStep(w, run[0], i);
      StepKeepsInv(w, run[0]);
      FirstObservationIsForever(Step(w, run[0]), run[1..], i);
    }
  }

  /** Every published frame is explained by the batches read since the last reconnection. */
  lemma PublishedFramesMean(b: Start, run: seq<Label>, i: nat)
    requires GoodStart(b) && i < |Reached(b, run).env.cat.canIds|
    ensures var st := Reached(b, run).sampler;
            && Sampler.HaveFrame(st.baseline, st.since, i) && i < |st.published.frames|
            && st.published.frames[i] == Sampler.Meaning(st.baseline, st.since, i)
            && Sampler.GenerationsKept(st)
  {
    var w := Reached(b, run);
    assert Sampler.Explained(w.env.cat, w.sampler, i);
  }

  // ---- The client's clockwork ----

  predicate NotBack(a: Peer, b: Peer) {
    a.cache.sampleSeq <= b.cache.sampleSeq && a.cache.changeSeq <= b.cache.changeSeq && a.cache.ts <= b.cache.ts
  }

  lemma ClientStep(w: World, l: Label, i: nat)
    requires Inv(w) && i < |w.links| && l != Connect(i)
    ensures i < |Step(w, l).links| && NotBack(w.links[i].peer, Step(w, l).links[i].peer)
  {
    assert LinkOk(w.env, w.links[i]);
    if !Concerns(l, i) {
      ElsewhereUntouched(w, l, i);
    } else if l.ClientReads? && w.links[i].session.stream != [] {
      ReceptionKeeps(w.env, w.links[i].session, w.links[i].peer);
    }
  }

  predicate Avoids(run: seq<Label>, l: Label) {
    forall k :: 0 <= k < |run| ==> run[k] != l
  }

  /** Within a connection the client's sequence numbers and sample time never decrease, even
      across resyncs. */
  lemma {:induction false} ClientNeverGoesBack(w: World, run: seq<Label>, i: nat)
    requires Inv(w) && i < |w.links| && Avoids(run, Connect(i))
    ensures i < |Exec(w, run).links| && NotBack(w.links[i].peer, Exec(w, run).links[i].peer)
    decreases |run|
  {
    if run != [] {
      ClientStep(w, run[0], i);
      StepKeepsInv(w, run[0]);
      ClientNeverGoesBack(Step(w, run[0]), run[1..], i);
    }
  }

  // ---- Bytes ----

  /** In every run in which no counter outgrows its field, whatever a client is about to read
      decodes, from its bytes and into the client's buffers, to the message that was sent. */
  lemma BytesCarryTheRun(b: Start, run: seq<Label>, i: nat)
    requires GoodStart(b) && i < |Reached(b, run).links| && Reached(b, run).links[i].session.stream != []
    requires forall j :: 0 <= j <= |run| ==> OnTheWire.NoWrap(Reached(b, run[..j]))
    requires forall k :: 0 <= k < |run| ==> OnTheWire.LabelFits(run[k])
    ensures var l := Reached(b, run).links[i];
            var m := l.session.stream[0];
            && Fits(m) && |MsgBytes(m)| == Length(m) <= HEADER_SIZE + Room(l.peer)
            && ParseMsg(MsgBytes(m), OnTheWire.RoomFor(l.peer, m)) == Some(m)
  {
    BootInv(b.cat, b.setup, b.visit, b.now, b.ts, b.places);
    var boot := Boot(b.cat, b.setup, b.visit, b.now, b.ts, b.places);
    assert OnTheWire.NeverWraps(boot, run) by {
      forall j | 0 <= j <= |run| ensures OnTheWire.NoWrap(Exec(boot, run[..j])) {
        assert OnTheWire.NoWrap(Reached(b, run[..j]));
      }
    }
    OnTheWire.RunFits(boot, run);
    var w := Reached(b, run);
    assert LinkOk(w.env, w.links[i]);
    OnTheWire.BytesAreRead(w.env, w.links[i]);
  }
}
