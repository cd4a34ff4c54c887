/** The invariant that ties one daemon session to its client, stated on the client as it will
    be once everything in flight has been read, and its preservation by every daemon step. */
module Replication {
  import opened Types
  import opened Canonical
  import opened Protocol
  import opened Session
  import opened Peer
  import opened Agreement
  import opened OutputQueue
  import Schema

  /** The daemon around a session. */
  datatype Env = Env(cat: Catalog, setup: Setup, sv: Server)

  predicate GoodEnv(e: Env) {
    GoodCatalog(e.cat) && ServerInv(e.cat, e.sv) && e.setup.slots >= 1
  }

  // ---- The invariant ----

  /** Every drop leads to one RESYNC_REQUIRED, sent or owed, and every subscription but a
      current one was ended by a drop. */
  predicate Accounted(s: Session) {
    && s.announced == s.dropped + (if s.subscribed then 1 else 0)
    && s.dropped == s.resyncs + (if s.needsResync && !s.resyncQueued then 1 else 0)
  }

  /** Whatever a session still owes its client, a write is in flight whose completion will
      take it further: catch-up only rests when the queue is full, a resync only while it is
      not empty. */
  predicate Awake(s: Session) {
    && (s.catchup ==> FreeCount(s.slots) == 0)
    && (s.needsResync && !s.resyncQueued ==> s.pending > 0)
  }

  predicate Idle(s: Session) {
    !s.subscribed && !s.needsResync && !s.resyncQueued && !s.snapActive && !s.catchup
  }

  /** The frozen copy has the catalog's shape. */
  predicate CopyGood(e: Env, s: Session) {
    && GoodFrames(e.cat, s.snap.frames) && AllConverted(e.cat, s.snap.signals)
    && s.snap.sampleSeq <= e.sv.sampleSeq
  }

  predicate Paging(e: Env, s: Session, p: Peer) {
    && s.snapActive && !s.snapDone && !s.subscribed && !s.needsResync && !s.resyncQueued && !s.catchup
    && CopyGood(e, s) && p.cache.sampleSeq <= s.snap.sampleSeq
  }

  /** The client's copy when it has the first n frames. */
  function FramesSoFar(s: Session, n: nat): View
    requires n <= |s.snap.frames|
  {
    View(s.snap.frames[..n], [], s.snap.sampleSeq, s.snap.changeSeq, s.snap.ts)
  }

  /** The client's copy when it has all frames and the first n signals. */
  function SignalsSoFar(s: Session, n: nat): View
    requires n <= |s.snap.signals|
  {
    View(s.snap.frames, s.snap.signals[..n], s.snap.sampleSeq, s.snap.changeSeq, s.snap.ts)
  }

  predicate FramesStage(e: Env, s: Session, p: Peer, next: nat) {
    && p.requests == [GetSnapshot(next)]
    && if next == 0
       then && !s.snapActive && !s.subscribed && !s.catchup && p.sync == NO_VIEW
            && s.needsResync == s.resyncQueued && s.resyncQueued == s.snapDone
       else && Paging(e, s, p) && !s.framesDone && s.nextFrame == next < |s.snap.frames| && s.nextSignal == 0
            && p.sync == FramesSoFar(s, next)
  }

  predicate SignalsStage(e: Env, s: Session, p: Peer, next: nat) {
    && p.requests == [GetSignalSnapshot(next)]
    && Paging(e, s, p) && s.framesDone && s.nextSignal == next < |s.snap.signals|
    && Locates(e.cat, p.lookup)
    && p.sync == SignalsSoFar(s, next)
  }

  /** The snapshot is complete and SUBSCRIBE_ALL is on its way. */
  predicate AskedStage(e: Env, s: Session, p: Peer) {
    && p.requests == [SubscribeAll]
    && Idle(s) && s.snapDone && CopyGood(e, s) && Locates(e.cat, p.lookup)
    && p.cache.sampleSeq <= s.snap.sampleSeq
    && p.sync == SignalsSoFar(s, |s.snap.signals|)
  }

  /** The unsent rest of a round is no longer than it has to be: each index occurs once, and
      the client really is out of date there. Its frames are in their places. */
  predicate Behind(s: Session, p: Peer)
    requires RoundShaped(s)
  {
    && SameIds(p.sync.frames, s.snap.frames)
    && Increasing(s.round.frames) && FramesMissed(p.sync.frames, s.snap.frames, s.round.frames[s.round.frameAt..])
    && Increasing(s.round.signals) && SignalsMissed(p.sync.signals, s.snap.signals, s.round.signals[s.round.signalAt..])
  }

  predicate BehindOk(s: Session, peer: Peer) {
    var d := Deliver(peer, s.stream);
    d.Some? && s.active && s.catchup && RoundShaped(s) ==> Behind(s, d.value)
  }

  /** Catching up: the client's view matches the daemon's copy outside the unsent rest. */
  predicate CatchupStage(e: Env, s: Session, p: Peer) {
    && p.requests == []
    && s.catchup && s.snapDone && !s.subscribed && !s.needsResync && !s.resyncQueued && !s.snapActive
    && CopyGood(e, s) && Locates(e.cat, p.lookup) && RoundShaped(s)
    && FramesMatch(p.sync.frames, s.snap.frames, s.round.frames[s.round.frameAt..])
    && SignalsMatch(p.sync.signals, s.snap.signals, s.round.signals[s.round.signalAt..])
    && p.cache.sampleSeq <= p.sync.sampleSeq <= s.round.sampleSeq <= e.sv.sampleSeq
    && s.round.changeSeq <= e.sv.changeSeq
  }

  /** Live: a subscriber's cache agrees with the canonical state; otherwise a resync is owed. */
  predicate LiveStage(e: Env, s: Session, p: Peer) {
    && p.requests == []
    && !s.catchup && s.snapDone && !s.snapActive && !s.resyncQueued && s.subscribed == !s.needsResync
    && Locates(e.cat, p.lookup) && p.lastSeq == p.cache.changeSeq
    && (s.subscribed ==> Agrees(p.cache, e.sv) && p.cache.changeSeq == e.sv.changeSeq)
  }

  predicate Acquainted(e: Env, s: Session, p: Peer)
    requires GoodEnv(e)
  {
    s.greeted && p.greeting == Greet(e.cat, e.setup) && p.schema == Schema.Entries(e.cat, 0, |e.cat.defs|)
  }

  predicate Stage(e: Env, s: Session, p: Peer)
    requires GoodEnv(e)
  {
    match p.phase
    case AwaitWelcome => p.requests == [Hello] && p.schema == [] && !s.greeted && !s.snapDone && Idle(s)
    case AwaitSchema(next) =>
      && p.requests == [GetSchema(next)] && next < |e.cat.defs| && s.greeted && !s.snapDone && Idle(s)
      && p.greeting == Greet(e.cat, e.setup) && p.schema == Schema.Entries(e.cat, 0, next)
    case AwaitFrames(next) => Acquainted(e, s, p) && FramesStage(e, s, p, next)
    case AwaitSignals(next) => Acquainted(e, s, p) && SignalsStage(e, s, p, next)
    case Subscribing => Acquainted(e, s, p) && (AskedStage(e, s, p) || CatchupStage(e, s, p))
    case Live => Acquainted(e, s, p) && LiveStage(e, s, p)
  }

  /** The client's sequences and time are the daemon's or older. */
  predicate NotAhead(e: Env, p: Peer) {
    && p.cache.sampleSeq <= e.sv.sampleSeq && p.cache.changeSeq <= e.sv.changeSeq && p.cache.ts <= e.sv.sampleTs
  }

  /** The invariant without `Awake`, which only holds between callbacks. */
  predicate Core(e: Env, s: Session, p: Peer)
    requires GoodEnv(e)
  {
    && QueueInv(e.setup, s) && Accounted(s) && p.gaps == 0 && (s.snapDone ==> CopyShaped(e.sv, s))
    && NotAhead(e, p) && Stage(e, s, p)
  }

  /** One connection: all that is in flight will be accepted, and while the session is open
      it leaves the client where the daemon believes it to be. */
  predicate Linked(e: Env, s: Session, peer: Peer)
    requires GoodEnv(e)
  {
    var d := Deliver(peer, s.stream);
    d.Some? && (s.active ==> Core(e, s, d.value) && Awake(s))
  }

  // ---- Sending ----

  /** A message sent to a client that is waiting for it. */
  lemma Sent(peer: Peer, s: Session, m: Msg)
    requires Deliver(peer, s.stream).Some? && FirstFree(s.slots) < |s.slots|
    requires var p := Deliver(peer, s.stream).value;
             p.requests == [] && Receive(p, m).Some? && Orderly(p, Receive(p, m).value)
    ensures Deliver(peer, Send(s, m).stream) == Receive(Deliver(peer, s.stream).value, m)
  {
    DeliverAppend(peer, s.stream, m);
  }

  lemma CanIdsFew(ids: seq<nat>, i: nat)
    requires Increasing(ids) && i < |ids|
    ensures ids[i] >= i
  {
    if i > 0 { CanIdsFew(ids, i - 1); }
  }

  /** Where a client stands does not depend on the state of the output queue. */
  lemma CoreIgnoresQueue(e: Env, s: Session, t: Session, p: Peer)
    requires GoodEnv(e) && Core(e, s, p) && QueueInv(e.setup, t)
    requires t == s.(slots := t.slots, pending := t.pending, stream := t.stream)
    ensures Core(e, t, p)
  {
  }

  /** The daemon's answer m to a request leaves the session in t and the client in q. */
  lemma Answered(e: Env, s: Session, p: Peer, m: Msg, t: Session, q: Peer)
    requires GoodEnv(e) && s.stream == [] && t.stream == s.stream + [m]
    requires p.requests == [] && Receive(p, m) == Some(q) && Orderly(p, q)
    requires Core(e, t, q) && Awake(t)
    ensures Linked(e, t, p)
  {
    assert Deliver(p, t.stream) == Deliver(q, t.stream[1..]);
  }

  // ---- Handshake and schema ----

  lemma HelloServed(e: Env, s: Session, p: Peer)
    requires GoodEnv(e) && Core(e, s, p) && s.active && s.stream == [] && p.phase.AwaitWelcome?
    ensures Linked(e, OrClose(ServeHello(e.cat, e.setup, e.sv, s)), p.(requests := []))
  {
    var m := Welcome(e.sv.changeSeq, e.sv.sampleTs, Greet(e.cat, e.setup));
    QueueSucceeds(e.setup, s, m, false);
    if FreeCount(s.slots) > 0 {
      SendKeepsQueue(e.setup, s, m);
      CanIdsFew(e.cat.canIds, |e.cat.canIds| - 1);
      Sent(p.(requests := []), s, m);
      assert Schema.Entries(e.cat, 0, 0) == [];
    }
  }

  function AfterSchema(e: Env, p: Peer, n: nat): Peer
    requires GoodEnv(e) && n <= |e.cat.defs|
  {
    var q := p.(schema := Schema.Entries(e.cat, 0, n));
    if n < |e.cat.defs| then Ask(q, AwaitSchema(n), GetSchema(n))
    else Ask(q.(sync := NO_VIEW), AwaitFrames(0), GetSnapshot(0))
  }

  lemma SchemaPageTaken(e: Env, p: Peer, next: nat, m: Msg, n: nat)
    requires GoodEnv(e) && p.phase == AwaitSchema(next) && next < n <= |e.cat.defs|
    requires p.greeting == Greet(e.cat, e.setup) && p.schema == Schema.Entries(e.cat, 0, next)
    requires m.SchemaPage? && Length(m) <= CLIENT_MESSAGE_CAP
    requires m.page == Schema.Page(SCHEMA_VERSION, |e.cat.defs|, next, e.cat.schemaHash, Schema.Entries(e.cat, next, n))
    ensures Receive(p, m) == Some(AfterSchema(e, p, n))
  {
    SchemaDispatched(p, m);
    EntriesTaken(e, p, next, m, n);
  }

  lemma EntriesTaken(e: Env, p: Peer, next: nat, m: Msg, n: nat)
    requires GoodEnv(e) && p.phase == AwaitSchema(next) && next < n <= |e.cat.defs|
    requires p.greeting == Greet(e.cat, e.setup) && p.schema == Schema.Entries(e.cat, 0, next) && m.SchemaPage?
    requires m.page == Schema.Page(SCHEMA_VERSION, |e.cat.defs|, next, e.cat.schemaHash, Schema.Entries(e.cat, next, n))
    ensures ReceiveSchema(p, next, m) == Some(AfterSchema(e, p, n))
  {
    Schema.EntriesConcat(e.cat, 0, next, n);
  }

  lemma SchemaDispatched(p: Peer, m: Msg)
    requires p.phase.AwaitSchema? && m.SchemaPage? && Length(m) - HEADER_SIZE <= p.greeting.maxResponse
    ensures Receive(p, m) == ReceiveSchema(p, p.phase.next, m)
  {
  }

  lemma SchemaStageMovesOn(e: Env, s: Session, p: Peer, n: nat)
    requires GoodEnv(e) && Core(e, s, p) && p.phase.AwaitSchema? && n <= |e.cat.defs|
    ensures Core(e, s, AfterSchema(e, p.(requests := []), n))
  {
  }

  lemma SchemaPageSent(e: Env, s: Session, p: Peer, m: Msg, n: nat)
    requires GoodEnv(e) && Core(e, s, p) && s.active && s.stream == [] && p.phase.AwaitSchema?
    requires p.phase.next < n <= |e.cat.defs| && Length(m) <= CLIENT_MESSAGE_CAP
    requires Receive(p.(requests := []), m) == Some(AfterSchema(e, p.(requests := []), n))
    ensures Linked(e, OrClose(Queue(s, m, false)), p.(requests := []))
  {
    QueueSucceeds(e.setup, s, m, false);
    if FreeCount(s.slots) > 0 {
      var q := AfterSchema(e, p.(requests := []), n);
      SendKeepsQueue(e.setup, s, m);
      SchemaStageMovesOn(e, s, p, n);
      CoreIgnoresQueue(e, s, Send(s, m), q);
      Answered(e, s, p.(requests := []), m, Send(s, m), q);
    }
  }

  /** The answer to a request for entries from `next` on, and where it takes the client. */
  lemma SchemaAnswer(e: Env, s: Session, p: Peer) returns (m: Msg, n: nat)
    requires GoodEnv(e) && Core(e, s, p) && p.phase.AwaitSchema?
    ensures p.phase.next < n <= |e.cat.defs| && Length(m) <= CLIENT_MESSAGE_CAP
    ensures ServeSchema(e.cat, e.sv, s, p.phase.next) == Queue(s, m, false)
    ensures Receive(p.(requests := []), m) == Some(AfterSchema(e, p.(requests := []), n))
  {
    var next := p.phase.next;
    var page := Schema.PageFrom(e.cat, next, PAYLOAD_CAP);
    Schema.PageSize(e.cat, next);
    m, n := SchemaPage(e.sv.changeSeq, e.sv.sampleTs, page), next + |page.entries|;
    SchemaPageTaken(e, p.(requests := []), next, m, n);
  }

  lemma SchemaServed(e: Env, s: Session, p: Peer)
    requires GoodEnv(e) && Core(e, s, p) && s.active && s.stream == [] && p.phase.AwaitSchema?
    ensures Linked(e, OrClose(ServeSchema(e.cat, e.sv, s, p.phase.next)), p.(requests := []))
  {
    var m, n := SchemaAnswer(e, s, p);
    SchemaPageSent(e, s, p, m, n);
  }

  // ---- Snapshot pages ----

  lemma GoodIsIdentified(cat: Catalog, frames: seq<Frame>)
    requires GoodFrames(cat, frames)
    ensures Identified(cat, frames)
  {
    forall i | 0 <= i < |frames| ensures frames[i].canId == cat.canIds[i] {
      assert GoodFrame(cat, frames, i);
    }
  }

  /** A page of frames is due: the session is paging and the client has taken its turn. */
  predicate FramesDue(e: Env, s: Session, p: Peer, next: nat)
    requires GoodEnv(e)
  {
    && Acquainted(e, s, p) && Paging(e, s, p)
    && p.phase == AwaitFrames(next) && p.requests == []
    && !s.framesDone && s.nextFrame == next < |s.snap.frames| && s.nextSignal == 0
    && p.sync == if next == 0 then NO_VIEW else FramesSoFar(s, next)
  }

  function AfterFrames(s: Session, p: Peer, n: nat): Peer
    requires n <= |s.snap.frames|
  {
    var q := p.(sync := FramesSoFar(s, n));
    if n < |s.snap.frames| then Ask(q, AwaitFrames(n), GetSnapshot(n))
    else Ask(q.(lookup := Indexed(p.lookup, s.snap.frames, n)), AwaitSignals(0), GetSignalSnapshot(0))
  }

  lemma FramePageTaken(s: Session, p: Peer, next: nat)
    requires next < |s.snap.frames| == p.greeting.frameCount && p.greeting.maxResponse == PAYLOAD_CAP
    requires p.phase == AwaitFrames(next) && p.sync == if next == 0 then NO_VIEW else FramesSoFar(s, next)
    ensures var n := next + Min(|s.snap.frames| - next, FRAMES_PER_MESSAGE);
            Receive(p, FramePage(s.snap, next)) == Some(AfterFrames(s, p, n))
  {
    var n := next + Min(|s.snap.frames| - next, FRAMES_PER_MESSAGE);
    var m := FramePage(s.snap, next);
    assert m.frames.frames == s.snap.frames[next..n] && Length(m) - HEADER_SIZE <= PAYLOAD_CAP;
    assert s.snap.frames[..next] + s.snap.frames[next..n] == s.snap.frames[..n];
    assert n == |s.snap.frames| ==> s.snap.frames[..n] == s.snap.frames;
  }

  /** The session after sending a page of frames. */
  function FramesSent(s: Session, next: nat): Session
    requires FirstFree(s.slots) < |s.slots| && next <= |s.snap.frames|
  {
    var n := next + Min(|s.snap.frames| - next, FRAMES_PER_MESSAGE);
    Send(s, FramePage(s.snap, next)).(nextFrame := n, framesDone := n == |s.snap.frames|)
  }

  lemma FramesStageMovesOn(e: Env, s: Session, p: Peer, next: nat)
    requires GoodEnv(e) && FramesDue(e, s, p, next) && FirstFree(s.slots) < |s.slots|
    ensures var n := next + Min(|s.snap.frames| - next, FRAMES_PER_MESSAGE);
            Stage(e, FramesSent(s, next), AfterFrames(s, p, n))
  {
    GoodIsIdentified(e.cat, s.snap.frames);
    IndexedLocates(e.cat, p.lookup, s.snap.frames);
    assert s.snap.frames[..|s.snap.frames|] == s.snap.frames;
  }

  /** The answer to a request for frames, and where it leaves both sides. */
  lemma FramesAnswer(e: Env, s: Session, p: Peer, next: nat) returns (m: Msg, t: Session, q: Peer)
    requires GoodEnv(e) && FramesDue(e, s, p, next) && s.active && QueueInv(e.setup, s) && FreeCount(s.slots) > 0
    ensures ServeFrames(e.sv, s, next) == Ok(t) && t.active && t.stream == s.stream + [m]
    ensures QueueInv(e.setup, t) && Stage(e, t, q) && Awake(t) && (Accounted(s) ==> Accounted(t))
    ensures t.snap == s.snap && t.snapDone == s.snapDone
    ensures Receive(p, m) == Some(q)
    ensures q == p.(phase := q.phase, requests := q.requests, sync := q.sync, lookup := q.lookup)
    ensures q.phase == AwaitSignals(0) || (q.phase.AwaitFrames? && next < q.phase.next)
  {
    m := FramePage(s.snap, next);
    assert Length(m) <= CLIENT_MESSAGE_CAP;
    QueueSucceeds(e.setup, s, m, false);
    SendKeepsQueue(e.setup, s, m);
    FramePageTaken(s, p, next);
    FramesStageMovesOn(e, s, p, next);
    t := FramesSent(s, next);
    q := AfterFrames(s, p, next + Min(|s.snap.frames| - next, FRAMES_PER_MESSAGE));
  }

  lemma NoRoomForFrames(e: Env, s: Session, p: Peer, next: nat)
    requires GoodEnv(e) && FramesDue(e, s, p, next) && s.active && QueueInv(e.setup, s) && FreeCount(s.slots) == 0
    ensures ServeFrames(e.sv, s, next) == Fail(s)
  {
    var m := FramePage(s.snap, next);
    assert Length(m) <= CLIENT_MESSAGE_CAP;
    QueueSucceeds(e.setup, s, m, false);
  }

  lemma FramePageSent(e: Env, s: Session, p: Peer, next: nat)
    requires GoodEnv(e) && FramesDue(e, s, p, next) && s.active && s.stream == []
    requires QueueInv(e.setup, s) && Accounted(s) && p.gaps == 0 && (s.snapDone ==> CopyShaped(e.sv, s))
    requires NotAhead(e, p)
    ensures Linked(e, OrClose(ServeFrames(e.sv, s, next)), p)
  {
    if FreeCount(s.slots) > 0 {
      var m, t, q := FramesAnswer(e, s, p, next);
      Answered(e, s, p, m, t, q);
    } else {
      NoRoomForFrames(e, s, p, next);
    }
  }

  /** The session a request for frames works on: a first request freezes a copy. */
  function Frozen(e: Env, s: Session, next: nat): Session {
    if next == 0 then BeginSnapshot(e.sv, s) else s
  }

  lemma FramesComeDue(e: Env, s: Session, p: Peer)
    requires GoodEnv(e) && Core(e, s, p) && p.phase.AwaitFrames?
    ensures var next, b := p.phase.next, Frozen(e, s, p.phase.next);
            && ServeFrames(e.sv, s, next) == ServeFrames(e.sv, b, next)
            && FramesDue(e, b, p.(requests := []), next) && Accounted(b)
  {
    if p.phase.next == 0 { ServerConverted(e); }
  }

  lemma FramesServed(e: Env, s: Session, p: Peer)
    requires GoodEnv(e) && Core(e, s, p) && s.active && s.stream == [] && p.phase.AwaitFrames?
    ensures Linked(e, OrClose(ServeFrames(e.sv, s, p.phase.next)), p.(requests := []))
  {
    FramesComeDue(e, s, p);
    FramePageSent(e, Frozen(e, s, p.phase.next), p.(requests := []), p.phase.next);
  }

  lemma SignalPageTaken(s: Session, p: Peer, next: nat)
    requires next < |s.snap.signals| == p.greeting.signalCount && p.greeting.maxResponse == PAYLOAD_CAP
    requires p.phase == AwaitSignals(next) && p.requests == [] && p.sync == SignalsSoFar(s, next)
    ensures var n := next + Min(|s.snap.signals| - next, SIGNALS_PER_MESSAGE);
            Receive(p, SignalsPage(s.snap, next)) == Some(AfterSignals(s, p, n))
  {
    var n := next + Min(|s.snap.signals| - next, SIGNALS_PER_MESSAGE);
    var us := SignalsPage(s.snap, next).signals.updates;
    assert |us| == n - next && forall k :: 0 <= k < |us| ==> us[k].index == next + k;
    assert s.snap.signals[..next] + UpdateValues(us) == s.snap.signals[..n] by {
      assert UpdateValues(us) == s.snap.signals[next..n];
    }
  }

  /** The session after sending a page of signals. */
  function SignalsSent(s: Session, next: nat): Session
    requires FirstFree(s.slots) < |s.slots| && next <= |s.snap.signals|
  {
    var n := next + Min(|s.snap.signals| - next, SIGNALS_PER_MESSAGE);
    var t := Send(s, SignalsPage(s.snap, next)).(nextSignal := n);
    if n == |s.snap.signals| then t.(snapActive := false, snapDone := true) else t
  }

  function AfterSignals(s: Session, p: Peer, n: nat): Peer
    requires n <= |s.snap.signals|
  {
    var q := p.(sync := SignalsSoFar(s, n));
    if n < |s.snap.signals| then Ask(q, AwaitSignals(n), GetSignalSnapshot(n)) else Ask(q, Subscribing, SubscribeAll)
  }

  lemma SignalsStageMovesOn(e: Env, s: Session, p: Peer)
    requires GoodEnv(e) && Core(e, s, p) && p.phase.AwaitSignals? && FirstFree(s.slots) < |s.slots|
    ensures var n := p.phase.next + Min(|s.snap.signals| - p.phase.next, SIGNALS_PER_MESSAGE);
            var t := SignalsSent(s, p.phase.next);
            Stage(e, t, AfterSignals(s, p.(requests := []), n)) && (t.snapDone ==> CopyShaped(e.sv, t))
  {
  }

  /** The answer to a request for signals, and where it leaves both sides. */
  lemma SignalsAnswer(e: Env, s: Session, p: Peer) returns (m: Msg, t: Session, q: Peer)
    requires GoodEnv(e) && Core(e, s, p) && s.active && p.phase.AwaitSignals? && FreeCount(s.slots) > 0
    ensures ServeSignals(s, p.phase.next) == Ok(t) && t.active && t.stream == s.stream + [m]
    ensures Core(e, t, q) && Awake(t)
    ensures Receive(p.(requests := []), m) == Some(q)
    ensures q == p.(phase := q.phase, requests := q.requests, sync := q.sync)
    ensures (q.phase == Subscribing && !t.catchup) || (q.phase.AwaitSignals? && p.phase.next < q.phase.next)
  {
    var next := p.phase.next;
    m := SignalsPage(s.snap, next);
    assert Length(m) <= CLIENT_MESSAGE_CAP;
    QueueSucceeds(e.setup, s, m, false);
    SendKeepsQueue(e.setup, s, m);
    SignalPageTaken(s, p.(requests := []), next);
    SignalsStageMovesOn(e, s, p);
    t := SignalsSent(s, next);
    q := AfterSignals(s, p.(requests := []), next + Min(|s.snap.signals| - next, SIGNALS_PER_MESSAGE));
  }

  lemma NoRoomForSignals(e: Env, s: Session, p: Peer)
    requires GoodEnv(e) && Core(e, s, p) && s.active && p.phase.AwaitSignals? && FreeCount(s.slots) == 0
    ensures ServeSignals(s, p.phase.next) == Fail(s)
  {
    var m := SignalsPage(s.snap, p.phase.next);
    assert Length(m) <= CLIENT_MESSAGE_CAP;
    QueueSucceeds(e.setup, s, m, false);
  }

  lemma SignalsServed(e: Env, s: Session, p: Peer)
    requires GoodEnv(e) && Core(e, s, p) && s.active && s.stream == [] && p.phase.AwaitSignals?
    ensures Linked(e, OrClose(ServeSignals(s, p.phase.next)), p.(requests := []))
  {
    if FreeCount(s.slots) > 0 {
      var m, t, q := SignalsAnswer(e, s, p);
      Answered(e, s, p.(requests := []), m, t, q);
    } else {
      NoRoomForSignals(e, s, p);
    }
  }

  // ---- Catch-up ----

  /** The client takes whatever a catch-up sends it. */
  predicate Following(e: Env, s: Session, p: Peer)
    requires GoodEnv(e)
  {
    && Acquainted(e, s, p) && p.phase.Subscribing? && p.requests == [] && Locates(e.cat, p.lookup)
    && CopyGood(e, s) && RoundShaped(s)
    && |p.sync.frames| == |s.snap.frames| && |p.sync.signals| == |s.snap.signals|
    && p.cache.sampleSeq <= p.sync.sampleSeq <= s.round.sampleSeq <= e.sv.sampleSeq
  }

  /** A subscribing client takes a batch that its index can place. */
  lemma FrameDeltaReceived(
    p: Peer, frames: seq<Frame>, w: seq<nat>, sampleSeq: nat, changeSeq: nat, ts: nat, fs: seq<Frame>)
    requires InRange(w, |frames|) && |w| <= FRAMES_PER_MESSAGE && p.phase.Subscribing?
    requires p.greeting.frameCount == |frames| && p.greeting.maxResponse == PAYLOAD_CAP
    requires PutFrames(p.sync.frames, p.lookup, PickFrames(frames, w)) == Some(fs)
    ensures var m := FrameDelta(frames, w, sampleSeq, changeSeq, ts);
            && Length(m) <= CLIENT_MESSAGE_CAP
            && Receive(p, m) == Some(p.(sync := View(fs, p.sync.signals, sampleSeq, changeSeq, ts)))
  {
  }

  lemma SignalDeltaReceived(
    p: Peer, signals: seq<SignalValue>, w: seq<nat>, sampleSeq: nat, changeSeq: nat, ts: nat, ss: seq<SignalValue>)
    requires InRange(w, |signals|) && |w| <= SIGNALS_PER_MESSAGE && p.phase.Subscribing?
    requires p.greeting.signalCount == |signals| && p.greeting.maxResponse == PAYLOAD_CAP
    requires PutSignals(p.sync.signals, PickSignals(signals, w)) == Some(ss)
    ensures var m := SignalDelta(signals, w, sampleSeq, changeSeq, ts);
            && Length(m) <= CLIENT_MESSAGE_CAP
            && Receive(p, m) == Some(p.(sync := View(p.sync.frames, ss, sampleSeq, changeSeq, ts)))
  {
  }

  /** A batch of frames of the round replaces exactly its positions in the client's copy. */
  lemma RoundFramesReceived(e: Env, s: Session, p: Peer) returns (q: Peer)
    requires GoodEnv(e) && Following(e, s, p) && s.round.frameAt < |s.round.frames|
    ensures Length(RoundMessage(s)) <= CLIENT_MESSAGE_CAP
    ensures Receive(p, RoundMessage(s)) == Some(q) && q == p.(sync := q.sync)
    ensures Following(e, RoundAdvanced(s), q) && q.sync.signals == p.sync.signals
    ensures Patched(p.sync.frames, s.snap.frames,
                    Window(s.round.frames, s.round.frameAt, FRAMES_PER_MESSAGE), q.sync.frames)
  {
    var c, w := s.round, Window(s.round.frames, s.round.frameAt, FRAMES_PER_MESSAGE);
    GoodIsIdentified(e.cat, s.snap.frames);
    WindowRange(c.frames, c.frameAt, FRAMES_PER_MESSAGE, |s.snap.frames|);
    PutPicked(e.cat, p.sync.frames, s.snap.frames, p.lookup, w);
    var fs := PutFrames(p.sync.frames, p.lookup, PickFrames(s.snap.frames, w)).value;
    FrameDeltaReceived(p, s.snap.frames, w, c.sampleSeq, c.changeSeq, c.ts, fs);
    q := p.(sync := View(fs, p.sync.signals, c.sampleSeq, c.changeSeq, c.ts));
  }

  lemma RoundSignalsReceived(e: Env, s: Session, p: Peer) returns (q: Peer)
    requires GoodEnv(e) && Following(e, s, p)
    requires s.round.frameAt == |s.round.frames| && s.round.signalAt < |s.round.signals|
    ensures Length(RoundMessage(s)) <= CLIENT_MESSAGE_CAP
    ensures Receive(p, RoundMessage(s)) == Some(q) && q == p.(sync := q.sync)
    ensures Following(e, RoundAdvanced(s), q) && q.sync.frames == p.sync.frames
    ensures Patched(p.sync.signals, s.snap.signals,
                    Window(s.round.signals, s.round.signalAt, SIGNALS_PER_MESSAGE), q.sync.signals)
  {
    var c, w := s.round, Window(s.round.signals, s.round.signalAt, SIGNALS_PER_MESSAGE);
    WindowRange(c.signals, c.signalAt, SIGNALS_PER_MESSAGE, |s.snap.signals|);
    PutPickedSignals(p.sync.signals, s.snap.signals, w);
    var ss := PutSignals(p.sync.signals, PickSignals(s.snap.signals, w)).value;
    SignalDeltaReceived(p, s.snap.signals, w, c.sampleSeq, c.changeSeq, c.ts, ss);
    q := p.(sync := View(p.sync.frames, ss, c.sampleSeq, c.changeSeq, c.ts));
  }

  /** One batch of the round shrinks what the client is missing. */
  lemma RoundFramesTaken(e: Env, s: Session, p: Peer) returns (q: Peer)
    requires GoodEnv(e) && Acquainted(e, s, p) && CatchupStage(e, s, p) && p.phase.Subscribing?
    requires s.round.frameAt < |s.round.frames|
    ensures Length(RoundMessage(s)) <= CLIENT_MESSAGE_CAP
    ensures Receive(p, RoundMessage(s)) == Some(q) && q == p.(sync := q.sync)
    ensures CatchupStage(e, RoundAdvanced(s), q) && (Behind(s, p) ==> Behind(RoundAdvanced(s), q))
  {
    var c := s.round;
    q := RoundFramesReceived(e, s, p);
    FramePatchShrinks(p.sync.frames, s.snap.frames, q.sync.frames, c.frames, c.frameAt);
    if Behind(s, p) { FramePatchNeeded(p.sync.frames, s.snap.frames, q.sync.frames, c.frames, c.frameAt); }
  }

  lemma RoundSignalsTaken(e: Env, s: Session, p: Peer) returns (q: Peer)
    requires GoodEnv(e) && Acquainted(e, s, p) && CatchupStage(e, s, p) && p.phase.Subscribing?
    requires s.round.frameAt == |s.round.frames| && s.round.signalAt < |s.round.signals|
    ensures Length(RoundMessage(s)) <= CLIENT_MESSAGE_CAP
    ensures Receive(p, RoundMessage(s)) == Some(q) && q == p.(sync := q.sync)
    ensures CatchupStage(e, RoundAdvanced(s), q) && (Behind(s, p) ==> Behind(RoundAdvanced(s), q))
  {
    var c := s.round;
    q := RoundSignalsReceived(e, s, p);
    SignalPatchShrinks(p.sync.signals, s.snap.signals, q.sync.signals, c.signals, c.signalAt);
    if Behind(s, p) { SignalPatchNeeded(p.sync.signals, s.snap.signals, q.sync.signals, c.signals, c.signalAt); }
  }

  lemma RoundMessageTaken(e: Env, s: Session, p: Peer) returns (m: Msg, q: Peer)
    requires GoodEnv(e) && Acquainted(e, s, p) && CatchupStage(e, s, p) && p.phase.Subscribing? && !RoundDone(s)
    ensures m == RoundMessage(s) && Length(m) <= CLIENT_MESSAGE_CAP
    ensures Receive(p, m) == Some(q) && q == p.(sync := q.sync)
    ensures CatchupStage(e, RoundAdvanced(s), q) && (Behind(s, p) ==> Behind(RoundAdvanced(s), q))
  {
    m := RoundMessage(s);
    if s.round.frameAt < |s.round.frames| {
      q := RoundFramesTaken(e, s, p);
    } else {
      q := RoundSignalsTaken(e, s, p);
    }
  }

  /** A new round starts from what the last one left: the copy. */
  lemma RoundBegins(e: Env, s: Session, p: Peer)
    requires GoodEnv(e) && Acquainted(e, s, p) && CopyGood(e, s) && Locates(e.cat, p.lookup) && CopyShaped(e.sv, s)
    requires p.requests == [] && s.catchup && s.snapDone && !s.snapActive
    requires !s.subscribed && !s.needsResync && !s.resyncQueued
    requires FramesMatch(p.sync.frames, s.snap.frames, []) && SignalsMatch(p.sync.signals, s.snap.signals, [])
    requires p.cache.sampleSeq <= p.sync.sampleSeq <= e.sv.sampleSeq
    ensures CatchupStage(e, BeginRound(e.sv, s), p) && Behind(BeginRound(e.sv, s), p)
  {
    ServerConverted(e);
    GoodIsIdentified(e.cat, s.snap.frames);
    GoodIsIdentified(e.cat, e.sv.frames);
    FramesMoveOn(e.cat, p.sync.frames, s.snap.frames, e.sv.frames);
    SignalsMoveOn(e.cat, p.sync.signals, s.snap.signals, e.sv.signals);
    MarkedIncreasing(FrameFlags(s.snap.frames, e.sv.frames));
    MarkedIncreasing(SignalFlags(s.snap.signals, e.sv.signals));
    var b := BeginRound(e.sv, s);
    assert b.round.frames[0..] == b.round.frames && b.round.signals[0..] == b.round.signals;
  }

  lemma ServerConverted(e: Env)
    requires GoodEnv(e)
    ensures AllConverted(e.cat, e.sv.signals)
  {
    forall i | 0 <= i < |e.cat.defs| ensures Converted(e.cat, e.sv.signals[i], i) {
      assert SignalInv(e.cat, e.sv, i);
    }
  }

  /** In the middle of a catch-up callback. */
  predicate Driving(e: Env, s: Session, peer: Peer)
    requires GoodEnv(e)
  {
    var d := Deliver(peer, s.stream);
    && d.Some? && s.active && s.catchup && Core(e, s, d.value)
    && d.value.phase.Subscribing? && CatchupStage(e, s, d.value) && CopyShaped(e.sv, s)
  }

  /** A batch of the round that has a slot is sent, and the client's copy follows. */
  lemma RoundBatchSent(e: Env, s: Session, peer: Peer) returns (t: Session)
    requires GoodEnv(e) && Driving(e, s, peer) && !RoundDone(s) && FreeCount(s.slots) > 0
    ensures RoundStep(s) == Ok(t) && t.snap == s.snap && t.round == Advance(s.round)
    ensures Driving(e, t, peer) && (BehindOk(s, peer) ==> BehindOk(t, peer))
    ensures FreeCount(t.slots) == FreeCount(s.slots) - 1 && |t.stream| == |s.stream| + 1
  {
    var m, q := RoundMessageTaken(e, s, Deliver(peer, s.stream).value);
    QueueSucceeds(e.setup, s, m, false);
    SendKeepsQueue(e.setup, s, m);
    Sent(peer, s, m);
    t := RoundAdvanced(Send(s, m));
  }

  /** SUBSCRIBED makes the client publish a copy that equals the canonical state. */
  lemma SubscriptionTaken(e: Env, s: Session, p: Peer) returns (q: Peer)
    requires GoodEnv(e) && Acquainted(e, s, p) && CatchupStage(e, s, p) && p.phase.Subscribing? && RoundDone(s)
    requires s.snap.frames == e.sv.frames && s.snap.signals == e.sv.signals
    requires NotAhead(e, p)
    ensures Receive(p, Subscribed(e.sv.changeSeq, e.sv.sampleTs)) == Some(q) && Orderly(p, q)
    ensures q == p.(phase := Live, sync := q.sync, cache := q.cache, lookup := q.lookup, lastSeq := e.sv.changeSeq)
    ensures Locates(e.cat, q.lookup) && Agrees(q.cache, e.sv)
    ensures q.cache.changeSeq == e.sv.changeSeq && NotAhead(e, q)
  {
    assert s.round.frames[s.round.frameAt..] == [] && s.round.signals[s.round.signalAt..] == [];
    FramesAgreeIdentified(e, p.sync.frames);
    IndexedLocates(e.cat, map[], p.sync.frames);
    q := Receive(p, Subscribed(e.sv.changeSeq, e.sv.sampleTs)).value;
  }

  lemma SubscriptionAnnounced(e: Env, s: Session, peer: Peer) returns (t: Session)
    requires GoodEnv(e) && Driving(e, s, peer) && RoundDone(s) && FreeCount(s.slots) > 0
    requires s.snap.frames == e.sv.frames && s.snap.signals == e.sv.signals
    ensures Announce(e.sv, s) == Ok(t) && t.active && t.subscribed
    ensures Linked(e, t, peer) && !t.catchup
    ensures FreeCount(t.slots) == FreeCount(s.slots) - 1 && |t.stream| == |s.stream| + 1
  {
    var m := Subscribed(e.sv.changeSeq, e.sv.sampleTs);
    QueueSucceeds(e.setup, s, m, false);
    SendKeepsQueue(e.setup, s, m);
    var q := SubscriptionTaken(e, s, Deliver(peer, s.stream).value);
    Sent(peer, s, m);
    t := Send(s, m).(catchup := false, subscribed := true, announced := s.announced + 1);
  }

  lemma FramesAgreeIdentified(e: Env, frames: seq<Frame>)
    requires GoodEnv(e) && FramesMatch(frames, e.sv.frames, [])
    ensures Identified(e.cat, frames)
  {
    GoodIsIdentified(e.cat, e.sv.frames);
  }

  /** One turn of the driver with room in the queue. */
  lemma DriveTurn(e: Env, s: Session, peer: Peer) returns (t: Session, last: bool)
    requires GoodEnv(e) && Driving(e, s, peer) && FreeCount(s.slots) > 0
    ensures last ==> Drive(e.sv, s) == Ok(t) && t.active && t.subscribed && Linked(e, t, peer)
    ensures !last ==> Driving(e, t, peer) && Drive(e.sv, s) == Drive(e.sv, t)
    ensures BehindOk(s, peer) ==> BehindOk(t, peer)
    ensures |t.stream| - |s.stream| == FreeCount(s.slots) - FreeCount(t.slots) >= 0
    ensures FreeCount(t.slots) < FreeCount(s.slots) || (RoundDone(s) && !RoundDone(t))
  {
    RoomIsASlot(e.setup, s, 0, 0);
    if !RoundDone(s) {
      t := RoundBatchSent(e, s, peer);
      last := false;
    } else {
      RoundRestarted(e, s, peer);
      t := BeginRound(e.sv, s);
      last := RoundDone(t);
      if last {
        t := SubscriptionAnnounced(e, t, peer);
      }
    }
  }

  /** The catch-up driver never fails, keeps the invariant, stops only when the client is
      subscribed or the queue is full, and sends one message per slot it takes. */
  lemma {:induction false} DriveKeeps(e: Env, s: Session, peer: Peer)
    requires GoodEnv(e) && Driving(e, s, peer)
    ensures var o := Drive(e.sv, s);
            && o.Ok? && o.s.active && Linked(e, o.s, peer)
            && (o.s.subscribed || (o.s.catchup && FreeCount(o.s.slots) == 0))
            && (BehindOk(s, peer) ==> BehindOk(o.s, peer))
            && |o.s.stream| - |s.stream| == FreeCount(s.slots) - FreeCount(o.s.slots) >= 0
    decreases FreeCount(s.slots), if RoundDone(s) then 1 else 0
  {
    if FreeCount(s.slots) == 0 {
      RoomIsASlot(e.setup, s, 0, 0);
    } else {
      var t, last := DriveTurn(e, s, peer);
      if !last { DriveKeeps(e, t, peer); }
    }
  }

  lemma RoundRestarted(e: Env, s: Session, peer: Peer)
    requires GoodEnv(e) && Driving(e, s, peer) && RoundDone(s)
    ensures Driving(e, BeginRound(e.sv, s), peer) && BehindOk(BeginRound(e.sv, s), peer)
  {
    assert s.round.frames[s.round.frameAt..] == [] && s.round.signals[s.round.signalAt..] == [];
    RoundBegins(e, s, Deliver(peer, s.stream).value);
  }

  lemma SubscribeServed(e: Env, s: Session, p: Peer)
    requires GoodEnv(e) && Core(e, s, p) && s.active && s.stream == []
    requires p.phase.Subscribing? && AskedStage(e, s, p)
    ensures CopyShaped(e.sv, s)
    ensures var o := ServeSubscribe(e.sv, s);
            && o.Ok? && o.s.active && Linked(e, o.s, p.(requests := [])) && BehindOk(o.s, p.(requests := []))
            && (o.s.subscribed || (o.s.catchup && FreeCount(o.s.slots) == 0))
  {
    var q, c := p.(requests := []), s.(catchup := true);
    assert s.snap.signals[..|s.snap.signals|] == s.snap.signals;
    RoundBegins(e, c, q);
    var b := BeginRound(e.sv, c);
    assert Deliver(q, b.stream) == Some(q);
    DriveKeeps(e, b, q);
  }

  lemma Dispatch(e: Env, s: Session, p: Peer)
    requires GoodEnv(e) && Linked(e, s, p) && s.active && p.requests != []
    ensures s.stream == [] && p.requests[1..] == [] && (s.snapDone ==> CopyShaped(e.sv, s))
    ensures Serve(e.cat, e.setup, e.sv, s, p.requests[0]) ==
            match p.phase
            case AwaitWelcome => ServeHello(e.cat, e.setup, e.sv, s)
            case AwaitSchema(next) => ServeSchema(e.cat, e.sv, s, next)
            case AwaitFrames(next) => ServeFrames(e.sv, s, next)
            case AwaitSignals(next) => ServeSignals(s, next)
            case _ => ServeSubscribe(e.sv, s)
    ensures p.phase.Subscribing? ==> AskedStage(e, s, p)
    ensures !p.phase.Subscribing? ==> !p.requests[0].SubscribeAll? && !s.catchup
    ensures !p.phase.Live?
  {
  }

  lemma ServeFramesCopy(sv: Server, s: Session, start: nat)
    ensures var t := ServeFrames(sv, s, start).s;
            && t.catchup == s.catchup && t.subscribed == s.subscribed && t.active == s.active && t.resyncs == s.resyncs
            && t.snap == if start == 0 && !s.snapActive then CopyOf(sv) else s.snap
  {
    var b := if start == 0 && !s.snapActive then BeginSnapshot(sv, s) else s;
    if start <= |b.snap.frames| { var t := QueueKeepsBusiness(b, FramePage(b.snap, start), false); }
  }

  lemma ServeSignalsCopy(s: Session, start: nat)
    ensures var t := ServeSignals(s, start).s;
            t.catchup == s.catchup && t.snap == s.snap && t.active == s.active && t.resyncs == s.resyncs
  {
    if start <= |s.snap.signals| { var t := QueueKeepsBusiness(s, SignalsPage(s.snap, start), false); }
  }

  lemma ServeKeepsCatchup(cat: Catalog, setup: Setup, sv: Server, s: Session, q: Request)
    requires GoodLayout(cat) && (s.snapDone ==> CopyShaped(sv, s)) && !q.SubscribeAll?
    ensures Serve(cat, setup, sv, s, q).s.catchup == s.catchup && Serve(cat, setup, sv, s, q).s.resyncs == s.resyncs
  {
    match q
    case Hello => var t := QueueKeepsBusiness(s, Welcome(sv.changeSeq, sv.sampleTs, Greet(cat, setup)), false);
    case Ping => var t := QueueKeepsBusiness(s, Pong(sv.changeSeq, sv.sampleTs), false);
    case GetSnapshot(start) => ServeFramesCopy(sv, s, start);
    case GetSignalSnapshot(start) => ServeSignalsCopy(s, start);
    case GetSchema(start) =>
      if start < |cat.defs| {
        var page := Schema.PageFrom(cat, start, PAYLOAD_CAP);
        var t := QueueKeepsBusiness(s, SchemaPage(sv.changeSeq, sv.sampleTs, page), false);
      }
  }

  lemma QueueSends(s: Session, m: Msg)
    requires Queue(s, m, false).Ok?
    ensures var t := Queue(s, m, false).s;
            t.stream == s.stream + [m] && FreeCount(t.slots) == FreeCount(s.slots) - 1
  {
    SendTakesSlot(s, m);
  }

  /** Every answer but the one to SUBSCRIBE_ALL is one message in one slot. */
  lemma ServeSends(cat: Catalog, setup: Setup, sv: Server, s: Session, r: Request) returns (m: Msg)
    requires GoodLayout(cat) && (s.snapDone ==> CopyShaped(sv, s)) && !r.SubscribeAll?
    requires Serve(cat, setup, sv, s, r).Ok?
    ensures var t := Serve(cat, setup, sv, s, r).s;
            t.stream == s.stream + [m] && FreeCount(t.slots) == FreeCount(s.slots) - 1
  {
    var b := s;
    match r {
      case Hello => m := Welcome(sv.changeSeq, sv.sampleTs, Greet(cat, setup));
      case Ping => m := Pong(sv.changeSeq, sv.sampleTs);
      case GetSchema(start) => m := SchemaPage(sv.changeSeq, sv.sampleTs, Schema.PageFrom(cat, start, PAYLOAD_CAP));
      case GetSnapshot(start) =>
        b := if start == 0 && !s.snapActive then BeginSnapshot(sv, s) else s;
        m := FramePage(b.snap, start);
      case GetSignalSnapshot(start) => m := SignalsPage(s.snap, start);
    }
    QueueSends(b, m);
  }

  /** Every request of the client is answered or ends the session. */
  lemma RequestServed(e: Env, s: Session, p: Peer)
    requires GoodEnv(e) && Linked(e, s, p) && s.active && p.requests != []
    ensures p.requests == [p.requests[0]] && (s.snapDone ==> CopyShaped(e.sv, s))
    ensures Linked(e, OrClose(Serve(e.cat, e.setup, e.sv, s, p.requests[0])), p.(requests := p.requests[1..]))
    ensures BehindOk(OrClose(Serve(e.cat, e.setup, e.sv, s, p.requests[0])), p.(requests := p.requests[1..]))
  {
    Dispatch(e, s, p);
    if !p.phase.Subscribing? { ServeKeepsCatchup(e.cat, e.setup, e.sv, s, p.requests[0]); }
    match p.phase
    case AwaitWelcome => HelloServed(e, s, p);
    case AwaitSchema(_) => SchemaServed(e, s, p);
    case AwaitFrames(_) => FramesServed(e, s, p);
    case AwaitSignals(_) => SignalsServed(e, s, p);
    case Subscribing => SubscribeServed(e, s, p);
    case Live => assert false;
  }

  // ---- Write completions ----

  /** A resync is owed and the queue is empty. */
  lemma ResyncSent(e: Env, s: Session, peer: Peer)
    requires GoodEnv(e) && Deliver(peer, s.stream).Some? && s.active
    requires Core(e, s, Deliver(peer, s.stream).value) && !s.catchup
    ensures Linked(e, MaybeResync(e.sv, s), peer) && MaybeResync(e.sv, s).active && !MaybeResync(e.sv, s).catchup
  {
    var p, m := Deliver(peer, s.stream).value, ResyncRequired(e.sv.changeSeq, e.sv.sampleTs);
    if s.greeted && s.needsResync && !s.resyncQueued && s.pending == 0 {
      BytesBound(s.slots);
      QueueSucceeds(e.setup, s, m, false);
      SendKeepsQueue(e.setup, s, m);
      assert p.phase.Live?;
      Sent(peer, s, m);
    }
  }

  lemma SlotFreed(e: Env, s: Session, p: Peer, k: nat)
    requires GoodEnv(e) && Core(e, s, p) && k < |s.slots| && s.slots[k].Busy?
    ensures s.pending >= s.slots[k].length && (s.catchup ==> CopyShaped(e.sv, s) && RoundShaped(s))
    ensures Core(e, FreeSlot(s, k), p)
  {
    EmptySlot(s.slots, k);
    CoreIgnoresQueue(e, s, FreeSlot(s, k), p);
  }

  /** A completed write frees its slot, exactly, and takes on whatever was waiting for room. */
  lemma WriteCompleted(e: Env, s: Session, peer: Peer, k: nat)
    requires GoodEnv(e) && Linked(e, s, peer) && s.active && k < |s.slots| && s.slots[k].Busy?
    ensures s.pending >= s.slots[k].length && (s.catchup ==> CopyShaped(e.sv, s) && RoundShaped(s))
    ensures Linked(e, Written(e.sv, s, k), peer) && Written(e.sv, s, k).active
    ensures BehindOk(s, peer) ==> BehindOk(Written(e.sv, s, k), peer)
  {
    SlotFreed(e, s, Deliver(peer, s.stream).value, k);
    if s.catchup {
      DriveKeeps(e, FreeSlot(s, k), peer);
    } else {
      ResyncSent(e, FreeSlot(s, k), peer);
    }
  }

  // ---- What broadcasts and heartbeats leave alone ----

  /** Only the queue, the stream and the bookkeeping of drops have changed, and a subscriber is
      still one or owes a resync. */
  predicate OnlySent(s: Session, t: Session) {
    && SameBusiness(s, t) && (t.active ==> s.active)
    && (s.subscribed || s.needsResync ==> t.subscribed || t.needsResync)
  }

  lemma QueueOnlySends(s: Session, m: Msg) returns (t: Session)
    ensures t == OrClose(Queue(s, m, true)) && OnlySent(s, t)
  {
    t := QueueKeepsBusiness(s, m, true);
    t := OrClose(Queue(s, m, true));
  }

  lemma {:induction false} FramesOnlySent(sv: Server, s: Session, idx: seq<nat>, at: nat)
    requires InRange(idx, |sv.frames|) && at <= |idx|
    ensures OnlySent(s, SendFrames(sv, s, idx, at))
    decreases |idx| - at
  {
    if at < |idx| && s.active && !s.needsResync {
      var w := Window(idx, at, FRAMES_PER_MESSAGE);
      var t := QueueOnlySends(s, FramesNow(sv, w));
      FramesOnlySent(sv, t, idx, at + |w|);
    }
  }

  lemma {:induction false} SignalsOnlySent(sv: Server, s: Session, idx: seq<nat>, at: nat)
    requires InRange(idx, |sv.signals|) && at <= |idx|
    ensures OnlySent(s, SendSignals(sv, s, idx, at))
    decreases |idx| - at
  {
    if at < |idx| && s.active && !s.needsResync {
      var w := Window(idx, at, SIGNALS_PER_MESSAGE);
      var t := QueueOnlySends(s, SignalsNow(sv, w));
      SignalsOnlySent(sv, t, idx, at + |w|);
    }
  }

  lemma SharedOnlySent(a: Server, b: Server, s: Session)
    requires |a.frames| == |b.frames| && |a.signals| == |b.signals|
    ensures OnlySent(s, Shared(a, b, s)) && (!s.subscribed ==> Shared(a, b, s) == s)
  {
    var frames, signals := Marked(FrameFlags(a.frames, b.frames)), Marked(SignalFlags(a.signals, b.signals));
    FramesOnlySent(b, s, frames, 0);
    SignalsOnlySent(b, SendFrames(b, s, frames, 0), signals, 0);
  }

  lemma BeatOnlySent(sv: Server, s: Session, milliHz: nat, sourceState: nat)
    ensures var t := BeatTo(sv, s, milliHz, sourceState); OnlySent(s, t) && (!s.subscribed ==> t == s)
  {
    var t := QueueOnlySends(s, BeatOf(sv, s, milliHz, sourceState));
  }

  /** What does not touch a catch-up keeps it no longer than it has to be. */
  lemma BehindUntouched(e: Env, s: Session, t: Session, peer: Peer)
    requires GoodEnv(e) && Linked(e, s, peer) && BehindOk(s, peer)
    requires OnlySent(s, t) && (!s.subscribed ==> t == s)
    ensures BehindOk(t, peer)
  {
  }

  // ---- Heartbeats ----

  lemma BeatSent(e: Env, s: Session, peer: Peer, milliHz: nat, sourceState: nat)
    requires GoodEnv(e) && Linked(e, s, peer) && s.active
    ensures var t := BeatTo(e.sv, s, milliHz, sourceState); Linked(e, t, peer) && t.active
  {
    var p, m := Deliver(peer, s.stream).value, BeatOf(e.sv, s, milliHz, sourceState);
    if s.subscribed {
      QueueSucceeds(e.setup, s, m, true);
      if FreeCount(s.slots) > 0 {
        SendKeepsQueue(e.setup, s, m);
        Sent(peer, s, m);
      } else {
        BytesBound(s.slots);
      }
    }
  }

  // ---- Broadcasts ----

  /** A broadcast in progress: the client misses at most what is still to be sent. */
  predicate Updating(e: Env, s: Session, peer: Peer, frames: seq<nat>, signals: seq<nat>)
    requires GoodEnv(e)
  {
    var d := Deliver(peer, s.stream);
    && d.Some? && s.active && QueueInv(e.setup, s) && Accounted(s) && Awake(s) && (s.snapDone ==> CopyShaped(e.sv, s))
    && var p := d.value;
       && p.phase.Live? && Acquainted(e, s, p) && p.requests == [] && p.gaps == 0
       && NotAhead(e, p) && e.sv.changeSeq <= p.cache.changeSeq + 1
       && !s.catchup && s.snapDone && !s.snapActive && !s.resyncQueued && s.subscribed == !s.needsResync
       && Locates(e.cat, p.lookup) && p.lastSeq == p.cache.changeSeq
       && (s.subscribed ==>
             && FramesMatch(p.cache.frames, e.sv.frames, frames)
             && SignalsMatch(p.cache.signals, e.sv.signals, signals))
  }

  /** The client after taking an update of the current state. */
  predicate Updated(e: Env, p: Peer, q: Peer) {
    && q == p.(cache := q.cache, lastSeq := e.sv.changeSeq)
    && q.cache.sampleSeq == e.sv.sampleSeq && q.cache.changeSeq == e.sv.changeSeq && q.cache.ts == e.sv.sampleTs
  }

  lemma FrameUpdateTaken(e: Env, p: Peer, idx: seq<nat>, at: nat)
    requires GoodEnv(e) && InRange(idx, |e.sv.frames|) && at < |idx|
    requires p.phase.Live? && p.greeting == Greet(e.cat, e.setup) && Locates(e.cat, p.lookup)
    requires p.lastSeq <= e.sv.changeSeq <= p.lastSeq + 1 && FramesMatch(p.cache.frames, e.sv.frames, idx[at..])
    ensures var w := Window(idx, at, FRAMES_PER_MESSAGE);
            && InRange(w, |e.sv.frames|) && Length(FramesNow(e.sv, w)) <= CLIENT_MESSAGE_CAP
            && var q := Receive(p, FramesNow(e.sv, w));
            && q.Some? && Updated(e, p, q.value) && q.value.cache.signals == p.cache.signals
            && FramesMatch(q.value.cache.frames, e.sv.frames, idx[at + |w|..])
  {
    GoodIsIdentified(e.cat, e.sv.frames);
    FrameBatchApplied(e.cat, p.cache.frames, e.sv.frames, p.lookup, idx, at);
  }

  lemma SignalUpdateTaken(e: Env, p: Peer, idx: seq<nat>, at: nat)
    requires GoodEnv(e) && InRange(idx, |e.sv.signals|) && at < |idx|
    requires p.phase.Live? && p.greeting == Greet(e.cat, e.setup)
    requires p.lastSeq <= e.sv.changeSeq <= p.lastSeq + 1 && SignalsMatch(p.cache.signals, e.sv.signals, idx[at..])
    ensures var w := Window(idx, at, SIGNALS_PER_MESSAGE);
            && InRange(w, |e.sv.signals|) && Length(SignalsNow(e.sv, w)) <= CLIENT_MESSAGE_CAP
            && var q := Receive(p, SignalsNow(e.sv, w));
            && q.Some? && Updated(e, p, q.value) && q.value.cache.frames == p.cache.frames
            && SignalsMatch(q.value.cache.signals, e.sv.signals, idx[at + |w|..])
  {
    SignalBatchApplied(p.cache.signals, e.sv.signals, idx, at);
  }

  /** An update that the client would take is queued or dropped; either way the broadcast
      goes on in step. */
  lemma UpdateSent(
    e: Env, s: Session, peer: Peer, m: Msg,
    frames: seq<nat>, signals: seq<nat>, frames2: seq<nat>, signals2: seq<nat>)
    requires GoodEnv(e) && Updating(e, s, peer, frames, signals) && s.subscribed && Length(m) <= CLIENT_MESSAGE_CAP
    requires var p := Deliver(peer, s.stream).value;
             var q := Receive(p, m);
             && q.Some? && Updated(e, p, q.value)
             && FramesMatch(q.value.cache.frames, e.sv.frames, frames2)
             && SignalsMatch(q.value.cache.signals, e.sv.signals, signals2)
    ensures var t := OrClose(Queue(s, m, true));
            && Updating(e, t, peer, frames2, signals2)
            && (t.subscribed ==> Deliver(peer, t.stream).value.cache.changeSeq == e.sv.changeSeq)
  {
    QueueSucceeds(e.setup, s, m, true);
    if FreeCount(s.slots) > 0 {
      SendKeepsQueue(e.setup, s, m);
      Sent(peer, s, m);
    } else {
      BytesBound(s.slots);
    }
  }

  lemma FramesGoOn(e: Env, s: Session, peer: Peer, idx: seq<nat>, at: nat, signals: seq<nat>)
    returns (t: Session, n: nat)
    requires GoodEnv(e) && InRange(idx, |e.sv.frames|) && at < |idx|
    requires Updating(e, s, peer, idx[at..], signals) && s.subscribed
    ensures at < n <= |idx| && SendFrames(e.sv, s, idx, at) == SendFrames(e.sv, t, idx, n)
    ensures Updating(e, t, peer, idx[n..], signals)
    ensures t.subscribed ==> Deliver(peer, t.stream).value.cache.changeSeq == e.sv.changeSeq
  {
    var w := Window(idx, at, FRAMES_PER_MESSAGE);
    n := at + |w|;
    FrameUpdateTaken(e, Deliver(peer, s.stream).value, idx, at);
    UpdateSent(e, s, peer, FramesNow(e.sv, w), idx[at..], signals, idx[n..], signals);
    t := OrClose(Queue(s, FramesNow(e.sv, w), true));
  }

  lemma {:induction false} FramesBroadcast(e: Env, s: Session, peer: Peer, idx: seq<nat>, at: nat, signals: seq<nat>)
    requires GoodEnv(e) && InRange(idx, |e.sv.frames|) && at <= |idx|
    requires Updating(e, s, peer, idx[at..], signals)
    ensures var t := SendFrames(e.sv, s, idx, at);
            && Updating(e, t, peer, [], signals)
            && (t.subscribed && at < |idx| ==> Deliver(peer, t.stream).value.cache.changeSeq == e.sv.changeSeq)
    decreases |idx| - at
  {
    if at < |idx| && s.subscribed {
      var t, n := FramesGoOn(e, s, peer, idx, at, signals);
      FramesBroadcast(e, t, peer, idx, n, signals);
      if n == |idx| { assert SendFrames(e.sv, t, idx, n) == t; }
    } else {
      assert at == |idx| ==> idx[at..] == [];
    }
  }

  lemma SignalsGoOn(e: Env, s: Session, peer: Peer, idx: seq<nat>, at: nat) returns (t: Session, n: nat)
    requires GoodEnv(e) && InRange(idx, |e.sv.signals|) && at < |idx|
    requires Updating(e, s, peer, [], idx[at..]) && s.subscribed
    ensures at < n <= |idx| && SendSignals(e.sv, s, idx, at) == SendSignals(e.sv, t, idx, n)
    ensures Updating(e, t, peer, [], idx[n..])
    ensures t.subscribed ==> Deliver(peer, t.stream).value.cache.changeSeq == e.sv.changeSeq
  {
    var w := Window(idx, at, SIGNALS_PER_MESSAGE);
    n := at + |w|;
    SignalUpdateTaken(e, Deliver(peer, s.stream).value, idx, at);
    UpdateSent(e, s, peer, SignalsNow(e.sv, w), [], idx[at..], [], idx[n..]);
    t := OrClose(Queue(s, SignalsNow(e.sv, w), true));
  }

  lemma {:induction false} SignalsBroadcast(e: Env, s: Session, peer: Peer, idx: seq<nat>, at: nat)
    requires GoodEnv(e) && InRange(idx, |e.sv.signals|) && at <= |idx|
    requires Updating(e, s, peer, [], idx[at..])
    requires s.subscribed ==> Deliver(peer, s.stream).value.cache.changeSeq == e.sv.changeSeq
    ensures var t := SendSignals(e.sv, s, idx, at);
            && Updating(e, t, peer, [], [])
            && (t.subscribed ==> Deliver(peer, t.stream).value.cache.changeSeq == e.sv.changeSeq)
    decreases |idx| - at
  {
    if at < |idx| && s.subscribed {
      var t, n := SignalsGoOn(e, s, peer, idx, at);
      SignalsBroadcast(e, t, peer, idx, n);
    } else {
      assert at == |idx| ==> idx[at..] == [];
    }
  }

  // ---- A new sample ----

  predicate Due(e: Env, sample: Sample)
    requires GoodEnv(e)
  {
    && GoodFrames(e.cat, sample.frames) && sample.sequence > e.sv.sampleSeq
    && e.sv.sampleTs <= sample.timestamp && 0 < sample.timestamp
  }

  function Moved(e: Env, sample: Sample): (f: Env)
    requires GoodEnv(e) && Due(e, sample)
    ensures GoodEnv(f)
  {
    AbsorbKeepsInv(e.cat, e.sv, sample);
    var next := Absorb(e.cat, e.sv, sample);
    Env(e.cat, e.setup, next)
  }

  function Distributed(e: Env, sample: Sample, s: Session): Session
    requires GoodEnv(e) && Due(e, sample)
  {
    Shared(e.sv, Moved(e, sample).sv, s)
  }

  /** A session that is not subscribed does not notice. */
  lemma Unnoticed(e: Env, sample: Sample, s: Session, peer: Peer)
    requires GoodEnv(e) && Due(e, sample) && Linked(e, s, peer) && (s.active ==> !s.subscribed)
    ensures Linked(Moved(e, sample), s, peer)
  {
  }

  /** A subscriber of the old state misses exactly what the scans found. */
  lemma UpdateDue(e: Env, sample: Sample, s: Session, peer: Peer)
    requires GoodEnv(e) && Due(e, sample) && Linked(e, s, peer) && s.active && s.subscribed
    ensures var f := Moved(e, sample);
            Updating(f, s, peer, Marked(FrameFlags(e.sv.frames, f.sv.frames)),
                     Marked(SignalFlags(e.sv.signals, f.sv.signals)))
  {
    var f := Moved(e, sample);
    var p := Deliver(peer, s.stream).value;
    GoodIsIdentified(e.cat, e.sv.frames);
    GoodIsIdentified(e.cat, f.sv.frames);
    ServerConverted(e);
    ServerConverted(f);
    FramesMoveOn(e.cat, p.cache.frames, e.sv.frames, f.sv.frames);
    SignalsMoveOn(e.cat, p.cache.signals, e.sv.signals, f.sv.signals);
  }

  lemma NoSignalChange(e: Env, sample: Sample)
    requires GoodEnv(e) && Due(e, sample) && !Changes(e.sv, sample)
    ensures Marked(SignalFlags(e.sv.signals, Moved(e, sample).sv.signals)) == []
  {
    var idx := Marked(SignalFlags(e.sv.signals, Moved(e, sample).sv.signals));
    if idx != [] {
      MarkedMember(SignalFlags(e.sv.signals, Moved(e, sample).sv.signals), idx[0]);
      assert false;
    }
  }

  lemma UpdateFinished(e: Env, s: Session, peer: Peer)
    requires GoodEnv(e) && Updating(e, s, peer, [], [])
    requires s.subscribed ==> Deliver(peer, s.stream).value.cache.changeSeq == e.sv.changeSeq
    ensures Linked(e, s, peer)
  {
  }

  lemma SubscriberUpdated(e: Env, s: Session, peer: Peer, frames: seq<nat>, signals: seq<nat>)
    requires GoodEnv(e) && Updating(e, s, peer, frames, signals) && s.subscribed && frames != []
    requires InRange(frames, |e.sv.frames|) && InRange(signals, |e.sv.signals|)
    ensures var t := Broadcast(e.sv, frames, signals, s); Linked(e, t, peer) && t.active
  {
    assert frames[0..] == frames && signals[0..] == signals;
    FramesBroadcast(e, s, peer, frames, 0, signals);
    var t := SendFrames(e.sv, s, frames, 0);
    SignalsBroadcast(e, t, peer, signals, 0);
    UpdateFinished(e, SendSignals(e.sv, t, signals, 0), peer);
  }

  /** A subscriber stays in step when the sample changed something, and when it did not. */
  lemma SubscriberMoves(e: Env, sample: Sample, s: Session, peer: Peer)
    requires GoodEnv(e) && Due(e, sample) && Linked(e, s, peer) && s.active && s.subscribed && Changes(e.sv, sample)
    ensures Linked(Moved(e, sample), Distributed(e, sample, s), peer) && Distributed(e, sample, s).active
  {
    var f := Moved(e, sample);
    UpdateDue(e, sample, s, peer);
    SubscriberUpdated(f, s, peer, Marked(FrameFlags(e.sv.frames, f.sv.frames)),
                      Marked(SignalFlags(e.sv.signals, f.sv.signals)));
  }

  lemma SubscriberRests(e: Env, sample: Sample, s: Session, peer: Peer)
    requires GoodEnv(e) && Due(e, sample) && Linked(e, s, peer) && s.active && s.subscribed && !Changes(e.sv, sample)
    ensures Distributed(e, sample, s) == s && Linked(Moved(e, sample), s, peer)
  {
    UpdateDue(e, sample, s, peer);
    NoSignalChange(e, sample);
    UpdateFinished(Moved(e, sample), s, peer);
  }

  /** Every session survives every distribution in step. */
  lemma DistributionKeeps(e: Env, sample: Sample, s: Session, peer: Peer)
    requires GoodEnv(e) && Due(e, sample) && Linked(e, s, peer)
    ensures Linked(Moved(e, sample), Distributed(e, sample, s), peer)
    ensures Distributed(e, sample, s).active == s.active
  {
    if !s.active || !s.subscribed {
      Unnoticed(e, sample, s, peer);
    } else if Changes(e.sv, sample) {
      SubscriberMoves(e, sample, s, peer);
    } else {
      SubscriberRests(e, sample, s, peer);
    }
  }

  // ---- The client's own steps ----

  function Taken(s: Session): Session
    requires s.stream != []
  {
    s.(stream := s.stream[1..])
  }

  lemma HeadAccepted(peer: Peer, stream: seq<Msg>) returns (q: Peer)
    requires Deliver(peer, stream).Some? && stream != []
    ensures peer.requests == [] && Receive(peer, stream[0]) == Some(q) && Orderly(peer, q)
    ensures Deliver(peer, stream) == Deliver(q, stream[1..])
  {
    q := Receive(peer, stream[0]).value;
  }

  lemma TakenKeeps(e: Env, s: Session, peer: Peer, q: Peer)
    requires GoodEnv(e) && Linked(e, s, peer) && s.stream != []
    requires Deliver(peer, s.stream) == Deliver(q, s.stream[1..])
    ensures Linked(e, Taken(s), q)
  {
    if s.active { CoreIgnoresQueue(e, s, Taken(s), Deliver(peer, s.stream).value); }
  }

  /** The next message in flight is always acceptable, comes when no request is open, and
      reading it keeps the link. */
  lemma ReceptionKeeps(e: Env, s: Session, peer: Peer)
    requires GoodEnv(e) && Linked(e, s, peer) && s.stream != []
    ensures peer.requests == [] && Receive(peer, s.stream[0]).Some?
    ensures Orderly(peer, Receive(peer, s.stream[0]).value)
    ensures Linked(e, Taken(s), Receive(peer, s.stream[0]).value)
  {
    var q := HeadAccepted(peer, s.stream);
    TakenKeeps(e, s, peer, q);
  }

  /** Closing may lose the end of the stream. */
  lemma CloseKeeps(e: Env, s: Session, peer: Peer, keep: nat)
    requires GoodEnv(e) && Linked(e, s, peer) && keep <= |s.stream|
    ensures Linked(e, Closed(s).(stream := s.stream[..keep]), peer)
  {
    DeliverPrefix(peer, s.stream, keep);
  }

  lemma ConnectionStarts(e: Env)
    requires GoodEnv(e)
    ensures Linked(e, Connected(e.setup), NEWCOMER)
  {
    AllFree(e.setup.slots);
  }
}
