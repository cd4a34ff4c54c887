/** From messages to bytes: as long as no counter outgrows its field, every message in flight
    has an encoding, and the client reads exactly that message back from it. */
module OnTheWire {
  import opened Types
  import opened Wire
  import opened Records
  import opened Canonical
  import opened Protocol
  import opened Session
  import opened Peer
  import opened Replication
  import opened World
  import Bits
  import Schema

  // ---- Values that fit their fields ----

  predicate ValueFits(v: SignalValue) {
    v.raw < U64_LIMIT && v.physical < U64_LIMIT && v.firstObserved < U64_LIMIT && v.lastChange < U64_LIMIT
  }

  predicate TablesFit(frames: seq<Frame>, signals: seq<SignalValue>) {
    AllFit(frames, FrameFits) && AllFit(signals, ValueFits) && |frames| < U32_LIMIT && |signals| < U32_LIMIT
  }

  predicate ValuesFit(sv: Server) {
    && TablesFit(sv.frames, sv.signals)
    && sv.sampleSeq < U64_LIMIT && sv.changeSeq < U64_LIMIT && sv.sampleTs < U64_LIMIT && sv.coalesced < U64_LIMIT
  }

  predicate CopyFits(c: Copy) {
    TablesFit(c.frames, c.signals) && c.sampleSeq < U64_LIMIT && c.changeSeq < U64_LIMIT && c.ts < U64_LIMIT
  }

  predicate RoundFits(r: Round) {
    r.sampleSeq < U64_LIMIT && r.changeSeq < U64_LIMIT && r.ts < U64_LIMIT
  }

  predicate AllFits(stream: seq<Msg>) {
    forall k :: 0 <= k < |stream| ==> Fits(stream[k])
  }

  predicate SessionFits(s: Session) {
    AllFits(s.stream) && CopyFits(s.snap) && RoundFits(s.round)
  }

  // ---- Every message the daemon builds fits ----

  lemma FrameDeltaFits(frames: seq<Frame>, idx: seq<nat>, sampleSeq: nat, changeSeq: nat, ts: nat)
    requires AllFit(frames, FrameFits) && |frames| < U32_LIMIT && InRange(idx, |frames|) && |idx| <= FRAMES_PER_MESSAGE
    requires sampleSeq < U64_LIMIT && changeSeq < U64_LIMIT && ts < U64_LIMIT
    ensures Fits(FrameDelta(frames, idx, sampleSeq, changeSeq, ts))
  {
    var picked := PickFrames(frames, idx);
    forall k | 0 <= k < |picked| ensures FrameFits(picked[k]) { assert FrameFits(frames[idx[k]]); }
  }

  lemma PickedFit(signals: seq<SignalValue>, idx: seq<nat>)
    requires AllFit(signals, ValueFits) && |signals| < U32_LIMIT && InRange(idx, |signals|)
    ensures AllFit(PickSignals(signals, idx), UpdateFits)
  {
    var picked := PickSignals(signals, idx);
    forall k | 0 <= k < |picked| ensures UpdateFits(picked[k]) { assert ValueFits(signals[idx[k]]); }
  }

  lemma SignalDeltaFits(signals: seq<SignalValue>, idx: seq<nat>, sampleSeq: nat, changeSeq: nat, ts: nat)
    requires AllFit(signals, ValueFits) && |signals| < U32_LIMIT
    requires InRange(idx, |signals|) && |idx| <= SIGNALS_PER_MESSAGE
    requires sampleSeq < U64_LIMIT && changeSeq < U64_LIMIT && ts < U64_LIMIT
    ensures Fits(SignalDelta(signals, idx, sampleSeq, changeSeq, ts))
  {
    PickedFit(signals, idx);
  }

  lemma FramePageFits(c: Copy, start: nat)
    requires CopyFits(c) && start <= |c.frames|
    ensures Fits(FramePage(c, start))
  {
    var page := c.frames[start..start + Min(|c.frames| - start, FRAMES_PER_MESSAGE)];
    forall k | 0 <= k < |page| ensures FrameFits(page[k]) { assert FrameFits(c.frames[start + k]); }
  }

  lemma SignalsPageFits(c: Copy, start: nat)
    requires CopyFits(c) && start <= |c.signals|
    ensures Fits(SignalsPage(c, start))
  {
    PickedFit(c.signals, Upto(start, Min(|c.signals| - start, SIGNALS_PER_MESSAGE)));
  }

  // ---- Sessions keep fitting ----

  lemma OneMoreFits(stream: seq<Msg>, m: Msg)
    requires AllFits(stream) && Fits(m)
    ensures AllFits(stream + [m])
  {
    forall k | 0 <= k < |stream + [m]|
      ensures Fits((stream + [m])[k])
    {
      if k < |stream| { assert (stream + [m])[k] == stream[k]; }
    }
  }

  lemma SendFits(s: Session, m: Msg)
    requires SessionFits(s) && Fits(m) && FirstFree(s.slots) < |s.slots|
    ensures SessionFits(Send(s, m)) && Send(s, m).snap == s.snap && Send(s, m).round == s.round
  {
    OneMoreFits(s.stream, m);
  }

  lemma QueueFits(s: Session, m: Msg, droppable: bool)
    requires SessionFits(s) && Fits(m)
    ensures SessionFits(Queue(s, m, droppable).s)
    ensures Queue(s, m, droppable).s.snap == s.snap && Queue(s, m, droppable).s.round == s.round
  {
    if HasRoom(s, Length(m)) { SendFits(s, m); }
  }

  lemma MaybeResyncFits(sv: Server, s: Session)
    requires SessionFits(s) && ValuesFit(sv)
    ensures SessionFits(MaybeResync(sv, s))
  {
    QueueFits(s, ResyncRequired(sv.changeSeq, sv.sampleTs), false);
  }

  lemma RoundStepFits(s: Session)
    requires SessionFits(s) && RoundShaped(s) && !RoundDone(s)
    ensures SessionFits(RoundStep(s).s)
  {
    var r := s.round;
    if r.frameAt < |r.frames| {
      FrameDeltaFits(s.snap.frames, Window(r.frames, r.frameAt, FRAMES_PER_MESSAGE), r.sampleSeq, r.changeSeq, r.ts);
    } else {
      SignalDeltaFits(
        s.snap.signals, Window(r.signals, r.signalAt, SIGNALS_PER_MESSAGE), r.sampleSeq, r.changeSeq, r.ts);
    }
    QueueFits(s, RoundMessage(s), false);
  }

  lemma BeginRoundFits(sv: Server, s: Session)
    requires SessionFits(s) && ValuesFit(sv) && CopyShaped(sv, s)
    ensures SessionFits(BeginRound(sv, s))
  {
  }

  lemma AnnounceFits(sv: Server, s: Session)
    requires SessionFits(s) && ValuesFit(sv)
    ensures SessionFits(Announce(sv, s).s)
  {
    QueueFits(s, Subscribed(sv.changeSeq, sv.sampleTs), false);
  }

  lemma {:induction false} DriveFits(sv: Server, s: Session)
    requires SessionFits(s) && ValuesFit(sv) && CopyShaped(sv, s) && RoundShaped(s)
    ensures SessionFits(Drive(sv, s).s)
    decreases FreeCount(s.slots), if RoundDone(s) then 1 else 0
  {
    if s.active && s.catchup && HasCapacity(s) {
      if !RoundDone(s) {
        RoundStepFits(s);
        var o := RoundStep(s);
        if o.Ok? { DriveFits(sv, o.s); }
      } else {
        var b := BeginRound(sv, s);
        BeginRoundFits(sv, s);
        if !RoundDone(b) { DriveFits(sv, b); } else { AnnounceFits(sv, b); }
      }
    }
  }

  lemma WrittenFits(sv: Server, s: Session, k: nat)
    requires SessionFits(s) && ValuesFit(sv) && k < |s.slots| && s.slots[k].Busy?
    requires s.catchup ==> CopyShaped(sv, s) && RoundShaped(s)
    ensures SessionFits(Written(sv, s, k))
  {
    var f := FreeSlot(s, k);
    if f.catchup {
      DriveFits(sv, f);
      MaybeResyncFits(sv, Drive(sv, f).s);
    } else {
      MaybeResyncFits(sv, f);
    }
  }

  lemma {:induction false} SendFramesFits(sv: Server, s: Session, idx: seq<nat>, at: nat)
    requires SessionFits(s) && ValuesFit(sv) && InRange(idx, |sv.frames|) && at <= |idx|
    ensures SessionFits(SendFrames(sv, s, idx, at))
    decreases |idx| - at
  {
    if at < |idx| && s.active && !s.needsResync {
      var w := Window(idx, at, FRAMES_PER_MESSAGE);
      FrameDeltaFits(sv.frames, w, sv.sampleSeq, sv.changeSeq, sv.sampleTs);
      QueueFits(s, FramesNow(sv, w), true);
      SendFramesFits(sv, OrClose(Queue(s, FramesNow(sv, w), true)), idx, at + |w|);
    }
  }

  lemma {:induction false} SendSignalsFits(sv: Server, s: Session, idx: seq<nat>, at: nat)
    requires SessionFits(s) && ValuesFit(sv) && InRange(idx, |sv.signals|) && at <= |idx|
    ensures SessionFits(SendSignals(sv, s, idx, at))
    decreases |idx| - at
  {
    if at < |idx| && s.active && !s.needsResync {
      var w := Window(idx, at, SIGNALS_PER_MESSAGE);
      SignalDeltaFits(sv.signals, w, sv.sampleSeq, sv.changeSeq, sv.sampleTs);
      QueueFits(s, SignalsNow(sv, w), true);
      SendSignalsFits(sv, OrClose(Queue(s, SignalsNow(sv, w), true)), idx, at + |w|);
    }
  }

  lemma SharedFits(a: Server, b: Server, s: Session)
    requires SessionFits(s) && ValuesFit(b) && |a.frames| == |b.frames| && |a.signals| == |b.signals|
    ensures SessionFits(Shared(a, b, s))
  {
    var frames, signals := Marked(FrameFlags(a.frames, b.frames)), Marked(SignalFlags(a.signals, b.signals));
    SendFramesFits(b, s, frames, 0);
    SendSignalsFits(b, SendFrames(b, s, frames, 0), signals, 0);
  }

  lemma BeatToFits(sv: Server, s: Session, milliHz: nat, sourceState: nat)
    requires SessionFits(s) && ValuesFit(sv) && s.dropped < U64_LIMIT && milliHz < U32_LIMIT && sourceState <= 2
    ensures SessionFits(BeatTo(sv, s, milliHz, sourceState))
  {
    QueueFits(s, BeatOf(sv, s, milliHz, sourceState), true);
  }

  lemma ServeFramesFits(sv: Server, s: Session, start: nat)
    requires SessionFits(s) && ValuesFit(sv)
    ensures SessionFits(ServeFrames(sv, s, start).s)
  {
    var b := if start == 0 && !s.snapActive then BeginSnapshot(sv, s) else s;
    if start <= |b.snap.frames| {
      FramePageFits(b.snap, start);
      QueueFits(b, FramePage(b.snap, start), false);
    }
  }

  lemma ServeSignalsFits(s: Session, start: nat)
    requires SessionFits(s)
    ensures SessionFits(ServeSignals(s, start).s)
  {
    if start <= |s.snap.signals| {
      SignalsPageFits(s.snap, start);
      QueueFits(s, SignalsPage(s.snap, start), false);
    }
  }

  lemma ServeSchemaFits(cat: Catalog, sv: Server, s: Session, start: nat)
    requires GoodLayout(cat) && SessionFits(s) && ValuesFit(sv)
    ensures SessionFits(ServeSchema(cat, sv, s, start).s)
  {
    if start < |cat.defs| {
      Schema.PageSize(cat, start);
      Schema.PageIsGood(cat, start, PAYLOAD_CAP);
      QueueFits(s, SchemaPage(sv.changeSeq, sv.sampleTs, Schema.PageFrom(cat, start, PAYLOAD_CAP)), false);
    }
  }

  lemma ServeFits(cat: Catalog, setup: Setup, sv: Server, s: Session, r: Request)
    requires GoodLayout(cat) && (s.snapDone ==> CopyShaped(sv, s))
    requires SessionFits(s) && ValuesFit(sv) && setup.hz < U32_LIMIT && |cat.canIds| < U32_LIMIT
    ensures SessionFits(Serve(cat, setup, sv, s, r).s)
  {
    match r
    case Hello => QueueFits(s, Welcome(sv.changeSeq, sv.sampleTs, Greet(cat, setup)), false);
    case GetSnapshot(start) => ServeFramesFits(sv, s, start);
    case SubscribeAll =>
      if s.snapDone {
        BeginRoundFits(sv, s.(catchup := true));
        DriveFits(sv, BeginRound(sv, s.(catchup := true)));
      }
    case Ping => QueueFits(s, Pong(sv.changeSeq, sv.sampleTs), false);
    case GetSchema(start) => ServeSchemaFits(cat, sv, s, start);
    case GetSignalSnapshot(start) => ServeSignalsFits(s, start);
  }

  // ---- Whole runs ----

  predicate WorldFits(w: World) {
    forall i :: 0 <= i < |w.links| ==> SessionFits(w.links[i].session)
  }

  /** No counter and no clock reading has outgrown its field, and conversion gives doubles. */
  ghost predicate NoWrap(w: World) {
    && CountersFit(w.env.sv) && w.env.setup.hz < U32_LIMIT && ConvertsToDoubles(w.env.cat)
    && forall i :: 0 <= i < |w.links| ==> w.links[i].session.dropped < U64_LIMIT
  }

  predicate CountersFit(sv: Server) {
    sv.sampleSeq < U64_LIMIT && sv.changeSeq < U64_LIMIT && sv.sampleTs < U64_LIMIT && sv.coalesced < U64_LIMIT
  }

  /** A converted value is a 64-bit pattern. */
  ghost predicate ConvertsToDoubles(cat: Catalog) {
    forall i: nat, n: int :: i < |cat.defs| ==> cat.convert(cat.defs[i], n) < U64_LIMIT
  }

  /** Frame stamps are clock readings of the past. */
  predicate FramesStamped(frames: seq<Frame>, now: nat) {
    forall i :: 0 <= i < |frames| ==> frames[i].firstObserved <= now && frames[i].lastChange <= now
  }

  predicate Dated(w: World) {
    && FramesStamped(w.sampler.published.frames, w.sampler.published.timestamp)
    && FramesStamped(w.env.sv.frames, w.env.sv.sampleTs)
  }

  lemma StepStamps(w: World, l: Label)
    requires Inv(w) && Dated(w)
    ensures Dated(Step(w, l))
  {
  }

  lemma FrameFitsField(cat: Catalog, frames: seq<Frame>, now: nat)
    requires GoodLayout(cat) && GoodFrames(cat, frames) && FramesStamped(frames, now) && now < U64_LIMIT
    ensures AllFit(frames, FrameFits) && |frames| < U32_LIMIT
  {
    CanIdsFew(cat.canIds, |cat.canIds| - 1);
    forall i | 0 <= i < |frames| ensures FrameFits(frames[i]) { assert GoodFrame(cat, frames, i); }
  }

  lemma SignalFitsField(cat: Catalog, sv: Server)
    requires GoodCatalog(cat) && ServerInv(cat, sv) && ConvertsToDoubles(cat) && sv.sampleTs < U64_LIMIT
    ensures AllFit(sv.signals, ValueFits) && |sv.signals| < U32_LIMIT
  {
    forall i | 0 <= i < |sv.signals| ensures ValueFits(sv.signals[i]) {
      assert SignalInv(cat, sv, i) && GoodDef(cat, cat.defs[i]);
      Bits.Pow2Monotone(cat.defs[i].width, 64);
      Bits.Pow2Of64();
    }
  }

  /** Every value in the canonical state then fits its field: frames have the catalog's shape,
      raw values their width, and stamps are no later than the sample. */
  lemma NoValueWraps(w: World)
    requires Inv(w) && Dated(w) && NoWrap(w)
    ensures ValuesFit(w.env.sv)
  {
    FrameFitsField(w.env.cat, w.env.sv.frames, w.env.sv.sampleTs);
    SignalFitsField(w.env.cat, w.env.sv);
  }

  predicate LabelFits(l: Label) {
    l.HeartbeatTick? ==> l.milliHz < U32_LIMIT && l.sourceState <= 2
  }

  lemma RequestLinkFits(e: Env, l: Link)
    requires GoodEnv(e) && LinkOk(e, l) && SessionFits(l.session) && ValuesFit(e.sv) && e.setup.hz < U32_LIMIT
    ensures SessionFits(RequestTaken(e, l).session)
  {
    if l.session.active && l.peer.requests != [] {
      RequestServed(e, l.session, l.peer);
      CanIdsFew(e.cat.canIds, |e.cat.canIds| - 1);
      ServeFits(e.cat, e.setup, e.sv, l.session, l.peer.requests[0]);
    }
  }

  lemma WriteLinkFits(e: Env, l: Link, k: nat)
    requires GoodEnv(e) && LinkOk(e, l) && SessionFits(l.session) && ValuesFit(e.sv)
    ensures SessionFits(Completed(e, l, k).session)
  {
    if l.session.active && k < |l.session.slots| && l.session.slots[k].Busy? {
      WriteCompleted(e, l.session, l.peer, k);
      WrittenFits(e.sv, l.session, k);
    }
  }

  lemma SampleFits(w: World)
    requires Inv(w) && WorldFits(w) && ValuesFit(DistributedWorld(w).env.sv)
    ensures WorldFits(DistributedWorld(w))
  {
    var x := DistributedWorld(w);
    if w.sampler.published.sequence > w.env.sv.sampleSeq {
      forall i | 0 <= i < |x.links|
        ensures SessionFits(x.links[i].session)
      {
        SharedFits(w.env.sv, x.env.sv, w.links[i].session);
      }
    }
  }

  lemma HeartbeatFits(w: World, milliHz: nat, sourceState: nat)
    requires WorldFits(w) && NoWrap(w) && ValuesFit(w.env.sv) && milliHz < U32_LIMIT && sourceState <= 2
    ensures WorldFits(Beaten(w, milliHz, sourceState))
  {
    var x := Beaten(w, milliHz, sourceState);
    forall i | 0 <= i < |x.links|
      ensures SessionFits(x.links[i].session)
    {
      BeatToFits(w.env.sv, w.links[i].session, milliHz, sourceState);
    }
  }

  lemma StepFits(w: World, l: Label)
    requires Inv(w) && WorldFits(w) && NoWrap(w) && LabelFits(l)
    requires ValuesFit(w.env.sv) && ValuesFit(Step(w, l).env.sv)
    ensures WorldFits(Step(w, l))
  {
    match l
    case Distribute => SampleFits(w);
    case HeartbeatTick(milliHz, sourceState) => HeartbeatFits(w, milliHz, sourceState);
    case TakeRequest(i) => if i < |w.links| { assert LinkOk(w.env, w.links[i]); RequestLinkFits(w.env, w.links[i]); }
    case WriteDone(i, k) => if i < |w.links| { assert LinkOk(w.env, w.links[i]); WriteLinkFits(w.env, w.links[i], k); }
    case ClientReads(i) => if i < |w.links| { assert LinkOk(w.env, w.links[i]); ReadFits(w.env, w.links[i]); }
    case _ =>
  }

  lemma ReadFits(e: Env, l: Link)
    requires GoodEnv(e) && LinkOk(e, l) && SessionFits(l.session)
    ensures SessionFits(Read(e, l).session)
  {
  }

  ghost predicate NeverWraps(w: World, run: seq<Label>)
    requires Inv(w)
  {
    forall j :: 0 <= j <= |run| ==> NoWrap(Exec(w, run[..j]))
  }

  lemma LaterNeverWraps(w: World, run: seq<Label>)
    requires Inv(w) && NeverWraps(w, run) && run != [] && Inv(Step(w, run[0]))
    ensures NoWrap(w) && NoWrap(Step(w, run[0])) && NeverWraps(Step(w, run[0]), run[1..])
  {
    assert NoWrap(Exec(w, run[..0]));
    forall j | 0 <= j <= |run[1..]|
      ensures NoWrap(Exec(Step(w, run[0]), run[1..][..j]))
    {
      assert run[..j + 1][0] == run[0] && run[..j + 1][1..] == run[1..][..j];
      assert NoWrap(Exec(w, run[..j + 1]));
    }
    assert NoWrap(Exec(Step(w, run[0]), run[1..][..0]));
  }

  lemma {:induction false} RunFits(w: World, run: seq<Label>)
    requires Inv(w) && Dated(w) && WorldFits(w) && NeverWraps(w, run)
    requires forall k :: 0 <= k < |run| ==> LabelFits(run[k])
    ensures WorldFits(Exec(w, run))
    decreases |run|
  {
    if run != [] {
      StepKeepsInv(w, run[0]);
      LaterNeverWraps(w, run);
      StepStamps(w, run[0]);
      NoValueWraps(w);
      NoValueWraps(Step(w, run[0]));
      StepFits(w, run[0]);
      RunFits(Step(w, run[0]), run[1..]);
    }
  }

  // ---- Reading a message from its bytes ----

  function NonNegative(x: int): nat {
    if x < 0 then 0 else x
  }

  /** The records the client has room for when it decodes this message. */
  function RoomFor(p: Peer, m: Msg): nat {
    match p.phase
    case AwaitSchema(next) => NonNegative(p.greeting.signalCount - next)
    case AwaitFrames(next) => NonNegative(p.greeting.frameCount - next)
    case AwaitSignals(next) => NonNegative(SignalScratch(p))
    case _ => if m.FrameUpdates? then NonNegative(FrameScratch(p)) else NonNegative(SignalScratch(p))
  }

  lemma AcceptedHasRoom(p: Peer, m: Msg)
    requires Receive(p, m).Some?
    ensures Holds(m, RoomFor(p, m)) && Length(m) <= HEADER_SIZE + Room(p)
  {
  }

  /** The next message in flight fits the client's buffer, and its bytes are decoded, with the
      capacity the client has at that point, to that very message. */
  lemma BytesAreRead(e: Env, l: Link)
    requires GoodEnv(e) && LinkOk(e, l) && SessionFits(l.session) && l.session.stream != []
    ensures var m := l.session.stream[0];
            && Fits(m) && |MsgBytes(m)| == Length(m) <= HEADER_SIZE + Room(l.peer)
            && ParseMsg(MsgBytes(m), RoomFor(l.peer, m)) == Some(m)
  {
    var m := l.session.stream[0];
    ReceptionKeeps(e, l.session, l.peer);
    AcceptedHasRoom(l.peer, m);
    MessageRoundTrip(m, RoomFor(l.peer, m));
  }
}
