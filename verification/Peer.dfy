/** The reference client (src/client.c), cut at its blocking reads: each step takes one
    message and may send the next request. It also carries the gap counter of the
    reference tool (src/roadcastctl.c). */
module Peer {
  import opened Types
  import opened Wire
  import opened Protocol
  import Schema

  datatype Phase =
    | AwaitWelcome
    | AwaitSchema(next: nat)
    | AwaitFrames(next: nat)
    | AwaitSignals(next: nat)
    | Subscribing
    | Live

  datatype View = View(frames: seq<Frame>, signals: seq<SignalValue>, sampleSeq: nat, changeSeq: nat, ts: nat)

  /** `sync` is the synchronization in progress, `cache` what readers see, `requests` what the
      client has sent and the daemon has not taken yet. */
  datatype Peer = Peer(
    phase: Phase, greeting: Greeting, schema: seq<Schema.Entry>, sync: View, cache: View,
    lookup: map<nat, nat>, lastSeq: nat, gaps: nat, requests: seq<Request>)

  const NO_VIEW := View([], [], 0, 0, 0)

  const NEWCOMER := Peer(AwaitWelcome, Greeting(0, 0, 0, 0, 0, 0, 0, 0), [], NO_VIEW, NO_VIEW, map[], 0, 0, [Hello])

  /** The checks of `perform_handshake`. */
  predicate GreetingAccepted(g: Greeting) {
    && g.capabilities % 2 == 1 && (g.capabilities / 2) % 2 == 1
    && 0 < g.frameCount <= 65535 && 0 < g.signalCount <= CLIENT_MAX_SIGNALS
    && g.maxRequest >= 8 && WELCOME_SIZE <= g.maxResponse <= MAX_PAYLOAD
  }

  /** The payload the client has allocated room for. */
  function Room(p: Peer): nat {
    if p.phase.AwaitWelcome? then WELCOME_SIZE else p.greeting.maxResponse
  }

  function FrameScratch(p: Peer): int {
    (p.greeting.maxResponse - BATCH_PREFIX_SIZE) / FRAME_WIRE_SIZE
  }

  function SignalScratch(p: Peer): int {
    (p.greeting.maxResponse - BATCH_PREFIX_SIZE) / SIGNAL_WIRE_SIZE
  }

  function Ask(p: Peer, phase: Phase, r: Request): Peer {
    p.(phase := phase, requests := p.requests + [r])
  }

  /** The loop that fills `can_id_to_index` from an array of frames. */
  function Indexed(lookup: map<nat, nat>, frames: seq<Frame>, n: nat): map<nat, nat>
    requires n <= |frames|
  {
    if n == 0 then lookup
    else
      var m := Indexed(lookup, frames, n - 1);
      if frames[n - 1].canId < CAN_ID_LOOKUP_CAP then m[frames[n - 1].canId := n - 1] else m
  }

  /** Applying one frame by its identifier. */
  function PutFrame(frames: seq<Frame>, lookup: map<nat, nat>, f: Frame): (r: Option<seq<Frame>>)
    ensures r.Some? ==> |r.value| == |frames|
  {
    if f.canId < CAN_ID_LOOKUP_CAP && f.canId in lookup && lookup[f.canId] < |frames|
    then Some(frames[lookup[f.canId] := f])
    else None
  }

  /** `apply_decoded_frames`. */
  function PutFrames(frames: seq<Frame>, lookup: map<nat, nat>, fs: seq<Frame>): (r: Option<seq<Frame>>)
    ensures r.Some? ==> |r.value| == |frames|
  {
    if fs == [] then Some(frames)
    else
      var front := PutFrames(frames, lookup, fs[..|fs| - 1]);
      if front.None? then None else PutFrame(front.value, lookup, fs[|fs| - 1])
  }

  /** `apply_decoded_signals`. */
  function PutSignals(signals: seq<SignalValue>, us: seq<SignalUpdate>): (r: Option<seq<SignalValue>>)
    ensures r.Some? ==> |r.value| == |signals|
  {
    if us == [] then Some(signals)
    else
      var front := PutSignals(signals, us[..|us| - 1]);
      var u := us[|us| - 1];
      if front.None? || u.index >= |signals| then None else Some(front.value[u.index := u.value])
  }

  function ApplyFrames(v: View, p: Peer, m: Msg): Option<View>
    requires m.FrameUpdates?
  {
    var b := m.frames;
    if |b.frames| > FrameScratch(p) || b.total != p.greeting.frameCount || b.start != NO_INDEX then None
    else
      match PutFrames(v.frames, p.lookup, b.frames)
      case None => None
      case Some(fs) => Some(v.(frames := fs, sampleSeq := b.sampleSeq, changeSeq := m.seqno, ts := m.ts))
  }

  function ApplySignals(v: View, p: Peer, m: Msg): Option<View>
    requires m.SignalUpdates?
  {
    var b := m.signals;
    if |b.updates| > SignalScratch(p) || b.total != p.greeting.signalCount || b.start != NO_INDEX then None
    else
      match PutSignals(v.signals, b.updates)
      case None => None
      case Some(ss) => Some(v.(signals := ss, sampleSeq := b.sampleSeq, changeSeq := m.seqno, ts := m.ts))
  }

  /** `observe_change_sequence`. */
  function Observe(p: Peer, seqno: nat): Peer {
    if seqno == p.lastSeq then p
    else p.(gaps := p.gaps + (if p.lastSeq != 0 && seqno != p.lastSeq + 1 then 1 else 0), lastSeq := seqno)
  }

  /** `commit_synchronization`: publish the synchronized copy and rebuild the index. */
  function Commit(p: Peer): Peer {
    p.(phase := Live, cache := p.sync, lookup := Indexed(map[], p.sync.frames, |p.sync.frames|),
       lastSeq := p.sync.changeSeq)
  }

  function ReceiveSchema(p: Peer, next: nat, m: Msg): Option<Peer>
    requires m.SchemaPage?
  {
    var g := m.page;
    if g.version != p.greeting.schemaVersion || g.hash != p.greeting.schemaHash || g.total != p.greeting.signalCount
       || g.start != next || g.entries == [] || next + |g.entries| > p.greeting.signalCount
    then None
    else
      var q := p.(schema := p.schema + g.entries);
      Some(if next + |g.entries| < p.greeting.signalCount
           then Ask(q, AwaitSchema(next + |g.entries|), GetSchema(next + |g.entries|))
           else Ask(q.(sync := NO_VIEW), AwaitFrames(0), GetSnapshot(0)))
  }

  function ReceiveFrames(p: Peer, next: nat, m: Msg): Option<Peer>
    requires m.SnapshotPage?
  {
    var b := m.frames;
    if b.total != p.greeting.frameCount || b.start != next || b.frames == []
       || next + |b.frames| > p.greeting.frameCount
       || (next != 0 && (b.sampleSeq != p.sync.sampleSeq || m.seqno != p.sync.changeSeq || m.ts != p.sync.ts))
    then None
    else
      var v := p.sync.(frames := p.sync.frames + b.frames, sampleSeq := b.sampleSeq, changeSeq := m.seqno, ts := m.ts);
      var q := p.(sync := v);
      Some(if next + |b.frames| < p.greeting.frameCount
           then Ask(q, AwaitFrames(next + |b.frames|), GetSnapshot(next + |b.frames|))
           else Ask(q.(lookup := Indexed(p.lookup, v.frames, |v.frames|)), AwaitSignals(0), GetSignalSnapshot(0)))
  }

  function UpdateValues(us: seq<SignalUpdate>): (r: seq<SignalValue>)
    ensures |r| == |us| && forall k :: 0 <= k < |r| ==> r[k] == us[k].value
  {
    seq(|us|, k requires 0 <= k < |us| => us[k].value)
  }

  function ReceiveSignals(p: Peer, next: nat, m: Msg): Option<Peer>
    requires m.SignalPage?
  {
    var b := m.signals;
    if m.seqno != p.sync.changeSeq || m.ts != p.sync.ts || b.sampleSeq != p.sync.sampleSeq
       || |b.updates| > SignalScratch(p) || b.total != p.greeting.signalCount || b.start != next || b.updates == []
       || next + |b.updates| > p.greeting.signalCount
       || exists k :: 0 <= k < |b.updates| && b.updates[k].index != next + k
    then None
    else
      var q := p.(sync := p.sync.(signals := p.sync.signals + UpdateValues(b.updates)));
      Some(if next + |b.updates| < p.greeting.signalCount
           then Ask(q, AwaitSignals(next + |b.updates|), GetSignalSnapshot(next + |b.updates|))
           else Ask(q, Subscribing, SubscribeAll))
  }

  /** `complete_subscription`. */
  function ReceiveSubscribing(p: Peer, m: Msg): Option<Peer> {
    match m
    case Subscribed(n, t) => Some(Commit(p.(sync := p.sync.(changeSeq := n, ts := t))))
    case FrameUpdates(_, _, _) =>
      (match ApplyFrames(p.sync, p, m) case None => None case Some(v) => Some(p.(sync := v)))
    case SignalUpdates(_, _, _) =>
      (match ApplySignals(p.sync, p, m) case None => None case Some(v) => Some(p.(sync := v)))
    case _ => None
  }

  /** `reader_thread_main`. */
  function ReceiveLive(p: Peer, m: Msg): Option<Peer> {
    match m
    case FrameUpdates(n, _, _) =>
      (match ApplyFrames(p.cache, p, m) case None => None case Some(v) => Some(Observe(p.(cache := v), n)))
    case SignalUpdates(n, _, _) =>
      (match ApplySignals(p.cache, p, m) case None => None case Some(v) => Some(Observe(p.(cache := v), n)))
    case Heartbeat(n, t, b) =>
      if b.changeSeq != n then None
      else Some(Observe(p.(cache := p.cache.(sampleSeq := b.sampleSeq, changeSeq := n, ts := t)), n))
    case ResyncRequired(_, _) =>
      Some(Ask(p.(sync := NO_VIEW), AwaitFrames(0), GetSnapshot(0)))
    case _ => None
  }

  /** One message; None means that the client gives up on the session. */
  function Receive(p: Peer, m: Msg): Option<Peer> {
    if Length(m) - HEADER_SIZE > Room(p) then None
    else
      match p.phase
      case AwaitWelcome =>
        if m.Welcome? && GreetingAccepted(m.greeting)
        then Some(Ask(p.(greeting := m.greeting), AwaitSchema(0), GetSchema(0))) else None
      case AwaitSchema(next) => if m.SchemaPage? then ReceiveSchema(p, next, m) else None
      case AwaitFrames(next) => if m.SnapshotPage? then ReceiveFrames(p, next, m) else None
      case AwaitSignals(next) => if m.SignalPage? then ReceiveSignals(p, next, m) else None
      case Subscribing => ReceiveSubscribing(p, m)
      case Live => ReceiveLive(p, m)
  }

  /** `roadcast_client_read_frame`. */
  function ReadFrame(p: Peer, canId: nat): Option<Frame> {
    if canId < CAN_ID_LOOKUP_CAP && canId in p.lookup && p.lookup[canId] < |p.cache.frames|
    then Some(p.cache.frames[p.lookup[canId]]) else None
  }

  // ---- Everything in flight ----

  /** A step that a well-behaved session allows: sequences and times never go back, a live client sees
      change sequences one by one, and no gap is counted. */
  predicate Orderly(p: Peer, q: Peer) {
    && p.cache.sampleSeq <= q.cache.sampleSeq
    && p.cache.changeSeq <= q.cache.changeSeq
    && p.cache.ts <= q.cache.ts
    && (p.phase.Live? ==> q.lastSeq == p.lastSeq || q.lastSeq == p.lastSeq + 1)
    && q.gaps == p.gaps
  }

  /** The client once it has read every message of `stream`, provided that each is accepted,
      none arrives while a request of its own is unanswered, and every step is orderly. */
  function Deliver(p: Peer, stream: seq<Msg>): Option<Peer>
    decreases |stream|
  {
    if stream == [] then Some(p)
    else if p.requests != [] then None
    else
      match Receive(p, stream[0])
      case None => None
      case Some(q) => if Orderly(p, q) then Deliver(q, stream[1..]) else None
  }

  lemma {:induction false} DeliverAppend(p: Peer, stream: seq<Msg>, m: Msg)
    requires Deliver(p, stream).Some?
    ensures Deliver(p, stream + [m]) == Deliver(Deliver(p, stream).value, [m])
    decreases |stream|
  {
    if stream == [] {
      assert stream + [m] == [m];
    } else {
      assert (stream + [m])[1..] == stream[1..] + [m];
      DeliverAppend(Receive(p, stream[0]).value, stream[1..], m);
    }
  }

  lemma {:induction false} DeliverPrefix(p: Peer, stream: seq<Msg>, n: nat)
    requires Deliver(p, stream).Some? && n <= |stream|
    ensures Deliver(p, stream[..n]).Some?
    decreases |stream|
  {
    if n > 0 {
      assert stream[..n][1..] == stream[1..][..n - 1];
      DeliverPrefix(Receive(p, stream[0]).value, stream[1..], n - 1);
    }
  }
}
