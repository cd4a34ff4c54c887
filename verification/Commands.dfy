/** Requests as bytes: what a client sends, what the daemon makes of it, and that the way the
    bytes are cut into reads does not matter. */
module Commands {
  import opened Types
  import opened Wire
  import opened Canonical
  import opened Protocol
  import opened Session
  import opened Stream
  import opened Records

  function RequestKind(r: Request): nat {
    match r
    case Hello => 1
    case GetSnapshot(_) => 3
    case SubscribeAll => 5
    case Ping => 10
    case GetSchema(_) => 12
    case GetSignalSnapshot(_) => 14
  }

  function RequestPayload(r: Request): (b: seq<byte>)
    ensures |b| <= 8
  {
    match r
    case Hello => Be(PROTOCOL_VERSION, 2) + Be(PROTOCOL_VERSION, 2) + Be(3, 4)
    case GetSnapshot(start) => Be(start, INDEX_REQUEST_SIZE)
    case GetSchema(start) => Be(start, INDEX_REQUEST_SIZE)
    case GetSignalSnapshot(start) => Be(start, INDEX_REQUEST_SIZE)
    case SubscribeAll => []
    case Ping => []
  }

  predicate RequestFits(r: Request) {
    match r
    case GetSnapshot(start) => start < U32_LIMIT
    case GetSchema(start) => start < U32_LIMIT
    case GetSignalSnapshot(start) => start < U32_LIMIT
    case _ => true
  }

  function RequestHeader(r: Request, ts: nat): Header {
    Header(PROTOCOL_VERSION, RequestKind(r), 0, |RequestPayload(r)|, 0, ts)
  }

  /** `send_message` of the client. */
  function RequestBytes(r: Request, ts: nat): seq<byte> {
    EncodeHeader(RequestHeader(r, ts)) + RequestPayload(r)
  }

  /** The checks of `process_command` on header and payload. */
  function ParseRequest(h: Header, p: seq<byte>): Option<Request> {
    if h.version != PROTOCOL_VERSION || h.flags != 0 then None
    else if h.kind == 1 then
      if |p| != 8 || Get(p, 0, 2) > PROTOCOL_VERSION || Get(p, 2, 2) < PROTOCOL_VERSION then None else Some(Hello)
    else if h.kind == 5 then if p != [] then None else Some(SubscribeAll)
    else if h.kind == 10 then if p != [] then None else Some(Ping)
    else if |p| != INDEX_REQUEST_SIZE then None
    else if h.kind == 3 then Some(GetSnapshot(Get(p, 0, 4)))
    else if h.kind == 12 then Some(GetSchema(Get(p, 0, 4)))
    else if h.kind == 14 then Some(GetSignalSnapshot(Get(p, 0, 4)))
    else None
  }

  lemma RequestRoundTrip(r: Request, ts: nat)
    requires RequestFits(r)
    ensures ParseRequest(RequestHeader(r, ts), RequestPayload(r)) == Some(r)
  {
    var p := RequestPayload(r);
    if r.Hello? {
      Cut8(Be(PROTOCOL_VERSION, 2), Be(PROTOCOL_VERSION, 2), Be(3, 4), [], [], [], [], []);
      assert p == p + [] + [] + [] + [] + [];
      NumU16(PROTOCOL_VERSION);
    } else if !r.SubscribeAll? && !r.Ping? {
      NumU32(r.start);
      assert p[0..4] == p;
    }
  }

  /** A session that the daemon can serve: its frozen copy has the catalog's shape. */
  predicate Servable(cat: Catalog, d: Desk) {
    GoodLayout(cat) && (d.s.snapDone ==> CopyShaped(d.sv, d.s))
  }

  function ServeOne(cat: Catalog, setup: Setup, d: Desk, r: Request): Option<Desk> {
    if !Servable(cat, d) then None
    else
      match Serve(cat, setup, d.sv, d.s, r)
      case Fail(_) => None
      case Ok(x) => Some(d.(s := x))
  }

  /** `process_command` as a handler of the input stream. */
  function Handler(cat: Catalog, setup: Setup): (Desk, Header, seq<byte>) -> Option<Desk> {
    (d: Desk, h: Header, p: seq<byte>) =>
      match ParseRequest(h, p)
      case None => None
      case Some(r) => ServeOne(cat, setup, d, r)
  }

  datatype Timed = Timed(request: Request, ts: nat)

  function Serving(cat: Catalog, setup: Setup): (Desk, Timed) -> Option<Desk> {
    (d: Desk, r: Timed) => ServeOne(cat, setup, d, r.request)
  }

  predicate Sendable(r: Timed) {
    RequestFits(r.request) && r.ts < U64_LIMIT
  }

  predicate AllSendable(rs: seq<Timed>) {
    forall k :: 0 <= k < |rs| ==> Sendable(rs[k])
  }

  function Sent(r: Timed): seq<byte> {
    RequestBytes(r.request, r.ts)
  }

  /** The bytes of each request. */
  function Pieces(rs: seq<Timed>): (p: seq<seq<byte>>)
    ensures |p| == |rs| && forall k :: 0 <= k < |rs| ==> p[k] == Sent(rs[k])
  {
    seq(|rs|, k requires 0 <= k < |rs| => Sent(rs[k]))
  }

  /** A request that is all there is parsed and served. */
  lemma HeadParses(cat: Catalog, setup: Setup, r: Timed, piece: seq<byte>, d: Desk, tail: seq<byte>)
    requires Sendable(r) && piece == Sent(r)
    ensures var next := ServeOne(cat, setup, d, r.request);
            Consume(d, piece + tail, Handler(cat, setup)) ==
            if next.None? then Rejected(d) else Consume(next.value, tail, Handler(cat, setup))
  {
    var h, payload := RequestHeader(r.request, r.ts), RequestPayload(r.request);
    HeaderRoundTrip(h);
    RequestRoundTrip(r.request, r.ts);
    TakeHead(d, h, EncodeHeader(h), payload, tail, Handler(cat, setup));
  }

  lemma TakeHead(
    d: Desk, h: Header, head: seq<byte>, payload: seq<byte>, tail: seq<byte>,
    handle: (Desk, Header, seq<byte>) -> Option<Desk>)
    requires |head| == HEADER_SIZE && DecodeHeader(head) == Some(h)
    requires h.payloadBytes == |payload| <= CLIENT_INPUT_CAP - HEADER_SIZE
    ensures Consume(d, head + payload + tail, handle) ==
            if handle(d, h, payload).None? then Rejected(d) else Consume(handle(d, h, payload).value, tail, handle)
  {
    var buf := head + payload + tail;
    assert buf[..HEADER_SIZE] == head && buf[HEADER_SIZE..MessageLength(h)] == payload;
    assert buf[MessageLength(h)..] == tail;
  }

  /** One that is not waits. */
  lemma PartWaits(cat: Catalog, setup: Setup, r: Timed, piece: seq<byte>, d: Desk, n: nat)
    requires Sendable(r) && piece == Sent(r) && n < |piece|
    ensures Consume(d, piece[..n], Handler(cat, setup)) == Pending(d, piece[..n])
  {
    var h := RequestHeader(r.request, r.ts);
    HeaderRoundTrip(h);
    WaitHead(d, h, EncodeHeader(h), RequestPayload(r.request), n, Handler(cat, setup));
  }

  lemma WaitHead(
    d: Desk, h: Header, head: seq<byte>, payload: seq<byte>, n: nat,
    handle: (Desk, Header, seq<byte>) -> Option<Desk>)
    requires |head| == HEADER_SIZE && DecodeHeader(head) == Some(h) && n < |head + payload|
    requires h.payloadBytes == |payload| <= CLIENT_INPUT_CAP - HEADER_SIZE
    ensures Consume(d, (head + payload)[..n], handle) == Pending(d, (head + payload)[..n])
  {
    if n >= HEADER_SIZE { assert (head + payload)[..n][..HEADER_SIZE] == head; }
  }

  lemma {:induction false} RequestsStep(
    cat: Catalog, setup: Setup, d: Desk, rs: seq<Timed>, pieces: seq<seq<byte>>, n: nat)
    requires AllSendable(rs) && pieces == Pieces(rs) && n <= |Flatten(pieces)|
    ensures Steps(d, rs, pieces, n, Consuming(Handler(cat, setup)), Serving(cat, setup))
    decreases |rs|
  {
    if rs != [] {
      var piece := pieces[0];
      if n < |piece| {
        PartWaits(cat, setup, rs[0], piece, d, n);
      } else {
        FewerPieces(rs);
        HeadParses(cat, setup, rs[0], piece, d, Flatten(pieces[1..])[..n - |piece|]);
        var next := ServeOne(cat, setup, d, rs[0].request);
        if next.Some? { RequestsStep(cat, setup, next.value, rs[1..], pieces[1..], n - |piece|); }
      }
    }
  }

  lemma FewerPieces(rs: seq<Timed>)
    requires rs != []
    ensures Pieces(rs[1..]) == Pieces(rs)[1..]
  {
  }

  lemma {:induction false} AllRequestsStep(cat: Catalog, setup: Setup, rs: seq<Timed>)
    requires AllSendable(rs)
    ensures AllStep(rs, Pieces(rs), Consuming(Handler(cat, setup)), Serving(cat, setup))
    decreases |rs|
  {
    forall d: Desk, n: nat | n <= |Flatten(Pieces(rs))|
      ensures Steps(d, rs, Pieces(rs), n, Consuming(Handler(cat, setup)), Serving(cat, setup))
    {
      RequestsStep(cat, setup, d, rs, Pieces(rs), n);
    }
    if rs != [] {
      FewerPieces(rs);
      AllRequestsStep(cat, setup, rs[1..]);
    }
  }

  /** However the bytes of any requests are cut into reads, and however the daemon changes from
      one read to the next (samples, completed writes), each request is served, in order, by the
      read that completes it, and the session is closed at exactly the one that is refused. */
  lemma ReadsServeWhatTheyComplete(
    cat: Catalog, setup: Setup, d: Desk, rs: seq<Timed>, chunks: seq<seq<byte>>, between: seq<Desk -> Desk>)
    requires AllSendable(rs) && |between| == |chunks| && Flatten(chunks) == Flatten(Pieces(rs))
    ensures Brings(Pieces(rs), 0, chunks)
    ensures FeedBetween(Pending(d, []), chunks, between, Handler(cat, setup)) ==
            ServeReads(d, rs, Pieces(rs), 0, chunks, between, Serving(cat, setup))
  {
    AllRequestsStep(cat, setup, rs);
    assert Brings(Pieces(rs), 0, chunks);
    ReadsAreServed(d, rs, Pieces(rs), 0, chunks, between, Handler(cat, setup), Serving(cat, setup));
  }

  /** However the bytes of any requests are cut into reads, the daemon serves exactly those
      requests, in order, and closes at exactly the one it refuses. */
  lemma RequestsSurviveFragmentation(cat: Catalog, setup: Setup, d: Desk, rs: seq<Timed>, chunks: seq<seq<byte>>)
    requires AllSendable(rs) && Flatten(chunks) == Flatten(Pieces(rs))
    ensures FeedAll(Pending(d, []), chunks, Handler(cat, setup)) == ServeAll(d, rs, Serving(cat, setup), [])
  {
    var pieces := Pieces(rs);
    FragmentationIndependent(d, [], chunks, Handler(cat, setup));
    assert [] + Flatten(chunks) == Flatten(pieces) == Flatten(pieces)[..|Flatten(pieces)|];
    RequestsStep(cat, setup, d, rs, pieces, |Flatten(pieces)|);
    PartIsServed(d, rs, pieces, |Flatten(pieces)|, Consuming(Handler(cat, setup)), Serving(cat, setup));
    AllWhole(pieces);
    assert rs[..|rs|] == rs && pieces[|rs|..] == [];
  }
}
