/** Reassembly of commands from the byte stream (src/roadcastd.c, process_client_input),
    for any command handler. */
module Stream {
  import opened Types
  import opened Wire

  /** What handling the buffered bytes comes to: the session is closed, or some bytes wait
      for the rest of their message. `state` is the handler's, after the commands it took. */
  datatype Pass<S> = Rejected(state: S) | Pending(state: S, rest: seq<byte>)

  function MessageLength(h: Header): nat {
    HEADER_SIZE + h.payloadBytes
  }

  /** One run over the buffer: take every complete message in order. */
  function Consume<S>(s: S, buf: seq<byte>, handle: (S, Header, seq<byte>) -> Option<S>): Pass<S>
    decreases |buf|
  {
    if |buf| < HEADER_SIZE then Pending(s, buf)
    else
      var h := DecodeHeader(buf[..HEADER_SIZE]);
      if h.None? || h.value.payloadBytes > CLIENT_INPUT_CAP - HEADER_SIZE then Rejected(s)
      else if |buf| < MessageLength(h.value) then Pending(s, buf)
      else
        var next := handle(s, h.value, buf[HEADER_SIZE..MessageLength(h.value)]);
        if next.None? then Rejected(s) else Consume(next.value, buf[MessageLength(h.value)..], handle)
  }

  function Feed<S>(p: Pass<S>, chunk: seq<byte>, handle: (S, Header, seq<byte>) -> Option<S>): Pass<S> {
    if p.Rejected? then p else Consume(p.state, p.rest + chunk, handle)
  }

  function FeedAll<S>(p: Pass<S>, chunks: seq<seq<byte>>, handle: (S, Header, seq<byte>) -> Option<S>): Pass<S>
    decreases |chunks|
  {
    if chunks == [] then p else FeedAll(Feed(p, chunks[0], handle), chunks[1..], handle)
  }

  /** Reads between which the handler's state may change. */
  function FeedBetween<S>(
    p: Pass<S>, chunks: seq<seq<byte>>, between: seq<S -> S>, handle: (S, Header, seq<byte>) -> Option<S>): Pass<S>
    requires |between| == |chunks|
    decreases |chunks|
  {
    if chunks == [] then p
    else FeedBetween(Feed(Changed(p, between[0]), chunks[0], handle), chunks[1..], between[1..], handle)
  }

  function Changed<S>(p: Pass<S>, change: S -> S): Pass<S> {
    if p.Rejected? then p else Pending(change(p.state), p.rest)
  }

  /** A closed session stays closed. */
  lemma {:induction false} RejectedStays<S>(
    s: S, chunks: seq<seq<byte>>, between: seq<S -> S>, handle: (S, Header, seq<byte>) -> Option<S>)
    requires |between| == |chunks|
    ensures FeedBetween(Rejected(s), chunks, between, handle) == Rejected(s)
    decreases |chunks|
  {
    if chunks != [] { RejectedStays(s, chunks[1..], between[1..], handle); }
  }

  function Flatten(chunks: seq<seq<byte>>): seq<byte> {
    if chunks == [] then [] else chunks[0] + Flatten(chunks[1..])
  }

  // ---- Where a cut falls ----

  /** How many of the pieces are all there in the first n bytes. */
  function Whole(pieces: seq<seq<byte>>, n: nat): (m: nat)
    ensures m <= |pieces|
  {
    if pieces == [] || n < |pieces[0]| then 0 else 1 + Whole(pieces[1..], n - |pieces[0]|)
  }

  /** How many of the first n bytes come after the last piece that is all there. */
  function Over(pieces: seq<seq<byte>>, n: nat): (k: nat)
    ensures k <= n
  {
    if pieces == [] || n < |pieces[0]| then n else Over(pieces[1..], n - |pieces[0]|)
  }

  lemma {:induction false} CutAt(pieces: seq<seq<byte>>, n: nat)
    requires n <= |Flatten(pieces)|
    ensures Over(pieces, n) <= |Flatten(pieces[Whole(pieces, n)..])|
    ensures Flatten(pieces)[n - Over(pieces, n)..] == Flatten(pieces[Whole(pieces, n)..])
    decreases |pieces|
  {
    if pieces != [] && n >= |pieces[0]| {
      var k := |pieces[0]|;
      CutAt(pieces[1..], n - k);
      assert pieces[1..][Whole(pieces[1..], n - k)..] == pieces[Whole(pieces, n)..];
      assert Flatten(pieces)[k..] == Flatten(pieces[1..]);
    } else {
      assert pieces[0..] == pieces;
    }
  }

  lemma {:induction false} AllWhole(pieces: seq<seq<byte>>)
    ensures Whole(pieces, |Flatten(pieces)|) == |pieces| && Over(pieces, |Flatten(pieces)|) == 0
    decreases |pieces|
  {
    if pieces != [] { AllWhole(pieces[1..]); }
  }

  /** Reads that bring the bytes of the pieces from n on: the first of them, and the others. */
  predicate Brings(pieces: seq<seq<byte>>, n: nat, chunks: seq<seq<byte>>) {
    n + |Flatten(chunks)| <= |Flatten(pieces)| && Flatten(pieces)[n..n + |Flatten(chunks)|] == Flatten(chunks)
  }

  lemma LaterReads(pieces: seq<seq<byte>>, n: nat, chunks: seq<seq<byte>>)
    requires chunks != [] && Brings(pieces, n, chunks)
    ensures var t := n + |chunks[0]|;
            && t <= |Flatten(pieces)| && Flatten(pieces)[..t] == Flatten(pieces)[..n] + chunks[0]
            && Brings(pieces[Whole(pieces, t)..], Over(pieces, t), chunks[1..])
  {
    var t := n + |chunks[0]|;
    CutAtSlice(pieces, n, chunks[0], Flatten(chunks[1..]));
  }

  lemma CutAtSlice(pieces: seq<seq<byte>>, n: nat, first: seq<byte>, later: seq<byte>)
    requires n + |first + later| <= |Flatten(pieces)|
    requires Flatten(pieces)[n..n + |first + later|] == first + later
    ensures var t := n + |first|;
            var tail, k := Flatten(pieces[Whole(pieces, t)..]), Over(pieces, t);
            && Flatten(pieces)[..t] == Flatten(pieces)[..n] + first
            && k + |later| <= |tail| && tail[k..k + |later|] == later
  {
    var t := n + |first|;
    CutAt(pieces, t);
    SliceOfSlice(Flatten(pieces), n, first, later, Over(pieces, t));
  }

  lemma SliceOfSlice(bytes: seq<byte>, n: nat, first: seq<byte>, later: seq<byte>, k: nat)
    requires n + |first + later| <= |bytes| && bytes[n..n + |first + later|] == first + later && k <= n + |first|
    ensures bytes[..n + |first|] == bytes[..n] + first
    ensures var tail := bytes[n + |first| - k..]; k + |later| <= |tail| && tail[k..k + |later|] == later
  {
    var both := bytes[n..n + |first + later|];
    assert both[..|first|] == first && both[|first|..] == later;
  }

  // ---- Messages in any cut ----

  function Consuming<S>(handle: (S, Header, seq<byte>) -> Option<S>): (S, seq<byte>) -> Pass<S> {
    (s: S, buf: seq<byte>) => Consume(s, buf, handle)
  }

  /** The first n bytes of the messages xs, from state s on: a message that is all there is
      taken, one that is not waits. */
  predicate Steps<S(==), T>(
    s: S, xs: seq<T>, pieces: seq<seq<byte>>, n: nat,
    consume: (S, seq<byte>) -> Pass<S>, serve: (S, T) -> Option<S>)
    requires |pieces| == |xs| && n <= |Flatten(pieces)|
    decreases |xs|
  {
    if xs == [] then consume(s, []) == Pending(s, [])
    else if n < |pieces[0]| then consume(s, pieces[0][..n]) == Pending(s, pieces[0][..n])
    else
      var k, next := |pieces[0]|, serve(s, xs[0]);
      var tail := Flatten(pieces[1..])[..n - k];
      && consume(s, pieces[0] + tail) == (if next.None? then Rejected(s) else consume(next.value, tail))
      && (next.Some? ==> Steps(next.value, xs[1..], pieces[1..], n - k, consume, serve))
  }

  /** Whatever the state and however many bytes there are, and for the messages after the first too. */
  ghost predicate AllStep<S(!new), T>(
    xs: seq<T>, pieces: seq<seq<byte>>, consume: (S, seq<byte>) -> Pass<S>, serve: (S, T) -> Option<S>)
    decreases |xs|
  {
    && |pieces| == |xs|
    && (forall s: S, n: nat :: n <= |Flatten(pieces)| ==> Steps(s, xs, pieces, n, consume, serve))
    && (xs != [] ==> AllStep(xs[1..], pieces[1..], consume, serve))
  }

  lemma StepsNow<S(!new), T>(
    s: S, xs: seq<T>, pieces: seq<seq<byte>>, n: nat,
    consume: (S, seq<byte>) -> Pass<S>, serve: (S, T) -> Option<S>)
    requires AllStep(xs, pieces, consume, serve) && n <= |Flatten(pieces)|
    ensures Steps(s, xs, pieces, n, consume, serve)
  {
  }

  lemma {:induction false} AllStepFrom<S(!new), T>(
    xs: seq<T>, pieces: seq<seq<byte>>, m: nat, consume: (S, seq<byte>) -> Pass<S>, serve: (S, T) -> Option<S>)
    requires AllStep(xs, pieces, consume, serve) && m <= |xs|
    ensures AllStep(xs[m..], pieces[m..], consume, serve)
  {
    if m == 0 {
      assert xs[0..] == xs && pieces[0..] == pieces;
    } else {
      AllStepFrom(xs[1..], pieces[1..], m - 1, consume, serve);
      assert xs[1..][m - 1..] == xs[m..] && pieces[1..][m - 1..] == pieces[m..];
    }
  }

  /** Taking messages one after the other; `rest` is what waits behind them. */
  function ServeAll<S, T>(s: S, xs: seq<T>, serve: (S, T) -> Option<S>, rest: seq<byte>): Pass<S>
    decreases |xs|
  {
    if xs == [] then Pending(s, rest)
    else
      match serve(s, xs[0])
      case None => Rejected(s)
      case Some(x) => ServeAll(x, xs[1..], serve, rest)
  }

  lemma {:induction false} ServeAllRest<S, T>(s: S, xs: seq<T>, serve: (S, T) -> Option<S>, rest: seq<byte>)
    ensures ServeAll(s, xs, serve, rest) ==
            match ServeAll(s, xs, serve, [])
            case Rejected(x) => Rejected(x)
            case Pending(x, _) => Pending(x, rest)
    decreases |xs|
  {
    if xs != [] && serve(s, xs[0]).Some? { ServeAllRest(serve(s, xs[0]).value, xs[1..], serve, rest); }
  }

  /** Any first part of the bytes: the messages that are all there are taken, the rest waits. */
  lemma {:induction false} PartIsServed<S, T>(
    s: S, xs: seq<T>, pieces: seq<seq<byte>>, n: nat,
    consume: (S, seq<byte>) -> Pass<S>, serve: (S, T) -> Option<S>)
    requires |pieces| == |xs| && n <= |Flatten(pieces)| && Steps(s, xs, pieces, n, consume, serve)
    ensures var m := Whole(pieces, n);
            && Over(pieces, n) <= |Flatten(pieces[m..])|
            && consume(s, Flatten(pieces)[..n]) ==
               ServeAll(s, xs[..m], serve, Flatten(pieces[m..])[..Over(pieces, n)])
    decreases |xs|
  {
    CutAt(pieces, n);
    if xs != [] {
      if n < |pieces[0]| {
        FirstIsPart(pieces, n);
      } else {
        var tail := FirstIsWhole(pieces, n);
        var m := Whole(pieces, n);
        assert xs[..m][0] == xs[0] && xs[..m][1..] == xs[1..][..m - 1];
        var next := serve(s, xs[0]);
        if next.Some? { PartIsServed(next.value, xs[1..], pieces[1..], n - |pieces[0]|, consume, serve); }
      }
    }
  }

  lemma FirstIsPart(pieces: seq<seq<byte>>, n: nat)
    requires pieces != [] && n < |pieces[0]|
    ensures Whole(pieces, n) == 0 && Over(pieces, n) == n && pieces[0..] == pieces
    ensures n <= |Flatten(pieces)| && Flatten(pieces)[..n] == pieces[0][..n]
  {
  }

  lemma FirstIsWhole(pieces: seq<seq<byte>>, n: nat) returns (tail: seq<byte>)
    requires pieces != [] && |pieces[0]| <= n <= |Flatten(pieces)|
    ensures Flatten(pieces)[..n] == pieces[0] + tail
    ensures n - |pieces[0]| <= |Flatten(pieces[1..])| && tail == Flatten(pieces[1..])[..n - |pieces[0]|]
    ensures var m := Whole(pieces[1..], n - |pieces[0]|);
            && Whole(pieces, n) == m + 1 && Over(pieces, n) == Over(pieces[1..], n - |pieces[0]|)
            && pieces[1..][m..] == pieces[m + 1..]
  {
    tail := Flatten(pieces[1..])[..n - |pieces[0]|];
  }

  /** What reads come to, when n bytes wait already and before each read the state has changed in
      some way: each message is taken by the read that completes it. */
  function ServeReads<S, T>(
    s: S, xs: seq<T>, pieces: seq<seq<byte>>, n: nat, chunks: seq<seq<byte>>, between: seq<S -> S>,
    serve: (S, T) -> Option<S>): Pass<S>
    requires |between| == |chunks| && |pieces| == |xs| && Brings(pieces, n, chunks)
    decreases |chunks|
  {
    if chunks == [] then Pending(s, Flatten(pieces)[..n])
    else
      var t := n + |chunks[0]|;
      var m := Whole(pieces, t);
      LaterReads(pieces, n, chunks);
      match ServeAll(between[0](s), xs[..m], serve, [])
      case Rejected(x) => Rejected(x)
      case Pending(x, _) => ServeReads(x, xs[m..], pieces[m..], Over(pieces, t), chunks[1..], between[1..], serve)
  }

  /** One read behind n bytes that wait. */
  lemma OneRead<S, T>(
    s: S, xs: seq<T>, pieces: seq<seq<byte>>, n: nat, chunk: seq<byte>,
    handle: (S, Header, seq<byte>) -> Option<S>, serve: (S, T) -> Option<S>) returns (pass: Pass<S>)
    requires |pieces| == |xs| && n + |chunk| <= |Flatten(pieces)|
    requires Steps(s, xs, pieces, n + |chunk|, Consuming(handle), serve)
    requires Flatten(pieces)[..n + |chunk|] == Flatten(pieces)[..n] + chunk
    ensures pass == Feed(Pending(s, Flatten(pieces)[..n]), chunk, handle)
    ensures var m, k := Whole(pieces, n + |chunk|), Over(pieces, n + |chunk|);
            && k <= |Flatten(pieces[m..])|
            && pass == ServeAll(s, xs[..m], serve, Flatten(pieces[m..])[..k])
  {
    PartIsServed(s, xs, pieces, n + |chunk|, Consuming(handle), serve);
    pass := Feed(Pending(s, Flatten(pieces)[..n]), chunk, handle);
  }

  /** The first of several reads, and what is left to the others. */
  lemma FirstRead<S, T>(
    s: S, xs: seq<T>, pieces: seq<seq<byte>>, n: nat, chunks: seq<seq<byte>>,
    handle: (S, Header, seq<byte>) -> Option<S>, serve: (S, T) -> Option<S>) returns (pass: Pass<S>, m: nat, k: nat)
    requires |pieces| == |xs| && Brings(pieces, n, chunks) && chunks != [] && n + |chunks[0]| <= |Flatten(pieces)|
    requires Steps(s, xs, pieces, n + |chunks[0]|, Consuming(handle), serve)
    ensures m == Whole(pieces, n + |chunks[0]|) && k == Over(pieces, n + |chunks[0]|)
    ensures pass == Feed(Pending(s, Flatten(pieces)[..n]), chunks[0], handle)
    ensures Brings(pieces[m..], k, chunks[1..])
    ensures var all := ServeAll(s, xs[..m], serve, []);
            && pass.Pending? == all.Pending? && pass.state == all.state
            && (pass.Pending? ==> pass.rest == Flatten(pieces[m..])[..k])
  {
    var t := n + |chunks[0]|;
    m, k := Whole(pieces, t), Over(pieces, t);
    LaterReads(pieces, n, chunks);
    pass := OneRead(s, xs, pieces, n, chunks[0], handle, serve);
    ServeAllRest(s, xs[..m], serve, Flatten(pieces[m..])[..k]);
  }

  lemma {:induction false} ReadsAreServed<S(!new), T>(
    s: S, xs: seq<T>, pieces: seq<seq<byte>>, n: nat, chunks: seq<seq<byte>>, between: seq<S -> S>,
    handle: (S, Header, seq<byte>) -> Option<S>, serve: (S, T) -> Option<S>)
    requires AllStep(xs, pieces, Consuming(handle), serve) && |between| == |chunks| && Brings(pieces, n, chunks)
    ensures FeedBetween(Pending(s, Flatten(pieces)[..n]), chunks, between, handle) ==
            ServeReads(s, xs, pieces, n, chunks, between, serve)
    decreases |chunks|
  {
    if chunks != [] {
      LaterReads(pieces, n, chunks);
      StepsNow(between[0](s), xs, pieces, n + |chunks[0]|, Consuming(handle), serve);
      var pass, m, k := FirstRead(between[0](s), xs, pieces, n, chunks, handle, serve);
      if pass.Pending? {
        AllStepFrom(xs, pieces, m, Consuming(handle), serve);
        ReadsAreServed(pass.state, xs[m..], pieces[m..], k, chunks[1..], between[1..], handle, serve);
      } else {
        RejectedStays(pass.state, chunks[1..], between[1..], handle);
      }
    }
  }

  // ---- The buffer ----

  /** What waits is always shorter than the buffer, so the reader can always make progress. */
  lemma {:induction false} BufferNeverFull<S>(s: S, buf: seq<byte>, handle: (S, Header, seq<byte>) -> Option<S>)
    ensures var p := Consume(s, buf, handle); p.Pending? ==> |p.rest| < CLIENT_INPUT_CAP
    decreases |buf|
  {
    if |buf| >= HEADER_SIZE {
      var h := DecodeHeader(buf[..HEADER_SIZE]);
      if h.Some? && h.value.payloadBytes <= CLIENT_INPUT_CAP - HEADER_SIZE && |buf| >= MessageLength(h.value) {
        var next := handle(s, h.value, buf[HEADER_SIZE..MessageLength(h.value)]);
        if next.Some? {
          BufferNeverFull(next.value, buf[MessageLength(h.value)..], handle);
        }
      }
    }
  }

  /** Bytes that arrive in two pieces are handled as if they had come at once. */
  lemma {:induction false} ConsumeSplit<S>(
    s: S, a: seq<byte>, b: seq<byte>, handle: (S, Header, seq<byte>) -> Option<S>)
    ensures Consume(s, a + b, handle) == Feed(Consume(s, a, handle), b, handle)
    decreases |a|
  {
    if |a| >= HEADER_SIZE {
      assert (a + b)[..HEADER_SIZE] == a[..HEADER_SIZE];
      var h := DecodeHeader(a[..HEADER_SIZE]);
      if h.Some? && |a| >= MessageLength(h.value) {
        var n := MessageLength(h.value);
        assert (a + b)[HEADER_SIZE..n] == a[HEADER_SIZE..n];
        assert (a + b)[n..] == a[n..] + b;
        var next := handle(s, h.value, a[HEADER_SIZE..n]);
        if next.Some? {
          ConsumeSplit(next.value, a[n..], b, handle);
        }
      }
    }
  }

  /** Any way of cutting the same bytes into reads gives the same commands, the same verdict
      and the same bytes left waiting. */
  lemma {:induction false} FragmentationIndependent<S>(
    s: S, seen: seq<byte>, chunks: seq<seq<byte>>, handle: (S, Header, seq<byte>) -> Option<S>)
    ensures FeedAll(Consume(s, seen, handle), chunks, handle) == Consume(s, seen + Flatten(chunks), handle)
    decreases |chunks|
  {
    if chunks == [] {
      assert seen + Flatten(chunks) == seen;
    } else {
      ConsumeSplit(s, seen, chunks[0], handle);
      FragmentationIndependent(s, seen + chunks[0], chunks[1..], handle);
      FlattenFirst(seen, chunks);
    }
  }

  lemma FlattenFirst(seen: seq<byte>, chunks: seq<seq<byte>>)
    requires chunks != []
    ensures (seen + chunks[0]) + Flatten(chunks[1..]) == seen + Flatten(chunks)
  {
  }

  /** Two clients that send the same bytes, however fragmented, are treated the same. */
  lemma SameBytesSameVerdict<S>(
    s: S, chunks: seq<seq<byte>>, others: seq<seq<byte>>, handle: (S, Header, seq<byte>) -> Option<S>)
    requires Flatten(chunks) == Flatten(others)
    ensures FeedAll(Pending(s, []), chunks, handle) == FeedAll(Pending(s, []), others, handle)
  {
    FragmentationIndependent(s, [], chunks, handle);
    FragmentationIndependent(s, [], others, handle);
  }

  /** One turn of the loop, `at` bytes into the buffer: a bad header, */
  lemma RefusedAt<S>(s: S, all: seq<byte>, at: nat, handle: (S, Header, seq<byte>) -> Option<S>)
    requires at + HEADER_SIZE <= |all|
    requires var h := DecodeHeader(all[at..at + HEADER_SIZE]);
             h.None? || h.value.payloadBytes > CLIENT_INPUT_CAP - HEADER_SIZE
    ensures Consume(s, all[at..], handle) == Rejected(s)
  {
    assert all[at..][..HEADER_SIZE] == all[at..at + HEADER_SIZE];
  }

  /** a message that is not all there, */
  lemma PartialAt<S>(s: S, all: seq<byte>, at: nat, h: Header, handle: (S, Header, seq<byte>) -> Option<S>)
    requires at + HEADER_SIZE <= |all| && DecodeHeader(all[at..at + HEADER_SIZE]) == Some(h)
    requires h.payloadBytes <= CLIENT_INPUT_CAP - HEADER_SIZE && |all| - at < MessageLength(h)
    ensures Consume(s, all[at..], handle) == Pending(s, all[at..])
  {
    assert all[at..][..HEADER_SIZE] == all[at..at + HEADER_SIZE];
  }

  /** or one that is. */
  lemma WholeAt<S>(s: S, all: seq<byte>, at: nat, h: Header, handle: (S, Header, seq<byte>) -> Option<S>)
    requires at + HEADER_SIZE <= |all| && DecodeHeader(all[at..at + HEADER_SIZE]) == Some(h)
    requires h.payloadBytes <= CLIENT_INPUT_CAP - HEADER_SIZE && MessageLength(h) <= |all| - at
    ensures var next := handle(s, h, all[at + HEADER_SIZE..at + MessageLength(h)]);
            Consume(s, all[at..], handle) ==
            if next.None? then Rejected(s) else Consume(next.value, all[at + MessageLength(h)..], handle)
  {
    var buf, n := all[at..], MessageLength(h);
    assert buf[..HEADER_SIZE] == all[at..at + HEADER_SIZE];
    assert buf[HEADER_SIZE..n] == all[at + HEADER_SIZE..at + n] && buf[n..] == all[at + n..];
  }

  /** What one turn of the loop comes to: the session is closed, the message is not all there
      yet, or it was taken. */
  datatype Turn<S> = Refused | Partial | Took(state: S, at: nat)

  method TakeMessage<S>(s: S, all: seq<byte>, at: nat, handle: (S, Header, seq<byte>) -> Option<S>) returns (t: Turn<S>)
    requires at + HEADER_SIZE <= |all|
    ensures t.Took? ==> at < t.at <= |all|
    ensures Consume(s, all[at..], handle) ==
            match t
            case Refused => Rejected(s)
            case Partial => Pending(s, all[at..])
            case Took(state, next) => Consume(state, all[next..], handle)
  {
    var header := DecodeHeader(all[at..at + HEADER_SIZE]);
    if header.None? || header.value.payloadBytes > CLIENT_INPUT_CAP - HEADER_SIZE {
      RefusedAt(s, all, at, handle);
      return Refused;
    }
    var n := MessageLength(header.value);
    if |all| - at < n {
      PartialAt(s, all, at, header.value, handle);
      return Partial;
    }
    WholeAt(s, all, at, header.value, handle);
    var next := handle(s, header.value, all[at + HEADER_SIZE..at + n]);
    t := if next.None? then Refused else Took(next.value, at + n);
  }

  /** The source's loop over the buffered bytes. */
  method TakeMessages<S>(s: S, all: seq<byte>, handle: (S, Header, seq<byte>) -> Option<S>)
    returns (state: S, consumed: nat, ok: bool)
    ensures consumed <= |all|
    ensures Consume(s, all, handle) == if ok then Pending(state, all[consumed..]) else Rejected(state)
  {
    state, consumed := s, 0;
    assert all[0..] == all;
    while |all| - consumed >= HEADER_SIZE
      invariant consumed <= |all|
      invariant Consume(s, all, handle) == Consume(state, all[consumed..], handle)
      decreases |all| - consumed
    {
      var turn := TakeMessage(state, all, consumed, handle);
      match turn
      case Refused => return state, consumed, false;
      case Partial => return state, consumed, true;
      case Took(next, at) => state, consumed := next, at;
    }
    ok := true;
  }

  /** The per-client input buffer. */
  class InputBuffer {
    const input: array<byte>
    var length: nat

    ghost predicate Valid()
      reads this
    {
      input.Length == CLIENT_INPUT_CAP && length <= CLIENT_INPUT_CAP
    }

    ghost function Contents(): seq<byte>
      requires Valid()
      reads this, input
    {
      input[..length]
    }

    constructor ()
      ensures Valid() && fresh(input) && Contents() == []
    {
      input := new byte[CLIENT_INPUT_CAP];
      length := 0;
    }

    /** libuv has filled the free part of the buffer. */
    method Append(bytes: seq<byte>)
      requires Valid() && length + |bytes| <= CLIENT_INPUT_CAP
      modifies this, input
      ensures Valid() && Contents() == old(Contents()) + bytes
    {
      forall i | 0 <= i < |bytes| {
        input[length + i] := bytes[i];
      }
      length := length + |bytes|;
    }

    /** The move to the front after a run. */
    method Drop(consumed: nat)
      requires Valid() && consumed <= length
      modifies this, input
      ensures Valid() && Contents() == old(Contents())[consumed..]
    {
      forall i | 0 <= i < length - consumed {
        input[i] := input[consumed + i];
      }
      length := length - consumed;
    }

    /** A run that leaves the buffer full counts as a failure too; the contract shows that
        this never happens. */
    method ProcessClientInput<S>(s: S, handle: (S, Header, seq<byte>) -> Option<S>) returns (state: S, ok: bool)
      requires Valid()
      modifies this, input
      ensures Valid()
      ensures var p := Consume(s, old(Contents()), handle);
              && state == p.state && (ok <==> p.Pending?)
              && (ok ==> Contents() == p.rest && length < CLIENT_INPUT_CAP)
    {
      BufferNeverFull(s, Contents(), handle);
      var consumed;
      state, consumed, ok := TakeMessages(s, input[..length], handle);
      if !ok {
        return;
      }
      Drop(consumed);
      ok := length != CLIENT_INPUT_CAP;
    }

    /** `on_client_read`: new bytes arrive behind those that wait. */
    method OnClientRead<S>(bytes: seq<byte>, s: S, handle: (S, Header, seq<byte>) -> Option<S>)
      returns (state: S, ok: bool)
      requires Valid() && length + |bytes| <= CLIENT_INPUT_CAP
      modifies this, input
      ensures Valid()
      ensures var p := Feed(Pending(s, old(Contents())), bytes, handle);
              && state == p.state && (ok <==> p.Pending?)
              && (ok ==> Contents() == p.rest && length < CLIENT_INPUT_CAP)
    {
      Append(bytes);
      state, ok := ProcessClientInput(s, handle);
    }
  }
}
