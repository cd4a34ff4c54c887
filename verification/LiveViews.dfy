/** What a live client's readers see on the way: between two changes, a state the daemon has had. */
module LiveViews {
  import opened Types
  import opened Canonical
  import opened Protocol
  import opened Session
  import opened Peer
  import opened Agreement
  import opened OutputQueue
  import opened Replication
  import opened World
  import opened Runs

  /** The message does not belong to the change the client's cache is at: it begins a new one, or
      is a heartbeat. */
  predicate BetweenChanges(p: Peer, m: Msg) {
    m.Heartbeat? || ((m.FrameUpdates? || m.SignalUpdates?) && m.seqno != p.cache.changeSeq)
  }

  /** The cache is one of these canonical states, at the same change. */
  predicate Known(v: View, past: seq<Server>) {
    exists k :: 0 <= k < |past| && past[k].changeSeq == v.changeSeq && Agrees(v, past[k])
  }

  /** Whenever the client, reading the stream, is live and between changes, its cache is known. */
  predicate Coherent(p: Peer, stream: seq<Msg>, past: seq<Server>)
    decreases |stream|
  {
    stream != [] ==>
      && (p.phase.Live? && BetweenChanges(p, stream[0]) ==> Known(p.cache, past))
      && (Receive(p, stream[0]).Some? ==> Coherent(Receive(p, stream[0]).value, stream[1..], past))
  }

  lemma {:induction false} CoherentAppend(p: Peer, stream: seq<Msg>, end: Peer, tail: seq<Msg>, past: seq<Server>)
    requires Coherent(p, stream, past) && Deliver(p, stream) == Some(end) && Coherent(end, tail, past)
    ensures Coherent(p, stream + tail, past)
    decreases |stream|
  {
    if stream == [] {
      assert stream + tail == tail;
    } else {
      var q := HeadAccepted(p, stream);
      CoherentTail(p, stream, q, past);
      CoherentAppend(q, stream[1..], end, tail, past);
      assert (stream + tail)[1..] == stream[1..] + tail && (stream + tail)[0] == stream[0];
      CoherentWhole(p, stream + tail, q, past);
    }
  }

  lemma CoherentTail(p: Peer, stream: seq<Msg>, q: Peer, past: seq<Server>)
    requires stream != [] && Coherent(p, stream, past) && Receive(p, stream[0]) == Some(q)
    ensures (p.phase.Live? && BetweenChanges(p, stream[0]) ==> Known(p.cache, past)) && Coherent(q, stream[1..], past)
  {
  }

  lemma CoherentWhole(p: Peer, stream: seq<Msg>, q: Peer, past: seq<Server>)
    requires stream != [] && Receive(p, stream[0]) == Some(q) && Coherent(q, stream[1..], past)
    requires p.phase.Live? && BetweenChanges(p, stream[0]) ==> Known(p.cache, past)
    ensures Coherent(p, stream, past)
  {
  }

  lemma {:induction false} CoherentPrefix(p: Peer, stream: seq<Msg>, n: nat, past: seq<Server>)
    requires Coherent(p, stream, past) && n <= |stream|
    ensures Coherent(p, stream[..n], past)
    decreases |stream|
  {
    if n > 0 {
      assert stream[..n][1..] == stream[1..][..n - 1] && stream[..n][0] == stream[0];
      if Receive(p, stream[0]).Some? { CoherentPrefix(Receive(p, stream[0]).value, stream[1..], n - 1, past); }
    }
  }

  lemma OneCoherent(p: Peer, m: Msg, past: seq<Server>)
    requires p.phase.Live? && BetweenChanges(p, m) ==> Known(p.cache, past)
    ensures Coherent(p, [m], past)
  {
    assert [m][1..] == [];
  }

  /** A client that is catching up is not live before the last message. */
  lemma {:induction false} RoundCoherent(p: Peer, tail: seq<Msg>, past: seq<Server>)
    requires p.phase.Subscribing? && RoundTail(tail)
    ensures Coherent(p, tail, past)
    decreases |tail|
  {
    if tail != [] && Receive(p, tail[0]).Some? {
      assert RoundTail(tail[1..]);
      if tail[0].Subscribed? {
        assert tail[1..] == [];
      } else {
        RoundCoherent(Receive(p, tail[0]).value, tail[1..], past);
      }
    }
  }

  // ---- Updates of one change ----

  predicate UpdatesOf(tail: seq<Msg>, c: nat) {
    forall k :: 0 <= k < |tail| ==> (tail[k].FrameUpdates? || tail[k].SignalUpdates?) && tail[k].seqno == c
  }

  lemma {:induction false} UpdatesCoherent(p: Peer, tail: seq<Msg>, c: nat, past: seq<Server>)
    requires p.phase.Live? && UpdatesOf(tail, c) && (p.cache.changeSeq == c || Known(p.cache, past))
    ensures Coherent(p, tail, past)
    decreases |tail|
  {
    if tail != [] && Receive(p, tail[0]).Some? {
      UpdatesCoherent(Receive(p, tail[0]).value, tail[1..], c, past);
    }
  }

  lemma UpdateAppends(s: Session, m: Msg, c: nat) returns (t: Session, head: seq<Msg>)
    requires (m.FrameUpdates? || m.SignalUpdates?) && m.seqno == c
    ensures t == OrClose(Queue(s, m, true)) && t.stream == s.stream + head && UpdatesOf(head, c)
  {
    t, head := OrClose(Queue(s, m, true)), [];
    if HasRoom(s, Length(m)) && s.active && Length(m) <= CLIENT_MESSAGE_CAP {
      head := [m];
    }
  }

  lemma UpdatesJoin(stream: seq<Msg>, head: seq<Msg>, rest: seq<Msg>, c: nat)
    requires UpdatesOf(head, c) && UpdatesOf(rest, c)
    ensures stream + (head + rest) == (stream + head) + rest && UpdatesOf(head + rest, c)
  {
  }

  lemma {:induction false} FramesAppend(sv: Server, s: Session, idx: seq<nat>, at: nat) returns (tail: seq<Msg>)
    requires InRange(idx, |sv.frames|) && at <= |idx|
    ensures SendFrames(sv, s, idx, at).stream == s.stream + tail && UpdatesOf(tail, sv.changeSeq)
    decreases |idx| - at
  {
    tail := [];
    if at < |idx| && s.active && !s.needsResync {
      var w := Window(idx, at, FRAMES_PER_MESSAGE);
      var t, head := UpdateAppends(s, FramesNow(sv, w), sv.changeSeq);
      var rest := FramesAppend(sv, t, idx, at + |w|);
      tail := head + rest;
      UpdatesJoin(s.stream, head, rest, sv.changeSeq);
    }
  }

  lemma {:induction false} SignalsAppend(sv: Server, s: Session, idx: seq<nat>, at: nat) returns (tail: seq<Msg>)
    requires InRange(idx, |sv.signals|) && at <= |idx|
    ensures SendSignals(sv, s, idx, at).stream == s.stream + tail && UpdatesOf(tail, sv.changeSeq)
    decreases |idx| - at
  {
    tail := [];
    if at < |idx| && s.active && !s.needsResync {
      var w := Window(idx, at, SIGNALS_PER_MESSAGE);
      var t, head := UpdateAppends(s, SignalsNow(sv, w), sv.changeSeq);
      var rest := SignalsAppend(sv, t, idx, at + |w|);
      tail := head + rest;
      UpdatesJoin(s.stream, head, rest, sv.changeSeq);
    }
  }

  lemma ShareAppends(a: Server, b: Server, s: Session) returns (tail: seq<Msg>)
    requires |a.frames| == |b.frames| && |a.signals| == |b.signals|
    ensures Shared(a, b, s).stream == s.stream + tail && UpdatesOf(tail, b.changeSeq)
    ensures !s.active || !s.subscribed ==> tail == []
  {
    tail := [];
    var frames, signals := Marked(FrameFlags(a.frames, b.frames)), Marked(SignalFlags(a.signals, b.signals));
    if a.sampleSeq != b.sampleSeq && frames != [] && s.active && s.subscribed && !s.needsResync {
      var head := FramesAppend(b, s, frames, 0);
      var rest := SignalsAppend(b, SendFrames(b, s, frames, 0), signals, 0);
      tail := head + rest;
      UpdatesJoin(s.stream, head, rest, b.changeSeq);
    }
  }

  // ---- Every step ----

  /** A subscriber that has read everything knows the current state. */
  lemma SubscriberKnows(e: Env, l: Link, past: seq<Server>)
    requires GoodEnv(e) && LinkOk(e, l) && l.session.active && l.session.subscribed && e.sv in past
    ensures var p := Deliver(l.peer, l.session.stream).value; p.phase.Live? && Known(p.cache, past)
  {
    var k :| 0 <= k < |past| && past[k] == e.sv;
    assert past[k].changeSeq == Deliver(l.peer, l.session.stream).value.cache.changeSeq;
  }

  predicate LinkCoherent(l: Link, past: seq<Server>) {
    Coherent(l.peer, l.session.stream, past)
  }

  lemma SampleCoherent(e: Env, b: Server, l: Link, past: seq<Server>)
    requires GoodEnv(e) && LinkOk(e, l) && LinkCoherent(l, past) && e.sv in past
    requires |e.sv.frames| == |b.frames| && |e.sv.signals| == |b.signals|
    ensures LinkCoherent(l.(session := Shared(e.sv, b, l.session)), past)
  {
    var s := l.session;
    var tail := ShareAppends(e.sv, b, s);
    assert s.stream + [] == s.stream;
    if tail != [] {
      SubscriberKnows(e, l, past);
      UpdatesCoherent(Deliver(l.peer, s.stream).value, tail, b.changeSeq, past);
      CoherentAppend(l.peer, s.stream, Deliver(l.peer, s.stream).value, tail, past);
    }
  }

  lemma BeatCoherent(e: Env, l: Link, milliHz: nat, sourceState: nat, past: seq<Server>)
    requires GoodEnv(e) && LinkOk(e, l) && LinkCoherent(l, past) && e.sv in past
    ensures LinkCoherent(l.(session := BeatTo(e.sv, l.session, milliHz, sourceState)), past)
  {
    var s, m := l.session, BeatOf(e.sv, l.session, milliHz, sourceState);
    if s.active && s.subscribed {
      SubscriberKnows(e, l, past);
      OneCoherent(Deliver(l.peer, s.stream).value, m, past);
      CoherentAppend(l.peer, s.stream, Deliver(l.peer, s.stream).value, [m], past);
    }
  }

  lemma WriteCoherent(e: Env, l: Link, k: nat, past: seq<Server>)
    requires GoodEnv(e) && LinkOk(e, l) && LinkCoherent(l, past)
    ensures LinkCoherent(Completed(e, l, k), past)
  {
    var s := l.session;
    if s.active {
      var p := Deliver(l.peer, s.stream).value;
      var tail := WriteAppends(e, l, k);
      assert s.stream + [] == s.stream;
      if tail != [] {
        if s.catchup {
          CatchingUp(e, s, p);
          RoundCoherent(p, tail, past);
        } else {
          assert tail == [tail[0]];
          OneCoherent(p, tail[0], past);
        }
        CoherentAppend(l.peer, s.stream, p, tail, past);
      }
    }
  }

  lemma CatchingUp(e: Env, s: Session, p: Peer)
    requires GoodEnv(e) && Core(e, s, p) && s.active && s.catchup
    ensures p.phase.Subscribing?
  {
  }

  /** The answer to a request: one message, or the batches of a first round. */
  lemma AnswerCoherent(e: Env, s: Session, p: Peer, past: seq<Server>)
    requires GoodEnv(e) && Linked(e, s, p) && s.active && p.requests != []
    ensures s.snapDone ==> CopyShaped(e.sv, s)
    ensures Coherent(p.(requests := []), Serve(e.cat, e.setup, e.sv, s, p.requests[0]).s.stream, past)
  {
    Dispatch(e, s, p);
    var q := p.(requests := []);
    if p.phase.Subscribing? {
      SubscribeServed(e, s, p);
      var tail := DriveAppends(e.sv, BeginRound(e.sv, s.(catchup := true)));
      RoundCoherent(q, tail, past);
      assert [] + tail == tail;
    } else if Serve(e.cat, e.setup, e.sv, s, p.requests[0]).Ok? {
      var m := ServeSends(e.cat, e.setup, e.sv, s, p.requests[0]);
      OneCoherent(q, m, past);
      assert [] + [m] == [m];
    } else {
      CommandsInOrder(e.cat, e.setup, e.sv, s, p.requests[0]);
    }
  }

  lemma RequestCoherent(e: Env, l: Link, past: seq<Server>)
    requires GoodEnv(e) && LinkOk(e, l) && LinkCoherent(l, past)
    ensures LinkCoherent(RequestTaken(e, l), past)
  {
    if l.session.active && l.peer.requests != [] {
      AnswerCoherent(e, l.session, l.peer, past);
      RequestServed(e, l.session, l.peer);
    }
  }

  lemma ReadCoherent(e: Env, l: Link, past: seq<Server>)
    requires GoodEnv(e) && LinkOk(e, l) && LinkCoherent(l, past)
    ensures LinkCoherent(Read(e, l), past)
  {
    if l.session.stream != [] { var q := HeadAccepted(l.peer, l.session.stream); }
  }

  lemma DropCoherent(l: Link, keep: nat, past: seq<Server>)
    requires LinkCoherent(l, past)
    ensures LinkCoherent(Dropped(l, keep), past)
  {
    if keep <= |l.session.stream| { CoherentPrefix(l.peer, l.session.stream, keep, past); }
  }

  /** Each step, on each link. */
  lemma StepCoherent(w: World, l: Label, i: nat, past: seq<Server>)
    requires Inv(w) && i < |w.links| && LinkCoherent(w.links[i], past) && w.env.sv in past
    ensures i < |Step(w, l).links| && LinkCoherent(Step(w, l).links[i], past)
  {
    var link := w.links[i];
    assert LinkOk(w.env, link);
    if l.Distribute? {
      if w.sampler.published.sequence > w.env.sv.sampleSeq {
        SampleCoherent(w.env, Step(w, l).env.sv, link, past);
      }
    } else if l.HeartbeatTick? {
      BeatCoherent(w.env, link, l.milliHz, l.sourceState, past);
    } else {
      OwnStepCoherent(w, l, i, past);
    }
  }

  lemma OwnStepCoherent(w: World, l: Label, i: nat, past: seq<Server>)
    requires Inv(w) && i < |w.links| && LinkCoherent(w.links[i], past) && !l.Distribute? && !l.HeartbeatTick?
    ensures i < |Step(w, l).links| && LinkCoherent(Step(w, l).links[i], past)
  {
    var link := w.links[i];
    assert LinkOk(w.env, link);
    if !Concerns(l, i) {
      ElsewhereUntouched(w, l, i);
    } else {
      match l
      case TakeRequest(_) => RequestCoherent(w.env, link, past);
      case WriteDone(_, k) => WriteCoherent(w.env, link, k, past);
      case ClientReads(_) => ReadCoherent(w.env, link, past);
      case Disconnect(_, keep) => DropCoherent(link, keep, past);
      case Connect(_) =>
    }
  }

  // ---- Every run ----

  /** The canonical states of a run, one after each of its steps. */
  function States(b: Start, run: seq<Label>): (past: seq<Server>)
    requires GoodStart(b)
    ensures |past| == |run| + 1 && forall j :: 0 <= j <= |run| ==> past[j] == Reached(b, run[..j]).env.sv
  {
    seq(|run| + 1, j requires 0 <= j <= |run| => Reached(b, run[..j]).env.sv)
  }

  lemma NextCoherent(b: Start, run: seq<Label>, n: nat, i: nat, past: seq<Server>)
    requires GoodStart(b) && n < |run| && i < |Reached(b, run[..n]).links|
    requires LinkCoherent(Reached(b, run[..n]).links[i], past) && Reached(b, run[..n]).env.sv in past
    ensures i < |Reached(b, run[..n + 1]).links| && LinkCoherent(Reached(b, run[..n + 1]).links[i], past)
  {
    ReachedNext(b, run, n);
    StepCoherent(Reached(b, run[..n]), run[n], i, past);
  }

  lemma {:induction false} RunCoherent(b: Start, run: seq<Label>, n: nat, i: nat, past: seq<Server>)
    requires GoodStart(b) && n <= |run| && i < b.places
    requires forall j :: 0 <= j <= |run| ==> Reached(b, run[..j]).env.sv in past
    ensures i < |Reached(b, run[..n]).links| && LinkCoherent(Reached(b, run[..n]).links[i], past)
  {
    if n > 0 {
      RunCoherent(b, run, n - 1, i, past);
      NextCoherent(b, run, n - 1, i, past);
    }
  }

  // ---- A change sequence means a state ----

  predicate SameState(a: Server, b: Server) {
    FramesMatch(a.frames, b.frames, []) && a.signals == b.signals
  }

  /** The change sequence never goes back, and stays only if nothing changed but stamps of frames. */
  predicate Marks(a: Server, b: Server) {
    a.changeSeq <= b.changeSeq && (a.changeSeq == b.changeSeq ==> SameState(a, b))
  }

  lemma AbsorbMarks(e: Env, sample: Sample)
    requires GoodEnv(e) && Due(e, sample)
    ensures Marks(e.sv, Moved(e, sample).sv)
  {
    if !Changes(e.sv, sample) {
      GoodIsIdentified(e.cat, e.sv.frames);
      GoodIsIdentified(e.cat, sample.frames);
      forall i | 0 <= i < |e.sv.frames| ensures SameFrame(e.sv.frames[i], sample.frames[i]) {
        NoChange(e.sv, sample, i);
      }
    }
  }

  lemma StepMarks(w: World, l: Label)
    requires Inv(w)
    ensures Marks(w.env.sv, Step(w, l).env.sv)
  {
    if l.Distribute? && w.sampler.published.sequence > w.env.sv.sampleSeq {
      AbsorbMarks(w.env, w.sampler.published);
    }
  }

  lemma {:induction false} RunMarks(w: World, run: seq<Label>)
    requires Inv(w)
    ensures Marks(w.env.sv, Exec(w, run).env.sv)
    decreases |run|
  {
    if run != [] {
      StepMarks(w, run[0]);
      StepKeepsInv(w, run[0]);
      RunMarks(Step(w, run[0]), run[1..]);
      MarksOn(w.env.sv, Step(w, run[0]).env.sv, Exec(w, run).env.sv);
    }
  }

  lemma MarksOn(a: Server, b: Server, c: Server)
    requires Marks(a, b) && Marks(b, c)
    ensures Marks(a, c)
  {
  }

  /** All states of a run that have one change sequence are the same. */
  lemma ChangeMeansState(b: Start, run: seq<Label>, j: nat, k: nat)
    requires GoodStart(b) && j <= k <= |run|
    ensures Marks(Reached(b, run[..j]).env.sv, Reached(b, run[..k]).env.sv)
  {
    BootInv(b.cat, b.setup, b.visit, b.now, b.ts, b.places);
    assert run[..k] == run[..j] + run[j..k];
    ExecAppend(Boot(b.cat, b.setup, b.visit, b.now, b.ts, b.places), run[..j], run[j..k]);
    RunMarks(Reached(b, run[..j]), run[j..k]);
  }

  lemma AgreesWithBoth(v: View, a: Server, b: Server)
    requires Agrees(v, a) && (SameState(a, b) || SameState(b, a))
    ensures Agrees(v, b)
  {
  }

  lemma AgreesWhenever(b: Start, run: seq<Label>, v: View, j: nat, k: nat)
    requires GoodStart(b) && j <= |run| && k <= |run|
    requires Reached(b, run[..j]).env.sv.changeSeq == Reached(b, run[..k]).env.sv.changeSeq
    requires Agrees(v, Reached(b, run[..j]).env.sv)
    ensures Agrees(v, Reached(b, run[..k]).env.sv)
  {
    if j <= k { ChangeMeansState(b, run, j, k); } else { ChangeMeansState(b, run, k, j); }
    AgreesWithBoth(v, Reached(b, run[..j]).env.sv, Reached(b, run[..k]).env.sv);
  }

  /** In every run, a live client that is between changes, whatever else is in flight behind, has
      in its cache the canonical state of that change: the daemon has been at that change, and
      whenever it was, its state was the one in the cache. */
  lemma LiveClientShowsAChange(b: Start, run: seq<Label>, i: nat) returns (j: nat)
    requires GoodStart(b) && i < |Reached(b, run).links| && Reached(b, run).links[i].session.stream != []
    requires var l := Reached(b, run).links[i];
             l.peer.phase.Live? && BetweenChanges(l.peer, l.session.stream[0])
    ensures j <= |run| && Reached(b, run[..j]).env.sv.changeSeq == Reached(b, run).links[i].peer.cache.changeSeq
    ensures forall k :: 0 <= k <= |run| ==>
              var cache, sv := Reached(b, run).links[i].peer.cache, Reached(b, run[..k]).env.sv;
              sv.changeSeq == cache.changeSeq ==> Agrees(cache, sv)
  {
    var cache := Reached(b, run).links[i].peer.cache;
    j := SomeStateAgrees(b, run, i);
    forall k | 0 <= k <= |run| && Reached(b, run[..k]).env.sv.changeSeq == cache.changeSeq
      ensures Agrees(cache, Reached(b, run[..k]).env.sv)
    {
      AgreesWhenever(b, run, cache, j, k);
    }
  }

  lemma SomeStateAgrees(b: Start, run: seq<Label>, i: nat) returns (j: nat)
    requires GoodStart(b) && i < |Reached(b, run).links| && Reached(b, run).links[i].session.stream != []
    requires var l := Reached(b, run).links[i];
             l.peer.phase.Live? && BetweenChanges(l.peer, l.session.stream[0])
    ensures j <= |run|
    ensures var cache, sv := Reached(b, run).links[i].peer.cache, Reached(b, run[..j]).env.sv;
            sv.changeSeq == cache.changeSeq && Agrees(cache, sv)
  {
    assert run[..|run|] == run;
    SameSettings(b, run);
    RunCoherent(b, run, |run|, i, States(b, run));
    var past, cache := States(b, run), Reached(b, run).links[i].peer.cache;
    j :| 0 <= j < |past| && past[j].changeSeq == cache.changeSeq && Agrees(cache, past[j]);
  }
}
