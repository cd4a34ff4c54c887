/** A run that ends in a wrong replica: one output slot, one sample between snapshot and
    subscription, and SUBSCRIBE_ALL sent twice. */
module WrongReplica {
  import opened Types
  import opened Canonical
  import opened Protocol
  import opened Session
  import opened Peer
  import opened Agreement
  import opened OutputQueue
  import opened Replication
  import opened World
  import opened Progress
  import opened Runs
  import opened DoubleSubscribe
  import opened Repairs
  import Sampler
  import Schema
  import Source

  // ---- Up to the subscription ----

  /** The client waits for an answer; if to SUBSCRIBE_ALL, then no write has completed since. */
  predicate Waiting(e: Env, l: Link)
    requires GoodEnv(e)
  {
    && LinkOk(e, l) && l.session.active
    && var requests := Deliver(l.peer, l.session.stream).value.requests;
       requests != [] && (requests == [SubscribeAll] ==> FreeCount(l.session.slots) == 0)
  }

  /** SUBSCRIBE_ALL reaches the daemon while the queue is full. */
  predicate Arrived(l: Link) {
    l.session.stream == [] && l.peer.requests == [SubscribeAll] && FreeCount(l.session.slots) == 0
  }

  /** Before it subscribes, the client follows every answer with the next request. */
  lemma AnswerIsFollowed(p: Peer, m: Msg)
    requires !p.phase.Subscribing? && !p.phase.Live? && Deliver(p, [m]).Some?
    ensures Deliver(p, [m]).value.requests != []
  {
    var q := HeadAccepted(p, [m]);
    assert [m][1..] == [];
  }

  lemma AskingWaits(e: Env, l: Link)
    requires GoodEnv(e) && Waiting(e, l) && l.session.stream == [] && FreeCount(l.session.slots) == 1
    ensures Waiting(e, RequestTaken(e, l))
  {
    var s, p := l.session, l.peer;
    RequestStep(e, l);
    RequestAdvances(e, s, p);
    Dispatch(e, s, p);
    var m := ServeSends(e.cat, e.setup, e.sv, s, p.requests[0]);
    assert s.stream + [m] == [m];
    AnswerIsFollowed(p.(requests := []), m);
  }

  lemma WritingWaits(e: Env, l: Link, k: nat)
    requires GoodEnv(e) && Waiting(e, l) && Deliver(l.peer, l.session.stream).value.requests != [SubscribeAll]
    ensures Waiting(e, Completed(e, l, k))
  {
    AwaitsAnswer(e, l);
    var tail := WriteAppends(e, l, k);
    WriteStep(e, l, k);
    assert l.session.stream + [] == l.session.stream;
    if k < |l.session.slots| && l.session.slots[k].Busy? { WriteCompleted(e, l.session, l.peer, k); }
  }

  lemma ReadingWaits(e: Env, l: Link)
    requires GoodEnv(e) && Waiting(e, l) && l.session.stream != []
    ensures Waiting(e, Read(e, l))
  {
    ReadStep(e, l);
    var q := HeadAccepted(l.peer, l.session.stream);
  }

  /** With one slot there is a step towards that state. */
  lemma StepTowards(e: Env, l: Link, i: nat) returns (a: Label)
    requires GoodEnv(e) && Waiting(e, l) && !Arrived(l) && e.setup.slots == 1
    ensures OnlyLink(a, i) && Enabled(l, a) && Waiting(e, OnThisLink(e, l, a))
  {
    FreeNeverExceeds(e, l);
    if l.session.stream != [] {
      a := ClientReads(i);
      ReadingWaits(e, l);
    } else if FreeCount(l.session.slots) == 0 {
      a := WriteDone(i, 0);
      NoFreeSlot(l.session.slots, 0);
      WritingWaits(e, l, 0);
    } else {
      a := TakeRequest(i);
      AskingWaits(e, l);
    }
  }

  lemma WorldTowards(w: World, i: nat) returns (a: Label)
    requires Inv(w) && i < |w.links| && Waiting(w.env, w.links[i]) && !Arrived(w.links[i]) && w.env.setup.slots == 1
    ensures OnlyLink(a, i) && Inv(Step(w, a)) && Step(w, a).env == w.env && |Step(w, a).links| == |w.links|
    ensures Waiting(w.env, Step(w, a).links[i])
    ensures Less(WorkLeft(Step(w, a), i), WorkLeft(w, i))
  {
    a := StepTowards(w.env, w.links[i], i);
    NextStep(w, i, a);
    assert Step(w, a) == OnLink(w, i, OnThisLink(w.env, w.links[i], a));
  }

  lemma {:induction false} Arrives(w: World, i: nat) returns (run: seq<Label>)
    requires Inv(w) && i < |w.links| && Waiting(w.env, w.links[i]) && w.env.setup.slots == 1
    ensures forall k :: 0 <= k < |run| ==> OnlyLink(run[k], i)
    ensures var x := Exec(w, run); i < |x.links| && Waiting(x.env, x.links[i]) && Arrived(x.links[i])
    decreases WorkLeft(w, i).rank, WorkLeft(w, i).backlog, WorkLeft(w, i).busy, WorkLeft(w, i).unread
  {
    run := [];
    if !Arrived(w.links[i]) {
      var a := WorldTowards(w, i);
      var rest := Arrives(Step(w, a), i);
      ExecFirst(w, a, rest);
      run := [a] + rest;
    }
  }

  // ---- The sample ----

  /** A visit to the vehicle after which frame 0 is not what it was. */
  function Upsetting(cat: Catalog, was: Frame): (v: Source.Visit)
    ensures Source.GoodVisit(cat, v)
  {
    if was.state.Unavailable?
    then Source.Visit(true, Source.ReadOk(seq(|cat.canIds|, k requires 0 <= k < |cat.canIds| =>
                                            Frame(cat.canIds[k], NeverObserved, ZERO_DATA, 0, 0)), false))
    else Source.Visit(false, Source.ReadFailed)
  }

  lemma Upset(cat: Catalog, st: Sampler.State, was: Frame)
    requires GoodLayout(cat) && Sampler.SamplerInv(cat, st)
    ensures var x := Sampler.Tick(cat, st, Upsetting(cat, was), st.source.retryAt, st.published.timestamp);
            |x.published.frames| > 0 && FrameDiffers(x.published.frames[0], was)
  {
    if !was.state.Unavailable? {
      Sampler.OutageKeepsHistory(cat, st, Upsetting(cat, was), st.source.retryAt, st.published.timestamp, 0);
    }
  }

  function Surprise(w: World, was: Frame): seq<Label> {
    [Publish(Upsetting(w.env.cat, was), w.sampler.source.retryAt, w.sampler.published.timestamp), Distribute]
  }

  /** The sample reaches the canonical state, and a session that is not subscribed stays as it is. */
  lemma SurpriseComes(w: World, i: nat, was: Frame)
    requires Inv(w) && i < |w.links| && !w.links[i].session.subscribed
    ensures var x := Exec(w, Surprise(w, was));
            && i < |x.links| && x.links[i] == w.links[i] && |x.env.sv.frames| > 0
            && FrameDiffers(x.env.sv.frames[0], was)
  {
    var run := Surprise(w, was);
    var y := Step(w, run[0]);
    StepKeepsInv(w, run[0]);
    Upset(w.env.cat, w.sampler, was);
    var x := Step(y, Distribute);
    SharedOnlySent(y.env.sv, x.env.sv, y.links[i].session);
    assert run[1..] == [Distribute] && [Distribute][1..] == [];
    StepKeepsInv(y, Distribute);
    assert Exec(y, [Distribute]) == Exec(x, []);
  }

  // ---- Twice SUBSCRIBE_ALL ----

  /** Both commands are taken. */
  function SubscribedTwice(sv: Server, s: Session): Option<Session> {
    if !CopyShaped(sv, s) then None
    else
      match ServeSubscribe(sv, s)
      case Fail(_) => None
      case Ok(a) =>
        if !CopyShaped(sv, a) then None
        else
          match ServeSubscribe(sv, a)
          case Fail(_) => None
          case Ok(b) => Some(b)
  }

  /** The daemon takes the client's SUBSCRIBE_ALL twice and one write completes: the client is
      told that it is subscribed, goes live, and disagrees with the canonical state. */
  predicate Misled(e: Env, l: Link) {
    && l.session.active && l.session.stream == [] && l.peer.requests == [SubscribeAll]
    && var twice := SubscribedTwice(e.sv, l.session);
       twice.Some? && Wrong(e, AfterWrites(e.sv, twice.value, [0]), l.peer.(requests := []))
  }

  predicate Wrong(e: Env, s: Session, peer: Peer) {
    var d := Deliver(peer, s.stream);
    s.active && s.subscribed && d.Some? && d.value.phase.Live? && !Agrees(d.value.cache, e.sv)
  }

  lemma FirstCommand(e: Env, l: Link) returns (a: Session)
    requires GoodEnv(e) && LinkOk(e, l) && l.session.active && Arrived(l)
    ensures CopyShaped(e.sv, l.session) && ServeSubscribe(e.sv, l.session) == Ok(a)
    ensures a == BeginRound(e.sv, l.session.(catchup := true))
    ensures Linked(e, a, l.peer.(requests := [])) && BehindOk(a, l.peer.(requests := [])) && a.active && a.catchup
  {
    var s, p := l.session, l.peer;
    Dispatch(e, s, p);
    SubscribeServed(e, s, p);
    HeldBack(e, s);
    a := BeginRound(e.sv, s.(catchup := true));
  }

  /** A round on the current state that has something to send has nothing to send again. */
  lemma NothingRemarked(sv: Server, s: Session)
    requires CopyShaped(sv, s) && |sv.frames| > 0 && FrameDiffers(sv.frames[0], s.snap.frames[0])
    ensures !Remarked(sv, BeginRound(sv, s))
    ensures Todo(sv, BeginRound(sv, BeginRound(sv, s))) == 1
  {
    var b := BeginRound(sv, s);
    MarkedMember(FrameFlags(s.snap.frames, sv.frames), 0);
    var k :| 0 <= k < |b.round.frames| && b.round.frames[k] == 0;
    assert !FrameDiffers(sv.frames[b.round.frames[k]], b.snap.frames[b.round.frames[k]]);
    SecondRoundIsEmpty(sv, s);
    var c := BeginRound(sv, b);
    NoneMarked(FrameFlags(c.snap.frames, sv.frames));
    NoneMarked(SignalFlags(c.snap.signals, sv.signals));
  }

  lemma TwiceMisleads(e: Env, l: Link)
    requires GoodEnv(e) && LinkOk(e, l) && l.session.active && Arrived(l) && CopyShaped(e.sv, l.session)
    requires FrameDiffers(e.sv.frames[0], l.session.snap.frames[0])
    ensures Misled(e, l)
  {
    var a := FirstCommand(e, l);
    SecondSubscribeForgets(e, a, l.peer.(requests := []), [0]);
    NothingRemarked(e.sv, l.session.(catchup := true));
  }

  lemma ArrivedIsSnapshot(e: Env, l: Link)
    requires GoodEnv(e) && LinkOk(e, l) && l.session.active && Arrived(l)
    ensures CopyShaped(e.sv, l.session) && |e.sv.frames| > 0 && !l.session.subscribed
  {
    Dispatch(e, l.session, l.peer);
  }

  /** For every catalog and every start with one output slot there is such a run: connect, read
      the whole snapshot, let one sample come, and subscribe twice. */
  lemma ForgettingIsReal(b: Start) returns (run: seq<Label>)
    requires GoodStart(b) && b.setup.slots == 1 && b.places > 0
    ensures |Reached(b, run).links| > 0 && Misled(Reached(b, run).env, Reached(b, run).links[0])
    ensures |run| >= 3 && run[0] == Connect(0) && run[|run| - 2].Publish? && run[|run| - 1] == Distribute
    ensures forall k :: 1 <= k < |run| - 2 ==> OnlyLink(run[k], 0)
  {
    var w := Reached(b, [Connect(0)]);
    ConnectedWaits(b);
    var page := Arrives(w, 0);
    var x := Exec(w, page);
    ArrivedIsSnapshot(x.env, x.links[0]);
    var was := x.links[0].session.snap.frames[0];
    SurpriseComes(x, 0, was);
    var y := Exec(x, Surprise(x, was));
    ArrivedIsSnapshot(y.env, y.links[0]);
    TwiceMisleads(y.env, y.links[0]);
    run := [Connect(0)] + page + Surprise(x, was);
    ReachedFurther(b, [Connect(0)], page);
    ReachedFurther(b, [Connect(0)] + page, Surprise(x, was));
  }

  lemma ConnectedWaits(b: Start)
    requires GoodStart(b) && b.places > 0
    ensures var w := Reached(b, [Connect(0)]);
            w.env.setup == b.setup && |w.links| > 0 && Waiting(w.env, w.links[0])
  {
    SameSettings(b, [Connect(0)]);
    AllFree(b.setup.slots);
    assert [Connect(0)][1..] == [];
    var w := Reached(b, [Connect(0)]);
    assert LinkOk(w.env, w.links[0]);
  }

  lemma ReachedFurther(b: Start, run: seq<Label>, more: seq<Label>)
    requires GoodStart(b)
    ensures Reached(b, run + more) == Exec(Reached(b, run), more)
  {
    BootInv(b.cat, b.setup, b.visit, b.now, b.ts, b.places);
    ExecAppend(Boot(b.cat, b.setup, b.visit, b.now, b.ts, b.places), run, more);
  }
}
