/** Termination and progress: the catch-up driver, the client's paging loops, and the way
    from any state of a session to a live, agreeing client. */
module Progress {
  import opened Types
  import opened Canonical
  import opened Protocol
  import opened Session
  import opened Peer
  import opened Agreement
  import opened OutputQueue
  import opened Replication
  import opened World

  // ---- Catch-up ----

  /** Messages a round still has to send. */
  function Left(r: Round): nat
    requires r.frameAt <= |r.frames| && r.signalAt <= |r.signals|
  {
    Chunks(|r.frames| - r.frameAt, FRAMES_PER_MESSAGE) + Chunks(|r.signals| - r.signalAt, SIGNALS_PER_MESSAGE)
  }

  /** Messages of a round begun from a copy. */
  function NextRound(sv: Server, snap: Copy): nat
    requires |snap.frames| == |sv.frames| && |snap.signals| == |sv.signals|
  {
    Chunks(|Marked(FrameFlags(snap.frames, sv.frames))|, FRAMES_PER_MESSAGE)
    + Chunks(|Marked(SignalFlags(snap.signals, sv.signals))|, SIGNALS_PER_MESSAGE)
  }

  /** Messages until the subscription is announced, if no further sample arrives. */
  function Todo(sv: Server, s: Session): nat
    requires CopyShaped(sv, s) && RoundShaped(s)
  {
    Left(s.round) + NextRound(sv, s.snap) + 1
  }

  lemma {:induction false} NoneMarked(flags: seq<bool>)
    requires forall i :: 0 <= i < |flags| ==> !flags[i]
    ensures Marked(flags) == []
  {
    if flags != [] { NoneMarked(flags[..|flags| - 1]); }
  }

  /** A second round on the same canonical state finds nothing. */
  lemma SecondRoundIsEmpty(sv: Server, s: Session)
    requires CopyShaped(sv, s)
    ensures RoundDone(BeginRound(sv, BeginRound(sv, s)))
  {
    var b := BeginRound(sv, s);
    NoneMarked(FrameFlags(b.snap.frames, sv.frames));
    NoneMarked(SignalFlags(b.snap.signals, sv.signals));
  }

  lemma ChunkStep(n: nat, m: nat, k: nat)
    requires n > 0 && k > 0 && m == n - Min(n, k)
    ensures Chunks(n, k) == 1 + Chunks(m, k)
  {
  }

  lemma AdvanceSendsOne(r: Round)
    requires r.frameAt <= |r.frames| && r.signalAt <= |r.signals|
    requires r.frameAt < |r.frames| || r.signalAt < |r.signals|
    ensures Left(Advance(r)) == Left(r) - 1
  {
    var t := Advance(r);
    if r.frameAt < |r.frames| {
      ChunkStep(|r.frames| - r.frameAt, |t.frames| - t.frameAt, FRAMES_PER_MESSAGE);
    } else {
      ChunkStep(|r.signals| - r.signalAt, |t.signals| - t.signalAt, SIGNALS_PER_MESSAGE);
    }
  }

  /** What a round will hold depends on the copy alone. */
  lemma SameCopySameRound(sv: Server, s: Session, t: Session)
    requires CopyShaped(sv, s) && s.snap == t.snap
    ensures CopyShaped(sv, t) && BeginRound(sv, s).round == BeginRound(sv, t).round
  {
  }

  lemma TodoIgnoresQueue(sv: Server, s: Session, t: Session)
    requires CopyShaped(sv, s) && RoundShaped(s) && t.snap == s.snap && t.round == s.round
    ensures CopyShaped(sv, t) && RoundShaped(t) && Todo(sv, t) == Todo(sv, s)
  {
  }

  lemma TodoAfterBatch(sv: Server, s: Session, t: Session)
    requires CopyShaped(sv, s) && RoundShaped(s) && !RoundDone(s)
    requires t.snap == s.snap && t.round == Advance(s.round)
    ensures CopyShaped(sv, t) && RoundShaped(t) && Todo(sv, t) == Todo(sv, s) - 1
  {
    AdvanceSendsOne(s.round);
    assert RoundShaped(RoundAdvanced(s));
  }

  lemma TodoOfNewRound(sv: Server, s: Session)
    requires CopyShaped(sv, s) && RoundShaped(s) && RoundDone(s)
    ensures Todo(sv, BeginRound(sv, s)) == Todo(sv, s)
  {
    var b := BeginRound(sv, s);
    NoneMarked(FrameFlags(b.snap.frames, sv.frames));
    NoneMarked(SignalFlags(b.snap.signals, sv.signals));
  }

  /** How many rounds a call of the driver begins. */
  function Rounds(sv: Server, s: Session): nat
    requires CopyShaped(sv, s) && RoundShaped(s)
    decreases FreeCount(s.slots), if RoundDone(s) then 1 else 0
  {
    if !s.active || !s.catchup || !HasCapacity(s) then 0
    else if !RoundDone(s) then
      var o := RoundStep(s);
      if o.Fail? then 0 else Rounds(sv, o.s)
    else
      var b := BeginRound(sv, s);
      1 + if RoundDone(b) then 0 else Rounds(sv, b)
  }

  /** The driver begins at most two rounds: the second compares the state with itself. */
  lemma {:induction false} AtMostTwoRounds(sv: Server, s: Session)
    requires CopyShaped(sv, s) && RoundShaped(s)
    ensures Rounds(sv, s) <= 2
    ensures RoundDone(BeginRound(sv, s)) ==> Rounds(sv, s) <= 1
    decreases FreeCount(s.slots), if RoundDone(s) then 1 else 0
  {
    if s.active && s.catchup && HasCapacity(s) {
      if !RoundDone(s) {
        var o := RoundStep(s);
        if o.Ok? {
          SameCopySameRound(sv, s, o.s);
          AtMostTwoRounds(sv, o.s);
        }
      } else {
        var b := BeginRound(sv, s);
        SecondRoundIsEmpty(sv, s);
        if !RoundDone(b) { AtMostTwoRounds(sv, b); }
      }
    }
  }

  /** With room for one message the driver gets one message closer. */
  lemma DriveOne(e: Env, s: Session, peer: Peer)
    requires GoodEnv(e) && Driving(e, s, peer) && FreeCount(s.slots) == 1
    ensures var t := Drive(e.sv, s).s;
            t.subscribed || (t.catchup && CopyShaped(e.sv, t) && RoundShaped(t) && Todo(e.sv, t) == Todo(e.sv, s) - 1)
  {
    RoomIsASlot(e.setup, s, 0, 0);
    if !RoundDone(s) {
      DriveBatch(e, s, peer);
    } else {
      var b := BeginRound(e.sv, s);
      RoundRestarted(e, s, peer);
      TodoOfNewRound(e.sv, s);
      if !RoundDone(b) {
        DriveBatch(e, b, peer);
        assert Drive(e.sv, s) == Drive(e.sv, b);
      } else {
        var t := SubscriptionAnnounced(e, b, peer);
      }
    }
  }

  lemma DriveBatch(e: Env, s: Session, peer: Peer)
    requires GoodEnv(e) && Driving(e, s, peer) && FreeCount(s.slots) == 1 && !RoundDone(s)
    ensures var o := Drive(e.sv, s);
            && o.Ok? && o.s.active && o.s.catchup && o.s.snap == s.snap && o.s.round == Advance(s.round)
            && CopyShaped(e.sv, o.s) && RoundShaped(o.s) && Todo(e.sv, o.s) == Todo(e.sv, s) - 1
  {
    RoomIsASlot(e.setup, s, 0, 0);
    var t := RoundBatchSent(e, s, peer);
    RoomIsASlot(e.setup, t, 0, 0);
    TodoAfterBatch(e.sv, s, t);
    assert Drive(e.sv, t) == Ok(t);
  }

  /** Each completed write takes a catch-up one message further. */
  lemma CatchupAdvances(e: Env, s: Session, peer: Peer, k: nat)
    requires GoodEnv(e) && Linked(e, s, peer) && s.active && s.catchup && k < |s.slots|
    ensures s.slots[k].Busy? && CopyShaped(e.sv, s) && RoundShaped(s)
    ensures var t := Written(e.sv, s, k);
            t.subscribed || (t.catchup && CopyShaped(e.sv, t) && RoundShaped(t) && Todo(e.sv, t) == Todo(e.sv, s) - 1)
  {
    NoFreeSlot(s.slots, k);
    EmptySlot(s.slots, k);
    SlotFreed(e, s, Deliver(peer, s.stream).value, k);
    var f := FreeSlot(s, k);
    assert Driving(e, f, peer);
    DriveOne(e, f, peer);
    DriveKeeps(e, f, peer);
    WrittenIsDrive(e.sv, s, k);
    TodoIgnoresQueue(e.sv, s, f);
  }

  lemma WrittenIsDrive(sv: Server, s: Session, k: nat)
    requires k < |s.slots| && s.slots[k].Busy? && s.catchup && CopyShaped(sv, s) && RoundShaped(s)
    ensures CopyShaped(sv, FreeSlot(s, k)) && RoundShaped(FreeSlot(s, k))
    ensures var o := Drive(sv, FreeSlot(s, k)); o.Ok? && !o.s.needsResync ==> Written(sv, s, k) == o.s
  {
  }

  lemma {:induction false} NoFreeSlot(slots: seq<Slot>, k: nat)
    requires FreeCount(slots) == 0 && k < |slots|
    ensures slots[k].Busy?
  {
    if k > 0 { NoFreeSlot(slots[1..], k - 1); }
  }

  predicate WritesOn(run: seq<Label>, i: nat, slots: nat) {
    forall k :: 0 <= k < |run| ==> run[k].WriteDone? && run[k].i == i && run[k].slot < slots
  }

  /** After `done` completed writes out of `total`. */
  predicate OnItsWay(e: Env, s: Session, total: nat, done: nat) {
    && s.active
    && (s.subscribed || (s.catchup && CopyShaped(e.sv, s) && RoundShaped(s) && done + Todo(e.sv, s) == total))
  }

  /** Without new samples, a catch-up is over after as many completed writes as there are
      messages to send, whichever writes complete first. */
  lemma {:induction false} CatchupCompletes(w: World, i: nat, run: seq<Label>, total: nat, done: nat)
    requires Inv(w) && i < |w.links| && OnItsWay(w.env, w.links[i].session, total, done)
    requires WritesOn(run, i, w.env.setup.slots)
    ensures var x := Exec(w, run);
            && x.env == w.env && i < |x.links|
            && OnItsWay(w.env, x.links[i].session, total, done + |run|)
            && (done + |run| >= total ==> x.links[i].session.subscribed)
    decreases |run|
  {
    if run != [] {
      assert LinkOk(w.env, w.links[i]);
      CatchupWrite(w.env, w.links[i], run[0].slot, total, done);
      StepKeepsInv(w, run[0]);
      CatchupCompletes(Step(w, run[0]), i, run[1..], total, done + 1);
    }
  }

  lemma CatchupWrite(e: Env, l: Link, k: nat, total: nat, done: nat)
    requires GoodEnv(e) && LinkOk(e, l) && k < e.setup.slots && OnItsWay(e, l.session, total, done)
    ensures OnItsWay(e, Completed(e, l, k).session, total, done + 1)
  {
    if l.session.catchup {
      CatchupAdvances(e, l.session, l.peer, k);
      WriteCompleted(e, l.session, l.peer, k);
    } else {
      SubscriberWrites(e, l, k);
    }
  }

  /** A completed write leaves a subscriber one. */
  lemma SubscriberWrites(e: Env, l: Link, k: nat)
    requires GoodEnv(e) && LinkOk(e, l) && l.session.active && l.session.subscribed
    ensures Completed(e, l, k).session.active && Completed(e, l, k).session.subscribed
  {
    var s := l.session;
    if k < |s.slots| && s.slots[k].Busy? {
      SubscriberOwesNothing(e, s, Deliver(l.peer, s.stream).value);
      JustFreed(e.sv, s, k);
    }
  }

  lemma SubscriberOwesNothing(e: Env, s: Session, p: Peer)
    requires GoodEnv(e) && Core(e, s, p) && s.active && s.subscribed
    ensures !s.catchup && !s.needsResync
  {
  }

  lemma JustFreed(sv: Server, s: Session, k: nat)
    requires k < |s.slots| && s.slots[k].Busy? && !s.catchup && !s.needsResync
    ensures Written(sv, s, k) == FreeSlot(s, k)
  {
  }

  // ---- The current round, whatever else happens ----

  predicate IsWrite(l: Label, i: nat, slots: nat) {
    l.WriteDone? && l.i == i && l.slot < slots
  }

  /** How many writes of link i complete in the run. */
  function WritesIn(run: seq<Label>, i: nat, slots: nat): nat {
    if run == [] then 0 else (if IsWrite(run[0], i, slots) then 1 else 0) + WritesIn(run[1..], i, slots)
  }

  predicate NeverDrops(run: seq<Label>, i: nat) {
    forall k :: 0 <= k < |run| ==> !(run[k].Disconnect? && run[k].i == i)
  }

  /** t is still in the round of s, n messages on. */
  predicate SameRound(s: Session, t: Session, n: nat)
    requires RoundShaped(s)
  {
    && t.active && t.catchup && t.snap == s.snap && RoundShaped(t)
    && t.round == s.round.(frameAt := t.round.frameAt, signalAt := t.round.signalAt)
    && Left(t.round) + n == Left(s.round)
  }

  lemma RoundWrite(e: Env, l: Link, k: nat)
    requires GoodEnv(e) && LinkOk(e, l) && l.session.active && l.session.catchup && k < |l.session.slots|
    requires RoundShaped(l.session) && Left(l.session.round) > 0
    ensures SameRound(l.session, Completed(e, l, k).session, 1)
  {
    var s := l.session;
    NoFreeSlot(s.slots, k);
    EmptySlot(s.slots, k);
    SlotFreed(e, s, Deliver(l.peer, s.stream).value, k);
    var f := FreeSlot(s, k);
    DriveBatch(e, f, l.peer);
    DriveKeeps(e, f, l.peer);
    WrittenIsDrive(e.sv, s, k);
    AdvanceSendsOne(s.round);
  }

  /** Nothing but a write of its own touches a catch-up. */
  lemma RoundUntouched(w: World, i: nat, l: Label)
    requires Inv(w) && i < |w.links| && w.links[i].session.active && w.links[i].session.catchup
    requires !IsWrite(l, i, |w.links[i].session.slots|) && !(l.Disconnect? && l.i == i)
    requires RoundShaped(w.links[i].session)
    ensures i < |Step(w, l).links| && SameRound(w.links[i].session, Step(w, l).links[i].session, 0)
    ensures |Step(w, l).links[i].session.slots| == |w.links[i].session.slots|
  {
    var s := w.links[i].session;
    assert LinkOk(w.env, w.links[i]);
    NothingAsked(w.env, w.links[i]);
    if !Concerns(l, i) {
      ElsewhereUntouched(w, l, i);
    } else if l.Distribute? {
      if w.sampler.published.sequence > w.env.sv.sampleSeq { SharedOnlySent(w.env.sv, Step(w, l).env.sv, s); }
    } else if l.HeartbeatTick? {
      BeatOnlySent(w.env.sv, s, l.milliHz, l.sourceState);
    } else if l.ClientReads? {
      ReadingLeavesRound(w.env, w.links[i]);
    }
  }

  lemma NothingAsked(e: Env, l: Link)
    requires GoodEnv(e) && LinkOk(e, l) && l.session.active && l.session.catchup
    ensures l.peer.requests == [] && !l.session.subscribed && |l.session.slots| == e.setup.slots
    ensures RoundShaped(l.session)
  {
  }

  lemma ReadingLeavesRound(e: Env, l: Link)
    requires GoodEnv(e) && LinkOk(e, l) && l.session.active && l.session.catchup && RoundShaped(l.session)
    ensures SameRound(l.session, Read(e, l).session, 0) && |Read(e, l).session.slots| == |l.session.slots|
  {
    if l.session.stream != [] { TakingLeavesRound(l.session); }
  }

  lemma TakingLeavesRound(s: Session)
    requires s.stream != [] && s.active && s.catchup && RoundShaped(s)
    ensures SameRound(s, Taken(s), 0) && Taken(s).slots == s.slots
  {
  }

  lemma RoundStepOn(w: World, i: nat, l: Label)
    requires Inv(w) && i < |w.links| && w.links[i].session.active && w.links[i].session.catchup
    requires !(l.Disconnect? && l.i == i) && RoundShaped(w.links[i].session)
    requires IsWrite(l, i, w.env.setup.slots) ==> Left(w.links[i].session.round) > 0
    ensures i < |Step(w, l).links| && Step(w, l).env.setup == w.env.setup
    ensures SameRound(w.links[i].session, Step(w, l).links[i].session,
                      if IsWrite(l, i, w.env.setup.slots) then 1 else 0)
  {
    assert LinkOk(w.env, w.links[i]);
    NothingAsked(w.env, w.links[i]);
    if IsWrite(l, i, w.env.setup.slots) {
      RoundWrite(w.env, w.links[i], l.slot);
    } else {
      RoundUntouched(w, i, l);
    }
  }

  /** Whatever samples, heartbeats, reads and other connections do in between, each completed
      write takes a round one message further. */
  lemma {:induction false} RoundGoesOn(w: World, i: nat, run: seq<Label>)
    requires Inv(w) && i < |w.links| && w.links[i].session.active && w.links[i].session.catchup
    requires NeverDrops(run, i) && RoundShaped(w.links[i].session)
    requires WritesIn(run, i, w.env.setup.slots) <= Left(w.links[i].session.round)
    ensures i < |Exec(w, run).links|
    ensures SameRound(w.links[i].session, Exec(w, run).links[i].session, WritesIn(run, i, w.env.setup.slots))
    decreases |run|
  {
    if run != [] {
      RoundStepOn(w, i, run[0]);
      StepKeepsInv(w, run[0]);
      assert NeverDrops(run[1..], i);
      RoundGoesOn(Step(w, run[0]), i, run[1..]);
    }
  }

  /** A round ends after as many completed writes as it has messages left, whatever happens in
      between: the client then has the whole of the copy the round was taken from. */
  lemma RoundEnds(w: World, i: nat, run: seq<Label>)
    requires Inv(w) && i < |w.links| && w.links[i].session.active && w.links[i].session.catchup
    requires NeverDrops(run, i) && RoundShaped(w.links[i].session)
    requires WritesIn(run, i, w.env.setup.slots) == Left(w.links[i].session.round)
    ensures i < |Exec(w, run).links|
    ensures var s, l := w.links[i].session, Exec(w, run).links[i];
            var d := Deliver(l.peer, l.session.stream);
            && l.session.active && l.session.catchup && l.session.snap == s.snap && RoundDone(l.session)
            && d.Some? && FramesMatch(d.value.sync.frames, s.snap.frames, [])
            && SignalsMatch(d.value.sync.signals, s.snap.signals, [])
  {
    RoundGoesOn(w, i, run);
    var x := Exec(w, run);
    assert LinkOk(x.env, x.links[i]);
    SentRoundIsWhole(x.env, x.links[i]);
  }

  lemma SentRoundIsWhole(e: Env, l: Link)
    requires GoodEnv(e) && LinkOk(e, l) && l.session.active && l.session.catchup
    requires RoundShaped(l.session) && Left(l.session.round) == 0
    ensures var s, d := l.session, Deliver(l.peer, l.session.stream);
            && RoundDone(s) && d.Some? && FramesMatch(d.value.sync.frames, s.snap.frames, [])
            && SignalsMatch(d.value.sync.signals, s.snap.signals, [])
  {
    var r := l.session.round;
    assert r.frames[|r.frames|..] == [] && r.signals[|r.signals|..] == [];
  }

  // ---- From any state to a live client ----

  /** How far the session is from a live client, in requests and stages. */
  function Rank(e: Env, s: Session, p: Peer): nat {
    var f, g, d := |e.cat.canIds|, |e.cat.defs|, |e.cat.defs|;
    match p.phase
    case AwaitWelcome => 3 + f + g + d
    case AwaitSchema(n) => 2 + f + g + Remaining(d, n)
    case AwaitFrames(n) => 2 + g + Remaining(f, n)
    case AwaitSignals(n) => 2 + Remaining(g, n)
    case Subscribing => if s.catchup then 1 else 2
    case Live => if s.subscribed then 0 else 3 + f + g
  }

  function Remaining(n: nat, done: nat): nat {
    if done <= n then n - done else 0
  }

  /** The answer to a request brings the client closer. */
  predicate Closer(e: Env, s: Session, p: Peer, t: Session) {
    var d := Deliver(p.(requests := []), t.stream);
    t.active && d.Some? && Rank(e, t, d.value) < Rank(e, s, p)
  }

  lemma AnswerDelivers(p: Peer, m: Msg, q: Peer)
    requires p.requests == [] && Receive(p, m) == Some(q) && Orderly(p, q)
    ensures Deliver(p, [m]) == Some(q)
  {
    assert [m][1..] == [];
  }

  lemma HelloAdvances(e: Env, s: Session, p: Peer)
    requires GoodEnv(e) && Core(e, s, p) && s.active && s.stream == []
    requires p.phase.AwaitWelcome? && FreeCount(s.slots) > 0
    ensures Closer(e, s, p, OrClose(ServeHello(e.cat, e.setup, e.sv, s)))
  {
    var m := Welcome(e.sv.changeSeq, e.sv.sampleTs, Greet(e.cat, e.setup));
    QueueSucceeds(e.setup, s, m, false);
    HelloServed(e, s, p);
  }

  lemma SchemaAdvances(e: Env, s: Session, p: Peer)
    requires GoodEnv(e) && Core(e, s, p) && s.active && s.stream == [] && p.phase.AwaitSchema? && FreeCount(s.slots) > 0
    ensures Closer(e, s, p, OrClose(ServeSchema(e.cat, e.sv, s, p.phase.next)))
  {
    var m, n := SchemaAnswer(e, s, p);
    SchemaPageAdvances(e, s, p, m, n);
  }

  lemma SchemaPageAdvances(e: Env, s: Session, p: Peer, m: Msg, n: nat)
    requires GoodEnv(e) && Core(e, s, p) && s.active && s.stream == [] && p.phase.AwaitSchema? && FreeCount(s.slots) > 0
    requires p.phase.next < n <= |e.cat.defs| && Length(m) <= CLIENT_MESSAGE_CAP
    requires Receive(p.(requests := []), m) == Some(AfterSchema(e, p.(requests := []), n))
    ensures Closer(e, s, p, OrClose(Queue(s, m, false)))
  {
    QueueSucceeds(e.setup, s, m, false);
    AnswerDelivers(p.(requests := []), m, AfterSchema(e, p.(requests := []), n));
  }

  lemma FramesAdvances(e: Env, s: Session, p: Peer)
    requires GoodEnv(e) && Core(e, s, p) && s.active && s.stream == [] && p.phase.AwaitFrames? && FreeCount(s.slots) > 0
    ensures Closer(e, s, p, OrClose(ServeFrames(e.sv, s, p.phase.next)))
  {
    FramesComeDue(e, s, p);
    var m, t, q := FramesAnswer(e, Frozen(e, s, p.phase.next), p.(requests := []), p.phase.next);
    AnswerDelivers(p.(requests := []), m, q);
  }

  lemma SignalsAdvances(e: Env, s: Session, p: Peer)
    requires GoodEnv(e) && Core(e, s, p) && s.active && s.stream == []
    requires p.phase.AwaitSignals? && FreeCount(s.slots) > 0
    ensures Closer(e, s, p, OrClose(ServeSignals(s, p.phase.next)))
  {
    var m, t, q := SignalsAnswer(e, s, p);
    AnswerDelivers(p.(requests := []), m, q);
  }

  lemma SubscribeAdvances(e: Env, s: Session, p: Peer)
    requires GoodEnv(e) && Core(e, s, p) && s.active && s.stream == [] && p.phase.Subscribing? && AskedStage(e, s, p)
    ensures CopyShaped(e.sv, s) && Closer(e, s, p, OrClose(ServeSubscribe(e.sv, s)))
  {
    SubscribeServed(e, s, p);
    var t := ServeSubscribe(e.sv, s).s;
    RankWhenDriven(e, t, Deliver(p.(requests := []), t.stream).value);
  }

  lemma RankWhenDriven(e: Env, t: Session, q: Peer)
    requires GoodEnv(e) && Core(e, t, q) && (t.subscribed || t.catchup)
    ensures Rank(e, t, q) == if t.subscribed then 0 else 1
  {
  }

  /** A request taken while the queue has room is answered, and the answer leads on: the
      client's paging loops end. */
  lemma RequestAdvances(e: Env, s: Session, p: Peer)
    requires GoodEnv(e) && Linked(e, s, p) && s.active && p.requests != [] && FreeCount(s.slots) > 0
    ensures p.requests[1..] == [] && (s.snapDone ==> CopyShaped(e.sv, s))
    ensures Closer(e, s, p, OrClose(Serve(e.cat, e.setup, e.sv, s, p.requests[0])))
  {
    Dispatch(e, s, p);
    match p.phase
    case AwaitWelcome => HelloAdvances(e, s, p);
    case AwaitSchema(_) => SchemaAdvances(e, s, p);
    case AwaitFrames(_) => FramesAdvances(e, s, p);
    case AwaitSignals(_) => SignalsAdvances(e, s, p);
    case Subscribing => SubscribeAdvances(e, s, p);
  }

  /** Outside catch-up a completed write either just frees its slot or sends the resync that
      was owed. */
  lemma WriteAdvances(e: Env, s: Session, peer: Peer, k: nat)
    requires GoodEnv(e) && Linked(e, s, peer) && s.active && !s.catchup && k < |s.slots| && s.slots[k].Busy?
    ensures var t := Written(e.sv, s, k);
            var d := Deliver(peer, t.stream);
            && d.Some?
            && (Rank(e, t, d.value) < Rank(e, s, Deliver(peer, s.stream).value)
                || (&& t.stream == s.stream && Rank(e, t, d.value) == Rank(e, s, d.value)
                    && FreeCount(t.slots) == FreeCount(s.slots) + 1 && !t.catchup))
  {
    EmptySlot(s.slots, k);
    WriteCompleted(e, s, peer, k);
    SlotFreed(e, s, Deliver(peer, s.stream).value, k);
    var f := FreeSlot(s, k);
    if f.greeted && f.needsResync && !f.resyncQueued && f.pending == 0 {
      ResyncAdvances(e, f, peer);
    }
  }

  lemma ResyncAdvances(e: Env, s: Session, peer: Peer)
    requires GoodEnv(e) && Deliver(peer, s.stream).Some? && s.active && Core(e, s, Deliver(peer, s.stream).value)
    requires s.greeted && s.needsResync && !s.resyncQueued && s.pending == 0
    ensures var t := MaybeResync(e.sv, s);
            var d := Deliver(peer, t.stream);
            d.Some? && Rank(e, t, d.value) < Rank(e, s, Deliver(peer, s.stream).value)
  {
    var p, m := Deliver(peer, s.stream).value, ResyncRequired(e.sv.changeSeq, e.sv.sampleTs);
    BytesBound(s.slots);
    QueueSucceeds(e.setup, s, m, false);
    assert p.phase.Live?;
    Sent(peer, s, m);
  }

  /** What is left to do on a link, besides its rank. */
  function Backlog(e: Env, s: Session): nat {
    if s.catchup && CopyShaped(e.sv, s) && RoundShaped(s) then Todo(e.sv, s) else 0
  }

  function Busy(s: Session): nat {
    Remaining(|s.slots|, FreeCount(s.slots))
  }

  /** The work left on a link, most significant part first. */
  datatype Measure = Measure(rank: nat, backlog: nat, busy: nat, unread: nat)

  function Work(e: Env, l: Link): Measure
    requires GoodEnv(e) && LinkOk(e, l)
  {
    Measure(Rank(e, l.session, Deliver(l.peer, l.session.stream).value), Backlog(e, l.session),
            Busy(l.session), |l.session.stream|)
  }

  predicate Less(a: Measure, b: Measure) {
    || a.rank < b.rank
    || (a.rank == b.rank && a.backlog < b.backlog)
    || (a.rank == b.rank && a.backlog == b.backlog && a.busy < b.busy)
    || (a.rank == b.rank && a.backlog == b.backlog && a.busy == b.busy && a.unread < b.unread)
  }

  /** Nothing is left to do: no message in flight, no request open, no write pending. */
  predicate AtRest(l: Link) {
    l.session.stream == [] && l.peer.requests == [] && FreeCount(l.session.slots) == |l.session.slots|
  }

  /** An open session at rest has a live client that agrees with the canonical state. */
  lemma RestIsAgreement(e: Env, l: Link)
    requires GoodEnv(e) && LinkOk(e, l) && l.session.active && AtRest(l)
    ensures l.session.subscribed && l.peer.phase.Live? && Agrees(l.peer.cache, e.sv)
  {
    BytesBound(l.session.slots);
  }

  /** One step on a link that leaves less to do. */
  predicate Useful(e: Env, l: Link, x: Link)
    requires GoodEnv(e) && LinkOk(e, l)
  {
    LinkOk(e, x) && x.session.active && Less(Work(e, x), Work(e, l))
  }

  lemma CatchupStep(e: Env, l: Link, k: nat)
    requires GoodEnv(e) && LinkOk(e, l) && l.session.active && l.session.catchup && k < |l.session.slots|
    ensures Useful(e, l, Completed(e, l, k))
  {
    var s := l.session;
    CatchupAdvances(e, s, l.peer, k);
    WriteStep(e, l, k);
    WriteCompleted(e, s, l.peer, k);
    var t := Written(e.sv, s, k);
    RankWhenDriven(e, s, Deliver(l.peer, s.stream).value);
    RankWhenDriven(e, t, Deliver(l.peer, t.stream).value);
  }

  lemma BusyStep(e: Env, l: Link, k: nat)
    requires GoodEnv(e) && LinkOk(e, l) && l.session.active && !l.session.catchup
    requires k < |l.session.slots| && l.session.slots[k].Busy?
    ensures Useful(e, l, Completed(e, l, k))
  {
    WriteAdvances(e, l.session, l.peer, k);
    WriteStep(e, l, k);
    WriteCompleted(e, l.session, l.peer, k);
    FreeNeverExceeds(e, Completed(e, l, k));
  }

  lemma FreeNeverExceeds(e: Env, l: Link)
    requires GoodEnv(e) && LinkOk(e, l) && l.session.active
    ensures FreeCount(l.session.slots) <= |l.session.slots| == e.setup.slots
  {
    BytesBound(l.session.slots);
  }

  lemma ReadingStep(e: Env, l: Link)
    requires GoodEnv(e) && LinkOk(e, l) && l.session.active && l.session.stream != []
    ensures Useful(e, l, Read(e, l))
  {
    ReceptionKeeps(e, l.session, l.peer);
  }

  lemma AskingStep(e: Env, l: Link)
    requires GoodEnv(e) && LinkOk(e, l) && l.session.active && FreeCount(l.session.slots) > 0
    requires l.peer.requests != []
    ensures Useful(e, l, RequestTaken(e, l))
  {
    RequestAdvances(e, l.session, l.peer);
    RequestStep(e, l);
    assert l.session.stream == [];
  }

  /** What a label of a link does to it. */
  function OnThisLink(e: Env, l: Link, a: Label): Link
    requires GoodEnv(e) && LinkOk(e, l)
  {
    match a
    case TakeRequest(_) => RequestTaken(e, l)
    case ClientReads(_) => Read(e, l)
    case WriteDone(_, k) => Completed(e, l, k)
    case _ => l
  }

  predicate OnlyLink(l: Label, i: nat) {
    l == TakeRequest(i) || l == ClientReads(i) || (l.WriteDone? && l.i == i)
  }

  /** The step has something to do: a write in flight, a message to read, or a request and a
      slot for its answer. */
  predicate Enabled(l: Link, a: Label) {
    match a
    case TakeRequest(_) => l.peer.requests != [] && FreeCount(l.session.slots) > 0
    case ClientReads(_) => l.session.stream != []
    case WriteDone(_, k) => k < |l.session.slots| && l.session.slots[k].Busy?
    case _ => false
  }

  predicate EnabledOn(w: World, i: nat, a: Label) {
    OnlyLink(a, i) && i < |w.links| && Enabled(w.links[i], a)
  }

  /** Every step that has something to do on a link leaves less to do there. */
  lemma EveryStepHelps(e: Env, l: Link, a: Label)
    requires GoodEnv(e) && LinkOk(e, l) && l.session.active && Enabled(l, a)
    ensures Useful(e, l, OnThisLink(e, l, a))
  {
    match a
    case TakeRequest(_) => AskingStep(e, l);
    case ClientReads(_) => ReadingStep(e, l);
    case WriteDone(_, k) => if l.session.catchup { CatchupStep(e, l, k); } else { BusyStep(e, l, k); }
  }

  /** A link that is not at rest has something to do. */
  lemma SomethingToDo(e: Env, l: Link, i: nat) returns (a: Label)
    requires GoodEnv(e) && LinkOk(e, l) && l.session.active && !AtRest(l)
    ensures OnlyLink(a, i) && Enabled(l, a)
  {
    FreeNeverExceeds(e, l);
    if FreeCount(l.session.slots) < |l.session.slots| {
      var k := BusySlot(l.session.slots);
      a := WriteDone(i, k);
    } else if l.session.stream != [] {
      a := ClientReads(i);
    } else {
      a := TakeRequest(i);
    }
  }

  lemma NextStep(w: World, i: nat, a: Label)
    requires Inv(w) && i < |w.links| && w.links[i].session.active && EnabledOn(w, i, a)
    ensures LinkOk(w.env, w.links[i])
    ensures var x := Step(w, a);
            Inv(x) && x.env == w.env && |x.links| == |w.links| && Useful(w.env, w.links[i], x.links[i])
  {
    assert LinkOk(w.env, w.links[i]);
    EveryStepHelps(w.env, w.links[i], a);
    StepKeepsInv(w, a);
    assert Step(w, a) == OnLink(w, i, OnThisLink(w.env, w.links[i], a));
  }

  function WorkLeft(w: World, i: nat): Measure
    requires Inv(w) && i < |w.links|
  {
    assert LinkOk(w.env, w.links[i]);
    Work(w.env, w.links[i])
  }

  /** From every state of every run, an open session can get to a live client that agrees with
      the canonical state, by its own requests, reads and write completions alone: nothing is
      ever stuck, and the daemon never has to give up on it. */
  lemma SessionCanComplete(w: World, i: nat) returns (run: seq<Label>)
    requires Inv(w) && i < |w.links| && w.links[i].session.active
    ensures forall k :: 0 <= k < |run| ==> OnlyLink(run[k], i)
    ensures var x := Exec(w, run);
            && x.env == w.env && i < |x.links|
            && var l := x.links[i];
               l.session.active && l.session.subscribed && l.peer.phase.Live? && Agrees(l.peer.cache, w.env.sv)
    decreases WorkLeft(w, i).rank, WorkLeft(w, i).backlog, WorkLeft(w, i).busy, WorkLeft(w, i).unread
  {
    assert LinkOk(w.env, w.links[i]);
    if AtRest(w.links[i]) {
      RestIsAgreement(w.env, w.links[i]);
      run := [];
    } else {
      var l := SomethingToDo(w.env, w.links[i], i);
      NextStep(w, i, l);
      var rest := SessionCanComplete(Step(w, l), i);
      ExecFirst(w, l, rest);
      run := [l] + rest;
    }
  }

  lemma {:induction false} BusySlot(slots: seq<Slot>) returns (k: nat)
    requires FreeCount(slots) < |slots|
    ensures k < |slots| && slots[k].Busy?
  {
    if slots[0].Busy? {
      k := 0;
    } else {
      var j := BusySlot(slots[1..]);
      k := j + 1;
    }
  }

  // ---- Every schedule ----

  /** Each label of the run has something to do on link i when its turn comes. */
  predicate Schedule(w: World, i: nat, run: seq<Label>)
    requires Inv(w)
    decreases |run|
  {
    if run == [] then true
    else
      StepKeepsInv(w, run[0]);
      EnabledOn(w, i, run[0]) && Schedule(Step(w, run[0]), i, run[1..])
  }

  /** The first n labels. */
  function Turns(f: nat -> Label, n: nat): (run: seq<Label>)
    ensures |run| == n
  {
    seq(n, k requires 0 <= k < n => f(k))
  }

  /** All labels but the first. */
  function Later(f: nat -> Label): nat -> Label {
    (k: nat) => f(k + 1)
  }

  lemma FirstTurn(f: nat -> Label, n: nat)
    ensures Turns(f, n + 1) == [f(0)] + Turns(Later(f), n) && Later(f)(n) == f(n + 1)
  {
  }

  lemma LongerByOne(w: World, i: nat, a: Label, run: seq<Label>)
    requires Inv(w) && EnabledOn(w, i, a) && Inv(Step(w, a)) && Schedule(Step(w, a), i, run)
    ensures Schedule(w, i, [a] + run)
  {
    assert ([a] + run)[0] == a && ([a] + run)[1..] == run;
  }

  /** No schedule goes on for ever: however the steps of a link are chosen, one turn finds
      nothing to do, and the link has stayed open until then. */
  lemma {:induction false} EveryScheduleEnds(w: World, i: nat, f: nat -> Label) returns (n: nat)
    requires Inv(w) && i < |w.links| && w.links[i].session.active
    ensures Schedule(w, i, Turns(f, n))
    ensures var x := Exec(w, Turns(f, n));
            !EnabledOn(x, i, f(n)) && x.env == w.env && i < |x.links| && x.links[i].session.active
    decreases WorkLeft(w, i).rank, WorkLeft(w, i).backlog, WorkLeft(w, i).busy, WorkLeft(w, i).unread
  {
    n := 0;
    if EnabledOn(w, i, f(0)) {
      NextStep(w, i, f(0));
      n := EveryScheduleEnds(Step(w, f(0)), i, Later(f));
      FirstTurn(f, n);
      LongerByOne(w, i, f(0), Turns(Later(f), n));
      ExecFirst(w, f(0), Turns(Later(f), n));
      n := n + 1;
    }
  }

  /** A session that nothing on its link can take further has a live client that agrees with
      the canonical state. */
  lemma StuckIsAgreement(w: World, i: nat)
    requires Inv(w) && i < |w.links| && w.links[i].session.active
    requires forall a :: !EnabledOn(w, i, a)
    ensures var l := w.links[i];
            l.session.subscribed && l.peer.phase.Live? && Agrees(l.peer.cache, w.env.sv)
  {
    var l := w.links[i];
    assert LinkOk(w.env, l);
    if AtRest(l) {
      RestIsAgreement(w.env, l);
    } else {
      var a := SomethingToDo(w.env, l, i);
      assert EnabledOn(w, i, a);
    }
  }

  /** Every schedule completes: steps chosen in any way, as long as a step that has something
      to do is chosen whenever there is one, end after finitely many turns, and end with a live
      client that agrees with the canonical state. */
  lemma EveryScheduleCompletes(w: World, i: nat, f: nat -> Label) returns (n: nat)
    requires Inv(w) && i < |w.links| && w.links[i].session.active
    ensures Schedule(w, i, Turns(f, n)) && !EnabledOn(Exec(w, Turns(f, n)), i, f(n))
    ensures var x := Exec(w, Turns(f, n));
            (forall a :: !EnabledOn(x, i, a)) ==>
              && i < |x.links| && x.links[i].session.active && x.links[i].session.subscribed
              && x.links[i].peer.phase.Live? && Agrees(x.links[i].peer.cache, w.env.sv)
  {
    n := EveryScheduleEnds(w, i, f);
    var x := Exec(w, Turns(f, n));
    if forall a :: !EnabledOn(x, i, a) { StuckIsAgreement(x, i); }
  }
}
