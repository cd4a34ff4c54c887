/** When a session's frozen copy is made, and that nothing but the client's next request for a
    first page replaces it while the client still reads it. */
module Snapshots {
  import opened Types
  import opened Canonical
  import opened Protocol
  import opened Session
  import opened Peer
  import opened Replication
  import opened World
  import Schema

  /** The copy is in use: its pages are being sent, or have all been and no round has begun. */
  predicate CopyInUse(s: Session) {
    (s.snapActive || s.snapDone) && !s.subscribed && !s.needsResync && !s.catchup
  }

  /** The step takes the client's request for the first page. */
  predicate Freezes(w: World, l: Label, i: nat) {
    && l == TakeRequest(i) && i < |w.links| && w.links[i].session.active
    && w.links[i].peer.requests == [GetSnapshot(0)]
  }

  /** The step gives the place of a closed connection to a new one. */
  predicate Replaces(w: World, l: Label, i: nat) {
    l == Connect(i) && i < |w.links| && !w.links[i].session.active
  }

  /** A request other than for a first page leaves a copy in use as it was. */
  lemma RequestFreezes(e: Env, l: Link)
    requires GoodEnv(e) && LinkOk(e, l)
    ensures var s, t := l.session, RequestTaken(e, l).session;
            t.active && CopyInUse(t) ==>
              && s.active
              && (if l.peer.requests == [GetSnapshot(0)] then t.snap == CopyOf(e.sv)
                  else CopyInUse(s) && t.snap == s.snap)
  {
    if l.session.active && l.peer.requests != [] {
      Dispatch(e, l.session, l.peer);
      RequestServed(e, l.session, l.peer);
      ServedCopy(e, l.session, l.peer);
    }
  }

  /** What serving a request does to the copy in use. */
  predicate CopyServed(e: Env, s: Session, r: Request, t: Session) {
    t.active && CopyInUse(t) ==>
      if r == GetSnapshot(0) then t.snap == CopyOf(e.sv) else CopyInUse(s) && t.snap == s.snap
  }

  lemma GreetingCopy(e: Env, s: Session, p: Peer)
    requires GoodEnv(e) && Core(e, s, p) && s.active && (p.phase.AwaitWelcome? || p.phase.AwaitSchema?)
    ensures var o := if p.phase.AwaitWelcome? then ServeHello(e.cat, e.setup, e.sv, s)
                     else ServeSchema(e.cat, e.sv, s, p.phase.next);
            o.Ok? && o.s.active ==> !CopyInUse(o.s)
  {
    if p.phase.AwaitWelcome? {
      var t := QueueKeepsBusiness(s, Welcome(e.sv.changeSeq, e.sv.sampleTs, Greet(e.cat, e.setup)), false);
    } else {
      var m := SchemaPage(e.sv.changeSeq, e.sv.sampleTs, Schema.PageFrom(e.cat, p.phase.next, PAYLOAD_CAP));
      var t := QueueKeepsBusiness(s, m, false);
    }
  }

  lemma PageCopy(e: Env, s: Session, p: Peer)
    requires GoodEnv(e) && Core(e, s, p) && s.active && (p.phase.AwaitFrames? || p.phase.AwaitSignals?)
    ensures var o := if p.phase.AwaitFrames? then ServeFrames(e.sv, s, p.phase.next)
                     else ServeSignals(s, p.phase.next);
            p.requests != [] && (o.Ok? ==> CopyServed(e, s, p.requests[0], o.s))
  {
    if p.phase.AwaitFrames? { ServeFramesCopy(e.sv, s, p.phase.next); } else { ServeSignalsCopy(s, p.phase.next); }
  }

  lemma ServedCopy(e: Env, s: Session, p: Peer)
    requires GoodEnv(e) && Linked(e, s, p) && s.active && p.requests != [] && (s.snapDone ==> CopyShaped(e.sv, s))
    ensures var o := Serve(e.cat, e.setup, e.sv, s, p.requests[0]);
            o.Ok? ==> CopyServed(e, s, p.requests[0], o.s)
  {
    Dispatch(e, s, p);
    match p.phase
    case Subscribing => SubscribeServed(e, s, p);
    case AwaitFrames(_) => PageCopy(e, s, p);
    case AwaitSignals(_) => PageCopy(e, s, p);
    case _ => GreetingCopy(e, s, p);
  }

  /** A completed write leaves a copy in use as it was. */
  lemma WriteFreezes(e: Env, l: Link, k: nat)
    requires GoodEnv(e) && LinkOk(e, l)
    ensures CopyLeft(l.session, Completed(e, l, k).session)
  {
    var s := l.session;
    if s.active && k < |s.slots| && s.slots[k].Busy? {
      if s.catchup {
        DrivenFreezes(e, s, l.peer, k);
      } else {
        FreedFreezes(e.sv, s, k);
      }
    }
  }

  /** A catch-up goes on, and no copy is in use. */
  lemma DrivenFreezes(e: Env, s: Session, peer: Peer, k: nat)
    requires GoodEnv(e) && Linked(e, s, peer) && s.active && s.catchup && k < |s.slots| && s.slots[k].Busy?
    ensures CopyShaped(e.sv, s) && RoundShaped(s) && CopyLeft(s, Written(e.sv, s, k))
  {
    SlotFreed(e, s, Deliver(peer, s.stream).value, k);
    var f := FreeSlot(s, k);
    DriveKeeps(e, f, peer);
    ResyncCopy(e.sv, Drive(e.sv, f).s);
  }

  lemma FreedFreezes(sv: Server, s: Session, k: nat)
    requires k < |s.slots| && s.slots[k].Busy? && !s.catchup
    ensures CopyLeft(s, Written(sv, s, k))
  {
    ResyncCopy(sv, FreeSlot(s, k));
  }

  predicate CopyLeft(s: Session, t: Session) {
    t.active && CopyInUse(t) ==> s.active && CopyInUse(s) && t.snap == s.snap
  }

  lemma ResyncCopy(sv: Server, s: Session)
    ensures CopyLeft(s, MaybeResync(sv, s))
  {
    var t := QueueKeepsBusiness(s, ResyncRequired(sv.changeSeq, sv.sampleTs), false);
  }

  /** So do samples and heartbeats. */
  lemma BroadcastFreezes(w: World, l: Label, i: nat)
    requires Inv(w) && i < |w.links| && (l.Distribute? || l.HeartbeatTick?)
    ensures i < |Step(w, l).links| && CopyLeft(w.links[i].session, Step(w, l).links[i].session)
  {
    var s := w.links[i].session;
    if l.HeartbeatTick? {
      BeatOnlySent(w.env.sv, s, l.milliHz, l.sourceState);
    } else if w.sampler.published.sequence > w.env.sv.sampleSeq {
      SharedOnlySent(w.env.sv, Step(w, l).env.sv, s);
    }
  }

  /** So do the client's reads, a disconnection and everything that happens on other links. */
  lemma OthersFreeze(w: World, l: Label, i: nat)
    requires Inv(w) && i < |w.links| && !l.Distribute? && !l.HeartbeatTick?
    requires l != TakeRequest(i) && (l.WriteDone? ==> l.i != i)
    ensures i < |Step(w, l).links| && CopyLeft(w.links[i].session, Step(w, l).links[i].session)
  {
    if !Concerns(l, i) {
      ElsewhereUntouched(w, l, i);
    } else if l.ClientReads? {
      assert LinkOk(w.env, w.links[i]);
      ReadLeaves(w.env, w.links[i]);
    } else if l.Disconnect? {
      DropLeaves(w.links[i], l.keep);
    }
  }

  lemma ReadLeaves(e: Env, l: Link)
    requires GoodEnv(e) && LinkOk(e, l)
    ensures CopyLeft(l.session, Read(e, l).session)
  {
  }

  lemma DropLeaves(l: Link, keep: nat)
    ensures CopyLeft(l.session, Dropped(l, keep).session)
  {
  }

  /** A copy in use after a step was made by that step, from the canonical state, if the step
      took a request for a first page; otherwise it was in use before, and was the same. */
  lemma FreezeStep(w: World, l: Label, i: nat)
    requires Inv(w) && i < |Step(w, l).links|
    requires var s := Step(w, l).links[i].session; s.active && CopyInUse(s)
    ensures i < |w.links| && w.links[i].session.active && !Replaces(w, l, i)
    ensures var s, t := w.links[i].session, Step(w, l).links[i].session;
            if Freezes(w, l, i) then t.snap == CopyOf(w.env.sv) else CopyInUse(s) && t.snap == s.snap
  {
    if l.Distribute? || l.HeartbeatTick? {
      BroadcastFreezes(w, l, i);
    } else if l == TakeRequest(i) {
      assert LinkOk(w.env, w.links[i]);
      RequestFreezes(w.env, w.links[i]);
    } else if l.WriteDone? && l.i == i {
      assert LinkOk(w.env, w.links[i]);
      WriteFreezes(w.env, w.links[i], l.slot);
    } else {
      OthersFreeze(w, l, i);
    }
  }

  // ---- Along a run ----

  /** The step neither freezes a copy for link i nor gives its place to somebody else. */
  predicate Keeps(w: World, l: Label, i: nat) {
    !Freezes(w, l, i) && !Replaces(w, l, i)
  }

  /** Link i is open and has the copy c in use. */
  predicate HasCopy(w: World, i: nat, c: Copy) {
    && i < |w.links| && w.links[i].session.active && CopyInUse(w.links[i].session)
    && w.links[i].session.snap == c
  }

  /** The copy c after the step was made by it or was there before. */
  predicate Passes(w: World, l: Label, x: World, i: nat, c: Copy) {
    HasCopy(x, i, c) ==> if Freezes(w, l, i) then c == CopyOf(w.env.sv) else Keeps(w, l, i) && HasCopy(w, i, c)
  }

  lemma {:induction false} LastFreeze(at: nat -> World, run: seq<Label>, i: nat, c: Copy) returns (j: nat)
    requires !HasCopy(at(0), i, c) && HasCopy(at(|run|), i, c)
    requires forall n: nat :: n < |run| ==> Passes(at(n), run[n], at(n + 1), i, c)
    ensures j < |run| && Freezes(at(j), run[j], i) && c == CopyOf(at(j).env.sv)
    ensures forall k: nat :: j < k < |run| ==> Keeps(at(k), run[k], i)
    decreases |run|
  {
    var n := |run| - 1;
    assert Passes(at(n), run[n], at(n + 1), i, c);
    if Freezes(at(n), run[n], i) {
      j := n;
    } else {
      j := LastFreeze(at, run[..n], i, c);
    }
  }
}
