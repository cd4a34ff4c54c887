/** The whole system: the sampler thread, the daemon and any number of client connections,
    as one transition system, and what holds in every state of every run. */
module World {
  import opened Types
  import opened Canonical
  import opened Session
  import opened Peer
  import opened Replication
  import Sampler
  import Source

  datatype Link = Link(session: Session, peer: Peer)

  datatype World = World(sampler: Sampler.State, env: Env, links: seq<Link>)

  /** The atomic steps, with everything the outside decides: what the source answers, the
      clocks, which write completes, who reads, connects or disconnects, and how much of the
      stream survives a disconnection. */
  datatype Label =
    | Publish(visit: Source.Visit, now: nat, ts: nat)
    | Distribute
    | HeartbeatTick(milliHz: nat, sourceState: nat)
    | TakeRequest(i: nat)
    | WriteDone(i: nat, slot: nat)
    | ClientReads(i: nat)
    | Connect(i: nat)
    | Disconnect(i: nat, keep: nat)

  // ---- Start ----

  const NOBODY := Link(Closed(Connected(Setup(0, 0))), NEWCOMER)

  /** `main` after the sampler took its first sample; every client place is empty. */
  function Boot(cat: Catalog, setup: Setup, v: Source.Visit, now: nat, ts: nat, places: nat): World
    requires GoodCatalog(cat) && Source.GoodVisit(cat, v) && ts > 0
  {
    Sampler.StartInv(cat, v, now, ts);
    var sampler := Sampler.Start(cat, v, now, ts);
    var sv := StartUp(cat, sampler.published);
    World(sampler, Env(cat, setup, sv), seq(places, _ => NOBODY))
  }

  // ---- The invariant ----

  predicate LinkOk(e: Env, l: Link)
    requires GoodEnv(e)
  {
    Linked(e, l.session, l.peer) && BehindOk(l.session, l.peer) && l.peer.gaps == 0
  }

  predicate Inv(w: World) {
    && GoodEnv(w.env)
    && Sampler.SamplerInv(w.env.cat, w.sampler)
    && w.env.sv.sampleTs <= w.sampler.published.timestamp
    && w.env.sv.sampleSeq <= w.sampler.published.sequence
    && forall i :: 0 <= i < |w.links| ==> LinkOk(w.env, w.links[i])
  }

  lemma BootInv(cat: Catalog, setup: Setup, v: Source.Visit, now: nat, ts: nat, places: nat)
    requires GoodCatalog(cat) && Source.GoodVisit(cat, v) && ts > 0 && setup.slots >= 1
    ensures Inv(Boot(cat, setup, v, now, ts, places))
  {
    Sampler.StartInv(cat, v, now, ts);
    StartUpInv(cat, Sampler.Start(cat, v, now, ts).published);
  }

  // ---- Steps ----

  /** The step a label asks for, where the label is possible; otherwise nothing happens. */
  function Step(w: World, l: Label): World
    requires Inv(w)
  {
    match l
    case Publish(v, now, ts) => Published(w, v, now, ts)
    case Distribute => DistributedWorld(w)
    case HeartbeatTick(milliHz, sourceState) => Beaten(w, milliHz, sourceState)
    case TakeRequest(i) => if i < |w.links| then OnLink(w, i, RequestTaken(w.env, w.links[i])) else w
    case WriteDone(i, k) => if i < |w.links| then OnLink(w, i, Completed(w.env, w.links[i], k)) else w
    case ClientReads(i) => if i < |w.links| then OnLink(w, i, Read(w.env, w.links[i])) else w
    case Connect(i) =>
      if i < |w.links| && !w.links[i].session.active then OnLink(w, i, Link(Connected(w.env.setup), NEWCOMER)) else w
    case Disconnect(i, keep) => if i < |w.links| then OnLink(w, i, Dropped(w.links[i], keep)) else w
  }

  function OnLink(w: World, i: nat, l: Link): World
    requires i < |w.links|
  {
    w.(links := w.links[i := l])
  }

  function Published(w: World, v: Source.Visit, now: nat, ts: nat): World
    requires Inv(w)
  {
    if !Source.GoodVisit(w.env.cat, v) || ts < w.sampler.published.timestamp then w
    else w.(sampler := Sampler.Tick(w.env.cat, w.sampler, v, now, ts))
  }

  function DistributedWorld(w: World): World
    requires Inv(w)
  {
    if w.sampler.published.sequence <= w.env.sv.sampleSeq then w
    else
      var sample := w.sampler.published;
      w.(env := Moved(w.env, sample),
         links := seq(|w.links|, i requires 0 <= i < |w.links| =>
                      w.links[i].(session := Distributed(w.env, sample, w.links[i].session))))
  }

  function Beaten(w: World, milliHz: nat, sourceState: nat): World {
    w.(links := seq(|w.links|, i requires 0 <= i < |w.links| =>
                    w.links[i].(session := BeatTo(w.env.sv, w.links[i].session, milliHz, sourceState))))
  }

  function RequestTaken(e: Env, l: Link): Link
    requires GoodEnv(e) && LinkOk(e, l)
  {
    if !l.session.active || l.peer.requests == [] then l
    else
      RequestServed(e, l.session, l.peer);
      Link(OrClose(Serve(e.cat, e.setup, e.sv, l.session, l.peer.requests[0])),
           l.peer.(requests := l.peer.requests[1..]))
  }

  function Completed(e: Env, l: Link, k: nat): Link
    requires GoodEnv(e) && LinkOk(e, l)
  {
    if !l.session.active || k >= |l.session.slots| || l.session.slots[k].Free? then l
    else
      WriteCompleted(e, l.session, l.peer, k);
      l.(session := Written(e.sv, l.session, k))
  }

  function Read(e: Env, l: Link): Link
    requires GoodEnv(e) && LinkOk(e, l)
  {
    if l.session.stream == [] then l
    else
      ReceptionKeeps(e, l.session, l.peer);
      Link(Taken(l.session), Receive(l.peer, l.session.stream[0]).value)
  }

  function Dropped(l: Link, keep: nat): Link {
    if keep > |l.session.stream| then l
    else l.(session := Closed(l.session).(stream := l.session.stream[..keep]))
  }

  // ---- Every step keeps the invariant ----

  lemma SampleStep(e: Env, sample: Sample, l: Link)
    requires GoodEnv(e) && Due(e, sample) && LinkOk(e, l)
    ensures LinkOk(Moved(e, sample), l.(session := Distributed(e, sample, l.session)))
  {
    DistributionKeeps(e, sample, l.session, l.peer);
    SharedOnlySent(e.sv, Moved(e, sample).sv, l.session);
    BehindUntouched(e, l.session, Distributed(e, sample, l.session), l.peer);
  }

  lemma BeatStep(e: Env, l: Link, milliHz: nat, sourceState: nat)
    requires GoodEnv(e) && LinkOk(e, l)
    ensures LinkOk(e, l.(session := BeatTo(e.sv, l.session, milliHz, sourceState)))
  {
    if l.session.active { BeatSent(e, l.session, l.peer, milliHz, sourceState); }
    BeatOnlySent(e.sv, l.session, milliHz, sourceState);
    BehindUntouched(e, l.session, BeatTo(e.sv, l.session, milliHz, sourceState), l.peer);
  }

  lemma DistributionStep(w: World)
    requires Inv(w)
    ensures Inv(DistributedWorld(w))
  {
    var sample := w.sampler.published;
    if sample.sequence > w.env.sv.sampleSeq {
      var x := DistributedWorld(w);
      forall i | 0 <= i < |x.links|
        ensures LinkOk(x.env, x.links[i])
      {
        assert LinkOk(w.env, w.links[i]);
        SampleStep(w.env, sample, w.links[i]);
      }
    }
  }

  lemma HeartbeatStep(w: World, milliHz: nat, sourceState: nat)
    requires Inv(w)
    ensures Inv(Beaten(w, milliHz, sourceState))
  {
    var x := Beaten(w, milliHz, sourceState);
    forall i | 0 <= i < |x.links|
      ensures LinkOk(x.env, x.links[i])
    {
      var l := w.links[i];
      assert LinkOk(w.env, l);
      BeatStep(w.env, l, milliHz, sourceState);
    }
  }

  lemma LinkStep(w: World, i: nat, l: Link)
    requires Inv(w) && i < |w.links| && LinkOk(w.env, l)
    ensures Inv(OnLink(w, i, l))
  {
  }

  lemma RequestStep(e: Env, l: Link)
    requires GoodEnv(e) && LinkOk(e, l)
    ensures LinkOk(e, RequestTaken(e, l))
  {
    if l.session.active && l.peer.requests != [] { RequestServed(e, l.session, l.peer); }
  }

  lemma WriteStep(e: Env, l: Link, k: nat)
    requires GoodEnv(e) && LinkOk(e, l)
    ensures LinkOk(e, Completed(e, l, k))
  {
    if l.session.active && k < |l.session.slots| && l.session.slots[k].Busy? {
      WriteCompleted(e, l.session, l.peer, k);
    }
  }

  lemma ReadStep(e: Env, l: Link)
    requires GoodEnv(e) && LinkOk(e, l)
    ensures LinkOk(e, Read(e, l))
  {
    if l.session.stream != [] { ReceptionKeeps(e, l.session, l.peer); }
  }

  lemma DisconnectStep(e: Env, l: Link, keep: nat)
    requires GoodEnv(e) && LinkOk(e, l)
    ensures LinkOk(e, Dropped(l, keep))
  {
    if keep <= |l.session.stream| { CloseKeeps(e, l.session, l.peer, keep); }
  }

  lemma StepKeepsInv(w: World, l: Label)
    requires Inv(w)
    ensures Inv(Step(w, l))
  {
    match l
    case Publish(v, now, ts) =>
      if Source.GoodVisit(w.env.cat, v) && ts >= w.sampler.published.timestamp {
        Sampler.TickKeepsInv(w.env.cat, w.sampler, v, now, ts);
      }
    case Distribute => DistributionStep(w);
    case HeartbeatTick(milliHz, sourceState) => HeartbeatStep(w, milliHz, sourceState);
    case TakeRequest(i) =>
      if i < |w.links| {
        RequestStep(w.env, w.links[i]);
        LinkStep(w, i, RequestTaken(w.env, w.links[i]));
      }
    case WriteDone(i, k) =>
      if i < |w.links| {
        WriteStep(w.env, w.links[i], k);
        LinkStep(w, i, Completed(w.env, w.links[i], k));
      }
    case ClientReads(i) =>
      if i < |w.links| {
        ReadStep(w.env, w.links[i]);
        LinkStep(w, i, Read(w.env, w.links[i]));
      }
    case Connect(i) =>
      if i < |w.links| {
        ConnectionStarts(w.env);
        LinkStep(w, i, Link(Connected(w.env.setup), NEWCOMER));
      }
    case Disconnect(i, keep) =>
      if i < |w.links| {
        DisconnectStep(w.env, w.links[i], keep);
        LinkStep(w, i, Dropped(w.links[i], keep));
      }
  }

  /** A run: any sequence of labels. */
  function Exec(w: World, run: seq<Label>): (x: World)
    requires Inv(w)
    ensures Inv(x)
    decreases |run|
  {
    if run == [] then w
    else
      StepKeepsInv(w, run[0]);
      Exec(Step(w, run[0]), run[1..])
  }

  lemma ExecFirst(w: World, l: Label, run: seq<Label>)
    requires Inv(w) && Inv(Step(w, l))
    ensures Exec(w, [l] + run) == Exec(Step(w, l), run)
  {
    assert ([l] + run)[0] == l && ([l] + run)[1..] == run;
  }

  /** A run that goes on. */
  lemma {:induction false} ExecAppend(w: World, run: seq<Label>, more: seq<Label>)
    requires Inv(w)
    ensures Exec(w, run + more) == Exec(Exec(w, run), more)
    decreases |run|
  {
    if run == [] {
      assert run + more == more;
    } else {
      var l, rest := run[0], run[1..];
      StepKeepsInv(w, l);
      ExecFirst(w, l, rest + more);
      ExecAppend(Step(w, l), rest, more);
      assert run + more == [l] + (rest + more);
    }
  }

  // ---- Links that a label leaves alone ----

  /** The label is about link i. */
  predicate Concerns(l: Label, i: nat) {
    match l
    case TakeRequest(j) => j == i
    case WriteDone(j, _) => j == i
    case ClientReads(j) => j == i
    case Connect(j) => j == i
    case Disconnect(j, _) => j == i
    case Publish(_, _, _) => false
    case _ => true
  }

  lemma ElsewhereUntouched(w: World, l: Label, i: nat)
    requires Inv(w) && i < |w.links| && !Concerns(l, i)
    ensures i < |Step(w, l).links| && Step(w, l).links[i] == w.links[i]
  {
  }
}
