/** The source session: connection, exponential retry, generation counter. */
module Source {
  import opened Types

  const RETRY_INITIAL: nat := 250_000_000
  const RETRY_MAX: nat := 30_000_000_000

  /** What one visit to the vehicle process can do: opening may fail, and a read may
      fail or deliver a batch, possibly through the slower fallback path. */
  datatype ReadResult = ReadFailed | ReadOk(frames: seq<Frame>, fallback: bool)
  datatype Visit = Visit(opens: bool, read: ReadResult)

  datatype Outcome = Waiting | Failed | Success(fallback: bool)

  datatype Session = Session(connected: bool, retryAt: nat, retryDelay: nat, generation: nat)

  /** A delivered batch: identifiers in catalog order, eight bytes each, and a state that
      only says whether the frame's address was resolved. */
  predicate GoodRead(cat: Catalog, frames: seq<Frame>) {
    && |frames| == |cat.canIds|
    && forall i :: 0 <= i < |frames| ==>
         && frames[i].canId == cat.canIds[i] && |frames[i].data| == 8
         && (frames[i].state.NeverObserved? || frames[i].state.Unavailable?)
         && (frames[i].state.Unavailable? ==> frames[i].data == ZERO_DATA)
  }

  predicate GoodVisit(cat: Catalog, v: Visit) {
    v.read.ReadOk? ==> GoodRead(cat, v.read.frames)
  }

  function NoFrames(cat: Catalog): (f: seq<Frame>)
    ensures GoodRead(cat, f)
    ensures forall i :: 0 <= i < |f| ==> f[i].state.Unavailable? && f[i].data == ZERO_DATA
  {
    seq(|cat.canIds|, i requires 0 <= i < |cat.canIds| => Frame(cat.canIds[i], Unavailable, ZERO_DATA, 0, 0))
  }

  const FRESH := Session(false, 0, RETRY_INITIAL, 0)

  function ScheduleRetry(s: Session, now: nat): Session {
    s.(connected := false, retryAt := now + s.retryDelay,
       retryDelay := if s.retryDelay < RETRY_MAX / 2 then s.retryDelay * 2 else RETRY_MAX)
  }

  /** Does a read at this time go looking for the process? */
  predicate Opens(s: Session, now: nat) {
    !s.connected && now >= s.retryAt
  }

  function Reconnected(s: Session): Session {
    s.(connected := true, generation := s.generation + 1)
  }

  function Read(s: Session, v: Visit, now: nat): (r: (Session, Outcome))
    ensures r.1.Success? <==> (s.connected || (now >= s.retryAt && v.opens)) && v.read.ReadOk?
  {
    if !s.connected && now < s.retryAt then (s, Waiting)
    else if !s.connected && !v.opens then (ScheduleRetry(s, now), Failed)
    else
      var c := if s.connected then s else Reconnected(s);
      if v.read.ReadFailed? then (ScheduleRetry(c, now), Failed)
      else (c.(retryDelay := RETRY_INITIAL), Success(v.read.fallback))
  }

  /** The batch handed to the sampler: nothing partial survives a failure. */
  function Delivered(cat: Catalog, s: Session, v: Visit, now: nat): (f: seq<Frame>)
    requires GoodVisit(cat, v)
    ensures GoodRead(cat, f)
    ensures !Read(s, v, now).1.Success? ==> f == NoFrames(cat)
  {
    if Read(s, v, now).1.Success? then v.read.frames else NoFrames(cat)
  }

  /** The session as the daemon holds it; `frames` is the caller's buffer. */
  class SourceSession {
    var connected: bool
    var retryAt: nat
    var retryDelay: nat
    var generation: nat

    function State(): Session
      reads this
    {
      Session(connected, retryAt, retryDelay, generation)
    }

    constructor ()
      ensures State() == FRESH
    {
      connected, retryAt, retryDelay, generation := false, 0, RETRY_INITIAL, 0;
    }

    method MarkUnavailable(cat: Catalog, frames: array<Frame>)
      requires frames.Length == |cat.canIds|
      modifies frames
      ensures frames[..] == NoFrames(cat)
    {
      var i := 0;
      while i < frames.Length
        invariant 0 <= i <= frames.Length
        invariant forall k :: 0 <= k < i ==> frames[k] == Frame(cat.canIds[k], Unavailable, ZERO_DATA, 0, 0)
      {
        frames[i] := Frame(cat.canIds[i], Unavailable, ZERO_DATA, 0, 0);
        i := i + 1;
      }
    }

    method Retry(now: nat)
      modifies this
      ensures State() == ScheduleRetry(old(State()), now)
    {
      connected := false;
      retryAt := now + retryDelay;
      if retryDelay < RETRY_MAX / 2 {
        retryDelay := retryDelay * 2;
      } else {
        retryDelay := RETRY_MAX;
      }
    }

    method ReadFrames(cat: Catalog, frames: array<Frame>, v: Visit, now: nat) returns (outcome: Outcome)
      requires frames.Length == |cat.canIds| && GoodVisit(cat, v)
      modifies this, frames
      ensures (State(), outcome) == Read(old(State()), v, now)
      ensures frames[..] == Delivered(cat, old(State()), v, now)
    {
      if !connected {
        MarkUnavailable(cat, frames);
        if now < retryAt {
          return Waiting;
        }
        if !v.opens {
          Retry(now);
          return Failed;
        }
        connected := true;
        generation := generation + 1;
      }
      if v.read.ReadFailed? {
        MarkUnavailable(cat, frames);
        Retry(now);
        outcome := Failed;
      } else {
        forall i | 0 <= i < frames.Length {
          frames[i] := v.read.frames[i];
        }
        assert frames[..] == v.read.frames;
        retryDelay := RETRY_INITIAL;
        outcome := Success(v.read.fallback);
      }
    }
  }

  // ---- The backoff law ----

  datatype Event = Event(visit: Visit, now: nat)

  /** A session together with the failures since its last successful read and the number
      of times it went looking for the process. */
  datatype Track = Track(session: Session, failures: nat, opens: nat)

  function Follow(t: Track, e: Event): Track {
    var (s, out) := Read(t.session, e.visit, e.now);
    Track(s,
          match out case Waiting => t.failures case Failed => t.failures + 1 case Success(_) => 0,
          t.opens + if Opens(t.session, e.now) then 1 else 0)
  }

  function FollowAll(t: Track, es: seq<Event>): Track {
    if es == [] then t else Follow(FollowAll(t, es[..|es| - 1]), es[|es| - 1])
  }

  /** 250 ms doubled k times up to 16 s, then 30 s. */
  function DelayAfter(k: nat): nat {
    if k > 6 then RETRY_MAX else if k == 0 then RETRY_INITIAL else 2 * DelayAfter(k - 1)
  }

  const START := Track(FRESH, 0, 0)

  /** After k failures since the last successful read the delay is DelayAfter(k): opening
      the process without reading it resets nothing. */
  lemma {:induction false} BackoffLaw(es: seq<Event>)
    ensures var t := FollowAll(START, es); t.session.retryDelay == DelayAfter(t.failures)
  {
    if es != [] {
      BackoffLaw(es[..|es| - 1]);
      DelayStep(FollowAll(START, es[..|es| - 1]).failures);
    }
  }

  lemma DelayStep(k: nat)
    ensures DelayAfter(k + 1) == if DelayAfter(k) < RETRY_MAX / 2 then DelayAfter(k) * 2 else RETRY_MAX
  {
    if k <= 5 {
      DelayUpTo5(k);
    } else if k == 6 {
      DelayUpTo5(5);
    }
  }

  lemma DelayUpTo5(k: nat)
    requires k <= 5
    ensures DelayAfter(k) <= 8_000_000_000
    ensures k == 5 ==> DelayAfter(k) == 8_000_000_000
  {
    assert DelayAfter(1) == 500_000_000;
    assert DelayAfter(2) == 1_000_000_000;
    assert DelayAfter(3) == 2_000_000_000;
    assert DelayAfter(4) == 4_000_000_000;
    assert DelayAfter(5) == 8_000_000_000;
  }

  function TotalDelay(n: nat): nat {
    if n == 0 then 0 else TotalDelay(n - 1) + DelayAfter(n - 1)
  }

  lemma {:induction false} TotalDelayBound(n: nat)
    ensures TotalDelay(n) >= RETRY_MAX * (n - 7)
  {
    if n > 7 {
      TotalDelayBound(n - 1);
    }
  }

  lemma {:induction false} DelayMonotone(j: nat, k: nat)
    requires j <= k
    ensures DelayAfter(j) <= DelayAfter(k) <= RETRY_MAX
  {
    if j < k {
      DelayMonotone(j, k - 1);
      DelayStep(k - 1);
    } else if k > 0 {
      DelayMonotone(k - 1, k - 1);
      DelayStep(k - 1);
    }
  }

  /** The time of the last event, or `start` if there is none. */
  function Latest(es: seq<Event>, start: nat): nat {
    if es == [] then start else es[|es| - 1].now
  }

  /** An outage: from t on no read succeeds, and time runs from `start` on without going back. */
  predicate Outage(t: Track, es: seq<Event>, start: nat) {
    es == [] ||
    var n := |es| - 1;
    && Outage(t, es[..n], start) && Latest(es[..n], start) <= es[n].now
    && !Read(FollowAll(t, es[..n]).session, es[n].visit, es[n].now).1.Success?
  }

  /** The track u after n attempts of an outage: the next attempt waits for all delays so far. */
  predicate Spaced(u: Track, n: nat, start: nat) {
    && n <= u.failures && u.session.retryDelay == DelayAfter(u.failures)
    && (n > 0 ==> !u.session.connected && start + TotalDelay(n) <= u.session.retryAt)
  }

  lemma SpacedStep(u: Track, e: Event, n: nat, start: nat)
    requires Spaced(u, n, start) && start <= e.now && !Read(u.session, e.visit, e.now).1.Success?
    ensures var attempt := Opens(u.session, e.now);
            && Spaced(Follow(u, e), if attempt then n + 1 else n, start)
            && (attempt ==> start + TotalDelay(n) <= e.now)
  {
    DelayStep(u.failures);
    DelayMonotone(n, u.failures);
  }

  /** The n-th attempt of an outage comes no earlier than the first n - 1 delays after its start. */
  lemma {:induction false} AttemptsAreSpaced(t: Track, es: seq<Event>, start: nat)
    requires t.session.retryDelay == DelayAfter(t.failures) && Outage(t, es, start)
    ensures var u := FollowAll(t, es);
            && t.opens <= u.opens && start <= Latest(es, start)
            && Spaced(u, u.opens - t.opens, start)
            && (u.opens > t.opens ==> start + TotalDelay(u.opens - t.opens - 1) <= Latest(es, start))
  {
    if es != [] {
      var n := |es| - 1;
      AttemptsAreSpaced(t, es[..n], start);
      var u := FollowAll(t, es[..n]);
      SpacedStep(u, es[n], u.opens - t.opens, start);
    }
  }

  /** In any outage, whatever came before it, the attempts to open number at most 8 plus one
      for every 30 s it has lasted. */
  lemma AttemptsAreBounded(past: seq<Event>, es: seq<Event>, start: nat)
    requires Outage(FollowAll(START, past), es, start)
    ensures start <= Latest(es, start)
    ensures FollowAll(FollowAll(START, past), es).opens - FollowAll(START, past).opens
            <= 8 + (Latest(es, start) - start) / RETRY_MAX
  {
    var t := FollowAll(START, past);
    BackoffLaw(past);
    AttemptsAreSpaced(t, es, start);
    var n, span := FollowAll(t, es).opens - t.opens, Latest(es, start) - start;
    if n > 8 {
      TotalDelayBound(n - 1);
      assert span >= RETRY_MAX * (n - 8);
    }
  }
}
