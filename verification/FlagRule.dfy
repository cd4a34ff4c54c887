/** Why an invalid flag must live in its signal's own CAN frame: the incremental decoder is
    right, on everything the sampler can publish, exactly for catalogs that keep this rule. */
module FlagRule {
  import opened Types
  import opened Bits
  import opened Canonical
  import Sampler
  import Source

  // ---- Everything the sampler can publish ----

  /** One turn of the sampler, which the daemon may or may not see before the next one. */
  datatype Turn = Turn(visit: Source.Visit, now: nat, ts: nat, seen: bool)

  datatype Pipeline = Pipeline(sampler: Sampler.State, sv: Server)

  predicate Consistent(cat: Catalog, p: Pipeline)
    requires GoodLayout(cat)
  {
    && Sampler.SamplerInv(cat, p.sampler) && Shaped(cat, p.sv)
    && p.sv.sampleTs <= p.sampler.published.timestamp
  }

  function First(cat: Catalog, t: Turn): (p: Pipeline)
    requires GoodLayout(cat) && Source.GoodVisit(cat, t.visit) && t.ts > 0
    ensures Consistent(cat, p)
  {
    Sampler.StartInv(cat, t.visit, t.now, t.ts);
    var st := Sampler.Start(cat, t.visit, t.now, t.ts);
    Pipeline(st, StartUp(cat, st.published))
  }

  /** A turn that is possible: otherwise nothing happens. */
  predicate Possible(cat: Catalog, p: Pipeline, t: Turn) {
    Source.GoodVisit(cat, t.visit) && p.sampler.published.timestamp <= t.ts
  }

  function Next(cat: Catalog, p: Pipeline, t: Turn): (q: Pipeline)
    requires GoodLayout(cat) && Consistent(cat, p)
    ensures Consistent(cat, q)
  {
    if !Possible(cat, p, t) then p
    else
      Sampler.TickKeepsInv(cat, p.sampler, t.visit, t.now, t.ts);
      var st := Sampler.Tick(cat, p.sampler, t.visit, t.now, t.ts);
      Pipeline(st, if t.seen then Absorb(cat, p.sv, st.published) else p.sv)
  }

  function After(cat: Catalog, p: Pipeline, turns: seq<Turn>): (q: Pipeline)
    requires GoodLayout(cat) && Consistent(cat, p)
    ensures Consistent(cat, q)
    decreases |turns|
  {
    if turns == [] then p else After(cat, Next(cat, p, turns[0]), turns[1..])
  }

  /** Every signal has the state that full decoding of the canonical frames gives, and for an
      available frame the value too. */
  predicate Decoded(cat: Catalog, sv: Server)
    requires GoodLayout(cat) && Shaped(cat, sv)
  {
    forall i :: 0 <= i < |cat.defs| ==> Refines(cat, sv, i)
  }

  /** The incremental decoder is right after any start and any turns of the sampler. */
  ghost predicate FastPathSound(cat: Catalog)
    requires GoodLayout(cat)
  {
    forall first: Turn, turns: seq<Turn> ::
      Source.GoodVisit(cat, first.visit) && first.ts > 0 ==> Decoded(cat, After(cat, First(cat, first), turns).sv)
  }

  lemma {:induction false} RuleSuffices(cat: Catalog, p: Pipeline, turns: seq<Turn>)
    requires GoodCatalog(cat) && Consistent(cat, p) && ServerInv(cat, p.sv)
    ensures ServerInv(cat, After(cat, p, turns).sv)
    decreases |turns|
  {
    if turns != [] {
      var q := Next(cat, p, turns[0]);
      if Possible(cat, p, turns[0]) && turns[0].seen {
        AbsorbKeepsInv(cat, p.sv, q.sampler.published);
      }
      RuleSuffices(cat, q, turns[1..]);
    }
  }

  // ---- Three samples that go wrong ----

  /** A frame with every bit clear, or every bit set. */
  function Uniform(d: bit): (data: seq<byte>)
    ensures |data| == 8
  {
    BitsToFrame(Fill(d))
  }

  function Fill(d: bit): (b: seq<bit>)
    ensures |b| == 64 && forall q :: 0 <= q < 64 ==> b[q] == d
  {
    seq(64, _ => d)
  }

  lemma {:induction false} UniformValue(b: seq<bit>, d: bit, at: seq<nat>, n: nat)
    requires n <= |at| && Within(at, |b|) && forall q :: 0 <= q < |b| ==> b[q] == d
    ensures (d == 0 ==> Value(b, at, n) == 0) && (d == 1 && n > 0 ==> Value(b, at, n) > 0)
  {
    if n > 0 { UniformValue(b, d, at, n - 1); }
  }

  lemma UniformRaw(d: bit, parts: seq<Part>)
    requires GoodParts(parts) && parts != []
    ensures Raw(Uniform(d), parts) != 0 <==> d == 1
  {
    var b := Fill(d);
    FrameBitsOfBits(b);
    RawIsNamedBits(Uniform(d), parts);
    assert GoodPart(parts[|parts| - 1]);
    assert |Positions(parts)| >= parts[|parts| - 1].bits;
    UniformValue(b, d, Positions(parts), |Positions(parts)|);
  }

  lemma UniformDiffers()
    ensures Uniform(0) != Uniform(1)
  {
    var parts := [Part(0, 0, 1)];
    assert GoodPart(parts[0]);
    UniformRaw(0, parts);
    UniformRaw(1, parts);
  }

  /** A batch as the source reads it: frame `hot` full of bits d, every other frame of bits `rest`. */
  function Shown(cat: Catalog, rest: bit, hot: nat, d: bit): (frames: seq<Frame>)
    ensures Source.GoodRead(cat, frames)
    ensures forall k :: 0 <= k < |frames| ==> frames[k] == ShownFrame(cat.canIds[k], if k == hot then d else rest)
  {
    seq(|cat.canIds|, k requires 0 <= k < |cat.canIds| => ShownFrame(cat.canIds[k], if k == hot then d else rest))
  }

  function ShownFrame(id: nat, d: bit): (f: Frame)
    ensures f.canId == id && |f.data| == 8 && f.state.NeverObserved?
  {
    Frame(id, NeverObserved, Uniform(d), 0, 0)
  }

  function Showing(cat: Catalog, rest: bit, hot: nat, d: bit, ts: nat): (t: Turn)
    ensures Source.GoodVisit(cat, t.visit)
  {
    Turn(Source.Visit(true, Source.ReadOk(Shown(cat, rest, hot, d), false)), ts, ts, true)
  }

  /** The published frames are all in one state and show these bits. */
  predicate Shows(cat: Catalog, frames: seq<Frame>, state: ObsState, rest: bit, hot: nat, d: bit) {
    && |frames| == |cat.canIds|
    && forall k :: 0 <= k < |frames| ==>
         && frames[k].state == state && (state.Valid? ==> frames[k].firstObserved != 0)
         && frames[k].data == Uniform(if k == hot then d else rest)
  }

  /** The daemon has seen the latest sample of a connected source. */
  predicate UpToDate(p: Pipeline) {
    && p.sampler.source.connected && p.sv.frames == p.sampler.published.frames
    && p.sv.sampleSeq == p.sampler.published.sequence
  }

  lemma BlankStart(cat: Catalog, hot: nat)
    requires GoodLayout(cat)
    ensures var p := First(cat, Showing(cat, 0, hot, 0, 1));
            UpToDate(p) && Shows(cat, p.sv.frames, NeverObserved, 0, hot, 0) && p.sampler.published.timestamp == 1
  {
  }

  /** Every frame lights up: all become valid. */
  lemma LightUp(cat: Catalog, p: Pipeline, hot: nat)
    requires GoodLayout(cat) && Consistent(cat, p) && UpToDate(p) && p.sampler.published.timestamp == 1
    requires Shows(cat, p.sv.frames, NeverObserved, 0, hot, 0)
    ensures var q := Next(cat, p, Showing(cat, 1, hot, 1, 2));
            && UpToDate(q) && Shows(cat, q.sv.frames, Valid, 1, hot, 1) && q.sampler.published.timestamp == 2
            && q.sv == Absorb(cat, p.sv, q.sampler.published) && q.sampler.published.sequence > p.sv.sampleSeq
  {
    UniformDiffers();
    var t := Showing(cat, 1, hot, 1, 2);
    var q := Next(cat, p, t);
    forall k | 0 <= k < |cat.canIds|
      ensures q.sampler.working[k].state == Valid && q.sampler.working[k].firstObserved != 0
      ensures q.sampler.working[k].data == Uniform(1)
    {
      assert q.sampler.working[k] == Sampler.Merged(p.sampler.working[k], Shown(cat, 1, hot, 1)[k], 2, false);
    }
  }

  /** Only frame `hot` goes dark again. */
  lemma GoDark(cat: Catalog, p: Pipeline, hot: nat)
    requires GoodLayout(cat) && Consistent(cat, p) && UpToDate(p) && p.sampler.published.timestamp == 2
    requires Shows(cat, p.sv.frames, Valid, 1, hot, 1)
    ensures var q := Next(cat, p, Showing(cat, 1, hot, 0, 3));
            && UpToDate(q) && Shows(cat, q.sv.frames, Valid, 1, hot, 0)
            && q.sv == Absorb(cat, p.sv, q.sampler.published) && q.sampler.published.sequence > p.sv.sampleSeq
  {
    var q := Next(cat, p, Showing(cat, 1, hot, 0, 3));
    forall k | 0 <= k < |cat.canIds|
      ensures q.sampler.working[k].state == Valid && q.sampler.working[k].firstObserved != 0
      ensures q.sampler.working[k].data == Uniform(if k == hot then 0 else 1)
    {
      assert q.sampler.working[k] == Sampler.Merged(p.sampler.working[k], Shown(cat, 1, hot, 0)[k], 3, false);
      assert p.sampler.working[k] == p.sv.frames[k];
    }
  }

  lemma ShownStates(cat: Catalog, frames: seq<Frame>, i: nat, d: bit)
    requires GoodLayout(cat) && GoodFrames(cat, frames) && i < |cat.defs| && !FlagInOwnFrame(cat, i)
    requires Shows(cat, frames, Valid, 1, cat.defs[cat.defs[i].invalidIndex].frameIndex, d)
    ensures StateAt(cat, frames, i) == if d == 1 then Invalid else Valid
  {
    var flag := cat.defs[i].invalidIndex;
    assert GoodDef(cat, cat.defs[i]) && GoodDef(cat, cat.defs[flag]);
    UniformRaw(d, cat.defs[flag].parts);
  }

  /** When every frame has changed the incremental decoder decodes everything. */
  lemma AllChanged(cat: Catalog, sv: Server, sample: Sample, i: nat)
    requires GoodLayout(cat) && Shaped(cat, sv) && GoodFrames(cat, sample.frames) && i < |cat.defs|
    requires forall k :: 0 <= k < |sample.frames| ==> FrameDiffers(sample.frames[k], sv.frames[k])
    requires forall k :: 0 <= k < |sample.frames| ==> sample.frames[k].state == Valid
    requires sample.sequence > sv.sampleSeq
    ensures Absorb(cat, sv, sample).signals[i].state == StateAt(cat, sample.frames, i)
  {
    assert GoodDef(cat, cat.defs[i]);
    MarkedMember(FrameFlags(sv.frames, sample.frames), cat.defs[i].frameIndex);
  }

  /** A signal whose own frame is unchanged keeps the state Invalid. */
  lemma StaysInvalid(cat: Catalog, sv: Server, sample: Sample, i: nat)
    requires GoodLayout(cat) && Shaped(cat, sv) && GoodFrames(cat, sample.frames) && i < |cat.defs|
    requires !FrameDiffers(sample.frames[cat.defs[i].frameIndex], sv.frames[cat.defs[i].frameIndex])
    requires sv.signals[i].state == Invalid
    ensures Absorb(cat, sv, sample).signals[i].state == Invalid
  {
    assert GoodDef(cat, cat.defs[i]);
  }

  /** The three turns: nothing set, everything set, only the flag's frame clear again. */
  function Trap(cat: Catalog, hot: nat): (t: (Turn, seq<Turn>))
    ensures Source.GoodVisit(cat, t.0.visit) && t.0.ts > 0
  {
    (Showing(cat, 0, hot, 0, 1), [Showing(cat, 1, hot, 1, 2), Showing(cat, 1, hot, 0, 3)])
  }

  lemma TwoTurns(cat: Catalog, p: Pipeline, a: Turn, b: Turn)
    requires GoodLayout(cat) && Consistent(cat, p)
    ensures After(cat, p, [a, b]) == Next(cat, Next(cat, p, a), b)
  {
    var q := Next(cat, p, a);
    assert [a, b][1..] == [b] && [b][1..] == [];
    assert After(cat, q, [b]) == After(cat, Next(cat, q, b), []);
  }

  /** A flag in another frame goes stale: three batches that the source may well read leave the
      signal Invalid in the canonical state although full decoding of the same state says Valid. */
  lemma FlagElsewhereGoesStale(cat: Catalog, i: nat)
    requires GoodLayout(cat) && i < |cat.defs| && !FlagInOwnFrame(cat, i)
    ensures var (first, turns) := Trap(cat, cat.defs[cat.defs[i].invalidIndex].frameIndex);
            var sv := After(cat, First(cat, first), turns).sv;
            sv.signals[i].state == Invalid && StateAt(cat, sv.frames, i) == Valid
  {
    var hot, own := cat.defs[cat.defs[i].invalidIndex].frameIndex, cat.defs[i].frameIndex;
    assert GoodDef(cat, cat.defs[i]);
    var (first, turns) := Trap(cat, hot);
    var p := First(cat, first);
    BlankStart(cat, hot);
    var q := Next(cat, p, turns[0]);
    LightUp(cat, p, hot);
    UniformDiffers();
    AllChanged(cat, p.sv, q.sampler.published, i);
    ShownStates(cat, q.sv.frames, i, 1);
    var r := Next(cat, q, turns[1]);
    GoDark(cat, q, hot);
    StaysInvalid(cat, q.sv, r.sampler.published, i);
    ShownStates(cat, r.sv.frames, i, 0);
    TwoTurns(cat, p, turns[0], turns[1]);
  }

  /** The generator's rule that an invalid flag lives in its signal's own frame is exactly what
      the incremental decoder needs on what the sampler publishes. */
  lemma FlagRuleIsExact(cat: Catalog)
    requires GoodLayout(cat)
    ensures FastPathSound(cat) <==> GoodCatalog(cat)
  {
    if GoodCatalog(cat) {
      forall first: Turn, turns: seq<Turn> | Source.GoodVisit(cat, first.visit) && first.ts > 0
        ensures Decoded(cat, After(cat, First(cat, first), turns).sv)
      {
        StartUpInv(cat, First(cat, first).sampler.published);
        RuleSuffices(cat, First(cat, first), turns);
        forall i | 0 <= i < |cat.defs| ensures Refines(cat, After(cat, First(cat, first), turns).sv, i) {
          assert SignalInv(cat, After(cat, First(cat, first), turns).sv, i);
        }
      }
    } else {
      var i :| 0 <= i < |cat.defs| && !FlagInOwnFrame(cat, i);
      FlagElsewhereGoesStale(cat, i);
      var (first, turns) := Trap(cat, cat.defs[cat.defs[i].invalidIndex].frameIndex);
      assert !Refines(cat, After(cat, First(cat, first), turns).sv, i);
    }
  }
}
