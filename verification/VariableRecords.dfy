/** Sequences of records that carry their own length. `ok` judges a record by its position. */
module VariableRecords {
  import opened Types
  import opened Records

  function ReadSome<T>(
    p: seq<byte>, n: nat, k: nat, dec: seq<byte> -> Option<T>, size: T -> nat, ok: (T, nat) -> bool): Option<seq<T>>
    decreases n
  {
    if n == 0 then if p == [] then Some([]) else None
    else
      var x := dec(p);
      if x.None? || !ok(x.value, k) || size(x.value) > |p| then None
      else
        var rest := ReadSome(p[size(x.value)..], n - 1, k + 1, dec, size, ok);
        if rest.None? then None else Some([x.value] + rest.value)
  }

  /** A record is read back whatever follows it. */
  ghost predicate PrefixInverse<T(!new)>(
    enc: T -> seq<byte>, dec: seq<byte> -> Option<T>, size: T -> nat, fits: T -> bool)
  {
    && (forall x :: fits(x) ==> |enc(x)| == size(x))
    && (forall x: T, rest: seq<byte> :: fits(x) ==> dec(enc(x) + rest) == Some(x))
  }

  predicate AllFitFrom<T>(xs: seq<T>, k: nat, fits: T -> bool, ok: (T, nat) -> bool) {
    forall i :: 0 <= i < |xs| ==> fits(xs[i]) && ok(xs[i], k + i)
  }

  lemma RestFits<T>(xs: seq<T>, k: nat, fits: T -> bool, ok: (T, nat) -> bool)
    requires xs != [] && AllFitFrom(xs, k, fits, ok)
    ensures fits(xs[0]) && ok(xs[0], k) && AllFitFrom(xs[1..], k + 1, fits, ok)
  {
    assert fits(xs[0]) && ok(xs[0], k + 0);
    forall i | 0 <= i < |xs[1..]|
      ensures fits(xs[1..][i]) && ok(xs[1..][i], k + 1 + i)
    {
      assert xs[1..][i] == xs[i + 1] && ok(xs[i + 1], k + (i + 1));
    }
  }

  lemma {:induction false} ReadSomeUndoesWrite<T(!new)>(
    xs: seq<T>, k: nat, enc: T -> seq<byte>, dec: seq<byte> -> Option<T>, size: T -> nat,
    fits: T -> bool, ok: (T, nat) -> bool)
    requires PrefixInverse(enc, dec, size, fits) && AllFitFrom(xs, k, fits, ok)
    ensures ReadSome(WriteAll(xs, enc), |xs|, k, dec, size, ok) == Some(xs)
  {
    if xs != [] {
      var rest := WriteAll(xs[1..], enc);
      RestFits(xs, k, fits, ok);
      assert |enc(xs[0])| == size(xs[0]) && dec(enc(xs[0]) + rest) == Some(xs[0]);
      assert (enc(xs[0]) + rest)[size(xs[0])..] == rest;
      ReadSomeUndoesWrite(xs[1..], k + 1, enc, dec, size, fits, ok);
      assert xs == [xs[0]] + xs[1..];
    }
  }
}
