/** Arrays of fixed-size records, for any record type with an encoder and a decoder. */
module Records {
  import opened Types

  function WriteAll<T>(xs: seq<T>, enc: T -> seq<byte>): seq<byte> {
    if xs == [] then [] else enc(xs[0]) + WriteAll(xs[1..], enc)
  }

  function ReadAll<T>(p: seq<byte>, n: nat, size: nat, dec: seq<byte> -> Option<T>): Option<seq<T>> {
    if n == 0 then Some([])
    else if |p| < size then None
    else
      var x := dec(p[..size]);
      if x.None? then None
      else
        var rest := ReadAll(p[size..], n - 1, size, dec);
        if rest.None? then None else Some([x.value] + rest.value)
  }

  lemma SliceOfSlice(p: seq<byte>, a: nat, b: nat, i: nat, j: nat)
    requires a <= b <= |p| && i <= j <= b - a
    ensures p[a..b][i..j] == p[a + i..a + j]
  {
    var x, y := p[a..b][i..j], p[a + i..a + j];
    assert |x| == |y| && forall k :: 0 <= k < |x| ==> x[k] == p[a + i + k] == y[k];
  }

  /** Cutting a concatenation at its seams. */
  lemma Cut8(
    a: seq<byte>, b: seq<byte>, c: seq<byte>, d: seq<byte>, e: seq<byte>, f: seq<byte>, g: seq<byte>, h: seq<byte>)
    ensures var s := a + b + c + d + e + f + g + h;
            var o1 := |a|; var o2 := o1 + |b|; var o3 := o2 + |c|; var o4 := o3 + |d|;
            var o5 := o4 + |e|; var o6 := o5 + |f|; var o7 := o6 + |g|;
            && s[0..o1] == a && s[o1..o2] == b && s[o2..o3] == c && s[o3..o4] == d
            && s[o4..o5] == e && s[o5..o6] == f && s[o6..o7] == g && s[o7..o7 + |h|] == h
  {
  }

  lemma Join8(s: seq<byte>, o1: nat, o2: nat, o3: nat, o4: nat, o5: nat, o6: nat, o7: nat)
    requires o1 <= o2 <= o3 <= o4 <= o5 <= o6 <= o7 <= |s|
    ensures s == s[0..o1] + s[o1..o2] + s[o2..o3] + s[o3..o4] + s[o4..o5] + s[o5..o6] + s[o6..o7] + s[o7..|s|]
  {
  }

  /** Decoding a record undoes encoding it. */
  ghost predicate Inverse<T(!new)>(enc: T -> seq<byte>, dec: seq<byte> -> Option<T>, size: nat, fits: T -> bool) {
    forall x :: fits(x) ==> |enc(x)| == size && dec(enc(x)) == Some(x)
  }

  /** Every accepted record is the encoding of what it decodes to. */
  ghost predicate Exact<T(!new)>(enc: T -> seq<byte>, dec: seq<byte> -> Option<T>, size: nat, fits: T -> bool) {
    forall r: seq<byte> :: |r| == size && dec(r).Some? ==> fits(dec(r).value) && enc(dec(r).value) == r
  }

  predicate AllFit<T>(xs: seq<T>, fits: T -> bool) {
    forall i :: 0 <= i < |xs| ==> fits(xs[i])
  }

  lemma {:induction false} ReadUndoesWrite<T(!new)>(
    xs: seq<T>, enc: T -> seq<byte>, dec: seq<byte> -> Option<T>, size: nat, fits: T -> bool)
    requires Inverse(enc, dec, size, fits) && AllFit(xs, fits)
    ensures |WriteAll(xs, enc)| == |xs| * size
    ensures ReadAll(WriteAll(xs, enc), |xs|, size, dec) == Some(xs)
  {
    if xs != [] {
      ReadUndoesWrite(xs[1..], enc, dec, size, fits);
      var p := WriteAll(xs, enc);
      assert |enc(xs[0])| == size;
      assert p[..size] == enc(xs[0]) && p[size..] == WriteAll(xs[1..], enc);
      assert xs == [xs[0]] + xs[1..];
      Peel(|xs|, size);
    }
  }

  lemma Peel(n: nat, size: nat)
    requires n > 0
    ensures n * size == size + (n - 1) * size
  {
  }

  lemma {:induction false} WriteUndoesRead<T(!new)>(
    p: seq<byte>, n: nat, enc: T -> seq<byte>, dec: seq<byte> -> Option<T>, size: nat, fits: T -> bool)
    requires Exact(enc, dec, size, fits) && |p| == n * size && ReadAll(p, n, size, dec).Some?
    ensures var xs := ReadAll(p, n, size, dec).value; |xs| == n && AllFit(xs, fits) && WriteAll(xs, enc) == p
  {
    if n > 0 {
      Peel(n, size);
      WriteUndoesRead(p[size..], n - 1, enc, dec, size, fits);
      var xs := ReadAll(p, n, size, dec).value;
      assert xs[1..] == ReadAll(p[size..], n - 1, size, dec).value;
      assert enc(xs[0]) == p[..size] by {
        assert dec(p[..size]) == Some(xs[0]);
      }
      assert p == p[..size] + p[size..];
    } else {
      assert p == [];
    }
  }
}
