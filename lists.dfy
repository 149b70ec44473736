/** `Array.prototype.filter` and `slice` over product lists, and the subsequence relation. */
module Lists {
  import opened Catalog

  /** `s.filter(keep)`. */
  function Filter(s: seq<Product>, keep: Product -> bool): seq<Product>
  {
    if s == [] then []
    else if keep(s[0]) then [s[0]] + Filter(s[1..], keep)
    else Filter(s[1..], keep)
  }

  /** `a` is `b` with some elements left out, the rest in their original order. */
  predicate Subseq(a: seq<Product>, b: seq<Product>)
    decreases |b|
  {
    if a == [] then true
    else if b == [] then false
    else (a[0] == b[0] && Subseq(a[1..], b[1..])) || Subseq(a, b[1..])
  }

  lemma {:induction false} SubseqRefl(a: seq<Product>)
    ensures Subseq(a, a)
  {
    if a != [] { SubseqRefl(a[1..]); }
  }

  lemma {:induction false} SubseqTrans(a: seq<Product>, b: seq<Product>, c: seq<Product>)
    requires Subseq(a, b) && Subseq(b, c)
    ensures Subseq(a, c)
    decreases |c|
  {
    if a != [] {
      if Subseq(b, c[1..]) {
        SubseqTrans(a, b, c[1..]);
      } else if a[0] == b[0] && Subseq(a[1..], b[1..]) {
        SubseqTrans(a[1..], b[1..], c[1..]);
      } else {
        SubseqTrans(a, b[1..], c[1..]);
      }
    }
  }

  /**
   * The filter keeps the elements that pass, each as often as it occurs in the
   * input and in the input's order, and nothing else.
   */
  lemma {:induction false} FilterSpec(s: seq<Product>, keep: Product -> bool)
    ensures forall x :: multiset(Filter(s, keep))[x] == if keep(x) then multiset(s)[x] else 0
    ensures forall i :: 0 <= i < |Filter(s, keep)| ==> keep(Filter(s, keep)[i])
    ensures Subseq(Filter(s, keep), s)
  {
    if s != [] {
      FilterSpec(s[1..], keep);
      assert s == [s[0]] + s[1..];
      var f := Filter(s[1..], keep);
      if keep(s[0]) {
        forall i | 0 <= i < |[s[0]] + f| ensures keep(([s[0]] + f)[i]) {
          if i > 0 { assert ([s[0]] + f)[i] == f[i - 1]; }
        }
        assert ([s[0]] + f)[1..] == f;
      } else {
        if f != [] {
          assert Subseq(f, s[1..]);
        }
      }
    }
  }

  /** `s.slice(from, to)` for non-negative bounds: both are clamped to the length. */
  function Slice(s: seq<Product>, from: nat, to: nat): seq<Product>
  {
    var hi := Min(to, |s|);
    var lo := Min(from, hi);
    s[lo..hi]
  }
}
