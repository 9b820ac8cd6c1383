/** Python's `sep.join(parts)`, used for the batch body (`','.join(...)`)
    and for dotted method names (`'%s.%s'`). */
module Strings {

  /** `sep.join(xs)`: the parts in order, one `sep` between neighbours. */
  function Join(sep: string, xs: seq<string>): string {
    if |xs| == 0 then ""
    else if |xs| == 1 then xs[0]
    else Join(sep, xs[..|xs| - 1]) + sep + xs[|xs| - 1]
  }

  /** Where part `k` starts in `Join(sep, xs)`: every earlier part and the
      separator after it come first. */
  function Offset(sep: string, xs: seq<string>, k: nat): nat
    requires k <= |xs|
  {
    if k == 0 then 0 else Offset(sep, xs, k - 1) + |xs[k - 1]| + |sep|
  }

  lemma {:induction false} OffsetPrefix(sep: string, xs: seq<string>, m: nat, k: nat)
    requires k <= m <= |xs|
    ensures Offset(sep, xs[..m], k) == Offset(sep, xs, k)
  {
    if k > 0 {
      OffsetPrefix(sep, xs, m, k - 1);
      assert xs[..m][k - 1] == xs[k - 1];
    }
  }

  /** The joined text is as long as all parts and the separators between them. */
  lemma {:induction false} JoinLength(sep: string, xs: seq<string>)
    requires |xs| > 0
    ensures |Join(sep, xs)| + |sep| == Offset(sep, xs, |xs|)
  {
    var n := |xs|;
    if n > 1 {
      JoinLength(sep, xs[..n - 1]);
      OffsetPrefix(sep, xs, n - 1, n - 1);
    }
  }

  /** A slice that ends within `a` is the same in `a + b`. */
  lemma SliceOfPrefix(a: string, b: string, i: nat, l: nat)
    requires i <= l <= |a|
    ensures (a + b)[i..l] == a[i..l]
  {
  }

  /** The joined text of all parts extends that of all but the last. */
  lemma JoinLast(sep: string, xs: seq<string>)
    requires |xs| > 1
    ensures Join(sep, xs) == Join(sep, xs[..|xs| - 1]) + (sep + xs[|xs| - 1])
    ensures |Join(sep, xs[..|xs| - 1])| + |sep| == Offset(sep, xs, |xs| - 1)
  {
    JoinLength(sep, xs[..|xs| - 1]);
    OffsetPrefix(sep, xs, |xs| - 1, |xs| - 1);
  }

  /** Part `k` of `Join(sep, xs)` is found at `Offset(k)`. */
  lemma {:induction false} JoinPart(sep: string, xs: seq<string>, k: nat)
    requires k < |xs|
    ensures Offset(sep, xs, k) + |xs[k]| <= |Join(sep, xs)|
    ensures Join(sep, xs)[Offset(sep, xs, k)..Offset(sep, xs, k) + |xs[k]|] == xs[k]
  {
    var n := |xs|;
    if n > 1 {
      var init := xs[..n - 1];
      var j := Join(sep, init);
      JoinLast(sep, xs);
      if k < n - 1 {
        JoinPart(sep, init, k);
        OffsetPrefix(sep, xs, n - 1, k);
        assert init[k] == xs[k];
        var o := Offset(sep, xs, k);
        SliceOfPrefix(j, sep + xs[n - 1], o, o + |xs[k]|);
      }
    }
  }

  /** Between part `k` and part `k + 1` of `Join(sep, xs)` stands `sep`. */
  lemma {:induction false} JoinSeparator(sep: string, xs: seq<string>, k: nat)
    requires k + 1 < |xs|
    ensures Offset(sep, xs, k + 1) <= |Join(sep, xs)|
    ensures Join(sep, xs)[Offset(sep, xs, k) + |xs[k]|..Offset(sep, xs, k + 1)] == sep
  {
    var n := |xs|;
    var init := xs[..n - 1];
    var j := Join(sep, init);
    JoinLast(sep, xs);
    if k + 1 < n - 1 {
      JoinSeparator(sep, init, k);
      OffsetPrefix(sep, xs, n - 1, k);
      OffsetPrefix(sep, xs, n - 1, k + 1);
      assert init[k] == xs[k];
      JoinLength(sep, init);
      SliceOfPrefix(j, sep + xs[n - 1], Offset(sep, xs, k) + |xs[k]|, Offset(sep, xs, k + 1));
    } else {
      assert Offset(sep, xs, k) + |xs[k]| == |j|;
    }
  }

  /** `Join` keeps every part, in order: part `k` is found at `Offset(k)`,
      followed by a separator unless it is the last part. */
  lemma JoinSegment(sep: string, xs: seq<string>, k: nat)
    requires k < |xs|
    ensures Offset(sep, xs, k) + |xs[k]| <= |Join(sep, xs)|
    ensures Join(sep, xs)[Offset(sep, xs, k)..Offset(sep, xs, k) + |xs[k]|] == xs[k]
    ensures k + 1 < |xs| ==> Offset(sep, xs, k + 1) <= |Join(sep, xs)|
    ensures k + 1 < |xs| ==>
              Join(sep, xs)[Offset(sep, xs, k) + |xs[k]|..Offset(sep, xs, k + 1)] == sep
  {
    JoinPart(sep, xs, k);
    if k + 1 < |xs| {
      JoinSeparator(sep, xs, k);
    }
  }
}
