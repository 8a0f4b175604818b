/**
 * grouper(iterable, n, fillvalue): zip_longest over n references to one iterator, which
 * cuts the input into consecutive n-tuples and pads the last one with the fill value.
 * With n = 0 zip_longest has no argument and yields nothing.
 */
module Grouping {

  /** k copies of x. */
  function Fill<T>(x: T, k: nat): (r: seq<T>)
    ensures |r| == k && forall i :: 0 <= i < k ==> r[i] == x
  {
    seq(k, _ => x)
  }

  function Flatten<T>(xss: seq<seq<T>>): seq<T> {
    if xss == [] then [] else xss[0] + Flatten(xss[1..])
  }

  /** The tuples grouper yields, in order; there are ceil(|xs| / n) of them, each of length n. */
  function Grouper<T>(xs: seq<T>, n: nat, fill: T): (r: seq<seq<T>>)
    ensures n == 0 ==> r == []
    ensures n > 0 ==> |r| == (|xs| + n - 1) / n
    ensures forall i :: 0 <= i < |r| ==> |r[i]| == n
    decreases |xs|
  {
    if n == 0 || xs == [] then []
    else if |xs| >= n then
      DivStep(|xs| - n, n);
      [xs[..n]] + Grouper(xs[n..], n, fill)
    else
      DivUnique(|xs| + n - 1, n, 1, |xs| - 1);
      [xs + Fill(fill, n - |xs|)]
  }

  lemma DivStep(a: nat, n: nat)
    requires n > 0
    ensures (a + n + n - 1) / n == (a + n - 1) / n + 1
  {
    var x := a + n - 1;
    var q, r := x / n, x % n;
    assert x + n == (q + 1) * n + r;
    DivUnique(x + n, n, q + 1, r);
  }

  lemma DivUnique(x: int, n: int, q: int, r: int)
    requires n > 0 && 0 <= r < n && x == q * n + r
    ensures x / n == q
  {
    var q', r' := x / n, x % n;
    assert (q - q') * n == r' - r;
    MulSign(q - q', n);
  }

  lemma MulSign(d: int, n: int)
    requires n > 0
    ensures d >= 1 ==> d * n >= n
    ensures d <= -1 ==> d * n <= -n
  {
  }

  lemma MulSucc(n: nat, k: nat)
    ensures n * (1 + k) == n + n * k
  {
  }

  /**
   * Joined back together, the tuples are the input followed by exactly
   * n * ceil(|xs| / n) - |xs| copies of the fill value, fewer than n of them.
   */
  lemma {:induction false} GrouperFlatten<T>(xs: seq<T>, n: nat, fill: T)
    requires n > 0
    ensures var pad := n * |Grouper(xs, n, fill)| - |xs|;
            && 0 <= pad < n
            && Flatten(Grouper(xs, n, fill)) == xs + Fill(fill, pad)
    decreases |xs|
  {
    var r := Grouper(xs, n, fill);
    if xs == [] {
    } else if |xs| >= n {
      GrouperFlatten(xs[n..], n, fill);
      var rest := Grouper(xs[n..], n, fill);
      assert r == [xs[..n]] + rest;
      assert |r| == 1 + |rest|;
      MulSucc(n, |rest|);
      assert Flatten(r) == xs[..n] + Flatten(rest);
      assert xs == xs[..n] + xs[n..];
    } else {
      assert r == [xs + Fill(fill, n - |xs|)];
      assert Flatten(r) == r[0] + Flatten([]);
    }
  }

  /** Each tuple at position i holds the elements i*n .. i*n+n-1 of the input, padded at the end. */
  lemma {:induction false} GrouperAt<T>(xs: seq<T>, n: nat, fill: T, i: nat, j: nat)
    requires n > 0 && i < |Grouper(xs, n, fill)| && j < n
    ensures Grouper(xs, n, fill)[i][j] == if i * n + j < |xs| then xs[i * n + j] else fill
    decreases |xs|
  {
    if i > 0 {
      GrouperAt(xs[n..], n, fill, i - 1, j);
      assert (i - 1) * n + j + n == i * n + j;
    }
  }
}
