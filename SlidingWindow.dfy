/** The fixed-length history of levels kept in `queue`: zero-filled once,
    then shifted by one on every push (`addToQueue`). */
module SlidingWindow {

  /** `n` zero entries, as the fill loop of `setup` appends them. */
  function Zeros(n: nat): seq<real> {
    seq(n, _ => 0.0)
  }

  /** `addToQueue`: append `x`, then remove the first element. The length
      never changes; a non-empty window loses its oldest entry and gains `x`
      as its newest; an empty window stays empty. */
  function Shifted(q: seq<real>, x: real): (r: seq<real>)
    ensures |r| == |q|
    ensures q != [] ==> r == q[1..] + [x] && r[|r| - 1] == x
    ensures q == [] ==> r == []
  {
    (q + [x])[1..]
  }

  /** The window after pushing `xs` onto `q`, one element at a time, in order. */
  function PushAll(q: seq<real>, xs: seq<real>): (r: seq<real>)
    ensures |r| == |q|
    decreases |xs|
  {
    if xs == [] then q
    else Shifted(PushAll(q, xs[..|xs| - 1]), xs[|xs| - 1])
  }

  /** Pushing one more value is one more shift. */
  lemma PushAllSnoc(q: seq<real>, xs: seq<real>, x: real)
    ensures PushAll(q, xs + [x]) == Shifted(PushAll(q, xs), x)
  {
    assert (xs + [x])[..|xs|] == xs;
  }

  /** While no more values have been pushed than the window holds, the window
      is the unevicted tail of its old contents followed by every pushed value
      in push order. */
  lemma {:induction false} PushAllSuffix(q: seq<real>, xs: seq<real>)
    requires |xs| <= |q|
    ensures PushAll(q, xs) == q[|xs|..] + xs
  {
    if xs != [] {
      var init, x := xs[..|xs| - 1], xs[|xs| - 1];
      PushAllSuffix(q, init);
      assert xs == init + [x];
      calc {
        PushAll(q, xs);
        Shifted(q[|init|..] + init, x);
        (q[|init|..] + init)[1..] + [x];
        { assert (q[|init|..] + init)[1..] == q[|xs|..] + init; }
        q[|xs|..] + init + [x];
      }
    }
  }

  /** Once at least as many values have been pushed as the window holds, it
      holds exactly the most recent ones, in push order. */
  lemma {:induction false} PushAllKeepsLatest(q: seq<real>, xs: seq<real>)
    requires |q| <= |xs|
    ensures PushAll(q, xs) == xs[|xs| - |q|..]
  {
    if |xs| == |q| {
      PushAllSuffix(q, xs);
      assert q[|xs|..] == [];
    } else {
      var init, x := xs[..|xs| - 1], xs[|xs| - 1];
      PushAllKeepsLatest(q, init);
      if q != [] {
        assert xs[|xs| - |q|..] == init[|init| - |q|..][1..] + [x];
      }
    }
  }

  /** The FIFO property from the zero-filled state: after `k <= n` pushes onto
      `n` zeros, the first `n - k` entries are still 0 and the last `k` are
      the pushed values in push order. */
  lemma {:induction false} PushAllFromZeros(n: nat, xs: seq<real>)
    requires |xs| <= n
    ensures PushAll(Zeros(n), xs) == Zeros(n - |xs|) + xs
  {
    var z := Zeros(n);
    PushAllSuffix(z, xs);
    assert z[|xs|..] == Zeros(n - |xs|);
  }

  /** After any non-empty run of pushes the newest entry is the last value
      pushed. */
  lemma PushAllNewest(q: seq<real>, xs: seq<real>)
    requires q != [] && xs != []
    ensures PushAll(q, xs)[|q| - 1] == xs[|xs| - 1]
  {
  }
}
