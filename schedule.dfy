/** Durations laid back to back. The compositions keep a running counter
    (`let currentFrame = 0; … currentFrame += duration`) and give each entry
    the counter's value before its own duration is added; `Starts` is that
    value as a function of the durations. */
module Schedule {

  /** `xs.reduce((a, b) => a + b, 0)`: the sum of the entries. */
  function Sum(xs: seq<int>): int {
    if |xs| == 0 then 0 else xs[0] + Sum(xs[1..])
  }

  lemma {:induction false} SumAppend(a: seq<int>, b: seq<int>)
    ensures Sum(a + b) == Sum(a) + Sum(b)
    decreases |a|
  {
    if a == [] {
      assert a + b == b;
    } else {
      assert (a + b)[1..] == a[1..] + b;
      SumAppend(a[1..], b);
    }
  }

  /** The running total after one more entry: the step the compositions'
      counters take. */
  lemma SumTake(xs: seq<int>, i: nat)
    requires i < |xs|
    ensures Sum(xs[..i + 1]) == Sum(xs[..i]) + xs[i]
  {
    assert xs[..i + 1] == xs[..i] + [xs[i]];
    SumAppend(xs[..i], [xs[i]]);
  }

  predicate NonNegative(xs: seq<int>) {
    forall i :: 0 <= i < |xs| ==> xs[i] >= 0
  }

  predicate Positive(xs: seq<int>) {
    forall i :: 0 <= i < |xs| ==> xs[i] > 0
  }

  /** Non-negative durations add up to at least each of them. */
  lemma {:induction false} SumBounds(xs: seq<int>, k: nat)
    requires NonNegative(xs) && k < |xs|
    ensures Sum(xs) >= xs[k] >= 0
    decreases |xs|
  {
    if k > 0 {
      SumBounds(xs[1..], k - 1);
    } else {
      SumNonNegative(xs[1..]);
    }
  }

  lemma {:induction false} SumNonNegative(xs: seq<int>)
    requires NonNegative(xs)
    ensures Sum(xs) >= 0
    decreases |xs|
  {
    if xs != [] {
      SumNonNegative(xs[1..]);
    }
  }

  /** The start of each entry: the sum of the durations before it. */
  function Starts(xs: seq<int>): (r: seq<int>)
    ensures |r| == |xs|
  {
    seq(|xs|, i requires 0 <= i < |xs| => Sum(xs[..i]))
  }

  /** Entry `i` is on screen at frame `f`: from its start up to, but not
      including, its start plus its duration. */
  predicate Active(xs: seq<int>, i: int, f: int) {
    0 <= i < |xs| && Starts(xs)[i] <= f < Starts(xs)[i] + xs[i]
  }

  /** Laid out by Starts, the entries tile the timeline: the first starts
      at 0, each starts where the one before it ends, and the last ends at
      the sum of all durations. */
  lemma {:induction false} Tiling(xs: seq<int>)
    ensures |xs| > 0 ==> Starts(xs)[0] == 0
    ensures forall i :: 0 <= i < |xs| - 1 ==> Starts(xs)[i] + xs[i] == Starts(xs)[i + 1]
    ensures |xs| > 0 ==> Starts(xs)[|xs| - 1] + xs[|xs| - 1] == Sum(xs)
  {
    forall i | 0 <= i < |xs| - 1
      ensures Starts(xs)[i] + xs[i] == Starts(xs)[i + 1]
    {
      SumTake(xs, i);
    }
    if |xs| > 0 {
      SumTake(xs, |xs| - 1);
      assert xs[..|xs|] == xs;
    }
  }

  /** The distance between two starts is the sum of the durations between
      them. */
  lemma StartsGap(xs: seq<int>, i: nat, j: nat)
    requires i <= j < |xs|
    ensures Starts(xs)[j] == Starts(xs)[i] + Sum(xs[i..j])
  {
    assert xs[..j] == xs[..i] + xs[i..j];
    SumAppend(xs[..i], xs[i..j]);
  }

  /** Positive durations make the starts strictly increasing. */
  lemma StartsIncrease(xs: seq<int>, i: nat, j: nat)
    requires Positive(xs) && i < j < |xs|
    ensures Starts(xs)[i] + xs[i] <= Starts(xs)[j]
    ensures Starts(xs)[i] < Starts(xs)[j]
  {
    StartsGap(xs, i, j);
    SumBounds(xs[i..j], 0);
  }

  /** With non-negative durations, no two entries are on screen at once. */
  lemma ActiveUnique(xs: seq<int>, i: int, j: int, f: int)
    requires NonNegative(xs) && Active(xs, i, f) && Active(xs, j, f)
    ensures i == j
  {
    if i < j {
      StartsGap(xs, i, j);
      SumBounds(xs[i..j], 0);
    } else if j < i {
      StartsGap(xs, j, i);
      SumBounds(xs[j..i], 0);
    }
  }

  /** With non-negative durations, every frame before the sum of the
      durations has an entry on screen. */
  lemma {:induction false} ActiveExists(xs: seq<int>, f: int)
    requires NonNegative(xs) && 0 <= f < Sum(xs)
    ensures exists i :: Active(xs, i, f)
    decreases |xs|
  {
    var n := |xs| - 1;
    var prefix := xs[..n];
    Tiling(xs);
    if f < Sum(prefix) {
      ActiveExists(prefix, f);
      var i :| Active(prefix, i, f);
      assert xs[..i] == prefix[..i];
      assert Active(xs, i, f);
    } else {
      assert xs[..n] == prefix;
      assert Active(xs, n, f);
    }
  }
}
