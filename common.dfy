/**
 * Shared vocabulary of both classification services: failure-compatible
 * wrappers for Python's exceptions, the HTTP error a handler raises, the
 * three classification axes, the opaque neural predictor, and the numeric
 * helpers (sum, mean, first-maximum index) that the services use on
 * probability vectors and keyword counts.
 */
module Common {

  datatype Option<+T> = None | Some(value: T)

  /** A value, or the text of the exception that replaced it. */
  datatype Result<+T, +E> = Ok(value: T) | Err(error: E) {
    predicate IsFailure() { Err? }

    function PropagateFailure<U>(): Result<U, E>
      requires Err?
    {
      Err(error)
    }

    function Extract(): T
      requires Ok?
    {
      value
    }
  }

  /** FastAPI's HTTPException: a status code and its detail text. */
  datatype HttpError = HttpError(status: int, detail: string)

  /** The three independent classification axes. */
  datatype Axis = SpamAxis | SentimentAxis | CategoryAxis

  /**
   * The neural network, seen from the decision logic: for an axis and a
   * text, either the softmax probability vector of that axis's model or
   * the text of the exception tokenisation or inference raised.
   */
  type Inference = (Axis, string) -> Result<seq<real>, string>

  function Sum(xs: seq<real>): real
  {
    if xs == [] then 0.0 else Sum(xs[..|xs| - 1]) + xs[|xs| - 1]
  }

  /** Python's `sum(xs) / len(xs)`. */
  function Mean(xs: seq<real>): real
    requires |xs| > 0
  {
    Sum(xs) / (|xs| as real)
  }

  /** Summing a concatenation sums the two parts. */
  lemma {:induction false} SumConcat(a: seq<real>, b: seq<real>)
    ensures Sum(a + b) == Sum(a) + Sum(b)
    decreases |b|
  {
    if b == [] {
      assert a + b == a;
    } else {
      assert (a + b)[..|a + b| - 1] == a + b[..|b| - 1];
      SumConcat(a, b[..|b| - 1]);
    }
  }

  lemma SumSingleton(x: real)
    ensures Sum([x]) == x
  {
    assert [x][..0] == [];
  }

  lemma {:induction false} SumAtLeast(xs: seq<real>, lo: real)
    requires forall i :: 0 <= i < |xs| ==> lo <= xs[i]
    ensures (|xs| as real) * lo <= Sum(xs)
  {
    if xs != [] {
      SumAtLeast(xs[..|xs| - 1], lo);
    }
  }

  lemma {:induction false} SumAtMost(xs: seq<real>, hi: real)
    requires forall i :: 0 <= i < |xs| ==> xs[i] <= hi
    ensures Sum(xs) <= (|xs| as real) * hi
  {
    if xs != [] {
      SumAtMost(xs[..|xs| - 1], hi);
    }
  }

  /** A mean never leaves the interval that holds all its terms. */
  lemma MeanBounds(xs: seq<real>, lo: real, hi: real)
    requires |xs| > 0
    requires forall i :: 0 <= i < |xs| ==> lo <= xs[i] <= hi
    ensures lo <= Mean(xs) <= hi
  {
    SumAtLeast(xs, lo);
    SumAtMost(xs, hi);
    var n := |xs| as real;
    assert n * lo <= Sum(xs) <= n * hi;
    assert lo == (n * lo) / n && hi == (n * hi) / n;
  }

  /** Every term of a sum of non-negative terms is at most the sum. */
  lemma {:induction false} TermAtMostSum(xs: seq<real>, k: nat)
    requires forall i :: 0 <= i < |xs| ==> 0.0 <= xs[i]
    requires k < |xs|
    ensures xs[k] <= Sum(xs)
  {
    var n := |xs| - 1;
    if k < n {
      TermAtMostSum(xs[..n], k);
    } else {
      SumAtLeast(xs[..n], 0.0);
    }
  }

  /**
   * The first index holding the largest element: a left-to-right scan
   * that moves to a later element only when it is strictly larger.
   * This is numpy's and torch's argmax and Python's `max(keys, key=...)`.
   */
  function ArgMax(xs: seq<real>): (k: nat)
    requires |xs| > 0
    ensures k < |xs|
    ensures forall j :: 0 <= j < |xs| ==> xs[j] <= xs[k]
    ensures forall j :: 0 <= j < k ==> xs[j] < xs[k]
  {
    if |xs| == 1 then 0
    else
      var k := ArgMax(xs[..|xs| - 1]);
      if xs[|xs| - 1] > xs[k] then |xs| - 1 else k
  }

  /**
   * The predicted class of a probability vector and its probability
   * (`argmax(probs)` then `probs[pred]`); None where argmax raises, on an
   * empty vector.
   */
  function TopClass(probs: seq<real>): (r: Option<(nat, real)>)
    ensures r.Some? <==> |probs| > 0
    ensures r.Some? ==> r.value.0 < |probs| && r.value.1 == probs[r.value.0]
    ensures r.Some? ==> forall j :: 0 <= j < |probs| ==> probs[j] <= r.value.1
    ensures r.Some? ==> forall j :: 0 <= j < r.value.0 ==> probs[j] < r.value.1
  {
    if |probs| == 0 then None
    else
      var k := ArgMax(probs);
      Some((k, probs[k]))
  }

  ghost predicate IsDistribution(probs: seq<real>)
  {
    (forall i :: 0 <= i < |probs| ==> 0.0 <= probs[i]) && Sum(probs) == 1.0
  }

  /**
   * On a softmax output the reported confidence lies between 1/n (the
   * uniform distribution) and 1.
   */
  lemma TopClassConfidenceBounds(probs: seq<real>)
    requires IsDistribution(probs) && |probs| > 0
    ensures var c := TopClass(probs).value.1;
      1.0 / (|probs| as real) <= c <= 1.0
  {
    var k := ArgMax(probs);
    TermAtMostSum(probs, k);
    SumAtMost(probs, probs[k]);
    var n := |probs| as real;
    var p := probs[k];
    assert 1.0 <= n * p;
    assert n * (1.0 / n) == 1.0;
    if p < 1.0 / n {
      assert n * p < n * (1.0 / n);
    }
  }
}
