/**
 * The training-set builder of the LSTM model: fixed-length windows over
 * the scaled sales series, each paired with the value that follows it.
 */
module LstmSequences {

  /** The units sold as floating-point values. */
  function AsFloats(unitsSold: seq<int>): (xs: seq<real>)
    ensures |xs| == |unitsSold|
    ensures forall i :: 0 <= i < |xs| ==> xs[i] == unitsSold[i] as real
  {
    seq(|unitsSold|, i requires 0 <= i < |unitsSold| => unitsSold[i] as real)
  }

  /** How many windows a series of length `n` yields: `n - lookBack`, or none. */
  function WindowCount(n: nat, lookBack: nat): nat {
    if n > lookBack then n - lookBack else 0
  }

  /** Window `i`: the `lookBack` values starting at `i`. */
  function Window(scaled: seq<real>, lookBack: nat, i: nat): seq<real>
    requires i + lookBack <= |scaled|
  {
    scaled[i..i + lookBack]
  }

  /**
   * `prepare_sequences`: `scaler` stands for fitting the min-max scaler
   * and transforming the series; it keeps the number of values, and it
   * refuses an empty series, so the caller must supply one value. Window
   * `i` is `scaled[i..i + lookBack]` and target `i` is the value right
   * after it.
   */
  method PrepareSequences(unitsSold: seq<int>, scaler: seq<real> -> seq<real>, lookBack: nat)
    returns (sequences: seq<seq<real>>, targets: seq<real>)
    requires unitsSold != []
    requires |scaler(AsFloats(unitsSold))| == |unitsSold|
    ensures |sequences| == |targets| == WindowCount(|unitsSold|, lookBack)
    ensures forall i :: 0 <= i < |sequences| ==>
      |sequences[i]| == lookBack && sequences[i] == Window(scaler(AsFloats(unitsSold)), lookBack, i)
    ensures forall i :: 0 <= i < |targets| ==> targets[i] == scaler(AsFloats(unitsSold))[i + lookBack]
  {
    var scaled := scaler(AsFloats(unitsSold));
    sequences, targets := [], [];
    var i := 0;
    while i < |scaled| - lookBack
      invariant 0 <= i <= WindowCount(|scaled|, lookBack)
      invariant |sequences| == |targets| == i
      invariant forall k :: 0 <= k < i ==> sequences[k] == scaled[k..k + lookBack]
      invariant forall k :: 0 <= k < i ==> targets[k] == scaled[k + lookBack]
    {
      sequences := sequences + [scaled[i..i + lookBack]];
      targets := targets + [scaled[i + lookBack]];
      i := i + 1;
    }
  }

  /**
   * Consecutive windows overlap: window `i + 1` is window `i` without its
   * first value, followed by target `i`.
   */
  lemma WindowSlides(scaled: seq<real>, lookBack: nat, i: nat)
    requires 1 <= lookBack && i + 1 < WindowCount(|scaled|, lookBack)
    ensures Window(scaled, lookBack, i + 1) == Window(scaled, lookBack, i)[1..] + [scaled[i + lookBack]]
  {
    assert scaled[i + 1..i + 1 + lookBack] == scaled[i + 1..i + lookBack] + [scaled[i + lookBack]];
  }
}
