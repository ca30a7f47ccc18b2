// Production rates: a base rate per size, and for every capability row a
// rate of that base plus a noise draw, rounded to a whole number.

module Rates {
  import opened Tables
  import opened Seqs
  import opened Capabilities

  const BaseRateLow: real := 1500000.0
  const BaseRateHigh: real := 3000000.0
  const NoiseLow: real := 200000.0
  const NoiseHigh: real := 700000.0

  /**
   * Rounding to the nearest integer, a tie going to the even neighbour, as
   * the language's built-in round to zero decimals does.
   */
  function RoundHalfEven(x: real): int {
    var f := x.Floor;
    var frac := x - f as real;
    if frac < 0.5 then f
    else if frac > 0.5 then f + 1
    else if f % 2 == 0 then f
    else f + 1
  }

  /** The result is a nearest integer, and an even one when two are equally near. */
  lemma RoundNearest(x: real)
    ensures x - 0.5 <= RoundHalfEven(x) as real <= x + 0.5
    ensures x - 0.5 < RoundHalfEven(x) as real < x + 0.5 || RoundHalfEven(x) % 2 == 0
  {
  }

  /** Rounding never decreases a larger input's result. */
  lemma RoundMonotone(x: real, y: real)
    requires x <= y
    ensures RoundHalfEven(x) <= RoundHalfEven(y)
  {
  }

  /** Shifting the input by an even integer shifts the result by the same amount. */
  lemma RoundShiftEven(x: real, k: int)
    requires k % 2 == 0
    ensures RoundHalfEven(x + k as real) == RoundHalfEven(x) + k
  {
    var f := x.Floor;
    assert (x + k as real).Floor == f + k;
    assert (f + k) % 2 == f % 2;
  }

  /** The base rate of each size: the last draw made for it. */
  function BaseRateMap(sizes: seq<Size>, draws: seq<real>): (m: map<Size, real>)
    requires |draws| == |sizes|
    ensures m.Keys == set s | s in sizes
  {
    if sizes == [] then map[]
    else
      var n := |sizes| - 1;
      BaseRateMap(sizes[..n], draws[..n])[sizes[n] := draws[n]]
  }

  /** With distinct sizes, each size's base rate is its own draw. */
  lemma {:induction false} BaseRateOfSize(sizes: seq<Size>, draws: seq<real>, i: nat)
    requires |draws| == |sizes| && NoDup(sizes)
    requires i < |sizes|
    ensures BaseRateMap(sizes, draws)[sizes[i]] == draws[i]
  {
    var n := |sizes| - 1;
    if i < n {
      assert sizes[..n][i] == sizes[i];
      BaseRateOfSize(sizes[..n], draws[..n], i);
    }
  }

  /** Every base rate is one of the draws, so it lies in the drawn range. */
  lemma {:induction false} BaseRateInRange(sizes: seq<Size>, draws: seq<real>, s: Size)
    requires |draws| == |sizes|
    requires forall i :: 0 <= i < |draws| ==> BaseRateLow <= draws[i] <= BaseRateHigh
    requires s in sizes
    ensures BaseRateLow <= BaseRateMap(sizes, draws)[s] <= BaseRateHigh
  {
    var n := |sizes| - 1;
    if sizes[n] != s {
      BaseRateInRange(sizes[..n], draws[..n], s);
    }
  }

  /** Draws the base rate of every size, size by size. */
  method BaseRates(sizes: seq<Size>, draws: seq<real>) returns (base: map<Size, real>)
    requires |draws| == |sizes|
    ensures base == BaseRateMap(sizes, draws)
  {
    base := map[];
    for i := 0 to |sizes|
      invariant base == BaseRateMap(sizes[..i], draws[..i])
    {
      base := base[sizes[i] := draws[i]];
      assert sizes[..i + 1][..i] == sizes[..i];
      assert draws[..i + 1][..i] == draws[..i];
    }
    assert sizes[..|sizes|] == sizes;
    assert draws[..|draws|] == draws;
  }

  /** The rate row of capability row `c`: same line, period and size, and the rounded base rate plus noise. */
  function RateRow(c: Capability, base: map<Size, real>, noise: real): Rate
    requires c.size in base
  {
    Rate(c.line, c.period, c.size, RoundHalfEven(base[c.size] + noise))
  }

  predicate SizesKnown(capabilities: seq<Capability>, base: map<Size, real>) {
    forall i :: 0 <= i < |capabilities| ==> capabilities[i].size in base
  }

  /** One rate row per capability row, in the same order. */
  function RateRows(capabilities: seq<Capability>, base: map<Size, real>, noise: seq<real>): (rates: seq<Rate>)
    requires SizesKnown(capabilities, base) && |noise| == |capabilities|
    ensures |rates| == |capabilities|
  {
    if capabilities == [] then []
    else
      var n := |capabilities| - 1;
      RateRows(capabilities[..n], base, noise[..n]) + [RateRow(capabilities[n], base, noise[n])]
  }

  /** Rate row i copies capability row i's line, period and size. */
  lemma {:induction false} RateRowAt(capabilities: seq<Capability>, base: map<Size, real>, noise: seq<real>, i: nat)
    requires SizesKnown(capabilities, base) && |noise| == |capabilities|
    requires i < |capabilities|
    ensures RateRows(capabilities, base, noise)[i] == RateRow(capabilities[i], base, noise[i])
  {
    var n := |capabilities| - 1;
    if i < n {
      RateRowAt(capabilities[..n], base, noise[..n], i);
    }
  }

  /**
   * Emits one rate row per capability row, in the same order and with the
   * same line, period and size, its rate the rounded sum of the size's base
   * rate and the row's noise draw.  The product table must not be empty and
   * every capability size must be a product size: both are looked up by key.
   */
  method GenProdCapacity(capabilities: seq<Capability>, products: seq<Product>, baseDraws: seq<real>, noise: seq<real>)
    returns (rates: seq<Rate>)
    requires |products| > 0
    requires |baseDraws| == |Sizes(products)|
    requires forall i :: 0 <= i < |baseDraws| ==> BaseRateLow <= baseDraws[i] <= BaseRateHigh
    requires |noise| == |capabilities|
    requires forall i :: 0 <= i < |noise| ==> NoiseLow <= noise[i] <= NoiseHigh
    requires forall i :: 0 <= i < |capabilities| ==> capabilities[i].size in Sizes(products)
    ensures SizesKnown(capabilities, BaseRateMap(Sizes(products), baseDraws))
    ensures rates == RateRows(capabilities, BaseRateMap(Sizes(products), baseDraws), noise)
  {
    var sizes := Sizes(products);
    var base := BaseRates(sizes, baseDraws);
    assert SizesKnown(capabilities, base);
    rates := [];
    for i := 0 to |capabilities|
      invariant rates == RateRows(capabilities[..i], base, noise[..i])
    {
      rates := rates + [RateRow(capabilities[i], base, noise[i])];
      assert capabilities[..i + 1][..i] == capabilities[..i];
      assert noise[..i + 1][..i] == noise[..i];
    }
    assert capabilities[..|capabilities|] == capabilities;
    assert noise[..|noise|] == noise;
  }

  /** Every rate lies between 1.7 and 3.7 million. */
  lemma RateInRange(sizes: seq<Size>, baseDraws: seq<real>, s: Size, noise: real)
    requires |baseDraws| == |sizes|
    requires forall i :: 0 <= i < |baseDraws| ==> BaseRateLow <= baseDraws[i] <= BaseRateHigh
    requires s in sizes
    requires NoiseLow <= noise <= NoiseHigh
    ensures 1700000 <= RoundHalfEven(BaseRateMap(sizes, baseDraws)[s] + noise) <= 3700000
  {
    BaseRateInRange(sizes, baseDraws, s);
    var x := BaseRateMap(sizes, baseDraws)[s] + noise;
    RoundMonotone(1700000.0, x);
    RoundMonotone(x, 3700000.0);
  }

  /**
   * Two rows of the same size share the base rate, so their rates differ by
   * at most the width of the noise range.
   */
  lemma SameSizeRatesClose(base: real, noise1: real, noise2: real)
    requires NoiseLow <= noise1 <= NoiseHigh && NoiseLow <= noise2 <= NoiseHigh
    ensures RoundHalfEven(base + noise2) - RoundHalfEven(base + noise1) <= 500000
  {
    var x1, x2 := base + noise1, base + noise2;
    var y := x1 + 500000.0;
    assert x2 <= y;
    RoundMonotone(x2, y);
    assert x1 + 500000 as real == y;
    RoundShiftEven(x1, 500000);
  }
}
