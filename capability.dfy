// Which size each production line can make in each period: one size per
// line, kept from period to period until a 10% draw re-picks it.

module Capabilities {
  import opened Tables
  import opened Seqs

  /** The size column of the product table. */
  function SizeColumn(products: seq<Product>): (col: seq<Size>)
    ensures |col| == |products|
  {
    seq(|products|, i requires 0 <= i < |products| => products[i].size)
  }

  /** The distinct sizes of the product table, in order of first appearance. */
  function Sizes(products: seq<Product>): (sizes: seq<Size>)
    ensures |products| > 0 ==> |sizes| > 0
  {
    var col := SizeColumn(products);
    assert |products| > 0 ==> col[0] in Unique(col);
    Unique(col)
  }

  /**
   * The size list holds each size of the product table exactly once and
   * nothing else.
   */
  lemma SizesOfProducts(products: seq<Product>)
    ensures NoDup(Sizes(products))
    ensures forall i :: 0 <= i < |Sizes(products)| ==> exists j :: 0 <= j < |products| && products[j].size == Sizes(products)[i]
    ensures forall j :: 0 <= j < |products| ==> products[j].size in Sizes(products)
  {
    var col := SizeColumn(products);
    forall i | 0 <= i < |Sizes(products)|
      ensures exists j :: 0 <= j < |products| && products[j].size == Sizes(products)[i]
    {
      var j :| 0 <= j < |col| && col[j] == Sizes(products)[i];
    }
    forall j | 0 <= j < |products|
      ensures products[j].size in Sizes(products)
    {
      assert col[j] == products[j].size;
    }
  }

  /** Probability that a line re-picks its size after a period. */
  const SwitchRate: real := 0.1

  predicate Switches(draw: real) {
    draw <= SwitchRate
  }

  /**
   * The draws for one line: the position in the size list it starts with,
   * and after each period a uniform [0, 1] switch draw and the position it
   * re-picks when the switch draw passes.
   */
  datatype LineDraw = LineDraw(first: nat, switches: seq<real>, choices: seq<nat>)

  predicate ValidLineDraw(d: LineDraw, numSizes: nat, numPeriods: nat) {
    d.first < numSizes && |d.switches| == numPeriods && |d.choices| == numPeriods &&
    (forall t :: 0 <= t < numPeriods ==> 0.0 <= d.switches[t] <= 1.0 && d.choices[t] < numSizes)
  }

  /** The position in the size list the line holds in period t. */
  function SizeIndexAt(d: LineDraw, t: nat): nat
    requires t <= |d.switches| && t <= |d.choices|
  {
    if t == 0 then d.first
    else if Switches(d.switches[t - 1]) then d.choices[t - 1]
    else SizeIndexAt(d, t - 1)
  }

  /** A line only ever holds a size of the list. */
  lemma {:induction false} SizeIndexInRange(d: LineDraw, numSizes: nat, numPeriods: nat, t: nat)
    requires ValidLineDraw(d, numSizes, numPeriods)
    requires t <= numPeriods
    ensures SizeIndexAt(d, t) < numSizes
  {
    if t > 0 && !Switches(d.switches[t - 1]) {
      SizeIndexInRange(d, numSizes, numPeriods, t - 1);
    }
  }

  predicate ValidCapabilityDraws(draws: seq<LineDraw>, numLines: nat, numSizes: nat, numPeriods: nat) {
    |draws| == numLines &&
    forall l :: 0 <= l < numLines ==> ValidLineDraw(draws[l], numSizes, numPeriods)
  }

  /** The rows of one line for its first `n` periods. */
  function LineRows(line: Line, sizes: seq<Size>, periods: seq<Date>, d: LineDraw, n: nat): (rows: seq<Capability>)
    requires ValidLineDraw(d, |sizes|, |periods|)
    requires n <= |periods|
    ensures |rows| == n
  {
    if n == 0 then []
    else
      SizeIndexInRange(d, |sizes|, |periods|, n - 1);
      LineRows(line, sizes, periods, d, n - 1) + [Capability(line.name, periods[n - 1], sizes[SizeIndexAt(d, n - 1)])]
  }

  /** The rows of the first `n` lines, line by line. */
  function CapabilitiesUpTo(lines: seq<Line>, sizes: seq<Size>, periods: seq<Date>, draws: seq<LineDraw>, n: nat): (rows: seq<Capability>)
    requires ValidCapabilityDraws(draws, |lines|, |sizes|, |periods|)
    requires n <= |lines|
  {
    if n == 0 then []
    else CapabilitiesUpTo(lines, sizes, periods, draws, n - 1) + LineRows(lines[n - 1], sizes, periods, draws[n - 1], |periods|)
  }

  function AllCapabilities(lines: seq<Line>, sizes: seq<Size>, periods: seq<Date>, draws: seq<LineDraw>): seq<Capability>
    requires ValidCapabilityDraws(draws, |lines|, |sizes|, |periods|)
  {
    CapabilitiesUpTo(lines, sizes, periods, draws, |lines|)
  }

  /**
   * Builds the capability table line by line.  The product table must not be
   * empty: its size column is looked up by name.
   */
  method GenCapability(lines: seq<Line>, products: seq<Product>, periods: seq<Date>, draws: seq<LineDraw>)
    returns (capabilities: seq<Capability>)
    requires |products| > 0
    requires ValidCapabilityDraws(draws, |lines|, |Sizes(products)|, |periods|)
    ensures capabilities == AllCapabilities(lines, Sizes(products), periods, draws)
  {
    var sizes := Sizes(products);
    capabilities := [];
    for l := 0 to |lines|
      invariant capabilities == CapabilitiesUpTo(lines, sizes, periods, draws, l)
    {
      assert ValidLineDraw(draws[l], |sizes|, |periods|);
      capabilities := AppendLineRows(capabilities, lines[l], sizes, periods, draws[l]);
    }
  }

  /** The loop over the periods of one line, carrying the line's current size. */
  method AppendLineRows(capabilities: seq<Capability>, line: Line, sizes: seq<Size>, periods: seq<Date>, d: LineDraw)
    returns (out: seq<Capability>)
    requires ValidLineDraw(d, |sizes|, |periods|)
    ensures out == capabilities + LineRows(line, sizes, periods, d, |periods|)
  {
    out := capabilities;
    var size := sizes[d.first];
    for t := 0 to |periods|
      invariant out == capabilities + LineRows(line, sizes, periods, d, t)
      invariant SizeIndexAt(d, t) < |sizes| && size == sizes[SizeIndexAt(d, t)]
    {
      out := out + [Capability(line.name, periods[t], size)];
      if Switches(d.switches[t]) {
        size := sizes[d.choices[t]];
      }
    }
  }

  /** Position of line l's row for period t. */
  function CapPos(l: nat, t: nat, numPeriods: nat): nat {
    l * numPeriods + t
  }

  lemma {:induction false} CapabilitiesLength(lines: seq<Line>, sizes: seq<Size>, periods: seq<Date>, draws: seq<LineDraw>, n: nat)
    requires ValidCapabilityDraws(draws, |lines|, |sizes|, |periods|)
    requires n <= |lines|
    ensures |CapabilitiesUpTo(lines, sizes, periods, draws, n)| == n * |periods|
  {
    if n > 0 {
      CapabilitiesLength(lines, sizes, periods, draws, n - 1);
      assert n * |periods| == (n - 1) * |periods| + |periods|;
    }
  }

  /** Block l of n blocks of size p ends before the n blocks do. */
  lemma {:induction false} BlockBefore(l: nat, n: nat, p: nat, t: nat)
    requires l < n && t < p
    ensures CapPos(l, t, p) < n * p
  {
    assert n * p == (n - 1) * p + p;
    if l < n - 1 {
      BlockBefore(l, n - 1, p, t);
    }
  }

  lemma {:induction false} CapabilityAt(lines: seq<Line>, sizes: seq<Size>, periods: seq<Date>, draws: seq<LineDraw>, n: nat, l: nat, t: nat)
    requires ValidCapabilityDraws(draws, |lines|, |sizes|, |periods|)
    requires l < n <= |lines| && t < |periods|
    ensures CapPos(l, t, |periods|) < |CapabilitiesUpTo(lines, sizes, periods, draws, n)|
    ensures SizeIndexAt(draws[l], t) < |sizes|
    ensures CapabilitiesUpTo(lines, sizes, periods, draws, n)[CapPos(l, t, |periods|)]
      == Capability(lines[l].name, periods[t], sizes[SizeIndexAt(draws[l], t)])
  {
    CapabilitiesLength(lines, sizes, periods, draws, n - 1);
    assert ValidLineDraw(draws[l], |sizes|, |periods|);
    if l == n - 1 {
      LineRowAt(lines[l], sizes, periods, draws[l], |periods|, t);
    } else {
      CapabilityAt(lines, sizes, periods, draws, n - 1, l, t);
      BlockBefore(l, n - 1, |periods|, t);
    }
  }

  /**
   * The table holds |lines| * |periods| rows, line-major then in period order:
   * the row of line l for period t sits at l * |periods| + t and carries the
   * size the line holds in that period.
   */
  lemma CapabilityTable(lines: seq<Line>, sizes: seq<Size>, periods: seq<Date>, draws: seq<LineDraw>, l: nat, t: nat)
    requires ValidCapabilityDraws(draws, |lines|, |sizes|, |periods|)
    requires l < |lines| && t < |periods|
    ensures |AllCapabilities(lines, sizes, periods, draws)| == |lines| * |periods|
    ensures CapPos(l, t, |periods|) < |lines| * |periods|
    ensures SizeIndexAt(draws[l], t) < |sizes|
    ensures AllCapabilities(lines, sizes, periods, draws)[CapPos(l, t, |periods|)]
      == Capability(lines[l].name, periods[t], sizes[SizeIndexAt(draws[l], t)])
  {
    CapabilitiesLength(lines, sizes, periods, draws, |lines|);
    CapabilityAt(lines, sizes, periods, draws, |lines|, l, t);
  }

  lemma {:induction false} LineRowAt(line: Line, sizes: seq<Size>, periods: seq<Date>, d: LineDraw, n: nat, t: nat)
    requires ValidLineDraw(d, |sizes|, |periods|)
    requires t < n <= |periods|
    ensures SizeIndexAt(d, t) < |sizes|
    ensures LineRows(line, sizes, periods, d, n)[t] == Capability(line.name, periods[t], sizes[SizeIndexAt(d, t)])
  {
    SizeIndexInRange(d, |sizes|, |periods|, t);
    if t < n - 1 {
      LineRowAt(line, sizes, periods, d, n - 1, t);
    }
  }

  /**
   * A line keeps its size into the next period unless the switch draw after
   * the period passes, in which case it takes the re-picked size.
   */
  lemma StickySize(lines: seq<Line>, sizes: seq<Size>, periods: seq<Date>, draws: seq<LineDraw>, l: nat, t: nat)
    requires ValidCapabilityDraws(draws, |lines|, |sizes|, |periods|)
    requires l < |lines| && t + 1 < |periods|
    ensures CapPos(l, t + 1, |periods|) < |AllCapabilities(lines, sizes, periods, draws)|
    ensures draws[l].choices[t] < |sizes|
    ensures AllCapabilities(lines, sizes, periods, draws)[CapPos(l, t + 1, |periods|)].size
      == if Switches(draws[l].switches[t]) then sizes[draws[l].choices[t]]
         else AllCapabilities(lines, sizes, periods, draws)[CapPos(l, t, |periods|)].size
  {
    CapabilityTable(lines, sizes, periods, draws, l, t);
    CapabilityTable(lines, sizes, periods, draws, l, t + 1);
    assert ValidLineDraw(draws[l], |sizes|, |periods|);
  }

  /** Over a run of periods whose switch draws all fail, the line holds one size. */
  lemma {:induction false} StickyRun(d: LineDraw, s: nat, t: nat)
    requires s <= t <= |d.switches| && t <= |d.choices|
    requires forall u :: s <= u < t ==> !Switches(d.switches[u])
    ensures SizeIndexAt(d, t) == SizeIndexAt(d, s)
  {
    if s < t {
      StickyRun(d, s, t - 1);
    }
  }

  /** Row k of the first `n` lines' rows names one of those lines, a listed size and one of the periods. */
  lemma {:induction false} CapabilityRowListed(lines: seq<Line>, sizes: seq<Size>, periods: seq<Date>, draws: seq<LineDraw>, n: nat, k: nat)
    requires ValidCapabilityDraws(draws, |lines|, |sizes|, |periods|)
    requires n <= |lines|
    requires k < |CapabilitiesUpTo(lines, sizes, periods, draws, n)|
    ensures CapabilitiesUpTo(lines, sizes, periods, draws, n)[k].size in sizes
    ensures CapabilitiesUpTo(lines, sizes, periods, draws, n)[k].period in periods
    ensures exists l :: 0 <= l < n && CapabilitiesUpTo(lines, sizes, periods, draws, n)[k].line == lines[l].name
  {
    var before := CapabilitiesUpTo(lines, sizes, periods, draws, n - 1);
    var all := CapabilitiesUpTo(lines, sizes, periods, draws, n);
    assert ValidLineDraw(draws[n - 1], |sizes|, |periods|);
    var rows := LineRows(lines[n - 1], sizes, periods, draws[n - 1], |periods|);
    assert all == before + rows;
    if k < |before| {
      assert all[k] == before[k];
      CapabilityRowListed(lines, sizes, periods, draws, n - 1, k);
    } else {
      assert all[k] == rows[k - |before|];
      LineRowAt(lines[n - 1], sizes, periods, draws[n - 1], |periods|, k - |before|);
      assert all[k].line == lines[n - 1].name;
    }
  }

  /**
   * Every capability row names one of the lines, one of the periods and a
   * size some product has; so every row's size is a key of the size list the
   * rate generator draws base rates for.
   */
  lemma CapabilityReferences(lines: seq<Line>, products: seq<Product>, periods: seq<Date>, draws: seq<LineDraw>)
    requires |products| > 0
    requires ValidCapabilityDraws(draws, |lines|, |Sizes(products)|, |periods|)
    ensures forall i :: 0 <= i < |AllCapabilities(lines, Sizes(products), periods, draws)| ==>
      var r := AllCapabilities(lines, Sizes(products), periods, draws)[i];
      r.size in Sizes(products) && r.period in periods &&
      (exists l :: 0 <= l < |lines| && r.line == lines[l].name) &&
      (exists j :: 0 <= j < |products| && products[j].size == r.size)
  {
    SizesOfProducts(products);
    forall i | 0 <= i < |AllCapabilities(lines, Sizes(products), periods, draws)|
      ensures AllCapabilities(lines, Sizes(products), periods, draws)[i].size in Sizes(products)
      ensures AllCapabilities(lines, Sizes(products), periods, draws)[i].period in periods
      ensures exists l :: 0 <= l < |lines| && AllCapabilities(lines, Sizes(products), periods, draws)[i].line == lines[l].name
      ensures exists j :: 0 <= j < |products| && products[j].size == AllCapabilities(lines, Sizes(products), periods, draws)[i].size
    {
      var sizes := Sizes(products);
      CapabilityRowListed(lines, sizes, periods, draws, |lines|, i);
      var size := AllCapabilities(lines, sizes, periods, draws)[i].size;
      var s :| 0 <= s < |sizes| && sizes[s] == size;
      var j :| 0 <= j < |products| && products[j].size == sizes[s];
    }
  }
}
