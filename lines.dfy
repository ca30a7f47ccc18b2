// Production lines: every plant owns between two and four of them.

module ProductionLines {
  import opened Tables
  import opened Seqs

  /** Lines per plant: the draw `k` in [1, 3] gives k + 1 lines. */
  function LineCounts(draws: seq<nat>): (counts: seq<nat>)
    ensures |counts| == |draws|
    ensures forall p :: 0 <= p < |draws| ==> counts[p] == draws[p] + 1
  {
    seq(|draws|, p requires 0 <= p < |draws| => draws[p] + 1)
  }

  predicate ValidLineDraws(plants: seq<Plant>, draws: seq<nat>) {
    |draws| == |plants| && forall p :: 0 <= p < |draws| ==> 1 <= draws[p] <= 3
  }

  /** The lines of one plant, "<plant>_1", "<plant>_2", ..., all belonging to it. */
  function PlantLines(plant: Name, n: nat): (lines: seq<Line>)
    ensures |lines| == n
    ensures forall j :: 0 <= j < n ==> lines[j].plant == plant && lines[j].name == LineName(plant, j + 1)
  {
    seq(n, j requires 0 <= j < n => Line(plant, LineName(plant, j + 1)))
  }

  /** The line table of the first `p` plants: each plant's block of draws[q] + 1 lines in plant order. */
  function LinesUpTo(plants: seq<Plant>, draws: seq<nat>, p: nat): seq<Line>
    requires |draws| == |plants| && p <= |plants|
  {
    if p == 0 then []
    else LinesUpTo(plants, draws, p - 1) + PlantLines(plants[p - 1].name, draws[p - 1] + 1)
  }

  function AllLines(plants: seq<Plant>, draws: seq<nat>): seq<Line>
    requires |draws| == |plants|
  {
    LinesUpTo(plants, draws, |plants|)
  }

  /** For each plant in turn, emits draws[p] + 1 lines belonging to that plant. */
  method GenLines(plants: seq<Plant>, draws: seq<nat>) returns (lines: seq<Line>)
    requires ValidLineDraws(plants, draws)
    ensures lines == AllLines(plants, draws)
  {
    lines := [];
    for p := 0 to |plants|
      invariant lines == LinesUpTo(plants, draws, p)
    {
      lines := AppendPlantLines(lines, plants[p], draws[p]);
    }
  }

  /** Appends the `numberOfLines + 1` lines of one plant. */
  method AppendPlantLines(lines: seq<Line>, plant: Plant, numberOfLines: nat) returns (out: seq<Line>)
    ensures out == lines + PlantLines(plant.name, numberOfLines + 1)
  {
    out := lines;
    for idx := 0 to numberOfLines + 1
      invariant out == lines + PlantLines(plant.name, idx)
    {
      out := out + [Line(plant.name, LineName(plant.name, idx + 1))];
    }
  }

  /** The table of the first `p` plants has as many lines as their counts add up to. */
  lemma {:induction false} LinesUpToLength(plants: seq<Plant>, draws: seq<nat>, p: nat)
    requires |draws| == |plants| && p <= |plants|
    ensures |LinesUpTo(plants, draws, p)| == Sum(LineCounts(draws), p)
  {
    if p > 0 {
      LinesUpToLength(plants, draws, p - 1);
    }
  }

  /** Line j of plant q's block sits at Pos(counts, q, j) and is "<plant q>_<j + 1>". */
  lemma {:induction false} LinesUpToAt(plants: seq<Plant>, draws: seq<nat>, p: nat, q: nat, j: nat)
    requires |draws| == |plants| && p <= |plants|
    requires q < p && j <= draws[q]
    ensures Pos(LineCounts(draws), q, j) < |LinesUpTo(plants, draws, p)|
    ensures LinesUpTo(plants, draws, p)[Pos(LineCounts(draws), q, j)]
      == Line(plants[q].name, LineName(plants[q].name, j + 1))
  {
    var counts := LineCounts(draws);
    LinesUpToLength(plants, draws, p - 1);
    if q < p - 1 {
      SumBlockBefore(counts, q, p - 1);
      LinesUpToAt(plants, draws, p - 1, q, j);
    }
  }

  /** Every line belongs to one of the first `p` plants, is named after it, and is numbered 1 to 4. */
  lemma {:induction false} LinesUpToShape(plants: seq<Plant>, draws: seq<nat>, p: nat, k: nat)
    requires ValidLineDraws(plants, draws) && p <= |plants|
    requires k < |LinesUpTo(plants, draws, p)|
    ensures LinesUpTo(plants, draws, p)[k].plant in PlantNames(plants[..p])
    ensures LinesUpTo(plants, draws, p)[k].name.LineName?
    ensures LinesUpTo(plants, draws, p)[k].name.plant == LinesUpTo(plants, draws, p)[k].plant
    ensures 1 <= LinesUpTo(plants, draws, p)[k].name.k <= 4
  {
    var before := LinesUpTo(plants, draws, p - 1);
    assert plants[..p] == plants[..p - 1] + [plants[p - 1]];
    if k < |before| {
      LinesUpToShape(plants, draws, p - 1, k);
    } else {
      assert plants[..p][p - 1] == plants[p - 1];
    }
  }

  /** With distinct plant names no line appears twice. */
  lemma {:induction false} LinesUpToNoDup(plants: seq<Plant>, draws: seq<nat>, p: nat)
    requires ValidLineDraws(plants, draws) && p <= |plants|
    requires UniquePlantNames(plants)
    ensures NoDup(LinesUpTo(plants, draws, p))
  {
    if p > 0 {
      var before := LinesUpTo(plants, draws, p - 1);
      var own := PlantLines(plants[p - 1].name, draws[p - 1] + 1);
      var lines := LinesUpTo(plants, draws, p);
      LinesUpToNoDup(plants, draws, p - 1);
      forall k, m | 0 <= k < m < |lines|
        ensures lines[k] != lines[m]
      {
        if m < |before| {
          assert lines[k] == before[k] && lines[m] == before[m];
        } else if k < |before| {
          assert lines[k] == before[k] && lines[m] == own[m - |before|];
          LinesUpToShape(plants, draws, p - 1, k);
          assert forall q :: 0 <= q < p - 1 ==> plants[q].name != plants[p - 1].name;
          assert forall x :: x in plants[..p - 1] ==> x.name != plants[p - 1].name;
        } else {
          assert lines[k] == own[k - |before|] && lines[m] == own[m - |before|];
        }
      }
    }
  }

  /**
   * The generated line table: one block per plant, in plant order, of
   * draws[p] + 1 lines named "<plant>_1" onwards; every line belongs to a
   * known plant and is numbered 1 to 4; no line repeats when plant names
   * are distinct.
   */
  lemma LineTable(plants: seq<Plant>, draws: seq<nat>)
    requires ValidLineDraws(plants, draws)
    ensures |AllLines(plants, draws)| == Sum(LineCounts(draws), |draws|)
    ensures forall p, j :: 0 <= p < |plants| && 0 <= j <= draws[p] ==>
      Pos(LineCounts(draws), p, j) < |AllLines(plants, draws)| &&
      AllLines(plants, draws)[Pos(LineCounts(draws), p, j)] == Line(plants[p].name, LineName(plants[p].name, j + 1))
    ensures forall k :: 0 <= k < |AllLines(plants, draws)| ==>
      AllLines(plants, draws)[k].plant in PlantNames(plants) &&
      AllLines(plants, draws)[k].name.LineName? &&
      AllLines(plants, draws)[k].name.plant == AllLines(plants, draws)[k].plant &&
      1 <= AllLines(plants, draws)[k].name.k <= 4
    ensures UniquePlantNames(plants) ==> NoDup(AllLines(plants, draws))
  {
    LinesUpToLength(plants, draws, |plants|);
    forall p, j | 0 <= p < |plants| && 0 <= j <= draws[p]
      ensures Pos(LineCounts(draws), p, j) < |AllLines(plants, draws)|
      ensures AllLines(plants, draws)[Pos(LineCounts(draws), p, j)] == Line(plants[p].name, LineName(plants[p].name, j + 1))
    {
      LinesUpToAt(plants, draws, |plants|, p, j);
    }
    forall k | 0 <= k < |AllLines(plants, draws)|
      ensures AllLines(plants, draws)[k].plant in PlantNames(plants)
      ensures AllLines(plants, draws)[k].name.LineName?
      ensures AllLines(plants, draws)[k].name.plant == AllLines(plants, draws)[k].plant
      ensures 1 <= AllLines(plants, draws)[k].name.k <= 4
    {
      LinesUpToShape(plants, draws, |plants|, k);
      assert plants[..|plants|] == plants;
    }
    if UniquePlantNames(plants) {
      LinesUpToNoDup(plants, draws, |plants|);
    }
  }

  /**
   * Every plant of a generated line table owns draws[p] + 1 lines, so
   * between two and four.
   */
  lemma LinesPerPlant(plants: seq<Plant>, draws: seq<nat>, p: nat)
    requires ValidLineDraws(plants, draws)
    requires UniquePlantNames(plants)
    requires p < |plants|
    ensures CountKey(AllLines(plants, draws), LinePlant, plants[p].name) == draws[p] + 1
    ensures 2 <= CountKey(AllLines(plants, draws), LinePlant, plants[p].name) <= 4
  {
    LineTable(plants, draws);
    var keys := seq(|plants|, i requires 0 <= i < |plants| => plants[i].name);
    BlockCount(AllLines(plants, draws), LineCounts(draws), keys, LinePlant, p);
  }
}
