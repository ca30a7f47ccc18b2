// How often each origin -> destination pair occurs in the route table, and
// which names its rows refer to.

module RouteCounts {
  import opened Tables
  import opened Seqs
  import opened RouteGraph

  function Ends(r: Route): (Name, Name) { (r.origin, r.destination) }

  /** How many rows of `routes` go from `o` to `t`. */
  function Occurrences(routes: seq<Route>, o: Name, t: Name): nat {
    CountKey(routes, Ends, (o, t))
  }

  function CentreNameAndOwner(d: DistCenter): (Name, Name) { (d.name, d.plant) }

  /** `w` rows for every customer named `t` whose draw connects it to the plant. */
  function Served(customers: seq<Customer>, draws: seq<real>, t: Name, w: nat): nat
    requires |draws| == |customers|
  {
    if customers == [] then 0
    else
      var n := |customers| - 1;
      Served(customers[..n], draws[..n], t, w) + (if customers[n].name == t && Connects(draws[n]) then w else 0)
  }

  /** `w` rows for every draw that connects. */
  function Passes(draws: seq<real>, w: nat): nat {
    if draws == [] then 0
    else Passes(draws[..|draws| - 1], w) + (if Connects(draws[|draws| - 1]) then w else 0)
  }

  lemma {:induction false} OccurrencesOfPair(a: Route, b: Route, o: Name, t: Name)
    ensures Occurrences([a, b], o, t) == (if Ends(a) == (o, t) then 1 else 0) + (if Ends(b) == (o, t) then 1 else 0)
  {
    assert [a, b] == [a] + [b];
    CountKeyAppend([a], [b], Ends, (o, t));
    CountKeySingle(a, Ends, (o, t));
    CountKeySingle(b, Ends, (o, t));
  }

  /**
   * The plant-centre part of one plant's iteration has two rows per centre
   * of the table, owned by the plant or not: plant -> centre and back.
   */
  lemma {:induction false} DcLinksCount(plant: Plant, dcs: seq<DistCenter>, dist: Distance, o: Name, t: Name)
    ensures |DcLinks(plant, dcs, dist)| == 2 * |dcs|
    ensures Occurrences(DcLinks(plant, dcs, dist), o, t)
      == (if o == plant.name then CountKey(dcs, CentreNameOf, t) else 0)
       + (if t == plant.name then CountKey(dcs, CentreNameOf, o) else 0)
  {
    if dcs != [] {
      var init, d := dcs[..|dcs| - 1], dcs[|dcs| - 1];
      DcLinksCount(plant, init, dist, o, t);
      var there := Route(plant.name, d.name, dist(plant.loc, d.loc));
      var back := Route(d.name, plant.name, dist(d.loc, plant.loc));
      CountKeyAppend(DcLinks(plant, init, dist), [there, back], Ends, (o, t));
      OccurrencesOfPair(there, back, o, t);
    }
  }

  /**
   * The transfer part of one plant's iteration goes from the plant to every
   * plant of the table with a different name, once per such row.
   */
  lemma {:induction false} TransfersCount(plant: Plant, plants: seq<Plant>, dist: Distance, o: Name, t: Name)
    ensures |Transfers(plant, plants, dist)| + CountKey(plants, PlantNameOf, plant.name) == |plants|
    ensures Occurrences(Transfers(plant, plants, dist), o, t)
      == if o == plant.name && t != plant.name then CountKey(plants, PlantNameOf, t) else 0
  {
    if plants != [] {
      var init, q := plants[..|plants| - 1], plants[|plants| - 1];
      TransfersCount(plant, init, dist, o, t);
      if q.name != plant.name {
        var row := Route(plant.name, q.name, dist(plant.loc, q.loc));
        CountKeyAppend(Transfers(plant, init, dist), [row], Ends, (o, t));
        CountKeySingle(row, Ends, (o, t));
      } else {
        assert Transfers(plant, plants, dist) == Transfers(plant, init, dist);
      }
      assert CountKey(plants, PlantNameOf, t) == CountKey(init, PlantNameOf, t) + (if PlantNameOf(q) == t then 1 else 0);
      assert CountKey(plants, PlantNameOf, plant.name) == CountKey(init, PlantNameOf, plant.name) + (if PlantNameOf(q) == plant.name then 1 else 0);
    }
  }

  /** The selection of a plant's centres keeps exactly the centres it owns, in order. */
  lemma {:induction false} OwnedByCount(dcs: seq<DistCenter>, w: Name, o: Name)
    ensures |OwnedBy(dcs, w)| == CountKey(dcs, CentreOwner, w)
    ensures CountKey(OwnedBy(dcs, w), CentreNameOf, o) == CountKey(dcs, CentreNameAndOwner, (o, w))
    ensures forall d :: d in OwnedBy(dcs, w) ==> d in dcs && d.plant == w
  {
    if dcs != [] {
      var init, d := dcs[..|dcs| - 1], dcs[|dcs| - 1];
      OwnedByCount(init, w, o);
      if d.plant == w {
        CountKeyAppend(OwnedBy(init, w), [d], CentreNameOf, o);
        CountKeySingle(d, CentreNameOf, o);
      } else {
        assert OwnedBy(dcs, w) == OwnedBy(init, w);
      }
      assert CountKey(dcs, CentreOwner, w) == CountKey(init, CentreOwner, w) + (if CentreOwner(d) == w then 1 else 0);
      assert CountKey(dcs, CentreNameAndOwner, (o, w)) == CountKey(init, CentreNameAndOwner, (o, w)) + (if CentreNameAndOwner(d) == (o, w) then 1 else 0);
    }
  }

  lemma {:induction false} DcToCustomerCount(owned: seq<DistCenter>, customer: Customer, dist: Distance, o: Name, t: Name)
    ensures |DcToCustomer(owned, customer, dist)| == |owned|
    ensures Occurrences(DcToCustomer(owned, customer, dist), o, t)
      == if t == customer.name then CountKey(owned, CentreNameOf, o) else 0
  {
    if owned != [] {
      var init, d := owned[..|owned| - 1], owned[|owned| - 1];
      DcToCustomerCount(init, customer, dist, o, t);
      var row := Route(d.name, customer.name, dist(d.loc, customer.loc));
      CountKeyAppend(DcToCustomer(init, customer, dist), [row], Ends, (o, t));
      CountKeySingle(row, Ends, (o, t));
    }
  }

  /**
   * The customer part of one plant's iteration: for each connected customer,
   * one row from the plant and one from each centre the plant owns.
   */
  lemma {:induction false} CustomerLinksLength(plant: Plant, dcs: seq<DistCenter>, customers: seq<Customer>, draws: seq<real>, dist: Distance)
    requires |draws| == |customers|
    ensures |CustomerLinks(plant, dcs, customers, draws, dist)| == Passes(draws, 1 + CountKey(dcs, CentreOwner, plant.name))
  {
    if customers != [] {
      var n := |customers| - 1;
      CustomerLinksLength(plant, dcs, customers[..n], draws[..n], dist);
      assert draws[..n] == draws[..|draws| - 1];
      if Connects(draws[n]) {
        OwnedByCount(dcs, plant.name, plant.name);
        DcToCustomerCount(OwnedBy(dcs, plant.name), customers[n], dist, plant.name, plant.name);
      }
    }
  }

  /** The rows one connected customer adds: the direct one and one per owned centre. */
  lemma {:induction false} ServedCount(plant: Plant, dcs: seq<DistCenter>, c: Customer, dist: Distance, o: Name, t: Name)
    ensures Occurrences([Route(plant.name, c.name, dist(plant.loc, c.loc))] + DcToCustomer(OwnedBy(dcs, plant.name), c, dist), o, t)
      == if t == c.name then (if o == plant.name then 1 else 0) + CountKey(dcs, CentreNameAndOwner, (o, plant.name)) else 0
  {
    var owned := OwnedBy(dcs, plant.name);
    var direct := Route(plant.name, c.name, dist(plant.loc, c.loc));
    OwnedByCount(dcs, plant.name, o);
    DcToCustomerCount(owned, c, dist, o, t);
    CountKeyAppend([direct], DcToCustomer(owned, c, dist), Ends, (o, t));
    CountKeySingle(direct, Ends, (o, t));
  }

  lemma {:induction false} CustomerLinksCount(plant: Plant, dcs: seq<DistCenter>, customers: seq<Customer>, draws: seq<real>, dist: Distance, o: Name, t: Name)
    requires |draws| == |customers|
    ensures Occurrences(CustomerLinks(plant, dcs, customers, draws, dist), o, t)
      == Served(customers, draws, t, (if o == plant.name then 1 else 0) + CountKey(dcs, CentreNameAndOwner, (o, plant.name)))
  {
    if customers != [] {
      var n := |customers| - 1;
      var c := customers[n];
      var prefix := CustomerLinks(plant, dcs, customers[..n], draws[..n], dist);
      CustomerLinksCount(plant, dcs, customers[..n], draws[..n], dist, o, t);
      if Connects(draws[n]) {
        var served := [Route(plant.name, c.name, dist(plant.loc, c.loc))] + DcToCustomer(OwnedBy(dcs, plant.name), c, dist);
        ServedCount(plant, dcs, c, dist, o, t);
        CountKeyAppend(prefix, served, Ends, (o, t));
      } else {
        assert CustomerLinks(plant, dcs, customers, draws, dist) == prefix;
      }
    }
  }

  /** How many rows from `o` to `t` the iteration of `plant` emits. */
  function PlantPairCount(plant: Plant, plants: seq<Plant>, dcs: seq<DistCenter>, customers: seq<Customer>, draws: seq<real>, o: Name, t: Name): nat
    requires |draws| == |customers|
  {
    (if o == plant.name then CountKey(dcs, CentreNameOf, t) else 0)
    + (if t == plant.name then CountKey(dcs, CentreNameOf, o) else 0)
    + (if o == plant.name && t != plant.name then CountKey(plants, PlantNameOf, t) else 0)
    + Served(customers, draws, t, (if o == plant.name then 1 else 0) + CountKey(dcs, CentreNameAndOwner, (o, plant.name)))
  }

  /** The rows from `o` to `t` in one plant's iteration. */
  lemma {:induction false} PlantRoutesCount(plant: Plant, plants: seq<Plant>, dcs: seq<DistCenter>, customers: seq<Customer>, draws: seq<real>, dist: Distance, o: Name, t: Name)
    requires |draws| == |customers|
    ensures Occurrences(PlantRoutes(plant, plants, dcs, customers, draws, dist), o, t)
      == PlantPairCount(plant, plants, dcs, customers, draws, o, t)
  {
    var a, b, c := DcLinks(plant, dcs, dist), Transfers(plant, plants, dist), CustomerLinks(plant, dcs, customers, draws, dist);
    assert Occurrences(a, o, t)
      == (if o == plant.name then CountKey(dcs, CentreNameOf, t) else 0) + (if t == plant.name then CountKey(dcs, CentreNameOf, o) else 0) by {
      DcLinksCount(plant, dcs, dist, o, t);
    }
    assert Occurrences(b, o, t)
      == (if o == plant.name && t != plant.name then CountKey(plants, PlantNameOf, t) else 0) by {
      TransfersCount(plant, plants, dist, o, t);
    }
    CustomerLinksCount(plant, dcs, customers, draws, dist, o, t);
    CountKeyAppend(a + b, c, Ends, (o, t));
    CountKeyAppend(a, b, Ends, (o, t));
  }

  /**
   * When only the iteration of plants[i] emits rows from `o` to `t`, and it
   * emits `v` of them, the whole table holds exactly `v` such rows.
   */
  lemma OccurrencesFromOnePlant(n: nat, plants: seq<Plant>, dcs: seq<DistCenter>, customers: seq<Customer>,
                                draws: seq<seq<real>>, dist: Distance, o: Name, t: Name, i: nat, v: nat)
    requires n <= |plants|
    requires ValidRouteDraws(draws, |plants|, |customers|)
    requires forall p :: 0 <= p < |plants| ==>
      PlantPairCount(plants[p], plants, dcs, customers, draws[p], o, t) == if p == i then v else 0
    ensures Occurrences(RoutesUpTo(n, plants, dcs, customers, draws, dist), o, t) == if i < n then v else 0
  {
    var blocks := PlantBlocks(plants, dcs, customers, draws, dist);
    var counts := BlockKeyCounts(blocks, Ends, (o, t));
    ConcatCount(blocks, n, Ends, (o, t));
    forall p | 0 <= p < |counts|
      ensures counts[p] == if p == i then v else 0
    {
      PlantRoutesCount(plants[p], plants, dcs, customers, draws[p], dist, o, t);
    }
    SumSingle(counts, n, i, v);
  }
}
