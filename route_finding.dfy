// The route generator selects a plant's centres by filtering the centre
// table on its "plant" column.  When no plant received any centre, the
// centre table is built from an empty list and has no columns at all, so the
// filter fails on the missing column as soon as one customer draw passes.

module RouteFinding {
  import opened Tables
  import opened Seqs
  import opened RouteGraph

  /**
   * The selection as written: an empty centre table has no "plant" column and
   * the lookup fails (None); otherwise it keeps the centres the plant owns.
   */
  function SelectOwnedAsWritten(dcs: seq<DistCenter>, owner: Name): Option<seq<DistCenter>>
  {
    if dcs == [] then None else Some(OwnedBy(dcs, owner))
  }

  /** The customer loop of one plant's iteration, failing where the selection fails. */
  function CustomerLinksAsWritten(plant: Plant, dcs: seq<DistCenter>, customers: seq<Customer>, draws: seq<real>, dist: Distance): Option<seq<Route>>
    requires |draws| == |customers|
  {
    if customers == [] then Some([])
    else
      var n := |customers| - 1;
      var c := customers[n];
      match CustomerLinksAsWritten(plant, dcs, customers[..n], draws[..n], dist)
      case None => None
      case Some(prefix) =>
        if !Connects(draws[n]) then Some(prefix)
        else
          match SelectOwnedAsWritten(dcs, plant.name)
          case None => None
          case Some(owned) => Some(prefix + [Route(plant.name, c.name, dist(plant.loc, c.loc))] + DcToCustomer(owned, c, dist))
  }

  /** With at least one centre in the table, the loop as written emits the intended rows. */
  lemma {:induction false} AsWrittenWithCentres(plant: Plant, dcs: seq<DistCenter>, customers: seq<Customer>, draws: seq<real>, dist: Distance)
    requires |draws| == |customers|
    requires dcs != []
    ensures CustomerLinksAsWritten(plant, dcs, customers, draws, dist) == Some(CustomerLinks(plant, dcs, customers, draws, dist))
  {
    if customers != [] {
      var n := |customers| - 1;
      var c := customers[n];
      AsWrittenWithCentres(plant, dcs, customers[..n], draws[..n], dist);
      var prefix := CustomerLinks(plant, dcs, customers[..n], draws[..n], dist);
      if Connects(draws[n]) {
        var direct := [Route(plant.name, c.name, dist(plant.loc, c.loc))];
        var tail := DcToCustomer(OwnedBy(dcs, plant.name), c, dist);
        assert SelectOwnedAsWritten(dcs, plant.name) == Some(OwnedBy(dcs, plant.name));
        assert CustomerLinksAsWritten(plant, dcs, customers, draws, dist) == Some(prefix + direct + tail);
        assert prefix + direct + tail == prefix + (direct + tail);
        assert CustomerLinks(plant, dcs, customers, draws, dist) == prefix + (direct + tail);
      } else {
        assert CustomerLinks(plant, dcs, customers, draws, dist) == prefix;
        assert CustomerLinksAsWritten(plant, dcs, customers, draws, dist) == Some(prefix);
      }
    }
  }

  /**
   * With no centre in the whole table, the loop as written fails exactly when
   * some customer's draw connects it to the plant.
   */
  lemma {:induction false} AsWrittenWithoutCentres(plant: Plant, customers: seq<Customer>, draws: seq<real>, dist: Distance)
    requires |draws| == |customers|
    ensures CustomerLinksAsWritten(plant, [], customers, draws, dist).None? <==> exists c :: 0 <= c < |draws| && Connects(draws[c])
  {
    if customers != [] {
      var n := |customers| - 1;
      AsWrittenWithoutCentres(plant, customers[..n], draws[..n], dist);
      if Connects(draws[n]) {
        assert exists c :: 0 <= c < |draws| && Connects(draws[c]);
      } else if exists c :: 0 <= c < |draws| && Connects(draws[c]) {
        var c :| 0 <= c < |draws| && Connects(draws[c]);
        assert draws[..n][c] == draws[c];
      }
    }
  }

  /**
   * One plant, no centres, one customer whose draw passes: the generator as
   * written fails, while the intended table holds the single plant -> customer
   * route and no centre route.
   */
  lemma SingleCustomerWithoutCentres(dist: Distance)
    ensures CustomerLinksAsWritten(Plant(PlantName(0), Coord(-10.0, -50.0), PlantCapacityLow), [],
                                   [Customer(CustomerName(0), Coord(-20.0, -60.0))], [0.5], dist).None?
    ensures CustomerLinks(Plant(PlantName(0), Coord(-10.0, -50.0), PlantCapacityLow), [],
                          [Customer(CustomerName(0), Coord(-20.0, -60.0))], [0.5], dist)
      == [Route(PlantName(0), CustomerName(0), dist(Coord(-10.0, -50.0), Coord(-20.0, -60.0)))]
  {
    var plant := Plant(PlantName(0), Coord(-10.0, -50.0), PlantCapacityLow);
    var customers := [Customer(CustomerName(0), Coord(-20.0, -60.0))];
    assert customers[..0] == [];
    assert [0.5][..0] == [];
    AsWrittenWithoutCentres(plant, customers, [0.5], dist);
    assert Connects([0.5][0]);
  }
}
