// The route graph: which origin -> destination rows the route generator
// emits, in which order, and how often each pair occurs.

module RouteGraph {
  import opened Tables
  import opened Seqs

  /** The great-circle distance is a parameter of the model. */
  type Distance = (Coord, Coord) -> real

  /** For every centre, in table order: plant -> centre, then centre -> plant. */
  function DcLinks(plant: Plant, dcs: seq<DistCenter>, dist: Distance): seq<Route> {
    if dcs == [] then []
    else
      var d := dcs[|dcs| - 1];
      DcLinks(plant, dcs[..|dcs| - 1], dist)
        + [Route(plant.name, d.name, dist(plant.loc, d.loc)), Route(d.name, plant.name, dist(d.loc, plant.loc))]
  }

  /** plant -> q for every plant q of the table whose name differs from the plant's. */
  function Transfers(plant: Plant, plants: seq<Plant>, dist: Distance): seq<Route> {
    if plants == [] then []
    else
      var q := plants[|plants| - 1];
      Transfers(plant, plants[..|plants| - 1], dist)
        + (if q.name != plant.name then [Route(plant.name, q.name, dist(plant.loc, q.loc))] else [])
  }

  /** The centres whose `plant` field is `owner`, in table order. */
  function OwnedBy(dcs: seq<DistCenter>, owner: Name): seq<DistCenter> {
    if dcs == [] then []
    else
      var d := dcs[|dcs| - 1];
      OwnedBy(dcs[..|dcs| - 1], owner) + (if d.plant == owner then [d] else [])
  }

  /** centre -> customer for every centre of `owned`. */
  function DcToCustomer(owned: seq<DistCenter>, customer: Customer, dist: Distance): seq<Route> {
    if owned == [] then []
    else
      var d := owned[|owned| - 1];
      DcToCustomer(owned[..|owned| - 1], customer, dist) + [Route(d.name, customer.name, dist(d.loc, customer.loc))]
  }

  /** Whether the uniform draw for a (plant, customer) pair connects them. */
  predicate Connects(draw: real) {
    draw <= RoutesRate
  }

  /**
   * For every customer whose draw connects it to the plant: plant -> customer,
   * then owned centre -> customer for every centre the plant owns.
   */
  function CustomerLinks(plant: Plant, dcs: seq<DistCenter>, customers: seq<Customer>, draws: seq<real>, dist: Distance): seq<Route>
    requires |draws| == |customers|
  {
    if customers == [] then []
    else
      var n := |customers| - 1;
      var c := customers[n];
      CustomerLinks(plant, dcs, customers[..n], draws[..n], dist)
        + (if Connects(draws[n])
           then [Route(plant.name, c.name, dist(plant.loc, c.loc))] + DcToCustomer(OwnedBy(dcs, plant.name), c, dist)
           else [])
  }

  /** Everything one plant's iteration emits, in emission order. */
  function PlantRoutes(plant: Plant, plants: seq<Plant>, dcs: seq<DistCenter>, customers: seq<Customer>, draws: seq<real>, dist: Distance): seq<Route>
    requires |draws| == |customers|
  {
    DcLinks(plant, dcs, dist) + Transfers(plant, plants, dist) + CustomerLinks(plant, dcs, customers, draws, dist)
  }

  /** One uniform [0, 1] draw per (plant, customer) pair. */
  predicate ValidRouteDraws(draws: seq<seq<real>>, numPlants: nat, numCustomers: nat) {
    |draws| == numPlants &&
    (forall p :: 0 <= p < numPlants ==> |draws[p]| == numCustomers) &&
    (forall p, c :: 0 <= p < numPlants && 0 <= c < numCustomers ==> 0.0 <= draws[p][c] <= 1.0)
  }

  /** The rows emitted by the first `n` plants' iterations. */
  function RoutesUpTo(n: nat, plants: seq<Plant>, dcs: seq<DistCenter>, customers: seq<Customer>, draws: seq<seq<real>>, dist: Distance): seq<Route>
    requires n <= |plants|
    requires ValidRouteDraws(draws, |plants|, |customers|)
  {
    Concat(PlantBlocks(plants, dcs, customers, draws, dist), n)
  }

  /** Each plant's iteration as one block of the route table. */
  function PlantBlocks(plants: seq<Plant>, dcs: seq<DistCenter>, customers: seq<Customer>, draws: seq<seq<real>>, dist: Distance): (blocks: seq<seq<Route>>)
    requires ValidRouteDraws(draws, |plants|, |customers|)
    ensures |blocks| == |plants|
  {
    seq(|plants|, p requires 0 <= p < |plants| => PlantRoutes(plants[p], plants, dcs, customers, draws[p], dist))
  }

  function AllRoutes(plants: seq<Plant>, dcs: seq<DistCenter>, customers: seq<Customer>, draws: seq<seq<real>>, dist: Distance): seq<Route>
    requires ValidRouteDraws(draws, |plants|, |customers|)
  {
    RoutesUpTo(|plants|, plants, dcs, customers, draws, dist)
  }

  /**
   * Builds the route table plant by plant: links to every centre in both
   * directions, transfers to every other plant, and the customer routes
   * whose draws pass.  `draws[p][c]` is the draw for plants[p], customers[c].
   */
  method GenRoutes(plants: seq<Plant>, dcs: seq<DistCenter>, customers: seq<Customer>, draws: seq<seq<real>>, dist: Distance)
    returns (routes: seq<Route>)
    requires ValidRouteDraws(draws, |plants|, |customers|)
    ensures routes == AllRoutes(plants, dcs, customers, draws, dist)
  {
    routes := [];
    for p := 0 to |plants|
      invariant routes == RoutesUpTo(p, plants, dcs, customers, draws, dist)
    {
      routes := AppendPlantRoutes(routes, plants[p], plants, dcs, customers, draws[p], dist);
      assert PlantBlocks(plants, dcs, customers, draws, dist)[p] == PlantRoutes(plants[p], plants, dcs, customers, draws[p], dist);
    }
  }

  /** One plant's iteration: its centre links, its transfers, then its customer routes. */
  method AppendPlantRoutes(routes: seq<Route>, plant: Plant, plants: seq<Plant>, dcs: seq<DistCenter>, customers: seq<Customer>, draws: seq<real>, dist: Distance)
    returns (out: seq<Route>)
    requires |draws| == |customers|
    ensures out == routes + PlantRoutes(plant, plants, dcs, customers, draws, dist)
  {
    ghost var a, b, c := DcLinks(plant, dcs, dist), Transfers(plant, plants, dist), CustomerLinks(plant, dcs, customers, draws, dist);
    out := AppendDcLinks(routes, plant, dcs, dist);
    out := AppendTransfers(out, plant, plants, dist);
    out := AppendCustomerLinks(out, plant, dcs, customers, draws, dist);
    assert out == routes + a + b + c;
    assert routes + a + b + c == routes + (a + b + c);
  }

  /** The loop over all centres of one plant's iteration. */
  method AppendDcLinks(routes: seq<Route>, plant: Plant, dcs: seq<DistCenter>, dist: Distance) returns (out: seq<Route>)
    ensures out == routes + DcLinks(plant, dcs, dist)
  {
    out := routes;
    for i := 0 to |dcs|
      invariant out == routes + DcLinks(plant, dcs[..i], dist)
    {
      var d := dcs[i];
      out := out + [Route(plant.name, d.name, dist(plant.loc, d.loc))];
      out := out + [Route(d.name, plant.name, dist(d.loc, plant.loc))];
      assert dcs[..i + 1][..i] == dcs[..i];
    }
    assert dcs[..|dcs|] == dcs;
  }

  /** The loop over the other plants of one plant's iteration. */
  method AppendTransfers(routes: seq<Route>, plant: Plant, plants: seq<Plant>, dist: Distance) returns (out: seq<Route>)
    ensures out == routes + Transfers(plant, plants, dist)
  {
    out := routes;
    for q := 0 to |plants|
      invariant out == routes + Transfers(plant, plants[..q], dist)
    {
      var other := plants[q];
      if other.name != plant.name {
        out := out + [Route(plant.name, other.name, dist(plant.loc, other.loc))];
      }
      assert plants[..q + 1][..q] == plants[..q];
    }
    assert plants[..|plants|] == plants;
  }

  /** The loop over the customers of one plant's iteration. */
  method AppendCustomerLinks(routes: seq<Route>, plant: Plant, dcs: seq<DistCenter>, customers: seq<Customer>, draws: seq<real>, dist: Distance)
    returns (out: seq<Route>)
    requires |draws| == |customers|
    ensures out == routes + CustomerLinks(plant, dcs, customers, draws, dist)
  {
    out := routes;
    for c := 0 to |customers|
      invariant out == routes + CustomerLinks(plant, dcs, customers[..c], draws[..c], dist)
    {
      var customer := customers[c];
      ghost var served := out;
      if Connects(draws[c]) {
        out := out + [Route(plant.name, customer.name, dist(plant.loc, customer.loc))];
        var owned := OwnedBy(dcs, plant.name);
        for k := 0 to |owned|
          invariant out == served + [Route(plant.name, customer.name, dist(plant.loc, customer.loc))] + DcToCustomer(owned[..k], customer, dist)
        {
          var d := owned[k];
          out := out + [Route(d.name, customer.name, dist(d.loc, customer.loc))];
          assert owned[..k + 1][..k] == owned[..k];
        }
        assert owned[..|owned|] == owned;
      }
      assert customers[..c + 1][..c] == customers[..c];
      assert draws[..c + 1][..c] == draws[..c];
    }
    assert customers[..|customers|] == customers;
    assert draws[..|draws|] == draws;
  }
}
