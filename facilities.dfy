// Plants, customers and the distribution centres placed around each plant.

module Facilities {
  import opened Tables
  import opened Seqs

  /**
   * Creates `numberOfPlants` plants named "Plant 0", "Plant 1", ... at the
   * drawn coordinates and with the drawn storage capacities.
   */
  method GenPlants(numberOfPlants: nat, locs: seq<Coord>, capacities: seq<int>) returns (plants: seq<Plant>)
    requires |locs| == numberOfPlants && |capacities| == numberOfPlants
    requires forall i :: 0 <= i < numberOfPlants ==> InBox(locs[i])
    requires forall i :: 0 <= i < numberOfPlants ==> PlantCapacityLow <= capacities[i] <= PlantCapacityHigh
    ensures |plants| == numberOfPlants
    ensures forall i :: 0 <= i < |plants| ==> plants[i] == Plant(PlantName(i), locs[i], capacities[i])
    ensures forall i :: 0 <= i < |plants| ==>
      InBox(plants[i].loc) && PlantCapacityLow <= plants[i].storageCapacity <= PlantCapacityHigh
    ensures UniquePlantNames(plants)
  {
    plants := [];
    for idx := 0 to numberOfPlants
      invariant |plants| == idx
      invariant forall i :: 0 <= i < idx ==> plants[i] == Plant(PlantName(i), locs[i], capacities[i])
    {
      plants := plants + [Plant(PlantName(idx), locs[idx], capacities[idx])];
    }
  }

  /** Creates `numberOfCustomers` customers named "Customer 0", "Customer 1", ... */
  method GenCustomers(numberOfCustomers: nat, locs: seq<Coord>) returns (customers: seq<Customer>)
    requires |locs| == numberOfCustomers
    requires forall i :: 0 <= i < numberOfCustomers ==> InBox(locs[i])
    ensures |customers| == numberOfCustomers
    ensures forall i :: 0 <= i < |customers| ==> customers[i] == Customer(CustomerName(i), locs[i])
    ensures forall i :: 0 <= i < |customers| ==> InBox(customers[i].loc)
    ensures UniqueCustomerNames(customers)
  {
    customers := [];
    for idx := 0 to numberOfCustomers
      invariant |customers| == idx
      invariant forall i :: 0 <= i < idx ==> customers[i] == Customer(CustomerName(i), locs[i])
    {
      customers := customers + [Customer(CustomerName(idx), locs[idx])];
    }
  }

  /** The draws for one distribution centre: a degree offset per axis and a capacity. */
  datatype DcDraw = DcDraw(dLat: real, dLon: real, capacity: int)

  predicate ValidDcDraw(d: DcDraw) {
    -2.0 <= d.dLat <= 2.0 && -2.0 <= d.dLon <= 2.0 && DcCapacityLow <= d.capacity <= DcCapacityHigh
  }

  /**
   * The centre at global position `k` (0-based) of the table, attached to
   * `plant`: it is named by its 1-based position and sits at the plant's
   * coordinates shifted by the drawn degree offsets.
   */
  function CentreRow(k: nat, plant: Plant, d: DcDraw): DistCenter {
    DistCenter(WarehouseName(k + 1), plant.name,
               Coord(plant.loc.lat + d.dLat, plant.loc.lon + d.dLon), d.capacity)
  }

  /**
   * For each plant in turn, attaches `counts[p]` (drawn in [0, 3]) centres to
   * it.  `draws` holds one draw per centre, in the order the centres are
   * created, so the centres of plant p use draws Sum(counts, p) onwards.
   */
  method GenDistCenters(plants: seq<Plant>, counts: seq<nat>, draws: seq<DcDraw>) returns (dcs: seq<DistCenter>)
    requires |counts| == |plants|
    requires forall p :: 0 <= p < |counts| ==> counts[p] <= 3
    requires |draws| == Sum(counts, |counts|)
    requires forall k :: 0 <= k < |draws| ==> ValidDcDraw(draws[k])
    ensures |dcs| == Sum(counts, |counts|)
    ensures forall k :: 0 <= k < |dcs| ==> dcs[k].name == WarehouseName(k + 1)
    ensures forall k :: 0 <= k < |dcs| ==> dcs[k].plant in PlantNames(plants)
    ensures forall k :: 0 <= k < |dcs| ==> DcCapacityLow <= dcs[k].storageCapacity <= DcCapacityHigh
    ensures forall p, j :: 0 <= p < |plants| && 0 <= j < counts[p] ==>
      Pos(counts, p, j) < |dcs| && dcs[Pos(counts, p, j)] == CentreRow(Pos(counts, p, j), plants[p], draws[Pos(counts, p, j)])
    ensures UniqueDcNames(dcs)
  {
    dcs := [];
    for p := 0 to |plants|
      invariant |dcs| == Sum(counts, p) <= |draws|
      invariant forall k :: 0 <= k < |dcs| ==> dcs[k].name == WarehouseName(k + 1)
      invariant forall k :: 0 <= k < |dcs| ==> dcs[k].plant in PlantNames(plants)
      invariant forall k :: 0 <= k < |dcs| ==> dcs[k].storageCapacity == draws[k].capacity
      invariant forall q, j :: 0 <= q < p && 0 <= j < counts[q] ==>
        Pos(counts, q, j) < |dcs| && dcs[Pos(counts, q, j)] == CentreRow(Pos(counts, q, j), plants[q], draws[Pos(counts, q, j)])
    {
      var plant := plants[p];
      assert plant.name in PlantNames(plants);
      SumBlockBefore(counts, p, |counts|);
      for j := 0 to counts[p]
        invariant |dcs| == Pos(counts, p, j) <= |draws|
        invariant forall k :: 0 <= k < |dcs| ==> dcs[k].name == WarehouseName(k + 1)
        invariant forall k :: 0 <= k < |dcs| ==> dcs[k].plant in PlantNames(plants)
        invariant forall k :: 0 <= k < |dcs| ==> dcs[k].storageCapacity == draws[k].capacity
        invariant forall q, i :: 0 <= q < p && 0 <= i < counts[q] ==>
          Pos(counts, q, i) < |dcs| && dcs[Pos(counts, q, i)] == CentreRow(Pos(counts, q, i), plants[q], draws[Pos(counts, q, i)])
        invariant forall i :: 0 <= i < j ==> dcs[Pos(counts, p, i)] == CentreRow(Pos(counts, p, i), plant, draws[Pos(counts, p, i)])
      {
        dcs := dcs + [CentreRow(|dcs|, plant, draws[|dcs|])];
      }
    }
  }

  /** Every plant of a generated table owns exactly counts[p] centres, so at most three. */
  lemma CentresPerPlant(plants: seq<Plant>, counts: seq<nat>, draws: seq<DcDraw>, dcs: seq<DistCenter>, p: nat)
    requires |counts| == |plants|
    requires forall q :: 0 <= q < |counts| ==> counts[q] <= 3
    requires |dcs| == Sum(counts, |counts|)
    requires |draws| == |dcs|
    requires forall q, j :: 0 <= q < |plants| && 0 <= j < counts[q] ==>
      Pos(counts, q, j) < |dcs| && dcs[Pos(counts, q, j)] == CentreRow(Pos(counts, q, j), plants[q], draws[Pos(counts, q, j)])
    requires UniquePlantNames(plants)
    requires p < |plants|
    ensures CountKey(dcs, CentreOwner, plants[p].name) == counts[p] <= 3
  {
    var keys := seq(|plants|, i requires 0 <= i < |plants| => plants[i].name);
    BlockCount(dcs, counts, keys, CentreOwner, p);
  }
}
