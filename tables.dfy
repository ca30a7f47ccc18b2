// The rows of the ten tables the generator produces, and the constants it
// draws its ranges from.  Every table is an ordered sequence of these rows.

module Tables {

  /** A calendar day, as a day number; consecutive periods differ by one. */
  type Date = int

  /** A product size label, such as "12oz Sleek". */
  type Size = string

  /**
   * Entity names.  The generator renders them as text ("Plant 0",
   * "Warehouse 1", "Customer 3", "Product 7", "Plant 0_2"); here each name
   * keeps its kind and its counter, so two names are equal exactly when the
   * rendered texts of the generator's own naming scheme are.
   */
  datatype Name =
    | PlantName(idx: nat)
    | WarehouseName(n: nat)
    | CustomerName(idx: nat)
    | ProductName(n: nat)
    | LineName(plant: Name, k: nat)

  datatype Coord = Coord(lat: real, lon: real)

  datatype Plant = Plant(name: Name, loc: Coord, storageCapacity: int)
  datatype DistCenter = DistCenter(name: Name, plant: Name, loc: Coord, storageCapacity: int)
  datatype Customer = Customer(name: Name, loc: Coord)
  datatype Product = Product(size: Size, product: Name)
  datatype Line = Line(plant: Name, name: Name)
  datatype Route = Route(origin: Name, destination: Name, distance: real)
  datatype Demand = Demand(period: Date, customer: Name, productSize: Size, product: Name, demand: int)
  datatype Capability = Capability(line: Name, period: Date, size: Size)
  datatype Rate = Rate(line: Name, period: Date, size: Size, rate: int)

  // Sampling box, roughly South America away from the oceans.
  const LatLow: real := -33.0
  const LatHigh: real := -3.0
  const LonLow: real := -70.0
  const LonHigh: real := -45.0

  const PlantCapacityLow: int := 50000000
  const PlantCapacityHigh: int := 150000000
  const DcCapacityLow: int := 10000000
  const DcCapacityHigh: int := 30000000

  /** Probability that a plant is connected to a given customer. */
  const RoutesRate: real := 0.7

  const DefaultSizes: seq<Size> := ["9.1oz Sleek", "12oz", "12oz Sleek", "16oz", "24oz"]

  predicate InBox(c: Coord) {
    LatLow <= c.lat <= LatHigh && LonLow <= c.lon <= LonHigh
  }

  /** The set of names a table's rows carry. */
  function PlantNames(plants: seq<Plant>): set<Name> {
    set p | p in plants :: p.name
  }

  function DcNames(dcs: seq<DistCenter>): set<Name> {
    set d | d in dcs :: d.name
  }

  function CustomerNames(customers: seq<Customer>): set<Name> {
    set c | c in customers :: c.name
  }

  /** No two rows of the table share a name. */
  predicate UniquePlantNames(plants: seq<Plant>) {
    forall i, j :: 0 <= i < j < |plants| ==> plants[i].name != plants[j].name
  }

  predicate UniqueDcNames(dcs: seq<DistCenter>) {
    forall i, j :: 0 <= i < j < |dcs| ==> dcs[i].name != dcs[j].name
  }

  predicate UniqueCustomerNames(customers: seq<Customer>) {
    forall i, j :: 0 <= i < j < |customers| ==> customers[i].name != customers[j].name
  }

  predicate UniqueProductNames(products: seq<Product>) {
    forall i, j :: 0 <= i < j < |products| ==> products[i].product != products[j].product
  }

  // Columns of the tables, as functions for counting by key.
  function PlantNameOf(p: Plant): Name { p.name }
  function CentreNameOf(d: DistCenter): Name { d.name }
  function CentreOwner(d: DistCenter): Name { d.plant }
  function LinePlant(l: Line): Name { l.plant }
}
