// Exactly how many rows the route table holds for each ordered pair of
// names, when the tables passed in are named as the generators name them.

module RoutePairs {
  import opened Tables
  import opened Seqs
  import opened RouteGraph
  import opened RouteCounts

  /**
   * Names are unique within each table and each table's names are of its own
   * kind, as the counter-based naming of the generators guarantees.
   */
  predicate WellNamed(plants: seq<Plant>, dcs: seq<DistCenter>, customers: seq<Customer>) {
    UniquePlantNames(plants) && UniqueDcNames(dcs) && UniqueCustomerNames(customers) &&
    (forall i :: 0 <= i < |plants| ==> plants[i].name.PlantName?) &&
    (forall k :: 0 <= k < |dcs| ==> dcs[k].name.WarehouseName?) &&
    (forall c :: 0 <= c < |customers| ==> customers[c].name.CustomerName?)
  }

  lemma {:induction false} NotAPlant(plants: seq<Plant>, t: Name)
    requires forall i :: 0 <= i < |plants| ==> plants[i].name.PlantName?
    requires !t.PlantName?
    ensures CountKey(plants, PlantNameOf, t) == 0
  {
    CountKeyAbsent(plants, PlantNameOf, t);
  }

  lemma {:induction false} NotACentre(dcs: seq<DistCenter>, t: Name, w: Name)
    requires forall k :: 0 <= k < |dcs| ==> dcs[k].name.WarehouseName?
    requires !t.WarehouseName?
    ensures CountKey(dcs, CentreNameOf, t) == 0
    ensures CountKey(dcs, CentreNameAndOwner, (t, w)) == 0
  {
    CountKeyAbsent(dcs, CentreNameOf, t);
    CountKeyAbsent(dcs, CentreNameAndOwner, (t, w));
  }

  /** A name that no customer carries is served by no row. */
  lemma {:induction false} ServedAbsent(customers: seq<Customer>, draws: seq<real>, t: Name, w: nat)
    requires |draws| == |customers|
    requires forall c :: 0 <= c < |customers| ==> customers[c].name != t
    ensures Served(customers, draws, t, w) == 0
  {
    if customers != [] {
      var n := |customers| - 1;
      ServedAbsent(customers[..n], draws[..n], t, w);
    }
  }

  lemma {:induction false} ServedNothing(customers: seq<Customer>, draws: seq<real>, t: Name)
    requires |draws| == |customers|
    ensures Served(customers, draws, t, 0) == 0
  {
    if customers != [] {
      var n := |customers| - 1;
      ServedNothing(customers[..n], draws[..n], t);
    }
  }

  /** With unique customer names, customer c is served `w` rows exactly when its draw connects. */
  lemma {:induction false} ServedOnce(customers: seq<Customer>, draws: seq<real>, c: nat, w: nat)
    requires |draws| == |customers|
    requires UniqueCustomerNames(customers)
    requires c < |customers|
    ensures Served(customers, draws, customers[c].name, w) == if Connects(draws[c]) then w else 0
  {
    var n := |customers| - 1;
    if c == n {
      ServedAbsent(customers[..n], draws[..n], customers[c].name, w);
    } else {
      ServedOnce(customers[..n], draws[..n], c, w);
    }
  }

  /** With unique centre names, a centre counts once under its own owner and never under another. */
  lemma CentreOwnedOnce(dcs: seq<DistCenter>, k: nat, w: Name)
    requires UniqueDcNames(dcs)
    requires k < |dcs|
    ensures CountKey(dcs, CentreNameAndOwner, (dcs[k].name, w)) == if dcs[k].plant == w then 1 else 0
  {
    if dcs[k].plant == w {
      CountKeyUnique(dcs, CentreNameAndOwner, k);
    } else {
      CountKeyAbsent(dcs, CentreNameAndOwner, (dcs[k].name, w));
    }
  }

  lemma {:induction false} PlantCountedOnce(plants: seq<Plant>, i: nat)
    requires UniquePlantNames(plants)
    requires i < |plants|
    ensures CountKey(plants, PlantNameOf, plants[i].name) == 1
  {
    CountKeyUnique(plants, PlantNameOf, i);
  }

  lemma {:induction false} CentreCountedOnce(dcs: seq<DistCenter>, k: nat)
    requires UniqueDcNames(dcs)
    requires k < |dcs|
    ensures CountKey(dcs, CentreNameOf, dcs[k].name) == 1
  {
    CountKeyUnique(dcs, CentreNameOf, k);
  }

  /**
   * Every plant has exactly one route to every centre and exactly one back,
   * whichever plant owns the centre.
   */
  lemma PlantCentrePairs(plants: seq<Plant>, dcs: seq<DistCenter>, customers: seq<Customer>, draws: seq<seq<real>>, dist: Distance,
                         i: nat, k: nat)
    requires ValidRouteDraws(draws, |plants|, |customers|)
    requires WellNamed(plants, dcs, customers)
    requires i < |plants| && k < |dcs|
    ensures Occurrences(AllRoutes(plants, dcs, customers, draws, dist), plants[i].name, dcs[k].name) == 1
    ensures Occurrences(AllRoutes(plants, dcs, customers, draws, dist), dcs[k].name, plants[i].name) == 1
  {
    var pn, dn := plants[i].name, dcs[k].name;
    CentreCountedOnce(dcs, k);
    NotAPlant(plants, dn);
    forall p | 0 <= p < |plants|
      ensures PlantPairCount(plants[p], plants, dcs, customers, draws[p], pn, dn) == if p == i then 1 else 0
      ensures PlantPairCount(plants[p], plants, dcs, customers, draws[p], dn, pn) == if p == i then 1 else 0
    {
      var w := plants[p].name;
      NotACentre(dcs, pn, w);
      NotACentre(dcs, w, w);
      ServedAbsent(customers, draws[p], dn, (if pn == w then 1 else 0) + CountKey(dcs, CentreNameAndOwner, (pn, w)));
      ServedAbsent(customers, draws[p], pn, (if dn == w then 1 else 0) + CountKey(dcs, CentreNameAndOwner, (dn, w)));
    }
    OccurrencesFromOnePlant(|plants|, plants, dcs, customers, draws, dist, pn, dn, i, 1);
    OccurrencesFromOnePlant(|plants|, plants, dcs, customers, draws, dist, dn, pn, i, 1);
  }

  /** Every ordered pair of distinct plants has exactly one route, and no plant one to itself. */
  lemma PlantPlantPairs(plants: seq<Plant>, dcs: seq<DistCenter>, customers: seq<Customer>, draws: seq<seq<real>>, dist: Distance,
                        i: nat, j: nat)
    requires ValidRouteDraws(draws, |plants|, |customers|)
    requires WellNamed(plants, dcs, customers)
    requires i < |plants| && j < |plants|
    ensures Occurrences(AllRoutes(plants, dcs, customers, draws, dist), plants[i].name, plants[j].name) == if i != j then 1 else 0
  {
    var on, tn := plants[i].name, plants[j].name;
    var v := if i != j then 1 else 0;
    PlantCountedOnce(plants, j);
    forall p | 0 <= p < |plants|
      ensures PlantPairCount(plants[p], plants, dcs, customers, draws[p], on, tn) == if p == i then v else 0
    {
      var w := plants[p].name;
      NotACentre(dcs, on, w);
      NotACentre(dcs, tn, w);
      ServedAbsent(customers, draws[p], tn, (if on == w then 1 else 0) + CountKey(dcs, CentreNameAndOwner, (on, w)));
    }
    OccurrencesFromOnePlant(|plants|, plants, dcs, customers, draws, dist, on, tn, i, v);
  }

  /** A plant has one route to a customer exactly when their draw connects them. */
  lemma PlantCustomerPairs(plants: seq<Plant>, dcs: seq<DistCenter>, customers: seq<Customer>, draws: seq<seq<real>>, dist: Distance,
                           i: nat, c: nat)
    requires ValidRouteDraws(draws, |plants|, |customers|)
    requires WellNamed(plants, dcs, customers)
    requires i < |plants| && c < |customers|
    ensures Occurrences(AllRoutes(plants, dcs, customers, draws, dist), plants[i].name, customers[c].name)
      == if Connects(draws[i][c]) then 1 else 0
  {
    var on, tn := plants[i].name, customers[c].name;
    var v := if Connects(draws[i][c]) then 1 else 0;
    NotAPlant(plants, tn);
    forall p | 0 <= p < |plants|
      ensures PlantPairCount(plants[p], plants, dcs, customers, draws[p], on, tn) == if p == i then v else 0
    {
      var w := plants[p].name;
      NotACentre(dcs, on, w);
      NotACentre(dcs, tn, w);
      if p == i {
        ServedOnce(customers, draws[p], c, 1);
      } else {
        ServedNothing(customers, draws[p], tn);
      }
    }
    OccurrencesFromOnePlant(|plants|, plants, dcs, customers, draws, dist, on, tn, i, v);
  }

  /**
   * A centre has one route to a customer exactly when the draw of the plant
   * that owns it connects that plant to the customer.
   */
  lemma CentreCustomerPairs(plants: seq<Plant>, dcs: seq<DistCenter>, customers: seq<Customer>, draws: seq<seq<real>>, dist: Distance,
                            i: nat, k: nat, c: nat)
    requires ValidRouteDraws(draws, |plants|, |customers|)
    requires WellNamed(plants, dcs, customers)
    requires i < |plants| && k < |dcs| && c < |customers|
    requires dcs[k].plant == plants[i].name
    ensures Occurrences(AllRoutes(plants, dcs, customers, draws, dist), dcs[k].name, customers[c].name)
      == if Connects(draws[i][c]) then 1 else 0
  {
    var on, tn := dcs[k].name, customers[c].name;
    var v := if Connects(draws[i][c]) then 1 else 0;
    NotAPlant(plants, tn);
    forall p | 0 <= p < |plants|
      ensures PlantPairCount(plants[p], plants, dcs, customers, draws[p], on, tn) == if p == i then v else 0
    {
      var w := plants[p].name;
      NotACentre(dcs, tn, w);
      CentreOwnedOnce(dcs, k, w);
      if p == i {
        ServedOnce(customers, draws[p], c, 1);
      } else {
        ServedNothing(customers, draws[p], tn);
      }
    }
    OccurrencesFromOnePlant(|plants|, plants, dcs, customers, draws, dist, on, tn, i, v);
  }

  /**
   * One plant's iteration: two rows per centre, one per other plant, and per
   * connected customer one row plus one per centre the plant owns.
   */
  lemma PlantRoutesLength(plants: seq<Plant>, dcs: seq<DistCenter>, customers: seq<Customer>, draws: seq<seq<real>>, dist: Distance, i: nat)
    requires ValidRouteDraws(draws, |plants|, |customers|)
    requires UniquePlantNames(plants)
    requires i < |plants|
    ensures |DcLinks(plants[i], dcs, dist)| == 2 * |dcs|
    ensures |Transfers(plants[i], plants, dist)| == |plants| - 1
    ensures |PlantRoutes(plants[i], plants, dcs, customers, draws[i], dist)|
      == 2 * |dcs| + (|plants| - 1) + Passes(draws[i], 1 + CountKey(dcs, CentreOwner, plants[i].name))
  {
    DcLinksCount(plants[i], dcs, dist, plants[i].name, plants[i].name);
    TransfersCount(plants[i], plants, dist, plants[i].name, plants[i].name);
    PlantCountedOnce(plants, i);
    CustomerLinksLength(plants[i], dcs, customers, draws[i], dist);
  }

  /** The route's ends are names the tables carry: it leaves a plant or a centre. */
  predicate Known(r: Route, plants: seq<Plant>, dcs: seq<DistCenter>, customers: seq<Customer>) {
    r.origin in PlantNames(plants) + DcNames(dcs) &&
    r.destination in PlantNames(plants) + DcNames(dcs) + CustomerNames(customers)
  }

  lemma {:induction false} DcLinksKnown(plant: Plant, plants: seq<Plant>, dcs: seq<DistCenter>, all: seq<DistCenter>, customers: seq<Customer>, dist: Distance)
    requires plant in plants && plant.name.PlantName?
    requires forall d :: d in dcs ==> d in all && d.name.WarehouseName?
    ensures forall r :: r in DcLinks(plant, dcs, dist) ==> Known(r, plants, all, customers) && r.origin != r.destination
  {
    if dcs != [] {
      DcLinksKnown(plant, plants, dcs[..|dcs| - 1], all, customers, dist);
    }
  }

  lemma {:induction false} TransfersKnown(plant: Plant, others: seq<Plant>, plants: seq<Plant>, dcs: seq<DistCenter>, customers: seq<Customer>, dist: Distance)
    requires plant in plants
    requires forall q :: q in others ==> q in plants
    ensures forall r :: r in Transfers(plant, others, dist) ==> Known(r, plants, dcs, customers) && r.origin != r.destination
  {
    if others != [] {
      TransfersKnown(plant, others[..|others| - 1], plants, dcs, customers, dist);
    }
  }

  lemma {:induction false} DcToCustomerKnown(owned: seq<DistCenter>, customer: Customer, plants: seq<Plant>, dcs: seq<DistCenter>, customers: seq<Customer>, dist: Distance)
    requires customer in customers && customer.name.CustomerName?
    requires forall d :: d in owned ==> d in dcs && d.name.WarehouseName?
    ensures forall r :: r in DcToCustomer(owned, customer, dist) ==> Known(r, plants, dcs, customers) && r.origin != r.destination
  {
    if owned != [] {
      DcToCustomerKnown(owned[..|owned| - 1], customer, plants, dcs, customers, dist);
    }
  }

  lemma {:induction false} CustomerLinksKnown(plant: Plant, plants: seq<Plant>, dcs: seq<DistCenter>, served: seq<Customer>, draws: seq<real>,
                                              customers: seq<Customer>, dist: Distance)
    requires |draws| == |served|
    requires plant in plants && plant.name.PlantName?
    requires forall d :: d in dcs ==> d.name.WarehouseName?
    requires forall c :: c in served ==> c in customers && c.name.CustomerName?
    ensures forall r :: r in CustomerLinks(plant, dcs, served, draws, dist) ==> Known(r, plants, dcs, customers) && r.origin != r.destination
  {
    if served != [] {
      var n := |served| - 1;
      CustomerLinksKnown(plant, plants, dcs, served[..n], draws[..n], customers, dist);
      OwnedByCount(dcs, plant.name, plant.name);
      DcToCustomerKnown(OwnedBy(dcs, plant.name), served[n], plants, dcs, customers, dist);
    }
  }

  lemma {:induction false} RoutesUpToKnown(n: nat, plants: seq<Plant>, dcs: seq<DistCenter>, customers: seq<Customer>, draws: seq<seq<real>>, dist: Distance)
    requires n <= |plants|
    requires ValidRouteDraws(draws, |plants|, |customers|)
    requires WellNamed(plants, dcs, customers)
    ensures forall r :: r in RoutesUpTo(n, plants, dcs, customers, draws, dist) ==> Known(r, plants, dcs, customers) && r.origin != r.destination
  {
    if n > 0 {
      var plant := plants[n - 1];
      var a, b, c := DcLinks(plant, dcs, dist), Transfers(plant, plants, dist), CustomerLinks(plant, dcs, customers, draws[n - 1], dist);
      assert PlantBlocks(plants, dcs, customers, draws, dist)[n - 1] == a + b + c;
      assert RoutesUpTo(n, plants, dcs, customers, draws, dist) == RoutesUpTo(n - 1, plants, dcs, customers, draws, dist) + (a + b + c);
      RoutesUpToKnown(n - 1, plants, dcs, customers, draws, dist);
      DcLinksKnown(plant, plants, dcs, dcs, customers, dist);
      TransfersKnown(plant, plants, plants, dcs, customers, dist);
      CustomerLinksKnown(plant, plants, dcs, customers, draws[n - 1], customers, dist);
    }
  }

  /**
   * Every route of the table leaves a plant or a centre of the tables passed
   * in, reaches a plant, centre or customer of them, and never loops back to
   * where it starts.
   */
  lemma RouteReferences(plants: seq<Plant>, dcs: seq<DistCenter>, customers: seq<Customer>, draws: seq<seq<real>>, dist: Distance)
    requires ValidRouteDraws(draws, |plants|, |customers|)
    requires WellNamed(plants, dcs, customers)
    ensures forall r :: r in AllRoutes(plants, dcs, customers, draws, dist) ==> Known(r, plants, dcs, customers) && r.origin != r.destination
  {
    RoutesUpToKnown(|plants|, plants, dcs, customers, draws, dist);
  }
}
