// The demand sampler: for every customer, a sample of eligible products;
// for every period, a sample of those with demand; for each of those, a
// whole number of trucks.

module DemandSampler {
  import opened Tables
  import opened Seqs

  /** Every demand is a whole number of trucks of 200000 units, between these counts. */
  const MinTrucks: int := 2
  const MaxTrucks: int := 8

  /**
   * The draws for one period of one customer: positions in the customer's
   * eligible list, drawn without replacement, and a truck count for each.
   */
  datatype PeriodDraw = PeriodDraw(picks: seq<nat>, trucks: seq<int>)

  /** The draws for one customer: positions in the product table, then one PeriodDraw per period. */
  datatype CustomerDraw = CustomerDraw(eligible: seq<nat>, periods: seq<PeriodDraw>)

  /**
   * A sample without replacement of `population` items whose size was drawn
   * between min(population, lo) and min(population, hi).
   */
  predicate ValidSample(picks: seq<nat>, population: nat, lo: nat, hi: nat) {
    NoDup(picks) &&
    (forall j :: 0 <= j < |picks| ==> picks[j] < population) &&
    Min(population, lo) <= |picks| <= Min(population, hi)
  }

  predicate ValidPeriodDraw(d: PeriodDraw, eligible: nat) {
    ValidSample(d.picks, eligible, 1, 3) &&
    |d.trucks| == |d.picks| &&
    (forall j :: 0 <= j < |d.trucks| ==> MinTrucks <= d.trucks[j] <= MaxTrucks)
  }

  predicate ValidCustomerDraw(d: CustomerDraw, numProducts: nat, numPeriods: nat) {
    ValidSample(d.eligible, numProducts, 3, 10) &&
    |d.periods| == numPeriods &&
    (forall t :: 0 <= t < numPeriods ==> ValidPeriodDraw(d.periods[t], |d.eligible|))
  }

  predicate ValidDemandDraws(draws: seq<CustomerDraw>, numCustomers: nat, numProducts: nat, numPeriods: nat) {
    |draws| == numCustomers &&
    (forall c :: 0 <= c < numCustomers ==> ValidCustomerDraw(draws[c], numProducts, numPeriods))
  }

  /**
   * Whatever sizes the bounds ask for, the clamped size never exceeds the
   * population, and a sample of every size the clamp allows exists.
   */
  lemma {:induction false} ClampedSampleExists(population: nat, lo: nat, hi: nat, k: nat)
    requires lo <= hi
    requires Min(population, lo) <= k <= Min(population, hi)
    ensures k <= population
    ensures ValidSample(Range(k), population, lo, hi)
  {
    var r := Range(k);
    forall i, j | 0 <= i < j < |r|
      ensures r[i] != r[j]
    {
    }
  }

  /** The product a pick of period draw `d` denotes. */
  function Picked(products: seq<Product>, eligible: seq<nat>, d: PeriodDraw, j: nat): Product
    requires forall e :: 0 <= e < |eligible| ==> eligible[e] < |products|
    requires forall i :: 0 <= i < |d.picks| ==> d.picks[i] < |eligible|
    requires j < |d.picks|
  {
    products[eligible[d.picks[j]]]
  }

  predicate WellFormedPeriod(products: seq<Product>, eligible: seq<nat>, d: PeriodDraw) {
    (forall e :: 0 <= e < |eligible| ==> eligible[e] < |products|) &&
    (forall i :: 0 <= i < |d.picks| ==> d.picks[i] < |eligible|) &&
    |d.trucks| == |d.picks|
  }

  function Prefix(d: PeriodDraw, n: nat): PeriodDraw
    requires n <= |d.picks| && n <= |d.trucks|
  {
    PeriodDraw(d.picks[..n], d.trucks[..n])
  }

  /** The rows of one customer in one period, one per picked product, in pick order. */
  function PeriodRows(customer: Customer, products: seq<Product>, eligible: seq<nat>, period: Date, d: PeriodDraw): (rows: seq<Demand>)
    requires WellFormedPeriod(products, eligible, d)
    ensures |rows| == |d.picks|
    decreases |d.picks|
  {
    if d.picks == [] then []
    else
      var n := |d.picks| - 1;
      var p := Picked(products, eligible, d, n);
      PeriodRows(customer, products, eligible, period, Prefix(d, n))
        + [Demand(period, customer.name, p.size, p.product, d.trucks[n] * 200000)]
  }

  predicate WellFormedCustomer(products: seq<Product>, periods: seq<Date>, d: CustomerDraw) {
    |d.periods| == |periods| &&
    forall t :: 0 <= t < |periods| ==> WellFormedPeriod(products, d.eligible, d.periods[t])
  }

  /** The rows of one customer for the first `n` periods, period by period. */
  function CustomerRows(customer: Customer, products: seq<Product>, periods: seq<Date>, d: CustomerDraw, n: nat): seq<Demand>
    requires WellFormedCustomer(products, periods, d)
    requires n <= |periods|
  {
    if n == 0 then []
    else CustomerRows(customer, products, periods, d, n - 1) + PeriodRows(customer, products, d.eligible, periods[n - 1], d.periods[n - 1])
  }

  predicate WellFormedDraws(customers: seq<Customer>, products: seq<Product>, periods: seq<Date>, draws: seq<CustomerDraw>) {
    |draws| == |customers| &&
    forall c :: 0 <= c < |customers| ==> WellFormedCustomer(products, periods, draws[c])
  }

  /** Valid draws only pick positions that exist. */
  lemma ValidDrawsWellFormed(customers: seq<Customer>, products: seq<Product>, periods: seq<Date>, draws: seq<CustomerDraw>)
    requires ValidDemandDraws(draws, |customers|, |products|, |periods|)
    ensures WellFormedDraws(customers, products, periods, draws)
  {
    forall c | 0 <= c < |customers|
      ensures WellFormedCustomer(products, periods, draws[c])
    {
      assert ValidCustomerDraw(draws[c], |products|, |periods|);
    }
  }

  /** The rows of the first `n` customers, customer by customer. */
  function DemandUpTo(customers: seq<Customer>, products: seq<Product>, periods: seq<Date>, draws: seq<CustomerDraw>, n: nat): seq<Demand>
    requires WellFormedDraws(customers, products, periods, draws)
    requires n <= |customers|
  {
    if n == 0 then []
    else DemandUpTo(customers, products, periods, draws, n - 1) + CustomerRows(customers[n - 1], products, periods, draws[n - 1], |periods|)
  }

  function AllDemand(customers: seq<Customer>, products: seq<Product>, periods: seq<Date>, draws: seq<CustomerDraw>): seq<Demand>
    requires WellFormedDraws(customers, products, periods, draws)
  {
    DemandUpTo(customers, products, periods, draws, |customers|)
  }

  /**
   * Builds the demand table customer by customer, period by period, pick by
   * pick.  `draws[c]` holds customer c's samples and truck counts.
   */
  method GenDemand(customers: seq<Customer>, products: seq<Product>, periods: seq<Date>, draws: seq<CustomerDraw>)
    returns (demands: seq<Demand>)
    requires WellFormedDraws(customers, products, periods, draws)
    ensures demands == AllDemand(customers, products, periods, draws)
  {
    demands := [];
    for c := 0 to |customers|
      invariant demands == DemandUpTo(customers, products, periods, draws, c)
    {
      assert WellFormedCustomer(products, periods, draws[c]);
      demands := AppendCustomerRows(demands, customers[c], products, periods, draws[c]);
    }
  }

  /** The loop over the periods of one customer. */
  method AppendCustomerRows(demands: seq<Demand>, customer: Customer, products: seq<Product>, periods: seq<Date>, d: CustomerDraw)
    returns (out: seq<Demand>)
    requires WellFormedCustomer(products, periods, d)
    ensures out == demands + CustomerRows(customer, products, periods, d, |periods|)
  {
    out := demands;
    for t := 0 to |periods|
      invariant out == demands + CustomerRows(customer, products, periods, d, t)
    {
      out := AppendPeriodRows(out, customer, products, d.eligible, periods[t], d.periods[t]);
    }
  }

  /** The loop over one period's picks. */
  method AppendPeriodRows(demands: seq<Demand>, customer: Customer, products: seq<Product>, eligible: seq<nat>, period: Date, d: PeriodDraw)
    returns (out: seq<Demand>)
    requires WellFormedPeriod(products, eligible, d)
    ensures out == demands + PeriodRows(customer, products, eligible, period, d)
  {
    out := demands;
    for j := 0 to |d.picks|
      invariant out == demands + PeriodRows(customer, products, eligible, period, Prefix(d, j))
    {
      var product := products[eligible[d.picks[j]]];
      out := out + [Demand(period, customer.name, product.size, product.product, d.trucks[j] * 200000)];
      assert Prefix(Prefix(d, j + 1), j) == Prefix(d, j);
    }
    assert Prefix(d, |d.picks|) == d;
  }

  /** The products a customer's eligible draw selects. */
  function EligibleProducts(products: seq<Product>, eligible: seq<nat>): set<Product>
    requires forall e :: 0 <= e < |eligible| ==> eligible[e] < |products|
  {
    set e | 0 <= e < |eligible| :: products[eligible[e]]
  }

  /** Row j of a period's rows is the j-th picked product with its trucks. */
  lemma {:induction false} PeriodRowAt(customer: Customer, products: seq<Product>, eligible: seq<nat>, period: Date, d: PeriodDraw, j: nat)
    requires WellFormedPeriod(products, eligible, d)
    requires j < |d.picks|
    ensures PeriodRows(customer, products, eligible, period, d)[j]
      == Demand(period, customer.name, Picked(products, eligible, d, j).size, Picked(products, eligible, d, j).product, d.trucks[j] * 200000)
    decreases |d.picks|
  {
    var n := |d.picks| - 1;
    if j < n {
      PeriodRowAt(customer, products, eligible, period, Prefix(d, n), j);
    }
  }

  /**
   * Within one customer's period, no product is demanded twice: the picks are
   * drawn without replacement from an eligible list drawn without replacement.
   */
  lemma DistinctProductsPerPeriod(customer: Customer, products: seq<Product>, eligible: seq<nat>, period: Date, d: PeriodDraw, i: nat, j: nat)
    requires WellFormedPeriod(products, eligible, d)
    requires UniqueProductNames(products) && NoDup(eligible) && NoDup(d.picks)
    requires i < j < |d.picks|
    ensures PeriodRows(customer, products, eligible, period, d)[i].product != PeriodRows(customer, products, eligible, period, d)[j].product
  {
    PeriodRowAt(customer, products, eligible, period, d, i);
    PeriodRowAt(customer, products, eligible, period, d, j);
    var a, b := eligible[d.picks[i]], eligible[d.picks[j]];
    assert a != b;
    if a < b {
      assert products[a].product != products[b].product;
    } else {
      assert products[b].product != products[a].product;
    }
  }

  /** What every demand row of a customer's period promises. */
  predicate PeriodRowOk(r: Demand, customer: Customer, products: seq<Product>, eligible: seq<nat>, period: Date)
    requires forall e :: 0 <= e < |eligible| ==> eligible[e] < |products|
  {
    r.period == period && r.customer == customer.name &&
    Product(r.productSize, r.product) in EligibleProducts(products, eligible) &&
    400000 <= r.demand <= 1600000 && r.demand % 200000 == 0
  }

  lemma PeriodRowOkAt(customer: Customer, products: seq<Product>, eligible: seq<nat>, period: Date, d: PeriodDraw, j: nat)
    requires WellFormedPeriod(products, eligible, d)
    requires forall i :: 0 <= i < |d.trucks| ==> MinTrucks <= d.trucks[i] <= MaxTrucks
    requires j < |d.picks|
    ensures PeriodRowOk(PeriodRows(customer, products, eligible, period, d)[j], customer, products, eligible, period)
  {
    PeriodRowAt(customer, products, eligible, period, d, j);
    var p := Picked(products, eligible, d, j);
    assert p == products[eligible[d.picks[j]]];
    assert p in EligibleProducts(products, eligible);
    assert d.trucks[j] * 200000 % 200000 == 0;
  }

  /** The row was issued by `customer` for one of the products of its eligible draw. */
  predicate IssuedBy(r: Demand, customer: Customer, products: seq<Product>, eligible: seq<nat>) {
    r.customer == customer.name &&
    exists e :: 0 <= e < |eligible| && eligible[e] < |products| && products[eligible[e]] == Product(r.productSize, r.product)
  }

  /** What every row of one customer's block promises. */
  predicate CustomerRowOk(r: Demand, customer: Customer, products: seq<Product>, periods: seq<Date>, eligible: seq<nat>) {
    r.period in periods && IssuedBy(r, customer, products, eligible) &&
    Product(r.productSize, r.product) in products &&
    400000 <= r.demand <= 1600000 && r.demand % 200000 == 0
  }

  /** What every demand row promises: it comes from the block of some customer c. */
  predicate DemandRowOk(r: Demand, customers: seq<Customer>, products: seq<Product>, periods: seq<Date>, draws: seq<CustomerDraw>) {
    exists c :: 0 <= c < |customers| && c < |draws| && CustomerRowOk(r, customers[c], products, periods, draws[c].eligible)
  }

  lemma {:induction false} CustomerRowOkAt(customer: Customer, products: seq<Product>, periods: seq<Date>, d: CustomerDraw, n: nat, k: nat)
    requires ValidCustomerDraw(d, |products|, |periods|)
    requires n <= |periods|
    requires k < |CustomerRows(customer, products, periods, d, n)|
    ensures CustomerRowOk(CustomerRows(customer, products, periods, d, n)[k], customer, products, periods, d.eligible)
  {
    var before := CustomerRows(customer, products, periods, d, n - 1);
    var t := n - 1;
    var rows := PeriodRows(customer, products, d.eligible, periods[t], d.periods[t]);
    var all := CustomerRows(customer, products, periods, d, n);
    assert all == before + rows;
    if k < |before| {
      assert all[k] == before[k];
      CustomerRowOkAt(customer, products, periods, d, n - 1, k);
    } else {
      var r := rows[k - |before|];
      assert all[k] == r;
      assert ValidPeriodDraw(d.periods[t], |d.eligible|);
      PeriodRowOkAt(customer, products, d.eligible, periods[t], d.periods[t], k - |before|);
      var e :| 0 <= e < |d.eligible| && products[d.eligible[e]] == Product(r.productSize, r.product);
    }
  }

  /** Every row of the first `n` customers' rows is a row of the block of one of them. */
  lemma {:induction false} DemandUpToAt(customers: seq<Customer>, products: seq<Product>, periods: seq<Date>, draws: seq<CustomerDraw>, n: nat, k: nat)
      returns (c: nat, j: nat)
    requires WellFormedDraws(customers, products, periods, draws)
    requires n <= |customers|
    requires k < |DemandUpTo(customers, products, periods, draws, n)|
    ensures c < n && j < |CustomerRows(customers[c], products, periods, draws[c], |periods|)|
    ensures DemandUpTo(customers, products, periods, draws, n)[k] == CustomerRows(customers[c], products, periods, draws[c], |periods|)[j]
  {
    var before := DemandUpTo(customers, products, periods, draws, n - 1);
    var rows := CustomerRows(customers[n - 1], products, periods, draws[n - 1], |periods|);
    assert DemandUpTo(customers, products, periods, draws, n) == before + rows;
    if k < |before| {
      c, j := DemandUpToAt(customers, products, periods, draws, n - 1, k);
    } else {
      c, j := n - 1, k - |before|;
    }
  }

  /** The rows of customer c's block come from c. */
  lemma BlockRowOk(customers: seq<Customer>, products: seq<Product>, periods: seq<Date>, draws: seq<CustomerDraw>, c: nat, j: nat)
    requires |draws| == |customers| && c < |customers|
    requires ValidCustomerDraw(draws[c], |products|, |periods|)
    requires j < |CustomerRows(customers[c], products, periods, draws[c], |periods|)|
    ensures DemandRowOk(CustomerRows(customers[c], products, periods, draws[c], |periods|)[j], customers, products, periods, draws)
  {
    CustomerRowOkAt(customers[c], products, periods, draws[c], |periods|, j);
  }

  /**
   * Every demand row sits in the block of some customer c: it names c, one
   * of the periods, and a product of c's eligible draw (with that product's
   * size), and asks for 2 to 8 trucks of 200000 units.
   */
  lemma DemandRowsOk(customers: seq<Customer>, products: seq<Product>, periods: seq<Date>, draws: seq<CustomerDraw>)
    requires ValidDemandDraws(draws, |customers|, |products|, |periods|)
    ensures WellFormedDraws(customers, products, periods, draws)
    ensures forall k :: 0 <= k < |AllDemand(customers, products, periods, draws)| ==>
      DemandRowOk(AllDemand(customers, products, periods, draws)[k], customers, products, periods, draws)
  {
    ValidDrawsWellFormed(customers, products, periods, draws);
    forall k | 0 <= k < |AllDemand(customers, products, periods, draws)|
      ensures DemandRowOk(AllDemand(customers, products, periods, draws)[k], customers, products, periods, draws)
    {
      var c, j := DemandUpToAt(customers, products, periods, draws, |customers|, k);
      BlockRowOk(customers, products, periods, draws, c, j);
    }
  }

  /**
   * A customer with E eligible products has, over its first n periods,
   * between n * min(E, 1) and n * min(E, 3) demand rows.
   */
  lemma {:induction false} CustomerRowCount(customer: Customer, products: seq<Product>, periods: seq<Date>, d: CustomerDraw, n: nat)
    requires ValidCustomerDraw(d, |products|, |periods|)
    requires n <= |periods|
    ensures n * Min(|d.eligible|, 1) <= |CustomerRows(customer, products, periods, d, n)| <= n * Min(|d.eligible|, 3)
  {
    if n > 0 {
      CustomerRowCount(customer, products, periods, d, n - 1);
      var t := n - 1;
      var rows := PeriodRows(customer, products, d.eligible, periods[t], d.periods[t]);
      if d.periods[t].picks == [] {
        assert |rows| == 0;
      } else {
        PeriodRowAt(customer, products, d.eligible, periods[t], d.periods[t], 0);
      }
      assert n * Min(|d.eligible|, 1) == (n - 1) * Min(|d.eligible|, 1) + Min(|d.eligible|, 1);
      assert n * Min(|d.eligible|, 3) == (n - 1) * Min(|d.eligible|, 3) + Min(|d.eligible|, 3);
    }
  }
}
