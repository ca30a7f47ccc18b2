# Sample generator for a supply-chain planning model

This project models the sample-data generator `generate_sample.py`. The
generator builds the input tables of a production and distribution planning
problem:

- Periods: one per day from today.
- Plants, each with a storage capacity.
- Distribution centres ("warehouses"): zero to three per plant.
- Customers.
- Products: grouped by can size.
- Routes:
  - plant ↔ centre links;
  - transfers between plants;
  - links to customers that pass a random draw.
- Demands: trucks of 200000 units per customer, period and product.
- Production lines: two to four per plant.
- Line capabilities: the size a line can make in each period. The size is
  re-drawn, possibly to the same size, with a 10% chance after each period.
- Production rates per capability.

Every generator in the source is a loop that appends rows to a local list.
Each one is a Dafny `method` with that loop. Two kinds of contract tie the
method to what the source computes:

- Routes, demand, lines, capabilities, rates and the base-rate map: the
  method is proved equal to a recursive specification function over the
  same inputs, for example `ensures routes == AllRoutes(...)`. The
  table-level properties are lemmas about those functions.
- Periods, plants, customers, products and distribution centres: the
  method's own `ensures` gives every row in closed form, per index (for
  example, period t is today + t). No separate specification function
  exists.

Randomness is modelled as parameters:

- Every `random.*` call is an explicit draw, passed in as a sequence.
- The generators require only what their loops need to run. For demand
  that means every index is in range (`WellFormedDraws`).
- The ranges of the draws are preconditions of the lemmas that use them:
  the `randint` bounds, the sample-size bounds, and the `uniform` interval.
  For the other generators they are also preconditions of the method.
- The haversine distance is the function parameter `dist`.
- `datetime.now()` is the parameter `today`. Dates are day numbers.

Modelling choices:

- Names are a datatype `Name` (`PlantName(i)`, `WarehouseName(n)`,
  `LineName(plant, k)`, ...), not rendered strings.
- Real numbers are exact `real`s.

Modules:

| module | file | source function |
|---|---|---|
| `Tables` | `tables.dfy` | the rows and constants |
| `Seqs` | `seqs.dfy` | generic sequence facts |
| `Periods` | `periods.dfy` | `gen_periods` |
| `Facilities` | `facilities.dfy` | `gen_plants`, `gen_dist_centers`, `gen_customers` |
| `Catalog` | `catalog.dfy` | `gen_products` |
| `RouteGraph` | `routes.dfy` | `gen_routes` |
| `RouteCounts` | `route_counts.dfy` | `gen_routes` |
| `RoutePairs` | `route_pairs.dfy` | `gen_routes` |
| `RouteFinding` | `route_finding.dfy` | `gen_routes`, as written |
| `DemandSampler` | `demand.dfy` | `gen_demand` |
| `ProductionLines` | `lines.dfy` | `gen_lines` |
| `Capabilities` | `capability.dfy` | `gen_capability` |
| `Rates` | `rates.dfy` | `gen_prod_capacity` |

`RouteCounts` and `RoutePairs` hold the lemmas about the route table.

Two behaviours of the script are worth stating up front:

- **Plant ↔ centre links.** The loop at `generate_sample.py:168` runs over
  *every* centre, not only the plant's own. So every plant is linked both
  ways to every centre, including other plants' centres.
  `RoutePairs.PlantCentrePairs` states this.
- **Running with no centres.** The filter at `generate_sample.py:234-236`
  reads the `plant` column of the centre table. When no centre was
  generated at all, that table has no columns, so the filter raises
  `KeyError` as soon as one draw at `generate_sample.py:217` passes. The
  comment at `generate_sample.py:233` says the loop adds routes from the
  centres associated with the plant, and with no centres there are none.
  - `RouteFinding` models the code as written.
  - `RouteGraph` models the evidently intended table: an empty selection,
    so only the plant→customer route. The rest of the model uses it.
  - See "## Findings".

## Model

| member | source | states |
|---|---|---|
| `Periods.GenPeriods` | generate_sample.py:70-82 | exactly `numberOfPeriods` dates; the first is today; each is one day after the previous (period t is today + t), so they are strictly increasing |
| `Facilities.GenPlants` | generate_sample.py:85-104 | one plant per index i, named "Plant i", at its drawn location inside the latitude/longitude box, with capacity in [50000000, 150000000]; names are pairwise distinct |
| `Facilities.GenDistCenters` | generate_sample.py:107-131 | as many centres as the per-plant counts (each at most 3) add up to; centre k is "Warehouse k+1"; each belongs to a known plant and has capacity in [10000000, 30000000]; the centres of plant p form a contiguous block in plant order; names are distinct |
| `Facilities.CentresPerPlant` | generate_sample.py:112-129 | with distinct plant names, plant p owns exactly counts[p] ≤ 3 centres of the generated table |
| `Facilities.GenCustomers` | generate_sample.py:134-143 | one customer per index i, named "Customer i", at its drawn location inside the box; names are distinct |
| `Catalog.GenProducts` | generate_sample.py:146-155 | 5 × productsPerSize products; product i is "Product i+1"; every size is a default size; the products of each size form one contiguous block in the order of the default size list; no product or product name repeats |
| `RouteGraph.GenRoutes` | generate_sample.py:158-249 | the route table is, plant by plant, that plant's centre links, transfers and customer links (`AllRoutes`) |
| `RouteGraph.AppendPlantRoutes` | generate_sample.py:166-249 | one iteration of the plant loop appends exactly that plant's block of routes |
| `RouteGraph.AppendDcLinks` | generate_sample.py:168-197 | appends, for every centre in table order, the plant→centre then the centre→plant route |
| `RouteGraph.AppendTransfers` | generate_sample.py:199-213 | appends a route from the plant to every plant whose name differs from its own, in table order |
| `RouteGraph.AppendCustomerLinks` | generate_sample.py:215-249 | appends, for each customer whose draw is ≤ 0.7, the plant→customer route followed by one route from each centre the plant owns |
| `RouteCounts.DcLinksCount` | generate_sample.py:168-197 | the centre links have 2 × (number of centres) rows; the rows from o to t number the centres named t (when o is the plant) plus those named o (when t is the plant) |
| `RouteCounts.TransfersCount` | generate_sample.py:199-213 | transfers plus the plant's own name count equal the number of plants; a row o→t exists only from the plant to another name, once per plant named t |
| `RouteCounts.OwnedByCount` | generate_sample.py:234-236 | the selection of a plant's centres has as many rows as the plant owns centres, keeps only owned centres of the table, and counts each owned centre name as often as the table does |
| `RouteCounts.DcToCustomerCount` | generate_sample.py:237-249 | one route per selected centre, all into the customer, each from that centre |
| `RouteCounts.CustomerLinksLength` | generate_sample.py:215-249 | the customer part has (1 + centres owned) rows per connected customer |
| `RouteCounts.CustomerLinksCount` | generate_sample.py:215-249 | rows o→t in the customer part: for each connected customer named t, one if o is the plant plus one per owned centre named o |
| `RouteCounts.PlantRoutesCount` | generate_sample.py:166-249 | rows o→t in one plant's block equal the sum of the three parts' counts |
| `RouteCounts.OccurrencesFromOnePlant` | generate_sample.py:166-249 | when only plant i's iteration emits o→t rows, the whole table holds exactly that many |
| `RoutePairs.PlantCentrePairs` | generate_sample.py:168-197 | with distinct names, every plant–centre pair (any owner) has exactly one route in each direction |
| `RoutePairs.PlantPlantPairs` | generate_sample.py:199-213 | with distinct names, each ordered pair of different plants has exactly one transfer and no plant has a route to itself |
| `RoutePairs.PlantCustomerPairs` | generate_sample.py:215-231 | plant i has one route to customer c if draw (i, c) is ≤ 0.7 and none otherwise |
| `RoutePairs.CentreCustomerPairs` | generate_sample.py:233-249 | a centre of plant i has one route to customer c if draw (i, c) is ≤ 0.7 and none otherwise |
| `RoutePairs.PlantRoutesLength` | generate_sample.py:166-249 | each plant's block has 2 × (number of centres) centre links, (number of plants) − 1 transfers, and (1 + owned centres) rows per connected customer |
| `RoutePairs.RouteReferences` | generate_sample.py:158-249 | every route joins names of the generated tables (plant/centre/customer as its kind allows) and never has origin equal to destination |
| `RouteFinding.AsWrittenWithCentres` | generate_sample.py:215-249 | with at least one centre the code as written yields the corrected customer links |
| `RouteFinding.AsWrittenWithoutCentres` | generate_sample.py:215-249 | with no centres the code as written fails exactly when some customer draw is ≤ 0.7 |
| `RouteFinding.SingleCustomerWithoutCentres` | generate_sample.py:215-249 | one plant, one customer, no centres, draw 0.5: the code as written fails, while the intended result is the single plant→customer route |
| `DemandSampler.GenDemand` | generate_sample.py:262-298 | the demand table is, customer by customer and period by period, one row per product picked for that period (`AllDemand`) |
| `DemandSampler.AppendCustomerRows` | generate_sample.py:270-296 | one iteration of the customer loop appends exactly that customer's rows for every period |
| `DemandSampler.AppendPeriodRows` | generate_sample.py:277-296 | one iteration of the period loop appends one row per picked product, in pick order |
| `DemandSampler.ValidDrawsWellFormed` | generate_sample.py:269-284 | draws within the source's sampling bounds are usable by the generator (every index in range) |
| `DemandSampler.ClampedSampleExists` | generate_sample.py:271-283 | every size the clamped `randint(min(P, lo), min(P, hi))` can return is a feasible sample size: at most the population, and a sample of it exists |
| `Seqs.SampleFits` | generate_sample.py:271-283 | a sample without replacement of positions below n never holds more than n items |
| `DemandSampler.PeriodRowAt` | generate_sample.py:286-296 | the j-th row of a period is (period, customer, size and name of the j-th picked product, trucks × 200000) |
| `DemandSampler.DistinctProductsPerPeriod` | generate_sample.py:277-296 | within one customer's period no product appears twice |
| `DemandSampler.PeriodRowOkAt` | generate_sample.py:286-296 | each period row names the period and customer, a product of the customer's eligible set, and a demand that is a multiple of 200000 in [400000, 1600000] |
| `DemandSampler.CustomerRowOkAt` | generate_sample.py:277-296 | every row of a customer's block names that customer, a generated period and a product of its eligible draw (with that product's size), and asks for 2 to 8 trucks of 200000 |
| `DemandSampler.DemandUpToAt` | generate_sample.py:270-296 | every row of the first n customers' rows is row j of the block of some customer c < n |
| `DemandSampler.BlockRowOk` | generate_sample.py:270-296 | every row of customer c's block satisfies the table-level row promise, with c as its issuer |
| `DemandSampler.DemandRowsOk` | generate_sample.py:262-298 | every row of the demand table names some customer c, one of the periods and a product of c's eligible draw (size matching the product), and has a demand in [400000, 1600000] in steps of 200000 |
| `DemandSampler.CustomerRowCount` | generate_sample.py:277-284 | over its first n periods a customer has between n × min(E, 1) and n × min(E, 3) rows, E its eligible-set size |
| `ProductionLines.GenLines` | generate_sample.py:301-311 | the line table is, plant by plant, draws[p] + 1 lines (`AllLines`) |
| `ProductionLines.AppendPlantLines` | generate_sample.py:306-309 | one iteration appends the plant's lines "<plant>_1" to "<plant>_n" |
| `ProductionLines.LinesUpToLength` | generate_sample.py:306-309 | the first p plants' lines number the sum of their draws + 1 |
| `ProductionLines.LinesUpToAt` | generate_sample.py:306-309 | line j of plant q sits at its block position and is "<plant q>_<j+1>" |
| `ProductionLines.LinesUpToShape` | generate_sample.py:306-309 | every line belongs to a known plant, carries that plant in its name and is numbered 1 to 4 |
| `ProductionLines.LinesUpToNoDup` | generate_sample.py:306-309 | with distinct plant names no line appears twice |
| `ProductionLines.LineTable` | generate_sample.py:301-311 | the whole line table: its length, one block per plant in order, every line well named and owned by a known plant, no repeats when plant names are distinct |
| `ProductionLines.LinesPerPlant` | generate_sample.py:306-309 | every plant owns exactly draws[p] + 1 lines, so between two and four |
| `Capabilities.SizesOfProducts` | generate_sample.py:322 | the size list has no repeats, lists only sizes of products, and lists every product's size |
| `Capabilities.SizeIndexInRange` | generate_sample.py:324-332 | the current size of a line is always a valid index into the size list |
| `Capabilities.GenCapability` | generate_sample.py:314-334 | the capability table is, line by line, one row per period carrying the line's current size (`AllCapabilities`) |
| `Capabilities.AppendLineRows` | generate_sample.py:323-332 | one iteration appends that line's rows for every period |
| `Capabilities.CapabilitiesLength` | generate_sample.py:323-332 | the first n lines have n × P rows, P the number of periods |
| `Capabilities.LineRowAt` | generate_sample.py:325-332 | row t of a line is (line, period t, its current size) |
| `Capabilities.CapabilityAt` | generate_sample.py:323-332 | in the first n lines' rows, line l period t sits at l × P + t (P periods) |
| `Capabilities.CapabilityTable` | generate_sample.py:314-334 | with L lines and P periods the table has L × P rows, line-major: the row at l × P + t is (line l, period t, the size current at t) |
| `Capabilities.StickySize` | generate_sample.py:324-332 | a line's size in period t+1 is the redrawn size if the switch draw after period t is ≤ 0.1, and otherwise its size in period t |
| `Capabilities.StickyRun` | generate_sample.py:324-332 | without a switch the size stays the same over any run of periods |
| `Capabilities.CapabilityRowListed` | generate_sample.py:323-328 | every row of the first n lines names one of those lines, a generated period and a listed size |
| `Capabilities.CapabilityReferences` | generate_sample.py:314-334 | every capability row names a known line and period and a size that some product has |
| `Rates.RoundNearest` | generate_sample.py:357-362 | rounding is to within one half, ties to an even integer |
| `Rates.RoundMonotone` | generate_sample.py:357-362 | rounding is monotone |
| `Rates.RoundShiftEven` | generate_sample.py:357-362 | shifting by an even integer commutes with rounding |
| `Rates.BaseRates` | generate_sample.py:344-348 | the base-rate map assigns each distinct size its own draw (`BaseRateMap`) |
| `Rates.BaseRateOfSize` | generate_sample.py:345-348 | with distinct sizes, size i's base rate is draw i |
| `Rates.BaseRateInRange` | generate_sample.py:345-348 | every base rate lies in [1500000, 3000000] |
| `Rates.GenProdCapacity` | generate_sample.py:337-366 | one rate row per capability row, in order: same line, period and size, rate the rounded base rate of that size plus its noise |
| `Rates.RateRowAt` | generate_sample.py:350-364 | row i is built from capability i and noise draw i |
| `Rates.RateInRange` | generate_sample.py:348-362 | every rate lies in [1700000, 3700000] |
| `Rates.SameSizeRatesClose` | generate_sample.py:357-362 | two rates of the same size differ by at most 500000 |

## Left out

- The haversine distance (`generate_sample.py:38-56`) and its rounding to 3 decimals are the opaque parameter `dist`; no property of distance values is stated.
- Coordinate draws (`generate_sample.py:59-67`) are parameters. The latitude/longitude box is a precondition on them. Centres sit at their plant's coordinates plus offsets drawn in [-2, 2] (`generate_sample.py:116-117`). No property of centre coordinates is stated beyond that construction.
- The leadtime and freight-cost columns (`generate_sample.py:251-257`) are not modelled: they are floating-point arithmetic over the finished table, with one shared random offset. The same lines raise `KeyError` when the route table is empty (no plants, or a single plant with no centre and no customer draw ≤ 0.7). Together with the finding below, a one-plant run with no centre therefore always fails. This is not modelled either.
- Floating point: draws, base rates and noise are exact reals, so the `round(..., 0)` of a float sum is rounded half to even on the exact sum.
- Random number generation, `random.sample` and `random.choice` are not modelled. Their results are parameters constrained to the source's ranges (distinct indices of the right count, indices into the list).
- `datetime.now()` (`generate_sample.py:75`) is the parameter `today`; time of day is not modelled.
- The output file, the Excel writer and the top-level script (`generate_sample.py:8-12`, `generate_sample.py:369-391`) are I/O and wiring with the default constants; they are not modelled.
- Name rendering to strings ("Plant 0", "Warehouse 3", "Plant 0_2") is not modelled; names are constructors.
- Pandas frames are sequences of row datatypes; column order and dtypes are not modelled.
- Capabilities.GenCapability: requires at least one product. With none, `gen_products(0)` returns a frame without columns, so `products["size"]` at `generate_sample.py:322` raises `KeyError`, even when there are no lines. That error path is not modelled.
- Rates.GenProdCapacity: requires at least one product and that every capability size is a product size. With no products, `products["size"]` at `generate_sample.py:345` raises `KeyError`. A capability size that no product has raises `KeyError` at the base-rate lookup at `generate_sample.py:359`. Neither error path is modelled.
- RouteGraph.GenRoutes, RouteGraph.AppendPlantRoutes, RouteGraph.AppendCustomerLinks: with no centre at all and a passing customer draw, the source raises `KeyError` at `generate_sample.py:235`. These members instead return the corrected table, whose selection of owned centres is empty. The failing behaviour is stated by `RouteFinding.AsWrittenWithoutCentres`.
- Facilities.CentresPerPlant, RoutePairs.PlantCentrePairs, RoutePairs.PlantPlantPairs, RoutePairs.PlantCustomerPairs, RoutePairs.CentreCustomerPairs, RoutePairs.RouteReferences and ProductionLines.LinesPerPlant assume distinct names, as the generators produce. With repeated names the source joins on the repeated name; only the general counts of `RouteCounts` cover that case.

## Findings

| source | as written | input that shows it | evidently intended | confidence | as-written member | corrected member |
|---|---|---|---|---|---|---|
| generate_sample.py:234-236 | `dist_centers[dist_centers["plant"] == plant["name"]]` reads the column `plant` of the centre table. When no centre was generated at all, `pd.DataFrame(data=[])` has no columns and this raises `KeyError`. That happens as soon as one plant–customer draw is ≤ 0.7, which is 1/64 of runs with the default three plants. | one plant, one customer, zero centres (each plant drew 0 at line 113), customer draw 0.5 | with no centres the selection is empty and only the plant→customer route is emitted, as the comment at line 233 describes (routes from the centres associated with the plant) | not executed | `RouteFinding.AsWrittenWithoutCentres` | `RouteCounts.CustomerLinksCount` |
