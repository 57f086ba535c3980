// The pricing layer: per-job compute cost of a tier, S3 storage cost per zone,
// and SQL warehouse cost. Rate lookups that may miss fall back to zero.

module Calculations {
  import opened Strings
  import opened Rates
  import opened State

  // ---------------------------------------------------------------- jobs

  /** A job row with its two computed cost columns, "DBU Cost" and "EC2 Cost". */
  datatype CostedJob = CostedJob(job: JobRow, dbuCost: real, ec2Cost: real)

  /** What the tier calculator returns: the annotated rows and the two tier totals. */
  datatype TierCost = TierCost(rows: seq<CostedJob>, dbuCost: real, ec2Cost: real)

  /** Node-hours a job consumes in a month: runtime x runs x nodes. */
  function NodeHours(job: JobRow): (h: real)
    ensures (job.runtimeHours == 0.0 || job.runsPerMonth == 0 || job.nodes == 0) ==> h == 0.0
  {
    job.runtimeHours * (job.runsPerMonth as real) * (job.nodes as real)
  }

  /** The Photon-adjusted DBU rate of a row. The calculator computes it and then
      never uses it. */
  function AdjustedDbuRate(rates: RateTables, tier: string, job: JobRow): (rate: real)
    requires tier in rates.dbuRates
    ensures !job.photon ==> rate == rates.dbuRates[tier]
  {
    if job.photon then rates.dbuRates[tier] * rates.photonMultiplier else rates.dbuRates[tier]
  }

  /** Hourly instance rate of a row: the table's rate (0 for an unknown instance
      type), times the spot multiplier when Spot is on. */
  function InstanceRate(rates: RateTables, job: JobRow): (rate: real)
    ensures job.instanceType !in rates.instanceRates ==> rate == 0.0
    ensures !job.spot && job.instanceType in rates.instanceRates ==>
      rate == rates.instanceRates[job.instanceType]
    ensures rates.NonNegative() ==> rate >= 0.0
  {
    (if job.instanceType in rates.instanceRates then rates.instanceRates[job.instanceType] else 0.0)
      * (if job.spot then rates.spotMultiplier else 1.0)
  }

  /** The "EC2 Cost" column. */
  function Ec2Cost(rates: RateTables, job: JobRow): (c: real)
    ensures job.instanceType !in rates.instanceRates ==> c == 0.0
  {
    NodeHours(job) * InstanceRate(rates, job)
  }

  /** The "DBU Cost" column: node-hours, with no rate applied. */
  function DbuCost(job: JobRow): (c: real)
    ensures (job.runtimeHours == 0.0 || job.runsPerMonth == 0 || job.nodes == 0) ==> c == 0.0
  {
    NodeHours(job)
  }

  /** One row of the costed table: the input row with its two cost columns. */
  function CostJob(rates: RateTables, job: JobRow): (r: CostedJob)
    ensures r.job == job
    ensures NodeHours(job) == 0.0 ==> r.dbuCost == 0.0 && r.ec2Cost == 0.0
  {
    CostedJob(job, DbuCost(job), Ec2Cost(rates, job))
  }

  function CostJobs(rates: RateTables, jobs: seq<JobRow>): (rows: seq<CostedJob>)
    ensures |rows| == |jobs|
    ensures forall i :: 0 <= i < |jobs| ==> rows[i] == CostJob(rates, jobs[i])
  {
    seq(|jobs|, i requires 0 <= i < |jobs| => CostJob(rates, jobs[i]))
  }

  /** Sum of the "DBU Cost" column. */
  function SumDbu(rows: seq<CostedJob>): real
  {
    if rows == [] then 0.0 else SumDbu(rows[..|rows| - 1]) + rows[|rows| - 1].dbuCost
  }

  /** Sum of the "EC2 Cost" column. */
  function SumEc2(rows: seq<CostedJob>): real
  {
    if rows == [] then 0.0 else SumEc2(rows[..|rows| - 1]) + rows[|rows| - 1].ec2Cost
  }

  /** Sum of the per-row totals, DBU Cost + EC2 Cost. */
  function SumRowTotals(rows: seq<CostedJob>): real
  {
    if rows == [] then 0.0
    else SumRowTotals(rows[..|rows| - 1]) + (rows[|rows| - 1].dbuCost + rows[|rows| - 1].ec2Cost)
  }

  /** Costs one tier's job table. The tier's DBU rate is looked up without a guard,
      but only once the table is known to be non-empty. */
  function CalculateTier(rates: RateTables, jobs: seq<JobRow>, tier: string): (r: TierCost)
    requires jobs != [] ==> tier in rates.dbuRates
    ensures jobs == [] ==> r == TierCost([], 0.0, 0.0)
    ensures |r.rows| == |jobs|
    ensures forall i :: 0 <= i < |jobs| ==> r.rows[i].job == jobs[i]
    ensures r.dbuCost == SumDbu(r.rows) && r.ec2Cost == SumEc2(r.rows)
  {
    if jobs == [] then TierCost([], 0.0, 0.0)
    else
      var adjusted := seq(|jobs|, i requires 0 <= i < |jobs| => AdjustedDbuRate(rates, tier, jobs[i]));
      var rows := CostJobs(rates, jobs);
      TierCost(rows, SumDbu(rows), SumEc2(rows))
  }

  /** Each row's costs depend on the row's own fields only. */
  lemma TierRowCosts(rates: RateTables, jobs: seq<JobRow>, tier: string, i: nat)
    requires jobs != [] ==> tier in rates.dbuRates
    requires i < |jobs|
    ensures CalculateTier(rates, jobs, tier).rows[i].dbuCost ==
      jobs[i].runtimeHours * (jobs[i].runsPerMonth as real) * (jobs[i].nodes as real)
    ensures CalculateTier(rates, jobs, tier).rows[i].ec2Cost ==
      NodeHours(jobs[i]) * InstanceRate(rates, jobs[i])
  {
  }

  /** Two job rows that differ at most in their Photon flag. */
  predicate SameButPhoton(a: JobRow, b: JobRow)
  {
    a.(photon := b.photon) == b
  }

  /** The costs of a tier, without the rows they annotate. */
  function CostFigures(r: TierCost): (seq<(real, real)>, real, real)
  {
    (seq(|r.rows| , i requires 0 <= i < |r.rows| => (r.rows[i].dbuCost, r.rows[i].ec2Cost)),
     r.dbuCost, r.ec2Cost)
  }

  /** Neither Photon nor the tier's base DBU rate nor the Photon multiplier
      changes any cost the tier calculator returns. */
  lemma {:induction false} PhotonAndBaseRateIgnored(
    rates1: RateTables, rates2: RateTables, jobs1: seq<JobRow>, jobs2: seq<JobRow>,
    tier1: string, tier2: string)
    requires rates1.instanceRates == rates2.instanceRates
    requires rates1.spotMultiplier == rates2.spotMultiplier
    requires jobs1 != [] ==> tier1 in rates1.dbuRates
    requires jobs2 != [] ==> tier2 in rates2.dbuRates
    requires |jobs1| == |jobs2|
    requires forall i :: 0 <= i < |jobs1| ==> SameButPhoton(jobs1[i], jobs2[i])
    ensures CostFigures(CalculateTier(rates1, jobs1, tier1)) ==
            CostFigures(CalculateTier(rates2, jobs2, tier2))
  {
    var r1 := CalculateTier(rates1, jobs1, tier1);
    var r2 := CalculateTier(rates2, jobs2, tier2);
    forall i | 0 <= i < |jobs1|
      ensures r1.rows[i].dbuCost == r2.rows[i].dbuCost && r1.rows[i].ec2Cost == r2.rows[i].ec2Cost
    {
      assert NodeHours(jobs1[i]) == NodeHours(jobs2[i]);
      assert InstanceRate(rates1, jobs1[i]) == InstanceRate(rates2, jobs2[i]);
    }
    SumsAgree(r1.rows, r2.rows);
    var f1, f2 := CostFigures(r1), CostFigures(r2);
    assert f1.1 == f2.1 && f1.2 == f2.2;
    assert |f1.0| == |f2.0|;
    assert forall i :: 0 <= i < |f1.0| ==> f1.0[i] == f2.0[i];
    assert f1.0 == f2.0;
  }

  /** Rows with equal cost columns have equal column sums. */
  lemma {:induction false} SumsAgree(rows1: seq<CostedJob>, rows2: seq<CostedJob>)
    requires |rows1| == |rows2|
    requires forall i :: 0 <= i < |rows1| ==>
      rows1[i].dbuCost == rows2[i].dbuCost && rows1[i].ec2Cost == rows2[i].ec2Cost
    ensures SumDbu(rows1) == SumDbu(rows2) && SumEc2(rows1) == SumEc2(rows2)
  {
    if rows1 != [] {
      var n := |rows1| - 1;
      SumsAgree(rows1[..n], rows2[..n]);
    }
  }

  /** A tier's total (DBU Cost + EC2 Cost) is the sum of its rows' totals. */
  lemma {:induction false} RowTotalsSplit(rows: seq<CostedJob>)
    ensures SumRowTotals(rows) == SumDbu(rows) + SumEc2(rows)
  {
    if rows != [] {
      RowTotalsSplit(rows[..|rows| - 1]);
    }
  }

  /** Sums over a concatenation add up. */
  lemma {:induction false} SumRowTotalsAppend(a: seq<CostedJob>, b: seq<CostedJob>)
    ensures SumRowTotals(a + b) == SumRowTotals(a) + SumRowTotals(b)
    decreases |b|
  {
    if b != [] {
      var n := |b| - 1;
      assert (a + b)[..|a + b| - 1] == a + b[..n];
      assert (a + b)[|a + b| - 1] == b[n];
      SumRowTotalsAppend(a, b[..n]);
    } else {
      assert a + b == a;
    }
  }

  /** More node-hours never cost less: EC2 cost is monotone in runtime, runs and nodes. */
  lemma Ec2CostMonotone(rates: RateTables, small: JobRow, large: JobRow)
    requires rates.NonNegative()
    requires large == small.(runtimeHours := large.runtimeHours, runsPerMonth := large.runsPerMonth,
                             nodes := large.nodes)
    requires 0.0 <= small.runtimeHours <= large.runtimeHours
    requires 0 <= small.runsPerMonth <= large.runsPerMonth
    requires 0 <= small.nodes <= large.nodes
    ensures Ec2Cost(rates, small) <= Ec2Cost(rates, large)
  {
    var rate := InstanceRate(rates, small);
    assert rate == InstanceRate(rates, large);
    MulMonotone(small.runtimeHours, large.runtimeHours, small.runsPerMonth as real, large.runsPerMonth as real);
    MulMonotone(small.runtimeHours * (small.runsPerMonth as real), large.runtimeHours * (large.runsPerMonth as real),
                small.nodes as real, large.nodes as real);
    MulMonotone(NodeHours(small), NodeHours(large), rate, rate);
  }

  lemma MulMonotone(x1: real, x2: real, y1: real, y2: real)
    requires 0.0 <= x1 <= x2 && 0.0 <= y1 <= y2
    ensures 0.0 <= x1 * y1 <= x2 * y2
  {
    assert x1 * y1 <= x2 * y1;
    assert x2 * y1 <= x2 * y2;
  }

  /** With a spot multiplier below 1, turning Spot on makes a job with a priced
      instance and some node-hours strictly cheaper. */
  lemma SpotIsCheaper(rates: RateTables, job: JobRow)
    requires rates.spotMultiplier < 1.0
    requires job.instanceType in rates.instanceRates && rates.instanceRates[job.instanceType] > 0.0
    requires NodeHours(job) > 0.0
    ensures Ec2Cost(rates, job.(spot := true)) < Ec2Cost(rates, job.(spot := false))
  {
    var base, h := rates.instanceRates[job.instanceType], NodeHours(job);
    var on, off := job.(spot := true), job.(spot := false);
    assert NodeHours(on) == h by {
      assert on.runtimeHours == job.runtimeHours && on.runsPerMonth == job.runsPerMonth && on.nodes == job.nodes;
    }
    assert NodeHours(off) == h by {
      assert off.runtimeHours == job.runtimeHours && off.runsPerMonth == job.runsPerMonth && off.nodes == job.nodes;
    }
    assert InstanceRate(rates, job.(spot := true)) == base * rates.spotMultiplier;
    assert InstanceRate(rates, job.(spot := false)) == base;
    DiscountIsCheaper(h, base, rates.spotMultiplier);
    assert Ec2Cost(rates, on) == h * (base * rates.spotMultiplier);
    assert Ec2Cost(rates, off) == h * base;
  }

  lemma DiscountIsCheaper(h: real, base: real, m: real)
    requires h > 0.0 && base > 0.0 && m < 1.0
    ensures h * (base * m) < h * base
  {
    assert base * m < base * 1.0;
    assert h * (base * m) < h * base;
  }

  // ---------------------------------------------------------------- S3

  /** The pricing of a storage class; an unknown class is priced at zero throughout. */
  function ClassPricing(rates: RateTables, storageClass: string): (p: S3Price)
    ensures storageClass !in rates.s3Pricing ==> p == S3Price(0.0, 0.0, 0.0)
    ensures storageClass in rates.s3Pricing ==> p == rates.s3Pricing[storageClass]
  {
    if storageClass in rates.s3Pricing then rates.s3Pricing[storageClass] else S3Price(0.0, 0.0, 0.0)
  }

  /** Stored amount in GB: terabytes are 1024 GB, any other unit is read as GB. */
  function StorageGb(z: DirectZone): (gb: real)
    ensures z.unit == "TB" ==> gb == 1024.0 * z.amount
    ensures z.unit != "TB" ==> gb == z.amount
  {
    if z.unit == "TB" then z.amount * 1024.0 else z.amount
  }

  /** Monthly cost of a zone by the direct method: stored GB, thousands of PUTs and
      thousands of GETs, each at its class's price. */
  function DirectZoneCost(rates: RateTables, z: DirectZone): (c: real)
    ensures z.amount == 0.0 && z.put == 0.0 && z.get == 0.0 ==> c == 0.0
  {
    var pricing := ClassPricing(rates, z.storageClass);
    StorageGb(z) * pricing.storageGb + z.put * pricing.put1k + z.get * pricing.get1k
  }

  /** Monthly cost of a zone by the table-based method: the estimated size at the
      Standard class's storage rate. */
  function TableZoneCost(rates: RateTables, z: TableZone): (c: real)
    requires "Standard" in rates.s3Pricing
    ensures z.tables == 0 || z.records == 0 || z.sizeKb == 0.0 ==> c == 0.0
  {
    var totalRecords := (z.tables * z.records) as real;
    var estimatedGb := (totalRecords * z.sizeKb) / (1024.0 * 1024.0);
    estimatedGb * rates.s3Pricing["Standard"].storageGb
  }

  /** `costs_per_zone` by the direct method: every zone, in order, with its own cost. */
  function DirectCosts(rates: RateTables, zones: seq<(string, DirectZone)>): (costs: seq<(string, real)>)
    ensures Names(costs) == Names(zones)
    ensures |costs| == |zones|
  {
    seq(|zones|, i requires 0 <= i < |zones| => (zones[i].0, DirectZoneCost(rates, zones[i].1)))
  }

  /** `costs_per_zone` by the table-based method: every zone, in order, with its own cost. */
  function TableCosts(rates: RateTables, zones: seq<(string, TableZone)>): (costs: seq<(string, real)>)
    requires "Standard" in rates.s3Pricing
    ensures Names(costs) == Names(zones)
    ensures |costs| == |zones|
  {
    seq(|zones|, i requires 0 <= i < |zones| => (zones[i].0, TableZoneCost(rates, zones[i].1)))
  }

  /** Each entry of `costs_per_zone` holds its own zone's cost, by either method. */
  lemma CostsPerZone(rates: RateTables, direct: seq<(string, DirectZone)>, tables: seq<(string, TableZone)>)
    requires "Standard" in rates.s3Pricing
    ensures forall i :: 0 <= i < |direct| ==>
      DirectCosts(rates, direct)[i] == (direct[i].0, DirectZoneCost(rates, direct[i].1))
    ensures forall i :: 0 <= i < |tables| ==>
      TableCosts(rates, tables)[i] == (tables[i].0, TableZoneCost(rates, tables[i].1))
  {
  }

  /** Sum of the values of a per-zone cost dictionary. */
  function SumCosts(costs: seq<(string, real)>): real
  {
    if costs == [] then 0.0 else SumCosts(costs[..|costs| - 1]) + costs[|costs| - 1].1
  }

  /** Under non-negative prices a zone with non-negative amounts never costs a
      negative amount, by either method. */
  lemma ZoneCostsNonNegative(rates: RateTables, d: DirectZone, tz: TableZone)
    requires rates.NonNegative() && "Standard" in rates.s3Pricing
    requires d.amount >= 0.0 && d.put >= 0.0 && d.get >= 0.0
    requires tz.tables >= 0 && tz.records >= 0 && tz.sizeKb >= 0.0
    ensures DirectZoneCost(rates, d) >= 0.0
    ensures TableZoneCost(rates, tz) >= 0.0
  {
  }

  /** A cost dictionary whose values are all non-negative has a non-negative sum. */
  lemma {:induction false} SumCostsNonNegative(costs: seq<(string, real)>)
    requires forall i :: 0 <= i < |costs| ==> costs[i].1 >= 0.0
    ensures SumCosts(costs) >= 0.0
  {
    if costs != [] {
      SumCostsNonNegative(costs[..|costs| - 1]);
    }
  }

  /** One terabyte of a class costs exactly what 1024 GB of that class cost. */
  lemma TerabyteIsGigabytes(rates: RateTables, z: DirectZone, x: real)
    ensures DirectZoneCost(rates, z.(unit := "TB", amount := x)) ==
            DirectZoneCost(rates, z.(unit := "GB", amount := 1024.0 * x))
  {
  }

  /** A zone whose class has no pricing costs nothing, whatever its amounts. */
  lemma UnknownClassCostsNothing(rates: RateTables, z: DirectZone)
    requires z.storageClass !in rates.s3Pricing
    ensures DirectZoneCost(rates, z) == 0.0
  {
  }

  /** The S3 calculator. Which method runs depends on whether the session has a
      `s3_calc_method` entry at all, not on its value; the direct branch creates
      that entry. The zone dictionaries it reads exist only once the session is
      initialised. */
  method CalculateS3CostPerZone(s: Session, rates: RateTables) returns (costs: seq<(string, real)>, total: real)
    requires s.initialized
    requires s.hasCalcMethod ==> "Standard" in rates.s3Pricing
    modifies s`hasCalcMethod, s`calcMethod
    ensures s.hasCalcMethod
    ensures s.calcMethod == if old(s.hasCalcMethod) then old(s.calcMethod) else "Direct Storage"
    ensures old(s.hasCalcMethod) ==> costs == TableCosts(rates, s.s3TableBased)
    ensures !old(s.hasCalcMethod) ==> costs == DirectCosts(rates, s.s3Direct)
    ensures total == SumCosts(costs)
    ensures old(s.Valid(rates)) ==> s.Valid(rates)
  {
    costs, total := [], 0.0;
    if !s.hasCalcMethod {
      s.hasCalcMethod, s.calcMethod := true, "Direct Storage";
      var zones := s.s3Direct;
      for i := 0 to |zones|
        invariant costs == DirectCosts(rates, zones[..i])
        invariant total == SumCosts(costs)
      {
        var zoneCost := DirectZoneCost(rates, zones[i].1);
        costs := costs + [(zones[i].0, zoneCost)];
        total := total + zoneCost;
        assert costs[..|costs| - 1] == DirectCosts(rates, zones[..i]);
      }
      assert zones[..|zones|] == zones;
    } else {
      var zones := s.s3TableBased;
      for i := 0 to |zones|
        invariant costs == TableCosts(rates, zones[..i])
        invariant total == SumCosts(costs)
      {
        var zoneCost := TableZoneCost(rates, zones[i].1);
        costs := costs + [(zones[i].0, zoneCost)];
        total := total + zoneCost;
        assert costs[..|costs| - 1] == TableCosts(rates, zones[..i]);
      }
      assert zones[..|zones|] == zones;
    }
  }

  /** Two calculations in a row on a session that holds the zone dictionaries
      but lacks the `s3_calc_method` entry: the first takes the direct branch,
      the second the table-based one, although the entry reads "Direct Storage". */
  method RepeatedS3Calculation(s: Session, rates: RateTables)
    returns (first: seq<(string, real)>, second: seq<(string, real)>)
    requires s.initialized && !s.hasCalcMethod && "Standard" in rates.s3Pricing
    modifies s`hasCalcMethod, s`calcMethod
    ensures first == DirectCosts(rates, s.s3Direct)
    ensures second == TableCosts(rates, s.s3TableBased)
    ensures s.hasCalcMethod && s.calcMethod == "Direct Storage"
  {
    var firstTotal, secondTotal;
    first, firstTotal := CalculateS3CostPerZone(s, rates);
    second, secondTotal := CalculateS3CostPerZone(s, rates);
  }

  /** The default configuration costs nothing to store, by either method. */
  lemma InitialS3CostIsZero(rates: RateTables)
    ensures SumCosts(DirectCosts(rates, InitialDirectZones())) == 0.0
    ensures "Standard" in rates.s3Pricing ==> SumCosts(TableCosts(rates, InitialTableZones())) == 0.0
  {
    var d := DirectCosts(rates, InitialDirectZones());
    assert forall i :: 0 <= i < |d| ==> d[i].1 == 0.0;
    ZeroCostsSumToZero(d);
    if "Standard" in rates.s3Pricing {
      var t := TableCosts(rates, InitialTableZones());
      assert forall i :: 0 <= i < |t| ==> t[i].1 == 0.0;
      ZeroCostsSumToZero(t);
    }
  }

  /** Zones that each cost nothing cost nothing together. */
  lemma {:induction false} ZeroCostsSumToZero(costs: seq<(string, real)>)
    requires forall i :: 0 <= i < |costs| ==> costs[i].1 == 0.0
    ensures SumCosts(costs) == 0.0
  {
    if costs != [] {
      ZeroCostsSumToZero(costs[..|costs| - 1]);
    }
  }

  // ---------------------------------------------------------------- SQL warehouses

  /** The pricing key of a size label: the part before the first " - ". */
  function SizeKey(size: string): (key: string)
    ensures key <= size
    ensures forall j :: 0 <= j < |key| ==> !OccursAt(size, " - ", j)
    ensures forall j :: 0 <= j <= |key| ==> !OccursAt(key, " - ", j)
    ensures |key| < |size| ==> OccursAt(size, " - ", |key|)
    ensures (forall j :: 0 <= j <= |size| ==> !OccursAt(size, " - ", j)) ==> key == size
  {
    PrefixBefore(size, " - ")
  }

  /** Dollars per hour of a warehouse's size; an unknown size costs nothing. */
  function HourlyRate(rates: RateTables, w: Warehouse): (rate: real)
    ensures SizeKey(w.size) !in rates.warehousePricing ==> rate == 0.0
    ensures SizeKey(w.size) in rates.warehousePricing ==>
      rate == rates.warehousePricing[SizeKey(w.size)].costPerHr
  {
    var key := SizeKey(w.size);
    if key in rates.warehousePricing then rates.warehousePricing[key].costPerHr else 0.0
  }

  /** A warehouse accrues cost only when auto-suspend is on and it runs some
      hours on some days. */
  predicate Accrues(w: Warehouse)
  {
    w.autoSuspend && w.hoursPerDay > 0 && w.daysPerMonth > 0
  }

  /** Monthly cost of one warehouse. */
  function WarehouseCost(rates: RateTables, w: Warehouse): (c: real)
    ensures !Accrues(w) ==> c == 0.0
  {
    if Accrues(w) then HourlyRate(rates, w) * (w.hoursPerDay as real) * (w.daysPerMonth as real)
    else 0.0
  }

  /** An accruing warehouse costs its hourly rate times its hours per day times its
      days per month. */
  lemma AccruingCost(rates: RateTables, w: Warehouse, hourlyRate: real)
    requires Accrues(w) && hourlyRate == HourlyRate(rates, w)
    ensures WarehouseCost(rates, w) == hourlyRate * (w.hoursPerDay as real) * (w.daysPerMonth as real)
  {
  }

  /** The month's cost of all warehouses: the sum of their guarded costs. */
  function WarehouseTotal(rates: RateTables, ws: seq<Warehouse>): real
  {
    if ws == [] then 0.0 else WarehouseTotal(rates, ws[..|ws| - 1]) + WarehouseCost(rates, ws[|ws| - 1])
  }

  /** The SQL warehouse calculator: the guarded sum over the session's warehouses,
      which exist only once the session is initialised. */
  method CalculateSqlWarehouseCost(s: Session, rates: RateTables) returns (total: real)
    requires s.initialized
    ensures total == WarehouseTotal(rates, s.sqlWarehouses)
  {
    total := 0.0;
    var ws := s.sqlWarehouses;
    for i := 0 to |ws|
      invariant total == WarehouseTotal(rates, ws[..i])
    {
      var w := ws[i];
      if w.autoSuspend && w.hoursPerDay > 0 && w.daysPerMonth > 0 {
        var key := SizeKey(w.size);
        var hourlyRate := if key in rates.warehousePricing then rates.warehousePricing[key].costPerHr else 0.0;
        var cost := hourlyRate * (w.hoursPerDay as real) * (w.daysPerMonth as real);
        AccruingCost(rates, w, hourlyRate);
        total := total + cost;
      }
      assert ws[..i + 1][..i] == ws[..i];
      assert WarehouseTotal(rates, ws[..i + 1]) == WarehouseTotal(rates, ws[..i]) + WarehouseCost(rates, w);
    }
    assert ws[..|ws|] == ws;
  }

  /** The suspend-after setting never changes the warehouse total. */
  lemma {:induction false} SuspendAfterIgnored(rates: RateTables, ws1: seq<Warehouse>, ws2: seq<Warehouse>)
    requires |ws1| == |ws2|
    requires forall i :: 0 <= i < |ws1| ==> ws1[i].(suspendAfter := ws2[i].suspendAfter) == ws2[i]
    ensures WarehouseTotal(rates, ws1) == WarehouseTotal(rates, ws2)
  {
    if ws1 != [] {
      var n := |ws1| - 1;
      SuspendAfterIgnored(rates, ws1[..n], ws2[..n]);
      assert ws2[n] == ws1[n].(suspendAfter := ws2[n].suspendAfter);
      WarehouseCostIgnoresSuspendAfter(rates, ws1[n], ws2[n].suspendAfter);
    }
  }

  lemma WarehouseCostIgnoresSuspendAfter(rates: RateTables, w: Warehouse, minutes: int)
    ensures WarehouseCost(rates, w.(suspendAfter := minutes)) == WarehouseCost(rates, w)
  {
    var v := w.(suspendAfter := minutes);
    assert v.size == w.size && v.autoSuspend == w.autoSuspend;
    assert v.hoursPerDay == w.hoursPerDay && v.daysPerMonth == w.daysPerMonth;
  }

  /** With auto-suspend off everywhere, warehouses cost nothing whatever their hours and days. */
  lemma {:induction false} NoAutoSuspendCostsNothing(rates: RateTables, ws: seq<Warehouse>)
    requires forall i :: 0 <= i < |ws| ==> !ws[i].autoSuspend
    ensures WarehouseTotal(rates, ws) == 0.0
  {
    if ws != [] {
      NoAutoSuspendCostsNothing(rates, ws[..|ws| - 1]);
    }
  }

  /** Warehouse totals are never negative under non-negative prices. */
  lemma {:induction false} WarehouseTotalNonNegative(rates: RateTables, ws: seq<Warehouse>)
    requires rates.NonNegative()
    ensures WarehouseTotal(rates, ws) >= 0.0
  {
    if ws != [] {
      WarehouseTotalNonNegative(rates, ws[..|ws| - 1]);
      WarehouseCostNonNegative(rates, ws[|ws| - 1]);
    }
  }

  lemma WarehouseCostNonNegative(rates: RateTables, w: Warehouse)
    requires rates.NonNegative()
    ensures WarehouseCost(rates, w) >= 0.0
  {
    if Accrues(w) {
      var rate := HourlyRate(rates, w);
      assert rate >= 0.0 by {
        var key := SizeKey(w.size);
        if key in rates.warehousePricing {
          assert rates.warehousePricing[key].costPerHr >= 0.0;
        }
      }
      MulMonotone(0.0, rate, 0.0, w.hoursPerDay as real);
      MulMonotone(0.0, rate * (w.hoursPerDay as real), 0.0, w.daysPerMonth as real);
    }
  }
}
