// One run of the page script: initialise the session, cost every tier, the S3
// zones and the warehouses, and combine them into the totals the summary shows.

module App {
  import opened Rates
  import opened State
  import opened Calculations
  import opened UiComponents

  /** Costs every tier of DBU_RATES, in table order, each from its own job table. */
  method CalculateDatabricks(rates: RateTables, jobs: map<string, seq<JobRow>>)
    returns (data: map<string, TierCost>)
    requires rates.WellFormed()
    requires forall t :: t in rates.tierOrder ==> t in jobs
    ensures forall t :: t in data <==> t in rates.dbuRates
    ensures forall t :: t in data ==> data[t] == CalculateTier(rates, jobs[t], t)
  {
    data := map[];
    for i := 0 to |rates.tierOrder|
      invariant forall t :: t in data <==> t in rates.tierOrder[..i]
      invariant forall t :: t in data ==> t in jobs && t in rates.dbuRates
      invariant forall t :: t in data ==> data[t] == CalculateTier(rates, jobs[t], t)
    {
      var tier := rates.tierOrder[i];
      data := data[tier := CalculateTier(rates, jobs[tier], tier)];
      assert rates.tierOrder[..i + 1] == rates.tierOrder[..i] + [tier];
    }
    assert rates.tierOrder[..|rates.tierOrder|] == rates.tierOrder;
  }

  /** databricks_total_cost: the sum of (dbu_cost + ec2_cost) over the tiers. */
  function DatabricksTotal(tiers: seq<string>, data: map<string, TierCost>): real
    requires forall t :: t in tiers ==> t in data
  {
    if tiers == [] then 0.0
    else
      var last := tiers[|tiers| - 1];
      DatabricksTotal(tiers[..|tiers| - 1], data) + (data[last].dbuCost + data[last].ec2Cost)
  }

  /** The tab's "DBU Costs" metric: the sum of dbu_cost over the tiers. */
  function DbuTotal(tiers: seq<string>, data: map<string, TierCost>): real
    requires forall t :: t in tiers ==> t in data
  {
    if tiers == [] then 0.0 else DbuTotal(tiers[..|tiers| - 1], data) + data[tiers[|tiers| - 1]].dbuCost
  }

  /** The tab's "EC2 Costs" metric: the sum of ec2_cost over the tiers. */
  function Ec2Total(tiers: seq<string>, data: map<string, TierCost>): real
    requires forall t :: t in tiers ==> t in data
  {
    if tiers == [] then 0.0 else Ec2Total(tiers[..|tiers| - 1], data) + data[tiers[|tiers| - 1]].ec2Cost
  }

  /** Every costed job row of every tier, tier after tier. */
  function AllRows(tiers: seq<string>, data: map<string, TierCost>): seq<CostedJob>
    requires forall t :: t in tiers ==> t in data
  {
    if tiers == [] then [] else AllRows(tiers[..|tiers| - 1], data) + data[tiers[|tiers| - 1]].rows
  }

  /** The summary's Databricks total equals the tab's "Monthly Total", DBU Costs + EC2 Costs. */
  lemma {:induction false} DatabricksTotalIsTabTotal(tiers: seq<string>, data: map<string, TierCost>)
    requires forall t :: t in tiers ==> t in data
    ensures DatabricksTotal(tiers, data) == DbuTotal(tiers, data) + Ec2Total(tiers, data)
  {
    if tiers != [] {
      DatabricksTotalIsTabTotal(tiers[..|tiers| - 1], data);
    }
  }

  /** The Databricks total is the sum, over every job row of every tier, of the
      row's DBU Cost + EC2 Cost. */
  lemma {:induction false} DatabricksTotalIsAllRows(tiers: seq<string>, data: map<string, TierCost>)
    requires forall t :: t in tiers ==> t in data
    requires forall t :: t in tiers ==>
      data[t].dbuCost == SumDbu(data[t].rows) && data[t].ec2Cost == SumEc2(data[t].rows)
    ensures DatabricksTotal(tiers, data) == SumRowTotals(AllRows(tiers, data))
  {
    if tiers != [] {
      var prefix, last := tiers[..|tiers| - 1], tiers[|tiers| - 1];
      assert forall t :: t in prefix ==> t in tiers;
      DatabricksTotalIsAllRows(prefix, data);
      RowTotalsSplit(data[last].rows);
      SumRowTotalsAppend(AllRows(prefix, data), data[last].rows);
    }
  }

  /** Everything the page shows after one run of the script. */
  datatype Summary = Summary(
    dbxData: map<string, TierCost>,
    s3Zones: seq<(string, real)>,
    s3Cost: real,
    sqlCost: real,
    databricksTotal: real,
    totalCost: real,
    projected: real,
    distribution: seq<(string, real)>)

  /** What the page shows for a configuration: every tier costed from its own
      job table, the S3 zones costed by the table-based method, the warehouses,
      the three totals, the projection at the given growth and the donut's slices. */
  predicate Describes(summary: Summary, rates: RateTables, jobs: map<string, seq<JobRow>>,
                      tables: seq<(string, TableZone)>, ws: seq<Warehouse>, growthPercent: real)
    requires rates.WellFormed() && "Standard" in rates.s3Pricing
  {
    && (forall t :: t in rates.dbuRates ==> t in summary.dbxData)
    && (forall t :: t in summary.dbxData ==> t in rates.dbuRates && t in jobs && summary.dbxData[t] == CalculateTier(rates, jobs[t], t))
    && summary.s3Zones == TableCosts(rates, tables) && summary.s3Cost == SumCosts(summary.s3Zones)
    && summary.sqlCost == WarehouseTotal(rates, ws)
    && summary.databricksTotal == DatabricksTotal(rates.tierOrder, summary.dbxData)
    && summary.totalCost == summary.databricksTotal + summary.s3Cost + summary.sqlCost
    && summary.projected == Projection(summary.databricksTotal, summary.s3Cost, summary.sqlCost, growthPercent)
    && summary.distribution == CostDistribution(summary.databricksTotal, summary.s3Cost, summary.sqlCost)
  }

  /** Recomputes everything the page shows from an initialised session's
      configuration. The S3 cost always comes from the table-based configuration,
      because an initialised session always has a calculation method set. */
  method Recompute(s: Session, rates: RateTables) returns (summary: Summary)
    requires rates.WellFormed() && s.Valid(rates) && s.initialized
    requires "Standard" in rates.s3Pricing
    modifies s`hasCalcMethod, s`calcMethod
    ensures s.hasCalcMethod == old(s.hasCalcMethod) && s.calcMethod == old(s.calcMethod)
    ensures Describes(summary, rates, s.dbxJobs, s.s3TableBased, s.sqlWarehouses, s.growthPercent)
  {
    var jobs := s.dbxJobs;
    var dbxData := CalculateDatabricks(rates, jobs);
    assert s.hasCalcMethod;
    var s3Zones, s3Cost := CalculateS3CostPerZone(s, rates);
    assert s3Zones == TableCosts(rates, s.s3TableBased) && s3Cost == SumCosts(s3Zones);
    var sqlCost := CalculateSqlWarehouseCost(s, rates);
    assert s.dbxJobs == jobs;
    assert forall t :: t in dbxData ==> t in rates.dbuRates && t in jobs;
    var databricksTotal := DatabricksTotal(rates.tierOrder, dbxData);
    var totalCost := databricksTotal + s3Cost + sqlCost;
    var projected := Projection(databricksTotal, s3Cost, sqlCost, s.growthPercent);
    var distribution := CostDistribution(databricksTotal, s3Cost, sqlCost);
    summary := Summary(dbxData, s3Zones, s3Cost, sqlCost, databricksTotal, totalCost, projected, distribution);
  }

  /** One run of the page: initialise if needed, then recompute everything from
      the session's configuration, which a fresh session has just set to the defaults. */
  method Refresh(s: Session, rates: RateTables) returns (summary: Summary)
    requires rates.WellFormed() && s.Valid(rates)
    requires "Standard" in rates.s3Pricing
    modifies s
    ensures s.Valid(rates) && s.initialized
    ensures old(s.initialized) ==> unchanged(s)
    ensures !old(s.initialized) ==>
      && s.dbxJobs == InitialJobs(rates)
      && s.hasCalcMethod && s.calcMethod == "Direct Storage"
      && s.s3Direct == InitialDirectZones() && s.s3TableBased == InitialTableZones()
      && s.sqlWarehouses == InitialWarehouses(rates) && s.growthPercent == 0.0
    ensures Describes(summary, rates, s.dbxJobs, s.s3TableBased, s.sqlWarehouses, s.growthPercent)
  {
    s.Init(rates);
    summary := Recompute(s, rates);
  }

  /** One run of the page with the value the growth input returns. The money totals
      are computed right after initialisation; the tabs' edits come next and change
      the configuration but not the figures already computed; only then does the
      summary column store the growth and project at it. No money total depends on
      the growth, so the summary is what `Describes` states at the new growth. */
  method PageRun(s: Session, rates: RateTables, growthPercent: real) returns (summary: Summary)
    requires rates.WellFormed() && s.Valid(rates)
    requires "Standard" in rates.s3Pricing
    requires 0.0 <= growthPercent <= 100.0
    modifies s
    ensures s.Valid(rates) && s.initialized && s.growthPercent == growthPercent
    ensures old(s.initialized) ==>
      && s.dbxJobs == old(s.dbxJobs) && s.hasCalcMethod && s.calcMethod == old(s.calcMethod)
      && s.s3Direct == old(s.s3Direct) && s.s3TableBased == old(s.s3TableBased)
      && s.sqlWarehouses == old(s.sqlWarehouses)
    ensures !old(s.initialized) ==>
      && s.dbxJobs == InitialJobs(rates)
      && s.hasCalcMethod && s.calcMethod == "Direct Storage"
      && s.s3Direct == InitialDirectZones() && s.s3TableBased == InitialTableZones()
      && s.sqlWarehouses == InitialWarehouses(rates)
    ensures Describes(summary, rates, s.dbxJobs, s.s3TableBased, s.sqlWarehouses, growthPercent)
  {
    summary := Refresh(s, rates);
    SetGrowth(s, rates, growthPercent);
    summary := summary.(projected := Projection(summary.databricksTotal, summary.s3Cost, summary.sqlCost, s.growthPercent));
  }

  /** A fresh session shows the default configuration's costs: no tier and no
      zone costs anything, so the grand total is the default warehouse's cost,
      and with no growth the projection is twelve months of that. */
  lemma FreshSummary(rates: RateTables, summary: Summary)
    requires rates.WellFormed() && "Standard" in rates.s3Pricing
    requires Describes(summary, rates, InitialJobs(rates), InitialTableZones(), InitialWarehouses(rates), 0.0)
    ensures summary.totalCost == WarehouseCost(rates, InitialWarehouses(rates)[0])
    ensures summary.projected == 12.0 * summary.totalCost
  {
    InitialTotals(rates, summary.dbxData);
  }

  /** The default configuration: every tier costs nothing, storage costs nothing
      under the table-based method, so the grand total is the default warehouse's
      cost, and with no growth the projection is twelve times that. */
  lemma InitialTotals(rates: RateTables, data: map<string, TierCost>)
    requires rates.WellFormed() && "Standard" in rates.s3Pricing
    requires forall t :: t in data <==> t in rates.dbuRates
    requires forall t :: t in data ==> t in InitialJobs(rates) && data[t] == CalculateTier(rates, InitialJobs(rates)[t], t)
    ensures forall t :: t in rates.tierOrder ==> t in data
    ensures DatabricksTotal(rates.tierOrder, data) == 0.0
    ensures SumCosts(TableCosts(rates, InitialTableZones())) == 0.0
    ensures WarehouseTotal(rates, InitialWarehouses(rates)) == WarehouseCost(rates, InitialWarehouses(rates)[0])
    ensures var total := WarehouseCost(rates, InitialWarehouses(rates)[0]);
      Projection(0.0, 0.0, total, 0.0) == 12.0 * total
  {
    forall t | t in rates.tierOrder
      ensures t in data && data[t].dbuCost == 0.0 && data[t].ec2Cost == 0.0
    {
      InitialTierCostsNothing(rates, t);
    }
    InitialTiersCostNothing(rates.tierOrder, data);
    InitialS3CostIsZero(rates);
    var ws := InitialWarehouses(rates);
    assert ws[..0] == [];
  }

  /** A tier's single default job costs nothing: its runtime is 0. */
  lemma InitialTierCostsNothing(rates: RateTables, t: string)
    requires rates.WellFormed() && t in rates.tierOrder
    ensures t in InitialJobs(rates)
    ensures CalculateTier(rates, InitialJobs(rates)[t], t).dbuCost == 0.0
    ensures CalculateTier(rates, InitialJobs(rates)[t], t).ec2Cost == 0.0
  {
    InitialJobsShape(rates, t);
    var jobs := InitialJobs(rates)[t];
    var r := CalculateTier(rates, jobs, t);
    assert r.rows[0] == CostJob(rates, jobs[0]);
    assert NodeHours(jobs[0]) == 0.0;
    assert r.rows[..0] == [];
    assert SumDbu(r.rows) == r.rows[0].dbuCost;
    assert SumEc2(r.rows) == r.rows[0].ec2Cost;
  }

  /** Tiers that each cost nothing sum to nothing. */
  lemma {:induction false} InitialTiersCostNothing(tiers: seq<string>, data: map<string, TierCost>)
    requires forall t :: t in tiers ==> t in data && data[t].dbuCost == 0.0 && data[t].ec2Cost == 0.0
    ensures DatabricksTotal(tiers, data) == 0.0
  {
    if tiers != [] {
      InitialTiersCostNothing(tiers[..|tiers| - 1], data);
    }
  }

  /** Choosing "Direct Storage" on the radio does not bring the direct method back:
      the calculator still takes the table-based branch, because the key is present. */
  method DirectChoiceStillUsesTables(s: Session, rates: RateTables) returns (zones: seq<(string, real)>)
    requires rates.WellFormed() && s.Valid(rates) && s.initialized
    requires "Standard" in rates.s3Pricing
    modifies s`hasCalcMethod, s`calcMethod
    ensures s.calcMethod == "Direct Storage"
    ensures zones == TableCosts(rates, s.s3TableBased)
  {
    SelectCalcMethod(s, rates, "Direct Storage");
    var total;
    zones, total := CalculateS3CostPerZone(s, rates);
  }
}
