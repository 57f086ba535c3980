// The configuration the estimator keeps for one user session, and its one-time
// initialisation with the default configuration.

module State {
  import opened Strings
  import opened Rates

  /** One row of a tier's job table: "#", "Job Name", "Runtime (hrs)",
      "Runs/Month", "Instance Type", "Nodes", "Photon", "Spot". */
  datatype JobRow = JobRow(
    num: int,
    name: string,
    runtimeHours: real,
    runsPerMonth: int,
    instanceType: string,
    nodes: int,
    photon: bool,
    spot: bool)

  /** A storage zone configured by the direct method. */
  datatype DirectZone = DirectZone(storageClass: string, amount: real, unit: string, put: real, get: real)

  /** A storage zone configured by the table-based method. */
  datatype TableZone = TableZone(tables: int, records: int, sizeKb: real)

  /** One SQL warehouse. */
  datatype Warehouse = Warehouse(
    id: string,
    name: string,
    size: string,
    hoursPerDay: int,
    daysPerMonth: int,
    autoSuspend: bool,
    suspendAfter: int)

  /** The "#" column reads 1, 2, ..., n down the table. */
  predicate Numbered(jobs: seq<JobRow>)
  {
    forall i :: 0 <= i < |jobs| ==> jobs[i].num == i + 1
  }

  /** The keys of an insertion-ordered dictionary, in order. */
  function Names<T>(entries: seq<(string, T)>): (ns: seq<string>)
    ensures |ns| == |entries|
    ensures forall i :: 0 <= i < |entries| ==> ns[i] == entries[i].0
  {
    seq(|entries|, i requires 0 <= i < |entries| => entries[i].0)
  }

  predicate Distinct(ns: seq<string>)
  {
    forall i, j :: 0 <= i < j < |ns| ==> ns[i] != ns[j]
  }

  /** The id a warehouse gets when it is the `i`-th one created. */
  function WarehouseId(i: nat): string
  {
    "warehouse_" + DecimalString(i)
  }

  /** Each warehouse's id is "warehouse_<its position>". */
  predicate IdsInOrder(ws: seq<Warehouse>)
  {
    forall i :: 0 <= i < |ws| ==> ws[i].id == WarehouseId(i)
  }

  /** A warehouse with the default usage: 8 hours a day, 22 days a month,
      auto-suspend on after 10 minutes. */
  function DefaultWarehouse(id: string, name: string, size: string): Warehouse
  {
    Warehouse(id, name, size, 8, 22, true, 10)
  }

  /** Every tier starts with one idle job named after the part of its label after " / ". */
  function InitialJobs(rates: RateTables): (jobs: map<string, seq<JobRow>>)
    requires rates.WellFormed()
  {
    map t | t in rates.dbuRates ::
      [JobRow(1, Split(t, " / ")[1] + " Job 1", 0.0, 0, rates.instanceList[0], 1, false, false)]
  }

  function InitialDirectZones(): seq<(string, DirectZone)>
  {
    [ ("Landing Zone", DirectZone("Standard", 0.0, "GB", 0.0, 0.0)),
      ("L0 / Bronze", DirectZone("Standard", 0.0, "GB", 0.0, 0.0)),
      ("L1 / Silver", DirectZone("Infrequent Access", 0.0, "GB", 0.0, 0.0)),
      ("L2 / Gold", DirectZone("Standard", 0.0, "GB", 0.0, 0.0)) ]
  }

  function InitialTableZones(): seq<(string, TableZone)>
  {
    [ ("Landing Zone", TableZone(0, 100000, 1.0)),
      ("L0 / Bronze", TableZone(0, 100000, 1.5)),
      ("L1 / Silver", TableZone(0, 100000, 2.0)),
      ("L2 / Gold", TableZone(0, 100000, 2.5)) ]
  }

  /** One default warehouse, "Primary BI Warehouse" of the first size, with the
      id of position 0. */
  function InitialWarehouses(rates: RateTables): (ws: seq<Warehouse>)
    requires rates.WellFormed()
    ensures |ws| == 1 && IdsInOrder(ws)
  {
    [DefaultWarehouse(WarehouseId(0), "Primary BI Warehouse", rates.warehouseSizes[0])]
  }

  /** The job tables cover exactly the tiers and each is numbered from 1. */
  predicate JobsValid(jobs: map<string, seq<JobRow>>, rates: RateTables)
  {
    && (forall t :: t in jobs ==> t in rates.dbuRates)
    && (forall t :: t in rates.dbuRates ==> t in jobs)
    && (forall t :: t in jobs ==> Numbered(jobs[t]))
  }

  /** Both zone dictionaries list the same distinct zones in the same order. */
  predicate ZonesValid(direct: seq<(string, DirectZone)>, tableBased: seq<(string, TableZone)>)
  {
    Names(direct) == Names(tableBased) && Distinct(Names(direct))
  }

  /** Replacing one tier's table by a numbered one keeps the job tables valid. */
  lemma JobsValidUpdate(jobs: map<string, seq<JobRow>>, rates: RateTables, tier: string, rows: seq<JobRow>)
    requires JobsValid(jobs, rates) && tier in jobs && Numbered(rows)
    ensures JobsValid(jobs[tier := rows], rates)
  {
  }

  /** The per-session store. A key that Python's session state may lack is a
      field whose absence is recorded explicitly (`initialized`, `hasCalcMethod`). */
  class Session {
    var initialized: bool
    var dbxJobs: map<string, seq<JobRow>>
    var hasCalcMethod: bool
    var calcMethod: string
    var s3Direct: seq<(string, DirectZone)>
    var s3TableBased: seq<(string, TableZone)>
    var sqlWarehouses: seq<Warehouse>
    var growthPercent: real

    /** What an initialised session keeps true between page refreshes. */
    ghost predicate Valid(rates: RateTables)
      reads this
    {
      initialized ==>
        && JobsValid(dbxJobs, rates)
        && hasCalcMethod
        && ZonesValid(s3Direct, s3TableBased)
        && IdsInOrder(sqlWarehouses)
        && 0.0 <= growthPercent <= 100.0
    }

    /** A fresh session: no key set yet. */
    constructor ()
      ensures !initialized && !hasCalcMethod
      ensures dbxJobs == map[] && s3Direct == [] && s3TableBased == [] && sqlWarehouses == []
    {
      initialized := false;
      dbxJobs := map[];
      hasCalcMethod := false;
      calcMethod := "";
      s3Direct := [];
      s3TableBased := [];
      sqlWarehouses := [];
      growthPercent := 0.0;
    }

    /** Sets up the default configuration on the first call; later calls do nothing. */
    method Init(rates: RateTables)
      requires rates.WellFormed() && Valid(rates)
      modifies this
      ensures initialized && Valid(rates)
      ensures old(initialized) ==> unchanged(this)
      ensures !old(initialized) ==>
        && dbxJobs == InitialJobs(rates)
        && hasCalcMethod && calcMethod == "Direct Storage"
        && s3Direct == InitialDirectZones()
        && s3TableBased == InitialTableZones()
        && sqlWarehouses == InitialWarehouses(rates)
        && growthPercent == 0.0
    {
      if initialized {
        return;
      }
      InitialJobsValid(rates);
      InitialZonesAgree();
      initialized := true;
      dbxJobs := InitialJobs(rates);
      hasCalcMethod, calcMethod := true, "Direct Storage";
      s3Direct := InitialDirectZones();
      s3TableBased := InitialTableZones();
      sqlWarehouses := InitialWarehouses(rates);
      growthPercent := 0.0;
    }
  }

  /** Every tier of a freshly initialised session holds exactly one idle job
      numbered 1: no runtime, no runs, one node, Photon and Spot off. */
  lemma InitialJobsShape(rates: RateTables, t: string)
    requires rates.WellFormed() && t in rates.tierOrder
    ensures t in InitialJobs(rates)
    ensures |InitialJobs(rates)[t]| == 1 && Numbered(InitialJobs(rates)[t])
    ensures var j := InitialJobs(rates)[t][0];
      j.runtimeHours == 0.0 && j.runsPerMonth == 0 && j.nodes == 1 && !j.photon && !j.spot
  {
  }

  /** The initial job tables cover exactly the tiers and are numbered from 1. */
  lemma InitialJobsValid(rates: RateTables)
    requires rates.WellFormed()
    ensures JobsValid(InitialJobs(rates), rates)
  {
  }

  /** The two zone dictionaries of the default configuration list the same four
      distinct zones in the same order. */
  lemma InitialZonesAgree()
    ensures ZonesValid(InitialDirectZones(), InitialTableZones())
    ensures |InitialDirectZones()| == 4
  {
  }
}
