// The logic inside the page's render functions: the 12-month projection and
// the cost-distribution filter of the summary column, and the edits the tabs
// make to the session's configuration (resizing a tier's job table, adding a
// warehouse, overwriting zone and warehouse settings, the method choice, the
// growth rate).

module UiComponents {
  import opened Strings
  import opened Rates
  import opened State

  // ---------------------------------------------------------------- projection

  function Pow(r: real, n: nat): real
  {
    if n == 0 then 1.0 else r * Pow(r, n - 1)
  }

  /** a + a*r + ... + a*r^(n-1): month 1 costs a, each later month r times the one before. */
  function GeometricSum(a: real, r: real, n: nat): real
  {
    if n == 0 then 0.0 else GeometricSum(a, r, n - 1) + a * Pow(r, n - 1)
  }

  /** The closed form of the geometric series, multiplied out: (r - 1) * sum == a * (r^n - 1). */
  lemma {:induction false} GeometricClosedForm(a: real, r: real, n: nat)
    ensures (r - 1.0) * GeometricSum(a, r, n) == a * (Pow(r, n) - 1.0)
  {
    if n > 0 {
      GeometricClosedForm(a, r, n - 1);
      var p, g := Pow(r, n - 1), GeometricSum(a, r, n - 1);
      assert GeometricSum(a, r, n) == g + a * p;
      assert Pow(r, n) == r * p;
      Telescope(a, r, p, g);
    }
  }

  /** One step of the closed form: if (r - 1) * g == a * (p - 1), adding the next
      term a * p to g makes it a * (r * p - 1). */
  lemma Telescope(a: real, r: real, p: real, g: real)
    requires (r - 1.0) * g == a * (p - 1.0)
    ensures (r - 1.0) * (g + a * p) == a * (r * p - 1.0)
  {
    assert (r - 1.0) * (g + a * p) == (r - 1.0) * g + (r - 1.0) * (a * p);
    assert (r - 1.0) * (a * p) == a * (r * p) - a * p;
    assert a * (r * p - 1.0) == a * (r * p) - a;
  }

  /** The summary column's 12-month projected total: the Databricks and S3 part
      grows by `growthPercent` a month, the SQL warehouse part stays flat. */
  function Projection(databricks: real, s3: real, sql: real, growthPercent: real): (p: real)
    ensures growthPercent <= 0.0 ==> p == 12.0 * (databricks + s3) + 12.0 * sql
  {
    var current := databricks + s3;
    var growing :=
      if growthPercent > 0.0 then
        var factor := 1.0 + growthPercent / 100.0;
        if factor != 1.0 then current * (Pow(factor, 12) - 1.0) / (factor - 1.0)
        else current * 12.0
      else current * 12.0;
    growing + sql * 12.0
  }

  /** With positive growth the projection is exactly the twelve monthly costs
      a, a*r, ..., a*r^11 (r = 1 + g/100) plus twelve flat SQL months; in
      particular the factor is never 1, so the fallback branch is never taken. */
  lemma ProjectionIsTwelveMonths(databricks: real, s3: real, sql: real, growthPercent: real)
    requires growthPercent > 0.0
    ensures 1.0 + growthPercent / 100.0 != 1.0
    ensures Projection(databricks, s3, sql, growthPercent) ==
      GeometricSum(databricks + s3, 1.0 + growthPercent / 100.0, 12) + 12.0 * sql
  {
    var a, r := databricks + s3, 1.0 + growthPercent / 100.0;
    var g := GeometricSum(a, r, 12);
    GeometricClosedForm(a, r, 12);
    DivideOut(a * (Pow(r, 12) - 1.0), r - 1.0, g);
  }

  lemma DivideOut(x: real, d: real, q: real)
    requires d != 0.0 && d * q == x
    ensures x / d == q
  {
  }

  /** Without growth the projection is also the twelve-month sum, each month equal. */
  lemma {:induction false} FlatMonthsSum(a: real, n: nat)
    ensures GeometricSum(a, 1.0, n) == (n as real) * a
  {
    if n > 0 {
      FlatMonthsSum(a, n - 1);
      OnePow(n - 1);
    }
  }

  lemma {:induction false} OnePow(n: nat)
    ensures Pow(1.0, n) == 1.0
  {
    if n > 0 {
      OnePow(n - 1);
    }
  }

  /** The SQL warehouse part never grows: what the projection adds beyond twelve
      months of SQL cost does not depend on the SQL cost. */
  lemma SqlDoesNotGrow(databricks: real, s3: real, sql1: real, sql2: real, growthPercent: real)
    ensures Projection(databricks, s3, sql1, growthPercent) - 12.0 * sql1 ==
            Projection(databricks, s3, sql2, growthPercent) - 12.0 * sql2
  {
  }

  lemma {:induction false} PowAtLeastOne(r: real, n: nat)
    requires r >= 1.0
    ensures Pow(r, n) >= 1.0
  {
    if n > 0 {
      PowAtLeastOne(r, n - 1);
      assert r * Pow(r, n - 1) >= 1.0 * Pow(r, n - 1);
    }
  }

  lemma {:induction false} GeometricSumAtLeast(a: real, r: real, n: nat)
    requires a >= 0.0 && r >= 1.0
    ensures GeometricSum(a, r, n) >= (n as real) * a
  {
    if n > 0 {
      GeometricSumAtLeast(a, r, n - 1);
      PowAtLeastOne(r, n - 1);
      assert a * Pow(r, n - 1) >= a * 1.0;
    }
  }

  /** Growth never lowers the projection below twelve months of today's costs. */
  lemma ProjectionAtLeastTwelveMonths(databricks: real, s3: real, sql: real, growthPercent: real)
    requires databricks + s3 >= 0.0
    requires 0.0 <= growthPercent <= 100.0
    ensures Projection(databricks, s3, sql, growthPercent) >= 12.0 * (databricks + s3 + sql)
  {
    if growthPercent > 0.0 {
      ProjectionIsTwelveMonths(databricks, s3, sql, growthPercent);
      GeometricSumAtLeast(databricks + s3, 1.0 + growthPercent / 100.0, 12);
    }
  }

  lemma {:induction false} PowMonotone(r: real, s: real, n: nat)
    requires 1.0 <= r <= s
    ensures Pow(r, n) <= Pow(s, n)
  {
    if n > 0 {
      PowMonotone(r, s, n - 1);
      PowAtLeastOne(r, n - 1);
      assert r * Pow(r, n - 1) <= s * Pow(r, n - 1);
      assert s * Pow(r, n - 1) <= s * Pow(s, n - 1);
    }
  }

  lemma {:induction false} GeometricSumMonotone(a: real, r: real, s: real, n: nat)
    requires a >= 0.0 && 1.0 <= r <= s
    ensures GeometricSum(a, r, n) <= GeometricSum(a, s, n)
  {
    if n > 0 {
      GeometricSumMonotone(a, r, s, n - 1);
      PowMonotone(r, s, n - 1);
      assert a * Pow(r, n - 1) <= a * Pow(s, n - 1);
    }
  }

  /** The 0..100 bound on the growth input caps the growing part at 4095 months'
      worth of today's cost (doubling every month). */
  lemma ProjectionAtMostDoubling(databricks: real, s3: real, sql: real, growthPercent: real)
    requires databricks + s3 >= 0.0
    requires 0.0 <= growthPercent <= 100.0
    ensures Projection(databricks, s3, sql, growthPercent) <= 4095.0 * (databricks + s3) + 12.0 * sql
  {
    var a := databricks + s3;
    GeometricClosedForm(a, 2.0, 12);
    assert Pow(2.0, 12) == 4096.0;
    assert GeometricSum(a, 2.0, 12) == 4095.0 * a;
    if growthPercent > 0.0 {
      ProjectionIsTwelveMonths(databricks, s3, sql, growthPercent);
      GeometricSumMonotone(a, 1.0 + growthPercent / 100.0, 2.0, 12);
    }
  }

  // ---------------------------------------------------------------- cost distribution

  /** `a` lists some of the entries of `b`, in the order `b` lists them. */
  predicate IsSubsequence<T(==)>(a: seq<T>, b: seq<T>)
  {
    if a == [] then true
    else if b == [] then false
    else if a[0] == b[0] then IsSubsequence(a[1..], b[1..])
    else IsSubsequence(a, b[1..])
  }

  /** The entries with a positive value, in their original order. */
  function KeepPositive(entries: seq<(string, real)>): (kept: seq<(string, real)>)
    ensures forall p :: p in kept <==> p in entries && p.1 > 0.0
    ensures IsSubsequence(kept, entries)
  {
    if entries == [] then []
    else
      var rest := KeepPositive(entries[1..]);
      if entries[0].1 > 0.0 then [entries[0]] + rest else rest
  }

  /** The slices of the cost donut: the components with a positive cost, in the
      order Databricks, S3, SQL; an empty result is the "no costs" message. */
  function CostDistribution(databricks: real, s3: real, sql: real): (shown: seq<(string, real)>)
    ensures ("Databricks & Compute", databricks) in shown <==> databricks > 0.0
    ensures ("S3 Storage", s3) in shown <==> s3 > 0.0
    ensures ("SQL Warehouse", sql) in shown <==> sql > 0.0
    ensures forall p :: p in shown ==> p.1 > 0.0
    ensures shown == [] <==> databricks <= 0.0 && s3 <= 0.0 && sql <= 0.0
    ensures IsSubsequence(shown, [("Databricks & Compute", databricks), ("S3 Storage", s3), ("SQL Warehouse", sql)])
  {
    var all := [("Databricks & Compute", databricks), ("S3 Storage", s3), ("SQL Warehouse", sql)];
    var shown := KeepPositive(all);
    assert all[0] in all && all[1] in all && all[2] in all;
    assert shown != [] ==> shown[0] in shown;
    shown
  }

  // ---------------------------------------------------------------- job tables

  /** A row appended by the job-count input; its "#" is filled in by renumbering. */
  function NewJob(instance: string): JobRow
  {
    JobRow(0, "New Job", 0.0, 0, instance, 1, false, false)
  }

  /** `count` new rows. */
  function NewJobs(instance: string, count: nat): (rows: seq<JobRow>)
    ensures |rows| == count && forall i :: 0 <= i < count ==> rows[i] == NewJob(instance)
  {
    seq(count, _ => NewJob(instance))
  }

  /** Rewrites the "#" column as 1..n, leaving every other field alone. */
  function Renumber(jobs: seq<JobRow>): (r: seq<JobRow>)
    ensures |r| == |jobs| && Numbered(r)
    ensures forall i :: 0 <= i < |jobs| ==> r[i] == jobs[i].(num := i + 1)
  {
    seq(|jobs|, i requires 0 <= i < |jobs| => jobs[i].(num := i + 1))
  }

  /** A tier's job table after the job count is set to `n`: unchanged if the count
      is the same, otherwise new rows appended or rows cut from the end, then renumbered. */
  function Resized(jobs: seq<JobRow>, n: nat, instance: string): (r: seq<JobRow>)
    ensures |r| == n
    ensures n == |jobs| ==> r == jobs
    ensures n != |jobs| ==> Numbered(r)
    ensures forall i :: 0 <= i < n && i < |jobs| ==> r[i].(num := jobs[i].num) == jobs[i]
    ensures forall i :: |jobs| <= i < n ==> r[i] == NewJob(instance).(num := i + 1)
    ensures Numbered(jobs) ==> Numbered(r) && forall i :: 0 <= i < n && i < |jobs| ==> r[i] == jobs[i]
  {
    if n == |jobs| then jobs
    else if n > |jobs| then Renumber(jobs + NewJobs(instance, n - |jobs|))
    else Renumber(jobs[..n])
  }

  /** Builds the resized table step by step: append new rows or cut from the
      end, then renumber. */
  method ResizeTable(current: seq<JobRow>, numJobs: nat, instance: string) returns (updated: seq<JobRow>)
    requires numJobs != |current|
    ensures updated == Resized(current, numJobs, instance)
  {
    if numJobs > |current| {
      updated := current + NewJobs(instance, numJobs - |current|);
    } else {
      updated := current[..numJobs];
    }
    updated := Renumber(updated);
  }

  /** The job-count input of one tier (0 to 20 jobs). */
  method ResizeJobs(s: Session, rates: RateTables, tier: string, numJobs: int)
    requires rates.WellFormed() && s.Valid(rates) && s.initialized
    requires tier in s.dbxJobs && 0 <= numJobs <= 20
    modifies s`dbxJobs
    ensures s.Valid(rates)
    ensures s.dbxJobs == old(s.dbxJobs)[tier := Resized(old(s.dbxJobs)[tier], numJobs, rates.instanceList[0])]
  {
    var current := s.dbxJobs[tier];
    assert ZonesValid(s.s3Direct, s.s3TableBased) && IdsInOrder(s.sqlWarehouses);
    if numJobs != |current| {
      var updated := ResizeTable(current, numJobs, rates.instanceList[0]);
      JobsValidUpdate(s.dbxJobs, rates, tier, updated);
      s.dbxJobs := s.dbxJobs[tier := updated];
      assert s.dbxJobs == old(s.dbxJobs)[tier := Resized(current, numJobs, rates.instanceList[0])];
    } else {
      assert s.dbxJobs == s.dbxJobs[tier := current];
    }
  }

  /** The tab's "Total Jobs" metric: the number of rows over every tier. */
  function TotalJobs(tiers: seq<string>, jobs: map<string, seq<JobRow>>): nat
    requires forall t :: t in tiers ==> t in jobs
  {
    if tiers == [] then 0 else TotalJobs(tiers[..|tiers| - 1], jobs) + |jobs[tiers[|tiers| - 1]]|
  }

  /** Replacing one listed tier's table changes the job count by exactly the
      change in that table's length; other tiers' rows are all still counted. */
  lemma {:induction false} TotalJobsAfterResize(tiers: seq<string>, jobs: map<string, seq<JobRow>>,
                                                 tier: string, rows: seq<JobRow>)
    requires forall t :: t in tiers ==> t in jobs
    requires tier in jobs
    requires forall i, j :: 0 <= i < j < |tiers| ==> tiers[i] != tiers[j]
    ensures TotalJobs(tiers, jobs[tier := rows]) ==
      TotalJobs(tiers, jobs) + (if tier in tiers then |rows| - |jobs[tier]| else 0)
  {
    if tiers != [] {
      var prefix, last := tiers[..|tiers| - 1], tiers[|tiers| - 1];
      assert forall t :: t in prefix ==> t in tiers;
      TotalJobsAfterResize(prefix, jobs, tier, rows);
      assert tier in tiers <==> tier in prefix || tier == last;
      if tier == last {
        assert tier !in prefix;
      }
    }
  }

  // ---------------------------------------------------------------- warehouses

  /** The "Add SQL Warehouse" button: appends one default warehouse whose id is
      "warehouse_<number of warehouses before>". */
  method AddWarehouse(s: Session, rates: RateTables)
    requires rates.WellFormed() && s.Valid(rates)
    modifies s`sqlWarehouses
    ensures s.Valid(rates)
    ensures s.sqlWarehouses == old(s.sqlWarehouses) +
      [DefaultWarehouse(WarehouseId(|old(s.sqlWarehouses)|), "New Warehouse", rates.warehouseSizes[0])]
  {
    var newId := "warehouse_" + DecimalString(|s.sqlWarehouses|);
    s.sqlWarehouses := s.sqlWarehouses +
      [Warehouse(newId, "New Warehouse", rates.warehouseSizes[0], 8, 22, true, 10)];
  }

  /** The warehouse form: name, size, hours per day (0..24), days per month (0..31)
      are overwritten in place; id, auto-suspend and suspend-after are kept. */
  method EditWarehouse(s: Session, rates: RateTables, i: nat, name: string, size: string,
                       hoursPerDay: int, daysPerMonth: int)
    requires s.Valid(rates) && i < |s.sqlWarehouses|
    requires size in rates.warehouseSizes
    requires 0 <= hoursPerDay <= 24 && 0 <= daysPerMonth <= 31
    modifies s`sqlWarehouses
    ensures s.Valid(rates)
    ensures s.sqlWarehouses == old(s.sqlWarehouses)[i := old(s.sqlWarehouses)[i].(
      name := name, size := size, hoursPerDay := hoursPerDay, daysPerMonth := daysPerMonth)]
  {
    var w := s.sqlWarehouses[i];
    w := w.(name := name, size := size, hoursPerDay := hoursPerDay, daysPerMonth := daysPerMonth);
    s.sqlWarehouses := s.sqlWarehouses[i := w];
  }

  /** No two warehouses share an id, since each id spells out its position. */
  lemma IdsAreDistinct(ws: seq<Warehouse>)
    requires IdsInOrder(ws)
    ensures forall i, j :: 0 <= i < j < |ws| ==> ws[i].id != ws[j].id
  {
    forall i, j | 0 <= i < j < |ws|
      ensures ws[i].id != ws[j].id
    {
      if ws[i].id == ws[j].id {
        var prefix := "warehouse_";
        assert WarehouseId(i)[|prefix|..] == DecimalString(i);
        assert WarehouseId(j)[|prefix|..] == DecimalString(j);
        DecimalInjective(i, j);
      }
    }
  }

  // ---------------------------------------------------------------- S3 settings

  /** The direct-method form of zone `k`: class, amount (at least 0) and unit are
      overwritten in place; PUT and GET counts are kept. */
  method EditDirectZone(s: Session, rates: RateTables, k: nat, storageClass: string, amount: real, unit: string)
    requires s.Valid(rates) && k < |s.s3Direct|
    requires amount >= 0.0 && (unit == "GB" || unit == "TB")
    modifies s`s3Direct
    ensures s.Valid(rates)
    ensures s.s3Direct == old(s.s3Direct)[k := (old(s.s3Direct)[k].0,
      old(s.s3Direct)[k].1.(storageClass := storageClass, amount := amount, unit := unit))]
  {
    var (zone, config) := s.s3Direct[k];
    config := config.(storageClass := storageClass, amount := amount, unit := unit);
    s.s3Direct := s.s3Direct[k := (zone, config)];
    assert Names(s.s3Direct) == Names(old(s.s3Direct));
  }

  /** The table-based form of zone `k`: table count, average records and average
      record size (entered as a whole number of KB) are overwritten in place. */
  method EditTableZone(s: Session, rates: RateTables, k: nat, tables: nat, records: nat, sizeKb: nat)
    requires s.Valid(rates) && k < |s.s3TableBased|
    modifies s`s3TableBased
    ensures s.Valid(rates)
    ensures s.s3TableBased == old(s.s3TableBased)[k := (old(s.s3TableBased)[k].0,
      TableZone(tables, records, sizeKb as real))]
  {
    var zone := s.s3TableBased[k].0;
    s.s3TableBased := s.s3TableBased[k := (zone, TableZone(tables, records, sizeKb as real))];
    assert Names(s.s3TableBased) == Names(old(s.s3TableBased));
  }

  /** The calculation-method radio: stores the chosen label under `s3_calc_method`. */
  method SelectCalcMethod(s: Session, rates: RateTables, choice: string)
    requires s.Valid(rates)
    requires choice == "Direct Storage" || choice == "Table-Based"
    modifies s`hasCalcMethod, s`calcMethod
    ensures s.Valid(rates)
    ensures s.hasCalcMethod && s.calcMethod == choice
  {
    s.hasCalcMethod, s.calcMethod := true, choice;
  }

  /** The growth input, bounded to 0..100 percent. */
  method SetGrowth(s: Session, rates: RateTables, growthPercent: real)
    requires s.Valid(rates)
    requires 0.0 <= growthPercent <= 100.0
    modifies s`growthPercent
    ensures s.Valid(rates)
    ensures s.growthPercent == growthPercent
  {
    s.growthPercent := growthPercent;
  }
}
