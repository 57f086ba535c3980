# DBU Calculator — a verified model of the pricing layer

The DBU Calculator is a Streamlit page that estimates a team's monthly cloud bill. The bill has three parts:

- Databricks jobs: DBU and EC2 compute, per tier of jobs.
- S3 storage, per data-lake zone.
- Databricks SQL warehouses.

The page projects the Databricks and S3 part twelve months ahead under a monthly growth rate. This project models the logic behind the page and proves what it computes:

- **Calculators.** The three calculators of `calculations.py`:
  - per-tier job costs (`Calculations.CalculateTier`);
  - the S3 cost per zone, under either calculation method (`Calculations.CalculateS3CostPerZone`);
  - the SQL warehouse cost (`Calculations.CalculateSqlWarehouseCost`).
- **The page script.** The script of `main.py`:
  - initialise;
  - cost every tier in table order (`App.CalculateDatabricks`);
  - cost storage and warehouses;
  - form the Databricks total and the grand total (`App.Recompute`, `App.Refresh`).
- **Session state.** The per-session store and its one-time initialiser from `state.py`, as the class `State.Session` with its method `Init`.
- **Summary column and tabs.** The real logic inside the render functions of `ui_components.py`:
  - the 12-month geometric projection and the "non-zero costs" donut filter;
  - resizing and renumbering a tier's job table;
  - appending a default warehouse;
  - the in-place edits the forms make to zones, warehouses, the calculation method and the growth rate.

Some modelling choices:

- **Money.** Amounts are `real`.
- **Rate tables.** The tables of `data.py` (`DBU_RATES`, `FLAT_INSTANCE_LIST`, `S3_PRICING`, …) are not part of this model. Every operation takes them as a `Rates.RateTables` value.
- **Zone dictionaries.** The insertion-ordered zone dictionaries are sequences of `(zone, config)` pairs.
- **The `s3_calc_method` key.** Whether the key is present in the session is the explicit field `hasCalcMethod`, because the S3 calculator branches on the key's presence, not on its value.
- **String operations.** Python's `str.split` and `str(n)` are modelled in `strings.dfy`. They come with a split/join round trip and a decimal round trip. The round trip is what shows that warehouse ids never collide.

Files:

- `strings.dfy` (module `Strings`): the string operations.
- `rates.dfy` (module `Rates`): the rate-table parameter.
- `state.dfy` (module `State`): row and zone records, the session class and `Init`.
- `calculations.dfy` (module `Calculations`): the three calculators.
- `ui.dfy` (module `UiComponents`): projection, distribution, table resize and the form edits.
- `app.dfy` (module `App`): the page script.

Two behaviours of the code look unintended. The model keeps both exactly as written.

- **DBU Cost has no rate.** The "DBU Cost" of a job row is runtime × runs × nodes, with no rate applied. The Photon-adjusted rate is computed and then discarded. `Calculations.PhotonAndBaseRateIgnored` proves that neither Photon, nor the tier's base rate, nor the Photon multiplier changes any figure the calculator returns.
- **The S3 method follows the key, not the choice.** The S3 calculator chooses its method by whether `s3_calc_method` exists in the session, not by its value. The initialiser always creates it, so once the page is initialised the table-based method is always used, whatever the radio button says. `App.Recompute` states this. The client method `App.DirectChoiceStillUsesTables` exhibits it after choosing "Direct Storage". `Calculations.RepeatedS3Calculation` takes a session that holds the zone dictionaries but lacks the `s3_calc_method` key. It shows the direct branch taken once and the table-based branch on the next call.

## Model

| member | source | states |
|---|---|---|
| Strings.Find | calculations.py:84 | the index found is the leftmost occurrence of the separator; no index means the separator never occurs |
| Strings.Split | state.py:16 | `str.split` always yields at least one piece |
| Strings.JoinSplit | state.py:16 | joining the pieces of `s.split(sep)` with `sep` gives back `s` |
| Strings.PrefixBefore | calculations.py:84 | `s.split(sep)[0]` is the prefix of `s` before the FIRST occurrence of `sep`: no occurrence starts in `s` before the cut, the prefix holds none, and `sep` starts right at the cut when the prefix is shorter than `s`; it is all of `s` when `s` has no separator |
| Strings.DigitChar | ui_components.py:247 | a digit renders as a character '0'..'9' |
| Strings.DecimalString | ui_components.py:247 | `str(n)` is a non-empty string of decimal digits |
| Strings.DecimalRoundTrip | ui_components.py:247 | reading `str(n)` back as a decimal number gives `n` |
| Strings.DecimalInjective | ui_components.py:247 | different counts render as different strings |
| State.Names | state.py:23-34 | the keys of a zone dictionary, in insertion order |
| State.WarehouseId | ui_components.py:247 | the id "warehouse_<i>"; no contract of its own: `UiComponents.IdsAreDistinct` proves that different positions give different ids |
| State.DefaultWarehouse | state.py:37-40 | a warehouse running 8 hours a day, 22 days a month, auto-suspend on after 10 minutes; no contract of its own: `State.Session.Init` and `UiComponents.AddWarehouse` state the warehouses built from it |
| State.InitialJobs | state.py:14-19 | the initial job tables; no contract of its own: `State.InitialJobsShape` and `State.InitialJobsValid` state what they hold |
| State.InitialDirectZones | state.py:23-28 | the four default direct zones; no contract of its own: `State.InitialZonesAgree` and `Calculations.InitialS3CostIsZero` state what they hold |
| State.InitialTableZones | state.py:29-34 | the four default table-based zones; no contract of its own: `State.InitialZonesAgree` and `Calculations.InitialS3CostIsZero` state what they hold |
| State.InitialWarehouses | state.py:37-40 | exactly one warehouse, whose id is "warehouse_0" |
| State.InitialJobsShape | state.py:14-19 | every tier starts with exactly one row: `#` 1, runtime 0, runs 0, one node, Photon and Spot off |
| State.InitialJobsValid | state.py:14-19 | the initial job tables cover exactly the tiers of DBU_RATES and are numbered 1..n |
| State.InitialZonesAgree | state.py:23-34 | the direct and table-based zone dictionaries list the same four distinct zones in the same order |
| State.JobsValidUpdate | ui_components.py:133-135 | storing a renumbered table under an existing tier keeps the job tables covering the tiers and numbered |
| State.Session.constructor | state.py:8-9 | a new session holds no key: not initialised, no calculation method |
| State.Session.Init | state.py:6-43 | first call: sets `initialized`, the tier tables, "Direct Storage", both zone dictionaries, the one default warehouse "warehouse_0" and growth 0.0, and leaves the session valid; any later call changes nothing |
| Calculations.NodeHours | calculations.py:26 | runtime × runs × nodes, zero whenever one factor is zero |
| Calculations.AdjustedDbuRate | calculations.py:18-21 | the Photon-adjusted rate is the tier's base rate when Photon is off (the calculator discards it) |
| Calculations.InstanceRate | calculations.py:25 | an unknown instance type has rate 0; without Spot the rate is the table's; never negative under non-negative tables |
| Calculations.Ec2Cost | calculations.py:24-27 | the "EC2 Cost" of a row whose instance type is unknown is 0 |
| Calculations.DbuCost | calculations.py:30-32 | the "DBU Cost" is 0 whenever runtime, runs or nodes is 0 |
| Calculations.CostJob | calculations.py:24-32 | a costed row carries its input row unchanged, and a row with no node-hours costs 0 DBU and 0 EC2 |
| Calculations.CostJobs | calculations.py:18-32 | one costed row per job row, each costed from that row alone |
| Calculations.CalculateTier | calculations.py:6-44 | an empty table gives no rows and totals (0, 0); otherwise one output row per input row carrying that input row unchanged, and the tier totals are the column sums of "DBU Cost" and "EC2 Cost"; needs the tier in DBU_RATES only when the table is non-empty |
| Calculations.SumDbu | calculations.py:41 | the "DBU Cost" column sum; no contract of its own: `Calculations.CalculateTier`, `Calculations.SumsAgree` and `Calculations.RowTotalsSplit` state what it is |
| Calculations.SumEc2 | calculations.py:42 | the "EC2 Cost" column sum; no contract of its own: `Calculations.CalculateTier`, `Calculations.SumsAgree` and `Calculations.RowTotalsSplit` state what it is |
| Calculations.TierRowCosts | calculations.py:24-32 | each row's DBU Cost is runtime × runs × nodes and its EC2 Cost is that times the (spot-adjusted) instance rate |
| Calculations.PhotonAndBaseRateIgnored | calculations.py:15-32 | rows differing only in Photon, under any tier and any base rate or Photon multiplier, give identical costs and totals |
| Calculations.SumsAgree | calculations.py:41-42 | rows with equal cost columns have equal tier totals |
| Calculations.RowTotalsSplit | calculations.py:36-42 | a tier's DBU total plus EC2 total is the sum of its rows' DBU + EC2 costs |
| Calculations.SumRowTotalsAppend | calculations.py:41-42 | the sum of row totals over a concatenation is the sum of the two parts' sums |
| Calculations.Ec2CostMonotone | calculations.py:24-26 | more runtime, runs or nodes never lower the EC2 cost |
| Calculations.SpotIsCheaper | calculations.py:25-26 | with a spot multiplier below 1, Spot makes a priced job with some node-hours strictly cheaper |
| Calculations.ClassPricing | calculations.py:56 | a missing storage class gets all-zero pricing; a known one its table entry |
| Calculations.StorageGb | calculations.py:57 | TB amounts count 1024 GB; any other unit is read as GB |
| Calculations.DirectZoneCost | calculations.py:56-63 | a zone storing nothing with no PUTs and no GETs costs 0 |
| Calculations.TableZoneCost | calculations.py:68-73 | a zone with no tables, no records or a zero record size costs 0 |
| Calculations.ZoneCostsNonNegative | calculations.py:56-73 | under non-negative prices, a zone with non-negative amounts costs at least 0 by either method |
| Calculations.SumCosts | calculations.py:63-75 | the running `total_s3_cost`; no contract of its own: `Calculations.CalculateS3CostPerZone`, `Calculations.ZeroCostsSumToZero` and `Calculations.SumCostsNonNegative` state what it is |
| Calculations.SumCostsNonNegative | calculations.py:63-75 | per-zone costs that are all at least 0 have a total of at least 0 |
| Calculations.TerabyteIsGigabytes | calculations.py:56-63 | x TB and 1024·x GB of the same zone cost the same |
| Calculations.UnknownClassCostsNothing | calculations.py:56-63 | a zone whose class has no pricing costs 0 whatever its amounts |
| Calculations.DirectCosts | calculations.py:55-64 | the direct-method per-zone dictionary has exactly the zones of the direct configuration, in order (one entry per zone); `Calculations.CostsPerZone` states each entry's value |
| Calculations.TableCosts | calculations.py:68-74 | the table-based per-zone dictionary has exactly the zones of the table-based configuration, in order (one entry per zone); `Calculations.CostsPerZone` states each entry's value |
| Calculations.CostsPerZone | calculations.py:55-75 | by either method, the i-th entry of `costs_per_zone` is the i-th zone's name with that zone's own cost (`Calculations.DirectZoneCost` or `Calculations.TableZoneCost`) |
| Calculations.CalculateS3CostPerZone | calculations.py:46-77 | on an initialised session (the zone dictionaries exist only then): without the `s3_calc_method` key it creates the key as "Direct Storage" and costs the direct configuration; with the key (whatever its value) it costs the table-based configuration at the Standard rate; the total is the sum of the per-zone values; a valid session stays valid |
| Calculations.RepeatedS3Calculation | calculations.py:53-75 | on an initialised session without the `s3_calc_method` key, a first call costs the direct configuration and creates the key as "Direct Storage"; a second call then costs the table-based configuration |
| Calculations.InitialS3CostIsZero | state.py:22-34 | the default configuration costs 0 by either method |
| Calculations.ZeroCostsSumToZero | calculations.py:65-75 | zones that each cost 0 total 0 |
| Calculations.SizeKey | calculations.py:84 | the size key is the prefix of the label before the first " - ": no " - " starts in the label before the cut, one starts right at the cut when the key is shorter than the label, and the key is the whole label when it contains no " - " |
| Calculations.HourlyRate | calculations.py:85 | an unknown size key costs 0 an hour; a known one its `cost_per_hr` |
| Calculations.Accrues | calculations.py:83 | the guard: auto-suspend on, some hours a day and some days a month; no contract of its own: `Calculations.WarehouseCost` states that a warehouse failing it costs 0 |
| Calculations.AccruingCost | calculations.py:84-86 | a warehouse that passes the guard costs its size's hourly rate × hours per day × days per month |
| Calculations.WarehouseCost | calculations.py:83-86 | a warehouse without auto-suspend, hours or days costs 0 |
| Calculations.WarehouseTotal | calculations.py:81-89 | the guarded sum over the warehouses; no contract of its own: `Calculations.CalculateSqlWarehouseCost`, `Calculations.NoAutoSuspendCostsNothing`, `Calculations.WarehouseTotalNonNegative` and `Calculations.SuspendAfterIgnored` state what it is |
| Calculations.CalculateSqlWarehouseCost | calculations.py:79-89 | on an initialised session (the warehouse list exists only then), the loop's total is the sum over the warehouses of the guarded cost, 0 for an empty list |
| Calculations.SuspendAfterIgnored | calculations.py:83-87 | the suspend-after setting never changes the total |
| Calculations.WarehouseCostIgnoresSuspendAfter | calculations.py:83-86 | the suspend-after setting never changes one warehouse's cost |
| Calculations.NoAutoSuspendCostsNothing | calculations.py:83 | with auto-suspend off everywhere the total is 0 |
| Calculations.WarehouseTotalNonNegative | calculations.py:81-89 | under non-negative prices the total is never negative |
| Calculations.WarehouseCostNonNegative | calculations.py:83-86 | under non-negative prices one warehouse's cost is never negative |
| UiComponents.GeometricClosedForm | ui_components.py:32-38 | (r − 1) × (a + a·r + … + a·r^(n−1)) = a × (r^n − 1), the series the comment describes |
| UiComponents.Projection | ui_components.py:25-45 | with growth ≤ 0 the projection is 12 × (databricks + s3) + 12 × sql |
| UiComponents.ProjectionIsTwelveMonths | ui_components.py:30-45 | with growth g > 0 the factor r = 1 + g/100 is never 1 (the fallback branch is unreachable), and the projection is the twelve-term sum a + a·r + … + a·r^11 plus 12 × sql |
| UiComponents.FlatMonthsSum | ui_components.py:39-42 | at factor 1 the series is n equal months |
| UiComponents.SqlDoesNotGrow | ui_components.py:28-45 | projection − 12 × sql does not depend on the SQL cost |
| UiComponents.GeometricSumAtLeast | ui_components.py:32-38 | with r ≥ 1 the n-month series is at least n months of the first month |
| UiComponents.ProjectionAtLeastTwelveMonths | ui_components.py:15-45 | for non-negative Databricks + S3 and growth in 0..100, the projection is at least 12 × (databricks + s3 + sql) |
| UiComponents.GeometricSumMonotone | ui_components.py:32-38 | a larger growth factor never gives a smaller series |
| UiComponents.ProjectionAtMostDoubling | ui_components.py:15-45 | within the input's 0..100 bound the projection is at most 4095 × (databricks + s3) + 12 × sql |
| UiComponents.KeepPositive | ui_components.py:56 | the filter keeps exactly the entries with value > 0, in their original order |
| UiComponents.CostDistribution | ui_components.py:50-58 | each of "Databricks & Compute", "S3 Storage", "SQL Warehouse" is shown iff its cost is > 0, in that order; nothing is shown (the "No costs configured yet." branch) iff all three are ≤ 0 |
| UiComponents.NewJob | ui_components.py:124-126 | the appended default row; no contract of its own: `UiComponents.NewJobs` and `UiComponents.Resized` state the rows built from it |
| UiComponents.NewJobs | ui_components.py:124-127 | `count` default rows: "New Job", runtime 0, runs 0, the first instance type, one node, Photon and Spot off |
| UiComponents.Renumber | ui_components.py:134 | `#` becomes 1..n and every other field is kept |
| UiComponents.Resized | ui_components.py:119-134 | the table has the requested length; an unchanged count changes nothing; growing keeps the old rows and appends default rows numbered on, shrinking keeps a prefix; the result is numbered 1..n |
| UiComponents.ResizeTable | ui_components.py:119-134 | appending or cutting, then renumbering, builds exactly the resized table |
| UiComponents.ResizeJobs | ui_components.py:115-135 | the job-count input (0..20) stores the resized table under its tier, leaves the other tiers alone and keeps the session valid |
| UiComponents.TotalJobs | ui_components.py:97 | the "Total Jobs" metric; no contract of its own: `UiComponents.TotalJobsAfterResize` states how it changes |
| UiComponents.TotalJobsAfterResize | ui_components.py:97 | resizing one tier changes the "Total Jobs" metric by exactly the change in that tier's length |
| UiComponents.AddWarehouse | ui_components.py:246-248 | appends exactly one default warehouse (8 h/day, 22 days, auto-suspend on after 10) with id "warehouse_<old count>" and leaves the existing ones untouched; ids stay "warehouse_0".."warehouse_(n−1)" |
| UiComponents.IdsAreDistinct | ui_components.py:247 | with ids "warehouse_<position>", no two warehouses share an id |
| UiComponents.EditWarehouse | ui_components.py:232-239 | the form overwrites name, size, hours (0..24) and days (0..31) of one warehouse in place; id, auto-suspend and suspend-after are kept |
| UiComponents.EditDirectZone | ui_components.py:174-180 | the direct form overwrites class, amount and unit of one zone in place; PUT/GET and the zone order are kept |
| UiComponents.EditTableZone | ui_components.py:186-193 | the table form overwrites tables, records and the whole-KB record size of one zone in place; the zone order is kept |
| UiComponents.SelectCalcMethod | ui_components.py:169 | the radio stores the chosen label under `s3_calc_method` |
| UiComponents.SetGrowth | ui_components.py:15-23 | the growth input stores a rate within 0..100 |
| App.CalculateDatabricks | main.py:22-29 | one entry per tier of DBU_RATES, each the calculator's result on that tier's own job table |
| App.DatabricksTotal | main.py:34 | the Databricks total; no contract of its own: `App.DatabricksTotalIsTabTotal`, `App.DatabricksTotalIsAllRows` and `App.InitialTiersCostNothing` state what it is |
| App.DbuTotal | ui_components.py:95 | the tab's "DBU Costs" metric; no contract of its own: `App.DatabricksTotalIsTabTotal` relates it to the Databricks total |
| App.Ec2Total | ui_components.py:96 | the tab's "EC2 Costs" metric; no contract of its own: `App.DatabricksTotalIsTabTotal` relates it to the Databricks total |
| App.DatabricksTotalIsTabTotal | ui_components.py:95-104 | the Databricks total equals the tab's "Monthly Total", DBU Costs + EC2 Costs |
| App.DatabricksTotalIsAllRows | main.py:34 | the Databricks total is the sum over every row of every tier of DBU Cost + EC2 Cost |
| App.Recompute | main.py:22-35 | on an initialised session: every tier costed from its own table, the table-based S3 costs and their sum, the warehouse total, the Databricks total, total = Databricks + S3 + SQL, the projection at the session's growth and the donut's slices; the session is not changed |
| App.Refresh | main.py:16-35 | one run of the page: the session ends initialised and valid; an initialised session is left entirely unchanged; a fresh one gets the defaults: the tier tables, "Direct Storage", both zone dictionaries, the default warehouse and growth 0; the summary is what `App.Describes` states for that configuration |
| App.PageRun | main.py:18-61 | one run of the page with the value the growth input returns: the session ends initialised and valid with that growth; an initialised session keeps its configuration and a fresh one gets the defaults; the totals come from the configuration and the projection and slices from the new growth, as `App.Describes` states |
| App.FreshSummary | state.py:43 | a fresh session's grand total is the default warehouse's cost alone, and with growth 0 the projection is 12 × the grand total |
| App.InitialTotals | state.py:14-43 | in the default configuration every tier and the storage cost 0, the warehouse total is the default warehouse's cost, and the projection at growth 0 is twelve times that |
| App.InitialTierCostsNothing | state.py:14-19 | each tier's single default job costs 0 DBU and 0 EC2 |
| App.InitialTiersCostNothing | main.py:34 | tiers that each cost 0 give a Databricks total of 0 |
| App.DirectChoiceStillUsesTables | ui_components.py:169 | on an initialised session, choosing "Direct Storage" on the radio stores that label, yet the S3 calculator still returns the table-based per-zone costs |

## Left out

- Rendering is not modelled: page setup, titles, columns, tabs, metrics, the dark-mode toggle, the plotly donut, the insights and the configuration guide text. This is presentation only.
- The "Cost" string column and every `$x,.2f` format are not modelled. They are float-to-text formatting.
- Floating point is not modelled: money is exact `real`. This is why `Projection` keeps the `growth_factor != 1` fallback, and `UiComponents.ProjectionIsTwelveMonths` proves that branch is never taken in exact arithmetic.
- pandas mechanics (copy, apply, concat, head, the index) become sequences of `JobRow` values. No data frame is aliased, so "the input frame is not mutated" holds by construction.
- The data-editor round trip and its change detection (`ui_components.py` lines 139-164) are not modelled: they are widget plumbing that stores whatever the user typed.
- `st.rerun` is not modelled. Each operation returns, and the next page run is a new call to `App.PageRun`.
- The values of the rate tables are not modelled: `data.py` is not part of this model. Every operation takes the tables as a parameter. `Rates.RateTables.WellFormed` says what the initialiser and the job editor read from them without a guard. The table-based S3 method also reads `S3_PRICING["Standard"]` without a guard (`calculations.py` line 68), which is a separate `requires` (`"Standard" in rates.s3Pricing`) of the members that reach it. and `Rates.RateTables.NonNegative` is assumed only by the lemmas that need non-negative prices.
- Commented-out code is not modelled: the PUT/GET inputs, the per-warehouse cost display and the auto-suspend checkbox.
- The warehouse caption's `dbt_per_hr` lookup is display only and is not modelled.
- Widget constraints are not modelled as widgets. The bounds a widget enforces (0..20 jobs, 0..24 hours, 0..31 days, 0..100 %, non-negative amounts, the listed sizes and units) are the `requires` of the method that models that input.
- The storage class of the direct form is not checked against `S3_STORAGE_CLASSES`, which lives in `data.py`. An unknown class is priced at zero anyway, as `Calculations.UnknownClassCostsNothing` shows.
- The calculators read the zone dictionaries and the warehouse list without a guard, so on a session that was never initialised the code raises `AttributeError`. The model does not model that error: `Calculations.CalculateS3CostPerZone` and `Calculations.CalculateSqlWarehouseCost` require an initialised session, which `App.Refresh` always provides.
- The tabs' form edits are not sequenced inside a page run. One run initialises the session, computes the money totals, runs the tabs' edits, and only then runs the summary column. The summary column stores the growth input and projects at it. `App.PageRun` models this run without the tab edits, which change the configuration but none of the figures already computed. The edits (`UiComponents.EditDirectZone`, `UiComponents.EditTableZone` and `UiComponents.EditWarehouse`) write the configuration after the money totals were computed and trigger no rerun. So the money totals shown reflect the configuration as it was before the current interaction. The projection does not lag in this way: it uses the growth entered in the same run. The calculation-method radio does not lag either, because a keyed widget's value is already in the session when the run starts.
- The first display of the table-based form is not modelled. The form shows `int(size_kb)` and writes it back, so the default record sizes of 1.5 and 2.5 KB (`state.py` lines 31 and 33) become 1 and 2 KB on first display (`ui_components.py` line 193). `UiComponents.EditTableZone` takes the whole-KB value the form writes back; the truncation itself happens in the widget.
