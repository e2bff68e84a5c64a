# bdMetrics snapshot-delta pipeline, modelled in Dafny

bdMetrics samples SQL Server performance counters once per cycle and
republishes them as Prometheus exposition text. This project models the
per-cycle pipeline over rows that have already been fetched. Each query row is
cleaned and given an owning table by a regular expression. Rows are summed per
table into a "heavy" and a "frequent" aggregate, and each aggregate is diffed
against the one stored by the previous cycle. The deltas become gauge series,
and the texts and the new snapshot are written to a key-value store.

Python values are modelled by `PyValues.Value` (None, bool, int, str, list,
dict). Python dicts are `Dict`, a key sequence plus a map, because the
program's output follows insertion order. Exceptions the Python code can raise
(KeyError, TypeError, AttributeError, IndexError, ValueError) are `Failure`
results. Among them are the errors of a gauge's `set(value)`, which converts
its value with `float()`: None, a list or a dict raises TypeError, and a
string that is not a float literal raises ValueError (`PyValues.FloatError`).
Each operation states when it raises and with which exception.

Modules, one per source file:

- `PyValues` (values.dfy): values, ordered dicts, `+`/`-` with their
  TypeErrors, truthiness, `str.split`, `str.strip`, `str.lower`, `str()`,
  and which values `float()` accepts.
- `QueryDomain` (query_domain.dfy): `getMainTable`, i.e.
  `re.search(r"from\s+([a-zA-Z0-9_\.]+)", sql, re.IGNORECASE)`, as a
  leftmost scan with a greedy capture.
- `MetricsDomain` (metrics_domain.dfy): `normalize_queries`, the two
  groupings (one loop, `Group`, parameterised by a `Layout`),
  `detect_new_tables`, `calculate_deltas`, `_normalize_number` and
  `build_snapshot` (the `Snapshot` datatype).
- `DeltaDomain` (delta_domain.dfy): `calculate`. The records are put in a
  stable sort by `snapshot_time`. `_process_list` runs on a `QueryHistory`
  object, a class whose `latest` map is the shared `previous_by_query` dict,
  updated in place.
- `PrometheusService` (prometheus_service.dfy): the three exporters. A
  `CollectorRegistry` with its `gauges_cache` is a dict from gauge name to
  gauge, and each gauge maps label tuples to values. `generate_text` and
  the users exporter are replays of set calls. `generate_texplain_gauges`
  builds its lines by hand.
- `MetricsService` (metrics_service.dfy): `processRecord` and `fetchRecords`
  on a `Service` class whose `redis` field is the store, a map from key to
  (text, TTL). A ghost write log records every `set` in order.

Four behaviours of the program worth knowing when reading the model:

- The table resolver is one regular expression, applied to the text after
  `from`. UPDATE, DELETE, INSERT and JOIN are not consulted. It keeps schema
  prefixes (`dbo.invoices`) and does not strip brackets, comments or
  aliases, so `delete from [orders]` resolves to `"unknown"`
  (src/Domain/QueryDomain.py:6-8).
- Frequent series are named `db_freq_{key}` (src/Services/MetricsService.py:86).
- A stored snapshot that cannot be decoded makes the cycle fail; the cycle
  does not fall back to first-cycle behaviour (src/Services/MetricsService.py:38-45).
- The store keeps only the latest text of each key; every cycle overwrites
  the same keys (src/Services/MetricsService.py:117-144).

## Model

| member | source | states |
|---|---|---|
| `QueryDomain.GetMainTable` | src/Domain/QueryDomain.py:6-8 | Total: always returns `"unknown"` or a non-empty contiguous substring of the input made only of letters, digits, `_` and `.` |
| `QueryDomain.MatchAt` | src/Domain/QueryDomain.py:7 | A group found at start p is a match of the pattern: case-insensitive `from` at p, a non-empty whitespace run, then a maximal non-empty run of class characters |
| `QueryDomain.MatchAtComplete` | src/Domain/QueryDomain.py:7 | Any match of the pattern at p has exactly the group bounds MatchAt finds (the greedy match is unique) |
| `QueryDomain.Search` | src/Domain/QueryDomain.py:7 | The scan returns only positions inside the text where the pattern matches |
| `QueryDomain.SearchFinds` | src/Domain/QueryDomain.py:7 | The scan returns the first position, at or after its start, at which the pattern matches |
| `QueryDomain.GetMainTableNone` | src/Domain/QueryDomain.py:7-8 | With no match anywhere in the text the result is `"unknown"` |
| `QueryDomain.GetMainTableLeftmost` | src/Domain/QueryDomain.py:7-8 | Otherwise the result is the group of the leftmost match |
| `QueryDomain.ExampleSchemaKept` | src/Domain/QueryDomain.py:7-8 | `select * from dbo.invoices i` resolves to `dbo.invoices` |
| `QueryDomain.ExampleNoFrom` | src/Domain/QueryDomain.py:7-8 | `update accounts set x=1` resolves to `"unknown"`: only `from` is consulted |
| `QueryDomain.ExampleBracket` | src/Domain/QueryDomain.py:7-8 | `delete from [orders]` resolves to `"unknown"`: `[` is outside the class |
| `QueryDomain.ExampleCasePreserved` | src/Domain/QueryDomain.py:7-8 | `SELECT a FROM<tab>Orders` resolves to `Orders`: `from` matches in any case and the capture keeps its case |
| `QueryDomain.ExampleInsideWord` | src/Domain/QueryDomain.py:7-8 | `select xfrom t` resolves to `t`: `from` need not be a word of its own |
| `PyValues.Words` | src/Domain/MetricsDomain.py:26 | `split()` yields only non-empty words without whitespace |
| `PyValues.WordsOfWord` | src/Domain/MetricsDomain.py:26 | A non-empty text without whitespace splits into itself alone |
| `PyValues.WordsSplit` | src/Domain/MetricsDomain.py:26 | A whitespace character separates: the words of `a + c + b` are the words of `a` followed by those of `b`. With `WordsOfWord` this fixes `split()` as the maximal non-whitespace runs, in order |
| `PyValues.FloatError` | src/Services/PrometheusService.py:33 | `float(v)` inside `set`: int and bool convert; a string converts exactly when it is a float literal after stripping whitespace, else ValueError; None, a list and a dict raise TypeError |
| `PyValues.FloatTextInt` | src/Services/PrometheusService.py:33 | `"12"` is a float literal |
| `PyValues.FloatTextUnderscore` | src/Services/PrometheusService.py:33 | `"1_000"` is a float literal: single underscores between digits are allowed |
| `PyValues.FloatTextInfinity` | src/Services/PrometheusService.py:33 | `"+Infinity"` is a float literal, in any case |
| `PyValues.FloatTextExponent` | src/Services/PrometheusService.py:33 | `" -3.5e2\n"` is a float literal: surrounding whitespace is stripped |
| `PyValues.FloatTextDoubleUnderscore` | src/Services/PrometheusService.py:33 | `"1__0"` is not a float literal, so `set` raises ValueError |
| `PyValues.FloatTextNoExponent` | src/Services/PrometheusService.py:33 | `"1e"` is not a float literal: an exponent needs digits |
| `PyValues.FloatTextWord` | src/Services/PrometheusService.py:33 | `"abc"` is not a float literal |
| `PyValues.StripMeaning` | src/Domain/DeltaDomain.py:86 | `strip()` keeps a contiguous middle slice, drops only whitespace on either side and leaves no whitespace at either end |
| `PyValues.StripIgnoresPadding` | src/Domain/DeltaDomain.py:86 | Whitespace added around a text does not change its `strip()` |
| `MetricsDomain.QueryText` | src/Domain/MetricsDomain.py:25 | `q.get("query_text", "") or ""` raises AttributeError exactly for a truthy non-string; a string text is returned as is, anything else gives `""` |
| `MetricsDomain.CleanIsCanonical` | src/Domain/MetricsDomain.py:26 | The cleaned text has whitespace only as single spaces between non-blank characters, no leading or trailing whitespace, and no capitals |
| `MetricsDomain.CleanKeepsText` | src/Domain/MetricsDomain.py:26 | Cleaning keeps every non-whitespace character, in order, lower-cased |
| `MetricsDomain.CleanWords` | src/Domain/MetricsDomain.py:26 | The cleaned text splits into exactly the words of the original text, in order, each lower-cased |
| `MetricsDomain.WordsOfJoin` | src/Domain/MetricsDomain.py:26 | Joining words with single spaces and splitting again gives back the words |
| `MetricsDomain.CleanIdempotent` | src/Domain/MetricsDomain.py:26 | Cleaning leaves a canonical text unchanged, so cleaning twice equals cleaning once |
| `MetricsDomain.NormalizeRow` | src/Domain/MetricsDomain.py:24-30 | A row is normalised without raising exactly when its query text can be read |
| `MetricsDomain.NormalizeRowMeaning` | src/Domain/MetricsDomain.py:24-30 | The normalised row holds `query_normalized` = the cleaned text, `main_table` = the resolver applied to the cleaned text, and `snapshot` = the given time |
| `MetricsDomain.NormalizeRowCarries` | src/Domain/MetricsDomain.py:24 | Every other field is carried over unchanged, and the original fields keep their positions |
| `MetricsDomain.NormalizedMeaning` | src/Domain/MetricsDomain.py:21-34 | One normalised copy per input row, in order; AttributeError exactly when some row's text cannot be split |
| `MetricsDomain.NormalizeQueries` | src/Domain/MetricsDomain.py:10-34 | The loop returns exactly the row-by-row normalisation, or the first row's error |
| `MetricsDomain.NormalizeOne` | src/Domain/MetricsDomain.py:24-32 | One loop iteration builds the normalised copy of its row |
| `MetricsDomain.InitEntryMeaning` | src/Domain/MetricsDomain.py:50-57 | A new table's entry has exactly the grouping's fields, in order, with summed fields at 0 and extra fields at their initial value |
| `MetricsDomain.AddFieldsRaises` | src/Domain/MetricsDomain.py:60-61 | Adding a row to an entry raises TypeError exactly when one of its `q.get(field, 0) or 0` values is not a number; the entry keeps its keys |
| `MetricsDomain.AddFieldsField` | src/Domain/MetricsDomain.py:60-61 | Each summed field of the entry grows by the row's amount for that field |
| `MetricsDomain.AddRowMeaning` | src/Domain/MetricsDomain.py:48-61 | One loop iteration keeps the aggregate equal to the per-table sums of the rows seen; it raises TypeError exactly when the row's table is unhashable or an amount is not a number |
| `MetricsDomain.FirstSeenMeaning` | src/Domain/MetricsDomain.py:48-49 | The aggregate's tables are distinct and are exactly the `main_table` values of the rows |
| `MetricsDomain.GroupedMeaning` | src/Domain/MetricsDomain.py:45-63 | Grouping raises TypeError exactly when some row does not fit. Otherwise it has one entry per distinct table, in order of first appearance, each summed field being the sum over that table's rows with absent or None values counting 0 |
| `MetricsDomain.Group` | src/Domain/MetricsDomain.py:47-61 | The loop computes exactly the grouping specification, for either layout |
| `MetricsDomain.AddRowFields` | src/Domain/MetricsDomain.py:60-61 | The inner loop adds the row's amounts field by field, stopping at the first TypeError |
| `MetricsDomain.GroupHeavyQueries` | src/Domain/MetricsDomain.py:40-63 | Keys are the distinct tables; each entry has exactly the six resource totals, each the sum over that table's rows; TypeError exactly when a row does not fit |
| `MetricsDomain.GroupFrequentQueries` | src/Domain/MetricsDomain.py:69-91 | Each entry sums `execution_count`, sums `duration_total` into `total_elapsed_time`, sums `exec_per_second`, and holds `queries` = `[]` |
| `MetricsDomain.NewTables` | src/Domain/MetricsDomain.py:97-98 | The result holds exactly the current tables absent from the previous aggregate, never more than the current tables |
| `MetricsDomain.NewTablesSnoc` | src/Domain/MetricsDomain.py:98 | The new tables keep the current aggregate's order: one more current table appends it exactly when the previous aggregate lacks it |
| `MetricsDomain.NewTablesDistinct` | src/Domain/MetricsDomain.py:98 | Each new table is listed once |
| `MetricsDomain.NoNewTablesInSelf` | src/Domain/MetricsDomain.py:98 | An aggregate compared with itself has no new tables |
| `MetricsDomain.NormalizeNumberMeaning` | src/Domain/MetricsDomain.py:137-153 | Numbers (int, bool) are kept. None, the empty list, a string and a dict give 0. A non-empty list gives its first element, unnormalised |
| `MetricsDomain.FieldDeltaMeaning` | src/Domain/MetricsDomain.py:110-120 | For a new table the delta is the normalised current value. Otherwise it is that value minus the normalised old value (0 when the old table or key is absent), raising TypeError unless both are numbers |
| `MetricsDomain.TableDeltaEntry` | src/Domain/MetricsDomain.py:108-122 | The inner loop builds one table's delta entry, or its TypeError |
| `MetricsDomain.CalculateDeltas` | src/Domain/MetricsDomain.py:104-124 | The outer loop builds the deltas of every current table, or the first TypeError |
| `MetricsDomain.TableDeltaShape` | src/Domain/MetricsDomain.py:107-122 | A delta entry has one `k_delta` per key k of the table, in order, then `is_new_table` equal to the new-table flag |
| `MetricsDomain.DeltasRaise` | src/Domain/MetricsDomain.py:104-124 | `calculate_deltas` raises, with TypeError, exactly when an old table has a field whose current or previous value does not normalise to a number |
| `MetricsDomain.DeltasShape` | src/Domain/MetricsDomain.py:107-108 | The deltas have exactly the current tables, in current order; tables only in the previous aggregate are dropped |
| `MetricsDomain.DeltasValue` | src/Domain/MetricsDomain.py:107-122 | Each table's delta entry is computed from its own current entry and the previous aggregate alone |
| `MetricsDomain.NewTableDelta` | src/Domain/MetricsDomain.py:110-113 | A new table never raises: each `k_delta` is the normalised current value and `is_new_table` is True |
| `MetricsDomain.DeltaFlag` | src/Domain/MetricsDomain.py:97-122 | With `detect_new_tables` as input, `is_new_table` is True exactly when the previous aggregate lacks the table |
| `MetricsDomain.UnchangedFieldDelta` | src/Domain/MetricsDomain.py:114-120 | A field compared with itself has delta 0 |
| `MetricsDomain.SelfDeltasAreZero` | src/Domain/MetricsDomain.py:97-124 | An aggregate diffed with itself has every table old and every delta 0, provided all values normalise to numbers |
| `MetricsDomain.FrequentQueriesDeltaZero` | src/Domain/MetricsDomain.py:79-84 | Between two frequent groupings every table's `queries_delta` is 0, whether the table is new or not |
| `DeltaDomain.EarlierIsStrictOrder` | src/Domain/DeltaDomain.py:27 | The order `sorted` uses on snapshot times is a strict order, total on times of one kind |
| `DeltaDomain.SortByTimeMeaning` | src/Domain/DeltaDomain.py:27 | The sort's result is ordered by time, is a permutation of its input, and keeps input order among equal times (stable) |
| `DeltaDomain.SortRecordsMeaning` | src/Domain/DeltaDomain.py:27 | Sorting raises, with KeyError or TypeError, exactly when a record lacks `snapshot_time` or two or more records mix time kinds; otherwise the result is ordered, a permutation, and stable |
| `DeltaDomain.KeyOfOneKind` | src/Domain/DeltaDomain.py:27 | On records of one kind the sort key is the record's own time |
| `DeltaDomain.BuildUidMeaning` | src/Domain/DeltaDomain.py:82-86 | The uid exists exactly when `query_text` is absent or a string (else AttributeError); a row with neither field has uid `none::` |
| `DeltaDomain.UidIgnoresPadding` | src/Domain/DeltaDomain.py:86 | Query texts that differ only in surrounding whitespace give the same uid |
| `DeltaDomain.CalculateDeltaMeaning` | src/Domain/DeltaDomain.py:89-103 | The delta has exactly the six METRICS, in order. Each is None against a missing or empty previous row; otherwise it is `current.get(m, 0) - previous.get(m, 0)`, or None where the subtraction raises |
| `DeltaDomain.ItemsOfMeaning` | src/Domain/DeltaDomain.py:36-37 | Iterating a snapshot's list yields its dict items, in order; non-iterables raise TypeError and iterables of non-dicts raise AttributeError (an empty string or dict yields nothing) |
| `DeltaDomain.RemembersStep` | src/Domain/DeltaDomain.py:77 | Storing an item under its uid keeps `previous_by_query` mapping every uid to the latest row seen with it |
| `DeltaDomain.ScanState` | src/Domain/DeltaDomain.py:59-79 | The loop returns one item per input and leaves `previous_by_query` holding the latest row of every uid seen |
| `DeltaDomain.ScanAt` | src/Domain/DeltaDomain.py:62-77 | The i-th processed item is the i-th input with its delta against the latest earlier row of its uid: from earlier lists or earlier in this one |
| `DeltaDomain.ScanFails` | src/Domain/DeltaDomain.py:62-63 | The loop raises exactly when some item has no uid, with that item's error |
| `DeltaDomain.ListDeltasFails` | src/Domain/DeltaDomain.py:59-79 | `_process_list` raises, with TypeError or AttributeError, exactly when the list cannot be iterated as dicts or an item has no uid |
| `DeltaDomain.ListDeltasMeaning` | src/Domain/DeltaDomain.py:59-79 | Items keep their order and fields and gain a `delta` against the latest earlier row of the same uid; the shared dict then remembers the list's rows too |
| `DeltaDomain.QueryHistory.constructor` | src/Domain/DeltaDomain.py:30 | `previous_by_query` starts empty |
| `DeltaDomain.QueryHistory.ProcessList` | src/Domain/DeltaDomain.py:59-79 | Returns the processed list and updates the shared dict in place as the specification says, or raises its error |
| `DeltaDomain.QueryHistory.ProcessRows` | src/Domain/DeltaDomain.py:62-77 | The item loop, with its in-place updates of `previous_by_query` |
| `DeltaDomain.EnrichRecordFails` | src/Domain/DeltaDomain.py:32-54 | One record raises, with KeyError, TypeError or AttributeError, exactly when it lacks `snapshot_time` or `database`, or one of its lists cannot be processed |
| `DeltaDomain.EnrichRecordMeaning` | src/Domain/DeltaDomain.py:33-52 | An enriched snapshot keeps `database` and `snapshot_time`. Its heavy items are diffed against all earlier rows, and its frequent items against those plus its own heavy items |
| `DeltaDomain.EnrichUpToAt` | src/Domain/DeltaDomain.py:32-54 | The i-th enriched snapshot comes from the i-th sorted record, diffed against every row of the records before it |
| `DeltaDomain.EnrichMeaning` | src/Domain/DeltaDomain.py:17-56 | `calculate([])` is `[]`. It raises exactly when sorting or some record fails. Otherwise there is one enriched snapshot per record, in stable time order, each item diffed against the latest earlier row of its uid across all lists of all earlier snapshots |
| `DeltaDomain.Calculate` | src/Domain/DeltaDomain.py:17-56 | The loop over the sorted records computes exactly that history |
| `PrometheusService.SetGauge` | src/Services/PrometheusService.py:22-33 | One loop step registers the gauge unless cached, then sets its label tuple |
| `PrometheusService.ReplayWellFormed` | src/Services/PrometheusService.py:22-28 | Each gauge name is registered once, whatever the calls |
| `PrometheusService.LastSetAt` | src/Services/PrometheusService.py:88-93 | The value a series keeps comes from a call that no later call with the same name and labels follows |
| `PrometheusService.ReplayGauge` | src/Services/PrometheusService.py:22-33 | A gauge exists for exactly the names some call used, with the help and label names of its first call; each label tuple holds the value set last |
| `PrometheusService.TableCallsFails` | src/Services/PrometheusService.py:17-33 | A delta entry raises exactly when some key to export has a `set` error: KeyError without `is_new_table`, else the `float()` error of its value; the error is that of the first such key |
| `PrometheusService.TableCallsMeaning` | src/Services/PrometheusService.py:16-33 | An entry gives exactly one set call per key other than `is_new_table` |
| `PrometheusService.ExportCallsFails` | src/Services/PrometheusService.py:15-33 | The export raises exactly when some entry has a key that cannot be set (missing `is_new_table`, or a value `float()` rejects), with the error of the first such entry |
| `PrometheusService.ExportCallsPrefix` | src/Services/PrometheusService.py:15-33 | An export that gets past n tables sets every one of them without error |
| `PrometheusService.ExportCallsMeaning` | src/Services/PrometheusService.py:15-33 | The export makes exactly one set call per (table, key) with key other than `is_new_table` |
| `PrometheusService.ExportTable` | src/Services/PrometheusService.py:16-33 | The inner loop leaves exactly the registry its set calls describe, or the first `set` error (KeyError, TypeError or ValueError) |
| `PrometheusService.ExportDeltas` | src/Services/PrometheusService.py:15-33 | The outer loop leaves exactly the registry the export's set calls describe, or the first `set` error |
| `PrometheusService.GenerateText` | src/Services/PrometheusService.py:7-35 | `generate_text` builds, from an empty registry, the registry of the export |
| `PrometheusService.ExportedPrefix` | src/Services/PrometheusService.py:20 | Every exported gauge is named `db_{metric_type}_` followed by a key |
| `PrometheusService.ExportedNamed` | src/Services/PrometheusService.py:17-20 | A call named `db_{metric_type}_{key}` is the call of that key for some table, and the key is never `is_new_table` |
| `PrometheusService.ExportedGauge` | src/Services/PrometheusService.py:17-28 | Gauge `db_{metric_type}_{key}` exists exactly when the key is not `is_new_table` and some table has it; names are unique |
| `PrometheusService.ExportedGaugeShape` | src/Services/PrometheusService.py:22-28 | Every gauge has label names exactly (`table`, `is_new_table`) and the help text of its key |
| `PrometheusService.ExportedGaugeSeries` | src/Services/PrometheusService.py:30-33 | Every series is labelled (str(table), str(is_new_table)) of a table holding the key, with that table's value |
| `PrometheusService.ExportedSeries` | src/Services/PrometheusService.py:30-33 | Every exported (table, key) has its series in gauge `db_{metric_type}_{key}` |
| `PrometheusService.ExportedValue` | src/Services/PrometheusService.py:30-33 | Where no two tables print alike, the series of (table, key) holds `metrics[key]` |
| `PrometheusService.ExportKeepsOthers` | src/Services/PrometheusService.py:15-33 | An export leaves alone every gauge whose name lacks its prefix |
| `PrometheusService.ExportsApart` | src/Services/PrometheusService.py:15-33 | Two exports sharing one registry do not interfere on names carrying only one of their prefixes |
| `PrometheusService.SixLineBlocks` | src/Services/PrometheusService.py:53-61 | Rows of six lines each: line 6i+m is line m of row i, or the first row's error |
| `PrometheusService.RowLinesMeaning` | src/Services/PrometheusService.py:54-61 | A row gives six lines, in the fixed metric order, all with the row's `rank="..",table="..",query=".."` label string; a row missing a key raises KeyError |
| `PrometheusService.TexplainLinesMeaning` | src/Services/PrometheusService.py:53-61 | Six lines per row, rows in input order; any row missing a key raises KeyError |
| `PrometheusService.AppendRowLines` | src/Services/PrometheusService.py:54-61 | The six appends extend the line list by the row's lines, or raise KeyError |
| `PrometheusService.GenerateTexplainGauges` | src/Services/PrometheusService.py:46-63 | The loop's result is the rows' lines joined by newlines, or the error |
| `PrometheusService.JoinSnoc` | src/Services/PrometheusService.py:63 | Joining puts the separator between lines only: no trailing newline |
| `PrometheusService.TexplainEmpty` | src/Services/PrometheusService.py:51-63 | No rows give the empty text |
| `PrometheusService.RegisterAll` | src/Services/PrometheusService.py:72-93 | The users loop registers one set call per row, stopping at the first KeyError or `float()` error |
| `PrometheusService.OneNameRegistry` | src/Services/PrometheusService.py:72-93 | Set calls that all use one name register that single gauge, once, as the first call says; its series are the calls' label tuples, each holding the value of the last call with that tuple |
| `PrometheusService.GenerateTexplainUsersGauges` | src/Services/PrometheusService.py:65-95 | The users export leaves exactly the users registry, or the first row's error |
| `PrometheusService.UsersGaugeMeaning` | src/Services/PrometheusService.py:72-93 | No rows give an empty registry. Otherwise it holds only `user_requests_running_now` with labels (host_name, client_net_address, program_name, rank); each series holds the `requests_running_now` of the last row with that label tuple. It raises exactly when some row misses a key (KeyError) or has a `requests_running_now` that `float()` rejects (TypeError or ValueError), with the first such row's error |
| `MetricsService.CurrentWellFormed` | src/Services/MetricsService.py:29-35 | The current snapshot's two groupings are well-formed aggregates |
| `MetricsService.BuildCurrent` | src/Services/MetricsService.py:29-35 | Normalises both lists with the table resolver, groups them, and builds the snapshot, or raises the first error |
| `MetricsService.ExportMain` | src/Services/MetricsService.py:47-101 | Detects new tables, computes heavy then frequent deltas against the stored snapshot, and exports both into one registry, or raises the first error |
| `MetricsService.MainRegistrySplit` | src/Services/MetricsService.py:56-99 | In the shared main registry, `db_heavy_*` gauges are as the heavy export alone makes them and `db_freq_*` gauges as the frequent export alone makes them |
| `MetricsService.DeltaEntry` | src/Domain/MetricsDomain.py:104-124 | In the deltas, a table's k-th key is its k-th field's `_delta` key holding that field's delta, and its flag says whether the previous aggregate lacked the table |
| `MetricsService.FrequentExportSeries` | src/Services/MetricsService.py:80-99 | The frequent export alone puts each table's field delta in gauge `db_freq_{field}_delta` under (table, is_new_table) |
| `MetricsService.FrequentDeltaSeries` | src/Services/MetricsService.py:47-99 | In the main registry, gauge `db_freq_{field}_delta` holds under (table, "False") the difference of the normalised current and stored values of an old table, and under (table, "True") the normalised current value of a new one |
| `MetricsService.TwoCyclesDelta` | src/Services/MetricsService.py:47-99 | A field at 100 in the stored snapshot and 140 now gives `db_freq_{field}_delta{table=..., is_new_table="False"}` = 40 |
| `MetricsService.ExportQueries` | src/Services/MetricsService.py:106-114 | Builds the queries registry: IndexError on no rows, KeyError without `queries_processing_now`, the `float()` error of a value `set` rejects |
| `MetricsService.QueriesExportMeaning` | src/Services/MetricsService.py:106-114 | Succeeds exactly when there is a row holding the field with a value `float()` accepts. IndexError without a row, KeyError without the field, TypeError or ValueError for a value `float()` rejects. Otherwise one unlabelled gauge `db_current_queries` set to `queries[0]["queries_processing_now"]` |
| `MetricsService.ExportMemory` | src/Services/MetricsService.py:122-132 | Builds the memory registry from `memory[0]`, or IndexError on no rows, or the first value's `float()` error |
| `MetricsService.MemoryErrorMeaning` | src/Services/MetricsService.py:126-132 | The memory loop raises exactly when some value of `memory[0]` is rejected by `float()`, with the error of the first such value |
| `MetricsService.MemoryGaugesNames` | src/Services/MetricsService.py:124-132 | One gauge per key of `memory[0]`, in key order, named `db_memory_{key}` |
| `MetricsService.MemoryGaugesValues` | src/Services/MetricsService.py:124-132 | Each memory gauge is unlabelled and set to its key's value |
| `MetricsService.Present` | src/Services/MetricsService.py:155 | `filter(None, ...)` keeps only present, non-empty texts, never more than given |
| `MetricsService.PresentAppend` | src/Services/MetricsService.py:155 | `filter(None, ...)` works text by text and keeps the order |
| `MetricsService.FetchedMeaning` | src/Services/MetricsService.py:149-155 | For any store, `fetchRecords` returns the main text of `Baseconta`, the queries text and the memory text, in that order, each skipped when missing or empty, joined by newlines |
| `MetricsService.Service.constructor` | src/Services/MetricsService.py:13-16 | The service starts on the given store with an empty write log |
| `MetricsService.Service.Set` | src/Services/MetricsService.py:117 | `set(key, text, ttl)` overwrites that key only and appends the write to the log |
| `MetricsService.Service.ProcessRecord` | src/Services/MetricsService.py:19-146 | Returns what the cycle specification says, and the store afterwards is the old store with exactly the cycle's writes applied in order |
| `MetricsService.Service.ProcessCurrent` | src/Services/MetricsService.py:38-146 | The cycle from the baseline check on: result and writes as specified |
| `MetricsService.Service.Publishing` | src/Services/MetricsService.py:106-146 | The queries, memory, snapshot and main-text writes, in that order, and the joined result |
| `MetricsService.Service.FetchRecords` | src/Services/MetricsService.py:149-155 | Returns the fetch join of the current store |
| `MetricsService.FirstCycle` | src/Services/MetricsService.py:38-42 | With no or an empty stored snapshot, the cycle writes only `BaseContaLastMetrics` (no TTL) and returns `FIRST SNAPSHOT STORED`; every other key is unchanged |
| `MetricsService.PublishedStore` | src/Services/MetricsService.py:117-146 | A completed publication writes four keys in order, with TTLs 1200, 1200, none and 86400, and returns the three texts joined by newlines |
| `MetricsService.CompletedCycle` | src/Services/MetricsService.py:38-146 | After a completed non-first cycle the store holds the current snapshot, the main text under `metrics:{db_name}` (TTL 86400) and the queries and memory texts (TTL 1200); nothing else changes; the result is the three texts joined by newlines |
| `MetricsService.FailedCycle` | src/Services/MetricsService.py:114-124 | A cycle that raises writes at most the queries text: the snapshot and main text are unchanged |
| `MetricsService.NoQueriesRow` | src/Services/MetricsService.py:114 | With no queries row a non-first cycle raises IndexError before any write |
| `MetricsService.NoMemoryRow` | src/Services/MetricsService.py:117-124 | With a queries export that succeeds and no memory row, it raises IndexError after writing only `BaseContaQueriesProcessing`; the snapshot is not updated |
| `MetricsService.NextCycleBaseline` | src/Services/MetricsService.py:40-42 | After any completed cycle the store holds a baseline that decodes to this cycle's snapshot |
| `MetricsService.TwoCycles` | src/Services/MetricsService.py:38-146 | From an empty store, cycle 1 returns `FIRST SNAPSHOT STORED`; cycle 2 diffs its snapshot against cycle 1's and returns the main, queries and memory texts joined |
| `MetricsService.FetchIsRecordKey` | src/Services/MetricsService.py:143-150 | `fetchRecords` reads the main-text key of the database named `Baseconta` |
| `MetricsService.FetchedAll` | src/Services/MetricsService.py:149-155 | With all three keys non-empty, `fetchRecords` returns the main, queries and memory texts, in that order, joined by newlines |
| `MetricsService.FetchAfterCycle` | src/Services/MetricsService.py:143-155 | After a completed cycle for `Baseconta`, with non-empty texts, `fetchRecords` returns exactly what the cycle returned |
| `MetricsService.FetchIgnoresDbName` | src/Services/MetricsService.py:143-150 | A cycle for any other database leaves the key `fetchRecords` reads unchanged |

## Left out

- Fetching rows: the five database queries (SQL text, pyodbc, and the
  failure-or-empty-gives-`[]` rule in src/Repositories/BdRepository.py) are
  not modelled. Their rows are parameters of the cycle. The connected-users
  rows fetched at src/Services/MetricsService.py:25 are not used by the cycle
  and are not a parameter.
- Rendering: prometheus_client's `generate_latest` (HELP/TYPE lines, float
  formatting, label escaping) is a `render` parameter from registry to text.
  The model states which gauges, label tuples and values the registry holds.
- JSON: `json.dumps`/`json.loads` of the snapshot are the `dumps`/`loads`
  parameters. `loads` includes the `["heavy"]`/`["frequent"]` lookups and
  may fail. Lemmas that follow a snapshot across cycles assume `loads` undoes
  `dumps` on it.
- The clock: `datetime.now` with the configured time zone is the `snapshot`
  parameter.
- The store: `RedisService` and its connection are not part of this model.
  The store is a map from key to (text, TTL). TTL expiry over time is not
  modelled; the TTL given to each write is.
- Scheduling and serving: the Flask route and the APScheduler job in
  `main.py` are not part of this model, and neither is concurrency between
  them.
- `generate_simple_gauge` (src/Services/PrometheusService.py:37-44): nothing in
  the cycle calls it. It is not modelled.
- Floating point: `exec_per_second` and other summed values are integers.
  A gauge stores the value passed to `set` as it is, once `float()` accepts
  it; the float it would hold is not computed. There are no claims about
  float rounding or float formatting.
- `PyValues.FloatError`: `float()` of a string is modelled for ASCII digits
  only. Other Unicode decimal digits, which Python also accepts, are left
  out. Strings are the only values with a ValueError path.
- Gauge names: prometheus_client checks metric and label names when a
  `Gauge` is created. The rules depend on the library version. The model
  does not raise for a name built from an unusual key.
- Python treats `True == 1` as the same dict key. The model treats
  `Bool(true)` and `Int(1)` as distinct keys.
- `PyValues.LowerChar`: `str.lower` is modelled for ASCII letters only. Other
  Unicode case mappings are left out, and that includes the Kelvin sign,
  which the resolver's class accepts either way.
- `PyValues.Show`: `str()` of strings nested in lists and dicts adds quotes
  but not Python's escaping.
- `DeltaDomain.SortRecordsMeaning`: a sort that compares two lists, two
  tuples or two dicts is modelled as raising TypeError. Python would compare
  two lists or two tuples element by element. Snapshot times are strings in
  practice.
