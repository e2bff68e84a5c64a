/** MetricsService: one collection cycle (processRecord) over an abstract
    key-value store, and the read side (fetchRecords). The database queries,
    the clock, prometheus_client's text rendering and the JSON codec are
    parameters of the cycle. */
module MetricsService {
  import opened PyValues
  import opened QueryDomain
  import opened MetricsDomain
  import opened PrometheusService

  // ---------------------------------------------------------------------
  // The store
  // ---------------------------------------------------------------------

  /** A stored text with its time to live in seconds (None: no expiry). */
  datatype Entry = Entry(text: string, ttl: Option<nat>)

  /** One `set(key, value, ttl)` on the store. */
  datatype Write = Write(key: string, text: string, ttl: Option<nat>)

  const LastKey := "BaseContaLastMetrics"
  const QueriesKey := "BaseContaQueriesProcessing"
  const MemoryKey := "BaseContaMemoryUsage"
  const FetchKey := "metrics:Baseconta"
  const FirstMessage := "FIRST SNAPSHOT STORED"
  const ShortTtl: nat := 1200
  const RecordTtl: nat := 86400

  /** The key the cycle stores its main text under: `metrics:{db_name}`. */
  function RecordKey(dbName: string): string
  {
    "metrics:" + dbName
  }

  /** `get_value(key)`: the stored text, or None. */
  function Lookup(store: map<string, Entry>, key: string): Option<string>
  {
    if key in store then Some(store[key].text) else None
  }

  /** The store after a sequence of writes, in order. */
  function Applied(store: map<string, Entry>, writes: seq<Write>): map<string, Entry>
    decreases |writes|
  {
    if writes == [] then store
    else
      var w := writes[|writes| - 1];
      Applied(store, writes[..|writes| - 1])[w.key := Entry(w.text, w.ttl)]
  }

  /** One more write, appended to the log and applied to the store. */
  lemma Logged(log: seq<Write>, store: map<string, Entry>, done: seq<Write>, w: Write)
    ensures (log + done) + [w] == log + (done + [w])
    ensures Applied(store, done + [w]) == Applied(store, done)[w.key := Entry(w.text, w.ttl)]
  {
    AppliedSnoc(store, done, w);
  }

  lemma AppliedSnoc(store: map<string, Entry>, writes: seq<Write>, w: Write)
    ensures Applied(store, writes + [w]) == Applied(store, writes)[w.key := Entry(w.text, w.ttl)]
  {
    assert (writes + [w])[..|writes|] == writes;
  }

  /** `not last_snapshot_raw` is false: a non-empty stored snapshot. */
  predicate Baseline(store: map<string, Entry>)
  {
    LastKey in store && store[LastKey].text != ""
  }

  // ---------------------------------------------------------------------
  // The stages of processRecord
  // ---------------------------------------------------------------------

  /** Lines 29-35: both lists normalised with the table resolver, grouped,
      and put together as the current snapshot. */
  function Current(snapshot: string, heavyRaw: seq<Row>, freqRaw: seq<Row>): Result<Snapshot>
  {
    match Normalized(heavyRaw, snapshot, GetMainTable, |heavyRaw|)
    case Failure(e) => Failure(e)
    case Success(heavy) =>
      match Normalized(freqRaw, snapshot, GetMainTable, |freqRaw|)
      case Failure(e) => Failure(e)
      case Success(freq) =>
        match Grouped(heavy, HeavyLayout())
        case Failure(e) => Failure(e)
        case Success(groupedHeavy) =>
          match Grouped(freq, FrequentLayout())
          case Failure(e) => Failure(e)
          case Success(groupedFreq) => Success(Snapshot(snapshot, groupedHeavy, groupedFreq))
  }

  /** Both groupings of a current snapshot are well formed aggregates. */
  lemma CurrentWellFormed(snapshot: string, heavyRaw: seq<Row>, freqRaw: seq<Row>)
    requires Current(snapshot, heavyRaw, freqRaw).Success?
    ensures AggregateWellFormed(Current(snapshot, heavyRaw, freqRaw).value.heavy)
    ensures AggregateWellFormed(Current(snapshot, heavyRaw, freqRaw).value.frequent)
  {
    var heavy := Normalized(heavyRaw, snapshot, GetMainTable, |heavyRaw|).value;
    var freq := Normalized(freqRaw, snapshot, GetMainTable, |freqRaw|).value;
    LayoutsValid();
    GroupedMeaning(heavy, HeavyLayout());
    GroupedMeaning(freq, FrequentLayout());
    GroupOfWellFormed(Grouped(heavy, HeavyLayout()).value, heavy, HeavyLayout());
    GroupOfWellFormed(Grouped(freq, FrequentLayout()).value, freq, FrequentLayout());
  }

  /** `calculate_deltas(previous, current, detect_new_tables(previous, current))` */
  function TableDeltas(previous: Aggregate, current: Aggregate): Result<Aggregate>
    requires AggregateWellFormed(current)
  {
    Deltas(previous, current, DetectNewTables(previous, current))
  }

  /** Lines 47-99: new tables and deltas of both groupings against the
      stored snapshot, exported into one registry, heavy first. */
  function MainExport(last: Snapshot, current: Snapshot): Result<Registry>
    requires AggregateWellFormed(current.heavy) && AggregateWellFormed(current.frequent)
  {
    match TableDeltas(last.heavy, current.heavy)
    case Failure(e) => Failure(e)
    case Success(heavyDeltas) =>
      match TableDeltas(last.frequent, current.frequent)
      case Failure(e) => Failure(e)
      case Success(freqDeltas) =>
        match Export("heavy", heavyDeltas, EmptyDict())
        case Failure(e) => Failure(e)
        case Success(registry) => Export("freq", freqDeltas, registry)
  }

  /** A gauge without labels, set once: its only label tuple is the empty one. */
  function UnlabelledGauge(name: string, help: string, value: Value): Gauge
  {
    Gauge(name, help, [], Put(EmptyDict(), [], value))
  }

  const QueriesGauge := "db_current_queries"
  const QueriesHelp := "Consultas ejecutándose ahora en SQL Server"
  const QueriesField := "queries_processing_now"

  /** Lines 106-114: `queries[0]["queries_processing_now"]` on the one gauge
      of a fresh registry. */
  function QueriesExport(queries: seq<Row>): Result<Registry>
  {
    if queries == [] then Failure(IndexError)
    else if QueriesField !in queries[0].vals then Failure(KeyError)
    else match FloatError(queries[0].vals[QueriesField])
      case Some(e) => Failure(e)
      case None => Success(Put(EmptyDict(), QueriesGauge, UnlabelledGauge(QueriesGauge, QueriesHelp, queries[0].vals[QueriesField])))
  }

  function MemoryName(key: string): string
  {
    "db_memory_" + key
  }

  function MemoryHelp(key: string): string
  {
    "Métrica de memoria SQL Server: " + key
  }

  /** The memory registry after the first n keys of `memory[0]`: a new gauge
      per key, set to the key's value. */
  function MemoryGauges(mem: Row, n: nat): Registry
    requires n <= |mem.keys|
  {
    if n == 0 then EmptyDict()
    else
      var key := mem.keys[n - 1];
      Put(MemoryGauges(mem, n - 1), MemoryName(key), UnlabelledGauge(MemoryName(key), MemoryHelp(key), GetOr(mem, key, Null)))
  }

  /** What `g.set(value)` raises for the first n keys of `memory[0]`: the
      `float` error of the first value that has one. */
  function MemoryError(mem: Row, n: nat): Option<Exception>
    requires n <= |mem.keys|
  {
    if n == 0 then None
    else match MemoryError(mem, n - 1)
      case Some(e) => Some(e)
      case None => FloatError(GetOr(mem, mem.keys[n - 1], Null))
  }

  /** Lines 122-132: IndexError without a row, the first `set` error, or
      the memory registry. */
  function MemoryExport(memory: seq<Row>): Result<Registry>
  {
    if memory == [] then Failure(IndexError)
    else match MemoryError(memory[0], |memory[0].keys|)
      case Some(e) => Failure(e)
      case None => Success(MemoryGauges(memory[0], |memory[0].keys|))
  }

  /** The outcome of one cycle: what processRecord returns or raises, and
      the store writes it made, in order. */
  datatype Cycle = Cycle(result: Result<string>, writes: seq<Write>)

  /** processRecord from line 38 on, once the current snapshot is built. */
  function CycleFrom(dbName: string, current: Snapshot, queries: seq<Row>, memory: seq<Row>,
                     render: Registry -> string, dumps: Snapshot -> string, loads: string -> Result<Snapshot>,
                     store: map<string, Entry>): Cycle
    requires AggregateWellFormed(current.heavy) && AggregateWellFormed(current.frequent)
  {
    if !Baseline(store) then Cycle(Success(FirstMessage), [Write(LastKey, dumps(current), None)])
    else
      match loads(store[LastKey].text)
      case Failure(e) => Cycle(Failure(e), [])
      case Success(last) =>
        match MainExport(last, current)
        case Failure(e) => Cycle(Failure(e), [])
        case Success(main) => Publish(dbName, current, render(main), queries, memory, render, dumps)
  }

  /** Lines 106-146: the queries and memory gauges, then the four writes. */
  function Publish(dbName: string, current: Snapshot, mainText: string, queries: seq<Row>, memory: seq<Row>,
                   render: Registry -> string, dumps: Snapshot -> string): Cycle
  {
    match QueriesExport(queries)
    case Failure(e) => Cycle(Failure(e), [])
    case Success(queriesRegistry) =>
      var queriesWrite := Write(QueriesKey, render(queriesRegistry), Some(ShortTtl));
      match MemoryExport(memory)
      case Failure(e) => Cycle(Failure(e), [queriesWrite])
      case Success(memoryRegistry) =>
        Cycle(Success(Join("\n", [mainText, render(queriesRegistry), render(memoryRegistry)])),
              [queriesWrite] + [Write(MemoryKey, render(memoryRegistry), Some(ShortTtl))]
              + [Write(LastKey, dumps(current), None)] + [Write(RecordKey(dbName), mainText, Some(RecordTtl))])
  }

  /** MetricsService.processRecord as a function of its inputs and of the
      store before the cycle. render stands for generate_latest, dumps and
      loads for the JSON codec (loads includes the "heavy"/"frequent"
      lookups). */
  function RunCycle(dbName: string, snapshot: string, heavyRaw: seq<Row>, freqRaw: seq<Row>,
                    queries: seq<Row>, memory: seq<Row>, render: Registry -> string,
                    dumps: Snapshot -> string, loads: string -> Result<Snapshot>,
                    store: map<string, Entry>): Cycle
  {
    match Current(snapshot, heavyRaw, freqRaw)
    case Failure(e) => Cycle(Failure(e), [])
    case Success(current) =>
      CurrentWellFormed(snapshot, heavyRaw, freqRaw);
      CycleFrom(dbName, current, queries, memory, render, dumps, loads, store)
  }

  /** `filter(None, texts)`: the texts that are present and non-empty. */
  function Present(texts: seq<Option<string>>): (r: seq<string>)
    ensures |r| <= |texts|
    ensures forall t :: t in r ==> t != "" && Some(t) in texts
  {
    if texts == [] then []
    else if texts[0].Some? && texts[0].value != "" then [texts[0].value] + Present(texts[1..])
    else Present(texts[1..])
  }

  /** What `filter(None, ...)` keeps of one text: itself when present and
      non-empty, nothing otherwise. */
  function Keep(text: Option<string>): seq<string>
  {
    if text.Some? && text.value != "" then [text.value] else []
  }

  /** `filter(None, ...)` works text by text and keeps the order. */
  lemma {:induction false} PresentAppend(a: seq<Option<string>>, b: seq<Option<string>>)
    ensures Present(a + b) == Present(a) + Present(b)
  {
    if a == [] {
      assert a + b == b;
    } else {
      assert (a + b)[1..] == a[1..] + b;
      PresentAppend(a[1..], b);
    }
  }

  lemma PresentOne(text: Option<string>)
    ensures Present([text]) == Keep(text)
  {
  }

  /** MetricsService.fetchRecords as a function of the store. */
  function Fetched(store: map<string, Entry>): string
  {
    Join("\n", Present([Lookup(store, FetchKey), Lookup(store, QueriesKey), Lookup(store, MemoryKey)]))
  }

  /** `fetchRecords` for any store: the main text of `Baseconta`, the
      queries text and the memory text, in that order, each skipped when
      missing or empty, joined by newlines. */
  lemma FetchedMeaning(store: map<string, Entry>)
    ensures Fetched(store) ==
      Join("\n", Keep(Lookup(store, FetchKey)) + Keep(Lookup(store, QueriesKey)) + Keep(Lookup(store, MemoryKey)))
  {
    var r, q, m := Lookup(store, FetchKey), Lookup(store, QueriesKey), Lookup(store, MemoryKey);
    assert [r, q, m] == [r] + [q] + [m];
    PresentAppend([r] + [q], [m]);
    PresentAppend([r], [q]);
    PresentOne(r);
    PresentOne(q);
    PresentOne(m);
  }

  // ---------------------------------------------------------------------
  // The imperative stages
  // ---------------------------------------------------------------------

  method BuildCurrent(snapshot: string, heavyRaw: seq<Row>, freqRaw: seq<Row>) returns (r: Result<Snapshot>)
    ensures r == Current(snapshot, heavyRaw, freqRaw)
  {
    var heavy := NormalizeQueries(heavyRaw, snapshot, GetMainTable);
    if heavy.Failure? {
      return Failure(heavy.error);
    }
    var freq := NormalizeQueries(freqRaw, snapshot, GetMainTable);
    if freq.Failure? {
      return Failure(freq.error);
    }
    var groupedHeavy := GroupHeavyQueries(heavy.value);
    if groupedHeavy.Failure? {
      return Failure(groupedHeavy.error);
    }
    var groupedFreq := GroupFrequentQueries(freq.value);
    if groupedFreq.Failure? {
      return Failure(groupedFreq.error);
    }
    return Success(Snapshot(snapshot, groupedHeavy.value, groupedFreq.value));
  }

  method ExportMain(last: Snapshot, current: Snapshot) returns (r: Result<Registry>)
    requires AggregateWellFormed(current.heavy) && AggregateWellFormed(current.frequent)
    ensures r == MainExport(last, current)
  {
    var newHeavy := DetectNewTables(last.heavy, current.heavy);
    var newFreq := DetectNewTables(last.frequent, current.frequent);
    var heavyDeltas := CalculateDeltas(last.heavy, current.heavy, newHeavy);
    if heavyDeltas.Failure? {
      return Failure(heavyDeltas.error);
    }
    var freqDeltas := CalculateDeltas(last.frequent, current.frequent, newFreq);
    if freqDeltas.Failure? {
      return Failure(freqDeltas.error);
    }
    r := ExportDeltas("heavy", heavyDeltas.value, EmptyDict());
    if r.Success? {
      r := ExportDeltas("freq", freqDeltas.value, r.value);
    }
  }

  method ExportQueries(queries: seq<Row>) returns (r: Result<Registry>)
    ensures r == QueriesExport(queries)
  {
    if |queries| == 0 {
      return Failure(IndexError);
    }
    var row := queries[0];
    if QueriesField !in row.vals {
      return Failure(KeyError);
    }
    var err := FloatError(row.vals[QueriesField]);
    if err.Some? {
      return Failure(err.value);
    }
    var registry: Registry := EmptyDict();
    registry := Put(registry, QueriesGauge, UnlabelledGauge(QueriesGauge, QueriesHelp, row.vals[QueriesField]));
    return Success(registry);
  }

  method ExportMemory(memory: seq<Row>) returns (r: Result<Registry>)
    ensures r == MemoryExport(memory)
  {
    if |memory| == 0 {
      return Failure(IndexError);
    }
    var mem := memory[0];
    var registry: Registry := EmptyDict();
    for i := 0 to |mem.keys|
      invariant MemoryError(mem, i).None?
      invariant registry == MemoryGauges(mem, i)
    {
      var key := mem.keys[i];
      var err := FloatError(GetOr(mem, key, Null));
      if err.Some? {
        MemoryErrorSticks(mem, i + 1, |mem.keys|);
        return Failure(err.value);
      }
      registry := Put(registry, MemoryName(key), UnlabelledGauge(MemoryName(key), MemoryHelp(key), GetOr(mem, key, Null)));
    }
    return Success(registry);
  }

  // ---------------------------------------------------------------------
  // The service
  // ---------------------------------------------------------------------

  /** A MetricsService with the store it writes to. */
  class Service {
    var redis: map<string, Entry>
    ghost var writes: seq<Write>

    constructor (store: map<string, Entry>)
      ensures redis == store && writes == []
    {
      redis := store;
      writes := [];
    }

    function GetValue(key: string): Option<string>
      reads this
    {
      Lookup(redis, key)
    }

    method Set(key: string, text: string, ttl: Option<nat>)
      modifies this
      ensures redis == old(redis)[key := Entry(text, ttl)]
      ensures writes == old(writes) + [Write(key, text, ttl)]
    {
      redis := redis[key := Entry(text, ttl)];
      writes := writes + [Write(key, text, ttl)];
    }

    /** MetricsService.processRecord */
    method ProcessRecord(dbName: string, snapshot: string, heavyRaw: seq<Row>, freqRaw: seq<Row>,
                         queries: seq<Row>, memory: seq<Row>, render: Registry -> string,
                         dumps: Snapshot -> string, loads: string -> Result<Snapshot>)
      returns (r: Result<string>)
      modifies this
      ensures var c := RunCycle(dbName, snapshot, heavyRaw, freqRaw, queries, memory, render, dumps, loads, old(redis));
              && r == c.result
              && writes == old(writes) + c.writes
              && redis == Applied(old(redis), c.writes)
    {
      var current := BuildCurrent(snapshot, heavyRaw, freqRaw);
      if current.Failure? {
        return Failure(current.error);
      }
      CurrentWellFormed(snapshot, heavyRaw, freqRaw);
      r := ProcessCurrent(dbName, current.value, queries, memory, render, dumps, loads);
    }

    /** processRecord from line 38 on. */
    method ProcessCurrent(dbName: string, current: Snapshot, queries: seq<Row>, memory: seq<Row>,
                          render: Registry -> string, dumps: Snapshot -> string, loads: string -> Result<Snapshot>)
      returns (r: Result<string>)
      requires AggregateWellFormed(current.heavy) && AggregateWellFormed(current.frequent)
      modifies this
      ensures var c := CycleFrom(dbName, current, queries, memory, render, dumps, loads, old(redis));
              && r == c.result
              && writes == old(writes) + c.writes
              && redis == Applied(old(redis), c.writes)
    {
      var raw := GetValue(LastKey);
      if raw.None? || raw.value == "" {
        Set(LastKey, dumps(current), None);
        return Success(FirstMessage);
      }
      var last := loads(raw.value);
      if last.Failure? {
        return Failure(last.error);
      }
      var main := ExportMain(last.value, current);
      if main.Failure? {
        return Failure(main.error);
      }
      r := Publishing(dbName, current, render(main.value), queries, memory, render, dumps);
    }

    /** processRecord, lines 106-146. */
    method Publishing(dbName: string, current: Snapshot, mainText: string, queries: seq<Row>, memory: seq<Row>,
                      render: Registry -> string, dumps: Snapshot -> string)
      returns (r: Result<string>)
      modifies this
      ensures var c := Publish(dbName, current, mainText, queries, memory, render, dumps);
              && r == c.result
              && writes == old(writes) + c.writes
              && redis == Applied(old(redis), c.writes)
    {
      var queriesRegistry := ExportQueries(queries);
      if queriesRegistry.Failure? {
        return Failure(queriesRegistry.error);
      }
      var queriesText := render(queriesRegistry.value);
      Set(QueriesKey, queriesText, Some(ShortTtl));
      ghost var done := [Write(QueriesKey, queriesText, Some(ShortTtl))];
      assert redis == Applied(old(redis), done);
      var memoryRegistry := ExportMemory(memory);
      if memoryRegistry.Failure? {
        return Failure(memoryRegistry.error);
      }
      var memoryText := render(memoryRegistry.value);
      Set(MemoryKey, memoryText, Some(ShortTtl));
      Logged(old(writes), old(redis), done, Write(MemoryKey, memoryText, Some(ShortTtl)));
      done := done + [Write(MemoryKey, memoryText, Some(ShortTtl))];
      Set(LastKey, dumps(current), None);
      Logged(old(writes), old(redis), done, Write(LastKey, dumps(current), None));
      done := done + [Write(LastKey, dumps(current), None)];
      Set(RecordKey(dbName), mainText, Some(RecordTtl));
      Logged(old(writes), old(redis), done, Write(RecordKey(dbName), mainText, Some(RecordTtl)));
      done := done + [Write(RecordKey(dbName), mainText, Some(RecordTtl))];
      return Success(Join("\n", [mainText, queriesText, memoryText]));
    }

    /** MetricsService.fetchRecords */
    method FetchRecords() returns (r: string)
      ensures r == Fetched(redis)
    {
      var record := GetValue(FetchKey);
      var mem := GetValue(MemoryKey);
      var q := GetValue(QueriesKey);
      r := Join("\n", Present([record, q, mem]));
    }
  }

  // ---------------------------------------------------------------------
  // Properties of a cycle
  // ---------------------------------------------------------------------

  lemma PrefixLiterals()
    ensures "db_" + "freq" + "_" == "db_freq_" && "db_" + "heavy" + "_" == "db_heavy_"
  {
  }

  /** The heavy and the frequent export share one registry without meeting:
      a gauge outside `db_freq_*` is as the heavy export alone makes it, and
      one outside `db_heavy_*` as the frequent export alone makes it. */
  lemma MainRegistrySplit(last: Snapshot, current: Snapshot, name: string)
    requires AggregateWellFormed(current.heavy) && AggregateWellFormed(current.frequent)
    requires MainExport(last, current).Success?
    ensures TableDeltas(last.heavy, current.heavy).Success? && TableDeltas(last.frequent, current.frequent).Success?
    ensures Export("heavy", TableDeltas(last.heavy, current.heavy).value, EmptyDict()).Success?
    ensures Export("freq", TableDeltas(last.frequent, current.frequent).value, EmptyDict()).Success?
    ensures !StartsWith(name, "db_freq_") ==>
      GaugeNamed(MainExport(last, current).value, name) ==
      GaugeNamed(Export("heavy", TableDeltas(last.heavy, current.heavy).value, EmptyDict()).value, name)
    ensures !StartsWith(name, "db_heavy_") ==>
      GaugeNamed(MainExport(last, current).value, name) ==
      GaugeNamed(Export("freq", TableDeltas(last.frequent, current.frequent).value, EmptyDict()).value, name)
  {
    var hd := TableDeltas(last.heavy, current.heavy).value;
    var fd := TableDeltas(last.frequent, current.frequent).value;
    assert MainExport(last, current) == Export("freq", fd, Export("heavy", hd, EmptyDict()).value);
    PrefixLiterals();
    ExportsApart("heavy", hd, "freq", fd, name);
  }

  /** The n-th table's entry in the deltas: its k-th key is the k-th
      field's delta key holding that field's delta, and its flag says
      whether the previous aggregate lacked the table. */
  lemma DeltaEntry(previous: Aggregate, current: Aggregate, n: nat, k: nat)
    requires AggregateWellFormed(current) && TableDeltas(previous, current).Success?
    requires n < |current.keys| && k < |current.vals[current.keys[n]].keys|
    ensures TableDeltas(previous, current).value.keys == current.keys
    ensures var d := TableDeltas(previous, current).value;
            var tbl := current.keys[n];
            var field := current.vals[tbl].keys[k];
            var entry := PrometheusService.EntryOf(d, n);
            && k < |entry.keys| && entry.keys[k] == DeltaKey(field)
            && GetOr(entry, Flag, Null) == Bool(tbl !in previous.vals)
            && FieldDelta(previous, tbl, tbl !in previous.vals, field, current.vals[tbl].vals[field]).Success?
            && GetOr(entry, DeltaKey(field), Null) ==
                 FieldDelta(previous, tbl, tbl !in previous.vals, field, current.vals[tbl].vals[field]).value
  {
    var tbl := current.keys[n];
    var values := current.vals[tbl];
    var newTables := DetectNewTables(previous, current);
    var isNew := tbl in newTables;
    DeltasShape(previous, current, newTables);
    DeltasValue(previous, current, newTables, n);
    DeltaFlag(previous, current, n);
    TableDeltaShape(previous, tbl, values, isNew);
    TableDeltaValue(previous, tbl, values, isNew, k);
    assert isNew == (tbl !in previous.vals);
  }

  /** The frequent export alone: gauge `db_freq_<field>_delta` holds the
      n-th table's delta for its k-th field under (table, is_new_table). */
  lemma FrequentExportSeries(previous: Aggregate, current: Aggregate, n: nat, k: nat)
    requires AggregateWellFormed(current) && TableDeltas(previous, current).Success?
    requires Export("freq", TableDeltas(previous, current).value, EmptyDict()).Success?
    requires n < |current.keys| && k < |current.vals[current.keys[n]].keys|
    requires forall n' :: 0 <= n' < |current.keys| && Show(current.keys[n']) == Show(current.keys[n]) ==> n' == n
    ensures var tbl := current.keys[n];
            var field := current.vals[tbl].keys[k];
            var g := GaugeNamed(Export("freq", TableDeltas(previous, current).value, EmptyDict()).value, "db_freq_" + field + "_delta");
            var labels := [Show(tbl), Show(Bool(tbl !in previous.vals))];
            && FieldDelta(previous, tbl, tbl !in previous.vals, field, current.vals[tbl].vals[field]).Success?
            && g.Some? && labels in g.value.children.vals
            && g.value.children.vals[labels] ==
                 FieldDelta(previous, tbl, tbl !in previous.vals, field, current.vals[tbl].vals[field]).value
  {
    var field := current.vals[current.keys[n]].keys[k];
    DeltaEntry(previous, current, n, k);
    DeltaKeyIsNotFlag(field);
    ExportedValue("freq", TableDeltas(previous, current).value, n, k);
    PrefixLiterals();
    assert "db_" + "freq" + "_" + DeltaKey(field) == "db_freq_" + field + "_delta";
  }

  lemma FrequentNameNotHeavy(field: string)
    ensures !StartsWith("db_freq_" + field + "_delta", "db_heavy_")
  {
    var name := "db_freq_" + field + "_delta";
    assert name[3] == 'f' && "db_heavy_"[3] == 'h';
  }

  /** End to end over the main registry: for the n-th table of the current
      frequent aggregate and its k-th field, gauge `db_freq_<field>_delta`
      holds, under the labels (table, is_new_table), the field's delta
      against the stored snapshot; is_new_table is "False" exactly when the
      stored snapshot had the table, and then the delta is the difference of
      the two normalised numbers. */
  lemma FrequentDeltaSeries(last: Snapshot, current: Snapshot, n: nat, k: nat)
    requires AggregateWellFormed(current.heavy) && AggregateWellFormed(current.frequent)
    requires MainExport(last, current).Success?
    requires n < |current.frequent.keys| && k < |current.frequent.vals[current.frequent.keys[n]].keys|
    requires forall n' :: 0 <= n' < |current.frequent.keys| && Show(current.frequent.keys[n']) == Show(current.frequent.keys[n])
               ==> n' == n
    ensures var tbl := current.frequent.keys[n];
            var values := current.frequent.vals[tbl];
            var field := values.keys[k];
            var g := GaugeNamed(MainExport(last, current).value, "db_freq_" + field + "_delta");
            var labels := [Show(tbl), if tbl in last.frequent.vals then "False" else "True"];
            && g.Some? && labels in g.value.children.vals
            && (tbl !in last.frequent.vals ==> g.value.children.vals[labels] == NormalizeNumber(values.vals[field]))
            && (tbl in last.frequent.vals ==>
                  && NumberOf(NormalizeNumber(values.vals[field])).Some?
                  && NumberOf(NormalizeNumber(OldValue(last.frequent, tbl, field))).Some?
                  && g.value.children.vals[labels] ==
                    Int(NumberOf(NormalizeNumber(values.vals[field])).value -
                        NumberOf(NormalizeNumber(OldValue(last.frequent, tbl, field))).value))
  {
    var tbl := current.frequent.keys[n];
    var field := current.frequent.vals[tbl].keys[k];
    var name := "db_freq_" + field + "_delta";
    FrequentNameNotHeavy(field);
    MainRegistrySplit(last, current, name);
    var freq := Export("freq", TableDeltas(last.frequent, current.frequent).value, EmptyDict()).value;
    assert GaugeNamed(MainExport(last, current).value, name) == GaugeNamed(freq, name);
    FrequentExportSeries(last.frequent, current.frequent, n, k);
    FieldDeltaMeaning(last.frequent, tbl, tbl !in last.frequent.vals, field, current.frequent.vals[tbl].vals[field]);
    assert Show(Bool(tbl !in last.frequent.vals)) == if tbl in last.frequent.vals then "False" else "True";
  }

  /** Two cycles over one old table: a field at 100 in the stored snapshot
      and at 140 now (execution_count, say) gives the series
      `db_freq_execution_count_delta{table=<table>, is_new_table="False"} 40`. */
  lemma TwoCyclesDelta(last: Snapshot, current: Snapshot, n: nat, k: nat)
    requires AggregateWellFormed(current.heavy) && AggregateWellFormed(current.frequent)
    requires MainExport(last, current).Success?
    requires n < |current.frequent.keys| && k < |current.frequent.vals[current.frequent.keys[n]].keys|
    requires forall n' :: 0 <= n' < |current.frequent.keys| && Show(current.frequent.keys[n']) == Show(current.frequent.keys[n])
               ==> n' == n
    requires var tbl := current.frequent.keys[n];
             var field := current.frequent.vals[tbl].keys[k];
             && current.frequent.vals[tbl].vals[field] == Int(140)
             && tbl in last.frequent.vals
             && GetOr(last.frequent.vals[tbl], field, Int(0)) == Int(100)
    ensures var tbl := current.frequent.keys[n];
            var field := current.frequent.vals[tbl].keys[k];
            var g := GaugeNamed(MainExport(last, current).value, "db_freq_" + field + "_delta");
            var labels := [Show(tbl), "False"];
            g.Some? && labels in g.value.children.vals && g.value.children.vals[labels] == Int(40)
  {
    var tbl := current.frequent.keys[n];
    var field := current.frequent.vals[tbl].keys[k];
    FrequentDeltaSeries(last, current, n, k);
    assert OldValue(last.frequent, tbl, field) == Int(100);
  }

  /** With no stored snapshot the cycle stores the current one and returns
      "FIRST SNAPSHOT STORED"; no other key is written. */
  lemma FirstCycle(dbName: string, snapshot: string, heavyRaw: seq<Row>, freqRaw: seq<Row>,
                   queries: seq<Row>, memory: seq<Row>, render: Registry -> string,
                   dumps: Snapshot -> string, loads: string -> Result<Snapshot>, store: map<string, Entry>)
    requires Current(snapshot, heavyRaw, freqRaw).Success? && !Baseline(store)
    ensures var c := RunCycle(dbName, snapshot, heavyRaw, freqRaw, queries, memory, render, dumps, loads, store);
            var after := Applied(store, c.writes);
            && c.result == Success(FirstMessage)
            && c.writes == [Write(LastKey, dumps(Current(snapshot, heavyRaw, freqRaw).value), None)]
            && LastKey in after && after[LastKey] == Entry(dumps(Current(snapshot, heavyRaw, freqRaw).value), None)
            && (forall k :: k != LastKey ==> Lookup(after, k) == Lookup(store, k))
  {
    var c := RunCycle(dbName, snapshot, heavyRaw, freqRaw, queries, memory, render, dumps, loads, store);
    AppliedSnoc(store, [], c.writes[0]);
    assert [] + [c.writes[0]] == c.writes;
  }

  lemma RecordKeyDistinct(dbName: string)
    ensures RecordKey(dbName) != LastKey && RecordKey(dbName) != QueriesKey && RecordKey(dbName) != MemoryKey
  {
    assert RecordKey(dbName)[0] == 'm';
  }

  /** The store after the four writes of a completed publication. */
  lemma PublishedStore(dbName: string, current: Snapshot, mainText: string, queries: seq<Row>, memory: seq<Row>,
                       render: Registry -> string, dumps: Snapshot -> string, store: map<string, Entry>)
    requires Publish(dbName, current, mainText, queries, memory, render, dumps).result.Success?
    ensures var c := Publish(dbName, current, mainText, queries, memory, render, dumps);
            var after := Applied(store, c.writes);
            && |c.writes| == 4
            && c.writes[0].key == QueriesKey && c.writes[1].key == MemoryKey
            && c.writes[2].key == LastKey && c.writes[3].key == RecordKey(dbName)
            && LastKey in after && QueriesKey in after && MemoryKey in after && RecordKey(dbName) in after
            && after[LastKey] == Entry(dumps(current), None)
            && after[RecordKey(dbName)] == Entry(mainText, Some(RecordTtl))
            && after[QueriesKey].ttl == Some(ShortTtl) && after[MemoryKey].ttl == Some(ShortTtl)
            && c.result.value == Join("\n", [mainText, after[QueriesKey].text, after[MemoryKey].text])
            && (forall k :: k != LastKey && k != QueriesKey && k != MemoryKey && k != RecordKey(dbName) ==>
                  Lookup(after, k) == Lookup(store, k))
  {
    var c := Publish(dbName, current, mainText, queries, memory, render, dumps);
    RecordKeyDistinct(dbName);
    var w := c.writes;
    assert [w[0]] == [] + [w[0]];
    AppliedSnoc(store, [], w[0]);
    AppliedSnoc(store, [w[0]], w[1]);
    AppliedSnoc(store, [w[0]] + [w[1]], w[2]);
    AppliedSnoc(store, [w[0]] + [w[1]] + [w[2]], w[3]);
  }

  /** What the store holds after a cycle from a stored snapshot that
      completes: the four keys, each with its text and time to live, and
      the returned text is the main, queries and memory texts joined by
      newlines. */
  lemma CompletedCycle(dbName: string, snapshot: string, heavyRaw: seq<Row>, freqRaw: seq<Row>,
                       queries: seq<Row>, memory: seq<Row>, render: Registry -> string,
                       dumps: Snapshot -> string, loads: string -> Result<Snapshot>, store: map<string, Entry>)
    requires Baseline(store)
    requires RunCycle(dbName, snapshot, heavyRaw, freqRaw, queries, memory, render, dumps, loads, store).result.Success?
    ensures var c := RunCycle(dbName, snapshot, heavyRaw, freqRaw, queries, memory, render, dumps, loads, store);
            var after := Applied(store, c.writes);
            && |c.writes| == 4
            && c.writes[0].key == QueriesKey && c.writes[1].key == MemoryKey
            && c.writes[2].key == LastKey && c.writes[3].key == RecordKey(dbName)
            && LastKey in after && QueriesKey in after && MemoryKey in after && RecordKey(dbName) in after
            && after[LastKey] == Entry(dumps(Current(snapshot, heavyRaw, freqRaw).value), None)
            && after[RecordKey(dbName)].ttl == Some(RecordTtl)
            && after[QueriesKey].ttl == Some(ShortTtl) && after[MemoryKey].ttl == Some(ShortTtl)
            && c.result.value == Join("\n", [after[RecordKey(dbName)].text, after[QueriesKey].text, after[MemoryKey].text])
            && (forall k :: k != LastKey && k != QueriesKey && k != MemoryKey && k != RecordKey(dbName) ==>
                  Lookup(after, k) == Lookup(store, k))
  {
    var current := Current(snapshot, heavyRaw, freqRaw).value;
    CurrentWellFormed(snapshot, heavyRaw, freqRaw);
    var last := loads(store[LastKey].text).value;
    var main := MainExport(last, current).value;
    PublishedStore(dbName, current, render(main), queries, memory, render, dumps, store);
  }

  /** A cycle that raises writes at most the queries text: the stored
      snapshot and the main text are left as they were. */
  lemma FailedCycle(dbName: string, snapshot: string, heavyRaw: seq<Row>, freqRaw: seq<Row>,
                    queries: seq<Row>, memory: seq<Row>, render: Registry -> string,
                    dumps: Snapshot -> string, loads: string -> Result<Snapshot>, store: map<string, Entry>)
    requires RunCycle(dbName, snapshot, heavyRaw, freqRaw, queries, memory, render, dumps, loads, store).result.Failure?
    ensures var c := RunCycle(dbName, snapshot, heavyRaw, freqRaw, queries, memory, render, dumps, loads, store);
            && (forall w :: w in c.writes ==> w.key == QueriesKey && w.ttl == Some(ShortTtl))
            && (forall k :: k != QueriesKey ==> Lookup(Applied(store, c.writes), k) == Lookup(store, k))
  {
    var c := RunCycle(dbName, snapshot, heavyRaw, freqRaw, queries, memory, render, dumps, loads, store);
    if c.writes != [] {
      assert c.writes == [] + [c.writes[0]];
      AppliedSnoc(store, [], c.writes[0]);
    }
  }

  /** With no current-queries row the cycle raises IndexError at
      `queries[0]`, before any write. */
  lemma NoQueriesRow(dbName: string, snapshot: string, heavyRaw: seq<Row>, freqRaw: seq<Row>,
                     memory: seq<Row>, render: Registry -> string,
                     dumps: Snapshot -> string, loads: string -> Result<Snapshot>, store: map<string, Entry>)
    requires Current(snapshot, heavyRaw, freqRaw).Success? && Baseline(store)
    requires loads(store[LastKey].text).Success?
    requires AggregateWellFormed(Current(snapshot, heavyRaw, freqRaw).value.heavy)
    requires AggregateWellFormed(Current(snapshot, heavyRaw, freqRaw).value.frequent)
    requires MainExport(loads(store[LastKey].text).value, Current(snapshot, heavyRaw, freqRaw).value).Success?
    ensures RunCycle(dbName, snapshot, heavyRaw, freqRaw, [], memory, render, dumps, loads, store) == Cycle(Failure(IndexError), [])
  {
  }

  /** With no memory row the cycle raises IndexError at `memory[0]`, after
      writing only the queries text: the snapshot is not updated. */
  lemma NoMemoryRow(dbName: string, snapshot: string, heavyRaw: seq<Row>, freqRaw: seq<Row>,
                    queries: seq<Row>, render: Registry -> string,
                    dumps: Snapshot -> string, loads: string -> Result<Snapshot>, store: map<string, Entry>)
    requires Current(snapshot, heavyRaw, freqRaw).Success? && Baseline(store)
    requires loads(store[LastKey].text).Success?
    requires AggregateWellFormed(Current(snapshot, heavyRaw, freqRaw).value.heavy)
    requires AggregateWellFormed(Current(snapshot, heavyRaw, freqRaw).value.frequent)
    requires MainExport(loads(store[LastKey].text).value, Current(snapshot, heavyRaw, freqRaw).value).Success?
    requires QueriesExport(queries).Success?
    ensures RunCycle(dbName, snapshot, heavyRaw, freqRaw, queries, [], render, dumps, loads, store) ==
            Cycle(Failure(IndexError), [Write(QueriesKey, render(QueriesExport(queries).value), Some(ShortTtl))])
  {
    var current := Current(snapshot, heavyRaw, freqRaw).value;
    var main := MainExport(loads(store[LastKey].text).value, current).value;
    assert MemoryExport([]) == Failure(IndexError);
    assert Publish(dbName, current, render(main), queries, [], render, dumps) ==
           Cycle(Failure(IndexError), [Write(QueriesKey, render(QueriesExport(queries).value), Some(ShortTtl))]);
  }

  /** After a cycle that completes, first or not, the store holds a
      baseline, and the next cycle diffs against this cycle's snapshot
      whenever loads undoes dumps on it. */
  lemma NextCycleBaseline(dbName: string, snapshot: string, heavyRaw: seq<Row>, freqRaw: seq<Row>,
                          queries: seq<Row>, memory: seq<Row>, render: Registry -> string,
                          dumps: Snapshot -> string, loads: string -> Result<Snapshot>, store: map<string, Entry>)
    requires RunCycle(dbName, snapshot, heavyRaw, freqRaw, queries, memory, render, dumps, loads, store).result.Success?
    requires dumps(Current(snapshot, heavyRaw, freqRaw).value) != ""
    requires loads(dumps(Current(snapshot, heavyRaw, freqRaw).value)) == Success(Current(snapshot, heavyRaw, freqRaw).value)
    ensures var after := Applied(store, RunCycle(dbName, snapshot, heavyRaw, freqRaw, queries, memory, render, dumps, loads, store).writes);
            && Baseline(after)
            && loads(after[LastKey].text) == Success(Current(snapshot, heavyRaw, freqRaw).value)
  {
    if Baseline(store) {
      CompletedCycle(dbName, snapshot, heavyRaw, freqRaw, queries, memory, render, dumps, loads, store);
    } else {
      FirstCycle(dbName, snapshot, heavyRaw, freqRaw, queries, memory, render, dumps, loads, store);
    }
  }

  /** Two cycles from an empty baseline: the first stores its snapshot and
      returns "FIRST SNAPSHOT STORED"; the second exports the deltas of its
      own snapshot against the first one's. */
  lemma TwoCycles(dbName: string, s1: string, heavy1: seq<Row>, freq1: seq<Row>,
                  s2: string, heavy2: seq<Row>, freq2: seq<Row>,
                  queries: seq<Row>, memory: seq<Row>, render: Registry -> string,
                  dumps: Snapshot -> string, loads: string -> Result<Snapshot>, store: map<string, Entry>)
    requires !Baseline(store)
    requires Current(s1, heavy1, freq1).Success? && Current(s2, heavy2, freq2).Success?
    requires dumps(Current(s1, heavy1, freq1).value) != ""
    requires loads(dumps(Current(s1, heavy1, freq1).value)) == Success(Current(s1, heavy1, freq1).value)
    ensures RunCycle(dbName, s1, heavy1, freq1, queries, memory, render, dumps, loads, store).result == Success(FirstMessage)
    ensures AggregateWellFormed(Current(s2, heavy2, freq2).value.heavy)
    ensures AggregateWellFormed(Current(s2, heavy2, freq2).value.frequent)
    ensures var after := Applied(store, RunCycle(dbName, s1, heavy1, freq1, queries, memory, render, dumps, loads, store).writes);
            RunCycle(dbName, s2, heavy2, freq2, queries, memory, render, dumps, loads, after) ==
            CycleFrom(dbName, Current(s2, heavy2, freq2).value, queries, memory, render, dumps, loads, after)
    ensures var after := Applied(store, RunCycle(dbName, s1, heavy1, freq1, queries, memory, render, dumps, loads, store).writes);
            var c2 := RunCycle(dbName, s2, heavy2, freq2, queries, memory, render, dumps, loads, after);
            MainExport(Current(s1, heavy1, freq1).value, Current(s2, heavy2, freq2).value).Success? &&
            QueriesExport(queries).Success? && MemoryExport(memory).Success? ==>
              c2.result == Success(Join("\n", [render(MainExport(Current(s1, heavy1, freq1).value, Current(s2, heavy2, freq2).value).value),
                                               render(QueriesExport(queries).value), render(MemoryExport(memory).value)]))
  {
    FirstCycle(dbName, s1, heavy1, freq1, queries, memory, render, dumps, loads, store);
    NextCycleBaseline(dbName, s1, heavy1, freq1, queries, memory, render, dumps, loads, store);
    CurrentWellFormed(s2, heavy2, freq2);
  }

  /** fetchRecords reads the key processRecord writes for "Baseconta". */
  lemma FetchIsRecordKey()
    ensures RecordKey("Baseconta") == FetchKey
  {
  }

  /** fetchRecords on a store holding the three keys with non-empty
      texts: the three texts, in order, joined by newlines. */
  lemma FetchedAll(store: map<string, Entry>)
    requires FetchKey in store && QueriesKey in store && MemoryKey in store
    requires store[FetchKey].text != "" && store[QueriesKey].text != "" && store[MemoryKey].text != ""
    ensures Fetched(store) == Join("\n", [store[FetchKey].text, store[QueriesKey].text, store[MemoryKey].text])
  {
    var a, b, m := store[FetchKey].text, store[QueriesKey].text, store[MemoryKey].text;
    assert Present([Some(m)]) == [m] + Present([]);
    assert [Some(b), Some(m)][1..] == [Some(m)];
    assert [Some(a), Some(b), Some(m)][1..] == [Some(b), Some(m)];
    assert Present([Some(a), Some(b), Some(m)]) == [a, b, m];
  }

  /** fetchRecords after a completed cycle for "Baseconta": when none of the
      three texts is empty, exactly what processRecord returned. */
  lemma FetchAfterCycle(snapshot: string, heavyRaw: seq<Row>, freqRaw: seq<Row>,
                        queries: seq<Row>, memory: seq<Row>, render: Registry -> string,
                        dumps: Snapshot -> string, loads: string -> Result<Snapshot>, store: map<string, Entry>)
    requires Baseline(store)
    requires RunCycle("Baseconta", snapshot, heavyRaw, freqRaw, queries, memory, render, dumps, loads, store).result.Success?
    ensures var c := RunCycle("Baseconta", snapshot, heavyRaw, freqRaw, queries, memory, render, dumps, loads, store);
            var after := Applied(store, c.writes);
            && FetchKey in after && QueriesKey in after && MemoryKey in after
            && (after[FetchKey].text != "" && after[QueriesKey].text != "" && after[MemoryKey].text != "" ==>
                  Fetched(after) == c.result.value)
  {
    var c := RunCycle("Baseconta", snapshot, heavyRaw, freqRaw, queries, memory, render, dumps, loads, store);
    var after := Applied(store, c.writes);
    CompletedCycle("Baseconta", snapshot, heavyRaw, freqRaw, queries, memory, render, dumps, loads, store);
    FetchIsRecordKey();
    if after[FetchKey].text != "" && after[QueriesKey].text != "" && after[MemoryKey].text != "" {
      FetchedAll(after);
    }
  }

  /** fetchRecords reads `metrics:Baseconta` whatever database the cycle
      stored under: a cycle for another name leaves that key as it was. */
  lemma FetchIgnoresDbName(dbName: string, snapshot: string, heavyRaw: seq<Row>, freqRaw: seq<Row>,
                           queries: seq<Row>, memory: seq<Row>, render: Registry -> string,
                           dumps: Snapshot -> string, loads: string -> Result<Snapshot>, store: map<string, Entry>)
    requires dbName != "Baseconta"
    ensures var c := RunCycle(dbName, snapshot, heavyRaw, freqRaw, queries, memory, render, dumps, loads, store);
            Lookup(Applied(store, c.writes), FetchKey) == Lookup(store, FetchKey)
  {
    var c := RunCycle(dbName, snapshot, heavyRaw, freqRaw, queries, memory, render, dumps, loads, store);
    assert RecordKey(dbName) != FetchKey by {
      if RecordKey(dbName) == FetchKey {
        PrefixCancels("metrics:", dbName, "Baseconta");
      }
    }
    assert FetchKey[0] == 'm';
    if c.result.Failure? {
      FailedCycle(dbName, snapshot, heavyRaw, freqRaw, queries, memory, render, dumps, loads, store);
    } else if Baseline(store) {
      CompletedCycle(dbName, snapshot, heavyRaw, freqRaw, queries, memory, render, dumps, loads, store);
    } else {
      FirstCycle(dbName, snapshot, heavyRaw, freqRaw, queries, memory, render, dumps, loads, store);
    }
  }

  /** The queries registry: IndexError without a row, KeyError without the
      field, otherwise the one unlabelled gauge set to the field's value. */
  lemma QueriesExportMeaning(queries: seq<Row>)
    ensures QueriesExport(queries).Success? <==>
      queries != [] && QueriesField in queries[0].vals && FloatError(queries[0].vals[QueriesField]).None?
    ensures queries == [] ==> QueriesExport(queries) == Failure(IndexError)
    ensures queries != [] && QueriesField !in queries[0].vals ==> QueriesExport(queries) == Failure(KeyError)
    ensures queries != [] && QueriesField in queries[0].vals && FloatError(queries[0].vals[QueriesField]).Some? ==>
      QueriesExport(queries) == Failure(FloatError(queries[0].vals[QueriesField]).value)
    ensures QueriesExport(queries).Success? ==>
      var registry := QueriesExport(queries).value;
      && WellFormed(registry) && registry.keys == [QueriesGauge]
      && registry.vals[QueriesGauge].labelNames == []
      && registry.vals[QueriesGauge].children.keys == [[]]
      && registry.vals[QueriesGauge].children.vals[[]] == queries[0].vals[QueriesField]
  {
  }

  lemma MemoryNameInjective(a: string, b: string)
    requires MemoryName(a) == MemoryName(b)
    ensures a == b
  {
    PrefixCancels("db_memory_", a, b);
  }

  /** The gauge name of the n-th key of a well-formed row differs from the
      names of all earlier keys. */
  lemma MemoryNameFresh(mem: Row, n: nat)
    requires WellFormed(mem) && n < |mem.keys|
    ensures forall i :: 0 <= i < n ==> MemoryName(mem.keys[i]) != MemoryName(mem.keys[n])
  {
    forall i | 0 <= i < n
      ensures MemoryName(mem.keys[i]) != MemoryName(mem.keys[n])
    {
      if MemoryName(mem.keys[i]) == MemoryName(mem.keys[n]) {
        MemoryNameInjective(mem.keys[i], mem.keys[n]);
      }
    }
  }

  /** The memory registry's gauges: for the distinct keys of `memory[0]`,
      one per key, in key order, named `db_memory_{key}`. */
  lemma {:induction false} MemoryGaugesNames(mem: Row, n: nat)
    requires WellFormed(mem) && n <= |mem.keys|
    ensures WellFormed(MemoryGauges(mem, n))
    ensures |MemoryGauges(mem, n).keys| == n
    ensures forall i :: 0 <= i < n ==> MemoryGauges(mem, n).keys[i] == MemoryName(mem.keys[i])
  {
    if n > 0 {
      MemoryGaugesNames(mem, n - 1);
      var before := MemoryGauges(mem, n - 1);
      var key := mem.keys[n - 1];
      var g := UnlabelledGauge(MemoryName(key), MemoryHelp(key), GetOr(mem, key, Null));
      MemoryNameFresh(mem, n - 1);
      assert MemoryName(key) !in before.vals;
      PutWellFormed(before, MemoryName(key), g);
    }
  }

  /** Each memory gauge is unlabelled and set to its key's value in
      `memory[0]`. */
  lemma {:induction false} MemoryGaugesValues(mem: Row, n: nat)
    requires WellFormed(mem) && n <= |mem.keys|
    ensures forall i :: 0 <= i < n ==>
      && MemoryName(mem.keys[i]) in MemoryGauges(mem, n).vals
      && MemoryGauges(mem, n).vals[MemoryName(mem.keys[i])] ==
         UnlabelledGauge(MemoryName(mem.keys[i]), MemoryHelp(mem.keys[i]), mem.vals[mem.keys[i]])
  {
    if n > 0 {
      MemoryGaugesValues(mem, n - 1);
      MemoryNameFresh(mem, n - 1);
      assert mem.keys[n - 1] in mem.vals;
    }
  }

  lemma {:induction false} MemoryErrorSticks(mem: Row, n: nat, m: nat)
    requires n <= m <= |mem.keys| && MemoryError(mem, n).Some?
    ensures MemoryError(mem, m) == MemoryError(mem, n)
    decreases m
  {
    if n < m {
      MemoryErrorSticks(mem, n, m - 1);
    }
  }

  /** The memory export raises, with TypeError or ValueError, exactly when
      some value of `memory[0]` has no float conversion; the error is that of
      the first such value. */
  lemma {:induction false} MemoryErrorMeaning(mem: Row, n: nat)
    requires n <= |mem.keys|
    ensures MemoryError(mem, n).None? <==> forall i :: 0 <= i < n ==> FloatError(GetOr(mem, mem.keys[i], Null)).None?
    ensures MemoryError(mem, n).Some? ==>
      exists i :: 0 <= i < n && FloatError(GetOr(mem, mem.keys[i], Null)) == MemoryError(mem, n) &&
                  forall k :: 0 <= k < i ==> FloatError(GetOr(mem, mem.keys[k], Null)).None?
  {
    if n > 0 {
      MemoryErrorMeaning(mem, n - 1);
    }
  }
}
