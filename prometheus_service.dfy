/** PrometheusService: which gauges the exporters register and which label
    tuples they set to which values. The text prometheus_client renders
    from a registry (generate_latest) is not part of this model. */
module PrometheusService {
  import opened PyValues

  /** One `Gauge(name, help, labelNames)` lookup or creation followed by
      `.labels(*labels).set(value)` (no labels for an unlabelled gauge). */
  datatype SetCall = SetCall(name: string, help: string, labelNames: seq<string>, labels: seq<string>, value: Value)

  /** A registered gauge: one value per label tuple; setting a label tuple
      again keeps its place and replaces its value. */
  datatype Gauge = Gauge(name: string, help: string, labelNames: seq<string>, children: Dict<seq<string>, Value>)

  /** A CollectorRegistry together with its `gauges_cache`: the gauges by
      name, in registration order. */
  type Registry = Dict<string, Gauge>

  function GaugeNamed(registry: Registry, name: string): Option<Gauge>
  {
    if name in registry.vals then Some(registry.vals[name]) else None
  }

  /** One set call on a registry: the gauge is registered on first use of
      its name, then its label tuple is set. */
  function Record(registry: Registry, c: SetCall): Registry
  {
    if c.name in registry.vals then
      var g := registry.vals[c.name];
      Put(registry, c.name, g.(children := Put(g.children, c.labels, c.value)))
    else Put(registry, c.name, Gauge(c.name, c.help, c.labelNames, Put(EmptyDict(), c.labels, c.value)))
  }

  /** The registry after a sequence of set calls. */
  function Replay(registry: Registry, calls: seq<SetCall>): Registry
  {
    if calls == [] then registry else Record(Replay(registry, calls[..|calls| - 1]), calls[|calls| - 1])
  }

  lemma ReplaySnoc(registry: Registry, calls: seq<SetCall>, c: SetCall)
    ensures Replay(registry, calls + [c]) == Record(Replay(registry, calls), c)
  {
    assert (calls + [c])[..|calls + [c]| - 1] == calls;
  }

  lemma {:induction false} ReplayAppend(registry: Registry, a: seq<SetCall>, b: seq<SetCall>)
    ensures Replay(registry, a + b) == Replay(Replay(registry, a), b)
  {
    if b == [] {
      assert a + b == a;
    } else {
      assert (a + b)[..|a + b| - 1] == a + b[..|b| - 1];
      ReplayAppend(registry, a, b[..|b| - 1]);
    }
  }

  /** Registration keeps the registry a well-formed dict: each name is
      registered once, which prometheus_client requires. */
  lemma {:induction false} ReplayWellFormed(registry: Registry, calls: seq<SetCall>)
    requires WellFormed(registry)
    ensures WellFormed(Replay(registry, calls))
  {
    if calls != [] {
      var before := Replay(registry, calls[..|calls| - 1]);
      var c := calls[|calls| - 1];
      ReplayWellFormed(registry, calls[..|calls| - 1]);
      if c.name in before.vals {
        PutWellFormed(before, c.name, before.vals[c.name].(children := Put(before.vals[c.name].children, c.labels, c.value)));
      } else {
        PutWellFormed(before, c.name, Gauge(c.name, c.help, c.labelNames, Put(EmptyDict(), c.labels, c.value)));
      }
    }
  }

  /** Set calls under other names leave a gauge as it was. */
  lemma {:induction false} ReplayOthers(registry: Registry, calls: seq<SetCall>, name: string)
    requires forall c :: c in calls ==> c.name != name
    ensures GaugeNamed(Replay(registry, calls), name) == GaugeNamed(registry, name)
  {
    if calls != [] {
      assert calls[|calls| - 1] in calls;
      ReplayOthers(registry, calls[..|calls| - 1], name);
    }
  }

  /** What the calls do to a gauge depends only on that gauge. */
  lemma {:induction false} ReplayLocal(r1: Registry, r2: Registry, calls: seq<SetCall>, name: string)
    requires GaugeNamed(r1, name) == GaugeNamed(r2, name)
    ensures GaugeNamed(Replay(r1, calls), name) == GaugeNamed(Replay(r2, calls), name)
  {
    if calls != [] {
      ReplayLocal(r1, r2, calls[..|calls| - 1], name);
    }
  }

  /** The first set call that uses name. */
  function FirstCall(calls: seq<SetCall>, name: string): Option<SetCall>
  {
    if calls == [] then None
    else if calls[0].name == name then Some(calls[0])
    else FirstCall(calls[1..], name)
  }

  /** The value of the last set call on (name, labels). */
  function LastSet(calls: seq<SetCall>, name: string, labels: seq<string>): Option<Value>
  {
    if calls == [] then None
    else
      var c := calls[|calls| - 1];
      if c.name == name && c.labels == labels then Some(c.value) else LastSet(calls[..|calls| - 1], name, labels)
  }

  lemma {:induction false} NeverCalled(calls: seq<SetCall>, name: string, labels: seq<string>)
    requires FirstCall(calls, name).None?
    ensures LastSet(calls, name, labels).None?
  {
    if calls != [] {
      var init, c := calls[..|calls| - 1], calls[|calls| - 1];
      FirstCallSnoc(init, c, name);
      assert calls == init + [c];
      NeverCalled(init, name, labels);
    }
  }

  lemma {:induction false} FirstCallSnoc(calls: seq<SetCall>, c: SetCall, name: string)
    ensures FirstCall(calls + [c], name) ==
              if FirstCall(calls, name).Some? then FirstCall(calls, name)
              else if c.name == name then Some(c) else None
  {
    if calls == [] {
      assert [c][1..] == [];
    } else {
      assert (calls + [c])[1..] == calls[1..] + [c];
      FirstCallSnoc(calls[1..], c, name);
    }
  }

  /** What a registry built from nothing holds: a gauge for every name some
      call used, registered with the help and label names of the first such
      call, whose label tuples are those set under that name, each with the
      value set last. */
  lemma {:induction false} ReplayGauge(calls: seq<SetCall>, name: string, labels: seq<string>)
    ensures GaugeNamed(Replay(EmptyDict(), calls), name).Some? <==> FirstCall(calls, name).Some?
    ensures GaugeNamed(Replay(EmptyDict(), calls), name).Some? ==>
              var g := GaugeNamed(Replay(EmptyDict(), calls), name).value;
              var first := FirstCall(calls, name).value;
              && g.name == name && g.help == first.help && g.labelNames == first.labelNames
              && WellFormed(g.children)
              && (labels in g.children.vals <==> LastSet(calls, name, labels).Some?)
              && (labels in g.children.vals ==> g.children.vals[labels] == LastSet(calls, name, labels).value)
  {
    if calls != [] {
      var init, c := calls[..|calls| - 1], calls[|calls| - 1];
      assert calls == init + [c];
      ReplayGauge(init, name, labels);
      FirstCallSnoc(init, c, name);
      var before := GaugeNamed(Replay(EmptyDict(), init), name);
      if name == c.name {
        if before.Some? {
          PutWellFormed(before.value.children, c.labels, c.value);
        } else {
          PutWellFormed(EmptyDict<seq<string>, Value>(), c.labels, c.value);
          NeverCalled(init, name, labels);
        }
      }
    }
  }

  /** The step each exporter loop repeats: register the gauge unless
      `gauges_cache` has it, then set the label tuple. */
  method SetGauge(registry: Registry, c: SetCall) returns (registry': Registry)
    ensures registry' == Record(registry, c)
  {
    registry' := registry;
    if c.name !in registry'.vals {
      registry' := Put(registry', c.name, Gauge(c.name, c.help, c.labelNames, EmptyDict()));
    }
    var g := registry'.vals[c.name];
    registry' := Put(registry', c.name, g.(children := Put(g.children, c.labels, c.value)));
  }

  /** Registers one set call per item, stopping at the first item that
      raises: the loop of `generate_texplain_users_gauges`. */
  method RegisterAll<T>(call: T -> Result<SetCall>, items: seq<T>) returns (r: Result<Registry>)
    ensures r == Registered(call, items)
  {
    var registry: Registry := EmptyDict();
    ghost var calls: seq<SetCall> := [];
    for i := 0 to |items|
      invariant MapAll(call, items, i) == Success(calls)
      invariant registry == Replay(EmptyDict(), calls)
    {
      var c := call(items[i]);
      if c.Failure? {
        MapAllSticks(call, items, i + 1, |items|);
        return Failure(c.error);
      }
      registry := SetGauge(registry, c.value);
      ReplaySnoc(EmptyDict(), calls, c.value);
      calls := calls + [c.value];
    }
    r := Success(registry);
  }

  function Registered<T>(call: T -> Result<SetCall>, items: seq<T>): Result<Registry>
  {
    match MapAll(call, items, |items|)
    case Success(calls) => Success(Replay(EmptyDict(), calls))
    case Failure(e) => Failure(e)
  }

  /** Each set call in calls with that name, labels and value. */
  lemma {:induction false} LastSetMeaning(calls: seq<SetCall>, name: string, labels: seq<string>)
    ensures LastSet(calls, name, labels).Some? <==> exists c :: c in calls && c.name == name && c.labels == labels
    ensures LastSet(calls, name, labels).Some? ==>
              exists c :: c in calls && c.name == name && c.labels == labels && c.value == LastSet(calls, name, labels).value
  {
    if calls != [] {
      var init, c := calls[..|calls| - 1], calls[|calls| - 1];
      assert calls == init + [c];
      LastSetMeaning(init, name, labels);
    }
  }

  /** The value set last: the call that gives it is followed by no other
      call with the same name and labels. */
  lemma {:induction false} LastSetAt(calls: seq<SetCall>, name: string, labels: seq<string>)
    requires LastSet(calls, name, labels).Some?
    ensures exists i :: 0 <= i < |calls| && calls[i].name == name && calls[i].labels == labels &&
                        calls[i].value == LastSet(calls, name, labels).value &&
                        forall j :: i < j < |calls| ==> !(calls[j].name == name && calls[j].labels == labels)
  {
    var init, c := calls[..|calls| - 1], calls[|calls| - 1];
    if c.name == name && c.labels == labels {
      assert calls[|calls| - 1] == c;
    } else {
      LastSetAt(init, name, labels);
      var i :| 0 <= i < |init| && init[i].name == name && init[i].labels == labels &&
               init[i].value == LastSet(init, name, labels).value &&
               forall j :: i < j < |init| ==> !(init[j].name == name && init[j].labels == labels);
      assert calls[i] == init[i];
      forall j | i < j < |calls| ensures !(calls[j].name == name && calls[j].labels == labels) {
        if j < |init| {
          assert calls[j] == init[j];
        }
      }
    }
  }

  lemma {:induction false} FirstCallMeaning(calls: seq<SetCall>, name: string)
    ensures FirstCall(calls, name).Some? <==> exists c :: c in calls && c.name == name
    ensures FirstCall(calls, name).Some? ==> FirstCall(calls, name).value in calls && FirstCall(calls, name).value.name == name
  {
    if calls != [] {
      FirstCallMeaning(calls[1..], name);
      assert calls == [calls[0]] + calls[1..];
    }
  }

  // ---------------------------------------------------------------------
  // generate_text, and the heavy and frequent exports of processRecord
  // ---------------------------------------------------------------------

  /** The flag key every delta entry carries; it is never exported. */
  const Flag := "is_new_table"

  /** The set call for one key of one table: gauge `db_{metricType}_{key}`,
      labels (table, str(flag)), value `metrics[key]`. */
  function TableCall(metricType: string, table: Value, metrics: Row, key: string): SetCall
  {
    SetCall("db_" + metricType + "_" + key, "Métrica " + metricType + " " + key, ["table", Flag],
            [Show(table), Show(GetOr(metrics, Flag, Null))], GetOr(metrics, key, Null))
  }

  /** What exporting key of an entry raises, if anything: KeyError at
      `metrics["is_new_table"]`, otherwise what `set` raises converting the
      value with `float`. */
  function SetError(metrics: Row, key: string): Option<Exception>
  {
    if Flag !in metrics.vals then Some(KeyError) else FloatError(GetOr(metrics, key, Null))
  }

  /** The set calls of one delta entry, over its first n keys. */
  function TableCalls(metricType: string, table: Value, metrics: Row, n: nat): Result<seq<SetCall>>
    requires n <= |metrics.keys|
  {
    if n == 0 then Success([])
    else match TableCalls(metricType, table, metrics, n - 1)
      case Failure(e) => Failure(e)
      case Success(calls) =>
        var key := metrics.keys[n - 1];
        if key == Flag then Success(calls)
        else match SetError(metrics, key)
          case Some(e) => Failure(e)
          case None => Success(calls + [TableCall(metricType, table, metrics, key)])
  }

  /** `deltas[table]` for the i-th table. */
  function EntryOf(deltas: Dict<Value, Row>, i: nat): Row
    requires i < |deltas.keys|
  {
    GetOr(deltas, deltas.keys[i], EmptyDict())
  }

  /** The set calls of the export loop over the first n tables. */
  function ExportCalls(metricType: string, deltas: Dict<Value, Row>, n: nat): Result<seq<SetCall>>
    requires n <= |deltas.keys|
  {
    if n == 0 then Success([])
    else match ExportCalls(metricType, deltas, n - 1)
      case Failure(e) => Failure(e)
      case Success(calls) =>
        var entry := EntryOf(deltas, n - 1);
        match TableCalls(metricType, deltas.keys[n - 1], entry, |entry.keys|)
        case Failure(e) => Failure(e)
        case Success(more) => Success(calls + more)
  }

  /** The registry the export loop leaves, starting from gauges. */
  function Export(metricType: string, deltas: Dict<Value, Row>, registry: Registry): Result<Registry>
  {
    match ExportCalls(metricType, deltas, |deltas.keys|)
    case Success(calls) => Success(Replay(registry, calls))
    case Failure(e) => Failure(e)
  }

  lemma {:induction false} TableCallsSticks(metricType: string, table: Value, metrics: Row, n: nat, m: nat)
    requires n <= m <= |metrics.keys| && TableCalls(metricType, table, metrics, n).Failure?
    ensures TableCalls(metricType, table, metrics, m) == TableCalls(metricType, table, metrics, n)
    decreases m
  {
    if n < m {
      TableCallsSticks(metricType, table, metrics, n, m - 1);
    }
  }

  lemma {:induction false} ExportCallsSticks(metricType: string, deltas: Dict<Value, Row>, n: nat, m: nat)
    requires n <= m <= |deltas.keys| && ExportCalls(metricType, deltas, n).Failure?
    ensures ExportCalls(metricType, deltas, m) == ExportCalls(metricType, deltas, n)
    decreases m
  {
    if n < m {
      ExportCallsSticks(metricType, deltas, n, m - 1);
    }
  }

  /** A delta entry fails the export exactly when one of its keys other than
      `is_new_table` cannot be set: KeyError when the entry has no
      `is_new_table`, otherwise the TypeError or ValueError of `float` on the
      value. The error is that of the first such key. */
  lemma {:induction false} TableCallsFails(metricType: string, table: Value, metrics: Row, n: nat)
    requires n <= |metrics.keys|
    ensures TableCalls(metricType, table, metrics, n).Failure? <==>
              exists j :: 0 <= j < n && metrics.keys[j] != Flag && SetError(metrics, metrics.keys[j]).Some?
    ensures TableCalls(metricType, table, metrics, n).Failure? ==>
              exists j :: 0 <= j < n && metrics.keys[j] != Flag &&
                SetError(metrics, metrics.keys[j]) == Some(TableCalls(metricType, table, metrics, n).error) &&
                forall k :: 0 <= k < j && metrics.keys[k] != Flag ==> SetError(metrics, metrics.keys[k]).None?
  {
    if n > 0 {
      TableCallsFails(metricType, table, metrics, n - 1);
    }
  }

  /** The set calls of a delta entry are exactly one TableCall per key other
      than `is_new_table`. */
  lemma {:induction false} TableCallsMeaning(metricType: string, table: Value, metrics: Row, n: nat)
    requires n <= |metrics.keys| && TableCalls(metricType, table, metrics, n).Success?
    ensures forall c :: c in TableCalls(metricType, table, metrics, n).value <==>
              exists j :: 0 <= j < n && metrics.keys[j] != Flag && c == TableCall(metricType, table, metrics, metrics.keys[j])
  {
    if n > 0 {
      TableCallsMeaning(metricType, table, metrics, n - 1);
    }
  }

  /** c is the set call of some table's key other than `is_new_table`. */
  ghost predicate Exported(metricType: string, deltas: Dict<Value, Row>, n: nat, c: SetCall)
    requires n <= |deltas.keys|
  {
    exists i, j :: 0 <= i < n && 0 <= j < |EntryOf(deltas, i).keys| && EntryOf(deltas, i).keys[j] != Flag &&
                   c == TableCall(metricType, deltas.keys[i], EntryOf(deltas, i), EntryOf(deltas, i).keys[j])
  }

  /** Some entry among the first n has a key other than `is_new_table` that
      cannot be set. */
  ghost predicate Unsettable(deltas: Dict<Value, Row>, n: nat)
    requires n <= |deltas.keys|
  {
    exists i, j :: 0 <= i < n && 0 <= j < |EntryOf(deltas, i).keys| && EntryOf(deltas, i).keys[j] != Flag &&
                   SetError(EntryOf(deltas, i), EntryOf(deltas, i).keys[j]).Some?
  }

  /** The export raises exactly when some table has a key that cannot be
      set, with the error of the first table whose entry raises. */
  lemma {:induction false} ExportCallsFails(metricType: string, deltas: Dict<Value, Row>, n: nat)
    requires n <= |deltas.keys|
    ensures ExportCalls(metricType, deltas, n).Failure? <==> Unsettable(deltas, n)
    ensures ExportCalls(metricType, deltas, n).Failure? ==>
              exists i :: 0 <= i < n &&
                TableCalls(metricType, deltas.keys[i], EntryOf(deltas, i), |EntryOf(deltas, i).keys|) ==
                  Failure(ExportCalls(metricType, deltas, n).error) &&
                forall k :: 0 <= k < i ==>
                  TableCalls(metricType, deltas.keys[k], EntryOf(deltas, k), |EntryOf(deltas, k).keys|).Success?
  {
    if n > 0 {
      ExportCallsFails(metricType, deltas, n - 1);
      var entry := EntryOf(deltas, n - 1);
      TableCallsFails(metricType, deltas.keys[n - 1], entry, |entry.keys|);
      if Unsettable(deltas, n) && !Unsettable(deltas, n - 1) {
        var i, j :| 0 <= i < n && 0 <= j < |EntryOf(deltas, i).keys| && EntryOf(deltas, i).keys[j] != Flag &&
                    SetError(EntryOf(deltas, i), EntryOf(deltas, i).keys[j]).Some?;
        assert i == n - 1;
      }
      if ExportCalls(metricType, deltas, n - 1).Success? && ExportCalls(metricType, deltas, n).Failure? {
        forall k | 0 <= k < n - 1
          ensures TableCalls(metricType, deltas.keys[k], EntryOf(deltas, k), |EntryOf(deltas, k).keys|).Success?
        {
          ExportCallsPrefix(metricType, deltas, k + 1, n - 1);
        }
      }
    }
  }

  /** A loop that got past n tables got past each of them. */
  lemma {:induction false} ExportCallsPrefix(metricType: string, deltas: Dict<Value, Row>, k: nat, n: nat)
    requires 0 < k <= n <= |deltas.keys| && ExportCalls(metricType, deltas, n).Success?
    ensures TableCalls(metricType, deltas.keys[k - 1], EntryOf(deltas, k - 1), |EntryOf(deltas, k - 1).keys|).Success?
    decreases n
  {
    if k < n {
      ExportCallsPrefix(metricType, deltas, k, n - 1);
    }
  }

  /** The export sets exactly one series per (table, key) with key other
      than `is_new_table`. */
  lemma {:induction false} ExportCallsMeaning(metricType: string, deltas: Dict<Value, Row>, n: nat)
    requires n <= |deltas.keys| && ExportCalls(metricType, deltas, n).Success?
    ensures forall c :: c in ExportCalls(metricType, deltas, n).value <==> Exported(metricType, deltas, n, c)
  {
    if n > 0 {
      ExportCallsMeaning(metricType, deltas, n - 1);
      var entry := EntryOf(deltas, n - 1);
      TableCallsMeaning(metricType, deltas.keys[n - 1], entry, |entry.keys|);
      forall c ensures c in ExportCalls(metricType, deltas, n).value <==> Exported(metricType, deltas, n, c) {
        if Exported(metricType, deltas, n, c) && !Exported(metricType, deltas, n - 1, c) {
          var i, j :| 0 <= i < n && 0 <= j < |EntryOf(deltas, i).keys| && EntryOf(deltas, i).keys[j] != Flag &&
                      c == TableCall(metricType, deltas.keys[i], EntryOf(deltas, i), EntryOf(deltas, i).keys[j]);
          assert i == n - 1;
        }
      }
    }
  }

  /** The registry after the set calls of one delta entry, or the error. */
  function TableExport(metricType: string, table: Value, metrics: Row, registry: Registry): Result<Registry>
  {
    match TableCalls(metricType, table, metrics, |metrics.keys|)
    case Success(more) => Success(Replay(registry, more))
    case Failure(e) => Failure(e)
  }

  /** The inner export loop, over the keys of one delta entry. */
  method ExportTable(metricType: string, table: Value, metrics: Row, registry: Registry) returns (r: Result<Registry>)
    ensures r == TableExport(metricType, table, metrics, registry)
  {
    var current := registry;
    ghost var more: seq<SetCall> := [];
    for j := 0 to |metrics.keys|
      invariant TableCalls(metricType, table, metrics, j) == Success(more)
      invariant current == Replay(registry, more)
    {
      var key := metrics.keys[j];
      if key != Flag {
        if Flag !in metrics.vals {
          TableCallsSticks(metricType, table, metrics, j + 1, |metrics.keys|);
          return Failure(KeyError);
        }
        var err := FloatError(GetOr(metrics, key, Null));
        if err.Some? {
          TableCallsSticks(metricType, table, metrics, j + 1, |metrics.keys|);
          return Failure(err.value);
        }
        var c := TableCall(metricType, table, metrics, key);
        current := SetGauge(current, c);
        ReplaySnoc(registry, more, c);
        more := more + [c];
      }
    }
    r := Success(current);
  }

  /** One export loop (lines 15-33; lines 60-78 and 81-99 of processRecord
      run it twice on one registry and one `gauges_cache`). */
  method ExportDeltas(metricType: string, deltas: Dict<Value, Row>, registry: Registry) returns (r: Result<Registry>)
    ensures r == Export(metricType, deltas, registry)
  {
    var current := registry;
    ghost var calls: seq<SetCall> := [];
    for i := 0 to |deltas.keys|
      invariant ExportCalls(metricType, deltas, i) == Success(calls)
      invariant current == Replay(registry, calls)
    {
      var entry := ExportTable(metricType, deltas.keys[i], EntryOf(deltas, i), current);
      if entry.Failure? {
        ExportCallsSticks(metricType, deltas, i + 1, |deltas.keys|);
        return Failure(entry.error);
      }
      ghost var more := TableCalls(metricType, deltas.keys[i], EntryOf(deltas, i), |EntryOf(deltas, i).keys|).value;
      ReplayAppend(registry, calls, more);
      current := entry.value;
      calls := calls + more;
    }
    r := Success(current);
  }

  /** `generate_text(deltas, metric_type)`: the registry, or the error. */
  method GenerateText(deltas: Dict<Value, Row>, metricType: string) returns (r: Result<Registry>)
    ensures r == Export(metricType, deltas, EmptyDict())
  {
    r := ExportDeltas(metricType, deltas, EmptyDict());
  }

  lemma PrefixCancels(p: string, a: string, b: string)
    requires p + a == p + b
    ensures a == b
  {
    assert a == (p + a)[|p|..];
  }

  /** An exported call named `db_{metricType}_{key}` is the call of key
      for some table. */
  predicate StartsWith(s: string, prefix: string)
  {
    |prefix| <= |s| && s[..|prefix|] == prefix
  }

  /** The export for the second metric type does not touch a gauge whose
      name lacks its prefix. */
  lemma ExportKeepsOthers(metricType: string, deltas: Dict<Value, Row>, registry: Registry, name: string)
    requires Export(metricType, deltas, registry).Success? && !StartsWith(name, "db_" + metricType + "_")
    ensures GaugeNamed(Export(metricType, deltas, registry).value, name) == GaugeNamed(registry, name)
  {
    var calls := ExportCalls(metricType, deltas, |deltas.keys|).value;
    ExportCallsMeaning(metricType, deltas, |deltas.keys|);
    forall c | c in calls ensures c.name != name {
      ExportedPrefix(metricType, deltas, c);
    }
    ReplayOthers(registry, calls, name);
  }

  /** Two exports into one registry (processRecord's heavy then frequent
      loops): each gauge is as the export whose prefix it carries makes it
      alone, provided neither prefix starts the other's names. */
  lemma ExportsApart(first: string, d1: Dict<Value, Row>, second: string, d2: Dict<Value, Row>, name: string)
    requires Export(first, d1, EmptyDict()).Success?
    requires Export(second, d2, Export(first, d1, EmptyDict()).value).Success?
    ensures Export(second, d2, EmptyDict()).Success?
    ensures !StartsWith(name, "db_" + second + "_") ==>
      GaugeNamed(Export(second, d2, Export(first, d1, EmptyDict()).value).value, name) ==
      GaugeNamed(Export(first, d1, EmptyDict()).value, name)
    ensures !StartsWith(name, "db_" + first + "_") ==>
      GaugeNamed(Export(second, d2, Export(first, d1, EmptyDict()).value).value, name) ==
      GaugeNamed(Export(second, d2, EmptyDict()).value, name)
  {
    var r1 := Export(first, d1, EmptyDict()).value;
    if !StartsWith(name, "db_" + second + "_") {
      ExportKeepsOthers(second, d2, r1, name);
    }
    if !StartsWith(name, "db_" + first + "_") {
      ExportKeepsOthers(first, d1, EmptyDict(), name);
      ReplayLocal(r1, EmptyDict(), ExportCalls(second, d2, |d2.keys|).value, name);
    }
  }

  /** Every exported gauge name is `db_{metricType}_` followed by a key. */
  lemma ExportedPrefix(metricType: string, deltas: Dict<Value, Row>, c: SetCall)
    requires Exported(metricType, deltas, |deltas.keys|, c)
    ensures |"db_" + metricType + "_"| <= |c.name| && c.name[..|"db_" + metricType + "_"|] == "db_" + metricType + "_"
  {
    var i, j :| 0 <= i < |deltas.keys| && 0 <= j < |EntryOf(deltas, i).keys| && EntryOf(deltas, i).keys[j] != Flag &&
                c == TableCall(metricType, deltas.keys[i], EntryOf(deltas, i), EntryOf(deltas, i).keys[j]);
    var p := "db_" + metricType + "_";
    assert c.name == p + EntryOf(deltas, i).keys[j];
  }

  lemma ExportedNamed(metricType: string, deltas: Dict<Value, Row>, c: SetCall, key: string)
    requires Exported(metricType, deltas, |deltas.keys|, c) && c.name == "db_" + metricType + "_" + key
    ensures key != Flag
    ensures exists i :: 0 <= i < |deltas.keys| && key in EntryOf(deltas, i).keys &&
                        c == TableCall(metricType, deltas.keys[i], EntryOf(deltas, i), key)
  {
    var i, j :| 0 <= i < |deltas.keys| && 0 <= j < |EntryOf(deltas, i).keys| && EntryOf(deltas, i).keys[j] != Flag &&
                c == TableCall(metricType, deltas.keys[i], EntryOf(deltas, i), EntryOf(deltas, i).keys[j]);
    PrefixCancels("db_" + metricType + "_", EntryOf(deltas, i).keys[j], key);
  }

  /** `generate_text` registers gauge `db_{metricType}_{key}` exactly when
      key is not `is_new_table` and some table has it; each name once. */
  lemma ExportedGauge(metricType: string, deltas: Dict<Value, Row>, key: string)
    requires Export(metricType, deltas, EmptyDict()).Success?
    ensures WellFormed(Export(metricType, deltas, EmptyDict()).value)
    ensures GaugeNamed(Export(metricType, deltas, EmptyDict()).value, "db_" + metricType + "_" + key).Some? <==>
              key != Flag && exists i :: 0 <= i < |deltas.keys| && key in EntryOf(deltas, i).keys
  {
    var n := |deltas.keys|;
    var calls := ExportCalls(metricType, deltas, n).value;
    var name := "db_" + metricType + "_" + key;
    ReplayWellFormed(EmptyDict(), calls);
    ExportCallsMeaning(metricType, deltas, n);
    ReplayGauge(calls, name, []);
    FirstCallMeaning(calls, name);
    if FirstCall(calls, name).Some? {
      ExportedNamed(metricType, deltas, FirstCall(calls, name).value, key);
    } else if key != Flag && exists i :: 0 <= i < n && key in EntryOf(deltas, i).keys {
      var i :| 0 <= i < n && key in EntryOf(deltas, i).keys;
      var j :| 0 <= j < |EntryOf(deltas, i).keys| && EntryOf(deltas, i).keys[j] == key;
      assert Exported(metricType, deltas, n, TableCall(metricType, deltas.keys[i], EntryOf(deltas, i), key));
    }
  }

  /** Every gauge of `generate_text` has the label names (table,
      is_new_table) and the help text of its key. */
  lemma ExportedGaugeShape(metricType: string, deltas: Dict<Value, Row>, key: string)
    requires Export(metricType, deltas, EmptyDict()).Success?
    ensures var g := GaugeNamed(Export(metricType, deltas, EmptyDict()).value, "db_" + metricType + "_" + key);
            g.Some? ==> g.value.labelNames == ["table", Flag] && g.value.help == "Métrica " + metricType + " " + key
  {
    var n := |deltas.keys|;
    var calls := ExportCalls(metricType, deltas, n).value;
    var name := "db_" + metricType + "_" + key;
    ExportCallsMeaning(metricType, deltas, n);
    ReplayGauge(calls, name, []);
    FirstCallMeaning(calls, name);
    if FirstCall(calls, name).Some? {
      ExportedNamed(metricType, deltas, FirstCall(calls, name).value, key);
    }
  }

  /** Each series of gauge `db_{metricType}_{key}` has the labels of a
      table holding key, and that table's value for key. */
  lemma ExportedGaugeSeries(metricType: string, deltas: Dict<Value, Row>, key: string, labels: seq<string>)
    requires Export(metricType, deltas, EmptyDict()).Success?
    ensures var g := GaugeNamed(Export(metricType, deltas, EmptyDict()).value, "db_" + metricType + "_" + key);
            g.Some? && labels in g.value.children.vals ==>
              exists i :: 0 <= i < |deltas.keys| && key in EntryOf(deltas, i).keys &&
                labels == [Show(deltas.keys[i]), Show(GetOr(EntryOf(deltas, i), Flag, Null))] &&
                g.value.children.vals[labels] == GetOr(EntryOf(deltas, i), key, Null)
  {
    var n := |deltas.keys|;
    var calls := ExportCalls(metricType, deltas, n).value;
    var name := "db_" + metricType + "_" + key;
    ExportCallsMeaning(metricType, deltas, n);
    ReplayGauge(calls, name, labels);
    LastSetMeaning(calls, name, labels);
    if LastSet(calls, name, labels).Some? {
      var d :| d in calls && d.name == name && d.labels == labels && d.value == LastSet(calls, name, labels).value;
      ExportedNamed(metricType, deltas, d, key);
    }
  }

  /** Every exported (table, key) has its series in gauge
      `db_{metricType}_{key}`, labelled (table, str(is_new_table)). */
  lemma ExportedSeries(metricType: string, deltas: Dict<Value, Row>, i: nat, j: nat)
    requires Export(metricType, deltas, EmptyDict()).Success?
    requires i < |deltas.keys| && j < |EntryOf(deltas, i).keys| && EntryOf(deltas, i).keys[j] != Flag
    ensures var g := GaugeNamed(Export(metricType, deltas, EmptyDict()).value, "db_" + metricType + "_" + EntryOf(deltas, i).keys[j]);
            g.Some? && [Show(deltas.keys[i]), Show(GetOr(EntryOf(deltas, i), Flag, Null))] in g.value.children.vals
  {
    var n := |deltas.keys|;
    var calls := ExportCalls(metricType, deltas, n).value;
    var key := EntryOf(deltas, i).keys[j];
    var name := "db_" + metricType + "_" + key;
    var labels := [Show(deltas.keys[i]), Show(GetOr(EntryOf(deltas, i), Flag, Null))];
    ExportCallsMeaning(metricType, deltas, n);
    assert Exported(metricType, deltas, n, TableCall(metricType, deltas.keys[i], EntryOf(deltas, i), key));
    ReplayGauge(calls, name, labels);
    FirstCallMeaning(calls, name);
    LastSetMeaning(calls, name, labels);
  }

  /** Where no two tables print alike, the series of (table, key) holds
      `metrics[key]`: the value `generate_text` sets for it. */
  lemma ExportedValue(metricType: string, deltas: Dict<Value, Row>, i: nat, j: nat)
    requires Export(metricType, deltas, EmptyDict()).Success?
    requires i < |deltas.keys| && j < |EntryOf(deltas, i).keys| && EntryOf(deltas, i).keys[j] != Flag
    requires forall i' :: 0 <= i' < |deltas.keys| && Show(deltas.keys[i']) == Show(deltas.keys[i]) ==> i' == i
    ensures var key := EntryOf(deltas, i).keys[j];
            var g := GaugeNamed(Export(metricType, deltas, EmptyDict()).value, "db_" + metricType + "_" + key);
            var labels := [Show(deltas.keys[i]), Show(GetOr(EntryOf(deltas, i), Flag, Null))];
            g.Some? && labels in g.value.children.vals && g.value.children.vals[labels] == GetOr(EntryOf(deltas, i), key, Null)
  {
    ExportedSeries(metricType, deltas, i, j);
    ExportedGaugeSeries(metricType, deltas, EntryOf(deltas, i).keys[j], [Show(deltas.keys[i]), Show(GetOr(EntryOf(deltas, i), Flag, Null))]);
  }

  // ---------------------------------------------------------------------
  // generate_texplain_gauges: exposition lines built by hand
  // ---------------------------------------------------------------------

  /** The six per-row metrics, in the order their lines are emitted. */
  const TexplainMetrics: seq<string> :=
    ["cpu_time_total", "duration_total", "logical_reads_total", "logical_writes_total", "physical_reads_total", "plan_reuse_count"]

  /** The label string a row's six lines share, or KeyError. */
  function TexplainLabels(row: Row): Result<string>
  {
    if "rank" in row.vals && "table" in row.vals && "query_text" in row.vals then
      Success("rank=\"" + Show(row.vals["rank"]) + "\",table=\"" + Show(row.vals["table"]) +
              "\",query=\"" + Show(row.vals["query_text"]) + "\"")
    else Failure(KeyError)
  }

  function TexplainLine(metric: string, labels: string, value: Value): string
  {
    "texplain_" + metric + "{" + labels + "} " + Show(value)
  }

  /** The lines of one row for its first k metrics. */
  function MetricLines(row: Row, labels: string, k: nat): Result<seq<string>>
    requires k <= |TexplainMetrics|
  {
    if k == 0 then Success([])
    else match MetricLines(row, labels, k - 1)
      case Failure(e) => Failure(e)
      case Success(lines) =>
        var metric := TexplainMetrics[k - 1];
        if metric in row.vals then Success(lines + [TexplainLine(metric, labels, row.vals[metric])])
        else Failure(KeyError)
  }

  lemma {:induction false} MetricLinesSticks(row: Row, labels: string, k: nat, m: nat)
    requires k <= m <= |TexplainMetrics| && MetricLines(row, labels, k).Failure?
    ensures MetricLines(row, labels, m) == MetricLines(row, labels, k)
    decreases m
  {
    if k < m {
      MetricLinesSticks(row, labels, k, m - 1);
    }
  }

  function RowLines(row: Row): Result<seq<string>>
  {
    match TexplainLabels(row)
    case Failure(e) => Failure(e)
    case Success(labels) => MetricLines(row, labels, |TexplainMetrics|)
  }

  /** The lines of the first n items, each item giving a block of lines,
      or the first error. */
  function Blocks<T>(block: T -> Result<seq<string>>, items: seq<T>, n: nat): Result<seq<string>>
    requires n <= |items|
  {
    if n == 0 then Success([])
    else match Blocks(block, items, n - 1)
      case Failure(e) => Failure(e)
      case Success(lines) =>
        match block(items[n - 1])
        case Failure(e) => Failure(e)
        case Success(more) => Success(lines + more)
  }

  /** Blocks of six lines each: line 6i+m is line m of item i's block. */
  lemma {:induction false} SixLineBlocks<T>(block: T -> Result<seq<string>>, items: seq<T>, n: nat)
    requires n <= |items|
    requires forall i :: 0 <= i < n && block(items[i]).Success? ==> |block(items[i]).value| == 6
    ensures Blocks(block, items, n).Success? <==> forall i :: 0 <= i < n ==> block(items[i]).Success?
    ensures Blocks(block, items, n).Failure? ==> exists i :: 0 <= i < n && block(items[i]) == Failure(Blocks(block, items, n).error)
    ensures Blocks(block, items, n).Success? ==>
              var lines := Blocks(block, items, n).value;
              && |lines| == 6 * n
              && forall i, m :: 0 <= i < n && 0 <= m < 6 ==> lines[6 * i + m] == block(items[i]).value[m]
  {
    if n > 0 {
      SixLineBlocks(block, items, n - 1);
      if Blocks(block, items, n).Success? {
        var lines := Blocks(block, items, n).value;
        var prev := Blocks(block, items, n - 1).value;
        forall i, m | 0 <= i < n && 0 <= m < 6
          ensures lines[6 * i + m] == block(items[i]).value[m]
        {
          if i < n - 1 {
            assert lines[6 * i + m] == prev[6 * i + m];
          }
        }
      }
    }
  }

  /** The lines of the first n rows. */
  function TexplainLines(rows: seq<Row>, n: nat): Result<seq<string>>
    requires n <= |rows|
  {
    Blocks(RowLines, rows, n)
  }

  /** A row that has every key a line needs. */
  predicate Explained(row: Row)
  {
    && "rank" in row.vals && "table" in row.vals && "query_text" in row.vals
    && forall k :: 0 <= k < |TexplainMetrics| ==> TexplainMetrics[k] in row.vals
  }

  lemma {:induction false} MetricLinesMeaning(row: Row, labels: string, k: nat)
    requires k <= |TexplainMetrics|
    ensures MetricLines(row, labels, k).Success? <==> forall m :: 0 <= m < k ==> TexplainMetrics[m] in row.vals
    ensures MetricLines(row, labels, k).Failure? ==> MetricLines(row, labels, k).error == KeyError
    ensures MetricLines(row, labels, k).Success? ==>
              var lines := MetricLines(row, labels, k).value;
              |lines| == k && forall m :: 0 <= m < k ==> lines[m] == TexplainLine(TexplainMetrics[m], labels, row.vals[TexplainMetrics[m]])
  {
    if k > 0 {
      MetricLinesMeaning(row, labels, k - 1);
    }
  }

  /** A row gives six lines, one per metric in the fixed order, all with the
      row's label string; a row missing any key raises KeyError. */
  lemma RowLinesMeaning(row: Row)
    ensures RowLines(row).Success? <==> Explained(row)
    ensures RowLines(row).Failure? ==> RowLines(row).error == KeyError
    ensures RowLines(row).Success? ==>
              var lines := RowLines(row).value;
              |lines| == 6 && forall m :: 0 <= m < 6 ==> lines[m] == TexplainLine(TexplainMetrics[m], TexplainLabels(row).value, row.vals[TexplainMetrics[m]])
  {
    if TexplainLabels(row).Success? {
      MetricLinesMeaning(row, TexplainLabels(row).value, 6);
    }
  }

  lemma {:induction false} TexplainLinesSticks(rows: seq<Row>, n: nat, m: nat)
    requires n <= m <= |rows| && TexplainLines(rows, n).Failure?
    ensures TexplainLines(rows, m) == TexplainLines(rows, n)
    decreases m
  {
    if n < m {
      TexplainLinesSticks(rows, n, m - 1);
    }
  }

  /** Six lines per row, rows in input order: line 6i+m is metric m of row
      i, under row i's labels; any row missing a key raises KeyError. */
  lemma TexplainLinesMeaning(rows: seq<Row>)
    ensures TexplainLines(rows, |rows|).Success? <==> forall i :: 0 <= i < |rows| ==> Explained(rows[i])
    ensures TexplainLines(rows, |rows|).Failure? ==> TexplainLines(rows, |rows|).error == KeyError
    ensures TexplainLines(rows, |rows|).Success? ==>
              var lines := TexplainLines(rows, |rows|).value;
              && |lines| == 6 * |rows|
              && forall i, m :: 0 <= i < |rows| && 0 <= m < 6 ==>
                   lines[6 * i + m] == TexplainLine(TexplainMetrics[m], TexplainLabels(rows[i]).value, rows[i].vals[TexplainMetrics[m]])
  {
    forall i | 0 <= i < |rows| {
      RowLinesMeaning(rows[i]);
    }
    SixLineBlocks(RowLines, rows, |rows|);
  }

  /** The text: the lines joined by newlines, or the error. */
  function TexplainText(rows: seq<Row>): Result<string>
  {
    match TexplainLines(rows, |rows|)
    case Success(lines) => Success(Join("\n", lines))
    case Failure(e) => Failure(e)
  }

  /** The six appends of one row (lines 54-61). */
  method AppendRowLines(row: Row, lines: seq<string>) returns (r: Result<seq<string>>)
    ensures r == match RowLines(row)
                 case Success(more) => Success(lines + more)
                 case Failure(e) => Failure(e)
  {
    var labels := TexplainLabels(row);
    if labels.Failure? {
      return Failure(KeyError);
    }
    var current := lines;
    for k := 0 to |TexplainMetrics|
      invariant MetricLines(row, labels.value, k).Success?
      invariant current == lines + MetricLines(row, labels.value, k).value
    {
      var metric := TexplainMetrics[k];
      if metric !in row.vals {
        MetricLinesSticks(row, labels.value, k + 1, |TexplainMetrics|);
        return Failure(KeyError);
      }
      current := current + [TexplainLine(metric, labels.value, row.vals[metric])];
    }
    r := Success(current);
  }

  /** `generate_texplain_gauges(rows)` */
  method GenerateTexplainGauges(rows: seq<Row>) returns (r: Result<string>)
    ensures r == TexplainText(rows)
  {
    var lines: seq<string> := [];
    for i := 0 to |rows|
      invariant TexplainLines(rows, i) == Success(lines)
    {
      var appended := AppendRowLines(rows[i], lines);
      if appended.Failure? {
        TexplainLinesSticks(rows, i + 1, |rows|);
        return Failure(appended.error);
      }
      lines := appended.value;
    }
    r := Success(Join("\n", lines));
  }

  /** Joining puts the separator between lines and after none: no trailing
      newline, and no rows give the empty text. */
  lemma {:induction false} JoinSnoc(sep: string, parts: seq<string>, last: string)
    ensures Join(sep, parts + [last]) == if parts == [] then last else Join(sep, parts) + sep + last
  {
    if |parts| > 1 {
      assert (parts + [last])[1..] == parts[1..] + [last];
      JoinSnoc(sep, parts[1..], last);
    } else if |parts| == 1 {
      assert (parts + [last])[1..] == [last];
    }
  }

  lemma TexplainEmpty()
    ensures TexplainText([]) == Success("")
  {
  }

  // ---------------------------------------------------------------------
  // generate_texplain_users_gauges
  // ---------------------------------------------------------------------

  const UsersGauge := "user_requests_running_now"
  const UsersLabelNames: seq<string> := ["host_name", "client_net_address", "program_name", "rank"]

  /** The label tuple of a connected user's row (`str(rank)` shown once:
      str of a str is itself). */
  function UserLabels(row: Row): seq<string>
  {
    [Show(GetOr(row, "host_name", Null)), Show(GetOr(row, "client_net_address", Null)),
     Show(GetOr(row, "program_name", Null)), Show(GetOr(row, "rank", Null))]
  }

  predicate UserRow(row: Row)
  {
    "host_name" in row.vals && "client_net_address" in row.vals && "program_name" in row.vals &&
    "rank" in row.vals && "requests_running_now" in row.vals
  }

  function UserSet(row: Row): SetCall
    requires UserRow(row)
  {
    SetCall(UsersGauge, "Número de requests activas por usuario", UsersLabelNames, UserLabels(row), row.vals["requests_running_now"])
  }

  /** What one row raises, if anything: KeyError for a missing key,
      otherwise what `set` raises converting `requests_running_now` with
      `float`. */
  function UserError(row: Row): Option<Exception>
  {
    if UserRow(row) then FloatError(row.vals["requests_running_now"]) else Some(KeyError)
  }

  /** The set call of one row, or its error. */
  function UserCall(row: Row): Result<SetCall>
  {
    if !UserRow(row) then Failure(KeyError)
    else match FloatError(row.vals["requests_running_now"])
      case Some(e) => Failure(e)
      case None => Success(UserSet(row))
  }

  function UsersRegistry(rows: seq<Row>): Result<Registry>
  {
    Registered(UserCall, rows)
  }

  /** `generate_texplain_users_gauges(rows)` */
  method GenerateTexplainUsersGauges(rows: seq<Row>) returns (r: Result<Registry>)
    ensures r == UsersRegistry(rows)
  {
    r := RegisterAll(UserCall, rows);
  }

  /** A registry whose set calls all use one name: nothing for no items,
      otherwise that one gauge, registered as the first call says, whose
      series are the items' label tuples, each holding the value of the
      last item with that tuple. */
  lemma OneNameRegistry<T>(call: T -> Result<SetCall>, items: seq<T>, name: string, labels: seq<string>)
    requires Registered(call, items).Success?
    requires forall i :: 0 <= i < |items| ==> call(items[i]).Success? && call(items[i]).value.name == name
    ensures var reg := Registered(call, items).value;
            && (items == [] ==> reg == EmptyDict())
            && (items != [] ==>
                  && reg.keys == [name] && name in reg.vals && reg.vals[name].name == name
                  && reg.vals[name].help == call(items[0]).value.help && reg.vals[name].labelNames == call(items[0]).value.labelNames
                  && (labels in reg.vals[name].children.vals <==> exists i :: 0 <= i < |items| && call(items[i]).value.labels == labels)
                  && (labels in reg.vals[name].children.vals ==>
                        exists i :: 0 <= i < |items| && call(items[i]).value.labels == labels &&
                                    reg.vals[name].children.vals[labels] == call(items[i]).value.value &&
                                    forall j :: i < j < |items| ==> call(items[j]).value.labels != labels))
  {
    var calls := MapAll(call, items, |items|).value;
    MapAllMeaning(call, items, |items|);
    if items != [] {
      assert forall c :: c in calls ==> c.name == name;
      var reg := Replay(EmptyDict(), calls);
      OneGauge(calls, name);
      ReplayGauge(calls, name, labels);
      FirstCallMeaning(calls, name);
      assert FirstCall(calls, name) == Some(calls[0]);
      LastSetMeaning(calls, name, labels);
      if labels in reg.vals[name].children.vals {
        LastSetAt(calls, name, labels);
        var i :| 0 <= i < |calls| && calls[i].name == name && calls[i].labels == labels &&
                 calls[i].value == LastSet(calls, name, labels).value &&
                 forall j :: i < j < |calls| ==> !(calls[j].name == name && calls[j].labels == labels);
        assert call(items[i]).value.labels == labels;
        forall j | i < j < |items| ensures call(items[j]).value.labels != labels {
          assert calls[j] == call(items[j]).value;
        }
      }
      if exists i :: 0 <= i < |items| && call(items[i]).value.labels == labels {
        var i :| 0 <= i < |items| && call(items[i]).value.labels == labels;
        assert calls[i] in calls;
      }
    }
  }

  /** Calls that all use one name register that one name. */
  lemma {:induction false} OneGauge(calls: seq<SetCall>, name: string)
    requires calls != [] && forall c :: c in calls ==> c.name == name
    ensures Replay(EmptyDict(), calls).keys == [name]
  {
    var init, c := calls[..|calls| - 1], calls[|calls| - 1];
    assert forall d :: d in init ==> d in calls;
    if init != [] {
      OneGauge(init, name);
      ReplayWellFormed(EmptyDict(), init);
    }
  }

  /** What the users export registers: nothing for no rows, otherwise the
      single gauge `user_requests_running_now` with its four label names,
      whose series are the rows' label tuples; each holds the
      `requests_running_now` of the last row with that tuple. The export raises the
      error of the first row that has one: KeyError for a missing key, or the
      TypeError or ValueError of `float` on `requests_running_now`. */
  lemma UsersGaugeMeaning(rows: seq<Row>, labels: seq<string>)
    ensures UsersRegistry(rows).Success? <==> forall i :: 0 <= i < |rows| ==> UserError(rows[i]).None?
    ensures UsersRegistry(rows).Failure? ==>
              exists i :: 0 <= i < |rows| && UserError(rows[i]) == Some(UsersRegistry(rows).error) &&
                          forall k :: 0 <= k < i ==> UserError(rows[k]).None?
    ensures UsersRegistry(rows).Success? ==>
            var reg := UsersRegistry(rows).value;
            && (rows == [] ==> reg == EmptyDict())
            && (rows != [] ==> reg.keys == [UsersGauge] && UsersGauge in reg.vals && reg.vals[UsersGauge].labelNames == UsersLabelNames)
            && (rows != [] ==> (labels in reg.vals[UsersGauge].children.vals <==> exists i :: 0 <= i < |rows| && UserLabels(rows[i]) == labels))
            && (rows != [] && labels in reg.vals[UsersGauge].children.vals ==>
                  exists i :: 0 <= i < |rows| && UserRow(rows[i]) && UserLabels(rows[i]) == labels &&
                              reg.vals[UsersGauge].children.vals[labels] == rows[i].vals["requests_running_now"] &&
                              forall j :: i < j < |rows| ==> UserLabels(rows[j]) != labels)
  {
    MapAllMeaning(UserCall, rows, |rows|);
    if UsersRegistry(rows).Success? {
      OneNameRegistry(UserCall, rows, UsersGauge, labels);
    }
  }

}
