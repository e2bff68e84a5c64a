/** MetricsDomain: the per-cycle aggregation of fetched query rows. Query
    texts are cleaned and resolved to a table, rows are summed per table,
    and the current aggregate is diffed against the previous one. */
module MetricsDomain {
  import opened PyValues

  // ---------------------------------------------------------------------
  // Cleaning a query text: " ".join(text.split()).lower()
  // ---------------------------------------------------------------------

  function Clean(text: string): string
  {
    Lower(Join(" ", Words(text)))
  }

  /** Whitespace occurs only as single ASCII spaces between two
      non-whitespace characters. */
  predicate SingleSpaced(c: string)
  {
    forall i :: 0 <= i < |c| && IsSpace(c[i]) ==>
      c[i] == ' ' && 0 < i < |c| - 1 && !IsSpace(c[i + 1])
  }

  predicate NoCapitals(c: string)
  {
    forall i :: 0 <= i < |c| ==> !('A' <= c[i] <= 'Z')
  }

  /** The texts that cleaning produces. */
  predicate Canonical(c: string)
  {
    SingleSpaced(c) && NoCapitals(c)
  }

  /** The non-whitespace characters of s, in order. */
  function NonBlank(s: string): (r: string)
    ensures NoSpace(r)
  {
    if s == [] then [] else (if IsSpace(s[0]) then [] else [s[0]]) + NonBlank(s[1..])
  }

  function Concat(ws: seq<string>): string
  {
    if ws == [] then [] else ws[0] + Concat(ws[1..])
  }

  lemma {:induction false} JoinSingleSpaced(ws: seq<string>)
    requires forall i :: 0 <= i < |ws| ==> ws[i] != [] && NoSpace(ws[i])
    ensures SingleSpaced(Join(" ", ws))
    ensures ws != [] ==> Join(" ", ws) != [] && !IsSpace(Join(" ", ws)[0])
  {
    if |ws| > 1 {
      var w, j := ws[0], Join(" ", ws[1..]);
      JoinSingleSpaced(ws[1..]);
      var c := w + " " + j;
      assert Join(" ", ws) == c;
      forall i | 0 <= i < |c| && IsSpace(c[i])
        ensures c[i] == ' ' && 0 < i < |c| - 1 && !IsSpace(c[i + 1])
      {
        if i > |w| {
          assert c[i] == j[i - |w| - 1];
        }
      }
    }
  }

  lemma LowerSingleSpaced(c: string)
    requires SingleSpaced(c)
    ensures Canonical(Lower(c))
  {
  }

  /** Cleaning always yields a canonical text. */
  lemma CleanIsCanonical(text: string)
    ensures Canonical(Clean(text))
  {
    JoinSingleSpaced(Words(text));
    LowerSingleSpaced(Join(" ", Words(text)));
  }

  lemma {:induction false} JoinWords(c: string)
    requires SingleSpaced(c)
    ensures Join(" ", Words(c)) == c
    ensures c != [] ==> Words(c) != []
    decreases |c|
  {
    if c != [] {
      var n := WordLen(c);
      if n < |c| {
        var rest := c[n + 1..];
        assert c[n..][1..] == rest;
        assert Words(c[n..]) == Words(rest);
        forall i | 0 <= i < |rest| && IsSpace(rest[i])
          ensures rest[i] == ' ' && 0 < i < |rest| - 1 && !IsSpace(rest[i + 1])
        {
          assert rest[i] == c[n + 1 + i];
        }
        JoinWords(rest);
        var ws := Words(c);
        assert ws == [c[..n]] + Words(rest);
        assert ws[1..] == Words(rest);
        assert c == c[..n] + " " + rest;
      } else {
        assert c[n..] == [];
      }
    }
  }

  lemma LowerKeeps(c: string)
    requires NoCapitals(c)
    ensures Lower(c) == c
  {
  }

  /** Cleaning leaves a canonical text as it is, so it is idempotent. */
  lemma CleanIdempotent(text: string)
    ensures Canonical(text) ==> Clean(text) == text
    ensures Clean(Clean(text)) == Clean(text)
  {
    if Canonical(text) {
      JoinWords(text);
      LowerKeeps(text);
    }
    CleanIsCanonical(text);
    JoinWords(Clean(text));
    LowerKeeps(Clean(text));
  }

  lemma {:induction false} NonBlankAppend(a: string, b: string)
    ensures NonBlank(a + b) == NonBlank(a) + NonBlank(b)
    decreases |a|
  {
    if a == [] {
      assert a + b == b;
    } else {
      assert (a + b)[0] == a[0];
      assert (a + b)[1..] == a[1..] + b;
      NonBlankAppend(a[1..], b);
    }
  }

  lemma {:induction false} NonBlankOfNoSpace(s: string)
    requires NoSpace(s)
    ensures NonBlank(s) == s
    decreases |s|
  {
    if s != [] {
      NonBlankOfNoSpace(s[1..]);
    }
  }

  lemma {:induction false} NonBlankJoin(ws: seq<string>)
    requires forall i :: 0 <= i < |ws| ==> NoSpace(ws[i])
    ensures NonBlank(Join(" ", ws)) == Concat(ws)
  {
    if |ws| == 1 {
      NonBlankOfNoSpace(ws[0]);
      assert Concat(ws) == ws[0] + Concat([]);
    } else if |ws| > 1 {
      NonBlankJoin(ws[1..]);
      NonBlankAppend(ws[0] + " ", Join(" ", ws[1..]));
      NonBlankAppend(ws[0], " ");
      NonBlankOfNoSpace(ws[0]);
    }
  }

  lemma {:induction false} ConcatWords(s: string)
    ensures Concat(Words(s)) == NonBlank(s)
    decreases |s|
  {
    if s != [] {
      if IsSpace(s[0]) {
        ConcatWords(s[1..]);
      } else {
        var n := WordLen(s);
        ConcatWords(s[n..]);
        var ws := Words(s);
        assert ws[1..] == Words(s[n..]);
        assert s == s[..n] + s[n..];
        NonBlankAppend(s[..n], s[n..]);
        NonBlankOfNoSpace(s[..n]);
      }
    }
  }

  lemma {:induction false} NonBlankLower(s: string)
    ensures NonBlank(Lower(s)) == Lower(NonBlank(s))
    decreases |s|
  {
    if s != [] {
      NonBlankLower(s[1..]);
      assert Lower(s)[1..] == Lower(s[1..]);
      LowerAppend(if IsSpace(s[0]) then [] else [s[0]], NonBlank(s[1..]));
    }
  }

  lemma LowerAppend(a: string, b: string)
    ensures Lower(a + b) == Lower(a) + Lower(b)
  {
  }

  /** Cleaning keeps every non-whitespace character, in order, lower-cased. */
  lemma CleanKeepsText(text: string)
    ensures NonBlank(Clean(text)) == Lower(NonBlank(text))
  {
    var joined := Join(" ", Words(text));
    NonBlankLower(joined);
    NonBlankJoin(Words(text));
    ConcatWords(text);
  }

  /** Each word lower-cased. */
  function LowerAll(ws: seq<string>): (r: seq<string>)
    ensures |r| == |ws|
    ensures forall i :: 0 <= i < |ws| ==> r[i] == Lower(ws[i])
  {
    if ws == [] then [] else [Lower(ws[0])] + LowerAll(ws[1..])
  }

  lemma {:induction false} LowerJoin(ws: seq<string>)
    ensures Lower(Join(" ", ws)) == Join(" ", LowerAll(ws))
  {
    if |ws| > 1 {
      LowerJoin(ws[1..]);
      assert LowerAll(ws)[1..] == LowerAll(ws[1..]);
      LowerAppend(ws[0] + " ", Join(" ", ws[1..]));
      LowerAppend(ws[0], " ");
    }
  }

  /** Joining words with single spaces and splitting again gives the words. */
  lemma {:induction false} WordsOfJoin(ws: seq<string>)
    requires forall i :: 0 <= i < |ws| ==> ws[i] != [] && NoSpace(ws[i])
    ensures Words(Join(" ", ws)) == ws
  {
    if |ws| == 1 {
      WordsOfWord(ws[0]);
    } else if |ws| > 1 {
      WordsOfJoin(ws[1..]);
      WordsOfWord(ws[0]);
      WordsSplit(ws[0], ' ', Join(" ", ws[1..]));
      assert Join(" ", ws) == ws[0] + [' '] + Join(" ", ws[1..]);
    }
  }

  /** Cleaning keeps the words of the text, in order, each lower-cased: runs
      of whitespace collapse to one space where the text had whitespace. */
  lemma CleanWords(text: string)
    ensures Words(Clean(text)) == LowerAll(Words(text))
  {
    var ws := Words(text);
    LowerJoin(ws);
    forall i | 0 <= i < |ws| ensures LowerAll(ws)[i] != [] && NoSpace(LowerAll(ws)[i]) {
      assert |Lower(ws[i])| == |ws[i]|;
    }
    WordsOfJoin(LowerAll(ws));
  }

  // ---------------------------------------------------------------------
  // normalize_queries
  // ---------------------------------------------------------------------

  /** `q.get("query_text", "") or ""`, as a string: a truthy value that is
      not a string has no split() and raises AttributeError. */
  function QueryText(q: Row): (r: Result<string>)
    ensures r.Failure? <==> Truthy(GetOr(q, "query_text", Str(""))) && !GetOr(q, "query_text", Str("")).Str?
    ensures r.Success? && "query_text" in q.vals && q.vals["query_text"].Str? ==> r.value == q.vals["query_text"].s
    ensures r.Success? && ("query_text" !in q.vals || !q.vals["query_text"].Str?) ==> r.value == ""
  {
    var v := OrZeroText(GetOr(q, "query_text", Str("")));
    if v.Str? then Success(v.s) else Failure(AttributeError)
  }

  /** `v or ""` */
  function OrZeroText(v: Value): Value
  {
    if Truthy(v) then v else Str("")
  }

  /** One row of normalize_queries: a copy of q with the cleaned text, the
      table the resolver finds in it, and the snapshot time. */
  function NormalizeRow(q: Row, snapshot: string, resolve: string -> string): (r: Result<Row>)
    ensures r.Success? <==> QueryText(q).Success?
  {
    match QueryText(q)
    case Failure(e) => Failure(e)
    case Success(text) =>
      var clean := Clean(text);
      Success(Put(Put(Put(q, "query_normalized", Str(clean)), "main_table", Str(resolve(clean))), "snapshot", Str(snapshot)))
  }

  /** A normalised row is well formed, holds the cleaned text (in canonical
      form), the table the resolver finds in the cleaned text and the snapshot
      time. */
  lemma NormalizeRowMeaning(q: Row, snapshot: string, resolve: string -> string)
    requires WellFormed(q) && QueryText(q).Success?
    ensures
      var r := NormalizeRow(q, snapshot, resolve).value;
      var clean := Clean(QueryText(q).value);
      && WellFormed(r)
      && Canonical(clean)
      && "query_normalized" in r.vals && r.vals["query_normalized"] == Str(clean)
      && "main_table" in r.vals && r.vals["main_table"] == Str(resolve(clean))
      && "snapshot" in r.vals && r.vals["snapshot"] == Str(snapshot)
  {
    var text := QueryText(q).value;
    var clean := Clean(text);
    CleanIsCanonical(text);
    var r1 := Put(q, "query_normalized", Str(clean));
    PutWellFormed(q, "query_normalized", Str(clean));
    var r2 := Put(r1, "main_table", Str(resolve(clean)));
    PutWellFormed(r1, "main_table", Str(resolve(clean)));
    PutWellFormed(r2, "snapshot", Str(snapshot));
  }

  /** Every other field of the row is carried over unchanged, and the fields
      the row had keep their positions. */
  lemma NormalizeRowCarries(q: Row, snapshot: string, resolve: string -> string, k: string)
    requires QueryText(q).Success?
    requires k != "query_normalized" && k != "main_table" && k != "snapshot"
    ensures
      var r := NormalizeRow(q, snapshot, resolve).value;
      && (k in r.vals <==> k in q.vals)
      && (k in q.vals ==> r.vals[k] == q.vals[k])
      && q.keys <= r.keys
  {
  }

  /** What normalize_queries returns for the first n rows: their enriched
      copies, in order, or the error of the first row that raises. */
  function Normalized(queries: seq<Row>, snapshot: string, resolve: string -> string, n: nat): Result<seq<Row>>
    requires n <= |queries|
  {
    MapAll(q => NormalizeRow(q, snapshot, resolve), queries, n)
  }

  /** normalize_queries returns one enriched copy per row, in order; it
      raises AttributeError exactly when some row's text cannot be split. */
  lemma NormalizedMeaning(queries: seq<Row>, snapshot: string, resolve: string -> string, n: nat)
    requires n <= |queries|
    ensures Normalized(queries, snapshot, resolve, n).Success? <==> forall i :: 0 <= i < n ==> QueryText(queries[i]).Success?
    ensures Normalized(queries, snapshot, resolve, n).Failure? ==> Normalized(queries, snapshot, resolve, n).error == AttributeError
    ensures Normalized(queries, snapshot, resolve, n).Success? ==>
      && |Normalized(queries, snapshot, resolve, n).value| == n
      && forall i :: 0 <= i < n ==> Success(Normalized(queries, snapshot, resolve, n).value[i]) == NormalizeRow(queries[i], snapshot, resolve)
  {
    MapAllMeaning(q => NormalizeRow(q, snapshot, resolve), queries, n);
    if Normalized(queries, snapshot, resolve, n).Failure? {
      var i :| 0 <= i < n && NormalizeRow(queries[i], snapshot, resolve) == Failure(Normalized(queries, snapshot, resolve, n).error);
    }
  }

  /** MetricsDomain.normalize_queries */
  method NormalizeQueries(queries: seq<Row>, snapshot: string, resolve: string -> string)
    returns (r: Result<seq<Row>>)
    ensures r == Normalized(queries, snapshot, resolve, |queries|)
  {
    var normalized: seq<Row> := [];
    for i := 0 to |queries|
      invariant Normalized(queries, snapshot, resolve, i) == Success(normalized)
    {
      var q := NormalizeOne(queries[i], snapshot, resolve);
      if q.Failure? {
        MapAllSticks(q => NormalizeRow(q, snapshot, resolve), queries, i + 1, |queries|);
        return Failure(q.error);
      }
      normalized := normalized + [q.value];
    }
    return Success(normalized);
  }

  /** The body of normalize_queries' loop for one row. */
  method NormalizeOne(q: Row, snapshot: string, resolve: string -> string) returns (r: Result<Row>)
    ensures r == NormalizeRow(q, snapshot, resolve)
  {
    var v := GetOr(q, "query_text", Str(""));
    if !Truthy(v) {
      v := Str("");
    }
    if !v.Str? {
      return Failure(AttributeError);
    }
    var clean := Clean(v.s);
    var row := Put(q, "query_normalized", Str(clean));
    row := Put(row, "main_table", Str(resolve(clean)));
    row := Put(row, "snapshot", Str(snapshot));
    return Success(row);
  }

  // ---------------------------------------------------------------------
  // group_heavy_queries and group_frequent_queries
  // ---------------------------------------------------------------------

  /** A per-table aggregate: a row's `main_table` value to its entry. */
  type Aggregate = Dict<Value, Row>

  /** How a grouping builds an entry: each pair (out, field) of `summed`
      adds the rows' `field` to the entry's `out`, which starts at 0; the
      `extra` fields keep their initial value. */
  datatype Layout = Layout(summed: seq<(string, string)>, extra: seq<(string, Value)>)

  /** The six accumulators of group_heavy_queries, in their dict order. */
  function HeavyLayout(): Layout
  {
    Layout([("execution_count", "execution_count"), ("cpu_time_total", "cpu_time_total"),
            ("logical_reads_total", "logical_reads_total"), ("logical_writes_total", "logical_writes_total"),
            ("physical_reads_total", "physical_reads_total"), ("duration_total", "duration_total")], [])
  }

  /** group_frequent_queries: `total_elapsed_time` sums `duration_total`, and
      every entry carries an empty `queries` list. */
  function FrequentLayout(): Layout
  {
    Layout([("execution_count", "execution_count"), ("total_elapsed_time", "duration_total"),
            ("exec_per_second", "exec_per_second")], [("queries", List([]))])
  }

  /** The first components of a sequence of pairs, in order. */
  function Firsts<A, B>(pairs: seq<(A, B)>): (r: seq<A>)
    ensures |r| == |pairs| && forall i :: 0 <= i < |r| ==> r[i] == pairs[i].0
  {
    if pairs == [] then [] else [pairs[0].0] + Firsts(pairs[1..])
  }

  /** The keys of every entry, in order. */
  function FieldNames(layout: Layout): seq<string>
  {
    Firsts(layout.summed) + Firsts(layout.extra)
  }

  predicate Distinct<T(==)>(s: seq<T>)
  {
    forall i, j :: 0 <= i < j < |s| ==> s[i] != s[j]
  }

  /** The entry's field names are pairwise different. */
  predicate ValidLayout(layout: Layout)
  {
    && (forall a, b :: 0 <= a < b < |layout.summed| ==> layout.summed[a].0 != layout.summed[b].0)
    && (forall a, b :: 0 <= a < b < |layout.extra| ==> layout.extra[a].0 != layout.extra[b].0)
    && (forall a, b :: 0 <= a < |layout.summed| && 0 <= b < |layout.extra| ==> layout.summed[a].0 != layout.extra[b].0)
  }

  /** The value an entry starts with in field k. */
  function InitValue(layout: Layout, k: string): Value
  {
    if k in Firsts(layout.summed) then Int(0) else ExtraValue(layout.extra, k)
  }

  function ExtraValue(extra: seq<(string, Value)>, k: string): Value
  {
    if extra == [] then Null else if extra[0].0 == k then extra[0].1 else ExtraValue(extra[1..], k)
  }

  /** The entry a table starts with: the dict literal of the grouping. */
  function InitEntry(layout: Layout): Row
  {
    Dict(FieldNames(layout), map k | k in FieldNames(layout) :: InitValue(layout, k))
  }

  /** `q.get("main_table")` */
  function TableOf(q: Row): Value
  {
    GetOr(q, "main_table", Null)
  }

  /** The number `q.get(field, 0) or 0` adds, or None where `+=` raises. */
  function Amount(q: Row, field: string): Option<int>
  {
    NumberOf(OrZero(GetOr(q, field, Int(0))))
  }

  /** `e[out] += amount`, where amount is `q.get(field, 0) or 0` as a
      number (None where it is not one). */
  function AddField(e: Row, out: string, amount: Option<int>): Result<Row>
  {
    if out !in e.vals then Failure(KeyError)
    else
      match amount
      case None => Failure(TypeError)
      case Some(n) =>
        match Add(e.vals[out], Int(n))
        case None => Failure(TypeError)
        case Some(v) => Success(Dict(e.keys, e.vals[out := v]))
  }

  /** The entry after its first j summed fields have absorbed row q. */
  function AddFields(e: Row, q: Row, summed: seq<(string, string)>, j: nat): Result<Row>
    requires j <= |summed|
  {
    if j == 0 then Success(e)
    else
      match AddFields(e, q, summed, j - 1)
      case Failure(err) => Failure(err)
      case Success(e1) => AddField(e1, summed[j - 1].0, Amount(q, summed[j - 1].1))
  }

  /** Whether a value can be a dict key: lists and dicts cannot. */
  predicate Hashable(v: Value)
  {
    !v.List? && !v.Obj?
  }

  /** One iteration of the grouping loop: an unhashable table raises at the
      membership test, a new table starts from the initial entry, then the
      row's amounts are added. */
  function AddRow(t: Aggregate, q: Row, layout: Layout): Result<Aggregate>
  {
    var tbl := TableOf(q);
    if !Hashable(tbl) then Failure(TypeError)
    else
      var t1 := if tbl in t.vals then t else Put(t, tbl, InitEntry(layout));
      match AddFields(t1.vals[tbl], q, layout.summed, |layout.summed|)
      case Failure(err) => Failure(err)
      case Success(e) => Success(Put(t1, tbl, e))
  }

  /** The grouping of the rows qs, processed in order. */
  function Grouped(qs: seq<Row>, layout: Layout): Result<Aggregate>
    decreases |qs|
  {
    if qs == [] then Success(EmptyDict())
    else
      match Grouped(qs[..|qs| - 1], layout)
      case Failure(err) => Failure(err)
      case Success(t) => AddRow(t, qs[|qs| - 1], layout)
  }

  /** The distinct tables of qs in order of first appearance. */
  function FirstSeen(qs: seq<Row>): seq<Value>
    decreases |qs|
  {
    if qs == [] then []
    else
      var f := FirstSeen(qs[..|qs| - 1]);
      if TableOf(qs[|qs| - 1]) in f then f else f + [TableOf(qs[|qs| - 1])]
  }

  /** The sum of `field` over the rows of qs whose table is tbl. */
  function Total(qs: seq<Row>, tbl: Value, field: string): int
    decreases |qs|
  {
    if qs == [] then 0
    else
      var last := qs[|qs| - 1];
      Total(qs[..|qs| - 1], tbl, field)
      + (if TableOf(last) == tbl && Amount(last, field).Some? then Amount(last, field).value else 0)
  }

  /** A row the grouping absorbs without raising: its table is hashable and
      it contributes a number to every summed field. */
  ghost predicate Fits(q: Row, layout: Layout)
  {
    && Hashable(TableOf(q))
    && forall j :: 0 <= j < |layout.summed| ==> Amount(q, layout.summed[j].1).Some?
  }

  ghost predicate AllFit(qs: seq<Row>, layout: Layout)
  {
    forall i :: 0 <= i < |qs| ==> Fits(qs[i], layout)
  }

  /** What the entry of tbl holds after grouping qs. */
  ghost predicate EntryOf(e: Row, qs: seq<Row>, tbl: Value, layout: Layout)
  {
    && WellFormed(e)
    && e.keys == FieldNames(layout)
    && (forall j :: 0 <= j < |layout.summed| ==>
          layout.summed[j].0 in e.vals && e.vals[layout.summed[j].0] == Int(Total(qs, tbl, layout.summed[j].1)))
    && (forall j :: 0 <= j < |layout.extra| ==>
          layout.extra[j].0 in e.vals && e.vals[layout.extra[j].0] == layout.extra[j].1)
  }

  /** What the aggregate holds after grouping qs. */
  ghost predicate GroupOf(t: Aggregate, qs: seq<Row>, layout: Layout)
  {
    && WellFormed(t)
    && t.keys == FirstSeen(qs)
    && (forall tbl :: tbl in t.vals ==> EntryOf(t.vals[tbl], qs, tbl, layout))
  }

  lemma {:induction false} ExtraValueOf(extra: seq<(string, Value)>, j: nat)
    requires j < |extra|
    requires forall a, b :: 0 <= a < b < |extra| ==> extra[a].0 != extra[b].0
    ensures ExtraValue(extra, extra[j].0) == extra[j].1
  {
    if j > 0 {
      assert extra[0].0 != extra[j].0;
      assert extra[1..][j - 1] == extra[j];
      ExtraValueOf(extra[1..], j - 1);
    }
  }

  lemma FieldNamesDistinct(layout: Layout)
    requires ValidLayout(layout)
    ensures Distinct(FieldNames(layout))
  {
    var names := FieldNames(layout);
    var outs, extras := Firsts(layout.summed), Firsts(layout.extra);
    var m := |outs|;
    forall a, b | 0 <= a < b < |names| ensures names[a] != names[b] {
      if b < m {
        assert names[a] == outs[a] && names[b] == outs[b];
      } else if a >= m {
        assert names[a] == extras[a - m] && names[b] == extras[b - m];
      } else {
        assert names[a] == outs[a] && names[b] == extras[b - m];
      }
    }
  }

  lemma InitEntryWellFormed(layout: Layout)
    requires ValidLayout(layout)
    ensures WellFormed(InitEntry(layout))
  {
    FieldNamesDistinct(layout);
  }

  lemma InitEntryOut(layout: Layout, j: nat)
    requires j < |layout.summed|
    ensures layout.summed[j].0 in InitEntry(layout).vals
    ensures InitEntry(layout).vals[layout.summed[j].0] == Int(0)
  {
    var k := layout.summed[j].0;
    assert Firsts(layout.summed)[j] == k;
    assert FieldNames(layout)[j] == k;
  }

  lemma InitEntryExtra(layout: Layout, j: nat)
    requires ValidLayout(layout)
    requires j < |layout.extra|
    ensures layout.extra[j].0 in InitEntry(layout).vals
    ensures InitEntry(layout).vals[layout.extra[j].0] == layout.extra[j].1
  {
    var k := layout.extra[j].0;
    var outs := Firsts(layout.summed);
    assert FieldNames(layout)[|outs| + j] == Firsts(layout.extra)[j] == k;
    assert k !in outs by {
      forall i | 0 <= i < |outs| ensures outs[i] != k {
        assert outs[i] == layout.summed[i].0;
      }
    }
    ExtraValueOf(layout.extra, j);
  }

  lemma InitEntryMeaning(layout: Layout)
    requires ValidLayout(layout)
    ensures WellFormed(InitEntry(layout))
    ensures InitEntry(layout).keys == FieldNames(layout)
    ensures forall j :: 0 <= j < |layout.summed| ==>
      layout.summed[j].0 in InitEntry(layout).vals && InitEntry(layout).vals[layout.summed[j].0] == Int(0)
    ensures forall j :: 0 <= j < |layout.extra| ==>
      layout.extra[j].0 in InitEntry(layout).vals && InitEntry(layout).vals[layout.extra[j].0] == layout.extra[j].1
  {
    InitEntryWellFormed(layout);
    forall j | 0 <= j < |layout.summed|
      ensures layout.summed[j].0 in InitEntry(layout).vals
      ensures InitEntry(layout).vals[layout.summed[j].0] == Int(0)
    {
      InitEntryOut(layout, j);
    }
    forall j | 0 <= j < |layout.extra|
      ensures layout.extra[j].0 in InitEntry(layout).vals
      ensures InitEntry(layout).vals[layout.extra[j].0] == layout.extra[j].1
    {
      InitEntryExtra(layout, j);
    }
  }

  /** The summed fields of an entry are distinct, present and integers. */
  ghost predicate Accumulators(e: Row, summed: seq<(string, string)>)
  {
    && (forall a, b :: 0 <= a < b < |summed| ==> summed[a].0 != summed[b].0)
    && (forall i :: 0 <= i < |summed| ==> summed[i].0 in e.vals && e.vals[summed[i].0].Int?)
  }

  /** Absorbing a row raises exactly when one of its amounts is not a
      number, and then raises TypeError; the entry keeps its keys. */
  lemma {:induction false} AddFieldsRaises(e: Row, q: Row, summed: seq<(string, string)>, j: nat)
    requires j <= |summed| && Accumulators(e, summed)
    ensures AddFields(e, q, summed, j).Success? <==> forall i :: 0 <= i < j ==> Amount(q, summed[i].1).Some?
    ensures AddFields(e, q, summed, j).Failure? ==> AddFields(e, q, summed, j).error == TypeError
    ensures AddFields(e, q, summed, j).Success? ==> AddFields(e, q, summed, j).value.keys == e.keys
    ensures AddFields(e, q, summed, j).Success? ==> AddFields(e, q, summed, j).value.vals.Keys == e.vals.Keys
  {
    if j > 0 {
      AddFieldsRaises(e, q, summed, j - 1);
      if AddFields(e, q, summed, j - 1).Success? {
        AddFieldsField(e, q, summed, j - 1, j - 1);
      }
    }
  }

  /** Absorbing a row adds its amount to each of the first j summed fields
      and leaves the later ones alone. */
  lemma {:induction false} AddFieldsField(e: Row, q: Row, summed: seq<(string, string)>, j: nat, i: nat)
    requires j <= |summed| && i < |summed| && Accumulators(e, summed)
    requires AddFields(e, q, summed, j).Success?
    requires i < j ==> Amount(q, summed[i].1).Some?
    ensures summed[i].0 in AddFields(e, q, summed, j).value.vals
    ensures AddFields(e, q, summed, j).value.vals[summed[i].0] ==
      if i < j then Int(e.vals[summed[i].0].n + Amount(q, summed[i].1).value) else e.vals[summed[i].0]
  {
    if j > 0 {
      AddFieldsField(e, q, summed, j - 1, i);
      AddFieldsField(e, q, summed, j - 1, j - 1);
      if i != j - 1 {
        assert summed[i].0 != summed[j - 1].0;
      }
    }
  }

  /** Absorbing a row leaves every field that is not summed alone. */
  lemma {:induction false} AddFieldsOther(e: Row, q: Row, summed: seq<(string, string)>, j: nat, k: string)
    requires j <= |summed| && Accumulators(e, summed)
    requires AddFields(e, q, summed, j).Success? && k in e.vals
    requires forall i :: 0 <= i < |summed| ==> summed[i].0 != k
    ensures k in AddFields(e, q, summed, j).value.vals
    ensures AddFields(e, q, summed, j).value.vals[k] == e.vals[k]
  {
    if j > 0 {
      AddFieldsOther(e, q, summed, j - 1, k);
      AddFieldsField(e, q, summed, j - 1, j - 1);
    }
  }

  lemma {:induction false} FirstSeenMeaning(qs: seq<Row>)
    ensures Distinct(FirstSeen(qs))
    ensures forall k :: k in FirstSeen(qs) <==> exists i :: 0 <= i < |qs| && TableOf(qs[i]) == k
    decreases |qs|
  {
    if qs != [] {
      var init := qs[..|qs| - 1];
      FirstSeenMeaning(init);
      forall k ensures k in FirstSeen(qs) <==> exists i :: 0 <= i < |qs| && TableOf(qs[i]) == k
      {
        if k in FirstSeen(qs) && k !in FirstSeen(init) {
          assert TableOf(qs[|qs| - 1]) == k;
        }
        if exists i :: 0 <= i < |init| && TableOf(init[i]) == k {
          var i :| 0 <= i < |init| && TableOf(init[i]) == k;
          assert TableOf(qs[i]) == k;
        }
        if exists i :: 0 <= i < |qs| && TableOf(qs[i]) == k {
          var i :| 0 <= i < |qs| && TableOf(qs[i]) == k;
          if i < |init| {
            assert TableOf(init[i]) == k;
          }
        }
      }
    }
  }

  lemma {:induction false} TotalOfAbsent(qs: seq<Row>, tbl: Value, field: string)
    requires forall i :: 0 <= i < |qs| ==> TableOf(qs[i]) != tbl
    ensures Total(qs, tbl, field) == 0
    decreases |qs|
  {
    if qs != [] {
      TotalOfAbsent(qs[..|qs| - 1], tbl, field);
    }
  }

  lemma TotalSnoc(qs: seq<Row>, q: Row, tbl: Value, field: string)
    ensures Total(qs + [q], tbl, field) ==
      Total(qs, tbl, field) + (if TableOf(q) == tbl && Amount(q, field).Some? then Amount(q, field).value else 0)
  {
    assert (qs + [q])[..|qs|] == qs;
  }

  lemma FirstSeenSnoc(qs: seq<Row>, q: Row)
    ensures FirstSeen(qs + [q]) == if TableOf(q) in FirstSeen(qs) then FirstSeen(qs) else FirstSeen(qs) + [TableOf(q)]
  {
    assert (qs + [q])[..|qs|] == qs;
  }

  /** The entry a row is added to holds the totals of the earlier rows: a
      table not seen before starts at zero. */
  lemma EntryBefore(t: Aggregate, qs: seq<Row>, tbl: Value, layout: Layout)
    requires ValidLayout(layout) && GroupOf(t, qs, layout)
    ensures EntryOf((if tbl in t.vals then t else Put(t, tbl, InitEntry(layout))).vals[tbl], qs, tbl, layout)
  {
    if tbl !in t.vals {
      InitEntryMeaning(layout);
      FirstSeenMeaning(qs);
      assert tbl !in FirstSeen(qs);
      forall j | 0 <= j < |layout.summed|
        ensures Total(qs, tbl, layout.summed[j].1) == 0
      {
        TotalOfAbsent(qs, tbl, layout.summed[j].1);
      }
    }
  }

  /** A row of another table leaves an entry's totals as they were. */
  lemma EntryOther(e: Row, qs: seq<Row>, q: Row, tbl: Value, layout: Layout)
    requires EntryOf(e, qs, tbl, layout) && TableOf(q) != tbl
    ensures EntryOf(e, qs + [q], tbl, layout)
  {
    forall j | 0 <= j < |layout.summed|
      ensures Total(qs + [q], tbl, layout.summed[j].1) == Total(qs, tbl, layout.summed[j].1)
    {
      TotalSnoc(qs, q, tbl, layout.summed[j].1);
    }
  }

  lemma EntryAccumulators(e: Row, qs: seq<Row>, tbl: Value, layout: Layout)
    requires ValidLayout(layout) && EntryOf(e, qs, tbl, layout)
    ensures Accumulators(e, layout.summed)
  {
  }

  lemma EntryAbsorbOut(e: Row, qs: seq<Row>, q: Row, summed: seq<(string, string)>, j: nat)
    requires Accumulators(e, summed) && j < |summed|
    requires AddFields(e, q, summed, |summed|).Success? && Amount(q, summed[j].1).Some?
    requires e.vals[summed[j].0] == Int(Total(qs, TableOf(q), summed[j].1))
    ensures summed[j].0 in AddFields(e, q, summed, |summed|).value.vals
    ensures AddFields(e, q, summed, |summed|).value.vals[summed[j].0] == Int(Total(qs + [q], TableOf(q), summed[j].1))
  {
    AddFieldsField(e, q, summed, |summed|, j);
    TotalSnoc(qs, q, TableOf(q), summed[j].1);
  }

  /** Adding a row to an entry raises exactly when one of the row's amounts
      is not a number, and then raises TypeError. */
  lemma EntryRaises(e: Row, qs: seq<Row>, q: Row, layout: Layout)
    requires ValidLayout(layout) && EntryOf(e, qs, TableOf(q), layout)
    ensures AddFields(e, q, layout.summed, |layout.summed|).Success? <==>
      forall j :: 0 <= j < |layout.summed| ==> Amount(q, layout.summed[j].1).Some?
    ensures AddFields(e, q, layout.summed, |layout.summed|).Failure? ==>
      AddFields(e, q, layout.summed, |layout.summed|).error == TypeError
  {
    EntryAccumulators(e, qs, TableOf(q), layout);
    AddFieldsRaises(e, q, layout.summed, |layout.summed|);
  }

  lemma EntryAbsorbOuts(e: Row, qs: seq<Row>, q: Row, summed: seq<(string, string)>)
    requires Accumulators(e, summed) && AddFields(e, q, summed, |summed|).Success?
    requires forall j :: 0 <= j < |summed| ==> Amount(q, summed[j].1).Some?
    requires forall j :: 0 <= j < |summed| ==> e.vals[summed[j].0] == Int(Total(qs, TableOf(q), summed[j].1))
    ensures forall j :: 0 <= j < |summed| ==>
      && summed[j].0 in AddFields(e, q, summed, |summed|).value.vals
      && AddFields(e, q, summed, |summed|).value.vals[summed[j].0] == Int(Total(qs + [q], TableOf(q), summed[j].1))
  {
    forall j | 0 <= j < |summed|
      ensures summed[j].0 in AddFields(e, q, summed, |summed|).value.vals
      ensures AddFields(e, q, summed, |summed|).value.vals[summed[j].0] == Int(Total(qs + [q], TableOf(q), summed[j].1))
    {
      EntryAbsorbOut(e, qs, q, summed, j);
    }
  }

  lemma EntryAbsorbExtras(e: Row, q: Row, layout: Layout)
    requires ValidLayout(layout)
    requires Accumulators(e, layout.summed) && AddFields(e, q, layout.summed, |layout.summed|).Success?
    requires forall j :: 0 <= j < |layout.extra| ==> layout.extra[j].0 in e.vals && e.vals[layout.extra[j].0] == layout.extra[j].1
    ensures forall j :: 0 <= j < |layout.extra| ==>
      && layout.extra[j].0 in AddFields(e, q, layout.summed, |layout.summed|).value.vals
      && AddFields(e, q, layout.summed, |layout.summed|).value.vals[layout.extra[j].0] == layout.extra[j].1
  {
    forall j | 0 <= j < |layout.extra|
      ensures layout.extra[j].0 in AddFields(e, q, layout.summed, |layout.summed|).value.vals
      ensures AddFields(e, q, layout.summed, |layout.summed|).value.vals[layout.extra[j].0] == layout.extra[j].1
    {
      AddFieldsOther(e, q, layout.summed, |layout.summed|, layout.extra[j].0);
    }
  }

  /** Otherwise each amount is added to its total and the extra fields are
      left alone. */
  lemma EntryAbsorb(e: Row, qs: seq<Row>, q: Row, layout: Layout)
    requires ValidLayout(layout) && EntryOf(e, qs, TableOf(q), layout) && Fits(q, layout)
    ensures AddFields(e, q, layout.summed, |layout.summed|).Success?
    ensures EntryOf(AddFields(e, q, layout.summed, |layout.summed|).value, qs + [q], TableOf(q), layout)
  {
    EntryAccumulators(e, qs, TableOf(q), layout);
    AddFieldsRaises(e, q, layout.summed, |layout.summed|);
    EntryAbsorbOuts(e, qs, q, layout.summed);
    EntryAbsorbExtras(e, q, layout);
  }

  /** One grouping step keeps the aggregate in step with the rows seen. */
  lemma AddRowMeaning(t: Aggregate, qs: seq<Row>, q: Row, layout: Layout)
    requires ValidLayout(layout) && GroupOf(t, qs, layout)
    ensures AddRow(t, q, layout).Success? <==> Fits(q, layout)
    ensures AddRow(t, q, layout).Failure? ==> AddRow(t, q, layout).error == TypeError
    ensures AddRow(t, q, layout).Success? ==> GroupOf(AddRow(t, q, layout).value, qs + [q], layout)
  {
    var tbl := TableOf(q);
    if Hashable(tbl) {
      var t1 := if tbl in t.vals then t else Put(t, tbl, InitEntry(layout));
      EntryBefore(t, qs, tbl, layout);
      EntryRaises(t1.vals[tbl], qs, q, layout);
      if AddRow(t, q, layout).Success? {
        EntryAbsorb(t1.vals[tbl], qs, q, layout);
        var e := AddFields(t1.vals[tbl], q, layout.summed, |layout.summed|).value;
        var t2 := Put(t1, tbl, e);
        assert AddRow(t, q, layout).value == t2;
        if tbl !in t.vals {
          PutWellFormed(t, tbl, InitEntry(layout));
        }
        PutWellFormed(t1, tbl, e);
        FirstSeenSnoc(qs, q);
        forall k | k in t2.vals
          ensures EntryOf(t2.vals[k], qs + [q], k, layout)
        {
          if k != tbl {
            EntryOther(t.vals[k], qs, q, k, layout);
          }
        }
      }
    }
  }

  /** Once a prefix of the rows raises, the whole grouping raises the same. */
  lemma {:induction false} GroupedSticks(qs: seq<Row>, i: nat, layout: Layout)
    requires i <= |qs| && Grouped(qs[..i], layout).Failure?
    ensures Grouped(qs, layout) == Grouped(qs[..i], layout)
    decreases |qs|
  {
    if i < |qs| {
      var init := qs[..|qs| - 1];
      assert init[..i] == qs[..i];
      GroupedSticks(init, i, layout);
    } else {
      assert qs[..i] == qs;
    }
  }

  /** group_heavy_queries / group_frequent_queries: the grouping raises
      TypeError exactly when some row does not fit, and otherwise holds one
      entry per table, in order of first appearance, with its totals. */
  lemma {:induction false} GroupedMeaning(qs: seq<Row>, layout: Layout)
    requires ValidLayout(layout)
    ensures Grouped(qs, layout).Success? <==> AllFit(qs, layout)
    ensures Grouped(qs, layout).Failure? ==> Grouped(qs, layout).error == TypeError
    ensures Grouped(qs, layout).Success? ==> GroupOf(Grouped(qs, layout).value, qs, layout)
    decreases |qs|
  {
    if qs != [] {
      var init := qs[..|qs| - 1];
      var q := qs[|qs| - 1];
      assert qs == init + [q];
      GroupedMeaning(init, layout);
      if Grouped(init, layout).Success? {
        AddRowMeaning(Grouped(init, layout).value, init, q, layout);
      } else {
        var i :| 0 <= i < |init| && !Fits(init[i], layout);
        assert qs[i] == init[i];
      }
    }
  }

  lemma {:induction false} AddFieldsSticks(e: Row, q: Row, summed: seq<(string, string)>, j: nat)
    requires j <= |summed| && AddFields(e, q, summed, j).Failure?
    ensures AddFields(e, q, summed, |summed|) == AddFields(e, q, summed, j)
    decreases |summed| - j
  {
    if j < |summed| {
      AddFieldsSticks(e, q, summed, j + 1);
    }
  }

  lemma GroupedStep(qs: seq<Row>, i: nat, layout: Layout)
    requires i < |qs| && Grouped(qs[..i], layout).Success?
    ensures Grouped(qs[..i + 1], layout) == AddRow(Grouped(qs[..i], layout).value, qs[i], layout)
  {
    assert qs[..i + 1][..i] == qs[..i];
  }

  /** `e[out] += q.get(field, 0) or 0` is one step of AddFields. */
  lemma AddFieldStep(e: Row, out: string, q: Row, field: string)
    requires out in e.vals
    ensures AddField(e, out, Amount(q, field)) ==
      match Add(e.vals[out], OrZero(GetOr(q, field, Int(0))))
      case None => Failure(TypeError)
      case Some(v) => Success(Dict(e.keys, e.vals[out := v]))
  {
  }

  /** The grouping loop shared by group_heavy_queries and
      group_frequent_queries: each row's amounts are added, field by field,
      to the entry of its table, which is created on first sight. */
  method Group(queries: seq<Row>, layout: Layout) returns (r: Result<Aggregate>)
    ensures r == Grouped(queries, layout)
  {
    var tables: Aggregate := EmptyDict();
    for i := 0 to |queries|
      invariant Grouped(queries[..i], layout) == Success(tables)
    {
      var q := queries[i];
      GroupedStep(queries, i, layout);
      var tbl := TableOf(q);
      if !Hashable(tbl) {
        GroupedSticks(queries, i + 1, layout);
        return Failure(TypeError);
      }
      if tbl !in tables.vals {
        tables := Put(tables, tbl, InitEntry(layout));
      }
      var entry := AddRowFields(tables.vals[tbl], q, layout.summed);
      if entry.Failure? {
        GroupedSticks(queries, i + 1, layout);
        return Failure(entry.error);
      }
      tables := Put(tables, tbl, entry.value);
    }
    assert queries[..|queries|] == queries;
    return Success(tables);
  }

  /** The inner loop of the grouping: `e[out] += q.get(field, 0) or 0` for
      each summed field in turn. */
  method AddRowFields(start: Row, q: Row, summed: seq<(string, string)>) returns (r: Result<Row>)
    ensures r == AddFields(start, q, summed, |summed|)
  {
    var entry := start;
    for j := 0 to |summed|
      invariant AddFields(start, q, summed, j) == Success(entry)
    {
      var (out, field) := summed[j];
      if out !in entry.vals {
        AddFieldsSticks(start, q, summed, j + 1);
        return Failure(KeyError);
      }
      AddFieldStep(entry, out, q, field);
      var sum := Add(entry.vals[out], OrZero(GetOr(q, field, Int(0))));
      if sum.None? {
        AddFieldsSticks(start, q, summed, j + 1);
        return Failure(TypeError);
      }
      entry := Dict(entry.keys, entry.vals[out := sum.value]);
    }
    return Success(entry);
  }

  lemma LayoutsValid()
    ensures ValidLayout(HeavyLayout()) && ValidLayout(FrequentLayout())
  {
  }

  /** A grouping is an aggregate whose entries are all well formed dicts. */
  lemma GroupOfWellFormed(t: Aggregate, qs: seq<Row>, layout: Layout)
    requires GroupOf(t, qs, layout)
    ensures AggregateWellFormed(t)
  {
  }

  /** MetricsDomain.group_heavy_queries */
  method GroupHeavyQueries(queries: seq<Row>) returns (r: Result<Aggregate>)
    ensures r == Grouped(queries, HeavyLayout())
    ensures r.Success? <==> AllFit(queries, HeavyLayout())
    ensures r.Failure? ==> r.error == TypeError
    ensures r.Success? ==> GroupOf(r.value, queries, HeavyLayout())
  {
    r := Group(queries, HeavyLayout());
    LayoutsValid();
    GroupedMeaning(queries, HeavyLayout());
  }

  /** MetricsDomain.group_frequent_queries */
  method GroupFrequentQueries(queries: seq<Row>) returns (r: Result<Aggregate>)
    ensures r == Grouped(queries, FrequentLayout())
    ensures r.Success? <==> AllFit(queries, FrequentLayout())
    ensures r.Failure? ==> r.error == TypeError
    ensures r.Success? ==> GroupOf(r.value, queries, FrequentLayout())
  {
    r := Group(queries, FrequentLayout());
    LayoutsValid();
    GroupedMeaning(queries, FrequentLayout());
  }

  // ---------------------------------------------------------------------
  // detect_new_tables, _normalize_number, calculate_deltas, build_snapshot
  // ---------------------------------------------------------------------

  /** MetricsDomain.detect_new_tables: the tables of the current aggregate,
      in its order, that the previous aggregate does not have. */
  function NewTables(previous: Aggregate, tables: seq<Value>): (r: seq<Value>)
    ensures forall tbl :: tbl in r <==> tbl in tables && tbl !in previous.vals
    ensures |r| <= |tables|
  {
    if tables == [] then []
    else if tables[0] !in previous.vals then [tables[0]] + NewTables(previous, tables[1..])
    else NewTables(previous, tables[1..])
  }

  function DetectNewTables(previous: Aggregate, current: Aggregate): seq<Value>
  {
    NewTables(previous, current.keys)
  }

  /** The list comprehension keeps current's order: one more current table
      appends that table exactly when the previous aggregate lacks it. */
  lemma {:induction false} NewTablesSnoc(previous: Aggregate, tables: seq<Value>, t: Value)
    ensures NewTables(previous, tables + [t]) == NewTables(previous, tables) + (if t !in previous.vals then [t] else [])
  {
    if tables == [] {
      assert [t][1..] == [];
    } else {
      assert (tables + [t])[1..] == tables[1..] + [t];
      NewTablesSnoc(previous, tables[1..], t);
    }
  }

  /** The new tables appear once each when the current tables do. */
  lemma {:induction false} NewTablesDistinct(previous: Aggregate, tables: seq<Value>)
    requires Distinct(tables)
    ensures Distinct(NewTables(previous, tables))
  {
    if tables != [] {
      assert Distinct(tables[1..]) by {
        forall i, j | 0 <= i < j < |tables| - 1 ensures tables[1..][i] != tables[1..][j] {
          assert tables[1..][i] == tables[i + 1] && tables[1..][j] == tables[j + 1];
        }
      }
      NewTablesDistinct(previous, tables[1..]);
      var r := NewTables(previous, tables);
      if tables[0] !in previous.vals {
        forall b | 0 < b < |r| ensures r[0] != r[b] {
          assert r[b] in tables[1..];
        }
      }
    }
  }

  /** An aggregate has no tables that are new with respect to itself. */
  lemma NoNewTablesInSelf(t: Aggregate)
    requires WellFormed(t)
    ensures DetectNewTables(t, t) == []
  {
    NoNewTablesAmong(t, t.keys);
  }

  lemma {:induction false} NoNewTablesAmong(previous: Aggregate, tables: seq<Value>)
    requires forall i :: 0 <= i < |tables| ==> tables[i] in previous.vals
    ensures NewTables(previous, tables) == []
  {
    if tables != [] {
      NoNewTablesAmong(previous, tables[1..]);
    }
  }

  /** MetricsDomain._normalize_number */
  function NormalizeNumber(v: Value): Value
  {
    match v
    case Null => Int(0)
    case List(items) => if items == [] then Int(0) else items[0]
    case Int(_) => v
    case Bool(_) => v
    case _ => Int(0)
  }

  /** Numbers are kept as they are; None, an empty list, a string and a dict
      become 0; a non-empty list becomes its first element, whatever that is. */
  lemma NormalizeNumberMeaning(v: Value)
    ensures NumberOf(v).Some? ==> NormalizeNumber(v) == v
    ensures v.Null? || v == List([]) || v.Str? || v.Obj? ==> NormalizeNumber(v) == Int(0)
    ensures v.List? && v.items != [] ==> NormalizeNumber(v) == v.items[0]
  {
  }

  /** `previous[tbl].get(k, 0) if tbl in previous else 0` */
  function OldValue(previous: Aggregate, tbl: Value, k: string): Value
  {
    if tbl in previous.vals then GetOr(previous.vals[tbl], k, Int(0)) else Int(0)
  }

  /** The delta of field k of table tbl. */
  function FieldDelta(previous: Aggregate, tbl: Value, isNew: bool, k: string, v: Value): Result<Value>
  {
    if isNew then Success(NormalizeNumber(v))
    else
      match Sub(NormalizeNumber(v), NormalizeNumber(OldValue(previous, tbl, k)))
      case None => Failure(TypeError)
      case Some(d) => Success(d)
  }

  /** For a new table the delta is the normalised current value; otherwise
      it is the normalised current value less the normalised previous one
      (0 when the previous aggregate lacks the table or the field), and it
      raises TypeError unless both are numbers. */
  lemma FieldDeltaMeaning(previous: Aggregate, tbl: Value, isNew: bool, k: string, v: Value)
    ensures isNew ==> FieldDelta(previous, tbl, isNew, k, v) == Success(NormalizeNumber(v))
    ensures !isNew ==>
      (FieldDelta(previous, tbl, isNew, k, v).Success? <==>
        NumberOf(NormalizeNumber(v)).Some? && NumberOf(NormalizeNumber(OldValue(previous, tbl, k))).Some?)
    ensures !isNew && FieldDelta(previous, tbl, isNew, k, v).Success? ==>
      FieldDelta(previous, tbl, isNew, k, v).value ==
        Int(NumberOf(NormalizeNumber(v)).value - NumberOf(NormalizeNumber(OldValue(previous, tbl, k))).value)
    ensures FieldDelta(previous, tbl, isNew, k, v).Failure? ==> FieldDelta(previous, tbl, isNew, k, v).error == TypeError
  {
  }

  function DeltaKey(k: string): string
  {
    k + "_delta"
  }

  /** The delta entry of table tbl after its first j fields. */
  function FieldDeltas(previous: Aggregate, tbl: Value, values: Row, isNew: bool, j: nat): Result<Row>
    requires j <= |values.keys| && WellFormed(values)
  {
    if j == 0 then Success(EmptyDict())
    else
      match FieldDeltas(previous, tbl, values, isNew, j - 1)
      case Failure(err) => Failure(err)
      case Success(d) =>
        var k := values.keys[j - 1];
        match FieldDelta(previous, tbl, isNew, k, values.vals[k])
        case Failure(err) => Failure(err)
        case Success(x) => Success(Put(d, DeltaKey(k), x))
  }

  /** The delta entry of table tbl. */
  function TableDelta(previous: Aggregate, tbl: Value, values: Row, isNew: bool): Result<Row>
    requires WellFormed(values)
  {
    match FieldDeltas(previous, tbl, values, isNew, |values.keys|)
    case Failure(err) => Failure(err)
    case Success(d) => Success(Put(d, "is_new_table", Bool(isNew)))
  }

  /** Every dict of an aggregate is well formed. */
  ghost predicate AggregateWellFormed(t: Aggregate)
  {
    WellFormed(t) && forall tbl :: tbl in t.vals ==> WellFormed(t.vals[tbl])
  }

  /** The aggregate built from the first i (table, entry) results, raising
      the first failure among them. */
  function Collect(entries: seq<(Value, Result<Row>)>, i: nat): Result<Aggregate>
    requires i <= |entries|
  {
    if i == 0 then Success(EmptyDict())
    else
      match Collect(entries, i - 1)
      case Failure(err) => Failure(err)
      case Success(t) =>
        match entries[i - 1].1
        case Failure(err) => Failure(err)
        case Success(d) => Success(Put(t, entries[i - 1].0, d))
  }

  /** Each of the first i tables of current with its delta entry, in order. */
  function TableResults(previous: Aggregate, current: Aggregate, newTables: seq<Value>, i: nat): (r: seq<(Value, Result<Row>)>)
    requires i <= |current.keys| && AggregateWellFormed(current)
    ensures |r| == i
  {
    if i == 0 then []
    else
      var tbl := current.keys[i - 1];
      TableResults(previous, current, newTables, i - 1) + [(tbl, TableDelta(previous, tbl, current.vals[tbl], tbl in newTables))]
  }

  lemma {:induction false} TableResultAt(previous: Aggregate, current: Aggregate, newTables: seq<Value>, i: nat, n: nat)
    requires n < i <= |current.keys| && AggregateWellFormed(current)
    ensures TableResults(previous, current, newTables, i)[n] ==
      (current.keys[n], TableDelta(previous, current.keys[n], current.vals[current.keys[n]], current.keys[n] in newTables))
  {
    if n < i - 1 {
      TableResultAt(previous, current, newTables, i - 1, n);
    }
  }

  function Deltas(previous: Aggregate, current: Aggregate, newTables: seq<Value>): Result<Aggregate>
    requires AggregateWellFormed(current)
  {
    Collect(TableResults(previous, current, newTables, |current.keys|), |current.keys|)
  }

  /** The body of calculate_deltas's loop for one table: the `_delta`
      fields, then `is_new_table`. */
  method TableDeltaEntry(previous: Aggregate, tbl: Value, values: Row, isNew: bool) returns (r: Result<Row>)
    requires WellFormed(values)
    ensures r == TableDelta(previous, tbl, values, isNew)
  {
    var d: Row := EmptyDict();
    for j := 0 to |values.keys|
      invariant FieldDeltas(previous, tbl, values, isNew, j) == Success(d)
    {
      var k := values.keys[j];
      var x := FieldDelta(previous, tbl, isNew, k, values.vals[k]);
      if x.Failure? {
        FieldDeltasSticks(previous, tbl, values, isNew, j + 1);
        return Failure(x.error);
      }
      d := Put(d, DeltaKey(k), x.value);
    }
    return Success(Put(d, "is_new_table", Bool(isNew)));
  }

  /** MetricsDomain.calculate_deltas */
  method CalculateDeltas(previous: Aggregate, current: Aggregate, newTables: seq<Value>) returns (r: Result<Aggregate>)
    requires AggregateWellFormed(current)
    ensures r == Deltas(previous, current, newTables)
  {
    ghost var results := TableResults(previous, current, newTables, |current.keys|);
    var deltas: Aggregate := EmptyDict();
    for i := 0 to |current.keys|
      invariant Collect(results, i) == Success(deltas)
    {
      var tbl := current.keys[i];
      TableResultAt(previous, current, newTables, |current.keys|, i);
      var d := TableDeltaEntry(previous, tbl, current.vals[tbl], tbl in newTables);
      if d.Failure? {
        CollectSticks(results, i + 1);
        return Failure(d.error);
      }
      deltas := Put(deltas, tbl, d.value);
    }
    return Success(deltas);
  }

  lemma {:induction false} FieldDeltasSticks(previous: Aggregate, tbl: Value, values: Row, isNew: bool, j: nat)
    requires j <= |values.keys| && WellFormed(values)
    requires FieldDeltas(previous, tbl, values, isNew, j).Failure?
    ensures TableDelta(previous, tbl, values, isNew) == FieldDeltas(previous, tbl, values, isNew, j)
    decreases |values.keys| - j
  {
    if j < |values.keys| {
      FieldDeltasSticks(previous, tbl, values, isNew, j + 1);
    }
  }

  lemma {:induction false} CollectSticks(entries: seq<(Value, Result<Row>)>, i: nat)
    requires i <= |entries| && Collect(entries, i).Failure?
    ensures Collect(entries, |entries|) == Collect(entries, i)
    decreases |entries| - i
  {
    if i < |entries| {
      CollectSticks(entries, i + 1);
    }
  }

  lemma DeltaKeyInjective(a: string, b: string)
    requires DeltaKey(a) == DeltaKey(b)
    ensures a == b
  {
    assert a == DeltaKey(a)[..|a|] && b == DeltaKey(b)[..|b|];
  }

  lemma DeltaKeyIsNotFlag(k: string)
    ensures DeltaKey(k) != "is_new_table"
  {
    assert DeltaKey(k)[|DeltaKey(k)| - 1] == 'a';
  }

  /** The delta entry built so far names the first j fields, each with the
      suffix `_delta`, in order. */
  lemma {:induction false} FieldDeltasShape(previous: Aggregate, tbl: Value, values: Row, isNew: bool, j: nat)
    requires j <= |values.keys| && WellFormed(values)
    requires FieldDeltas(previous, tbl, values, isNew, j).Success?
    ensures WellFormed(FieldDeltas(previous, tbl, values, isNew, j).value)
    ensures |FieldDeltas(previous, tbl, values, isNew, j).value.keys| == j
    ensures forall i :: 0 <= i < j ==> FieldDeltas(previous, tbl, values, isNew, j).value.keys[i] == DeltaKey(values.keys[i])
  {
    if j > 0 {
      FieldDeltasShape(previous, tbl, values, isNew, j - 1);
      var d := FieldDeltas(previous, tbl, values, isNew, j - 1).value;
      var k := values.keys[j - 1];
      assert DeltaKey(k) !in d.vals by {
        forall i | 0 <= i < j - 1 ensures d.keys[i] != DeltaKey(k) {
          if d.keys[i] == DeltaKey(k) {
            DeltaKeyInjective(values.keys[i], k);
            assert false;
          }
        }
      }
      PutWellFormed(d, DeltaKey(k), FieldDelta(previous, tbl, isNew, k, values.vals[k]).value);
    }
  }

  /** Field i of the row has, under its `_delta` key, the delta of its value. */
  lemma {:induction false} FieldDeltasValue(previous: Aggregate, tbl: Value, values: Row, isNew: bool, j: nat, i: nat)
    requires i < j <= |values.keys| && WellFormed(values)
    requires FieldDeltas(previous, tbl, values, isNew, j).Success?
    ensures FieldDelta(previous, tbl, isNew, values.keys[i], values.vals[values.keys[i]]).Success?
    ensures DeltaKey(values.keys[i]) in FieldDeltas(previous, tbl, values, isNew, j).value.vals
    ensures FieldDeltas(previous, tbl, values, isNew, j).value.vals[DeltaKey(values.keys[i])] ==
      FieldDelta(previous, tbl, isNew, values.keys[i], values.vals[values.keys[i]]).value
  {
    if i < j - 1 {
      FieldDeltasValue(previous, tbl, values, isNew, j - 1, i);
      if DeltaKey(values.keys[i]) == DeltaKey(values.keys[j - 1]) {
        DeltaKeyInjective(values.keys[i], values.keys[j - 1]);
      }
    }
  }

  /** The entry's fields are processed without raising exactly when each of
      their deltas can be computed. */
  lemma {:induction false} FieldDeltasRaises(previous: Aggregate, tbl: Value, values: Row, isNew: bool, j: nat)
    requires j <= |values.keys| && WellFormed(values)
    ensures FieldDeltas(previous, tbl, values, isNew, j).Success? <==>
      forall i :: 0 <= i < j ==> FieldDelta(previous, tbl, isNew, values.keys[i], values.vals[values.keys[i]]).Success?
    ensures FieldDeltas(previous, tbl, values, isNew, j).Failure? ==> FieldDeltas(previous, tbl, values, isNew, j).error == TypeError
  {
    if j > 0 {
      FieldDeltasRaises(previous, tbl, values, isNew, j - 1);
      var k := values.keys[j - 1];
      FieldDeltaMeaning(previous, tbl, isNew, k, values.vals[k]);
      if FieldDeltas(previous, tbl, values, isNew, j - 1).Failure? {
        assert FieldDeltas(previous, tbl, values, isNew, j) == FieldDeltas(previous, tbl, values, isNew, j - 1);
      } else if FieldDelta(previous, tbl, isNew, k, values.vals[k]).Failure? {
        assert FieldDeltas(previous, tbl, values, isNew, j) == Failure(TypeError);
      } else {
        assert FieldDeltas(previous, tbl, values, isNew, j).Success?;
      }
    }
  }

  /** A table's delta entry raises exactly when one of its fields' deltas
      cannot be computed; otherwise it holds one `_delta` field per field of
      the table, in order, then `is_new_table`. */
  lemma TableDeltaShape(previous: Aggregate, tbl: Value, values: Row, isNew: bool)
    requires WellFormed(values)
    ensures TableDelta(previous, tbl, values, isNew).Success? <==>
      forall i :: 0 <= i < |values.keys| ==> FieldDelta(previous, tbl, isNew, values.keys[i], values.vals[values.keys[i]]).Success?
    ensures TableDelta(previous, tbl, values, isNew).Failure? ==> TableDelta(previous, tbl, values, isNew).error == TypeError
    ensures TableDelta(previous, tbl, values, isNew).Success? ==>
      var d := TableDelta(previous, tbl, values, isNew).value;
      && WellFormed(d)
      && |d.keys| == |values.keys| + 1
      && (forall i :: 0 <= i < |values.keys| ==> d.keys[i] == DeltaKey(values.keys[i]))
      && d.keys[|values.keys|] == "is_new_table"
      && d.vals["is_new_table"] == Bool(isNew)
  {
    var n := |values.keys|;
    FieldDeltasRaises(previous, tbl, values, isNew, n);
    if FieldDeltas(previous, tbl, values, isNew, n).Success? {
      FieldDeltasShape(previous, tbl, values, isNew, n);
      var d := FieldDeltas(previous, tbl, values, isNew, n).value;
      assert "is_new_table" !in d.vals by {
        forall i | 0 <= i < n ensures d.keys[i] != "is_new_table" {
          DeltaKeyIsNotFlag(values.keys[i]);
        }
      }
      PutWellFormed(d, "is_new_table", Bool(isNew));
    }
  }

  lemma TableDeltaValue(previous: Aggregate, tbl: Value, values: Row, isNew: bool, i: nat)
    requires WellFormed(values) && i < |values.keys|
    requires TableDelta(previous, tbl, values, isNew).Success?
    ensures FieldDelta(previous, tbl, isNew, values.keys[i], values.vals[values.keys[i]]).Success?
    ensures DeltaKey(values.keys[i]) in TableDelta(previous, tbl, values, isNew).value.vals
    ensures TableDelta(previous, tbl, values, isNew).value.vals[DeltaKey(values.keys[i])] ==
      FieldDelta(previous, tbl, isNew, values.keys[i], values.vals[values.keys[i]]).value
  {
    FieldDeltasValue(previous, tbl, values, isNew, |values.keys|, i);
    DeltaKeyIsNotFlag(values.keys[i]);
  }

  predicate DistinctTables(entries: seq<(Value, Result<Row>)>)
  {
    forall a, b :: 0 <= a < b < |entries| ==> entries[a].0 != entries[b].0
  }

  /** The aggregate built so far holds the first i tables, in order. */
  lemma {:induction false} CollectShape(entries: seq<(Value, Result<Row>)>, i: nat)
    requires i <= |entries| && DistinctTables(entries) && Collect(entries, i).Success?
    ensures WellFormed(Collect(entries, i).value)
    ensures |Collect(entries, i).value.keys| == i
    ensures forall n :: 0 <= n < i ==> Collect(entries, i).value.keys[n] == entries[n].0
  {
    if i > 0 {
      CollectShape(entries, i - 1);
      var t := Collect(entries, i - 1).value;
      assert entries[i - 1].0 !in t.keys by {
        forall n | 0 <= n < i - 1 ensures t.keys[n] != entries[i - 1].0 {
          assert t.keys[n] == entries[n].0;
        }
      }
      PutWellFormed(t, entries[i - 1].0, entries[i - 1].1.value);
    }
  }

  lemma {:induction false} CollectValue(entries: seq<(Value, Result<Row>)>, i: nat, n: nat)
    requires n < i <= |entries| && DistinctTables(entries) && Collect(entries, i).Success?
    ensures entries[n].1.Success?
    ensures entries[n].0 in Collect(entries, i).value.vals
    ensures Collect(entries, i).value.vals[entries[n].0] == entries[n].1.value
  {
    if n < i - 1 {
      CollectValue(entries, i - 1, n);
      assert entries[n].0 != entries[i - 1].0;
    }
  }

  lemma {:induction false} CollectRaises(entries: seq<(Value, Result<Row>)>, i: nat)
    requires i <= |entries|
    ensures Collect(entries, i).Success? <==> forall n :: 0 <= n < i ==> entries[n].1.Success?
    ensures Collect(entries, i).Failure? ==> exists n :: 0 <= n < i && entries[n].1 == Failure(Collect(entries, i).error)
  {
    if i > 0 {
      CollectRaises(entries, i - 1);
    }
  }

  lemma TableResultsDistinct(previous: Aggregate, current: Aggregate, newTables: seq<Value>)
    requires AggregateWellFormed(current)
    ensures DistinctTables(TableResults(previous, current, newTables, |current.keys|))
  {
    var entries := TableResults(previous, current, newTables, |current.keys|);
    forall a, b | 0 <= a < b < |entries| ensures entries[a].0 != entries[b].0 {
      TableResultAt(previous, current, newTables, |current.keys|, a);
      TableResultAt(previous, current, newTables, |current.keys|, b);
    }
  }

  lemma DeltasValue(previous: Aggregate, current: Aggregate, newTables: seq<Value>, n: nat)
    requires AggregateWellFormed(current) && n < |current.keys|
    requires Deltas(previous, current, newTables).Success?
    ensures TableDelta(previous, current.keys[n], current.vals[current.keys[n]], current.keys[n] in newTables).Success?
    ensures current.keys[n] in Deltas(previous, current, newTables).value.vals
    ensures Deltas(previous, current, newTables).value.vals[current.keys[n]] ==
      TableDelta(previous, current.keys[n], current.vals[current.keys[n]], current.keys[n] in newTables).value
  {
    var entries := TableResults(previous, current, newTables, |current.keys|);
    TableResultsDistinct(previous, current, newTables);
    CollectValue(entries, |entries|, n);
    TableResultAt(previous, current, newTables, |current.keys|, n);
  }

  /** calculate_deltas raises TypeError exactly when a table outside
      newTables has a field whose current or previous value does not
      normalise to a number. */
  lemma DeltasRaise(previous: Aggregate, current: Aggregate, newTables: seq<Value>)
    requires AggregateWellFormed(current)
    ensures Deltas(previous, current, newTables).Success? <==>
      forall tbl, k :: tbl in current.vals && tbl !in newTables && k in current.vals[tbl].vals ==>
        FieldDelta(previous, tbl, false, k, current.vals[tbl].vals[k]).Success?
    ensures Deltas(previous, current, newTables).Failure? ==> Deltas(previous, current, newTables).error == TypeError
  {
    var entries := TableResults(previous, current, newTables, |current.keys|);
    var n := |current.keys|;
    CollectRaises(entries, n);
    if Deltas(previous, current, newTables).Success? {
      forall tbl, k | tbl in current.vals && tbl !in newTables && k in current.vals[tbl].vals
        ensures FieldDelta(previous, tbl, false, k, current.vals[tbl].vals[k]).Success?
      {
        var x :| 0 <= x < n && current.keys[x] == tbl;
        var values := current.vals[tbl];
        var y :| 0 <= y < |values.keys| && values.keys[y] == k;
        TableResultAt(previous, current, newTables, |current.keys|, x);
        TableDeltaShape(previous, tbl, values, false);
      }
    } else {
      var x :| 0 <= x < n && entries[x].1 == Failure(Deltas(previous, current, newTables).error);
      var tbl := current.keys[x];
      var values := current.vals[tbl];
      TableResultAt(previous, current, newTables, |current.keys|, x);
      TableDeltaShape(previous, tbl, values, tbl in newTables);
      var y :| 0 <= y < |values.keys| && FieldDelta(previous, tbl, tbl in newTables, values.keys[y], values.vals[values.keys[y]]).Failure?;
      FieldDeltaMeaning(previous, tbl, tbl in newTables, values.keys[y], values.vals[values.keys[y]]);
      assert tbl in current.vals && values.keys[y] in values.vals;
    }
  }

  /** Otherwise the deltas have the tables of current, in order. */
  lemma DeltasShape(previous: Aggregate, current: Aggregate, newTables: seq<Value>)
    requires AggregateWellFormed(current) && Deltas(previous, current, newTables).Success?
    ensures WellFormed(Deltas(previous, current, newTables).value)
    ensures Deltas(previous, current, newTables).value.keys == current.keys
  {
    var entries := TableResults(previous, current, newTables, |current.keys|);
    TableResultsDistinct(previous, current, newTables);
    CollectShape(entries, |entries|);
    forall n | 0 <= n < |entries| ensures entries[n].0 == current.keys[n] {
      TableResultAt(previous, current, newTables, |entries|, n);
    }
  }


  /** A new table never raises: each of its deltas is its normalised current
      value, and its flag is True. */
  lemma NewTableDelta(previous: Aggregate, tbl: Value, values: Row, i: nat)
    requires WellFormed(values) && i < |values.keys|
    ensures TableDelta(previous, tbl, values, true).Success?
    ensures DeltaKey(values.keys[i]) in TableDelta(previous, tbl, values, true).value.vals
    ensures "is_new_table" in TableDelta(previous, tbl, values, true).value.vals
    ensures TableDelta(previous, tbl, values, true).value.vals[DeltaKey(values.keys[i])] == NormalizeNumber(values.vals[values.keys[i]])
    ensures TableDelta(previous, tbl, values, true).value.vals["is_new_table"] == Bool(true)
  {
    TableDeltaShape(previous, tbl, values, true);
    TableDeltaValue(previous, tbl, values, true, i);
  }

  /** The flag of every table is True exactly when the previous aggregate
      does not have it, when newTables comes from detect_new_tables. */
  lemma DeltaFlag(previous: Aggregate, current: Aggregate, n: nat)
    requires AggregateWellFormed(current) && n < |current.keys|
    requires Deltas(previous, current, DetectNewTables(previous, current)).Success?
    ensures current.keys[n] in Deltas(previous, current, DetectNewTables(previous, current)).value.vals
    ensures "is_new_table" in Deltas(previous, current, DetectNewTables(previous, current)).value.vals[current.keys[n]].vals
    ensures Deltas(previous, current, DetectNewTables(previous, current)).value.vals[current.keys[n]].vals["is_new_table"] ==
      Bool(current.keys[n] !in previous.vals)
  {
    var tbl := current.keys[n];
    var newTables := DetectNewTables(previous, current);
    DeltasValue(previous, current, newTables, n);
    TableDeltaShape(previous, tbl, current.vals[tbl], tbl in newTables);
  }

  /** Comparing an aggregate with itself yields a zero delta for every field
      whose value normalises to a number. */
  lemma UnchangedFieldDelta(t: Aggregate, tbl: Value, k: string)
    requires tbl in t.vals && k in t.vals[tbl].vals
    requires NumberOf(NormalizeNumber(t.vals[tbl].vals[k])).Some?
    ensures FieldDelta(t, tbl, false, k, t.vals[tbl].vals[k]) == Success(Int(0))
  {
    assert OldValue(t, tbl, k) == t.vals[tbl].vals[k];
  }

  /** A snapshot compared with itself shows no change: every table is old
      and every delta is 0, provided every value normalises to a number. */
  lemma SelfDeltasAreZero(t: Aggregate, n: nat, i: nat)
    requires AggregateWellFormed(t) && n < |t.keys| && i < |t.vals[t.keys[n]].keys|
    requires forall tbl, k :: tbl in t.vals && k in t.vals[tbl].vals ==> NumberOf(NormalizeNumber(t.vals[tbl].vals[k])).Some?
    ensures Deltas(t, t, DetectNewTables(t, t)).Success?
    ensures t.keys[n] in Deltas(t, t, DetectNewTables(t, t)).value.vals
    ensures "is_new_table" in Deltas(t, t, DetectNewTables(t, t)).value.vals[t.keys[n]].vals
    ensures DeltaKey(t.vals[t.keys[n]].keys[i]) in Deltas(t, t, DetectNewTables(t, t)).value.vals[t.keys[n]].vals
    ensures Deltas(t, t, DetectNewTables(t, t)).value.vals[t.keys[n]].vals["is_new_table"] == Bool(false)
    ensures Deltas(t, t, DetectNewTables(t, t)).value.vals[t.keys[n]].vals[DeltaKey(t.vals[t.keys[n]].keys[i])] == Int(0)
  {
    NoNewTablesInSelf(t);
    var newTables := DetectNewTables(t, t);
    forall tbl, k | tbl in t.vals && tbl !in newTables && k in t.vals[tbl].vals
      ensures FieldDelta(t, tbl, false, k, t.vals[tbl].vals[k]).Success?
    {
      UnchangedFieldDelta(t, tbl, k);
    }
    DeltasRaise(t, t, newTables);
    var tbl := t.keys[n];
    var values := t.vals[tbl];
    DeltasValue(t, t, newTables, n);
    TableDeltaShape(t, tbl, values, false);
    TableDeltaValue(t, tbl, values, false, i);
    UnchangedFieldDelta(t, tbl, values.keys[i]);
  }

  /** A frequent entry's fourth and last field is `queries`, always `[]`. */
  lemma FrequentEntryQueries(e: Row, qs: seq<Row>, tbl: Value)
    requires EntryOf(e, qs, tbl, FrequentLayout())
    ensures |e.keys| == 4 && e.keys[3] == "queries"
    ensures "queries" in e.vals && e.vals["queries"] == List([])
  {
    var layout := FrequentLayout();
    assert |Firsts(layout.summed)| == 3;
    assert Firsts(layout.extra)[0] == "queries";
    assert layout.extra[0] == ("queries", List([]));
  }

  /** Every frequent entry carries `"queries": []`, which normalises to 0:
      between two frequent groupings the `queries_delta` of every table is
      0, whether the table is new or not. */
  lemma FrequentQueriesDeltaZero(previous: Aggregate, ps: seq<Row>, current: Aggregate, qs: seq<Row>, n: nat)
    requires GroupOf(previous, ps, FrequentLayout()) && GroupOf(current, qs, FrequentLayout())
    requires n < |current.keys|
    requires Deltas(previous, current, DetectNewTables(previous, current)).Success?
    ensures current.keys[n] in Deltas(previous, current, DetectNewTables(previous, current)).value.vals
    ensures "queries_delta" in Deltas(previous, current, DetectNewTables(previous, current)).value.vals[current.keys[n]].vals
    ensures Deltas(previous, current, DetectNewTables(previous, current)).value.vals[current.keys[n]].vals["queries_delta"] == Int(0)
  {
    GroupOfWellFormed(current, qs, FrequentLayout());
    var newTables := DetectNewTables(previous, current);
    var tbl := current.keys[n];
    var values := current.vals[tbl];
    FrequentEntryQueries(values, qs, tbl);
    DeltasValue(previous, current, newTables, n);
    TableDeltaValue(previous, tbl, values, tbl in newTables, 3);
    if tbl !in newTables {
      assert tbl in previous.vals;
    }
    QueriesDeltaZero(previous, ps, tbl, tbl in newTables);
  }

  lemma QueriesDeltaZero(previous: Aggregate, ps: seq<Row>, tbl: Value, isNew: bool)
    requires !isNew ==> tbl in previous.vals && EntryOf(previous.vals[tbl], ps, tbl, FrequentLayout())
    ensures DeltaKey("queries") == "queries_delta"
    ensures FieldDelta(previous, tbl, isNew, "queries", List([])) == Success(Int(0))
  {
    assert NormalizeNumber(List([])) == Int(0);
    if !isNew {
      FrequentEntryQueries(previous.vals[tbl], ps, tbl);
      assert OldValue(previous, tbl, "queries") == List([]);
    }
  }

  /** MetricsDomain.build_snapshot: the snapshot time with both groupings. */
  datatype Snapshot = Snapshot(snapshot: string, heavy: Aggregate, frequent: Aggregate)
}
