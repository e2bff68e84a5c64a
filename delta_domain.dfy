/** DeltaDomain: per-query deltas across a history of stored snapshots. The
    snapshots are sorted by time, then every heavy and frequent query row is
    compared with the most recent earlier row of the same query, through one
    `previous_by_query` dict shared by all lists of all snapshots. */
module DeltaDomain {
  import opened PyValues

  /** DeltaDomain.METRICS, in declaration order. */
  const Metrics: seq<string> := ["execution_count", "cpu_time_total", "duration_total",
                                 "logical_reads_total", "logical_writes_total", "physical_reads_total"]

  // ---------------------------------------------------------------------
  // sorted(records, key=lambda r: r["snapshot_time"])
  // ---------------------------------------------------------------------

  /** A sort key Python can order: strings compare with strings, numbers
      (int and bool) with numbers. */
  datatype TimeKey = Text(s: string) | Number(n: int)

  function TimeKeyOf(v: Value): Option<TimeKey>
  {
    match v
    case Str(s) => Some(Text(s))
    case _ => if NumberOf(v).Some? then Some(Number(NumberOf(v).value)) else None
  }

  /** Python's `<` on strings: code point by code point, a proper prefix
      first. */
  predicate LexLess(a: string, b: string)
  {
    if a == [] then b != []
    else if b == [] then false
    else if a[0] == b[0] then LexLess(a[1..], b[1..])
    else a[0] < b[0]
  }

  predicate Earlier(a: TimeKey, b: TimeKey)
  {
    (a.Text? && b.Text? && LexLess(a.s, b.s)) || (a.Number? && b.Number? && a.n < b.n)
  }

  lemma {:induction false} LexLessIrreflexive(a: string)
    ensures !LexLess(a, a)
  {
    if a != [] {
      LexLessIrreflexive(a[1..]);
    }
  }

  lemma {:induction false} LexLessTransitive(a: string, b: string, c: string)
    requires LexLess(a, b) && LexLess(b, c)
    ensures LexLess(a, c)
  {
    if a != [] && b != [] && c != [] && a[0] == b[0] && b[0] == c[0] {
      LexLessTransitive(a[1..], b[1..], c[1..]);
    }
  }

  lemma {:induction false} LexLessTotal(a: string, b: string)
    ensures a == b || LexLess(a, b) || LexLess(b, a)
  {
    if a != [] && b != [] && a[0] == b[0] {
      LexLessTotal(a[1..], b[1..]);
      if a[1..] == b[1..] {
        assert a == [a[0]] + a[1..] && b == [b[0]] + b[1..];
      }
    }
  }

  /** Earlier is a strict order: irreflexive and transitive, and total
      between keys of one kind. */
  lemma EarlierIsStrictOrder(a: TimeKey, b: TimeKey, c: TimeKey)
    ensures !Earlier(a, a)
    ensures Earlier(a, b) && Earlier(b, c) ==> Earlier(a, c)
    ensures a.Text? == b.Text? ==> a == b || Earlier(a, b) || Earlier(b, a)
  {
    if a.Text? {
      LexLessIrreflexive(a.s);
      if b.Text? {
        LexLessTotal(a.s, b.s);
        if c.Text? && LexLess(a.s, b.s) && LexLess(b.s, c.s) {
          LexLessTransitive(a.s, b.s, c.s);
        }
      }
    }
  }

  // The sort is generic in the element type and takes its key function, as
  // `sorted(..., key=...)` does; SortRecords instantiates it with KeyOf.

  /** Inserts p after every element that is not later than it. */
  function Insert<T(==)>(key: T -> TimeKey, p: T, s: seq<T>): seq<T>
  {
    if s == [] then [p]
    else if Earlier(key(p), key(s[0])) then [p] + s
    else [s[0]] + Insert(key, p, s[1..])
  }

  /** A stable sort by key (insertion sort). */
  function SortByTime<T(==)>(key: T -> TimeKey, s: seq<T>): seq<T>
    decreases |s|
  {
    if s == [] then [] else Insert(key, s[|s| - 1], SortByTime(key, s[..|s| - 1]))
  }

  /** No element of s is earlier than x. */
  predicate NotBefore<T(==)>(key: T -> TimeKey, x: T, s: seq<T>)
  {
    forall j :: 0 <= j < |s| ==> !Earlier(key(s[j]), key(x))
  }

  /** Ordered by key: every element is not earlier than the one before it
      (stated head first; SortedPairwise gives the pairwise form). */
  predicate SortedByTime<T(==)>(key: T -> TimeKey, s: seq<T>)
  {
    s == [] || (NotBefore(key, s[0], s[1..]) && SortedByTime(key, s[1..]))
  }

  lemma {:induction false} SortedPairwise<T>(key: T -> TimeKey, s: seq<T>)
    requires SortedByTime(key, s)
    ensures forall i, j :: 0 <= i < j < |s| ==> !Earlier(key(s[j]), key(s[i]))
  {
    if s != [] {
      SortedPairwise(key, s[1..]);
      forall i, j | 0 <= i < j < |s| ensures !Earlier(key(s[j]), key(s[i])) {
        assert s[j] == s[1..][j - 1];
        if i > 0 {
          assert s[i] == s[1..][i - 1];
        }
      }
    }
  }

  /** The elements of s with key k, in order. */
  function WithKey<T(==)>(key: T -> TimeKey, s: seq<T>, k: TimeKey): seq<T>
  {
    if s == [] then [] else (if key(s[0]) == k then [s[0]] else []) + WithKey(key, s[1..], k)
  }

  lemma {:induction false} WithKeyAppend<T>(key: T -> TimeKey, a: seq<T>, b: seq<T>, k: TimeKey)
    ensures WithKey(key, a + b, k) == WithKey(key, a, k) + WithKey(key, b, k)
  {
    if a != [] {
      var h := if key(a[0]) == k then [a[0]] else [];
      assert (a + b)[0] == a[0] && (a + b)[1..] == a[1..] + b;
      WithKeyAppend(key, a[1..], b, k);
      assert WithKey(key, a + b, k) == h + (WithKey(key, a[1..], k) + WithKey(key, b, k));
      assert h + (WithKey(key, a[1..], k) + WithKey(key, b, k)) == (h + WithKey(key, a[1..], k)) + WithKey(key, b, k);
    } else {
      assert a + b == b;
    }
  }

  lemma {:induction false} InsertPermutes<T>(key: T -> TimeKey, p: T, s: seq<T>)
    ensures multiset(Insert(key, p, s)) == multiset(s) + multiset{p}
  {
    if s != [] && !Earlier(key(p), key(s[0])) {
      InsertPermutes(key, p, s[1..]);
      assert s == [s[0]] + s[1..];
    }
  }

  lemma {:induction false} InsertSorted<T>(key: T -> TimeKey, p: T, s: seq<T>)
    requires SortedByTime(key, s)
    ensures SortedByTime(key, Insert(key, p, s))
  {
    if s == [] {
      assert SortedByTime(key, [p][1..]);
    } else if Earlier(key(p), key(s[0])) {
      var r := [p] + s;
      assert r[1..] == s;
      forall j | 0 <= j < |s| ensures !Earlier(key(s[j]), key(p)) {
        EarlierIsStrictOrder(key(s[j]), key(p), key(s[0]));
        if j > 0 {
          assert !Earlier(key(s[1..][j - 1]), key(s[0]));
        }
      }
    } else {
      var rest := Insert(key, p, s[1..]);
      InsertSorted(key, p, s[1..]);
      InsertPermutes(key, p, s[1..]);
      var r := [s[0]] + rest;
      assert r[1..] == rest;
      forall j | 0 <= j < |rest| ensures !Earlier(key(rest[j]), key(s[0])) {
        assert rest[j] in multiset(rest);
        if rest[j] != p {
          assert rest[j] in multiset(s[1..]);
          var x :| 0 <= x < |s| - 1 && s[1..][x] == rest[j];
        }
      }
    }
  }

  lemma {:induction false} InsertWithKey<T>(key: T -> TimeKey, p: T, s: seq<T>, k: TimeKey)
    requires SortedByTime(key, s)
    ensures WithKey(key, Insert(key, p, s), k) == WithKey(key, s, k) + (if key(p) == k then [p] else [])
  {
    if s == [] {
      assert [p][1..] == [];
    } else if Earlier(key(p), key(s[0])) {
      assert ([p] + s)[1..] == s;
      if key(p) == k {
        NoneWithEarlierKey(key, p, s);
      }
    } else {
      InsertWithKey(key, p, s[1..], k);
      assert ([s[0]] + Insert(key, p, s[1..]))[1..] == Insert(key, p, s[1..]);
    }
  }

  /** A key earlier than the head of a sorted sequence occurs nowhere in it. */
  lemma NoneWithEarlierKey<T>(key: T -> TimeKey, p: T, s: seq<T>)
    requires SortedByTime(key, s) && s != [] && Earlier(key(p), key(s[0]))
    ensures WithKey(key, s, key(p)) == []
  {
    EarlierIsStrictOrder(key(p), key(p), key(p));
    forall i | 0 <= i < |s| ensures key(s[i]) != key(p) {
      if i > 0 {
        assert !Earlier(key(s[1..][i - 1]), key(s[0]));
      }
    }
    WithKeyAbsent(key, s, key(p));
  }

  lemma {:induction false} WithKeyAbsent<T>(key: T -> TimeKey, s: seq<T>, k: TimeKey)
    requires forall i :: 0 <= i < |s| ==> key(s[i]) != k
    ensures WithKey(key, s, k) == []
  {
    if s != [] {
      WithKeyAbsent(key, s[1..], k);
    }
  }

  lemma {:induction false} SortByTimeSorted<T>(key: T -> TimeKey, s: seq<T>)
    ensures SortedByTime(key, SortByTime(key, s))
    ensures multiset(SortByTime(key, s)) == multiset(s)
    decreases |s|
  {
    if s != [] {
      var init, last := s[..|s| - 1], s[|s| - 1];
      assert s == init + [last];
      SortByTimeSorted(key, init);
      InsertSorted(key, last, SortByTime(key, init));
      InsertPermutes(key, last, SortByTime(key, init));
    }
  }

  lemma {:induction false} SortByTimeWithKey<T>(key: T -> TimeKey, s: seq<T>, k: TimeKey)
    ensures WithKey(key, SortByTime(key, s), k) == WithKey(key, s, k)
    decreases |s|
  {
    if s != [] {
      var init, last := s[..|s| - 1], s[|s| - 1];
      assert s == init + [last];
      SortByTimeWithKey(key, init, k);
      SortByTimeSorted(key, init);
      InsertWithKey(key, last, SortByTime(key, init), k);
      WithKeyAppend(key, init, [last], k);
      assert [last][1..] == [];
    }
  }

  /** sorted() with a key: the result is ordered by key, is a permutation of
      the input, and keeps the input order among records with equal keys. */
  lemma SortByTimeMeaning<T>(key: T -> TimeKey, s: seq<T>)
    ensures forall i, j :: 0 <= i < j < |SortByTime(key, s)| ==> !Earlier(key(SortByTime(key, s)[j]), key(SortByTime(key, s)[i]))
    ensures multiset(SortByTime(key, s)) == multiset(s)
    ensures forall k :: WithKey(key, SortByTime(key, s), k) == WithKey(key, s, k)
  {
    SortByTimeSorted(key, s);
    SortedPairwise(key, SortByTime(key, s));
    forall k ensures WithKey(key, SortByTime(key, s), k) == WithKey(key, s, k) {
      SortByTimeWithKey(key, s, k);
    }
  }

  /** The sort key of a record: its `snapshot_time` (Number(0) stands in
      where the record has none or one Python cannot order; SortRecords
      raises before sorting such records). */
  function KeyOf(r: Row): TimeKey
  {
    match TimeKeyOf(GetOr(r, "snapshot_time", Null))
    case Some(k) => k
    case None => Number(0)
  }

  predicate HasTime(r: Row)
  {
    "snapshot_time" in r.vals
  }

  /** Every record's time is a string, or every record's time is a number:
      the only case in which Python's `<` orders all of them. */
  predicate OneKind(records: seq<Row>)
  {
    (forall i :: 0 <= i < |records| ==> GetOr(records[i], "snapshot_time", Null).Str?) ||
    (forall i :: 0 <= i < |records| ==> NumberOf(GetOr(records[i], "snapshot_time", Null)).Some?)
  }

  /** `sorted(records, key=lambda r: r["snapshot_time"])`: every key is
      looked up first (KeyError), then two or more records are compared
      (TypeError unless their times are of one orderable kind). */
  function SortRecords(records: seq<Row>): Result<seq<Row>>
  {
    if exists i :: 0 <= i < |records| && !HasTime(records[i]) then Failure(KeyError)
    else if |records| >= 2 && !OneKind(records) then Failure(TypeError)
    else Success(SortByTime(KeyOf, records))
  }

  /** On records of one kind KeyOf is the time itself, so the order sorted by
      is Python's own order on those times. */
  lemma KeyOfOneKind(records: seq<Row>, i: nat)
    requires OneKind(records) && i < |records|
    ensures var t := GetOr(records[i], "snapshot_time", Null);
            (t.Str? ==> KeyOf(records[i]) == Text(t.s)) &&
            (NumberOf(t).Some? ==> KeyOf(records[i]) == Number(NumberOf(t).value))
  {
  }

  lemma SortRecordsMeaning(records: seq<Row>)
    ensures SortRecords(records).Failure? <==>
              (exists i :: 0 <= i < |records| && !HasTime(records[i])) || (|records| >= 2 && !OneKind(records))
    ensures SortRecords(records).Failure? ==> SortRecords(records).error in {KeyError, TypeError}
    ensures SortRecords(records).Success? ==>
              var sorted := SortRecords(records).value;
              (forall i, j :: 0 <= i < j < |sorted| ==> !Earlier(KeyOf(sorted[j]), KeyOf(sorted[i]))) &&
              multiset(sorted) == multiset(records) &&
              (forall k :: WithKey(KeyOf, sorted, k) == WithKey(KeyOf, records, k))
  {
    SortByTimeMeaning(KeyOf, records);
  }

  // ---------------------------------------------------------------------
  // _build_uid and _calculate_delta
  // ---------------------------------------------------------------------

  /** `f"{item.get('main_table','none')}::{item.get('query_text','').strip()}"`;
      `.strip()` on anything but a string raises AttributeError. */
  function BuildUid(item: Row): Result<string>
  {
    match GetOr(item, "query_text", Str(""))
    case Str(t) => Success(Show(GetOr(item, "main_table", Str("none"))) + "::" + Strip(t))
    case _ => Failure(AttributeError)
  }

  lemma BuildUidMeaning(item: Row)
    ensures BuildUid(item).Success? <==> GetOr(item, "query_text", Str("")).Str?
    ensures BuildUid(item).Failure? ==> BuildUid(item).error == AttributeError
    ensures "main_table" !in item.vals && "query_text" !in item.vals ==> BuildUid(item) == Success("none::")
  {
    assert Strip("") == "";
    assert Show(Str("none")) == "none";
    assert "none" + "::" + "" == "none::";
  }

  /** Query texts that differ only in surrounding whitespace give one uid. */
  lemma UidIgnoresPadding(item: Row, t: string, a: string, b: string)
    requires AllSpace(a) && AllSpace(b)
    ensures BuildUid(Put(item, "query_text", Str(a + t + b))) == BuildUid(Put(item, "query_text", Str(t)))
  {
    StripIgnoresPadding(t, a, b);
  }

  /** `current.get(m, 0) - previous.get(m, 0)`, None where that raises. */
  function MetricDelta(current: Row, previous: Row, m: string): Value
  {
    match Sub(GetOr(current, m, Int(0)), GetOr(previous, m, Int(0)))
    case Some(d) => d
    case None => Null
  }

  /** `_calculate_delta`: all None against no (or an empty) previous row. */
  function CalculateDelta(current: Row, previous: Option<Row>): Dict<string, Value>
  {
    if previous.None? || !Truthy(Obj(previous.value)) then Dict(Metrics, map m | m in Metrics :: Null)
    else Dict(Metrics, map m | m in Metrics :: MetricDelta(current, previous.value, m))
  }

  lemma CalculateDeltaMeaning(current: Row, previous: Option<Row>, m: string)
    ensures WellFormed(CalculateDelta(current, previous))
    ensures CalculateDelta(current, previous).keys == Metrics
    ensures m in Metrics ==> m in CalculateDelta(current, previous).vals
    ensures m in Metrics && (previous.None? || previous.value.vals == map[]) ==>
              CalculateDelta(current, previous).vals[m] == Null
    ensures m in Metrics && previous.Some? && previous.value.vals != map[] ==>
              var c, p := GetOr(current, m, Int(0)), GetOr(previous.value, m, Int(0));
              CalculateDelta(current, previous).vals[m] ==
                if NumberOf(c).Some? && NumberOf(p).Some? then Int(NumberOf(c).value - NumberOf(p).value) else Null
  {
  }

  /** `{**item, "delta": delta}`. */
  function WithDelta(item: Row, previous: Option<Row>): Row
  {
    Put(item, "delta", Obj(CalculateDelta(item, previous)))
  }

  // ---------------------------------------------------------------------
  // _process_list
  // ---------------------------------------------------------------------

  /** `for item in items` over what `snapshot.get(...)` returned: a list of
      dicts gives its rows; iterating a string or dict yields strings, whose
      `.get` raises AttributeError, unless it is empty; None and numbers are
      not iterable (TypeError). */
  function ItemsOf(v: Value): Result<seq<Row>>
  {
    match v
    case List(xs) => (match RowsOf(xs) case Some(rows) => Success(rows) case None => Failure(AttributeError))
    case Str(t) => if t == "" then Success([]) else Failure(AttributeError)
    case Obj(d) => if d.keys == [] then Success([]) else Failure(AttributeError)
    case _ => Failure(TypeError)
  }

  function RowsOf(xs: seq<Value>): Option<seq<Row>>
  {
    if xs == [] then Some([])
    else if !xs[0].Obj? then None
    else match RowsOf(xs[1..])
      case Some(rest) => Some([xs[0].fields] + rest)
      case None => None
  }

  lemma {:induction false} RowsOfMeaning(xs: seq<Value>)
    ensures RowsOf(xs).Some? <==> forall i :: 0 <= i < |xs| ==> xs[i].Obj?
    ensures RowsOf(xs).Some? ==>
              |RowsOf(xs).value| == |xs| && (forall i :: 0 <= i < |xs| ==> RowsOf(xs).value[i] == xs[i].fields)
  {
    if xs != [] {
      RowsOfMeaning(xs[1..]);
      if xs[0].Obj? && RowsOf(xs[1..]).Some? {
        var r := RowsOf(xs).value;
        forall i | 0 <= i < |xs| ensures r[i] == xs[i].fields {
          if i > 0 {
            assert r[i] == RowsOf(xs[1..]).value[i - 1];
          }
        }
      } else if xs[0].Obj? {
        var i :| 0 <= i < |xs[1..]| && !xs[1..][i].Obj?;
        assert !xs[i + 1].Obj?;
      }
    }
  }

  lemma ItemsOfMeaning(v: Value)
    ensures ItemsOf(v).Success? <==>
              (v.List? && forall i :: 0 <= i < |v.items| ==> v.items[i].Obj?) || v == Str("") ||
              (v.Obj? && v.fields.keys == [])
    ensures v.Null? || v.Int? || v.Bool? ==> ItemsOf(v) == Failure(TypeError)
    ensures ItemsOf(v).Failure? ==> ItemsOf(v).error in {TypeError, AttributeError}
    ensures v.List? && ItemsOf(v).Success? ==>
              |ItemsOf(v).value| == |v.items| && (forall i :: 0 <= i < |v.items| ==> ItemsOf(v).value[i] == v.items[i].fields)
    ensures !v.List? && ItemsOf(v).Success? ==> ItemsOf(v).value == []
  {
    if v.List? {
      RowsOfMeaning(v.items);
    }
  }

  /** What `_process_list` has produced after some items, and the state of
      `previous_by_query`. */
  datatype Pass = Pass(processed: seq<Row>, latest: map<string, Row>)

  /** The loop of `_process_list` over the first n items, for a uid function
      and a way of attaching the delta against the previous row of the same
      uid; ListDeltas instantiates it with BuildUid and WithDelta. */
  function Scan(uidOf: Row -> Result<string>, attach: (Row, Option<Row>) -> Row,
                items: seq<Row>, memory: map<string, Row>, n: nat): Result<Pass>
    requires n <= |items|
  {
    if n == 0 then Success(Pass([], memory))
    else match Scan(uidOf, attach, items, memory, n - 1)
      case Failure(e) => Failure(e)
      case Success(p) =>
        match uidOf(items[n - 1])
        case Failure(e) => Failure(e)
        case Success(uid) =>
          var previous := if uid in p.latest then Some(p.latest[uid]) else None;
          Success(Pass(p.processed + [attach(items[n - 1], previous)], p.latest[uid := items[n - 1]]))
  }

  /** What `_process_list(items, previous_by_query)` returns, with the new
      state of the dict. */
  function ListDeltas(items: Value, memory: map<string, Row>): Result<Pass>
  {
    match ItemsOf(items)
    case Failure(e) => Failure(e)
    case Success(rows) => Scan(BuildUid, WithDelta, rows, memory, |rows|)
  }

  lemma {:induction false} ScanSticks(uidOf: Row -> Result<string>, attach: (Row, Option<Row>) -> Row,
                                      items: seq<Row>, memory: map<string, Row>, n: nat, m: nat)
    requires n <= m <= |items| && Scan(uidOf, attach, items, memory, n).Failure?
    ensures Scan(uidOf, attach, items, memory, m) == Failure(Scan(uidOf, attach, items, memory, n).error)
    decreases m
  {
    if n < m {
      ScanSticks(uidOf, attach, items, memory, n, m - 1);
    }
  }

  /** The last of `seen` whose uid is uid. */
  function Latest(uidOf: Row -> Result<string>, seen: seq<Row>, uid: string): Option<Row>
  {
    if seen == [] then None
    else if uidOf(seen[|seen| - 1]) == Success(uid) then Some(seen[|seen| - 1])
    else Latest(uidOf, seen[..|seen| - 1], uid)
  }

  /** memory holds, for every uid, the last row of seen with that uid. */
  ghost predicate Remembers(uidOf: Row -> Result<string>, memory: map<string, Row>, seen: seq<Row>)
  {
    forall uid :: (uid in memory <==> Latest(uidOf, seen, uid).Some?) &&
                  (uid in memory ==> memory[uid] == Latest(uidOf, seen, uid).value)
  }

  /** `previous_by_query = {}` before any row is seen. */
  lemma RemembersNothing(uidOf: Row -> Result<string>)
    ensures Remembers(uidOf, map[], [])
  {
  }

  /** One more row seen: the memory now remembers it as the latest of its
      uid. */
  lemma RemembersStep(uidOf: Row -> Result<string>, memory: map<string, Row>, seen: seq<Row>, item: Row, uid: string)
    requires Remembers(uidOf, memory, seen) && uidOf(item) == Success(uid)
    ensures Remembers(uidOf, memory[uid := item], seen + [item])
  {
    var s := seen + [item];
    assert s[..|s| - 1] == seen;
  }

  lemma {:induction false} ScanState(uidOf: Row -> Result<string>, attach: (Row, Option<Row>) -> Row,
                                     items: seq<Row>, memory: map<string, Row>, seen: seq<Row>, n: nat)
    requires n <= |items| && Remembers(uidOf, memory, seen) && Scan(uidOf, attach, items, memory, n).Success?
    ensures |Scan(uidOf, attach, items, memory, n).value.processed| == n
    ensures Remembers(uidOf, Scan(uidOf, attach, items, memory, n).value.latest, seen + items[..n])
  {
    if n > 0 {
      ScanState(uidOf, attach, items, memory, seen, n - 1);
      var p := Scan(uidOf, attach, items, memory, n - 1).value;
      var uid := uidOf(items[n - 1]).value;
      RemembersStep(uidOf, p.latest, seen + items[..n - 1], items[n - 1], uid);
      assert seen + items[..n - 1] + [items[n - 1]] == seen + items[..n];
    } else {
      assert seen + items[..0] == seen;
    }
  }

  /** The i-th processed item carries its delta against the latest earlier
      row of its uid: in seen, or earlier in this list. */
  lemma {:induction false} ScanAt(uidOf: Row -> Result<string>, attach: (Row, Option<Row>) -> Row,
                                  items: seq<Row>, memory: map<string, Row>, seen: seq<Row>, n: nat, i: nat)
    requires i < n <= |items| && Remembers(uidOf, memory, seen) && Scan(uidOf, attach, items, memory, n).Success?
    ensures uidOf(items[i]).Success?
    ensures |Scan(uidOf, attach, items, memory, n).value.processed| == n
    ensures Scan(uidOf, attach, items, memory, n).value.processed[i] ==
              attach(items[i], Latest(uidOf, seen + items[..i], uidOf(items[i]).value))
  {
    ScanState(uidOf, attach, items, memory, seen, n);
    if i < n - 1 {
      ScanAt(uidOf, attach, items, memory, seen, n - 1, i);
    } else {
      ScanState(uidOf, attach, items, memory, seen, n - 1);
    }
  }

  /** The scan fails exactly when some item has no uid, with that item's
      exception. */
  lemma {:induction false} ScanFails(uidOf: Row -> Result<string>, attach: (Row, Option<Row>) -> Row,
                                     items: seq<Row>, memory: map<string, Row>, n: nat)
    requires n <= |items|
    ensures Scan(uidOf, attach, items, memory, n).Success? <==> forall i :: 0 <= i < n ==> uidOf(items[i]).Success?
    ensures Scan(uidOf, attach, items, memory, n).Failure? ==>
              exists i :: 0 <= i < n && uidOf(items[i]) == Failure(Scan(uidOf, attach, items, memory, n).error)
  {
    if n > 0 {
      ScanFails(uidOf, attach, items, memory, n - 1);
    }
  }

  /** out is items, each with its delta against the latest earlier item of
      its uid in seen followed by the items before it. */
  ghost predicate DiffedAgainst(out: seq<Row>, items: seq<Row>, seen: seq<Row>)
  {
    |out| == |items| &&
    forall j :: 0 <= j < |items| ==>
      BuildUid(items[j]).Success? && out[j] == WithDelta(items[j], Latest(BuildUid, seen + items[..j], BuildUid(items[j]).value))
  }

  ghost predicate AllUids(rows: seq<Row>)
  {
    forall i :: 0 <= i < |rows| ==> BuildUid(rows[i]).Success?
  }

  /** `_process_list` raises exactly when iterating the items fails or an
      item has no uid, whatever `previous_by_query` holds. */
  lemma ListDeltasFails(items: Value, memory: map<string, Row>)
    ensures ListDeltas(items, memory).Success? <==> ItemsOf(items).Success? && AllUids(ItemsOf(items).value)
    ensures ListDeltas(items, memory).Failure? ==> ListDeltas(items, memory).error in {TypeError, AttributeError}
  {
    ItemsOfMeaning(items);
    if ItemsOf(items).Success? {
      var rows := ItemsOf(items).value;
      ScanFails(BuildUid, WithDelta, rows, memory, |rows|);
      if Scan(BuildUid, WithDelta, rows, memory, |rows|).Failure? {
        var i :| 0 <= i < |rows| && BuildUid(rows[i]) == Failure(ListDeltas(items, memory).error);
        BuildUidMeaning(rows[i]);
      }
    }
  }

  lemma ListDeltasMeaning(items: Value, memory: map<string, Row>, seen: seq<Row>)
    requires Remembers(BuildUid, memory, seen) && ListDeltas(items, memory).Success?
    ensures ItemsOf(items).Success?
    ensures DiffedAgainst(ListDeltas(items, memory).value.processed, ItemsOf(items).value, seen)
    ensures Remembers(BuildUid, ListDeltas(items, memory).value.latest, seen + ItemsOf(items).value)
  {
    var rows := ItemsOf(items).value;
    ScanState(BuildUid, WithDelta, rows, memory, seen, |rows|);
    assert rows[..|rows|] == rows;
    forall j | 0 <= j < |rows|
      ensures BuildUid(rows[j]).Success? &&
              Scan(BuildUid, WithDelta, rows, memory, |rows|).value.processed[j] ==
                WithDelta(rows[j], Latest(BuildUid, seen + rows[..j], BuildUid(rows[j]).value))
    {
      ScanAt(BuildUid, WithDelta, rows, memory, seen, |rows|, j);
    }
  }

  /** The dict `previous_by_query`, shared by every `_process_list` call of
      one `calculate`, which updates it in place. */
  class QueryHistory {
    var latest: map<string, Row>

    constructor ()
      ensures latest == map[]
    {
      latest := map[];
    }

    /** `_process_list(items, self)`: the processed list, with the history
        updated in place by its rows. */
    method ProcessList(items: Value) returns (r: Result<seq<Row>>)
      modifies this
      ensures var spec := ListDeltas(items, old(latest));
              (spec.Success? ==> r == Success(spec.value.processed) && latest == spec.value.latest) &&
              (spec.Failure? ==> r == Failure(spec.error))
    {
      var rows := ItemsOf(items);
      if rows.Failure? {
        return Failure(rows.error);
      }
      r := ProcessRows(BuildUid, WithDelta, rows.value);
    }

    /** The loop of `_process_list` over the rows of the list, with the key
        builder and the delta step as parameters. */
    method ProcessRows(uidOf: Row -> Result<string>, attach: (Row, Option<Row>) -> Row, rows: seq<Row>)
      returns (r: Result<seq<Row>>)
      modifies this
      ensures var spec := Scan(uidOf, attach, rows, old(latest), |rows|);
              (spec.Success? ==> r == Success(spec.value.processed) && latest == spec.value.latest) &&
              (spec.Failure? ==> r == Failure(spec.error))
    {
      var processed := [];
      for i := 0 to |rows|
        invariant Scan(uidOf, attach, rows, old(latest), i) == Success(Pass(processed, latest))
      {
        var item := rows[i];
        var uid := uidOf(item);
        if uid.Failure? {
          ScanSticks(uidOf, attach, rows, old(latest), i + 1, |rows|);
          return Failure(uid.error);
        }
        var previous := if uid.value in latest then Some(latest[uid.value]) else None;
        processed := processed + [attach(item, previous)];
        latest := latest[uid.value := item];
      }
      r := Success(processed);
    }
  }

  // ---------------------------------------------------------------------
  // calculate
  // ---------------------------------------------------------------------

  /** One enriched snapshot: `database`, `snapshot_time`, `heavy_queries`,
      `frequent_queries`, in that order. */
  datatype Enriched = Enriched(database: Value, snapshotTime: Value, heavyQueries: seq<Row>, frequentQueries: seq<Row>)

  function HeavyOf(record: Row): Value
  {
    GetOr(record, "heavy_queries", List([]))
  }

  function FrequentOf(record: Row): Value
  {
    GetOr(record, "frequent_queries", List([]))
  }

  /** The loop body of `calculate` for one record. */
  function EnrichRecord(record: Row, memory: map<string, Row>): Result<(Enriched, map<string, Row>)>
  {
    if "snapshot_time" !in record.vals || "database" !in record.vals then Failure(KeyError)
    else match ListDeltas(HeavyOf(record), memory)
      case Failure(e) => Failure(e)
      case Success(h) =>
        match ListDeltas(FrequentOf(record), h.latest)
        case Failure(e) => Failure(e)
        case Success(f) =>
          Success((Enriched(record.vals["database"], record.vals["snapshot_time"], h.processed, f.processed), f.latest))
  }

  /** What `calculate` has appended after the first n sorted records, and
      `previous_by_query`. */
  datatype Run = Run(snapshots: seq<Enriched>, latest: map<string, Row>)

  function EnrichUpTo(sorted: seq<Row>, n: nat): Result<Run>
    requires n <= |sorted|
  {
    if n == 0 then Success(Run([], map[]))
    else match EnrichUpTo(sorted, n - 1)
      case Failure(e) => Failure(e)
      case Success(run) =>
        match EnrichRecord(sorted[n - 1], run.latest)
        case Failure(e) => Failure(e)
        case Success(step) => Success(Run(run.snapshots + [step.0], step.1))
  }

  /** `DeltaDomain.calculate(records)`. */
  function Enrich(records: seq<Row>): Result<seq<Enriched>>
  {
    if records == [] then Success([])
    else match SortRecords(records)
      case Failure(e) => Failure(e)
      case Success(sorted) =>
        match EnrichUpTo(sorted, |sorted|)
        case Failure(e) => Failure(e)
        case Success(run) => Success(run.snapshots)
  }

  lemma {:induction false} EnrichUpToSticks(sorted: seq<Row>, n: nat, m: nat)
    requires n <= m <= |sorted| && EnrichUpTo(sorted, n).Failure?
    ensures EnrichUpTo(sorted, m) == Failure(EnrichUpTo(sorted, n).error)
    decreases m
  {
    if n < m {
      EnrichUpToSticks(sorted, n, m - 1);
    }
  }

  /** The rows a record's `heavy_queries` and `frequent_queries` yield. */
  function RowsIn(v: Value): seq<Row>
  {
    match ItemsOf(v)
    case Success(rows) => rows
    case Failure(_) => []
  }

  function SeenIn(record: Row): seq<Row>
  {
    RowsIn(HeavyOf(record)) + RowsIn(FrequentOf(record))
  }

  /** Every query row of the given records, in processing order. */
  function Stream(records: seq<Row>): seq<Row>
  {
    if records == [] then [] else Stream(records[..|records| - 1]) + SeenIn(records[|records| - 1])
  }

  /** A record the loop body of `calculate` goes through without raising. */
  ghost predicate Processable(record: Row)
  {
    && "snapshot_time" in record.vals && "database" in record.vals
    && ItemsOf(HeavyOf(record)).Success? && AllUids(RowsIn(HeavyOf(record)))
    && ItemsOf(FrequentOf(record)).Success? && AllUids(RowsIn(FrequentOf(record)))
  }

  /** e is record enriched after the rows seen: its heavy queries are
      diffed against seen, its frequent ones against seen and the heavy
      ones. */
  ghost predicate EnrichedFrom(e: Enriched, record: Row, seen: seq<Row>)
  {
    && "snapshot_time" in record.vals && "database" in record.vals
    && e.database == record.vals["database"] && e.snapshotTime == record.vals["snapshot_time"]
    && DiffedAgainst(e.heavyQueries, RowsIn(HeavyOf(record)), seen)
    && DiffedAgainst(e.frequentQueries, RowsIn(FrequentOf(record)), seen + RowsIn(HeavyOf(record)))
  }

  lemma EnrichRecordFails(record: Row, memory: map<string, Row>)
    ensures EnrichRecord(record, memory).Success? <==> Processable(record)
    ensures EnrichRecord(record, memory).Failure? ==> EnrichRecord(record, memory).error in {KeyError, TypeError, AttributeError}
  {
    ListDeltasFails(HeavyOf(record), memory);
    var h := ListDeltas(HeavyOf(record), memory);
    if h.Success? {
      ListDeltasFails(FrequentOf(record), h.value.latest);
    }
  }

  lemma EnrichRecordMeaning(record: Row, memory: map<string, Row>, seen: seq<Row>)
    requires Remembers(BuildUid, memory, seen) && EnrichRecord(record, memory).Success?
    ensures EnrichedFrom(EnrichRecord(record, memory).value.0, record, seen)
    ensures Remembers(BuildUid, EnrichRecord(record, memory).value.1, seen + SeenIn(record))
  {
    ListDeltasMeaning(HeavyOf(record), memory, seen);
    var h := ListDeltas(HeavyOf(record), memory);
    ListDeltasMeaning(FrequentOf(record), h.value.latest, seen + RowsIn(HeavyOf(record)));
    assert seen + RowsIn(HeavyOf(record)) + RowsIn(FrequentOf(record)) == seen + SeenIn(record);
  }

  /** One more record: the stream grows by that record's rows. */
  lemma StreamStep(sorted: seq<Row>, n: nat)
    requires 0 < n <= |sorted|
    ensures Stream(sorted[..n]) == Stream(sorted[..n - 1]) + SeenIn(sorted[n - 1])
  {
    assert sorted[..n][..n - 1] == sorted[..n - 1];
  }

  lemma {:induction false} EnrichUpToState(sorted: seq<Row>, n: nat)
    requires n <= |sorted| && EnrichUpTo(sorted, n).Success?
    ensures |EnrichUpTo(sorted, n).value.snapshots| == n
    ensures Remembers(BuildUid, EnrichUpTo(sorted, n).value.latest, Stream(sorted[..n]))
  {
    if n == 0 {
      RemembersNothing(BuildUid);
    } else {
      EnrichUpToState(sorted, n - 1);
      var run := EnrichUpTo(sorted, n - 1).value;
      EnrichRecordMeaning(sorted[n - 1], run.latest, Stream(sorted[..n - 1]));
      StreamStep(sorted, n);
    }
  }

  /** The i-th enriched snapshot comes from the i-th sorted record, diffed
      against every row of the records before it. */
  lemma {:induction false} EnrichUpToAt(sorted: seq<Row>, n: nat, i: nat)
    requires i < n <= |sorted| && EnrichUpTo(sorted, n).Success?
    ensures |EnrichUpTo(sorted, n).value.snapshots| == n
    ensures EnrichedFrom(EnrichUpTo(sorted, n).value.snapshots[i], sorted[i], Stream(sorted[..i]))
  {
    EnrichUpToState(sorted, n);
    if i < n - 1 {
      EnrichUpToAt(sorted, n - 1, i);
    } else {
      EnrichUpToState(sorted, n - 1);
      EnrichRecordMeaning(sorted[i], EnrichUpTo(sorted, i).value.latest, Stream(sorted[..i]));
    }
  }

  lemma {:induction false} EnrichUpToFails(sorted: seq<Row>, n: nat)
    requires n <= |sorted|
    ensures EnrichUpTo(sorted, n).Success? <==> forall i :: 0 <= i < n ==> Processable(sorted[i])
  {
    if n > 0 {
      EnrichUpToFails(sorted, n - 1);
      AllProcessableStep(sorted, n);
      var prev := EnrichUpTo(sorted, n - 1);
      if prev.Success? {
        EnrichRecordFails(sorted[n - 1], prev.value.latest);
      } else {
        assert EnrichUpTo(sorted, n) == Failure(prev.error);
      }
    }
  }

  lemma AllProcessableStep(sorted: seq<Row>, n: nat)
    requires 0 < n <= |sorted|
    ensures (forall i :: 0 <= i < n ==> Processable(sorted[i])) <==>
      (forall i :: 0 <= i < n - 1 ==> Processable(sorted[i])) && Processable(sorted[n - 1])
  {
  }

  lemma {:induction false} EnrichUpToErrors(sorted: seq<Row>, n: nat)
    requires n <= |sorted|
    ensures EnrichUpTo(sorted, n).Failure? ==> EnrichUpTo(sorted, n).error in {KeyError, TypeError, AttributeError}
  {
    if n > 0 {
      EnrichUpToErrors(sorted, n - 1);
      if EnrichUpTo(sorted, n - 1).Success? {
        EnrichRecordFails(sorted[n - 1], EnrichUpTo(sorted, n - 1).value.latest);
      }
    }
  }

  lemma SameElements(a: seq<Row>, b: seq<Row>)
    requires multiset(a) == multiset(b)
    ensures (forall i :: 0 <= i < |a| ==> Processable(a[i])) <==> (forall i :: 0 <= i < |b| ==> Processable(b[i]))
  {
    forall i | 0 <= i < |a| ensures a[i] in b {
      assert a[i] in multiset(b);
    }
    forall i | 0 <= i < |b| ensures b[i] in a {
      assert b[i] in multiset(a);
    }
  }

  /** `calculate` raises exactly when the records cannot be sorted or one of
      them cannot be processed; otherwise it returns one enriched snapshot
      per record, in time order, each query diffed against the latest
      earlier row of the same uid across all lists of all earlier snapshots. */
  lemma EnrichMeaning(records: seq<Row>)
    ensures Enrich(records).Success? <==>
              records == [] || (SortRecords(records).Success? && forall i :: 0 <= i < |records| ==> Processable(records[i]))
    ensures Enrich(records).Failure? ==> Enrich(records).error in {KeyError, TypeError, AttributeError}
    ensures records == [] ==> Enrich(records) == Success([])
    ensures Enrich(records).Success? && records != [] ==>
              var sorted := SortByTime(KeyOf, records);
              |Enrich(records).value| == |records| == |sorted| &&
              forall i :: 0 <= i < |records| ==> EnrichedFrom(Enrich(records).value[i], sorted[i], Stream(sorted[..i]))
  {
    if records != [] {
      SortRecordsMeaning(records);
      if SortRecords(records).Success? {
        var sorted := SortByTime(KeyOf, records);
        assert |sorted| == |records| by {
          assert |multiset(sorted)| == |multiset(records)|;
        }
        SameElements(sorted, records);
        EnrichUpToFails(sorted, |sorted|);
        EnrichUpToErrors(sorted, |sorted|);
        if EnrichUpTo(sorted, |sorted|).Success? {
          EnrichUpToState(sorted, |sorted|);
          forall i | 0 <= i < |records|
            ensures EnrichedFrom(Enrich(records).value[i], sorted[i], Stream(sorted[..i]))
          {
            EnrichUpToAt(sorted, |sorted|, i);
          }
        }
      }
    }
  }

  method Calculate(records: seq<Row>) returns (r: Result<seq<Enriched>>)
    ensures r == Enrich(records)
  {
    if records == [] {
      return Success([]);
    }
    var sorted := SortRecords(records);
    if sorted.Failure? {
      return Failure(sorted.error);
    }
    var rows := sorted.value;
    var enriched := [];
    var history := new QueryHistory();
    for i := 0 to |rows|
      invariant EnrichUpTo(rows, i) == Success(Run(enriched, history.latest))
    {
      var snapshot := rows[i];
      if "snapshot_time" !in snapshot.vals || "database" !in snapshot.vals {
        EnrichUpToSticks(rows, i + 1, |rows|);
        return Failure(KeyError);
      }
      var heavy := history.ProcessList(HeavyOf(snapshot));
      if heavy.Failure? {
        EnrichUpToSticks(rows, i + 1, |rows|);
        return Failure(heavy.error);
      }
      var frequent := history.ProcessList(FrequentOf(snapshot));
      if frequent.Failure? {
        EnrichUpToSticks(rows, i + 1, |rows|);
        return Failure(frequent.error);
      }
      enriched := enriched + [Enriched(snapshot.vals["database"], snapshot.vals["snapshot_time"], heavy.value, frequent.value)];
    }
    r := Success(enriched);
  }
}
