/** The table resolver: `re.search(r"from\s+([a-zA-Z0-9_\.]+)", sql,
    re.IGNORECASE)`, giving the first group of the leftmost match or
    "unknown". */
module QueryDomain {
  import opened PyValues

  /** The class [a-zA-Z0-9_\.] under re.IGNORECASE. With Unicode patterns
      Python's case folding makes [a-z] and [A-Z] also match U+0130 (capital I
      with dot above), U+0131 (dotless i), U+017F (long s) and U+212A (Kelvin
      sign). */
  predicate IsNameChar(c: char)
  {
    || 'a' <= c <= 'z' || 'A' <= c <= 'Z' || '0' <= c <= '9' || c == '_' || c == '.'
    || c == '\U{130}' || c == '\U{131}' || c == '\U{17F}' || c == '\U{212A}'
  }

  lemma NameCharIsNotSpace(c: char)
    ensures IsNameChar(c) ==> !IsSpace(c)
  {
  }

  /** The literal `from`, case-insensitively, starts at p. */
  predicate FromAt(s: string, p: nat)
  {
    && p + 4 <= |s|
    && (s[p] == 'f' || s[p] == 'F')
    && (s[p + 1] == 'r' || s[p + 1] == 'R')
    && (s[p + 2] == 'o' || s[p + 2] == 'O')
    && (s[p + 3] == 'm' || s[p + 3] == 'M')
  }

  /** The regular expression's meaning: at p there is a match whose group is
      s[q..e]. `\s+` spans p+4 .. q, the group is a non-empty run of class
      characters, and greedy repetition leaves no class character after it. */
  ghost predicate RegexMatch(s: string, p: nat, q: nat, e: nat)
  {
    && FromAt(s, p)
    && p + 4 < q < e <= |s|
    && (forall k :: p + 4 <= k < q ==> IsSpace(s[k]))
    && (forall k :: q <= k < e ==> IsNameChar(s[k]))
    && (e == |s| || !IsNameChar(s[e]))
  }

  ghost predicate MatchesAt(s: string, p: nat)
  {
    exists q: nat, e: nat :: RegexMatch(s, p, q, e)
  }

  /** The first index at or after i that does not hold whitespace. */
  function SpaceEnd(s: string, i: nat): (j: nat)
    requires i <= |s|
    ensures i <= j <= |s|
    ensures forall k :: i <= k < j ==> IsSpace(s[k])
    ensures j == |s| || !IsSpace(s[j])
    decreases |s| - i
  {
    if i < |s| && IsSpace(s[i]) then SpaceEnd(s, i + 1) else i
  }

  /** The first index at or after i that does not hold a class character. */
  function NameEnd(s: string, i: nat): (j: nat)
    requires i <= |s|
    ensures i <= j <= |s|
    ensures forall k :: i <= k < j ==> IsNameChar(s[k])
    ensures j == |s| || !IsNameChar(s[j])
    decreases |s| - i
  {
    if i < |s| && IsNameChar(s[i]) then NameEnd(s, i + 1) else i
  }

  /** Where `\s+` followed by a class character can stop: only at the end
      of the whitespace run. */
  lemma SpaceRunEnd(s: string, i: nat, q: nat)
    requires i <= q < |s|
    requires forall k :: i <= k < q ==> IsSpace(s[k])
    requires IsNameChar(s[q])
    ensures q == SpaceEnd(s, i)
  {
    NameCharIsNotSpace(s[q]);
  }

  /** Where greedy `+` over the class stops. */
  lemma NameRunEnd(s: string, q: nat, e: nat)
    requires q <= e <= |s|
    requires forall k :: q <= k < e ==> IsNameChar(s[k])
    requires e == |s| || !IsNameChar(s[e])
    ensures e == NameEnd(s, q)
  {
  }

  /** Trying the pattern at one start position: the bounds of the group. */
  function MatchAt(s: string, p: nat): (r: Option<(nat, nat)>)
    ensures r.Some? ==> RegexMatch(s, p, r.value.0, r.value.1)
  {
    if FromAt(s, p) && p + 4 < |s| && IsSpace(s[p + 4]) then
      var q := SpaceEnd(s, p + 4);
      if q < |s| && IsNameChar(s[q]) then Some((q, NameEnd(s, q))) else None
    else
      None
  }

  /** A match of the pattern at p is exactly the one MatchAt finds. */
  lemma MatchAtComplete(s: string, p: nat, q: nat, e: nat)
    requires RegexMatch(s, p, q, e)
    ensures MatchAt(s, p) == Some((q, e))
  {
    SpaceRunEnd(s, p + 4, q);
    NameRunEnd(s, q, e);
  }

  /** re.search's scan: the leftmost start position, at or after p, where the
      pattern matches. */
  function Search(s: string, p: nat): (r: Option<nat>)
    ensures r.Some? ==> p <= r.value < |s| && MatchAt(s, r.value).Some?
    decreases |s| - p
  {
    if |s| <= p then None
    else if MatchAt(s, p).Some? then Some(p)
    else Search(s, p + 1)
  }

  /** QueryDomain.getMainTable */
  function GetMainTable(sql: string): (r: string)
    ensures r == "unknown" || exists a, b :: 0 <= a < b <= |sql| && r == sql[a..b]
    ensures r == "unknown" || (r != [] && forall k :: 0 <= k < |r| ==> IsNameChar(r[k]))
  {
    match Search(sql, 0)
    case None => "unknown"
    case Some(p) =>
      var (q, e) := MatchAt(sql, p).value;
      sql[q..e]
  }

  /** re.search returns the first start position at which the pattern
      matches. */
  lemma SearchFinds(s: string, k: nat, p: nat)
    requires k <= p < |s| && MatchAt(s, p).Some?
    requires forall p' :: k <= p' < p ==> MatchAt(s, p').None?
    ensures Search(s, k) == Some(p)
    decreases p - k
  {
    if k < p {
      SearchFinds(s, k + 1, p);
    }
  }

  /** A position where `from` does not start is skipped by the scan. */
  lemma SearchSkips(s: string, k: nat)
    requires k < |s| && !FromAt(s, k)
    ensures Search(s, k) == Search(s, k + 1)
  {
  }

  /** The scan stops at the first position where the pattern matches. */
  lemma SearchStops(s: string, k: nat)
    requires k < |s| && MatchAt(s, k).Some?
    ensures Search(s, k) == Some(k)
  {
  }

  /** The resolver answers the group of the match the scan finds. */
  lemma GetMainTableOfScan(s: string, p: nat, q: nat, e: nat)
    requires Search(s, 0) == Some(p) && MatchAt(s, p) == Some((q, e))
    ensures GetMainTable(s) == s[q..e]
  {
  }

  /** A match found by the scan is a match of the pattern. */
  lemma SearchMatches(s: string, p: nat)
    requires Search(s, 0) == Some(p)
    ensures MatchesAt(s, p)
  {
    var (q, e) := MatchAt(s, p).value;
    assert RegexMatch(s, p, q, e);
  }

  /** With no match anywhere the resolver answers "unknown". */
  lemma GetMainTableNone(sql: string)
    requires forall p: nat :: !MatchesAt(sql, p)
    ensures GetMainTable(sql) == "unknown"
  {
    if Search(sql, 0).Some? {
      SearchMatches(sql, Search(sql, 0).value);
    }
  }

  /** Otherwise it answers the group of the leftmost match. */
  lemma GetMainTableLeftmost(sql: string, p: nat, q: nat, e: nat)
    requires RegexMatch(sql, p, q, e)
    requires forall p': nat :: p' < p ==> !MatchesAt(sql, p')
    ensures GetMainTable(sql) == sql[q..e]
  {
    forall p': nat | p' < p
      ensures MatchAt(sql, p').None?
    {
      if MatchAt(sql, p').Some? {
        var (q', e') := MatchAt(sql, p').value;
        assert RegexMatch(sql, p', q', e');
        assert MatchesAt(sql, p');
      }
    }
    MatchAtComplete(sql, p, q, e);
    SearchFinds(sql, 0, p);
  }

  lemma ExampleSchemaKeptNoFrom()
    ensures !FromAt("select * from dbo.invoices i", 0) && !FromAt("select * from dbo.invoices i", 1) && !FromAt("select * from dbo.invoices i", 2) && !FromAt("select * from dbo.invoices i", 3) && !FromAt("select * from dbo.invoices i", 4) && !FromAt("select * from dbo.invoices i", 5) && !FromAt("select * from dbo.invoices i", 6) && !FromAt("select * from dbo.invoices i", 7) && !FromAt("select * from dbo.invoices i", 8)
  {
  }

  lemma ExampleSchemaKeptRun()
    ensures NameEnd("select * from dbo.invoices i", 14) == 26
  {
    assert NameEnd("select * from dbo.invoices i", 26) == 26;
    assert NameEnd("select * from dbo.invoices i", 25) == 26;
    assert NameEnd("select * from dbo.invoices i", 24) == 26;
    assert NameEnd("select * from dbo.invoices i", 23) == 26;
    assert NameEnd("select * from dbo.invoices i", 22) == 26;
    assert NameEnd("select * from dbo.invoices i", 21) == 26;
    assert NameEnd("select * from dbo.invoices i", 20) == 26;
    assert NameEnd("select * from dbo.invoices i", 19) == 26;
    assert NameEnd("select * from dbo.invoices i", 18) == 26;
    assert NameEnd("select * from dbo.invoices i", 17) == 26;
    assert NameEnd("select * from dbo.invoices i", 16) == 26;
    assert NameEnd("select * from dbo.invoices i", 15) == 26;
    assert NameEnd("select * from dbo.invoices i", 14) == 26;
  }

  lemma ExampleSchemaKeptGap()
    ensures FromAt("select * from dbo.invoices i", 9) && IsSpace("select * from dbo.invoices i"[13]) && SpaceEnd("select * from dbo.invoices i", 13) == 14 && IsNameChar("select * from dbo.invoices i"[14])
  {
    assert SpaceEnd("select * from dbo.invoices i", 14) == 14;
    assert SpaceEnd("select * from dbo.invoices i", 13) == 14;
  }

  lemma ExampleSchemaKeptCapture()
    ensures MatchAt("select * from dbo.invoices i", 9) == Some((14, 26))
  {
    ExampleSchemaKeptGap();
    ExampleSchemaKeptRun();
  }

  lemma ExampleSchemaKeptScan()
    ensures Search("select * from dbo.invoices i", 0) == Some(9)
  {
    var s := "select * from dbo.invoices i";
    ExampleSchemaKeptNoFrom();
    ExampleSchemaKeptCapture();
    SearchStops(s, 9);
    SearchSkips(s, 8);
    SearchSkips(s, 7);
    SearchSkips(s, 6);
    SearchSkips(s, 5);
    SearchSkips(s, 4);
    SearchSkips(s, 3);
    SearchSkips(s, 2);
    SearchSkips(s, 1);
    SearchSkips(s, 0);
  }

  lemma ExampleSchemaKeptGroup()
    ensures "select * from dbo.invoices i"[14..26] == "dbo.invoices"
  {
  }

  /** The schema prefix is part of the class, so it is kept. */
  lemma ExampleSchemaKept()
    ensures GetMainTable("select * from dbo.invoices i") == "dbo.invoices"
  {
    ExampleSchemaKeptScan();
    ExampleSchemaKeptCapture();
    GetMainTableOfScan("select * from dbo.invoices i", 9, 14, 26);
    ExampleSchemaKeptGroup();
  }

  lemma ExampleNoFromNoFrom()
    ensures !FromAt("update accounts set x=1", 0) && !FromAt("update accounts set x=1", 1) && !FromAt("update accounts set x=1", 2) && !FromAt("update accounts set x=1", 3) && !FromAt("update accounts set x=1", 4) && !FromAt("update accounts set x=1", 5) && !FromAt("update accounts set x=1", 6) && !FromAt("update accounts set x=1", 7) && !FromAt("update accounts set x=1", 8) && !FromAt("update accounts set x=1", 9) && !FromAt("update accounts set x=1", 10) && !FromAt("update accounts set x=1", 11) && !FromAt("update accounts set x=1", 12) && !FromAt("update accounts set x=1", 13) && !FromAt("update accounts set x=1", 14) && !FromAt("update accounts set x=1", 15) && !FromAt("update accounts set x=1", 16) && !FromAt("update accounts set x=1", 17) && !FromAt("update accounts set x=1", 18) && !FromAt("update accounts set x=1", 19) && !FromAt("update accounts set x=1", 20) && !FromAt("update accounts set x=1", 21) && !FromAt("update accounts set x=1", 22)
  {
  }

  /** Only `from` is consulted: an UPDATE without one is "unknown". */
  lemma ExampleNoFrom()
    ensures GetMainTable("update accounts set x=1") == "unknown"
  {
    var s := "update accounts set x=1";
    ExampleNoFromNoFrom();
    SearchSkips(s, 22);
    SearchSkips(s, 21);
    SearchSkips(s, 20);
    SearchSkips(s, 19);
    SearchSkips(s, 18);
    SearchSkips(s, 17);
    SearchSkips(s, 16);
    SearchSkips(s, 15);
    SearchSkips(s, 14);
    SearchSkips(s, 13);
    SearchSkips(s, 12);
    SearchSkips(s, 11);
    SearchSkips(s, 10);
    SearchSkips(s, 9);
    SearchSkips(s, 8);
    SearchSkips(s, 7);
    SearchSkips(s, 6);
    SearchSkips(s, 5);
    SearchSkips(s, 4);
    SearchSkips(s, 3);
    SearchSkips(s, 2);
    SearchSkips(s, 1);
    SearchSkips(s, 0);
  }

  lemma ExampleBracketNoFrom()
    ensures !FromAt("delete from [orders]", 0) && !FromAt("delete from [orders]", 1) && !FromAt("delete from [orders]", 2) && !FromAt("delete from [orders]", 3) && !FromAt("delete from [orders]", 4) && !FromAt("delete from [orders]", 5) && !FromAt("delete from [orders]", 6) && !FromAt("delete from [orders]", 8) && !FromAt("delete from [orders]", 9) && !FromAt("delete from [orders]", 10) && !FromAt("delete from [orders]", 11) && !FromAt("delete from [orders]", 12) && !FromAt("delete from [orders]", 13) && !FromAt("delete from [orders]", 14) && !FromAt("delete from [orders]", 15) && !FromAt("delete from [orders]", 16) && !FromAt("delete from [orders]", 17) && !FromAt("delete from [orders]", 18) && !FromAt("delete from [orders]", 19)
  {
  }

  lemma ExampleBracketNoMatchAt7()
    ensures MatchAt("delete from [orders]", 7).None?
  {
    assert SpaceEnd("delete from [orders]", 12) == 12;
    assert SpaceEnd("delete from [orders]", 11) == 12;
  }

  /** `[` is outside the class, so the bracketed name does not match. */
  lemma ExampleBracket()
    ensures GetMainTable("delete from [orders]") == "unknown"
  {
    var s := "delete from [orders]";
    ExampleBracketNoFrom();
    ExampleBracketNoMatchAt7();
    SearchSkips(s, 19);
    SearchSkips(s, 18);
    SearchSkips(s, 17);
    SearchSkips(s, 16);
    SearchSkips(s, 15);
    SearchSkips(s, 14);
    SearchSkips(s, 13);
    SearchSkips(s, 12);
    SearchSkips(s, 11);
    SearchSkips(s, 10);
    SearchSkips(s, 9);
    SearchSkips(s, 8);
    assert Search(s, 7) == Search(s, 8);
    SearchSkips(s, 6);
    SearchSkips(s, 5);
    SearchSkips(s, 4);
    SearchSkips(s, 3);
    SearchSkips(s, 2);
    SearchSkips(s, 1);
    SearchSkips(s, 0);
  }

  lemma ExampleCasePreservedNoFrom()
    ensures !FromAt("SELECT a FROM\tOrders", 0) && !FromAt("SELECT a FROM\tOrders", 1) && !FromAt("SELECT a FROM\tOrders", 2) && !FromAt("SELECT a FROM\tOrders", 3) && !FromAt("SELECT a FROM\tOrders", 4) && !FromAt("SELECT a FROM\tOrders", 5) && !FromAt("SELECT a FROM\tOrders", 6) && !FromAt("SELECT a FROM\tOrders", 7) && !FromAt("SELECT a FROM\tOrders", 8)
  {
  }

  lemma ExampleCasePreservedRun()
    ensures NameEnd("SELECT a FROM\tOrders", 14) == 20
  {
    assert NameEnd("SELECT a FROM\tOrders", 20) == 20;
    assert NameEnd("SELECT a FROM\tOrders", 19) == 20;
    assert NameEnd("SELECT a FROM\tOrders", 18) == 20;
    assert NameEnd("SELECT a FROM\tOrders", 17) == 20;
    assert NameEnd("SELECT a FROM\tOrders", 16) == 20;
    assert NameEnd("SELECT a FROM\tOrders", 15) == 20;
    assert NameEnd("SELECT a FROM\tOrders", 14) == 20;
  }

  lemma ExampleCasePreservedGap()
    ensures FromAt("SELECT a FROM\tOrders", 9) && IsSpace("SELECT a FROM\tOrders"[13]) && SpaceEnd("SELECT a FROM\tOrders", 13) == 14 && IsNameChar("SELECT a FROM\tOrders"[14])
  {
    assert SpaceEnd("SELECT a FROM\tOrders", 14) == 14;
    assert SpaceEnd("SELECT a FROM\tOrders", 13) == 14;
  }

  lemma ExampleCasePreservedCapture()
    ensures MatchAt("SELECT a FROM\tOrders", 9) == Some((14, 20))
  {
    ExampleCasePreservedGap();
    ExampleCasePreservedRun();
  }

  lemma ExampleCasePreservedScan()
    ensures Search("SELECT a FROM\tOrders", 0) == Some(9)
  {
    var s := "SELECT a FROM\tOrders";
    ExampleCasePreservedNoFrom();
    ExampleCasePreservedCapture();
    SearchStops(s, 9);
    SearchSkips(s, 8);
    SearchSkips(s, 7);
    SearchSkips(s, 6);
    SearchSkips(s, 5);
    SearchSkips(s, 4);
    SearchSkips(s, 3);
    SearchSkips(s, 2);
    SearchSkips(s, 1);
    SearchSkips(s, 0);
  }

  lemma ExampleCasePreservedGroup()
    ensures "SELECT a FROM\tOrders"[14..20] == "Orders"
  {
  }

  /** `from` matches in any case, any whitespace separates, and the capture keeps its case. */
  lemma ExampleCasePreserved()
    ensures GetMainTable("SELECT a FROM\tOrders") == "Orders"
  {
    ExampleCasePreservedScan();
    ExampleCasePreservedCapture();
    GetMainTableOfScan("SELECT a FROM\tOrders", 9, 14, 20);
    ExampleCasePreservedGroup();
  }

  lemma ExampleInsideWordNoFrom()
    ensures !FromAt("select xfrom t", 0) && !FromAt("select xfrom t", 1) && !FromAt("select xfrom t", 2) && !FromAt("select xfrom t", 3) && !FromAt("select xfrom t", 4) && !FromAt("select xfrom t", 5) && !FromAt("select xfrom t", 6) && !FromAt("select xfrom t", 7)
  {
  }

  lemma ExampleInsideWordRun()
    ensures NameEnd("select xfrom t", 13) == 14
  {
    assert NameEnd("select xfrom t", 14) == 14;
    assert NameEnd("select xfrom t", 13) == 14;
  }

  lemma ExampleInsideWordGap()
    ensures FromAt("select xfrom t", 8) && IsSpace("select xfrom t"[12]) && SpaceEnd("select xfrom t", 12) == 13 && IsNameChar("select xfrom t"[13])
  {
    assert SpaceEnd("select xfrom t", 13) == 13;
    assert SpaceEnd("select xfrom t", 12) == 13;
  }

  lemma ExampleInsideWordCapture()
    ensures MatchAt("select xfrom t", 8) == Some((13, 14))
  {
    ExampleInsideWordGap();
    ExampleInsideWordRun();
  }

  lemma ExampleInsideWordScan()
    ensures Search("select xfrom t", 0) == Some(8)
  {
    var s := "select xfrom t";
    ExampleInsideWordNoFrom();
    ExampleInsideWordCapture();
    SearchStops(s, 8);
    SearchSkips(s, 7);
    SearchSkips(s, 6);
    SearchSkips(s, 5);
    SearchSkips(s, 4);
    SearchSkips(s, 3);
    SearchSkips(s, 2);
    SearchSkips(s, 1);
    SearchSkips(s, 0);
  }

  lemma ExampleInsideWordGroup()
    ensures "select xfrom t"[13..14] == "t"
  {
  }

  /** `from` need not be a word of its own. */
  lemma ExampleInsideWord()
    ensures GetMainTable("select xfrom t") == "t"
  {
    ExampleInsideWordScan();
    ExampleInsideWordCapture();
    GetMainTableOfScan("select xfrom t", 8, 13, 14);
    ExampleInsideWordGroup();
  }

}
