/** Python values as the snapshot-delta pipeline sees them: rows fetched from
    the database, aggregates, deltas and the ordered dictionaries that hold
    them. Floating-point numbers are not modelled; numbers are integers. */
module PyValues {

  datatype Option<+T> = None | Some(value: T)

  /** The Python exceptions the pipeline can raise. */
  datatype Exception = TypeError | AttributeError | KeyError | IndexError | ValueError

  /** The outcome of Python code that may raise. */
  datatype Result<+T> = Success(value: T) | Failure(error: Exception)

  /** A Python dict: `keys` is the insertion order, `vals` the mapping.
      Every dict the program builds satisfies WellFormed. */
  datatype Dict<K, V> = Dict(keys: seq<K>, vals: map<K, V>)

  ghost predicate WellFormed<K(!new), V>(d: Dict<K, V>)
  {
    && (forall i, j :: 0 <= i < j < |d.keys| ==> d.keys[i] != d.keys[j])
    && (forall k :: k in d.vals <==> k in d.keys)
  }

  function EmptyDict<K(!new), V>(): (d: Dict<K, V>)
    ensures WellFormed(d) && d.keys == [] && d.vals == map[]
  {
    Dict([], map[])
  }

  /** `d.get(k, default)` */
  function GetOr<K, V>(d: Dict<K, V>, k: K, default: V): V
  {
    if k in d.vals then d.vals[k] else default
  }

  /** `d[k] = v`: an existing key keeps its position, a new key goes last. */
  function Put<K(!new), V>(d: Dict<K, V>, k: K, v: V): (r: Dict<K, V>)
    ensures r.vals == d.vals[k := v]
    ensures k !in d.vals ==> r.keys == d.keys + [k]
    ensures k in d.vals ==> r.keys == d.keys
  {
    if k in d.vals then Dict(d.keys, d.vals[k := v]) else Dict(d.keys + [k], d.vals[k := v])
  }

  lemma PutWellFormed<K(!new), V>(d: Dict<K, V>, k: K, v: V)
    requires WellFormed(d)
    ensures WellFormed(Put(d, k, v))
  {
  }

  /** A loop that applies f to each of the first n items and collects the
      results, stopping at the first item that raises. */
  function MapAll<T, U>(f: T -> Result<U>, items: seq<T>, n: nat): Result<seq<U>>
    requires n <= |items|
  {
    if n == 0 then Success([])
    else match MapAll(f, items, n - 1)
      case Failure(e) => Failure(e)
      case Success(done) =>
        match f(items[n - 1])
        case Failure(e) => Failure(e)
        case Success(u) => Success(done + [u])
  }

  lemma {:induction false} MapAllSticks<T, U>(f: T -> Result<U>, items: seq<T>, n: nat, m: nat)
    requires n <= m <= |items| && MapAll(f, items, n).Failure?
    ensures MapAll(f, items, m) == MapAll(f, items, n)
    decreases m
  {
    if n < m {
      MapAllSticks(f, items, n, m - 1);
    }
  }

  /** The loop raises the error of the first item that raises, and otherwise
      holds one result per item, in order. */
  lemma {:induction false} MapAllMeaning<T, U>(f: T -> Result<U>, items: seq<T>, n: nat)
    requires n <= |items|
    ensures MapAll(f, items, n).Success? <==> forall i :: 0 <= i < n ==> f(items[i]).Success?
    ensures MapAll(f, items, n).Failure? ==>
              exists i :: 0 <= i < n && f(items[i]) == Failure(MapAll(f, items, n).error) &&
                          forall k :: 0 <= k < i ==> f(items[k]).Success?
    ensures MapAll(f, items, n).Success? ==>
              var done := MapAll(f, items, n).value;
              |done| == n && forall i :: 0 <= i < n ==> done[i] == f(items[i]).value
  {
    if n > 0 {
      MapAllMeaning(f, items, n - 1);
    }
  }

  /** A Python value of the kinds the rows, aggregates and deltas hold. */
  datatype Value =
    | Null
    | Bool(b: bool)
    | Int(n: int)
    | Str(s: string)
    | List(items: seq<Value>)
    | Obj(fields: Dict<string, Value>)

  /** A row: a dict from column name to value. */
  type Row = Dict<string, Value>

  /** Python truthiness (`if v`, `v or 0`, `filter(None, ...)`). */
  predicate Truthy(v: Value)
  {
    match v
    case Null => false
    case Bool(b) => b
    case Int(n) => n != 0
    case Str(s) => s != ""
    case List(items) => items != []
    case Obj(d) => d.vals != map[]
  }

  /** The integer a value stands for in arithmetic; bool is a subclass of int
      in Python. None means that `+`/`-` with an int raises TypeError. */
  function NumberOf(v: Value): (r: Option<int>)
    ensures r.Some? <==> v.Int? || v.Bool?
    ensures v.Int? ==> r == Some(v.n)
  {
    match v
    case Int(n) => Some(n)
    case Bool(b) => Some(if b then 1 else 0)
    case _ => None
  }

  /** `a + b`, or None where Python raises TypeError. */
  function Add(a: Value, b: Value): (r: Option<Value>)
    ensures r.Some? <==> NumberOf(a).Some? && NumberOf(b).Some?
    ensures r.Some? ==> r.value == Int(NumberOf(a).value + NumberOf(b).value)
  {
    match (NumberOf(a), NumberOf(b))
    case (Some(x), Some(y)) => Some(Int(x + y))
    case _ => None
  }

  /** `v or 0` */
  function OrZero(v: Value): (r: Value)
    ensures Truthy(v) ==> r == v
    ensures !Truthy(v) ==> r == Int(0)
  {
    if Truthy(v) then v else Int(0)
  }

  /** `a - b`, or None where Python raises TypeError. */
  function Sub(a: Value, b: Value): (r: Option<Value>)
    ensures r.Some? <==> NumberOf(a).Some? && NumberOf(b).Some?
    ensures r.Some? ==> r.value == Int(NumberOf(a).value - NumberOf(b).value)
  {
    match (NumberOf(a), NumberOf(b))
    case (Some(x), Some(y)) => Some(Int(x - y))
    case _ => None
  }

  // ---------------------------------------------------------------------
  // Characters and strings
  // ---------------------------------------------------------------------

  /** Python's notion of whitespace (str.isspace), used by str.split(),
      str.strip() and the regular-expression class \s. */
  predicate IsSpace(c: char)
  {
    || '\t' <= c <= '\r'
    || '\U{1C}' <= c <= '\U{1F}'
    || c == ' ' || c == '\U{85}' || c == '\U{A0}' || c == '\U{1680}'
    || '\U{2000}' <= c <= '\U{200A}'
    || c == '\U{2028}' || c == '\U{2029}' || c == '\U{202F}' || c == '\U{205F}' || c == '\U{3000}'
  }

  /** ASCII lower-casing; see README for what is left out of str.lower(). */
  function LowerChar(c: char): (r: char)
    ensures IsSpace(r) <==> IsSpace(c)
    ensures !('A' <= r <= 'Z')
  {
    if 'A' <= c <= 'Z' then (c as int + 32) as char else c
  }

  function Lower(s: string): (r: string)
    ensures |r| == |s|
    ensures forall i :: 0 <= i < |s| ==> r[i] == LowerChar(s[i])
  {
    if s == [] then [] else [LowerChar(s[0])] + Lower(s[1..])
  }

  /** The length of the run of non-whitespace characters that starts s. */
  function WordLen(s: string): (n: nat)
    requires s != [] && !IsSpace(s[0])
    ensures 1 <= n <= |s|
    ensures forall k :: 0 <= k < n ==> !IsSpace(s[k])
    ensures n == |s| || IsSpace(s[n])
    decreases |s|
  {
    if |s| == 1 || IsSpace(s[1]) then 1 else 1 + WordLen(s[1..])
  }

  /** `s.split()`: the maximal runs of non-whitespace characters, in order. */
  function Words(s: string): (ws: seq<string>)
    ensures forall i :: 0 <= i < |ws| ==> ws[i] != [] && NoSpace(ws[i])
    decreases |s|
  {
    if s == [] then []
    else if IsSpace(s[0]) then Words(s[1..])
    else
      var n := WordLen(s);
      [s[..n]] + Words(s[n..])
  }

  predicate NoSpace(s: string)
  {
    forall k :: 0 <= k < |s| ==> !IsSpace(s[k])
  }

  /** The run length is the index of the first whitespace character, or the
      length when there is none. */
  lemma WordLenUnique(s: string, n: nat)
    requires s != [] && !IsSpace(s[0]) && 1 <= n <= |s|
    requires forall k :: 0 <= k < n ==> !IsSpace(s[k])
    requires n == |s| || IsSpace(s[n])
    ensures WordLen(s) == n
  {
  }

  /** A text without whitespace is one word. */
  lemma WordsOfWord(w: string)
    requires w != [] && NoSpace(w)
    ensures Words(w) == [w]
  {
    WordLenUnique(w, |w|);
    assert w[..|w|] == w && w[|w|..] == [];
    assert Words(w) == [w[..|w|]] + Words(w[|w|..]);
  }

  /** A whitespace character separates words: the words of a + [c] + b are
      those of a followed by those of b. */
  lemma {:induction false} WordsSplit(a: string, c: char, b: string)
    requires IsSpace(c)
    ensures Words(a + [c] + b) == Words(a) + Words(b)
    decreases |a|
  {
    var s := a + [c] + b;
    if a == [] {
      assert s[1..] == b;
    } else if IsSpace(a[0]) {
      assert s[1..] == a[1..] + [c] + b;
      WordsSplit(a[1..], c, b);
    } else {
      var m := WordLen(a);
      WordLenUnique(s, m);
      assert s[..m] == a[..m];
      if m == |a| {
        assert s[m..] == [c] + b;
        assert ([c] + b)[1..] == b;
        assert a[m..] == [];
      } else {
        assert s[m..] == a[m..] + [c] + b;
        WordsSplit(a[m..], c, b);
      }
    }
  }

  /** `sep.join(parts)` */
  function Join(sep: string, parts: seq<string>): string
  {
    if parts == [] then ""
    else if |parts| == 1 then parts[0]
    else parts[0] + sep + Join(sep, parts[1..])
  }

  function TrimLeft(s: string): string
  {
    if s != [] && IsSpace(s[0]) then TrimLeft(s[1..]) else s
  }

  function TrimRight(s: string): string
  {
    if s != [] && IsSpace(s[|s| - 1]) then TrimRight(s[..|s| - 1]) else s
  }

  /** `s.strip()`: leading and trailing whitespace removed. */
  function Strip(s: string): string
  {
    TrimRight(TrimLeft(s))
  }

  lemma {:induction false} TrimLeftMeaning(s: string)
    ensures exists i :: 0 <= i <= |s| && TrimLeft(s) == s[i..] && AllSpace(s[..i])
    ensures TrimLeft(s) == [] || !IsSpace(TrimLeft(s)[0])
  {
    if s != [] && IsSpace(s[0]) {
      TrimLeftMeaning(s[1..]);
      var i :| 0 <= i <= |s[1..]| && TrimLeft(s[1..]) == s[1..][i..] && AllSpace(s[1..][..i]);
      assert s[1..][i..] == s[i + 1..];
      var pre := s[..i + 1];
      assert AllSpace(pre) by {
        forall j | 0 <= j < |pre| ensures IsSpace(pre[j]) {
          if j > 0 {
            assert pre[j] == s[1..][..i][j - 1];
          }
        }
      }
    } else {
      assert s[0..] == s && s[..0] == [];
    }
  }

  lemma {:induction false} TrimRightMeaning(s: string)
    ensures exists j :: 0 <= j <= |s| && TrimRight(s) == s[..j] && AllSpace(s[j..])
    ensures TrimRight(s) == [] || !IsSpace(TrimRight(s)[|TrimRight(s)| - 1])
  {
    if s != [] && IsSpace(s[|s| - 1]) {
      var t := s[..|s| - 1];
      TrimRightMeaning(t);
      var j :| 0 <= j <= |t| && TrimRight(t) == t[..j] && AllSpace(t[j..]);
      assert t[..j] == s[..j];
      assert AllSpace(s[j..]) by {
        forall k | 0 <= k < |s| - j ensures IsSpace(s[j..][k]) {
          if k < |t| - j {
            assert s[j..][k] == t[j..][k];
          }
        }
      }
    } else {
      assert s[..|s|] == s && s[|s|..] == [];
    }
  }

  /** `strip()` keeps a contiguous middle part of s, drops only whitespace on
      either side, and leaves no whitespace at either end. */
  lemma StripMeaning(s: string)
    ensures exists i, j :: 0 <= i <= j <= |s| && Strip(s) == s[i..j] && AllSpace(s[..i]) && AllSpace(s[j..])
    ensures Strip(s) == [] || (!IsSpace(Strip(s)[0]) && !IsSpace(Strip(s)[|Strip(s)| - 1]))
  {
    TrimLeftMeaning(s);
    var i :| 0 <= i <= |s| && TrimLeft(s) == s[i..] && AllSpace(s[..i]);
    var t := s[i..];
    TrimRightMeaning(t);
    var j :| 0 <= j <= |t| && TrimRight(t) == t[..j] && AllSpace(t[j..]);
    StripSlices(s, i, j);
    if Strip(s) != [] {
      TrimRightKeepsHead(t);
    }
  }

  lemma StripSlices(s: string, i: nat, j: nat)
    requires i <= |s| && j <= |s| - i && AllSpace(s[..i]) && AllSpace(s[i..][j..])
    ensures s[i..][..j] == s[i..i + j] && AllSpace(s[i + j..])
  {
    assert s[i..][j..] == s[i + j..];
  }

  lemma TrimRightKeepsHead(t: string)
    requires TrimRight(t) != []
    ensures TrimRight(t)[0] == t[0]
  {
    TrimRightMeaning(t);
  }

  predicate AllSpace(s: string)
  {
    forall i :: 0 <= i < |s| ==> IsSpace(s[i])
  }

  lemma {:induction false} TrimLeftPadded(a: string, s: string)
    requires AllSpace(a)
    ensures TrimLeft(a + s) == TrimLeft(s)
  {
    if a != [] {
      assert (a + s)[1..] == a[1..] + s;
      TrimLeftPadded(a[1..], s);
    } else {
      assert a + s == s;
    }
  }

  lemma {:induction false} TrimRightPadded(s: string, b: string)
    requires AllSpace(b)
    ensures TrimRight(s + b) == TrimRight(s)
  {
    if b != [] {
      assert (s + b)[..|s + b| - 1] == s + b[..|b| - 1];
      TrimRightPadded(s, b[..|b| - 1]);
    } else {
      assert s + b == s;
    }
  }

  lemma {:induction false} TrimLeftThenSpaces(s: string, b: string)
    requires AllSpace(b)
    ensures TrimLeft(s + b) == if TrimLeft(s) == [] then [] else TrimLeft(s) + b
  {
    if s == [] {
      TrimLeftPadded(b, []);
      assert b + [] == b && s + b == b;
    } else if IsSpace(s[0]) {
      assert (s + b)[1..] == s[1..] + b;
      TrimLeftThenSpaces(s[1..], b);
    }
  }

  /** `strip()` ignores whitespace added around a string. */
  lemma StripIgnoresPadding(t: string, a: string, b: string)
    requires AllSpace(a) && AllSpace(b)
    ensures Strip(a + t + b) == Strip(t)
  {
    assert a + t + b == a + (t + b);
    TrimLeftPadded(a, t + b);
    TrimLeftThenSpaces(t, b);
    if TrimLeft(t) != [] {
      TrimRightPadded(TrimLeft(t), b);
    }
  }

  // ---------------------------------------------------------------------
  // str() of a value
  // ---------------------------------------------------------------------

  function DigitChar(d: nat): char
    requires d < 10
  {
    "0123456789"[d]
  }

  function NatText(n: nat): (r: string)
    ensures r != []
    decreases n
  {
    if n < 10 then [DigitChar(n)] else NatText(n / 10) + [DigitChar(n % 10)]
  }

  /** `str(n)` for an int. */
  function IntText(n: int): string
  {
    if n < 0 then "-" + NatText(-n) else NatText(n)
  }

  /** `str(v)`, which is also what an f-string and prometheus_client's label
      conversion produce. Inside lists and dicts strings are shown between
      single quotes, without Python's escaping. */
  function Show(v: Value): string
    decreases v, 1
  {
    match v
    case Null => "None"
    case Bool(b) => if b then "True" else "False"
    case Int(n) => IntText(n)
    case Str(s) => s
    case List(items) => "[" + ShowItems(v, 0) + "]"
    case Obj(d) => "{" + ShowFields(v, 0) + "}"
  }

  /** `repr(v)` as used inside containers. */
  function Repr(v: Value): string
    decreases v, 2
  {
    if v.Str? then "'" + v.s + "'" else Show(v)
  }

  function ShowItems(parent: Value, i: nat): string
    requires parent.List? && i <= |parent.items|
    decreases parent, 0, |parent.items| - i
  {
    if i == |parent.items| then ""
    else (if i == 0 then "" else ", ") + Repr(parent.items[i]) + ShowItems(parent, i + 1)
  }

  function ShowFields(parent: Value, i: nat): string
    requires parent.Obj? && i <= |parent.fields.keys|
    decreases parent, 0, |parent.fields.keys| - i
  {
    if i == |parent.fields.keys| then ""
    else
      var k := parent.fields.keys[i];
      (if i == 0 then "" else ", ") + "'" + k + "': "
      + (if k in parent.fields.vals then Repr(parent.fields.vals[k]) else "")
      + ShowFields(parent, i + 1)
  }

  // ---------------------------------------------------------------------
  // float()
  // ---------------------------------------------------------------------

  predicate IsDigit(c: char)
  {
    '0' <= c <= '9'
  }

  /** Digits, with single underscores allowed between two digits. */
  predicate DigitPart(s: string)
  {
    && s != [] && IsDigit(s[0]) && IsDigit(s[|s| - 1])
    && forall i :: 0 <= i < |s| ==>
         IsDigit(s[i]) || (s[i] == '_' && 0 < i < |s| - 1 && IsDigit(s[i - 1]) && IsDigit(s[i + 1]))
  }

  /** The index of the first c in s, or |s| when there is none. */
  function IndexOf(s: string, c: char): (k: nat)
    ensures k <= |s| && (k < |s| ==> s[k] == c)
    ensures forall i :: 0 <= i < k ==> s[i] != c
  {
    if s == [] then 0 else if s[0] == c then 0 else 1 + IndexOf(s[1..], c)
  }

  /** The index of the first `e` or `E` in s, or |s| when there is none. */
  function ExpIndex(s: string): (k: nat)
    ensures k <= |s| && (k < |s| ==> s[k] == 'e' || s[k] == 'E')
    ensures forall i :: 0 <= i < k ==> s[i] != 'e' && s[i] != 'E'
  {
    if s == [] then 0 else if s[0] == 'e' || s[0] == 'E' then 0 else 1 + ExpIndex(s[1..])
  }

  /** `digitpart ["." [digitpart]]` or `"." digitpart` */
  predicate Mantissa(s: string)
  {
    var k := IndexOf(s, '.');
    if k == |s| then DigitPart(s)
    else (0 < k || k + 1 < |s|) && (k == 0 || DigitPart(s[..k])) && (k + 1 == |s| || DigitPart(s[k + 1..]))
  }

  predicate ExponentPart(s: string)
  {
    DigitPart(s) || (s != [] && (s[0] == '+' || s[0] == '-') && DigitPart(s[1..]))
  }

  /** A decimal literal: a mantissa, then optionally `e` and a signed exponent. */
  predicate Decimal(s: string)
  {
    var e := ExpIndex(s);
    if e == |s| then Mantissa(s) else Mantissa(s[..e]) && ExponentPart(s[e + 1..])
  }

  /** An unsigned float: a decimal literal, or inf, infinity or nan in any case. */
  predicate Unsigned(s: string)
  {
    Lower(s) == "inf" || Lower(s) == "infinity" || Lower(s) == "nan" || Decimal(s)
  }

  /** The strings `float(s)` accepts: surrounding whitespace, an optional
      sign, then an unsigned float. */
  predicate FloatText(s: string)
  {
    var t := Strip(s);
    Unsigned(t) || (t != [] && (t[0] == '+' || t[0] == '-') && Unsigned(t[1..]))
  }

  /** The exception `float(v)` raises, if any: ints and bools convert, a
      string converts when it is a float literal and raises ValueError
      otherwise, and None, lists and dicts raise TypeError. */
  function FloatError(v: Value): (r: Option<Exception>)
    ensures r.None? <==> v.Int? || v.Bool? || (v.Str? && FloatText(v.s))
    ensures r.Some? ==> r.value == (if v.Str? then ValueError else TypeError)
  {
    match v
    case Int(_) => None
    case Bool(_) => None
    case Str(s) => if FloatText(s) then None else Some(ValueError)
    case _ => Some(TypeError)
  }

  lemma StripUnpadded(s: string)
    requires s != [] && !IsSpace(s[0]) && !IsSpace(s[|s| - 1])
    ensures Strip(s) == s
  {
  }

  lemma FloatTextInt()
    ensures FloatText("12")
  {
    StripUnpadded("12");
    assert DigitPart("12");
  }

  lemma FloatTextUnderscore()
    ensures FloatText("1_000")
  {
    StripUnpadded("1_000");
    assert DigitPart("1_000");
  }

  lemma FloatTextInfinity()
    ensures FloatText("+Infinity")
  {
    StripUnpadded("+Infinity");
    assert "+Infinity"[1..] == "Infinity" && Lower("Infinity") == "infinity";
  }

  /** float(" -3.5e2\n") converts: whitespace, sign, fraction and exponent. */
  lemma FloatTextExponent()
    ensures FloatText(" -3.5e2\n")
  {
    assert TrimLeft(" -3.5e2\n") == TrimLeft("-3.5e2\n") == "-3.5e2\n";
    assert TrimRight("-3.5e2\n") == TrimRight("-3.5e2") == "-3.5e2";
    var t := "3.5e2";
    assert "-3.5e2"[1..] == t;
    assert ExpIndex(t) == 3 && t[..3] == "3.5" && t[4..] == "2";
    assert IndexOf("3.5", '.') == 1 && "3.5"[..1] == "3" && "3.5"[2..] == "5";
    assert DigitPart("3") && DigitPart("5") && DigitPart("2");
  }

  lemma FloatTextDoubleUnderscore()
    ensures !FloatText("1__0")
  {
    var s := "1__0";
    StripUnpadded(s);
    assert s[0] == '1' && s[1] == '_' && s[2] == '_';
    assert !DigitPart(s) by {
      assert !IsDigit(s[1]) && !IsDigit(s[2]);
    }
    assert ExpIndex(s) == 4 && IndexOf(s, '.') == 4;
    assert !Decimal(s);
    assert |Lower(s)| == 4;
  }

  lemma FloatTextNoExponent()
    ensures !FloatText("1e")
  {
    StripUnpadded("1e");
    assert ExpIndex("1e") == 1 && "1e"[2..] == "";
    assert Lower("1e") == "1e";
  }

  lemma FloatTextWord()
    ensures !FloatText("abc")
  {
    StripUnpadded("abc");
    assert Lower("abc") == "abc" && IndexOf("abc", '.') == 3 && ExpIndex("abc") == 3;
  }
}
