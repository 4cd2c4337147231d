/** The Python runtime notions the core depends on: the exceptions it raises,
    the dynamically typed values that configuration files and metadata hold,
    their truth value, dictionary lookup and update, `str()` and `int()`. */
module Python {
  import opened Wrappers
  import opened Text

  /** The exceptions raised by the modelled code. */
  datatype Error =
    | ValueError(message: string)
    | KeyError(key: string)
    | TypeError(message: string)
    | AttributeError(name: string)
    | Abort                       // typer.Abort: the command stops
    | Raised(message: string)     // an exception raised by code outside the model

  /** A value read from YAML configuration, environment or document metadata.
      A dictionary keeps its entries in insertion order, as Python's does. */
  datatype Value =
    | Null
    | Bool(b: bool)
    | Int(i: int)
    | Str(s: string)
    | List(items: seq<Value>)
    | Dict(entries: seq<Entry>)

  datatype Entry = Entry(key: string, value: Value)

  /** Python's truth value (`bool(v)`). */
  predicate Truthy(v: Value) {
    match v
    case Null => false
    case Bool(b) => b
    case Int(i) => i != 0
    case Str(s) => s != ""
    case List(items) => items != []
    case Dict(entries) => entries != []
  }

  /** `k in d`. */
  predicate HasKey(d: seq<Entry>, k: string) {
    exists i :: 0 <= i < |d| && d[i].key == k
  }

  /** A Python dictionary never holds a key twice. */
  predicate UniqueKeys(d: seq<Entry>) {
    forall i, j :: 0 <= i < j < |d| ==> d[i].key != d[j].key
  }

  /** A value as Python builds it: no dictionary, however deeply nested,
      holds a key twice. */
  predicate WellFormed(v: Value) {
    match v
    case List(items) => forall i :: 0 <= i < |items| ==> WellFormed(items[i])
    case Dict(entries) => WellFormedDict(entries)
    case _ => true
  }

  predicate WellFormedDict(d: seq<Entry>) {
    UniqueKeys(d) && forall i :: 0 <= i < |d| ==> WellFormed(d[i].value)
  }

  lemma {:induction false} HasKeyCons(e: Entry, d: seq<Entry>)
    ensures forall k :: HasKey([e] + d, k) <==> e.key == k || HasKey(d, k)
  {
    forall k ensures HasKey([e] + d, k) <==> e.key == k || HasKey(d, k) {
      if HasKey(d, k) {
        var i :| 0 <= i < |d| && d[i].key == k;
        assert ([e] + d)[i + 1].key == k;
      }
      assert ([e] + d)[0].key == e.key;
    }
  }

  /** `d.get(k)`, with `None` for a missing key. */
  function Get(d: seq<Entry>, k: string): (r: Option<Value>)
    ensures r.Some? <==> HasKey(d, k)
    ensures r.Some? ==> Entry(k, r.value) in d
  {
    if d == [] then None
    else if d[0].key == k then Some(d[0].value)
    else Get(d[1..], k)
  }

  /** Looking a key up in a dictionary extended by one entry at the end. */
  lemma {:induction false} GetSnoc(d: seq<Entry>, e: Entry, k: string)
    ensures Get(d + [e], k) == if HasKey(d, k) then Get(d, k) else if e.key == k then Some(e.value) else None
  {
    if d == [] {
      assert d + [e] == [e];
    } else {
      assert (d + [e])[1..] == d[1..] + [e];
      HasKeyCons(d[0], d[1..]);
      assert d == [d[0]] + d[1..];
      if d[0].key != k {
        GetSnoc(d[1..], e, k);
      }
    }
  }

  /** `d.get(k, default)`. */
  function GetOr(d: seq<Entry>, k: string, default: Value): Value {
    Get(d, k).GetOr(default)
  }

  /** `d[k] = v`: an existing key keeps its place, a new key goes last. */
  function SetKey(d: seq<Entry>, k: string, v: Value): (r: seq<Entry>)
    ensures HasKey(d, k) ==> |r| == |d|
    ensures !HasKey(d, k) ==> r == d + [Entry(k, v)]
    ensures Get(r, k) == Some(v)
    ensures forall k' :: k' != k ==> Get(r, k') == Get(d, k')
    ensures UniqueKeys(d) ==> UniqueKeys(r)
  {
    if d == [] then [Entry(k, v)]
    else if d[0].key == k then
      var r := [Entry(k, v)] + d[1..];
      assert forall i :: 0 <= i < |d| ==> r[i].key == d[i].key;
      r
    else
      var rest := SetKey(d[1..], k, v);
      SetKeyBehind(d, k, v, rest);
      [d[0]] + rest
  }

  /** `d[k] = v` on a dictionary whose first key is not `k` keeps the first
      entry and sets `k` in the rest. */
  lemma {:induction false} SetKeyBehind(d: seq<Entry>, k: string, v: Value, rest: seq<Entry>)
    requires d != [] && d[0].key != k
    requires HasKey(d[1..], k) ==> |rest| == |d| - 1
    requires !HasKey(d[1..], k) ==> rest == d[1..] + [Entry(k, v)]
    requires Get(rest, k) == Some(v)
    requires forall k' :: k' != k ==> Get(rest, k') == Get(d[1..], k')
    requires UniqueKeys(d[1..]) ==> UniqueKeys(rest)
    ensures HasKey(d, k) ==> |[d[0]] + rest| == |d|
    ensures !HasKey(d, k) ==> [d[0]] + rest == d + [Entry(k, v)]
    ensures Get([d[0]] + rest, k) == Some(v)
    ensures forall k' :: k' != k ==> Get([d[0]] + rest, k') == Get(d, k')
    ensures UniqueKeys(d) ==> UniqueKeys([d[0]] + rest)
  {
    var r := [d[0]] + rest;
    assert d == [d[0]] + d[1..];
    HasKeyCons(d[0], d[1..]);
    assert HasKey(d, k) <==> HasKey(d[1..], k);
    assert !HasKey(d, k) ==> r == d + [Entry(k, v)];
    assert Get(r, k) == Get(rest, k);
    forall k' | k' != k ensures Get(r, k') == Get(d, k') {
      if k' != d[0].key { assert Get(r, k') == Get(rest, k'); }
    }
    if UniqueKeys(d) {
      UniqueCons(d[0], d[1..]);
      assert Get(rest, d[0].key) == Get(d[1..], d[0].key);
      UniqueCons(d[0], rest);
    }
  }

  lemma {:induction false} UniqueCons(e: Entry, d: seq<Entry>)
    ensures UniqueKeys([e] + d) <==> !HasKey(d, e.key) && UniqueKeys(d)
  {
    var r := [e] + d;
    if UniqueKeys(r) {
      forall i | 0 <= i < |d| ensures d[i].key != e.key { assert r[0] == e && r[i + 1] == d[i]; }
      forall i, j | 0 <= i < j < |d| ensures d[i].key != d[j].key { assert r[i + 1] == d[i] && r[j + 1] == d[j]; }
    }
    if !HasKey(d, e.key) && UniqueKeys(d) {
      forall i, j | 0 <= i < j < |r| ensures r[i].key != r[j].key {
        assert r[j] == d[j - 1];
        if i > 0 { assert r[i] == d[i - 1]; }
      }
    }
  }

  /** `a | b`: the entries of `a`, updated and extended by those of `b`. */
  function Merge(a: seq<Entry>, b: seq<Entry>): (r: seq<Entry>)
    requires UniqueKeys(b)
    ensures forall k :: Get(r, k) == if HasKey(b, k) then Get(b, k) else Get(a, k)
    ensures UniqueKeys(a) ==> UniqueKeys(r)
    decreases |b|
  {
    if b == [] then a
    else
      var e, rest := b[0], b[1..];
      assert b == [e] + rest;
      UniqueCons(e, rest);
      var s := SetKey(a, e.key, e.value);
      var m := Merge(s, rest);
      MergeStep(a, b, s, m);
      m
  }

  /** The step of `Merge`: setting the first entry of `b`, then merging
      the rest, merges all of `b`. */
  lemma {:induction false} MergeStep(a: seq<Entry>, b: seq<Entry>, s: seq<Entry>, m: seq<Entry>)
    requires b != [] && !HasKey(b[1..], b[0].key)
    requires Get(s, b[0].key) == Some(b[0].value)
    requires forall k :: k != b[0].key ==> Get(s, k) == Get(a, k)
    requires forall k :: Get(m, k) == if HasKey(b[1..], k) then Get(b[1..], k) else Get(s, k)
    ensures forall k :: Get(m, k) == if HasKey(b, k) then Get(b, k) else Get(a, k)
  {
    assert b == [b[0]] + b[1..];
    HasKeyCons(b[0], b[1..]);
  }

  /** The decimal digit `d` as a character. */
  function DigitChar(d: nat): char
    requires d < 10
  {
    "0123456789"[d]
  }

  predicate IsDigit(c: char) {
    '0' <= c <= '9'
  }

  predicate AllDigits(s: string) {
    forall k :: 0 <= k < |s| ==> IsDigit(s[k])
  }

  /** `str(n)` for a natural number. */
  function NatToString(n: nat): (r: string)
    ensures r != [] && AllDigits(r)
    decreases n
  {
    if n < 10 then [DigitChar(n)] else NatToString(n / 10) + [DigitChar(n % 10)]
  }

  /** `str(i)` for an integer. */
  function IntToString(i: int): string {
    if i < 0 then "-" + NatToString(-i) else NatToString(i)
  }

  /** The number written by the decimal digits `s`. */
  function DigitsValue(s: string): nat
    requires AllDigits(s)
  {
    if s == [] then 0
    else
      var last := s[|s| - 1];
      assert IsDigit(last);
      DigitsValue(s[..|s| - 1]) * 10 + (last as int - '0' as int)
  }

  /** `int(s)` for a string: surrounding whitespace, an optional sign, then
      one or more decimal digits; anything else raises `ValueError`. */
  function ParseInt(s: string): Result<int, Error> {
    ParseStripped(Strip(s, Whitespace), s)
  }

  /** The exception `int(s)` raises for a string that is not a numeral. */
  function InvalidLiteral(s: string): Error {
    ValueError("invalid literal for int() with base 10: '" + s + "'")
  }

  /** `int(s)` once `s` is stripped to `t`. */
  function ParseStripped(t: string, s: string): Result<int, Error> {
    var signed := t != [] && (t[0] == '-' || t[0] == '+');
    var digits := if signed then t[1..] else t;
    if digits == [] || !AllDigits(digits) then
      Err(InvalidLiteral(s))
    else
      var n: int := DigitsValue(digits);
      if signed && t[0] == '-' then Ok(-n) else Ok(n)
  }

  lemma {:induction false} DigitsValueOfNatToString(n: nat)
    ensures DigitsValue(NatToString(n)) == n
    decreases n
  {
    if n >= 10 {
      var s := NatToString(n / 10) + [DigitChar(n % 10)];
      assert s[..|s| - 1] == NatToString(n / 10);
      DigitsValueOfNatToString(n / 10);
    }
  }

  /** `int()` of a string without surrounding whitespace. */
  lemma {:induction false} ParseIntOfStripped(s: string)
    requires s != [] && s[0] !in Whitespace && s[|s| - 1] !in Whitespace
    ensures ParseInt(s) == ParseStripped(s, s)
  {
    StripClean(s, Whitespace);
  }

  /** A decimal digit is not whitespace. */
  lemma {:induction false} DigitNotWhitespace(c: char)
    requires IsDigit(c)
    ensures c !in Whitespace
  {
  }

  /** `int()` of decimal digits, once stripped. */
  lemma {:induction false} ParseStrippedDigits(digits: string, s: string)
    requires digits != [] && AllDigits(digits)
    ensures ParseStripped(digits, s) == Ok(DigitsValue(digits) as int)
  {
    assert IsDigit(digits[0]);
  }

  /** `int()` of a minus sign followed by decimal digits, once stripped. */
  lemma {:induction false} ParseStrippedNegative(digits: string, s: string)
    requires digits != [] && AllDigits(digits)
    ensures ParseStripped(['-'] + digits, s) == Ok(-(DigitsValue(digits) as int))
  {
    var t := ['-'] + digits;
    assert t[1..] == digits;
  }

  /** `int(str(i)) == i`: the two conversions are inverse. */
  lemma {:induction false} ParseIntOfIntToString(i: int)
    ensures ParseInt(IntToString(i)) == Ok(i)
  {
    var n: nat := if i < 0 then -i else i;
    var digits := NatToString(n);
    DigitsValueOfNatToString(n);
    DigitNotWhitespace(digits[|digits| - 1]);
    if i < 0 {
      var s := ['-'] + digits;
      assert IntToString(i) == s;
      assert s[|s| - 1] == digits[|digits| - 1];
      ParseIntOfStripped(s);
      ParseStrippedNegative(digits, s);
    } else {
      DigitNotWhitespace(digits[0]);
      ParseIntOfStripped(digits);
      ParseStrippedDigits(digits, digits);
    }
  }

  /** `int(v)`: integers as they are, booleans as 0 or 1, strings parsed;
      anything else raises `TypeError`. */
  function ToInt(v: Value): (r: Result<int, Error>)
    ensures v.Int? ==> r == Ok(v.i)
    ensures v.Null? || v.List? || v.Dict? ==> r.Err? && r.error.TypeError?
  {
    match v
    case Int(i) => Ok(i)
    case Bool(b) => Ok(if b then 1 else 0)
    case Str(s) => ParseInt(s)
    case _ => Err(TypeError("int() argument must be a string, a bytes-like object or a real number"))
  }

  /** A value Python compares as a number (`bool` is a subclass of `int`). */
  predicate IsNumber(v: Value) {
    v.Int? || v.Bool?
  }

  function NumberOf(v: Value): int
    requires IsNumber(v)
  {
    if v.Int? then v.i else if v.b then 1 else 0
  }

  /** The quote `repr` puts around a string: a single quote, unless the
      string holds a single quote and no double quote. */
  function QuoteFor(s: string): char {
    if '\'' in s && '"' !in s then '"' else '\''
  }

  /** One character as it appears between the quotes of a string's `repr`:
      the backslash, the chosen quote, tab, newline and carriage return are
      escaped. */
  function EscapeChar(c: char, quote: char): string {
    if c == '\\' then "\\\\"
    else if c == quote then ['\\', quote]
    else if c == '\t' then "\\t"
    else if c == '\n' then "\\n"
    else if c == '\r' then "\\r"
    else [c]
  }

  function Escaped(s: string, quote: char): string {
    if s == [] then [] else Escaped(s[..|s| - 1], quote) + EscapeChar(s[|s| - 1], quote)
  }

  /** `repr(s)` for a string. */
  function ReprString(s: string): (r: string)
    ensures |r| >= |s| + 2
    ensures r[0] == r[|r| - 1] == QuoteFor(s)
  {
    var q := QuoteFor(s);
    EscapedLength(s, q);
    [q] + Escaped(s, q) + [q]
  }

  lemma {:induction false} EscapedLength(s: string, quote: char)
    ensures |Escaped(s, quote)| >= |s|
  {
    if s != [] {
      EscapedLength(s[..|s| - 1], quote);
    }
  }

  /** A character `repr` writes as it is. */
  predicate PlainChar(c: char) {
    c != '\\' && c != '\'' && c != '"' && c != '\t' && c != '\n' && c != '\r'
  }

  /** A string without quotes, backslashes, tabs or line breaks is shown
      between single quotes as it is. */
  lemma {:induction false} ReprPlainString(s: string)
    requires forall k :: 0 <= k < |s| ==> PlainChar(s[k])
    ensures ReprString(s) == "'" + s + "'"
  {
    assert '\'' !in s;
    EscapedPlain(s, '\'');
  }

  lemma {:induction false} EscapedPlain(s: string, quote: char)
    requires quote == '\'' || quote == '"'
    requires forall k :: 0 <= k < |s| ==> PlainChar(s[k])
    ensures Escaped(s, quote) == s
  {
    if s != [] {
      var init := s[..|s| - 1];
      EscapedPlain(init, quote);
      assert init + [s[|s| - 1]] == s;
    }
  }

  /** A string holding a single quote and no double quote is shown between
      double quotes, and its single quotes are not escaped. */
  lemma {:induction false} ReprSwitchesQuote(s: string)
    requires '\'' in s && '"' !in s
    ensures ReprString(s)[0] == '"'
    ensures EscapeChar('\'', QuoteFor(s)) == "'"
  {
  }

  /** `repr(v)`. */
  function Repr(v: Value): string {
    match v
    case Null => "None"
    case Bool(b) => if b then "True" else "False"
    case Int(i) => IntToString(i)
    case Str(s) => ReprString(s)
    case List(items) => "[" + ReprItems(items) + "]"
    case Dict(entries) => "{" + ReprEntries(entries) + "}"
  }

  function ReprItems(items: seq<Value>): string {
    if items == [] then ""
    else Repr(items[0]) + (if |items| == 1 then "" else ", " + ReprItems(items[1..]))
  }

  function ReprEntries(entries: seq<Entry>): string {
    if entries == [] then ""
    else
      ReprString(entries[0].key) + ": " + Repr(entries[0].value)
      + (if |entries| == 1 then "" else ", " + ReprEntries(entries[1..]))
  }

  /** `str(v)`: a string is itself, everything else its `repr`. */
  function StrOf(v: Value): string {
    if v.Str? then v.s else Repr(v)
  }
}
