/** A decoded JSON document as the scanner's Python code sees it, together with
    the handful of Python operations the checks apply to it: truthiness,
    `dict.get`, the `in` operator, `for` iteration, subscripting, comparison
    with an integer, equality with an integer or a string, `str.join`, and the
    text that `str()` and `repr()` produce. Every operation that can raise in
    Python returns a `Result` whose error is the exception it raises. */
module PyJson {

  datatype Option<T> = None | Some(value: T)

  /** The value `json.loads` hands back. An object keeps its keys in document
      order (Python dicts preserve insertion order). */
  datatype Json =
    | JNull
    | JBool(b: bool)
    | JInt(i: int)
    | JString(s: string)
    | JArray(items: seq<Json>)
    | JObject(fields: seq<(string, Json)>)

  /** The Python exceptions the checks can run into. */
  datatype PyError =
    | DecodeError(message: string)                // json.JSONDecodeError
    | NotIterable(typeName: string)               // for x in v
    | NotContainer(typeName: string)              // key in v
    | NoAttribute(typeName: string, attr: string) // v.get(...)
    | StrIndexedByStr                             // "text"["key"]
    | ListIndexedByStr                            // [..]["key"]
    | NotSubscriptable(typeName: string)          // 5["key"]
    | KeyMissing(key: string)                     // {..}["absent"]
    | Unorderable(op: string, left: string, right: string)
    | JoinItem(index: nat, typeName: string)      // ", ".join([.., 5, ..])

  datatype Result<T> = Ok(value: T) | Err(error: PyError)

  /** Python's name for the type of a decoded value. */
  function TypeName(v: Json): string
  {
    match v
    case JNull => "NoneType"
    case JBool(_) => "bool"
    case JInt(_) => "int"
    case JString(_) => "str"
    case JArray(_) => "list"
    case JObject(_) => "dict"
  }

  /** Python truthiness: None, False, 0 and empty containers are false. */
  predicate Truthy(v: Json)
  {
    match v
    case JNull => false
    case JBool(b) => b
    case JInt(i) => i != 0
    case JString(s) => |s| > 0
    case JArray(xs) => |xs| > 0
    case JObject(fs) => |fs| > 0
  }

  /** `v == n` for an integer literal n: a bool compares as 0 or 1. */
  predicate EqInt(v: Json, n: int)
  {
    v == JInt(n) || (v.JBool? && (if v.b then 1 else 0) == n)
  }

  /** `v == True` or `v == False`: bool is a subclass of int, so 1 equals True. */
  predicate EqBool(v: Json, b: bool)
  {
    EqInt(v, if b then 1 else 0)
  }

  /** `v == t` for a string literal t: only a string of the same text is equal. */
  predicate EqStr(v: Json, t: string)
  {
    v == JString(t)
  }

  predicate HasKey(fields: seq<(string, Json)>, key: string)
  {
    exists k :: 0 <= k < |fields| && fields[k].0 == key
  }

  /** The value stored under `key`, if any. */
  function Lookup(fields: seq<(string, Json)>, key: string): (r: Option<Json>)
    ensures r.Some? <==> HasKey(fields, key)
    ensures r.Some? ==> exists k :: 0 <= k < |fields| && fields[k] == (key, r.value)
  {
    if fields == [] then None
    else if fields[0].0 == key then Some(fields[0].1)
    else
      var r := Lookup(fields[1..], key);
      assert forall k :: 0 <= k < |fields| - 1 ==> fields[1..][k] == fields[k + 1];
      assert HasKey(fields, key) ==> HasKey(fields[1..], key) by {
        if HasKey(fields, key) {
          var k :| 0 <= k < |fields| && fields[k].0 == key;
          assert fields[1..][k - 1].0 == key;
        }
      }
      r
  }

  /** `d.get(key, default)` on the fields of a dict. */
  function FieldOr(fields: seq<(string, Json)>, key: string, default: Json): (r: Json)
    ensures !HasKey(fields, key) ==> r == default
    ensures HasKey(fields, key) ==> exists k :: 0 <= k < |fields| && fields[k] == (key, r)
  {
    match Lookup(fields, key)
    case Some(x) => x
    case None => default
  }

  /** `v.get(key, default)`: only a dict has a `get` attribute. */
  function Get(v: Json, key: string, default: Json): (r: Result<Json>)
    ensures r.Ok? <==> v.JObject?
    ensures v.JObject? ==> r.value == FieldOr(v.fields, key, default)
    ensures !v.JObject? ==> r.error == NoAttribute(TypeName(v), "get")
  {
    if v.JObject? then Ok(FieldOr(v.fields, key, default))
    else Err(NoAttribute(TypeName(v), "get"))
  }

  predicate OccursAt(t: string, s: string, k: nat)
  {
    k + |t| <= |s| && s[k..k + |t|] == t
  }

  predicate IsSubstring(t: string, s: string)
  {
    exists k: nat | k <= |s| :: OccursAt(t, s, k)
  }

  /** `key in v`: a dict tests its keys, a string its substrings, a list its
      elements; None, booleans and integers raise TypeError. */
  function Contains(v: Json, key: string): (r: Result<bool>)
    ensures r.Ok? <==> (v.JObject? || v.JString? || v.JArray?)
    ensures v.JObject? ==> r == Ok(HasKey(v.fields, key))
    ensures v.JString? ==> r == Ok(IsSubstring(key, v.s))
    ensures v.JArray? ==> r == Ok(JString(key) in v.items)
    ensures r.Err? ==> r.error == NotContainer(TypeName(v))
  {
    match v
    case JObject(fs) => Ok(HasKey(fs, key))
    case JString(s) => Ok(IsSubstring(key, s))
    case JArray(xs) => Ok(JString(key) in xs)
    case _ => Err(NotContainer(TypeName(v)))
  }

  /** `v[key]` with a string key. */
  function Index(v: Json, key: string): (r: Result<Json>)
    ensures r.Ok? <==> v.JObject? && HasKey(v.fields, key)
    ensures r.Ok? ==> r.value == FieldOr(v.fields, key, JNull)
    ensures v.JObject? && !HasKey(v.fields, key) ==> r == Err(KeyMissing(key))
    ensures v.JString? ==> r == Err(StrIndexedByStr)
    ensures v.JArray? ==> r == Err(ListIndexedByStr)
    ensures !v.JObject? && !v.JString? && !v.JArray? ==> r == Err(NotSubscriptable(TypeName(v)))
  {
    match v
    case JObject(fs) =>
      (match Lookup(fs, key) case Some(x) => Ok(x) case None => Err(KeyMissing(key)))
    case JString(_) => Err(StrIndexedByStr)
    case JArray(_) => Err(ListIndexedByStr)
    case _ => Err(NotSubscriptable(TypeName(v)))
  }

  /** The items a Python `for` loop visits: a list's elements, a string's
      one-character strings, a dict's keys. */
  function Iterate(v: Json): (r: Result<seq<Json>>)
    ensures r.Ok? <==> (v.JArray? || v.JString? || v.JObject?)
    ensures v.JArray? ==> r.value == v.items
    ensures v.JString? ==> |r.value| == |v.s| && forall k :: 0 <= k < |v.s| ==> r.value[k] == JString([v.s[k]])
    ensures v.JObject? ==> |r.value| == |v.fields| && forall k :: 0 <= k < |v.fields| ==> r.value[k] == JString(v.fields[k].0)
    ensures r.Err? ==> r.error == NotIterable(TypeName(v))
  {
    match v
    case JArray(xs) => Ok(xs)
    case JString(s) => Ok(seq(|s|, k requires 0 <= k < |s| => JString([s[k]])))
    case JObject(fs) => Ok(seq(|fs|, k requires 0 <= k < |fs| => JString(fs[k].0)))
    case _ => Err(NotIterable(TypeName(v)))
  }

  /** `if isinstance(data, dict): data = [data]` */
  function AsList(data: Json): Json
  {
    if data.JObject? then JArray([data]) else data
  }

  /** `v > n` for an integer literal n: defined for integers and booleans only. */
  function GreaterThan(v: Json, n: int): (r: Result<bool>)
    ensures r.Ok? <==> (v.JInt? || v.JBool?)
    ensures v.JInt? ==> r.value == (v.i > n)
    ensures v.JBool? ==> r.value == ((if v.b then 1 else 0) > n)
    ensures r.Err? ==> r.error == Unorderable(">", TypeName(v), "int")
  {
    match v
    case JInt(i) => Ok(i > n)
    case JBool(b) => Ok((if b then 1 else 0) > n)
    case _ => Err(Unorderable(">", TypeName(v), "int"))
  }

  /** `sep.join(parts)` for parts that are already strings. */
  function JoinStrings(sep: string, parts: seq<string>): string
  {
    if |parts| == 0 then ""
    else if |parts| == 1 then parts[0]
    else JoinStrings(sep, parts[..|parts| - 1]) + sep + parts[|parts| - 1]
  }

  /** `sep.join(items)` for decoded values: every item must be a string; the
      first one that is not raises TypeError naming its position and type. */
  function Join(sep: string, items: seq<Json>): (r: Result<string>)
    ensures r.Ok? <==> forall k :: 0 <= k < |items| ==> items[k].JString?
    ensures r.Ok? ==> r.value == JoinStrings(sep, seq(|items|, k requires 0 <= k < |items| => items[k].s))
    ensures r.Err? ==> exists k :: 0 <= k < |items| && !items[k].JString?
                                   && r.error == JoinItem(k, TypeName(items[k]))
                                   && forall j :: 0 <= j < k ==> items[j].JString?
  {
    if |items| == 0 then Ok("")
    else
      var init := items[..|items| - 1];
      var last := items[|items| - 1];
      assert forall k :: 0 <= k < |init| ==> init[k] == items[k];
      match Join(sep, init)
      case Err(e) => Err(e)
      case Ok(prefix) =>
        if !last.JString? then Err(JoinItem(|items| - 1, TypeName(last)))
        else
          assert seq(|init|, k requires 0 <= k < |init| => init[k].s)
              == seq(|items|, k requires 0 <= k < |items| => items[k].s)[..|items| - 1];
          Ok(if |items| == 1 then last.s else prefix + sep + last.s)
  }

  // ---------------------------------------------------------------------------
  // Decimal text of integers, as str() writes it

  function DigitChar(d: nat): char
    requires d < 10
  {
    ('0' as int + d) as char
  }

  predicate AllDigits(s: string)
  {
    forall k :: 0 <= k < |s| ==> '0' <= s[k] <= '9'
  }

  /** The decimal numeral of n, without leading zeros. */
  function NatToDecimal(n: nat): (s: string)
    ensures |s| >= 1 && AllDigits(s)
    ensures n > 0 ==> s[0] != '0'
    decreases n
  {
    if n < 10 then [DigitChar(n)] else NatToDecimal(n / 10) + [DigitChar(n % 10)]
  }

  /** The number a numeral denotes (the inverse of NatToDecimal). */
  function DecimalValue(s: string): nat
    requires AllDigits(s)
  {
    if s == [] then 0 else DecimalValue(s[..|s| - 1]) * 10 + (s[|s| - 1] as int - '0' as int)
  }

  lemma {:induction false} DecimalRoundTrip(n: nat)
    ensures DecimalValue(NatToDecimal(n)) == n
    decreases n
  {
    if n >= 10 {
      DecimalRoundTrip(n / 10);
      var s := NatToDecimal(n);
      assert s[..|s| - 1] == NatToDecimal(n / 10);
    }
  }

  function IntToDecimal(i: int): (s: string)
    ensures i >= 0 ==> AllDigits(s) && DecimalValue(s) == i
    ensures i < 0 ==> |s| >= 2 && s[0] == '-' && AllDigits(s[1..]) && DecimalValue(s[1..]) == -i
  {
    if i < 0 then
      DecimalRoundTrip(-i);
      assert ("-" + NatToDecimal(-i))[1..] == NatToDecimal(-i);
      "-" + NatToDecimal(-i)
    else
      DecimalRoundTrip(i);
      NatToDecimal(i)
  }

  // ---------------------------------------------------------------------------
  // repr() of a string

  function HexDigit(d: nat): char
    requires d < 16
  {
    if d < 10 then ('0' as int + d) as char else ('a' as int + d - 10) as char
  }

  function HexValue(c: char): nat
  {
    if '0' <= c <= '9' then c as int - '0' as int
    else if 'a' <= c <= 'f' then c as int - 'a' as int + 10
    else 0
  }

  /** A control character that repr() writes as a \x escape. */
  predicate IsHexEscaped(c: char)
  {
    (c < ' ' && c != '\n' && c != '\r' && c != '\t') || c as int == 0x7F
  }

  /** repr() quotes with ' unless the text holds ' and no ". */
  function QuoteFor(s: string): (q: char)
    ensures q == '\'' || q == '"'
  {
    if '\'' in s && '"' !in s then '"' else '\''
  }

  function EscapeChar(c: char, q: char): string
  {
    if c == '\\' then "\\\\"
    else if c == q then ['\\', q]
    else if c == '\n' then "\\n"
    else if c == '\r' then "\\r"
    else if c == '\t' then "\\t"
    else if IsHexEscaped(c) then ['\\', 'x', HexDigit(c as int / 16), HexDigit(c as int % 16)]
    else [c]
  }

  function EscapeAll(s: string, q: char): string
  {
    if s == [] then [] else EscapeChar(s[0], q) + EscapeAll(s[1..], q)
  }

  /** The text of repr(s): the escaped body between the chosen quotes. */
  function ReprString(s: string): (r: string)
    ensures |r| >= 2 && r[0] == QuoteFor(s) && r[|r| - 1] == QuoteFor(s)
  {
    [QuoteFor(s)] + EscapeAll(s, QuoteFor(s)) + [QuoteFor(s)]
  }

  /** Reads an escaped body back (the inverse of EscapeAll). */
  function Unescape(t: string): Option<string>
    decreases |t|
  {
    if t == [] then Some([])
    else if t[0] != '\\' then
      match Unescape(t[1..]) case Some(rest) => Some([t[0]] + rest) case None => None
    else if |t| < 2 then None
    else
      var e := t[1];
      if e == 'x' then
        if |t| < 4 then None
        else
          var code := HexValue(t[2]) * 16 + HexValue(t[3]);
          match Unescape(t[4..]) case Some(rest) => Some([code as char] + rest) case None => None
      else
        var c := if e == 'n' then '\n' else if e == 'r' then '\r' else if e == 't' then '\t' else e;
        match Unescape(t[2..]) case Some(rest) => Some([c] + rest) case None => None
  }

  /** Unescaping one escaped character in front of some text. */
  lemma UnescapeStep(c: char, q: char, rest: string, r: string)
    requires q == '\'' || q == '"'
    requires Unescape(rest) == Some(r)
    ensures Unescape(EscapeChar(c, q) + rest) == Some([c] + r)
  {
    var t := EscapeChar(c, q) + rest;
    if c == '\\' || c == q || c == '\n' || c == '\r' || c == '\t' {
      assert t[2..] == rest;
    } else if IsHexEscaped(c) {
      var hi, lo := c as int / 16, c as int % 16;
      assert HexValue(HexDigit(hi)) == hi && HexValue(HexDigit(lo)) == lo;
      assert t[4..] == rest;
      assert (hi * 16 + lo) as char == c;
    } else {
      assert t[1..] == rest;
    }
  }

  lemma {:induction false} UnescapeEscapeAll(s: string, q: char)
    requires q == '\'' || q == '"'
    ensures Unescape(EscapeAll(s, q)) == Some(s)
    decreases |s|
  {
    if s != [] {
      UnescapeEscapeAll(s[1..], q);
      UnescapeStep(s[0], q, EscapeAll(s[1..], q), s[1..]);
      assert [s[0]] + s[1..] == s;
    }
  }

  /** Reading repr(s) back between its quotes gives s again. */
  lemma ReprStringRoundTrip(s: string)
    ensures var r := ReprString(s); Unescape(r[1..|r| - 1]) == Some(s)
  {
    var r := ReprString(s);
    assert r[1..|r| - 1] == EscapeAll(s, QuoteFor(s));
    UnescapeEscapeAll(s, QuoteFor(s));
  }

  // ---------------------------------------------------------------------------
  // str() and repr() of decoded values

  /** repr(v): strings quoted, containers written recursively. */
  function Repr(v: Json): (r: string)
    decreases v, 1
  {
    match v
    case JString(s) => ReprString(s)
    case _ => Str(v)
  }

  /** str(v), which is what an f-string inserts. */
  function Str(v: Json): (r: string)
    ensures v.JString? ==> r == v.s
    ensures v.JNull? ==> r == "None"
    ensures v.JInt? && v.i >= 0 ==> AllDigits(r) && DecimalValue(r) == v.i
    decreases v, 0
  {
    match v
    case JNull => "None"
    case JBool(b) => if b then "True" else "False"
    case JInt(i) => IntToDecimal(i)
    case JString(s) => s
    case JArray(xs) => "[" + ReprItems(v, xs) + "]"
    case JObject(fs) => "{" + ReprFields(v, fs) + "}"
  }

  function ReprItems(ghost parent: Json, xs: seq<Json>): string
    requires forall k :: 0 <= k < |xs| ==> xs[k] < parent
    decreases parent, 0, |xs|
  {
    if xs == [] then ""
    else if |xs| == 1 then Repr(xs[0])
    else ReprItems(parent, xs[..|xs| - 1]) + ", " + Repr(xs[|xs| - 1])
  }

  function ReprFields(ghost parent: Json, fs: seq<(string, Json)>): string
    requires forall k :: 0 <= k < |fs| ==> fs[k].1 < parent
    decreases parent, 0, |fs|
  {
    if fs == [] then ""
    else
      var entry := ReprString(fs[|fs| - 1].0) + ": " + Repr(fs[|fs| - 1].1);
      if |fs| == 1 then entry else ReprFields(parent, fs[..|fs| - 1]) + ", " + entry
  }

  // ---------------------------------------------------------------------------
  // str() of the exceptions

  function Quoted(t: string): string { "'" + t + "'" }

  /** The text str(e) gives for each exception, as CPython 3.11 and 3.12 word it. */
  function Message(e: PyError): (m: string)
    ensures e.DecodeError? ==> m == e.message
  {
    match e
    case DecodeError(m) => m
    case NotIterable(t) => Quoted(t) + " object is not iterable"
    case NotContainer(t) => "argument of type " + Quoted(t) + " is not iterable"
    case NoAttribute(t, a) => Quoted(t) + " object has no attribute " + Quoted(a)
    case StrIndexedByStr => "string indices must be integers, not 'str'"
    case ListIndexedByStr => "list indices must be integers or slices, not str"
    case NotSubscriptable(t) => Quoted(t) + " object is not subscriptable"
    case KeyMissing(k) => ReprString(k)
    case Unorderable(op, l, r) => Quoted(op) + " not supported between instances of " + Quoted(l) + " and " + Quoted(r)
    case JoinItem(k, t) => "sequence item " + NatToDecimal(k) + ": expected str instance, " + t + " found"
  }
}
