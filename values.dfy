/**
 * The dynamic values the client handles: the JSON that the server sends and
 * the menus are made of, Python's truthiness, `str()`, `repr()` and `int()`
 * on those values, and the exceptions the client can raise, as data.
 */
module Values {
  import opened Text
  import opened Dicts

  /** The Python exceptions the modelled code raises or lets escape. */
  datatype Error =
    | TypeError
    | KeyError(key: string)
    | ValueError
    | IndexError
    | AttributeError
    | HTTPError                            // requests' raise_for_status
    | ConnectionError                      // requests could not reach the server
    | CallbackServerError(message: string)

  datatype Result<T> = Ok(value: T) | Err(error: Error)

  /** A decoded JSON value; an object keeps its keys in insertion order. */
  datatype Json =
    | JNull
    | JBool(b: bool)
    | JInt(i: int)
    | JStr(s: string)
    | JList(items: seq<Json>)
    | JObj(fields: seq<(string, Json)>)

  /** Python's `bool(x)`. */
  predicate Truthy(j: Json) {
    match j
    case JNull => false
    case JBool(b) => b
    case JInt(i) => i != 0
    case JStr(s) => s != ""
    case JList(items) => items != []
    case JObj(fields) => fields != []
  }

  /** `d.get(key, default)` where `d` must be a dict (anything else has no `.get`). */
  function GetOr(d: Json, key: string, default: Json): Result<Json> {
    match d
    case JObj(fields) =>
      (match Get(fields, key) case Some(v) => Ok(v) case None => Ok(default))
    case _ => Err(AttributeError)
  }

  /** After `del d[k]`, looking up another key gives what it gave before; in an emptied dict, the default. */
  lemma GetOrAfterDelete(fields: seq<(string, Json)>, k: string, k': string, default: Json)
    requires UniqueKeys(fields)
    requires k in Keys(fields) && k' != k
    ensures Delete(fields, k).Some?
    ensures GetOr(JObj(Delete(fields, k).value), k', default) == GetOr(JObj(fields), k', default)
    ensures Delete(fields, k).value == [] ==> GetOr(JObj(fields), k', default) == Ok(default)
  {
    DeleteGetOther(fields, k, k');
  }

  /** The first field of an object is found by its key. */
  lemma GetFirstField(k: string, v: Json, rest: seq<(string, Json)>, default: Json)
    ensures Get([(k, v)] + rest, k) == Some(v)
    ensures GetOr(JObj([(k, v)] + rest), k, default) == Ok(v)
    ensures Subscript(JObj([(k, v)] + rest), k) == Ok(v)
  {
    assert IndexOf([(k, v)] + rest, k) == 0;
  }

  /** `d[key]` on a JSON value: KeyError on a dict without it, TypeError on a scalar. */
  function Subscript(d: Json, key: string): Result<Json> {
    match d
    case JObj(fields) =>
      (match Get(fields, key) case Some(v) => Ok(v) case None => Err(KeyError(key)))
    case _ => Err(TypeError)
  }

  /** What `for x in v` visits: list items, the characters of a string, the keys of a dict. */
  function Iterate(v: Json): (r: Result<seq<Json>>)
    ensures r.Ok? <==> (v.JList? || v.JStr? || v.JObj?)
    ensures v.JList? ==> r == Ok(v.items)
    ensures r.Ok? && (v.JStr? || v.JObj?) ==> forall i :: 0 <= i < |r.value| ==> r.value[i].JStr?
  {
    match v
    case JList(items) => Ok(items)
    case JStr(s) => Ok(seq(|s|, i requires 0 <= i < |s| => JStr([s[i]])))
    case JObj(fields) => Ok(seq(|fields|, i requires 0 <= i < |fields| => JStr(fields[i].0)))
    case _ => Err(TypeError)
  }

  /** `xs.index(x)`, with -1 for the ValueError raised when `x` is absent. */
  function ListIndex<T(==)>(xs: seq<T>, x: T): (i: int)
    ensures -1 <= i < |xs|
    ensures i == -1 <==> x !in xs
    ensures i >= 0 ==> xs[i] == x && x !in xs[..i]
  {
    if xs == [] then -1
    else if xs[0] == x then 0
    else
      var k := ListIndex(xs[1..], x);
      if k < 0 then -1
      else
        assert xs[..k + 1] == [xs[0]] + xs[1..][..k];
        k + 1
  }

  /** `xs.insert(k, v)` for `0 <= k <= len(xs)`. */
  function Insert<T>(xs: seq<T>, k: nat, v: T): (r: seq<T>)
    requires k <= |xs|
    ensures |r| == |xs| + 1 && r[k] == v
    ensures r[..k] == xs[..k] && r[k + 1..] == xs[k..]
  {
    xs[..k] + [v] + xs[k..]
  }

  // ---------------------------------------------------------------------
  // Decimal numerals

  predicate IsDigit(c: char) { '0' <= c <= '9' }

  predicate AllDigits(s: string) { forall i :: 0 <= i < |s| ==> IsDigit(s[i]) }

  function DigitChar(d: nat): char
    requires d < 10
  {
    ('0' as int + d) as char
  }

  /** `str(n)` for a natural number. */
  function NatToString(n: nat): (s: string)
    ensures |s| >= 1 && AllDigits(s)
    ensures s[0] == '0' ==> n == 0
  {
    if n < 10 then [DigitChar(n)] else NatToString(n / 10) + [DigitChar(n % 10)]
  }

  /** `str(i)` for an integer. */
  function IntToString(i: int): (s: string)
    ensures |s| >= 1
    ensures i < 0 <==> s[0] == '-'
    ensures i >= 0 ==> AllDigits(s)
  {
    if i < 0 then "-" + NatToString(-i) else NatToString(i)
  }

  /** The value of a string of decimal digits. */
  function DigitsValue(s: string): nat
    requires AllDigits(s)
  {
    if s == [] then 0
    else 10 * DigitsValue(s[..|s| - 1]) + (s[|s| - 1] as int - '0' as int)
  }

  /** Reading back a written natural gives the same number. */
  lemma {:induction false} NatToStringRoundTrip(n: nat)
    ensures DigitsValue(NatToString(n)) == n
  {
    if n >= 10 {
      var s := NatToString(n);
      assert s[..|s| - 1] == NatToString(n / 10);
      NatToStringRoundTrip(n / 10);
    }
  }

  /** Different naturals are written differently. */
  lemma NatToStringInjective(m: nat, n: nat)
    requires NatToString(m) == NatToString(n)
    ensures m == n
  {
    NatToStringRoundTrip(m);
    NatToStringRoundTrip(n);
  }

  /** Python's whitespace stripping, as `int()` applies it to its argument. */
  function Strip(s: string): (t: string)
    ensures |t| <= |s|
    ensures t == [] || (!IsSpace(t[0]) && !IsSpace(t[|t| - 1]))
    decreases |s|
  {
    if s == [] then []
    else if IsSpace(s[0]) then Strip(s[1..])
    else if IsSpace(s[|s| - 1]) then Strip(s[..|s| - 1])
    else s
  }

  /**
   * `int(s)` for a string: surrounding whitespace, an optional sign and at
   * least one ASCII digit; anything else is a ValueError.
   */
  function ParseInt(s: string): (r: Result<int>)
    ensures r.Err? ==> r.error == ValueError
  {
    var t := Strip(s);
    if t != [] && (t[0] == '-' || t[0] == '+') then
      if |t| > 1 && AllDigits(t[1..]) then
        var magnitude: int := DigitsValue(t[1..]);
        Ok(if t[0] == '-' then -magnitude else magnitude)
      else Err(ValueError)
    else if t != [] && AllDigits(t) then Ok(DigitsValue(t))
    else Err(ValueError)
  }

  /** `int(str(i)) == i`. */
  lemma ParseIntToString(i: int)
    ensures ParseInt(IntToString(i)) == Ok(i)
  {
    if i < 0 {
      ParseNegative(-i);
    } else {
      ParseNatural(i);
    }
  }

  lemma ParseNatural(n: nat)
    ensures ParseInt(NatToString(n)) == Ok(n)
  {
    var s := NatToString(n);
    assert Strip(s) == s;
    NatToStringRoundTrip(n);
  }

  lemma ParseNegative(n: nat)
    requires n > 0
    ensures ParseInt("-" + NatToString(n)) == Ok(-(n as int))
  {
    var s := "-" + NatToString(n);
    assert Strip(s) == s;
    assert s[1..] == NatToString(n);
    NatToStringRoundTrip(n);
  }

  /** Python's `int(x)` for a JSON value (no floats arise from the server's JSON here). */
  function PyInt(j: Json): (r: Result<int>)
    ensures j.JInt? ==> r == Ok(j.i)
    ensures j.JBool? ==> r == Ok(if j.b then 1 else 0)
    ensures (j.JNull? || j.JList? || j.JObj?) ==> r == Err(TypeError)
  {
    match j
    case JInt(i) => Ok(i)
    case JBool(b) => Ok(if b then 1 else 0)
    case JStr(s) => ParseInt(s)
    case _ => Err(TypeError)
  }

  // ---------------------------------------------------------------------
  // str() and repr()

  /** `str(x)`: a string is itself, everything else is its repr. */
  function Str(j: Json): (s: string)
    ensures j.JStr? ==> s == j.s
    ensures j.JInt? ==> s == IntToString(j.i)
  {
    match j
    case JStr(s) => s
    case _ => Repr(j)
  }

  /** `repr(x)`, with strings quoted by single quotes (no escaping). */
  function Repr(j: Json): string
    decreases j, 1
  {
    match j
    case JNull => "None"
    case JBool(b) => if b then "True" else "False"
    case JInt(i) => IntToString(i)
    case JStr(s) => "'" + s + "'"
    case JList(items) => "[" + ReprItems(items, j) + "]"
    case JObj(fields) => "{" + ReprFields(fields, j) + "}"
  }

  function ReprItems(items: seq<Json>, ghost parent: Json): string
    requires forall k :: 0 <= k < |items| ==> items[k] < parent
    decreases parent, 0, |items|
  {
    if items == [] then ""
    else Repr(items[0]) + (if |items| == 1 then "" else ", " + ReprItems(items[1..], parent))
  }

  function ReprFields(fields: seq<(string, Json)>, ghost parent: Json): string
    requires forall k :: 0 <= k < |fields| ==> fields[k].1 < parent
    decreases parent, 0, |fields|
  {
    if fields == [] then ""
    else
      "'" + fields[0].0 + "': " + Repr(fields[0].1)
      + (if |fields| == 1 then "" else ", " + ReprFields(fields[1..], parent))
  }

  /** Each element's `str()`, in order. */
  function StrAll(xs: seq<Json>): (r: seq<string>)
    ensures |r| == |xs|
    ensures forall i :: 0 <= i < |xs| ==> r[i] == Str(xs[i])
  {
    seq(|xs|, i requires 0 <= i < |xs| => Str(xs[i]))
  }

  /** `" ".join(str(x) for x in xs)`. */
  function ListToStr(xs: seq<Json>): string {
    Join(" ", StrAll(xs))
  }

  /** A command whose elements print as single words is recovered by `str.split()`. */
  lemma ListToStrSplits(xs: seq<Json>)
    requires forall i :: 0 <= i < |xs| ==> IsWord(Str(xs[i]))
    ensures SplitWhitespace(ListToStr(xs)) == StrAll(xs)
  {
    SplitWhitespaceJoin(StrAll(xs));
  }
}
