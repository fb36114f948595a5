/** The Python built-in behaviour the agents rely on, over JSON values:
    `dict.get`, truthiness, comparison of numbers, iteration, `in`,
    subscripting, slicing, `str.join` and `str()`. Each operation that Python
    refuses for a value of the wrong type returns `Raised`. */
module Python {
  import opened Json

  /** `d.get(k, default)` on a value known to be a dict. */
  function Get(d: Dict, k: string, default: Json): (r: Json)
    ensures k in Keys(d) ==> Lookup(d, k) == Some(r)
    ensures k !in Keys(d) ==> r == default
  {
    LookupFound(d, k);
    match Lookup(d, k)
    case Some(v) => v
    case None => default
  }

  /** `x.get(k, default)` on any value: only a dict has `get`
      (AttributeError otherwise). */
  function GetOf(x: Json, k: string, default: Json): (r: Result<Json>)
    ensures r.Ok? <==> x.JObj?
    ensures x.JObj? ==> r.value == Get(x.fields, k, default)
  {
    if x.JObj? then Ok(Get(x.fields, k, default)) else Raised
  }

  /** `bool(x)`: None, False, 0 and empty containers are false. */
  predicate Truthy(x: Json)
  {
    match x
    case JNull => false
    case JBool(b) => b
    case JNum(n) => n != 0
    case JStr(s) => s != ""
    case JArr(items) => items != []
    case JObj(fields) => fields != []
  }

  /** The value `x` takes in a comparison with an int: a bool is an int
      (False is 0, True is 1); any other non-number raises TypeError. */
  function Num(x: Json): (r: Result<int>)
    ensures r.Ok? <==> x.JNum? || x.JBool?
    ensures x.JNum? ==> r == Ok(x.n)
  {
    match x
    case JNum(n) => Ok(n)
    case JBool(b) => Ok(if b then 1 else 0)
    case _ => Raised
  }

  function KeyStrings(d: Dict): (r: seq<Json>)
    ensures |r| == |d|
    ensures forall i :: 0 <= i < |d| ==> r[i] == JStr(d[i].key)
  {
    seq(|d|, i requires 0 <= i < |d| => JStr(d[i].key))
  }

  function CharStrings(s: string): (r: seq<Json>)
    ensures |r| == |s|
    ensures forall i :: 0 <= i < |s| ==> r[i] == JStr([s[i]])
  {
    seq(|s|, i requires 0 <= i < |s| => JStr([s[i]]))
  }

  /** What a `for` loop over `x` visits: the items of a list, the keys of a
      dict, the one-character strings of a string; anything else is not
      iterable (TypeError). */
  function Iterate(x: Json): (r: Result<seq<Json>>)
    ensures r.Ok? <==> x.JArr? || x.JObj? || x.JStr?
    ensures x.JArr? ==> r == Ok(x.items)
  {
    match x
    case JArr(items) => Ok(items)
    case JObj(fields) => Ok(KeyStrings(fields))
    case JStr(s) => Ok(CharStrings(s))
    case _ => Raised
  }

  /** `k in x` for a string `k`: a key of a dict, an item of a list, a
      substring of a string; other values raise TypeError. */
  function Contains(x: Json, k: string): (r: Result<bool>)
    ensures r.Ok? <==> x.JObj? || x.JArr? || x.JStr?
    ensures x.JObj? ==> r == Ok(k in Keys(x.fields))
  {
    match x
    case JObj(fields) => Ok(k in Keys(fields))
    case JArr(items) => Ok(JStr(k) in items)
    case JStr(s) => Ok(IsSubstring(k, s))
    case _ => Raised
  }

  /** `x[k]` for a string `k`: a dict lookup (KeyError when absent); lists and
      strings need integer indices (TypeError). */
  function Subscript(x: Json, k: string): (r: Result<Json>)
    ensures r.Ok? <==> x.JObj? && k in Keys(x.fields)
    ensures r.Ok? ==> Lookup(x.fields, k) == Some(r.value)
  {
    if x.JObj? && k in Keys(x.fields) then LookupFound(x.fields, k); Ok(Lookup(x.fields, k).value) else Raised
  }

  function Min(a: nat, b: nat): nat { if a <= b then a else b }

  /** `x[:n]`: a prefix of a list or a string; other values raise TypeError. */
  function Take(x: Json, n: nat): (r: Result<Json>)
    ensures r.Ok? <==> x.JArr? || x.JStr?
    ensures x.JArr? ==> r.value.JArr? && |r.value.items| <= n && r.value.items <= x.items
    ensures x.JStr? ==> r.value.JStr? && |r.value.s| <= n && r.value.s <= x.s
  {
    match x
    case JArr(items) => Ok(JArr(items[..Min(n, |items|)]))
    case JStr(s) => Ok(JStr(s[..Min(n, |s|)]))
    case _ => Raised
  }

  predicate AllStrings(xs: seq<Json>)
  {
    forall i :: 0 <= i < |xs| ==> xs[i].JStr?
  }

  function Texts(xs: seq<Json>): (r: seq<string>)
    requires AllStrings(xs)
    ensures |r| == |xs|
    ensures forall i :: 0 <= i < |xs| ==> r[i] == xs[i].s
  {
    seq(|xs|, i requires 0 <= i < |xs| => xs[i].s)
  }

  /** `sep.join(x)`: every item visited by iterating `x` must be a string
      (TypeError otherwise). */
  function JoinOf(x: Json, sep: string): (r: Result<string>)
    ensures r.Ok? <==> Iterate(x).Ok? && AllStrings(Iterate(x).value)
  {
    match Iterate(x)
    case Raised => Raised
    case Ok(xs) => if AllStrings(xs) then Ok(Join(Texts(xs), sep)) else Raised
  }

  /** `str(x)`: a string is itself, everything else is its `repr`. */
  function Str(x: Json): (r: string)
    ensures x.JStr? ==> r == x.s
  {
    if x.JStr? then x.s else Repr(x)
  }

  /** `repr(x)` for JSON values: None, True/False, decimal integers, quoted
      strings, `[a, b]` and `{'k': v}`. */
  function Repr(x: Json): string
  {
    match x
    case JNull => "None"
    case JBool(b) => if b then "True" else "False"
    case JNum(n) => IntToString(n)
    case JStr(s) => "'" + s + "'"
    case JArr(items) =>
      "[" + Join(seq(|items|, i requires 0 <= i < |items| => Repr(items[i])), ", ") + "]"
    case JObj(fields) =>
      "{" + Join(seq(|fields|, i requires 0 <= i < |fields| =>
                   "'" + fields[i].key + "': " + Repr(fields[i].val)), ", ") + "}"
  }
}
