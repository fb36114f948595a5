/** The JavaScript behaviour the migration script relies on, over parsed JSON:
    property access (with `undefined` for a missing property), optional
    chaining, truthiness and `||` defaults, `Array.isArray`, `typeof`,
    `Object.keys`/`Object.values`, and `String.prototype.trim`.

    A parsed object never holds the same key twice, so reading the first
    field with a key is reading the property. */
module Js {
  import opened Json

  /** A property read: `None` is `undefined`. */
  type Value = Option<Json>

  /** `x.k` for a named property. Reading a property of `null` or `undefined`
      throws; a number, boolean, string or array has none of the names the
      script reads (none is an index or `length`). */
  function Get(x: Json, k: string): (r: Result<Value>)
    ensures r.Ok? <==> !x.JNull?
    ensures x.JObj? ==> r == Ok(Lookup(x.fields, k))
  {
    match x
    case JNull => Raised
    case JObj(f) => Ok(Lookup(f, k))
    case _ => Ok(None)
  }

  /** `x.k` on a value known not to be `null`. */
  function Prop(x: Json, k: string): (r: Value)
    requires !x.JNull?
    ensures Get(x, k) == Ok(r)
  {
    Get(x, k).value
  }

  /** `x?.k`: `undefined` when `x` is `null` or `undefined`; never throws. */
  function Chain(x: Value, k: string): (r: Value)
    ensures (x.Some? && x.value.JObj?) ==> r == Lookup(x.value.fields, k)
  {
    match x
    case Some(JObj(f)) => Lookup(f, k)
    case _ => None
  }

  /** `!!x`: `undefined`, `null`, `false`, `0` and `""` are false; every
      object and array, even an empty one, is true. */
  predicate Truthy(x: Value)
  {
    match x
    case None => false
    case Some(JNull) => false
    case Some(JBool(b)) => b
    case Some(JNum(n)) => n != 0
    case Some(JStr(s)) => s != ""
    case Some(JArr(_)) => true
    case Some(JObj(_)) => true
  }

  /** `x || d`. */
  function Or(x: Value, d: Json): (r: Json)
    ensures Truthy(x) ==> r == x.value
    ensures !Truthy(x) ==> r == d
  {
    if Truthy(x) then x.value else d
  }

  predicate IsArray(x: Value)
  {
    x.Some? && x.value.JArr?
  }

  /** `Array.isArray(x) ? x : []`, as the items. */
  function ItemsOr(x: Value): (r: seq<Json>)
    ensures IsArray(x) ==> r == x.value.items
    ensures !IsArray(x) ==> r == []
  {
    if IsArray(x) then x.value.items else []
  }

  /** `typeof x === 'number'`. */
  predicate IsNumber(x: Value)
  {
    x.Some? && x.value.JNum?
  }

  /** `typeof x === 'object' && x !== null` for a value that is not an
      array. */
  predicate IsPlainObject(x: Json)
  {
    x.JObj?
  }

  /** The decimal text of an array index, as `Object.keys` gives it. */
  function IndexKey(i: nat): string
  {
    NatToString(i)
  }

  /** The pairs `[key, x[key]]` for `key` of `Object.keys(x)`, `x` not null:
      the fields of an object in order, the indices of an array or a string
      with their items or characters, nothing for a number or a boolean. */
  function Entries(x: Json): (r: seq<(string, Json)>)
    ensures x.JObj? ==> (|r| == |x.fields| &&
                         forall i :: 0 <= i < |r| ==> r[i] == (x.fields[i].key, x.fields[i].val))
    ensures x.JArr? ==> (|r| == |x.items| &&
                         forall i :: 0 <= i < |r| ==> r[i] == (IndexKey(i), x.items[i]))
  {
    match x
    case JObj(f) => seq(|f|, i requires 0 <= i < |f| => (f[i].key, f[i].val))
    case JArr(items) => seq(|items|, i requires 0 <= i < |items| => (IndexKey(i), items[i]))
    case JStr(s) => seq(|s|, i requires 0 <= i < |s| => (IndexKey(i), JStr([s[i]])))
    case _ => []
  }

  /** `Object.values(x)` for an object. */
  function Values(f: Dict): (r: seq<Json>)
    ensures |r| == |f|
    ensures forall i :: 0 <= i < |f| ==> r[i] == f[i].val
  {
    seq(|f|, i requires 0 <= i < |f| => f[i].val)
  }

  /** The characters `trim()` removes: the white space and line terminator
      characters of ECMAScript (sections 12.2 and 12.3 of ECMA-262). */
  predicate IsWhiteSpace(c: char)
  {
    c == '\t' || c == '\n' || c == '\U{000B}' || c == '\U{000C}' || c == '\r' || c == ' '
    || c == '\U{00A0}' || c == '\U{1680}' || ('\U{2000}' <= c <= '\U{200A}')
    || c == '\U{2028}' || c == '\U{2029}' || c == '\U{202F}' || c == '\U{205F}'
    || c == '\U{3000}' || c == '\U{FEFF}'
  }

  /** `s.trim()`: the string without its leading and trailing white space. */
  function Trim(s: string): (r: string)
    ensures |r| <= |s|
    ensures r == "" <==> forall i :: 0 <= i < |s| ==> IsWhiteSpace(s[i])
  {
    TrimEnd(TrimStart(s))
  }

  function TrimStart(s: string): (r: string)
    ensures |r| <= |s|
    ensures r == "" <==> forall i :: 0 <= i < |s| ==> IsWhiteSpace(s[i])
    ensures r != "" ==> !IsWhiteSpace(r[0])
  {
    if s != [] && IsWhiteSpace(s[0]) then TrimStart(s[1..]) else s
  }

  function TrimEnd(s: string): (r: string)
    ensures |r| <= |s|
    ensures r == "" <==> forall i :: 0 <= i < |s| ==> IsWhiteSpace(s[i])
  {
    if s != [] && IsWhiteSpace(s[|s| - 1]) then TrimEnd(s[..|s| - 1]) else s
  }

  /** `typeof item === 'string' && item.trim().length > 0`. */
  predicate NonBlankString(x: Json)
  {
    x.JStr? && |Trim(x.s)| > 0
  }
}
