/** JSON-like values shared by the Python agents and the JavaScript migration
    script, and the few operations on them that both languages agree on. */
module Json {

  datatype Option<+T> = None | Some(value: T)

  /** The outcome of an operation that may raise (Python) or throw (JavaScript).
      The text of the exception is not modelled. */
  datatype Result<+T> = Ok(value: T) | Raised

  /** A parsed JSON document. Numbers are integers; objects keep their keys in
      insertion order, as Python dicts and JavaScript objects do. */
  datatype Json =
    | JNull
    | JBool(b: bool)
    | JNum(n: int)
    | JStr(s: string)
    | JArr(items: seq<Json>)
    | JObj(fields: seq<Field>)

  datatype Field = Field(key: string, val: Json)

  /** Applies `f` to each item in order; the first item it raises on makes
      the whole run raise. */
  function MapAll<A, B>(xs: seq<A>, f: A -> Result<B>): (r: Result<seq<B>>)
    ensures r.Ok? <==> forall i :: 0 <= i < |xs| ==> f(xs[i]).Ok?
    ensures r.Ok? ==> |r.value| == |xs|
    ensures r.Ok? ==> forall i :: 0 <= i < |xs| ==> f(xs[i]) == Ok(r.value[i])
  {
    if xs == [] then Ok([])
    else match f(xs[0])
      case Raised => Raised
      case Ok(y) => Prepend([y], MapAll(xs[1..], f))
  }

  /** The items already produced, followed by what the rest of a loop yields. */
  function Prepend<T>(done: seq<T>, rest: Result<seq<T>>): (r: Result<seq<T>>)
    ensures r.Ok? <==> rest.Ok?
    ensures r.Ok? ==> r.value == done + rest.value
  {
    match rest
    case Raised => Raised
    case Ok(t) => Ok(done + t)
  }

  /** One step of a loop that maps `f` over `xs` from position `i` on. */
  lemma MapAllStep<A, B>(xs: seq<A>, i: nat, f: A -> Result<B>)
    requires i < |xs|
    ensures MapAll(xs[i..], f) == match f(xs[i])
                                  case Raised => Raised
                                  case Ok(y) => Prepend([y], MapAll(xs[i + 1..], f))
  {
    assert xs[i..][1..] == xs[i + 1..];
  }

  lemma PrependNothing<T>(rest: Result<seq<T>>)
    ensures Prepend([], rest) == rest
  {
    if rest.Ok? {
      assert [] + rest.value == rest.value;
    }
  }

  lemma PrependAll<T>(done: seq<T>)
    ensures Prepend(done, Ok([])) == Ok(done)
  {
    assert done + [] == done;
  }

  lemma PrependPrepend<T>(a: seq<T>, b: seq<T>, rest: Result<seq<T>>)
    ensures Prepend(a, Prepend(b, rest)) == Prepend(a + b, rest)
  {
    if rest.Ok? {
      assert a + (b + rest.value) == (a + b) + rest.value;
    }
  }

  /** A Python dict or JavaScript object, as its ordered fields. */
  type Dict = seq<Field>

  function Keys(d: Dict): (ks: seq<string>)
    ensures |ks| == |d|
    ensures forall i :: 0 <= i < |d| ==> ks[i] == d[i].key
  {
    if d == [] then [] else [d[0].key] + Keys(d[1..])
  }

  /** The value stored under `k`, if any (the first field with that key). */
  function Lookup(d: Dict, k: string): Option<Json>
  {
    if d == [] then None
    else if d[0].key == k then Some(d[0].val)
    else Lookup(d[1..], k)
  }

  /** A key is found exactly when it is among the keys, and what is found is
      the value of a field with that key. */
  lemma {:induction false} LookupFound(d: Dict, k: string)
    ensures Lookup(d, k).None? <==> k !in Keys(d)
    ensures Lookup(d, k).Some? ==> exists i :: 0 <= i < |d| && d[i] == Field(k, Lookup(d, k).value)
  {
    if d != [] && d[0].key != k {
      LookupFound(d[1..], k);
      assert Keys(d) == [d[0].key] + Keys(d[1..]);
      if Lookup(d, k).Some? {
        var i :| 0 <= i < |d[1..]| && d[1..][i] == Field(k, Lookup(d, k).value);
        assert d[i + 1] == Field(k, Lookup(d, k).value);
      }
    }
  }

  /** No key occurs twice, as in an object written as a literal. */
  predicate DistinctKeys(d: Dict)
  {
    forall i, j :: 0 <= i < j < |d| ==> d[i].key != d[j].key
  }

  lemma LookupDistinct(d: Dict, i: nat)
    requires DistinctKeys(d) && i < |d|
    ensures Lookup(d, d[i].key) == Some(d[i].val)
  {
    LookupFirst(d, i);
  }

  /** A field whose key no earlier field has is the one a lookup finds. */
  lemma {:induction false} LookupFirst(d: Dict, i: nat)
    requires i < |d| && forall j :: 0 <= j < i ==> d[j].key != d[i].key
    ensures Lookup(d, d[i].key) == Some(d[i].val)
  {
    if i > 0 {
      assert d[1..][i - 1] == d[i];
      forall j | 0 <= j < i - 1 ensures d[1..][j].key != d[i].key {
        assert d[1..][j] == d[j + 1];
      }
      LookupFirst(d[1..], i - 1);
    }
  }

  /** `d[k] = v`: overwrite the value of an existing key where it stands,
      otherwise append a new field at the end. */
  function Put(d: Dict, k: string, v: Json): Dict
  {
    if d == [] then [Field(k, v)]
    else if d[0].key == k then [Field(k, v)] + d[1..]
    else [d[0]] + Put(d[1..], k, v)
  }

  lemma {:induction false} PutLookup(d: Dict, k: string, v: Json, k': string)
    ensures Lookup(Put(d, k, v), k') == if k' == k then Some(v) else Lookup(d, k')
  {
    if d != [] && d[0].key != k {
      PutLookup(d[1..], k, v, k');
    }
  }

  lemma {:induction false} PutKeys(d: Dict, k: string, v: Json)
    ensures Keys(Put(d, k, v)) == if k in Keys(d) then Keys(d) else Keys(d) + [k]
  {
    if d != [] && d[0].key != k {
      PutKeys(d[1..], k, v);
      assert Keys(d) == [d[0].key] + Keys(d[1..]);
    }
  }

  /** The object holding exactly the given fields, in order. */
  function Obj(d: Dict): Json { JObj(d) }

  /** `k` occurs in `s` (Python's `k in s`, JavaScript's `s.includes(k)`). */
  predicate IsSubstring(k: string, s: string)
  {
    k <= s || (s != [] && IsSubstring(k, s[1..]))
  }

  /** `sep.join(parts)`, the same in both languages. */
  function Join(parts: seq<string>, sep: string): string
  {
    if parts == [] then ""
    else if |parts| == 1 then parts[0]
    else parts[0] + sep + Join(parts[1..], sep)
  }

  lemma JoinEmpty(sep: string)
    ensures Join([], sep) == ""
  {
  }

  lemma {:induction false} JoinAppend(parts: seq<string>, p: string, sep: string)
    ensures Join(parts + [p], sep) == if parts == [] then p else Join(parts, sep) + sep + p
  {
    if |parts| > 1 {
      assert (parts + [p])[1..] == parts[1..] + [p];
      JoinAppend(parts[1..], p, sep);
    } else if |parts| == 1 {
      assert (parts + [p])[1..] == [p];
    }
  }

  function DigitChar(d: nat): char
    requires d < 10
  {
    "0123456789"[d]
  }

  /** Decimal text of a natural number, without leading zeros. */
  function NatToString(n: nat): (s: string)
    ensures |s| >= 1
    ensures s[0] == '0' ==> n == 0
  {
    if n < 10 then [DigitChar(n)] else NatToString(n / 10) + [DigitChar(n % 10)]
  }

  /** Decimal text of an integer, with a leading '-' when negative. */
  function IntToString(i: int): string
  {
    if i < 0 then "-" + NatToString(-i) else NatToString(i)
  }
}
