/** Requirements rendered as text: one line per key that is present, in a
    fixed order, each "<heading>: <value>", the lines joined by a separator.
    Both the screening prompt (`_format_job_requirements`) and the intake
    summary (`get_requirement_summary`) are built this way. */
module Requirements {
  import opened Json
  import Python

  /** How a value is shown: `str(v)`, `", ".join(v)`, or `", ".join(v[:n])`. */
  datatype Format = Plain | Listed | FirstListed(limit: nat)

  /** The line for `key` when it is present. */
  datatype Part = Part(key: string, heading: string, format: Format)

  /** The text of a value. Joining raises unless every item visited is a
      string; slicing raises unless the value is a list or a string. */
  function ValueText(format: Format, v: Json): Result<string>
  {
    match format
    case Plain => Ok(Python.Str(v))
    case Listed => Python.JoinOf(v, ", ")
    case FirstListed(n) =>
      match Python.Take(v, n)
      case Raised => Raised
      case Ok(first) => Python.JoinOf(first, ", ")
  }

  function PartText(p: Part, v: Json): (r: Result<string>)
    ensures r.Ok? ==> p.heading + ": " <= r.value
  {
    match ValueText(p.format, v)
    case Raised => Raised
    case Ok(t) => Ok(p.heading + ": " + t)
  }

  /** One `if key in requirements: parts.append(...)` step, in front of the
      lines `rest` of the later steps. `in` raises for a value that is not a
      container, and subscripting for a list or string that contains the
      key. */
  function Step(req: Json, p: Part, rest: Result<seq<string>>): Result<seq<string>>
  {
    match Python.Contains(req, p.key)
    case Raised => Raised
    case Ok(present) =>
      if !present then rest
      else match Python.Subscript(req, p.key)
        case Raised => Raised
        case Ok(v) =>
          match PartText(p, v)
          case Raised => Raised
          case Ok(line) => Prepend([line], rest)
  }

  function PartLines(req: Json, parts: seq<Part>): Result<seq<string>>
  {
    if parts == [] then Ok([]) else Step(req, parts[0], PartLines(req, parts[1..]))
  }

  /** `sep.join(parts)`. */
  function Text(req: Json, parts: seq<Part>, sep: string): Result<string>
  {
    match PartLines(req, parts)
    case Raised => Raised
    case Ok(lines) => Ok(Join(lines, sep))
  }

  /** One step, appending to the lines so far. */
  method AppendPart(req: Json, p: Part, parts: seq<string>) returns (r: Result<seq<string>>)
    ensures forall rest :: Prepend(parts, Step(req, p, rest))
                        == match r case Raised => Raised case Ok(ps) => Prepend(ps, rest)
  {
    var present := Python.Contains(req, p.key);
    if present.Raised? {
      return Raised;
    }
    if !present.value {
      return Ok(parts);
    }
    var v := Python.Subscript(req, p.key);
    if v.Raised? {
      return Raised;
    }
    var line := PartText(p, v.value);
    if line.Raised? {
      return Raised;
    }
    forall rest: Result<seq<string>>
      ensures Prepend(parts, Prepend([line.value], rest)) == Prepend(parts + [line.value], rest)
    {
      PrependPrepend(parts, [line.value], rest);
    }
    return Ok(parts + [line.value]);
  }

  lemma PartLinesAt(req: Json, ps: seq<Part>, k: nat)
    requires k < |ps|
    ensures PartLines(req, ps[k..]) == Step(req, ps[k], PartLines(req, ps[k + 1..]))
  {
    assert ps[k..][1..] == ps[k + 1..];
  }

  /** The checks one after the other, each appending at most one line; then
      the join. */
  method FormatParts(req: Json, ps: seq<Part>, sep: string) returns (r: Result<string>)
    ensures r == Text(req, ps, sep)
  {
    var parts: Result<seq<string>> := Ok([]);
    assert ps[0..] == ps;
    PrependNothing(PartLines(req, ps));
    for k := 0 to |ps|
      invariant parts.Ok?
      invariant PartLines(req, ps) == Prepend(parts.value, PartLines(req, ps[k..]))
    {
      PartLinesAt(req, ps, k);
      var acc := parts.value;
      parts := AppendPart(req, ps[k], acc);
      assert Prepend(acc, Step(req, ps[k], PartLines(req, ps[k + 1..])))
          == match parts case Raised => Raised case Ok(a) => Prepend(a, PartLines(req, ps[k + 1..]));
      if parts.Raised? {
        return Raised;
      }
    }
    assert ps[|ps|..] == [];
    PrependAll(parts.value);
    return Ok(Join(parts.value, sep));
  }

  /** The parts whose key `f` holds, in order. */
  function Present(f: Dict, parts: seq<Part>): (r: seq<Part>)
    ensures |r| <= |parts|
    ensures forall p :: p in r ==> p in parts && p.key in Keys(f)
  {
    if parts == [] then []
    else (if parts[0].key in Keys(f) then [parts[0]] else []) + Present(f, parts[1..])
  }

  /** For a requirements dict, there is exactly one line per part whose key is
      present, in the fixed order of the parts, and it is that part's heading
      followed by the text of the value stored under the key. */
  lemma {:induction false} LinesOfDict(f: Dict, parts: seq<Part>)
    requires PartLines(JObj(f), parts).Ok?
    ensures var lines := PartLines(JObj(f), parts).value;
            && |lines| == |Present(f, parts)|
            && forall i :: 0 <= i < |lines| ==>
                 var p := Present(f, parts)[i];
                 Lookup(f, p.key).Some? && PartText(p, Lookup(f, p.key).value) == Ok(lines[i])
  {
    if parts != [] {
      var p := parts[0];
      var rest := PartLines(JObj(f), parts[1..]);
      assert rest.Ok?;
      LinesOfDict(f, parts[1..]);
      if p.key in Keys(f) {
        var v := Lookup(f, p.key).value;
        var line := PartText(p, v).value;
        assert PartLines(JObj(f), parts).value == [line] + rest.value;
        assert Present(f, parts) == [p] + Present(f, parts[1..]);
      } else {
        assert PartLines(JObj(f), parts) == rest;
        assert Present(f, parts) == Present(f, parts[1..]);
      }
    }
  }

  /** For a requirements dict, formatting raises exactly when the value of a
      present part cannot be shown. */
  lemma {:induction false} LinesOfDictRaise(f: Dict, parts: seq<Part>)
    ensures PartLines(JObj(f), parts).Raised?
        <==> exists p :: p in parts && Lookup(f, p.key).Some? && PartText(p, Lookup(f, p.key).value).Raised?
  {
    if parts != [] {
      LinesOfDictRaise(f, parts[1..]);
      LookupFound(f, parts[0].key);
      assert forall p :: p in parts <==> p == parts[0] || p in parts[1..];
    }
  }

  /** An empty requirements dict gives the empty string. */
  lemma EmptyText(parts: seq<Part>, sep: string)
    ensures Text(JObj([]), parts, sep) == Ok("")
  {
    LinesOfDictRaise([], parts);
    LinesOfDict([], parts);
  }

  /** `", ".join(v[:n])` on a list shows its first `n` items at most. */
  lemma FirstListedText(n: nat, items: seq<Json>)
    requires ValueText(FirstListed(n), JArr(items)).Ok?
    ensures var first := items[..Python.Min(n, |items|)];
            && |first| <= n
            && Python.AllStrings(first)
            && ValueText(FirstListed(n), JArr(items)) == Ok(Join(Python.Texts(first), ", "))
  {
  }
}
