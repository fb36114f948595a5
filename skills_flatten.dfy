/** `flattenSkills` of the migration script: turns a candidate's `skills`,
    flat or nested by theme, into the six flat skill arrays of the
    standard candidate record. */
module Skills {
  import opened Json
  import opened Js

  /** The six skill categories of the standard record, in output order. */
  const Categories: seq<string> := ["programming", "frameworks", "tools", "cloud", "databases", "testing"]

  const Programming := 0
  const Frameworks := 1
  const Tools := 2
  const Cloud := 3
  const Databases := 4
  const Testing := 5

  /** The contents of the six arrays being filled, by category index. */
  type Buckets = b: seq<seq<Json>> | |b| == 6 witness [[], [], [], [], [], []]

  const Empty: Buckets := [[], [], [], [], [], []]

  /** The object with one field per category, in order. */
  function Object(vals: seq<Json>): (r: Json)
    requires |vals| == 6
    ensures r.JObj? && |r.fields| == 6
    ensures forall k :: 0 <= k < 6 ==> r.fields[k] == Field(Categories[k], vals[k])
  {
    JObj(seq(6, k requires 0 <= k < 6 => Field(Categories[k], vals[k])))
  }

  function Arrays(b: Buckets): (r: seq<Json>)
    ensures |r| == 6 && forall k :: 0 <= k < 6 ==> r[k] == JArr(b[k])
  {
    seq(6, k requires 0 <= k < 6 => JArr(b[k]))
  }

  /** Reading a category of the output object gives its value. */
  lemma ObjectLookup(vals: seq<Json>, k: nat)
    requires |vals| == 6 && k < 6
    ensures Keys(Object(vals).fields) == Categories
    ensures Lookup(Object(vals).fields, Categories[k]) == Some(vals[k])
  {
    var d := Object(vals).fields;
    assert DistinctKeys(d);
    LookupDistinct(d, k);
  }

  /** The category that arrays nested under a theme `category` go to: cloud
      themes to `cloud`, scripting to `programming`, every other theme
      (CI/CD, monitoring, security, networking included) to `tools`. */
  function Target(category: string): (k: nat)
    ensures k == Cloud || k == Programming || k == Tools
  {
    if IsSubstring("cloud", category) || category == "iac" || category == "containers" then Cloud
    else if category == "scripting" then Programming
    else if category == "cicd" || category == "monitoring" then Tools
    else if category == "security" || category == "networking" then Tools
    else Tools
  }

  function Push(b: Buckets, k: nat, xs: seq<Json>): Buckets
    requires k < 6
  {
    b[k := b[k] + xs]
  }

  /** The arrays among the values of a theme object, each appended in turn
      to the theme's target category. */
  function AddNested(b: Buckets, category: string, values: seq<Json>): Buckets
    decreases |values|
  {
    if values == [] then b
    else
      var before := AddNested(b, category, values[..|values| - 1]);
      var v := values[|values| - 1];
      if v.JArr? then Push(before, Target(category), v.items) else before
  }

  /** One top-level entry: an array goes to `tools` whatever its name, an
      object is a theme whose nested arrays are added, anything else is
      ignored. */
  function AddEntry(b: Buckets, category: string, value: Json): Buckets
  {
    if value.JArr? then Push(b, Tools, value.items)
    else if value.JObj? then AddNested(b, category, Values(value.fields))
    else b
  }

  /** Every top-level entry, in key order. */
  function Gather(b: Buckets, entries: seq<(string, Json)>): Buckets
    decreases |entries|
  {
    if entries == [] then b
    else
      var e := entries[|entries| - 1];
      AddEntry(Gather(b, entries[..|entries| - 1]), e.0, e.1)
  }

  /** `[...new Set(xs)]`: the first occurrence of each value, in order. Set
      membership is by identity for objects and by value for strings; only
      strings survive `KeepNonBlank` afterwards, so comparing by value gives
      the same cleaned arrays. */
  function Dedup(xs: seq<Json>): seq<Json>
    decreases |xs|
  {
    if xs == [] then []
    else
      var d := Dedup(xs[..|xs| - 1]);
      var x := xs[|xs| - 1];
      if x in d then d else d + [x]
  }

  /** `.filter(item => typeof item === 'string' && item.trim().length > 0)`. */
  function KeepNonBlank(xs: seq<Json>): seq<Json>
    decreases |xs|
  {
    if xs == [] then []
    else
      var kept := KeepNonBlank(xs[..|xs| - 1]);
      var x := xs[|xs| - 1];
      if NonBlankString(x) then kept + [x] else kept
  }

  function Clean(xs: seq<Json>): seq<Json>
  {
    KeepNonBlank(Dedup(xs))
  }

  function CleanAll(b: Buckets): (r: Buckets)
    ensures forall k :: 0 <= k < 6 ==> r[k] == Clean(b[k])
  {
    seq(6, k requires 0 <= k < 6 => Clean(b[k]))
  }

  /** `skills.programming` is already an array: the record is in the flat
      format. */
  predicate IsFlat(skills: Value)
  {
    IsArray(Chain(skills, "programming"))
  }

  /** The six categories of a flat `skills`, each kept as given when truthy
      and `[]` otherwise. */
  function PassedThrough(skills: Value): (r: seq<Json>)
    ensures |r| == 6
    ensures forall k :: 0 <= k < 6 ==> r[k] == Or(Chain(skills, Categories[k]), JArr([]))
  {
    seq(6, k requires 0 <= k < 6 => Or(Chain(skills, Categories[k]), JArr([])))
  }

  /** `flattenSkills(skills)`. It never throws. */
  function Flattened(skills: Value): Json
  {
    if !Truthy(skills) then Object(Arrays(Empty))
    else if IsFlat(skills) then Object(PassedThrough(skills))
    else Object(Arrays(CleanAll(Gather(Empty, Entries(skills.value)))))
  }

  /** `flattenSkills`: pushes the arrays found under each top-level key, and
      under each key of a nested theme object, into the six arrays, then
      de-duplicates and filters each array in place. */
  method FlattenSkills(skills: Value) returns (r: Json)
    ensures r == Flattened(skills)
  {
    var flattened := Empty;
    if !Truthy(skills) {
      return Object(Arrays(flattened));
    }
    if IsArray(Chain(skills, "programming")) {
      return Object(PassedThrough(skills));
    }
    var entries := Entries(skills.value);
    for i := 0 to |entries|
      invariant flattened == Gather(Empty, entries[..i])
    {
      assert entries[..i + 1][..i] == entries[..i];
      var (category, value) := entries[i];
      if value.JArr? {
        if category == "versionControl" || category == "operatingSystems" {
          flattened := flattened[Tools := flattened[Tools] + value.items];
        } else {
          flattened := flattened[Tools := flattened[Tools] + value.items];
        }
      } else if value.JObj? {
        flattened := AddTheme(flattened, category, Values(value.fields));
      }
    }
    assert entries[..|entries|] == entries;
    flattened := CleanEach(flattened);
    return Object(Arrays(flattened));
  }

  /** The arrays nested in one theme object, each appended to the theme's
      target category. */
  method AddTheme(b: Buckets, category: string, nested: seq<Json>) returns (r: Buckets)
    ensures r == AddNested(b, category, nested)
  {
    r := b;
    for j := 0 to |nested|
      invariant r == AddNested(b, category, nested[..j])
    {
      assert nested[..j + 1][..j] == nested[..j];
      if nested[j].JArr? {
        var target := Target(category);
        r := r[target := r[target] + nested[j].items];
      }
    }
    assert nested[..|nested|] == nested;
  }

  /** The final pass of `flattenSkills`: each category in turn is replaced
      by its de-duplicated, filtered array. */
  method CleanEach(b: Buckets) returns (r: Buckets)
    ensures r == CleanAll(b)
  {
    r := b;
    for k := 0 to 6
      invariant |r| == 6
      invariant forall m :: 0 <= m < k ==> r[m] == Clean(b[m])
      invariant forall m :: k <= m < 6 ==> r[m] == b[m]
    {
      r := r[k := Clean(r[k])];
    }
  }

  // What the three paths produce.

  /** Falsy `skills` (absent, null, false, 0, "") gives six empty arrays. */
  lemma FalsyGivesEmpty(skills: Value, k: nat)
    requires !Truthy(skills) && k < 6
    ensures Keys(Flattened(skills).fields) == Categories
    ensures Lookup(Flattened(skills).fields, Categories[k]) == Some(JArr([]))
  {
    ObjectLookup(Arrays(Empty), k);
  }

  /** A flat `skills` object is returned category by category as given:
      `programming` is the input array itself, every other category is the
      input value when truthy (whatever its type, with no de-duplication or
      filtering) and `[]` when missing or falsy. */
  lemma FlatPassesThrough(f: Dict, k: nat)
    requires IsFlat(Some(JObj(f))) && k < 6
    ensures Keys(Flattened(Some(JObj(f))).fields) == Categories
    ensures Lookup(Flattened(Some(JObj(f))).fields, "programming") == Lookup(f, "programming")
    ensures Lookup(Flattened(Some(JObj(f))).fields, Categories[k])
         == Some(if Truthy(Lookup(f, Categories[k])) then Lookup(f, Categories[k]).value else JArr([]))
  {
    ObjectLookup(PassedThrough(Some(JObj(f))), 0);
    ObjectLookup(PassedThrough(Some(JObj(f))), k);
  }

  /** Only an object can be flat. */
  lemma FlatIsObject(skills: Value)
    requires IsFlat(skills)
    ensures skills.Some? && skills.value.JObj?
  {
  }

  /** Otherwise each category is the cleaned concatenation of what the
      entries routed to it; `frameworks`, `databases` and `testing` stay
      empty. */
  lemma NestedPath(skills: Value, k: nat)
    requires Truthy(skills) && !IsFlat(skills) && k < 6
    ensures Keys(Flattened(skills).fields) == Categories
    ensures Lookup(Flattened(skills).fields, Categories[k])
         == Some(JArr(Clean(Gather(Empty, Entries(skills.value))[k])))
    ensures k == Frameworks || k == Databases || k == Testing ==>
              Lookup(Flattened(skills).fields, Categories[k]) == Some(JArr([]))
  {
    var gathered := Gather(Empty, Entries(skills.value));
    ObjectLookup(Arrays(CleanAll(gathered)), k);
    GatherKeeps(Empty, Entries(skills.value));
  }

  /** Nothing is ever routed to `frameworks`, `databases` or `testing`. */
  lemma {:induction false} GatherKeeps(b: Buckets, entries: seq<(string, Json)>)
    ensures Gather(b, entries)[Frameworks] == b[Frameworks]
    ensures Gather(b, entries)[Databases] == b[Databases]
    ensures Gather(b, entries)[Testing] == b[Testing]
    decreases |entries|
  {
    if entries != [] {
      var e := entries[|entries| - 1];
      var before := Gather(b, entries[..|entries| - 1]);
      GatherKeeps(b, entries[..|entries| - 1]);
      if e.1.JObj? {
        AddNestedKeeps(before, e.0, Values(e.1.fields));
      }
    }
  }

  lemma {:induction false} AddNestedKeeps(b: Buckets, category: string, values: seq<Json>)
    ensures AddNested(b, category, values)[Frameworks] == b[Frameworks]
    ensures AddNested(b, category, values)[Databases] == b[Databases]
    ensures AddNested(b, category, values)[Testing] == b[Testing]
    decreases |values|
  {
    if values != [] {
      AddNestedKeeps(b, category, values[..|values| - 1]);
    }
  }

  // Where each skill goes.

  /** `x` is an item of one of the arrays among `values`. */
  predicate InSomeArray(values: seq<Json>, x: Json)
  {
    exists j :: 0 <= j < |values| && values[j].JArr? && x in values[j].items
  }

  /** The entry `category: value` sends `x` to category `k`: an item of a
      top-level array goes to `tools`, an item of an array nested in a theme
      object goes to the theme's target. */
  predicate Routes(category: string, value: Json, k: nat, x: Json)
  {
    || (value.JArr? && k == Tools && x in value.items)
    || (value.JObj? && k == Target(category) && InSomeArray(Values(value.fields), x))
  }

  lemma {:induction false} AddNestedMembers(b: Buckets, category: string, values: seq<Json>, k: nat, x: Json)
    requires k < 6
    ensures x in AddNested(b, category, values)[k]
        <==> x in b[k] || (k == Target(category) && InSomeArray(values, x))
    decreases |values|
  {
    if values != [] {
      var n := |values| - 1;
      var prefix := values[..n];
      AddNestedMembers(b, category, prefix, k, x);
      if InSomeArray(values, x) {
        var j :| 0 <= j < |values| && values[j].JArr? && x in values[j].items;
        if j < n {
          assert prefix[j] == values[j];
        }
      }
      if InSomeArray(prefix, x) {
        var j :| 0 <= j < |prefix| && prefix[j].JArr? && x in prefix[j].items;
        assert values[j] == prefix[j];
      }
    }
  }

  /** Some entry among `entries` routes `x` to category `k`. */
  predicate RoutedBy(entries: seq<(string, Json)>, k: nat, x: Json)
  {
    exists i :: 0 <= i < |entries| && Routes(entries[i].0, entries[i].1, k, x)
  }

  lemma RoutedBySnoc(entries: seq<(string, Json)>, k: nat, x: Json)
    requires entries != []
    ensures RoutedBy(entries, k, x) <==>
            RoutedBy(entries[..|entries| - 1], k, x)
            || Routes(entries[|entries| - 1].0, entries[|entries| - 1].1, k, x)
  {
    var n := |entries| - 1;
    var prefix := entries[..n];
    if RoutedBy(prefix, k, x) {
      var i :| 0 <= i < |prefix| && Routes(prefix[i].0, prefix[i].1, k, x);
      assert entries[i] == prefix[i];
    }
    if RoutedBy(entries, k, x) {
      var i :| 0 <= i < |entries| && Routes(entries[i].0, entries[i].1, k, x);
      if i < n {
        assert prefix[i] == entries[i];
      }
    }
  }

  /** One entry adds to category `k` exactly what it routes there. */
  lemma AddEntryMembers(b: Buckets, category: string, value: Json, k: nat, x: Json)
    requires k < 6
    ensures x in AddEntry(b, category, value)[k] <==> x in b[k] || Routes(category, value, k, x)
  {
    if value.JObj? {
      AddNestedMembers(b, category, Values(value.fields), k, x);
    }
  }

  /** A skill lands in category `k` exactly when it was there already or
      some entry routes it there. */
  lemma {:induction false} GatherMembers(b: Buckets, entries: seq<(string, Json)>, k: nat, x: Json)
    requires k < 6
    ensures x in Gather(b, entries)[k] <==> x in b[k] || RoutedBy(entries, k, x)
    decreases |entries|
  {
    if entries != [] {
      var n := |entries| - 1;
      var e := entries[n];
      GatherMembers(b, entries[..n], k, x);
      AddEntryMembers(Gather(b, entries[..n]), e.0, e.1, k, x);
      RoutedBySnoc(entries, k, x);
    }
  }

  // De-duplication and filtering.

  predicate NoDuplicates(s: seq<Json>)
  {
    forall i, j :: 0 <= i < j < |s| ==> s[i] != s[j]
  }

  /** The position of the first occurrence of `x` in `xs`. */
  function FirstIndex(xs: seq<Json>, x: Json): (r: nat)
    requires x in xs
    ensures r < |xs| && xs[r] == x && x !in xs[..r]
  {
    if xs[0] == x then 0 else 1 + FirstIndex(xs[1..], x)
  }

  lemma FirstIndexIs(xs: seq<Json>, x: Json, r: nat)
    requires r < |xs| && xs[r] == x && x !in xs[..r]
    ensures FirstIndex(xs, x) == r
  {
    var f := FirstIndex(xs, x);
    forall i | 0 <= i < r
      ensures xs[i] != x
    {
      assert xs[i] == xs[..r][i];
    }
    forall i | 0 <= i < f
      ensures xs[i] != x
    {
      assert xs[i] == xs[..f][i];
    }
  }

  /** The items of `s` appear in the order of their first occurrences in
      `xs`. */
  predicate InFirstOccurrenceOrder(s: seq<Json>, xs: seq<Json>)
  {
    && (forall i :: 0 <= i < |s| ==> s[i] in xs)
    && (forall i, j :: 0 <= i < j < |s| ==> FirstIndex(xs, s[i]) < FirstIndex(xs, s[j]))
  }

  /** `[...new Set(xs)]` holds every value of `xs` once, in the order of
      their first occurrences. */
  lemma {:induction false} DedupSpec(xs: seq<Json>)
    ensures NoDuplicates(Dedup(xs))
    ensures forall x :: x in Dedup(xs) <==> x in xs
    ensures InFirstOccurrenceOrder(Dedup(xs), xs)
    decreases |xs|
  {
    if xs != [] {
      var n := |xs| - 1;
      var p := xs[..n];
      var x := xs[n];
      var d := Dedup(p);
      DedupSpec(p);
      assert xs == p + [x];
      forall y | y in p
        ensures FirstIndex(xs, y) == FirstIndex(p, y)
      {
        var r := FirstIndex(p, y);
        assert xs[..r] == p[..r];
        FirstIndexIs(xs, y, r);
      }
      if x !in d {
        assert xs[..n] == p;
        FirstIndexIs(xs, x, n);
      }
    }
  }

  /** Filtering keeps exactly the non-blank strings. */
  lemma {:induction false} KeepNonBlankMembers(ys: seq<Json>)
    ensures forall x :: x in KeepNonBlank(ys) <==> x in ys && NonBlankString(x)
    decreases |ys|
  {
    if ys != [] {
      var p := ys[..|ys| - 1];
      var y := ys[|ys| - 1];
      assert ys == p + [y];
      KeepNonBlankMembers(p);
    }
  }

  /** Filtering an array without duplicates leaves none. */
  lemma {:induction false} KeepNonBlankUnique(ys: seq<Json>)
    requires NoDuplicates(ys)
    ensures NoDuplicates(KeepNonBlank(ys))
    decreases |ys|
  {
    if ys != [] {
      var p := ys[..|ys| - 1];
      var y := ys[|ys| - 1];
      assert ys == p + [y];
      assert NoDuplicates(p) by {
        forall i | 0 <= i < |p| ensures p[i] == ys[i] { }
      }
      KeepNonBlankUnique(p);
      KeepNonBlankMembers(p);
      var kept := KeepNonBlank(p);
      if NonBlankString(y) {
        assert y !in p by {
          forall i | 0 <= i < |p| ensures p[i] != y { assert p[i] == ys[i]; }
        }
        var r := kept + [y];
        assert KeepNonBlank(ys) == r;
        forall i, j | 0 <= i < j < |r| ensures r[i] != r[j]
        {
          if j < |kept| { assert r[i] == kept[i] && r[j] == kept[j]; }
          else { assert r[i] == kept[i] && kept[i] in p; }
        }
      }
    }
  }

  /** Filtering keeps the order of first occurrences. */
  lemma {:induction false} KeepNonBlankSpec(ys: seq<Json>, xs: seq<Json>)
    requires InFirstOccurrenceOrder(ys, xs)
    ensures InFirstOccurrenceOrder(KeepNonBlank(ys), xs)
    decreases |ys|
  {
    if ys != [] {
      var n := |ys| - 1;
      var p := ys[..n];
      var y := ys[n];
      assert ys == p + [y];
      assert InFirstOccurrenceOrder(p, xs) by {
        forall i | 0 <= i < |p| ensures p[i] == ys[i] { }
      }
      KeepNonBlankSpec(p, xs);
      KeepNonBlankMembers(p);
      var kept := KeepNonBlank(p);
      if NonBlankString(y) {
        assert KeepNonBlank(ys) == kept + [y];
        forall i | 0 <= i < |kept|
          ensures FirstIndex(xs, kept[i]) < FirstIndex(xs, y)
        {
          assert kept[i] in p;
          var m :| 0 <= m < |p| && p[m] == kept[i];
          assert ys[m] == kept[i];
        }
        OrderExtends(kept, y, xs);
      }
    }
  }

  /** Appending a value that first occurs after every value of `s` keeps
      the order of first occurrences. */
  lemma OrderExtends(s: seq<Json>, y: Json, xs: seq<Json>)
    requires InFirstOccurrenceOrder(s, xs) && y in xs
    requires forall i :: 0 <= i < |s| ==> FirstIndex(xs, s[i]) < FirstIndex(xs, y)
    ensures InFirstOccurrenceOrder(s + [y], xs)
  {
    var r := s + [y];
    forall i | 0 <= i < |r| ensures r[i] in xs
    {
      if i < |s| { assert r[i] == s[i]; }
    }
    forall i, j | 0 <= i < j < |r| ensures FirstIndex(xs, r[i]) < FirstIndex(xs, r[j])
    {
      assert r[i] == s[i];
      if j < |s| { assert r[j] == s[j]; }
    }
  }

  /** A cleaned array: each non-blank string of the input exactly once, in
      the order of first occurrence, and nothing else. */
  lemma CleanSpec(xs: seq<Json>)
    ensures NoDuplicates(Clean(xs))
    ensures forall x :: x in Clean(xs) <==> x in xs && NonBlankString(x)
    ensures InFirstOccurrenceOrder(Clean(xs), xs)
  {
    DedupSpec(xs);
    KeepNonBlankMembers(Dedup(xs));
    KeepNonBlankUnique(Dedup(xs));
    KeepNonBlankSpec(Dedup(xs), xs);
  }

  /** The nested path for a `skills` object, put together: each category
      holds, once each and in order of first appearance, exactly the
      non-blank strings that some entry routes to it. */
  lemma NestedObject(f: Dict, k: nat, x: Json)
    requires !IsFlat(Some(JObj(f))) && k < 6
    ensures var gathered := Gather(Empty, Entries(JObj(f)))[k];
            && Lookup(Flattened(Some(JObj(f))).fields, Categories[k]) == Some(JArr(Clean(gathered)))
            && NoDuplicates(Clean(gathered))
            && InFirstOccurrenceOrder(Clean(gathered), gathered)
            && (x in Clean(gathered)
                <==> NonBlankString(x) && exists i :: 0 <= i < |f| && Routes(f[i].key, f[i].val, k, x))
  {
    var entries := Entries(JObj(f));
    NestedPath(Some(JObj(f)), k);
    CleanSpec(Gather(Empty, entries)[k]);
    GatherMembers(Empty, entries, k, x);
    if exists i :: 0 <= i < |f| && Routes(f[i].key, f[i].val, k, x) {
      var i :| 0 <= i < |f| && Routes(f[i].key, f[i].val, k, x);
      assert entries[i] == (f[i].key, f[i].val);
    }
    if RoutedBy(entries, k, x) {
      var i :| 0 <= i < |entries| && Routes(entries[i].0, entries[i].1, k, x);
      assert entries[i] == (f[i].key, f[i].val);
    }
  }

  // The flat path with each category checked.

  /** The flat path as evidently intended: a category that is not an array
      is replaced by `[]`, so the result always has six arrays. */
  function PassedThroughStrict(skills: Value): (r: seq<Json>)
    ensures |r| == 6
    ensures forall k :: 0 <= k < 6 ==> r[k] == JArr(ItemsOr(Chain(skills, Categories[k])))
  {
    seq(6, k requires 0 <= k < 6 => JArr(ItemsOr(Chain(skills, Categories[k]))))
  }

  function FlattenedStrict(skills: Value): Json
  {
    if !Truthy(skills) then Object(Arrays(Empty))
    else if IsFlat(skills) then Object(PassedThroughStrict(skills))
    else Object(Arrays(CleanAll(Gather(Empty, Entries(skills.value)))))
  }

  /** A category of the flat path that is truthy but not an array. */
  predicate Malformed(skills: Value, k: nat)
    requires k < 6
  {
    IsFlat(skills) && Truthy(Chain(skills, Categories[k])) && !IsArray(Chain(skills, Categories[k]))
  }

  /** As written, the output has all six categories, and a category is an
      array unless it is a malformed one of a flat input, which is passed
      through unchanged. */
  lemma FlattenedArrays(skills: Value, k: nat)
    requires k < 6
    ensures Keys(Flattened(skills).fields) == Categories
    ensures Lookup(Flattened(skills).fields, Categories[k]).Some?
    ensures IsArray(Lookup(Flattened(skills).fields, Categories[k])) <==> !Malformed(skills, k)
  {
    if !Truthy(skills) {
      FalsyGivesEmpty(skills, k);
    } else if IsFlat(skills) {
      ObjectLookup(PassedThrough(skills), k);
    } else {
      NestedPath(skills, k);
    }
  }

  /** The corrected flattening always gives six arrays, and it agrees with
      the one as written on every input without a malformed category. */
  lemma FlattenedStrictArrays(skills: Value, k: nat)
    requires k < 6
    ensures Keys(FlattenedStrict(skills).fields) == Categories
    ensures IsArray(Lookup(FlattenedStrict(skills).fields, Categories[k]))
    ensures (forall m :: 0 <= m < 6 ==> !Malformed(skills, m)) ==> FlattenedStrict(skills) == Flattened(skills)
  {
    if !Truthy(skills) {
      FalsyGivesEmpty(skills, k);
    } else if IsFlat(skills) {
      ObjectLookup(PassedThroughStrict(skills), k);
      if forall m :: 0 <= m < 6 ==> !Malformed(skills, m) {
        forall m | 0 <= m < 6
          ensures PassedThroughStrict(skills)[m] == PassedThrough(skills)[m]
        {
          assert !Malformed(skills, m);
        }
        assert PassedThroughStrict(skills) == PassedThrough(skills);
      }
    } else {
      ObjectLookup(Arrays(CleanAll(Gather(Empty, Entries(skills.value)))), k);
    }
  }
}
