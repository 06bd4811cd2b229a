/** The layered configuration document: a TOML-like value tree, its deep merge and
    its dotted-path lookup (iconfig's ApplicationConfig). */
module Config {
  import opened Wrappers
  import Text

  /** A TOML leaf. Floats and datetimes are kept as their text: nothing here
      computes with them. */
  datatype Scalar = Str(s: string) | Integer(i: int) | Float(text: string)
                  | Boolean(b: bool) | Datetime(text: string)

  datatype Value = Atom(scalar: Scalar) | Array(items: seq<Value>) | Table(entries: map<string, Value>)

  const PathSeparator: char := '.'

  // ---------------------------------------------------------------------------
  // Deep merge (merge_values).
  // ---------------------------------------------------------------------------

  /** The deep merge of `b` over `a`: two tables merge key by key, two arrays are
      concatenated, and in every other case `b` replaces `a`. */
  function Merged(a: Value, b: Value): (r: Value)
    ensures r.Atom? == b.Atom? && r.Array? == b.Array? && r.Table? == b.Table?
    ensures b.Atom? ==> r == b
    decreases b
  {
    if a.Table? && b.Table? then
      Table(map k | k in a.entries.Keys + b.entries.Keys ::
              if k !in b.entries then a.entries[k]
              else if k in a.entries then Merged(a.entries[k], b.entries[k])
              else b.entries[k])
    else if a.Array? && b.Array? then Array(a.items + b.items)
    else b
  }

  /** Merging two tables: the keys are those of either side; a key of one side
      only keeps that side's value, a key of both sides gets the merge of the two. */
  lemma MergeTables(am: map<string, Value>, bm: map<string, Value>)
    ensures Merged(Table(am), Table(bm)).Table?
    ensures Merged(Table(am), Table(bm)).entries.Keys == am.Keys + bm.Keys
    ensures forall k :: k in am && k !in bm ==> Merged(Table(am), Table(bm)).entries[k] == am[k]
    ensures forall k :: k !in am && k in bm ==> Merged(Table(am), Table(bm)).entries[k] == bm[k]
    ensures forall k :: k in am && k in bm ==> Merged(Table(am), Table(bm)).entries[k] == Merged(am[k], bm[k])
  {
  }

  /** Merging two arrays appends the second to the first. */
  lemma MergeArrays(xs: seq<Value>, ys: seq<Value>)
    ensures Merged(Array(xs), Array(ys)).Array?
    ensures |Merged(Array(xs), Array(ys)).items| == |xs| + |ys|
    ensures Merged(Array(xs), Array(ys)).items[..|xs|] == xs
    ensures Merged(Array(xs), Array(ys)).items[|xs|..] == ys
  {
  }

  /** Every other pairing, type mismatches included, yields the right-hand side. */
  lemma MergeOtherwise(a: Value, b: Value)
    requires !(a.Table? && b.Table?) && !(a.Array? && b.Array?)
    ensures Merged(a, b) == b
  {
  }

  /** merge_values, as the source computes it: copy the left table, then merge or
      insert each key of the right table. */
  method MergeValues(a: Value, b: Value) returns (r: Value)
    ensures r == Merged(a, b)
    decreases b
  {
    if a.Table? && b.Table? {
      var am, bm := a.entries, b.entries;
      var result: map<string, Value> := map[];
      var todo := am.Keys;
      while todo != {}
        invariant todo <= am.Keys
        invariant result == map k | k in am.Keys - todo :: am[k]
        decreases todo
      {
        var k :| k in todo;
        result := result[k := am[k]];
        todo := todo - {k};
      }
      todo := bm.Keys;
      while todo != {}
        invariant todo <= bm.Keys
        invariant result.Keys == am.Keys + (bm.Keys - todo)
        invariant forall k | k in result ::
          result[k] == (if k !in bm || k in todo then am[k]
                        else if k in am then Merged(am[k], bm[k])
                        else bm[k])
        decreases todo
      {
        var k :| k in todo;
        if k in result {
          var existing := MergeValues(result[k], bm[k]);
          result := result[k := existing];
        } else {
          result := result[k := bm[k]];
        }
        todo := todo - {k};
      }
      r := Table(result);
    } else if a.Array? && b.Array? {
      var items := a.items;
      items := items + b.items;
      r := Array(items);
    } else {
      r := b;
    }
  }

  // ---------------------------------------------------------------------------
  // Dotted-path lookup (ApplicationConfig::get).
  // ---------------------------------------------------------------------------

  /** toml's `Value::get` with a string key: only a table has children. */
  function Child(v: Value, key: string): (r: Option<Value>)
    ensures r.Some? <==> v.Table? && key in v.entries
    ensures r.Some? ==> r.value == v.entries[key] && r.value < v
  {
    if v.Table? && key in v.entries then Some(v.entries[key]) else None
  }

  /** The value reached by descending one key per segment; None as soon as a
      segment is missing. */
  function Lookup(v: Value, segs: seq<string>): Option<Value>
    decreases |segs|
  {
    if segs == [] then Some(v)
    else match Child(v, segs[0])
      case None => None
      case Some(w) => Lookup(w, segs[1..])
  }

  /** Lookup along one segment is one step down. */
  lemma LookupOne(v: Value, key: string)
    ensures Lookup(v, [key]) == Child(v, key)
  {
  }

  /** The value at a `.`-separated path. */
  function ValueAt(v: Value, path: string): (r: Option<Value>)
    ensures !v.Table? ==> r == None
    ensures PathSeparator !in path ==> r == Child(v, path)
  {
    var segs := Text.Split(path, PathSeparator);
    if PathSeparator in path then Lookup(v, segs)
    else Text.SplitNoSep(path, PathSeparator); LookupOne(v, path); Lookup(v, segs)
  }

  /** Lookup along two segment lists in a row is lookup along their concatenation. */
  lemma {:induction false} LookupAppend(v: Value, s1: seq<string>, s2: seq<string>)
    ensures Lookup(v, s1 + s2) == match Lookup(v, s1) case None => None case Some(w) => Lookup(w, s2)
    decreases |s1|
  {
    if s1 != [] {
      assert (s1 + s2)[0] == s1[0] && (s1 + s2)[1..] == s1[1..] + s2;
      match Child(v, s1[0])
      case None =>
      case Some(w) => LookupAppend(w, s1[1..], s2);
    } else {
      assert s1 + s2 == s2;
    }
  }

  /** Path composition: looking up `p.q` is looking up `q` from the value at `p`. */
  lemma GetCompose(v: Value, p: string, q: string)
    ensures ValueAt(v, p + [PathSeparator] + q) ==
      match ValueAt(v, p) case None => None case Some(w) => ValueAt(w, q)
  {
    Text.SplitAppend(p, q, PathSeparator);
    LookupAppend(v, Text.Split(p, PathSeparator), Text.Split(q, PathSeparator));
  }

  /** A path missing from `b`: `b` holds tables down the path until one lacks the
      next key. */
  ghost predicate Misses(b: Value, segs: seq<string>)
    decreases |segs|
  {
    |segs| > 0 && b.Table? && (segs[0] !in b.entries || Misses(b.entries[segs[0]], segs[1..]))
  }

  lemma {:induction false} MissesFindsNothing(b: Value, segs: seq<string>)
    requires Misses(b, segs)
    ensures Lookup(b, segs) == None
    decreases |segs|
  {
    if segs[0] in b.entries {
      MissesFindsNothing(b.entries[segs[0]], segs[1..]);
    }
  }

  /** The later source wins for leaves: a scalar that `b` holds at a path is what
      the merge holds there. */
  lemma {:induction false} MergeOverrides(a: Value, b: Value, segs: seq<string>, s: Scalar)
    requires Lookup(b, segs) == Some(Atom(s))
    ensures Lookup(Merged(a, b), segs) == Some(Atom(s))
    decreases |segs|
  {
    if segs != [] {
      var k := segs[0];
      if a.Table? && k in a.entries {
        MergeOverrides(a.entries[k], b.entries[k], segs[1..], s);
      }
    }
  }

  /** What `b` does not mention is kept from `a`. */
  lemma {:induction false} MergeKeeps(a: Value, b: Value, segs: seq<string>)
    requires Misses(b, segs)
    ensures Lookup(Merged(a, b), segs) == Lookup(a, segs)
    decreases |segs|
  {
    var k := segs[0];
    if a.Table? {
      if k in b.entries {
        if k in a.entries {
          MergeKeeps(a.entries[k], b.entries[k], segs[1..]);
        } else {
          MissesFindsNothing(b.entries[k], segs[1..]);
        }
      }
    } else {
      MissesFindsNothing(b, segs);
    }
  }

  /** The path `x.y` splits into its two segments. */
  lemma SplitTwo(x: string, y: string)
    requires PathSeparator !in x && PathSeparator !in y
    ensures Text.Split(x + [PathSeparator] + y, PathSeparator) == [x, y]
  {
    Text.SplitAppend(x, y, PathSeparator);
    Text.SplitNoSep(x, PathSeparator);
    Text.SplitNoSep(y, PathSeparator);
  }

  /** The two documents of ApplicationConfig's merge example. */
  function DocBase(): Value
  {
    Table(map["server" := Table(map["host" := Atom(Str("localhost")), "port" := Atom(Integer(8080))])])
  }

  function DocOverlay(): Value
  {
    Table(map["server" := Table(map["port" := Atom(Integer(9090))]),
              "database" := Table(map["url" := Atom(Str("postgres://localhost"))])])
  }

  /** The merge example of ApplicationConfig's documentation and test: after
      merging the overlay, `server.host` is still the base's "localhost". */
  lemma DocumentedHost()
    ensures ValueAt(Merged(DocBase(), DocOverlay()), "server.host") == Some(Atom(Str("localhost")))
  {
    SplitTwo("server", "host");
    assert "server.host" == "server" + [PathSeparator] + "host";
    var server := DocOverlay().entries["server"];
    assert "host" !in server.entries;
    assert Misses(DocOverlay(), ["server", "host"]);
    MergeKeeps(DocBase(), DocOverlay(), ["server", "host"]);
    var baseServer := DocBase().entries["server"];
    assert baseServer.entries["host"] == Atom(Str("localhost"));
    assert Lookup(baseServer.entries["host"], []) == Some(Atom(Str("localhost")));
    assert Lookup(baseServer, ["host"]) == Some(Atom(Str("localhost")));
    assert Lookup(DocBase(), ["server", "host"]) == Some(Atom(Str("localhost")));
  }

  /** In the same example, `server.port` is the overlay's 9090. */
  lemma DocumentedPort()
    ensures ValueAt(Merged(DocBase(), DocOverlay()), "server.port") == Some(Atom(Integer(9090)))
  {
    SplitTwo("server", "port");
    assert "server.port" == "server" + [PathSeparator] + "port";
    assert Lookup(DocOverlay(), ["server", "port"]) == Some(Atom(Integer(9090)));
    MergeOverrides(DocBase(), DocOverlay(), ["server", "port"], Integer(9090));
  }

  /** In the same example, `database.url` comes from the overlay alone. */
  lemma DocumentedUrl()
    ensures ValueAt(Merged(DocBase(), DocOverlay()), "database.url") == Some(Atom(Str("postgres://localhost")))
  {
    SplitTwo("database", "url");
    assert "database.url" == "database" + [PathSeparator] + "url";
    assert Lookup(DocOverlay(), ["database", "url"]) == Some(Atom(Str("postgres://localhost")));
    MergeOverrides(DocBase(), DocOverlay(), ["database", "url"], Str("postgres://localhost"));
  }

  // ---------------------------------------------------------------------------
  // ApplicationConfig.
  // ---------------------------------------------------------------------------

  /** A configuration document; parsing TOML text into the value is not modelled. */
  class ApplicationConfig {
    var value: Value

    constructor (v: Value)
      ensures value == v
    {
      value := v;
    }

    /** ApplicationConfig::merge: the deep merge of `other` over this document. */
    method Merge(other: ApplicationConfig)
      modifies this
      ensures value == Merged(old(value), old(other.value))
    {
      value := MergeValues(value, other.value);
    }

    /** ApplicationConfig::get: walk the dotted path one segment at a time. */
    method Get(path: string) returns (r: Option<Value>)
      ensures r == ValueAt(value, path)
    {
      var parts := Text.Split(path, PathSeparator);
      var current := value;
      var i := 0;
      while i < |parts|
        invariant 0 <= i <= |parts|
        invariant Lookup(value, parts) == Lookup(current, parts[i..])
      {
        match Child(current, parts[i]) {
          case None => return None;
          case Some(v) => current := v;
        }
        i := i + 1;
      }
      r := Some(current);
    }

    /** ApplicationConfig::resolve_prefix up to decoding: the empty prefix selects
        the whole document, a prefix that `get` cannot find is an error, and any
        other prefix selects the value found there. */
    method ResolvePrefix(prefix: string) returns (r: Result<Value, string>)
      ensures prefix == "" ==> r == Success(value)
      ensures prefix != "" && ValueAt(value, prefix) == None ==>
        r == Failure("No config found for " + prefix)
      ensures prefix != "" && ValueAt(value, prefix).Some? ==>
        r == Success(ValueAt(value, prefix).value)
    {
      if prefix == "" {
        return Success(value);
      }
      var part := Get(prefix);
      if part == None {
        return Failure("No config found for " + prefix);
      }
      r := Success(part.value);
    }
  }
}
