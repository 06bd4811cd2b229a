/** The pure helpers of the scope code generator: bucketing of scope fields by
    scope name, snake_case to PascalCase conversion, and the names given to each
    generated scope type and accessor method. */
module Scopes {
  import opened Wrappers
  import Text

  // ---------------------------------------------------------------------------
  // group_by
  // ---------------------------------------------------------------------------

  /** The buckets after pushing `items` one by one into the bucket of their key. */
  function Grouped<T, K(==)>(items: seq<T>, key: T -> K): map<K, seq<T>>
    decreases |items|
  {
    if items == [] then map[]
    else
      var g := Grouped(items[..|items| - 1], key);
      var x := items[|items| - 1];
      g[key(x) := (if key(x) in g then g[key(x)] else []) + [x]]
  }

  /** Reference bucket: the items with key `k`, in input order. */
  function Bucket<T, K(==)>(items: seq<T>, key: T -> K, k: K): seq<T>
    decreases |items|
  {
    if items == [] then []
    else
      var x := items[|items| - 1];
      Bucket(items[..|items| - 1], key, k) + (if key(x) == k then [x] else [])
  }

  /** group_by: push each item onto the bucket of its key, creating the bucket on
      first use. */
  method GroupBy<T, K(==)>(items: seq<T>, key: T -> K) returns (groups: map<K, seq<T>>)
    ensures groups == Grouped(items, key)
  {
    groups := map[];
    for i := 0 to |items|
      invariant groups == Grouped(items[..i], key)
    {
      var item := items[i];
      var k := key(item);
      if k !in groups {
        groups := groups[k := []];
      }
      groups := groups[k := groups[k] + [item]];
      assert items[..i + 1][..i] == items[..i];
    }
    assert items[..|items|] == items;
  }

  /** The buckets are exactly the keys of the items: no item is lost and no
      bucket is empty. */
  lemma {:induction false} GroupedKeys<T, K>(items: seq<T>, key: T -> K)
    ensures Grouped(items, key).Keys == set i | 0 <= i < |items| :: key(items[i])
    ensures forall k :: k in Grouped(items, key) ==> |Grouped(items, key)[k]| > 0
    decreases |items|
  {
    if items != [] {
      var init := items[..|items| - 1];
      GroupedKeys(init, key);
      var s := set i | 0 <= i < |items| :: key(items[i]);
      var s' := set i | 0 <= i < |init| :: key(init[i]);
      assert s == s' + {key(items[|items| - 1])} by {
        forall k | k in s ensures k in s' + {key(items[|items| - 1])} {
          var i :| 0 <= i < |items| && key(items[i]) == k;
          if i < |init| { assert init[i] == items[i]; }
        }
        forall k | k in s' ensures k in s {
          var i :| 0 <= i < |init| && key(init[i]) == k;
          assert items[i] == init[i];
        }
      }
    }
  }

  /** Every bucket holds exactly the items of its key, in their input order. */
  lemma {:induction false} GroupedBuckets<T, K>(items: seq<T>, key: T -> K, k: K)
    ensures k in Grouped(items, key) ==> Grouped(items, key)[k] == Bucket(items, key, k)
    ensures k !in Grouped(items, key) ==> Bucket(items, key, k) == []
    decreases |items|
  {
    if items != [] {
      GroupedBuckets(items[..|items| - 1], key, k);
    }
  }

  /** Some key of a non-empty map. */
  ghost function Pick<K, V>(m: map<K, V>): K
    requires |m| > 0
  {
    var k :| k in m; k
  }

  /** The bucket sizes added up. */
  ghost function TotalSize<K, T>(m: map<K, seq<T>>): nat
    decreases |m|
  {
    if |m| == 0 then 0 else |m[Pick(m)]| + TotalSize(m - {Pick(m)})
  }

  lemma {:induction false} TotalSizeRemove<K, T>(m: map<K, seq<T>>, k: K)
    requires k in m
    ensures TotalSize(m) == |m[k]| + TotalSize(m - {k})
    decreases |m|
  {
    var j := Pick(m);
    if j != k {
      assert (m - {j}).Keys == m.Keys - {j};
      assert (m - {k}).Keys == m.Keys - {k};
      TotalSizeRemove(m - {j}, k);
      TotalSizeRemove(m - {k}, j);
      assert m - {j} - {k} == m - {k} - {j};
    }
  }

  /** The bucket sizes sum to the number of items. */
  lemma {:induction false} GroupedSizes<T, K>(items: seq<T>, key: T -> K)
    ensures TotalSize(Grouped(items, key)) == |items|
    decreases |items|
  {
    if items != [] {
      var init := items[..|items| - 1];
      var g := Grouped(init, key);
      var x := items[|items| - 1];
      var g' := Grouped(items, key);
      GroupedSizes(init, key);
      TotalSizeRemove(g', key(x));
      assert g' - {key(x)} == g - {key(x)};
      if key(x) in g {
        TotalSizeRemove(g, key(x));
      } else {
        assert g - {key(x)} == g;
      }
    }
  }

  // ---------------------------------------------------------------------------
  // snake_to_pascal
  // ---------------------------------------------------------------------------

  const Underscore: char := '_'

  /** Upper-casing of one character, on ASCII letters. */
  function Upper(c: char): (u: char)
    ensures c != Underscore ==> u != Underscore
  {
    if 'a' <= c <= 'z' then (c as int - 32) as char else c
  }

  /** A word with its first character upper-cased and the rest unchanged; the
      empty word stays empty. */
  function Capitalize(word: string): (r: string)
    ensures |r| == |word|
    ensures word != [] ==> r[0] == Upper(word[0]) && r[1..] == word[1..]
  {
    if word == [] then [] else [Upper(word[0])] + word[1..]
  }

  /** Upper-casing an upper-cased character changes nothing. */
  lemma UpperIdempotent(c: char)
    ensures Upper(Upper(c)) == Upper(c)
  {
  }

  /** Capitalizing a capitalized word changes nothing. */
  lemma CapitalizeIdempotent(word: string)
    ensures Capitalize(Capitalize(word)) == Capitalize(word)
  {
  }

  /** The capitalized words, concatenated. */
  function PascalWords(words: seq<string>): string
    decreases |words|
  {
    if words == [] then [] else Capitalize(words[0]) + PascalWords(words[1..])
  }

  /** snake_to_pascal: capitalize each `_`-separated segment and concatenate. It
      is the character-wise conversion: every `_` is dropped and the character at
      the start or straight after a `_` is upper-cased, so empty segments (leading,
      trailing or doubled `_`) contribute nothing. */
  function SnakeToPascal(snake: string): (r: string)
    ensures r == PascalChars(snake, true)
    ensures Underscore !in r
    ensures |r| == |snake| - Text.Count(Underscore, snake)
  {
    PascalCharsSegments(snake);
    PascalCharsShape(snake, true);
    PascalWords(Text.Split(snake, Underscore))
  }

  /** Reference conversion character by character: drop every `_` and upper-case
      the character at the start or straight after a `_`. */
  function PascalChars(s: string, atStart: bool): string
    decreases |s|
  {
    if s == [] then []
    else if s[0] == Underscore then PascalChars(s[1..], true)
    else [if atStart then Upper(s[0]) else s[0]] + PascalChars(s[1..], false)
  }

  lemma {:induction false} PascalCharsSegments(s: string)
    ensures var segs := Text.Split(s, Underscore);
      && PascalChars(s, false) == segs[0] + PascalWords(segs[1..])
      && PascalChars(s, true) == PascalWords(segs)
    decreases |s|
  {
    if s != [] {
      PascalCharsSegments(s[1..]);
      var rest := Text.Split(s[1..], Underscore);
      var segs := Text.Split(s, Underscore);
      if s[0] == Underscore {
        assert segs == [[]] + rest;
        assert segs[1..] == rest;
      } else {
        assert segs == [[s[0]] + rest[0]] + rest[1..];
        assert segs[1..] == rest[1..];
        assert Capitalize(segs[0]) == [Upper(s[0])] + rest[0];
      }
    }
  }

  lemma {:induction false} PascalCharsShape(s: string, atStart: bool)
    ensures Underscore !in PascalChars(s, atStart)
    ensures |PascalChars(s, atStart)| == |s| - Text.Count(Underscore, s)
    decreases |s|
  {
    if s != [] {
      PascalCharsShape(s[1..], true);
      PascalCharsShape(s[1..], false);
    }
  }

  // ---------------------------------------------------------------------------
  // Scope names (gen_scope_output)
  // ---------------------------------------------------------------------------

  /** A `#[scope(...)]` field: its optional scope name and its type. */
  datatype ScopeField = ScopeField(name: Option<string>, ty: string)

  /** Name of the generated scope type for a struct named `ident`: the struct's
      name, then the PascalCase form of a named scope's name, then `Scope`. */
  function ScopeTypeName(ident: string, scope: Option<string>): (t: string)
    ensures |t| >= |ident| + 5
    ensures t[..|ident|] == ident && t[|t| - 5..] == "Scope"
    ensures scope.Some? ==> t[|ident|..|t| - 5] == SnakeToPascal(scope.value)
    ensures scope.None? ==> |t| == |ident| + 5
  {
    match scope
    case Some(n) => ident + SnakeToPascal(n) + "Scope"
    case None => ident + "Scope"
  }

  /** Name of the generated accessor method: a named scope's name followed by
      `_scope`, or plain `scope` for the unnamed one. */
  function ScopeFnName(scope: Option<string>): (f: string)
    ensures |f| >= 5 && f[|f| - 5..] == "scope"
    ensures scope.Some? ==> |f| == |scope.value| + 6 && f[..|scope.value|] == scope.value && f[|scope.value|] == '_'
    ensures scope.None? ==> |f| == 5
  {
    match scope
    case Some(n) => n + "_scope"
    case None => "scope"
  }

  /** Distinct groups get distinct accessor methods. */
  lemma ScopeFnNamesDistinct(s1: Option<string>, s2: Option<string>)
    requires s1 != s2
    ensures ScopeFnName(s1) != ScopeFnName(s2)
  {
  }

  /** Type names are not so distinct: snake_to_pascal maps both `ab` and `_ab` to
      `Ab`, so two differently named scopes get the same type name. */
  lemma ScopeTypeNamesCanCoincide(ident: string)
    ensures ScopeTypeName(ident, Some("ab")) == ScopeTypeName(ident, Some("_ab"))
  {
  }

  /** The names generated for a struct's scope fields: one group per distinct
      scope name, each with its type name and accessor name. */
  function ScopeNames(ident: string, fields: seq<ScopeField>): (r: map<Option<string>, (string, string)>)
    ensures r.Keys == set i | 0 <= i < |fields| :: fields[i].name
    ensures forall k :: k in r ==> r[k] == (ScopeTypeName(ident, k), ScopeFnName(k))
  {
    var key := (f: ScopeField) => f.name;
    var groups := Grouped(fields, key);
    GroupedKeys(fields, key);
    map k | k in groups :: (ScopeTypeName(ident, k), ScopeFnName(k))
  }
}
