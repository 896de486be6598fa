/**
 * Row-key conversion between the database's snake_case column names and
 * the camelCase property names used everywhere else.
 */
module KeyCase {
  import opened Text

  /**
   * `key.replace(/_([a-z])/g, g => g[1].toUpperCase())`: scanning left to
   * right, each `_` followed by a lowercase ASCII letter becomes that
   * letter in upper case; every other character is copied.
   */
  function CamelKey(k: string): (r: string)
    ensures |r| <= |k|
    decreases |k|
  {
    if |k| >= 2 && k[0] == '_' && IsLower(k[1]) then [UpperChar(k[1])] + CamelKey(k[2..])
    else if k == [] then []
    else [k[0]] + CamelKey(k[1..])
  }

  /** `key.replace(/[A-Z]/g, l => '_' + l.toLowerCase())`. */
  function SnakeKey(k: string): (r: string)
    ensures |r| >= |k|
  {
    if k == [] then [] else SnakeChar(k[0]) + SnakeKey(k[1..])
  }

  /** What one character becomes: an upper-case letter turns into `_` and its lower case. */
  function SnakeChar(c: char): (r: string)
    ensures 1 <= |r| <= 2
  {
    if IsUpper(c) then ['_', LowerChar(c)] else [c]
  }

  // One-character unfoldings of the two rewrites; the inductive proofs
  // below are built from these.

  lemma SnakeKeyCons(c: char, rest: string)
    ensures SnakeKey([c] + rest) == SnakeChar(c) + SnakeKey(rest)
  {
    assert ([c] + rest)[0] == c && ([c] + rest)[1..] == rest;
  }

  /** A character other than `_` is copied by camel-casing. */
  lemma CamelKeyCopy(c: char, rest: string)
    requires c != '_'
    ensures CamelKey([c] + rest) == [c] + CamelKey(rest)
  {
    assert ([c] + rest)[0] == c && ([c] + rest)[1..] == rest;
  }

  /** `_` before a lower-case letter becomes that letter in upper case. */
  lemma CamelKeyHump(l: char, rest: string)
    requires IsLower(l)
    ensures CamelKey(['_', l] + rest) == [UpperChar(l)] + CamelKey(rest)
  {
    var k := ['_', l] + rest;
    assert k[0] == '_' && k[1] == l && k[2..] == rest;
  }

  /** A snake-cased key has no upper-case letter left. */
  lemma {:induction false} SnakeKeyNoUpper(k: string)
    ensures NoUpper(SnakeKey(k))
  {
    if k != [] {
      SnakeKeyNoUpper(k[1..]);
      assert NoUpper(SnakeChar(k[0]));
      NoUpperConcat(SnakeChar(k[0]), SnakeKey(k[1..]));
    }
  }

  lemma UpperOfLower(c: char)
    requires IsUpper(c)
    ensures UpperChar(LowerChar(c)) == c
  {
  }

  /** A key without underscores survives the trip to snake case and back. */
  lemma {:induction false} CamelOfSnake(k: string)
    requires '_' !in k
    ensures CamelKey(SnakeKey(k)) == k
  {
    if k != [] {
      var h, t := k[0], k[1..];
      assert '_' !in t;
      if IsUpper(h) {
        calc {
          CamelKey(SnakeKey(k));
          CamelKey(['_', LowerChar(h)] + SnakeKey(t));
          { CamelKeyHump(LowerChar(h), SnakeKey(t)); UpperOfLower(h); }
          [h] + CamelKey(SnakeKey(t));
          { CamelOfSnake(t); }
          [h] + t;
          k;
        }
      } else {
        calc {
          CamelKey(SnakeKey(k));
          CamelKey([h] + SnakeKey(t));
          { CamelKeyCopy(h, SnakeKey(t)); }
          [h] + CamelKey(SnakeKey(t));
          { CamelOfSnake(t); }
          [h] + t;
          k;
        }
      }
    }
  }

  /** Every underscore is followed by a lowercase letter. */
  predicate UnderscoresBeforeLower(k: string) {
    forall i :: 0 <= i < |k| && k[i] == '_' ==> i + 1 < |k| && IsLower(k[i + 1])
  }

  predicate NoUpper(k: string) {
    forall i :: 0 <= i < |k| ==> !IsUpper(k[i])
  }

  lemma NoUpperConcat(x: string, y: string)
    requires NoUpper(x) && NoUpper(y)
    ensures NoUpper(x + y)
  {
    assert forall i :: |x| <= i < |x + y| ==> (x + y)[i] == y[i - |x|];
  }

  lemma SnakeShapeLowerSuffix(k: string)
    requires NoUpper(k) && k != []
    ensures NoUpper(k[1..])
  {
    assert forall i :: 0 <= i < |k[1..]| ==> k[1..][i] == k[i + 1];
  }

  /** Both shape conditions carry over to every suffix. */
  lemma SnakeShapeSuffix(k: string, n: nat)
    requires NoUpper(k) && UnderscoresBeforeLower(k) && n <= |k|
    ensures NoUpper(k[n..]) && UnderscoresBeforeLower(k[n..])
  {
    assert forall i :: 0 <= i < |k[n..]| ==> k[n..][i] == k[n + i];
  }

  /** A well-formed snake_case key survives the trip to camel case and back. */
  lemma {:induction false} SnakeOfCamel(k: string)
    requires NoUpper(k) && UnderscoresBeforeLower(k)
    ensures SnakeKey(CamelKey(k)) == k
    decreases |k|
  {
    if k == [] {
    } else if k[0] == '_' {
      var l, t := k[1], k[2..];
      assert IsLower(l);
      SnakeShapeSuffix(k, 2);
      calc {
        SnakeKey(CamelKey(k));
        SnakeKey([UpperChar(l)] + CamelKey(t));
        { SnakeKeyCons(UpperChar(l), CamelKey(t)); }
        ['_', l] + SnakeKey(CamelKey(t));
        { SnakeOfCamel(t); }
        ['_', l] + t;
        k;
      }
    } else {
      var h, t := k[0], k[1..];
      assert !IsUpper(h);
      SnakeShapeSuffix(k, 1);
      calc {
        SnakeKey(CamelKey(k));
        SnakeKey([h] + CamelKey(t));
        { SnakeKeyCons(h, CamelKey(t)); }
        [h] + SnakeKey(CamelKey(t));
        { SnakeOfCamel(t); }
        [h] + t;
        k;
      }
    }
  }

  /** An underscore that is not followed by a lowercase letter is kept. */
  lemma {:induction false} CamelKeepsOtherUnderscores(k: string)
    requires forall i :: 0 <= i < |k| - 1 ==> !(k[i] == '_' && IsLower(k[i + 1]))
    ensures CamelKey(k) == k
  {
    if k != [] {
      CamelKeepsOtherUnderscores(k[1..]);
      assert k == [k[0]] + k[1..];
    }
  }

  lemma {:induction false} SnakeKeyConcat(a: string, b: string)
    ensures SnakeKey(a + b) == SnakeKey(a) + SnakeKey(b)
  {
    if a == [] {
      assert a + b == b;
    } else {
      var h, t := a[0], a[1..];
      calc {
        SnakeKey(a + b);
        { assert a + b == [h] + (t + b); }
        SnakeKey([h] + (t + b));
        { SnakeKeyCons(h, t + b); }
        SnakeChar(h) + SnakeKey(t + b);
        { SnakeKeyConcat(t, b); }
        SnakeChar(h) + (SnakeKey(t) + SnakeKey(b));
        (SnakeChar(h) + SnakeKey(t)) + SnakeKey(b);
        SnakeKey(a) + SnakeKey(b);
      }
    }
  }

  lemma {:induction false} SnakeKeepsLowerKey(k: string)
    requires NoUpper(k)
    ensures SnakeKey(k) == k
  {
    if k != [] {
      SnakeShapeLowerSuffix(k);
      SnakeKeepsLowerKey(k[1..]);
      assert SnakeChar(k[0]) == [k[0]];
      assert [k[0]] + k[1..] == k;
    }
  }

  /** `validFrom` has no underscore, so it comes back from snake case unchanged. */
  lemma ValidFromRoundTrip()
    ensures CamelKey(SnakeKey("validFrom")) == "validFrom"
  {
    assert '_' !in "validFrom";
    CamelOfSnake("validFrom");
  }

  /** `valid_from` is a well-formed snake_case key, so it comes back from camel case unchanged. */
  lemma ValidFromSnakeRoundTrip()
    ensures SnakeKey(CamelKey("valid_from")) == "valid_from"
  {
    var k := "valid_from";
    assert NoUpper(k);
    assert UnderscoresBeforeLower(k) by {
      forall i | 0 <= i < |k| && k[i] == '_'
        ensures i + 1 < |k| && IsLower(k[i + 1])
      {
        assert i == 5;
      }
    }
    SnakeOfCamel(k);
  }

  lemma DigitAfterUnderscoreExample()
    ensures CamelKey("price_1") == "price_1"
  {
    CamelKeepsOtherUnderscores("price_1");
  }

  /** The object built by copying each entry under its converted key; a later entry overwrites an earlier one. */
  function Convert<V>(entries: seq<(string, V)>, f: string -> string): (m: map<string, V>)
    ensures m.Keys == set i | 0 <= i < |entries| :: f(entries[i].0)
  {
    if entries == [] then map[]
    else
      var n := |entries| - 1;
      var m := Convert(entries[..n], f);
      assert forall i :: 0 <= i < n ==> entries[..n][i] == entries[i];
      m[f(entries[n].0) := entries[n].1]
  }

  /** No two entries are mapped to the same key. */
  predicate NoCollision<V>(entries: seq<(string, V)>, f: string -> string) {
    forall i, j :: 0 <= i < j < |entries| ==> f(entries[i].0) != f(entries[j].0)
  }

  /** Without collisions every value is copied unchanged under its converted key. */
  lemma {:induction false} ConvertKeepsValues<V>(entries: seq<(string, V)>, f: string -> string, i: nat)
    requires NoCollision(entries, f) && i < |entries|
    ensures f(entries[i].0) in Convert(entries, f)
    ensures Convert(entries, f)[f(entries[i].0)] == entries[i].1
  {
    var n := |entries| - 1;
    if i < n {
      assert entries[..n][i] == entries[i];
      assert NoCollision(entries[..n], f) by {
        assert forall a :: 0 <= a < n ==> entries[..n][a] == entries[a];
      }
      ConvertKeepsValues(entries[..n], f, i);
    }
  }

  /** Distinct camelCase property names (no underscores) never collide in snake case. */
  lemma SnakeNoCollision<V>(entries: seq<(string, V)>)
    requires forall i :: 0 <= i < |entries| ==> '_' !in entries[i].0
    requires forall i, j :: 0 <= i < j < |entries| ==> entries[i].0 != entries[j].0
    ensures NoCollision(entries, SnakeKey)
  {
    forall i, j | 0 <= i < j < |entries|
      ensures SnakeKey(entries[i].0) != SnakeKey(entries[j].0)
    {
      CamelOfSnake(entries[i].0);
      CamelOfSnake(entries[j].0);
    }
  }

  /** Distinct well-formed snake_case column names never collide in camel case. */
  lemma CamelNoCollision<V>(entries: seq<(string, V)>)
    requires forall i :: 0 <= i < |entries| ==> NoUpper(entries[i].0) && UnderscoresBeforeLower(entries[i].0)
    requires forall i, j :: 0 <= i < j < |entries| ==> entries[i].0 != entries[j].0
    ensures NoCollision(entries, CamelKey)
  {
    forall i, j | 0 <= i < j < |entries|
      ensures CamelKey(entries[i].0) != CamelKey(entries[j].0)
    {
      SnakeOfCamel(entries[i].0);
      SnakeOfCamel(entries[j].0);
    }
  }

  /** `a_b` and `aB` both become `aB`: the entry met last wins. */
  lemma CollisionLastWins(x: int, y: int)
    ensures Convert([("a_b", x), ("aB", y)], CamelKey) == map["aB" := y]
  {
    assert CamelKey("a_b") == "aB";
    assert CamelKey("aB") == "aB";
    assert [("a_b", x), ("aB", y)][..1] == [("a_b", x)];
  }

  /** `toCamelCase`: the for..in loop over the row's entries, in enumeration order. */
  method ToCamelCase<V>(row: seq<(string, V)>) returns (newRow: map<string, V>)
    ensures newRow == Convert(row, CamelKey)
  {
    newRow := map[];
    var i := 0;
    while i < |row|
      invariant 0 <= i <= |row|
      invariant newRow == Convert(row[..i], CamelKey)
    {
      assert row[..i + 1][..i] == row[..i];
      newRow := newRow[CamelKey(row[i].0) := row[i].1];
      i := i + 1;
    }
    assert row[..|row|] == row;
  }

  /** `toSnakeCase`: the same loop with the opposite key rewrite. */
  method ToSnakeCase<V>(obj: seq<(string, V)>) returns (newObj: map<string, V>)
    ensures newObj == Convert(obj, SnakeKey)
  {
    newObj := map[];
    var i := 0;
    while i < |obj|
      invariant 0 <= i <= |obj|
      invariant newObj == Convert(obj[..i], SnakeKey)
    {
      assert obj[..i + 1][..i] == obj[..i];
      newObj := newObj[SnakeKey(obj[i].0) := obj[i].1];
      i := i + 1;
    }
    assert obj[..|obj|] == obj;
  }
}
