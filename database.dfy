/**
 * The stored tables and the shape of the parameterised UPDATE statements
 * that the services build: a list of `column = $k` clauses, a list of
 * bound values, and the placeholder of the `WHERE id` value.
 */
module Database {
  import opened Text
  import opened Domain
  import opened Sorting

  /** A bound parameter value. */
  datatype SqlValue = Str(s: string) | Number(n: int) | Date(t: int) | PermissionsJson(p: Permissions)

  /** An assignment still to be numbered: the column and the value it receives. */
  type Assignment<C> = (C, SqlValue)

  /** `column = $placeholder`. */
  datatype SetClause<C> = SetClause(column: C, placeholder: nat)

  /** The clauses a builder produces for `a`, numbered consecutively from `first`. */
  function NumberedFrom<C>(a: seq<Assignment<C>>, first: nat): (r: seq<SetClause<C>>)
    ensures |r| == |a|
    ensures forall i :: 0 <= i < |a| ==> r[i] == SetClause(a[i].0, first + i)
  {
    if a == [] then [] else [SetClause(a[0].0, first)] + NumberedFrom(a[1..], first + 1)
  }

  /** Appending one assignment adds one clause carrying the next placeholder. */
  lemma NumberedSnoc<C>(a: seq<Assignment<C>>, x: Assignment<C>, first: nat)
    ensures NumberedFrom(a + [x], first) == NumberedFrom(a, first) + [SetClause(x.0, first + |a|)]
  {
  }

  function ValuesOf<C>(a: seq<Assignment<C>>): (r: seq<SqlValue>)
    ensures |r| == |a|
    ensures forall i :: 0 <= i < |a| ==> r[i] == a[i].1
  {
    seq(|a|, i requires 0 <= i < |a| => a[i].1)
  }

  /** The columns of `a` are pairwise distinct: no column is assigned twice. */
  predicate DistinctColumns<C(==)>(a: seq<Assignment<C>>) {
    forall i, j :: 0 <= i < j < |a| ==> a[i].0 != a[j].0
  }

  /** `UPDATE <table> SET <sets> WHERE id = $<wherePlaceholder>` with its bound values. */
  datatype UpdateStatement<C> = UpdateStatement(sets: seq<SetClause<C>>, wherePlaceholder: nat, values: seq<SqlValue>)

  /** Placeholders `$1..$n` on the clauses, the id at `$(n+1)`, one value per placeholder. */
  predicate WellFormed<C>(stmt: UpdateStatement<C>) {
    && (forall i :: 0 <= i < |stmt.sets| ==> stmt.sets[i].placeholder == i + 1)
    && stmt.wherePlaceholder == |stmt.sets| + 1
    && |stmt.values| == stmt.wherePlaceholder
  }

  /** The statement an update builder issues: its clauses, then the id bound last. */
  function StatementFor<C>(a: seq<Assignment<C>>, id: string): (stmt: UpdateStatement<C>)
    ensures WellFormed(stmt) && |stmt.sets| == |a|
    ensures stmt.values[stmt.wherePlaceholder - 1] == Str(id)
    ensures forall i :: 0 <= i < |a| ==> stmt.sets[i].column == a[i].0 && stmt.values[stmt.sets[i].placeholder - 1] == a[i].1
  {
    UpdateStatement(NumberedFrom(a, 1), |a| + 1, ValuesOf(a) + [Str(id)])
  }

  /** Assignments applied in order by a column setter. */
  function ApplyAll<R, C>(row: R, a: seq<Assignment<C>>, setter: (R, Assignment<C>) -> R): R {
    if a == [] then row else ApplyAll(setter(row, a[0]), a[1..], setter)
  }

  lemma {:induction false} ApplyAllConcat<R, C>(row: R, a: seq<Assignment<C>>, b: seq<Assignment<C>>, setter: (R, Assignment<C>) -> R)
    ensures ApplyAll(row, a + b, setter) == ApplyAll(ApplyAll(row, a, setter), b, setter)
  {
    if a == [] {
      assert a + b == b;
    } else {
      assert (a + b)[0] == a[0] && (a + b)[1..] == a[1..] + b;
      ApplyAllConcat(setter(row, a[0]), a[1..], b, setter);
    }
  }

  lemma ApplySingle<R, C>(row: R, x: Assignment<C>, setter: (R, Assignment<C>) -> R)
    ensures ApplyAll(row, [x], setter) == setter(row, x)
  {
    assert [x][1..] == [];
  }

  /** Pushing four groups one after another gives their nested concatenation. */
  lemma ConcatFour<T>(a: seq<T>, b: seq<T>, c: seq<T>, d: seq<T>)
    ensures [] + a + b + c + d == a + (b + (c + d))
  {
    assert [] + a == a;
  }

  /** What the database does with the SET part: each clause takes the value its placeholder binds. */
  function Execute<R, C>(row: R, sets: seq<SetClause<C>>, values: seq<SqlValue>, setter: (R, Assignment<C>) -> R): R
    requires forall i :: 0 <= i < |sets| ==> 1 <= sets[i].placeholder <= |values|
  {
    if sets == [] then row
    else Execute(setter(row, (sets[0].column, values[sets[0].placeholder - 1])), sets[1..], values, setter)
  }

  /** Consecutive numbering lines each clause up with its own value, so executing the clauses applies the assignments. */
  lemma {:induction false} ExecuteNumbered<R, C>(row: R, a: seq<Assignment<C>>, first: nat, values: seq<SqlValue>, setter: (R, Assignment<C>) -> R)
    requires first >= 1 && first - 1 + |a| <= |values|
    requires forall i :: 0 <= i < |a| ==> values[first - 1 + i] == a[i].1
    ensures Execute(row, NumberedFrom(a, first), values, setter) == ApplyAll(row, a, setter)
  {
    if a != [] {
      var sets := NumberedFrom(a, first);
      assert sets[1..] == NumberedFrom(a[1..], first + 1);
      ExecuteNumbered(setter(row, a[0]), a[1..], first + 1, values, setter);
    }
  }

  /** Executing the issued statement on the row it selects applies the builder's assignments. */
  lemma ExecuteStatement<R, C>(row: R, a: seq<Assignment<C>>, id: string, setter: (R, Assignment<C>) -> R)
    ensures Execute(row, StatementFor(a, id).sets, StatementFor(a, id).values, setter) == ApplyAll(row, a, setter)
  {
    ExecuteNumbered(row, a, 1, StatementFor(a, id).values, setter);
  }

  /**
   * The builder's push step: `setClauses.push(`col = $${paramIndex++}`)`
   * and `values.push(v)`, tracked against the assignments made so far.
   */
  method Push<C>(setClauses: seq<SetClause<C>>, values: seq<SqlValue>, paramIndex: nat, ghost a: seq<Assignment<C>>, x: Assignment<C>)
    returns (setClauses': seq<SetClause<C>>, values': seq<SqlValue>, paramIndex': nat)
    requires setClauses == NumberedFrom(a, 1) && values == ValuesOf(a) && paramIndex == |a| + 1
    ensures setClauses' == NumberedFrom(a + [x], 1) && values' == ValuesOf(a + [x]) && paramIndex' == |a + [x]| + 1
  {
    NumberedSnoc(a, x, 1);
    setClauses' := setClauses + [SetClause(x.0, paramIndex)];
    values' := values + [x.1];
    paramIndex' := paramIndex + 1;
  }

  /** The rows stored under `keys`, in that order. */
  function RowsAt<T>(table: map<string, T>, keys: seq<string>): (r: seq<T>)
    requires forall i :: 0 <= i < |keys| ==> keys[i] in table
    ensures |r| == |keys|
    ensures forall i :: 0 <= i < |keys| ==> r[i] == table[keys[i]]
  {
    seq(|keys|, i requires 0 <= i < |keys| => table[keys[i]])
  }

  /** `keys` lists every key of `kept`, each once, and nothing else; all are stored. */
  ghost predicate ListsEachOnce<T>(table: map<string, T>, kept: set<string>, keys: seq<string>) {
    && (forall i :: 0 <= i < |keys| ==> keys[i] in table)
    && (forall i, j :: 0 <= i < j < |keys| ==> keys[i] != keys[j])
    && (forall k :: k in kept <==> k in keys)
  }

  /** `r` holds the rows stored under the keys of `kept`, each exactly once, in some order. */
  ghost predicate RowsOnce<T>(table: map<string, T>, kept: set<string>, r: seq<T>) {
    exists keys :: ListsEachOnce(table, kept, keys) && multiset(r) == multiset(RowsAt(table, keys))
  }

  lemma {:induction false} DistinctCard(keys: seq<string>)
    requires forall i, j :: 0 <= i < j < |keys| ==> keys[i] != keys[j]
    ensures |set k | k in keys| == |keys|
  {
    if keys != [] {
      var last := keys[|keys| - 1];
      var init := keys[..|keys| - 1];
      DistinctCard(init);
      assert (set k | k in keys) == (set k | k in init) + {last};
      assert last !in (set k | k in init);
    }
  }

  /** Each row once: as many rows as kept keys. */
  lemma RowsOnceLength<T>(table: map<string, T>, kept: set<string>, r: seq<T>)
    requires RowsOnce(table, kept, r)
    ensures |r| == |kept|
  {
    var keys :| ListsEachOnce(table, kept, keys) && multiset(r) == multiset(RowsAt(table, keys));
    assert |r| == |multiset(r)| == |multiset(RowsAt(table, keys))|;
    DistinctCard(keys);
    assert kept == set k | k in keys;
  }

  /** Every row listed is stored under a kept key, and every kept key's row is listed. */
  lemma RowsOnceMembers<T>(table: map<string, T>, kept: set<string>, r: seq<T>)
    requires RowsOnce(table, kept, r)
    ensures forall x :: x in r <==> exists k :: k in kept && k in table && table[k] == x
  {
    var keys :| ListsEachOnce(table, kept, keys) && multiset(r) == multiset(RowsAt(table, keys));
    var rows := RowsAt(table, keys);
    forall x
      ensures x in r <==> exists k :: k in kept && k in table && table[k] == x
    {
      calc {
        x in r;
        x in multiset(r);
        x in multiset(rows);
        x in rows;
      }
      if x in rows {
        var i :| 0 <= i < |rows| && rows[i] == x;
        assert keys[i] in kept && keys[i] in table && table[keys[i]] == x;
      }
      if exists k :: k in kept && k in table && table[k] == x {
        var k :| k in kept && k in table && table[k] == x;
        var i :| 0 <= i < |keys| && keys[i] == k;
        assert rows[i] == x;
      }
    }
  }

  /** The keys of `done` whose rows `keep` accepts. */
  function KeptOf<T>(table: map<string, T>, keep: T -> bool, done: set<string>): set<string> {
    set k | k in done && k in table && keep(table[k])
  }

  /** One step of the scan: a kept key is appended, any other key is passed over. */
  lemma ScanStep<T>(table: map<string, T>, keep: T -> bool, done: set<string>, keys: seq<string>, k: string)
    requires ListsEachOnce(table, KeptOf(table, keep, done), keys)
    requires k in table && k !in done
    ensures keep(table[k]) ==> ListsEachOnce(table, KeptOf(table, keep, done + {k}), keys + [k])
    ensures keep(table[k]) ==> RowsAt(table, keys + [k]) == RowsAt(table, keys) + [table[k]]
    ensures !keep(table[k]) ==> ListsEachOnce(table, KeptOf(table, keep, done + {k}), keys)
  {
    if keep(table[k]) {
      var keys' := keys + [k];
      assert forall i :: 0 <= i < |keys| ==> keys'[i] == keys[i];
      assert k !in keys;
      assert RowsAt(table, keys') == RowsAt(table, keys) + [table[k]];
    }
  }

  /**
   * `SELECT * FROM <table> WHERE <keep> ORDER BY <key> DESC`: every kept
   * row exactly once, largest key first.  Rows with equal keys come back
   * in an order the database chooses.
   */
  method Select<T(==)>(table: map<string, T>, keep: T -> bool, key: T -> int) returns (r: seq<T>)
    ensures forall x :: x in r <==> x in table.Values && keep(x)
    ensures RowsOnce(table, (set k | k in table && keep(table[k])), r)
    ensures SortedDesc(r, key)
  {
    r := [];
    ghost var keys: seq<string> := [];
    var remaining := table.Keys;
    while remaining != {}
      invariant remaining <= table.Keys
      invariant SortedDesc(r, key)
      invariant ListsEachOnce(table, KeptOf(table, keep, table.Keys - remaining), keys)
      invariant multiset(r) == multiset(RowsAt(table, keys))
      decreases |remaining|
    {
      var k :| k in remaining;
      ghost var done := table.Keys - remaining;
      ScanStep(table, keep, done, keys, k);
      assert done + {k} == table.Keys - (remaining - {k});
      if keep(table[k]) {
        r := InsertDesc(table[k], r, key);
        keys := keys + [k];
      }
      remaining := remaining - {k};
    }
    var kept := set k | k in table && keep(table[k]);
    assert KeptOf(table, keep, table.Keys - remaining) == kept;
    assert RowsOnce(table, kept, r);
    RowsOnceMembers(table, kept, r);
  }

  /** A stored user: the public fields plus the password column. */
  datatype UserRow = UserRow(user: User, passwordHash: string)

  /** The four tables, keyed by id. */
  class Tables {
    var prices: map<string, Price>
    var announcements: map<string, Announcement>
    var rfqs: map<string, RfqSubmission>
    var users: map<string, UserRow>
  }
}
