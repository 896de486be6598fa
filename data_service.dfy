/**
 * The database-backed service: price search queries, the UPDATE builders
 * for prices and announcements, deletes, and the RFQ table writes.
 */
module DataService {
  import opened Text
  import opened Domain
  import opened Sorting
  import opened Database

  function TypeName(k: PriceType): (s: string)
    ensures s == "public" <==> k == Public
  {
    assert |"public"| != |"internal"|;
    if k == Public then "public" else "internal"
  }

  // ---------------------------------------------------------------------
  // Price search

  /** `type = $k` or `<column> ILIKE $k`. */
  datatype Condition = TypeIs(placeholder: nat) | Ilike(column: string, placeholder: nat)

  /** `SELECT * FROM prices WHERE <conditions joined by AND> ORDER BY <orderBy>` with its parameters. */
  datatype SearchQuery = SearchQuery(conditions: seq<Condition>, params: seq<string>, orderBy: string)

  /** The query the search builders produce. */
  function SearchQueryFor(kind: PriceType, c: Criteria): (q: SearchQuery)
    ensures |q.conditions| == |q.params| >= 1
    ensures q.conditions[0] == TypeIs(1) && q.params[0] == TypeName(kind)
    ensures forall i :: 0 <= i < |q.conditions| ==> q.conditions[i].placeholder == i + 1
    ensures |q.conditions| == 1 + (if Truthy(c.origin) then 1 else 0) + (if Truthy(c.destination) then 1 else 0)
    ensures q.orderBy == "amount ASC"
  {
    var origin := if Truthy(c.origin) then [(Ilike("origin", 2), "%" + c.origin.value + "%")] else [];
    var next := 2 + |origin|;
    var dest := if Truthy(c.destination) then [(Ilike("destination", next), "%" + c.destination.value + "%")] else [];
    var extra := origin + dest;
    SearchQuery([TypeIs(1)] + seq(|extra|, i requires 0 <= i < |extra| => extra[i].0),
                [TypeName(kind)] + seq(|extra|, i requires 0 <= i < |extra| => extra[i].1),
                "amount ASC")
  }

  /** The search builder: `sql` and `params` grow while `paramIndex` counts from 2. */
  method BuildSearch(kind: PriceType, c: Criteria) returns (q: SearchQuery)
    ensures q == SearchQueryFor(kind, c)
  {
    var conditions := [TypeIs(1)];
    var params := [TypeName(kind)];
    var paramIndex := 2;
    if Truthy(c.origin) {
      conditions := conditions + [Ilike("origin", paramIndex)];
      paramIndex := paramIndex + 1;
      params := params + ["%" + c.origin.value + "%"];
    }
    if Truthy(c.destination) {
      conditions := conditions + [Ilike("destination", paramIndex)];
      paramIndex := paramIndex + 1;
      params := params + ["%" + c.destination.value + "%"];
    }
    q := SearchQuery(conditions, params, "amount ASC");
  }

  /** `value ILIKE '%v%'`: `v` occurs in `value`, ignoring case (LIKE wildcards inside `v` are not modelled). */
  predicate IlikeContains(value: string, pattern: string) {
    |pattern| >= 2 && pattern[0] == '%' && pattern[|pattern| - 1] == '%' &&
    ContainsIgnoreCase(value, pattern[1..|pattern| - 1])
  }

  predicate ConditionHolds(p: Price, cond: Condition, params: seq<string>)
    requires 1 <= cond.placeholder <= |params|
  {
    match cond
    case TypeIs(k) => TypeName(p.kind) == params[k - 1]
    case Ilike(column, k) =>
      if column == "origin" then IlikeContains(p.origin, params[k - 1])
      else column == "destination" && IlikeContains(p.destination, params[k - 1])
  }

  predicate RowSelected(p: Price, q: SearchQuery)
    requires forall i :: 0 <= i < |q.conditions| ==> 1 <= q.conditions[i].placeholder <= |q.params|
  {
    forall i :: 0 <= i < |q.conditions| ==> ConditionHolds(p, q.conditions[i], q.params)
  }

  lemma IlikeOfWrapped(value: string, v: string)
    ensures IlikeContains(value, "%" + v + "%") <==> ContainsIgnoreCase(value, v)
  {
    var pat := "%" + v + "%";
    assert pat[1..|pat| - 1] == v;
  }

  /** The built query selects exactly the rows that meet the search rule. */
  lemma SearchQuerySelects(kind: PriceType, c: Criteria, p: Price)
    ensures RowSelected(p, SearchQueryFor(kind, c)) <==> MatchesSearch(p, kind, c)
  {
    var q := SearchQueryFor(kind, c);
    if Truthy(c.origin) {
      IlikeOfWrapped(p.origin, c.origin.value);
      assert q.conditions[1] == Ilike("origin", 2) && q.params[1] == "%" + c.origin.value + "%";
    }
    if Truthy(c.destination) {
      IlikeOfWrapped(p.destination, c.destination.value);
      var d := |q.conditions| - 1;
      assert q.conditions[d] == Ilike("destination", d + 1) && q.params[d] == "%" + c.destination.value + "%";
    }
    if MatchesSearch(p, kind, c) {
      forall i | 0 <= i < |q.conditions|
        ensures ConditionHolds(p, q.conditions[i], q.params)
      {
      }
    }
  }

  function NegAmount(p: Price): int { -p.amount }

  /**
   * `fetchPublicPrices` / `fetchInternalPrices`: the selected rows in
   * ascending amount; a query error (`failed`) gives the empty list.
   */
  method FetchPrices(db: Tables, kind: PriceType, c: Criteria, failed: bool) returns (r: seq<Price>)
    ensures failed ==> r == []
    ensures !failed ==> forall p :: p in r <==> p in db.prices.Values && MatchesSearch(p, kind, c)
    ensures !failed ==> RowsOnce(db.prices, (set k | k in db.prices && MatchesSearch(db.prices[k], kind, c)), r)
    ensures forall i, j :: 0 <= i < j < |r| ==> r[i].amount <= r[j].amount
  {
    var q := BuildSearch(kind, c);
    if failed {
      return [];
    }
    forall p | true
      ensures RowSelected(p, q) <==> MatchesSearch(p, kind, c)
    {
      SearchQuerySelects(kind, c, p);
    }
    r := Select(db.prices, p requires true => RowSelected(p, q), NegAmount);
    assert (set k | k in db.prices && RowSelected(db.prices[k], q)) ==
           (set k | k in db.prices && MatchesSearch(db.prices[k], kind, c));
    assert forall i, j :: 0 <= i < j < |r| ==> NegAmount(r[i]) >= NegAmount(r[j]);
  }

  // ---------------------------------------------------------------------
  // Price update

  /** The columns `updatePrice` may assign, in the order the builder tests them. */
  datatype PriceColumn = Origin | Destination | Amount | Currency | ValidFrom | ValidTo | Type | Carrier | Notes

  const PriceColumns: seq<PriceColumn> := [Origin, Destination, Amount, Currency, ValidFrom, ValidTo, Type, Carrier, Notes]

  function PriceColumnName(c: PriceColumn): string {
    match c
    case Origin => "origin"
    case Destination => "destination"
    case Amount => "amount"
    case Currency => "currency"
    case ValidFrom => "valid_from"
    case ValidTo => "valid_to"
    case Type => "type"
    case Carrier => "carrier"
    case Notes => "notes"
  }

  /** The `!== undefined` test on the destructured field. */
  predicate PriceDefined(u: PricePatch, c: PriceColumn) {
    match c
    case Origin => u.origin.Some?
    case Destination => u.destination.Some?
    case Amount => u.amount.Some?
    case Currency => u.currency.Some?
    case ValidFrom => u.validFrom.Some? && u.validFrom.value.Some?
    case ValidTo => u.validTo.Some? && u.validTo.value.Some?
    case Type => u.kind.Some?
    case Carrier => u.carrier.Some? && u.carrier.value.Some?
    case Notes => u.notes.Some? && u.notes.value.Some?
  }

  function PriceValue(u: PricePatch, c: PriceColumn): SqlValue
    requires PriceDefined(u, c)
  {
    match c
    case Origin => Str(u.origin.value)
    case Destination => Str(u.destination.value)
    case Amount => Number(u.amount.value)
    case Currency => Str(u.currency.value)
    case ValidFrom => Date(u.validFrom.value.value)
    case ValidTo => Date(u.validTo.value.value)
    case Type => Str(TypeName(u.kind.value))
    case Carrier => Str(u.carrier.value.value)
    case Notes => Str(u.notes.value.value)
  }

  function PriceField(u: PricePatch, c: PriceColumn): seq<Assignment<PriceColumn>> {
    if PriceDefined(u, c) then [(c, PriceValue(u, c))] else []
  }

  /** The assignments for the columns `cols`, in order, skipping undefined fields. */
  function CollectPrice(u: PricePatch, cols: seq<PriceColumn>): seq<Assignment<PriceColumn>> {
    if cols == [] then [] else PriceField(u, cols[0]) + CollectPrice(u, cols[1..])
  }

  /** Every collected assignment is for a listed, defined column and carries its value. */
  lemma {:induction false} CollectPriceSound(u: PricePatch, cols: seq<PriceColumn>)
    ensures |CollectPrice(u, cols)| <= |cols|
    ensures forall i :: 0 <= i < |CollectPrice(u, cols)| ==>
      var x := CollectPrice(u, cols)[i]; x.0 in cols && PriceDefined(u, x.0) && x.1 == PriceValue(u, x.0)
  {
    if cols != [] {
      CollectPriceSound(u, cols[1..]);
    }
  }

  lemma {:induction false} CollectPriceDistinct(u: PricePatch, cols: seq<PriceColumn>)
    requires forall i, j :: 0 <= i < j < |cols| ==> cols[i] != cols[j]
    ensures DistinctColumns(CollectPrice(u, cols))
  {
    if cols != [] {
      CollectPriceDistinct(u, cols[1..]);
      CollectPriceSound(u, cols[1..]);
      assert cols[0] !in cols[1..];
    }
  }

  /** The assignments `updatePrice` makes: one per field that is not undefined, in field order. */
  function PriceAssignments(u: PricePatch): seq<Assignment<PriceColumn>> {
    PriceField(u, Origin) + (PriceField(u, Destination) + (PriceField(u, Amount) + (PriceField(u, Currency) + (PriceField(u, ValidFrom) + (PriceField(u, ValidTo) + (PriceField(u, Type) + (PriceField(u, Carrier) + (PriceField(u, Notes)))))))))
  }

  /** Each defined field is assigned exactly once, with its value; nothing else is assigned. */
  lemma PriceAssignmentsExact(u: PricePatch)
    ensures DistinctColumns(PriceAssignments(u))
    ensures forall c :: (exists i :: 0 <= i < |PriceAssignments(u)| && PriceAssignments(u)[i].0 == c) <==> PriceDefined(u, c)
    ensures forall i :: 0 <= i < |PriceAssignments(u)| ==> PriceAssignments(u)[i].1 == PriceValue(u, PriceAssignments(u)[i].0)
  {
    CollectPriceUnfold(u);
    CollectPriceDistinct(u, PriceColumns);
    CollectPriceSound(u, PriceColumns);
    forall c | PriceDefined(u, c)
      ensures exists i :: 0 <= i < |PriceAssignments(u)| && PriceAssignments(u)[i].0 == c
    {
      assert c in PriceColumns by {
        match c
        case Origin => assert PriceColumns[0] == c;
        case Destination => assert PriceColumns[1] == c;
        case Amount => assert PriceColumns[2] == c;
        case Currency => assert PriceColumns[3] == c;
        case ValidFrom => assert PriceColumns[4] == c;
        case ValidTo => assert PriceColumns[5] == c;
        case Type => assert PriceColumns[6] == c;
        case Carrier => assert PriceColumns[7] == c;
        case Notes => assert PriceColumns[8] == c;
      }
      CollectPriceComplete(u, PriceColumns, c);
      var a := CollectPrice(u, PriceColumns);
      assert a == PriceAssignments(u);
      var i :| 0 <= i < |a| && a[i].0 == c;
      assert PriceAssignments(u)[i].0 == c;
    }
  }

  lemma {:induction false} CollectPriceComplete(u: PricePatch, cols: seq<PriceColumn>, c: PriceColumn)
    requires c in cols && PriceDefined(u, c)
    ensures exists i :: 0 <= i < |CollectPrice(u, cols)| && CollectPrice(u, cols)[i].0 == c
  {
    var a := CollectPrice(u, cols);
    if cols[0] == c {
      assert a[0].0 == c;
    } else {
      CollectPriceComplete(u, cols[1..], c);
      var rest := CollectPrice(u, cols[1..]);
      var i :| 0 <= i < |rest| && rest[i].0 == c;
      assert a[|PriceField(u, cols[0])| + i] == rest[i];
    }
  }

  /** How the database stores one assigned column of a price row. */
  function SetPriceColumn(p: Price, x: Assignment<PriceColumn>): Price {
    match x
    case (Origin, Str(s)) => p.(origin := s)
    case (Destination, Str(s)) => p.(destination := s)
    case (Amount, Number(n)) => p.(amount := n)
    case (Currency, Str(s)) => p.(currency := s)
    case (ValidFrom, Date(t)) => p.(validFrom := Some(t))
    case (ValidTo, Date(t)) => p.(validTo := Some(t))
    case (Type, Str(s)) => if s == "public" then p.(kind := Public) else if s == "internal" then p.(kind := Internal) else p
    case (Carrier, Str(s)) => p.(carrier := Some(s))
    case (Notes, Str(s)) => p.(notes := Some(s))
    case _ => p
  }

  /**
   * The row after a database update: each field given a defined value
   * takes it; absent fields and fields given `undefined` keep theirs; the
   * id never changes.
   */
  function MergeStored(p: Price, u: PricePatch): (r: Price)
    ensures r.id == p.id
    ensures u.validFrom.Some? && u.validFrom.value.None? ==> r.validFrom == p.validFrom
    ensures u.validTo.Some? && u.validTo.value.None? ==> r.validTo == p.validTo
  {
    Price(p.id,
          u.origin.GetOr(p.origin),
          u.destination.GetOr(p.destination),
          u.amount.GetOr(p.amount),
          u.currency.GetOr(p.currency),
          if u.validFrom.Some? && u.validFrom.value.Some? then u.validFrom.value else p.validFrom,
          if u.validTo.Some? && u.validTo.value.Some? then u.validTo.value else p.validTo,
          u.kind.GetOr(p.kind),
          if u.carrier.Some? && u.carrier.value.Some? then u.carrier.value else p.carrier,
          if u.notes.Some? && u.notes.value.Some? then u.notes.value else p.notes)
  }

  /** The nine guarded pushes, written out. */
  lemma CollectPriceUnfold(u: PricePatch)
    ensures CollectPrice(u, PriceColumns) ==
      PriceField(u, Origin) + (PriceField(u, Destination) + (PriceField(u, Amount) + (PriceField(u, Currency) +
      (PriceField(u, ValidFrom) + (PriceField(u, ValidTo) + (PriceField(u, Type) + (PriceField(u, Carrier) + PriceField(u, Notes))))))))
  {
    var s9: seq<PriceColumn> := [];
    var s8 := [Notes] + s9;
    var s7 := [Carrier] + s8;
    var s6 := [Type] + s7;
    var s5 := [ValidTo] + s6;
    var s4 := [ValidFrom] + s5;
    var s3 := [Currency] + s4;
    var s2 := [Amount] + s3;
    var s1 := [Destination] + s2;
    var s0 := [Origin] + s1;
    assert s0 == PriceColumns;
    CollectPriceCons(u, Notes, s9);
    CollectPriceCons(u, Carrier, s8);
    CollectPriceCons(u, Type, s7);
    CollectPriceCons(u, ValidTo, s6);
    CollectPriceCons(u, ValidFrom, s5);
    CollectPriceCons(u, Currency, s4);
    CollectPriceCons(u, Amount, s3);
    CollectPriceCons(u, Destination, s2);
    CollectPriceCons(u, Origin, s1);
    assert PriceField(u, Notes) + [] == PriceField(u, Notes);
  }

  lemma CollectPriceCons(u: PricePatch, c: PriceColumn, rest: seq<PriceColumn>)
    ensures CollectPrice(u, [c] + rest) == PriceField(u, c) + CollectPrice(u, rest)
  {
    assert ([c] + rest)[1..] == rest;
  }

  /** One column's step: assign it if defined. */
  function PriceStep(p: Price, u: PricePatch, c: PriceColumn): Price {
    ApplyAll(p, PriceField(u, c), SetPriceColumn)
  }

  /** A step changes only its own field, and only when the field is defined. */
  lemma PriceStepEffect(q: Price, u: PricePatch, c: PriceColumn)
    ensures PriceStep(q, u, c) == match c
      case Origin => q.(origin := u.origin.GetOr(q.origin))
      case Destination => q.(destination := u.destination.GetOr(q.destination))
      case Amount => q.(amount := u.amount.GetOr(q.amount))
      case Currency => q.(currency := u.currency.GetOr(q.currency))
      case ValidFrom => if PriceDefined(u, c) then q.(validFrom := u.validFrom.value) else q
      case ValidTo => if PriceDefined(u, c) then q.(validTo := u.validTo.value) else q
      case Type => q.(kind := u.kind.GetOr(q.kind))
      case Carrier => if PriceDefined(u, c) then q.(carrier := u.carrier.value) else q
      case Notes => if PriceDefined(u, c) then q.(notes := u.notes.value) else q
  {
    if PriceDefined(u, c) {
      var x := (c, PriceValue(u, c));
      assert PriceField(u, c) == [x];
      assert ApplyAll(q, [x], SetPriceColumn) == ApplyAll(SetPriceColumn(q, x), [], SetPriceColumn);
    }
  }

  /** Applying the builder's assignments in order yields the merged row. */
  lemma PriceAssignmentsMerge(p: Price, u: PricePatch)
    ensures ApplyAll(p, PriceAssignments(u), SetPriceColumn) == MergeStored(p, u)
  {
    ApplyAllConcat(p, PriceField(u, Origin), PriceField(u, Destination) + (PriceField(u, Amount) + (PriceField(u, Currency) + (PriceField(u, ValidFrom) + (PriceField(u, ValidTo) + (PriceField(u, Type) + (PriceField(u, Carrier) + (PriceField(u, Notes)))))))), SetPriceColumn);
    var q1 := PriceStep(p, u, Origin);
    PriceStepEffect(p, u, Origin);
    ApplyAllConcat(q1, PriceField(u, Destination), PriceField(u, Amount) + (PriceField(u, Currency) + (PriceField(u, ValidFrom) + (PriceField(u, ValidTo) + (PriceField(u, Type) + (PriceField(u, Carrier) + (PriceField(u, Notes))))))), SetPriceColumn);
    var q2 := PriceStep(q1, u, Destination);
    PriceStepEffect(q1, u, Destination);
    ApplyAllConcat(q2, PriceField(u, Amount), PriceField(u, Currency) + (PriceField(u, ValidFrom) + (PriceField(u, ValidTo) + (PriceField(u, Type) + (PriceField(u, Carrier) + (PriceField(u, Notes)))))), SetPriceColumn);
    var q3 := PriceStep(q2, u, Amount);
    PriceStepEffect(q2, u, Amount);
    ApplyAllConcat(q3, PriceField(u, Currency), PriceField(u, ValidFrom) + (PriceField(u, ValidTo) + (PriceField(u, Type) + (PriceField(u, Carrier) + (PriceField(u, Notes))))), SetPriceColumn);
    var q4 := PriceStep(q3, u, Currency);
    PriceStepEffect(q3, u, Currency);
    ApplyAllConcat(q4, PriceField(u, ValidFrom), PriceField(u, ValidTo) + (PriceField(u, Type) + (PriceField(u, Carrier) + (PriceField(u, Notes)))), SetPriceColumn);
    var q5 := PriceStep(q4, u, ValidFrom);
    PriceStepEffect(q4, u, ValidFrom);
    ApplyAllConcat(q5, PriceField(u, ValidTo), PriceField(u, Type) + (PriceField(u, Carrier) + (PriceField(u, Notes))), SetPriceColumn);
    var q6 := PriceStep(q5, u, ValidTo);
    PriceStepEffect(q5, u, ValidTo);
    ApplyAllConcat(q6, PriceField(u, Type), PriceField(u, Carrier) + (PriceField(u, Notes)), SetPriceColumn);
    var q7 := PriceStep(q6, u, Type);
    PriceStepEffect(q6, u, Type);
    ApplyAllConcat(q7, PriceField(u, Carrier), PriceField(u, Notes), SetPriceColumn);
    var q8 := PriceStep(q7, u, Carrier);
    PriceStepEffect(q7, u, Carrier);
    PriceStepEffect(q8, u, Notes);
  }

  /** `if (<field> !== undefined) { setClauses.push(`<column> = $${paramIndex++}`); values.push(<field>); }` */
  method PushPriceField(setClauses: seq<SetClause<PriceColumn>>, values: seq<SqlValue>, paramIndex: nat,
                        ghost a: seq<Assignment<PriceColumn>>, u: PricePatch, c: PriceColumn)
    returns (setClauses': seq<SetClause<PriceColumn>>, values': seq<SqlValue>, paramIndex': nat)
    requires setClauses == NumberedFrom(a, 1) && values == ValuesOf(a) && paramIndex == |a| + 1
    ensures setClauses' == NumberedFrom(a + PriceField(u, c), 1) && values' == ValuesOf(a + PriceField(u, c))
    ensures paramIndex' == |a + PriceField(u, c)| + 1
  {
    if PriceDefined(u, c) {
      setClauses', values', paramIndex' := Push(setClauses, values, paramIndex, a, (c, PriceValue(u, c)));
    } else {
      assert a + PriceField(u, c) == a;
      setClauses', values', paramIndex' := setClauses, values, paramIndex;
    }
  }

  /** Nine pieces appended one after another form their right-nested concatenation. */
  lemma Reassociate<T>(f1: seq<T>, f2: seq<T>, f3: seq<T>, f4: seq<T>, f5: seq<T>, f6: seq<T>, f7: seq<T>, f8: seq<T>, f9: seq<T>)
    ensures [] + f1 + f2 + f3 + f4 + f5 + f6 + f7 + f8 + f9 == f1 + (f2 + (f3 + (f4 + (f5 + (f6 + (f7 + (f8 + f9)))))))
  {
    var r8 := f8 + f9;
    var r7 := f7 + r8;
    var r6 := f6 + r7;
    var r5 := f5 + r6;
    var r4 := f4 + r5;
    var r3 := f3 + r4;
    var r2 := f2 + r3;
    assert [] + f1 == f1;
    assert f1 + f2 + f3 + f4 + f5 + f6 + f7 + f8 + f9 == f1 + f2 + f3 + f4 + f5 + f6 + f7 + r8;
    assert f1 + f2 + f3 + f4 + f5 + f6 + f7 + r8 == f1 + f2 + f3 + f4 + f5 + f6 + r7;
    assert f1 + f2 + f3 + f4 + f5 + f6 + r7 == f1 + f2 + f3 + f4 + f5 + r6;
    assert f1 + f2 + f3 + f4 + f5 + r6 == f1 + f2 + f3 + f4 + r5;
    assert f1 + f2 + f3 + f4 + r5 == f1 + f2 + f3 + r4;
    assert f1 + f2 + f3 + r4 == f1 + f2 + r3;
    assert f1 + f2 + r3 == f1 + r2;
  }

  /** The SET-clause builder of `updatePrice`: one guarded push per field, in field order. */
  method BuildPriceSets(u: PricePatch) returns (setClauses: seq<SetClause<PriceColumn>>, values: seq<SqlValue>, paramIndex: nat)
    ensures setClauses == NumberedFrom(PriceAssignments(u), 1)
    ensures values == ValuesOf(PriceAssignments(u))
    ensures paramIndex == |setClauses| + 1
  {
    setClauses, values, paramIndex := [], [], 1;
    // `a` holds the assignments pushed so far.
    ghost var a: seq<Assignment<PriceColumn>> := [];
    setClauses, values, paramIndex := PushPriceField(setClauses, values, paramIndex, a, u, Origin);
    a := a + PriceField(u, Origin);
    setClauses, values, paramIndex := PushPriceField(setClauses, values, paramIndex, a, u, Destination);
    a := a + PriceField(u, Destination);
    setClauses, values, paramIndex := PushPriceField(setClauses, values, paramIndex, a, u, Amount);
    a := a + PriceField(u, Amount);
    setClauses, values, paramIndex := PushPriceField(setClauses, values, paramIndex, a, u, Currency);
    a := a + PriceField(u, Currency);
    setClauses, values, paramIndex := PushPriceField(setClauses, values, paramIndex, a, u, ValidFrom);
    a := a + PriceField(u, ValidFrom);
    setClauses, values, paramIndex := PushPriceField(setClauses, values, paramIndex, a, u, ValidTo);
    a := a + PriceField(u, ValidTo);
    setClauses, values, paramIndex := PushPriceField(setClauses, values, paramIndex, a, u, Type);
    a := a + PriceField(u, Type);
    setClauses, values, paramIndex := PushPriceField(setClauses, values, paramIndex, a, u, Carrier);
    a := a + PriceField(u, Carrier);
    setClauses, values, paramIndex := PushPriceField(setClauses, values, paramIndex, a, u, Notes);
    a := a + PriceField(u, Notes);
    Reassociate(PriceField(u, Origin), PriceField(u, Destination), PriceField(u, Amount), PriceField(u, Currency), PriceField(u, ValidFrom), PriceField(u, ValidTo), PriceField(u, Type), PriceField(u, Carrier), PriceField(u, Notes));
  }

  /**
   * `updatePrice`: with no defined field, no UPDATE is issued and the
   * stored row (or null) is returned; otherwise the statement is issued and
   * the row with the given id, if any, is merged with the patch.
   */
  method UpdatePrice(db: Tables, priceId: string, u: PricePatch) returns (r: Option<Price>, issued: Option<UpdateStatement<PriceColumn>>)
    modifies db`prices
    ensures issued.None? <==> PriceAssignments(u) == []
    ensures issued.Some? ==> issued.value == StatementFor(PriceAssignments(u), priceId)
    ensures r.Some? <==> priceId in old(db.prices)
    ensures r.Some? ==> r.value == MergeStored(old(db.prices)[priceId], u)
    ensures db.prices == if r.Some? then old(db.prices)[priceId := r.value] else old(db.prices)
  {
    var setClauses, values, paramIndex := BuildPriceSets(u);
    if |setClauses| == 0 {
      issued := None;
      if priceId in db.prices {
        PriceAssignmentsMerge(db.prices[priceId], u);
        r := Some(db.prices[priceId]);
        db.prices := db.prices[priceId := r.value];
      } else {
        r := None;
      }
      return;
    }
    values := values + [Str(priceId)];
    var stmt := UpdateStatement(setClauses, paramIndex, values);
    issued := Some(stmt);
    if priceId in db.prices {
      var row := Execute(db.prices[priceId], stmt.sets, stmt.values, SetPriceColumn);
      ExecuteStatement(db.prices[priceId], PriceAssignments(u), priceId, SetPriceColumn);
      PriceAssignmentsMerge(db.prices[priceId], u);
      db.prices := db.prices[priceId := row];
      r := Some(row);
    } else {
      r := None;
    }
  }

  /** A patch that only carries undefined dates leaves the stored dates in place. */
  lemma UndefinedDatesKept(p: Price, u: PricePatch)
    requires u.validFrom == Some(None) && u.validTo == Some(None)
    ensures MergeStored(p, u).validFrom == p.validFrom && MergeStored(p, u).validTo == p.validTo
    ensures PriceAssignments(u) == PriceAssignments(u.(validFrom := None, validTo := None))
  {
    var v := u.(validFrom := None, validTo := None);
    forall c | true
      ensures PriceField(u, c) == PriceField(v, c)
    {
      assert PriceDefined(u, c) == PriceDefined(v, c);
    }
    SameFieldsSameAssignments(u, v);
  }

  /** The assignments depend only on what each column contributes. */
  lemma SameFieldsSameAssignments(u: PricePatch, v: PricePatch)
    requires forall c :: PriceField(u, c) == PriceField(v, c)
    ensures PriceAssignments(u) == PriceAssignments(v)
  {
  }

  /**
   * `createPrice`: the row is inserted under a fresh id; a database error
   * (`fails`) or an id already in use makes the insert fail, and the
   * error is rethrown.
   */
  method CreatePrice(db: Tables, data: Price, newId: string, fails: bool) returns (r: Result<Price, string>)
    modifies db`prices
    ensures r.Success? <==> !fails && newId !in old(db.prices)
    ensures r.Success? ==> r.value == data.(id := newId) && db.prices == old(db.prices)[newId := r.value]
    ensures r.Failure? ==> db.prices == old(db.prices)
  {
    if fails || newId in db.prices {
      return Failure("Error creating price");
    }
    var row := data.(id := newId);
    db.prices := db.prices[newId := row];
    r := Success(row);
  }

  /**
   * `deletePrice`: true exactly when a row with the id was there to
   * remove; a database error (`fails`) is rethrown and removes nothing.
   */
  method DeletePrice(db: Tables, priceId: string, fails: bool) returns (r: Result<bool, string>)
    modifies db`prices
    ensures r.Failure? <==> fails
    ensures r.Success? ==> (r.value <==> priceId in old(db.prices)) && db.prices == old(db.prices) - {priceId}
    ensures r.Failure? ==> db.prices == old(db.prices)
  {
    if fails {
      return Failure("Error deleting price");
    }
    r := Success(priceId in db.prices);
    db.prices := db.prices - {priceId};
  }

  // ---------------------------------------------------------------------
  // Announcements

  function CreatedAt(a: Announcement): int { a.createdAt }

  /** `fetchAnnouncements`: all rows, newest first; a query error gives the empty list. */
  method FetchAnnouncements(db: Tables, failed: bool) returns (r: seq<Announcement>)
    ensures failed ==> r == []
    ensures !failed ==> forall a :: a in r <==> a in db.announcements.Values
    ensures !failed ==> RowsOnce(db.announcements, db.announcements.Keys, r)
    ensures forall i, j :: 0 <= i < j < |r| ==> r[i].createdAt >= r[j].createdAt
  {
    if failed {
      return [];
    }
    r := Select(db.announcements, a requires true => true, CreatedAt);
    assert (set k | k in db.announcements && true) == db.announcements.Keys;
    assert forall i, j :: 0 <= i < j < |r| ==> CreatedAt(r[i]) >= CreatedAt(r[j]);
  }

  /**
   * `createAnnouncement`: inserted under a fresh id with the database's
   * current time as `createdAt`; a database error (`fails`) or an id in
   * use is rethrown.
   */
  method CreateAnnouncement(db: Tables, title: string, content: string, authorId: string, authorName: Option<string>,
                            newId: string, now: int, fails: bool) returns (r: Result<Announcement, string>)
    modifies db`announcements
    ensures r.Success? <==> !fails && newId !in old(db.announcements)
    ensures r.Success? ==> r.value == Announcement(newId, title, content, now, authorId, authorName)
    ensures r.Success? ==> db.announcements == old(db.announcements)[newId := r.value]
    ensures r.Failure? ==> db.announcements == old(db.announcements)
  {
    if fails || newId in db.announcements {
      return Failure("Error creating announcement");
    }
    var row := Announcement(newId, title, content, now, authorId, authorName);
    db.announcements := db.announcements[newId := row];
    r := Success(row);
  }

  /** The only columns `updateAnnouncement` assigns. */
  datatype AnnouncementColumn = Title | Content

  function AnnouncementAssignments(u: AnnouncementPatch): seq<Assignment<AnnouncementColumn>> {
    (if u.title.Some? then [(Title, Str(u.title.value))] else []) +
    (if u.content.Some? then [(Content, Str(u.content.value))] else [])
  }

  function SetAnnouncementColumn(a: Announcement, x: Assignment<AnnouncementColumn>): Announcement {
    match x
    case (Title, Str(s)) => a.(title := s)
    case (Content, Str(s)) => a.(content := s)
    case _ => a
  }

  /** Title and content may change; id, author and creation time never do, whatever the patch says. */
  function MergeAnnouncementStored(a: Announcement, u: AnnouncementPatch): (r: Announcement)
    ensures r.id == a.id && r.authorId == a.authorId && r.authorName == a.authorName && r.createdAt == a.createdAt
  {
    a.(title := u.title.GetOr(a.title), content := u.content.GetOr(a.content))
  }

  lemma AnnouncementAssignmentsMerge(a: Announcement, u: AnnouncementPatch)
    ensures ApplyAll(a, AnnouncementAssignments(u), SetAnnouncementColumn) == MergeAnnouncementStored(a, u)
  {
    var f1 := if u.title.Some? then [(Title, Str(u.title.value))] else [];
    var f2 := if u.content.Some? then [(Content, Str(u.content.value))] else [];
    ApplyAllConcat(a, f1, f2, SetAnnouncementColumn);
    var q := ApplyAll(a, f1, SetAnnouncementColumn);
    if u.title.Some? {
      assert ApplyAll(a, f1, SetAnnouncementColumn) == ApplyAll(SetAnnouncementColumn(a, f1[0]), [], SetAnnouncementColumn);
    }
    if u.content.Some? {
      assert ApplyAll(q, f2, SetAnnouncementColumn) == ApplyAll(SetAnnouncementColumn(q, f2[0]), [], SetAnnouncementColumn);
    }
  }

  /** Author, id and creation-time fields of the patch do not reach the statement. */
  lemma AnnouncementUpdateIgnoresAuthor(u: AnnouncementPatch)
    ensures AnnouncementAssignments(u) == AnnouncementAssignments(u.(id := None, createdAt := None, authorId := None, authorName := None))
    ensures forall i :: 0 <= i < |AnnouncementAssignments(u)| ==> AnnouncementAssignments(u)[i].0 in {Title, Content}
  {
  }

  method BuildAnnouncementSets(u: AnnouncementPatch) returns (setClauses: seq<SetClause<AnnouncementColumn>>, values: seq<SqlValue>, paramIndex: nat)
    ensures setClauses == NumberedFrom(AnnouncementAssignments(u), 1)
    ensures values == ValuesOf(AnnouncementAssignments(u))
    ensures paramIndex == |setClauses| + 1
  {
    setClauses, values, paramIndex := [], [], 1;
    ghost var a: seq<Assignment<AnnouncementColumn>> := [];
    if u.title.Some? {
      setClauses, values, paramIndex := Push(setClauses, values, paramIndex, a, (Title, Str(u.title.value)));
      a := a + [(Title, Str(u.title.value))];
    }
    if u.content.Some? {
      setClauses, values, paramIndex := Push(setClauses, values, paramIndex, a, (Content, Str(u.content.value)));
      a := a + [(Content, Str(u.content.value))];
    }
    assert a == AnnouncementAssignments(u);
  }

  /** `updateAnnouncement`, with the same empty-patch and missing-row rules as `updatePrice`. */
  method UpdateAnnouncement(db: Tables, annId: string, u: AnnouncementPatch)
    returns (r: Option<Announcement>, issued: Option<UpdateStatement<AnnouncementColumn>>)
    modifies db`announcements
    ensures issued.None? <==> AnnouncementAssignments(u) == []
    ensures issued.Some? ==> issued.value == StatementFor(AnnouncementAssignments(u), annId)
    ensures r.Some? <==> annId in old(db.announcements)
    ensures r.Some? ==> r.value == MergeAnnouncementStored(old(db.announcements)[annId], u)
    ensures db.announcements == if r.Some? then old(db.announcements)[annId := r.value] else old(db.announcements)
  {
    var setClauses, values, paramIndex := BuildAnnouncementSets(u);
    if |setClauses| == 0 {
      issued := None;
      if annId in db.announcements {
        AnnouncementAssignmentsMerge(db.announcements[annId], u);
        r := Some(db.announcements[annId]);
        db.announcements := db.announcements[annId := r.value];
      } else {
        r := None;
      }
      return;
    }
    values := values + [Str(annId)];
    var stmt := UpdateStatement(setClauses, paramIndex, values);
    issued := Some(stmt);
    if annId in db.announcements {
      var row := Execute(db.announcements[annId], stmt.sets, stmt.values, SetAnnouncementColumn);
      ExecuteStatement(db.announcements[annId], AnnouncementAssignments(u), annId, SetAnnouncementColumn);
      AnnouncementAssignmentsMerge(db.announcements[annId], u);
      db.announcements := db.announcements[annId := row];
      r := Some(row);
    } else {
      r := None;
    }
  }

  /** `deleteAnnouncement`: as `deletePrice`, on the announcements table. */
  method DeleteAnnouncement(db: Tables, annId: string, fails: bool) returns (r: Result<bool, string>)
    modifies db`announcements
    ensures r.Failure? <==> fails
    ensures r.Success? ==> (r.value <==> annId in old(db.announcements)) &&
                           db.announcements == old(db.announcements) - {annId}
    ensures r.Failure? ==> db.announcements == old(db.announcements)
  {
    if fails {
      return Failure("Error deleting announcement");
    }
    r := Success(annId in db.announcements);
    db.announcements := db.announcements - {annId};
  }

  // ---------------------------------------------------------------------
  // RFQs

  function SubmittedAt(r: RfqSubmission): int { r.submittedAt }

  /** `fetchRfqs`: all submissions, newest first; a query error gives the empty list. */
  method FetchRfqs(db: Tables, failed: bool) returns (r: seq<RfqSubmission>)
    ensures failed ==> r == []
    ensures !failed ==> forall x :: x in r <==> x in db.rfqs.Values
    ensures !failed ==> RowsOnce(db.rfqs, db.rfqs.Keys, r)
    ensures forall i, j :: 0 <= i < j < |r| ==> r[i].submittedAt >= r[j].submittedAt
  {
    if failed {
      return [];
    }
    r := Select(db.rfqs, x requires true => true, SubmittedAt);
    assert (set k | k in db.rfqs && true) == db.rfqs.Keys;
    assert forall i, j :: 0 <= i < j < |r| ==> SubmittedAt(r[i]) >= SubmittedAt(r[j]);
  }

  /** The row `saveRfqSubmission` inserts. */
  function StoredRfq(input: RfqInput, submissionId: string, newId: string, now: int): (r: RfqSubmission)
    ensures r.status == New && r.submissionId == submissionId && r.id == newId && r.submittedAt == now
    ensures r.freightType == Some(if input.freightType.Some? then input.freightType.value else Unspecified)
    ensures r.name == input.name && r.email == input.email && r.origin == input.origin && r.destination == input.destination
  {
    RfqSubmission(newId, submissionId, input.name, input.email, input.company, input.origin, input.destination,
                  input.weight, Some(input.freightType.GetOr(Unspecified)), input.message, now, New)
  }

  /**
   * `saveRfqSubmission`: the insert fails (and the error is rethrown) when
   * the database reports an error (`fails`) or the generated id is taken.
   */
  method SaveRfqSubmission(db: Tables, input: RfqInput, submissionId: string, newId: string, now: int, fails: bool)
    returns (r: Result<RfqSubmission, string>)
    modifies db`rfqs
    ensures r.Success? <==> !fails && newId !in old(db.rfqs)
    ensures r.Success? ==> r.value == StoredRfq(input, submissionId, newId, now) && db.rfqs == old(db.rfqs)[newId := r.value]
    ensures r.Failure? ==> db.rfqs == old(db.rfqs)
  {
    if fails || newId in db.rfqs {
      return Failure("Error saving RFQ submission");
    }
    var row := StoredRfq(input, submissionId, newId, now);
    db.rfqs := db.rfqs[newId := row];
    r := Success(row);
  }

  /** `updateRfqStatus`: only the status of the row with the id changes; null when there is none. */
  method UpdateRfqStatus(db: Tables, rfqId: string, status: RfqStatus) returns (r: Option<RfqSubmission>)
    modifies db`rfqs
    ensures r.Some? <==> rfqId in old(db.rfqs)
    ensures r.Some? ==> r.value == old(db.rfqs)[rfqId].(status := status)
    ensures db.rfqs == if r.Some? then old(db.rfqs)[rfqId := r.value] else old(db.rfqs)
  {
    if rfqId in db.rfqs {
      var row := db.rfqs[rfqId].(status := status);
      db.rfqs := db.rfqs[rfqId := row];
      r := Some(row);
    } else {
      r := None;
    }
  }
}
