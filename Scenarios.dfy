/** Whole chains of builder calls, from construction to `build`, with the outcome
    each one must have. */
module Scenarios {
  import opened Text
  import opened QueryBuilder

  /** For any table and columns without `?`, an INSERT alone builds successfully and
      binds the values in column order. */
  method InsertBuilds(table: string, values: seq<(string, Value)>) returns (r: Result)
    requires |values| > 0 && Clean(table) && AllClean(Keys(values))
    ensures r == Ok(Built(InsertMain(table, values), Values(values)))
  {
    var b := new QueryBuilder(table);
    b.Insert(values);
    r := b.Build();
  }

  /** A SELECT followed by one WHERE: the builder both scenarios below start from. */
  method SelectWhere(table: string, columns: seq<string>, c1: string, v1: Value) returns (b: QueryBuilder)
    requires Clean(table) && AllClean(columns) && Clean(c1)
    ensures fresh(b) && b.Valid() && b.Balanced()
    ensures b.kind == Kind.Select && b.main == SelectMain(table, columns) && b.joins == [] && b.order == []
            && b.limit == "" && b.conditions == [Condition("WHERE", c1, "=")] && b.params == [v1]
  {
    b := new QueryBuilder(table);
    b.Select(columns);
    assert b.Balanced() by { CleanCountAll(columns); }
    var o := b.Where(c1, v1);
  }

  /** A SELECT with a WHERE and an AND condition. */
  method SelectWhereAnd(table: string, columns: seq<string>, c1: string, v1: Value, c2: string, v2: Value)
    returns (b: QueryBuilder)
    requires Clean(table) && AllClean(columns) && Clean(c1) && Clean(c2)
    ensures fresh(b) && b.Valid() && b.Balanced()
    ensures b.kind == Kind.Select && b.main == SelectMain(table, columns) && b.joins == [] && b.order == []
            && b.limit == "" && b.conditions == [Condition("WHERE", c1, "="), Condition("AND", c2, "=")]
            && b.params == [v1, v2]
  {
    b := SelectWhere(table, columns, c1, v1);
    var o := b.And(c2, v2);
  }

  /** For any names without `?`, a SELECT with a WHERE group of three conditions builds
      successfully: the conditions in call order after the main clause, the parameters
      in call order. */
  method SelectWhereAndOrBuilds(table: string, columns: seq<string>, c1: string, v1: Value,
                                c2: string, v2: Value, c3: string, vs: seq<Value>)
    returns (r: Result)
    requires Clean(table) && AllClean(columns) && Clean(c1) && Clean(c2) && Clean(c3) && |vs| > 0
    ensures r == Ok(Built(Render(SelectMain(table, columns), [],
                                 [Condition("WHERE", c1, "="), Condition("AND", c2, "="), InCondition("OR", c3, |vs|)],
                                 [], ""),
                          [v1, v2] + vs))
  {
    var b := SelectWhereAnd(table, columns, c1, v1, c2, v2);
    var o3 := b.OrIn(c3, vs);
    assert b.Balanced() && b.params == [v1, v2] + vs;
    assert b.conditions == [Condition("WHERE", c1, "="), Condition("AND", c2, "="), InCondition("OR", c3, |vs|)];
    r := b.Build();
  }

  /** A second WHERE discards the first condition but not its parameter, so the build
      fails on the count check. */
  method SecondWhereFails(table: string, c1: string, v1: Value, c2: string, v2: Value) returns (r: Result)
    requires Clean(table) && Clean(c1) && Clean(c2)
    ensures r == Err(QueryBuilderException(InvalidParameterCount))
  {
    var b := SelectWhere(table, ["*"], c1, v1);
    var o2 := b.Where(c2, v2);
    r := b.Build();
  }

  /** Kind and condition rules: after an INSERT each illegal call fails with its own
      message, an IN call with an empty list included, since the rule is checked first. */
  method IllegalCallsFail(table: string)
    returns (o1: Outcome, o2: Outcome, o3: Outcome, o4: Outcome, o5: Outcome, o6: Outcome, o7: Outcome)
    ensures o1 == Fail(QueryBuilderException(ConditionsInInsert))
    ensures o2 == Fail(QueryBuilderException(AndOrBeforeWhere))
    ensures o3 == Fail(QueryBuilderException(JoinsOutsideSelect))
    ensures o4 == Fail(QueryBuilderException(OrderOutsideSelect))
    ensures o5 == Fail(QueryBuilderException(LimitOutsideSelect))
    ensures o6 == Fail(QueryBuilderException(ConditionsInInsert))
    ensures o7 == Fail(QueryBuilderException(AndOrBeforeWhere))
  {
    var b := new QueryBuilder(table);
    b.Insert([("id", Int(1))]);
    o1 := b.Where("id", Int(1));
    o2 := b.Or("id", Int(2));
    o3 := b.InnerJoin("t", "a", "b");
    o4 := b.Order("id");
    o5 := b.Limit(1);
    o6 := b.WhereIn("id", []);
    o7 := b.AndIn("id", []);
  }

  /** Before any kind is chosen, reading the kind or the main clause is a runtime error. */
  method UnsetKindFails(table: string) returns (o: Outcome, r: Result)
    ensures o == Fail(UninitializedProperty("type"))
    ensures r == Err(UninitializedProperty("main"))
  {
    var b := new QueryBuilder(table);
    o := b.LeftJoin("t", "a", "b");
    r := b.Build();
  }
}
