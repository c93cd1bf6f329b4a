/** The fluent SQL statement builder: one object per statement, whose fields hold
    the statement kind, the main clause, joins, conditions, order entries, the limit
    and the bound parameters. Every operation either checks a kind-based legality
    rule and then updates the fields, or fails and leaves them as they were. */
module QueryBuilder {
  import opened Text

  /** A bound value: the builder accepts strings and integers. */
  datatype Value = Str(s: string) | Int(i: int)

  /** The statement kind; `Unset` stands for the typed property that no kind
      method has initialised yet. */
  datatype Kind = Unset | Insert | Select | Update | Delete

  /** `QueryBuilderException` with its message, or the runtime error that reading an
      uninitialised typed property raises. */
  datatype Error = QueryBuilderException(message: string) | UninitializedProperty(name: string)

  datatype Outcome = Pass | Fail(error: Error)

  /** What `build` returns: the query text and its parameters. */
  datatype Built = Built(query: string, params: seq<Value>)

  datatype Result = Ok(value: Built) | Err(error: Error)

  datatype Option<T> = None | Some(value: T)

  const ConditionsInInsert := "CANNOT USE CONDITIONS INSIDE INSERT QUERY"
  const AndOrBeforeWhere := "CANNOT USE AND/OR BEFORE WHERE"
  const JoinsOutsideSelect := "CANNOT USE JOINS OUTSIDE SELECT QUERY"
  const OrderOutsideSelect := "CANNOT USE ORDER OUTSIDE SELECT QUERY"
  const LimitOutsideSelect := "CANNOT USE LIMIT OUTSIDE SELECT QUERY"
  const InvalidParameterCount := "INVALID NUMBER OF QUERY PARAMETERS PASSED"

  /** A text is clean when it contains no placeholder character. */
  predicate Clean(s: string)
  {
    '?' !in s
  }

  predicate AllClean(xs: seq<string>)
  {
    forall i :: 0 <= i < |xs| ==> Clean(xs[i])
  }

  function Keys(values: seq<(string, Value)>): (ks: seq<string>)
    ensures |ks| == |values| && forall i :: 0 <= i < |values| ==> ks[i] == values[i].0
  {
    if values == [] then [] else [values[0].0] + Keys(values[1..])
  }

  /** `array_values`: the values of an associative array in iteration order. */
  function Values(values: seq<(string, Value)>): (vs: seq<Value>)
    ensures |vs| == |values| && forall i :: 0 <= i < |values| ==> vs[i] == values[i].1
  {
    if values == [] then [] else [values[0].1] + Values(values[1..])
  }

  // ---------------------------------------------------------------------------
  // Clause fragments, each with the number of `?` placeholders it contributes

  /** `INSERT INTO <table> (<columns>) VALUES (?,...,?)`: one placeholder per value,
      besides any in the table and column names. */
  function InsertMain(table: string, values: seq<(string, Value)>): (r: string)
    requires |values| > 0
    ensures Count(r, '?') == Count(table, '?') + CountAll(Keys(values), '?') + |values|
  {
    var cols := Join(",", Keys(values));
    var ph := Placeholders(|values|);
    JoinCount(",", Keys(values), '?');
    PlaceholdersSpec(|values|);
    CountAfter("INSERT INTO ", table, '?');
    CountAcross("INSERT INTO " + table, " (", cols, '?');
    CountAcross("INSERT INTO " + table + " (" + cols, ") VALUES (", ph, '?');
    CountBefore("INSERT INTO " + table + " (" + cols + ") VALUES (" + ph, ")", '?');
    "INSERT INTO " + table + " (" + cols + ") VALUES (" + ph + ")"
  }

  /** `SELECT <columns> FROM <table>`: no placeholder of its own. */
  function SelectMain(table: string, columns: seq<string>): (r: string)
    ensures Count(r, '?') == CountAll(columns, '?') + Count(table, '?')
  {
    PrefixedJoinCount("SELECT ", ",", columns);
    CountAcross("SELECT " + Join(",", columns), " FROM ", table, '?');
    "SELECT " + Join(",", columns) + " FROM " + table
  }

  /** One assignment of the SET list, without its separating comma: it ends with its
      placeholder. */
  function SetItem(column: string): (r: string)
    ensures |r| == |column| + 5 && r[|r| - 1] == '?'
  {
    " " + column + " = ?"
  }

  function SetItems(values: seq<(string, Value)>): (items: seq<string>)
    ensures |items| == |values| && forall i :: 0 <= i < |values| ==> items[i] == SetItem(values[i].0)
  {
    if values == [] then [] else [SetItem(values[0].0)] + SetItems(values[1..])
  }

  /** The UPDATE main clause: the assignments, in iteration order, separated by commas.
      It holds one placeholder per value, besides any in the names. */
  function UpdateMain(table: string, values: seq<(string, Value)>): (r: string)
    ensures Count(r, '?') == Count(table, '?') + CountAll(Keys(values), '?') + |values|
  {
    KeysCount(values);
    JoinCount(",", SetItems(values), '?');
    CountAfter("UPDATE ", table, '?');
    CountAcross("UPDATE " + table, " SET", Join(",", SetItems(values)), '?');
    "UPDATE " + table + " SET" + Join(",", SetItems(values))
  }

  /** `DELETE FROM <table>`: no placeholder of its own. */
  function DeleteMain(table: string): (r: string)
    ensures Count(r, '?') == Count(table, '?')
  {
    CountAfter("DELETE FROM ", table, '?');
    "DELETE FROM " + table
  }

  /** `<word> <column> <operator> ?`, for word WHERE, AND or OR: it starts with its
      connective and holds exactly one placeholder of its own. */
  function Condition(word: string, column: string, operator: string): (r: string)
    ensures StartsWithWord(r, word)
    ensures Count(r, '?') == Count(word, '?') + Count(column, '?') + Count(operator, '?') + 1
  {
    var rest := column + " " + operator + " ?";
    CountAcross(column, " ", operator, '?');
    CountConcat(column + " " + operator, " ?", '?');
    assert Count(" ?", '?') == 1;
    Connective(word, rest);
    word + " " + rest
  }

  /** `<word> <column> IN (?,...,?)`: it starts with its connective and holds exactly
      one placeholder per value. */
  function InCondition(word: string, column: string, n: nat): (r: string)
    requires n > 0
    ensures StartsWithWord(r, word)
    ensures Count(r, '?') == Count(word, '?') + Count(column, '?') + n
  {
    var rest := column + " IN (" + Placeholders(n) + ")";
    PlaceholdersSpec(n);
    CountAcross(column, " IN (", Placeholders(n), '?');
    CountBefore(column + " IN (" + Placeholders(n), ")", '?');
    Connective(word, rest);
    word + " " + rest
  }

  /** `<word> JOIN <table> ON <left> <operator> <right>`: no placeholder of its own. */
  function JoinClause(word: string, table: string, leftColumn: string, operator: string, rightColumn: string): (r: string)
    ensures Count(r, '?')
            == Count(word, '?') + Count(table, '?') + Count(leftColumn, '?') + Count(operator, '?') + Count(rightColumn, '?')
  {
    CountAcross(word, " JOIN ", table, '?');
    CountAcross(word + " JOIN " + table, " ON ", leftColumn, '?');
    CountAcross(word + " JOIN " + table + " ON " + leftColumn, " ", operator, '?');
    CountAcross(word + " JOIN " + table + " ON " + leftColumn + " " + operator, " ", rightColumn, '?');
    word + " JOIN " + table + " ON " + leftColumn + " " + operator + " " + rightColumn
  }

  /** `<column> <DIRECTION>`, the direction upper-cased: no placeholder of its own. */
  function OrderEntry(column: string, direction: string): (r: string)
    ensures Count(r, '?') == Count(column, '?') + Count(direction, '?')
  {
    UpperCount(direction);
    CountAcross(column, " ", Upper(direction), '?');
    column + " " + Upper(direction)
  }

  /** `LIMIT <n>`: never a placeholder. */
  function LimitClause(n: int): (r: string)
    ensures Count(r, '?') == 0
  {
    IntToStringClean(n);
    CountAfter("LIMIT ", IntToString(n), '?');
    "LIMIT " + IntToString(n)
  }

  /** The query text: the main clause, then each non-empty part in a fixed order. Its
      placeholders are exactly those of its parts; the separators add none. */
  function Render(main: string, joins: seq<string>, conditions: seq<string>, order: seq<string>, limit: string): (r: string)
    ensures Count(r, '?') == Count(main, '?') + CountAll(joins, '?') + CountAll(conditions, '?')
                             + CountAll(order, '?') + Count(limit, '?')
  {
    var j := if joins == [] then "" else " " + Join(" ", joins);
    var c := if conditions == [] then "" else " " + Join(" ", conditions);
    var o := if order == [] then "" else " ORDER BY " + Join(",", order);
    var l := if limit == "" then "" else " " + limit;
    assert Count(j, '?') == CountAll(joins, '?') by {
      if joins != [] { PrefixedJoinCount(" ", " ", joins); }
    }
    assert Count(c, '?') == CountAll(conditions, '?') by {
      if conditions != [] { PrefixedJoinCount(" ", " ", conditions); }
    }
    assert Count(o, '?') == CountAll(order, '?') by {
      if order != [] { PrefixedJoinCount(" ORDER BY ", ",", order); }
    }
    assert Count(l, '?') == Count(limit, '?') by {
      if limit != "" { CountAfter(" ", limit, '?'); }
    }
    CountConcat(main, j, '?');
    CountConcat(main + j, c, '?');
    CountConcat(main + j + c, o, '?');
    CountConcat(main + j + c + o, l, '?');
    main + j + c + o + l
  }

  /** The condition list the builder keeps: empty, or a WHERE fragment followed by
      AND/OR fragments. */
  predicate WellFormedConditions(conditions: seq<string>)
  {
    conditions == [] ||
    (StartsWithWord(conditions[0], "WHERE") &&
     forall i :: 1 <= i < |conditions| ==> StartsWithWord(conditions[i], "AND") || StartsWithWord(conditions[i], "OR"))
  }

  /** `s` begins with `word` followed by a space. */
  predicate StartsWithWord(s: string, word: string)
  {
    word + " " <= s
  }

  /** A connective word and a space in front of the rest of a condition: the condition
      starts with that word, and the space adds no placeholder. */
  lemma Connective(word: string, rest: string)
    ensures StartsWithWord(word + " " + rest, word)
    ensures Count(word + " " + rest, '?') == Count(word, '?') + Count(rest, '?')
  {
    assert (word + " " + rest)[..|word| + 1] == word + " ";
    CountAcross(word, " ", rest, '?');
  }

  /** Appending an AND/OR fragment to a WHERE group keeps it well formed. */
  lemma WellFormedAppend(conditions: seq<string>, fragment: string)
    requires WellFormedConditions(conditions) && conditions != []
    requires StartsWithWord(fragment, "AND") || StartsWithWord(fragment, "OR")
    ensures WellFormedConditions(conditions + [fragment])
  {
    var c := conditions + [fragment];
    forall i | 1 <= i < |c|
      ensures StartsWithWord(c[i], "AND") || StartsWithWord(c[i], "OR")
    {
      if i < |conditions| { assert c[i] == conditions[i]; }
    }
  }

  class QueryBuilder {
    var table: string
    var kind: Kind
    var main: string
    var joins: seq<string>
    var conditions: seq<string>
    var order: seq<string>
    var limit: string
    var params: seq<Value>
    /** What the last successful `build` stored. */
    var query: Option<Built>

    ghost predicate Valid()
      reads this
    {
      (kind == Unset ==> main == "" && joins == [] && conditions == [] && order == [] && limit == "" && params == [])
      && WellFormedConditions(conditions)
      && Clean(limit)
    }

    /** Placeholders in the text and bound parameters agree in number; the text's
        placeholders are exactly those of its parts. */
    predicate Balanced()
      reads this
      ensures Balanced() <==> Count(main, '?') + CountAll(joins, '?') + CountAll(conditions, '?')
                              + CountAll(order, '?') + Count(limit, '?') == |params|
    {
      Count(Render(main, joins, conditions, order, limit), '?') == |params|
    }

    constructor (table: string)
      ensures Valid()
      ensures this.table == table && kind == Unset && main == ""
      ensures joins == [] && conditions == [] && order == [] && limit == ""
      ensures params == [] && query == None
    {
      this.table := table;
      kind := Unset;
      main := "";
      joins := [];
      conditions := [];
      order := [];
      limit := "";
      params := [];
      query := None;
    }

    method Insert(values: seq<(string, Value)>)
      requires Valid()
      requires |values| > 0
      modifies this
      ensures Valid()
      ensures kind == Kind.Insert && main == InsertMain(table, values) && params == Values(values)
      ensures table == old(table) && joins == old(joins) && conditions == old(conditions)
      ensures order == old(order) && limit == old(limit) && query == old(query)
      ensures Clean(table) && AllClean(Keys(values)) ==>
                (Balanced() <==> CountAll(joins, '?') + CountAll(conditions, '?') + CountAll(order, '?') == 0)
    {
      kind := Kind.Insert;
      main := InsertMain(table, values);
      params := Values(values);
      CleanCountAll(Keys(values));
    }

    method Select(columns: seq<string> := ["*"])
      requires Valid()
      modifies this
      ensures Valid()
      ensures kind == Kind.Select && main == SelectMain(table, columns)
      ensures table == old(table) && joins == old(joins) && conditions == old(conditions)
      ensures order == old(order) && limit == old(limit) && params == old(params) && query == old(query)
      ensures Clean(table) && AllClean(columns) ==>
                (Balanced() <==> CountAll(joins, '?') + CountAll(conditions, '?') + CountAll(order, '?') == |params|)
    {
      kind := Kind.Select;
      main := SelectMain(table, columns);
      CleanCountAll(columns);
    }

    method Update(values: seq<(string, Value)>)
      requires Valid()
      modifies this
      ensures Valid()
      ensures kind == Kind.Update && main == UpdateMain(table, values) && params == Values(values)
      ensures table == old(table) && joins == old(joins) && conditions == old(conditions)
      ensures order == old(order) && limit == old(limit) && query == old(query)
      ensures Clean(table) && AllClean(Keys(values)) ==>
                (Balanced() <==> CountAll(joins, '?') + CountAll(conditions, '?') + CountAll(order, '?') == 0)
    {
      kind := Kind.Update;
      main, params := UpdateClause(table, values);
      CleanCountAll(Keys(values));
    }

    method Delete()
      requires Valid()
      modifies this
      ensures Valid()
      ensures kind == Kind.Delete && main == DeleteMain(table)
      ensures table == old(table) && joins == old(joins) && conditions == old(conditions)
      ensures order == old(order) && limit == old(limit) && params == old(params) && query == old(query)
      ensures Clean(table) ==>
                (Balanced() <==> CountAll(joins, '?') + CountAll(conditions, '?') + CountAll(order, '?') == |params|)
    {
      kind := Kind.Delete;
      main := DeleteMain(table);
    }

    method Where(column: string, value: Value, operator: string := "=") returns (r: Outcome)
      requires Valid()
      modifies this
      ensures Valid()
      ensures r == (if old(kind) == Unset then Fail(UninitializedProperty("type"))
                    else if old(kind) == Kind.Insert then Fail(QueryBuilderException(ConditionsInInsert))
                    else Pass)
      ensures r.Fail? ==> unchanged(this)
      ensures r.Pass? ==> conditions == [Condition("WHERE", column, operator)] && params == old(params) + [value]
      ensures r.Pass? && Clean(column) && Clean(operator) && old(Balanced()) ==>
                (Balanced() <==> old(CountAll(conditions, '?')) == 0)
      ensures r.Pass? ==> table == old(table) && kind == old(kind) && main == old(main) && joins == old(joins)
                          && order == old(order) && limit == old(limit) && query == old(query)
    {
      if kind == Unset {
        return Fail(UninitializedProperty("type"));
      }
      if kind == Kind.Insert {
        return Fail(QueryBuilderException(ConditionsInInsert));
      }
      WhereBalance(main, joins, conditions, order, limit, params, Condition("WHERE", column, operator), [value]);
      conditions := [Condition("WHERE", column, operator)];
      params := params + [value];
      r := Pass;
    }

    method And(column: string, value: Value, operator: string := "=") returns (r: Outcome)
      requires Valid()
      modifies this
      ensures Valid()
      ensures r == (if old(conditions) == [] then Fail(QueryBuilderException(AndOrBeforeWhere)) else Pass)
      ensures r.Fail? ==> unchanged(this)
      ensures r.Pass? ==> conditions == old(conditions) + [Condition("AND", column, operator)]
                          && params == old(params) + [value]
      ensures r.Pass? && Clean(column) && Clean(operator) ==> (Balanced() <==> old(Balanced()))
      ensures r.Pass? ==> table == old(table) && kind == old(kind) && main == old(main) && joins == old(joins)
                          && order == old(order) && limit == old(limit) && query == old(query)
    {
      if conditions == [] {
        return Fail(QueryBuilderException(AndOrBeforeWhere));
      }
      WellFormedAppend(conditions, Condition("AND", column, operator));
      ConditionAppendBalance(main, joins, conditions, order, limit, params, Condition("AND", column, operator), [value]);
      conditions := conditions + [Condition("AND", column, operator)];
      params := params + [value];
      r := Pass;
    }

    method Or(column: string, value: Value, operator: string := "=") returns (r: Outcome)
      requires Valid()
      modifies this
      ensures Valid()
      ensures r == (if old(conditions) == [] then Fail(QueryBuilderException(AndOrBeforeWhere)) else Pass)
      ensures r.Fail? ==> unchanged(this)
      ensures r.Pass? ==> conditions == old(conditions) + [Condition("OR", column, operator)]
                          && params == old(params) + [value]
      ensures r.Pass? && Clean(column) && Clean(operator) ==> (Balanced() <==> old(Balanced()))
      ensures r.Pass? ==> table == old(table) && kind == old(kind) && main == old(main) && joins == old(joins)
                          && order == old(order) && limit == old(limit) && query == old(query)
    {
      if conditions == [] {
        return Fail(QueryBuilderException(AndOrBeforeWhere));
      }
      WellFormedAppend(conditions, Condition("OR", column, operator));
      ConditionAppendBalance(main, joins, conditions, order, limit, params, Condition("OR", column, operator), [value]);
      conditions := conditions + [Condition("OR", column, operator)];
      params := params + [value];
      r := Pass;
    }

    method WhereIn(column: string, values: seq<Value>) returns (r: Outcome)
      requires Valid()
      requires kind != Unset && kind != Kind.Insert ==> |values| > 0
      modifies this
      ensures Valid()
      ensures r == (if old(kind) == Unset then Fail(UninitializedProperty("type"))
                    else if old(kind) == Kind.Insert then Fail(QueryBuilderException(ConditionsInInsert))
                    else Pass)
      ensures r.Fail? ==> unchanged(this)
      ensures r.Pass? ==> conditions == [InCondition("WHERE", column, |values|)] && params == old(params) + values
      ensures r.Pass? && Clean(column) && old(Balanced()) ==>
                (Balanced() <==> old(CountAll(conditions, '?')) == 0)
      ensures r.Pass? ==> table == old(table) && kind == old(kind) && main == old(main) && joins == old(joins)
                          && order == old(order) && limit == old(limit) && query == old(query)
    {
      if kind == Unset {
        return Fail(UninitializedProperty("type"));
      }
      if kind == Kind.Insert {
        return Fail(QueryBuilderException(ConditionsInInsert));
      }
      WhereBalance(main, joins, conditions, order, limit, params, InCondition("WHERE", column, |values|), values);
      conditions := [InCondition("WHERE", column, |values|)];
      params := params + values;
      r := Pass;
    }

    method AndIn(column: string, values: seq<Value>) returns (r: Outcome)
      requires Valid()
      requires conditions != [] ==> |values| > 0
      modifies this
      ensures Valid()
      ensures r == (if old(conditions) == [] then Fail(QueryBuilderException(AndOrBeforeWhere)) else Pass)
      ensures r.Fail? ==> unchanged(this)
      ensures r.Pass? ==> conditions == old(conditions) + [InCondition("AND", column, |values|)]
                          && params == old(params) + values
      ensures r.Pass? && Clean(column) ==> (Balanced() <==> old(Balanced()))
      ensures r.Pass? ==> table == old(table) && kind == old(kind) && main == old(main) && joins == old(joins)
                          && order == old(order) && limit == old(limit) && query == old(query)
    {
      if conditions == [] {
        return Fail(QueryBuilderException(AndOrBeforeWhere));
      }
      WellFormedAppend(conditions, InCondition("AND", column, |values|));
      ConditionAppendBalance(main, joins, conditions, order, limit, params, InCondition("AND", column, |values|), values);
      conditions := conditions + [InCondition("AND", column, |values|)];
      params := params + values;
      r := Pass;
    }

    method OrIn(column: string, values: seq<Value>) returns (r: Outcome)
      requires Valid()
      requires conditions != [] ==> |values| > 0
      modifies this
      ensures Valid()
      ensures r == (if old(conditions) == [] then Fail(QueryBuilderException(AndOrBeforeWhere)) else Pass)
      ensures r.Fail? ==> unchanged(this)
      ensures r.Pass? ==> conditions == old(conditions) + [InCondition("OR", column, |values|)]
                          && params == old(params) + values
      ensures r.Pass? && Clean(column) ==> (Balanced() <==> old(Balanced()))
      ensures r.Pass? ==> table == old(table) && kind == old(kind) && main == old(main) && joins == old(joins)
                          && order == old(order) && limit == old(limit) && query == old(query)
    {
      if conditions == [] {
        return Fail(QueryBuilderException(AndOrBeforeWhere));
      }
      WellFormedAppend(conditions, InCondition("OR", column, |values|));
      ConditionAppendBalance(main, joins, conditions, order, limit, params, InCondition("OR", column, |values|), values);
      conditions := conditions + [InCondition("OR", column, |values|)];
      params := params + values;
      r := Pass;
    }

    method LeftJoin(table: string, leftColumn: string, rightColumn: string, operator: string := "=") returns (r: Outcome)
      requires Valid()
      modifies this
      ensures Valid()
      ensures r == (if old(kind) == Unset then Fail(UninitializedProperty("type"))
                    else if old(kind) != Kind.Select then Fail(QueryBuilderException(JoinsOutsideSelect))
                    else Pass)
      ensures r.Fail? ==> unchanged(this)
      ensures r.Pass? ==> joins == old(joins) + [JoinClause("LEFT", table, leftColumn, operator, rightColumn)]
      ensures r.Pass? && Clean(table) && Clean(leftColumn) && Clean(operator) && Clean(rightColumn) ==>
                (Balanced() <==> old(Balanced()))
      ensures r.Pass? ==> this.table == old(this.table) && kind == old(kind) && main == old(main)
                          && conditions == old(conditions) && order == old(order) && limit == old(limit)
                          && params == old(params) && query == old(query)
    {
      if kind == Unset {
        return Fail(UninitializedProperty("type"));
      }
      if kind != Kind.Select {
        return Fail(QueryBuilderException(JoinsOutsideSelect));
      }
      JoinAppendBalance(main, joins, conditions, order, limit, params, JoinClause("LEFT", table, leftColumn, operator, rightColumn));
      joins := joins + [JoinClause("LEFT", table, leftColumn, operator, rightColumn)];
      r := Pass;
    }

    method RightJoin(table: string, leftColumn: string, rightColumn: string, operator: string := "=") returns (r: Outcome)
      requires Valid()
      modifies this
      ensures Valid()
      ensures r == (if old(kind) == Unset then Fail(UninitializedProperty("type"))
                    else if old(kind) != Kind.Select then Fail(QueryBuilderException(JoinsOutsideSelect))
                    else Pass)
      ensures r.Fail? ==> unchanged(this)
      ensures r.Pass? ==> joins == old(joins) + [JoinClause("RIGHT", table, leftColumn, operator, rightColumn)]
      ensures r.Pass? && Clean(table) && Clean(leftColumn) && Clean(operator) && Clean(rightColumn) ==>
                (Balanced() <==> old(Balanced()))
      ensures r.Pass? ==> this.table == old(this.table) && kind == old(kind) && main == old(main)
                          && conditions == old(conditions) && order == old(order) && limit == old(limit)
                          && params == old(params) && query == old(query)
    {
      if kind == Unset {
        return Fail(UninitializedProperty("type"));
      }
      if kind != Kind.Select {
        return Fail(QueryBuilderException(JoinsOutsideSelect));
      }
      JoinAppendBalance(main, joins, conditions, order, limit, params, JoinClause("RIGHT", table, leftColumn, operator, rightColumn));
      joins := joins + [JoinClause("RIGHT", table, leftColumn, operator, rightColumn)];
      r := Pass;
    }

    method InnerJoin(table: string, leftColumn: string, rightColumn: string, operator: string := "=") returns (r: Outcome)
      requires Valid()
      modifies this
      ensures Valid()
      ensures r == (if old(kind) == Unset then Fail(UninitializedProperty("type"))
                    else if old(kind) != Kind.Select then Fail(QueryBuilderException(JoinsOutsideSelect))
                    else Pass)
      ensures r.Fail? ==> unchanged(this)
      ensures r.Pass? ==> joins == old(joins) + [JoinClause("INNER", table, leftColumn, operator, rightColumn)]
      ensures r.Pass? && Clean(table) && Clean(leftColumn) && Clean(operator) && Clean(rightColumn) ==>
                (Balanced() <==> old(Balanced()))
      ensures r.Pass? ==> this.table == old(this.table) && kind == old(kind) && main == old(main)
                          && conditions == old(conditions) && order == old(order) && limit == old(limit)
                          && params == old(params) && query == old(query)
    {
      if kind == Unset {
        return Fail(UninitializedProperty("type"));
      }
      if kind != Kind.Select {
        return Fail(QueryBuilderException(JoinsOutsideSelect));
      }
      JoinAppendBalance(main, joins, conditions, order, limit, params, JoinClause("INNER", table, leftColumn, operator, rightColumn));
      joins := joins + [JoinClause("INNER", table, leftColumn, operator, rightColumn)];
      r := Pass;
    }

    method Order(column: string, direction: string := "asc") returns (r: Outcome)
      requires Valid()
      modifies this
      ensures Valid()
      ensures r == (if old(kind) == Unset then Fail(UninitializedProperty("type"))
                    else if old(kind) != Kind.Select then Fail(QueryBuilderException(OrderOutsideSelect))
                    else Pass)
      ensures r.Fail? ==> unchanged(this)
      ensures r.Pass? ==> order == old(order) + [OrderEntry(column, direction)]
      ensures r.Pass? && Clean(column) && Clean(direction) ==> (Balanced() <==> old(Balanced()))
      ensures r.Pass? ==> table == old(table) && kind == old(kind) && main == old(main) && joins == old(joins)
                          && conditions == old(conditions) && limit == old(limit)
                          && params == old(params) && query == old(query)
    {
      if kind == Unset {
        return Fail(UninitializedProperty("type"));
      }
      if kind != Kind.Select {
        return Fail(QueryBuilderException(OrderOutsideSelect));
      }
      OrderAppendBalance(main, joins, conditions, order, limit, params, OrderEntry(column, direction));
      order := order + [OrderEntry(column, direction)];
      r := Pass;
    }

    method Limit(n: int) returns (r: Outcome)
      requires Valid()
      modifies this
      ensures Valid()
      ensures r == (if old(kind) == Unset then Fail(UninitializedProperty("type"))
                    else if old(kind) != Kind.Select then Fail(QueryBuilderException(LimitOutsideSelect))
                    else Pass)
      ensures r.Fail? ==> unchanged(this)
      ensures r.Pass? ==> limit == LimitClause(n)
      ensures r.Pass? ==> (Balanced() <==> old(Balanced()))
      ensures r.Pass? ==> table == old(table) && kind == old(kind) && main == old(main) && joins == old(joins)
                          && conditions == old(conditions) && order == old(order)
                          && params == old(params) && query == old(query)
    {
      if kind == Unset {
        return Fail(UninitializedProperty("type"));
      }
      if kind != Kind.Select {
        return Fail(QueryBuilderException(LimitOutsideSelect));
      }
      LimitBalance(main, joins, conditions, order, limit, params, LimitClause(n));
      limit := LimitClause(n);
      r := Pass;
    }

    /** Assembles the query and checks that its placeholders match the parameters;
        on success the result is also stored in `query`. */
    method Build() returns (r: Result)
      requires Valid()
      modifies this
      ensures Valid()
      ensures kind == Unset ==> r == Err(UninitializedProperty("main"))
      ensures kind != Unset && !Balanced() ==> r == Err(QueryBuilderException(InvalidParameterCount))
      ensures kind != Unset && Balanced() ==> r == Ok(Built(Render(main, joins, conditions, order, limit), params))
      ensures query == (if r.Ok? then Some(r.value) else old(query))
      ensures table == old(table) && kind == old(kind) && main == old(main) && joins == old(joins)
              && conditions == old(conditions) && order == old(order) && limit == old(limit)
              && params == old(params)
    {
      if kind == Unset {
        return Err(UninitializedProperty("main"));
      }
      var text := Assemble(main, joins, conditions, order, limit);
      var result := Built(text, params);
      if Count(text, '?') != |params| {
        return Err(QueryBuilderException(InvalidParameterCount));
      }
      query := Some(result);
      r := Ok(result);
    }
  }

  /** The text assembly of `build`: the main clause, then each non-empty part appended
      in turn. */
  method Assemble(main: string, joins: seq<string>, conditions: seq<string>, order: seq<string>, limit: string)
    returns (text: string)
    ensures text == Render(main, joins, conditions, order, limit)
  {
    text := main;
    if joins != [] {
      text := text + (" " + Join(" ", joins));
    }
    ghost var joined := text;
    if conditions != [] {
      text := text + (" " + Join(" ", conditions));
    }
    ghost var conditioned := text;
    if order != [] {
      text := text + (" ORDER BY " + Join(",", order));
    }
    ghost var ordered := text;
    if limit != "" {
      text := text + (" " + limit);
    }
    // Render's four optional parts, matched one step at a time
    assert joined == main + (if joins == [] then "" else " " + Join(" ", joins));
    assert conditioned == joined + (if conditions == [] then "" else " " + Join(" ", conditions));
    assert ordered == conditioned + (if order == [] then "" else " ORDER BY " + Join(",", order));
    assert text == ordered + (if limit == "" then "" else " " + limit);
  }

  // ---------------------------------------------------------------------------
  // The UPDATE loop

  /** The `foreach` of `update`: appends ` <column> = ?,` per entry and collects the
      values, then trims the trailing comma. */
  method UpdateClause(table: string, values: seq<(string, Value)>) returns (main: string, params: seq<Value>)
    ensures main == UpdateMain(table, values)
    ensures params == Values(values)
  {
    var update := "UPDATE " + table + " SET";
    ghost var head := update;
    var collected: seq<Value> := [];
    var i := 0;
    while i < |values|
      invariant 0 <= i <= |values|
      invariant update == head + Terminated(SetItems(values[..i]))
      invariant collected == Values(values[..i])
    {
      UpdateStep(head, values, i);
      update := update + SetItem(values[i].0) + ",";
      collected := collected + [values[i].1];
      i := i + 1;
    }
    assert values[..i] == values;
    UpdateTrim(table, values);
    main := RTrim(update, ',');
    params := collected;
  }

  /** Each item followed by a comma, as the UPDATE loop accumulates them. */
  function Terminated(items: seq<string>): (r: string)
    ensures items != [] ==> |r| > 0 && r[|r| - 1] == ','
  {
    if items == [] then "" else Terminated(items[..|items| - 1]) + items[|items| - 1] + ","
  }

  lemma TerminatedAppend(items: seq<string>, x: string)
    ensures Terminated(items + [x]) == Terminated(items) + x + ","
  {
    assert (items + [x])[..|items|] == items;
  }

  /** One turn of the UPDATE loop adds the next assignment and its comma, and the next value. */
  lemma UpdateStep(head: string, values: seq<(string, Value)>, i: nat)
    requires i < |values|
    ensures head + Terminated(SetItems(values[..i + 1]))
            == head + Terminated(SetItems(values[..i])) + SetItem(values[i].0) + ","
    ensures Values(values[..i + 1]) == Values(values[..i]) + [values[i].1]
  {
    var done, item := SetItems(values[..i]), SetItem(values[i].0);
    SetItemsPrefix(values, i);
    TerminatedAppend(done, item);
    var t := Terminated(done);
    assert head + (t + item + ",") == head + t + item + ",";
    ValuesPrefix(values, i);
  }

  lemma SetItemsPrefix(values: seq<(string, Value)>, i: nat)
    requires i < |values|
    ensures SetItems(values[..i + 1]) == SetItems(values[..i]) + [SetItem(values[i].0)]
  {
    var before, after := SetItems(values[..i]), SetItems(values[..i + 1]);
    assert forall k :: 0 <= k < i ==> after[k] == before[k];
  }

  lemma ValuesPrefix(values: seq<(string, Value)>, i: nat)
    requires i < |values|
    ensures Values(values[..i + 1]) == Values(values[..i]) + [values[i].1]
  {
    var before, after := Values(values[..i]), Values(values[..i + 1]);
    assert forall k :: 0 <= k < i ==> after[k] == before[k];
  }

  /** Comma-terminated items are the comma-joined items plus one trailing comma. */
  lemma {:induction false} TerminatedIsJoin(items: seq<string>)
    requires items != []
    ensures Terminated(items) == Join(",", items) + ","
  {
    var init := items[..|items| - 1];
    if init != [] {
      TerminatedIsJoin(init);
      JoinAppend(",", init, items[|items| - 1]);
      assert init + [items[|items| - 1]] == items;
    }
  }

  /** The loop's text with its trailing comma trimmed is exactly the UPDATE clause:
      `rtrim` removes the one comma the loop left and nothing else. */
  lemma UpdateTrim(table: string, values: seq<(string, Value)>)
    ensures RTrim("UPDATE " + table + " SET" + Terminated(SetItems(values)), ',') == UpdateMain(table, values)
  {
    var head := "UPDATE " + table + " SET";
    var items := SetItems(values);
    if items == [] {
      assert head[|head| - 1] == 'T';
      assert head + Terminated(items) == head;
    } else {
      TerminatedIsJoin(items);
      JoinEndsWithLast(",", items);
      var j := Join(",", items);
      var last := items[|items| - 1];
      assert last[|last| - 1] == '?';
      assert j[|j| - 1] == '?';
      assert head + Terminated(items) == (head + j) + [','];
      RTrimOne(head + j, ',');
    }
  }

  // ---------------------------------------------------------------------------
  // Placeholder accounting: how many `?` each fragment contributes

  /** A literal prefix without `?` followed by a join with a separator without `?`
      contributes exactly the placeholders of the joined parts. */
  lemma PrefixedJoinCount(prefix: string, sep: string, parts: seq<string>)
    requires '?' !in prefix && '?' !in sep
    ensures Count(prefix + Join(sep, parts), '?') == CountAll(parts, '?')
  {
    CountAfter(prefix, Join(sep, parts), '?');
    JoinCount(sep, parts, '?');
  }

  /** Texts without `?` contribute no placeholder. */
  lemma {:induction false} CleanCountAll(xs: seq<string>)
    ensures AllClean(xs) <==> CountAll(xs, '?') == 0
  {
    if xs != [] {
      CleanCountAll(xs[1..]);
      assert forall i :: 1 <= i < |xs| ==> xs[1..][i - 1] == xs[i];
    }
  }

  /** Appending a condition that brings as many values as placeholders keeps the
      balance between placeholders and parameters, whichever it was. */
  lemma ConditionAppendBalance(main: string, joins: seq<string>, conditions: seq<string>, order: seq<string>,
                               limit: string, params: seq<Value>, fragment: string, added: seq<Value>)
    ensures Count(fragment, '?') == |added| ==>
              (Count(Render(main, joins, conditions + [fragment], order, limit), '?') == |params + added|
               <==> Count(Render(main, joins, conditions, order, limit), '?') == |params|)
  {
    CountAllAppend(conditions, fragment, '?');
  }

  /** `where` replaces the conditions but keeps the parameters staged for them: from a
      balanced state the result is balanced exactly when the discarded conditions held
      no placeholder. */
  lemma WhereBalance(main: string, joins: seq<string>, conditions: seq<string>, order: seq<string>,
                     limit: string, params: seq<Value>, fragment: string, added: seq<Value>)
    ensures Count(fragment, '?') == |added| && Count(Render(main, joins, conditions, order, limit), '?') == |params| ==>
              (Count(Render(main, joins, [fragment], order, limit), '?') == |params + added|
               <==> CountAll(conditions, '?') == 0)
  {
    CountAllAppend([], fragment, '?');
    assert [] + [fragment] == [fragment];
  }

  /** A join without placeholders leaves the balance as it was. */
  lemma JoinAppendBalance(main: string, joins: seq<string>, conditions: seq<string>, order: seq<string>,
                          limit: string, params: seq<Value>, clause: string)
    ensures Count(clause, '?') == 0 ==>
              (Count(Render(main, joins + [clause], conditions, order, limit), '?') == |params|
               <==> Count(Render(main, joins, conditions, order, limit), '?') == |params|)
  {
    CountAllAppend(joins, clause, '?');
  }

  /** An order entry without placeholders leaves the balance as it was. */
  lemma OrderAppendBalance(main: string, joins: seq<string>, conditions: seq<string>, order: seq<string>,
                           limit: string, params: seq<Value>, entry: string)
    ensures Count(entry, '?') == 0 ==>
              (Count(Render(main, joins, conditions, order + [entry], limit), '?') == |params|
               <==> Count(Render(main, joins, conditions, order, limit), '?') == |params|)
  {
    CountAllAppend(order, entry, '?');
  }

  /** Replacing a limit without placeholders by another leaves the balance as it was. */
  lemma LimitBalance(main: string, joins: seq<string>, conditions: seq<string>, order: seq<string>,
                     limit: string, params: seq<Value>, limit': string)
    requires Count(limit, '?') == 0
    ensures Count(limit', '?') == 0 ==>
              (Count(Render(main, joins, conditions, order, limit'), '?') == |params|
               <==> Count(Render(main, joins, conditions, order, limit), '?') == |params|)
  {
  }

  lemma {:induction false} KeysCount(values: seq<(string, Value)>)
    ensures CountAll(SetItems(values), '?') == CountAll(Keys(values), '?') + |values|
  {
    if values != [] {
      KeysCount(values[1..]);
      CountAfter(" ", values[0].0, '?');
      CountConcat(" " + values[0].0, " = ?", '?');
      assert Count(" = ?", '?') == 1;
      assert SetItems(values)[1..] == SetItems(values[1..]);
      assert Keys(values)[1..] == Keys(values[1..]);
    }
  }

  /** Upper-casing keeps every `?` and adds none. */
  lemma {:induction false} UpperCount(s: string)
    ensures Count(Upper(s), '?') == Count(s, '?')
  {
    if s != [] {
      UpperCount(s[1..]);
      assert Upper(s)[1..] == Upper(s[1..]);
    }
  }
}
