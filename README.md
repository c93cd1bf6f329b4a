# QueryBuilder in Dafny

A model of `QueryBuilder`, a small fluent SQL statement builder written in PHP.
One builder object belongs to one table. A kind method (`insert`, `select`, `update`, `delete`)
sets the statement kind and its main clause. Condition methods (`where`, `and`, `or`,
`whereIn`, `andIn`, `orIn`) keep a WHERE group. `leftJoin`, `rightJoin`, `innerJoin`,
`order` and `limit` add SELECT-only clauses. Each value is bound as a `?` placeholder and
collected in a parameter list. `build` assembles the text in a fixed order. It refuses a
text whose number of `?` differs from the number of parameters.

The project has three modules:

- `Text` (Text.dfy) holds the PHP string functions the builder uses, written out and
  specified:
  - `substr_count` with a one-character needle is `Count`;
  - `implode` is `Join`;
  - the `str_repeat('?,', n-1) . '?'` placeholder list is `Placeholders`;
  - `rtrim` is `RTrim`;
  - ASCII `strtoupper` is `Upper`;
  - integer interpolation is `IntToString`, with `ParseInt` as its inverse.
- `QueryBuilder` (QueryBuilder.dfy) holds the rest of the builder:
  - the value types;
  - a `class QueryBuilder` whose fields are the PHP object's properties;
  - one method per public operation;
  - the clause fragments as functions, each stating how many `?` it contributes;
  - `Render`, which describes the whole text;
  - the `foreach` loop of `update`, as a method proved equal to its specification;
  - the lemmas on how each operation changes the placeholder balance.

  The class keeps the invariant `Valid()`:
  - an unset kind means nothing else has been set;
  - the conditions are empty or a WHERE fragment followed by AND/OR fragments;
  - the limit holds no `?`.

  `Balanced()` says the rendered text has as many `?` as there are parameters, which is
  exactly when `build` succeeds on a builder whose kind is set. The method contracts say which calls keep it.
- `Scenarios` (Scenarios.dfy) holds call sequences on a new builder, each with the exact
  outcome:
  - the building scenarios (`InsertBuilds`, `SelectWhereAndOrBuilds`, `SecondWhereFails`)
    run up to `build`, for any table and column names that hold no `?`;
  - `SelectWhere` and `SelectWhereAnd` are the shared first steps, and stop before `build`;
  - `IllegalCallsFail` uses fixed names and shows the refused calls;
  - `UnsetKindFails` works for any table name.

Exceptions become values. `QueryBuilderException(message)` carries the source's exact
messages. `UninitializedProperty(name)` stands for PHP's runtime error on reading a typed
property that was never assigned. That happens with `$type` before any kind method, and
with `$main` in `build`. A failing call changes nothing.

## Model

| member | source | states |
|---|---|---|
| `QueryBuilder.QueryBuilder.constructor` | src/QueryBuilder.php:9-21 | Only the table is set. The kind is unset, joins, conditions and order are empty, there is no limit, no parameters and no stored query. |
| `QueryBuilder.QueryBuilder.Insert` | src/QueryBuilder.php:28-36 | The kind becomes INSERT. The main clause is `INSERT INTO t (cols) VALUES (?,…,?)`, and the parameters are replaced by the values in column order. Joins, conditions, order and limit are kept. When the names hold no `?`, the result is balanced exactly when joins, conditions and order hold no `?`. |
| `QueryBuilder.QueryBuilder.Select` | src/QueryBuilder.php:38-43 | The kind becomes SELECT, with main clause `SELECT cols FROM t` (`*` by default). Everything else is unchanged. Balance then depends only on the other parts' placeholders. |
| `QueryBuilder.QueryBuilder.Update` | src/QueryBuilder.php:45-60 | The kind becomes UPDATE. The main clause is `UpdateMain` and the parameters are replaced by the values. The other parts are kept. Balance is stated as for INSERT. |
| `QueryBuilder.QueryBuilder.Delete` | src/QueryBuilder.php:62-67 | The kind becomes DELETE, with main clause `DELETE FROM t`. Everything else is unchanged. |
| `QueryBuilder.QueryBuilder.Where` | src/QueryBuilder.php:69-78 | An unset kind is an error, and so is INSERT, with its message; nothing changes then. Otherwise the conditions are REPLACED by one WHERE fragment and the value is APPENDED to the parameters. From a balanced state the result is balanced exactly when the discarded conditions held no `?`. |
| `QueryBuilder.QueryBuilder.And` | src/QueryBuilder.php:80-88 | Fails with the AND/OR message exactly when there are no conditions, whatever the kind. Otherwise it appends an AND fragment and the value. Balance is preserved in both directions. |
| `QueryBuilder.QueryBuilder.Or` | src/QueryBuilder.php:90-98 | As `And`, with an OR fragment. |
| `QueryBuilder.QueryBuilder.WhereIn` | src/QueryBuilder.php:100-110 | The same errors as `Where`, for any list, an empty one included. Otherwise the conditions become one `WHERE c IN (?,…,?)`, with one placeholder per value, and all the values are appended to the parameters. Balance is stated as for `Where`. |
| `QueryBuilder.QueryBuilder.AndIn` | src/QueryBuilder.php:112-121 | The same error as `And`, for any list, an empty one included. Otherwise it appends `AND c IN (…)` and the values, and balance is preserved. |
| `QueryBuilder.QueryBuilder.OrIn` | src/QueryBuilder.php:123-132 | As `AndIn`, with OR. |
| `QueryBuilder.QueryBuilder.LeftJoin` | src/QueryBuilder.php:134-142 | An unset kind is an error. Any kind other than SELECT fails with the joins message, and nothing changes. On SELECT it appends `LEFT JOIN t ON a op b` and keeps balance. |
| `QueryBuilder.QueryBuilder.RightJoin` | src/QueryBuilder.php:144-152 | As `LeftJoin`, with RIGHT. |
| `QueryBuilder.QueryBuilder.InnerJoin` | src/QueryBuilder.php:154-161 | As `LeftJoin`, with INNER. |
| `QueryBuilder.QueryBuilder.Order` | src/QueryBuilder.php:163-170 | Only SELECT is allowed. An unset kind is the `$type` error, and any other kind fails with the order message. It appends `column DIRECTION`, upper-cased, `ASC` by default, and keeps balance. |
| `QueryBuilder.QueryBuilder.Limit` | src/QueryBuilder.php:172-178 | Only SELECT is allowed. An unset kind is the `$type` error, and any other kind fails with the limit message. It replaces the limit with `LIMIT n` and keeps balance. |
| `QueryBuilder.QueryBuilder.Build` | src/QueryBuilder.php:180-211 | An unset kind is the uninitialised-`$main` error. An unbalanced state fails with the parameter-count message. Otherwise it returns `Render` of the fields with the parameters and stores it in `query`. A failure leaves `query` as it was. No other field changes. |
| `QueryBuilder.Assemble` | src/QueryBuilder.php:182-199 | The step-by-step appending of joins, conditions, order and limit, each only when non-empty, yields exactly `Render`. |
| `QueryBuilder.QueryBuilder.Balanced` | src/QueryBuilder.php:206 | The `build` count check passes exactly when the `?` of main, joins, conditions, order and limit add up to the number of parameters. |
| `QueryBuilder.InsertMain` | src/QueryBuilder.php:31-33 | The INSERT clause has exactly one `?` per value, besides any in the table and column names. |
| `QueryBuilder.SelectMain` | src/QueryBuilder.php:41 | The SELECT clause adds no `?` of its own. |
| `QueryBuilder.SetItem` | src/QueryBuilder.php:52 | One ` col = ?` assignment: it ends with its placeholder and is five characters longer than the column name. |
| `QueryBuilder.UpdateMain` | src/QueryBuilder.php:48-56 | The UPDATE clause has exactly one `?` per value, besides any in the names. |
| `QueryBuilder.DeleteMain` | src/QueryBuilder.php:65 | The DELETE clause adds no `?` of its own. |
| `QueryBuilder.Condition` | src/QueryBuilder.php:75 | A `WHERE`/`AND`/`OR` comparison starts with its connective and holds exactly one `?` of its own. |
| `QueryBuilder.InCondition` | src/QueryBuilder.php:106-107 | An IN condition starts with its connective and holds exactly one `?` per value. |
| `QueryBuilder.Connective` | src/QueryBuilder.php:85 | A connective word and a space in front of a condition make it start with that word, and add no `?`. |
| `QueryBuilder.JoinClause` | src/QueryBuilder.php:140 | A join clause adds no `?` of its own. |
| `QueryBuilder.OrderEntry` | src/QueryBuilder.php:168 | An order entry adds no `?` of its own. |
| `QueryBuilder.LimitClause` | src/QueryBuilder.php:177 | `LIMIT n` never contains `?`. |
| `QueryBuilder.Terminated` | src/QueryBuilder.php:51-54 | The text the loop accumulates: when there are items, it ends with a comma. |
| `QueryBuilder.UpdateClause` | src/QueryBuilder.php:48-57 | The `foreach` and `rtrim` produce exactly `UPDATE t SET` followed by the comma-joined ` col = ?` items, plus the values in order. |
| `QueryBuilder.UpdateTrim` | src/QueryBuilder.php:52-56 | `rtrim` removes just the one trailing comma the loop leaves, and nothing else, also when there are no values. |
| `QueryBuilder.TerminatedIsJoin` | src/QueryBuilder.php:51-54 | Items each followed by a comma equal the comma-join of the items plus one comma. |
| `QueryBuilder.UpdateStep` | src/QueryBuilder.php:51-54 | One loop turn adds the next assignment and its comma to the text, and the next value to the parameters. |
| `QueryBuilder.Render` | src/QueryBuilder.php:182-206 | The placeholders in the assembled text are exactly those of main, joins, conditions, order and limit. The separators add none. |
| `QueryBuilder.ConditionAppendBalance` | src/QueryBuilder.php:85-86 | Appending a condition together with as many values as it has `?` keeps the placeholder/parameter balance in both directions. |
| `QueryBuilder.WhereBalance` | src/QueryBuilder.php:75-76 | Replacing the conditions while keeping the old parameters: from a balanced state the result is balanced exactly when the replaced conditions held no `?`. |
| `QueryBuilder.JoinAppendBalance` | src/QueryBuilder.php:140 | A join clause without `?` does not change balance. |
| `QueryBuilder.OrderAppendBalance` | src/QueryBuilder.php:168 | An order entry without `?` does not change balance. |
| `QueryBuilder.LimitBalance` | src/QueryBuilder.php:177 | Replacing a `?`-free limit by another does not change balance. |
| `QueryBuilder.WellFormedAppend` | src/QueryBuilder.php:82-85 | Appending an AND/OR fragment to a non-empty WHERE group keeps it a WHERE group. |
| `QueryBuilder.CleanCountAll` | src/QueryBuilder.php:206 | A list of texts contributes no `?` exactly when none of them contains `?`. |
| `QueryBuilder.KeysCount` | src/QueryBuilder.php:52 | The SET items hold the placeholders of their column names plus exactly one per value. |
| `QueryBuilder.UpperCount` | src/QueryBuilder.php:168 | `strtoupper` neither adds nor removes `?`. |
| `QueryBuilder.Keys` | src/QueryBuilder.php:31 | `array_keys`: one key per entry, in order. |
| `QueryBuilder.Values` | src/QueryBuilder.php:34 | `array_values`: one value per entry, in order. |
| `QueryBuilder.SetItems` | src/QueryBuilder.php:52 | One ` col = ?` item per entry, in order. |
| `Text.Count` | src/QueryBuilder.php:206 | `substr_count(s, c)` is zero exactly when `c` does not occur. |
| `Text.CountConcat` | src/QueryBuilder.php:206 | Counting distributes over concatenation. |
| `Text.CountAllAppend` | src/QueryBuilder.php:206 | The total count over a list grows by the count of the appended text. |
| `Text.Join` | src/QueryBuilder.php:186-194 | `implode` starts with the first part, followed by the separator when more parts follow. |
| `Text.Repeat` | src/QueryBuilder.php:32 | `str_repeat(s, n)` is `n` times as long as `s` and starts with `s` when `n > 0`. |
| `Text.Placeholders` | src/QueryBuilder.php:32 | The placeholder list for `n` values is `2n-1` characters long and starts and ends with `?`. |
| `Text.IntToString` | src/QueryBuilder.php:177 | An interpolated integer is non-empty and starts with a minus sign exactly when it is negative. |
| `Text.NatToString` | src/QueryBuilder.php:177 | The decimal text of a natural number is non-empty and starts with a digit. |
| `Text.JoinCount` | src/QueryBuilder.php:186-194 | `implode` with a separator free of `?` holds exactly the parts' `?`. |
| `Text.JoinAppend` | src/QueryBuilder.php:186-194 | `implode` of one more part appends the separator and that part. |
| `Text.JoinEndsWithLast` | src/QueryBuilder.php:56 | `implode` of non-empty parts ends with the last part. |
| `Text.PlaceholdersSpec` | src/QueryBuilder.php:32 | `str_repeat('?,', n-1) . '?'` equals `n` copies of `?` joined by commas. It has exactly `n` `?` and length `2n-1`. |
| `Text.Copies` | src/QueryBuilder.php:32 | The reference list of `n` equal texts. |
| `Text.RTrim` | src/QueryBuilder.php:56 | `rtrim(s, c)` is a prefix of `s` that does not end in `c`, and everything it dropped is `c`. |
| `Text.RTrimOne` | src/QueryBuilder.php:56 | Trimming a single trailing `c` from a text not otherwise ending in `c` gives the text back. |
| `Text.UpperChar` | src/QueryBuilder.php:168 | ASCII upper-casing of one character: lower-case letters move by 32, everything else is kept. |
| `Text.Upper` | src/QueryBuilder.php:168 | `strtoupper` keeps the length and upper-cases each character. |
| `Text.NatDigits` | src/QueryBuilder.php:177 | A natural number's decimal text is non-empty digits. |
| `Text.IntToStringClean` | src/QueryBuilder.php:177 | An interpolated integer is non-empty and holds no `?`. |
| `Text.NatRoundTrip` | src/QueryBuilder.php:177 | Decimal text of a natural number parses back to that number. |
| `Text.IntRoundTrip` | src/QueryBuilder.php:177 | The text of any integer limit, negative ones included, parses back to that integer. So different limits render differently. |
| `Scenarios.InsertBuilds` | src/QueryBuilder.php:28-36 | For table and column names without `?`, a new builder with one INSERT builds. The result is the INSERT clause with the values as parameters. |
| `Scenarios.SelectWhere` | src/QueryBuilder.php:38-78 | SELECT then WHERE gives a balanced SELECT with one condition and one parameter. |
| `Scenarios.SelectWhereAnd` | src/QueryBuilder.php:80-88 | Adding an AND keeps it balanced, with two conditions and two parameters. |
| `Scenarios.SelectWhereAndOrBuilds` | src/QueryBuilder.php:180-211 | SELECT, WHERE, AND, OR IN builds. The text is the main clause followed by the three conditions in call order, and the parameters are in call order. |
| `Scenarios.SecondWhereFails` | src/QueryBuilder.php:69-78 | A second `where` drops the first condition but keeps its parameter, so `build` fails with the parameter-count message. |
| `Scenarios.IllegalCallsFail` | src/QueryBuilder.php:71-176 | After INSERT, `where`, `or`, a join, `order` and `limit` each fail with their own message. So do `whereIn` and `andIn` with an empty list, because their rule is checked before the list is used. |
| `Scenarios.UnsetKindFails` | src/QueryBuilder.php:136-182 | Without a kind, a join fails with the uninitialised-`$type` error and `build` with the uninitialised-`$main` error. |

## Left out

- `__get` (lines 23-26) is a generic property read. The model's fields are public, so it needs no operation of its own.
- `__toString` (lines 213-216) returns the array from `build`, which PHP would reject at run time. It is not modelled.
- The class `QueryBuilderException` is not part of this model. It is represented by the `QueryBuilderException(message)` error value.
- `Insert` requires at least one value. `WhereIn` requires one only when its kind check passes, and `AndIn` and `OrIn` only when there are conditions. On those paths an empty array makes PHP call `str_repeat` with count -1, which raises a runtime error the model does not represent. Before that point the source's own exceptions are modelled for empty lists too.
- Associative arrays are sequences of (key, value) pairs with string keys. Duplicate keys, integer keys (list arrays passed to `insert` or `update`) and `array_merge`'s handling of string keys in `whereIn`/`andIn`/`orIn` are not modelled. The IN value lists are plain lists.
- Values are strings or integers; PHP's 64-bit integer range is not modelled, integers are unbounded.
- `limit` does not return the builder (no `return $this`). Method chaining is not part of the model, since every method acts on a builder reference. A chained `->limit(n)->build()`, which fails in PHP, is not represented.
- `strtoupper` is modelled as ASCII upper-casing. Locale-dependent and multibyte behaviour is not modelled.
- SQL meaning, quoting and escaping are not modelled. Table, column and operator names are inserted verbatim, as in the source. The balance results assume those names hold no `?`, because a name containing `?` shifts the count `build` checks.
