# Monster-run statements: a verified model

This project models the statement-building layer of the monster-run service
(`Server/Model/monster.js`). Each of the six exported operations turns its
input into a pair: SQL text plus a positional parameter list. The pair then
goes, unchanged, to the database driver (`connection.query`). The model stops
at that pair, here the datatype `Monster.Statement(sql, params)`.

- `getAllMonsters` builds the list query step by step. It pushes predicates
  and parameters onto local lists, then appends `WHERE`, `ORDER BY` and
  `LIMIT` to a string. It is modelled as the method `Monster.GetAllMonsters`,
  which updates sequence and string variables in the same order. The method
  is proved equal to the specification function `Monster.ListQuery`. The
  module `ListFacts` proves what that function promises.
- `getMonsterDetails`, `insertRun`, `updateRun`, `getRunById` and `deleteRun`
  each pair a constant SQL text with an array literal. They are modelled as
  functions.

The central invariant is alignment (`Monster.Aligned`). The number of `?`
placeholders in the SQL equals the length of the parameter list. It is proved
for every statement, and for every criteria of the list query.

Files:
- `wrappers.dfy`: `Option`.
- `text.dfy`: character counting, `Array.prototype.join`, substring
  occurrence, and the decimal rendering of a number.
- `monster.dfy`: the data model, the six operations and their alignment
  proofs.
- `list_facts.dfy`: clause emission, filter order, parameters, the limit and
  order policies, and noninterference for the list query.

## Model

| member | source | states |
|---|---|---|
| Monster.GetMonsterDetails | Server/Model/monster.js:4-7 | the monster name is the only parameter, and the SQL has exactly one placeholder |
| Monster.InsertRun | Server/Model/monster.js:9-24 | the parameters are exactly game, monster_id, username, weapon, time, rules, device, in that order; placeholders and parameters are aligned |
| Monster.InsertSqlPlaceholders | Server/Model/monster.js:10-13 | the INSERT text holds one placeholder per column of a run (seven), none in its column list |
| Monster.InsertBindsColumnsInOrder | Server/Model/monster.js:11-22 | the i-th parameter is the value of the i-th column named in the INSERT's column list |
| Monster.InsertRunInjective | Server/Model/monster.js:14-22 | two runs with the same parameter list are the same run: no field is lost or merged |
| Monster.UpdateRun | Server/Model/monster.js:26-43 | the parameters are the seven fields followed by the id, eighth and last; aligned with the placeholders |
| Monster.UpdateSqlPlaceholders | Server/Model/monster.js:27-31 | the UPDATE text holds seven assignment placeholders plus the one of its id filter |
| Monster.UpdateBindsColumnsThenId | Server/Model/monster.js:29-41 | the update parameters are the insert parameters plus the id; the i-th parameter is the value of the column the i-th SET assignment names |
| Monster.GetRunById | Server/Model/monster.js:45-60 | the id is the only parameter, and the SQL has exactly one placeholder |
| Monster.DeleteRun | Server/Model/monster.js:63-66 | the id is the only parameter, and the SQL has exactly one placeholder |
| Monster.GetAllMonsters | Server/Model/monster.js:68-136 | building the query step by step yields exactly `ListQuery(c)`, and its placeholders and parameters are aligned |
| Monster.ListQueryBuilt | Server/Model/monster.js:81-132 | the final lists and the final SQL of the step-by-step build equal the base select, WHERE, ORDER BY and LIMIT clauses of `ListQuery` |
| Monster.FilterListsClosed | Server/Model/monster.js:86-113 | after the six guarded pushes, the predicate list is the predicates of the active filters and the parameter list their bindings |
| Monster.ListQueryAligned | Server/Model/monster.js:69-132 | for every criteria, the list query's placeholder count equals its parameter count |
| Monster.ListBasePlain | Server/Model/monster.js:69-79 | the base select holds no placeholder and no `W` |
| Monster.PredicatePlaceholders | Server/Model/monster.js:86-113 | each active predicate holds as many placeholders as the parameters it binds: one for a value filter, none for the rules literal |
| Monster.WhereClauseCounts | Server/Model/monster.js:115-118 | the WHERE clause holds one placeholder per parameter, and one `W` exactly when a filter is active |
| Monster.OrderClausePlain | Server/Model/monster.js:120-127 | the ORDER BY clause holds no placeholder and no `W` |
| Monster.LimitClausePlain | Server/Model/monster.js:129-132 | the LIMIT clause holds no placeholder and no `W` |
| Monster.ListFiltersUnrolled | Server/Model/monster.js:86-113 | the active filters are those of game, monster, username, weapon, rules, device whose guard holds, in that order |
| Monster.ListListsUnrolled | Server/Model/monster.js:86-113 | the predicate and parameter lists are the six filters' contributions in order; an inactive filter contributes neither |
| ListFacts.KeepSelects | Server/Model/monster.js:86-113 | selection keeps exactly the filters whose guard holds, and keeps an ascending order ascending |
| ListFacts.ActiveFiltersOrdered | Server/Model/monster.js:86-113 | a filter is applied if and only if its guard holds; applied filters are strictly ascending in the order game, monster, username, weapon, rules, device; none is applied if and only if no field is filled and rules is not "TA" |
| ListFacts.WhereEmission | Server/Model/monster.js:81-118 | with no filter the SQL is the base select plus ORDER BY and LIMIT, and contains no `WHERE`; otherwise ` WHERE ` and the predicates joined by ` AND ` follow the base select directly; `WHERE` never occurs twice |
| ListFacts.ListParams | Server/Model/monster.js:86-113 | the parameters are game, `%`+monster+`%`, `%`+username+`%`, weapon, device, each present only when filled; rules binds nothing |
| ListFacts.OrderPolicy | Server/Model/monster.js:120-127 | no ORDER BY for an absent or empty sort; `ORDER BY r.time ASC` for "ASC"; `ORDER BY r.time DESC` for any other non-empty sort |
| ListFacts.LimitPolicy | Server/Model/monster.js:129-132 | a LIMIT clause appears if and only if 0 < limit < 6, and it is ` LIMIT ` followed by that digit |
| ListFacts.SameFilterFields | Server/Model/monster.js:86-118 | sort and limit do not affect the applied filters, the WHERE clause or the parameters |
| ListFacts.ClauseOrder | Server/Model/monster.js:115-132 | the query is the base select, then WHERE, then ORDER BY, then LIMIT; sort and limit add no parameters |
| ListFacts.SqlDependsOnlyOnShape | Server/Model/monster.js:86-132 | criteria that agree on which filters are on, on whether sort is given and is "ASC", and on the honoured limit yield the same SQL text; user values reach only the parameters |

## Left out

- `connection.query`, the `./connection` module and the mysql2 driver: database I/O, not visible here. The model ends at the `(sql, params)` pair.
- What the SQL means once executed: `LEFT JOIN`, `LIKE` matching, `TIME_FORMAT` / `STR_TO_DATE`, and the rows returned. In particular, `%` and `_` inside a monster or username filter value are not escaped. The model keeps that behaviour as written and does not define an escaped variant.
- `async`/`await`: promise plumbing around a sequential computation.
- The debug `console.log` of the list SQL (monster.js line 134): output only.
- Monster.Criteria: `limit` is an optional integer. The JavaScript coercion of a query-string `limit` (for example "3.5" or "03", which pass the range test and are printed as written) is not modelled. The model renders an integer limit in decimal.
- Monster.Criteria: each field is an optional string. Repeated query keys, which Express turns into arrays, are not modelled. A present and non-empty string stands for JavaScript truthiness and `length > 0`.
- The route layer in `Server/index.js` (Express wiring, multer, status codes, `express-validator` rules, `app.listen`) is not part of this model. insertRun and updateRun accept any strings, so no precondition is taken from the validators.
- Ids are route parameters, so they are strings, and they are modelled as strings.
- Layout: the source file has CRLF line endings, and template literals read them as a line feed. The SQL constants use `"\n"`, and spell the source's indentation exactly.
