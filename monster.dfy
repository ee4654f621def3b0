/**
 The statement-building layer of the monster-run service (Server/Model/monster.js).

 Every operation turns its input into a `Statement`: SQL text plus the
 positional parameter list that is handed, unchanged, to the database driver
 (`connection.query`). The driver itself is not modelled; the model stops at
 the pair.
 */
module Monster {
  import opened Wrappers
  import opened Text

  /** A run as the route layer passes it to insertRun and updateRun. */
  datatype Run = Run(
    game: string,
    monster_id: string,
    username: string,
    weapon: string,
    time: string,
    rules: string,
    device: string)

  /** The query-string bag accepted by getAllMonsters; every field is optional. */
  datatype Criteria = Criteria(
    game: Option<string>,
    monster: Option<string>,
    username: Option<string>,
    weapon: Option<string>,
    rules: Option<string>,
    device: Option<string>,
    sort: Option<string>,
    limit: Option<int>)

  /** What reaches `connection.query`: SQL text and positional parameters. */
  datatype Statement = Statement(sql: string, params: seq<string>)

  /** Number of `?` placeholders in SQL text. */
  function Placeholders(sql: string): nat
  {
    Count(sql, '?')
  }

  /** Every placeholder has a parameter and every parameter a placeholder. */
  predicate Aligned(st: Statement)
  {
    Placeholders(st.sql) == |st.params|
  }

  /*
   * Text fragments. The source writes its SQL as template literals (its line
   * breaks read as "\n"); a long literal is written here as the concatenation
   * of shorter pieces that spell the same text.
   */

  const Nl: string := "\n"
  const Margin: string := "        "
  const Indent: string := "            "
  const Trailer: string := "    "
  const TimePattern: string := "'%H:%i:%s'"

  /** The `time` column, re-parsed and re-rendered as HH:MM:SS. */
  const TimeColumn: string :=
    "TIME_FORMAT(" + "STR_TO_DATE(r.time, " + TimePattern + "), " + TimePattern + ")"

  /** Text holding no placeholder and no capital W (so no WHERE keyword). */
  predicate Plain(s: string)
  {
    '?' !in s && 'W' !in s
  }

  lemma LayoutPlain()
    ensures Plain(Nl) && Plain(Margin) && Plain(Indent) && Plain(Trailer)
  {
  }

  lemma TimeFunctionsPlain()
    ensures Plain("TIME_FORMAT(") && Plain("), ") && Plain(")")
  {
  }

  lemma TimeParsePlain()
    ensures Plain("STR_TO_DATE(r.time, ")
  {
  }

  lemma TimePatternPlain()
    ensures Plain(TimePattern)
  {
  }

  lemma TimeColumnPlain()
    ensures Plain(TimeColumn)
  {
    TimeFunctionsPlain();
    TimeParsePlain();
    TimePatternPlain();
  }

  /** The column lines shared by the two SELECTs. */
  lemma SelectItemsPlain()
    ensures Plain("SELECT") && Plain("r.id,") && Plain("r.game,")
  {
  }

  lemma PlayerItemsPlain()
    ensures Plain("r.username,") && Plain("r.weapon,")
  {
  }

  lemma TailItemsPlain()
    ensures Plain("r.rules,") && Plain("r.device")
  {
  }

  lemma FromRunsPlain()
    ensures Plain("FROM runs r")
  {
  }

  /*
   * Columns of the runs table.
   */

  datatype Column = Game | MonsterId | Username | Weapon | Time | Rules | Device

  /** The seven data columns of `runs`, in the order insertRun and updateRun list them. */
  const RunColumns: seq<Column> := [Game, MonsterId, Username, Weapon, Time, Rules, Device]

  function ColumnName(col: Column): (name: string)
    ensures '?' !in name
  {
    match col
    case Game => "game"
    case MonsterId => "monster_id"
    case Username => "username"
    case Weapon => "weapon"
    case Time => "time"
    case Rules => "rules"
    case Device => "device"
  }

  /** The field of a run that is stored in `col`. */
  function ColumnValue(run: Run, col: Column): string
  {
    match col
    case Game => run.game
    case MonsterId => run.monster_id
    case Username => run.username
    case Weapon => run.weapon
    case Time => run.time
    case Rules => run.rules
    case Device => run.device
  }

  /** The names of `cols`, in order. */
  function NamesOf(cols: seq<Column>): (names: seq<string>)
    ensures |names| == |cols|
    ensures forall i | 0 <= i < |cols| :: names[i] == ColumnName(cols[i])
  {
    if cols == [] then [] else [ColumnName(cols[0])] + NamesOf(cols[1..])
  }

  /** One "name = ?" assignment per column of `cols`, in order. */
  function AssignmentsOf(cols: seq<Column>): (sets: seq<string>)
    ensures |sets| == |cols|
    ensures forall i | 0 <= i < |cols| :: sets[i] == ColumnName(cols[i]) + " = ?"
  {
    if cols == [] then [] else [ColumnName(cols[0]) + " = ?"] + AssignmentsOf(cols[1..])
  }

  /** `n` placeholders. */
  function Slots(n: nat): (slots: seq<string>)
    ensures |slots| == n
    ensures forall i | 0 <= i < n :: slots[i] == "?"
  {
    if n == 0 then [] else Slots(n - 1) + ["?"]
  }

  /** "game", "monster_id", ..., "device". */
  const ColumnNames: seq<string> := NamesOf(RunColumns)

  /** "game = ?", "monster_id = ?", ..., "device = ?". */
  const Assignments: seq<string> := AssignmentsOf(RunColumns)

  /** One "?" per run column. */
  const ValueSlots: seq<string> := Slots(|RunColumns|)

  /*
   * The fixed statements.
   */

  /** SELECT * FROM monster WHERE name = ? */
  const MonsterDetailsHead: string := "SELECT * FROM " + "monster WHERE " + "name = "
  const MonsterDetailsSql: string := MonsterDetailsHead + "?"

  /** The multi-line INSERT of the seven run columns. */
  const InsertHead: string := Nl + Margin + "INSERT INTO runs ("
  const InsertMiddle: string := ")" + Nl + Margin + "VALUES ("
  const InsertTail: string := ")" + Nl + Trailer
  const InsertSql: string :=
    InsertHead + Join(ColumnNames, ", ") + InsertMiddle + Join(ValueSlots, ", ") + InsertTail

  /** The multi-line UPDATE of all seven run columns, filtered by id. */
  const UpdateHead: string := Nl + Margin + "UPDATE runs" + Nl + Margin + "SET "
  const UpdateMiddle: string := Nl + Margin + "WHERE id = "
  const UpdateTail: string := Nl + Trailer
  const UpdateSql: string :=
    UpdateHead + Join(Assignments, ", ") + (UpdateMiddle + "?" + UpdateTail)

  /** The single-run SELECT; its SQL comment is part of the text sent. */
  const RunByIdProjection: string :=
    Nl + Margin + "SELECT" + Nl +
    Indent + "r.id," + Nl +
    Indent + "r.game," + Nl +
    Indent + "r.monster_id," + Nl +
    Indent + "r.username," + Nl +
    Indent + "r.weapon," + Nl
  const RunByIdTimeLine: string :=
    Indent + TimeColumn + " AS time, " + "-- Updated to " + "include seconds" + Nl
  const RunByIdFilter: string :=
    Indent + "r.rules," + Nl +
    Indent + "r.device" + Nl +
    Margin + "FROM runs r" + Nl +
    Margin + "WHERE r.id = "
  const RunByIdHead: string := RunByIdProjection + RunByIdTimeLine + RunByIdFilter
  const RunByIdTail: string := Nl + Trailer
  const RunByIdSql: string := RunByIdHead + "?" + RunByIdTail

  /** DELETE FROM runs WHERE id = ? */
  const DeleteHead: string := "DELETE FROM runs " + "WHERE id = "
  const DeleteSql: string := DeleteHead + "?"

  lemma MonsterDetailsHeadPlain()
    ensures '?' !in MonsterDetailsHead
  {
    assert '?' !in "SELECT * FROM " && '?' !in "monster WHERE " && '?' !in "name = ";
  }

  lemma InsertTextPlain()
    ensures '?' !in InsertHead && '?' !in InsertMiddle && '?' !in InsertTail
  {
    LayoutPlain();
    assert Plain("INSERT INTO runs (") && Plain(")") && Plain("VALUES (");
  }

  lemma RunByIdProjectionPlain()
    ensures Plain(RunByIdProjection)
  {
    LayoutPlain();
    SelectItemsPlain();
    PlayerItemsPlain();
    assert Plain("r.monster_id,");
  }

  lemma RunByIdCommentPlain()
    ensures Plain(" AS time, ") && Plain("-- Updated to ") && Plain("include seconds")
  {
  }

  lemma RunByIdTimeLinePlain()
    ensures Plain(RunByIdTimeLine)
  {
    LayoutPlain();
    TimeColumnPlain();
    RunByIdCommentPlain();
  }

  lemma RunByIdFilterPlain()
    ensures '?' !in RunByIdFilter
  {
    LayoutPlain();
    TailItemsPlain();
    FromRunsPlain();
    assert '?' !in "WHERE r.id = ";
  }

  lemma RunByIdHeadPlain()
    ensures '?' !in RunByIdHead
  {
    RunByIdProjectionPlain();
    RunByIdTimeLinePlain();
    RunByIdFilterPlain();
  }

  lemma UpdateTextPlain()
    ensures '?' !in UpdateHead && '?' !in UpdateMiddle && '?' !in UpdateTail
  {
    LayoutPlain();
    assert Plain("UPDATE runs") && Plain("SET ");
    assert '?' !in "WHERE id = ";
  }

  lemma DeleteHeadPlain()
    ensures '?' !in DeleteHead
  {
    assert '?' !in "DELETE FROM runs " && '?' !in "WHERE id = ";
  }

  /** A text with exactly one `?`, between two texts without one, has one placeholder. */
  lemma SinglePlaceholder(head: string, tail: string)
    requires '?' !in head && '?' !in tail
    ensures Placeholders(head + "?" + tail) == 1
  {
    CountAppend(head, "?", '?');
    CountAppend(head + "?", tail, '?');
  }

  /** getMonsterDetails: the monster name is the only parameter. */
  function GetMonsterDetails(monsterName: string): (st: Statement)
    ensures st.params == [monsterName]
    ensures Aligned(st)
  {
    MonsterDetailsHeadPlain();
    SinglePlaceholder(MonsterDetailsHead, "");
    assert MonsterDetailsHead + "?" + "" == MonsterDetailsSql;
    Statement(MonsterDetailsSql, [monsterName])
  }

  /** The column list of the INSERT holds no placeholder, its VALUES list seven. */
  lemma InsertSqlPlaceholders()
    ensures Placeholders(InsertSql) == |RunColumns|
  {
    InsertTextPlain();
    CountJoin(ColumnNames, ", ", '?');
    CountAllUniform(ColumnNames, '?', 0);
    CountJoin(ValueSlots, ", ", '?');
    CountAllUniform(ValueSlots, '?', 1);
    CountAppend5(InsertHead, Join(ColumnNames, ", "), InsertMiddle, Join(ValueSlots, ", "), InsertTail, '?');
  }


  /** insertRun: the seven fields, in the order of the INSERT's column list. */
  function InsertRun(run: Run): (st: Statement)
    ensures st.params == [run.game, run.monster_id, run.username, run.weapon, run.time, run.rules, run.device]
    ensures Aligned(st)
  {
    InsertSqlPlaceholders();
    Statement(InsertSql, [run.game, run.monster_id, run.username, run.weapon, run.time, run.rules, run.device])
  }

  /** Each "col = ?" assignment holds one placeholder. */
  lemma AssignmentsPlaceholders()
    ensures CountAll(Assignments, '?') == |RunColumns|
  {
    forall i | 0 <= i < |Assignments|
      ensures Count(Assignments[i], '?') == 1
    {
      CountAppend(ColumnName(RunColumns[i]), " = ?", '?');
    }
    CountAllUniform(Assignments, '?', 1);
  }

  /** Seven "col = ?" assignments, then the one placeholder of the id filter. */
  lemma UpdateSqlPlaceholders()
    ensures Placeholders(UpdateSql) == |RunColumns| + 1
  {
    AssignmentsPlaceholders();
    CountJoin(Assignments, ", ", '?');
    UpdateTextPlain();
    SinglePlaceholder(UpdateMiddle, UpdateTail);
    CountAppend(UpdateHead, Join(Assignments, ", "), '?');
    CountAppend(UpdateHead + Join(Assignments, ", "), UpdateMiddle + "?" + UpdateTail, '?');
  }

  /** updateRun: the seven fields in the order of the SET list, then the id. */
  function UpdateRun(id: string, run: Run): (st: Statement)
    ensures st.params == [run.game, run.monster_id, run.username, run.weapon, run.time, run.rules, run.device, id]
    ensures Aligned(st)
  {
    UpdateSqlPlaceholders();
    Statement(UpdateSql, [run.game, run.monster_id, run.username, run.weapon, run.time, run.rules, run.device, id])
  }

  /** getRunById: the id is the only parameter. */
  function GetRunById(id: string): (st: Statement)
    ensures st.params == [id]
    ensures Aligned(st)
  {
    RunByIdHeadPlain();
    SinglePlaceholder(RunByIdHead, RunByIdTail);
    Statement(RunByIdSql, [id])
  }

  /** deleteRun: the id is the only parameter. */
  function DeleteRun(id: string): (st: Statement)
    ensures st.params == [id]
    ensures Aligned(st)
  {
    DeleteHeadPlain();
    SinglePlaceholder(DeleteHead, "");
    assert DeleteHead + "?" + "" == DeleteSql;
    Statement(DeleteSql, [id])
  }

  /** The i-th parameter of the INSERT is the value of the i-th column it names. */
  lemma InsertBindsColumnsInOrder(run: Run)
    ensures |InsertRun(run).params| == |RunColumns| == |ColumnNames|
    ensures forall i | 0 <= i < |RunColumns| ::
      ColumnNames[i] == ColumnName(RunColumns[i]) &&
      InsertRun(run).params[i] == ColumnValue(run, RunColumns[i])
  {
  }

  /**
   The i-th parameter of the UPDATE is the value of the column its i-th
   assignment names; the id follows them, last.
   */
  lemma UpdateBindsColumnsThenId(id: string, run: Run)
    ensures UpdateRun(id, run).params == InsertRun(run).params + [id]
    ensures |UpdateRun(id, run).params| == |Assignments| + 1
    ensures forall i | 0 <= i < |RunColumns| ::
      Assignments[i] == ColumnName(RunColumns[i]) + " = ?" &&
      UpdateRun(id, run).params[i] == ColumnValue(run, RunColumns[i])
    ensures UpdateRun(id, run).params[|RunColumns|] == id
  {
  }

  /** No field is lost on the way to the store: the parameters determine the run. */
  lemma InsertRunInjective(r1: Run, r2: Run)
    requires InsertRun(r1).params == InsertRun(r2).params
    ensures r1 == r2
  {
    InsertBindsColumnsInOrder(r1);
    InsertBindsColumnsInOrder(r2);
    assert forall i | 0 <= i < |RunColumns| :: ColumnValue(r1, RunColumns[i]) == ColumnValue(r2, RunColumns[i]);
  }

  /*
   * getAllMonsters: the list query.
   */

  /** The fixed start of the list query: runs left-joined to their monster. */
  const ListProjection: string :=
    "SELECT" + Nl +
    Indent + "r.id," + Nl +
    Indent + "r.game," + Nl +
    Indent + "m.name AS monster," + Nl +
    Indent + "r.username," + Nl +
    Indent + "r.weapon," + Nl
  const ListTimeLine: string := Indent + TimeColumn + " AS time," + Nl
  const ListJoin: string :=
    Indent + "r.rules," + Nl +
    Indent + "r.device" + Nl +
    Margin + "FROM runs r" + Nl +
    Margin + "LEFT JOIN monster m " + "ON r.monster_id = " + "m.name"
  const ListBase: string := ListProjection + ListTimeLine + ListJoin

  /** The six filters, one per optional field the source tests. */
  datatype Filter = GameFilter | MonsterFilter | UsernameFilter | WeaponFilter | RulesFilter | DeviceFilter

  /** The order in which the source tests, and so emits, the filters. */
  const FilterOrder: seq<Filter> :=
    [GameFilter, MonsterFilter, UsernameFilter, WeaponFilter, RulesFilter, DeviceFilter]

  /** Position of a filter in `FilterOrder`. */
  function Rank(f: Filter): nat
  {
    match f
    case GameFilter => 0
    case MonsterFilter => 1
    case UsernameFilter => 2
    case WeaponFilter => 3
    case RulesFilter => 4
    case DeviceFilter => 5
  }

  /** The only rules value that turns the rules filter on. */
  const RulesSentinel: string := "TA"

  /** `v && v.length > 0` on a query-string value: present and non-empty. */
  predicate Filled(v: Option<string>)
  {
    v.Some? && |v.value| > 0
  }

  /** The filter's guard in the source. */
  predicate Active(c: Criteria, f: Filter)
  {
    match f
    case GameFilter => Filled(c.game)
    case MonsterFilter => Filled(c.monster)
    case UsernameFilter => Filled(c.username)
    case WeaponFilter => Filled(c.weapon)
    case RulesFilter => c.rules.Some? && c.rules.value == RulesSentinel
    case DeviceFilter => Filled(c.device)
  }

  const Equals: string := " = "
  const Like: string := " LIKE "

  /** The WHERE predicate a filter contributes: a column and a comparison. */
  function PredicateText(f: Filter): string
  {
    match f
    case GameFilter => "r.game" + Equals + "?"
    case MonsterFilter => "r.monster_id" + Like + "?"
    case UsernameFilter => "r.username" + Like + "?"
    case WeaponFilter => "r.weapon" + Equals + "?"
    case RulesFilter => "r.rules" + Equals + "\"TA\""
    case DeviceFilter => "r.device" + Equals + "?"
  }

  /**
   `'%' + v + '%'`: a LIKE pattern meant as "contains v". The source does not
   escape `%` or `_` inside `v`, and neither does this model.
   */
  function ContainsPattern(v: string): string
  {
    "%" + v + "%"
  }

  /** The parameters an active filter binds: none for the rules literal. */
  function Binding(c: Criteria, f: Filter): seq<string>
    requires Active(c, f)
  {
    match f
    case GameFilter => [c.game.value]
    case MonsterFilter => [ContainsPattern(c.monster.value)]
    case UsernameFilter => [ContainsPattern(c.username.value)]
    case WeaponFilter => [c.weapon.value]
    case RulesFilter => []
    case DeviceFilter => [c.device.value]
  }

  /** The filter, if active. */
  function Emitted(c: Criteria, f: Filter): seq<Filter>
  {
    if Active(c, f) then [f] else []
  }

  /** The filters of `fs` that are active under `c`, in their order in `fs`. */
  function Keep(fs: seq<Filter>, c: Criteria): (kept: seq<Filter>)
    ensures |kept| <= |fs|
    ensures forall i | 0 <= i < |kept| :: Active(c, kept[i])
  {
    if fs == [] then [] else Keep(fs[..|fs| - 1], c) + Emitted(c, fs[|fs| - 1])
  }

  /** The filters the list query applies, in emission order. */
  function ActiveFilters(c: Criteria): seq<Filter>
  {
    Keep(FilterOrder, c)
  }

  /** The predicates of `fs`, in order. */
  function Predicates(fs: seq<Filter>): (ps: seq<string>)
    ensures |ps| == |fs|
    ensures forall i | 0 <= i < |fs| :: ps[i] == PredicateText(fs[i])
  {
    if fs == [] then [] else Predicates(fs[..|fs| - 1]) + [PredicateText(fs[|fs| - 1])]
  }

  /** The parameters of `fs`, in order. */
  function Bindings(c: Criteria, fs: seq<Filter>): seq<string>
    requires forall i | 0 <= i < |fs| :: Active(c, fs[i])
  {
    if fs == [] then [] else Bindings(c, fs[..|fs| - 1]) + Binding(c, fs[|fs| - 1])
  }

  /** The predicate of `f`, if active. */
  function PredicateIf(c: Criteria, f: Filter): seq<string>
  {
    if Active(c, f) then [PredicateText(f)] else []
  }

  /** The parameters of `f`, if active. */
  function BindingIf(c: Criteria, f: Filter): seq<string>
  {
    if Active(c, f) then Binding(c, f) else []
  }

  /** " WHERE " and the predicates joined by " AND ", or nothing when there are none. */
  function WhereOf(preds: seq<string>): string
  {
    if preds == [] then "" else " WHERE " + Join(preds, " AND ")
  }

  /** The WHERE clause of the list query. */
  function WhereClause(c: Criteria): string
  {
    WhereOf(Predicates(ActiveFilters(c)))
  }

  /** `sort === 'ASC' ? 'ASC' : 'DESC'`. */
  function Direction(sort: string): string
  {
    if sort == "ASC" then "ASC" else "DESC"
  }

  /** The ORDER BY clause; a missing or empty `sort` adds nothing. */
  function OrderClause(sort: Option<string>): string
  {
    if Filled(sort) then " ORDER BY " + ("r.time " + Direction(sort.value)) else ""
  }

  /** The limit the query honours: only 1 to 5. */
  function EffectiveLimit(limit: Option<int>): Option<nat>
  {
    if limit.Some? && 0 < limit.value < 6 then Some(limit.value) else None
  }

  /** The LIMIT clause, or nothing. */
  function LimitClause(limit: Option<int>): string
  {
    match EffectiveLimit(limit)
    case Some(n) => " LIMIT " + Decimal(n)
    case None => ""
  }

  /** The statement getAllMonsters hands to the driver. */
  function ListQuery(c: Criteria): Statement
  {
    Statement(
      ListBase + WhereClause(c) + OrderClause(c.sort) + LimitClause(c.limit),
      Bindings(c, ActiveFilters(c)))
  }

  /**
   getAllMonsters: pushes one predicate per active filter, and one parameter
   per value-carrying one, onto local lists, then appends WHERE, ORDER BY and
   LIMIT to the SQL text.
   */
  method GetAllMonsters(c: Criteria) returns (st: Statement)
    ensures st == ListQuery(c)
    ensures Aligned(st)
  {
    var selectSql := ListBase;
    var whereStatements: seq<string> := [];
    var queryParameters: seq<string> := [];
    var orderByStatements: seq<string> := [];

    if Filled(c.game) {
      whereStatements := whereStatements + ["r.game = ?"];
      queryParameters := queryParameters + [c.game.value];
    }
    ghost var w1, p1 := whereStatements, queryParameters;
    if Filled(c.monster) {
      whereStatements := whereStatements + ["r.monster_id LIKE ?"];
      queryParameters := queryParameters + ["%" + c.monster.value + "%"];
    }
    ghost var w2, p2 := whereStatements, queryParameters;
    if Filled(c.username) {
      whereStatements := whereStatements + ["r.username LIKE ?"];
      queryParameters := queryParameters + ["%" + c.username.value + "%"];
    }
    ghost var w3, p3 := whereStatements, queryParameters;
    if Filled(c.weapon) {
      whereStatements := whereStatements + ["r.weapon = ?"];
      queryParameters := queryParameters + [c.weapon.value];
    }
    ghost var w4, p4 := whereStatements, queryParameters;
    if c.rules.Some? && c.rules.value == "TA" {
      whereStatements := whereStatements + ["r.rules = \"TA\""];
    }
    ghost var w5, p5 := whereStatements, queryParameters;
    if Filled(c.device) {
      whereStatements := whereStatements + ["r.device = ?"];
      queryParameters := queryParameters + [c.device.value];
    }

    ghost var baseSql := selectSql;
    if |whereStatements| > 0 {
      selectSql := selectSql + (" WHERE " + Join(whereStatements, " AND "));
    }
    ghost var whereSql := selectSql;
    if Filled(c.sort) {
      orderByStatements := orderByStatements + ["r.time " + (if c.sort.value == "ASC" then "ASC" else "DESC")];
    }
    if |orderByStatements| > 0 {
      selectSql := selectSql + (" ORDER BY " + Join(orderByStatements, ", "));
    }
    ghost var orderSql := selectSql;
    if c.limit.Some? && c.limit.value > 0 && c.limit.value < 6 {
      selectSql := selectSql + (" LIMIT " + Decimal(c.limit.value));
    }

    st := Statement(selectSql, queryParameters);
    ListQueryBuilt(c, w1, w2, w3, w4, w5, whereStatements, p1, p2, p3, p4, p5, queryParameters,
                   baseSql, whereSql, orderByStatements, orderSql, selectSql);
    ListQueryAligned(c);
  }

  /**
   What the method's steps build, each step stated as the source performs it,
   is the list query, and its placeholders match its parameters.
   */
  lemma ListQueryBuilt(c: Criteria,
                       w1: seq<string>, w2: seq<string>, w3: seq<string>,
                       w4: seq<string>, w5: seq<string>, w6: seq<string>,
                       p1: seq<string>, p2: seq<string>, p3: seq<string>,
                       p4: seq<string>, p5: seq<string>, p6: seq<string>,
                       baseSql: string, whereSql: string, obs: seq<string>, orderSql: string, sql: string)
    requires w1 == (if Filled(c.game) then [] + ["r.game = ?"] else [])
    requires p1 == (if Filled(c.game) then [] + [c.game.value] else [])
    requires w2 == (if Filled(c.monster) then w1 + ["r.monster_id LIKE ?"] else w1)
    requires p2 == (if Filled(c.monster) then p1 + ["%" + c.monster.value + "%"] else p1)
    requires w3 == (if Filled(c.username) then w2 + ["r.username LIKE ?"] else w2)
    requires p3 == (if Filled(c.username) then p2 + ["%" + c.username.value + "%"] else p2)
    requires w4 == (if Filled(c.weapon) then w3 + ["r.weapon = ?"] else w3)
    requires p4 == (if Filled(c.weapon) then p3 + [c.weapon.value] else p3)
    requires w5 == (if c.rules.Some? && c.rules.value == "TA" then w4 + ["r.rules = \"TA\""] else w4)
    requires p5 == p4
    requires w6 == (if Filled(c.device) then w5 + ["r.device = ?"] else w5)
    requires p6 == (if Filled(c.device) then p5 + [c.device.value] else p5)
    requires |w6| > 0 ==> whereSql == baseSql + (" WHERE " + Join(w6, " AND "))
    requires |w6| == 0 ==> whereSql == baseSql
    requires obs == (if Filled(c.sort) then [] + ["r.time " + (if c.sort.value == "ASC" then "ASC" else "DESC")] else [])
    requires orderSql == (if |obs| > 0 then whereSql + (" ORDER BY " + Join(obs, ", ")) else whereSql)
    requires sql == (if c.limit.Some? && c.limit.value > 0 && c.limit.value < 6
                     then orderSql + (" LIMIT " + Decimal(c.limit.value)) else orderSql)
    ensures sql == baseSql + WhereClause(c) + OrderClause(c.sort) + LimitClause(c.limit)
    ensures p6 == Bindings(c, ActiveFilters(c))
  {
    FilterListsClosed(c, w1, w2, w3, w4, w5, w6, p1, p2, p3, p4, p5, p6);
    WhereStep(c, w6, baseSql, whereSql);
    OrderStep(c.sort, obs, whereSql, orderSql);
    LimitStep(c.limit, orderSql, sql);
  }

  /** The predicate each `if` of the source pushes is that filter's text. */
  lemma PredicateLiterals()
    ensures "r.game = ?" == PredicateText(GameFilter)
    ensures "r.monster_id LIKE ?" == PredicateText(MonsterFilter)
    ensures "r.username LIKE ?" == PredicateText(UsernameFilter)
    ensures "r.weapon = ?" == PredicateText(WeaponFilter)
    ensures "r.rules = \"TA\"" == PredicateText(RulesFilter)
    ensures "r.device = ?" == PredicateText(DeviceFilter)
  {
  }

  /**
   The lists built filter by filter, in the order of the source's `if`s, are
   the predicates and parameters of the active filters.
   */
  lemma FilterListsClosed(c: Criteria,
                          w1: seq<string>, w2: seq<string>, w3: seq<string>,
                          w4: seq<string>, w5: seq<string>, w6: seq<string>,
                          p1: seq<string>, p2: seq<string>, p3: seq<string>,
                          p4: seq<string>, p5: seq<string>, p6: seq<string>)
    requires w1 == (if Filled(c.game) then [] + ["r.game = ?"] else [])
    requires p1 == (if Filled(c.game) then [] + [c.game.value] else [])
    requires w2 == (if Filled(c.monster) then w1 + ["r.monster_id LIKE ?"] else w1)
    requires p2 == (if Filled(c.monster) then p1 + ["%" + c.monster.value + "%"] else p1)
    requires w3 == (if Filled(c.username) then w2 + ["r.username LIKE ?"] else w2)
    requires p3 == (if Filled(c.username) then p2 + ["%" + c.username.value + "%"] else p2)
    requires w4 == (if Filled(c.weapon) then w3 + ["r.weapon = ?"] else w3)
    requires p4 == (if Filled(c.weapon) then p3 + [c.weapon.value] else p3)
    requires w5 == (if c.rules.Some? && c.rules.value == "TA" then w4 + ["r.rules = \"TA\""] else w4)
    requires p5 == p4
    requires w6 == (if Filled(c.device) then w5 + ["r.device = ?"] else w5)
    requires p6 == (if Filled(c.device) then p5 + [c.device.value] else p5)
    ensures w6 == Predicates(ActiveFilters(c))
    ensures p6 == Bindings(c, ActiveFilters(c))
  {
    PredicateLiterals();
    FilterStep(c, GameFilter, [], w1, [], p1);
    FilterStep(c, MonsterFilter, w1, w2, p1, p2);
    FilterStep(c, UsernameFilter, w2, w3, p2, p3);
    FilterStep(c, WeaponFilter, w3, w4, p3, p4);
    FilterStep(c, RulesFilter, w4, w5, p4, p5);
    FilterStep(c, DeviceFilter, w5, w6, p5, p6);
    var g, m, u := PredicateIf(c, GameFilter), PredicateIf(c, MonsterFilter), PredicateIf(c, UsernameFilter);
    var wp, r, d := PredicateIf(c, WeaponFilter), PredicateIf(c, RulesFilter), PredicateIf(c, DeviceFilter);
    assert w1 == g;
    assert w6 == g + m + u + wp + r + d;
    var g', m', u' := BindingIf(c, GameFilter), BindingIf(c, MonsterFilter), BindingIf(c, UsernameFilter);
    var wp', r', d' := BindingIf(c, WeaponFilter), BindingIf(c, RulesFilter), BindingIf(c, DeviceFilter);
    assert p1 == g';
    assert p6 == g' + m' + u' + wp' + r' + d';
    ListListsUnrolled(c);
  }

  /** One `if` of the source appends the filter's predicate and parameters when it is active. */
  lemma FilterStep(c: Criteria, f: Filter, w: seq<string>, w': seq<string>, p: seq<string>, p': seq<string>)
    requires w' == (if Active(c, f) then w + [PredicateText(f)] else w)
    requires p' == (if Active(c, f) then p + Binding(c, f) else p)
    ensures w' == w + PredicateIf(c, f) && p' == p + BindingIf(c, f)
  {
  }

  /** Appending the joined predicates, when there are any, appends the WHERE clause. */
  lemma WhereStep(c: Criteria, ws: seq<string>, before: string, after: string)
    requires ws == Predicates(ActiveFilters(c))
    requires after == (if |ws| > 0 then before + (" WHERE " + Join(ws, " AND ")) else before)
    ensures after == before + WhereClause(c)
  {
    if |ws| == 0 {
      assert before + "" == before;
    }
  }

  /** The ORDER BY step of the source appends the ORDER BY clause. */
  lemma OrderStep(sort: Option<string>, obs: seq<string>, before: string, after: string)
    requires obs == (if Filled(sort) then [] + ["r.time " + (if sort.value == "ASC" then "ASC" else "DESC")] else [])
    requires after == (if |obs| > 0 then before + (" ORDER BY " + Join(obs, ", ")) else before)
    ensures after == before + OrderClause(sort)
  {
    if Filled(sort) {
      assert obs == ["r.time " + Direction(sort.value)];
      JoinSingle(obs[0], ", ");
    } else {
      assert before + "" == before;
    }
  }

  /** The LIMIT step of the source appends the LIMIT clause. */
  lemma LimitStep(limit: Option<int>, before: string, after: string)
    requires after == (if limit.Some? && limit.value > 0 && limit.value < 6
                       then before + (" LIMIT " + Decimal(limit.value)) else before)
    ensures after == before + LimitClause(limit)
  {
    if EffectiveLimit(limit).None? {
      assert before + "" == before;
    }
  }

  /*
   * Facts about the fixed text of the list query.
   */

  lemma ListProjectionPlain()
    ensures Plain(ListProjection)
  {
    LayoutPlain();
    SelectItemsPlain();
    PlayerItemsPlain();
    assert Plain("m.name AS monster,");
  }

  lemma ListTimeLinePlain()
    ensures Plain(ListTimeLine)
  {
    LayoutPlain();
    TimeColumnPlain();
    assert Plain(" AS time,");
  }

  lemma JoinClausePlain()
    ensures Plain("LEFT JOIN monster m ") && Plain("m.name")
  {
  }

  lemma JoinConditionPlain()
    ensures Plain("ON r.monster_id = ")
  {
  }

  lemma ListJoinPlain()
    ensures Plain(ListJoin)
  {
    LayoutPlain();
    TailItemsPlain();
    FromRunsPlain();
    JoinClausePlain();
    JoinConditionPlain();
  }

  /** The base SELECT has no placeholder and no W (so no WHERE). */
  lemma ListBasePlain()
    ensures Plain(ListBase)
  {
    ListProjectionPlain();
    ListTimeLinePlain();
    ListJoinPlain();
  }

  /** A column followed by a comparison against one placeholder. */
  /** `column op ?`: a column, a comparison operator and one placeholder. */
  lemma ComparisonPlaceholder(column: string, op: string)
    requires Plain(column) && Plain(op)
    ensures Placeholders(column + op + "?") == 1 && 'W' !in column + op + "?"
  {
    CountAppend(column, op, '?');
    CountAppend(column + op, "?", '?');
    assert "?"[1..] == [];
  }


  /** A predicate has one placeholder per parameter it binds, and no W. */
  lemma PredicatePlaceholders(c: Criteria, f: Filter)
    requires Active(c, f)
    ensures Placeholders(PredicateText(f)) == |Binding(c, f)|
    ensures 'W' !in PredicateText(f)
  {
    match f
    case GameFilter => ComparisonPlaceholder("r.game", Equals);
    case MonsterFilter => ComparisonPlaceholder("r.monster_id", Like);
    case UsernameFilter => ComparisonPlaceholder("r.username", Like);
    case WeaponFilter => ComparisonPlaceholder("r.weapon", Equals);
    case RulesFilter => assert Plain(PredicateText(f));
    case DeviceFilter => ComparisonPlaceholder("r.device", Equals);
  }

  /** Across a run of active filters, placeholders match parameters one for one. */
  lemma {:induction false} PredicatesPlaceholders(c: Criteria, fs: seq<Filter>)
    requires forall i | 0 <= i < |fs| :: Active(c, fs[i])
    ensures CountAll(Predicates(fs), '?') == |Bindings(c, fs)|
    ensures CountAll(Predicates(fs), 'W') == 0
  {
    if fs != [] {
      var init, last := fs[..|fs| - 1], fs[|fs| - 1];
      PredicatePlaceholders(c, last);
      PredicatesPlaceholders(c, init);
      CountAllSnoc(Predicates(init), PredicateText(last), '?');
      CountAllSnoc(Predicates(init), PredicateText(last), 'W');
    }
  }

  /** ORDER BY text holds neither a placeholder nor a W. */
  lemma OrderClausePlain(sort: Option<string>)
    ensures '?' !in OrderClause(sort) && 'W' !in OrderClause(sort)
  {
  }

  /** LIMIT text holds neither a placeholder nor a W. */
  lemma LimitClausePlain(limit: Option<int>)
    ensures '?' !in LimitClause(limit) && 'W' !in LimitClause(limit)
  {
    if EffectiveLimit(limit).Some? {
      var d := Decimal(EffectiveLimit(limit).value);
      assert " LIMIT " + d == LimitClause(limit);
      assert forall k | 0 <= k < |d| :: d[k] != '?' && d[k] != 'W';
    }
  }

  /** Keep on a list extended by one filter. */
  lemma KeepSnoc(fs: seq<Filter>, f: Filter, c: Criteria)
    ensures Keep(fs + [f], c) == Keep(fs, c) + Emitted(c, f)
  {
    assert (fs + [f])[..|fs|] == fs;
  }

  /** Keep, unfolded over the six filters of `FilterOrder`. */
  lemma ListFiltersUnrolled(c: Criteria)
    ensures ActiveFilters(c) ==
      Emitted(c, GameFilter) + Emitted(c, MonsterFilter) + Emitted(c, UsernameFilter) +
      Emitted(c, WeaponFilter) + Emitted(c, RulesFilter) + Emitted(c, DeviceFilter)
  {
    var s0: seq<Filter> := [];
    var s1 := s0 + [GameFilter];
    var s2 := s1 + [MonsterFilter];
    var s3 := s2 + [UsernameFilter];
    var s4 := s3 + [WeaponFilter];
    var s5 := s4 + [RulesFilter];
    var s6 := s5 + [DeviceFilter];
    assert s6 == FilterOrder;
    assert Keep(s0, c) == [];
    KeepSnoc(s0, GameFilter, c);
    KeepSnoc(s1, MonsterFilter, c);
    KeepSnoc(s2, UsernameFilter, c);
    KeepSnoc(s3, WeaponFilter, c);
    KeepSnoc(s4, RulesFilter, c);
    KeepSnoc(s5, DeviceFilter, c);
  }

  lemma {:induction false} PredicatesAppend(a: seq<Filter>, b: seq<Filter>)
    ensures Predicates(a + b) == Predicates(a) + Predicates(b)
  {
  }

  lemma {:induction false} BindingsAppend(c: Criteria, a: seq<Filter>, b: seq<Filter>)
    requires forall i | 0 <= i < |a| :: Active(c, a[i])
    requires forall i | 0 <= i < |b| :: Active(c, b[i])
    ensures forall i | 0 <= i < |a + b| :: Active(c, (a + b)[i])
    ensures Bindings(c, a + b) == Bindings(c, a) + Bindings(c, b)
  {
    if b == [] {
      assert a + b == a;
    } else {
      var init := b[..|b| - 1];
      assert (a + b)[..|a + b| - 1] == a + init;
      BindingsAppend(c, a, init);
    }
  }

  lemma EmittedLists(c: Criteria, f: Filter)
    ensures forall i | 0 <= i < |Emitted(c, f)| :: Active(c, Emitted(c, f)[i])
    ensures Predicates(Emitted(c, f)) == PredicateIf(c, f)
    ensures Bindings(c, Emitted(c, f)) == BindingIf(c, f)
  {
    if Active(c, f) {
      assert [f][..0] == [];
    }
  }

  /**
   The predicate and parameter lists, filter by filter in the fixed order: an
   inactive filter contributes neither a predicate nor a parameter.
   */
  lemma ListListsUnrolled(c: Criteria)
    ensures Predicates(ActiveFilters(c)) ==
      PredicateIf(c, GameFilter) + PredicateIf(c, MonsterFilter) + PredicateIf(c, UsernameFilter) +
      PredicateIf(c, WeaponFilter) + PredicateIf(c, RulesFilter) + PredicateIf(c, DeviceFilter)
    ensures Bindings(c, ActiveFilters(c)) ==
      BindingIf(c, GameFilter) + BindingIf(c, MonsterFilter) + BindingIf(c, UsernameFilter) +
      BindingIf(c, WeaponFilter) + BindingIf(c, RulesFilter) + BindingIf(c, DeviceFilter)
  {
    ListFiltersUnrolled(c);
    var e1, e2, e3 := Emitted(c, GameFilter), Emitted(c, MonsterFilter), Emitted(c, UsernameFilter);
    var e4, e5, e6 := Emitted(c, WeaponFilter), Emitted(c, RulesFilter), Emitted(c, DeviceFilter);
    EmittedLists(c, GameFilter);
    EmittedLists(c, MonsterFilter);
    EmittedLists(c, UsernameFilter);
    EmittedLists(c, WeaponFilter);
    EmittedLists(c, RulesFilter);
    EmittedLists(c, DeviceFilter);
    PredicatesAppend(e1, e2);
    PredicatesAppend(e1 + e2, e3);
    PredicatesAppend(e1 + e2 + e3, e4);
    PredicatesAppend(e1 + e2 + e3 + e4, e5);
    PredicatesAppend(e1 + e2 + e3 + e4 + e5, e6);
    BindingsAppend(c, e1, e2);
    BindingsAppend(c, e1 + e2, e3);
    BindingsAppend(c, e1 + e2 + e3, e4);
    BindingsAppend(c, e1 + e2 + e3 + e4, e5);
    BindingsAppend(c, e1 + e2 + e3 + e4 + e5, e6);
  }

  /**
   The WHERE clause holds one placeholder per parameter, and one W (that of
   WHERE itself) exactly when some filter is active.
   */
  lemma WhereClauseCounts(c: Criteria)
    ensures Placeholders(WhereClause(c)) == |Bindings(c, ActiveFilters(c))|
    ensures Count(WhereClause(c), 'W') == if ActiveFilters(c) == [] then 0 else 1
  {
    var fs := ActiveFilters(c);
    PredicatesPlaceholders(c, fs);
    WhereOfCounts(Predicates(fs));
  }

  /** " WHERE " and " AND " add one W and no placeholder to the joined predicates. */
  lemma WhereOfCounts(preds: seq<string>)
    ensures Count(WhereOf(preds), '?') == CountAll(preds, '?')
    ensures Count(WhereOf(preds), 'W') == CountAll(preds, 'W') + (if preds == [] then 0 else 1)
  {
    if preds != [] {
      var j := Join(preds, " AND ");
      assert Plain(" AND ");
      CountJoin(preds, " AND ", '?');
      CountJoin(preds, " AND ", 'W');
      WhereKeywordCounts();
      CountAppend(" WHERE ", j, '?');
      CountAppend(" WHERE ", j, 'W');
    }
  }

  /** The WHERE keyword holds one W and no placeholder. */
  lemma WhereKeywordCounts()
    ensures Count(" WHERE ", '?') == 0 && Count(" WHERE ", 'W') == 1
  {
    assert " WHERE " == " " + "W" + "HERE ";
    assert Plain(" ") && Plain("HERE ");
    CountAppend(" ", "W", 'W');
    CountAppend(" " + "W", "HERE ", 'W');
    assert "W"[1..] == [];
  }


  /** Every placeholder of the list query has exactly one parameter. */
  lemma ListQueryAligned(c: Criteria)
    ensures Aligned(ListQuery(c))
  {
    ListBasePlain();
    OrderClausePlain(c.sort);
    LimitClausePlain(c.limit);
    WhereClauseCounts(c);
    AlignedParts(ListBase, WhereClause(c), OrderClause(c.sort), LimitClause(c.limit),
                 Bindings(c, ActiveFilters(c)));
  }

  /** Fixed text around a clause whose placeholders match the parameters keeps them matched. */
  lemma AlignedParts(base: string, w: string, o: string, l: string, params: seq<string>)
    requires '?' !in base && '?' !in o && '?' !in l
    requires Placeholders(w) == |params|
    ensures Aligned(Statement(base + w + o + l, params))
  {
    CountAppend4(base, w, o, l, '?');
  }
}
