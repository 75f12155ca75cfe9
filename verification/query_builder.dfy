/**
 * The fluent SQL builder of `server/anon/Database/Connection.php`
 * (`Anon_Database_QueryBuilder`) and the parameter binding of
 * `Anon_Database_Connection::prepare`. The setters record the query's parts;
 * `build` serialises them into an SQL text with `?` placeholders, the
 * parameters in placeholder order, and the mysqli type string.
 */
module QueryBuilder {
  import opened Common

  /** A PHP value bound to a placeholder; floats are kept as their text. */
  datatype SqlValue = SInt(i: int) | SFloat(text: string) | SStr(s: string) | SBool(b: bool) | SNull

  /** The value slot of a `where` entry: one value, or an array of them (`whereIn`). */
  datatype Operand = Scalar(v: SqlValue) | List(vs: seq<SqlValue>)

  /** `$type`. */
  datatype QueryKind = Select | Insert | Update | Delete | Count | Exists

  /** One `[$col, $op, $val]` entry of `$where`. */
  datatype Condition = Condition(column: string, op: string, operand: Operand)

  /** One `[$table, $on, $type]` entry of `$joins`. */
  datatype JoinClause = JoinClause(table: string, on: string, joinType: string)

  /** One `[$col, $dir]` entry of `$order`. */
  datatype Order = Order(column: string, direction: string)

  /** The argument of `select`: an array of columns, or one column. */
  datatype ColumnArg = Columns(names: seq<string>) | Column(name: string)

  /** What `build` returns: `[$sql, $p, $ty]`. */
  datatype Built = Built(sql: string, params: seq<Operand>, types: string)

  /** Every field of a builder. */
  datatype QueryState = QueryState(
    table: string, kind: QueryKind, columns: seq<string>, data: seq<(string, SqlValue)>,
    wheres: seq<Condition>, joins: seq<JoinClause>, order: seq<Order>, limit: Option<int>, offset: Option<int>)

  // ---------------------------------------------------------------------------
  // The serialisation `build` performs
  // ---------------------------------------------------------------------------

  /** `t($v)`: `i` for an integer, `d` for a float, `s` for anything else. */
  function TypeCode(o: Operand): (c: char)
    ensures c in {'i', 'd', 's'}
    ensures c == 'i' <==> o.Scalar? && o.v.SInt?
    ensures c == 'd' <==> o.Scalar? && o.v.SFloat?
  {
    if o.Scalar? && o.v.SInt? then 'i'
    else if o.Scalar? && o.v.SFloat? then 'd'
    else 's'
  }

  /** `f` applied to each element, built up from the end as the loops of `build` do. */
  function MapSeq<A, B>(f: A -> B, s: seq<A>): (r: seq<B>)
    ensures |r| == |s| && forall i :: 0 <= i < |s| ==> r[i] == f(s[i])
    decreases |s|
  {
    if |s| == 0 then [] else MapSeq(f, s[..|s| - 1]) + [f(s[|s| - 1])]
  }

  lemma MapSeqSnoc<A, B>(f: A -> B, s: seq<A>, x: A)
    ensures MapSeq(f, s + [x]) == MapSeq(f, s) + [f(x)]
  {
    assert (s + [x])[..|s|] == s;
  }

  /** The type string for a run of parameters: one code each, appended as each value is bound. */
  function TypeString(ps: seq<Operand>): (r: string)
    ensures |r| == |ps|
    decreases |ps|
  {
    if |ps| == 0 then "" else TypeString(ps[..|ps| - 1]) + [TypeCode(ps[|ps| - 1])]
  }

  lemma TypeStringSnoc(ps: seq<Operand>, x: Operand)
    ensures TypeString(ps + [x]) == TypeString(ps) + [TypeCode(x)]
  {
    assert (ps + [x])[..|ps|] == ps;
  }

  lemma {:induction false} TypeStringAppend(a: seq<Operand>, b: seq<Operand>)
    ensures TypeString(a + b) == TypeString(a) + TypeString(b)
    decreases |b|
  {
    if |b| == 0 {
      assert a + b == a;
    } else {
      var init := b[..|b| - 1];
      TypeStringAppend(a, init);
      assert a + b == (a + init) + [b[|b| - 1]];
      TypeStringSnoc(a + init, b[|b| - 1]);
      TypeStringSnoc(init, b[|b| - 1]);
    }
  }

  /** The code at each position is the code of the parameter there. */
  lemma {:induction false} TypeStringAt(ps: seq<Operand>, i: nat)
    requires i < |ps|
    ensures TypeString(ps)[i] == TypeCode(ps[i])
    decreases |ps|
  {
    if i < |ps| - 1 {
      TypeStringAt(ps[..|ps| - 1], i);
    }
  }

  /** `implode(',', array_fill(0, $n, '?'))`. */
  function Placeholders(n: nat): string {
    Join(seq(n, _ => "?"), ",")
  }

  function AsOperand(v: SqlValue): Operand {
    Scalar(v)
  }

  function DataKey(e: (string, SqlValue)): string {
    e.0
  }

  function DataValue(e: (string, SqlValue)): Operand {
    Scalar(e.1)
  }

  /** `"$k = ?"` for one column of an update. */
  function SetClause(e: (string, SqlValue)): string {
    e.0 + " = ?"
  }

  /** The statement up to the joins, per query kind. */
  function HeadSql(s: QueryState): string {
    match s.kind
    case Select => "SELECT " + Join(s.columns, ",") + " FROM " + s.table
    case Count => "SELECT COUNT(*) as count FROM " + s.table
    case Exists => "SELECT 1 FROM " + s.table
    case Insert =>
      "INSERT INTO " + s.table + " (" + Join(MapSeq(DataKey, s.data), ",") + ") VALUES (" + Placeholders(|s.data|) + ")"
    case Update => "UPDATE " + s.table + " SET " + Join(MapSeq(SetClause, s.data), ",")
    case Delete => "DELETE FROM " + s.table
  }

  /** Insert and update bind the data values, in data order. */
  function HeadParams(s: QueryState): seq<Operand> {
    if s.kind == Insert || s.kind == Update then MapSeq(DataValue, s.data) else []
  }

  function JoinSql(j: JoinClause): string {
    " " + j.joinType + " JOIN " + j.table + " ON " + j.on
  }

  function JoinsSql(joins: seq<JoinClause>): string
    decreases |joins|
  {
    if |joins| == 0 then "" else JoinsSql(joins[..|joins| - 1]) + JoinSql(joins[|joins| - 1])
  }

  /**
   * One WHERE term: `IS NULL`/`IS NOT NULL` entries take no placeholder, an
   * `IN` with an array takes one per element, anything else one.
   */
  function ConditionSql(c: Condition): string {
    if c.op == "IS NULL" || c.op == "IS NOT NULL" then c.column + " " + c.op
    else if c.op == "IN" && c.operand.List? then c.column + " IN (" + Placeholders(|c.operand.vs|) + ")"
    else c.column + " " + c.op + " ?"
  }

  function ConditionParams(c: Condition): seq<Operand> {
    if c.op == "IS NULL" || c.op == "IS NOT NULL" then []
    else if c.op == "IN" && c.operand.List? then MapSeq(AsOperand, c.operand.vs)
    else [c.operand]
  }

  function WhereParams(cs: seq<Condition>): seq<Operand>
    decreases |cs|
  {
    if |cs| == 0 then [] else WhereParams(cs[..|cs| - 1]) + ConditionParams(cs[|cs| - 1])
  }

  lemma WhereParamsSnoc(cs: seq<Condition>, c: Condition)
    ensures WhereParams(cs + [c]) == WhereParams(cs) + ConditionParams(c)
  {
    assert (cs + [c])[..|cs|] == cs;
  }

  /** One more pass of the ORDER BY loop extends the items by the next one. */
  lemma OrderStep(order: seq<Order>, i: nat)
    requires i < |order|
    ensures MapSeq(OrderItem, order[..i + 1]) == MapSeq(OrderItem, order[..i]) + [OrderItem(order[i])]
  {
    assert order[..i + 1] == order[..i] + [order[i]];
    MapSeqSnoc(OrderItem, order[..i], order[i]);
  }

  /** One more pass of the WHERE loop extends both the terms and the parameters. */
  lemma WhereStep(cs: seq<Condition>, i: nat)
    requires i < |cs|
    ensures MapSeq(ConditionSql, cs[..i + 1]) == MapSeq(ConditionSql, cs[..i]) + [ConditionSql(cs[i])]
    ensures WhereParams(cs[..i + 1]) == WhereParams(cs[..i]) + ConditionParams(cs[i])
  {
    assert cs[..i + 1] == cs[..i] + [cs[i]];
    MapSeqSnoc(ConditionSql, cs[..i], cs[i]);
    WhereParamsSnoc(cs[..i], cs[i]);
  }

  /** The WHERE clause: its terms joined by ` AND ` in call order, or nothing. */
  function WhereSql(cs: seq<Condition>): string {
    if |cs| == 0 then "" else " WHERE " + Join(MapSeq(ConditionSql, cs), " AND ")
  }

  predicate Selects(kind: QueryKind) {
    kind == Select || kind == Exists
  }

  function OrderItem(o: Order): string {
    o.column + " " + o.direction
  }

  function OrderSql(kind: QueryKind, order: seq<Order>): string {
    if Selects(kind) && |order| > 0 then " ORDER BY " + Join(MapSeq(OrderItem, order), ", ") else ""
  }

  function LimitSql(kind: QueryKind, limit: Option<int>, offset: Option<int>): string {
    if Selects(kind) && limit.Some? then " LIMIT ?" + (if offset.Some? then " OFFSET ?" else "") else ""
  }

  function LimitParams(kind: QueryKind, limit: Option<int>, offset: Option<int>): seq<Operand> {
    if Selects(kind) && limit.Some? then
      [Scalar(SInt(limit.value))] + (if offset.Some? then [Scalar(SInt(offset.value))] else [])
    else []
  }

  /** What `build` returns for a builder in state `s`. */
  function BuildSpec(s: QueryState): (r: Built)
    ensures r.types == TypeString(r.params)
  {
    var params := HeadParams(s) + WhereParams(s.wheres) + LimitParams(s.kind, s.limit, s.offset);
    Built(HeadSql(s) + JoinsSql(s.joins) + WhereSql(s.wheres) + OrderSql(s.kind, s.order)
            + LimitSql(s.kind, s.limit, s.offset),
          params, TypeString(params))
  }

  // ---------------------------------------------------------------------------
  // Properties of the serialisation
  // ---------------------------------------------------------------------------

  /** Only `select` and `exists` get ORDER BY and LIMIT; the other kinds end after WHERE and bind no limit. */
  lemma NonSelectHasNoOrderOrLimit(s: QueryState)
    requires !Selects(s.kind)
    ensures BuildSpec(s).sql == HeadSql(s) + JoinsSql(s.joins) + WhereSql(s.wheres)
    ensures BuildSpec(s).params == HeadParams(s) + WhereParams(s.wheres)
  {
    assert HeadSql(s) + JoinsSql(s.joins) + WhereSql(s.wheres) + "" + "" == HeadSql(s) + JoinsSql(s.joins) + WhereSql(s.wheres);
    assert HeadParams(s) + WhereParams(s.wheres) + [] == HeadParams(s) + WhereParams(s.wheres);
  }

  /** An offset without a limit is dropped; with a limit, LIMIT and OFFSET bind the two integers last. */
  lemma OffsetNeedsLimit(kind: QueryKind, limit: Option<int>, offset: int)
    ensures limit.None? ==> LimitSql(kind, limit, Some(offset)) == "" && LimitParams(kind, limit, Some(offset)) == []
    ensures Selects(kind) && limit.Some? ==>
              LimitParams(kind, limit, Some(offset)) == [Scalar(SInt(limit.value)), Scalar(SInt(offset))] &&
              TypeString(LimitParams(kind, limit, Some(offset))) == "ii"
  {
  }

  /** An insert binds its data values first, in data order, with their type codes. */
  lemma InsertBindsDataFirst(s: QueryState)
    requires s.kind == Insert
    ensures |BuildSpec(s).params| >= |s.data|
    ensures forall i :: 0 <= i < |s.data| ==>
              BuildSpec(s).params[i] == Scalar(s.data[i].1) && BuildSpec(s).types[i] == TypeCode(Scalar(s.data[i].1))
  {
    forall i | 0 <= i < |s.data|
      ensures BuildSpec(s).types[i] == TypeCode(Scalar(s.data[i].1))
    {
      TypeStringAt(BuildSpec(s).params, i);
    }
  }

  /** The number of `?` in a text. */
  function Marks(t: string): nat
    decreases |t|
  {
    if |t| == 0 then 0 else (if t[0] == '?' then 1 else 0) + Marks(t[1..])
  }

  lemma {:induction false} MarksCat(a: string, b: string)
    ensures Marks(a + b) == Marks(a) + Marks(b)
    decreases |a|
  {
    if |a| == 0 {
      assert a + b == b;
    } else {
      assert (a + b)[1..] == a[1..] + b;
      MarksCat(a[1..], b);
    }
  }

  lemma {:induction false} NoMarks(t: string)
    requires '?' !in t
    ensures Marks(t) == 0
    decreases |t|
  {
    if |t| > 0 {
      assert t[1..] <= t[1..];
      assert forall k :: 0 <= k < |t[1..]| ==> t[1..][k] == t[k + 1];
      NoMarks(t[1..]);
    }
  }

  // The fixed SQL text `build` emits: which pieces carry a placeholder. One
  // lemma per piece keeps the unfolding of `Marks` on each literal out of the
  // proofs that use it.

  lemma CommaMarks() ensures Marks(",") == 0 { NoMarks(","); }
  lemma CommaSpaceMarks() ensures Marks(", ") == 0 { NoMarks(", "); }
  lemma SpaceMarks() ensures Marks(" ") == 0 { NoMarks(" "); }
  lemma SelectMarks() ensures Marks("SELECT ") == 0 { NoMarks("SELECT "); }
  lemma FromMarks() ensures Marks(" FROM ") == 0 { NoMarks(" FROM "); }
  lemma InsertIntoMarks() ensures Marks("INSERT INTO ") == 0 { NoMarks("INSERT INTO "); }
  lemma OpenParenMarks() ensures Marks(" (") == 0 { NoMarks(" ("); }
  lemma ValuesMarks() ensures Marks(") VALUES (") == 0 { NoMarks(") VALUES ("); }
  lemma CloseParenMarks() ensures Marks(")") == 0 { NoMarks(")"); }
  lemma EqualsMarks() ensures Marks(" = ") == 0 { NoMarks(" = "); }
  lemma UpdateMarks() ensures Marks("UPDATE ") == 0 { NoMarks("UPDATE "); }
  lemma SetMarks() ensures Marks(" SET ") == 0 { NoMarks(" SET "); }
  lemma JoinMarksKw() ensures Marks(" JOIN ") == 0 { NoMarks(" JOIN "); }
  lemma OnMarks() ensures Marks(" ON ") == 0 { NoMarks(" ON "); }
  lemma InMarks() ensures Marks(" IN (") == 0 { NoMarks(" IN ("); }
  lemma AndMarks() ensures Marks(" AND ") == 0 { NoMarks(" AND "); }
  lemma WhereMarksKw() ensures Marks(" WHERE ") == 0 { NoMarks(" WHERE "); }
  lemma OrderByMarks() ensures Marks(" ORDER BY ") == 0 { NoMarks(" ORDER BY "); }
  lemma SelectCountMarks() ensures Marks("SELECT COUNT(*) as count FROM ") == 0 { NoMarks("SELECT COUNT(*) as count FROM "); }
  lemma DeleteFromMarks() ensures Marks("DELETE FROM ") == 0 { NoMarks("DELETE FROM "); }
  lemma SelectOneMarks() ensures Marks("SELECT 1 FROM ") == 0 { NoMarks("SELECT 1 FROM "); }
  lemma PlaceholderMarks() ensures Marks(" ?") == 1 { }
  lemma LimitOffsetMarks() ensures Marks(" LIMIT ?") == 1 && Marks(" OFFSET ?") == 1 { }

  /** `?` occurrences of the parts, summed. */
  function SumMarks(parts: seq<string>): nat
    decreases |parts|
  {
    if |parts| == 0 then 0 else Marks(parts[0]) + SumMarks(parts[1..])
  }

  lemma {:induction false} JoinMarks(parts: seq<string>, sep: string)
    requires Marks(sep) == 0
    ensures Marks(Join(parts, sep)) == SumMarks(parts)
    decreases |parts|
  {
    if |parts| > 1 {
      JoinMarks(parts[1..], sep);
      MarksCat(parts[0] + sep, Join(parts[1..], sep));
      MarksCat(parts[0], sep);
    } else if |parts| == 1 {
      assert SumMarks(parts[1..]) == 0;
    }
  }

  /** Parts that each carry `k` marks sum to `k` per part. */
  lemma {:induction false} SumMarksUniform(parts: seq<string>, k: nat)
    requires forall i :: 0 <= i < |parts| ==> Marks(parts[i]) == k
    ensures SumMarks(parts) == k * |parts|
    decreases |parts|
  {
    if |parts| > 0 {
      SumMarksUniform(parts[1..], k);
    }
  }

  lemma {:induction false} SumMarksSnoc(parts: seq<string>, x: string)
    ensures SumMarks(parts + [x]) == SumMarks(parts) + Marks(x)
    decreases |parts|
  {
    if |parts| == 0 {
      assert parts + [x] == [x];
      assert [x][1..] == [];
    } else {
      assert (parts + [x])[1..] == parts[1..] + [x];
      SumMarksSnoc(parts[1..], x);
    }
  }

  lemma PlaceholdersMarks(n: nat)
    ensures Marks(Placeholders(n)) == n
  {
    var parts := seq(n, _ => "?");
    CommaMarks();
    JoinMarks(parts, ",");
    forall i | 0 <= i < n ensures Marks(parts[i]) == 1 {
      assert parts[i] == "?";
    }
    SumMarksUniform(parts, 1);
  }

  /** Identifiers without `?` joined by `sep` carry no marks. */
  lemma NoMarksJoined(parts: seq<string>, sep: string)
    requires Marks(sep) == 0 && forall i :: 0 <= i < |parts| ==> '?' !in parts[i]
    ensures Marks(Join(parts, sep)) == 0
  {
    JoinMarks(parts, sep);
    forall i | 0 <= i < |parts| ensures Marks(parts[i]) == 0 {
      NoMarks(parts[i]);
    }
    SumMarksUniform(parts, 0);
  }

  /** No identifier, operator or join text of the builder contains `?`. */
  predicate NoQuestionMarks(s: QueryState) {
    '?' !in s.table &&
    (forall i :: 0 <= i < |s.columns| ==> '?' !in s.columns[i]) &&
    (forall i :: 0 <= i < |s.data| ==> '?' !in s.data[i].0) &&
    (forall i :: 0 <= i < |s.wheres| ==> '?' !in s.wheres[i].column && '?' !in s.wheres[i].op) &&
    (forall i :: 0 <= i < |s.joins| ==> '?' !in s.joins[i].table && '?' !in s.joins[i].on && '?' !in s.joins[i].joinType) &&
    (forall i :: 0 <= i < |s.order| ==> '?' !in s.order[i].column && '?' !in s.order[i].direction)
  }

  lemma SelectHeadMarks(columns: seq<string>, table: string)
    requires '?' !in table && forall i :: 0 <= i < |columns| ==> '?' !in columns[i]
    ensures Marks("SELECT " + Join(columns, ",") + " FROM " + table) == 0
  {
    CommaMarks();
    SelectMarks();
    FromMarks();
    NoMarksJoined(columns, ",");
    NoMarks(table);
    MarksCat("SELECT " + Join(columns, ",") + " FROM ", table);
    MarksCat("SELECT " + Join(columns, ","), " FROM ");
    MarksCat("SELECT ", Join(columns, ","));
  }

  /** The marks of seven pieces, of which only the sixth may carry any. */
  lemma SevenPieceMarks(a: string, b: string, c: string, d: string, e: string, f: string, g: string)
    requires Marks(a) == 0 && Marks(b) == 0 && Marks(c) == 0 && Marks(d) == 0 && Marks(e) == 0 && Marks(g) == 0
    ensures Marks(a + b + c + d + e + f + g) == Marks(f)
  {
    MarksCat(a + b + c + d + e + f, g);
    MarksCat(a + b + c + d + e, f);
    MarksCat(a + b + c + d, e);
    MarksCat(a + b + c, d);
    MarksCat(a + b, c);
    MarksCat(a, b);
  }

  lemma InsertHeadMarks(data: seq<(string, SqlValue)>, table: string)
    requires '?' !in table && forall i :: 0 <= i < |data| ==> '?' !in data[i].0
    ensures Marks("INSERT INTO " + table + " (" + Join(MapSeq(DataKey, data), ",") + ") VALUES ("
                  + Placeholders(|data|) + ")") == |data|
  {
    CommaMarks();
    InsertIntoMarks();
    OpenParenMarks();
    ValuesMarks();
    CloseParenMarks();
    NoMarksJoined(MapSeq(DataKey, data), ",");
    PlaceholdersMarks(|data|);
    NoMarks(table);
    SevenPieceMarks("INSERT INTO ", table, " (", Join(MapSeq(DataKey, data), ","), ") VALUES (",
                    Placeholders(|data|), ")");
  }

  lemma UpdateHeadMarks(data: seq<(string, SqlValue)>, table: string)
    requires '?' !in table && forall i :: 0 <= i < |data| ==> '?' !in data[i].0
    ensures Marks("UPDATE " + table + " SET " + Join(MapSeq(SetClause, data), ",")) == |data|
  {
    var sets := MapSeq(SetClause, data);
    CommaMarks();
    EqualsMarks();
    UpdateMarks();
    SetMarks();
    JoinMarks(sets, ",");
    forall i | 0 <= i < |sets| ensures Marks(sets[i]) == 1 {
      NoMarks(data[i].0);
      assert sets[i] == data[i].0 + " = " + "?";
      MarksCat(data[i].0 + " = ", "?");
      MarksCat(data[i].0, " = ");
    }
    SumMarksUniform(sets, 1);
    NoMarks(table);
    MarksCat("UPDATE " + table + " SET ", Join(sets, ","));
    MarksCat("UPDATE " + table, " SET ");
    MarksCat("UPDATE ", table);
  }

  lemma PrefixTableMarks(prefix: string, table: string)
    requires Marks(prefix) == 0 && '?' !in table
    ensures Marks(prefix + table) == 0
  {
    NoMarks(table);
    MarksCat(prefix, table);
  }

  lemma HeadMarks(s: QueryState)
    requires NoQuestionMarks(s)
    ensures Marks(HeadSql(s)) == |HeadParams(s)|
  {
    match s.kind
    case Select => SelectHeadMarks(s.columns, s.table);
    case Insert => InsertHeadMarks(s.data, s.table);
    case Update => UpdateHeadMarks(s.data, s.table);
    case Count => SelectCountMarks(); PrefixTableMarks("SELECT COUNT(*) as count FROM ", s.table);
    case Delete => DeleteFromMarks(); PrefixTableMarks("DELETE FROM ", s.table);
    case Exists => SelectOneMarks(); PrefixTableMarks("SELECT 1 FROM ", s.table);
  }

  lemma JoinClauseMarks(j: JoinClause)
    requires '?' !in j.table && '?' !in j.on && '?' !in j.joinType
    ensures Marks(JoinSql(j)) == 0
  {
    SpaceMarks();
    JoinMarksKw();
    OnMarks();
    NoMarks(j.joinType);
    NoMarks(j.table);
    NoMarks(j.on);
    MarksCat(" " + j.joinType + " JOIN " + j.table + " ON ", j.on);
    MarksCat(" " + j.joinType + " JOIN " + j.table, " ON ");
    MarksCat(" " + j.joinType + " JOIN ", j.table);
    MarksCat(" " + j.joinType, " JOIN ");
    MarksCat(" ", j.joinType);
  }

  lemma {:induction false} JoinsMarks(joins: seq<JoinClause>)
    requires forall i :: 0 <= i < |joins| ==> '?' !in joins[i].table && '?' !in joins[i].on && '?' !in joins[i].joinType
    ensures Marks(JoinsSql(joins)) == 0
    decreases |joins|
  {
    if |joins| > 0 {
      JoinsMarks(joins[..|joins| - 1]);
      JoinClauseMarks(joins[|joins| - 1]);
      MarksCat(JoinsSql(joins[..|joins| - 1]), JoinSql(joins[|joins| - 1]));
    }
  }

  lemma ConditionMarks(c: Condition)
    requires '?' !in c.column && '?' !in c.op
    ensures Marks(ConditionSql(c)) == |ConditionParams(c)|
  {
    NoMarks(c.column);
    NoMarks(c.op);
    SpaceMarks();
    InMarks();
    CloseParenMarks();
    if c.op == "IS NULL" || c.op == "IS NOT NULL" {
      MarksCat(c.column + " ", c.op);
      MarksCat(c.column, " ");
    } else if c.op == "IN" && c.operand.List? {
      var ph := Placeholders(|c.operand.vs|);
      PlaceholdersMarks(|c.operand.vs|);
      MarksCat(c.column + " IN (" + ph, ")");
      MarksCat(c.column + " IN (", ph);
      MarksCat(c.column, " IN (");
    } else {
      PlaceholderMarks();
      MarksCat(c.column + " " + c.op, " ?");
      MarksCat(c.column + " ", c.op);
      MarksCat(c.column, " ");
    }
  }

  /** The marks of the WHERE terms add up to the WHERE parameters. */
  lemma {:induction false} ConditionsMarks(cs: seq<Condition>)
    requires forall i :: 0 <= i < |cs| ==> '?' !in cs[i].column && '?' !in cs[i].op
    ensures SumMarks(MapSeq(ConditionSql, cs)) == |WhereParams(cs)|
    decreases |cs|
  {
    if |cs| > 0 {
      var init := cs[..|cs| - 1];
      ConditionsMarks(init);
      ConditionMarks(cs[|cs| - 1]);
      SumMarksSnoc(MapSeq(ConditionSql, init), ConditionSql(cs[|cs| - 1]));
    }
  }

  lemma WhereMarks(cs: seq<Condition>)
    requires forall i :: 0 <= i < |cs| ==> '?' !in cs[i].column && '?' !in cs[i].op
    ensures Marks(WhereSql(cs)) == |WhereParams(cs)|
  {
    if |cs| > 0 {
      WhereMarksKw();
      AndMarks();
      JoinMarks(MapSeq(ConditionSql, cs), " AND ");
      ConditionsMarks(cs);
      MarksCat(" WHERE ", Join(MapSeq(ConditionSql, cs), " AND "));
    }
  }

  lemma OrderMarks(kind: QueryKind, order: seq<Order>)
    requires forall i :: 0 <= i < |order| ==> '?' !in order[i].column && '?' !in order[i].direction
    ensures Marks(OrderSql(kind, order)) == 0
  {
    if Selects(kind) && |order| > 0 {
      var items := MapSeq(OrderItem, order);
      SpaceMarks();
      CommaSpaceMarks();
      OrderByMarks();
      forall i | 0 <= i < |items| ensures '?' !in items[i] {
        assert items[i] == order[i].column + " " + order[i].direction;
      }
      NoMarksJoined(items, ", ");
      MarksCat(" ORDER BY ", Join(items, ", "));
    }
  }

  lemma LimitMarks(kind: QueryKind, limit: Option<int>, offset: Option<int>)
    ensures Marks(LimitSql(kind, limit, offset)) == |LimitParams(kind, limit, offset)|
  {
    LimitOffsetMarks();
    if Selects(kind) && limit.Some? && offset.Some? {
      MarksCat(" LIMIT ?", " OFFSET ?");
    } else if Selects(kind) && limit.Some? {
      assert " LIMIT ?" + "" == " LIMIT ?";
    }
  }

  /**
   * The prepared statement is consistent: as long as no identifier contains
   * `?`, the SQL text has exactly one placeholder per bound parameter, and
   * the type string has one code per parameter.
   */
  lemma PlaceholdersMatchParams(s: QueryState)
    requires NoQuestionMarks(s)
    ensures Marks(BuildSpec(s).sql) == |BuildSpec(s).params|
    ensures |BuildSpec(s).types| == |BuildSpec(s).params|
  {
    var head, joins, where := HeadSql(s), JoinsSql(s.joins), WhereSql(s.wheres);
    var order, limit := OrderSql(s.kind, s.order), LimitSql(s.kind, s.limit, s.offset);
    HeadMarks(s);
    JoinsMarks(s.joins);
    WhereMarks(s.wheres);
    OrderMarks(s.kind, s.order);
    LimitMarks(s.kind, s.limit, s.offset);
    MarksCat(head + joins + where + order, limit);
    MarksCat(head + joins + where, order);
    MarksCat(head + joins, where);
    MarksCat(head, joins);
  }

  // ---------------------------------------------------------------------------
  // The builder object
  // ---------------------------------------------------------------------------

  class Builder {
    var table: string
    var kind: QueryKind
    var columns: seq<string>
    var data: seq<(string, SqlValue)>
    var wheres: seq<Condition>
    var joins: seq<JoinClause>
    var order: seq<Order>
    var limit: Option<int>
    var offset: Option<int>
    /** `ANON_DB_PREFIX`, which `join` prepends to table names. */
    const prefix: string

    function State(): QueryState
      reads this
    {
      QueryState(table, kind, columns, data, wheres, joins, order, limit, offset)
    }

    /** `new Anon_Database_QueryBuilder($conn, $table)`: a `SELECT *` with nothing else set. */
    constructor (table: string, prefix: string)
      ensures State() == QueryState(table, Select, ["*"], [], [], [], [], None, None)
      ensures this.prefix == prefix
    {
      this.table := table;
      this.prefix := prefix;
      kind := Select;
      columns := ["*"];
      data := [];
      wheres := [];
      joins := [];
      order := [];
      limit := None;
      offset := None;
    }

    /** `select($cols)`: a single column becomes a one-element list. */
    method SelectColumns(cols: ColumnArg)
      modifies this
      ensures State() == old(State()).(kind := Select, columns := if cols.Columns? then cols.names else [cols.name])
    {
      kind := Select;
      columns := if cols.Columns? then cols.names else [cols.name];
    }

    method InsertRow(row: seq<(string, SqlValue)>)
      modifies this
      ensures State() == old(State()).(kind := Insert, data := row)
    {
      kind := Insert;
      data := row;
    }

    method UpdateRow(row: seq<(string, SqlValue)>)
      modifies this
      ensures State() == old(State()).(kind := Update, data := row)
    {
      kind := Update;
      data := row;
    }

    method DeleteRows()
      modifies this
      ensures State() == old(State()).(kind := Delete)
    {
      kind := Delete;
    }

    method CountRows()
      modifies this
      ensures State() == old(State()).(kind := Count)
    {
      kind := Count;
    }

    method ExistsRow()
      modifies this
      ensures State() == old(State()).(kind := Exists)
    {
      kind := Exists;
    }

    /**
     * `where($col, $op, $val)`: a null value turns the entry into `IS NULL`
     * (for `=` or any-case `IS`) or `IS NOT NULL` (for any other operator).
     */
    method Where(col: string, op: string, val: Operand)
      modifies this
      ensures val == Scalar(SNull) && (op == "=" || ToUpper(op) == "IS") ==>
                wheres == old(wheres) + [Condition(col, "IS NULL", Scalar(SNull))]
      ensures val == Scalar(SNull) && !(op == "=" || ToUpper(op) == "IS") ==>
                wheres == old(wheres) + [Condition(col, "IS NOT NULL", Scalar(SNull))]
      ensures val != Scalar(SNull) ==> wheres == old(wheres) + [Condition(col, op, val)]
      ensures State() == old(State()).(wheres := wheres)
    {
      if val == Scalar(SNull) {
        if op == "=" || ToUpper(op) == "IS" {
          wheres := wheres + [Condition(col, "IS NULL", Scalar(SNull))];
        } else {
          wheres := wheres + [Condition(col, "IS NOT NULL", Scalar(SNull))];
        }
      } else {
        wheres := wheres + [Condition(col, op, val)];
      }
    }

    method WhereIn(col: string, vals: seq<SqlValue>)
      modifies this
      ensures State() == old(State()).(wheres := old(wheres) + [Condition(col, "IN", List(vals))])
    {
      wheres := wheres + [Condition(col, "IN", List(vals))];
    }

    /** `orderBy($col, $dir)`: `DESC` for any-case `desc`, `ASC` for anything else. */
    method OrderBy(col: string, dir: string)
      modifies this
      ensures State() == old(State()).(order := old(order) + [Order(col, if ToUpper(dir) == "DESC" then "DESC" else "ASC")])
    {
      order := order + [Order(col, if ToUpper(dir) == "DESC" then "DESC" else "ASC")];
    }

    /** `limit($limit, $offset)`: also resets the offset when none is given. */
    method Limit(n: int, off: Option<int>)
      modifies this
      ensures State() == old(State()).(limit := Some(n), offset := off)
    {
      limit := Some(n);
      offset := off;
    }

    /** `join($table, $on, $type)`: the table gets the prefix, the type is upper-cased. */
    method JoinTable(t: string, on: string, joinType: string)
      modifies this
      ensures State() == old(State()).(joins := old(joins) + [JoinClause(prefix + t, on, ToUpper(joinType))])
    {
      joins := joins + [JoinClause(prefix + t, on, ToUpper(joinType))];
    }

    /** `build`: the SQL text, the parameters and the type string of the current state. */
    method Build() returns (r: Built)
      ensures r == BuildSpec(State())
      ensures |r.types| == |r.params|
    {
      var sql, p, ty := BuildHead();
      sql := AppendJoins(sql);
      sql, p, ty := AppendWhere(sql, p, ty);
      sql := AppendOrder(sql);
      sql, p, ty := AppendLimit(sql, p, ty);
      r := Built(sql, p, ty);
    }

    method BuildHead() returns (sql: string, p: seq<Operand>, ty: string)
      ensures sql == HeadSql(State()) && p == HeadParams(State()) && ty == TypeString(p)
    {
      p, ty := [], "";
      if kind == Select {
        sql := "SELECT " + Join(columns, ",") + " FROM " + table;
      } else if kind == Count {
        sql := "SELECT COUNT(*) as count FROM " + table;
      } else if kind == Exists {
        sql := "SELECT 1 FROM " + table;
      } else if kind == Insert {
        sql, p, ty := InsertHead();
      } else if kind == Update {
        sql, p, ty := UpdateHead();
      } else {
        sql := "DELETE FROM " + table;
      }
    }

    /** The data values with their type codes, in data order. */
    method BindData() returns (p: seq<Operand>, ty: string)
      ensures p == MapSeq(DataValue, data) && ty == TypeString(p)
    {
      p, ty := [], "";
      var i := 0;
      while i < |data|
        invariant 0 <= i <= |data|
        invariant p == MapSeq(DataValue, data[..i]) && ty == TypeString(p)
      {
        assert data[..i + 1] == data[..i] + [data[i]];
        MapSeqSnoc(DataValue, data[..i], data[i]);
        TypeStringSnoc(p, Scalar(data[i].1));
        p := p + [Scalar(data[i].1)];
        ty := ty + [TypeCode(Scalar(data[i].1))];
        i := i + 1;
      }
      assert data[..|data|] == data;
    }

    method InsertHead() returns (sql: string, p: seq<Operand>, ty: string)
      ensures sql == "INSERT INTO " + table + " (" + Join(MapSeq(DataKey, data), ",") + ") VALUES ("
                     + Placeholders(|data|) + ")"
      ensures p == MapSeq(DataValue, data) && ty == TypeString(p)
    {
      var cols := MapSeq(DataKey, data);
      var ph := Placeholders(|cols|);
      sql := "INSERT INTO " + table + " (" + Join(cols, ",") + ") VALUES (" + ph + ")";
      p, ty := BindData();
    }

    method UpdateHead() returns (sql: string, p: seq<Operand>, ty: string)
      ensures sql == "UPDATE " + table + " SET " + Join(MapSeq(SetClause, data), ",")
      ensures p == MapSeq(DataValue, data) && ty == TypeString(p)
    {
      var sets: seq<string> := [];
      var i := 0;
      while i < |data|
        invariant 0 <= i <= |data|
        invariant sets == MapSeq(SetClause, data[..i])
      {
        assert data[..i + 1] == data[..i] + [data[i]];
        MapSeqSnoc(SetClause, data[..i], data[i]);
        sets := sets + [data[i].0 + " = ?"];
        i := i + 1;
      }
      assert data[..|data|] == data;
      sql := "UPDATE " + table + " SET " + Join(sets, ",");
      p, ty := BindData();
    }

    method AppendJoins(sql0: string) returns (sql: string)
      ensures sql == sql0 + JoinsSql(joins)
    {
      sql := sql0;
      var i := 0;
      while i < |joins|
        invariant 0 <= i <= |joins|
        invariant sql == sql0 + JoinsSql(joins[..i])
      {
        var j := joins[i];
        assert joins[..i + 1][..i] == joins[..i];
        sql := sql + " " + j.joinType + " JOIN " + j.table + " ON " + j.on;
        i := i + 1;
      }
      assert joins[..|joins|] == joins;
    }

    method AppendWhere(sql0: string, p0: seq<Operand>, ty0: string) returns (sql: string, p: seq<Operand>, ty: string)
      requires ty0 == TypeString(p0)
      ensures sql == sql0 + WhereSql(wheres)
      ensures p == p0 + WhereParams(wheres) && ty == TypeString(p)
    {
      sql, p, ty := sql0, p0, ty0;
      if |wheres| == 0 {
        assert p == p0 + [];
        return;
      }
      var ws, q, tq := WhereTerms();
      TypeStringAppend( p, q);
      p := p + q;
      ty := ty + tq;
      sql := sql + " WHERE " + Join(ws, " AND ");
    }

    /** The WHERE loop: each entry's term, and the values the entries bind with their type codes. */
    method WhereTerms() returns (ws: seq<string>, q: seq<Operand>, tq: string)
      ensures ws == MapSeq(ConditionSql, wheres)
      ensures q == WhereParams(wheres) && tq == TypeString(q)
    {
      ws, q, tq := [], [], "";
      var i := 0;
      while i < |wheres|
        invariant 0 <= i <= |wheres|
        invariant ws == MapSeq(ConditionSql, wheres[..i])
        invariant q == WhereParams(wheres[..i]) && tq == TypeString(q)
      {
        var term, qw := ConditionTerm(wheres[i]);
        WhereStep(wheres, i);
        TypeStringAppend(q, qw);
        ws := ws + [term];
        q := q + qw;
        tq := tq + TypeString(qw);
        i := i + 1;
      }
      assert wheres[..|wheres|] == wheres;
    }

    /** One pass of the WHERE loop: the term and the values it binds. */
    static method ConditionTerm(w: Condition) returns (term: string, q: seq<Operand>)
      ensures term == ConditionSql(w) && q == ConditionParams(w)
    {
      if w.op == "IS NULL" || w.op == "IS NOT NULL" {
        term := w.column + " " + w.op;
        q := [];
      } else if w.op == "IN" && w.operand.List? {
        var vs := w.operand.vs;
        term := w.column + " IN (" + Placeholders(|vs|) + ")";
        q := [];
        var k := 0;
        while k < |vs|
          invariant 0 <= k <= |vs|
          invariant q == MapSeq(AsOperand, vs[..k])
        {
          assert vs[..k + 1] == vs[..k] + [vs[k]];
          MapSeqSnoc(AsOperand, vs[..k], vs[k]);
          q := q + [Scalar(vs[k])];
          k := k + 1;
        }
        assert vs[..|vs|] == vs;
      } else {
        term := w.column + " " + w.op + " ?";
        q := [w.operand];
      }
    }

    method AppendOrder(sql0: string) returns (sql: string)
      ensures sql == sql0 + OrderSql(kind, order)
    {
      sql := sql0;
      if (kind == Select || kind == Exists) && |order| > 0 {
        var ords: seq<string> := [];
        var i := 0;
        while i < |order|
          invariant 0 <= i <= |order|
          invariant ords == MapSeq(OrderItem, order[..i])
        {
          OrderStep(order, i);
          ords := ords + [order[i].column + " " + order[i].direction];
          i := i + 1;
        }
        assert order[..|order|] == order;
        sql := sql + (" ORDER BY " + Join(ords, ", "));
      } else {
        assert sql == sql0 + "";
      }
    }

    method AppendLimit(sql0: string, p0: seq<Operand>, ty0: string)
      returns (sql: string, p: seq<Operand>, ty: string)
      requires ty0 == TypeString(p0)
      ensures sql == sql0 + LimitSql(kind, limit, offset)
      ensures p == p0 + LimitParams(kind, limit, offset) && ty == TypeString(p)
    {
      sql, p, ty := sql0, p0, ty0;
      if (kind == Select || kind == Exists) && limit.Some? {
        var tail := " LIMIT ?";
        var q := [Scalar(SInt(limit.value))];
        var tq := "i";
        assert tq == TypeString(q) by {
          TypeStringSnoc([], Scalar(SInt(limit.value)));
        }
        if offset.Some? {
          tail := tail + " OFFSET ?";
          TypeStringSnoc(q, Scalar(SInt(offset.value)));
          q := q + [Scalar(SInt(offset.value))];
          tq := tq + "i";
        }
        TypeStringAppend(p, q);
        sql, p, ty := sql + tail, p + q, ty + tq;
      } else {
        assert sql == sql0 + "" && p == p0 + [];
      }
    }

    /** `get`: the rows the statement of the current state yields; `fetch` stands for the database. */
    method Get<Row>(fetch: Built -> seq<Row>) returns (rows: seq<Row>)
      ensures rows == fetch(BuildSpec(State()))
    {
      var built := Build();
      rows := fetch(built);
    }

    /**
     * `first`: `limit(1)` (which also drops any offset), run the query, and
     * return the first row or null.
     */
    method First<Row>(fetch: Built -> seq<Row>) returns (row: Option<Row>)
      modifies this
      ensures State() == old(State()).(limit := Some(1), offset := None)
      ensures row.None? <==> |fetch(BuildSpec(State()))| == 0
      ensures row.Some? ==> row.value == fetch(BuildSpec(State()))[0]
    {
      Limit(1, None);
      var rows := Get(fetch);
      row := if |rows| > 0 then Some(rows[0]) else None;
    }

    /**
     * `scalar`: a count query yields its count, an exists query first gets
     * `limit(1)` and yields whether a row came back, any other kind yields
     * null without running anything. `countOf` and `hasRows` stand for the
     * database.
     */
    method ScalarValue(countOf: Built -> int, hasRows: Built -> bool) returns (r: Option<SqlValue>)
      modifies this
      ensures old(kind) == Count ==> State() == old(State()) && r == Some(SInt(countOf(BuildSpec(State()))))
      ensures old(kind) == Exists ==>
                State() == old(State()).(limit := Some(1), offset := None) && r == Some(SBool(hasRows(BuildSpec(State()))))
      ensures old(kind) != Count && old(kind) != Exists ==> State() == old(State()) && r.None?
    {
      if kind == Count {
        var built := Build();
        r := Some(SInt(countOf(built)));
      } else if kind == Exists {
        Limit(1, None);
        var built := Build();
        r := Some(SBool(hasRows(built)));
      } else {
        r := None;
      }
    }

    /**
     * `execute`: run the statement; an insert yields the new row's id, any
     * other kind the number of affected rows. `run` stands for the database
     * and yields both numbers.
     */
    method Execute(run: Built -> (int, int)) returns (n: int)
      ensures var outcome := run(BuildSpec(State()));
              n == if kind == Insert then outcome.0 else outcome.1
    {
      var built := Build();
      var outcome := run(built);
      n := if kind == Insert then outcome.0 else outcome.1;
    }
  }

  /** `Anon_Database_Connection::db`: a fresh builder on the prefixed table. */
  method Db(prefix: string, table: string) returns (b: Builder)
    ensures fresh(b) && b.prefix == prefix
    ensures b.State() == QueryState(prefix + table, Select, ["*"], [], [], [], [], None, None)
  {
    b := new Builder(prefix + table, prefix);
  }

  /**
   * After `first` (or `scalar` on an exists query) a select binds `1` as its
   * last parameter and ends in ` LIMIT ?`, whatever offset was set before.
   */
  lemma LimitOneLast(s: QueryState)
    requires Selects(s.kind)
    ensures var b := BuildSpec(s.(limit := Some(1), offset := None));
            |b.params| > 0 && b.params[|b.params| - 1] == Scalar(SInt(1)) && b.types[|b.types| - 1] == 'i' &&
            |b.sql| >= 8 && b.sql[|b.sql| - 8..] == " LIMIT ?"
  {
    var t := s.(limit := Some(1), offset := None);
    var b := BuildSpec(t);
    var front := HeadSql(t) + JoinsSql(t.joins) + WhereSql(t.wheres) + OrderSql(t.kind, t.order);
    assert LimitSql(t.kind, t.limit, t.offset) == " LIMIT ?" + "";
    assert b.sql == front + " LIMIT ?";
    assert b.sql[|b.sql| - 8..] == " LIMIT ?";
    TypeStringAt(b.params, |b.params| - 1);
  }

  /**
   * `Anon_Database_Connection::prepare`: every parameter, null or not, is
   * bound with type `s`; an empty parameter list binds nothing.
   */
  method PrepareTypes(params: seq<SqlValue>) returns (types: string, bound: seq<SqlValue>)
    ensures |types| == |params| && bound == params
    ensures forall i :: 0 <= i < |types| ==> types[i] == 's'
  {
    types := "";
    bound := [];
    if |params| == 0 {
      return;
    }
    var i := 0;
    while i < |params|
      invariant 0 <= i <= |params|
      invariant |types| == i && bound == params[..i]
      invariant forall k :: 0 <= k < i ==> types[k] == 's'
    {
      if params[i] == SNull {
        types := types + "s";
        bound := bound + [SNull];
      } else {
        types := types + "s";
        bound := bound + [params[i]];
      }
      assert params[..i + 1] == params[..i] + [params[i]];
      i := i + 1;
    }
    assert params[..|params|] == params;
  }
}
