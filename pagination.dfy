/** The query/pagination engine: it turns a decoded query string and a
    declared filter/sort schema into limit, offset, order and a list of
    query scopes.  A scope is a value describing one clause the ORM would
    add to the query; what the database does with it is not modelled. */
module Pagination {
  import opened Wrappers
  import opened GoStrings

  // ---------------------------------------------------------------------
  // Reserved query keys

  const QueryKeyLimit: string := "limit"
  const QueryKeyOffset: string := "offset"
  const QueryKeySort: string := "sort"

  // ---------------------------------------------------------------------
  // Filter types and operators

  /** The seven declared types. `OtherType(name)` stands for a type name
      other than "ID", "NUMBER", "STRING", "BOOL", "DATE", "DATETIME" and
      "ENUM" (those are the seven constructors); it has no default
      operators and no scope builder. */
  datatype FilterType = ID | Number | Str | Bool | Date | DateTime | Enum | OtherType(name: string)

  /** Operators are plain strings: the parser accepts any text before `:`. */
  type Operator = string

  const OpEq: Operator := "eq"
  const OpNeq: Operator := "neq"
  const OpIn: Operator := "in"
  const OpNotIn: Operator := "not_in"
  const OpLike: Operator := "like"
  const OpBetween: Operator := "between"
  const OpGt: Operator := "gt"
  const OpGte: Operator := "gte"
  const OpLt: Operator := "lt"
  const OpLte: Operator := "lte"

  const AllOperators: seq<Operator> := [OpEq, OpNeq, OpIn, OpNotIn, OpLike, OpBetween, OpGt, OpGte, OpLt, OpLte]

  /** The SQL operator the builders write for a filter operator. */
  function SqlOperator(op: Operator): string
  {
    if op == OpEq then "=" else if op == OpNeq then "!="
    else if op == OpGt then ">" else if op == OpGte then ">="
    else if op == OpLt then "<" else if op == OpLte then "<="
    else if op == OpIn then "IN" else if op == OpNotIn then "NOT IN"
    else ""
  }

  /** The fixed table of operators allowed per type: only declared
      operators, `eq` for every declared type, nothing for any other. */
  function OperatorsByType(t: FilterType): (r: seq<Operator>)
    ensures |r| == 0 <==> t.OtherType?
    ensures !t.OtherType? ==> OpEq in r
    ensures forall i :: 0 <= i < |r| ==> r[i] in AllOperators
  {
    match t
    case ID | Number => [OpEq, OpNeq, OpIn, OpNotIn, OpBetween, OpGt, OpGte, OpLt, OpLte]
    case Str => [OpEq, OpNeq, OpIn, OpNotIn, OpLike]
    case Bool => [OpEq]
    case Date | DateTime => [OpEq, OpBetween, OpGte, OpLte]
    case Enum => [OpEq, OpIn]
    case OtherType(_) => []
  }

  /** A column name qualified by a table name, unless there is no table
      name or the column already carries a qualifier. */
  function Qualify(tableName: string, column: string): string
  {
    if tableName != "" && '.' !in column then tableName + "." + column else column
  }

  /** Qualifying twice is the same as qualifying once. */
  lemma QualifyIdempotent(tableName: string, column: string)
    ensures Qualify(tableName, Qualify(tableName, column)) == Qualify(tableName, column)
  {
    if tableName != "" && '.' !in column {
      assert (tableName + "." + column)[|tableName|] == '.';
    }
  }

  /** One filterable field of the schema. */
  datatype FilterConfig = FilterConfig(
    field: string,
    searchFields: seq<string>,
    filterType: FilterType,
    tableName: string,
    operators: seq<Operator>,
    enumValues: seq<string>)
  {
    /** GetAllowedOperators: the custom list when non-empty, else the
        type's table; empty only for an unknown type without a list. */
    function AllowedOperators(): (r: seq<Operator>)
      ensures r == operators || (|operators| == 0 && r == OperatorsByType(filterType))
      ensures |r| == 0 <==> |operators| == 0 && filterType.OtherType?
    {
      if |operators| > 0 then operators else OperatorsByType(filterType)
    }

    /** The columns before qualification: the search fields, or the field. */
    function Columns(): (cols: seq<string>)
      ensures |cols| >= 1
    {
      if |searchFields| > 0 then searchFields else [field]
    }

    /** What GetFields returns. */
    function QualifiedFields(): seq<string>
    {
      var cols := Columns();
      seq(|cols|, i requires 0 <= i < |cols| => Qualify(tableName, cols[i]))
    }

    /** GetFields: the columns, each unqualified one prefixed in place. */
    method GetFields() returns (fields: seq<string>)
      ensures fields == QualifiedFields()
    {
      fields := searchFields;
      if |fields| == 0 {
        fields := [field];
      }
      ghost var cols := fields;
      assert cols == Columns();
      if tableName != "" {
        var i := 0;
        while i < |fields|
          invariant 0 <= i <= |fields| == |cols|
          invariant forall j :: 0 <= j < i ==> fields[j] == Qualify(tableName, cols[j])
          invariant forall j :: i <= j < |fields| ==> fields[j] == cols[j]
        {
          if '.' !in fields[i] {
            fields := fields[i := tableName + "." + fields[i]];
          }
          i := i + 1;
        }
      }
    }
  }

  /** GetFields returns one entry per search field (or the single field),
      every unqualified entry carries the table name and qualified entries
      are left as they are. */
  lemma GetFieldsShape(fc: FilterConfig)
    ensures |fc.QualifiedFields()| == if |fc.searchFields| > 0 then |fc.searchFields| else 1
    ensures forall i :: 0 <= i < |fc.QualifiedFields()| ==>
      var col := fc.Columns()[i];
      fc.QualifiedFields()[i] == (if fc.tableName != "" && '.' !in col then fc.tableName + "." + col else col)
  {
  }

  /** Re-running the prefixing on what GetFields returned changes nothing,
      so the source's in-place update of the search fields is harmless. */
  lemma {:induction false} GetFieldsIdempotent(fc: FilterConfig)
    ensures fc.(searchFields := fc.QualifiedFields()).QualifiedFields() == fc.QualifiedFields()
  {
    var q := fc.QualifiedFields();
    var fc' := fc.(searchFields := q);
    assert fc'.Columns() == q;
    forall i | 0 <= i < |q|
      ensures fc'.QualifiedFields()[i] == q[i]
    {
      QualifyIdempotent(fc.tableName, fc.Columns()[i]);
    }
  }

  lemma TableNamePrefixExample()
    ensures FilterConfig("status", [], Str, "users", [], []).QualifiedFields() == ["users.status"]
    ensures FilterConfig("status", ["u.name", "email"], Str, "users", [], []).QualifiedFields()
         == ["u.name", "users.email"]
  {
    assert "users" + "." + "status" == "users.status";
    assert '.' in "u.name" by { assert "u.name"[1] == '.'; }
    assert "users" + "." + "email" == "users.email";
  }

  /** One sortable field of the schema. */
  datatype SortConfig = SortConfig(field: string, tableName: string, allowed: bool)

  /** The declared schema: filter and sort registries, filled by the
      chainable AddFilter / AddSort (last write wins). */
  class FilterDefinition {
    var filters: map<string, FilterConfig>
    var sorts: map<string, SortConfig>

    constructor ()
      ensures filters == map[] && sorts == map[]
    {
      filters := map[];
      sorts := map[];
    }

    method AddFilter(key: string, config: FilterConfig) returns (fd: FilterDefinition)
      modifies this
      ensures fd == this
      ensures filters == old(filters)[key := config] && sorts == old(sorts)
    {
      filters := filters[key := config];
      fd := this;
    }

    method AddSort(key: string, config: SortConfig) returns (fd: FilterDefinition)
      modifies this
      ensures fd == this
      ensures sorts == old(sorts)[key := config] && filters == old(filters)
    {
      sorts := sorts[key := config];
      fd := this;
    }
  }

  // ---------------------------------------------------------------------
  // Options, time zones and the calendar

  /** A time zone, known by name. */
  datatype Location = Location(name: string)

  const DefaultTimezone: Location := Location("Asia/Jakarta")
  const DefaultLimit: int := 20
  const DefaultMaxLimit: int := 100
  const DefaultOrder: string := "id desc"

  /** PaginationOptions; a zero field means "use the default". */
  datatype Options = Options(defaultLimit: int, maxLimit: int, defaultOrder: string, timezone: Option<Location>)

  /** The options after NewPagination fills in the zero fields. */
  function WithDefaults(o: Options): (r: Options)
    ensures r.defaultLimit != 0 && r.maxLimit != 0 && r.defaultOrder != "" && r.timezone.Some?
    ensures o.defaultLimit != 0 ==> r.defaultLimit == o.defaultLimit
    ensures o.maxLimit != 0 ==> r.maxLimit == o.maxLimit
    ensures o.defaultOrder != "" ==> r.defaultOrder == o.defaultOrder
    ensures o.timezone.Some? ==> r.timezone == o.timezone
  {
    Options(
      if o.defaultLimit == 0 then DefaultLimit else o.defaultLimit,
      if o.maxLimit == 0 then DefaultMaxLimit else o.maxLimit,
      if o.defaultOrder == "" then DefaultOrder else o.defaultOrder,
      if o.timezone.None? then Some(DefaultTimezone) else o.timezone)
  }

  lemma DefaultOptions()
    ensures WithDefaults(Options(0, 0, "", None)) == Options(20, 100, "id desc", Some(Location("Asia/Jakarta")))
  {
  }

  /** Calendar parsing in a time zone, to instants in nanoseconds: the
      "2006-01-02" layout for DATE and "2006-01-02 15:04:05" for DATETIME.
      None is a parse error. */
  datatype Calendar = Calendar(
    parseDate: (Location, string) -> Option<int>,
    parseDateTime: (Location, string) -> Option<int>)

  const Nanosecond: int := 1
  const Hour: int := 3600 * 1_000_000_000

  /** The last nanosecond of the day that starts at `dayStart`. */
  function EndOfDay(dayStart: int): int
  {
    dayStart + (24 * Hour - Nanosecond)
  }

  // ---------------------------------------------------------------------
  // Scopes

  /** A bound argument of a clause. */
  datatype Arg = Text(s: string) | TextList(items: seq<string>) | Flag(b: bool) | Instant(t: int)

  datatype Comparison = Equal | NotEqual | Greater | GreaterEq | Less | LessEq | InList | NotInList
  {
    function Symbol(): string
    {
      match this
      case Equal => "="
      case NotEqual => "!="
      case Greater => ">"
      case GreaterEq => ">="
      case Less => "<"
      case LessEq => "<="
      case InList => "IN"
      case NotInList => "NOT IN"
    }
  }

  /** The marker of a bound argument in SQL text. */
  const Placeholder: string := "?"

  /** One condition on one column. */
  datatype Cond =
    | Compare(field: string, cmp: Comparison, arg: Arg)
    | LikeLower(field: string, pattern: string)
    | Between(field: string, lo: Arg, hi: Arg)
  {
    /** The SQL text of the condition, `?` marking each bound argument. */
    function Sql(): string
    {
      match this
      case Compare(f, c, _) => f + " " + c.Symbol() + " " + Placeholder
      case LikeLower(f, _) => "LOWER(" + f + ") LIKE LOWER(" + Placeholder + ")"
      case Between(f, _, _) => f + " BETWEEN " + Placeholder + " AND " + Placeholder
    }

    function Args(): seq<Arg>
    {
      match this
      case Compare(_, _, a) => [a]
      case LikeLower(_, p) => [Text(p)]
      case Between(_, lo, hi) => [lo, hi]
    }
  }

  /** A query scope: a filter clause, an OR group of clauses, the no-op
      scope, a caller's custom scope (opaque), or a meta scope. */
  datatype Scope =
    | Where(cond: Cond)
    | OrGroup(conds: seq<Cond>)
    | Identity
    | Custom(id: nat)
    | Limit(n: int)
    | Offset(n: int)
    | Order(order: string)

  function JoinSql(conds: seq<Cond>): string
  {
    if |conds| == 0 then ""
    else if |conds| == 1 then conds[0].Sql()
    else conds[0].Sql() + " OR " + JoinSql(conds[1..])
  }

  function ConcatArgs(conds: seq<Cond>): seq<Arg>
  {
    if |conds| == 0 then [] else conds[0].Args() + ConcatArgs(conds[1..])
  }

  /** The SQL text a filter scope passes to the ORM's Where. */
  function WhereSql(s: Scope): string
  {
    match s
    case Where(c) => c.Sql()
    case OrGroup(cs) => "(" + JoinSql(cs) + ")"
    case _ => ""
  }

  /** The arguments a filter scope binds to its placeholders. */
  function WhereArgs(s: Scope): seq<Arg>
  {
    match s
    case Where(c) => c.Args()
    case OrGroup(cs) => ConcatArgs(cs)
    case _ => []
  }

  // ---------------------------------------------------------------------
  // Filter operations

  /** A parsed filter value: the operator and one or more values. */
  datatype FilterOperation = FilterOperation(operator: Operator, values: seq<string>)

  /** parseFilterOperation: "op:v1,v2" splits on the first `:` and then on
      `,`; text without `:` is an `eq` on the whole string. */
  function ParseFilterOperation(value: string): (op: FilterOperation)
    ensures |op.values| >= 1
    ensures ':' !in value ==> op == FilterOperation(OpEq, [value])
    ensures ':' in value ==> ':' !in op.operator && op.operator + ":" + Join(op.values, ",") == value
  {
    var parts := SplitN2(value, ':');
    if |parts| != 2 then FilterOperation(OpEq, [value])
    else
      BeforeAfter(value, ':');
      JoinSplit(parts[1], ',');
      FilterOperation(parts[0], Split(parts[1], ','))
  }

  /** The number of values the operator takes: every operator gets at
      least the values its builder reads, and one value suits any operator
      but `between`. */
  function ArityOk(op: FilterOperation): (ok: bool)
    ensures ok ==> |op.values| >= 1 && (op.operator == OpBetween ==> |op.values| == 2)
    ensures |op.values| == 1 && op.operator != OpBetween ==> ok
    ensures op.operator in [OpIn, OpNotIn] ==> (ok <==> |op.values| > 0)
    ensures op.operator == OpBetween ==> (ok <==> |op.values| == 2)
    ensures op.operator !in [OpIn, OpNotIn, OpBetween] ==> (ok <==> |op.values| == 1)
  {
    if op.operator == OpBetween then |op.values| == 2
    else if op.operator == OpIn || op.operator == OpNotIn then |op.values| > 0
    else |op.values| == 1
  }

  /** isValidOperation: valid exactly when the operator is allowed and
      has the right number of values: two for `between`, at least one for
      `in` and `not_in`, exactly one for every other operator. */
  function IsValidOperation(op: FilterOperation, config: FilterConfig): (ok: bool)
    ensures ok ==> op.operator in config.AllowedOperators() && |op.values| >= 1
    ensures ok && op.operator !in [OpIn, OpNotIn, OpBetween] ==> |op.values| == 1
    ensures op.operator !in config.AllowedOperators() ==> !ok
    ensures ok && op.operator == OpBetween ==> |op.values| == 2
    ensures op.operator in config.AllowedOperators() ==>
      (op.operator == OpBetween && |op.values| == 2 ==> ok)
      && (op.operator in [OpIn, OpNotIn] && |op.values| > 0 ==> ok)
      && (op.operator !in [OpIn, OpNotIn, OpBetween] && |op.values| == 1 ==> ok)
  {
    op.operator in config.AllowedOperators() && ArityOk(op)
  }

  // ---------------------------------------------------------------------
  // Per-type scope builders; None is the source's nil scope

  /** The comparison of a single-valued operator of the numeric builders. */
  function ScalarComparison(op: Operator): Option<Comparison>
  {
    if op == OpEq then Some(Equal)
    else if op == OpNeq then Some(NotEqual)
    else if op == OpGt then Some(Greater)
    else if op == OpGte then Some(GreaterEq)
    else if op == OpLt then Some(Less)
    else if op == OpLte then Some(LessEq)
    else None
  }

  /** buildNumericScope (ID and NUMBER): a clause on the column for
      exactly the operators of the numeric table; NumericClause gives its
      text and arguments. */
  function NumericScope(field: string, op: FilterOperation): (r: Option<Scope>)
    requires ArityOk(op)
    ensures r.Some? <==> op.operator in OperatorsByType(Number)
    ensures r.Some? ==> r.value.Where? && r.value.cond.field == field
  {
    if op.operator == OpIn then Some(Where(Compare(field, InList, TextList(op.values))))
    else if op.operator == OpNotIn then Some(Where(Compare(field, NotInList, TextList(op.values))))
    else if op.operator == OpBetween then Some(Where(Between(field, Text(op.values[0]), Text(op.values[1]))))
    else match ScalarComparison(op.operator)
      case Some(c) => Some(Where(Compare(field, c, Text(op.values[0]))))
      case None => None
  }

  /** The numeric clause: `field <op> ?` bound to the value (the list for
      in and not_in), or `field BETWEEN ? AND ?` bound to the two values. */
  lemma NumericClause(field: string, op: FilterOperation)
    requires ArityOk(op) && NumericScope(field, op).Some?
    ensures var c := NumericScope(field, op).value;
      && (op.operator != OpBetween ==> WhereSql(c) == field + " " + SqlOperator(op.operator) + " " + Placeholder)
      && (op.operator == OpBetween ==>
            WhereSql(c) == field + " BETWEEN " + Placeholder + " AND " + Placeholder
            && WhereArgs(c) == [Text(op.values[0]), Text(op.values[1])])
      && (op.operator in [OpIn, OpNotIn] ==> WhereArgs(c) == [TextList(op.values)])
      && (op.operator !in [OpIn, OpNotIn, OpBetween] ==> WhereArgs(c) == [Text(op.values[0])])
  {
    NumericListValue(field, op);
    if op.operator == OpIn {
      assert SqlOperator(op.operator) == "IN";
    } else if op.operator == OpNotIn {
      assert SqlOperator(op.operator) == "NOT IN";
    } else if op.operator != OpBetween {
      NumericScalarValue(field, op);
      ScalarSymbol(op.operator);
    }
  }

  lemma NumericListValue(field: string, op: FilterOperation)
    requires ArityOk(op)
    ensures op.operator == OpIn ==> NumericScope(field, op) == Some(Where(Compare(field, InList, TextList(op.values))))
    ensures op.operator == OpNotIn ==> NumericScope(field, op) == Some(Where(Compare(field, NotInList, TextList(op.values))))
    ensures op.operator == OpBetween ==>
      NumericScope(field, op) == Some(Where(Between(field, Text(op.values[0]), Text(op.values[1]))))
  {
  }

  lemma NumericScalarValue(field: string, op: FilterOperation)
    requires ArityOk(op) && op.operator !in [OpIn, OpNotIn, OpBetween] && ScalarComparison(op.operator).Some?
    ensures NumericScope(field, op) == Some(Where(Compare(field, ScalarComparison(op.operator).value, Text(op.values[0]))))
  {
  }

  /** Each comparison is written with the SQL operator of its filter
      operator. */
  lemma ScalarSymbol(o: Operator)
    requires ScalarComparison(o).Some?
    ensures ScalarComparison(o).value.Symbol() == SqlOperator(o)
  {
  }

  /** The condition one column gets under a STRING operator: one for
      exactly the string operators, on that column, `field <op> ?` or
      `LOWER(field) LIKE LOWER(?)`, bound to the value, the list, or the
      value between `%` signs for like. */
  function StringCond(field: string, op: FilterOperation): (r: Option<Cond>)
    requires ArityOk(op)
    ensures r.Some? <==> IsStringOperator(op.operator)
    ensures r.Some? ==> r.value.field == field
    ensures r.Some? && op.operator != OpLike ==>
      r.value.Sql() == field + " " + SqlOperator(op.operator) + " " + Placeholder
    ensures r.Some? && op.operator == OpLike ==>
      r.value.Sql() == "LOWER(" + field + ") LIKE LOWER(" + Placeholder + ")"
    ensures r.Some? ==>
      (r.value.Args() ==
        if op.operator in [OpIn, OpNotIn] then [TextList(op.values)]
        else if op.operator == OpLike then [Text("%" + op.values[0] + "%")]
        else [Text(op.values[0])])
  {
    if op.operator == OpEq then Some(Compare(field, Equal, Text(op.values[0])))
    else if op.operator == OpNeq then Some(Compare(field, NotEqual, Text(op.values[0])))
    else if op.operator == OpLike then Some(LikeLower(field, "%" + op.values[0] + "%"))
    else if op.operator == OpIn then Some(Compare(field, InList, TextList(op.values)))
    else if op.operator == OpNotIn then Some(Compare(field, NotInList, TextList(op.values)))
    else None
  }

  /** An operator the STRING builders know. */
  predicate IsStringOperator(op: Operator)
  {
    op == OpEq || op == OpNeq || op == OpLike || op == OpIn || op == OpNotIn
  }

  /** buildSingleStringScope: the column's condition, or the no-op scope
      for an operator outside the string operators. */
  function SingleStringScope(field: string, op: FilterOperation): (r: Scope)
    requires ArityOk(op)
    ensures r.Where? <==> IsStringOperator(op.operator)
    ensures !r.Where? ==> r == Identity
    ensures r.Where? ==> Some(r.cond) == StringCond(field, op) && r.cond.field == field
  {
    match StringCond(field, op)
    case Some(c) => Where(c)
    case None => Identity
  }

  /** The conditions the OR group collects, column by column: one per
      column for a string operator, none otherwise. */
  function StringConds(fields: seq<string>, op: FilterOperation): (r: seq<Cond>)
    requires ArityOk(op)
    ensures |r| == if IsStringOperator(op.operator) then |fields| else 0
  {
    if |fields| == 0 then []
    else
      var rest := StringConds(fields[..|fields| - 1], op);
      match StringCond(fields[|fields| - 1], op)
      case Some(c) => rest + [c]
      case None => rest
  }

  /** The OR group has one condition per column, in column order, when the
      operator is a STRING operator, and none otherwise. */
  lemma {:induction false} StringCondsShape(fields: seq<string>, op: FilterOperation)
    requires ArityOk(op)
    ensures IsStringOperator(op.operator) ==>
      |StringConds(fields, op)| == |fields| &&
      forall i :: 0 <= i < |fields| ==> Some(StringConds(fields, op)[i]) == StringCond(fields[i], op)
    ensures !IsStringOperator(op.operator) ==> StringConds(fields, op) == []
  {
    if |fields| > 0 {
      var init := fields[..|fields| - 1];
      StringCondsShape(init, op);
      if IsStringOperator(op.operator) {
        forall i | 0 <= i < |fields|
          ensures Some(StringConds(fields, op)[i]) == StringCond(fields[i], op)
        {
          if i < |fields| - 1 {
            assert fields[i] == init[i];
          }
        }
      }
    }
  }

  /** buildMultiStringScope: an OR group with one condition per column,
      or the no-op scope when the operator contributes no condition. */
  function MultiStringScope(fields: seq<string>, op: FilterOperation): (r: Scope)
    requires ArityOk(op)
    ensures r == Identity <==> !IsStringOperator(op.operator) || |fields| == 0
    ensures r != Identity ==> r.OrGroup? && |r.conds| == |fields|
  {
    var conds := StringConds(fields, op);
    if |conds| == 0 then Identity else OrGroup(conds)
  }

  method BuildMultiStringScope(fields: seq<string>, op: FilterOperation) returns (s: Scope)
    requires ArityOk(op)
    ensures s == MultiStringScope(fields, op)
  {
    var conditions: seq<Cond> := [];
    for i := 0 to |fields|
      invariant conditions == StringConds(fields[..i], op)
    {
      assert fields[..i + 1][..i] == fields[..i];
      var c := StringCond(fields[i], op);
      if c.Some? {
        conditions := conditions + [c.value];
      }
    }
    assert fields[..|fields|] == fields;
    if |conditions| == 0 {
      s := Identity;
    } else {
      s := OrGroup(conditions);
    }
  }

  /** buildStringScope: the no-op scope exactly for an operator outside
      the string operators; otherwise one clause on the one column, or an
      OR group with one condition per column. */
  function StringScope(fields: seq<string>, op: FilterOperation): (r: Scope)
    requires ArityOk(op) && |fields| >= 1
    ensures r == Identity <==> !IsStringOperator(op.operator)
    ensures r != Identity && |fields| == 1 ==> r.Where? && r.cond.field == fields[0]
    ensures r != Identity && |fields| > 1 ==> r.OrGroup? && |r.conds| == |fields|
  {
    if |fields| == 1 then SingleStringScope(fields[0], op) else MultiStringScope(fields, op)
  }

  method BuildStringScope(fields: seq<string>, op: FilterOperation) returns (s: Scope)
    requires ArityOk(op) && |fields| >= 1
    ensures s == StringScope(fields, op)
  {
    if |fields| == 1 {
      s := SingleStringScope(fields[0], op);
    } else {
      s := BuildMultiStringScope(fields, op);
    }
  }

  /** buildBoolScope: only eq, as `field = ?` bound to whether the value
      is "true" in any letter case. */
  function BoolScope(field: string, op: FilterOperation): (r: Option<Scope>)
    requires ArityOk(op)
    ensures r.Some? <==> op.operator == OpEq
    ensures r.Some? ==> r.value.Where? && r.value.cond.field == field
    ensures r.Some? ==> WhereSql(r.value) == field + " " + SqlOperator(OpEq) + " " + Placeholder
    ensures r.Some? ==> WhereArgs(r.value) == [Flag(ToLower(op.values[0]) == "true")]
  {
    if op.operator != OpEq then None
    else Some(Where(Compare(field, Equal, Flag(ToLower(op.values[0]) == "true"))))
  }

  /** Any letter case of "true" binds true; "1" and "yes" bind false. */
  lemma BoolFlagExamples(field: string)
    ensures BoolScope(field, FilterOperation(OpEq, ["TRUE"])) == Some(Where(Compare(field, Equal, Flag(true))))
    ensures BoolScope(field, FilterOperation(OpEq, ["True"])) == Some(Where(Compare(field, Equal, Flag(true))))
    ensures BoolScope(field, FilterOperation(OpEq, ["1"])) == Some(Where(Compare(field, Equal, Flag(false))))
    ensures BoolScope(field, FilterOperation(OpEq, ["yes"])) == Some(Where(Compare(field, Equal, Flag(false))))
  {
    assert ToLower("E") == "e";
    assert ToLower("UE") == "ue";
    assert ToLower("RUE") == "rue";
    assert ToLower("TRUE") == "true";
    assert ToLower("ue") == "ue";
    assert ToLower("rue") == "rue";
    assert ToLower("True") == "true";
    assert ToLower("1") == "1";
  }

  /** The number of values a date builder parses. */
  function UsedValues(op: FilterOperation): nat
  {
    if op.operator == OpBetween then 2 else 1
  }

  /** buildDateScope: a clause for exactly the date operators whose values
      all parse; eq and between become a BETWEEN range and gte and lte a
      comparison. How the days are widened is DateWidening. */
  function DateScope(field: string, op: FilterOperation, parse: string -> Option<int>): (r: Option<Scope>)
    requires ArityOk(op)
    ensures r.Some? <==> (op.operator in OperatorsByType(Date)
      && forall i :: 0 <= i < UsedValues(op) ==> parse(op.values[i]).Some?)
    ensures r.Some? ==> r.value.Where? && r.value.cond.field == field
    ensures r.Some? && op.operator in [OpEq, OpBetween] ==>
      WhereSql(r.value) == field + " BETWEEN " + Placeholder + " AND " + Placeholder
    ensures r.Some? && op.operator in [OpGte, OpLte] ==>
      WhereSql(r.value) == field + " " + SqlOperator(op.operator) + " " + Placeholder
  {
    if op.operator == OpEq then
      match parse(op.values[0])
      case None => None
      case Some(t) => Some(Where(Between(field, Instant(t), Instant(EndOfDay(t)))))
    else if op.operator == OpBetween then
      match parse(op.values[0])
      case None => None
      case Some(start) =>
        match parse(op.values[1])
        case None => None
        case Some(end) => Some(Where(Between(field, Instant(start), Instant(EndOfDay(end)))))
    else if op.operator == OpGte then
      match parse(op.values[0])
      case None => None
      case Some(t) => Some(Where(Compare(field, GreaterEq, Instant(t))))
    else if op.operator == OpLte then
      match parse(op.values[0])
      case None => None
      case Some(t) => Some(Where(Compare(field, LessEq, Instant(EndOfDay(t)))))
    else None
  }

  /** buildDateTimeScope: a clause for exactly the date operators whose
      values all parse: `field BETWEEN ? AND ?` for between and a
      comparison otherwise. DateTimeAsGiven gives its arguments. */
  function DateTimeScope(field: string, op: FilterOperation, parse: string -> Option<int>): (r: Option<Scope>)
    requires ArityOk(op)
    ensures r.Some? <==> (op.operator in OperatorsByType(DateTime)
      && forall i :: 0 <= i < UsedValues(op) ==> parse(op.values[i]).Some?)
    ensures r.Some? ==> r.value.Where? && r.value.cond.field == field
    ensures r.Some? && op.operator == OpBetween ==>
      WhereSql(r.value) == field + " BETWEEN " + Placeholder + " AND " + Placeholder
    ensures r.Some? && op.operator != OpBetween ==>
      WhereSql(r.value) == field + " " + SqlOperator(op.operator) + " " + Placeholder
  {
    if op.operator == OpEq then
      match parse(op.values[0])
      case None => None
      case Some(t) => Some(Where(Compare(field, Equal, Instant(t))))
    else if op.operator == OpBetween then
      match parse(op.values[0])
      case None => None
      case Some(start) =>
        match parse(op.values[1])
        case None => None
        case Some(end) => Some(Where(Between(field, Instant(start), Instant(end))))
    else if op.operator == OpGte then
      match parse(op.values[0])
      case None => None
      case Some(t) => Some(Where(Compare(field, GreaterEq, Instant(t))))
    else if op.operator == OpLte then
      match parse(op.values[0])
      case None => None
      case Some(t) => Some(Where(Compare(field, LessEq, Instant(t))))
    else None
  }

  /** A datetime clause binds exactly the parsed instants, in order, as
      given: no widening, unlike DateWidening. */
  lemma DateTimeAsGiven(field: string, op: FilterOperation, parse: string -> Option<int>)
    requires ArityOk(op) && DateTimeScope(field, op, parse).Some?
    ensures var c := DateTimeScope(field, op, parse).value;
      |WhereArgs(c)| == UsedValues(op) &&
      forall i :: 0 <= i < UsedValues(op) ==>
        parse(op.values[i]).Some? && WhereArgs(c)[i] == Instant(parse(op.values[i]).value)
  {
  }

  /** buildEnumScope: a clause exactly for eq and in when every value is
      whitelisted, `field = ?` or `field IN ?`. */
  function EnumScope(field: string, op: FilterOperation, allowedValues: seq<string>): (r: Option<Scope>)
    requires ArityOk(op)
    ensures r.Some? <==> op.operator in [OpEq, OpIn] && forall i :: 0 <= i < |op.values| ==> op.values[i] in allowedValues
    ensures r.Some? ==> r.value.Where? && r.value.cond.field == field
    ensures r.Some? ==> WhereSql(r.value) == field + " " + SqlOperator(op.operator) + " " + Placeholder
  {
    if exists v :: v in op.values && v !in allowedValues then None
    else if op.operator == OpEq then Some(Where(Compare(field, Equal, Text(op.values[0]))))
    else if op.operator == OpIn then Some(Where(Compare(field, InList, TextList(op.values))))
    else None
  }

  /** buildFilterScope: parse the first value, validate it, resolve the
      columns and dispatch on the type. A scope only comes from a valid
      first operation, is a filter clause (or the no-op scope, only for a
      STRING filter), and a single clause is on one of the columns. */
  function FilterScope(config: FilterConfig, values: seq<string>, loc: Location, cal: Calendar): (r: Option<Scope>)
    ensures r.Some? ==> |values| > 0 && IsValidOperation(ParseFilterOperation(values[0]), config)
    ensures r.Some? ==> r.value.Where? || r.value.OrGroup? || r.value.Identity?
    ensures r.Some? && !r.value.Where? ==> config.filterType == Str
    ensures r.Some? && r.value.Where? ==> r.value.cond.field in config.QualifiedFields()
  {
    if |values| == 0 then None
    else
      var op := ParseFilterOperation(values[0]);
      if !IsValidOperation(op, config) then None
      else
        var fields := config.QualifiedFields();
        if |fields| == 0 then None
        else TypedScope(config, fields, op, loc, cal)
  }

  /** The type-specific builder buildFilterScope dispatches to: nothing
      for an unknown type, an OR group or no-op scope only for STRING, and
      every single clause on one of the columns. */
  function TypedScope(config: FilterConfig, fields: seq<string>, op: FilterOperation, loc: Location, cal: Calendar): (r: Option<Scope>)
    requires ArityOk(op) && |fields| >= 1
    ensures r.Some? ==> !config.filterType.OtherType?
    ensures r.Some? ==> r.value.Where? || r.value.OrGroup? || r.value.Identity?
    ensures r.Some? && !r.value.Where? ==> config.filterType == Str
    ensures r.Some? && r.value.Where? ==> r.value.cond.field in fields
  {
    match config.filterType
    case ID | Number => NumericScope(fields[0], op)
    case Str => Some(StringScope(fields, op))
    case Bool => BoolScope(fields[0], op)
    case Date => DateScope(fields[0], op, s => cal.parseDate(loc, s))
    case DateTime => DateTimeScope(fields[0], op, s => cal.parseDateTime(loc, s))
    case Enum => EnumScope(fields[0], op, config.enumValues)
    case OtherType(_) => None
  }

  /** FilterScope once the value has been parsed and validated. */
  lemma FilterScopeValid(config: FilterConfig, values: seq<string>, loc: Location, cal: Calendar, op: FilterOperation)
    requires |values| > 0 && op == ParseFilterOperation(values[0]) && IsValidOperation(op, config)
    ensures FilterScope(config, values, loc, cal) == TypedScope(config, config.QualifiedFields(), op, loc, cal)
  {
  }

  // ---------------------------------------------------------------------
  // What the builders promise

  /** With the default operator table, an ID, NUMBER, STRING or BOOL filter
      yields a scope exactly when its operation is valid, and never the
      no-op scope: every default operator has a builder. */
  lemma DefaultOperatorsAreBuilt(config: FilterConfig, values: seq<string>, loc: Location, cal: Calendar)
    requires |config.operators| == 0 && |values| > 0
    requires config.filterType in {ID, Number, Str, Bool}
    ensures var s := FilterScope(config, values, loc, cal);
      (s.Some? <==> IsValidOperation(ParseFilterOperation(values[0]), config)) &&
      (s.Some? ==> s.value != Identity)
  {
    var op := ParseFilterOperation(values[0]);
    if IsValidOperation(op, config) {
      FilterScopeValid(config, values, loc, cal, op);
      DefaultTypedBuilt(config, config.QualifiedFields(), op, loc, cal);
    } else {
      InvalidOperationDropped(config, values, loc, cal);
    }
  }

  lemma DefaultTypedBuilt(config: FilterConfig, fields: seq<string>, op: FilterOperation, loc: Location, cal: Calendar)
    requires |config.operators| == 0 && config.filterType in {ID, Number, Str, Bool}
    requires IsValidOperation(op, config) && |fields| >= 1
    ensures var s := TypedScope(config, fields, op, loc, cal); s.Some? && s.value != Identity
  {
    assert op.operator in OperatorsByType(config.filterType);
    match config.filterType
    case ID | Number => NumericOperatorsBuilt(fields[0], op);
    case Str => StringOperatorsBuilt(fields, op);
    case Bool =>
  }

  lemma NumericOperatorsBuilt(field: string, op: FilterOperation)
    requires ArityOk(op) && op.operator in OperatorsByType(Number)
    ensures NumericScope(field, op).Some? && NumericScope(field, op).value != Identity
  {
  }

  lemma StringOperatorsBuilt(fields: seq<string>, op: FilterOperation)
    requires ArityOk(op) && |fields| >= 1 && op.operator in OperatorsByType(Str)
    ensures StringScope(fields, op) != Identity
  {
    assert IsStringOperator(op.operator);
    StringCondsShape(fields, op);
  }

  /** An operation that fails validation yields no scope (fails open). */
  lemma InvalidOperationDropped(config: FilterConfig, values: seq<string>, loc: Location, cal: Calendar)
    requires |values| > 0 && !IsValidOperation(ParseFilterOperation(values[0]), config)
    ensures FilterScope(config, values, loc, cal) == None
  {
  }

  /** A BOOL filter accepts only `eq`: `between` (or any other operator)
      never yields a scope. */
  lemma BoolOnlyEquals(config: FilterConfig, values: seq<string>, loc: Location, cal: Calendar)
    requires config.filterType == Bool && |values| > 0
    requires ParseFilterOperation(values[0]).operator != OpEq
    ensures FilterScope(config, values, loc, cal) == None
  {
  }

  lemma BoolBetweenDropped(config: FilterConfig, x: string, y: string, loc: Location, cal: Calendar)
    requires config.filterType == Bool
    ensures FilterScope(config, [OpBetween + ":" + x + "," + y], loc, cal) == None
  {
    var p := OpBetween + ":";
    ConcatAssoc(p + x, ",", y);
    ConcatAssoc(p, x, "," + y);
    ParsePrefixed(OpBetween, x + ("," + y));
    BoolOnlyEquals(config, [OpBetween + ":" + x + "," + y], loc, cal);
  }

  /** The value text after the first `:`, as the parser sees it. */
  lemma ParsePrefixed(opName: string, rest: string)
    requires ':' !in opName
    ensures ParseFilterOperation(opName + ":" + rest) == FilterOperation(opName, Split(rest, ','))
  {
    var v := opName + ":" + rest;
    assert v == opName + [':'] + rest;
    IndexOfPrefix(opName, ':', rest);
    assert v[..|opName|] == opName && v[|opName| + 1..] == rest;
  }

  /** ENUM filters fail closed: one value outside the whitelist drops the
      whole filter; otherwise eq compares with the value and in with the
      full list. */
  lemma EnumWhitelist(config: FilterConfig, values: seq<string>, loc: Location, cal: Calendar)
    requires config.filterType == Enum && |values| > 0
    requires IsValidOperation(ParseFilterOperation(values[0]), config)
    ensures var op := ParseFilterOperation(values[0]);
      var field := config.QualifiedFields()[0];
      var s := FilterScope(config, values, loc, cal);
      && ((exists v :: v in op.values && v !in config.enumValues) ==> s == None)
      && ((forall v :: v in op.values ==> v in config.enumValues) ==>
            && (op.operator == OpEq ==> s == Some(Where(Compare(field, Equal, Text(op.values[0])))))
            && (op.operator == OpIn ==> s == Some(Where(Compare(field, InList, TextList(op.values))))))
  {
  }

  /** Two comma-separated values after the operator. */
  lemma ParsePair(opName: string, a: string, b: string)
    requires ':' !in opName && ',' !in a && ',' !in b
    ensures ParseFilterOperation(opName + ":" + a + "," + b) == FilterOperation(opName, [a, b])
  {
    var p := opName + ":";
    ConcatAssoc(p + a, ",", b);
    ConcatAssoc(p, a, "," + b);
    assert a + ("," + b) == a + [','] + b;
    ParsePrefixed(opName, a + [','] + b);
    SplitAround(a, ',', b);
    SplitNone(a, ',');
    SplitNone(b, ',');
  }

  /** `role=in:admin,bogus` against a whitelist holding admin but not
      bogus gives no scope at all, not a filter on admin alone. */
  lemma EnumBogusValueDropsAll(config: FilterConfig, good: string, bogus: string, loc: Location, cal: Calendar)
    requires config.filterType == Enum && OpIn in config.AllowedOperators()
    requires ',' !in good && ',' !in bogus
    requires good in config.enumValues && bogus !in config.enumValues
    ensures FilterScope(config, [OpIn + ":" + good + "," + bogus], loc, cal) == None
  {
    var values := [OpIn + ":" + good + "," + bogus];
    var op := FilterOperation(OpIn, [good, bogus]);
    ParsePair(OpIn, good, bogus);
    assert ParseFilterOperation(values[0]) == op;
    assert IsValidOperation(op, config);
    EnumWhitelist(config, values, loc, cal);
    assert bogus in op.values;
  }

  /** DATE filters: eq and between end at the last nanosecond of the (last)
      day, 24h - 1ns after its start; gte starts at the day's start and lte
      ends at the day's last nanosecond. */
  lemma DateWidening(field: string, d: string, e: string, parse: string -> Option<int>, t: int, u: int)
    requires parse(d) == Some(t) && parse(e) == Some(u)
    ensures DateScope(field, FilterOperation(OpEq, [d]), parse)
         == Some(Where(Between(field, Instant(t), Instant(t + 86_399_999_999_999))))
    ensures DateScope(field, FilterOperation(OpBetween, [d, e]), parse)
         == Some(Where(Between(field, Instant(t), Instant(u + 86_399_999_999_999))))
    ensures DateScope(field, FilterOperation(OpGte, [d]), parse) == Some(Where(Compare(field, GreaterEq, Instant(t))))
    ensures DateScope(field, FilterOperation(OpLte, [d]), parse)
         == Some(Where(Compare(field, LessEq, Instant(t + 86_399_999_999_999))))
  {
  }

  /** Any date that does not parse drops a DATE or DATETIME filter. */
  lemma UnparseableDateDropped(field: string, op: FilterOperation, parse: string -> Option<int>, i: nat)
    requires ArityOk(op) && i < |op.values| && parse(op.values[i]) == None
    requires op.operator in [OpEq, OpBetween, OpGte, OpLte]
    ensures DateScope(field, op, parse) == None
    ensures DateTimeScope(field, op, parse) == None
  {
  }

  /** `eq:d` and `between:d,d` on a DATE filter that allows both or
      neither give the identical scope, for every text d: the same
      whole-day range when d is one date, and no scope for either when
      d does not parse, holds a comma, or neither operator is allowed. */
  lemma DateEqualsIsBetweenSameDay(config: FilterConfig, d: string, loc: Location, cal: Calendar)
    requires config.filterType == Date
    requires (OpEq in config.AllowedOperators()) == (OpBetween in config.AllowedOperators())
    ensures FilterScope(config, [OpEq + ":" + d], loc, cal)
         == FilterScope(config, [OpBetween + ":" + d + "," + d], loc, cal)
  {
    if ',' !in d {
      DateSameDaySingle(config, d, loc, cal);
    } else {
      DateSameDayComma(config, d, loc, cal);
    }
  }

  lemma DateSameDaySingle(config: FilterConfig, d: string, loc: Location, cal: Calendar)
    requires config.filterType == Date && ',' !in d
    requires (OpEq in config.AllowedOperators()) == (OpBetween in config.AllowedOperators())
    ensures FilterScope(config, [OpEq + ":" + d], loc, cal)
         == FilterScope(config, [OpBetween + ":" + d + "," + d], loc, cal)
  {
    if OpEq in config.AllowedOperators() {
      DateEqTyped(config, d, loc, cal);
      DateBetweenTyped(config, d, loc, cal);
      DateTyped(config, config.QualifiedFields(), d, loc, cal);
    } else {
      ParseSingle(OpEq, d);
      ParsePair(OpBetween, d, d);
      InvalidOperationDropped(config, [OpEq + ":" + d], loc, cal);
      InvalidOperationDropped(config, [OpBetween + ":" + d + "," + d], loc, cal);
    }
  }

  lemma DateEqTyped(config: FilterConfig, d: string, loc: Location, cal: Calendar)
    requires OpEq in config.AllowedOperators() && ',' !in d
    ensures FilterScope(config, [OpEq + ":" + d], loc, cal)
         == TypedScope(config, config.QualifiedFields(), FilterOperation(OpEq, [d]), loc, cal)
  {
    SingleScope(config, OpEq, d, loc, cal);
  }

  lemma SingleScope(config: FilterConfig, opName: string, a: string, loc: Location, cal: Calendar)
    requires ':' !in opName && ',' !in a
    requires IsValidOperation(FilterOperation(opName, [a]), config)
    ensures FilterScope(config, [opName + ":" + a], loc, cal)
         == TypedScope(config, config.QualifiedFields(), FilterOperation(opName, [a]), loc, cal)
  {
    ParseSingle(opName, a);
    FilterScopeValid(config, [opName + ":" + a], loc, cal, FilterOperation(opName, [a]));
  }

  lemma DateBetweenTyped(config: FilterConfig, d: string, loc: Location, cal: Calendar)
    requires OpBetween in config.AllowedOperators() && ',' !in d
    ensures FilterScope(config, [OpBetween + ":" + d + "," + d], loc, cal)
         == TypedScope(config, config.QualifiedFields(), FilterOperation(OpBetween, [d, d]), loc, cal)
  {
    PairScope(config, OpBetween, d, d, loc, cal);
  }

  lemma PairScope(config: FilterConfig, opName: string, a: string, b: string, loc: Location, cal: Calendar)
    requires ':' !in opName && ',' !in a && ',' !in b
    requires IsValidOperation(FilterOperation(opName, [a, b]), config)
    ensures FilterScope(config, [opName + ":" + a + "," + b], loc, cal)
         == TypedScope(config, config.QualifiedFields(), FilterOperation(opName, [a, b]), loc, cal)
  {
    ParsePair(opName, a, b);
    FilterScopeValid(config, [opName + ":" + a + "," + b], loc, cal, FilterOperation(opName, [a, b]));
  }

  lemma ParseSingle(opName: string, a: string)
    requires ':' !in opName && ',' !in a
    ensures ParseFilterOperation(opName + ":" + a) == FilterOperation(opName, [a])
  {
    ParsePrefixed(opName, a);
    SplitNone(a, ',');
  }

  lemma DateTyped(config: FilterConfig, fields: seq<string>, d: string, loc: Location, cal: Calendar)
    requires config.filterType == Date && |fields| >= 1
    ensures TypedScope(config, fields, FilterOperation(OpEq, [d]), loc, cal)
         == TypedScope(config, fields, FilterOperation(OpBetween, [d, d]), loc, cal)
  {
  }

  lemma DateSameDayComma(config: FilterConfig, d: string, loc: Location, cal: Calendar)
    requires ',' in d
    ensures FilterScope(config, [OpEq + ":" + d], loc, cal) == None
    ensures FilterScope(config, [OpBetween + ":" + d + "," + d], loc, cal) == None
  {
    CommaArity(d);
    InvalidOperationDropped(config, [OpEq + ":" + d], loc, cal);
    InvalidOperationDropped(config, [OpBetween + ":" + d + "," + d], loc, cal);
  }

  /** A comma inside the day gives eq more than one value and between more
      than two. */
  lemma CommaArity(d: string)
    requires ',' in d
    ensures !ArityOk(ParseFilterOperation(OpEq + ":" + d))
    ensures !ArityOk(ParseFilterOperation(OpBetween + ":" + d + "," + d))
  {
    CountPositive(d, ',');
    EqCommaArity(d);
    BetweenCommaArity(d);
  }

  lemma EqCommaArity(d: string)
    requires Count(d, ',') >= 1
    ensures !ArityOk(ParseFilterOperation(OpEq + ":" + d))
  {
    ParsePrefixed(OpEq, d);
    assert |Split(d, ',')| >= 2;
  }

  lemma BetweenCommaArity(d: string)
    requires Count(d, ',') >= 1
    ensures !ArityOk(ParseFilterOperation(OpBetween + ":" + d + "," + d))
  {
    PairValues(OpBetween, d);
  }

  /** The values of `name:a,a`: at least four when `a` holds a comma. */
  lemma PairValues(opName: string, a: string)
    requires ':' !in opName && Count(a, ',') >= 1
    ensures var op := ParseFilterOperation(opName + ":" + a + "," + a);
      op.operator == opName && |op.values| >= 4
  {
    var p, rest := opName + ":", a + ("," + a);
    ConcatAssoc(p + a, ",", a);
    ConcatAssoc(p, a, "," + a);
    ParsePrefixed(opName, rest);
    CountAppend(a, "," + a, ',');
    CountAppend(",", a, ',');
    assert |Split(rest, ',')| == Count(rest, ',') + 1;
  }

  lemma CountPositive(s: string, c: char)
    requires c in s
    ensures Count(s, c) >= 1
  {
    if s[0] != c {
      assert c in s[1..] by {
        var i :| 0 <= i < |s| && s[i] == c;
        assert s[1..][i - 1] == c;
      }
      CountPositive(s[1..], c);
    }
  }

  /** A STRING filter over several search fields is one OR group with one
      case-insensitive substring condition per column, in column order
      (name OR email). */
  lemma MultiFieldLike(config: FilterConfig, v: string, loc: Location, cal: Calendar)
    requires config.filterType == Str && OpLike in config.AllowedOperators()
    requires |config.searchFields| >= 2 && ',' !in v
    ensures FilterScope(config, [OpLike + ":" + v], loc, cal)
      == Some(OrGroup(LikeConditions(config.QualifiedFields(), v)))
  {
    var op := FilterOperation(OpLike, [v]);
    ParseSingle(OpLike, v);
    assert IsValidOperation(op, config);
    FilterScopeValid(config, [OpLike + ":" + v], loc, cal, op);
    var fields := config.QualifiedFields();
    assert |fields| >= 2;
    LikeConds(fields, v);
    var want := LikeConditions(fields, v);
    assert StringScope(fields, op) == MultiStringScope(fields, op) == OrGroup(want);
    assert TypedScope(config, fields, op, loc, cal) == Some(OrGroup(want));
  }

  /** One case-insensitive substring condition per column, in column
      order. */
  function LikeConditions(fields: seq<string>, v: string): seq<Cond>
  {
    seq(|fields|, i requires 0 <= i < |fields| => LikeLower(fields[i], "%" + v + "%"))
  }

  lemma LikeConds(fields: seq<string>, v: string)
    ensures StringConds(fields, FilterOperation(OpLike, [v])) == LikeConditions(fields, v)
  {
    var op := FilterOperation(OpLike, [v]);
    assert OpLike != OpBetween && ArityOk(op);
    StringCondsShape(fields, op);
    var conds := StringConds(fields, op);
    var want := LikeConditions(fields, v);
    assert |conds| == |want|;
    forall i | 0 <= i < |fields| ensures conds[i] == want[i] {
      assert Some(conds[i]) == StringCond(fields[i], op);
      LikeCond(fields[i], v);
    }
    assert conds == want;
  }

  lemma LikeCond(field: string, v: string)
    ensures StringCond(field, FilterOperation(OpLike, [v])) == Some(LikeLower(field, "%" + v + "%"))
  {
    assert OpLike != OpEq && OpLike != OpNeq;
  }

  lemma CountJoinSql(conds: seq<Cond>)
    requires forall i :: 0 <= i < |conds| ==> '?' !in conds[i].field
    ensures Count(JoinSql(conds), '?') == |ConcatArgs(conds)|
  {
    if |conds| > 0 {
      CondPlaceholders(conds[0]);
      if |conds| > 1 {
        CountJoinSql(conds[1..]);
        CountAbsent(" OR ", '?');
        CountAppend(conds[0].Sql(), " OR ", '?');
        CountAppend(conds[0].Sql() + " OR ", JoinSql(conds[1..]), '?');
      }
    }
  }

  lemma CondPlaceholders(c: Cond)
    requires '?' !in c.field
    ensures Count(c.Sql(), '?') == |c.Args()|
  {
    match c
    case Compare(f, cmp, a) => ComparePlaceholders(f, cmp, a);
    case LikeLower(f, p) => LikePlaceholders(f, p);
    case Between(f, lo, hi) => BetweenPlaceholders(f, lo, hi);
  }

  /** Count over the concatenation of a placeholder-free prefix and a
      placeholder. */
  lemma CountThen(a: string, b: string, c: char)
    requires c !in a
    ensures Count(a + b, c) == Count(b, c)
  {
    CountAbsent(a, c);
    CountAppend(a, b, c);
  }

  lemma PlaceholderCount()
    ensures Count(Placeholder, '?') == 1
  {
  }

  lemma ComparePlaceholders(f: string, cmp: Comparison, a: Arg)
    requires '?' !in f
    ensures Count(Compare(f, cmp, a).Sql(), '?') == 1
  {
    var pre := f + " " + cmp.Symbol() + " ";
    assert '?' !in cmp.Symbol();
    assert '?' !in pre;
    assert Compare(f, cmp, a).Sql() == pre + Placeholder;
    CountThen(pre, Placeholder, '?');
    PlaceholderCount();
  }

  lemma LikePlaceholders(f: string, p: string)
    requires '?' !in f
    ensures Count(LikeLower(f, p).Sql(), '?') == 1
  {
    var pre := "LOWER(" + f + ") LIKE LOWER(";
    assert '?' !in pre;
    assert LikeLower(f, p).Sql() == pre + (Placeholder + ")");
    CountThen(pre, Placeholder + ")", '?');
    CountAppend(Placeholder, ")", '?');
    CountAbsent(")", '?');
    PlaceholderCount();
  }

  lemma BetweenPlaceholders(f: string, lo: Arg, hi: Arg)
    requires '?' !in f
    ensures Count(Between(f, lo, hi).Sql(), '?') == 2
  {
    var pre := f + " BETWEEN ";
    var mid := " AND ";
    assert '?' !in pre && '?' !in mid;
    assert Between(f, lo, hi).Sql() == pre + (Placeholder + (mid + Placeholder));
    CountThen(pre, Placeholder + (mid + Placeholder), '?');
    CountAppend(Placeholder, mid + Placeholder, '?');
    CountThen(mid, Placeholder, '?');
    PlaceholderCount();
  }

  /** Column names reach the SQL text, values never do: every filter scope
      has exactly one `?` per bound argument, as long as the configured
      column names hold no `?`. */
  lemma PlaceholdersMatchArgs(s: Scope)
    requires s.Where? ==> '?' !in s.cond.field
    requires s.OrGroup? ==> forall i :: 0 <= i < |s.conds| ==> '?' !in s.conds[i].field
    ensures Count(WhereSql(s), '?') == |WhereArgs(s)|
  {
    match s
    case Where(c) => CondPlaceholders(c);
    case OrGroup(cs) =>
      CountJoinSql(cs);
      CountAbsent("(", '?');
      CountAbsent(")", '?');
      CountAppend("(", JoinSql(cs), '?');
      CountAppend("(" + JoinSql(cs), ")", '?');
    case _ =>
  }

  // ---------------------------------------------------------------------
  // Limit, offset and order

  /** The first value supplied for a key, if any. */
  function FirstValue(conditions: map<string, seq<string>>, key: string): (r: Option<string>)
    ensures r.Some? <==> key in conditions && |conditions[key]| > 0
    ensures r.Some? ==> r.value == conditions[key][0]
  {
    if key in conditions && |conditions[key]| > 0 then Some(conditions[key][0]) else None
  }

  /** The integer the client asked for under `key`, if it parses. */
  function Requested(conditions: map<string, seq<string>>, key: string): Option<int>
  {
    match FirstValue(conditions, key)
    case None => None
    case Some(s) => Atoi(s)
  }

  /** parseLimit: a positive request capped at the maximum; anything else
      (absent, empty, not a number, zero or negative) gives the default. */
  function ParseLimit(conditions: map<string, seq<string>>, defaultLimit: int, maxLimit: int): (limit: int)
    ensures var req := Requested(conditions, QueryKeyLimit);
      if req.Some? && req.value > 0
      then limit == (if req.value <= maxLimit then req.value else maxLimit)
      else limit == defaultLimit
  {
    if QueryKeyLimit in conditions && |conditions[QueryKeyLimit]| > 0 then
      match Atoi(conditions[QueryKeyLimit][0])
      case Some(limit) =>
        if limit > 0 then (if limit <= maxLimit then limit else maxLimit) else defaultLimit
      case None => defaultLimit
    else defaultLimit
  }

  /** With positive defaults no request escapes the range 1..max, except
      that the default limit itself is not capped. */
  lemma LimitBounds(conditions: map<string, seq<string>>, defaultLimit: int, maxLimit: int)
    requires 0 < defaultLimit && 0 < maxLimit
    ensures 0 < ParseLimit(conditions, defaultLimit, maxLimit)
    ensures ParseLimit(conditions, defaultLimit, maxLimit) <= maxLimit || ParseLimit(conditions, defaultLimit, maxLimit) == defaultLimit
  {
  }

  /** A request above the maximum is capped (500 with a maximum of 50). */
  lemma MaxLimitEnforced()
    ensures ParseLimit(map[QueryKeyLimit := ["500"]], WithDefaults(Options(0, 50, "", None)).defaultLimit, 50) == 50
  {
    var s := "500";
    assert AllDigits(s);
    assert s[..2] == "50" && s[..2][..1] == "5" && s[..2][..1][..0] == "";
    assert DigitsValue("5") == 5;
    assert DigitsValue("50") == 50;
    assert DigitsValue(s) == 500;
    assert Atoi(s) == Some(500);
  }

  /** parseOffset: a non-negative request, else 0. */
  function ParseOffset(conditions: map<string, seq<string>>): (offset: int)
    ensures offset >= 0
    ensures var req := Requested(conditions, QueryKeyOffset);
      offset == if req.Some? && req.value >= 0 then req.value else 0
  {
    if QueryKeyOffset in conditions && |conditions[QueryKeyOffset]| > 0 then
      match Atoi(conditions[QueryKeyOffset][0])
      case Some(offset) => if offset >= 0 then offset else 0
      case None => 0
    else 0
  }

  /** The field named by the first token of a sort clause: the text after
      the first `.`, when there is one. */
  function SortFieldName(token: string): string
  {
    if '.' in token then After(token, '.') else token
  }

  /** A sort clause's first token names a registered, allowed sort field,
      and a qualifier, when given and the field declares a table name,
      equals that table name. */
  predicate SortTokenValid(token: string, sorts: map<string, SortConfig>)
  {
    var name := SortFieldName(token);
    && name in sorts
    && sorts[name].allowed
    && (sorts[name].tableName != "" && '.' in token ==> Before(token, '.') == sorts[name].tableName)
  }

  /** A comma clause is valid when it is blank or its first token is. */
  predicate ClauseValid(part: string, sorts: map<string, SortConfig>)
  {
    var tokens := Fields(TrimSpace(part));
    |tokens| == 0 || SortTokenValid(tokens[0], sorts)
  }

  /** The whole order string is valid: it is empty, or every clause is. */
  predicate OrderValid(order: string, sorts: map<string, SortConfig>)
  {
    order == "" || forall part :: part in Split(order, ',') ==> ClauseValid(part, sorts)
  }

  /** validateOrder: stops at the first bad clause. */
  method ValidateOrder(order: string, filterDef: FilterDefinition) returns (ok: bool)
    ensures ok == OrderValid(order, filterDef.sorts)
  {
    if order == "" {
      return true;
    }
    var parts := Split(order, ',');
    var i := 0;
    while i < |parts|
      invariant 0 <= i <= |parts|
      invariant forall j :: 0 <= j < i ==> ClauseValid(parts[j], filterDef.sorts)
    {
      var fieldParts := Fields(TrimSpace(parts[i]));
      if |fieldParts| > 0 {
        var field := fieldParts[0];
        var fieldNameOnly := field;
        if '.' in field {
          fieldNameOnly := SplitN2(field, '.')[1];
        }
        if fieldNameOnly !in filterDef.sorts || !filterDef.sorts[fieldNameOnly].allowed {
          assert !ClauseValid(parts[i], filterDef.sorts);
          return false;
        }
        var sortConfig := filterDef.sorts[fieldNameOnly];
        if sortConfig.tableName != "" && '.' in field {
          var tableName := SplitN2(field, '.')[0];
          if tableName != sortConfig.tableName {
            assert !ClauseValid(parts[i], filterDef.sorts);
            return false;
          }
        }
      }
      i := i + 1;
    }
    return true;
  }

  /** parseOrder: the supplied order when it validates, else the default;
      the result is the default or a valid supplied order. */
  function ParseOrder(conditions: map<string, seq<string>>, defaultOrder: string, sorts: map<string, SortConfig>): (r: string)
    ensures r == defaultOrder || (FirstValue(conditions, QueryKeySort) == Some(r) && OrderValid(r, sorts))
  {
    match FirstValue(conditions, QueryKeySort)
    case Some(order) => if OrderValid(order, sorts) then order else defaultOrder
    case None => defaultOrder
  }

  /** The order is never partial: it is either the supplied sort string,
      exactly, or the default; the supplied one is kept iff it validates
      (or happens to be the default). */
  lemma OrderAllOrNothing(conditions: map<string, seq<string>>, defaultOrder: string, sorts: map<string, SortConfig>)
    ensures var r := ParseOrder(conditions, defaultOrder, sorts);
      r == defaultOrder || FirstValue(conditions, QueryKeySort) == Some(r)
    ensures FirstValue(conditions, QueryKeySort).Some? ==>
      var o := FirstValue(conditions, QueryKeySort).value;
      (ParseOrder(conditions, defaultOrder, sorts) == o <==> OrderValid(o, sorts) || o == defaultOrder)
  {
  }

  /** A clause naming an unregistered field invalidates the whole string. */
  lemma {:induction false} UnknownSortFieldFallsBack(conditions: map<string, seq<string>>, defaultOrder: string,
                                                     sorts: map<string, SortConfig>, order: string, k: nat)
    requires FirstValue(conditions, QueryKeySort) == Some(order)
    requires k < |Split(order, ',')|
    requires var tokens := Fields(TrimSpace(Split(order, ',')[k]));
      |tokens| > 0 && SortFieldName(tokens[0]) !in sorts
    ensures ParseOrder(conditions, defaultOrder, sorts) == defaultOrder
  {
    var part := Split(order, ',')[k];
    assert part in Split(order, ',');
    assert !ClauseValid(part, sorts);
  }

  // ---------------------------------------------------------------------
  // Assembly

  /** The scope contributed by one condition key: none for a key without a
      registered filter or whose filter is dropped. */
  function KeyScopes(key: string, conditions: map<string, seq<string>>, filters: map<string, FilterConfig>,
                     loc: Location, cal: Calendar): (r: seq<Scope>)
    ensures |r| <= 1
  {
    if key in conditions && key in filters then
      match FilterScope(filters[key], conditions[key], loc, cal)
      case Some(s) => [s]
      case None => []
    else []
  }

  /** `f(k)` for every key of `keys`, concatenated in key order. */
  function Collect<K, V>(keys: seq<K>, f: K -> seq<V>): seq<V>
  {
    if |keys| == 0 then []
    else Collect(keys[..|keys| - 1], f) + f(keys[|keys| - 1])
  }

  lemma {:induction false} CollectBound<K, V>(keys: seq<K>, f: K -> seq<V>)
    requires forall k :: |f(k)| <= 1
    ensures |Collect(keys, f)| <= |keys|
  {
    if |keys| > 0 {
      CollectBound(keys[..|keys| - 1], f);
    }
  }

  lemma CollectSnoc<K, V>(keys: seq<K>, k: K, f: K -> seq<V>)
    ensures Collect(keys + [k], f) == Collect(keys, f) + f(k)
  {
    assert (keys + [k])[..|keys|] == keys;
  }

  lemma {:induction false} CollectAppend<K, V>(a: seq<K>, b: seq<K>, f: K -> seq<V>)
    ensures Collect(a + b, f) == Collect(a, f) + Collect(b, f)
    decreases |b|
  {
    if |b| == 0 {
      assert a + b == a;
    } else {
      var b' := b[..|b| - 1];
      assert (a + b)[..|a + b| - 1] == a + b';
      assert (a + b)[|a + b| - 1] == b[|b| - 1];
      CollectAppend(a, b', f);
    }
  }

  lemma {:induction false} CollectMembers<K, V>(keys: seq<K>, f: K -> seq<V>, v: V)
    ensures v in Collect(keys, f) <==> exists k :: k in keys && v in f(k)
  {
    if |keys| > 0 {
      var init := keys[..|keys| - 1];
      var last := keys[|keys| - 1];
      CollectMembers(init, f, v);
      assert keys == init + [last];
      assert forall k :: k in keys <==> k in init || k == last;
    }
  }

  /** Taking one key out of the middle of the order takes its part out. */
  lemma CollectMiddle<K, V>(b1: seq<K>, x: K, b2: seq<K>, f: K -> seq<V>)
    ensures multiset(Collect(b1 + [x] + b2, f)) == multiset(Collect(b1 + b2, f)) + multiset(f(x))
  {
    CollectAppend(b1, b2, f);
    CollectAppend(b1 + [x], b2, f);
    CollectSnoc(b1, x, f);
  }

  lemma {:induction false} CollectPermute<K, V>(a: seq<K>, b: seq<K>, f: K -> seq<V>)
    requires multiset(a) == multiset(b)
    ensures multiset(Collect(a, f)) == multiset(Collect(b, f))
    decreases |a|
  {
    if |a| == 0 {
      assert |b| == |multiset(b)| == 0;
    } else {
      var init := a[..|a| - 1];
      var x := a[|a| - 1];
      assert a == init + [x];
      assert x in multiset(b);
      var j :| 0 <= j < |b| && b[j] == x;
      var b1, b2 := b[..j], b[j + 1..];
      assert b == b1 + [x] + b2;
      RemoveOne(init, x, b1, b2);
      CollectPermute(init, b1 + b2, f);
      CollectMiddle(b1, x, b2, f);
    }
  }

  lemma RemoveOne<K>(init: seq<K>, x: K, b1: seq<K>, b2: seq<K>)
    requires multiset(init + [x]) == multiset(b1 + [x] + b2)
    ensures multiset(init) == multiset(b1 + b2)
  {
    assert multiset(init + [x]) == multiset(init) + multiset{x};
    assert multiset(b1 + [x] + b2) == multiset(b1) + multiset{x} + multiset(b2);
    assert multiset(b1 + b2) == multiset(b1) + multiset(b2);
    var m1, m2 := multiset(init), multiset(b1 + b2);
    assert m1 + multiset{x} == m2 + multiset{x};
    forall y ensures m1[y] == m2[y] {
      assert (m1 + multiset{x})[y] == m1[y] + multiset{x}[y];
      assert (m2 + multiset{x})[y] == m2[y] + multiset{x}[y];
    }
  }

  /** KeyScopes as a function of the key alone. */
  function KeyScopeFn(conditions: map<string, seq<string>>, filters: map<string, FilterConfig>,
                      loc: Location, cal: Calendar): (f: string -> seq<Scope>)
    ensures forall k :: f(k) == KeyScopes(k, conditions, filters, loc, cal)
  {
    k => KeyScopes(k, conditions, filters, loc, cal)
  }

  /** The filter scopes, for the keys taken in the given order. */
  function FilterScopes(keys: seq<string>, conditions: map<string, seq<string>>, filters: map<string, FilterConfig>,
                        loc: Location, cal: Calendar): (r: seq<Scope>)
    ensures |r| <= |keys|
  {
    CollectBound(keys, KeyScopeFn(conditions, filters, loc, cal));
    Collect(keys, KeyScopeFn(conditions, filters, loc, cal))
  }

  /** One more key in the order adds its scope, if any, at the end. */
  lemma FilterScopesSnoc(keys: seq<string>, k: string, conditions: map<string, seq<string>>,
                         filters: map<string, FilterConfig>, loc: Location, cal: Calendar)
    ensures FilterScopes(keys + [k], conditions, filters, loc, cal)
         == FilterScopes(keys, conditions, filters, loc, cal) + KeyScopes(k, conditions, filters, loc, cal)
  {
    CollectSnoc(keys, k, KeyScopeFn(conditions, filters, loc, cal));
  }

  /** `order` lists every key of `keys` exactly once (a map iteration order). */
  ghost predicate Enumerates(order: seq<string>, keys: set<string>)
  {
    && (forall i, j :: 0 <= i < j < |order| ==> order[i] != order[j])
    && (forall k :: k in order <==> k in keys)
  }

  /** A filter scope is in the list iff some recognised key produced it. */
  lemma FilterScopesMembers(keys: seq<string>, conditions: map<string, seq<string>>,
                            filters: map<string, FilterConfig>, loc: Location, cal: Calendar, s: Scope)
    ensures s in FilterScopes(keys, conditions, filters, loc, cal) <==>
      exists k :: k in keys && k in conditions && k in filters && FilterScope(filters[k], conditions[k], loc, cal) == Some(s)
  {
    var f := KeyScopeFn(conditions, filters, loc, cal);
    CollectMembers(keys, f, s);
    forall k | k in keys
      ensures s in f(k) <==> k in conditions && k in filters && FilterScope(filters[k], conditions[k], loc, cal) == Some(s)
    {
    }
  }

  lemma FilterScopesAppend(a: seq<string>, b: seq<string>, conditions: map<string, seq<string>>,
                           filters: map<string, FilterConfig>, loc: Location, cal: Calendar)
    ensures FilterScopes(a + b, conditions, filters, loc, cal)
         == FilterScopes(a, conditions, filters, loc, cal) + FilterScopes(b, conditions, filters, loc, cal)
  {
    CollectAppend(a, b, KeyScopeFn(conditions, filters, loc, cal));
  }

  lemma {:induction false} DistinctMultiset(s: seq<string>, x: string)
    requires forall i, j :: 0 <= i < j < |s| ==> s[i] != s[j]
    ensures multiset(s)[x] == if x in s then 1 else 0
  {
    if |s| > 0 {
      var init := s[..|s| - 1];
      assert s == init + [s[|s| - 1]];
      DistinctMultiset(init, x);
      if x == s[|s| - 1] {
        assert x !in init;
      }
    }
  }

  /** Any two iteration orders of the same keys agree as multisets. */
  lemma EnumerationsPermute(a: seq<string>, b: seq<string>, keys: set<string>)
    requires Enumerates(a, keys) && Enumerates(b, keys)
    ensures multiset(a) == multiset(b)
  {
    forall x ensures multiset(a)[x] == multiset(b)[x] {
      DistinctMultiset(a, x);
      DistinctMultiset(b, x);
    }
  }

  /** The filter scopes do not depend on the map iteration order, up to
      their order: two passes over the same conditions (Apply and
      ApplyWithoutMeta, say) produce the same multiset of scopes. */
  lemma FilterScopesOrderIndependent(a: seq<string>, b: seq<string>, conditions: map<string, seq<string>>,
                                     filters: map<string, FilterConfig>, loc: Location, cal: Calendar)
    requires Enumerates(a, conditions.Keys) && Enumerates(b, conditions.Keys)
    ensures multiset(FilterScopes(a, conditions, filters, loc, cal)) == multiset(FilterScopes(b, conditions, filters, loc, cal))
  {
    EnumerationsPermute(a, b, conditions.Keys);
    CollectPermute(a, b, KeyScopeFn(conditions, filters, loc, cal));
  }

  /** The live query state of one request. */
  class Pagination {
    var limit: int
    var offset: int
    var order: string
    const conditions: map<string, seq<string>>
    const filterDef: FilterDefinition
    const options: Options
    const calendar: Calendar
    var scopes: seq<Scope>

    /** NewPagination. */
    constructor (conditions: map<string, seq<string>>, filterDef: FilterDefinition, options: Options, calendar: Calendar)
      ensures this.conditions == conditions && this.filterDef == filterDef
      ensures this.options == WithDefaults(options)
      ensures this.calendar == calendar
      ensures limit == ParseLimit(conditions, this.options.defaultLimit, this.options.maxLimit)
      ensures offset == ParseOffset(conditions)
      ensures order == ParseOrder(conditions, this.options.defaultOrder, filterDef.sorts)
      ensures scopes == []
    {
      var opts := WithDefaults(options);
      this.conditions := conditions;
      this.filterDef := filterDef;
      this.options := opts;
      this.calendar := calendar;
      limit := ParseLimit(conditions, opts.defaultLimit, opts.maxLimit);
      offset := ParseOffset(conditions);
      var resolved := opts.defaultOrder;
      if QueryKeySort in conditions && |conditions[QueryKeySort]| > 0 {
        var requested := conditions[QueryKeySort][0];
        var ok := ValidateOrder(requested, filterDef);
        if ok {
          resolved := requested;
        }
      }
      order := resolved;
      scopes := [];
    }

    /** The time zone dates are parsed in. */
    function Timezone(): Location
    {
      options.timezone.GetOr(DefaultTimezone)
    }

    /** AddCustomScope: appended in registration order. */
    method AddCustomScope(more: seq<Scope>)
      modifies this
      ensures scopes == old(scopes) + more
      ensures limit == old(limit) && offset == old(offset) && order == old(order)
    {
      scopes := scopes + more;
    }

    /** buildFilterScope. */
    method BuildFilterScope(config: FilterConfig, values: seq<string>) returns (s: Option<Scope>)
      ensures s == FilterScope(config, values, Timezone(), calendar)
    {
      if |values| == 0 {
        return None;
      }
      var op := ParseFilterOperation(values[0]);
      if !IsValidOperation(op, config) {
        return None;
      }
      var fields := config.GetFields();
      if |fields| == 0 {
        return None;
      }
      var loc := Timezone();
      FilterScopeValid(config, values, loc, calendar, op);
      match config.filterType
      case ID | Number => s := NumericScope(fields[0], op);
      case Str =>
        var scope := BuildStringScope(fields, op);
        s := Some(scope);
      case Bool => s := BoolScope(fields[0], op);
      case Date => s := DateScope(fields[0], op, t => calendar.parseDate(loc, t));
      case DateTime => s := DateTimeScope(fields[0], op, t => calendar.parseDateTime(loc, t));
      case Enum => s := EnumScope(fields[0], op, config.enumValues);
      case OtherType(_) => s := None;
    }

    /** buildScopes: the filter scopes in map iteration order (`keyOrder`),
        then the custom scopes; and the meta scopes limit, offset, order. */
    method BuildScopes() returns (filterScopes: seq<Scope>, metaScopes: seq<Scope>, ghost keyOrder: seq<string>)
      ensures Enumerates(keyOrder, conditions.Keys)
      ensures filterScopes == FilterScopes(keyOrder, conditions, filterDef.filters, Timezone(), calendar) + scopes
      ensures metaScopes == [Limit(limit), Offset(offset), Order(order)]
    {
      filterScopes := [];
      keyOrder := [];
      var remaining := conditions.Keys;
      while remaining != {}
        invariant remaining <= conditions.Keys
        invariant forall i, j :: 0 <= i < j < |keyOrder| ==> keyOrder[i] != keyOrder[j]
        invariant forall k :: k in keyOrder <==> k in conditions.Keys && k !in remaining
        invariant filterScopes == FilterScopes(keyOrder, conditions, filterDef.filters, Timezone(), calendar)
        decreases remaining
      {
        var field :| field in remaining;
        var values := conditions[field];
        if field in filterDef.filters {
          var config := filterDef.filters[field];
          var scope := BuildFilterScope(config, values);
          if scope.Some? {
            filterScopes := filterScopes + [scope.value];
          }
        }
        FilterScopesSnoc(keyOrder, field, conditions, filterDef.filters, Timezone(), calendar);
        keyOrder := keyOrder + [field];
        remaining := remaining - {field};
      }
      filterScopes := filterScopes + scopes;
      metaScopes := [Limit(limit), Offset(offset), Order(order)];
    }

    /** Apply: folds the filter and custom scopes, then limit, offset and
        order, onto the query `db` (the clauses applied so far). */
    method Apply(db: seq<Scope>) returns (q: seq<Scope>, ghost keyOrder: seq<string>)
      ensures Enumerates(keyOrder, conditions.Keys)
      ensures q == db + FilterScopes(keyOrder, conditions, filterDef.filters, Timezone(), calendar) + scopes
                      + [Limit(limit), Offset(offset), Order(order)]
    {
      var filterScopes, metaScopes;
      filterScopes, metaScopes, keyOrder := BuildScopes();
      q := db;
      for i := 0 to |filterScopes|
        invariant q == db + filterScopes[..i]
      {
        q := q + [filterScopes[i]];
      }
      for i := 0 to |metaScopes|
        invariant q == db + filterScopes + metaScopes[..i]
      {
        q := q + [metaScopes[i]];
      }
    }

    /** ApplyWithoutMeta: the filter and custom scopes only (for counting). */
    method ApplyWithoutMeta(db: seq<Scope>) returns (q: seq<Scope>, ghost keyOrder: seq<string>)
      ensures Enumerates(keyOrder, conditions.Keys)
      ensures q == db + FilterScopes(keyOrder, conditions, filterDef.filters, Timezone(), calendar) + scopes
    {
      var filterScopes, metaScopes;
      filterScopes, metaScopes, keyOrder := BuildScopes();
      q := db;
      for i := 0 to |filterScopes|
        invariant q == db + filterScopes[..i]
      {
        q := q + [filterScopes[i]];
      }
    }
  }
}
