/** The generation of one query struct per query file (`hartex-database-typedsql`,
    `src/codegen/queries.rs`): the choice of the table and placeholders by query shape, the
    field types, the `bind` constructor and `executor()`, the query functions with their
    positional statement text, and the per-path module files. Emitted tokens are modelled
    as data; the re-parse of the tokens by `syn` checks the argument tuples of the query
    functions and leaves the rest to a parameter; file writes are not modelled. */
module CodegenQueries {
  import opened Wrappers
  import opened Strings
  import opened SqlAst
  import opened TypedSqlError
  import opened TypedSqlInsert
  import opened CodegenTypes
  import opened CodegenTables
  import opened CodegenRewrite
  import opened QueriesResult

  // ---------------------------------------------------------------------------------------
  // The query information the generator consumes

  /** `SelectWhat`: what a SELECT returns. */
  datatype SelectWhat =
    | Everything
    | Boolean(condition: string)
    | Exists(inner: SelectQueryInfo)

  /** `SelectQueryInfo`, as the generator reads it. */
  datatype SelectQueryInfo = SelectQueryInfo(what: SelectWhat, from: Option<TableInfo>, placeholders: seq<string>)

  /** `QueryInfoInner`. */
  datatype QueryInfoInner = Insert(insert: InsertQueryInfo) | Select(select: SelectQueryInfo)

  /** `QueryInfo`: the query's directory path, its statement as displayed by `sqlparser`,
      its shape, and the type annotations of placeholders that are not columns. */
  datatype QueryInfo = QueryInfo(
    path: string,
    raw: string,
    inner: QueryInfoInner,
    extraPlaceholderTys: map<string, DataType>)

  // ---------------------------------------------------------------------------------------
  // The emitted code

  /** A function of the generated `impl`: `execute` (an INSERT, returning the affected row
      count) or `one` (a SELECT, returning one row). Each runs the statement text with the
      struct's fields as positional arguments. */
  datatype QueryFn =
    | Execute(stmt: string, args: seq<string>)
    | FetchOne(stmt: string, args: seq<string>, ret: RustTy)

  /** The generated struct: its name, its placeholder fields (which are also the
      parameters of `bind`, in the same order), the fields `bind` initialises, the
      environment variable `executor()` reads, and the query functions. */
  datatype QueryStruct = QueryStruct(
    name: string,
    fields: seq<Field>,
    bindParams: seq<Field>,
    bindAssigns: seq<string>,
    envVar: string,
    fns: seq<QueryFn>)

  const UNWRAP_NONE := "called `Option::unwrap()` on a `None` value"
  const UNREACHABLE := "internal error: entered unreachable code"

  // ---------------------------------------------------------------------------------------
  // Shape selection and field types

  /** The table and placeholders a query's struct is built from: an INSERT's target table,
      a SELECT's `FROM` table, or the `FROM` table of a SELECT EXISTS subquery; any other
      shape is rejected. */
  function TableAndPlaceholders(inner: QueryInfoInner): (r: Result<(TableInfo, seq<string>), Error>)
    ensures inner.Insert? ==> r == Ok((inner.insert.intoTable, inner.insert.placeholders))
    ensures inner.Select? && inner.select.from.Some? ==>
      r == Ok((inner.select.from.value, inner.select.placeholders))
    ensures (inner.Select? && inner.select.from.None? && inner.select.what.Exists?
             && inner.select.what.inner.from.Some?) ==>
      r == Ok((inner.select.what.inner.from.value, inner.select.what.inner.placeholders))
    ensures r.Err? <==>
      inner.Select? && inner.select.from.None?
      && !(inner.select.what.Exists? && inner.select.what.inner.from.Some?)
    ensures r.Err? ==> r.error == QueryFile("unsupported query type")
  {
    match inner
    case Insert(i) => Ok((i.intoTable, i.placeholders))
    case Select(s) =>
      if s.from.Some? then Ok((s.from.value, s.placeholders))
      else if s.what.Exists? && s.what.inner.from.Some? then Ok((s.what.inner.from.value, s.what.inner.placeholders))
      else Err(QueryFile("unsupported query type"))
  }

  /** The type of a placeholder field: the owned type of the table column of that name if
      there is one, else the owned type of its annotation. An unmapped type panics in
      `unwrap()`, a placeholder with neither in `unreachable!()`. */
  function PlaceholderType(table: TableInfo, extra: map<string, DataType>, p: string): (r: Outcome<RustTy>)
    ensures r.Returns? ==> r.result.Ok?
    ensures Get(table.columns, p).Some? ==>
      (r.Returns? <==> RustType(Get(table.columns, p).value.coltype).Some?)
      && (r.Returns? ==> r.result.value == RustType(Get(table.columns, p).value.coltype).value)
    ensures Get(table.columns, p).None? && p in extra ==>
      (r.Returns? <==> RustType(extra[p]).Some?)
      && (r.Returns? ==> r.result.value == RustType(extra[p]).value)
    ensures Get(table.columns, p).None? && p !in extra ==> r == Panics(UNREACHABLE)
    ensures r.Panics? ==> r.message == UNWRAP_NONE || r.message == UNREACHABLE
  {
    match Get(table.columns, p)
    case Some(col) =>
      (match RustType(col.coltype) case Some(t) => Returns(Ok(t)) case None => Panics(UNWRAP_NONE))
    case None =>
      if p in extra then
        (match RustType(extra[p]) case Some(t) => Returns(Ok(t)) case None => Panics(UNWRAP_NONE))
      else Panics(UNREACHABLE)
  }

  /** A column of the same name takes precedence over any annotation. */
  lemma ColumnTakesPrecedence(table: TableInfo, e1: map<string, DataType>, e2: map<string, DataType>, p: string)
    requires Get(table.columns, p).Some?
    ensures PlaceholderType(table, e1, p) == PlaceholderType(table, e2, p)
  {
  }

  /** The placeholder fields, in placeholder order; the first placeholder whose type
      cannot be resolved panics. */
  function PlaceholderFields(table: TableInfo, extra: map<string, DataType>, phs: seq<string>)
    : (r: Outcome<seq<Field>>)
    ensures r.Returns? ==> r.result.Ok? && |r.result.value| == |phs|
  {
    if phs == [] then Returns(Ok([]))
    else
      var head := PlaceholderType(table, extra, phs[0]);
      var rest := PlaceholderFields(table, extra, phs[1..]);
      if head.Panics? then Panics(head.message)
      else if rest.Panics? then Panics(rest.message)
      else Returns(Ok([Field(phs[0], head.result.value)] + rest.result.value))
  }

  /** No placeholder panics exactly when every placeholder's type resolves, and then the
      i-th field is the i-th placeholder with its resolved type. */
  lemma {:induction false} PlaceholderFieldsResolve(table: TableInfo, extra: map<string, DataType>, phs: seq<string>)
    ensures PlaceholderFields(table, extra, phs).Returns? <==>
      forall i :: 0 <= i < |phs| ==> PlaceholderType(table, extra, phs[i]).Returns?
    ensures var r := PlaceholderFields(table, extra, phs);
      r.Returns? ==>
        forall i :: 0 <= i < |phs| ==>
          r.result.value[i] == Field(phs[i], PlaceholderType(table, extra, phs[i]).result.value)
  {
    if phs != [] {
      var tail := phs[1..];
      PlaceholderFieldsResolve(table, extra, tail);
      assert forall i :: 1 <= i < |phs| ==> phs[i] == tail[i - 1];
      var rest := PlaceholderFields(table, extra, tail);
      if PlaceholderType(table, extra, phs[0]).Returns? && rest.Returns? {
        var fields := PlaceholderFields(table, extra, phs).result.value;
        assert forall i :: 1 <= i < |phs| ==> fields[i] == rest.result.value[i - 1];
      } else if PlaceholderType(table, extra, phs[0]).Returns? {
        var j :| 0 <= j < |tail| && !PlaceholderType(table, extra, tail[j]).Returns?;
        assert phs[j + 1] == tail[j];
      }
    }
  }

  /** The environment variable `executor()` reads the database address from. */
  function EnvVarName(path: string, f: Foreign): (r: string)
    ensures |r| >= 10 && r[|r| - 10..] == "_PGSQL_URL"
    ensures r[..|r| - 10] == f.constant(path)
  {
    f.constant(path) + "_PGSQL_URL"
  }

  // ---------------------------------------------------------------------------------------
  // Query functions

  /** The query functions of an INSERT: one `execute` over the rewritten statement with the
      placeholders as arguments, in order. */
  function InsertFnsSpec(insert: InsertQueryInfo, raw: string): (r: seq<QueryFn>)
    ensures |r| == 1 && r[0].Execute? && r[0].args == insert.placeholders
    ensures r[0].stmt == RewriteUpTo(raw, insert.placeholders, |insert.placeholders|)
  {
    [Execute(RewriteUpTo(raw, insert.placeholders, |insert.placeholders|), insert.placeholders)]
  }

  /** The row type of a SELECT's `one()`: the table's row struct for `SELECT *`, `bool` for
      a boolean SELECT; other shapes get no query function. `SELECT *` without a table
      panics in `unwrap()`. */
  function SelectReturnType(select: SelectQueryInfo, schema: string, f: Foreign): (r: Outcome<Option<RustTy>>)
    ensures select.what.Everything? && select.from.Some? ==>
      r == Returns(Ok(Some(TablePath(f.snake(schema), Unquote(select.from.value.name)))))
    ensures select.what.Everything? && select.from.None? ==> r == Panics(UNWRAP_NONE)
    ensures select.what.Boolean? ==> r == Returns(Ok(Some(Bool)))
    ensures !select.what.Everything? && !select.what.Boolean? ==> r == Returns(Ok(None))
  {
    match select.what
    case Everything =>
      if select.from.None? then Panics(UNWRAP_NONE)
      else Returns(Ok(Some(TablePath(f.snake(schema), Unquote(select.from.value.name)))))
    case Boolean(_) => Returns(Ok(Some(Bool)))
    case _ => Returns(Ok(None))
  }

  /** The query functions of a SELECT: one `one()` when the shape has a row type, none
      otherwise. */
  function SelectFnsSpec(select: SelectQueryInfo, raw: string, schema: string, f: Foreign)
    : (r: Outcome<seq<QueryFn>>)
    ensures r.Panics? <==> select.what.Everything? && select.from.None?
    ensures r.Returns? ==> r.result.Ok?
    ensures r.Returns? && (select.what.Everything? || select.what.Boolean?) ==>
      |r.result.value| == 1 && r.result.value[0].FetchOne?
      && r.result.value[0].args == select.placeholders
      && r.result.value[0].stmt == RewriteUpTo(raw, select.placeholders, |select.placeholders|)
    ensures r.Returns? && !select.what.Everything? && !select.what.Boolean? ==> r.result.value == []
  {
    match SelectReturnType(select, schema, f)
    case Panics(m) => Panics(m)
    case Returns(ret) =>
      if ret.value.None? then Returns(Ok([]))
      else
        var stmt := RewriteUpTo(raw, select.placeholders, |select.placeholders|);
        Returns(Ok([FetchOne(stmt, select.placeholders, ret.value.value)]))
  }

  /** `generate_query_fns_token_streams`, dispatching on the query shape; the schema is the
      query's path. */
  function QueryFnsSpec(query: QueryInfo, f: Foreign): Outcome<seq<QueryFn>> {
    match query.inner
    case Insert(i) => Returns(Ok(InsertFnsSpec(i, query.raw)))
    case Select(s) => SelectFnsSpec(s, query.raw, query.path, f)
  }

  /** `generate_insert_query_fn_token_stream`. */
  method GenerateInsertQueryFn(insert: InsertQueryInfo, raw: string) returns (r: seq<QueryFn>)
    ensures r == InsertFnsSpec(insert, raw)
  {
    var rawstr := RewritePlaceholders(raw, insert.placeholders);
    r := [Execute(rawstr, insert.placeholders)];
  }

  /** `generate_select_query_fns_token_streams`. */
  method GenerateSelectQueryFns(select: SelectQueryInfo, raw: string, schema: string, f: Foreign)
    returns (r: Outcome<seq<QueryFn>>)
    ensures r == SelectFnsSpec(select, raw, schema, f)
  {
    var rawstr := RewritePlaceholders(raw, select.placeholders);
    var ret := SelectReturnType(select, schema, f);
    if ret.Panics? {
      return Panics(ret.message);
    }
    if ret.result.value.None? {
      return Returns(Ok([]));
    }
    r := Returns(Ok([FetchOne(rawstr, select.placeholders, ret.result.value.value)]));
  }

  /** `generate_query_fns_token_streams`. */
  method GenerateQueryFns(query: QueryInfo, f: Foreign) returns (r: Outcome<seq<QueryFn>>)
    ensures r == QueryFnsSpec(query, f)
  {
    match query.inner {
      case Insert(i) =>
        var fns := GenerateInsertQueryFn(i, query.raw);
        r := Returns(Ok(fns));
      case Select(s) =>
        r := GenerateSelectQueryFns(s, query.raw, query.path, f);
    }
  }

  // ---------------------------------------------------------------------------------------
  // The query struct

  /** `generate_query_struct_token_stream`: an unsupported shape is an error; otherwise
      the struct is named in Pascal case, has one field per placeholder with the resolved
      type, a `bind` taking those fields in order and leaving the executor unset, the
      environment variable of the query's path, and the query functions. */
  function QueryStructSpec(name: string, query: QueryInfo, f: Foreign): (r: Outcome<QueryStruct>)
    ensures TableAndPlaceholders(query.inner).Err? ==> r == Returns(Err(QueryFile("unsupported query type")))
    ensures r.Returns? && r.result.Ok? ==>
      var (table, phs) := TableAndPlaceholders(query.inner).value;
      var s := r.result.value;
      s.name == f.pascal(name)
      && PlaceholderFields(table, query.extraPlaceholderTys, phs) == Returns(Ok(s.fields))
      && s.bindParams == s.fields
      && s.bindAssigns == phs
      && s.envVar == EnvVarName(query.path, f)
      && QueryFnsSpec(query, f) == Returns(Ok(s.fns))
    ensures r.Returns? && r.result.Err? ==> r.result.error == QueryFile("unsupported query type")
  {
    match TableAndPlaceholders(query.inner)
    case Err(e) => Returns(Err(e))
    case Ok((table, phs)) =>
      match PlaceholderFields(table, query.extraPlaceholderTys, phs)
      case Panics(m) => Panics(m)
      case Returns(fields) =>
        match QueryFnsSpec(query, f)
        case Panics(m) => Panics(m)
        case Returns(fns) =>
          Returns(Ok(QueryStruct(f.pascal(name), fields.value, fields.value, phs, EnvVarName(query.path, f), fns.value)))
  }

  /** A query whose shape is supported and whose placeholders all resolve never panics:
      the `unwrap()` on a SELECT's table cannot fail, because `SELECT *` is supported only
      with a table. */
  lemma QueryStructSucceeds(name: string, query: QueryInfo, f: Foreign)
    requires TableAndPlaceholders(query.inner).Ok?
    requires var (table, phs) := TableAndPlaceholders(query.inner).value;
      forall i :: 0 <= i < |phs| ==> PlaceholderType(table, query.extraPlaceholderTys, phs[i]).Returns?
    ensures QueryStructSpec(name, query, f).Returns? && QueryStructSpec(name, query, f).result.Ok?
  {
    var (table, phs) := TableAndPlaceholders(query.inner).value;
    PlaceholderFieldsResolve(table, query.extraPlaceholderTys, phs);
    if query.inner.Select? && query.inner.select.what.Everything? {
      assert query.inner.select.from.Some?;
    }
  }

  /** An EXISTS query gets its struct and `bind` from the subquery but no query function. */
  lemma ExistsHasNoQueryFns(name: string, query: QueryInfo, f: Foreign)
    requires query.inner.Select? && query.inner.select.what.Exists?
    requires QueryStructSpec(name, query, f).Returns? && QueryStructSpec(name, query, f).result.Ok?
    ensures QueryStructSpec(name, query, f).result.value.fns == []
  {
  }

  /** `generate_query_struct_token_stream`. */
  method GenerateQueryStruct(name: string, query: QueryInfo, f: Foreign) returns (r: Outcome<QueryStruct>)
    ensures r == QueryStructSpec(name, query, f)
  {
    var selected := TableAndPlaceholders(query.inner);
    if selected.Err? {
      return Returns(Err(selected.error));
    }
    var (table, phs) := selected.value;
    var fields := PlaceholderFields(table, query.extraPlaceholderTys, phs);
    if fields.Panics? {
      return Panics(fields.message);
    }
    var fns := GenerateQueryFns(query, f);
    if fns.Panics? {
      return Panics(fns.message);
    }
    r := Returns(Ok(QueryStruct(f.pascal(name), fields.result.value, fields.result.value, phs,
                                EnvVarName(query.path, f), fns.result.value)));
  }

  // ---------------------------------------------------------------------------------------
  // The generated code at run time

  const NO_EXECUTOR := ".executor() has not been called on this query yet"

  /** An instance of a generated struct: the database executor, once `executor()` has
      connected, and the bound placeholder values. */
  datatype Bound<C, V> = Bound(dbExecutor: Option<C>, values: seq<V>)

  /** `bind`: the placeholder values in field order, and no executor yet. */
  function Bind<C, V>(values: seq<V>): (r: Bound<C, V>)
    ensures r.dbExecutor.None? && r.values == values
  {
    Bound(None, values)
  }

  /** `executor()`: a failed connection is returned, a successful one replaces the
      executor. */
  function ConnectExecutor<C, V>(b: Bound<C, V>, connect: Result<C, QueryError>): (r: Result<Bound<C, V>, QueryError>)
    ensures r.Ok? <==> connect.Ok?
    ensures r.Ok? ==> r.value == Bound(Some(connect.value), b.values)
    ensures r.Err? ==> r.error == connect.error
  {
    match connect
    case Err(e) => Err(e)
    case Ok(c) => Ok(Bound(Some(c), b.values))
  }

  /** `execute()`: without an executor the query fails with a `Generic` error; otherwise
      the statement is run with the bound values and a driver failure becomes a `Wtx`
      error. */
  function RunExecute<C, V>(b: Bound<C, V>, stmt: string, run: (C, string, seq<V>) -> Result<nat, WtxError>)
    : (r: Result<nat, QueryError>)
    ensures b.dbExecutor.None? ==> r == Err(Generic(NO_EXECUTOR))
    ensures b.dbExecutor.Some? ==> r == IntoCrateResult(run(b.dbExecutor.value, stmt, b.values))
  {
    match b.dbExecutor
    case None => Err(Generic(NO_EXECUTOR))
    case Some(c) => IntoCrateResult(run(c, stmt, b.values))
  }

  /** `one()`: as `execute()`, and the fetched record is then converted into the row
      type, whose own failure is returned as it is. */
  function RunOne<C, V, Rec, T>(
    b: Bound<C, V>, stmt: string,
    fetch: (C, string, seq<V>) -> Result<Rec, WtxError>,
    convert: Rec -> Result<T, QueryError>
  ): (r: Result<T, QueryError>)
    ensures b.dbExecutor.None? ==> r == Err(Generic(NO_EXECUTOR))
    ensures b.dbExecutor.Some? && fetch(b.dbExecutor.value, stmt, b.values).Err? ==>
      r == Err(Wtx(fetch(b.dbExecutor.value, stmt, b.values).error))
    ensures b.dbExecutor.Some? && fetch(b.dbExecutor.value, stmt, b.values).Ok? ==>
      r == convert(fetch(b.dbExecutor.value, stmt, b.values).value)
  {
    match b.dbExecutor
    case None => Err(Generic(NO_EXECUTOR))
    case Some(c) =>
      match IntoCrateResult(fetch(c, stmt, b.values))
      case Err(e) => Err(e)
      case Ok(rec) => convert(rec)
  }

  /** A freshly bound query that is run before `executor()` always fails with the
      `Generic` error and never reaches the database. */
  lemma RunBeforeExecutorFails<C, V>(values: seq<V>, stmt: string, run: (C, string, seq<V>) -> Result<nat, WtxError>)
    ensures RunExecute(Bind<C, V>(values), stmt, run) == Err(Generic(NO_EXECUTOR))
  {
  }

  /** After a successful `executor()`, `execute()` passes the bound values to the driver
      and returns its outcome; a driver failure is never mistaken for the missing-executor
      error. */
  lemma RunAfterExecutor<C, V>(values: seq<V>, c: C, stmt: string, run: (C, string, seq<V>) -> Result<nat, WtxError>)
    ensures ConnectExecutor(Bind<C, V>(values), Ok(c)).Ok?
    ensures var r := RunExecute(ConnectExecutor(Bind<C, V>(values), Ok(c)).value, stmt, run);
      (r.Ok? <==> run(c, stmt, values).Ok?)
      && (r.Ok? ==> r.value == run(c, stmt, values).value)
      && (r.Err? ==> r.error != Generic(NO_EXECUTOR))
  {
  }

  // ---------------------------------------------------------------------------------------
  // Parsing the emitted tokens

  /** The tokens between the parentheses of a query function's argument tuple
      `(#(#placeholders),* ,)`: `self.<name>` for each placeholder, separated by commas, and
      one more comma after them. */
  datatype ArgToken = SelfField(name: string) | Comma

  function Separated(args: seq<string>): seq<ArgToken> {
    if args == [] then []
    else if |args| == 1 then [SelfField(args[0])]
    else [SelfField(args[0]), Comma] + Separated(args[1..])
  }

  function ArgTupleTokens(args: seq<string>): (r: seq<ArgToken>)
    ensures |r| > 0 && r[|r| - 1] == Comma
  {
    Separated(args) + [Comma]
  }

  /** What `syn` accepts between the parentheses of an expression: nothing (the unit
      value), or expressions separated by commas with at most one trailing comma. */
  predicate ParenContents(ts: seq<ArgToken>) {
    ts == [] || ExprList(ts)
  }

  predicate ExprList(ts: seq<ArgToken>)
    decreases |ts|
  {
    |ts| >= 1 && ts[0].SelfField?
    && (|ts| == 1 || (ts[1].Comma? && (|ts| == 2 || ExprList(ts[2..]))))
  }

  /** The argument tuple parses exactly when there is a placeholder: with none it is
      `( , )`, where `syn` expects an expression before the comma. */
  lemma {:induction false} ArgTupleParses(args: seq<string>)
    ensures ParenContents(ArgTupleTokens(args)) <==> args != []
  {
    if args == [] {
      assert ArgTupleTokens(args) == [Comma];
    } else if |args| == 1 {
      assert ArgTupleTokens(args) == [SelfField(args[0]), Comma];
    } else {
      ArgTupleParses(args[1..]);
      var tail := ArgTupleTokens(args[1..]);
      assert ArgTupleTokens(args) == [SelfField(args[0]), Comma] + tail;
      assert ArgTupleTokens(args)[2..] == tail;
    }
  }

  lemma ArgTuplesParse(fns: seq<QueryFn>)
    ensures forall i :: 0 <= i < |fns| ==>
      (ParenContents(ArgTupleTokens(fns[i].args)) <==> fns[i].args != [])
  {
    forall i | 0 <= i < |fns|
      ensures ParenContents(ArgTupleTokens(fns[i].args)) <==> fns[i].args != []
    {
      ArgTupleParses(fns[i].args);
    }
  }

  /** The error `syn` reports for the rejected argument tuple; its wording is not modelled. */
  const TUPLE_REJECTED := SynError("expected an expression")

  /** The foreign half of `syn::parse2::<File>` followed by `prettyplease::unparse`: the
      printed text of a query file's tokens or a `syn` error, and the same for a module
      file's `pub mod` items. */
  datatype Syntax = Syntax(
    queryFile: QueryStruct -> Result<string, SynError>,
    modFile: seq<string> -> Result<string, SynError>)

  /** Parsing a query file: a query function over no placeholders makes the file fail to
      parse; otherwise the outcome is that of the foreign parser. */
  function ParseQueryFile(s: QueryStruct, syntax: Syntax): (r: Result<string, SynError>)
    ensures (exists i :: 0 <= i < |s.fns| && s.fns[i].args == []) ==> r == Err(TUPLE_REJECTED)
    ensures (forall i :: 0 <= i < |s.fns| ==> s.fns[i].args != []) ==> r == syntax.queryFile(s)
  {
    ArgTuplesParse(s.fns);
    if exists i :: 0 <= i < |s.fns| && !ParenContents(ArgTupleTokens(s.fns[i].args)) then
      Err(TUPLE_REJECTED)
    else
      syntax.queryFile(s)
  }

  // ---------------------------------------------------------------------------------------
  // Module aggregation

  /** A generated query file: `queries/<path>/<name>.rs`, the struct it holds and the
      printed text. */
  datatype QueryFileOut = QueryFileOut(dir: string, fileName: string, content: QueryStruct, text: string)

  /** A path's `mod.rs`: the path, the query modules it lists and the printed text. */
  datatype ModFile = ModFile(path: string, modules: seq<string>, text: string)

  /** Everything the generator writes: the query files, one `mod.rs` per path, and the
      top-level `mod.rs` listing the paths, with its printed text. */
  datatype Generated = Generated(
    queryFiles: seq<QueryFileOut>,
    modFiles: seq<ModFile>,
    topLevel: seq<string>,
    topText: string)

  function Keys(qs: seq<(string, QueryInfo)>): seq<string> {
    if qs == [] then [] else Keys(qs[..|qs| - 1]) + [qs[|qs| - 1].0]
  }

  function Paths(qs: seq<(string, QueryInfo)>): (r: seq<string>)
    ensures |r| == |qs| && forall i :: 0 <= i < |qs| ==> r[i] == qs[i].1.path
  {
    if qs == [] then [] else Paths(qs[..|qs| - 1]) + [qs[|qs| - 1].1.path]
  }

  /** The `module_files` map after the given queries: for every path, the names of its
      queries in visiting order. */
  function ModulesOf(qs: seq<(string, QueryInfo)>): map<string, seq<string>> {
    if qs == [] then map[]
    else
      var m := ModulesOf(qs[..|qs| - 1]);
      var (name, q) := qs[|qs| - 1];
      m[q.path := (if q.path in m then m[q.path] else []) + [name]]
  }

  /** Reference definition: the names of the queries with a given path, in order. */
  function NamesWithPath(qs: seq<(string, QueryInfo)>, p: string): seq<string> {
    if qs == [] then []
    else NamesWithPath(qs[..|qs| - 1], p) + (if qs[|qs| - 1].1.path == p then [qs[|qs| - 1].0] else [])
  }

  /** Every path of a query has a module file listing exactly that path's queries, in
      order, and there is no other module file. */
  lemma {:induction false} ModulesOfLists(qs: seq<(string, QueryInfo)>, p: string)
    ensures p in ModulesOf(qs) <==> p in Paths(qs)
    ensures p in ModulesOf(qs) ==> ModulesOf(qs)[p] == NamesWithPath(qs, p)
    ensures p !in ModulesOf(qs) ==> NamesWithPath(qs, p) == []
  {
    if qs != [] {
      ModulesOfLists(qs[..|qs| - 1], p);
      assert Paths(qs) == Paths(qs[..|qs| - 1]) + [qs[|qs| - 1].1.path];
    }
  }

  /** The failure an outcome ends in, with its result forgotten; `Returns(Ok(Unit))` when
      it succeeds. */
  function Failure<T>(o: Outcome<T>): Outcome<Unit> {
    match o
    case Panics(m) => Panics(m)
    case Returns(Err(e)) => Returns(Err(e))
    case Returns(Ok(_)) => Returns(Ok(Unit))
  }

  /** One query's file, `<name>.rs` in the directory of the query's path: the struct's own
      failure comes first, then a failure of its tokens to parse becomes a `Syn` error. */
  function QueryFileSpec(entry: (string, QueryInfo), f: Foreign, syntax: Syntax): Outcome<QueryFileOut>
  {
    match QueryStructSpec(entry.0, entry.1, f)
    case Panics(m) => Panics(m)
    case Returns(Err(e)) => Returns(Err(e))
    case Returns(Ok(s)) =>
      match ParseQueryFile(s, syntax)
      case Err(e) => Returns(Err(FromSyn(e)))
      case Ok(text) => Returns(Ok(QueryFileOut(entry.1.path, entry.0 + ".rs", s, text)))
  }

  /** A struct that fails or panics makes the file fail the same way; a generated query
      file holds its query's struct and the parser's text of it, and every query function
      of it has an argument. */
  lemma QueryFileContents(entry: (string, QueryInfo), f: Foreign, syntax: Syntax)
    ensures Failure(QueryStructSpec(entry.0, entry.1, f)) != Returns(Ok(Unit)) ==>
      Failure(QueryFileSpec(entry, f, syntax)) == Failure(QueryStructSpec(entry.0, entry.1, f))
    ensures var r := QueryFileSpec(entry, f, syntax);
      r.Returns? && r.result.Ok? ==>
        r.result.value.dir == entry.1.path && r.result.value.fileName == entry.0 + ".rs"
        && QueryStructSpec(entry.0, entry.1, f) == Returns(Ok(r.result.value.content))
        && syntax.queryFile(r.result.value.content) == Ok(r.result.value.text)
        && forall i :: 0 <= i < |r.result.value.content.fns| ==> r.result.value.content.fns[i].args != []
  {
  }

  /** A query whose struct has a function without arguments ends in the `syn` error of the
      rejected argument tuple. */
  lemma QueryFileRejected(entry: (string, QueryInfo), f: Foreign, syntax: Syntax, k: nat)
    requires QueryStructSpec(entry.0, entry.1, f).Returns? && QueryStructSpec(entry.0, entry.1, f).result.Ok?
    requires k < |QueryStructSpec(entry.0, entry.1, f).result.value.fns|
    requires QueryStructSpec(entry.0, entry.1, f).result.value.fns[k].args == []
    ensures QueryFileSpec(entry, f, syntax) == Returns(Err(Syn(TUPLE_REJECTED)))
  {
  }

  /** The outcome of each query's file, in the map's order. */
  function FileOutcomes(qs: seq<(string, QueryInfo)>, f: Foreign, syntax: Syntax): (r: seq<Outcome<QueryFileOut>>)
    ensures |r| == |qs|
  {
    seq(|qs|, i requires 0 <= i < |qs| => QueryFileSpec(qs[i], f, syntax))
  }

  /** Running the outcomes in turn: the files of all of them, or the first failure. */
  function Sequence(outs: seq<Outcome<QueryFileOut>>): Outcome<seq<QueryFileOut>> {
    if outs == [] then Returns(Ok([])) else ConsFile(outs[0], Sequence(outs[1..]))
  }

  /** The query files, generated in the map's order; the first failure ends the run. */
  function QueryFilesFrom(qs: seq<(string, QueryInfo)>, f: Foreign, syntax: Syntax): Outcome<seq<QueryFileOut>> {
    Sequence(FileOutcomes(qs, f, syntax))
  }

  lemma {:induction false} SequenceOk(outs: seq<Outcome<QueryFileOut>>)
    ensures Failure(Sequence(outs)) == Returns(Ok(Unit)) <==>
      forall i :: 0 <= i < |outs| ==> Failure(outs[i]) == Returns(Ok(Unit))
    ensures Sequence(outs).Returns? && Sequence(outs).result.Ok? ==>
      |Sequence(outs).result.value| == |outs|
      && forall i :: 0 <= i < |outs| ==> outs[i] == Returns(Ok(Sequence(outs).result.value[i]))
  {
    if outs != [] {
      SequenceOk(outs[1..]);
      assert forall i :: 1 <= i < |outs| ==> outs[i] == outs[1..][i - 1];
    }
  }

  lemma {:induction false} SequenceFails(outs: seq<Outcome<QueryFileOut>>)
    requires Failure(Sequence(outs)) != Returns(Ok(Unit))
    ensures exists i :: (0 <= i < |outs|
      && (forall j :: 0 <= j < i ==> Failure(outs[j]) == Returns(Ok(Unit)))
      && Failure(outs[i]) != Returns(Ok(Unit))
      && Failure(Sequence(outs)) == Failure(outs[i]))
  {
    if Failure(outs[0]) != Returns(Ok(Unit)) {
      assert Failure(Sequence(outs)) == Failure(outs[0]);
    } else {
      var tail := outs[1..];
      SequenceFails(tail);
      var k :| 0 <= k < |tail|
        && (forall j :: 0 <= j < k ==> Failure(tail[j]) == Returns(Ok(Unit)))
        && Failure(tail[k]) != Returns(Ok(Unit))
        && Failure(Sequence(tail)) == Failure(tail[k]);
      assert forall j :: 1 <= j < |outs| ==> outs[j] == tail[j - 1];
      assert Failure(Sequence(outs)) == Failure(outs[k + 1]);
    }
  }

  /** The run succeeds exactly when every query's file does, and then lists those files in
      the map's order. */
  lemma QueryFilesFromOk(qs: seq<(string, QueryInfo)>, f: Foreign, syntax: Syntax)
    ensures Failure(QueryFilesFrom(qs, f, syntax)) == Returns(Ok(Unit)) <==>
      forall i :: 0 <= i < |qs| ==> Failure(QueryFileSpec(qs[i], f, syntax)) == Returns(Ok(Unit))
    ensures var r := QueryFilesFrom(qs, f, syntax);
      r.Returns? && r.result.Ok? ==>
        |r.result.value| == |qs|
        && forall i :: 0 <= i < |qs| ==> QueryFileSpec(qs[i], f, syntax) == Returns(Ok(r.result.value[i]))
  {
    var outs := FileOutcomes(qs, f, syntax);
    SequenceOk(outs);
    assert QueryFilesFrom(qs, f, syntax) == Sequence(outs);
    forall i | 0 <= i < |qs| ensures outs[i] == QueryFileSpec(qs[i], f, syntax) {
    }
  }

  /** A failed run ends in the failure of the first query whose file fails. */
  lemma QueryFilesFromFails(qs: seq<(string, QueryInfo)>, f: Foreign, syntax: Syntax)
    requires Failure(QueryFilesFrom(qs, f, syntax)) != Returns(Ok(Unit))
    ensures exists i :: (0 <= i < |qs| && FirstFailure(qs, f, syntax, i)
      && Failure(QueryFilesFrom(qs, f, syntax)) == Failure(QueryFileSpec(qs[i], f, syntax)))
  {
    var outs := FileOutcomes(qs, f, syntax);
    SequenceFails(outs);
    var k :| 0 <= k < |outs|
      && (forall j :: 0 <= j < k ==> Failure(outs[j]) == Returns(Ok(Unit)))
      && Failure(outs[k]) != Returns(Ok(Unit))
      && Failure(Sequence(outs)) == Failure(outs[k]);
    assert QueryFilesFrom(qs, f, syntax) == Sequence(outs);
    forall j | 0 <= j <= k ensures outs[j] == QueryFileSpec(qs[j], f, syntax) {
    }
    assert FirstFailure(qs, f, syntax, k);
  }

  /** The files of the queries before the i-th all succeed, and the i-th fails. */
  predicate FirstFailure(qs: seq<(string, QueryInfo)>, f: Foreign, syntax: Syntax, i: nat)
    requires i < |qs|
  {
    (forall j :: 0 <= j < i ==> Failure(QueryFileSpec(qs[j], f, syntax)) == Returns(Ok(Unit)))
    && Failure(QueryFileSpec(qs[i], f, syntax)) != Returns(Ok(Unit))
  }

  /** One query's file before the files of the rest; the query's own failure comes first. */
  function ConsFile(s: Outcome<QueryFileOut>, rest: Outcome<seq<QueryFileOut>>): Outcome<seq<QueryFileOut>> {
    match s
    case Panics(m) => Panics(m)
    case Returns(Err(e)) => Returns(Err(e))
    case Returns(Ok(file)) => PrefixWith([file], rest)
  }

  function PrefixWith(done: seq<QueryFileOut>, r: Outcome<seq<QueryFileOut>>): Outcome<seq<QueryFileOut>> {
    match r
    case Returns(Ok(files)) => Returns(Ok(done + files))
    case _ => r
  }

  /** The module files of the given paths, in key order; the first that does not parse
      ends the run with its `syn` error. */
  function ModFilesFrom(keys: seq<string>, modules: map<string, seq<string>>, syntax: Syntax)
    : (r: Result<seq<ModFile>, SynError>)
    requires forall k :: k in keys ==> k in modules
    ensures r.Ok? <==> forall i :: 0 <= i < |keys| ==> syntax.modFile(modules[keys[i]]).Ok?
    ensures r.Ok? ==>
      |r.value| == |keys|
      && forall i :: 0 <= i < |keys| ==>
        r.value[i] == ModFile(keys[i], modules[keys[i]], syntax.modFile(modules[keys[i]]).value)
    ensures r.Err? ==>
      exists i :: (0 <= i < |keys| && FirstModFailure(keys, modules, syntax, i)
        && syntax.modFile(modules[keys[i]]) == Err(r.error))
  {
    if keys == [] then Ok([])
    else
      var rest := ModFilesFrom(keys[1..], modules, syntax);
      assert forall i :: 1 <= i < |keys| ==> keys[i] == keys[1..][i - 1];
      match syntax.modFile(modules[keys[0]])
      case Err(e) =>
        assert FirstModFailure(keys, modules, syntax, 0);
        Err(e)
      case Ok(text) =>
        match rest
        case Err(e) =>
          var k :| 0 <= k < |keys[1..]| && FirstModFailure(keys[1..], modules, syntax, k)
            && syntax.modFile(modules[keys[1..][k]]) == Err(e);
          assert keys[k + 1] == keys[1..][k];
          assert FirstModFailure(keys, modules, syntax, k + 1);
          Err(e)
        case Ok(files) => Ok([ModFile(keys[0], modules[keys[0]], text)] + files)
  }

  /** The module files of the keys before the i-th all parse, and the i-th does not. */
  predicate FirstModFailure(keys: seq<string>, modules: map<string, seq<string>>, syntax: Syntax, i: nat)
    requires forall k :: k in keys ==> k in modules
    requires i < |keys|
  {
    (forall j :: 0 <= j < i ==> syntax.modFile(modules[keys[j]]).Ok?)
    && syntax.modFile(modules[keys[i]]).Err?
  }

  /** The model of `generate_query_structs_from_queries`: the query files, then the
      `mod.rs` of every path in key order, then the top-level `mod.rs`. */
  function GenerateSpec(qs: seq<(string, QueryInfo)>, f: Foreign, syntax: Syntax): Outcome<Generated> {
    ModulesOfKeys(qs);
    var keys := FromSeq(Paths(qs));
    match QueryFilesFrom(qs, f, syntax)
    case Panics(m) => Panics(m)
    case Returns(Err(e)) => Returns(Err(e))
    case Returns(Ok(files)) =>
      match ModFilesFrom(keys, ModulesOf(qs), syntax)
      case Err(e) => Returns(Err(FromSyn(e)))
      case Ok(mods) =>
        match syntax.modFile(keys)
        case Err(e) => Returns(Err(FromSyn(e)))
        case Ok(top) => Returns(Ok(Generated(files, mods, keys, top)))
  }

  lemma ModulesOfKeys(qs: seq<(string, QueryInfo)>)
    ensures forall k :: k in FromSeq(Paths(qs)) ==> k in ModulesOf(qs)
  {
    forall k | k in FromSeq(Paths(qs)) ensures k in ModulesOf(qs) {
      ModulesOfLists(qs, k);
    }
  }

  /** One more query adds its name to its path's module and its path to the keys. */
  lemma CollectStep(qs: seq<(string, QueryInfo)>, i: nat)
    requires i < |qs|
    ensures var m := ModulesOf(qs[..i]); var p := qs[i].1.path;
      ModulesOf(qs[..i + 1]) == m[p := (if p in m then m[p] else []) + [qs[i].0]]
    ensures FromSeq(Paths(qs[..i + 1])) == SetInsert(FromSeq(Paths(qs[..i])), qs[i].1.path)
  {
    assert qs[..i + 1][..i] == qs[..i] && qs[..i + 1][i] == qs[i];
  }

  /** The module bookkeeping of the query loop: each query's name is appended under its
      path, and the paths are kept as the sorted key set of `module_files`. */
  method CollectModules(qs: seq<(string, QueryInfo)>)
    returns (modules: map<string, seq<string>>, keys: seq<string>)
    ensures modules == ModulesOf(qs) && keys == FromSeq(Paths(qs))
  {
    modules := map[];
    keys := [];
    var i := 0;
    while i < |qs|
      invariant 0 <= i <= |qs|
      invariant modules == ModulesOf(qs[..i])
      invariant keys == FromSeq(Paths(qs[..i]))
    {
      var name, query := qs[i].0, qs[i].1;
      CollectStep(qs, i);
      modules := modules[query.path := (if query.path in modules then modules[query.path] else []) + [name]];
      keys := SetInsert(keys, query.path);
      i := i + 1;
    }
    assert qs[..i] == qs;
  }

  /** The loop's invariant at its start, along it, and at its end: the outcomes still to
      run, placed after the files already generated. */
  lemma SequenceSuffix(outs: seq<Outcome<QueryFileOut>>, i: nat, files: seq<QueryFileOut>)
    requires i <= |outs|
    ensures i == 0 && files == [] ==> Sequence(outs) == PrefixWith(files, Sequence(outs[i..]))
    ensures i == |outs| ==> PrefixWith(files, Sequence(outs[i..])) == Returns(Ok(files))
    ensures i < |outs| ==> var s := outs[i];
      (s.Panics? ==> PrefixWith(files, Sequence(outs[i..])) == Panics(s.message))
      && (s.Returns? && s.result.Err? ==> PrefixWith(files, Sequence(outs[i..])) == Returns(Err(s.result.error)))
      && (s.Returns? && s.result.Ok? ==>
            PrefixWith(files, Sequence(outs[i..])) == PrefixWith(files + [s.result.value], Sequence(outs[i + 1..])))
  {
    assert outs[0..] == outs;
    match Sequence(outs) {
      case Returns(Ok(xs)) => assert [] + xs == xs;
      case _ =>
    }
    assert files + [] == files;
    if i < |outs| {
      assert outs[i..][0] == outs[i] && outs[i..][1..] == outs[i + 1..];
      if outs[i].Returns? && outs[i].result.Ok? {
        QueryFilesStep(outs[i], Sequence(outs[i + 1..]), files);
      }
    }
  }

  /** Appending a generated file to the accumulated ones keeps the loop's invariant. */
  lemma QueryFilesStep(s: Outcome<QueryFileOut>, rest: Outcome<seq<QueryFileOut>>, files: seq<QueryFileOut>)
    requires s.Returns? && s.result.Ok?
    ensures PrefixWith(files, ConsFile(s, rest)) == PrefixWith(files + [s.result.value], rest)
  {
    if rest.Returns? && rest.result.Ok? {
      assert files + ([s.result.value] + rest.result.value) == (files + [s.result.value]) + rest.result.value;
    }
  }

  /** One iteration of the query loop: generate the struct, then parse its tokens. */
  method GenerateQueryFile(entry: (string, QueryInfo), f: Foreign, syntax: Syntax) returns (r: Outcome<QueryFileOut>)
    ensures r == QueryFileSpec(entry, f, syntax)
  {
    var (name, query) := entry;
    var s := GenerateQueryStruct(name, query, f);
    if s.Panics? {
      return Panics(s.message);
    }
    if s.result.Err? {
      return Returns(Err(s.result.error));
    }
    var parsed := ParseQueryFile(s.result.value, syntax);
    if parsed.Err? {
      return Returns(Err(FromSyn(parsed.error)));
    }
    r := Returns(Ok(QueryFileOut(query.path, name + ".rs", s.result.value, parsed.value)));
  }

  /** The file generation of the query loop: one file per query, in map order; the first
      query that fails, panics or does not parse ends the run. */
  method GenerateQueryFiles(qs: seq<(string, QueryInfo)>, f: Foreign, syntax: Syntax)
    returns (r: Outcome<seq<QueryFileOut>>)
    ensures r == QueryFilesFrom(qs, f, syntax)
  {
    var files: seq<QueryFileOut> := [];
    var i := 0;
    ghost var outs := FileOutcomes(qs, f, syntax);
    SequenceSuffix(outs, 0, files);
    while i < |qs|
      invariant 0 <= i <= |qs|
      invariant Sequence(outs) == PrefixWith(files, Sequence(outs[i..]))
    {
      var s := GenerateQueryFile(qs[i], f, syntax);
      SequenceSuffix(outs, i, files);
      if s.Panics? {
        return Panics(s.message);
      }
      if s.result.Err? {
        return Returns(Err(s.result.error));
      }
      files := files + [s.result.value];
      i := i + 1;
    }
    SequenceSuffix(outs, i, files);
    r := Returns(Ok(files));
  }

  /** The `mod.rs` of every path, in key order; the first that does not parse ends the
      loop. */
  method GenerateModFiles(keys: seq<string>, modules: map<string, seq<string>>, syntax: Syntax)
    returns (r: Result<seq<ModFile>, SynError>)
    requires forall k :: k in keys ==> k in modules
    ensures r == ModFilesFrom(keys, modules, syntax)
  {
    var done: seq<ModFile> := [];
    var j := 0;
    while j < |keys|
      invariant 0 <= j <= |keys|
      invariant |done| == j
      invariant forall i :: 0 <= i < j ==> syntax.modFile(modules[keys[i]]).Ok?
      invariant forall i :: 0 <= i < j ==>
        done[i] == ModFile(keys[i], modules[keys[i]], syntax.modFile(modules[keys[i]]).value)
    {
      var parsed := syntax.modFile(modules[keys[j]]);
      if parsed.Err? {
        var m := ModFilesFrom(keys, modules, syntax);
        var k :| 0 <= k < |keys| && FirstModFailure(keys, modules, syntax, k)
          && syntax.modFile(modules[keys[k]]) == Err(m.error);
        assert !(k < j) && !(j < k);
        return Err(parsed.error);
      }
      done := done + [ModFile(keys[j], modules[keys[j]], parsed.value)];
      j := j + 1;
    }
    assert done == ModFilesFrom(keys, modules, syntax).value;
    r := Ok(done);
  }

  /** `generate_query_structs_from_queries`, over the query map in key order: record each
      query's module under its path and generate its file, then write each path's
      `mod.rs` and the top-level `mod.rs`, in the order of the path keys; a `syn` failure
      at any of the three parses becomes a `Syn` error. */
  method GenerateQueryStructsFromQueries(qs: seq<(string, QueryInfo)>, f: Foreign, syntax: Syntax)
    returns (r: Outcome<Generated>)
    requires StrictlySorted(Keys(qs))
    ensures r == GenerateSpec(qs, f, syntax)
  {
    var modules, keys := CollectModules(qs);
    var files := GenerateQueryFiles(qs, f, syntax);
    if files.Panics? {
      return Panics(files.message);
    }
    if files.result.Err? {
      return Returns(Err(files.result.error));
    }
    ModulesOfKeys(qs);
    var modFiles := GenerateModFiles(keys, modules, syntax);
    if modFiles.Err? {
      return Returns(Err(FromSyn(modFiles.error)));
    }
    var top := syntax.modFile(keys);
    if top.Err? {
      return Returns(Err(FromSyn(top.error)));
    }
    r := Returns(Ok(Generated(files.result.value, modFiles.value, keys, top.value)));
  }

  /** A successful run writes one file per query, in map order, each holding its query's
      struct; no generated query function is without arguments. */
  lemma GeneratedQueryFiles(qs: seq<(string, QueryInfo)>, f: Foreign, syntax: Syntax)
    requires GenerateSpec(qs, f, syntax).Returns? && GenerateSpec(qs, f, syntax).result.Ok?
    ensures var g := GenerateSpec(qs, f, syntax).result.value;
      |g.queryFiles| == |qs|
      && forall i :: 0 <= i < |qs| ==>
        g.queryFiles[i].dir == qs[i].1.path && g.queryFiles[i].fileName == qs[i].0 + ".rs"
        && QueryStructSpec(qs[i].0, qs[i].1, f) == Returns(Ok(g.queryFiles[i].content))
        && forall k :: 0 <= k < |g.queryFiles[i].content.fns| ==> g.queryFiles[i].content.fns[k].args != []
  {
    var g := GenerateSpec(qs, f, syntax).result.value;
    assert QueryFilesFrom(qs, f, syntax) == Returns(Ok(g.queryFiles));
    QueryFilesFromOk(qs, f, syntax);
    forall i | 0 <= i < |qs|
      ensures g.queryFiles[i].dir == qs[i].1.path && g.queryFiles[i].fileName == qs[i].0 + ".rs"
      ensures QueryStructSpec(qs[i].0, qs[i].1, f) == Returns(Ok(g.queryFiles[i].content))
      ensures forall k :: 0 <= k < |g.queryFiles[i].content.fns| ==> g.queryFiles[i].content.fns[k].args != []
    {
      QueryFileContents(qs[i], f, syntax);
    }
  }

  /** An INSERT without placeholders never compiles: its `execute` gets the argument tuple
      `( , )`, so its file fails to parse, and the generator ends in that error or in an
      earlier failure. */
  lemma PlaceholderFreeInsertFails(qs: seq<(string, QueryInfo)>, f: Foreign, syntax: Syntax, i: nat)
    requires i < |qs| && qs[i].1.inner.Insert? && qs[i].1.inner.insert.placeholders == []
    ensures !(GenerateSpec(qs, f, syntax).Returns? && GenerateSpec(qs, f, syntax).result.Ok?)
  {
    QueryFilesFromOk(qs, f, syntax);
    QueryFileContents(qs[i], f, syntax);
  }

  /** The same holds for a `SELECT *` or a boolean SELECT without placeholders: its `one()`
      gets the argument tuple `( , )`. */
  lemma PlaceholderFreeSelectFails(qs: seq<(string, QueryInfo)>, f: Foreign, syntax: Syntax, i: nat)
    requires i < |qs| && qs[i].1.inner.Select?
    requires qs[i].1.inner.select.what.Everything? || qs[i].1.inner.select.what.Boolean?
    requires qs[i].1.inner.select.placeholders == []
    ensures !(GenerateSpec(qs, f, syntax).Returns? && GenerateSpec(qs, f, syntax).result.Ok?)
  {
    QueryFilesFromOk(qs, f, syntax);
    QueryFileContents(qs[i], f, syntax);
  }

  /** The top-level module lists every distinct query path exactly once, in key order; each
      path's module file lists exactly the queries of that path, in the map's order, which
      is sorted by name. */
  lemma GeneratedModules(qs: seq<(string, QueryInfo)>, f: Foreign, syntax: Syntax)
    requires StrictlySorted(Keys(qs))
    requires GenerateSpec(qs, f, syntax).Returns? && GenerateSpec(qs, f, syntax).result.Ok?
    ensures var g := GenerateSpec(qs, f, syntax).result.value;
      StrictlySorted(g.topLevel)
      && (forall p :: p in g.topLevel <==> exists i :: 0 <= i < |qs| && qs[i].1.path == p)
      && |g.modFiles| == |g.topLevel|
      && forall k :: 0 <= k < |g.modFiles| ==>
        g.modFiles[k].path == g.topLevel[k] && g.modFiles[k].modules == NamesWithPath(qs, g.topLevel[k])
        && StrictlySorted(g.modFiles[k].modules)
  {
    var g := GenerateSpec(qs, f, syntax).result.value;
    ModulesOfKeys(qs);
    var keys := FromSeq(Paths(qs));
    assert g.topLevel == keys;
    forall p ensures p in keys <==> exists i :: 0 <= i < |qs| && qs[i].1.path == p {
      if p in Paths(qs) {
        var i :| 0 <= i < |Paths(qs)| && Paths(qs)[i] == p;
        assert qs[i].1.path == p;
      }
      if exists i :: 0 <= i < |qs| && qs[i].1.path == p {
        var i :| 0 <= i < |qs| && qs[i].1.path == p;
        assert Paths(qs)[i] == p;
      }
    }
    assert ModFilesFrom(keys, ModulesOf(qs), syntax) == Ok(g.modFiles);
    ModFilesShape(keys, qs, syntax);
    forall k | 0 <= k < |g.modFiles| ensures StrictlySorted(g.modFiles[k].modules) {
      NamesWithPathSorted(qs, keys[k]);
    }
  }

  /** The k-th module file belongs to the k-th key and lists that path's queries. */
  lemma ModFilesShape(keys: seq<string>, qs: seq<(string, QueryInfo)>, syntax: Syntax)
    requires forall k :: k in keys ==> k in ModulesOf(qs)
    requires ModFilesFrom(keys, ModulesOf(qs), syntax).Ok?
    ensures var mods := ModFilesFrom(keys, ModulesOf(qs), syntax).value;
      |mods| == |keys|
      && forall k :: 0 <= k < |keys| ==> mods[k].path == keys[k] && mods[k].modules == NamesWithPath(qs, keys[k])
  {
    forall k | 0 <= k < |keys| ensures ModulesOf(qs)[keys[k]] == NamesWithPath(qs, keys[k]) {
      ModulesOfLists(qs, keys[k]);
    }
  }

  /** With the query map in key order, each path's module file lists its queries sorted
      by name. */
  lemma {:induction false} NamesWithPathSorted(qs: seq<(string, QueryInfo)>, p: string)
    requires StrictlySorted(Keys(qs))
    ensures StrictlySorted(NamesWithPath(qs, p))
    ensures forall x :: x in NamesWithPath(qs, p) ==> x in Keys(qs)
  {
    if qs != [] {
      var init := qs[..|qs| - 1];
      assert Keys(qs) == Keys(init) + [qs[|qs| - 1].0];
      assert StrictlySorted(Keys(init)) by {
        forall a, b | 0 <= a < b < |Keys(init)| ensures Less(Keys(init)[a], Keys(init)[b]) {
          assert Keys(init)[a] == Keys(qs)[a] && Keys(init)[b] == Keys(qs)[b];
        }
      }
      NamesWithPathSorted(init, p);
      var last := qs[|qs| - 1].0;
      forall x | x in Keys(init) ensures Less(x, last) {
        var a :| 0 <= a < |Keys(init)| && Keys(init)[a] == x;
        assert Keys(qs)[a] == x && Keys(qs)[|Keys(qs)| - 1] == last;
      }
    }
  }
}
