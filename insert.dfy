/** `parse_insert_query` (`hartex-database-typedsql`, `src/query/insert.rs`): resolves the
    target table of an INSERT against the registered schemas and collects its placeholders. */
module TypedSqlInsert {
  import opened Wrappers
  import opened Strings
  import opened SqlAst
  import opened TypedSqlError
  import opened TypedSqlVisitor

  /** `InsertQueryInfo`: the resolved table and the placeholder names, as the iteration
      order of a `BTreeSet<String>`. */
  datatype InsertQueryInfo = InsertQueryInfo(intoTable: TableInfo, placeholders: seq<string>)

  /** The key a schema is registered under: the snake case of the first name segment. */
  function SchemaKey(name: seq<Ident>, f: Foreign): string
    requires |name| > 0
  {
    f.snake(name[0].value)
  }

  /** The key a table is registered under: the remaining segments rendered as an object
      name. */
  function TableKey(name: seq<Ident>, f: Foreign): string
    requires |name| > 0
  {
    f.objectName(name[1..])
  }

  /** The placeholder names of the statement as the visitor records them, collected into a
      `BTreeSet`. */
  function InsertPlaceholders(visited: seq<Expr>): (r: seq<string>)
    requires AllSigilsPresent(visited)
    ensures StrictlySorted(r)
    ensures forall x :: x in r <==> x in Collect([], visited)
    ensures forall x :: x in r <==> x in Names(visited)
  {
    forall x ensures x in Collect([], visited) <==> x in Names(visited) {
      CollectMembers([], visited, x);
    }
    FromSeq(Collect([], visited))
  }

  /** `parse_insert_query`. The failures are checked in order: the target kind, the schema
      name, the schema, the table; the first one met is returned. */
  function ParseInsertQuery(insert: Insert, schemaInfos: map<string, SchemaInfo>, f: Foreign)
    : (r: Result<InsertQueryInfo, Error>)
    requires AllSigilsPresent(insert.visited)
    ensures insert.table.TableFunction? ==>
      r == Err(QueryFile("table functions are not supported"))
    ensures insert.table.TableName? && insert.table.name == [] ==>
      r == Err(QueryFile("schema name not found"))
    ensures (insert.table.TableName? && insert.table.name != []
             && SchemaKey(insert.table.name, f) !in schemaInfos) ==>
      r == Err(QueryFile("schema not found"))
    ensures (insert.table.TableName? && insert.table.name != []
             && SchemaKey(insert.table.name, f) in schemaInfos
             && Get(schemaInfos[SchemaKey(insert.table.name, f)].tables, TableKey(insert.table.name, f)).None?) ==>
      r == Err(QueryFile("table not found in schema"))
    ensures r.Ok? <==>
      insert.table.TableName? && insert.table.name != []
      && SchemaKey(insert.table.name, f) in schemaInfos
      && Get(schemaInfos[SchemaKey(insert.table.name, f)].tables, TableKey(insert.table.name, f)).Some?
    ensures r.Ok? ==>
      Get(schemaInfos[SchemaKey(insert.table.name, f)].tables, TableKey(insert.table.name, f))
         == Some(r.value.intoTable)
      && StrictlySorted(r.value.placeholders)
      && (forall x :: x in r.value.placeholders <==> x in Names(insert.visited))
  {
    match insert.table
    case TableFunction(_) => Err(QueryFile("table functions are not supported"))
    case TableName(name) =>
      if name == [] then Err(QueryFile("schema name not found"))
      else if SchemaKey(name, f) !in schemaInfos then Err(QueryFile("schema not found"))
      else
        match Get(schemaInfos[SchemaKey(name, f)].tables, TableKey(name, f))
        case None => Err(QueryFile("table not found in schema"))
        case Some(intoTable) => Ok(InsertQueryInfo(intoTable, InsertPlaceholders(insert.visited)))
  }

  /** The placeholders form the unique sorted sequence of the names the visitor records:
      any other sorted, duplicate-free listing of the same names is this one. */
  lemma PlaceholdersDetermined(visited: seq<Expr>, other: seq<string>)
    requires AllSigilsPresent(visited)
    requires StrictlySorted(other) && forall x :: x in other <==> x in Names(visited)
    ensures InsertPlaceholders(visited) == other
  {
    SortedUnique(InsertPlaceholders(visited), other);
  }

  /** Placeholders are collected from the whole statement: visiting the same expressions in
      another order, or repeating some, yields the same set. */
  lemma PlaceholdersIgnoreOrder(v1: seq<Expr>, v2: seq<Expr>)
    requires AllSigilsPresent(v1) && AllSigilsPresent(v2)
    requires forall x :: x in Names(v1) <==> x in Names(v2)
    ensures InsertPlaceholders(v1) == InsertPlaceholders(v2)
  {
    SortedUnique(InsertPlaceholders(v1), InsertPlaceholders(v2));
  }
}
