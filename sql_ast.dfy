/** The part of `sqlparser`'s AST that the typed-SQL compiler inspects, the schema registry
    it resolves names against, and the foreign helpers it calls (`convert_case`, the
    `Display` of an object name). */
module SqlAst {
  import opened Wrappers

  // ---------------------------------------------------------------------------------------
  // sqlparser: identifiers, values, expressions, INSERT

  /** `Ident`: the identifier text without its quotes, and the quote character if any. */
  datatype Ident = Ident(value: string, quoteStyle: Option<char>)

  /** `Value`, reduced to the variants the compiler distinguishes. A placeholder keeps its
      sigil (`:name`, `$1`, `?`). */
  datatype SqlValue =
    | Placeholder(text: string)
    | Number(digits: string)
    | SingleQuotedString(contents: string)
    | BooleanValue(b: bool)
    | Null

  /** `Expr`. Sub-expressions of compound forms are not stored: the traversal that visits
      them is given separately, as the pre-order sequence of visited expressions. */
  datatype Expr =
    | Value(val: SqlValue)
    | Identifier(ident: Ident)
    | CompoundIdentifier(idents: seq<Ident>)
    | Compound(form: string)

  /** `TableObject`: the target of an INSERT. */
  datatype TableObject = TableName(name: seq<Ident>) | TableFunction(call: string)

  /** `Insert`, with the expressions `sqlparser`'s `Visit` traversal hands to
      `pre_visit_expr`, in that order. */
  datatype Insert = Insert(table: TableObject, visited: seq<Expr>)

  // ---------------------------------------------------------------------------------------
  // sqlparser: data types

  datatype TimezoneInfo = NoTimezone | WithTimeZone | WithoutTimeZone | Tz

  /** `ArrayElemTypeDef`: `T[]` (square brackets), `ARRAY<T>`, `Array(T)` or bare `ARRAY`. */
  datatype ArrayElemTypeDef =
    | SquareBracket(inner: DataType, size: Option<nat>)
    | AngleBracket(inner: DataType)
    | Parenthesis(inner: DataType)
    | NoElemType

  /** `DataType`, with the variants the type mapping names and one catch-all. */
  datatype DataType =
    | Array(elem: ArrayElemTypeDef)
    | BigInt(width: Option<nat>)
    | Boolean
    | Char(length: Option<nat>)
    | Character(length: Option<nat>)
    | CharacterVarying(length: Option<nat>)
    | Varchar(length: Option<nat>)
    | Text
    | Real
    | SmallInt(width: Option<nat>)
    | Integer(width: Option<nat>)
    | Time(precision: Option<nat>, tz: TimezoneInfo)
    | Timestamp(precision: Option<nat>, tz: TimezoneInfo)
    | OtherType(name: string)

  // ---------------------------------------------------------------------------------------
  // The schema registry

  /** A column-level constraint; the compiler keeps them but never reads them. */
  datatype ColumnOption = NotNull | NullAllowed | Unique | OtherOption(text: string)

  datatype ColumnInfo = ColumnInfo(coltype: DataType, constraints: seq<ColumnOption>)

  /** A table: its name and its columns. The column map is iterated as well as looked up,
      so it is an association list in the map's iteration order. */
  datatype TableInfo = TableInfo(name: string, columns: seq<(string, ColumnInfo)>)

  /** A schema: its tables, keyed by table name, in the map's iteration order. */
  datatype SchemaInfo = SchemaInfo(tables: seq<(string, TableInfo)>)

  /** `HashMap::get` on an association list. */
  function Get<V>(m: seq<(string, V)>, k: string): (r: Option<V>)
    ensures r.Some? <==> exists i :: 0 <= i < |m| && m[i].0 == k
    ensures r.Some? ==> exists i :: 0 <= i < |m| && m[i] == (k, r.value)
  {
    if m == [] then None
    else if m[0].0 == k then Some(m[0].1)
    else Get(m[1..], k)
  }

  /** A map never holds one key twice. */
  predicate DistinctKeys<V>(m: seq<(string, V)>) {
    forall i, j :: 0 <= i < j < |m| ==> m[i].0 != m[j].0
  }

  /** With distinct keys, a lookup finds the value stored under the key. */
  lemma {:induction false} GetFindsEntry<V>(m: seq<(string, V)>, i: nat)
    requires DistinctKeys(m) && i < |m|
    ensures Get(m, m[i].0) == Some(m[i].1)
  {
    if i > 0 {
      assert m[0].0 != m[i].0;
      assert m[1..][i - 1] == m[i];
      GetFindsEntry(m[1..], i - 1);
    }
  }

  // ---------------------------------------------------------------------------------------
  // Foreign helpers

  /** Functions of other crates the compiler calls and that the model leaves uninterpreted:
      `convert_case`'s `to_case(Case::Snake)`, `to_case(Case::Constant)` and
      `to_case(Case::Pascal)`, and the `Display` of an `ObjectName` built from identifiers. */
  datatype Foreign = Foreign(
    snake: string -> string,
    constant: string -> string,
    pascal: string -> string,
    objectName: seq<Ident> -> string)
}
