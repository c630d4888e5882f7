/** The generation of one row struct per table (`hartex-database-typedsql`,
    `src/codegen/tables.rs`). The emitted tokens are modelled as struct declarations; the
    round trip through `syn::parse2` and `prettyplease::unparse` is a given function. */
module CodegenTables {
  import opened Wrappers
  import opened Strings
  import opened SqlAst
  import opened TypedSqlError
  import opened CodegenTypes

  /** `#ident: #dtype`. */
  datatype Field = Field(name: string, ty: RustTy)

  /** `pub struct #ident { #(#fields),* }`. */
  datatype StructDecl = StructDecl(ident: string, fields: seq<Field>)

  /** `GeneratedTableStructsFile`. */
  datatype GeneratedTableStructsFile = GeneratedTableStructsFile(filename: string, content: string)

  /** The struct name of a table: its key with `public.` removed, then every `"`, then
      every `.`. */
  function Unquote(name: string): (r: string)
    ensures '"' !in r && '.' !in r
  {
    var once := ReplaceAll(ReplaceAll(name, "public.", ""), "\"", "");
    ReplaceCharIsRemove(ReplaceAll(name, "public.", ""), '"');
    ReplaceCharIsRemove(once, '.');
    ReplaceAll(once, ".", "")
  }

  /** A plain identifier (no quote, no dot) is its own struct name. */
  lemma UnquotePlain(name: string)
    requires '"' !in name && '.' !in name
    ensures Unquote(name) == name
  {
    assert !Occurs(name, "public.") by {
      forall i: nat | i <= |name| ensures !OccursAt(name, "public.", i) {
        if i + 7 <= |name| {
          assert name[i + 6] == name[i..i + 7][6];
          assert "public."[6] == '.';
        }
      }
    }
    ReplaceAbsent(name, "public.", "");
    ReplaceCharIsRemove(name, '"');
    ReplaceCharIsRemove(name, '.');
    RemoveAbsent(name, '"');
    RemoveAbsent(name, '.');
  }

  lemma {:induction false} RemoveAbsent(s: string, c: char)
    requires c !in s
    ensures RemoveChar(s, c) == s
  {
    if s != [] {
      RemoveAbsent(s[1..], c);
      assert [s[0]] + s[1..] == s;
    }
  }

  /** A leading `public.` schema qualifier is dropped. */
  lemma UnquoteDropsPublic(y: string)
    ensures Unquote("public." + y) == Unquote(y)
  {
    ReplaceAtMatch(y, "public.", "");
    assert "" + ReplaceAll(y, "public.", "") == ReplaceAll(y, "public.", "");
  }

  /** Without a `public.` qualifier, only the quotes and dots are removed. */
  lemma UnquoteWithoutSchema(s: string)
    requires !Occurs(s, "public.")
    ensures Unquote(s) == RemoveChar(RemoveChar(s, '"'), '.')
  {
    ReplaceAbsent(s, "public.", "");
    ReplaceCharIsRemove(s, '"');
    ReplaceCharIsRemove(RemoveChar(s, '"'), '.');
  }

  /** `public.users` names the struct `users`. */
  lemma UnquotePublicTable()
    ensures Unquote("public.users") == "users"
  {
    var y := "users";
    assert "public.users" == "public." + y;
    UnquoteDropsPublic(y);
    UnquotePlain(y);
  }

  /** `generate_table_fields_token_streams`: one field per column, in column order, named
      after the column and typed by the owned mapping; the first unsupported column type
      fails the table. Column constraints play no part, and no field is made optional. */
  function GenerateTableFields(columns: seq<(string, ColumnInfo)>): (r: Result<seq<Field>, Error>)
    ensures r.Ok? <==> forall i :: 0 <= i < |columns| ==> RustType(columns[i].1.coltype).Some?
    ensures r.Err? ==> r.error == QueryFile("unsupported data type")
    ensures r.Ok? ==>
      |r.value| == |columns|
      && forall i :: 0 <= i < |columns| ==>
        r.value[i] == Field(columns[i].0, RustType(columns[i].1.coltype).value)
  {
    if columns == [] then Ok([])
    else
      match RustType(columns[0].1.coltype)
      case None => Err(QueryFile("unsupported data type"))
      case Some(t) =>
        match GenerateTableFields(columns[1..])
        case Err(e) => Err(e)
        case Ok(rest) =>
          assert forall i :: 1 <= i < |columns| ==> columns[i] == columns[1..][i - 1];
          Ok([Field(columns[0].0, t)] + rest)
  }

  /** The schema's tables are all representable. */
  predicate AllColumnsSupported(schema: SchemaInfo) {
    forall i :: 0 <= i < |schema.tables| ==> GenerateTableFields(schema.tables[i].1.columns).Ok?
  }

  /** `generate_token_stream`: one struct per table, in table order, named by `Unquote` of
      the table's key; the first unsupported column fails the whole schema. */
  function GenerateTokenStream(tables: seq<(string, TableInfo)>): (r: Result<seq<StructDecl>, Error>)
    ensures r.Ok? <==> AllColumnsSupported(SchemaInfo(tables))
    ensures r.Err? ==> r.error == QueryFile("unsupported data type")
    ensures r.Ok? ==>
      |r.value| == |tables|
      && forall i :: 0 <= i < |tables| ==>
        r.value[i].ident == Unquote(tables[i].0)
        && Ok(r.value[i].fields) == GenerateTableFields(tables[i].1.columns)
  {
    if tables == [] then Ok([])
    else
      match GenerateTableFields(tables[0].1.columns)
      case Err(e) => Err(e)
      case Ok(fields) =>
        match GenerateTokenStream(tables[1..])
        case Err(e) => Err(e)
        case Ok(rest) =>
          assert forall i :: 1 <= i < |tables| ==> tables[i] == tables[1..][i - 1];
          Ok([StructDecl(Unquote(tables[0].0), fields)] + rest)
  }

  /** `generate_table_structs_from_schema`: the file is named after the schema; its content
      is the rendering of the structs, which fails with a `syn` error when they do not parse
      as a Rust file. */
  function GenerateTableStructsFromSchema(
    name: string,
    schema: SchemaInfo,
    render: seq<StructDecl> -> Result<string, SynError>
  ): (r: Result<GeneratedTableStructsFile, Error>)
    ensures r.Ok? <==> GenerateTokenStream(schema.tables).Ok? && render(GenerateTokenStream(schema.tables).value).Ok?
    ensures r.Ok? ==>
      r.value.filename == name + ".rs"
      && r.value.content == render(GenerateTokenStream(schema.tables).value).value
    ensures GenerateTokenStream(schema.tables).Err? ==> r == Err(QueryFile("unsupported data type"))
    ensures GenerateTokenStream(schema.tables).Ok? && render(GenerateTokenStream(schema.tables).value).Err? ==>
      r == Err(FromSyn(render(GenerateTokenStream(schema.tables).value).error))
  {
    var filename := name + ".rs";
    match GenerateTokenStream(schema.tables)
    case Err(e) => Err(e)
    case Ok(structs) =>
      match render(structs)
      case Err(e) => Err(FromSyn(e))
      case Ok(content) => Ok(GeneratedTableStructsFile(filename, content))
  }

  /** One unsupported column anywhere fails the whole schema. */
  lemma OneUnsupportedColumnFails(tables: seq<(string, TableInfo)>, i: nat, j: nat)
    requires i < |tables| && j < |tables[i].1.columns|
    requires RustType(tables[i].1.columns[j].1.coltype).None?
    ensures GenerateTokenStream(tables) == Err(QueryFile("unsupported data type"))
  {
    assert GenerateTableFields(tables[i].1.columns).Err?;
  }
}
