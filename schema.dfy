/** `read_schemas` and `parse_schema` (`hartex-database-typedsql`, `src/schema.rs`): the
    discovery of schema files and the selection of their CREATE TABLE statements. The
    directory listing, the file reads and `pg_query::parse` are given as values and
    functions. */
module TypedSqlSchema {
  import opened Wrappers
  import opened Paths
  import opened PgAst
  import opened TypedSqlError

  /** `RawSchemaInfo`. */
  datatype RawSchemaInfo = RawSchemaInfo(path: Path, name: string, contents: string)

  /** The unit struct `SchemaInfo` `parse_schema` returns. */
  datatype SchemaMarker = SchemaMarker

  /** The path's extension is exactly `sql`. */
  predicate IsSchemaFile(p: Path) {
    Extension(p) == Some("sql")
  }

  // ---------------------------------------------------------------------------------------
  // read_schemas

  /** The result of the listing loop from the given entries on: the first failing entry or
      read wins; otherwise every `.sql` file, in listing order. */
  function ReadSchemasFrom(entries: seq<Result<Path, IoError>>, read: Path -> Result<string, IoError>)
    : Result<seq<RawSchemaInfo>, Error>
  {
    if entries == [] then Ok([])
    else
      match entries[0]
      case Err(e) => Err(FromIo(e))
      case Ok(p) =>
        if !IsSchemaFile(p) then ReadSchemasFrom(entries[1..], read)
        else
          ExtensionImpliesStem(p);
          match read(p)
          case Err(e) => Err(FromIo(e))
          case Ok(contents) =>
            Prepend(RawSchemaInfo(p, FileStem(p).value, contents), ReadSchemasFrom(entries[1..], read))
  }

  function Prepend(x: RawSchemaInfo, r: Result<seq<RawSchemaInfo>, Error>): Result<seq<RawSchemaInfo>, Error> {
    match r case Ok(xs) => Ok([x] + xs) case Err(e) => Err(e)
  }

  /** The entries of an accumulated prefix followed by the rest of the loop. */
  function PrefixWith(vec: seq<RawSchemaInfo>, r: Result<seq<RawSchemaInfo>, Error>): Result<seq<RawSchemaInfo>, Error> {
    match r case Ok(xs) => Ok(vec + xs) case Err(e) => Err(e)
  }

  /** The model of the whole function: a failed listing fails, otherwise the loop runs. */
  function ReadSchemasSpec(listing: Result<seq<Result<Path, IoError>>, IoError>, read: Path -> Result<string, IoError>)
    : Result<seq<RawSchemaInfo>, Error>
  {
    match listing
    case Err(e) => Err(FromIo(e))
    case Ok(entries) => ReadSchemasFrom(entries, read)
  }

  /** One iteration of the listing loop, on the accumulated prefix `vec`. */
  lemma ReadSchemasStep(entries: seq<Result<Path, IoError>>, read: Path -> Result<string, IoError>, i: nat, vec: seq<RawSchemaInfo>)
    requires i < |entries|
    ensures entries[i].Err? ==> PrefixWith(vec, ReadSchemasFrom(entries[i..], read)) == Err(FromIo(entries[i].error))
    ensures entries[i].Ok? && !IsSchemaFile(entries[i].value) ==>
      ReadSchemasFrom(entries[i..], read) == ReadSchemasFrom(entries[i + 1..], read)
    ensures entries[i].Ok? && IsSchemaFile(entries[i].value) ==>
      var p := entries[i].value;
      FileStem(p).Some?
      && (read(p).Err? ==> PrefixWith(vec, ReadSchemasFrom(entries[i..], read)) == Err(FromIo(read(p).error)))
      && (read(p).Ok? ==>
            PrefixWith(vec, ReadSchemasFrom(entries[i..], read))
            == PrefixWith(vec + [RawSchemaInfo(p, FileStem(p).value, read(p).value)], ReadSchemasFrom(entries[i + 1..], read)))
  {
    assert entries[i..][0] == entries[i] && entries[i..][1..] == entries[i + 1..];
    if entries[i].Ok? && IsSchemaFile(entries[i].value) {
      var p := entries[i].value;
      ExtensionImpliesStem(p);
      if read(p).Ok? {
        match ReadSchemasFrom(entries[i + 1..], read) {
          case Ok(xs) =>
            var info := RawSchemaInfo(p, FileStem(p).value, read(p).value);
            assert vec + ([info] + xs) == (vec + [info]) + xs;
          case Err(_) =>
        }
      }
    }
  }

  /** `read_schemas`: walk the listing, skip entries that are not `.sql` files and record
      the others with their stem and contents; every I/O failure is returned at once. */
  method ReadSchemas(listing: Result<seq<Result<Path, IoError>>, IoError>, read: Path -> Result<string, IoError>)
    returns (r: Result<seq<RawSchemaInfo>, Error>)
    ensures r == ReadSchemasSpec(listing, read)
  {
    if listing.Err? {
      return Err(FromIo(listing.error));
    }
    var entries := listing.value;
    var vec: seq<RawSchemaInfo> := [];
    var i := 0;
    assert entries[0..] == entries;
    match ReadSchemasFrom(entries, read) {
      case Ok(xs) => assert [] + xs == xs;
      case Err(_) =>
    }
    while i < |entries|
      invariant 0 <= i <= |entries|
      invariant ReadSchemasFrom(entries, read) == PrefixWith(vec, ReadSchemasFrom(entries[i..], read))
    {
      ReadSchemasStep(entries, read, i, vec);
      var entry := entries[i];
      if entry.Err? {
        return Err(FromIo(entry.error));
      }
      var path := entry.value;
      if !IsSchemaFile(path) {
        i := i + 1;
        continue;
      }
      var name := FileStem(path).value;
      var contents := read(path);
      if contents.Err? {
        return Err(FromIo(contents.error));
      }
      vec := vec + [RawSchemaInfo(path, name, contents.value)];
      i := i + 1;
    }
    assert entries[i..] == [];
    assert vec + [] == vec;
    return Ok(vec);
  }

  /** The `.sql` entries of a listing, in order. */
  function SchemaPaths(entries: seq<Result<Path, IoError>>): (r: seq<Path>)
    ensures forall p :: p in r ==> IsSchemaFile(p) && Ok(p) in entries
  {
    if entries == [] then []
    else
      (if entries[0].Ok? && IsSchemaFile(entries[0].value) then [entries[0].value] else [])
      + SchemaPaths(entries[1..])
  }

  /** All entries were listed without error and every `.sql` file could be read. */
  predicate AllReadable(entries: seq<Result<Path, IoError>>, read: Path -> Result<string, IoError>) {
    (forall i :: 0 <= i < |entries| ==> entries[i].Ok?)
    && forall p :: p in SchemaPaths(entries) ==> read(p).Ok?
  }

  /** Readability of a listing, entry by entry. */
  lemma AllReadableStep(entries: seq<Result<Path, IoError>>, read: Path -> Result<string, IoError>)
    requires entries != []
    ensures AllReadable(entries, read) <==>
      entries[0].Ok? && (IsSchemaFile(entries[0].value) ==> read(entries[0].value).Ok?)
      && AllReadable(entries[1..], read)
  {
    var rest := entries[1..];
    assert forall i :: 0 <= i < |rest| ==> rest[i] == entries[i + 1];
    assert (forall i :: 0 <= i < |entries| ==> entries[i].Ok?) <==>
      entries[0].Ok? && forall i :: 0 <= i < |rest| ==> rest[i].Ok?;
    var head := if entries[0].Ok? && IsSchemaFile(entries[0].value) then [entries[0].value] else [];
    assert SchemaPaths(entries) == head + SchemaPaths(rest);
    assert forall q :: q in SchemaPaths(entries) <==> q in head || q in SchemaPaths(rest);
  }

  /** The loop succeeds exactly when every entry is listed and every `.sql` file is read
      without error. */
  lemma {:induction false} ReadSchemasSucceeds(entries: seq<Result<Path, IoError>>, read: Path -> Result<string, IoError>)
    ensures ReadSchemasFrom(entries, read).Ok? <==> AllReadable(entries, read)
  {
    if entries != [] {
      ReadSchemasSucceeds(entries[1..], read);
      AllReadableStep(entries, read);
    }
  }

  /** On success, each `.sql` file is recorded once, in listing order, named by its stem
      and holding its contents. */
  lemma {:induction false} ReadSchemasRecords(entries: seq<Result<Path, IoError>>, read: Path -> Result<string, IoError>)
    requires ReadSchemasFrom(entries, read).Ok?
    ensures |ReadSchemasFrom(entries, read).value| == |SchemaPaths(entries)|
    ensures forall k :: 0 <= k < |SchemaPaths(entries)| ==>
      FileStem(SchemaPaths(entries)[k]).Some? && read(SchemaPaths(entries)[k]).Ok?
      && ReadSchemasFrom(entries, read).value[k]
        == RawSchemaInfo(SchemaPaths(entries)[k], FileStem(SchemaPaths(entries)[k]).value, read(SchemaPaths(entries)[k]).value)
  {
    if entries != [] {
      var rest := entries[1..];
      var p := entries[0].value;
      ReadSchemasRecords(rest, read);
      var paths, restPaths := SchemaPaths(entries), SchemaPaths(rest);
      var out, restOut := ReadSchemasFrom(entries, read).value, ReadSchemasFrom(rest, read).value;
      if IsSchemaFile(p) {
        ExtensionImpliesStem(p);
        assert paths == [p] + restPaths;
        assert out == [RawSchemaInfo(p, FileStem(p).value, read(p).value)] + restOut;
        forall k | 1 <= k < |paths|
          ensures FileStem(paths[k]).Some? && read(paths[k]).Ok?
            && out[k] == RawSchemaInfo(paths[k], FileStem(paths[k]).value, read(paths[k]).value)
        {
          assert paths[k] == restPaths[k - 1] && out[k] == restOut[k - 1];
        }
      } else {
        assert paths == restPaths && out == restOut;
      }
    }
  }

  // ---------------------------------------------------------------------------------------
  // parse_schema

  /** The CREATE TABLE statements of a parse, in order; statements without a node are
      dropped like any other statement. */
  function CreateStatements(stmts: seq<RawStmt>): (r: seq<PgNode>)
    ensures |r| <= |stmts|
    ensures forall n :: n in r ==> n.CreateStmt? && RawStmt(Some(NodeBox(Some(n)))) in stmts
  {
    if stmts == [] then []
    else
      (match stmts[0].stmt
       case Some(NodeBox(Some(CreateStmt(relation)))) => [CreateStmt(relation)]
       case _ => [])
      + CreateStatements(stmts[1..])
  }

  /** The filter works statement by statement, so it keeps the original order. */
  lemma {:induction false} CreateStatementsAppend(a: seq<RawStmt>, b: seq<RawStmt>)
    ensures CreateStatements(a + b) == CreateStatements(a) + CreateStatements(b)
  {
    if a == [] {
      assert a + b == b;
    } else {
      assert (a + b)[0] == a[0];
      assert (a + b)[1..] == a[1..] + b;
      CreateStatementsAppend(a[1..], b);
    }
  }

  /** Every CREATE TABLE statement of the parse is kept. */
  lemma {:induction false} CreateStatementsComplete(stmts: seq<RawStmt>, i: nat)
    requires i < |stmts| && stmts[i].stmt.Some? && stmts[i].stmt.value.node.Some?
    requires stmts[i].stmt.value.node.value.CreateStmt?
    ensures stmts[i].stmt.value.node.value in CreateStatements(stmts)
  {
    if i > 0 {
      assert stmts[1..][i - 1] == stmts[i];
      CreateStatementsComplete(stmts[1..], i - 1);
    }
  }

  /** `parse_schema`: a parse failure is returned; otherwise the CREATE TABLE statements are
      selected and discarded, and the result is always the unit `SchemaInfo`. */
  function ParseSchema(raw: RawSchemaInfo, parse: string -> Result<seq<RawStmt>, Error>)
    : (r: Result<SchemaMarker, Error>)
    ensures r.Ok? <==> parse(raw.contents).Ok?
    ensures r.Err? ==> r.error == parse(raw.contents).error
  {
    match parse(raw.contents)
    case Err(e) => Err(e)
    case Ok(stmts) =>
      var _ := CreateStatements(stmts);
      Ok(SchemaMarker)
  }
}
