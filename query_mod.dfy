/** `read_queries` and `parse_query` (`hartex-database-typedsql`, `src/query/mod.rs`): the
    discovery of query files and the dispatch of their first statement. The directory walk,
    the file reads and `pg_query::parse` are given as values and functions. */
module TypedSqlQuery {
  import opened Wrappers
  import opened Paths
  import opened PgAst
  import opened SqlAst
  import opened TypedSqlError
  import opened TypedSqlSelect

  /** A `walkdir::DirEntry`: its path and whether it is a regular file. */
  datatype WalkEntry = WalkEntry(path: Path, isFile: bool)

  /** `RawQueryInfo`. */
  datatype RawQueryInfo = RawQueryInfo(path: Path, name: string, contents: string)

  /** The entry is a regular file whose extension is exactly `sql`. */
  predicate IsQueryFile(e: WalkEntry) {
    e.isFile && Extension(e.path) == Some("sql")
  }

  /** What one walk item contributes: nothing for a walk error, a non-file, a file of another
      extension or an unreadable file; otherwise the file's path, stem and contents. */
  function Admit(item: Result<WalkEntry, IoError>, read: Path -> Option<string>): (r: Option<RawQueryInfo>)
    ensures r.Some? <==> item.Ok? && IsQueryFile(item.value) && read(item.value.path).Some?
    ensures r.Some? ==>
      FileStem(item.value.path).Some?
      && r.value == RawQueryInfo(item.value.path, FileStem(item.value.path).value, read(item.value.path).value)
  {
    match item
    case Err(_) => None
    case Ok(entry) =>
      if !IsQueryFile(entry) then None
      else
        ExtensionImpliesStem(entry.path);
        match read(entry.path)
        case None => None
        case Some(contents) => Some(RawQueryInfo(entry.path, FileStem(entry.path).value, contents))
  }

  /** `read_queries`: the admitted walk items, in walk order. */
  function ReadQueries(items: seq<Result<WalkEntry, IoError>>, read: Path -> Option<string>)
    : (r: seq<RawQueryInfo>)
    ensures |r| <= |items|
  {
    if items == [] then [] else Contribution(items[0], read) + ReadQueries(items[1..], read)
  }

  /** The admitted query of one walk item, if any, as a list. */
  function Contribution(item: Result<WalkEntry, IoError>, read: Path -> Option<string>): seq<RawQueryInfo> {
    match Admit(item, read) case None => [] case Some(q) => [q]
  }

  /** The walk is filtered item by item, in order. */
  lemma {:induction false} ReadQueriesAppend(a: seq<Result<WalkEntry, IoError>>, b: seq<Result<WalkEntry, IoError>>, read: Path -> Option<string>)
    ensures ReadQueries(a + b, read) == ReadQueries(a, read) + ReadQueries(b, read)
  {
    if a == [] {
      assert a + b == b;
    } else {
      assert (a + b)[0] == a[0];
      assert (a + b)[1..] == a[1..] + b;
      ReadQueriesAppend(a[1..], b, read);
      var head := Contribution(a[0], read);
      assert head + (ReadQueries(a[1..], read) + ReadQueries(b, read))
        == (head + ReadQueries(a[1..], read)) + ReadQueries(b, read);
    }
  }

  /** A query is read exactly when some walk item is a readable `.sql` file with that path,
      stem and contents. */
  lemma {:induction false} ReadQueriesMembers(items: seq<Result<WalkEntry, IoError>>, read: Path -> Option<string>, q: RawQueryInfo)
    ensures q in ReadQueries(items, read) <==>
      exists i :: 0 <= i < |items| && Admit(items[i], read) == Some(q)
  {
    if items != [] {
      ReadQueriesMembers(items[1..], read, q);
      if exists i :: 0 <= i < |items| && Admit(items[i], read) == Some(q) {
        var i :| 0 <= i < |items| && Admit(items[i], read) == Some(q);
        if i > 0 {
          assert items[1..][i - 1] == items[i];
        }
      }
      if exists i :: 0 <= i < |items[1..]| && Admit(items[1..][i], read) == Some(q) {
        var i :| 0 <= i < |items[1..]| && Admit(items[1..][i], read) == Some(q);
        assert items[i + 1] == items[1..][i];
      }
    }
  }

  /** `parse_query`: parse the contents, take the first statement and dispatch on its kind.
      Only SELECT statements are handled. */
  function ParseQuery(
    raw: RawQueryInfo,
    parse: string -> Result<seq<RawStmt>, Error>,
    schemaMap: map<string, SchemaInfo>
  ): (r: Outcome<PgQueryInfo>)
    ensures parse(raw.contents).Err? ==> r == Returns(Err(parse(raw.contents).error))
    ensures parse(raw.contents) == Ok([]) ==> r == Returns(Err(QueryFile("expected at least one query")))
    ensures (parse(raw.contents).Ok? && parse(raw.contents).value != []) ==>
      var first := parse(raw.contents).value[0];
      (first.stmt.None? ==> r == Returns(Err(QueryFile("unexpected empty node"))))
      && (first.stmt == Some(NodeBox(None)) ==> r == Returns(Err(QueryFile("unexpected empty inner node"))))
      && (first.stmt.Some? && first.stmt.value.node.Some? && first.stmt.value.node.value.SelectStmt? ==>
            r == ParseSelectQuery(first.stmt.value.node.value.targetList, schemaMap))
      && (first.stmt.Some? && first.stmt.value.node.Some? && !first.stmt.value.node.value.SelectStmt? ==>
            r == Returns(Err(QueryFile("unexpected statement type"))))
    ensures !(r.Returns? && r.result.Ok?)
  {
    match parse(raw.contents)
    case Err(e) => Returns(Err(e))
    case Ok(stmts) =>
      if stmts == [] then Returns(Err(QueryFile("expected at least one query")))
      else
        match stmts[0].stmt
        case None => Returns(Err(QueryFile("unexpected empty node")))
        case Some(NodeBox(None)) => Returns(Err(QueryFile("unexpected empty inner node")))
        case Some(NodeBox(Some(node))) =>
          match node
          case SelectStmt(targetList) => ParseSelectQuery(targetList, schemaMap)
          case _ => Returns(Err(QueryFile("unexpected statement type")))
  }

  /** Only the first statement is looked at: two parses that agree on it give the same
      result, whatever follows. */
  lemma FirstStatementDecides(
    raw: RawQueryInfo,
    p1: string -> Result<seq<RawStmt>, Error>,
    p2: string -> Result<seq<RawStmt>, Error>,
    schemaMap: map<string, SchemaInfo>
  )
    requires p1(raw.contents).Ok? && p2(raw.contents).Ok?
    requires p1(raw.contents).value != [] && p2(raw.contents).value != []
    requires p1(raw.contents).value[0] == p2(raw.contents).value[0]
    ensures ParseQuery(raw, p1, schemaMap) == ParseQuery(raw, p2, schemaMap)
  {
  }
}
