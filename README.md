# HarTex core logic in Dafny

This project models the pure and stateful core of several HarTex components, and proves
properties of the model:

- **The typed-SQL compiler** (`hartex-database-typedsql`). It covers:
  - the placeholder visitor and INSERT table resolution;
  - statement dispatch and SELECT target extraction;
  - query-file and schema-file discovery, and the CREATE filter of the schema reader;
  - the SQL-to-Rust type mappings;
  - row-struct generation;
  - query-struct generation: shape selection, field types, the `:name` to `$k` rewrite, the
    environment variable, `bind`/`executor()`/`execute()`/`one()`, and per-path module
    aggregation.

  It also models the error enums of the compiler and of the query runtime
  (`hartex-database-queries`).
- **The in-memory Discord entity cache.** A class holding the per-kind entity tables, the
  guild index sets and the current user. Repository handles share one backend.
- **Small codecs and constructors:**
  - the bors build-status codec and the row conversions;
  - the guild-configuration `Locale`;
  - `FlagsExt::from_names`;
  - the API `Response` constructors (reason phrases from section 15 of RFC 9110);
  - the uptime payloads;
  - the web frontend's translation export map.

Each module follows one source file. The one shared datatype module is `Wrappers`
(`Option`, `Result`, `Either`, `Unit`). The one shared helper module is `Strings`. It covers
Rust's `str::replace`, `split_once`, ASCII lower-casing, decimal display, lexicographic `Ord`,
and a `BTreeSet<String>` held as a strictly sorted sequence.

Code the model cannot see becomes a parameter:
- `pg_query::parse`;
- the `sqlparser` traversal and `Display`;
- `convert_case` (the `Foreign` record of `SqlAst`);
- file reading and directory listing;
- `syn`/`prettyplease` rendering.

A panic (`unwrap` on `None`, `unreachable!()`, `todo!()`) reached by an input the caller can
supply is modelled as the `Panics` case of `TypedSqlError.Outcome`. So the model says which
inputs make the compiler panic, except for two kinds of check it does not model: the UTF-8
checks on file names and `Ident::new`'s identifier checks (see "Left out").

When `syn` parses a generated query file, the model checks the argument tuple
`(#(#placeholders),* ,)` of each query function. With no placeholders that tuple is `( , )`.
`syn` rejects it, because it expects an expression before the comma. So an INSERT, a
`SELECT *` or a boolean SELECT without placeholders makes the generator end in a `Syn` error
(`CodegenQueries.PlaceholderFreeInsertFails`, `CodegenQueries.PlaceholderFreeSelectFails`).
The rest of the parse is a parameter.

The bors pull-request lookup compares the `i32` number column with the unconverted `u64`
number. So a pull request numbered 2^31 or more is stored but never found
(`BorsClient.LargePullRequestNeverFound`).

A `HashMap` the code iterates is an association list, so its iteration order is explicit. A
`HashMap` the code only looks up is a Dafny `map`.

Where the source files disagree, the model follows the code that consumes the data. For
example, `codegen/queries.rs` reads a `QueryInfo` richer than the unit struct of
`query/mod.rs`. The INSERT placeholders are the `BTreeSet` of `query/insert.rs:40`: sorted and
distinct.

## Model

Paths in the source column are relative to the repository root.

| member | source | states |
|---|---|---|
| TypedSqlError.FromIo | database/hartex-database-typedsql/src/error.rs:36-40 | `From<io::Error>` gives `Io` holding the same error |
| TypedSqlError.FromParser | database/hartex-database-typedsql/src/error.rs:42-46 | `From<ParserError>` gives `Sql` holding the same error |
| TypedSqlError.FromSyn | database/hartex-database-typedsql/src/error.rs:48-52 | `From<SynError>` gives `Syn` holding the same error |
| TypedSqlError.ConversionsAreDisjointAndInjective | database/hartex-database-typedsql/src/error.rs:29-52 | no conversion yields `QueryFile`; the three conversions never coincide; each is injective |
| QueriesResult.FromWtx | database/hartex-database-queries/src/result.rs:31-35 | `From<WtxError>` gives `Wtx` holding the same error |
| QueriesResult.IntoCrateResult | database/hartex-database-queries/src/result.rs:43-50 | `Ok` keeps its value, `Err(e)` becomes `Wtx(e)`, and `Generic` is never produced |
| QueriesResult.IntoCrateResultInjective | database/hartex-database-queries/src/result.rs:43-50 | distinct driver results stay distinct |
| SqlAst.Get | database/hartex-database-typedsql/src/query/insert.rs:57-66 | `HashMap::get` on an association list: found exactly when some entry has the key, and the value is that entry's |
| SqlAst.GetFindsEntry | database/hartex-database-typedsql/src/query/insert.rs:62-65 | with distinct keys, a lookup returns the value stored under the key |
| Paths.LastDot | database/hartex-database-typedsql/src/schema.rs:45 | the last `.` of a name, or none exactly when there is no `.` |
| Paths.StemAndExtension | database/hartex-database-typedsql/src/schema.rs:45-54 | `stem.ext` has extension `ext` and stem `stem` |
| Paths.HiddenFileHasNoExtension | database/hartex-database-typedsql/src/schema.rs:45-47 | a file named `.sql` has no extension, so it is skipped |
| Paths.ExtensionImpliesStem | database/hartex-database-typedsql/src/schema.rs:49-54 | a kept path always has a stem, so the `expect("is a file")` cannot fire |
| TypedSqlVisitor.Name | database/hartex-database-typedsql/src/visitor.rs:38-40 | the recorded name is the placeholder text without its first character |
| TypedSqlVisitor.Step | database/hartex-database-typedsql/src/visitor.rs:37-45 | a non-placeholder leaves the list unchanged; a placeholder's name ends up in the list, appended only when absent |
| TypedSqlVisitor.Names | database/hartex-database-typedsql/src/visitor.rs:37-45 | reference list of the stripped placeholders of a visit, in order; never longer than the visit |
| TypedSqlVisitor.CollectExtends | database/hartex-database-typedsql/src/visitor.rs:39-41 | the visitor only appends: the old list is a prefix of the new one |
| TypedSqlVisitor.CollectNoDuplicates | database/hartex-database-typedsql/src/visitor.rs:39-41 | a duplicate-free list stays duplicate-free |
| TypedSqlVisitor.CollectMembers | database/hartex-database-typedsql/src/visitor.rs:37-45 | a name is recorded exactly when it was already there or is a stripped placeholder of the visit |
| TypedSqlVisitor.CollectFirstAppearanceOrder | database/hartex-database-typedsql/src/visitor.rs:40 | from an empty list, the names are in order of first appearance in the visit |
| TypedSqlVisitor.PlaceholderVisitor.constructor | database/hartex-database-typedsql/src/visitor.rs:29-32 | the default visitor starts with no placeholders |
| TypedSqlVisitor.PlaceholderVisitor.PreVisitExpr | database/hartex-database-typedsql/src/visitor.rs:37-45 | the list becomes `Step` of the old list, and the visit always continues |
| TypedSqlVisitor.Visit | database/hartex-database-typedsql/src/visitor.rs:37-45 | visiting a sequence of expressions collects their names, and never breaks |
| TypedSqlInsert.InsertPlaceholders | database/hartex-database-typedsql/src/query/insert.rs:40 | the visitor's names placed in a `BTreeSet`: strictly sorted, with exactly the visited names |
| TypedSqlInsert.ParseInsertQuery | database/hartex-database-typedsql/src/query/insert.rs:43-75 | errors in order: table function, empty name, schema not found under the snake-case first segment, table not found under the remaining segments; on success, the stored table and the placeholder set |
| TypedSqlInsert.PlaceholdersDetermined | database/hartex-database-typedsql/src/query/insert.rs:40 | the placeholder set is the only sorted sequence with exactly the visited names |
| TypedSqlInsert.PlaceholdersIgnoreOrder | database/hartex-database-typedsql/src/query/insert.rs:38-74 | two visits with the same names give the same placeholders |
| TypedSqlSelect.Present | database/hartex-database-typedsql/src/query/select.rs:67-68 | the field nodes that are present, in order |
| TypedSqlSelect.TargetField | database/hartex-database-typedsql/src/query/select.rs:47-68 | a target entry gives fields exactly when it is a `ResTarget` whose value is a `ColumnRef`; the fields are its present nodes |
| TypedSqlSelect.TargetFields | database/hartex-database-typedsql/src/query/select.rs:44-70 | the extraction pipeline never yields more entries than the target list holds |
| TypedSqlSelect.TargetFieldsAppend | database/hartex-database-typedsql/src/query/select.rs:44-70 | the pipeline works entry by entry, so the target list's order is kept |
| TypedSqlSelect.TargetFieldsMembers | database/hartex-database-typedsql/src/query/select.rs:44-70 | a field list is extracted exactly when some entry yields it |
| TypedSqlSelect.EmptyExtraction | database/hartex-database-typedsql/src/query/select.rs:44-70 | the extraction is empty exactly when no entry is a column reference |
| TypedSqlSelect.ParseSelectTarget | database/hartex-database-typedsql/src/query/select.rs:76-82 | no fields is the error "expected at least one node in select target"; any field reaches `todo!()` |
| TypedSqlSelect.ParseSelectQuery | database/hartex-database-typedsql/src/query/select.rs:40-74 | errors exactly when no target is a column reference, otherwise panics in `todo!()` |
| TypedSqlQuery.Admit | database/hartex-database-typedsql/src/query/mod.rs:50-63 | an entry is kept exactly when it is a readable file with extension `sql`; its name is the file stem and its contents are those read |
| TypedSqlQuery.ReadQueries | database/hartex-database-typedsql/src/query/mod.rs:46-66 | never more queries than walked entries |
| TypedSqlQuery.ReadQueriesAppend | database/hartex-database-typedsql/src/query/mod.rs:46-66 | the pipeline keeps the walk's order |
| TypedSqlQuery.ReadQueriesMembers | database/hartex-database-typedsql/src/query/mod.rs:50-63 | a query is listed exactly when some walked entry is admitted as it; unreadable files are skipped |
| TypedSqlQuery.ParseQuery | database/hartex-database-typedsql/src/query/mod.rs:69-90 | parse errors propagate; then the errors for no statement, an empty node and an empty inner node; a SELECT is delegated; any other statement is "unexpected statement type" |
| TypedSqlQuery.FirstStatementDecides | database/hartex-database-typedsql/src/query/mod.rs:74-79 | only the first statement matters: later statements never change the result |
| TypedSqlSchema.ReadSchemas | database/hartex-database-typedsql/src/schema.rs:39-65 | the loop computes the reference reading of the directory listing |
| TypedSqlSchema.SchemaPaths | database/hartex-database-typedsql/src/schema.rs:45-47 | every kept path has extension `sql` and comes from the listing |
| TypedSqlSchema.ReadSchemasSucceeds | database/hartex-database-typedsql/src/schema.rs:42-55 | reading succeeds exactly when every entry is listed and every schema file can be read |
| TypedSqlSchema.ReadSchemasRecords | database/hartex-database-typedsql/src/schema.rs:49-61 | one record per `.sql` path, in listing order, with its path, its stem and its contents |
| TypedSqlSchema.CreateStatements | database/hartex-database-typedsql/src/schema.rs:72-81 | only CREATE TABLE statements are kept, and each is one of the input statements |
| TypedSqlSchema.CreateStatementsAppend | database/hartex-database-typedsql/src/schema.rs:72-81 | the filter keeps statement order |
| TypedSqlSchema.CreateStatementsComplete | database/hartex-database-typedsql/src/schema.rs:74-79 | every present CREATE TABLE statement is kept; empty nodes are dropped silently |
| TypedSqlSchema.ParseSchema | database/hartex-database-typedsql/src/schema.rs:69-85 | succeeds exactly when parsing does, whatever the statements; a parse error propagates |
| CodegenTypes.RustType | database/hartex-database-typedsql/src/codegen/types.rs:27-59 | defined exactly on the supported types, and always an owned type |
| CodegenTypes.RustRefType | database/hartex-database-typedsql/src/codegen/types.rs:61-95 | defined exactly where the owned mapping is; text becomes `&str` and arrays `&[T]`; otherwise equal to the owned mapping |
| CodegenTypes.ArrayMapping | database/hartex-database-typedsql/src/codegen/types.rs:29-35 | a `T[]` array maps to `Vec` of the element's type and is unsupported exactly when the element is; other array forms are unsupported |
| CodegenTypes.TimeMappings | database/hartex-database-typedsql/src/codegen/types.rs:46-57 | TIME without a zone is `time::Time`, with a zone unsupported; TIMESTAMP with a zone is `OffsetDateTime`, otherwise `PrimitiveDateTime` |
| CodegenTypes.NumericMappings | database/hartex-database-typedsql/src/codegen/types.rs:36-45 | BIGINT, SMALLINT, INTEGER, REAL and BOOLEAN map to `i64`, `i16`, `i32`, `f32` and `bool` |
| CodegenTables.Unquote | database/hartex-database-typedsql/src/codegen/tables.rs:56-59 | the struct name holds no `"` and no `.` |
| CodegenTables.UnquotePlain | database/hartex-database-typedsql/src/codegen/tables.rs:56-59 | a plain name is kept |
| CodegenTables.UnquoteDropsPublic | database/hartex-database-typedsql/src/codegen/tables.rs:57 | a `public.` prefix is dropped |
| CodegenTables.UnquoteWithoutSchema | database/hartex-database-typedsql/src/codegen/tables.rs:56-59 | a name with no `public.` loses exactly its quotes and dots |
| CodegenTables.UnquotePublicTable | database/hartex-database-typedsql/src/codegen/tables.rs:56-59 | `public.users` becomes `users` |
| CodegenTables.GenerateTableFields | database/hartex-database-typedsql/src/codegen/tables.rs:76-92 | one field per column, named after it and given its owned type; fails with "unsupported data type" exactly when some column's type is unmapped |
| CodegenTables.GenerateTokenStream | database/hartex-database-typedsql/src/codegen/tables.rs:50-74 | one struct per table, named by `Unquote`, with that table's fields; fails exactly when some column is unsupported |
| CodegenTables.GenerateTableStructsFromSchema | database/hartex-database-typedsql/src/codegen/tables.rs:36-48 | the file is `{name}.rs` holding the rendered structs; generation and rendering errors propagate |
| CodegenTables.OneUnsupportedColumnFails | database/hartex-database-typedsql/src/codegen/tables.rs:84-85 | a single unmapped column fails the whole schema |
| CodegenRewrite.Position | database/hartex-database-typedsql/src/codegen/queries.rs:240 | `$k` starts with `$` and holds no `:` |
| CodegenRewrite.RewritePlaceholders | database/hartex-database-typedsql/src/codegen/queries.rs:238-241 | the loop applies each placeholder's replacement in order |
| CodegenRewrite.RewriteStep | database/hartex-database-typedsql/src/codegen/queries.rs:240 | replacing the k-th name turns exactly its occurrences into `$(k+1)` |
| CodegenRewrite.RewriteProgress | database/hartex-database-typedsql/src/codegen/queries.rs:238-241 | after k replacements, the first k names are positional and the rest are named |
| CodegenRewrite.RenderAllPositional | database/hartex-database-typedsql/src/codegen/queries.rs:238-241 | with every name replaced, the statement is the positional form |
| CodegenRewrite.OtherPlaceholderKept | database/hartex-database-typedsql/src/codegen/queries.rs:240 | replacing `:y` leaves `:x` intact when `y` is not a prefix of `x` |
| CodegenRewrite.RewriteIsPositional | database/hartex-database-typedsql/src/codegen/queries.rs:238-241 | with prefix-free names, each `:name` ends up as its 1-based position and nothing else changes |
| CodegenRewrite.PrefixNamesCollide | database/hartex-database-typedsql/src/codegen/queries.rs:238-241 | with the names `a` and `ab`, `:ab` becomes `$1b`, not `$2` |
| CodegenQueries.TableAndPlaceholders | database/hartex-database-typedsql/src/codegen/queries.rs:111-133 | an INSERT's table, a SELECT's `FROM` table, or an EXISTS subquery's table, with the matching placeholders; anything else is "unsupported query type" |
| CodegenQueries.PlaceholderType | database/hartex-database-typedsql/src/codegen/queries.rs:138-144 | the column's type if there is such a column, else the annotation's; an unmapped type or a missing one panics |
| CodegenQueries.ColumnTakesPrecedence | database/hartex-database-typedsql/src/codegen/queries.rs:138-140 | with a column of that name, the annotations are irrelevant |
| CodegenQueries.PlaceholderFieldsResolve | database/hartex-database-typedsql/src/codegen/queries.rs:135-152 | no panic exactly when every placeholder resolves, and then one field per placeholder, in placeholder order, with its resolved type |
| CodegenQueries.EnvVarName | database/hartex-database-typedsql/src/codegen/queries.rs:199 | the CONSTANT_CASE of the path followed by `_PGSQL_URL` |
| CodegenQueries.InsertFnsSpec | database/hartex-database-typedsql/src/codegen/queries.rs:234-257 | a single `execute` over the rewritten statement, with the placeholders as arguments in order |
| CodegenQueries.SelectReturnType | database/hartex-database-typedsql/src/codegen/queries.rs:277-292 | `SELECT *` returns `tables::<snake schema>::<unquoted table>` (and panics without a table); a boolean returns `bool`; other shapes have no function |
| CodegenQueries.SelectFnsSpec | database/hartex-database-typedsql/src/codegen/queries.rs:259-317 | one `one()` over the rewritten statement for `SELECT *` and booleans, none otherwise; panics exactly for `SELECT *` without a table |
| CodegenQueries.GenerateInsertQueryFn | database/hartex-database-typedsql/src/codegen/queries.rs:234-257 | the rewrite loop computes the INSERT's query function |
| CodegenQueries.GenerateSelectQueryFns | database/hartex-database-typedsql/src/codegen/queries.rs:259-317 | the rewrite loop computes the SELECT's query functions |
| CodegenQueries.GenerateQueryFns | database/hartex-database-typedsql/src/codegen/queries.rs:220-232 | dispatch on the query shape |
| CodegenQueries.QueryStructSpec | database/hartex-database-typedsql/src/codegen/queries.rs:105-188 | an unsupported shape is an error; otherwise a Pascal-case struct whose fields, `bind` parameters and `bind` initialisers follow placeholder order, with no executor, its environment variable and its query functions |
| CodegenQueries.QueryStructSucceeds | database/hartex-database-typedsql/src/codegen/queries.rs:111-160 | a supported shape whose placeholders all resolve never panics |
| CodegenQueries.ExistsHasNoQueryFns | database/hartex-database-typedsql/src/codegen/queries.rs:291 | an EXISTS query gets a struct but no query function |
| CodegenQueries.GenerateQueryStruct | database/hartex-database-typedsql/src/codegen/queries.rs:105-188 | computes `QueryStructSpec` |
| CodegenQueries.Bind | database/hartex-database-typedsql/src/codegen/queries.rs:204-211 | `bind` stores the values in field order and leaves the executor unset |
| CodegenQueries.ConnectExecutor | database/hartex-database-typedsql/src/codegen/queries.rs:213-216 | a successful connection replaces the executor and keeps the values; a failed one is returned |
| CodegenQueries.RunExecute | database/hartex-database-typedsql/src/codegen/queries.rs:252-255 | without an executor, the `Generic` error; otherwise the driver's result through `into_crate_result` |
| CodegenQueries.RunOne | database/hartex-database-typedsql/src/codegen/queries.rs:296-303 | as `execute`, then the fetched record is converted to the row type |
| CodegenQueries.RunBeforeExecutorFails | database/hartex-database-typedsql/src/codegen/queries.rs:204-255 | a freshly bound query fails with ".executor() has not been called on this query yet" |
| CodegenQueries.RunAfterExecutor | database/hartex-database-typedsql/src/codegen/queries.rs:213-255 | after `executor()`, the driver's outcome is returned, never the missing-executor error |
| CodegenQueries.ModulesOfLists | database/hartex-database-typedsql/src/codegen/queries.rs:54-65 | every query path has a module listing exactly its queries in order, and no other module exists |
| CodegenQueries.ModulesOfKeys | database/hartex-database-typedsql/src/codegen/queries.rs:88-92 | every path key has a module |
| CodegenQueries.CollectModules | database/hartex-database-typedsql/src/codegen/queries.rs:54-65 | the loop's `module_files` bookkeeping and the sorted path keys |
| CodegenQueries.ArgTupleParses | database/hartex-database-typedsql/src/codegen/queries.rs:251-255 | the argument tuple `(#(#placeholders),* ,)` is a valid parenthesised expression exactly when there is a placeholder |
| CodegenQueries.ParseQueryFile | database/hartex-database-typedsql/src/codegen/queries.rs:68-69 | a query function without arguments makes `syn::parse2` fail; otherwise the foreign parser decides |
| CodegenQueries.QueryFileRejected | database/hartex-database-typedsql/src/codegen/queries.rs:66-70 | a struct one of whose query functions takes no argument fails the re-parse, as `Error::Syn` |
| CodegenQueries.QueryFileContents | database/hartex-database-typedsql/src/codegen/queries.rs:66-74 | a struct failure or panic is the file's; a generated file is `<name>.rs` in the query's path directory, holds its query's struct and the pretty-printed text, and none of its functions is without arguments |
| CodegenQueries.GenerateQueryFile | database/hartex-database-typedsql/src/codegen/queries.rs:66-74 | one iteration of the query loop: the struct, then its re-parse, or the first failure |
| CodegenQueries.QueryFilesFromOk | database/hartex-database-typedsql/src/codegen/queries.rs:56-75 | the run succeeds exactly when every query's file does, and then lists those files in map order |
| CodegenQueries.QueryFilesFromFails | database/hartex-database-typedsql/src/codegen/queries.rs:56-75 | a failed run ends with the failure of the first query whose file fails |
| CodegenQueries.ModFilesFrom | database/hartex-database-typedsql/src/codegen/queries.rs:77-85 | succeeds exactly when every path's module list parses, giving one file per key in order; otherwise the first failing key's `syn` error |
| CodegenQueries.GenerateQueryFiles | database/hartex-database-typedsql/src/codegen/queries.rs:56-75 | the loop computes `QueryFilesFrom`: one file per query in map order; the first struct failure, panic or `syn` failure ends the run |
| CodegenQueries.GenerateModFiles | database/hartex-database-typedsql/src/codegen/queries.rs:77-85 | the loop computes `ModFilesFrom`: one `mod.rs` per path key, in key order; the first that does not parse ends it |
| CodegenQueries.GenerateQueryStructsFromQueries | database/hartex-database-typedsql/src/codegen/queries.rs:46-103 | over the key-ordered map, the query files, then each path's `mod.rs`, then the top-level `mod.rs`; a `syn` failure at any of the three parses becomes `Error::Syn` |
| CodegenQueries.GeneratedModules | database/hartex-database-typedsql/src/codegen/queries.rs:54-100 | the top-level module lists each distinct path once, sorted; each path's module lists exactly that path's queries, sorted by name |
| CodegenQueries.GeneratedQueryFiles | database/hartex-database-typedsql/src/codegen/queries.rs:56-75 | a successful run writes one file per query, in map order, each holding its query's struct, with no function lacking arguments |
| CodegenQueries.PlaceholderFreeInsertFails | database/hartex-database-typedsql/src/codegen/queries.rs:244-255 | an INSERT without placeholders never generates successfully |
| CodegenQueries.PlaceholderFreeSelectFails | database/hartex-database-typedsql/src/codegen/queries.rs:270-303 | a `SELECT *` or boolean SELECT without placeholders never generates successfully |
| CodegenQueries.ModFilesShape | database/hartex-database-typedsql/src/codegen/queries.rs:77-85 | the k-th module file belongs to the k-th key and lists that path's queries |
| CodegenQueries.NamesWithPathSorted | database/hartex-database-typedsql/src/codegen/queries.rs:56-65 | since the query map is iterated in key order, each module lists its queries sorted by name |
| CacheInMemory.Id | cache/discord/src/inmemory/repository.rs:368-438 | an entity's key belongs to the table of its own kind |
| CacheInMemory.Lookup | cache/discord/src/inmemory/repository.rs:135-142 | `E::repository(..).get(id)`: the value in the key's own kind's table (`UpsertThenLookup`, `UpsertKeepsOthers`) |
| CacheInMemory.Upserted | cache/discord/src/inmemory/repository.rs:144-148 | `E::repository(..).insert(id, e)`: `e` stored under its id in its kind's table only (`UpsertOtherTables`, `UpsertOtherKeySameTable`) |
| CacheInMemory.ErrorMessage | cache/discord/src/inmemory/mod.rs:186-190 | the error displays as "this error cannot be created" |
| CacheInMemory.UpsertThenLookup | cache/discord/src/inmemory/repository.rs:135-148 | after `upsert(e)`, `entity(e.id())` is `e` |
| CacheInMemory.UpsertOtherTables | cache/discord/src/inmemory/repository.rs:144-145 | the tables of the other kinds are unchanged |
| CacheInMemory.UpsertKeepsOthers | cache/discord/src/inmemory/repository.rs:144-145 | every other key of every table looks up as before |
| CacheInMemory.UpsertOtherKind | cache/discord/src/inmemory/repository.rs:144-145 | a key of another kind is not affected |
| CacheInMemory.UpsertOtherKeySameTable | cache/discord/src/inmemory/repository.rs:144-145 | in its own table, only `e`'s key changes |
| CacheInMemory.UpsertOverwrites | cache/discord/src/inmemory/repository.rs:144-145 | a second upsert under the same key replaces the first entirely |
| CacheInMemory.IndexOf | cache/discord/src/inmemory/repository.rs:160-170 | a guild's index set, or empty when the guild has none |
| CacheInMemory.Present | cache/discord/src/inmemory/repository.rs:181-187 | the entities of exactly those ids that are in the table |
| CacheInMemory.DanglingIdIgnored | cache/discord/src/inmemory/repository.rs:181-187 | an id with no entity adds nothing |
| CacheInMemory.GuildMembers | cache/discord/src/inmemory/repository.rs:214-222 | the members stored under the guild and one of its indexed users |
| CacheInMemory.PresentInOrder | cache/discord/src/inmemory/repository.rs:273-279 | the ordered filter never yields more entities than ids |
| CacheInMemory.PresentInOrderMembers | cache/discord/src/inmemory/repository.rs:273-279 | an entity is yielded exactly when one of the ids has it |
| CacheInMemory.PresentInOrderAppend | cache/discord/src/inmemory/repository.rs:273-279 | the filter keeps the ids' order |
| CacheInMemory.PresentInOrderComplete | cache/discord/src/inmemory/repository.rs:273-279 | with no dangling id, one entity per id, in order |
| CacheInMemory.MemberRoles | cache/discord/src/inmemory/repository.rs:263-283 | an absent member has no roles; otherwise its cached roles in its own order |
| CacheInMemory.PackStickers | cache/discord/src/inmemory/repository.rs:295-314 | an absent pack has no stickers; otherwise its cached stickers in its own order |
| CacheInMemory.PackOfSticker | cache/discord/src/inmemory/repository.rs:318-338 | there is a pack exactly when the sticker is cached, has a pack id, and that pack is cached; it is that pack |
| CacheInMemory.PackOfStickerIsLookup | cache/discord/src/inmemory/repository.rs:326-332 | for a cached sticker with a pack id, the result is `entity` of that pack |
| CacheInMemory.InMemoryBackend.constructor | cache/discord/src/inmemory/mod.rs:194-211 | all tables and indexes start empty, with no current user |
| CacheInMemory.InMemoryBackend.Repository | cache/discord/src/inmemory/mod.rs:103-105 | a new handle for one kind on this same backend |
| CacheInMemory.InMemoryBackend.Insert | cache/discord/src/inmemory/repository.rs:145 | the tables become `Upserted` of the old ones; the indexes and the current user are unchanged |
| CacheInMemory.InMemoryRepository.constructor | cache/discord/src/inmemory/repository.rs:128 | a handle holds its backend and its kind |
| CacheInMemory.InMemoryRepository.Entity | cache/discord/src/inmemory/repository.rs:135-142 | the stored value or nothing, never an error |
| CacheInMemory.InMemoryRepository.Upsert | cache/discord/src/inmemory/repository.rs:144-148 | always succeeds; stores the entity under its id; nothing else in the backend changes |
| CacheInMemory.InMemoryRepository.CurrentUser | cache/discord/src/inmemory/repository.rs:350-358 | the single stored current user, or nothing |
| CacheInMemory.InMemoryRepository.EmojiIds | cache/discord/src/inmemory/repository.rs:160-170 | the guild's emoji index |
| CacheInMemory.InMemoryRepository.Emojis | cache/discord/src/inmemory/repository.rs:172-191 | the cached emojis of the guild's index; dangling ids skipped |
| CacheInMemory.InMemoryRepository.MemberUserIds | cache/discord/src/inmemory/repository.rs:193-203 | the guild's member index |
| CacheInMemory.InMemoryRepository.Members | cache/discord/src/inmemory/repository.rs:205-226 | the cached members of the guild's index, keyed by guild and user |
| CacheInMemory.InMemoryRepository.RoleIds | cache/discord/src/inmemory/repository.rs:228-238 | the guild's role index |
| CacheInMemory.InMemoryRepository.Roles | cache/discord/src/inmemory/repository.rs:240-259 | the cached roles of the guild's index |
| CacheInMemory.InMemoryRepository.MemberRolesOf | cache/discord/src/inmemory/repository.rs:263-283 | `MemberRoles`, never an error |
| CacheInMemory.InMemoryRepository.Stickers | cache/discord/src/inmemory/repository.rs:295-314 | `PackStickers`, never an error |
| CacheInMemory.InMemoryRepository.StickerPackOf | cache/discord/src/inmemory/repository.rs:318-338 | `PackOfSticker`, never an error |
| CacheInMemory.SharedBackend | cache/discord/src/inmemory/mod.rs:100-105 | an entity upserted through one repository is found through another handle of the same kind |
| BorsClient.I32AsU64 | bors/hartex-bors-database/src/client.rs:214 | `as u64` on an `i32`: non-negatives unchanged, negatives wrap by adding 2^64 |
| BorsClient.U64AsI32 | bors/hartex-bors-database/src/client.rs:141 | `as i32` on a `u64`: an `i32` congruent modulo 2^32 |
| BorsClient.NumberRoundTrip | bors/hartex-bors-database/src/client.rs:139-218 | a number below 2^31 survives the `i32` column |
| BorsClient.LargeNumberWraps | bors/hartex-bors-database/src/client.rs:139-218 | 2^31 is read back as 2^64 - 2^31 |
| BorsClient.StatusToDatabase | bors/hartex-bors-database/src/client.rs:184-191 | always one of the four column strings |
| BorsClient.StatusFromDatabase | bors/hartex-bors-database/src/client.rs:193-201 | on those four strings, the inverse of the encoding |
| BorsClient.StatusRoundTrip | bors/hartex-bors-database/src/client.rs:184-201 | decoding an encoded status gives it back |
| BorsClient.StatusEncodingInjective | bors/hartex-bors-database/src/client.rs:184-191 | distinct statuses are stored differently |
| BorsClient.DateTimeFromDatabase | bors/hartex-bors-database/src/client.rs:203-205 | the stored time, read as UTC |
| BorsClient.BuildFromDatabase | bors/hartex-bors-database/src/client.rs:173-182 | id, repository, branch and commit copied; status decoded; time read as UTC |
| BorsClient.PrFromDatabase | bors/hartex-bors-database/src/client.rs:207-218 | fields copied, number cast to `u64`, and the related build converted when present |
| BorsClient.BuildRowRecoverable | bors/hartex-bors-database/src/client.rs:173-182 | the row can be rebuilt from the converted build |
| BorsClient.RepositoryKey | bors/hartex-bors-database/src/client.rs:118-122 | `owner/repository`, with the `/` right after the owner |
| BorsClient.RepositoryKeyInjective | bors/hartex-bors-database/src/client.rs:118-122 | an owner without `/` makes the key determine owner and repository |
| BorsClient.MatchesBuild | bors/hartex-bors-database/src/client.rs:116-124 | `find_build`'s filter: the repository key, the branch and the commit |
| BorsClient.FindBuild | bors/hartex-bors-database/src/client.rs:108-131 | a build is found exactly when a row matches the key, branch and commit; the result is the first matching row, converted by `BuildFromDatabase` |
| BorsClient.NewTryBuild | bors/hartex-bors-database/src/client.rs:71-77 | the pull request's repository, the branch and commit, status pending |
| BorsClient.LinkTryBuild | bors/hartex-bors-database/src/client.rs:84-89 | the pull request row gets the build as its try build; nothing else changes |
| BorsClient.NewPullRequestRow | bors/hartex-bors-database/src/client.rs:139-143 | the name and the number cast to `i32` |
| BorsClient.MatchesPullRequest | bors/hartex-bors-database/src/client.rs:158-162 | the lookup's filter: the repository name and the `u64` number compared with the stored column |
| BorsClient.RelatedBuild | bors/hartex-bors-database/src/client.rs:163 | the build a row's `try_build` refers to, if a build with that id exists, else none |
| BorsClient.FindPullRequest | bors/hartex-bors-database/src/client.rs:157-165 | a row is found exactly when some stored row matches the filter; the result is the first matching row with its related build |
| BorsClient.GetOrCreatePullRequest | bors/hartex-bors-database/src/client.rs:133-170 | `RecordNotInserted` tolerated, other insert errors returned, then the lookup's error; otherwise success exactly when a row matches the name and the unconverted number, giving the first matching row with its related build, converted by `PrFromDatabase`, else "cannot execute query" |
| BorsClient.ExistingPullRequestIsFound | bors/hartex-bors-database/src/client.rs:139-168 | for a number below 2^31, the stored row is found whether the insert stored it or found it there, and the pull request comes back with its own number |
| BorsClient.LargePullRequestNeverFound | bors/hartex-bors-database/src/client.rs:139-166 | a number of 2^31 or more always ends in "cannot execute query", even after the row is stored |
| GuildLocale.Display | conftoml/src/guildconf/locale.rs:63-72 | five characters with `_` in the middle |
| GuildLocale.VisitStr | conftoml/src/guildconf/locale.rs:86-96 | accepts exactly the four display strings, case-sensitively, giving the locale displayed so; otherwise "invalid locale" |
| GuildLocale.DisplayRoundTrip | conftoml/src/guildconf/locale.rs:63-96 | parsing a displayed locale gives it back |
| GuildLocale.DisplayInjective | conftoml/src/guildconf/locale.rs:65-70 | distinct locales display differently |
| BitflagsUtils.FromNames | rust-utilities/hartex-bitflags-utils/src/lib.rs:35-44 | the loop computes the union of the recognised names' flags |
| BitflagsUtils.FromNamesMembers | rust-utilities/hartex-bitflags-utils/src/lib.rs:38-41 | a bit is set exactly when some recognised name has it |
| BitflagsUtils.RecognisedContained | rust-utilities/hartex-bitflags-utils/src/lib.rs:41 | every recognised name's flag is in the result |
| BitflagsUtils.OrderAndRepetitionIrrelevant | rust-utilities/hartex-bitflags-utils/src/lib.rs:38-41 | only which names occur matters |
| BitflagsUtils.UnrecognisedIgnored | rust-utilities/hartex-bitflags-utils/src/lib.rs:40 | an unrecognised name changes nothing |
| BitflagsUtils.FromNamesPrefix | rust-utilities/hartex-bitflags-utils/src/lib.rs:38-41 | later names do not affect the fold over earlier ones |
| BackendModels.FromCodeWithData | api-backend/hartex-backend-models/src/lib.rs:56-71 | the status returned as given, its number, the lower-cased reason phrase (the split cannot fail), and the data |
| BackendModels.StatusDisplay | api-backend/hartex-backend-models/src/lib.rs:60-61 | the status's display; it splits at its first space into the number and the reason, so the `unwrap()` cannot fail |
| BackendModels.CanonicalReason | api-backend/hartex-backend-models/src/lib.rs:60 | the registered reason phrase of the display; only codes 100 to 599 have one, and it is not empty |
| BackendModels.Reason | api-backend/hartex-backend-models/src/lib.rs:60 | the display's reason: `<unknown status code>` exactly when the code has no registered phrase |
| BackendModels.MessageIsLowerCase | api-backend/hartex-backend-models/src/lib.rs:67 | the message has no upper-case ASCII letter |
| BackendModels.Ok200 | api-backend/hartex-backend-models/src/lib.rs:74-76 | 200, "ok", `Left(Some(value))` |
| BackendModels.InternalServerError | api-backend/hartex-backend-models/src/lib.rs:79-81 | 500, "internal server error", `Left(None)` |
| BackendModels.NotFound | api-backend/hartex-backend-models/src/lib.rs:86-91 | 404, "not found", `Right("{component} not found")` |
| BackendModels.GettersOfConstructed | api-backend/hartex-backend-models/src/lib.rs:99-106 | `code()` and `message()` give back the stored number and message |
| BackendModels.Code | api-backend/hartex-backend-models/src/lib.rs:99-101 | `code()`: the stored number, which is the status's number (`GettersOfConstructed`) |
| BackendModels.Message | api-backend/hartex-backend-models/src/lib.rs:104-106 | `message()`: the stored message, which is the lower-cased reason (`GettersOfConstructed`) |
| BackendModels.UnknownCodeMessage | api-backend/hartex-backend-models/src/lib.rs:60-67 | a code without a registered phrase gets the placeholder message |
| BackendUptime.NewUptimeQuery | api-backend/hartex-backend-models/src/uptime.rs:48-58 | `component_name()` of a new query is its component |
| BackendUptime.ComponentName | api-backend/hartex-backend-models/src/uptime.rs:56-58 | `component_name()`: the stored component (`NewUptimeQuery`) |
| BackendUptime.WithStartTimestamp | api-backend/hartex-backend-models/src/uptime.rs:95-103 | `start_timestamp()` gives back the timestamp |
| BackendUptime.ResponseStartTimestamp | api-backend/hartex-backend-models/src/uptime.rs:101-103 | `start_timestamp()`: the stored timestamp (`WithStartTimestamp`) |
| BackendUptime.NewUptimeUpdate | api-backend/hartex-backend-models/src/uptime.rs:117-134 | the getters give back the name and the timestamp |
| BackendUptime.UpdateComponentName | api-backend/hartex-backend-models/src/uptime.rs:126-128 | `component_name()` of an update: the stored name (`NewUptimeUpdate`) |
| BackendUptime.UpdateStartTimestamp | api-backend/hartex-backend-models/src/uptime.rs:132-134 | `start_timestamp()` of an update: the stored timestamp (`NewUptimeUpdate`) |
| BackendUptime.FromRejection | api-backend/hartex-backend-models/src/uptime.rs:66-73 | the status kept, the body text lower-cased character by character |
| BackendUptime.RejectionResponse | api-backend/hartex-backend-models/src/uptime.rs:75-83 | a response with the rejection's status, the lower-cased reason and the message as data |
| BackendUptime.RejectedQueryResponse | api-backend/hartex-backend-models/src/uptime.rs:66-83 | a rejected query answers with its original status and its lower-cased body text |
| Translations.SecondSegment | web-frontend/src/typescript/i18n/getTranslations.ts:37 | the second `/`-separated segment; none exactly when there is no `/` |
| Translations.LanguageKey | web-frontend/src/typescript/i18n/getTranslations.ts:37-38 | the key a module is stored under: its second segment, or `undefined` without one (`KeyIsSecondSegment`, `KeyWithoutSlash`) |
| Translations.KeyIsSecondSegment | web-frontend/src/typescript/i18n/getTranslations.ts:37 | `./en/translations.ts` is stored under `en` |
| Translations.KeyWithoutSlash | web-frontend/src/typescript/i18n/getTranslations.ts:37 | a path without `/` is stored under `undefined` |
| Translations.MapExports | web-frontend/src/typescript/i18n/getTranslations.ts:34-42 | the loop stores each module's default export under its language |
| Translations.ExportKeys | web-frontend/src/typescript/i18n/getTranslations.ts:35-41 | the keys are exactly the languages of the paths |
| Translations.LastModuleWins | web-frontend/src/typescript/i18n/getTranslations.ts:36-39 | each key holds the default export of the last module with that language |
| Translations.PageLanguage | web-frontend/src/typescript/i18n/getTranslations.ts:30 | the URI's language unless it is missing or empty, else `en` |

## Left out

- File I/O becomes parameters. `fs::read_dir`, `WalkDir`, `fs::read_to_string` and the directory entries are given as values or functions. `fs::write` and `create_dir_all` are not modelled: the generator returns the files it would write, as datatypes.
- Rendering is a parameter. `syn::parse2` and `prettyplease::unparse` are a render function for the tables and the `Syntax` functions for the queries, and `quote!` token streams are structured datatypes. Of `syn`'s grammar, only the argument tuples of the query functions are modelled. The `DO_NOT_MODIFY_HEADER` text is not modelled.
- Foreign parsers and libraries are uninterpreted parameters: `pg_query::parse`, the `sqlparser` `Visit` traversal and statement `Display`, `ObjectName`'s `Display`, and `convert_case`. SQL grammar is not modelled.
- Identifier validity is not modelled. `Ident::new` panics on names that are not valid Rust identifiers, and the model treats every name as valid.
- The generated `executor()` reads an environment variable and connects over TCP. Both are one given `Result` (`ConnectExecutor`). The panic when the variable is missing is not modelled.
- Concurrency is not modelled. `DashMap`, `DashSet`, `Mutex` and `Arc` are sequential maps, sets and one shared object. Lock poisoning (the `expect` on the current-user mutex) is left out.
- The cache stores each entity's own attributes as an uninterpreted payload. Only the ids and relations that the repositories follow are modelled.
- `DashSet` iteration order is unspecified. Index sets are Dafny sets, and the guild relation queries return sets.
- The twelve entity tables are held as one `Tables` value field of the backend. A per-field update in place is therefore modelled as replacing that value.
- CacheInMemory.UpsertOverwrites: states that no lookup can tell the two histories apart, not that upserts under different keys commute.
- bors: the sea-orm calls, the transaction, and the `create_workflow` `todo!()` are not modelled. The database is given as the rows a query reads. The insert's outcome is a given `Result`, because the table's unique constraint is not part of this model.
- BorsClient.StatusFromDatabase: the `unreachable!()` for an unknown status string is a precondition, because the column only ever holds the four encoded strings.
- BackendModels.CanonicalReason: the phrase table follows section 15 of RFC 9110. The HTTP library's own table may differ for some codes: it has extra codes, and it uses older wording for 413 and 422.
- BackendModels.Reason: its phrases are those of BackendModels.CanonicalReason, so they may differ from the HTTP library's in the same way.
- `to_lowercase` is modelled for ASCII letters only. Full Unicode case mapping is not modelled.
- `Response::data()` is not modelled, because it returns an `Either` as an `Option`. `Response` is also used with one type parameter although it is declared with two.
- Translations: `buildContents` only throws `todo`, and `getLanguageFromUri` lives in another file, so both are left out. `PageLanguage` takes the lookup's result as a value.
- The visitor's placeholder `Vec` is stored into a `BTreeSet` field (`query/insert.rs:40`, 73). The model sorts and deduplicates it, as the `BTreeSet` does, in `TypedSqlInsert.InsertPlaceholders`.
- `parse_schema` discards its filtered CREATE statements and returns the unit `SchemaInfo`. `TypedSqlSchema.CreateStatements` models the filter on its own, and `TypedSqlSchema.ParseSchema` returns the unit value.
- `parse_select_target` ends in `todo!()` for any non-empty target list, so a SELECT never yields a query description. The `Panics` outcome models this.
- TypedSqlQuery.Admit: paths are Dafny strings, so a file stem that is not valid UTF-8 cannot be expressed. The `to_str().unwrap()` panic of `query/mod.rs:58-61` is therefore not modelled.
- TypedSqlSchema.ReadSchemas: for the same reason, the `expect("valid UTF-8")` panic of `schema.rs:52-53` is not modelled.
