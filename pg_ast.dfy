/** The `pg_query` protobuf AST, reduced to the nodes the schema reader and the
    pg_query-based query reader inspect. Every child is wrapped in a `Node` message whose
    `node` is optional, and every parsed statement's `stmt` is optional too. */
module PgAst {
  import opened Wrappers

  /** `pg_query::protobuf::node::Node`. */
  datatype PgNode =
    | SelectStmt(targetList: seq<NodeBox>)
    | CreateStmt(relation: string)
    | InsertStmt
    | ResTarget(val: Option<NodeBox>)
    | ColumnRef(fields: seq<NodeBox>)
    | AConst
    | SubLink
    | PgString(sval: string)
    | AStar
    | OtherNode(tag: string)

  /** `pg_query::protobuf::Node`: a message holding an optional node. */
  datatype NodeBox = NodeBox(node: Option<PgNode>)

  /** `pg_query::protobuf::RawStmt`. */
  datatype RawStmt = RawStmt(stmt: Option<NodeBox>)
}
