/** `parse_select_query` and `parse_select_target` (`hartex-database-typedsql`,
    `src/query/select.rs`): the column references of a SELECT's target list, extracted from
    the `pg_query` AST by a chain of filters. */
module TypedSqlSelect {
  import opened Wrappers
  import opened PgAst
  import opened SqlAst
  import opened TypedSqlError

  /** `SelectTarget`. */
  datatype SelectTarget = Everything

  /** `SelectQueryInfo`. */
  datatype SelectQueryInfo = SelectQueryInfo(target: SelectTarget)

  /** The `Select` query information `parse_select_query` wraps its result in. */
  datatype PgQueryInfo = PgSelect(info: SelectQueryInfo)

  /** `filter_map(|node| node.node)`: the nodes actually present, in order. */
  function Present(boxes: seq<NodeBox>): (r: seq<PgNode>)
    ensures |r| <= |boxes|
    ensures forall x :: x in r <==> NodeBox(Some(x)) in boxes
  {
    if boxes == [] then []
    else
      var rest := Present(boxes[1..]);
      assert forall x :: NodeBox(Some(x)) in boxes <==> boxes[0] == NodeBox(Some(x)) || NodeBox(Some(x)) in boxes[1..];
      match boxes[0].node
      case None => rest
      case Some(n) => [n] + rest
  }

  /** What one entry of the target list contributes: the present fields of a column
      reference held by a result target, or nothing. */
  function TargetField(entry: NodeBox): (r: Option<seq<PgNode>>)
    ensures r.Some? <==> exists fields :: entry == NodeBox(Some(ResTarget(Some(NodeBox(Some(ColumnRef(fields)))))))
    ensures r.Some? ==> r.value == Present(entry.node.value.val.value.node.value.fields)
  {
    match entry.node
    case Some(ResTarget(Some(NodeBox(Some(ColumnRef(fields)))))) => Some(Present(fields))
    case _ => None
  }

  /** The pipeline over the target list: the field lists of its column references. */
  function TargetFields(targetList: seq<NodeBox>): (r: seq<seq<PgNode>>)
    ensures |r| <= |targetList|
  {
    if targetList == [] then []
    else
      (match TargetField(targetList[0]) case None => [] case Some(fs) => [fs])
      + TargetFields(targetList[1..])
  }

  /** The pipeline works entry by entry: it maps a concatenation to a concatenation, so the
      relative order of the target list is kept. */
  lemma {:induction false} TargetFieldsAppend(a: seq<NodeBox>, b: seq<NodeBox>)
    ensures TargetFields(a + b) == TargetFields(a) + TargetFields(b)
  {
    if a == [] {
      assert a + b == b;
    } else {
      assert (a + b)[0] == a[0];
      assert (a + b)[1..] == a[1..] + b;
      TargetFieldsAppend(a[1..], b);
    }
  }

  /** Every extracted field list comes from an entry of the target list, and every column
      reference entry contributes its field list. */
  lemma {:induction false} TargetFieldsMembers(targetList: seq<NodeBox>, fs: seq<PgNode>)
    ensures fs in TargetFields(targetList) <==>
      exists i :: 0 <= i < |targetList| && TargetField(targetList[i]) == Some(fs)
  {
    if targetList != [] {
      TargetFieldsMembers(targetList[1..], fs);
      var head := match TargetField(targetList[0]) case None => [] case Some(x) => [x];
      assert TargetFields(targetList) == head + TargetFields(targetList[1..]);
      if exists i :: 0 <= i < |targetList| && TargetField(targetList[i]) == Some(fs) {
        var i :| 0 <= i < |targetList| && TargetField(targetList[i]) == Some(fs);
        if i > 0 {
          assert targetList[1..][i - 1] == targetList[i];
        }
      }
      if exists i :: 0 <= i < |targetList[1..]| && TargetField(targetList[1..][i]) == Some(fs) {
        var i :| 0 <= i < |targetList[1..]| && TargetField(targetList[1..][i]) == Some(fs);
        assert targetList[i + 1] == targetList[1..][i];
      }
    }
  }

  /** Nothing is extracted exactly when no entry is a column reference under a result
      target. */
  lemma EmptyExtraction(targetList: seq<NodeBox>)
    ensures TargetFields(targetList) == [] <==>
      forall i :: 0 <= i < |targetList| ==> TargetField(targetList[i]).None?
  {
    forall i | 0 <= i < |targetList| && TargetField(targetList[i]).Some?
      ensures TargetFields(targetList) != []
    {
      TargetFieldsMembers(targetList, TargetField(targetList[i]).value);
    }
    if TargetFields(targetList) != [] {
      TargetFieldsMembers(targetList, TargetFields(targetList)[0]);
    }
  }

  /** `parse_select_target`: an empty extraction is reported; any other reaches `todo!()`. */
  function ParseSelectTarget(fields: seq<seq<PgNode>>): (r: Outcome<SelectTarget>)
    ensures r.Returns? <==> fields == []
    ensures r.Returns? ==> r.result == Err(QueryFile("expected at least one node in select target"))
    ensures r.Panics? ==> r.message == "not yet implemented"
  {
    if fields == [] then Returns(Err(QueryFile("expected at least one node in select target")))
    else Panics("not yet implemented")
  }

  /** `parse_select_query`. The schema map is ignored. */
  function ParseSelectQuery(targetList: seq<NodeBox>, schemaMap: map<string, SchemaInfo>)
    : (r: Outcome<PgQueryInfo>)
    ensures r.Returns? <==> forall i :: 0 <= i < |targetList| ==> TargetField(targetList[i]).None?
    ensures r.Returns? ==> r.result == Err(QueryFile("expected at least one node in select target"))
    ensures r.Panics? ==> r.message == "not yet implemented"
  {
    EmptyExtraction(targetList);
    match ParseSelectTarget(TargetFields(targetList))
    case Returns(Ok(target)) => Returns(Ok(PgSelect(SelectQueryInfo(target))))
    case Returns(Err(e)) => Returns(Err(e))
    case Panics(m) => Panics(m)
  }
}
