/**
 * The columns of sys.shards and the fixed expression table used for rows of unassigned
 * shards. Scalar columns read a field of the unassigned shard or are constant; the object
 * columns `recovery` and `node` are a self-returning null object, so a lookup at any
 * nesting depth below them yields null.
 */
module SysShardsColumns {
  import opened Wrappers

  /** The top-level columns of sys.shards. */
  datatype Root =
    | SchemaName | TableName | Id | PartitionIdent | NumDocs | Primary | RelocatingNode | Size
    | State | RoutingState | OrphanPartition | Recovery | Path | BlobPath | MinLuceneVersion | Node

  /** The SQL name of a top-level column. */
  function RootName(root: Root): string {
    match root
    case SchemaName => "schema_name"
    case TableName => "table_name"
    case Id => "id"
    case PartitionIdent => "partition_ident"
    case NumDocs => "num_docs"
    case Primary => "primary"
    case RelocatingNode => "relocating_node"
    case Size => "size"
    case State => "state"
    case RoutingState => "routing_state"
    case OrphanPartition => "orphan_partition"
    case Recovery => "recovery"
    case Path => "path"
    case BlobPath => "blob_path"
    case MinLuceneVersion => "min_lucene_version"
    case Node => "node"
  }

  /** A column: a top-level column plus a path of nested object segments. */
  datatype ColumnIdent = ColumnIdent(root: Root, path: seq<string>)

  /** The columns registered for the table, top-level and nested, in registration order. */
  const REGISTERED_COLUMNS: seq<ColumnIdent> := [
    ColumnIdent(SchemaName, []), ColumnIdent(TableName, []), ColumnIdent(Id, []),
    ColumnIdent(PartitionIdent, []), ColumnIdent(NumDocs, []), ColumnIdent(Primary, []),
    ColumnIdent(RelocatingNode, []), ColumnIdent(Size, []), ColumnIdent(State, []),
    ColumnIdent(RoutingState, []), ColumnIdent(OrphanPartition, []),
    ColumnIdent(Recovery, []),
    ColumnIdent(Recovery, ["stage"]), ColumnIdent(Recovery, ["type"]), ColumnIdent(Recovery, ["total_time"]),
    ColumnIdent(Recovery, ["size"]),
    ColumnIdent(Recovery, ["size", "used"]), ColumnIdent(Recovery, ["size", "reused"]),
    ColumnIdent(Recovery, ["size", "recovered"]), ColumnIdent(Recovery, ["size", "percent"]),
    ColumnIdent(Recovery, ["files"]),
    ColumnIdent(Recovery, ["files", "used"]), ColumnIdent(Recovery, ["files", "reused"]),
    ColumnIdent(Recovery, ["files", "recovered"]), ColumnIdent(Recovery, ["files", "percent"]),
    ColumnIdent(Path, []), ColumnIdent(BlobPath, []), ColumnIdent(MinLuceneVersion, []),
    ColumnIdent(Node, []), ColumnIdent(Node, ["id"]), ColumnIdent(Node, ["name"])
  ]

  /** The table's primary key. */
  const PRIMARY_KEY: seq<ColumnIdent> :=
    [ColumnIdent(SchemaName, []), ColumnIdent(TableName, []), ColumnIdent(Id, []), ColumnIdent(PartitionIdent, [])]

  datatype Value = Null | Long(l: int) | Int(i: int) | Bool(b: bool) | Text(s: string)

  /** The row context of an unassigned shard. */
  datatype UnassignedShard = UnassignedShard(
    schemaName: string,
    tableName: string,
    partitionIdent: string,
    id: int,
    primary: bool,
    state: string,
    orphanedPartition: bool)

  /** The accessors of UnassignedShard the expressions read. */
  datatype ShardField = SchemaNameOf | TableNameOf | PartitionIdentOf | IdOf | PrimaryOf | StateOf | OrphanedPartitionOf

  /** A row collector expression over an unassigned shard. */
  datatype RowExpression = Field(field: ShardField) | Constant(v: Value) | NullObject

  /** `value()` of an expression for a given unassigned shard. */
  function ValueOf(e: RowExpression, row: UnassignedShard): Value {
    match e
    case Field(f) =>
      (match f
       case SchemaNameOf => Text(row.schemaName)
       case TableNameOf => Text(row.tableName)
       case PartitionIdentOf => Text(row.partitionIdent)
       case IdOf => Int(row.id)
       case PrimaryOf => Bool(row.primary)
       case StateOf => Text(row.state)
       case OrphanedPartitionOf => Bool(row.orphanedPartition))
    case Constant(v) => v
    case NullObject => Null
  }

  /** `getChild(name)`: the null object returns itself; scalar expressions have no children. */
  function GetChild(e: RowExpression, name: string): (r: Option<RowExpression>)
    ensures r.Some? <==> e.NullObject?
    ensures r.Some? ==> r.value == e
  {
    if e.NullObject? then Some(e) else None
  }

  /** Follow a path of child names from an expression. */
  function LookupPath(e: RowExpression, path: seq<string>): Option<RowExpression>
    decreases |path|
  {
    if path == [] then Some(e)
    else
      match GetChild(e, path[0])
      case None => None
      case Some(child) => LookupPath(child, path[1..])
  }

  /** The expression factory table for unassigned shards: one entry per top-level column. */
  function UnassignedShardsExpressions(root: Root): (e: RowExpression)
    ensures e.NullObject? <==> root == Recovery || root == Node
  {
    match root
    case SchemaName => Field(SchemaNameOf)
    case TableName => Field(TableNameOf)
    case PartitionIdent => Field(PartitionIdentOf)
    case Id => Field(IdOf)
    case NumDocs => Constant(Long(0))
    case Primary => Field(PrimaryOf)
    case RelocatingNode => Constant(Null)
    case Size => Constant(Long(0))
    case State => Field(StateOf)
    case RoutingState => Field(StateOf)
    case OrphanPartition => Field(OrphanedPartitionOf)
    case Recovery => NullObject
    case Path => Constant(Null)
    case BlobPath => Constant(Null)
    case MinLuceneVersion => Constant(Null)
    case Node => NullObject
  }

  /** The expression for a (possibly nested) column: its root's expression, then its path. */
  function Resolve(column: ColumnIdent): Option<RowExpression> {
    LookupPath(UnassignedShardsExpressions(column.root), column.path)
  }

  /** Below the null object every path leads back to it, and its value is null. */
  lemma {:induction false} NullObjectAtAnyDepth(path: seq<string>, row: UnassignedShard)
    ensures LookupPath(NullObject, path) == Some(NullObject)
    ensures ValueOf(NullObject, row) == Null
    decreases |path|
  {
    if path != [] {
      NullObjectAtAnyDepth(path[1..], row);
    }
  }

  /** Every column under `recovery` or `node`, at any depth, is null for every unassigned shard. */
  lemma NestedColumnsAreNull(column: ColumnIdent, row: UnassignedShard)
    requires column.root == Recovery || column.root == Node
    ensures Resolve(column) == Some(NullObject)
    ensures ValueOf(Resolve(column).value, row) == Null
  {
    NullObjectAtAnyDepth(column.path, row);
  }

  /** A scalar column has no children: only its own, unnested ident resolves. */
  lemma ScalarColumnsHaveNoChildren(column: ColumnIdent)
    requires column.root != Recovery && column.root != Node
    ensures Resolve(column).Some? <==> column.path == []
  {
  }

  /** The scalar columns of an unassigned shard: zero counts, null locations, state twice. */
  lemma UnassignedScalarValues(row: UnassignedShard)
    ensures ValueOf(UnassignedShardsExpressions(NumDocs), row) == Long(0)
    ensures ValueOf(UnassignedShardsExpressions(Size), row) == Long(0)
    ensures ValueOf(UnassignedShardsExpressions(RelocatingNode), row) == Null
    ensures ValueOf(UnassignedShardsExpressions(Path), row) == Null
    ensures ValueOf(UnassignedShardsExpressions(BlobPath), row) == Null
    ensures ValueOf(UnassignedShardsExpressions(MinLuceneVersion), row) == Null
    ensures ValueOf(UnassignedShardsExpressions(State), row) == ValueOf(UnassignedShardsExpressions(RoutingState), row)
                                                         == Text(row.state)
    ensures ValueOf(UnassignedShardsExpressions(SchemaName), row) == Text(row.schemaName)
    ensures ValueOf(UnassignedShardsExpressions(TableName), row) == Text(row.tableName)
    ensures ValueOf(UnassignedShardsExpressions(PartitionIdent), row) == Text(row.partitionIdent)
    ensures ValueOf(UnassignedShardsExpressions(Id), row) == Int(row.id)
    ensures ValueOf(UnassignedShardsExpressions(Primary), row) == Bool(row.primary)
    ensures ValueOf(UnassignedShardsExpressions(OrphanPartition), row) == Bool(row.orphanedPartition)
  {
  }

  /** Every registered column, nested ones included, resolves to an expression for unassigned shards. */
  lemma EveryRegisteredColumnResolves()
    ensures forall k :: 0 <= k < |REGISTERED_COLUMNS| ==> Resolve(REGISTERED_COLUMNS[k]).Some?
  {
    forall k | 0 <= k < |REGISTERED_COLUMNS|
      ensures Resolve(REGISTERED_COLUMNS[k]).Some?
    {
      var c := REGISTERED_COLUMNS[k];
      if c.root == Recovery || c.root == Node {
        NestedColumnsAreNull(c, UnassignedShard("", "", "", 0, false, "", false));
      }
    }
  }

  /** The primary key is (schema_name, table_name, id, partition_ident): registered, unnested and distinct. */
  lemma PrimaryKeyColumns()
    ensures |PRIMARY_KEY| == 4
    ensures seq(4, i requires 0 <= i < 4 => RootName(PRIMARY_KEY[i].root)) == ["schema_name", "table_name", "id", "partition_ident"]
    ensures forall i, j :: 0 <= i < j < |PRIMARY_KEY| ==> PRIMARY_KEY[i] != PRIMARY_KEY[j]
    ensures forall i :: 0 <= i < |PRIMARY_KEY| ==> PRIMARY_KEY[i] in REGISTERED_COLUMNS && PRIMARY_KEY[i].path == []
  {
  }
}
