# sys.shards routing and DELETE analysis: a Dafny model

This project models two sequential parts of the query-analysis layer of the CrateDB SQL engine and proves properties of them.

1. **Routing of the `sys.shards` system table** (`SysShardsTableInfo`). `getRouting` takes the open concrete indices. When the session has a user, it keeps only the indices on whose fully qualified table name the user holds some `TABLE`-class privilege. It then walks the shard groups of the kept indices. `processShardRouting` files each group into a map `node id -> index name -> shard ids`. A group without a routing entry is an unassigned shard: it is filed under the local node with the id produced by `UnassignedShard.markUnassigned`, which is negative. The where clause is accepted and ignored.
2. **The fixed expression table for unassigned shards** (`unassignedShardsExpressions`) and the table's `PRIMARY_KEY`. Scalar columns read a field of the unassigned shard or are constant (0 or null). The object columns `recovery` and `node` are a self-returning null object, so a lookup at any depth below them yields null.
3. **The DELETE analyzer** (`DeleteAnalyzer`). It creates a statement context for `DELETE` and pushes one relation scope. It analyzes the target relation, which must be a doc table. It computes the bulk count: 1 without bulk parameters, otherwise the number of bulk rows. For each index `i` it sets the parameter context's bulk cursor to `i`, derives one where clause and appends it. `generateWhereClause` rejects a clause that mentions `_version` when no primary keys (doc keys) were extracted. The scope is popped only on the success path.

Files:

- `wrappers.dfy` (`Wrappers`): `Option` and `Result`, for Java's `null` and for thrown exceptions.
- `where_clauses.dfy` (`WhereClauses`): the analyzed where clause, kept only as the columns its query mentions plus its optional doc keys.
- `sys_shards_routing.dfy` (`SysShardsRouting`): the routing map and `ProcessShardRouting`, a method on a `LocationsMap` object that models the `TreeMap`. Also the privilege filter `AccessibleTables`, `GetRouting`, and the functions that specify them (`Place`, `PlacementOf`, `RoutingOf`, `IdsAt`, `AccessibleIndices`, `RoutingSpec`), with lemmas about them.
- `sys_shards_columns.dfy` (`SysShardsColumns`): the columns, the unassigned-shard expression table as a function from column to expression, nested lookup, and `PRIMARY_KEY`.
- `delete_analyzer.dfy` (`DeleteAnalysis`): the classes `ParameterContext` (bulk cursor), `StatementAnalysisContext` (relation stack) and `DeleteAnalyzedStatement` (clause list). Also `GenerateWhereClause`, the loop specification `BulkWhereClauses`, and the method `Analyze`.

External collaborators are parameters. `ClusterState` holds the open indices, the shard groups of each index and the local node id. `Externals` holds `RelationName.fqnFromIndexName` and `UnassignedShard.markUnassigned`; the result type of `markUnassigned` is the negative integers. `User` carries `hasAnyPrivilege`. `Collaborators` holds the relation analyzer's result and, for each bulk-cursor position, what the where-clause analyzer returns for the expression analyzer's normalized WHERE expression.

## Model

| member | source | states |
|---|---|---|
| `SysShardsRouting.Place` | sql/src/main/java/io/crate/metadata/sys/SysShardsTableInfo.java:257-268 | The list at (node, index) becomes the old list plus the one new id at its end. Every other (node, index) list is unchanged. The node key and the index key are created when missing. Other nodes' maps are unchanged. |
| `SysShardsRouting.PlacementOf` | sql/src/main/java/io/crate/metadata/sys/SysShardsTableInfo.java:246-256 | A shard with a routing entry is placed under that entry's current node with the entry's unmodified id. A shard without one goes under the local node with the `markUnassigned` id. The id is negative exactly when the shard is unassigned. The index is always the shard id's index. |
| `SysShardsRouting.ProcessShardRouting` | sql/src/main/java/io/crate/metadata/sys/SysShardsTableInfo.java:242-269 | The method does the two map lookups with conditional creation and the list append in place. Its new state equals `Place` applied with the shard's placement. |
| `SysShardsRouting.AccessibleIndices` | sql/src/main/java/io/crate/metadata/sys/SysShardsTableInfo.java:294-301 | An index is retained iff it is among the input indices and the user has some TABLE privilege on its fully qualified name. The retained indices form a subsequence of the input, so their relative order is kept. |
| `SysShardsRouting.AccessibleTables` | sql/src/main/java/io/crate/metadata/sys/SysShardsTableInfo.java:293-302 | The loop that appends accessible index names returns exactly `AccessibleIndices` of the open indices. |
| `SysShardsRouting.GetRouting` | sql/src/main/java/io/crate/metadata/sys/SysShardsTableInfo.java:283-311 | The result equals `RoutingSpec`. It is built from all open indices when there is no session or no user, otherwise from the accessible indices, and then from every shard group of those indices in order. `RoutingSpec` has no where-clause argument, so the result does not depend on the where clause. |
| `SysShardsRouting.RoutingOfShardsAt` | sql/src/main/java/io/crate/metadata/sys/SysShardsTableInfo.java:306-309 | For every node and index, the routing's list holds exactly the ids of the shard groups placed there, in iteration order. |
| `SysShardsRouting.RoutingOfNoEmptyBuckets` | sql/src/main/java/io/crate/metadata/sys/SysShardsTableInfo.java:257-268 | The built routing never holds an empty inner map or an empty list: a map or list is only created in order to receive an id. |
| `SysShardsRouting.PlaceKeepsBucketsNonEmpty` | sql/src/main/java/io/crate/metadata/sys/SysShardsTableInfo.java:257-268 | One insert keeps the no-empty-bucket invariant. |
| `SysShardsRouting.IdsAtSource` | sql/src/main/java/io/crate/metadata/sys/SysShardsTableInfo.java:306-309 | Every id filed under (node, index) comes from some shard group whose placement is exactly (node, index, id). |
| `SysShardsRouting.EveryShardPlaced` | sql/src/main/java/io/crate/metadata/sys/SysShardsTableInfo.java:306-309 | Every shard group iterated contributes its id to the list of the node and index it is placed at. |
| `SysShardsRouting.UnassignedOnLocalNode` | sql/src/main/java/io/crate/metadata/sys/SysShardsTableInfo.java:250-253 | An unassigned shard group is present under the local node and its index, with its marked id, which is negative. |
| `SysShardsRouting.NegativeIdsAreUnassigned` | sql/src/main/java/io/crate/metadata/sys/SysShardsTableInfo.java:276-281 | A negative id in the routing lies under the local node and is the marked id of an unassigned shard group of that index. |
| `SysShardsRouting.PlaceAddsOne` | sql/src/main/java/io/crate/metadata/sys/SysShardsTableInfo.java:257-268 | One insert raises the total number of ids across all lists by exactly one. |
| `SysShardsRouting.RoutingOfTotal` | sql/src/main/java/io/crate/metadata/sys/SysShardsTableInfo.java:306-309 | The total number of ids across all lists equals the number of shard groups iterated. |
| `SysShardsRouting.RoutingSpecTotal` | sql/src/main/java/io/crate/metadata/sys/SysShardsTableInfo.java:304-310 | In what getRouting returns, the number of ids equals the number of shard groups of the routed indices. |
| `SysShardsRouting.GroupedIndicesRequested` | sql/src/main/java/io/crate/metadata/sys/SysShardsTableInfo.java:304-305 | In a well-formed cluster state, every shard group returned for the requested indices belongs to one of them. |
| `SysShardsRouting.GroupedContains` | sql/src/main/java/io/crate/metadata/sys/SysShardsTableInfo.java:304-305 | Every shard group of a requested index occurs in the grouped iterator. |
| `SysShardsRouting.RoutingRespectsPrivileges` | sql/src/main/java/io/crate/metadata/sys/SysShardsTableInfo.java:292-305 | An index with a non-empty bucket in the routing is open. When a user is present, that user holds some TABLE privilege on the index's fully qualified table name. |
| `SysShardsRouting.RoutedIndexShardsAppear` | sql/src/main/java/io/crate/metadata/sys/SysShardsTableInfo.java:304-309 | Every shard group of every routed index appears in the routing, at its placement. |
| `SysShardsColumns.UnassignedShardsExpressions` | sql/src/main/java/io/crate/metadata/sys/SysShardsTableInfo.java:140-193 | The expression table for unassigned shards, one entry per top-level column. Its contract states that exactly `recovery` and `node` map to the null object; the values of the other entries are stated by `UnassignedScalarValues`, and the nested columns by `NestedColumnsAreNull`. |
| `SysShardsColumns.ValueOf` | sql/src/main/java/io/crate/metadata/sys/SysShardsTableInfo.java:142-180 | `value()` of each expression for an unassigned shard. It has no contract of its own; what it yields per column is stated by `UnassignedScalarValues` and `NestedColumnsAreNull`. |
| `SysShardsColumns.GetChild` | sql/src/main/java/io/crate/metadata/sys/SysShardsTableInfo.java:164-191 | A child lookup succeeds iff the expression is the null object, and then returns that same object. Lookups at any depth are stated by `NullObjectAtAnyDepth` and `NestedColumnsAreNull`. |
| `SysShardsColumns.REGISTERED_COLUMNS` | sql/src/main/java/io/crate/metadata/sys/SysShardsTableInfo.java:203-238 | The 31 columns the constructor registers, in registration order. It is a constant with no contract; `EveryRegisteredColumnResolves` states that each has an expression, and `PrimaryKeyColumns` that the key columns are among them. |
| `SysShardsColumns.NullObjectAtAnyDepth` | sql/src/main/java/io/crate/metadata/sys/SysShardsTableInfo.java:164-174 | From the null object, every path of child lookups leads back to the null object, and its value is null. |
| `SysShardsColumns.NestedColumnsAreNull` | sql/src/main/java/io/crate/metadata/sys/SysShardsTableInfo.java:164-191 | Every column rooted at `recovery` or `node`, at any nesting depth, resolves to the null object and has value null for every unassigned shard. |
| `SysShardsColumns.ScalarColumnsHaveNoChildren` | sql/src/main/java/io/crate/metadata/sys/SysShardsTableInfo.java:142-163 | A scalar column resolves iff it is looked up without a nested path. |
| `SysShardsColumns.UnassignedScalarValues` | sql/src/main/java/io/crate/metadata/sys/SysShardsTableInfo.java:140-180 | For every unassigned shard, `num_docs` and `size` are 0. `relocating_node`, `path`, `blob_path` and `min_lucene_version` are null. `state` and `routing_state` are both the shard's state. The other scalar columns are the shard's own fields. |
| `SysShardsColumns.EveryRegisteredColumnResolves` | sql/src/main/java/io/crate/metadata/sys/SysShardsTableInfo.java:203-238 | Every column registered for the table has an expression for unassigned shards, nested `recovery.*` and `node.*` columns included. |
| `SysShardsColumns.PrimaryKeyColumns` | sql/src/main/java/io/crate/metadata/sys/SysShardsTableInfo.java:195-200 | The primary key is (`schema_name`, `table_name`, `id`, `partition_ident`). Its four columns are distinct, registered and unnested. |
| `DeleteAnalysis.BulkCount` | sql/src/main/java/io/crate/analyze/DeleteAnalyzer.java:80-82 | The bulk count is at least 1. It is the number of bulk rows when there are bulk parameters, and 1 otherwise. |
| `DeleteAnalysis.GenerateWhereClause` | sql/src/main/java/io/crate/analyze/DeleteAnalyzer.java:97-108 | The call fails iff the analyzers fail or the clause has no doc keys and mentions `_version`. The version case fails with `UnsupportedFeature` and the "_version is not allowed…" message. An analyzer error is propagated. Otherwise the analyzed clause is returned unchanged. |
| `DeleteAnalysis.BulkWhereClausesSuccess` | sql/src/main/java/io/crate/analyze/DeleteAnalyzer.java:83-91 | The loop succeeds iff every bulk position yields a clause. Then there are exactly n clauses, entry i is the clause generated with the cursor at i, and none mentions `_version` without doc keys. |
| `DeleteAnalysis.BulkWhereClausesFailure` | sql/src/main/java/io/crate/analyze/DeleteAnalyzer.java:83-91 | A failing loop reports the error of the first bulk position that fails; all earlier positions succeeded. |
| `DeleteAnalysis.Analyze` | sql/src/main/java/io/crate/analyze/DeleteAnalyzer.java:55-95 | The statement context has operation DELETE. A failed relation analysis, or a relation that is not a doc table, yields an error. Otherwise the result succeeds iff every bulk position succeeds. On success, the statement's relation is the analyzed one and its clauses are exactly `BulkWhereClauses`, one per bulk position, in order. The cursor ends at the last position tried, and a failure reports that position's error. The relation stack is empty after success and holds one scope after any failure. |

## Left out

- Column types and their registration through `ColumnRegistrar`, `BytesRef` conversion of strings, and `FloatType` columns are not modelled. Only the column identifiers are kept.
- The nested `TreeMap`s and `ArrayList`s of the routing are values inside one `LocationsMap` object. No one outside `getRouting` holds a reference to them, so aliasing is not observable. Key ordering of the `TreeMap`s is not modelled, because Dafny maps are unordered; the result is still a function of its inputs.
- `GetRouting`: the `routingProvider` and `shardSelection` parameters are omitted because the body never reads them. The `Routing` wrapper is replaced by the map it wraps.
- Elasticsearch's `allAssignedShardsGrouped` is modelled as the shard groups of the requested indices, concatenated index by index. Its own sorting, the `includeEmpty` and `includeRelocationTargets` flags, and the rest of `ShardIterator` beyond `nextOrNull` are not part of this model. Only the order of groups within one index affects the result.
- `RelationName.fqnFromIndexName`, `User.hasAnyPrivilege` and `UnassignedShard.markUnassigned` are not part of this model. They appear as function-valued parameters. `markUnassigned` is given only the negativity promised by the doc comment of `getRouting`.
- Pruning shards by the where clause is not modelled: the source leaves it as a TODO and ignores the argument, and so does the model.
- Java `int` shard ids are unbounded naturals here. Overflow cannot arise in the modelled code.
- `NestableInput.getChild` for scalar expressions is not part of this model. A scalar expression is taken to have no children (`GetChild` returns `None`).
- `RelationAnalyzer`, `ExpressionAnalyzer`, `WhereClauseAnalyzer`, `Symbols.containsColumn` and the parameter binder are not part of this model. Their results are given by `Collaborators` as functions of the bulk-cursor position. The where clause's `partitions` field, the transaction context, and any state the shared `ExpressionAnalysisContext` accumulates across iterations are left out. The relation scope's `sources` are not filled in.
- `ParameterContext` is not part of this model. `HasBulkParams` is taken as "there is at least one bulk row" and `NumBulkParams` as the number of bulk rows.
- `StatementAnalysisContext` is not part of this model. `EndRelation` on an empty stack is modelled as a no-op that reports `false`; the analyzer never reaches that case.
- The `assert analyzedRelation instanceof DocTableRelation` followed by the cast is modelled as the error `NotADocTableRelation`. With assertions enabled or not, a non-doc-table relation makes the Java code throw.
- Analyze: the code has no try/finally: any exception after `startRelation`, from the relation analyzer or from an iteration, leaves the scope pushed. The model follows the code, and its contract states a stack of depth 1 after a failure.
