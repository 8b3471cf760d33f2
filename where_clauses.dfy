/**
 * The analyzed WHERE clause, shared by the DELETE analyzer and the routing of sys.shards.
 * Only what the modelled code observes of it is kept: which columns its query mentions
 * and whether primary-key lookups (doc keys) were extracted.
 */
module WhereClauses {
  import opened Wrappers

  type ColumnName = string

  /** The system version column (`DocSysColumns.VERSION`). */
  const VERSION: ColumnName := "_version"

  /** A normalized boolean query, observed through the set of columns it references. */
  datatype Query = MatchAll | MatchNone | Predicate(columns: set<ColumnName>)

  /** One extracted primary-key tuple, with an optional pinned version. */
  datatype DocKey = DocKey(values: seq<string>, version: Option<int>)

  datatype WhereClause = WhereClause(query: Query, docKeys: Option<seq<DocKey>>)

  /** `Symbols.containsColumn(query, column)`: the query references the column. */
  predicate ContainsColumn(q: Query, column: ColumnName) {
    q.Predicate? && column in q.columns
  }

  /** The clause a DELETE must reject: it mentions `_version` but no doc keys were extracted. */
  predicate VersionWithoutPrimaryKey(w: WhereClause) {
    w.docKeys.None? && ContainsColumn(w.query, VERSION)
  }
}
