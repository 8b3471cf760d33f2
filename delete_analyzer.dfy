/**
 * Analysis of a DELETE statement: push a relation scope, analyze the target relation,
 * then derive one where clause per bulk-parameter row (a single one without bulk rows),
 * moving the parameter context's bulk cursor before each, and rejecting a clause that
 * mentions `_version` without extracted primary keys. On success the scope is popped and
 * the statement holds the clauses in bulk-row order.
 */
module DeleteAnalysis {
  import opened Wrappers
  import opened WhereClauses

  const VERSION_SEARCH_EX_MSG: string :=
    "_version is not allowed in delete queries without specifying a primary key"

  datatype Operation = Read | Insert | Update | Delete | DDL

  datatype AnalysisError =
    | UnsupportedFeature(message: string)   // UnsupportedFeatureException
    | NotADocTableRelation                  // the DocTableRelation assertion / cast fails
    | Collaborator(message: string)         // raised by the relation, expression or where-clause analyzers

  datatype AnalyzedRelation = DocTableRelation(table: string) | OtherRelation(name: string)

  type DocTable = r: AnalyzedRelation | r.DocTableRelation? witness DocTableRelation("")

  datatype Literal = NullLiteral | LongLiteral(n: int) | StringLiteral(s: string) | BoolLiteral(b: bool)

  /** The parameter context: the bulk rows and the bulk cursor the expression analyzer reads. */
  class ParameterContext {
    const bulkParameters: seq<seq<Literal>>
    var bulkIdx: nat

    constructor (bulkParameters: seq<seq<Literal>>)
      ensures this.bulkParameters == bulkParameters && bulkIdx == 0
    {
      this.bulkParameters := bulkParameters;
      bulkIdx := 0;
    }

    predicate HasBulkParams() {
      |bulkParameters| > 0
    }

    function NumBulkParams(): nat {
      |bulkParameters|
    }

    method SetBulkIdx(i: nat)
      modifies this
      ensures bulkIdx == i
    {
      bulkIdx := i;
    }
  }

  /** `numNested` of analyze: the number of where clauses to derive. */
  function BulkCount(p: ParameterContext): (n: nat)
    ensures n >= 1
    ensures p.HasBulkParams() ==> n == p.NumBulkParams()
    ensures !p.HasBulkParams() ==> n == 1
  {
    if p.HasBulkParams() then p.NumBulkParams() else 1
  }

  /** One relation scope of the statement context: the sources visible to the expression analyzer. */
  datatype RelationAnalysisContext = RelationAnalysisContext(sources: map<string, AnalyzedRelation>)

  /** The per-statement scratchpad: the intended operation and the relation stack. */
  class StatementAnalysisContext {
    const currentOperation: Operation
    var relationStack: seq<RelationAnalysisContext>

    constructor (operation: Operation)
      ensures currentOperation == operation && relationStack == []
    {
      currentOperation := operation;
      relationStack := [];
    }

    method StartRelation() returns (scope: RelationAnalysisContext)
      modifies this
      ensures scope == RelationAnalysisContext(map[])
      ensures relationStack == old(relationStack) + [scope]
    {
      scope := RelationAnalysisContext(map[]);
      relationStack := relationStack + [scope];
    }

    /** Pop the innermost scope; `popped` is false (and nothing changes) on an empty stack. */
    method EndRelation() returns (popped: bool)
      modifies this
      ensures popped == (old(relationStack) != [])
      ensures popped ==> relationStack == old(relationStack)[..|old(relationStack)| - 1]
      ensures !popped ==> relationStack == old(relationStack)
    {
      popped := relationStack != [];
      if popped {
        relationStack := relationStack[..|relationStack| - 1];
      }
    }
  }

  /** The analyzed DELETE: its target relation and one where clause per bulk row. */
  class DeleteAnalyzedStatement {
    const analyzedRelation: DocTable
    var whereClauses: seq<WhereClause>

    constructor (relation: DocTable)
      ensures analyzedRelation == relation && whereClauses == []
    {
      analyzedRelation := relation;
      whereClauses := [];
    }
  }

  /**
   * What the collaborators produce for the statement: the relation analyzer's result for
   * the target, and, for a bulk cursor position, the where-clause analyzer's result on the
   * expression analyzer's normalized WHERE expression.
   */
  datatype Collaborators = Collaborators(
    relation: Result<AnalyzedRelation, AnalysisError>,
    analyzedWhereAt: nat -> Result<WhereClause, AnalysisError>)

  /**
   * generateWhereClause with the bulk cursor at `bulkIdx`: the analyzed clause, unless it
   * mentions `_version` without doc keys.
   */
  function GenerateWhereClause(c: Collaborators, bulkIdx: nat): (r: Result<WhereClause, AnalysisError>)
    ensures r.Failure? <==> c.analyzedWhereAt(bulkIdx).Failure? || VersionWithoutPrimaryKey(c.analyzedWhereAt(bulkIdx).value)
    ensures r.Success? ==> r == c.analyzedWhereAt(bulkIdx) && !VersionWithoutPrimaryKey(r.value)
    ensures c.analyzedWhereAt(bulkIdx).Failure? ==> r == c.analyzedWhereAt(bulkIdx)
    ensures c.analyzedWhereAt(bulkIdx).Success? && VersionWithoutPrimaryKey(c.analyzedWhereAt(bulkIdx).value) ==>
              r == Failure(UnsupportedFeature(VERSION_SEARCH_EX_MSG))
  {
    var analyzed := c.analyzedWhereAt(bulkIdx);
    if analyzed.Failure? then analyzed
    else if !analyzed.value.docKeys.Some? && ContainsColumn(analyzed.value.query, VERSION) then
      Failure(UnsupportedFeature(VERSION_SEARCH_EX_MSG))
    else analyzed
  }

  /** The where clauses of the first `n` bulk positions, stopping at the first failure. */
  function BulkWhereClauses(c: Collaborators, n: nat): Result<seq<WhereClause>, AnalysisError>
    decreases n
  {
    if n == 0 then Success([])
    else
      match BulkWhereClauses(c, n - 1)
      case Failure(e) => Failure(e)
      case Success(ws) =>
        match GenerateWhereClause(c, n - 1)
        case Failure(e) => Failure(e)
        case Success(w) => Success(ws + [w])
  }

  /**
   * The loop succeeds iff every bulk position yields a clause; then there is exactly one
   * clause per position, the i-th derived with the cursor at i, none mentioning `_version`
   * without doc keys.
   */
  lemma {:induction false} BulkWhereClausesSuccess(c: Collaborators, n: nat)
    ensures BulkWhereClauses(c, n).Success? <==> forall i :: 0 <= i < n ==> GenerateWhereClause(c, i).Success?
    ensures BulkWhereClauses(c, n).Success? ==>
              && |BulkWhereClauses(c, n).value| == n
              && (forall i :: 0 <= i < n ==> BulkWhereClauses(c, n).value[i] == GenerateWhereClause(c, i).value)
              && (forall i :: 0 <= i < n ==> !VersionWithoutPrimaryKey(BulkWhereClauses(c, n).value[i]))
    decreases n
  {
    if n > 0 {
      BulkWhereClausesSuccess(c, n - 1);
    }
  }

  /** A failing loop reports the error of the first bulk position that fails. */
  lemma {:induction false} BulkWhereClausesFailure(c: Collaborators, n: nat)
    requires BulkWhereClauses(c, n).Failure?
    ensures exists i :: 0 <= i < n && GenerateWhereClause(c, i) == Failure(BulkWhereClauses(c, n).error)
                        && forall j :: 0 <= j < i ==> GenerateWhereClause(c, j).Success?
    decreases n
  {
    if BulkWhereClauses(c, n - 1).Failure? {
      BulkWhereClausesFailure(c, n - 1);
    } else {
      BulkWhereClausesSuccess(c, n - 1);
      assert GenerateWhereClause(c, n - 1) == Failure(BulkWhereClauses(c, n).error);
    }
  }

  /**
   * analyze(Delete): the statement context is created for DELETE and one scope is pushed
   * before the relation is analyzed; the scope is popped only on the success path.
   */
  method Analyze(paramCtx: ParameterContext, c: Collaborators)
    returns (r: Result<DeleteAnalyzedStatement, AnalysisError>, ghost statementCtx: StatementAnalysisContext)
    modifies paramCtx
    ensures statementCtx.currentOperation == Delete
    ensures c.relation.Failure? ==> r == Failure(c.relation.error) && paramCtx.bulkIdx == old(paramCtx.bulkIdx)
    ensures c.relation.Success? && !c.relation.value.DocTableRelation? ==>
              r == Failure(NotADocTableRelation) && paramCtx.bulkIdx == old(paramCtx.bulkIdx)
    ensures r.Success? <==>
              c.relation.Success? && c.relation.value.DocTableRelation? && BulkWhereClauses(c, BulkCount(paramCtx)).Success?
    ensures r.Success? ==>
              && fresh(r.value)
              && r.value.analyzedRelation == c.relation.value
              && Success(r.value.whereClauses) == BulkWhereClauses(c, BulkCount(paramCtx))
              && |r.value.whereClauses| == BulkCount(paramCtx)
    ensures c.relation.Success? && c.relation.value.DocTableRelation? ==>
              && paramCtx.bulkIdx < BulkCount(paramCtx)
              && (forall j :: 0 <= j < paramCtx.bulkIdx ==> GenerateWhereClause(c, j).Success?)
              && (r.Success? ==> paramCtx.bulkIdx == BulkCount(paramCtx) - 1)
              && (r.Failure? ==> GenerateWhereClause(c, paramCtx.bulkIdx) == Failure(r.error))
    ensures r.Success? ==> statementCtx.relationStack == []
    ensures r.Failure? ==> |statementCtx.relationStack| == 1
  {
    var numNested := 1;
    var context := new StatementAnalysisContext(Delete);
    statementCtx := context;
    var relationAnalysisContext := context.StartRelation();
    if c.relation.Failure? {
      r := Failure(c.relation.error);
      return;
    }
    var analyzedRelation := c.relation.value;
    if !analyzedRelation.DocTableRelation? {
      r := Failure(NotADocTableRelation);
      return;
    }
    var deleteAnalyzedStatement := new DeleteAnalyzedStatement(analyzedRelation);

    if paramCtx.HasBulkParams() {
      numNested := paramCtx.NumBulkParams();
    }
    assert numNested == BulkCount(paramCtx);
    for i := 0 to numNested
      invariant BulkWhereClauses(c, i) == Success(deleteAnalyzedStatement.whereClauses)
      invariant forall j :: 0 <= j < i ==> GenerateWhereClause(c, j).Success?
      invariant i > 0 ==> paramCtx.bulkIdx == i - 1
      invariant i == 0 ==> paramCtx.bulkIdx == old(paramCtx.bulkIdx)
      invariant context.relationStack == [relationAnalysisContext]
    {
      paramCtx.SetBulkIdx(i);
      var whereClause := GenerateWhereClause(c, paramCtx.bulkIdx);
      if whereClause.Failure? {
        BulkWhereClausesSuccess(c, numNested);
        r := Failure(whereClause.error);
        return;
      }
      deleteAnalyzedStatement.whereClauses := deleteAnalyzedStatement.whereClauses + [whereClause.value];
    }
    BulkWhereClausesSuccess(c, numNested);
    var popped := context.EndRelation();
    r := Success(deleteAnalyzedStatement);
  }
}
