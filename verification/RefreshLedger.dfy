/** The analytics refresh ledger: guarded writes to one row per orchestration run. */
module RefreshLedger {
  import opened Wrappers

  datatype RunStatus = Running | Succeeded | Failed

  /** The declared transition table. */
  const ALLOWED_TRANSITIONS: map<RunStatus, set<RunStatus>> := map[
    Running := {Running, Succeeded, Failed},
    Failed := {Running, Failed},
    Succeeded := {Succeeded}]

  /** The run id is an injective function of the DAG identity. */
  datatype RunId = RunId(dagId: string, dagRunId: string)

  datatype Identity = Identity(runId: RunId, logicalDate: int, intervalStart: int, intervalEnd: int)
  {
    predicate Valid() { intervalStart <= intervalEnd }
  }

  datatype Counts = Counts(succeeded: nat, failed: nat, skipped: nat, warnings: nat, errors: nat)

  datatype Summary = Summary(invocationId: Option<string>, counts: Counts, artifact: string)

  datatype Row = Row(
    logicalDate: int, intervalStart: int, intervalEnd: int, startedAt: int, finishedAt: Option<int>, status: RunStatus,
    sourceRelation: string, sourceMaximum: Option<int>, sourceDelay: Option<int>, freshness: Option<string>,
    invocationId: Option<string>, resultSummary: Option<string>, counts: Counts,
    errorCategory: Option<string>, errorSummary: Option<string>)

  /** The table's CHECK constraints on interval, terminal timestamp, timestamp order, delay and errors. */
  predicate Checks(r: Row) {
    && r.intervalStart <= r.intervalEnd
    && (r.status.Running? <==> r.finishedAt.None?)
    && (r.finishedAt.Some? ==> r.finishedAt.value >= r.startedAt)
    && (r.sourceDelay.Some? ==> r.sourceDelay.value >= 0)
    && (r.status.Failed? || (r.errorCategory.None? && r.errorSummary.None?))
  }

  const NO_COUNTS := Counts(0, 0, 0, 0, 0)

  function Coalesce<T>(first: Option<T>, second: Option<T>): Option<T> { if first.Some? then first else second }

  function Greatest(a: int, b: int): int { if a >= b then a else b }

  /** One statement of the storage class, with its parameters. */
  datatype Write =
    | BeginRun(identity: Identity, startedAt: int, relation: string)
    | RecordWatermark(maximum: Option<int>, delay: Option<int>)
    | RecordSource(summary: Summary)
    | ResumeBuild
    | RecordBuild(summary: Summary)
    | FinishSuccess(finishedAt: int)
    | FinishFailure(finishedAt: int, category: string, error: string, evidence: Option<Summary>)

  function Begun(identity: Identity, startedAt: int, relation: string): Row {
    Row(identity.logicalDate, identity.intervalStart, identity.intervalEnd, startedAt, None, Running, relation,
        None, None, None, None, None, NO_COUNTS, None, None)
  }

  /** The row a statement would leave, or none when its guard matches no row. */
  function Proposed(row: Option<Row>, w: Write): Option<Row> {
    match w
    case BeginRun(identity, startedAt, relation) =>
      if row.Some? && row.value.status.Succeeded? then None else Some(Begun(identity, startedAt, relation))
    case RecordWatermark(maximum, delay) =>
      if row.None? || !row.value.status.Running? then None
      else Some(row.value.(sourceMaximum := maximum, sourceDelay := delay))
    case RecordSource(summary) =>
      if row.None? || !row.value.status.Running? then None
      else Some(row.value.(freshness := Some(summary.artifact),
                           invocationId := Coalesce(summary.invocationId, row.value.invocationId)))
    case ResumeBuild =>
      if row.None? || row.value.status.Succeeded? then None
      else Some(row.value.(status := Running, finishedAt := None, errorCategory := None, errorSummary := None))
    case RecordBuild(summary) =>
      if row.None? || !row.value.status.Running? then None
      else Some(row.value.(invocationId := summary.invocationId, resultSummary := Some(summary.artifact),
                           counts := summary.counts))
    case FinishSuccess(at) =>
      if row.None? || row.value.status.Failed? then None
      else Some(row.value.(status := Succeeded, finishedAt := Some(at)))
    case FinishFailure(at, category, error, evidence) =>
      if row.None? || row.value.status.Succeeded? then None
      else
        var r := row.value;
        Some(r.(status := Failed,
                finishedAt := Some(Greatest(at, r.startedAt)),
                invocationId := if evidence.Some? then Coalesce(evidence.value.invocationId, r.invocationId) else r.invocationId,
                resultSummary := if evidence.Some? then Some(evidence.value.artifact) else r.resultSummary,
                counts := if evidence.Some? then evidence.value.counts else r.counts,
                errorCategory := Coalesce(r.errorCategory, Some(category)),
                errorSummary := Coalesce(r.errorSummary, Some(error))))
  }

  datatype LedgerError = TransitionRejected | CheckViolation

  /** A statement either leaves its proposed row, or raises and leaves the table as it was. */
  function Execute(row: Option<Row>, w: Write): Result<Row, LedgerError> {
    match Proposed(row, w)
    case None => Failure(TransitionRejected)
    case Some(r) => if Checks(r) then Success(r) else Failure(CheckViolation)
  }

  /** What a row is after a sequence of statements, each rejected one changing nothing. */
  function Attempted(row: Option<Row>, ws: seq<Write>): Option<Row> {
    if ws == [] then row
    else
      var before := Attempted(row, ws[..|ws| - 1]);
      match Execute(before, ws[|ws| - 1])
      case Success(r) => Some(r)
      case Failure(_) => before
  }

  // ---------------------------------------------------------------- guards against the declared table

  predicate IsTransition(w: Write) { w.BeginRun? || w.ResumeBuild? || w.FinishSuccess? || w.FinishFailure? }

  function Target(w: Write): RunStatus
    requires IsTransition(w)
  {
    match w
    case FinishSuccess(_) => Succeeded
    case FinishFailure(_, _, _, _) => Failed
    case _ => Running
  }

  /** Parameters as their own constructors admit them. */
  predicate Admissible(w: Write) {
    && (w.BeginRun? ==> w.identity.Valid())
    && (w.RecordWatermark? && w.delay.Some? ==> w.delay.value >= 0)
  }

  /**
   * On a row that passes its constraints a status change is accepted exactly when the declared
   * table permits it and, for success only, the clock did not go back; evidence is recorded on
   * running rows only and does not change the status.
   */
  lemma GuardsRefineTransitions(row: Row, w: Write)
    requires Checks(row) && Admissible(w)
    ensures Execute(Some(row), w).Success? <==>
            && (if IsTransition(w) then Target(w) in ALLOWED_TRANSITIONS[row.status] else row.status.Running?)
            && (w.FinishSuccess? ==> w.finishedAt >= row.startedAt)
    ensures Execute(Some(row), w).Success? ==>
              Execute(Some(row), w).value.status == if IsTransition(w) then Target(w) else row.status
    ensures Execute(Some(row), w) == Failure(CheckViolation) <==>
            w.FinishSuccess? && !row.status.Failed? && w.finishedAt < row.startedAt
  {
  }

  /** What a statement would leave always passes the constraints, unless it dates a success before the start. */
  lemma OnlyBackdatedSuccessFailsChecks(row: Option<Row>, w: Write)
    requires (row.Some? ==> Checks(row.value)) && Admissible(w) && Proposed(row, w).Some?
    ensures Checks(Proposed(row, w).value) <==> !(w.FinishSuccess? && w.finishedAt < row.value.startedAt)
  {
  }

  /** Without a row only the begin statement is accepted. */
  lemma OnlyBeginCreates(w: Write)
    requires Admissible(w)
    ensures Execute(None, w).Success? <==> w.BeginRun?
  {
  }

  /** A rejected statement leaves the old row, so every reachable row satisfies the constraints. */
  lemma {:induction false} ReachableRowsPassChecks(row: Option<Row>, ws: seq<Write>)
    requires row.Some? ==> Checks(row.value)
    ensures Attempted(row, ws).Some? ==>
              var r := Attempted(row, ws).value;
              && r.intervalStart <= r.intervalEnd
              && (r.finishedAt == None <==> r.status == Running)
              && (r.finishedAt.Some? ==> r.startedAt <= r.finishedAt.value)
              && (r.sourceDelay.Some? ==> 0 <= r.sourceDelay.value)
              && (r.status != Failed ==> r.errorCategory == None && r.errorSummary == None)
    ensures Attempted(row, ws).Some? ==> Checks(Attempted(row, ws).value)
  {
    if ws != [] {
      ReachableRowsPassChecks(row, ws[..|ws| - 1]);
    }
  }

  /** Succeeded is absorbing: later writes can at most repeat the success with another finish time. */
  lemma {:induction false} SucceededIsAbsorbing(row: Row, ws: seq<Write>)
    requires row.status.Succeeded?
    ensures Attempted(Some(row), ws).Some?
    ensures Attempted(Some(row), ws).value == row.(finishedAt := Attempted(Some(row), ws).value.finishedAt)
  {
    if ws != [] {
      SucceededIsAbsorbing(row, ws[..|ws| - 1]);
    }
  }

  /** Until the next resumption or restart the first failure's category and summary persist. */
  lemma {:induction false} FirstFailurePersists(row: Row, ws: seq<Write>)
    requires Checks(row) && row.status.Failed? && row.errorCategory.Some? && row.errorSummary.Some?
    requires forall w | w in ws :: !w.BeginRun? && !w.ResumeBuild?
    ensures var after := Attempted(Some(row), ws);
            && after.Some? && after.value.status.Failed?
            && after.value.errorCategory == row.errorCategory && after.value.errorSummary == row.errorSummary
  {
    if ws != [] {
      FirstFailurePersists(row, ws[..|ws| - 1]);
      assert ws[|ws| - 1] in ws;
    }
  }

  /** A failure written to a running row is the one that then persists. */
  lemma FirstFailureIsRecorded(row: Row, at: int, category: string, error: string, evidence: Option<Summary>)
    requires Checks(row) && row.status.Running?
    ensures var after := Execute(Some(row), FinishFailure(at, category, error, evidence));
            && after.Success? && after.value.status.Failed?
            && after.value.errorCategory == Some(category) && after.value.errorSummary == Some(error)
  {
  }

  // ---------------------------------------------------------------- the storage class

  class PostgresAnalyticsRefreshStorage {
    var rows: map<RunId, Row>

    constructor ()
      ensures rows == map[]
    {
      rows := map[];
    }

    /** The table after one statement for this run: its row replaced, or nothing changed. */
    ghost function After(id: RunId, w: Write): map<RunId, Row>
      reads this
    {
      match Execute(Lookup(rows, id), w)
      case Success(r) => rows[id := r]
      case Failure(_) => rows
    }

    /** The constraint checks at the end of every write statement. */
    method Put(id: RunId, row: Row) returns (r: Result<(), LedgerError>)
      modifies this
      ensures r == if Checks(row) then Success(()) else Failure(CheckViolation)
      ensures rows == if Checks(row) then old(rows)[id := row] else old(rows)
    {
      if !Checks(row) {
        return Failure(CheckViolation);
      }
      rows := rows[id := row];
      return Success(());
    }

    method BeginRun(identity: Identity, startedAt: int, relation: string) returns (r: Result<(), LedgerError>)
      modifies this
      ensures rows == old(After(identity.runId, Write.BeginRun(identity, startedAt, relation)))
      ensures r.Success? <==> old(Execute(Lookup(rows, identity.runId), Write.BeginRun(identity, startedAt, relation))).Success?
      ensures r.Success? <==> && identity.intervalStart <= identity.intervalEnd
                              && (identity.runId in old(rows) ==> old(rows)[identity.runId].status != Succeeded)
      ensures rows == if r.Failure? then old(rows)
                      else old(rows)[identity.runId :=
                                       Row(identity.logicalDate, identity.intervalStart, identity.intervalEnd, startedAt, None, Running,
                                           relation, None, None, None, None, None, Counts(0, 0, 0, 0, 0), None, None)]
    {
      if identity.runId in rows && rows[identity.runId].status == Succeeded {
        return Failure(TransitionRejected);
      }
      r := Put(identity.runId, Begun(identity, startedAt, relation));
    }

    method RecordWatermark(id: RunId, maximum: Option<int>, delay: Option<int>) returns (r: Result<(), LedgerError>)
      modifies this
      ensures rows == old(After(id, Write.RecordWatermark(maximum, delay)))
      ensures r.Success? <==> old(Execute(Lookup(rows, id), Write.RecordWatermark(maximum, delay))).Success?
      ensures id in old(rows) && Checks(old(rows)[id]) ==> (r.Success? <==> old(rows)[id].status == Running && (delay.Some? ==> delay.value >= 0))
      ensures r.Success? ==> id in old(rows)
      ensures rows == if r.Failure? then old(rows) else old(rows)[id := old(rows)[id].(sourceMaximum := maximum, sourceDelay := delay)]
    {
      if id !in rows || rows[id].status != Running {
        return Failure(TransitionRejected);
      }
      r := Put(id, rows[id].(sourceMaximum := maximum, sourceDelay := delay));
    }

    method RecordSource(id: RunId, summary: Summary) returns (r: Result<(), LedgerError>)
      modifies this
      ensures rows == old(After(id, Write.RecordSource(summary)))
      ensures r.Success? <==> old(Execute(Lookup(rows, id), Write.RecordSource(summary))).Success?
      ensures id in old(rows) && Checks(old(rows)[id]) ==> (r.Success? <==> old(rows)[id].status == Running)
      ensures r.Success? ==> id in old(rows)
      ensures rows == if r.Failure? then old(rows) else old(rows)[id := old(rows)[id].(
                        freshness := Some(summary.artifact),
                        invocationId := if summary.invocationId == None then old(rows)[id].invocationId else summary.invocationId)]
    {
      if id !in rows || rows[id].status != Running {
        return Failure(TransitionRejected);
      }
      r := Put(id, rows[id].(freshness := Some(summary.artifact),
                             invocationId := if summary.invocationId.Some? then summary.invocationId else rows[id].invocationId));
    }

    method ResumeBuild(id: RunId) returns (r: Result<(), LedgerError>)
      modifies this
      ensures rows == old(After(id, Write.ResumeBuild))
      ensures r.Success? <==> old(Execute(Lookup(rows, id), Write.ResumeBuild)).Success?
      ensures id in old(rows) && Checks(old(rows)[id]) ==> (r.Success? <==> old(rows)[id].status != Succeeded)
      ensures r.Success? ==> id in old(rows)
      ensures rows == if r.Failure? then old(rows) else old(rows)[id := old(rows)[id].(
                        status := Running, finishedAt := None, errorCategory := None, errorSummary := None)]
    {
      if id !in rows || rows[id].status == Succeeded {
        return Failure(TransitionRejected);
      }
      r := Put(id, rows[id].(status := Running, finishedAt := None, errorCategory := None, errorSummary := None));
    }

    method RecordBuild(id: RunId, summary: Summary) returns (r: Result<(), LedgerError>)
      modifies this
      ensures rows == old(After(id, Write.RecordBuild(summary)))
      ensures r.Success? <==> old(Execute(Lookup(rows, id), Write.RecordBuild(summary))).Success?
      ensures id in old(rows) && Checks(old(rows)[id]) ==> (r.Success? <==> old(rows)[id].status == Running)
      ensures r.Success? ==> id in old(rows)
      ensures rows == if r.Failure? then old(rows) else old(rows)[id := old(rows)[id].(
                        invocationId := summary.invocationId, resultSummary := Some(summary.artifact), counts := summary.counts)]
    {
      if id !in rows || rows[id].status != Running {
        return Failure(TransitionRejected);
      }
      r := Put(id, rows[id].(invocationId := summary.invocationId, resultSummary := Some(summary.artifact),
                             counts := summary.counts));
    }

    method FinishSuccess(id: RunId, finishedAt: int) returns (r: Result<(), LedgerError>)
      modifies this
      ensures rows == old(After(id, Write.FinishSuccess(finishedAt)))
      ensures r.Success? <==> old(Execute(Lookup(rows, id), Write.FinishSuccess(finishedAt))).Success?
      ensures id in old(rows) && Checks(old(rows)[id]) ==> (r.Success? <==> old(rows)[id].status != Failed && old(rows)[id].startedAt <= finishedAt)
      ensures r.Success? ==> id in old(rows)
      ensures rows == if r.Failure? then old(rows) else old(rows)[id := old(rows)[id].(status := Succeeded, finishedAt := Some(finishedAt))]
    {
      if id !in rows || rows[id].status == Failed {
        return Failure(TransitionRejected);
      }
      r := Put(id, rows[id].(status := Succeeded, finishedAt := Some(finishedAt)));
    }

    method FinishFailure(id: RunId, finishedAt: int, category: string, error: string, evidence: Option<Summary>)
      returns (r: Result<(), LedgerError>)
      modifies this
      ensures rows == old(After(id, Write.FinishFailure(finishedAt, category, error, evidence)))
      ensures r.Success? <==> old(Execute(Lookup(rows, id), Write.FinishFailure(finishedAt, category, error, evidence))).Success?
      ensures id in old(rows) && Checks(old(rows)[id]) ==> (r.Success? <==> old(rows)[id].status != Succeeded)
      ensures r.Success? ==> id in old(rows)
      ensures r.Success? && evidence == None ==>
                rows[id] == old(rows)[id].(status := Failed, finishedAt := rows[id].finishedAt,
                                           errorCategory := rows[id].errorCategory, errorSummary := rows[id].errorSummary)
      ensures r.Success? && evidence.Some? ==>
                rows[id] == old(rows)[id].(status := Failed, finishedAt := rows[id].finishedAt,
                                           errorCategory := rows[id].errorCategory, errorSummary := rows[id].errorSummary,
                                           invocationId := if evidence.value.invocationId == None then old(rows)[id].invocationId
                                                           else evidence.value.invocationId,
                                           resultSummary := Some(evidence.value.artifact), counts := evidence.value.counts)
      ensures r.Success? ==>
                var before, after := old(rows)[id], rows[id];
                && after.finishedAt.Some? && after.finishedAt.value in {finishedAt, before.startedAt}
                && finishedAt <= after.finishedAt.value && before.startedAt <= after.finishedAt.value
                && after.errorCategory == (if before.errorCategory == None then Some(category) else before.errorCategory)
                && after.errorSummary == (if before.errorSummary == None then Some(error) else before.errorSummary)
      ensures rows - {id} == old(rows) - {id} && (r.Failure? ==> rows == old(rows))
    {
      if id !in rows || rows[id].status == Succeeded {
        return Failure(TransitionRejected);
      }
      var row := rows[id];
      var failed := row.(
        status := Failed,
        finishedAt := Some(if finishedAt >= row.startedAt then finishedAt else row.startedAt),
        errorCategory := if row.errorCategory.Some? then row.errorCategory else Some(category),
        errorSummary := if row.errorSummary.Some? then row.errorSummary else Some(error));
      if evidence.Some? {
        var summary := evidence.value;
        failed := failed.(
          invocationId := if summary.invocationId.Some? then summary.invocationId else row.invocationId,
          resultSummary := Some(summary.artifact),
          counts := summary.counts);
      }
      r := Put(id, failed);
    }
  }
}
