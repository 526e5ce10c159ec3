/** The three scheduled steps and the failure callback, over any order of attempts the DAG allows. */
module RefreshService {
  import opened Wrappers
  import opened RefreshLedger

  /** What a dbt command does: a summary, a categorised error with optional evidence, or anything else. */
  datatype DbtOutcome =
    | Ran(summary: Summary)
    | RefreshRaised(category: string, message: string, evidence: Option<Summary>)
    | OtherRaised(message: string)

  /** The maximum ingestion time of the source relation in microseconds, if it can be read. */
  datatype Reading = Observed(maximum: Option<int>) | ReadRaised(message: string)

  const UNEXPECTED := "unexpected_error"

  const MICROSECONDS := 1_000_000

  /** Whole seconds of delay at the observation time, never negative. */
  function Delay(observedAt: int, maximum: Option<int>): (delay: Option<int>)
    ensures delay.Some? <==> maximum.Some?
    ensures delay.Some? ==> delay.value >= 0
    ensures delay.Some? && maximum.value <= observedAt ==>
              delay.value * MICROSECONDS <= observedAt - maximum.value < (delay.value + 1) * MICROSECONDS
    ensures delay.Some? && maximum.value >= observedAt ==> delay.value == 0
  {
    match maximum
    case None => None
    case Some(m) => Some(if m >= observedAt then 0 else (observedAt - m) / MICROSECONDS)
  }

  datatype SourceEnv = SourceEnv(startedAt: int, relation: string, reading: Reading, freshness: DbtOutcome, failedAt: int)

  datatype BuildEnv = BuildEnv(outcome: DbtOutcome, failedAt: int)

  // ---------------------------------------------------------------- what each step writes

  function FailureWrite(at: int, outcome: DbtOutcome, withEvidence: bool): Write
    requires !outcome.Ran?
  {
    match outcome
    case RefreshRaised(category, message, evidence) => FinishFailure(at, category, message, if withEvidence then evidence else None)
    case OtherRaised(message) => FinishFailure(at, UNEXPECTED, message, None)
  }

  function SourceWrites(identity: Identity, env: SourceEnv): seq<Write> {
    var begin := BeginRun(identity, env.startedAt, env.relation);
    match env.reading
    case ReadRaised(message) => [begin, FinishFailure(env.failedAt, UNEXPECTED, message, None)]
    case Observed(maximum) =>
      var watermark := RecordWatermark(maximum, Delay(env.startedAt, maximum));
      match env.freshness
      case Ran(summary) => [begin, watermark, RecordSource(summary)]
      case RefreshRaised(_, _, Some(evidence)) =>
        [begin, watermark, RecordSource(evidence), FailureWrite(env.failedAt, env.freshness, false)]
      case _ => [begin, watermark, FailureWrite(env.failedAt, env.freshness, false)]
  }

  function BuildWrites(env: BuildEnv): seq<Write> {
    match env.outcome
    case Ran(summary) => [ResumeBuild, RecordBuild(summary)]
    case _ => [ResumeBuild, FailureWrite(env.failedAt, env.outcome, true)]
  }

  predicate SourceRuns(env: SourceEnv) { env.reading.Observed? && env.freshness.Ran? }

  datatype StepResult = Completed | Raised | Killed

  const REJECTED := "analytics refresh state transition was rejected"

  /** The writes that a process makes before it dies, if it dies; each call it may make costs one. */
  function Survived(ws: seq<Write>, calls: nat): seq<Write> { if calls < |ws| then ws[..calls] else ws }

  // ---------------------------------------------------------------- the service class

  class AnalyticsRefreshService {
    const storage: PostgresAnalyticsRefreshStorage

    constructor (storage: PostgresAnalyticsRefreshStorage)
      ensures this.storage == storage
    {
      this.storage := storage;
    }

    ghost predicate Wrote(id: RunId, before: map<RunId, Row>, ws: seq<Write>)
      reads storage
    {
      && Lookup(storage.rows, id) == Attempted(Lookup(before, id), ws)
      && storage.rows - {id} == before - {id}
    }

    /** The first step: each statement on the row of this run, up to the death of the process after so many calls. */
    method RecordAndCheckSource(identity: Identity, env: SourceEnv, calls: nat) returns (r: StepResult)
      requires identity.Valid()
      modifies storage
      ensures Wrote(identity.runId, old(storage.rows), Survived(SourceWrites(identity, env), calls))
      ensures r.Completed? <==> && calls > |SourceWrites(identity, env)| && SourceRuns(env)
                                && old(Execute(Lookup(storage.rows, identity.runId),
                                               BeginRun(identity, env.startedAt, env.relation))).Success?
    {
      hide Attempted, Execute, Begun, Checks, Proposed;
      var id := identity.runId;
      var begin := BeginRun(identity, env.startedAt, env.relation);
      ghost var row, ws, done := Lookup(storage.rows, id), Survived(SourceWrites(identity, env), calls), [];
      NothingWritten(row);
      if Execute(row, begin).Failure? {
        RejectedSource(row, identity, env, calls);
      }
      if calls == 0 {
        return Killed;
      }
      AttemptedAppend(row, done, begin);
      done := done + [begin];
      var begun := storage.BeginRun(identity, env.startedAt, env.relation);
      if begun.Failure? {
        return if calls == 1 then Killed else Raised;
      }
      BegunIsRunning(row, begin);
      if calls == 1 {
        assert done == ws;
        return Killed;
      }
      var error := OtherRaised(if env.reading.ReadRaised? then env.reading.message else "");
      if env.reading.Observed? {
        var maximum := env.reading.maximum;
        var watermark := RecordWatermark(maximum, Delay(env.startedAt, maximum));
        AttemptedAppend(row, done, watermark);
        done := done + [watermark];
        RunningAccepts(storage.rows[id], watermark);
        var watermarked := storage.RecordWatermark(id, maximum, Delay(env.startedAt, maximum));
        assert watermarked.Success?;
        if calls == 2 {
          assert done == ws;
          return Killed;
        }
        error := env.freshness;
        if error.Ran? || (error.RefreshRaised? && error.evidence.Some?) {
          var summary := if error.Ran? then error.summary else error.evidence.value;
          AttemptedAppend(row, done, RecordSource(summary));
          done := done + [RecordSource(summary)];
          RunningAccepts(storage.rows[id], RecordSource(summary));
          var recorded := storage.RecordSource(id, summary);
          assert recorded.Success?;
          if calls == 3 || error.Ran? {
            assert done == ws;
            return if calls == 3 then Killed else Completed;
          }
        }
      }
      AttemptedAppend(row, done, FailureWrite(env.failedAt, error, false));
      done := done + [FailureWrite(env.failedAt, error, false)];
      var failed := PersistFailure(id, env.failedAt, error, false);
      assert done == ws;
      return Raised;
    }

    /** Categorise an error and write the terminal failure, with its evidence only when asked for. */
    method PersistFailure(id: RunId, at: int, error: DbtOutcome, withEvidence: bool) returns (r: Result<(), LedgerError>)
      requires !error.Ran?
      modifies storage
      ensures storage.rows == old(storage.After(id, FailureWrite(at, error, withEvidence)))
      ensures r.Success? <==> old(Execute(Lookup(storage.rows, id), FailureWrite(at, error, withEvidence))).Success?
    {
      match error {
        case RefreshRaised(category, message, evidence) =>
          r := storage.FinishFailure(id, at, category, message, if withEvidence then evidence else None);
        case OtherRaised(message) =>
          r := storage.FinishFailure(id, at, UNEXPECTED, message, None);
      }
    }

    /** The second step: resume, then record what dbt returned or raised. */
    method Build(identity: Identity, env: BuildEnv, calls: nat) returns (r: StepResult)
      requires Lookup(storage.rows, identity.runId).Some? ==> Checks(storage.rows[identity.runId])
      modifies storage
      ensures Wrote(identity.runId, old(storage.rows), Survived(BuildWrites(env), calls))
      ensures r.Completed? <==> && calls > |BuildWrites(env)| && env.outcome.Ran?
                                && old(Execute(Lookup(storage.rows, identity.runId), ResumeBuild)).Success?
    {
      hide Attempted, Execute;
      var id := identity.runId;
      ghost var row, ws, done := Lookup(storage.rows, id), Survived(BuildWrites(env), calls), [];
      NothingWritten(row);
      if Execute(row, ResumeBuild).Failure? {
        RejectedBuild(row, env, calls);
        RejectedFailure(row, env.failedAt);
      }
      if calls == 0 {
        return Killed;
      }
      AttemptedAppend(row, done, ResumeBuild);
      done := done + [ResumeBuild];
      var resumed := storage.ResumeBuild(id);
      if calls == 1 {
        assert done == ws;
        return Killed;
      }
      if resumed.Failure? {
        var failed := PersistFailure(id, env.failedAt, OtherRaised(REJECTED), true);
        return Raised;
      }
      BegunIsRunning(row, ResumeBuild);
      if env.outcome.Ran? {
        AttemptedAppend(row, done, RecordBuild(env.outcome.summary));
        RunningAccepts(storage.rows[id], RecordBuild(env.outcome.summary));
        done := done + [RecordBuild(env.outcome.summary)];
        var recorded := storage.RecordBuild(id, env.outcome.summary);
        assert recorded.Success?;
        assert done == ws;
        return if calls == 2 then Killed else Completed;
      }
      AttemptedAppend(row, done, FailureWrite(env.failedAt, env.outcome, true));
      done := done + [FailureWrite(env.failedAt, env.outcome, true)];
      var failed := PersistFailure(id, env.failedAt, env.outcome, true);
      assert done == ws;
      return Raised;
    }

    /** The last step is a single statement, whose refusal is the step's failure. */
    method Succeed(identity: Identity, finishedAt: int, calls: nat) returns (r: StepResult)
      modifies storage
      ensures Wrote(identity.runId, old(storage.rows), Survived([FinishSuccess(finishedAt)], calls))
      ensures r.Completed? <==> calls > 1 && old(Execute(Lookup(storage.rows, identity.runId), FinishSuccess(finishedAt))).Success?
    {
      AttemptedOne(Lookup(storage.rows, identity.runId), FinishSuccess(finishedAt));
      if calls == 0 {
        return Killed;
      }
      var finished := storage.FinishSuccess(identity.runId, finishedAt);
      if calls == 1 {
        return Killed;
      }
      return if finished.Success? then Completed else Raised;
    }

    /** The callback may come at any time, also for a run that has already failed or succeeded. */
    method Fail(identity: Identity, at: int, error: DbtOutcome, calls: nat) returns (r: StepResult)
      requires !error.Ran?
      modifies storage
      ensures Wrote(identity.runId, old(storage.rows), Survived([FailureWrite(at, error, true)], calls))
      ensures r.Completed? <==> calls > 1 && old(Execute(Lookup(storage.rows, identity.runId), FailureWrite(at, error, true))).Success?
    {
      AttemptedOne(Lookup(storage.rows, identity.runId), FailureWrite(at, error, true));
      if calls == 0 {
        return Killed;
      }
      var failed := PersistFailure(identity.runId, at, error, true);
      if calls == 1 {
        return Killed;
      }
      return if failed.Success? then Completed else Raised;
    }
  }

  // ---------------------------------------------------------------- unfolding short write sequences

  function Then(row: Option<Row>, w: Write): Option<Row> {
    match Execute(row, w) case Success(r) => Some(r) case Failure(_) => row
  }

  lemma AttemptedOne(row: Option<Row>, w: Write)
    ensures Attempted(row, [w]) == Then(row, w)
    ensures Attempted(row, []) == row && [w][..0] == []
  {
    assert [w][..0] == [];
  }

  lemma NothingWritten(row: Option<Row>)
    ensures Attempted(row, []) == row
  {
  }

  /** A row that cannot be resumed cannot be failed either. */
  lemma RejectedFailure(row: Option<Row>, at: int)
    requires row.Some? ==> Checks(row.value)
    requires Execute(row, ResumeBuild).Failure?
    ensures Execute(row, FinishFailure(at, UNEXPECTED, REJECTED, None)).Failure?
  {
  }

  lemma AttemptedAppend(row: Option<Row>, ws: seq<Write>, w: Write)
    ensures Attempted(row, ws + [w]) == Then(Attempted(row, ws), w)
  {
    assert (ws + [w])[..|ws|] == ws;
  }

  lemma BegunIsRunning(row: Option<Row>, w: Write)
    requires (w.BeginRun? || w.ResumeBuild?) && Execute(row, w).Success?
    ensures Execute(row, w).value.status.Running? && Checks(Execute(row, w).value)
  {
  }

  /** Evidence is always accepted on a running row, so recording it never raises inside a step. */
  lemma RunningAccepts(row: Row, w: Write)
    requires row.status.Running? && Checks(row) && Admissible(w) && !IsTransition(w)
    ensures Execute(Some(row), w).Success?
    ensures Execute(Some(row), w).value.status.Running? && Checks(Execute(Some(row), w).value)
  {
  }

  /** Statements that are all rejected leave the row as it is. */
  lemma {:induction false} RejectedWritesChangeNothing(row: Option<Row>, ws: seq<Write>)
    requires forall w | w in ws :: Execute(row, w).Failure?
    ensures Attempted(row, ws) == row
  {
    if ws != [] {
      RejectedWritesChangeNothing(row, ws[..|ws| - 1]);
    }
  }

  /** When a run cannot begin, none of the step's statements could have any effect. */
  lemma RejectedSource(row: Option<Row>, identity: Identity, env: SourceEnv, calls: nat)
    requires identity.Valid() && Execute(row, BeginRun(identity, env.startedAt, env.relation)).Failure?
    ensures Attempted(row, Survived(SourceWrites(identity, env), calls)) == row
  {
    RejectedWritesChangeNothing(row, Survived(SourceWrites(identity, env), calls));
  }

  lemma RejectedBuild(row: Option<Row>, env: BuildEnv, calls: nat)
    requires row.Some? ==> Checks(row.value)
    requires Execute(row, ResumeBuild).Failure?
    ensures Attempted(row, Survived(BuildWrites(env), calls)) == row
  {
    RejectedWritesChangeNothing(row, Survived(BuildWrites(env), calls));
  }
}
