/** Whole runs of the scheduled DAG: what a succeeded ledger row is evidence of. */
module RefreshRuns {
  import opened Wrappers
  import opened RefreshLedger
  import opened RefreshService

  /** One execution of a task or callback; the process survives that many storage calls. */
  datatype TaskRun =
    | SourceAttempt(source: SourceEnv, calls: nat)
    | BuildAttempt(build: BuildEnv, calls: nat)
    | SuccessAttempt(finishedAt: int, calls: nat)
    | FailureCallback(at: int, error: DbtOutcome, calls: nat)

  predicate WellFormed(t: TaskRun) { t.FailureCallback? ==> !t.error.Ran? }

  function Writes(identity: Identity, t: TaskRun): seq<Write>
    requires WellFormed(t)
  {
    match t
    case SourceAttempt(env, _) => SourceWrites(identity, env)
    case BuildAttempt(env, _) => BuildWrites(env)
    case SuccessAttempt(at, _) => [FinishSuccess(at)]
    case FailureCallback(at, error, _) => [FailureWrite(at, error, true)]
  }

  /** The row after a task run, as the step methods leave it. */
  function Effect(identity: Identity, row: Option<Row>, t: TaskRun): Option<Row>
    requires WellFormed(t)
  {
    Attempted(row, Survived(Writes(identity, t), t.calls))
  }

  /** The task run returns normally, as the step methods report it. */
  predicate Completes(identity: Identity, row: Option<Row>, t: TaskRun)
    requires WellFormed(t)
  {
    && t.calls > |Writes(identity, t)|
    && Execute(row, Writes(identity, t)[0]).Success?
    && (t.SourceAttempt? ==> SourceRuns(t.source))
    && (t.BuildAttempt? ==> t.build.outcome.Ran?)
  }

  /** One task run as the scheduler starts it: the service method of its kind. */
  method Perform(service: AnalyticsRefreshService, identity: Identity, t: TaskRun) returns (r: StepResult)
    requires WellFormed(t) && identity.Valid()
    requires Lookup(service.storage.rows, identity.runId).Some? ==> Checks(service.storage.rows[identity.runId])
    modifies service.storage
    ensures Lookup(service.storage.rows, identity.runId) == Effect(identity, old(Lookup(service.storage.rows, identity.runId)), t)
    ensures service.storage.rows - {identity.runId} == old(service.storage.rows) - {identity.runId}
    ensures r.Completed? <==> Completes(identity, old(Lookup(service.storage.rows, identity.runId)), t)
  {
    match t {
      case SourceAttempt(env, calls) => r := service.RecordAndCheckSource(identity, env, calls);
      case BuildAttempt(env, calls) => r := service.Build(identity, env, calls);
      case SuccessAttempt(finishedAt, calls) => r := service.Succeed(identity, finishedAt, calls);
      case FailureCallback(at, error, calls) => r := service.Fail(identity, at, error, calls);
    }
  }

  /** How far the scheduler has got: attempts that fail or die do not advance it. */
  datatype Stage = NotChecked | SourceChecked | Built

  datatype Evidence = Evidence(startedAt: int, relation: string, maximum: Option<int>, delay: Option<int>, artifact: string)

  function EvidenceOf(env: SourceEnv): Evidence
    requires SourceRuns(env)
  {
    Evidence(env.startedAt, env.relation, env.reading.maximum, Delay(env.startedAt, env.reading.maximum), env.freshness.summary.artifact)
  }

  /** The row, the stage, and what the last completed source and build attempts observed. */
  datatype Track = Track(row: Option<Row>, stage: Stage, source: Option<Evidence>, build: Option<Summary>)

  /** Upstream first: a build needs a completed source check, a success a completed build. */
  predicate Ready(stage: Stage, t: TaskRun) {
    && (t.BuildAttempt? ==> stage != NotChecked)
    && (t.SuccessAttempt? ==> stage == Built)
  }

  function Next(identity: Identity, s: Track, t: TaskRun): Track
    requires WellFormed(t)
  {
    var row, completes := Effect(identity, s.row, t), Completes(identity, s.row, t);
    match t
    case SourceAttempt(env, _) =>
      if completes then Track(row, SourceChecked, Some(EvidenceOf(env)), s.build) else Track(row, NotChecked, s.source, s.build)
    case BuildAttempt(env, _) =>
      if completes then Track(row, Built, s.source, Some(env.outcome.summary)) else Track(row, SourceChecked, s.source, s.build)
    case _ => s.(row := row)
  }

  const START := Track(None, NotChecked, None, None)

  function RunTasks(identity: Identity, h: seq<TaskRun>): Track
    requires forall t | t in h :: WellFormed(t)
  {
    if h == [] then START else Next(identity, RunTasks(identity, h[..|h| - 1]), h[|h| - 1])
  }

  ghost predicate InOrder(identity: Identity, h: seq<TaskRun>)
    requires forall t | t in h :: WellFormed(t)
  {
    forall i | 0 <= i < |h| :: Ready(RunTasks(identity, h[..i]).stage, h[i])
  }

  // ---------------------------------------------------------------- the invariant over runs

  predicate HasSource(r: Row, e: Option<Evidence>) {
    && e.Some?
    && r.startedAt == e.value.startedAt && r.sourceRelation == e.value.relation
    && r.sourceMaximum == e.value.maximum && r.sourceDelay == e.value.delay && r.freshness == Some(e.value.artifact)
  }

  predicate HasBuild(r: Row, s: Option<Summary>) {
    && s.Some?
    && r.invocationId == s.value.invocationId && r.resultSummary == Some(s.value.artifact) && r.counts == s.value.counts
  }

  predicate Consistent(s: Track) {
    && (s.row.Some? ==> Checks(s.row.value))
    && (s.stage != NotChecked ==> s.row.Some? && HasSource(s.row.value, s.source))
    && (s.stage == Built && s.row.value.status.Running? ==> HasBuild(s.row.value, s.build))
    && (s.row.Some? && s.row.value.status.Succeeded? ==> HasSource(s.row.value, s.source) && HasBuild(s.row.value, s.build))
  }

  lemma Unfold(row: Option<Row>, ws: seq<Write>)
    ensures Attempted(row, []) == row
    ensures |ws| >= 1 ==> Attempted(row, ws[..1]) == Then(row, ws[0])
    ensures |ws| >= 2 ==> Attempted(row, ws[..2]) == Then(Then(row, ws[0]), ws[1])
    ensures |ws| >= 3 ==> Attempted(row, ws[..3]) == Then(Then(Then(row, ws[0]), ws[1]), ws[2])
    ensures |ws| >= 4 ==> Attempted(row, ws[..4]) == Then(Then(Then(Then(row, ws[0]), ws[1]), ws[2]), ws[3])
  {
    forall n: nat | n < |ws| ensures Attempted(row, ws[..n + 1]) == Then(Attempted(row, ws[..n]), ws[n]) {
      assert ws[..n + 1] == ws[..n] + [ws[n]];
      AttemptedAppend(row, ws[..n], ws[n]);
    }
    assert ws[..0] == [];
  }

  /** Only a success write can make a row succeeded. */
  lemma {:induction false} StaysUnsucceeded(row: Option<Row>, ws: seq<Write>)
    requires row.Some? ==> !row.value.status.Succeeded?
    requires forall w | w in ws :: !w.FinishSuccess?
    ensures Attempted(row, ws).Some? ==> !Attempted(row, ws).value.status.Succeeded?
  {
    if ws != [] {
      StaysUnsucceeded(row, ws[..|ws| - 1]);
      assert ws[|ws| - 1] in ws;
    }
  }

  /** Build, success and failure writes retain the source evidence. */
  lemma {:induction false} RetainsSource(row: Row, ws: seq<Write>)
    requires forall w | w in ws :: !w.BeginRun? && !w.RecordWatermark? && !w.RecordSource?
    ensures var after := Attempted(Some(row), ws);
            && after.Some?
            && after.value.sourceMaximum == row.sourceMaximum && after.value.sourceDelay == row.sourceDelay
            && after.value.freshness == row.freshness
            && after.value.startedAt == row.startedAt && after.value.sourceRelation == row.sourceRelation
  {
    if ws != [] {
      RetainsSource(row, ws[..|ws| - 1]);
      assert ws[|ws| - 1] in ws;
    }
  }

  lemma CompletedSourceHasEvidence(identity: Identity, row: Option<Row>, t: TaskRun)
    requires t.SourceAttempt? && Completes(identity, row, t) && identity.Valid()
    ensures Effect(identity, row, t).Some? && HasSource(Effect(identity, row, t).value, Some(EvidenceOf(t.source)))
  {
    hide Attempted;
    var ws := Writes(identity, t);
    Unfold(row, ws);
    assert ws[..3] == ws;
  }

  lemma CompletedBuildHasEvidence(identity: Identity, row: Option<Row>, t: TaskRun)
    requires t.BuildAttempt? && Completes(identity, row, t) && (row.Some? ==> Checks(row.value))
    ensures Effect(identity, row, t).Some? && HasBuild(Effect(identity, row, t).value, Some(t.build.outcome.summary))
  {
    hide Attempted;
    var ws := Writes(identity, t);
    Unfold(row, ws);
    assert ws[..2] == ws;
  }

  // ---------------------------------------------------------------- what an attempt leaves that is not killed

  const NOTHING_COUNTED := Counts(0, 0, 0, 0, 0)

  /** Every column after a source step that began and lived: an evidence artifact survives a failed check, dbt counts never appear. */
  ghost predicate SourceLeaves(identity: Identity, env: SourceEnv, r: Row) {
    var read := env.reading.Observed?;
    var summary := if !read then None
                   else if env.freshness.Ran? then Some(env.freshness.summary)
                   else if env.freshness.RefreshRaised? then env.freshness.evidence else None;
    && (r.logicalDate, r.intervalStart, r.intervalEnd) == (identity.logicalDate, identity.intervalStart, identity.intervalEnd)
    && r.startedAt == env.startedAt && r.sourceRelation == env.relation
    && r.sourceMaximum == (if read then env.reading.maximum else None)
    && r.sourceDelay == (if read then Delay(env.startedAt, env.reading.maximum) else None)
    && r.freshness == (if summary.Some? then Some(summary.value.artifact) else None)
    && r.invocationId == (if summary.Some? then summary.value.invocationId else None)
    && r.resultSummary == None && r.counts == NOTHING_COUNTED
    && (read && env.freshness.Ran? ==> r.status == Running)
    && (read && !env.freshness.Ran? ==> FailedWith(r, env.failedAt, env.freshness))
    && (!read ==> FailedWith(r, env.failedAt, OtherRaised(env.reading.message)))
  }

  /** Failed no earlier than started, with the error's own category, or the general one, and its message. */
  ghost predicate FailedWith(r: Row, at: int, error: DbtOutcome) {
    && r.status == Failed
    && r.finishedAt == Some(if at < r.startedAt then r.startedAt else at)
    && match error
       case Ran(_) => false
       case RefreshRaised(category, message, _) => r.errorCategory == Some(category) && r.errorSummary == Some(message)
       case OtherRaised(message) => r.errorCategory == Some("unexpected_error") && r.errorSummary == Some(message)
  }

  lemma SourceStepLeaves(identity: Identity, row: Option<Row>, env: SourceEnv, calls: nat)
    requires identity.Valid() && calls >= 4 && (row.Some? ==> row.value.status != Succeeded)
    ensures var after := Effect(identity, row, SourceAttempt(env, calls)); after.Some? && SourceLeaves(identity, env, after.value)
  {
    hide Attempted;
    var ws := SourceWrites(identity, env);
    Unfold(row, ws);
    assert ws[..|ws|] == ws;
  }

  /** A build that lived keeps the source columns and records what dbt returned, or what its error carried. */
  ghost predicate BuildLeaves(before: Row, env: BuildEnv, r: Row) {
    var summary := match env.outcome
                   case Ran(summary) => Some(summary)
                   case RefreshRaised(_, _, evidence) => evidence
                   case OtherRaised(_) => None;
    && (r.logicalDate, r.intervalStart, r.intervalEnd) == (before.logicalDate, before.intervalStart, before.intervalEnd)
    && r.startedAt == before.startedAt && r.sourceRelation == before.sourceRelation
    && r.sourceMaximum == before.sourceMaximum && r.sourceDelay == before.sourceDelay && r.freshness == before.freshness
    && r.resultSummary == (if summary.Some? then Some(summary.value.artifact) else before.resultSummary)
    && r.counts == (if summary.Some? then summary.value.counts else before.counts)
    && (env.outcome.Ran? ==> r.status == Running && r.invocationId == env.outcome.summary.invocationId)
    && (!env.outcome.Ran? ==>
          && FailedWith(r, env.failedAt, env.outcome)
          && r.invocationId == if summary.Some? && summary.value.invocationId.Some? then summary.value.invocationId
                               else before.invocationId)
  }

  lemma BuildStepLeaves(identity: Identity, row: Row, env: BuildEnv, calls: nat)
    requires Checks(row) && row.status != Succeeded && calls >= 2
    ensures var after := Effect(identity, Some(row), BuildAttempt(env, calls)); after.Some? && BuildLeaves(row, env, after.value)
  {
    hide Attempted;
    var ws := BuildWrites(env);
    Unfold(Some(row), ws);
    assert ws[..|ws|] == ws;
  }

  lemma SourceKeepsConsistent(identity: Identity, s: Track, t: TaskRun)
    requires identity.Valid() && t.SourceAttempt? && Consistent(s)
    ensures Consistent(Next(identity, s, t))
  {
    hide Attempted, HasSource, HasBuild;
    var ws := Writes(identity, t);
    ReachableRowsPassChecks(s.row, Survived(ws, t.calls));
    if s.row.Some? && s.row.value.status.Succeeded? {
      RejectedSource(s.row, identity, t.source, t.calls);
    } else {
      StaysUnsucceeded(s.row, Survived(ws, t.calls));
      if Completes(identity, s.row, t) {
        CompletedSourceHasEvidence(identity, s.row, t);
      }
    }
  }

  lemma BuildKeepsConsistent(identity: Identity, s: Track, t: TaskRun)
    requires t.BuildAttempt? && Consistent(s) && Ready(s.stage, t)
    ensures Consistent(Next(identity, s, t))
  {
    hide Attempted, HasBuild;
    var ws := Writes(identity, t);
    ReachableRowsPassChecks(s.row, Survived(ws, t.calls));
    if s.row.value.status.Succeeded? {
      RejectedBuild(s.row, t.build, t.calls);
    } else {
      StaysUnsucceeded(s.row, Survived(ws, t.calls));
      RetainsSource(s.row.value, Survived(ws, t.calls));
      if Completes(identity, s.row, t) {
        CompletedBuildHasEvidence(identity, s.row, t);
      }
    }
  }

  lemma EndKeepsConsistent(identity: Identity, s: Track, t: TaskRun)
    requires WellFormed(t) && (t.SuccessAttempt? || t.FailureCallback?) && Consistent(s) && Ready(s.stage, t)
    ensures Consistent(Next(identity, s, t))
  {
    hide Attempted;
    var ws := Writes(identity, t);
    Unfold(s.row, ws);
    assert ws[..|ws|] == ws && ws[..0] == [];
  }

  lemma {:induction false} RunIsConsistent(identity: Identity, h: seq<TaskRun>)
    requires (forall t | t in h :: WellFormed(t)) && identity.Valid() && InOrder(identity, h)
    ensures Consistent(RunTasks(identity, h))
  {
    if h != [] {
      var p, t := h[..|h| - 1], h[|h| - 1];
      assert forall i | 0 <= i < |p| :: p[..i] == h[..i];
      RunIsConsistent(identity, p);
      match t
      case SourceAttempt(_, _) => SourceKeepsConsistent(identity, RunTasks(identity, p), t);
      case BuildAttempt(_, _) => BuildKeepsConsistent(identity, RunTasks(identity, p), t);
      case _ => EndKeepsConsistent(identity, RunTasks(identity, p), t);
    }
  }

  // ---------------------------------------------------------------- last completed attempts

  ghost predicate LastBuild(identity: Identity, h: seq<TaskRun>, i: nat)
    requires forall t | t in h :: WellFormed(t)
  {
    && i < |h| && CompletedBuild(identity, h, i)
    && forall j | i < j < |h| :: !CompletedBuild(identity, h, j)
  }

  ghost predicate CompletedBuild(identity: Identity, h: seq<TaskRun>, i: nat)
    requires (forall t | t in h :: WellFormed(t)) && i < |h|
  {
    h[i].BuildAttempt? && Completes(identity, RunTasks(identity, h[..i]).row, h[i])
  }

  ghost predicate LastSource(identity: Identity, h: seq<TaskRun>, i: nat)
    requires forall t | t in h :: WellFormed(t)
  {
    && i < |h| && CompletedSource(identity, h, i)
    && forall j | i < j < |h| :: !CompletedSource(identity, h, j)
  }

  ghost predicate CompletedSource(identity: Identity, h: seq<TaskRun>, i: nat)
    requires (forall t | t in h :: WellFormed(t)) && i < |h|
  {
    h[i].SourceAttempt? && Completes(identity, RunTasks(identity, h[..i]).row, h[i])
  }

  lemma {:induction false} TracksLastBuild(identity: Identity, h: seq<TaskRun>) returns (i: nat)
    requires (forall t | t in h :: WellFormed(t)) && RunTasks(identity, h).build.Some?
    ensures LastBuild(identity, h, i) && RunTasks(identity, h).build == Some(h[i].build.outcome.summary)
  {
    hide Completes, Effect;
    var n := |h| - 1;
    var p := h[..n];
    if CompletedBuild(identity, h, n) {
      i := n;
    } else {
      i := TracksLastBuild(identity, p);
      assert forall j: nat | j < n :: p[..j] == h[..j];
      assert forall j: nat | j < n :: CompletedBuild(identity, p, j) <==> CompletedBuild(identity, h, j);
    }
  }

  lemma {:induction false} TracksLastSource(identity: Identity, h: seq<TaskRun>) returns (i: nat)
    requires (forall t | t in h :: WellFormed(t)) && RunTasks(identity, h).source.Some?
    ensures LastSource(identity, h, i) && RunTasks(identity, h).source == Some(EvidenceOf(h[i].source))
  {
    hide Effect;
    var n := |h| - 1;
    var p := h[..n];
    if CompletedSource(identity, h, n) {
      i := n;
    } else {
      i := TracksLastSource(identity, p);
      assert forall j: nat | j < n :: p[..j] == h[..j];
      assert forall j: nat | j < n :: CompletedSource(identity, p, j) <==> CompletedSource(identity, h, j);
    }
  }

  /** The row's dbt columns are those of the last completed build. */
  ghost predicate ShowsLastBuild(identity: Identity, h: seq<TaskRun>, i: nat, r: Row)
    requires forall t | t in h :: WellFormed(t)
  {
    && LastBuild(identity, h, i)
    && var dbt := h[i].build.outcome.summary;
       r.invocationId == dbt.invocationId && r.resultSummary == Some(dbt.artifact) && r.counts == dbt.counts
  }

  /** The row's source columns are those of the last completed source check. */
  ghost predicate ShowsLastSource(identity: Identity, h: seq<TaskRun>, i: nat, r: Row)
    requires forall t | t in h :: WellFormed(t)
  {
    && LastSource(identity, h, i)
    && var env := h[i].source;
       && r.startedAt == env.startedAt && r.sourceRelation == env.relation
       && r.sourceMaximum == env.reading.maximum && r.sourceDelay == Delay(env.startedAt, env.reading.maximum)
       && r.freshness == Some(env.freshness.summary.artifact)
  }

  /**
   * For every order of attempts, retries, deaths and failure callbacks that the DAG allows, a
   * succeeded row has no error, the counts, summary and invocation of the last completed build,
   * and the watermark and freshness of the last completed source check.
   */
  lemma SuccessCarriesEvidence(identity: Identity, h: seq<TaskRun>)
    requires (forall t | t in h :: WellFormed(t)) && identity.Valid() && InOrder(identity, h)
    requires RunTasks(identity, h).row.Some? && RunTasks(identity, h).row.value.status.Succeeded?
    ensures var r := RunTasks(identity, h).row.value;
            && r.errorCategory.None? && r.errorSummary.None? && r.finishedAt.Some? && r.finishedAt.value >= r.startedAt
            && (exists i: nat :: ShowsLastBuild(identity, h, i, r))
            && (exists i: nat :: ShowsLastSource(identity, h, i, r))
  {
    hide RunTasks, LastBuild, LastSource;
    RunIsConsistent(identity, h);
    var i := TracksLastBuild(identity, h);
    var j := TracksLastSource(identity, h);
    assert ShowsLastBuild(identity, h, i, RunTasks(identity, h).row.value);
    assert ShowsLastSource(identity, h, j, RunTasks(identity, h).row.value);
  }
}
